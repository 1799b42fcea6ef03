/**
 Due webhook deliveries: the plain claim/process/record loop of the event consumer
 (internal/apps/worker/due_webhook_consumer.go) and the pipelined poller
 (internal/apps/worker/due_webhook_delivery_processor.go).
 */
module WebhookDelivery {
  import opened Collections
  import opened Pipeline
  import opened PipelineTheorems
  import opened BatchOptions

  datatype Delivery = Delivery(id: string, workspaceId: string, targetUrl: string)

  /** A processed delivery and the outcome the webhook service reported. */
  datatype Outcome = Outcome(delivery: Delivery, outcome: string)

  datatype Operation = Operation(opType: string, status: string, workspaceId: string, consumer: string, target: string)

  const LOOP_CONSUMER := "webhooks.due_webhook_consumer"
  const POLL_CONSUMER := "webhooks.process_due_deliveries"

  function StatusOf(outcome: string): string {
    if outcome == "succeeded" then "success"
    else if outcome == "failed" then "failure"
    else if outcome == "retry_scheduled" then "retry"
    else outcome
  }

  /** What recording one outcome appends: nothing without a recorder or a workspace. */
  function Record(recorder: bool, consumer: string, o: Outcome): seq<Operation> {
    if !recorder || o.delivery.workspaceId == "" then []
    else [Operation("webhook_" + o.outcome, StatusOf(o.outcome), o.delivery.workspaceId, consumer, o.delivery.targetUrl)]
  }

  function RecordAll(recorder: bool, consumer: string, os: seq<Outcome>): seq<Operation> {
    if os == [] then []
    else RecordAll(recorder, consumer, os[..|os| - 1]) + Record(recorder, consumer, os[|os| - 1])
  }

  lemma RecordAllAppend(recorder: bool, consumer: string, os: seq<Outcome>, o: Outcome)
    ensures RecordAll(recorder, consumer, os + [o]) == RecordAll(recorder, consumer, os) + Record(recorder, consumer, o)
  {
    assert (os + [o])[..|os|] == os;
  }

  lemma {:induction false} RecordAllConcat(recorder: bool, consumer: string, a: seq<Outcome>, b: seq<Outcome>)
    ensures RecordAll(recorder, consumer, a + b) == RecordAll(recorder, consumer, a) + RecordAll(recorder, consumer, b)
    decreases |b|
  {
    if b == [] {
      assert a + b == a;
    } else {
      var n := |b| - 1;
      assert a + b == (a + b[..n]) + [b[n]];
      RecordAllConcat(recorder, consumer, a, b[..n]);
      RecordAllAppend(recorder, consumer, a + b[..n], b[n]);
    }
  }

  /** ProcessDueDelivery as the pipeline's keep function: an error drops the delivery. */
  function Keep(process: Delivery -> Option<string>): Delivery -> Option<Outcome> {
    d => if process(d).Some? then Some(Outcome(d, process(d).value)) else None
  }

  /** The simple form: process each claimed delivery in turn, record the ones that did not fail. */
  method PlainLoop(deliveries: seq<Delivery>, process: Delivery -> Option<string>, recorder: bool)
    returns (ops: seq<Operation>)
    ensures ops == RecordAll(recorder, LOOP_CONSUMER, FilterMap(Keep(process), deliveries))
  {
    ops := [];
    for i := 0 to |deliveries|
      invariant ops == RecordAll(recorder, LOOP_CONSUMER, FilterMap(Keep(process), deliveries[..i]))
    {
      var d := deliveries[i];
      assert deliveries[..i + 1] == deliveries[..i] + [d];
      FilterMapAppend(Keep(process), deliveries[..i], d);
      var outcome := process(d);
      if outcome.Some? {
        RecordAllAppend(recorder, LOOP_CONSUMER, FilterMap(Keep(process), deliveries[..i]), Outcome(d, outcome.value));
        ops := ops + Record(recorder, LOOP_CONSUMER, Outcome(d, outcome.value));
      } else {
        assert FilterMap(Keep(process), deliveries[..i + 1]) == FilterMap(Keep(process), deliveries[..i]);
      }
    }
    assert deliveries[..|deliveries|] == deliveries;
  }

  /** The pipeline's writer: record a batch of outcomes in order. */
  method RecordBatch(recorder: bool, batch: seq<Outcome>) returns (ops: seq<Operation>)
    ensures ops == RecordAll(recorder, POLL_CONSUMER, batch)
  {
    ops := [];
    for i := 0 to |batch|
      invariant ops == RecordAll(recorder, POLL_CONSUMER, batch[..i])
    {
      assert batch[..i + 1] == batch[..i] + [batch[i]];
      RecordAllAppend(recorder, POLL_CONSUMER, batch[..i], batch[i]);
      ops := ops + Record(recorder, POLL_CONSUMER, batch[i]);
    }
    assert batch[..|batch|] == batch;
  }

  /** Every batch in turn through the writer. */
  function RecordBatches(recorder: bool, batches: seq<seq<Outcome>>): seq<Operation> {
    if batches == [] then []
    else RecordBatches(recorder, batches[..|batches| - 1]) + RecordAll(recorder, POLL_CONSUMER, batches[|batches| - 1])
  }

  lemma {:induction false} RecordBatchesFlat(recorder: bool, batches: seq<seq<Outcome>>)
    ensures RecordBatches(recorder, batches) == RecordAll(recorder, POLL_CONSUMER, Flatten(batches))
    decreases |batches|
  {
    if batches == [] {
    } else {
      var n := |batches| - 1;
      RecordBatchesFlat(recorder, batches[..n]);
      RecordAllConcat(recorder, POLL_CONSUMER, Flatten(batches[..n]), batches[n]);
    }
  }

  function Relabel(consumer: string, ops: seq<Operation>): seq<Operation> {
    seq(|ops|, i requires 0 <= i < |ops| => ops[i].(consumer := consumer))
  }

  /** The recorder label is the only thing in which the two forms can differ. */
  lemma {:induction false} RecordAllRelabel(recorder: bool, from: string, to: string, os: seq<Outcome>)
    ensures RecordAll(recorder, to, os) == Relabel(to, RecordAll(recorder, from, os))
    decreases |os|
  {
    if os == [] {
    } else {
      RecordAllRelabel(recorder, from, to, os[..|os| - 1]);
    }
  }

  // ---- the pipelined form ----

  function BatchLimit(batchSize: int, claimed: nat): int {
    if batchSize > 0 then batchSize else if claimed > 0 then claimed else 1
  }

  function PollOptions(batchSize: int, claimed: nat): Options {
    var n := BatchLimit(batchSize, claimed);
    Options(0, 0, n, n, 1, n)
  }

  function PollConfig(batchSize: int, deliveries: seq<Delivery>, process: Delivery -> Option<string>): Config<Delivery, Outcome> {
    var n: nat := BatchLimit(batchSize, |deliveries|);
    Config(Limits(1, n, n, n), deliveries, Keep(process))
  }

  /** NewPipeline never refuses the poller's options, whatever batch size is configured. */
  lemma PollOptionsAccepted(batchSize: int, deliveries: seq<Delivery>, process: Delivery -> Option<string>, numCpu: nat)
    ensures var v := NewPipeline(PollOptions(batchSize, |deliveries|), numCpu, true, true, true);
            v.Accepted? && v.opts.concurrency == 1 && v.opts.bufferedItems >= 0 && v.opts.writeBatch >= 0
            && v.opts.maxInflight >= 0 && LimitsOf(v.opts) == PollConfig(batchSize, deliveries, process).limits
    ensures ValidLimits(PollConfig(batchSize, deliveries, process).limits)
  {}

  lemma RecordAllPrefix(recorder: bool, consumer: string, a: seq<Outcome>, b: seq<Outcome>)
    requires a <= b
    ensures RecordAll(recorder, consumer, a) <= RecordAll(recorder, consumer, b)
  {
    assert b == a + b[|a|..];
    RecordAllConcat(recorder, consumer, a, b[|a|..]);
  }

  /** The pipelined poller refines the plain loop: at every moment its recorded operations are, up
      to the label, a prefix of the loop's; if Run returns nil every delivery was processed exactly
      once, in order, and the records are all of the loop's. Its callbacks return no errors, so
      only the caller's cancellation can make Run return anything else. */
  lemma PollRefinesLoop(batchSize: int, deliveries: seq<Delivery>, process: Delivery -> Option<string>, recorder: bool,
                        acts: seq<Action>, s: State<Delivery, Outcome>)
    requires Reaches(PollConfig(batchSize, deliveries, process), acts, s)
    requires forall k :: 0 <= k < |acts| ==> !CallbackError(acts[k])
    ensures var loop := RecordAll(recorder, LOOP_CONSUMER, FilterMap(Keep(process), deliveries));
            && RecordBatches(recorder, s.hist.batches) <= Relabel(POLL_CONSUMER, loop)
            && (s.main == MReturned(None) ==>
                  s.hist.processed == deliveries && RecordBatches(recorder, s.hist.batches) == Relabel(POLL_CONSUMER, loop))
    ensures s.main.MReturned? && CallerCancel !in acts ==> s.main.result == None
  {
    var c := PollConfig(batchSize, deliveries, process);
    PollOptionsAccepted(batchSize, deliveries, process, 1);
    SingleProcessorOrder(c, acts, s);
    RecordBatchesFlat(recorder, s.hist.batches);
    RecordAllPrefix(recorder, POLL_CONSUMER, Written(s), FilterMap(Keep(process), deliveries));
    RecordAllRelabel(recorder, LOOP_CONSUMER, POLL_CONSUMER, FilterMap(Keep(process), deliveries));
    if s.main.MReturned? && CallerCancel !in acts {
      UndisturbedRun(c, acts, s);
    }
  }

  // ---- what is recorded ----

  /** One recorded outcome, in the words of the operations log. */
  lemma RecordedOutcome(recorder: bool, consumer: string, o: Outcome)
    ensures !recorder || o.delivery.workspaceId == "" ==> Record(recorder, consumer, o) == []
    ensures recorder && o.delivery.workspaceId != "" ==>
              var r := Record(recorder, consumer, o);
              && |r| == 1 && r[0].opType == "webhook_" + o.outcome
              && r[0].workspaceId == o.delivery.workspaceId && r[0].target == o.delivery.targetUrl
              && r[0].consumer == consumer
              && (o.outcome == "succeeded" ==> r[0].status == "success")
              && (o.outcome == "failed" ==> r[0].status == "failure")
              && (o.outcome == "retry_scheduled" ==> r[0].status == "retry")
              && (o.outcome !in {"succeeded", "failed", "retry_scheduled"} ==> r[0].status == o.outcome)
  {}

  predicate RecordOf(op: Operation, d: Delivery, process: Delivery -> Option<string>, consumer: string) {
    && process(d).Some? && op.opType == "webhook_" + process(d).value
    && op.workspaceId == d.workspaceId && op.target == d.targetUrl && op.consumer == consumer
  }

  /** The recorded sequence: one entry per delivery that has a workspace and did not fail, in order. */
  lemma {:induction false} LoopRecords(deliveries: seq<Delivery>, process: Delivery -> Option<string>, consumer: string)
    ensures var kept, ops := Recorded(deliveries, process), RecordAll(true, consumer, FilterMap(Keep(process), deliveries));
            |ops| == |kept| && forall k :: 0 <= k < |kept| ==> RecordOf(ops[k], kept[k], process, consumer)
    decreases |deliveries|
  {
    if deliveries == [] {
    } else {
      var n := |deliveries| - 1;
      var d, before := deliveries[n], FilterMap(Keep(process), deliveries[..n]);
      LoopRecords(deliveries[..n], process, consumer);
      if process(d).Some? {
        var o := Outcome(d, process(d).value);
        assert FilterMap(Keep(process), deliveries) == before + [o];
        RecordAllAppend(true, consumer, before, o);
      } else {
        assert FilterMap(Keep(process), deliveries) == before;
      }
    }
  }

  lemma ConsumerLabels()
    ensures LOOP_CONSUMER == "webhooks.due_webhook_consumer" && POLL_CONSUMER == "webhooks.process_due_deliveries"
  {}

  /** The deliveries with a workspace whose processing did not fail. */
  function Recorded(deliveries: seq<Delivery>, process: Delivery -> Option<string>): seq<Delivery> {
    if deliveries == [] then []
    else
      var d := deliveries[|deliveries| - 1];
      Recorded(deliveries[..|deliveries| - 1], process)
      + (if d.workspaceId != "" && process(d).Some? then [d] else [])
  }

  /** The poller runs one processor, with every capacity equal to the configured batch size, or to the number of
      claimed deliveries when none is configured. */
  lemma PollLimits(batchSize: int, deliveries: seq<Delivery>, process: Delivery -> Option<string>)
    ensures var l := PollConfig(batchSize, deliveries, process).limits;
            && l.procs == 1 && l.buffered == l.batch == l.inflight
            && (batchSize > 0 ==> l.batch == batchSize)
            && (batchSize <= 0 && deliveries != [] ==> l.batch == |deliveries|)
            && (batchSize <= 0 && deliveries == [] ==> l.batch == 1)
  {}
}
