/** Option defaulting and validation of the batching pipeline (internal/platform/batching). */
module BatchOptions {
  import Pipeline

  datatype Options = Options(
    shardId: int, totalShards: int, bufferedItems: int,
    writeBatch: int, concurrency: int, maxInflight: int)

  datatype OptionError =
    | BadTotalShards | BadShardId | BadBuffer | BadWriteBatch | BadConcurrency | InflightBelowBatch
    | ReaderMissing | ProcessorMissing | WriterMissing

  datatype Checked = Accepted(opts: Options) | Refused(error: OptionError)

  function Min(a: int, b: int): int { if a < b then a else b }

  function WithDefaults(o: Options, numCpu: nat): Options {
    Options(
      o.shardId,
      if o.totalShards == 0 then 1 else o.totalShards,
      if o.bufferedItems == 0 then 5000 else o.bufferedItems,
      if o.writeBatch == 0 then 500 else o.writeBatch,
      if o.concurrency == 0 then Min(numCpu, 8) else o.concurrency,
      if o.maxInflight == 0 then 10000 else o.maxInflight)
  }

  function Validate(o: Options): Checked {
    if o.totalShards <= 0 then Refused(BadTotalShards)
    else if o.shardId < 0 || o.shardId >= o.totalShards then Refused(BadShardId)
    else if o.bufferedItems <= 0 then Refused(BadBuffer)
    else if o.writeBatch <= 0 then Refused(BadWriteBatch)
    else if o.concurrency <= 0 then Refused(BadConcurrency)
    else if o.maxInflight < o.writeBatch then Refused(InflightBelowBatch)
    else Accepted(o)
  }

  function NewPipeline(o: Options, numCpu: nat, hasReader: bool, hasProcessor: bool, hasWriter: bool): Checked {
    var v := Validate(WithDefaults(o, numCpu));
    if v.Refused? then v
    else if !hasReader then Refused(ReaderMissing)
    else if !hasProcessor then Refused(ProcessorMissing)
    else if !hasWriter then Refused(WriterMissing)
    else v
  }

  /** The run-time limits of accepted options. */
  function LimitsOf(o: Options): Pipeline.Limits
    requires o.concurrency >= 0 && o.bufferedItems >= 0 && o.writeBatch >= 0 && o.maxInflight >= 0
  {
    Pipeline.Limits(o.concurrency, o.bufferedItems, o.writeBatch, o.maxInflight)
  }

  /** Accepted options are exactly those under which a run is proved to make progress. */
  lemma AcceptedMeansValid(o: Options)
    ensures Validate(o).Accepted? <==>
              && 0 <= o.shardId < o.totalShards
              && o.concurrency >= 0 && o.bufferedItems >= 0 && o.writeBatch >= 0 && o.maxInflight >= 0
              && Pipeline.ValidLimits(LimitsOf(o))
    ensures Validate(o).Accepted? ==> Validate(o).opts == o
  {}

  datatype Shards = Built(opts: seq<Options>) | NotBuilt(error: OptionError)

  /** The construction loop of ExecuteWithOptions: all shards are built, numbered in order, or the
      first refusal is returned; as shards differ only in their number, one refusal means all. */
  method BuildShards(totalShards: int, o: Options, numCpu: nat, hasReader: bool, hasProcessor: bool, hasWriter: bool)
    returns (r: Shards)
    ensures r.Built? ==>
              && |r.opts| == (if totalShards <= 0 then 1 else totalShards)
              && forall k :: 0 <= k < |r.opts| ==>
                   && r.opts[k] == WithDefaults(o, numCpu).(shardId := k, totalShards := |r.opts|)
                   && Validate(r.opts[k]).Accepted?
    ensures r.Built? <==>
              && hasReader && hasProcessor && hasWriter
              && Validate(WithDefaults(o, numCpu).(shardId := 0, totalShards := 1)).Accepted?
  {
    var total := if totalShards <= 0 then 1 else totalShards;
    var built: seq<Options> := [];
    for k := 0 to total
      invariant |built| == k
      invariant forall j :: 0 <= j < k ==>
                  && built[j] == WithDefaults(o, numCpu).(shardId := j, totalShards := total)
                  && Validate(built[j]).Accepted?
      invariant k > 0 ==> hasReader && hasProcessor && hasWriter
    {
      var v := NewPipeline(o.(shardId := k, totalShards := total), numCpu, hasReader, hasProcessor, hasWriter);
      if v.Refused? {
        return NotBuilt(v.error);
      }
      built := built + [v.opts];
    }
    assert Validate(built[0]).Accepted?;
    return Built(built);
  }

  /** Zero stands for the default of each option, and anything else for itself. */
  lemma Defaults(o: Options, numCpu: nat)
    ensures var d := WithDefaults(o, numCpu);
            && d.shardId == o.shardId
            && d.totalShards == (if o.totalShards == 0 then 1 else o.totalShards)
            && d.bufferedItems == (if o.bufferedItems == 0 then 5000 else o.bufferedItems)
            && d.writeBatch == (if o.writeBatch == 0 then 500 else o.writeBatch)
            && d.maxInflight == (if o.maxInflight == 0 then 10000 else o.maxInflight)
            && (o.concurrency != 0 ==> d.concurrency == o.concurrency)
            && (o.concurrency == 0 ==> d.concurrency <= 8 && d.concurrency <= numCpu
                                       && (d.concurrency == 8 || d.concurrency == numCpu))
  {}

  /** The options left at their defaults are accepted on any machine with a processor. */
  lemma DefaultsAccepted(numCpu: nat)
    requires numCpu > 0
    ensures NewPipeline(Options(0, 0, 0, 0, 0, 0), numCpu, true, true, true).Accepted?
  {}

  /** Which error a refusal gives: that of the first check that fails. */
  lemma RefusalReason(o: Options)
    ensures Validate(o).Refused? ==>
              match Validate(o).error
              case BadTotalShards => o.totalShards <= 0
              case BadShardId => o.totalShards > 0 && !(0 <= o.shardId < o.totalShards)
              case BadBuffer => 0 <= o.shardId < o.totalShards && o.bufferedItems <= 0
              case BadWriteBatch => 0 <= o.shardId < o.totalShards && o.bufferedItems > 0 && o.writeBatch <= 0
              case BadConcurrency => o.bufferedItems > 0 && o.writeBatch > 0 && o.concurrency <= 0
              case InflightBelowBatch => o.concurrency > 0 && 0 < o.writeBatch && o.maxInflight < o.writeBatch
              case _ => false
  {}
}
