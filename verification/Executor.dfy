/**
 Shard fan-out (internal/platform/batching/executor.go): one pipeline run per shard under a shared
 context, an error channel with room for every shard, and a collector that keeps the first error.

 The state is the product of the pipelines' own states with a wrapper goroutine per shard and the
 collector; a shard's pipeline sees the shared context as its caller's context.
 */
module Executor {
  import opened Collections
  import opened Pipeline
  import opened PipelineInvariant
  import opened PipelineFlow
  import opened PipelineProvenance
  import opened PipelineTheorems

  datatype WrapperPc = Running | Cancelling | Finished

  datatype CollectorPc = Collecting | SharedCancel | Returned(result: Option<Failure>)

  datatype Pool<I, O> = Pool(
    shards: seq<State<I, O>>, wrappers: seq<WrapperPc>, collector: CollectorPc,
    errCh: seq<Option<Failure>>, received: nat, first: Option<Failure>,
    cancelled: bool, callerCancelled: bool,
    log: seq<Option<Failure>>) // history: every result a wrapper sent, in order

  datatype PoolAction =
    | ShardStep(k: nat, a: Action) | ShardReturn(k: nat) | ShardCancel(k: nat)
    | Receive | CancelShared | Finish | ExternalCancel

  function PoolInit<I, O>(cs: seq<Config<I, O>>): Pool<I, O> {
    Pool(seq(|cs|, i requires 0 <= i < |cs| => Init(cs[i])), seq(|cs|, _ => Running), Collecting,
         [], 0, None, false, false, [])
  }

  predicate PoolEnabled<I, O>(cs: seq<Config<I, O>>, x: Pool<I, O>, a: PoolAction)
    requires |x.shards| == |x.wrappers| == |cs|
  {
    match a
    case ShardStep(k, p) => k < |cs| && Enabled(cs[k], x.shards[k], p) && (p.CallerCancel? ==> x.cancelled)
    case ShardReturn(k) =>
      k < |cs| && x.wrappers[k].Running? && x.shards[k].main.MReturned? && |x.errCh| < |cs|
    case ShardCancel(k) => k < |cs| && x.wrappers[k].Cancelling?
    case Receive => x.collector.Collecting? && x.received < |cs| && x.errCh != []
    case CancelShared => x.collector.SharedCancel?
    case Finish => x.collector.Collecting? && x.received == |cs|
    case ExternalCancel => !x.callerCancelled && !x.collector.Returned?
  }

  function PoolApply<I, O>(cs: seq<Config<I, O>>, x: Pool<I, O>, a: PoolAction): (y: Pool<I, O>)
    requires |x.shards| == |x.wrappers| == |cs| && PoolEnabled(cs, x, a)
    ensures |y.shards| == |y.wrappers| == |cs|
  {
    match a
    case ShardStep(k, p) => x.(shards := x.shards[k := Apply(cs[k], x.shards[k], p)])
    case ShardReturn(k) =>
      var r := x.shards[k].main.result;
      x.(errCh := x.errCh + [r], log := x.log + [r],
         wrappers := x.wrappers[k := if r.Some? then Cancelling else Finished])
    case ShardCancel(k) => x.(wrappers := x.wrappers[k := Finished], cancelled := true)
    case Receive =>
      var r := x.errCh[0];
      var y := x.(errCh := x.errCh[1..], received := x.received + 1);
      if r.Some? && x.first.None? then y.(first := r, collector := SharedCancel) else y
    case CancelShared => x.(collector := Collecting, cancelled := true)
    case Finish => x.(collector := Returned(x.first))
    case ExternalCancel => x.(callerCancelled := true, cancelled := true)
  }

  function PoolRun<I, O>(cs: seq<Config<I, O>>, acts: seq<PoolAction>): (r: Option<Pool<I, O>>)
    ensures r.Some? ==> |r.value.shards| == |r.value.wrappers| == |cs|
  {
    if acts == [] then Some(PoolInit(cs))
    else
      var prev := PoolRun(cs, acts[..|acts| - 1]);
      var a := acts[|acts| - 1];
      if prev.Some? && PoolEnabled(cs, prev.value, a) then Some(PoolApply(cs, prev.value, a)) else None
  }

  ghost predicate PoolReaches<I, O>(cs: seq<Config<I, O>>, acts: seq<PoolAction>, x: Pool<I, O>) {
    PoolRun(cs, acts) == Some(x)
  }

  function FirstError(log: seq<Option<Failure>>): Option<Failure> {
    if log == [] then None
    else
      var before := FirstError(log[..|log| - 1]);
      if before.Some? then before else log[|log| - 1]
  }

  lemma FirstErrorAppend(log: seq<Option<Failure>>, r: Option<Failure>)
    ensures FirstError(log + [r]) == if FirstError(log).Some? then FirstError(log) else r
  {
    assert (log + [r])[..|log|] == log;
  }

  function Sent(w: WrapperPc): nat { if w.Running? then 0 else 1 }

  // ---- invariant ----

  /** What the pool relies on about shard k: it sees only the shared cancellation, and a wrapper
      that moved on has sent its pipeline's result. */
  ghost predicate ShardOk<I, O>(s: State<I, O>, w: WrapperPc, x: Pool<I, O>) {
    && (s.ctx.callerCancelled ==> x.cancelled)
    && (w.Cancelling? ==> FirstError(x.log).Some?)
    && (!w.Running? ==> s.main.MReturned? && (s.main.result.Some? ==> FirstError(x.log).Some?))
    && (w.Finished? && s.main.result.Some? ==> x.cancelled)
  }

  ghost predicate Source<I, O>(x: Pool<I, O>, f: Option<Failure>) {
    exists k :: 0 <= k < |x.shards| && x.shards[k].main == MReturned(f)
  }

  ghost predicate LogOk<I, O>(x: Pool<I, O>) {
    && |x.log| == Total(Sent, x.wrappers)
    && x.received <= |x.log| && x.errCh == x.log[x.received..]
    && x.first == FirstError(x.log[..x.received])
    && (x.collector.SharedCancel? ==> x.first.Some?)
    && (x.first.Some? && !x.collector.SharedCancel? ==> x.cancelled)
    && (x.collector.Returned? ==> x.received == |x.wrappers| && x.collector.result == x.first)
    && (x.callerCancelled ==> x.cancelled)
    && (x.cancelled ==> x.callerCancelled || FirstError(x.log).Some?)
    && (FirstError(x.log).Some? ==> Source(x, FirstError(x.log)))
    && (FirstError(x.log).Some? && !x.callerCancelled ==>
          FirstError(x.log).value.Callback? && FirstError(x.log).value.early)
  }

  ghost predicate Linked<I, O>(x: Pool<I, O>) {
    && |x.shards| == |x.wrappers|
    && (forall k :: 0 <= k < |x.shards| ==> ShardOk(x.shards[k], x.wrappers[k], x))
    && LogOk(x)
  }

  ghost predicate ShardsInv<I(!new), O(!new)>(cs: seq<Config<I, O>>, shards: seq<State<I, O>>) {
    |shards| == |cs| && forall k :: 0 <= k < |cs| ==> Inv(cs[k], shards[k])
  }

  ghost predicate PoolInv<I(!new), O(!new)>(cs: seq<Config<I, O>>, x: Pool<I, O>) {
    Linked(x) && ShardsInv(cs, x.shards)
  }

  ghost predicate AllValid<I, O>(cs: seq<Config<I, O>>) {
    forall k :: 0 <= k < |cs| ==> ValidLimits(cs[k].limits)
  }

  lemma PoolInitInv<I(!new), O(!new)>(cs: seq<Config<I, O>>)
    requires AllValid(cs)
    ensures PoolInv(cs, PoolInit(cs))
  {
    var x := PoolInit(cs);
    TotalUniform(Sent, x.wrappers, 0);
    forall k | 0 <= k < |cs| ensures Inv(cs[k], x.shards[k]) {
      InitInv(cs[k]);
    }
  }

  lemma {:induction false} FirstErrorPrefix(log: seq<Option<Failure>>, n: nat)
    requires n <= |log| && FirstError(log[..n]).Some?
    ensures FirstError(log) == FirstError(log[..n])
    decreases |log| - n
  {
    if n < |log| {
      assert log[..n + 1] == log[..n] + [log[n]];
      FirstErrorAppend(log[..n], log[n]);
      FirstErrorPrefix(log, n + 1);
    } else {
      assert log[..n] == log;
    }
  }

  lemma {:induction false} TotalBounded<T>(f: T -> nat, s: seq<T>)
    requires forall i :: 0 <= i < |s| ==> f(s[i]) <= 1
    ensures Total(f, s) <= |s|
    ensures Total(f, s) == |s| ==> forall i :: 0 <= i < |s| ==> f(s[i]) == 1
    decreases |s|
  {
    if s == [] {
    } else {
      TotalBounded(f, s[1..]);
      if Total(f, s) == |s| {
        forall i | 0 <= i < |s| ensures f(s[i]) == 1 {
          if i > 0 { assert s[i] == s[1..][i - 1]; }
        }
      }
    }
  }

  lemma ShardStepShards<I(!new), O(!new)>(cs: seq<Config<I, O>>, x: Pool<I, O>, k: nat, p: Action)
    requires AllValid(cs) && PoolInv(cs, x) && PoolEnabled(cs, x, ShardStep(k, p))
    ensures ShardsInv(cs, PoolApply(cs, x, ShardStep(k, p)).shards)
  {
    InvStep(cs[k], x.shards[k], p);
  }

  lemma OnlyCallerCancels<I, O>(c: Config<I, O>, s: State<I, O>, a: Action)
    requires Shape(c, s) && Enabled(c, s, a)
    ensures Apply(c, s, a).ctx.callerCancelled == (s.ctx.callerCancelled || a.CallerCancel?)
    ensures !s.main.MReturned?
  {
    match a
    case Reader(r) =>
    case Proc(i, p) =>
    case Writer(w) =>
    case Main(m) =>
    case CloseOutput =>
    case CallerCancel =>
  }

  lemma ShardStepLinked<I, O>(cs: seq<Config<I, O>>, x: Pool<I, O>, k: nat, p: Action)
    requires Linked(x) && |x.shards| == |cs| && PoolEnabled(cs, x, ShardStep(k, p)) && Shape(cs[k], x.shards[k])
    ensures Linked(PoolApply(cs, x, ShardStep(k, p)))
  {
    var s' := Apply(cs[k], x.shards[k], p);
    OnlyCallerCancels(cs[k], x.shards[k], p);
    ReplaceRunning(x, k, s');
  }

  /** Replacing the state of a pipeline that has not returned keeps the pool linked. */
  lemma ReplaceRunning<I, O>(x: Pool<I, O>, k: nat, s': State<I, O>)
    requires Linked(x) && k < |x.shards| && !x.shards[k].main.MReturned?
    requires s'.ctx.callerCancelled ==> x.cancelled
    ensures Linked(x.(shards := x.shards[k := s']))
  {
    var y := x.(shards := x.shards[k := s']);
    assert ShardOk(x.shards[k], x.wrappers[k], x);
    forall j | 0 <= j < |y.shards| ensures ShardOk(y.shards[j], y.wrappers[j], y) {
      assert ShardOk(x.shards[j], x.wrappers[j], x);
    }
    if FirstError(x.log).Some? {
      var j :| 0 <= j < |x.shards| && x.shards[j].main == MReturned(FirstError(x.log));
      assert y.shards[j].main == x.shards[j].main;
    }
  }

  lemma SourceKept<I, O>(x: Pool<I, O>, y: Pool<I, O>, f: Option<Failure>)
    requires Source(x, f) && y.shards == x.shards
    ensures Source(y, f)
  {
    var j :| 0 <= j < |x.shards| && x.shards[j].main == MReturned(f);
    assert y.shards[j].main == MReturned(f);
  }

  lemma ReturnLog<I, O>(cs: seq<Config<I, O>>, x: Pool<I, O>, k: nat)
    requires Linked(x) && |x.shards| == |cs| && PoolEnabled(cs, x, ShardReturn(k))
    ensures var y := PoolApply(cs, x, ShardReturn(k));
            && |y.log| == Total(Sent, y.wrappers)
            && y.errCh == y.log[y.received..] && y.log[..y.received] == x.log[..x.received]
  {
    var y := PoolApply(cs, x, ShardReturn(k));
    TotalUpdate(Sent, x.wrappers, k, y.wrappers[k]);
    assert y.log[y.received..] == x.log[x.received..] + [x.shards[k].main.result];
  }

  lemma ReturnLinked<I, O>(cs: seq<Config<I, O>>, x: Pool<I, O>, k: nat)
    requires Linked(x) && |x.shards| == |cs| && PoolEnabled(cs, x, ShardReturn(k)) && Control(cs[k], x.shards[k])
    ensures Linked(PoolApply(cs, x, ShardReturn(k))) && PoolApply(cs, x, ShardReturn(k)).shards == x.shards
  {
    var y := PoolApply(cs, x, ShardReturn(k));
    var r := x.shards[k].main.result;
    ReturnProvenance(cs[k], x.shards[k]);
    assert ShardOk(x.shards[k], x.wrappers[k], x);
    FirstErrorAppend(x.log, r);
    ReturnLog(cs, x, k);
    forall j | 0 <= j < |cs| ensures ShardOk(y.shards[j], y.wrappers[j], y) {
      assert ShardOk(x.shards[j], x.wrappers[j], x);
    }
    if FirstError(x.log).Some? {
      SourceKept(x, y, FirstError(x.log));
    } else {
      assert y.shards[k].main == MReturned(r);
    }
  }

  lemma ShardCancelLinked<I, O>(cs: seq<Config<I, O>>, x: Pool<I, O>, k: nat)
    requires Linked(x) && |x.shards| == |cs| && PoolEnabled(cs, x, ShardCancel(k))
    ensures Linked(PoolApply(cs, x, ShardCancel(k))) && PoolApply(cs, x, ShardCancel(k)).shards == x.shards
  {
    var y := PoolApply(cs, x, ShardCancel(k));
    assert ShardOk(x.shards[k], x.wrappers[k], x);
    TotalUpdate(Sent, x.wrappers, k, Finished);
    forall j | 0 <= j < |cs| ensures ShardOk(y.shards[j], y.wrappers[j], y) {
      assert ShardOk(x.shards[j], x.wrappers[j], x);
    }
    if FirstError(x.log).Some? {
      SourceKept(x, y, FirstError(x.log));
    }
  }

  lemma ReceiveLog<I, O>(cs: seq<Config<I, O>>, x: Pool<I, O>)
    requires Linked(x) && |x.shards| == |cs| && PoolEnabled(cs, x, Receive)
    ensures var y := PoolApply(cs, x, Receive);
            y.errCh == y.log[y.received..] && y.first == FirstError(y.log[..y.received])
  {
    var n := x.received;
    assert x.log[..n + 1] == x.log[..n] + [x.log[n]];
    FirstErrorAppend(x.log[..n], x.log[n]);
  }

  lemma CollectLinked<I, O>(cs: seq<Config<I, O>>, x: Pool<I, O>, a: PoolAction)
    requires Linked(x) && |x.shards| == |cs| && PoolEnabled(cs, x, a)
    requires a.Receive? || a.CancelShared? || a.Finish? || a.ExternalCancel?
    ensures Linked(PoolApply(cs, x, a)) && PoolApply(cs, x, a).shards == x.shards
  {
    var y := PoolApply(cs, x, a);
    match a {
      case Receive => ReceiveLog(cs, x);
      case CancelShared => FirstErrorPrefix(x.log, x.received);
      case Finish =>
      case ExternalCancel =>
    }
    forall j | 0 <= j < |cs| ensures ShardOk(y.shards[j], y.wrappers[j], y) {
      assert ShardOk(x.shards[j], x.wrappers[j], x);
    }
    if FirstError(x.log).Some? {
      SourceKept(x, y, FirstError(x.log));
    }
  }

  lemma PoolStep<I(!new), O(!new)>(cs: seq<Config<I, O>>, x: Pool<I, O>, a: PoolAction)
    requires AllValid(cs) && PoolInv(cs, x) && PoolEnabled(cs, x, a)
    ensures PoolInv(cs, PoolApply(cs, x, a))
  {
    match a
    case ShardStep(k, p) =>
      ShardStepShards(cs, x, k, p);
      ShardStepLinked(cs, x, k, p);
    case ShardReturn(k) => ReturnLinked(cs, x, k);
    case ShardCancel(k) => ShardCancelLinked(cs, x, k);
    case _ => CollectLinked(cs, x, a);
  }

  // ---- measure ----

  function ShardsMeasure<I, O>(cs: seq<Config<I, O>>, shards: seq<State<I, O>>): nat
    requires |cs| == |shards|
  {
    if cs == [] then 0 else Measure(cs[0], shards[0]) + ShardsMeasure(cs[1..], shards[1..])
  }

  function WrapperWeight(w: WrapperPc): nat {
    match w
    case Running => 2
    case Cancelling => 1
    case Finished => 0
  }

  function CollectorWeight(p: CollectorPc): nat {
    match p
    case Collecting => 1
    case SharedCancel => 2
    case Returned(_) => 0
  }

  function PoolMeasure<I, O>(cs: seq<Config<I, O>>, x: Pool<I, O>): nat
    requires |x.shards| == |x.wrappers| == |cs|
  {
    ShardsMeasure(cs, x.shards) + Total(WrapperWeight, x.wrappers)
    + 2 * (if x.received <= |cs| then |cs| - x.received else 0) + CollectorWeight(x.collector)
    + (if x.callerCancelled then 0 else 1)
  }

  lemma {:induction false} ShardsUpdate<I, O>(cs: seq<Config<I, O>>, shards: seq<State<I, O>>, k: nat, s: State<I, O>)
    requires k < |cs| == |shards|
    ensures ShardsMeasure(cs, shards[k := s]) + Measure(cs[k], shards[k]) == ShardsMeasure(cs, shards) + Measure(cs[k], s)
    decreases |cs|
  {
    var t := shards[k := s];
    if k == 0 {
      assert t[1..] == shards[1..];
    } else {
      assert t[1..] == shards[1..][k - 1 := s];
      ShardsUpdate(cs[1..], shards[1..], k - 1, s);
    }
  }

  lemma PoolMeasureStep<I, O>(cs: seq<Config<I, O>>, x: Pool<I, O>, a: PoolAction)
    requires |x.shards| == |x.wrappers| == |cs| && PoolEnabled(cs, x, a)
    requires a.ShardStep? ==> Shape(cs[a.k], x.shards[a.k])
    ensures PoolMeasure(cs, PoolApply(cs, x, a)) < PoolMeasure(cs, x)
  {
    match a
    case ShardStep(k, p) =>
      MeasureStep(cs[k], x.shards[k], p);
      ShardsUpdate(cs, x.shards, k, Apply(cs[k], x.shards[k], p));
    case ShardReturn(k) => TotalUpdate(WrapperWeight, x.wrappers, k, PoolApply(cs, x, a).wrappers[k]);
    case ShardCancel(k) => TotalUpdate(WrapperWeight, x.wrappers, k, Finished);
    case Receive =>
    case CancelShared =>
    case Finish =>
    case ExternalCancel =>
  }

  lemma {:induction false} PoolRunInv<I(!new), O(!new)>(cs: seq<Config<I, O>>, acts: seq<PoolAction>, x: Pool<I, O>)
    requires AllValid(cs) && PoolReaches(cs, acts, x)
    ensures PoolInv(cs, x) && |acts| + PoolMeasure(cs, x) <= PoolMeasure(cs, PoolInit(cs))
    decreases |acts|
  {
    if acts == [] {
      PoolInitInv(cs);
    } else {
      var n := |acts| - 1;
      var a := acts[n];
      var w := PoolRun(cs, acts[..n]).value;
      PoolRunInv(cs, acts[..n], w);
      PoolMeasureStep(cs, w, a);
      PoolStep(cs, w, a);
    }
  }

  // ---- theorems ----

  /** Step n took the result f from shard k's finished Run while the shared context was still live. */
  ghost predicate ReturnedLive<I, O>(cs: seq<Config<I, O>>, acts: seq<PoolAction>, n: nat, k: nat, f: Option<Failure>) {
    && n < |acts| && acts[n] == ShardReturn(k) && k < |cs|
    && PoolRun(cs, acts[..n]).Some?
    && !PoolRun(cs, acts[..n]).value.cancelled
    && PoolRun(cs, acts[..n]).value.shards[k].main == MReturned(f)
  }

  lemma LogStep<I, O>(cs: seq<Config<I, O>>, x: Pool<I, O>, a: PoolAction)
    requires |x.shards| == |x.wrappers| == |cs| && PoolEnabled(cs, x, a)
    ensures var y := PoolApply(cs, x, a);
            && (x.callerCancelled ==> y.callerCancelled)
            && FirstError(y.log) == if FirstError(x.log).Some? || !a.ShardReturn? then FirstError(x.log)
                                    else x.shards[a.k].main.result
  {
    match a {
      case ShardReturn(k) => FirstErrorAppend(x.log, x.shards[k].main.result);
      case ShardStep(_, _) =>
      case ShardCancel(_) =>
      case Receive =>
      case CancelShared =>
      case Finish =>
      case ExternalCancel =>
    }
  }

  lemma LiveBeforeErrors<I(!new), O(!new)>(cs: seq<Config<I, O>>, acts: seq<PoolAction>, x: Pool<I, O>)
    requires AllValid(cs) && PoolReaches(cs, acts, x) && !x.callerCancelled && FirstError(x.log).None?
    ensures !x.cancelled
  {
    PoolRunInv(cs, acts, x);
  }

  /** The first error on record was returned while the shared context was live. */
  lemma {:induction false} FirstErrorLive<I(!new), O(!new)>(cs: seq<Config<I, O>>, acts: seq<PoolAction>, x: Pool<I, O>)
    returns (n: nat, k: nat)
    requires AllValid(cs) && PoolReaches(cs, acts, x) && !x.callerCancelled && FirstError(x.log).Some?
    ensures ReturnedLive(cs, acts, n, k, FirstError(x.log))
    decreases |acts|
  {
    var m := |acts| - 1;
    var w := PoolRun(cs, acts[..m]).value;
    LogStep(cs, w, acts[m]);
    if FirstError(w.log).None? {
      n, k := m, acts[m].k;
      LiveBeforeErrors(cs, acts[..m], w);
    } else {
      n, k := FirstErrorLive(cs, acts[..m], w);
      assert acts[..m][..n] == acts[..n];
    }
  }

  /** Step n is shard k's Read, Process or Write call returning exactly this error. */
  ghost predicate RaisedByShard<I, O>(cs: seq<Config<I, O>>, acts: seq<PoolAction>, n: nat, k: nat, f: Failure) {
    && n < |acts| && acts[n].ShardStep? && acts[n].k == k && k < |cs|
    && PoolRun(cs, acts[..n]).Some?
    && f in Raised(acts[n].a, !PoolRun(cs, acts[..n]).value.shards[k].ctx.cancelled)
  }

  lemma PoolPasses<I, O>(cs: seq<Config<I, O>>, x: Pool<I, O>, a: PoolAction, k: nat, f: Failure)
    requires |x.shards| == |x.wrappers| == |cs| && PoolEnabled(cs, x, a) && k < |cs| && f.Callback?
    requires Carries(PoolApply(cs, x, a).shards[k], f)
    ensures || Carries(x.shards[k], f)
            || (a.ShardStep? && a.k == k && f in Raised(a.a, !x.shards[k].ctx.cancelled))
  {
    if a.ShardStep? && a.k == k {
      StepPasses(cs[k], x.shards[k], a.a, f);
    }
  }

  lemma {:induction false} RaisedInPool<I, O>(
    cs: seq<Config<I, O>>, acts: seq<PoolAction>, x: Pool<I, O>, k: nat, f: Failure)
    returns (n: nat)
    requires PoolReaches(cs, acts, x) && k < |cs| && f.Callback? && Carries(x.shards[k], f)
    ensures RaisedByShard(cs, acts, n, k, f)
    decreases |acts|
  {
    if acts == [] {
      assert false;
    } else {
      var m := |acts| - 1;
      var w := PoolRun(cs, acts[..m]).value;
      PoolPasses(cs, w, acts[m], k, f);
      if Carries(w.shards[k], f) {
        n := RaisedInPool(cs, acts[..m], w, k, f);
        assert acts[..m][..n] == acts[..n];
      } else {
        n := m;
      }
    }
  }

  /** Shard k's call raised f at step n, and its Run returned f at step m, both while the shared context was live. */
  ghost predicate RaisedThenReturned<I, O>(
    cs: seq<Config<I, O>>, acts: seq<PoolAction>, n: nat, m: nat, k: nat, f: Failure) {
    n < m && RaisedByShard(cs, acts, n, k, f) && ReturnedLive(cs, acts, m, k, Some(f))
  }

  /** The error ExecuteWithOptions returns is the result of one shard's Run and, unless the caller
      cancelled, exactly the error one of that shard's callbacks returned before its pipeline was cancelled,
      in a Run that ended before the shared context was cancelled. */
  lemma FanOutProvenance<I(!new), O(!new)>(cs: seq<Config<I, O>>, acts: seq<PoolAction>, x: Pool<I, O>)
    requires AllValid(cs) && PoolReaches(cs, acts, x) && x.collector.Returned? && x.collector.result.Some?
    ensures exists k :: 0 <= k < |cs| && x.shards[k].main == MReturned(x.collector.result)
    ensures !x.callerCancelled ==> x.collector.result.value.Callback? && x.collector.result.value.early
    ensures !x.callerCancelled ==>
              exists n: nat, m: nat, k: nat :: RaisedThenReturned(cs, acts, n, m, k, x.collector.result.value)
  {
    PoolRunInv(cs, acts, x);
    FirstErrorPrefix(x.log, x.received);
    if !x.callerCancelled {
      var m, k := FirstErrorLive(cs, acts, x);
      var y := PoolRun(cs, acts[..m]).value;
      var n := RaisedInPool(cs, acts[..m], y, k, x.collector.result.value);
      assert acts[..m][..n] == acts[..n];
      assert RaisedThenReturned(cs, acts, n, m, k, x.collector.result.value);
    }
  }

  predicate ReturnedError<I, O>(s: State<I, O>) { s.main.MReturned? && s.main.result.Some? }

  lemma LinkedCancels<I, O>(x: Pool<I, O>)
    requires Linked(x)
    ensures forall k :: 0 <= k < |x.shards| && x.wrappers[k].Finished? && ReturnedError(x.shards[k]) ==> x.cancelled
    ensures x.collector.Returned? && x.collector.result.Some? ==> x.cancelled
    ensures x.cancelled ==> x.callerCancelled || exists k :: 0 <= k < |x.shards| && ReturnedError(x.shards[k])
  {
    forall k | 0 <= k < |x.shards| && x.wrappers[k].Finished? && ReturnedError(x.shards[k]) ensures x.cancelled {
      assert ShardOk(x.shards[k], x.wrappers[k], x);
    }
    if x.cancelled && !x.callerCancelled {
      var k :| 0 <= k < |x.shards| && x.shards[k].main == MReturned(FirstError(x.log));
      assert ReturnedError(x.shards[k]);
    }
  }

  /** The shard has been told of the cancellation, or can be. */
  ghost predicate SeesCancel<I, O>(cs: seq<Config<I, O>>, x: Pool<I, O>, k: nat)
    requires |x.shards| == |x.wrappers| == |cs| && k < |cs|
  {
    x.shards[k].ctx.cancelled || PoolEnabled(cs, x, ShardStep(k, CallerCancel))
  }

  lemma ContextOk<I(!new), O(!new)>(c: Config<I, O>, s: State<I, O>)
    requires Inv(c, s)
    ensures CtxErr(s.ctx)
  {}

  lemma RunningSeesCancel<I, O>(cs: seq<Config<I, O>>, x: Pool<I, O>, k: nat)
    requires |x.shards| == |x.wrappers| == |cs| && k < |cs| && x.cancelled && !x.shards[k].main.MReturned?
    requires CtxErr(x.shards[k].ctx)
    ensures SeesCancel(cs, x, k)
  {}

  /** The shared context is cancelled once a failed shard's wrapper is through and once an error has been
      collected, and only after a shard returned an error or the caller cancelled; every running shard can
      then see it. */
  lemma FanOutCancels<I(!new), O(!new)>(cs: seq<Config<I, O>>, acts: seq<PoolAction>, x: Pool<I, O>)
    requires AllValid(cs) && PoolReaches(cs, acts, x)
    ensures forall k :: 0 <= k < |cs| && x.wrappers[k].Finished? && ReturnedError(x.shards[k]) ==> x.cancelled
    ensures x.collector.Returned? && x.collector.result.Some? ==> x.cancelled
    ensures x.cancelled ==> x.callerCancelled || exists k :: 0 <= k < |cs| && ReturnedError(x.shards[k])
    ensures forall k :: 0 <= k < |cs| && x.cancelled && !x.shards[k].main.MReturned? ==> SeesCancel(cs, x, k)
  {
    PoolRunInv(cs, acts, x);
    LinkedCancels(x);
    forall k | 0 <= k < |cs| && x.cancelled && !x.shards[k].main.MReturned?
      ensures SeesCancel(cs, x, k)
    {
      ContextOk(cs[k], x.shards[k]);
      RunningSeesCancel(cs, x, k);
    }
  }

  /** When ExecuteWithOptions returns no error, every shard did its whole source exactly once, and the
      statistics returned for it say so. */
  lemma FanOutSuccess<I(!new), O(!new)>(cs: seq<Config<I, O>>, acts: seq<PoolAction>, x: Pool<I, O>, k: nat)
    requires AllValid(cs) && PoolReaches(cs, acts, x) && x.collector == Returned(None) && k < |cs|
    ensures x.shards[k].main == MReturned(None)
    ensures multiset(Written(x.shards[k])) == multiset(FilterMap(cs[k].keep, cs[k].src))
    ensures var kept := |FilterMap(cs[k].keep, cs[k].src)|; x.shards[k].stats == Stats(|cs[k].src|, kept, kept)
  {
    PoolRunInv(cs, acts, x);
    TotalBounded(Sent, x.wrappers);
    assert x.log[..x.received] == x.log;
    assert Sent(x.wrappers[k]) == 1;
    assert ShardOk(x.shards[k], x.wrappers[k], x);
    NilReturnFromInv(cs[k], x.shards[k]);
  }

  /** A shard with one processor wrote its items in source order. */
  lemma FanOutOrder<I(!new), O(!new)>(cs: seq<Config<I, O>>, acts: seq<PoolAction>, x: Pool<I, O>, k: nat)
    requires AllValid(cs) && PoolReaches(cs, acts, x) && k < |cs| && cs[k].limits.procs == 1
    ensures Written(x.shards[k]) <= FilterMap(cs[k].keep, cs[k].src)
    ensures x.collector == Returned(None) ==> Written(x.shards[k]) == FilterMap(cs[k].keep, cs[k].src)
  {
    PoolRunInv(cs, acts, x);
    OrderFromInv(cs[k], x.shards[k]);
    if x.collector == Returned(None) {
      FanOutSuccess(cs, acts, x, k);
    }
  }

  /** No wrapper ever waits on the shared error channel, every run of the pool is bounded, and a
      pool that nobody but the caller can move has returned. */
  lemma FanOutTerminates<I(!new), O(!new)>(cs: seq<Config<I, O>>, acts: seq<PoolAction>, x: Pool<I, O>)
    requires AllValid(cs) && PoolReaches(cs, acts, x)
    ensures |acts| <= PoolMeasure(cs, PoolInit(cs))
    ensures forall k :: 0 <= k < |cs| && x.wrappers[k].Running? ==> |x.errCh| < |cs|
    ensures !x.collector.Returned? ==> exists a :: PoolEnabled(cs, x, a) && !a.ExternalCancel?
  {
    PoolRunInv(cs, acts, x);
    TotalBounded(Sent, x.wrappers);
    if !x.collector.Returned? {
      var a := PoolProgress(cs, x);
    }
  }

  lemma PoolProgress<I(!new), O(!new)>(cs: seq<Config<I, O>>, x: Pool<I, O>) returns (a: PoolAction)
    requires AllValid(cs) && PoolInv(cs, x) && !x.collector.Returned?
    ensures PoolEnabled(cs, x, a) && !a.ExternalCancel?
  {
    TotalBounded(Sent, x.wrappers);
    if x.collector.SharedCancel? {
      return CancelShared;
    }
    if x.received == |cs| {
      return Finish;
    }
    if x.errCh != [] {
      return Receive;
    }
    assert Total(Sent, x.wrappers) < |cs|;
    if forall i :: 0 <= i < |cs| ==> !x.wrappers[i].Running? {
      TotalUniform(Sent, x.wrappers, 1);
      assert false;
    }
    var k: nat :| k < |cs| && x.wrappers[k].Running?;
    assert ShardOk(x.shards[k], x.wrappers[k], x);
    if x.shards[k].main.MReturned? {
      return ShardReturn(k);
    }
    var p := Progress(cs[k], x.shards[k]);
    return ShardStep(k, p);
  }
}
