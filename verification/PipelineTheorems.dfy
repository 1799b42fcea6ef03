/** What every run of the batching pipeline guarantees, for every option set, source and schedule. */
module PipelineTheorems {
  import opened Collections
  import opened Pipeline
  import opened PipelineInvariant
  import opened PipelineFlow
  import opened PipelineProvenance

  ghost predicate Control<I, O>(c: Config<I, O>, s: State<I, O>) {
    Shape(c, s) && TokenInv(c, s) && BudgetInv(c, s) && ErrInv(c, s) && FailureInv(c, s) && ExitInv(c, s)
  }

  ghost predicate Counters<I, O>(c: Config<I, O>, s: State<I, O>) {
    ReadCounters(c, s) && ProcCounters(c, s) && WriteCounters(c, s) && BatchSizes(c, s)
  }

  ghost predicate Inv<I(!new), O(!new)>(c: Config<I, O>, s: State<I, O>) {
    && Control(c, s) && Counters(c, s)
    && (forall x: I :: InputInv(c, s, x))
    && (forall x: O :: OutputInv(c, s, x))
    && (c.limits.procs == 1 ==> InOrder(c, s) && OutOrder(c, s))
  }

  lemma InitInv<I(!new), O(!new)>(c: Config<I, O>)
    requires c.limits.batch > 0
    ensures Inv(c, Init(c))
    ensures Measure(c, Init(c)) == 14 * |c.src| + 4 * c.limits.procs + 15
  {
    var s := Init(c);
    TotalUniform(ProcTokens<I, O>, s.procs, 0);
    TotalUniform(ProcBudget<I, O>, s.procs, 1);
    TotalUniform(ProcPending<I, O>, s.procs, 0);
    TotalUniform(ProcCalls<I, O>, s.procs, 0);
    TotalUniform(ProcSends<I, O>, s.procs, 0);
    TotalUniform(ProcCounting<I, O>, s.procs, 0);
    TotalUniform(ProcWeight<I, O>, s.procs, 4);
    forall x: I ensures InputInv(c, s, x) { TotalUniform(ProcHas<I, O>(x), s.procs, 0); }
    forall x: O ensures OutputInv(c, s, x) { TotalUniform(ProcMade<I, O>(x), s.procs, 0); }
  }

  lemma ControlStep<I, O>(c: Config<I, O>, s: State<I, O>, a: Action)
    requires c.limits.batch > 0 && Control(c, s) && Enabled(c, s, a)
    ensures Control(c, Apply(c, s, a))
  {
    ShapeStep(c, s, a);
    TokenStep(c, s, a);
    BudgetStep(c, s, a);
    ErrStep(c, s, a);
    FailureStep(c, s, a);
    ExitStep(c, s, a);
  }

  lemma CountersStep<I, O>(c: Config<I, O>, s: State<I, O>, a: Action)
    requires Shape(c, s) && Counters(c, s) && Enabled(c, s, a)
    ensures Counters(c, Apply(c, s, a))
  {
    ReadCountStep(c, s, a);
    ProcCountStep(c, s, a);
    WriteCountStep(c, s, a);
    BatchStep(c, s, a);
  }

  lemma InvStep<I(!new), O(!new)>(c: Config<I, O>, s: State<I, O>, a: Action)
    requires c.limits.batch > 0 && Inv(c, s) && Enabled(c, s, a)
    ensures Inv(c, Apply(c, s, a))
  {
    ControlStep(c, s, a);
    CountersStep(c, s, a);
    forall x: I ensures InputInv(c, Apply(c, s, a), x) { InputStep(c, s, x, a); }
    forall x: O ensures OutputInv(c, Apply(c, s, a), x) { OutputStep(c, s, x, a); }
    if c.limits.procs == 1 {
      InOrderStep(c, s, a);
      OutOrderStep(c, s, a);
    }
  }

  /** The invariant holds along every run, and each step uses up part of a budget fixed at the start. */
  lemma {:induction false} RunInv<I(!new), O(!new)>(c: Config<I, O>, acts: seq<Action>, s: State<I, O>)
    requires c.limits.batch > 0 && Reaches(c, acts, s)
    ensures Inv(c, s)
    ensures |acts| + Measure(c, s) <= 14 * |c.src| + 4 * c.limits.procs + 15
    decreases |acts|
  {
    if acts == [] {
      InitInv(c);
    } else {
      var n := |acts| - 1;
      var prev := Run(c, acts[..n]).value;
      RunInv(c, acts[..n], prev);
      InvStep(c, prev, acts[n]);
      MeasureStep(c, prev, acts[n]);
    }
  }

  // ---- tokens ----

  /** Tokens in the channel are exactly the items in flight, never above MaxInflight; every release
      finds a token and every error push finds room, so neither takes its default branch. */
  lemma TokenConservation<I(!new), O(!new)>(c: Config<I, O>, acts: seq<Action>, s: State<I, O>)
    requires c.limits.batch > 0 && Reaches(c, acts, s)
    ensures s.net.tokens == TokensHeld(s) <= c.limits.inflight
    ensures s.reader.RRelease? ==> s.net.tokens > 0
    ensures forall i :: 0 <= i < |s.procs| && (s.procs[i].PDropRelease? || s.procs[i].PErrRelease?) ==> s.net.tokens > 0
    ensures s.writer.WRelease? ==> s.net.tokens >= s.writer.n
    ensures s.reader.RFail? || s.writer.WFail? ==> |s.ctx.errCh| < ErrCapacity(c)
    ensures forall i :: 0 <= i < |s.procs| && s.procs[i].PFail? ==> |s.ctx.errCh| < ErrCapacity(c)
  {
    RunInv(c, acts, s);
    forall i | 0 <= i < |s.procs|
      ensures s.procs[i].PDropRelease? || s.procs[i].PErrRelease? ==> s.net.tokens > 0
      ensures s.procs[i].PFail? ==> |s.ctx.errCh| < ErrCapacity(c)
    {
      TotalAtLeast(ProcTokens<I, O>, s.procs, i);
      TotalAtLeast(ProcBudget<I, O>, s.procs, i);
    }
  }

  // ---- progress ----

  lemma ReaderMoves<I, O>(c: Config<I, O>, s: State<I, O>) returns (r: ReaderAct)
    requires s.hist.pos <= |c.src| && !s.reader.RDone?
    requires s.reader.RAcquire? ==> s.ctx.cancelled || s.net.tokens < c.limits.inflight
    requires s.reader.RSend? ==> s.ctx.cancelled || |s.net.input| < c.limits.buffered
    ensures ReaderEnabled(c, s, r)
  {
    r := match s.reader
      case RRead => if s.hist.pos < |c.src| then ReadItem else ReadEnd
      case RAcquire(_) => if s.ctx.cancelled then AcquireCancelled else Acquire
      case RSend(_) => if s.ctx.cancelled then SendInputCancelled else SendInput
      case RCount => CountRead
      case RRelease => ReleaseRead
      case RFail(_) => PushRead
      case RCancel => CancelRead
      case _ => CloseInput;
  }

  predicate ProcBlocked<I, O>(c: Config<I, O>, s: State<I, O>, p: ProcPc<I, O>) {
    || p.PDone?
    || (p.PRecv? && !s.ctx.cancelled && s.net.input == [] && !s.net.inputClosed)
    || (p.PSend? && !s.ctx.cancelled && |s.net.output| >= c.limits.buffered)
  }

  lemma ProcMoves<I, O>(c: Config<I, O>, s: State<I, O>, i: nat) returns (p: ProcAct)
    requires i < |s.procs| && !ProcBlocked(c, s, s.procs[i])
    ensures ProcEnabled(c, s, i, p)
  {
    p := match s.procs[i]
      case PRecv => if s.ctx.cancelled then RecvCancelled else if s.net.input != [] then Recv else RecvClosed
      case PCall(_) => ProcessOk
      case PSend(_) => if s.ctx.cancelled then SendOutputCancelled else SendOutput
      case PCount => CountProcessed
      case PDropRelease => DropRelease
      case PErrRelease(_) => ErrRelease
      case PFail(_) => PushProc
      case _ => CancelProc;
  }

  predicate WriterBlocked<I, O>(s: State<I, O>) {
    s.writer.WDone? || (s.writer.WRecv? && !s.ctx.cancelled && s.net.output == [] && !s.net.outputClosed)
  }

  lemma WriterMoves<I, O>(c: Config<I, O>, s: State<I, O>) returns (w: WriterAct)
    requires !WriterBlocked(s)
    ensures WriterEnabled(c, s, w)
  {
    w := match s.writer
      case WRecv => if s.ctx.cancelled then WRecvCancelled else if s.net.output != [] then WRecvItem else WRecvClosed
      case WCall(_) => WriteOk
      case WCount(_, _) => CountWritten
      case WRelease(n, _) => if n > 0 then ReleaseOne else Released
      case WFail(_) => PushWrite
      case _ => CancelWrite;
  }

  /** A writer waiting for items leaves a token for a reader that needs one. */
  ghost predicate TokenLeft<I, O>(c: Config<I, O>, s: State<I, O>) {
    s.writer.WRecv? && s.reader.RAcquire? ==> |s.net.buffer| < c.limits.inflight
  }

  /** Nothing failed and nobody but the reader can move: the reader has a token and room to send,
      or everything has finished. */
  lemma QuietState<I, O>(c: Config<I, O>, s: State<I, O>)
    requires c.limits.procs > 0 && c.limits.buffered > 0 && Control(c, s) && TokenLeft(c, s)
    requires !s.ctx.cancelled && s.ctx.errLog == [] && !s.reader.RRelease? && !s.reader.RFail?
    requires WriterBlocked(s) && (forall i :: 0 <= i < |s.procs| ==> ProcBlocked(c, s, s.procs[i]))
    requires s.net.outputClosed || !AllProcsDone(s)
    ensures s.reader.RAcquire? ==> s.net.tokens < c.limits.inflight
    ensures s.reader.RSend? ==> |s.net.input| < c.limits.buffered
    ensures s.reader.RDone? ==> AllExited(s)
  {
    TotalUniform(ProcPending<I, O>, s.procs, 0);
    assert s.hist.failures == 0;
    var p := s.procs[0];
    assert ProcBlocked(c, s, p);
    if s.writer.WRecv? {
      forall i | 0 <= i < |s.procs| ensures ProcTokens(s.procs[i]) == 0 { assert ProcBlocked(c, s, s.procs[i]); }
      TotalUniform(ProcTokens<I, O>, s.procs, 0);
    } else {
      assert p.PDone?;
    }
  }

  /** Deadlock freedom, one state at a time: until Run has returned, some goroutine can step. Under accepted
      limits a token is always left: a waiting writer holds less than a batch, and MaxInflight is at least that. */
  lemma Progress<I, O>(c: Config<I, O>, s: State<I, O>) returns (a: Action)
    requires c.limits.procs > 0 && c.limits.buffered > 0 && Control(c, s) && !s.main.MReturned?
    requires c.limits.inflight >= c.limits.batch || TokenLeft(c, s)
    ensures Enabled(c, s, a) && !a.CallerCancel?
  {
    if !WriterBlocked(s) {
      var w := WriterMoves(c, s);
      return Writer(w);
    }
    if i: nat :| i < |s.procs| && !ProcBlocked(c, s, s.procs[i]) {
      var p := ProcMoves(c, s, i);
      return Proc(i, p);
    }
    if !s.net.outputClosed && AllProcsDone(s) {
      return CloseOutput;
    }
    if s.main.MCancel? {
      return Main(CancelAll);
    }
    if s.ctx.errLog != [] && !s.ctx.cancelled {
      return Main(TakeError);
    }
    if s.ctx.cancelled {
      if !s.reader.RDone? {
        var r := ReaderMoves(c, s);
        return Reader(r);
      }
      assert AllProcsDone(s) by {
        forall i | 0 <= i < |s.procs| ensures s.procs[i].PDone? { assert ProcBlocked(c, s, s.procs[i]); }
      }
    } else if s.reader.RRelease? || s.reader.RFail? {
      var r := ReaderMoves(c, s);
      return Reader(r);
    } else {
      QuietState(c, s);
      if !s.reader.RDone? {
        var r := ReaderMoves(c, s);
        return Reader(r);
      }
    }
    return Main(if s.main.MWait? then AwaitDone else if s.ctx.errCh == [] then DoneNoError else DoneWithError);
  }

  /** No goroutine can step; only the caller could still act. */
  ghost predicate Stuck<I, O>(c: Config<I, O>, s: State<I, O>) {
    forall a :: Enabled(c, s, a) ==> a.CallerCancel?
  }

  lemma ReturnedIsStuck<I, O>(c: Config<I, O>, s: State<I, O>)
    requires s.main.MReturned? && AllExited(s)
    ensures Stuck(c, s)
  {}

  /** Termination and deadlock freedom: every run is shorter than a bound linear in the source and
      the processors, and a run that no goroutine can extend has returned. */
  lemma RunTerminates<I(!new), O(!new)>(c: Config<I, O>, acts: seq<Action>, s: State<I, O>)
    requires ValidLimits(c.limits) && Reaches(c, acts, s)
    ensures |acts| <= 14 * |c.src| + 4 * c.limits.procs + 15
    ensures Stuck(c, s) <==> s.main.MReturned?
  {
    RunInv(c, acts, s);
    if s.main.MReturned? {
      ReturnedIsStuck(c, s);
    } else {
      var a := Progress(c, s);
    }
  }

  // ---- refinement ----

  lemma SubMultiset<T>(a: seq<T>, b: seq<T>)
    requires forall x :: Occ(x, a) <= Occ(x, b)
    ensures multiset(a) <= multiset(b)
  {
    forall x ensures multiset(a)[x] <= multiset(b)[x] {
      OccMultiset(x, a);
      OccMultiset(x, b);
    }
  }

  /** Nothing is invented or duplicated, in any state of any run, failing and cancelled ones
      included: Process sees items of the source and Write sees kept outputs, at most once each. */
  lemma NothingDuplicated<I(!new), O(!new)>(c: Config<I, O>, acts: seq<Action>, s: State<I, O>)
    requires c.limits.batch > 0 && Reaches(c, acts, s)
    ensures multiset(s.hist.processed) <= multiset(c.src)
    ensures multiset(Written(s)) <= multiset(FilterMap(c.keep, c.src))
  {
    RunInv(c, acts, s);
    var n := s.hist.pos;
    assert c.src == c.src[..n] + c.src[n..];
    forall x ensures Occ(x, s.hist.processed) <= Occ(x, c.src) {
      assert InputInv(c, s, x);
      OccConcat(x, c.src[..n], c.src[n..]);
    }
    SubMultiset(s.hist.processed, c.src);
    forall x ensures Occ(x, Written(s)) <= Occ(x, FilterMap(c.keep, s.hist.processed)) {
      assert OutputInv(c, s, x);
    }
    SubMultiset(Written(s), FilterMap(c.keep, s.hist.processed));
    FilterMapSubMultiset(c.keep, s.hist.processed, c.src);
  }

  lemma NilReturnIsClean<I(!new), O(!new)>(c: Config<I, O>, s: State<I, O>)
    requires c.limits.procs > 0 && Inv(c, s) && s.main == MReturned(None)
    ensures s.hist.failures == 0 && s.hist.pos == |c.src|
    ensures s.net.input == [] && s.net.output == [] && s.net.buffer == []
  {
    TotalUniform(ProcPending<I, O>, s.procs, 0);
    assert s.procs[0].PDone?;
  }

  lemma NilReturnItems<I(!new), O(!new)>(c: Config<I, O>, s: State<I, O>)
    requires c.limits.procs > 0 && Inv(c, s) && s.main == MReturned(None)
    ensures multiset(s.hist.processed) == multiset(c.src)
    ensures multiset(Written(s)) == multiset(FilterMap(c.keep, s.hist.processed))
  {
    NilReturnIsClean(c, s);
    assert c.src[..s.hist.pos] == c.src;
    forall x ensures Occ(x, s.hist.processed) == Occ(x, c.src) {
      assert InputInv(c, s, x);
      TotalUniform(ProcHas<I, O>(x), s.procs, 0);
    }
    SubMultiset(s.hist.processed, c.src);
    SubMultiset(c.src, s.hist.processed);
    forall x ensures Occ(x, Written(s)) == Occ(x, FilterMap(c.keep, s.hist.processed)) {
      assert OutputInv(c, s, x);
      TotalUniform(ProcMade<I, O>(x), s.procs, 0);
    }
    SubMultiset(Written(s), FilterMap(c.keep, s.hist.processed));
    SubMultiset(FilterMap(c.keep, s.hist.processed), Written(s));
  }

  lemma SameSize<T>(a: seq<T>, b: seq<T>)
    requires multiset(a) == multiset(b)
    ensures |a| == |b|
  {
    assert |multiset(a)| == |a| && |multiset(b)| == |b|;
  }

  lemma NilReturnFromInv<I(!new), O(!new)>(c: Config<I, O>, s: State<I, O>)
    requires c.limits.procs > 0 && Inv(c, s) && s.main == MReturned(None)
    ensures multiset(s.hist.processed) == multiset(c.src)
    ensures multiset(Written(s)) == multiset(FilterMap(c.keep, c.src))
    ensures s.stats == Stats(|c.src|, |FilterMap(c.keep, c.src)|, |FilterMap(c.keep, c.src)|)
  {
    NilReturnItems(c, s);
    FilterMapPermutation(c.keep, s.hist.processed, c.src);
    SameSize(s.hist.processed, c.src);
    SameSize(Written(s), FilterMap(c.keep, c.src));
    SameSize(Written(s), FilterMap(c.keep, s.hist.processed));
    TotalUniform(ProcCounting<I, O>, s.procs, 0);
  }

  /** Exactly once: when Run returns nil, every source item went through Process once, the written
      items are a permutation of the sequential filter-map, and the published counters say so. */
  lemma NilReturnRefinesFilterMap<I(!new), O(!new)>(c: Config<I, O>, acts: seq<Action>, s: State<I, O>)
    requires c.limits.batch > 0 && c.limits.procs > 0 && Reaches(c, acts, s) && s.main == MReturned(None)
    ensures multiset(s.hist.processed) == multiset(c.src)
    ensures multiset(Written(s)) == multiset(FilterMap(c.keep, c.src))
    ensures s.stats == Stats(|c.src|, |FilterMap(c.keep, c.src)|, |FilterMap(c.keep, c.src)|)
  {
    RunInv(c, acts, s);
    NilReturnFromInv(c, s);
  }

  lemma OrderFromInv<I(!new), O(!new)>(c: Config<I, O>, s: State<I, O>)
    requires c.limits.procs == 1 && Inv(c, s)
    ensures s.hist.processed <= c.src && Written(s) <= FilterMap(c.keep, c.src)
    ensures s.main == MReturned(None) ==> s.hist.processed == c.src && Written(s) == FilterMap(c.keep, c.src)
  {
    FilterMapPrefix(c.keep, s.hist.processed, c.src);
    if s.main == MReturned(None) {
      NilReturnFromInv(c, s);
      SameSize(s.hist.processed, c.src);
      SameSize(Written(s), FilterMap(c.keep, c.src));
    }
  }

  /** Order: with one processor the written items are, at every moment of every run, a prefix of
      the sequential filter-map, cut into full batches with at most one short one at the end;
      when Run returns nil they are all of it. */
  lemma SingleProcessorOrder<I(!new), O(!new)>(c: Config<I, O>, acts: seq<Action>, s: State<I, O>)
    requires c.limits.batch > 0 && c.limits.procs == 1 && Reaches(c, acts, s)
    ensures s.hist.processed <= c.src
    ensures Written(s) <= FilterMap(c.keep, c.src)
    ensures s.main == MReturned(None) ==> s.hist.processed == c.src && Written(s) == FilterMap(c.keep, c.src)
    ensures forall k :: 0 <= k < |s.hist.batches| ==> 0 < |s.hist.batches[k]| <= c.limits.batch
    ensures forall k :: 0 <= k < |s.hist.batches| - 1 ==> |s.hist.batches[k]| == c.limits.batch
  {
    RunInv(c, acts, s);
    OrderFromInv(c, s);
  }

  // ---- errors ----

  /** Provenance: an error Run returns is the context's own only if the caller cancelled; otherwise a Read,
      Process or Write call of the run returned it, with that stage and text, and, while the caller's context
      is live, returned it before anything was cancelled. Returning an error means the context is cancelled. */
  lemma ErrorProvenance<I(!new), O(!new)>(c: Config<I, O>, acts: seq<Action>, s: State<I, O>)
    requires c.limits.batch > 0 && Reaches(c, acts, s) && s.main.MReturned?
    ensures s.main.result == Some(Induced) ==> s.ctx.callerCancelled
    ensures s.main.result.Some? && !s.ctx.callerCancelled ==>
              s.main.result.value.Callback? && s.main.result.value.early
    ensures s.main.result == None ==> !s.ctx.callerCancelled && s.hist.failures == 0
    ensures s.main.result.Some? && s.main.result.value.Callback? ==>
              exists k: nat :: RaisedAt(c, acts, k, s.main.result.value)
    ensures s.main.result.Some? ==> s.ctx.cancelled
  {
    RunInv(c, acts, s);
    TotalUniform(ProcPending<I, O>, s.procs, 0);
    ErrorsCancel(c, acts, s);
    if s.main.result.Some? && s.main.result.value.Callback? {
      var k := RaisedInRun(c, acts, s, s.main.result.value);
    }
  }

  lemma ReturnProvenance<I, O>(c: Config<I, O>, s: State<I, O>)
    requires Control(c, s) && s.main.MReturned?
    ensures s.main.result.Some? && !s.ctx.callerCancelled ==>
              s.main.result.value.Callback? && s.main.result.value.early
  {}

  predicate CallbackError(a: Action) {
    || (a.Reader? && a.r.ReadError?)
    || (a.Proc? && a.p.ProcessError?)
    || (a.Writer? && a.w.WriteError?)
  }

  /** A run in which no callback fails and the caller does not cancel records no failure. */
  lemma {:induction false} UndisturbedRun<I(!new), O(!new)>(c: Config<I, O>, acts: seq<Action>, s: State<I, O>)
    requires c.limits.batch > 0 && Reaches(c, acts, s)
    requires forall k :: 0 <= k < |acts| ==> !CallbackError(acts[k]) && !acts[k].CallerCancel?
    ensures s.hist.failures == 0 && !s.ctx.cancelled
    ensures s.main.MReturned? ==> s.main.result == None
    decreases |acts|
  {
    RunInv(c, acts, s);
    if acts == [] {
    } else {
      var n := |acts| - 1;
      var prev := Run(c, acts[..n]).value;
      UndisturbedRun(c, acts[..n], prev);
      RunInv(c, acts[..n], prev);
      UndisturbedStep(c, prev, acts[n]);
    }
  }

  lemma UndisturbedStep<I, O>(c: Config<I, O>, s: State<I, O>, a: Action)
    requires Control(c, s) && Enabled(c, s, a) && !CallbackError(a) && !a.CallerCancel?
    requires s.hist.failures == 0 && !s.ctx.cancelled
    ensures Apply(c, s, a).hist.failures == 0 && !Apply(c, s, a).ctx.cancelled
  {
    if a.Proc? {
      assert ProcErr(s.ctx, s.procs[a.i]);
    }
    match a
    case Reader(r) =>
    case Proc(i, p) =>
    case Writer(w) =>
    case Main(m) =>
    case CloseOutput =>
  }

  // ---- the published counters ----

  /** Items Process counted can run ahead of items Read counted only by the one send the reader has
      made and not yet counted; written items likewise by sends not yet counted. Once Run has
      returned, ItemsWritten <= ItemsProcessed <= ItemsRead. */
  lemma StatsOrdered<I(!new), O(!new)>(c: Config<I, O>, acts: seq<Action>, s: State<I, O>)
    requires c.limits.batch > 0 && Reaches(c, acts, s)
    ensures s.stats.itemsProcessed <= s.stats.itemsRead + (if s.reader.RCount? then 1 else 0)
    ensures s.stats.itemsWritten <= s.stats.itemsProcessed + Total(ProcCounting<I, O>, s.procs)
    ensures s.main.MReturned? ==> s.stats.itemsWritten <= s.stats.itemsProcessed <= s.stats.itemsRead <= |c.src|
  {
    RunInv(c, acts, s);
    if s.main.MReturned? {
      TotalUniform(ProcCounting<I, O>, s.procs, 0);
    }
  }
}
