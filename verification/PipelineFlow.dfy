/**
 Where items go: failures and exits, conservation of items on both sides of the processors, the
 published counters, the single-processor order and the termination measure.
 */
module PipelineFlow {
  import opened Collections
  import opened Pipeline
  import opened PipelineInvariant

  // ---- failures are all accounted for on errCh ----

  function ReaderPending<I>(r: ReaderPc<I>): nat { if r.RRelease? || r.RFail? then 1 else 0 }

  function ProcPending<I, O>(p: ProcPc<I, O>): nat { if p.PErrRelease? || p.PFail? then 1 else 0 }

  function WriterPending(w: WriterPc): nat {
    if w.WFail? || (w.WRelease? && w.next.ReturnErr?) then 1 else 0
  }

  ghost predicate FailureInv<I, O>(c: Config<I, O>, s: State<I, O>) {
    s.hist.failures ==
      |s.ctx.errLog| + ReaderPending(s.reader) + Total(ProcPending<I, O>, s.procs) + WriterPending(s.writer)
  }

  lemma FailureReader<I, O>(c: Config<I, O>, s: State<I, O>, r: ReaderAct)
    requires BudgetInv(c, s) && FailureInv(c, s) && ReaderEnabled(c, s, r)
    ensures FailureInv(c, ReaderApply(c, s, r))
  {
    match r { case ReadItem => case ReadEnd => case ReadError(_) => case Acquire => case AcquireCancelled =>
              case SendInput => case SendInputCancelled => case CountRead => case ReleaseRead =>
              case PushRead => case CancelRead => case CloseInput => }
  }

  lemma FailureProc<I, O>(c: Config<I, O>, s: State<I, O>, i: nat, p: ProcAct)
    requires BudgetInv(c, s) && FailureInv(c, s) && ProcEnabled(c, s, i, p)
    ensures FailureInv(c, ProcApply(c, s, i, p))
  {
    TotalUpdate(ProcPending<I, O>, s.procs, i, ProcApply(c, s, i, p).procs[i]);
    TotalAtLeast(ProcPending<I, O>, s.procs, i);
    TotalAtLeast(ProcBudget<I, O>, s.procs, i);
    match p { case Recv => case RecvClosed => case RecvCancelled => case ProcessOk => case ProcessError(_) =>
              case DropRelease => case ErrRelease => case SendOutput => case SendOutputCancelled =>
              case CountProcessed => case PushProc => case CancelProc => }
  }

  lemma FailureWriter<I, O>(c: Config<I, O>, s: State<I, O>, w: WriterAct)
    requires BudgetInv(c, s) && FailureInv(c, s) && WriterEnabled(c, s, w)
    ensures FailureInv(c, WriterApply(c, s, w))
  {
    match w { case WRecvItem => case WRecvClosed => case WRecvCancelled => case WriteOk => case WriteError(_) =>
              case CountWritten => case ReleaseOne => case Released => case PushWrite => case CancelWrite => }
  }

  lemma FailureStep<I, O>(c: Config<I, O>, s: State<I, O>, a: Action)
    requires BudgetInv(c, s) && FailureInv(c, s) && Enabled(c, s, a)
    ensures FailureInv(c, Apply(c, s, a))
  {
    match a
    case Reader(r) => FailureReader(c, s, r);
    case Proc(i, p) => FailureProc(c, s, i, p);
    case Writer(w) => FailureWriter(c, s, w);
    case Main(m) => match m { case DoneNoError => case DoneWithError => case TakeError => case CancelAll => case AwaitDone => }
    case CloseOutput =>
    case CallerCancel =>
  }

  // ---- goroutines that end without failing had nothing left to do ----

  ghost predicate ExitInv<I, O>(c: Config<I, O>, s: State<I, O>) {
    && s.hist.pos <= |c.src|
    && (s.hist.failures == 0 ==>
          && (s.reader.RClose? || s.reader.RDone? ==> s.hist.pos == |c.src|)
          && (forall i :: 0 <= i < |s.procs| && s.procs[i].PDone? ==> s.net.inputClosed && s.net.input == [])
          && (s.writer.WDone? ==> s.net.outputClosed && s.net.output == [] && s.net.buffer == []))
  }

  lemma ExitReader<I, O>(c: Config<I, O>, s: State<I, O>, r: ReaderAct)
    requires Shape(c, s) && ErrInv(c, s) && FailureInv(c, s) && ExitInv(c, s) && ReaderEnabled(c, s, r)
    ensures ExitInv(c, ReaderApply(c, s, r))
  {
    match r { case ReadItem => case ReadEnd => case ReadError(_) => case Acquire => case AcquireCancelled =>
              case SendInput => case SendInputCancelled => case CountRead => case ReleaseRead =>
              case PushRead => case CancelRead => case CloseInput => }
  }

  lemma ExitProc<I, O>(c: Config<I, O>, s: State<I, O>, i: nat, p: ProcAct)
    requires Shape(c, s) && ErrInv(c, s) && FailureInv(c, s) && ExitInv(c, s) && ProcEnabled(c, s, i, p)
    ensures ExitInv(c, ProcApply(c, s, i, p))
  {
    assert ProcErr(s.ctx, s.procs[i]);
    match p { case Recv => case RecvClosed => case RecvCancelled => case ProcessOk => case ProcessError(_) =>
              case DropRelease => case ErrRelease => case SendOutput => case SendOutputCancelled =>
              case CountProcessed => case PushProc => case CancelProc => }
  }

  lemma ExitWriter<I, O>(c: Config<I, O>, s: State<I, O>, w: WriterAct)
    requires Shape(c, s) && ErrInv(c, s) && FailureInv(c, s) && ExitInv(c, s) && WriterEnabled(c, s, w)
    ensures ExitInv(c, WriterApply(c, s, w))
  {
    match w { case WRecvItem => case WRecvClosed => case WRecvCancelled => case WriteOk => case WriteError(_) =>
              case CountWritten => case ReleaseOne => case Released => case PushWrite => case CancelWrite => }
  }

  lemma ExitStep<I, O>(c: Config<I, O>, s: State<I, O>, a: Action)
    requires Shape(c, s) && ErrInv(c, s) && FailureInv(c, s) && ExitInv(c, s) && Enabled(c, s, a)
    ensures ExitInv(c, Apply(c, s, a))
  {
    match a
    case Reader(r) => ExitReader(c, s, r);
    case Proc(i, p) => ExitProc(c, s, i, p);
    case Writer(w) => ExitWriter(c, s, w);
    case Main(m) => match m { case DoneNoError => case DoneWithError => case TakeError => case CancelAll => case AwaitDone => }
    case CloseOutput =>
    case CallerCancel =>
  }

  // ---- what steps leave alone ----

  predicate ReaderLive<I>(r: ReaderPc<I>) { r.RRead? || r.RAcquire? || r.RSend? || r.RCount? }

  predicate ProcLive<I, O>(p: ProcPc<I, O>) { p.PRecv? || p.PCall? || p.PSend? || p.PCount? || p.PDropRelease? }

  predicate WriterLive(w: WriterPc) { w.WRecv? || w.WCall? || w.WCount? || (w.WRelease? && !w.next.ReturnErr?) }

  /** A reader step touches nothing beyond the input channel. */
  lemma ReaderFrame<I, O>(c: Config<I, O>, s: State<I, O>, r: ReaderAct)
    requires ReaderEnabled(c, s, r)
    ensures var t := ReaderApply(c, s, r);
            && t.procs == s.procs && t.writer == s.writer && t.main == s.main
            && t.net.output == s.net.output && t.net.buffer == s.net.buffer && t.net.outputClosed == s.net.outputClosed
            && t.hist.processed == s.hist.processed && t.hist.sentOut == s.hist.sentOut
            && t.hist.batches == s.hist.batches && s.hist.failures <= t.hist.failures
  {
    match r { case ReadItem => case ReadEnd => case ReadError(_) => case Acquire => case AcquireCancelled =>
              case SendInput => case SendInputCancelled => case CountRead => case ReleaseRead =>
              case PushRead => case CancelRead => case CloseInput => }
  }

  /** A processor step other than a result or a send keeps the outputs; what it drops, it drops failing. */
  lemma ProcFrame<I, O>(c: Config<I, O>, s: State<I, O>, i: nat, p: ProcAct)
    requires ProcEnabled(c, s, i, p) && !p.ProcessOk? && !p.SendOutput?
    ensures var t := ProcApply(c, s, i, p);
            && t.procs == s.procs[i := t.procs[i]] && t.writer == s.writer
            && t.net.output == s.net.output && t.net.buffer == s.net.buffer
            && t.hist.processed == s.hist.processed && t.hist.batches == s.hist.batches
            && s.hist.failures <= t.hist.failures
            && (ProcLive(t.procs[i]) ==> ProcLive(s.procs[i]))
            && (|| ProcOut(t.procs[i]) == ProcOut(s.procs[i])
                || (ProcOut(t.procs[i]) == [] && !ProcLive(t.procs[i]) && t.hist.failures > 0))
  {
    match p { case Recv => case RecvClosed => case RecvCancelled => case ProcessError(_) =>
              case DropRelease => case ErrRelease => case SendOutputCancelled =>
              case CountProcessed => case PushProc => case CancelProc => }
  }

  /** A writer step other than a receive or a write keeps the outputs; what it drops, it drops failing. */
  lemma WriterFrame<I, O>(c: Config<I, O>, s: State<I, O>, w: WriterAct)
    requires WriterEnabled(c, s, w) && !w.WRecvItem? && !w.WriteOk?
    ensures var t := WriterApply(c, s, w);
            && t.procs == s.procs && t.net.output == s.net.output
            && t.hist.processed == s.hist.processed && t.hist.batches == s.hist.batches
            && s.hist.failures <= t.hist.failures
            && (WriterLive(t.writer) ==> WriterLive(s.writer))
            && (|| t.net.buffer == s.net.buffer
                || (t.net.buffer == [] && !WriterLive(t.writer) && t.hist.failures > 0))
  {
    match w { case WRecvClosed => case WRecvCancelled => case WriteError(_) => case CountWritten =>
              case ReleaseOne => case Released => case PushWrite => case CancelWrite => }
  }

  // ---- conservation, one value at a time ----

  ghost function ProcHas<I, O>(x: I): ProcPc<I, O> -> nat { p => Occ(x, ProcItem(p)) }

  ghost function ProcMade<I, O>(x: O): ProcPc<I, O> -> nat { p => Occ(x, ProcOut(p)) }

  /** How often x is among the items read and not lost: held, queued or through Process. */
  ghost function InHand<I, O>(s: State<I, O>, x: I): nat {
    Occ(x, ReaderItem(s.reader)) + Occ(x, s.net.input) + Total(ProcHas(x), s.procs) + Occ(x, s.hist.processed)
  }

  /** How often x is among the outputs kept and not lost: held, queued, buffered or written. */
  ghost function OutHand<I, O>(s: State<I, O>, x: O): nat {
    Total(ProcMade(x), s.procs) + Occ(x, s.net.output) + Occ(x, s.net.buffer) + Occ(x, Written(s))
  }

  ghost predicate InputInv<I, O>(c: Config<I, O>, s: State<I, O>, x: I) {
    && s.hist.pos <= |c.src|
    && InHand(s, x) <= Occ(x, c.src[..s.hist.pos])
    && (s.hist.failures == 0 ==> InHand(s, x) == Occ(x, c.src[..s.hist.pos]))
  }

  ghost predicate OutputInv<I, O>(c: Config<I, O>, s: State<I, O>, x: O) {
    && OutHand(s, x) <= Occ(x, FilterMap(c.keep, s.hist.processed))
    && (s.hist.failures == 0 ==> OutHand(s, x) == Occ(x, FilterMap(c.keep, s.hist.processed)))
  }

  lemma InputReader<I, O>(c: Config<I, O>, s: State<I, O>, x: I, r: ReaderAct)
    requires InputInv(c, s, x) && ReaderEnabled(c, s, r)
    ensures InputInv(c, ReaderApply(c, s, r), x)
  {
    match r { case ReadItem => 
                assert c.src[..s.hist.pos + 1] == c.src[..s.hist.pos] + [c.src[s.hist.pos]];
                OccAppend(x, c.src[..s.hist.pos], c.src[s.hist.pos]);
              case ReadEnd => case ReadError(_) => case Acquire => case AcquireCancelled =>
              case SendInput => OccAppend(x, s.net.input, s.reader.item);
              case SendInputCancelled => case CountRead => case ReleaseRead =>
              case PushRead => case CancelRead => case CloseInput => }
  }

  lemma InputProc<I, O>(c: Config<I, O>, s: State<I, O>, x: I, i: nat, p: ProcAct)
    requires InputInv(c, s, x) && ProcEnabled(c, s, i, p)
    ensures InputInv(c, ProcApply(c, s, i, p), x)
  {
    TotalUpdate(ProcHas<I, O>(x), s.procs, i, ProcApply(c, s, i, p).procs[i]);
    TotalAtLeast(ProcHas<I, O>(x), s.procs, i);
    match p { case Recv => OccHead(x, s.net.input);
              case RecvClosed => case RecvCancelled => case ProcessOk => OccAppend(x, s.hist.processed, s.procs[i].item);
              case ProcessError(_) => case DropRelease => case ErrRelease => case SendOutput => 
              case SendOutputCancelled => case CountProcessed => case PushProc => case CancelProc => }
  }

  lemma OutputProcessOk<I, O>(c: Config<I, O>, s: State<I, O>, x: O, i: nat)
    requires OutputInv(c, s, x) && ProcEnabled(c, s, i, ProcessOk)
    ensures OutputInv(c, ProcApply(c, s, i, ProcessOk), x)
  {
    var t := ProcApply(c, s, i, ProcessOk);
    TotalUpdate(ProcMade<I, O>(x), s.procs, i, t.procs[i]);
    FilterMapAppend(c.keep, s.hist.processed, s.procs[i].item);
    OccConcat(x, FilterMap(c.keep, s.hist.processed), ProcOut(t.procs[i]));
  }

  lemma OutputSend<I, O>(c: Config<I, O>, s: State<I, O>, x: O, i: nat)
    requires OutputInv(c, s, x) && ProcEnabled(c, s, i, SendOutput)
    ensures OutputInv(c, ProcApply(c, s, i, SendOutput), x)
  {
    TotalUpdate(ProcMade<I, O>(x), s.procs, i, PCount);
    OccAppend(x, s.net.output, s.procs[i].out);
  }

  lemma OutputReceive<I, O>(c: Config<I, O>, s: State<I, O>, x: O)
    requires OutputInv(c, s, x) && WriterEnabled(c, s, WRecvItem)
    ensures OutputInv(c, WriterApply(c, s, WRecvItem), x)
  {
    OccHead(x, s.net.output);
    OccAppend(x, s.net.buffer, s.net.output[0]);
  }

  lemma OutputWrite<I, O>(c: Config<I, O>, s: State<I, O>, x: O)
    requires OutputInv(c, s, x) && WriterEnabled(c, s, WriteOk)
    ensures OutputInv(c, WriterApply(c, s, WriteOk), x)
  {
    FlattenAppend(s.hist.batches, s.net.buffer);
    OccConcat(x, Written(s), s.net.buffer);
  }

  /** Outputs that stay where they are, or are dropped by a failure, stay accounted for. */
  lemma OutputKept<I, O>(c: Config<I, O>, s: State<I, O>, t: State<I, O>, x: O)
    requires OutputInv(c, s, x)
    requires t.net.output == s.net.output && t.hist.processed == s.hist.processed && t.hist.batches == s.hist.batches
    requires s.hist.failures <= t.hist.failures
    requires var before := Total(ProcMade(x), s.procs) + Occ(x, s.net.buffer);
             var after := Total(ProcMade(x), t.procs) + Occ(x, t.net.buffer);
             after <= before && (t.hist.failures == 0 ==> after == before)
    ensures OutputInv(c, t, x)
  {}

  lemma OutputProc<I, O>(c: Config<I, O>, s: State<I, O>, x: O, i: nat, p: ProcAct)
    requires OutputInv(c, s, x) && ProcEnabled(c, s, i, p)
    ensures OutputInv(c, ProcApply(c, s, i, p), x)
  {
    if p.ProcessOk? {
      OutputProcessOk(c, s, x, i);
    } else if p.SendOutput? {
      OutputSend(c, s, x, i);
    } else {
      var t := ProcApply(c, s, i, p);
      ProcFrame(c, s, i, p);
      TotalUpdate(ProcMade<I, O>(x), s.procs, i, t.procs[i]);
      OutputKept(c, s, t, x);
    }
  }

  lemma OutputWriter<I, O>(c: Config<I, O>, s: State<I, O>, x: O, w: WriterAct)
    requires OutputInv(c, s, x) && WriterEnabled(c, s, w)
    ensures OutputInv(c, WriterApply(c, s, w), x)
  {
    if w.WRecvItem? {
      OutputReceive(c, s, x);
    } else if w.WriteOk? {
      OutputWrite(c, s, x);
    } else {
      WriterFrame(c, s, w);
      OutputKept(c, s, WriterApply(c, s, w), x);
    }
  }

  lemma InputWriter<I, O>(c: Config<I, O>, s: State<I, O>, x: I, w: WriterAct)
    requires InputInv(c, s, x) && WriterEnabled(c, s, w)
    ensures InputInv(c, WriterApply(c, s, w), x)
  {
    match w { case WRecvItem => case WRecvClosed => case WRecvCancelled => case WriteOk => case WriteError(_) =>
              case CountWritten => case ReleaseOne => case Released => case PushWrite => case CancelWrite => }
  }

  lemma OutputReader<I, O>(c: Config<I, O>, s: State<I, O>, x: O, r: ReaderAct)
    requires OutputInv(c, s, x) && ReaderEnabled(c, s, r)
    ensures OutputInv(c, ReaderApply(c, s, r), x)
  {
    ReaderFrame(c, s, r);
    OutputKept(c, s, ReaderApply(c, s, r), x);
  }

  lemma InputStep<I, O>(c: Config<I, O>, s: State<I, O>, x: I, a: Action)
    requires InputInv(c, s, x) && Enabled(c, s, a)
    ensures InputInv(c, Apply(c, s, a), x)
  {
    match a
    case Reader(r) => InputReader(c, s, x, r);
    case Proc(i, p) => InputProc(c, s, x, i, p);
    case Writer(w) => InputWriter(c, s, x, w);
    case Main(m) => match m { case DoneNoError => case DoneWithError => case TakeError => case CancelAll => case AwaitDone => }
    case CloseOutput =>
    case CallerCancel =>
  }

  lemma OutputStep<I, O>(c: Config<I, O>, s: State<I, O>, x: O, a: Action)
    requires OutputInv(c, s, x) && Enabled(c, s, a)
    ensures OutputInv(c, Apply(c, s, a), x)
  {
    match a
    case Reader(r) => OutputReader(c, s, x, r);
    case Proc(i, p) => OutputProc(c, s, x, i, p);
    case Writer(w) => OutputWriter(c, s, x, w);
    case Main(m) => match m { case DoneNoError => case DoneWithError => case TakeError => case CancelAll => case AwaitDone => }
    case CloseOutput =>
    case CallerCancel =>
  }

  // ---- the published counters ----

  function ProcCalls<I, O>(p: ProcPc<I, O>): nat { |ProcItem(p)| }

  function ProcSends<I, O>(p: ProcPc<I, O>): nat { |ProcOut(p)| }

  function ProcCounting<I, O>(p: ProcPc<I, O>): nat { if p.PCount? then 1 else 0 }

  ghost predicate ReadCounters<I, O>(c: Config<I, O>, s: State<I, O>) {
    && s.stats.itemsRead + (if s.reader.RCount? then 1 else 0) == s.hist.sentIn
    && s.hist.sentIn + |ReaderItem(s.reader)| <= s.hist.pos
    && (ReaderLive(s.reader) ==> s.hist.sentIn + |ReaderItem(s.reader)| == s.hist.pos)
    && (s.reader.RAcquire? ==> 0 < s.hist.pos <= |c.src| && s.reader.item == c.src[s.hist.pos - 1])
    && |s.hist.processed| + |s.net.input| + Total(ProcCalls<I, O>, s.procs) <= s.hist.sentIn
  }

  ghost predicate ProcCounters<I, O>(c: Config<I, O>, s: State<I, O>) {
    && s.stats.itemsProcessed + Total(ProcCounting<I, O>, s.procs) == s.hist.sentOut
    && s.hist.sentOut + Total(ProcSends<I, O>, s.procs) <= |FilterMap(c.keep, s.hist.processed)|
  }

  ghost predicate WriteCounters<I, O>(c: Config<I, O>, s: State<I, O>) {
    && s.stats.itemsWritten + (if s.writer.WCount? then s.writer.n else 0) == |Written(s)|
    && |Written(s)| + |s.net.buffer| + |s.net.output| <= s.hist.sentOut
  }

  ghost predicate BatchSizes<I, O>(c: Config<I, O>, s: State<I, O>) {
    forall k :: 0 <= k < |s.hist.batches| ==>
      && 0 < |s.hist.batches[k]| <= c.limits.batch
      && (|s.hist.batches[k]| < c.limits.batch ==>
            k == |s.hist.batches| - 1 && WriterFinishing(s.writer) && s.net.outputClosed)
  }

  /** The writer is past the flush of its last, possibly short, batch. */
  predicate WriterFinishing(w: WriterPc) {
    (w.WCount? && w.final) || (w.WRelease? && w.next.ReturnNil?) || w.WDone?
  }

  lemma ReadCountReader<I, O>(c: Config<I, O>, s: State<I, O>, r: ReaderAct)
    requires ReadCounters(c, s) && ReaderEnabled(c, s, r)
    ensures ReadCounters(c, ReaderApply(c, s, r))
  {
    match r { case ReadItem => case ReadEnd => case ReadError(_) => case Acquire => case AcquireCancelled =>
              case SendInput => case SendInputCancelled => case CountRead => case ReleaseRead =>
              case PushRead => case CancelRead => case CloseInput => }
  }

  lemma ReadCountProc<I, O>(c: Config<I, O>, s: State<I, O>, i: nat, p: ProcAct)
    requires ReadCounters(c, s) && ProcEnabled(c, s, i, p)
    ensures ReadCounters(c, ProcApply(c, s, i, p))
  {
    TotalUpdate(ProcCalls<I, O>, s.procs, i, ProcApply(c, s, i, p).procs[i]);
    TotalAtLeast(ProcCalls<I, O>, s.procs, i);
    match p { case Recv => case RecvClosed => case RecvCancelled => case ProcessOk => case ProcessError(_) =>
              case DropRelease => case ErrRelease => case SendOutput => case SendOutputCancelled =>
              case CountProcessed => case PushProc => case CancelProc => }
  }

  lemma ReadCountWriter<I, O>(c: Config<I, O>, s: State<I, O>, w: WriterAct)
    requires ReadCounters(c, s) && WriterEnabled(c, s, w)
    ensures ReadCounters(c, WriterApply(c, s, w))
  {
    match w { case WRecvItem => case WRecvClosed => case WRecvCancelled => case WriteOk => case WriteError(_) =>
              case CountWritten => case ReleaseOne => case Released => case PushWrite => case CancelWrite => }
  }

  lemma ReadCountStep<I, O>(c: Config<I, O>, s: State<I, O>, a: Action)
    requires ReadCounters(c, s) && Enabled(c, s, a)
    ensures ReadCounters(c, Apply(c, s, a))
  {
    match a
    case Reader(r) => ReadCountReader(c, s, r);
    case Proc(i, p) => ReadCountProc(c, s, i, p);
    case Writer(w) => ReadCountWriter(c, s, w);
    case Main(m) => match m { case DoneNoError => case DoneWithError => case TakeError => case CancelAll => case AwaitDone => }
    case CloseOutput =>
    case CallerCancel =>
  }

  lemma ProcCountReader<I, O>(c: Config<I, O>, s: State<I, O>, r: ReaderAct)
    requires ProcCounters(c, s) && ReaderEnabled(c, s, r)
    ensures ProcCounters(c, ReaderApply(c, s, r))
  {
    match r { case ReadItem => case ReadEnd => case ReadError(_) => case Acquire => case AcquireCancelled =>
              case SendInput => case SendInputCancelled => case CountRead => case ReleaseRead =>
              case PushRead => case CancelRead => case CloseInput => }
  }

  lemma ProcCountProc<I, O>(c: Config<I, O>, s: State<I, O>, i: nat, p: ProcAct)
    requires ProcCounters(c, s) && ProcEnabled(c, s, i, p)
    ensures ProcCounters(c, ProcApply(c, s, i, p))
  {
    TotalUpdate(ProcCounting<I, O>, s.procs, i, ProcApply(c, s, i, p).procs[i]);
    TotalUpdate(ProcSends<I, O>, s.procs, i, ProcApply(c, s, i, p).procs[i]);
    match p { case Recv => case RecvClosed => case RecvCancelled => case ProcessOk => FilterMapAppend(c.keep, s.hist.processed, s.procs[i].item);
              case ProcessError(_) =>
              case DropRelease => case ErrRelease => case SendOutput => case SendOutputCancelled =>
              case CountProcessed => case PushProc => case CancelProc => }
  }

  lemma ProcCountWriter<I, O>(c: Config<I, O>, s: State<I, O>, w: WriterAct)
    requires ProcCounters(c, s) && WriterEnabled(c, s, w)
    ensures ProcCounters(c, WriterApply(c, s, w))
  {
    match w { case WRecvItem => case WRecvClosed => case WRecvCancelled => case WriteOk => case WriteError(_) =>
              case CountWritten => case ReleaseOne => case Released => case PushWrite => case CancelWrite => }
  }

  lemma ProcCountStep<I, O>(c: Config<I, O>, s: State<I, O>, a: Action)
    requires ProcCounters(c, s) && Enabled(c, s, a)
    ensures ProcCounters(c, Apply(c, s, a))
  {
    match a
    case Reader(r) => ProcCountReader(c, s, r);
    case Proc(i, p) => ProcCountProc(c, s, i, p);
    case Writer(w) => ProcCountWriter(c, s, w);
    case Main(m) => match m { case DoneNoError => case DoneWithError => case TakeError => case CancelAll => case AwaitDone => }
    case CloseOutput =>
    case CallerCancel =>
  }

  lemma WriteCountReader<I, O>(c: Config<I, O>, s: State<I, O>, r: ReaderAct)
    requires WriteCounters(c, s) && ReaderEnabled(c, s, r)
    ensures WriteCounters(c, ReaderApply(c, s, r))
  {
    match r { case ReadItem => case ReadEnd => case ReadError(_) => case Acquire => case AcquireCancelled =>
              case SendInput => case SendInputCancelled => case CountRead => case ReleaseRead =>
              case PushRead => case CancelRead => case CloseInput => }
  }

  lemma WriteCountProc<I, O>(c: Config<I, O>, s: State<I, O>, i: nat, p: ProcAct)
    requires WriteCounters(c, s) && ProcEnabled(c, s, i, p)
    ensures WriteCounters(c, ProcApply(c, s, i, p))
  {
    match p { case Recv => case RecvClosed => case RecvCancelled => case ProcessOk => case ProcessError(_) =>
              case DropRelease => case ErrRelease => case SendOutput => case SendOutputCancelled =>
              case CountProcessed => case PushProc => case CancelProc => }
  }

  lemma WriteCountWriter<I, O>(c: Config<I, O>, s: State<I, O>, w: WriterAct)
    requires Shape(c, s) && WriteCounters(c, s) && WriterEnabled(c, s, w)
    ensures WriteCounters(c, WriterApply(c, s, w))
  {
    match w { case WRecvItem => case WRecvClosed => case WRecvCancelled => case WriteOk => FlattenAppend(s.hist.batches, s.net.buffer);
              case WriteError(_) =>
              case CountWritten => case ReleaseOne => case Released => case PushWrite => case CancelWrite => }
  }

  lemma WriteCountStep<I, O>(c: Config<I, O>, s: State<I, O>, a: Action)
    requires Shape(c, s) && WriteCounters(c, s) && Enabled(c, s, a)
    ensures WriteCounters(c, Apply(c, s, a))
  {
    match a
    case Reader(r) => WriteCountReader(c, s, r);
    case Proc(i, p) => WriteCountProc(c, s, i, p);
    case Writer(w) => WriteCountWriter(c, s, w);
    case Main(m) => match m { case DoneNoError => case DoneWithError => case TakeError => case CancelAll => case AwaitDone => }
    case CloseOutput =>
    case CallerCancel =>
  }

  lemma BatchReader<I, O>(c: Config<I, O>, s: State<I, O>, r: ReaderAct)
    requires BatchSizes(c, s) && ReaderEnabled(c, s, r)
    ensures BatchSizes(c, ReaderApply(c, s, r))
  {
    match r { case ReadItem => case ReadEnd => case ReadError(_) => case Acquire => case AcquireCancelled =>
              case SendInput => case SendInputCancelled => case CountRead => case ReleaseRead =>
              case PushRead => case CancelRead => case CloseInput => }
  }

  lemma BatchProc<I, O>(c: Config<I, O>, s: State<I, O>, i: nat, p: ProcAct)
    requires BatchSizes(c, s) && ProcEnabled(c, s, i, p)
    ensures BatchSizes(c, ProcApply(c, s, i, p))
  {
    match p { case Recv => case RecvClosed => case RecvCancelled => case ProcessOk => case ProcessError(_) =>
              case DropRelease => case ErrRelease => case SendOutput => case SendOutputCancelled =>
              case CountProcessed => case PushProc => case CancelProc => }
  }

  lemma BatchWriter<I, O>(c: Config<I, O>, s: State<I, O>, w: WriterAct)
    requires Shape(c, s) && BatchSizes(c, s) && WriterEnabled(c, s, w)
    ensures BatchSizes(c, WriterApply(c, s, w))
  {
    match w { case WRecvItem => case WRecvClosed => case WRecvCancelled => case WriteOk => case WriteError(_) =>
              case CountWritten => case ReleaseOne => case Released => case PushWrite => case CancelWrite => }
  }

  lemma BatchStep<I, O>(c: Config<I, O>, s: State<I, O>, a: Action)
    requires Shape(c, s) && BatchSizes(c, s) && Enabled(c, s, a)
    ensures BatchSizes(c, Apply(c, s, a))
  {
    match a
    case Reader(r) => BatchReader(c, s, r);
    case Proc(i, p) => BatchProc(c, s, i, p);
    case Writer(w) => BatchWriter(c, s, w);
    case Main(m) => match m { case DoneNoError => case DoneWithError => case TakeError => case CancelAll => case AwaitDone => }
    case CloseOutput =>
    case CallerCancel =>
  }

  // ---- order, with a single processor ----

  function Queued<I, O>(s: State<I, O>): seq<I>
    requires |s.procs| == 1
  {
    s.hist.processed + ProcItem(s.procs[0]) + s.net.input + ReaderItem(s.reader)
  }

  function Produced<I, O>(s: State<I, O>): seq<O>
    requires |s.procs| == 1
  {
    Written(s) + s.net.buffer + s.net.output + ProcOut(s.procs[0])
  }

  ghost predicate InOrder<I, O>(c: Config<I, O>, s: State<I, O>) {
    && |s.procs| == 1
    && s.hist.pos <= |c.src|
    && s.hist.processed <= c.src[..s.hist.pos]
    && (ProcLive(s.procs[0]) ==> Queued(s) <= c.src[..s.hist.pos])
    && (ProcLive(s.procs[0]) && ReaderLive(s.reader) ==> Queued(s) == c.src[..s.hist.pos])
  }

  ghost predicate OutOrder<I, O>(c: Config<I, O>, s: State<I, O>) {
    && |s.procs| == 1
    && Written(s) <= FilterMap(c.keep, s.hist.processed)
    && (WriterLive(s.writer) ==> Produced(s) <= FilterMap(c.keep, s.hist.processed))
    && (WriterLive(s.writer) && ProcLive(s.procs[0]) ==> Produced(s) == FilterMap(c.keep, s.hist.processed))
  }

  lemma InOrderReader<I, O>(c: Config<I, O>, s: State<I, O>, r: ReaderAct)
    requires InOrder(c, s) && ReaderEnabled(c, s, r)
    ensures InOrder(c, ReaderApply(c, s, r))
  {
    match r { case ReadItem => case ReadEnd => case ReadError(_) => case Acquire => case AcquireCancelled =>
              case SendInput => case SendInputCancelled => case CountRead => case ReleaseRead =>
              case PushRead => case CancelRead => case CloseInput => }
  }

  lemma InOrderProc<I, O>(c: Config<I, O>, s: State<I, O>, i: nat, p: ProcAct)
    requires InOrder(c, s) && ProcEnabled(c, s, i, p)
    ensures InOrder(c, ProcApply(c, s, i, p))
  {
    match p { case Recv => case RecvClosed => case RecvCancelled => case ProcessOk => case ProcessError(_) =>
              case DropRelease => case ErrRelease => case SendOutput => case SendOutputCancelled =>
              case CountProcessed => case PushProc => case CancelProc => }
  }

  lemma InOrderWriter<I, O>(c: Config<I, O>, s: State<I, O>, w: WriterAct)
    requires InOrder(c, s) && WriterEnabled(c, s, w)
    ensures InOrder(c, WriterApply(c, s, w))
  {
    match w { case WRecvItem => case WRecvClosed => case WRecvCancelled => case WriteOk => case WriteError(_) =>
              case CountWritten => case ReleaseOne => case Released => case PushWrite => case CancelWrite => }
  }

  lemma InOrderStep<I, O>(c: Config<I, O>, s: State<I, O>, a: Action)
    requires InOrder(c, s) && Enabled(c, s, a)
    ensures InOrder(c, Apply(c, s, a))
  {
    match a
    case Reader(r) => InOrderReader(c, s, r);
    case Proc(i, p) => InOrderProc(c, s, i, p);
    case Writer(w) => InOrderWriter(c, s, w);
    case Main(m) => match m { case DoneNoError => case DoneWithError => case TakeError => case CancelAll => case AwaitDone => }
    case CloseOutput =>
    case CallerCancel =>
  }

  lemma OutOrderKept<I, O>(c: Config<I, O>, s: State<I, O>, t: State<I, O>)
    requires OutOrder(c, s) && |t.procs| == 1
    requires t.net.output == s.net.output && t.hist.processed == s.hist.processed && t.hist.batches == s.hist.batches
    requires (WriterLive(t.writer) ==> WriterLive(s.writer)) && (ProcLive(t.procs[0]) ==> ProcLive(s.procs[0]))
    requires t.net.buffer == s.net.buffer || !WriterLive(t.writer)
    requires ProcOut(t.procs[0]) == ProcOut(s.procs[0]) || (ProcOut(t.procs[0]) == [] && !ProcLive(t.procs[0]))
    ensures OutOrder(c, t)
  {
    if WriterLive(t.writer) {
      assert Produced(t) <= Produced(s);
    }
  }

  lemma OutOrderReader<I, O>(c: Config<I, O>, s: State<I, O>, r: ReaderAct)
    requires OutOrder(c, s) && ReaderEnabled(c, s, r)
    ensures OutOrder(c, ReaderApply(c, s, r))
  {
    ReaderFrame(c, s, r);
    OutOrderKept(c, s, ReaderApply(c, s, r));
  }

  lemma OutOrderProcessOk<I, O>(c: Config<I, O>, s: State<I, O>)
    requires OutOrder(c, s) && ProcEnabled(c, s, 0, ProcessOk)
    ensures OutOrder(c, ProcApply(c, s, 0, ProcessOk))
  {
    FilterMapAppend(c.keep, s.hist.processed, s.procs[0].item);
  }

  lemma OutOrderSend<I, O>(c: Config<I, O>, s: State<I, O>)
    requires OutOrder(c, s) && ProcEnabled(c, s, 0, SendOutput)
    ensures OutOrder(c, ProcApply(c, s, 0, SendOutput))
  {
    assert Produced(ProcApply(c, s, 0, SendOutput)) == Produced(s);
  }

  lemma OutOrderProc<I, O>(c: Config<I, O>, s: State<I, O>, i: nat, p: ProcAct)
    requires OutOrder(c, s) && ProcEnabled(c, s, i, p)
    ensures OutOrder(c, ProcApply(c, s, i, p))
  {
    if p.ProcessOk? {
      OutOrderProcessOk(c, s);
    } else if p.SendOutput? {
      OutOrderSend(c, s);
    } else {
      ProcFrame(c, s, i, p);
      OutOrderKept(c, s, ProcApply(c, s, i, p));
    }
  }

  lemma OutOrderReceive<I, O>(c: Config<I, O>, s: State<I, O>)
    requires OutOrder(c, s) && WriterEnabled(c, s, WRecvItem)
    ensures OutOrder(c, WriterApply(c, s, WRecvItem))
  {
    var t := WriterApply(c, s, WRecvItem);
    assert t.net.buffer + t.net.output == s.net.buffer + s.net.output;
    assert Produced(t) == Written(t) + (t.net.buffer + t.net.output) + ProcOut(t.procs[0]);
    assert Produced(s) == Written(s) + (s.net.buffer + s.net.output) + ProcOut(s.procs[0]);
  }

  lemma OutOrderWrite<I, O>(c: Config<I, O>, s: State<I, O>)
    requires OutOrder(c, s) && WriterEnabled(c, s, WriteOk)
    ensures OutOrder(c, WriterApply(c, s, WriteOk))
  {
    var t := WriterApply(c, s, WriteOk);
    FlattenAppend(s.hist.batches, s.net.buffer);
    assert Written(t) + t.net.buffer == Written(s) + s.net.buffer;
  }

  lemma OutOrderWriter<I, O>(c: Config<I, O>, s: State<I, O>, w: WriterAct)
    requires OutOrder(c, s) && WriterEnabled(c, s, w)
    ensures OutOrder(c, WriterApply(c, s, w))
  {
    if w.WRecvItem? {
      OutOrderReceive(c, s);
    } else if w.WriteOk? {
      OutOrderWrite(c, s);
    } else {
      WriterFrame(c, s, w);
      OutOrderKept(c, s, WriterApply(c, s, w));
    }
  }

  lemma OutOrderStep<I, O>(c: Config<I, O>, s: State<I, O>, a: Action)
    requires OutOrder(c, s) && Enabled(c, s, a)
    ensures OutOrder(c, Apply(c, s, a))
  {
    match a
    case Reader(r) => OutOrderReader(c, s, r);
    case Proc(i, p) => OutOrderProc(c, s, i, p);
    case Writer(w) => OutOrderWriter(c, s, w);
    case Main(m) => match m { case DoneNoError => case DoneWithError => case TakeError => case CancelAll => case AwaitDone => }
    case CloseOutput =>
    case CallerCancel =>
  }

  // ---- the termination measure ----

  function ReaderWeight<I>(r: ReaderPc<I>): nat {
    match r
    case RRead => 5
    case RAcquire(_) => 18
    case RSend(_) => 17
    case RCount => 6
    case RRelease => 4
    case RFail(_) => 3
    case RCancel => 2
    case RClose => 1
    case RDone => 0
  }

  function ProcWeight<I, O>(p: ProcPc<I, O>): nat {
    match p
    case PRecv => 4
    case PCall(_) => 13
    case PSend(_) => 12
    case PCount => 5
    case PDropRelease => 5
    case PErrRelease(_) => 3
    case PFail(_) => 2
    case PCancel => 1
    case PDone => 0
  }

  function WriterWeight(w: WriterPc): nat {
    match w
    case WRecv => 5
    case WCall(_) => 4
    case WCount(n, _) => n + 7
    case WRelease(n, _) => n + 6
    case WFail(_) => 2
    case WCancel => 1
    case WDone => 0
  }

  function MainWeight(m: MainPc): nat {
    match m
    case MSelect => 3
    case MCancel(_) => 2
    case MWait(_) => 1
    case MReturned(_) => 0
  }

  /** The part of the measure that is not the processors'. */
  function Load<I, O>(c: Config<I, O>, s: State<I, O>): nat {
    14 * (if s.hist.pos <= |c.src| then |c.src| - s.hist.pos else 0)
    + 10 * |s.net.input| + 6 * |s.net.output| + 5 * |s.net.buffer|
    + ReaderWeight(s.reader) + WriterWeight(s.writer) + MainWeight(s.main)
    + (if s.net.outputClosed then 0 else 1) + (if s.ctx.callerCancelled then 0 else 1)
  }

  /** An upper bound on the steps a run can still take. */
  function Measure<I, O>(c: Config<I, O>, s: State<I, O>): nat { Load(c, s) + Total(ProcWeight<I, O>, s.procs) }

  lemma LoadReader<I, O>(c: Config<I, O>, s: State<I, O>, r: ReaderAct)
    requires ReaderEnabled(c, s, r)
    ensures ReaderApply(c, s, r).procs == s.procs && Load(c, ReaderApply(c, s, r)) < Load(c, s)
  {
    match r { case ReadItem => case ReadEnd => case ReadError(_) => case Acquire => case AcquireCancelled =>
              case SendInput => case SendInputCancelled => case CountRead => case ReleaseRead =>
              case PushRead => case CancelRead => case CloseInput => }
  }

  lemma LoadProc<I, O>(c: Config<I, O>, s: State<I, O>, i: nat, p: ProcAct)
    requires ProcEnabled(c, s, i, p)
    ensures var t := ProcApply(c, s, i, p);
            && t.procs == s.procs[i := t.procs[i]]
            && Load(c, t) + ProcWeight(t.procs[i]) < Load(c, s) + ProcWeight(s.procs[i])
  {
    match p { case Recv => case RecvClosed => case RecvCancelled => case ProcessOk => case ProcessError(_) =>
              case DropRelease => case ErrRelease => case SendOutput => case SendOutputCancelled =>
              case CountProcessed => case PushProc => case CancelProc => }
  }

  lemma MeasureProc<I, O>(c: Config<I, O>, s: State<I, O>, i: nat, p: ProcAct)
    requires ProcEnabled(c, s, i, p)
    ensures Measure(c, ProcApply(c, s, i, p)) < Measure(c, s)
  {
    LoadProc(c, s, i, p);
    TotalUpdate(ProcWeight<I, O>, s.procs, i, ProcApply(c, s, i, p).procs[i]);
  }

  lemma LoadWriter<I, O>(c: Config<I, O>, s: State<I, O>, w: WriterAct)
    requires Shape(c, s) && WriterEnabled(c, s, w)
    ensures WriterApply(c, s, w).procs == s.procs && Load(c, WriterApply(c, s, w)) < Load(c, s)
  {
    match w { case WRecvItem => case WRecvClosed => case WRecvCancelled => case WriteOk => case WriteError(_) =>
              case CountWritten => case ReleaseOne => case Released => case PushWrite => case CancelWrite => }
  }

  /** Every step, whoever takes it, decreases the measure. */
  lemma MeasureStep<I, O>(c: Config<I, O>, s: State<I, O>, a: Action)
    requires Shape(c, s) && Enabled(c, s, a)
    ensures Measure(c, Apply(c, s, a)) < Measure(c, s)
  {
    match a
    case Reader(r) => LoadReader(c, s, r);
    case Proc(i, p) => MeasureProc(c, s, i, p);
    case Writer(w) => LoadWriter(c, s, w);
    case Main(m) => match m { case DoneNoError => case DoneWithError => case TakeError => case CancelAll => case AwaitDone => }
    case CloseOutput =>
    case CallerCancel =>
  }
}
