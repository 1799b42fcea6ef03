/** Inductive invariants of the batching pipeline, each preserved by every step. */
module PipelineInvariant {
  import opened Collections
  import opened Pipeline

  // ---- what each program point holds ----

  function ReaderTokens<I>(r: ReaderPc<I>): nat { if r.RSend? || r.RRelease? then 1 else 0 }

  function ProcTokens<I, O>(p: ProcPc<I, O>): nat {
    if p.PCall? || p.PSend? || p.PDropRelease? || p.PErrRelease? then 1 else 0
  }

  function WriterTokens(w: WriterPc): nat { if w.WCount? || w.WRelease? then w.n else 0 }

  function ReaderItem<I>(r: ReaderPc<I>): seq<I> { if r.RAcquire? || r.RSend? then [r.item] else [] }

  function ProcItem<I, O>(p: ProcPc<I, O>): seq<I> { if p.PCall? then [p.item] else [] }

  function ProcOut<I, O>(p: ProcPc<I, O>): seq<O> { if p.PSend? then [p.out] else [] }

  // ---- control structure ----

  ghost predicate WriterShape<I, O>(c: Config<I, O>, w: WriterPc, n: Net<I, O>) {
    match w
    case WRecv => |n.buffer| < c.limits.batch
    case WCall(final) => if final then 0 < |n.buffer| < c.limits.batch && n.outputClosed && n.output == []
                         else 0 < |n.buffer| == c.limits.batch
    case WCount(k, final) => n.buffer == [] && 0 < k && (final ==> n.outputClosed && n.output == [])
    case WRelease(k, next) => n.buffer == [] && (next.ReturnNil? ==> n.outputClosed && n.output == [])
    case _ => |n.buffer| < c.limits.batch
  }

  ghost predicate Shape<I, O>(c: Config<I, O>, s: State<I, O>) {
    && |s.procs| == c.limits.procs
    && |s.net.input| <= c.limits.buffered
    && |s.net.output| <= c.limits.buffered
    && (s.net.inputClosed <==> s.reader.RDone?)
    && (s.net.outputClosed ==> AllProcsDone(s))
    && (s.main.MReturned? ==> AllExited(s))
    && WriterShape(c, s.writer, s.net)
  }

  lemma ShapeReader<I, O>(c: Config<I, O>, s: State<I, O>, r: ReaderAct)
    requires Shape(c, s) && ReaderEnabled(c, s, r)
    ensures Shape(c, ReaderApply(c, s, r))
  {
    match r { case ReadItem => case ReadEnd => case ReadError(_) => case Acquire => case AcquireCancelled =>
              case SendInput => case SendInputCancelled => case CountRead => case ReleaseRead =>
              case PushRead => case CancelRead => case CloseInput => }
  }

  lemma ShapeProc<I, O>(c: Config<I, O>, s: State<I, O>, i: nat, p: ProcAct)
    requires Shape(c, s) && ProcEnabled(c, s, i, p)
    ensures Shape(c, ProcApply(c, s, i, p))
  {
    match p { case Recv => case RecvClosed => case RecvCancelled => case ProcessOk => case ProcessError(_) =>
              case DropRelease => case ErrRelease => case SendOutput => case SendOutputCancelled =>
              case CountProcessed => case PushProc => case CancelProc => }
  }

  lemma ShapeWriter<I, O>(c: Config<I, O>, s: State<I, O>, w: WriterAct)
    requires c.limits.batch > 0 && Shape(c, s) && WriterEnabled(c, s, w)
    ensures Shape(c, WriterApply(c, s, w))
  {
    match w { case WRecvItem => case WRecvClosed => case WRecvCancelled => case WriteOk => case WriteError(_) =>
              case CountWritten => case ReleaseOne => case Released => case PushWrite => case CancelWrite => }
  }

  lemma ShapeStep<I, O>(c: Config<I, O>, s: State<I, O>, a: Action)
    requires c.limits.batch > 0 && Shape(c, s) && Enabled(c, s, a)
    ensures Shape(c, Apply(c, s, a))
  {
    match a
    case Reader(r) => ShapeReader(c, s, r);
    case Proc(i, p) => ShapeProc(c, s, i, p);
    case Writer(w) => ShapeWriter(c, s, w);
    case Main(m) => match m { case DoneNoError => case DoneWithError => case TakeError => case CancelAll => case AwaitDone => }
    case CloseOutput =>
    case CallerCancel =>
  }

  // ---- token accounting ----

  /** Items in flight between the reader's acquire and the release that pays for it. */
  function TokensHeld<I, O>(s: State<I, O>): nat {
    ReaderTokens(s.reader) + |s.net.input| + Total(ProcTokens<I, O>, s.procs)
    + |s.net.output| + |s.net.buffer| + WriterTokens(s.writer)
  }

  ghost predicate TokenInv<I, O>(c: Config<I, O>, s: State<I, O>) {
    s.net.tokens == TokensHeld(s) <= c.limits.inflight
  }

  lemma TokenProc<I, O>(c: Config<I, O>, s: State<I, O>, i: nat, p: ProcAct)
    requires TokenInv(c, s) && ProcEnabled(c, s, i, p)
    ensures TokenInv(c, ProcApply(c, s, i, p))
  {
    TotalUpdate(ProcTokens<I, O>, s.procs, i, ProcApply(c, s, i, p).procs[i]);
    match p { case Recv => case RecvClosed => case RecvCancelled => case ProcessOk => case ProcessError(_) =>
              case DropRelease => case ErrRelease => case SendOutput => case SendOutputCancelled =>
              case CountProcessed => case PushProc => case CancelProc => }
  }

  lemma TokenReader<I, O>(c: Config<I, O>, s: State<I, O>, r: ReaderAct)
    requires TokenInv(c, s) && ReaderEnabled(c, s, r)
    ensures TokenInv(c, ReaderApply(c, s, r))
  {
    match r { case ReadItem => case ReadEnd => case ReadError(_) => case Acquire => case AcquireCancelled =>
              case SendInput => case SendInputCancelled => case CountRead => case ReleaseRead =>
              case PushRead => case CancelRead => case CloseInput => }
  }

  lemma TokenWriter<I, O>(c: Config<I, O>, s: State<I, O>, w: WriterAct)
    requires TokenInv(c, s) && WriterEnabled(c, s, w)
    ensures TokenInv(c, WriterApply(c, s, w))
  {
    match w { case WRecvItem => case WRecvClosed => case WRecvCancelled => case WriteOk => case WriteError(_) =>
              case CountWritten => case ReleaseOne => case Released => case PushWrite => case CancelWrite => }
  }

  lemma TokenStep<I, O>(c: Config<I, O>, s: State<I, O>, a: Action)
    requires TokenInv(c, s) && Enabled(c, s, a)
    ensures TokenInv(c, Apply(c, s, a))
  {
    match a
    case Reader(r) => TokenReader(c, s, r);
    case Proc(i, p) => TokenProc(c, s, i, p);
    case Writer(w) => TokenWriter(c, s, w);
    case Main(m) => match m { case DoneNoError => case DoneWithError => case TakeError => case CancelAll => case AwaitDone => }
    case CloseOutput =>
    case CallerCancel =>
  }

  // ---- errors ----

  /** Errors a goroutine may still push: one each, until it has done so. */
  function ReaderBudget<I>(r: ReaderPc<I>): nat { if r.RCancel? || r.RClose? || r.RDone? then 0 else 1 }

  function ProcBudget<I, O>(p: ProcPc<I, O>): nat { if p.PCancel? || p.PDone? then 0 else 1 }

  function WriterBudget(w: WriterPc): nat { if w.WCancel? || w.WDone? then 0 else 1 }

  ghost predicate BudgetInv<I, O>(c: Config<I, O>, s: State<I, O>) {
    && |s.ctx.errLog| + ReaderBudget(s.reader) + Total(ProcBudget<I, O>, s.procs) + WriterBudget(s.writer) <= ErrCapacity(c)
    && |s.ctx.errCh| <= |s.ctx.errLog|
  }

  lemma BudgetProc<I, O>(c: Config<I, O>, s: State<I, O>, i: nat, p: ProcAct)
    requires BudgetInv(c, s) && ProcEnabled(c, s, i, p)
    ensures BudgetInv(c, ProcApply(c, s, i, p))
  {
    TotalUpdate(ProcBudget<I, O>, s.procs, i, ProcApply(c, s, i, p).procs[i]);
    TotalAtLeast(ProcBudget<I, O>, s.procs, i);
    match p { case Recv => case RecvClosed => case RecvCancelled => case ProcessOk => case ProcessError(_) =>
              case DropRelease => case ErrRelease => case SendOutput => case SendOutputCancelled =>
              case CountProcessed => case PushProc => case CancelProc => }
  }

  lemma BudgetReader<I, O>(c: Config<I, O>, s: State<I, O>, r: ReaderAct)
    requires BudgetInv(c, s) && ReaderEnabled(c, s, r)
    ensures BudgetInv(c, ReaderApply(c, s, r))
  {
    match r { case ReadItem => case ReadEnd => case ReadError(_) => case Acquire => case AcquireCancelled =>
              case SendInput => case SendInputCancelled => case CountRead => case ReleaseRead =>
              case PushRead => case CancelRead => case CloseInput => }
  }

  lemma BudgetWriter<I, O>(c: Config<I, O>, s: State<I, O>, w: WriterAct)
    requires BudgetInv(c, s) && WriterEnabled(c, s, w)
    ensures BudgetInv(c, WriterApply(c, s, w))
  {
    match w { case WRecvItem => case WRecvClosed => case WRecvCancelled => case WriteOk => case WriteError(_) =>
              case CountWritten => case ReleaseOne => case Released => case PushWrite => case CancelWrite => }
  }

  lemma BudgetStep<I, O>(c: Config<I, O>, s: State<I, O>, a: Action)
    requires BudgetInv(c, s) && Enabled(c, s, a)
    ensures BudgetInv(c, Apply(c, s, a))
  {
    match a
    case Reader(r) => BudgetReader(c, s, r);
    case Proc(i, p) => BudgetProc(c, s, i, p);
    case Writer(w) => BudgetWriter(c, s, w);
    case Main(m) => match m { case DoneNoError => case DoneWithError => case TakeError => case CancelAll => case AwaitDone => }
    case CloseOutput =>
    case CallerCancel =>
  }

  /** A pending error that is not an early callback error is explained by a cancellation. */
  ghost predicate Explained(x: Ctx, f: Failure) { (f.Callback? && f.early) || x.cancelled }

  ghost predicate ProcErr<I, O>(x: Ctx, p: ProcPc<I, O>) {
    && (p.PErrRelease? || p.PFail? ==> Explained(x, p.f))
    && (p.PCancel? ==> x.errLog != [])
  }

  ghost predicate ReaderErr<I>(x: Ctx, r: ReaderPc<I>) {
    && (r.RFail? ==> Explained(x, r.f))
    && (r.RRelease? ==> x.cancelled)
    && (r.RCancel? ==> x.errLog != [])
  }

  ghost predicate WriterErr(x: Ctx, w: WriterPc) {
    && (w.WRelease? && w.next.ReturnErr? ==> Explained(x, w.next.f))
    && (w.WFail? ==> Explained(x, w.f))
    && (w.WCancel? ==> x.errLog != [])
  }

  ghost predicate CtxErr(x: Ctx) {
    && (x.cancelled ==> x.callerCancelled || x.errLog != [])
    && (x.callerCancelled ==> x.cancelled)
    && (x.errLog != [] && !x.callerCancelled ==> x.errLog[0].Callback? && x.errLog[0].early)
  }

  ghost predicate MainErr(x: Ctx, m: MainPc) {
    match m
    case MSelect => x.errCh == x.errLog
    case MCancel(f) => x.errLog == [f] + x.errCh
    case MWait(f) => x.errLog == [f] + x.errCh && x.cancelled
    case MReturned(None) => x.errLog == [] && !x.cancelled
    case MReturned(Some(f)) =>
      if x.errLog == [] then f == Induced && x.callerCancelled else f == x.errLog[0]
  }

  ghost predicate ErrInv<I, O>(c: Config<I, O>, s: State<I, O>) {
    && CtxErr(s.ctx) && MainErr(s.ctx, s.main) && ReaderErr(s.ctx, s.reader) && WriterErr(s.ctx, s.writer)
    && (forall i :: 0 <= i < |s.procs| ==> ProcErr(s.ctx, s.procs[i]))
  }

  /** Contexts only move forward. */
  ghost predicate Later(x: Ctx, y: Ctx) {
    (x.cancelled ==> y.cancelled) && (x.errLog != [] ==> y.errLog != [])
  }

  lemma ErrReader<I, O>(c: Config<I, O>, s: State<I, O>, r: ReaderAct)
    requires ErrInv(c, s) && BudgetInv(c, s) && !s.main.MReturned? && ReaderEnabled(c, s, r)
    ensures var t := ReaderApply(c, s, r);
            Later(s.ctx, t.ctx) && CtxErr(t.ctx) && MainErr(t.ctx, t.main) && ReaderErr(t.ctx, t.reader)
            && t.writer == s.writer && t.procs == s.procs
  {
    match r { case ReadItem => case ReadEnd => case ReadError(_) => case Acquire => case AcquireCancelled =>
              case SendInput => case SendInputCancelled => case CountRead => case ReleaseRead =>
              case PushRead => case CancelRead => case CloseInput => }
  }

  lemma ErrProc<I, O>(c: Config<I, O>, s: State<I, O>, i: nat, p: ProcAct)
    requires ErrInv(c, s) && BudgetInv(c, s) && !s.main.MReturned? && ProcEnabled(c, s, i, p)
    ensures var t := ProcApply(c, s, i, p);
            Later(s.ctx, t.ctx) && CtxErr(t.ctx) && MainErr(t.ctx, t.main) && ProcErr(t.ctx, t.procs[i])
            && t.reader == s.reader && t.writer == s.writer && t.procs == s.procs[i := t.procs[i]]
  {
    TotalAtLeast(ProcBudget<I, O>, s.procs, i);
    assert ProcErr(s.ctx, s.procs[i]);
    match p { case Recv => case RecvClosed => case RecvCancelled => case ProcessOk => case ProcessError(_) =>
              case DropRelease => case ErrRelease => case SendOutput => case SendOutputCancelled =>
              case CountProcessed => case PushProc => case CancelProc => }
  }

  lemma ErrWriter<I, O>(c: Config<I, O>, s: State<I, O>, w: WriterAct)
    requires ErrInv(c, s) && BudgetInv(c, s) && !s.main.MReturned? && WriterEnabled(c, s, w)
    ensures var t := WriterApply(c, s, w);
            Later(s.ctx, t.ctx) && CtxErr(t.ctx) && MainErr(t.ctx, t.main) && WriterErr(t.ctx, t.writer)
            && t.reader == s.reader && t.procs == s.procs
  {
    match w { case WRecvItem => case WRecvClosed => case WRecvCancelled => case WriteOk => case WriteError(_) =>
              case CountWritten => case ReleaseOne => case Released => case PushWrite => case CancelWrite => }
  }

  lemma StillExplained<I, O>(x: Ctx, y: Ctx, procs: seq<ProcPc<I, O>>)
    requires Later(x, y) && forall j :: 0 <= j < |procs| ==> ProcErr(x, procs[j])
    ensures forall j :: 0 <= j < |procs| ==> ProcErr(y, procs[j])
  {
    forall j | 0 <= j < |procs| ensures ProcErr(y, procs[j]) {
      assert ProcErr(x, procs[j]);
    }
  }

  lemma ErrMain<I, O>(c: Config<I, O>, s: State<I, O>, a: Action)
    requires ErrInv(c, s) && Enabled(c, s, a) && (a.Main? || a.CloseOutput? || a.CallerCancel?)
    ensures ErrInv(c, Apply(c, s, a))
  {
    var t := Apply(c, s, a);
    match a {
      case Main(m) => match m { case DoneNoError => case DoneWithError => case TakeError => case CancelAll => case AwaitDone => }
      case CloseOutput =>
      case CallerCancel =>
    }
    StillExplained(s.ctx, t.ctx, s.procs);
  }

  lemma ErrStep<I, O>(c: Config<I, O>, s: State<I, O>, a: Action)
    requires Shape(c, s) && ErrInv(c, s) && BudgetInv(c, s) && Enabled(c, s, a)
    ensures ErrInv(c, Apply(c, s, a))
  {
    var t := Apply(c, s, a);
    match a
    case Reader(r) =>
      ErrReader(c, s, r);
      StillExplained(s.ctx, t.ctx, s.procs);
    case Proc(i, p) =>
      ErrProc(c, s, i, p);
      StillExplained(s.ctx, t.ctx, s.procs);
    case Writer(w) =>
      ErrWriter(c, s, w);
      StillExplained(s.ctx, t.ctx, s.procs);
    case _ => ErrMain(c, s, a);
  }
}
