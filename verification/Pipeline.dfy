/**
 One run of the batching pipeline (internal/platform/batching/pipeline.go) as a transition system.

 Every goroutine has a program counter; every blocking channel operation, callback return,
 atomic counter update, single token release, error push, cancellation and channel close is one
 step. The scheduler, the callbacks and the caller's context are nondeterministic: a run is any
 sequence of enabled actions.

 `Read` hands out a finite source in order and may fail at any call; `Process` keeps or drops an
 item as `keep` says, or fails; `Write` accepts a batch or fails.
 */
module Pipeline {
  import opened Collections

  /** The accepted options that shape a run; capacities are channel capacities. */
  datatype Limits = Limits(procs: nat, buffered: nat, batch: nat, inflight: nat)

  /** What Validate guarantees about the options of a run. */
  predicate ValidLimits(l: Limits) {
    l.procs > 0 && l.buffered > 0 && l.batch > 0 && l.inflight >= l.batch
  }

  datatype Config<!I, !O> = Config(limits: Limits, src: seq<I>, keep: I -> Option<O>)

  type Error = string

  datatype Stage = Reading | Processing | Writing

  /** An error a goroutine returns: from a callback, or the context's own error.
      `early` records that the context was not cancelled when the callback returned. */
  datatype Failure = Callback(stage: Stage, error: Error, early: bool) | Induced

  datatype ReaderPc<I> =
    | RRead | RAcquire(item: I) | RSend(item: I) | RCount
    | RRelease | RFail(f: Failure) | RCancel | RClose | RDone

  datatype ProcPc<I, O> =
    | PRecv | PCall(item: I) | PSend(out: O) | PCount | PDropRelease
    | PErrRelease(f: Failure) | PFail(f: Failure) | PCancel | PDone

  datatype AfterFlush = Continue | ReturnNil | ReturnErr(f: Failure)

  datatype WriterPc =
    | WRecv | WCall(final: bool) | WCount(n: nat, final: bool) | WRelease(n: nat, next: AfterFlush)
    | WFail(f: Failure) | WCancel | WDone

  datatype MainPc =
    | MSelect | MCancel(f: Failure) | MWait(f: Failure) | MReturned(result: Option<Failure>)

  /** The two item channels, the token channel and the writer's buffer. */
  datatype Net<I, O> = Net(input: seq<I>, inputClosed: bool, output: seq<O>, outputClosed: bool, tokens: nat, buffer: seq<O>)

  /** The context, the error channel and everything ever pushed on it (errLog is history). */
  datatype Ctx = Ctx(cancelled: bool, callerCancelled: bool, errCh: seq<Failure>, errLog: seq<Failure>)

  datatype Stats = Stats(itemsRead: nat, itemsProcessed: nat, itemsWritten: nat)

  /** Items delivered by Read (the source position), items Process accepted or dropped, channel
      sends, batches Write accepted in order, and goroutines that returned an error. */
  datatype History<I, O> = History(
    pos: nat, processed: seq<I>, sentIn: nat, sentOut: nat, batches: seq<seq<O>>, failures: nat)

  datatype State<I, O> = State(
    reader: ReaderPc<I>, procs: seq<ProcPc<I, O>>, writer: WriterPc, main: MainPc,
    net: Net<I, O>, ctx: Ctx, stats: Stats, hist: History<I, O>)

  datatype ReaderAct =
    | ReadItem | ReadEnd | ReadError(error: Error) | Acquire | AcquireCancelled
    | SendInput | SendInputCancelled | CountRead | ReleaseRead | PushRead | CancelRead | CloseInput

  datatype ProcAct =
    | Recv | RecvClosed | RecvCancelled | ProcessOk | ProcessError(error: Error)
    | DropRelease | ErrRelease | SendOutput | SendOutputCancelled | CountProcessed | PushProc | CancelProc

  datatype WriterAct =
    | WRecvItem | WRecvClosed | WRecvCancelled | WriteOk | WriteError(error: Error)
    | CountWritten | ReleaseOne | Released | PushWrite | CancelWrite

  datatype MainAct = DoneNoError | DoneWithError | TakeError | CancelAll | AwaitDone

  datatype Action =
    | Reader(r: ReaderAct) | Proc(i: nat, p: ProcAct) | Writer(w: WriterAct) | Main(m: MainAct)
    | CloseOutput | CallerCancel

  function Init<I, O>(c: Config<I, O>): State<I, O> {
    State(RRead, seq(c.limits.procs, _ => PRecv), WRecv, MSelect,
          Net([], false, [], false, 0, []), Ctx(false, false, [], []), Stats(0, 0, 0), History(0, [], 0, 0, [], 0))
  }

  predicate AllProcsDone<I, O>(s: State<I, O>) {
    forall i :: 0 <= i < |s.procs| ==> s.procs[i].PDone?
  }

  predicate AllExited<I, O>(s: State<I, O>) {
    s.reader.RDone? && AllProcsDone(s) && s.net.outputClosed && s.writer.WDone?
  }

  function ErrCapacity<I, O>(c: Config<I, O>): nat { c.limits.procs + 2 }

  /** The non-blocking send on errCh; `cancel` follows as a separate step. */
  function Push<I, O>(c: Config<I, O>, s: State<I, O>, f: Failure): State<I, O> {
    if |s.ctx.errCh| < ErrCapacity(c)
    then s.(ctx := s.ctx.(errCh := s.ctx.errCh + [f], errLog := s.ctx.errLog + [f]))
    else s
  }

  /** One non-blocking receive from the token channel. */
  function ReleaseToken<I, O>(s: State<I, O>): State<I, O> {
    if s.net.tokens > 0 then s.(net := s.net.(tokens := s.net.tokens - 1)) else s
  }

  function CountFailure<I, O>(s: State<I, O>): State<I, O> { s.(hist := s.hist.(failures := s.hist.failures + 1)) }

  // ---- reader goroutine ----

  predicate ReaderEnabled<I, O>(c: Config<I, O>, s: State<I, O>, a: ReaderAct) {
    match a
    case ReadItem => s.reader.RRead? && s.hist.pos < |c.src|
    case ReadEnd => s.reader.RRead? && s.hist.pos == |c.src|
    case ReadError(_) => s.reader.RRead?
    case Acquire => s.reader.RAcquire? && s.net.tokens < c.limits.inflight
    case AcquireCancelled => s.reader.RAcquire? && s.ctx.cancelled
    case SendInput => s.reader.RSend? && |s.net.input| < c.limits.buffered
    case SendInputCancelled => s.reader.RSend? && s.ctx.cancelled
    case CountRead => s.reader.RCount?
    case ReleaseRead => s.reader.RRelease?
    case PushRead => s.reader.RFail?
    case CancelRead => s.reader.RCancel?
    case CloseInput => s.reader.RClose?
  }

  function ReaderApply<I, O>(c: Config<I, O>, s: State<I, O>, a: ReaderAct): State<I, O>
    requires ReaderEnabled(c, s, a)
  {
    match a
    case ReadItem => s.(reader := RAcquire(c.src[s.hist.pos]), hist := s.hist.(pos := s.hist.pos + 1))
    case ReadEnd => s.(reader := RClose)
    case ReadError(e) => CountFailure(s).(reader := RFail(Callback(Reading, e, !s.ctx.cancelled)))
    case Acquire => s.(reader := RSend(s.reader.item), net := s.net.(tokens := s.net.tokens + 1))
    case AcquireCancelled => CountFailure(s).(reader := RFail(Induced))
    case SendInput =>
      s.(reader := RCount, net := s.net.(input := s.net.input + [s.reader.item]),
         hist := s.hist.(sentIn := s.hist.sentIn + 1))
    case SendInputCancelled => CountFailure(s).(reader := RRelease)
    case CountRead => s.(reader := RRead, stats := s.stats.(itemsRead := s.stats.itemsRead + 1))
    case ReleaseRead => ReleaseToken(s).(reader := RFail(Induced))
    case PushRead => Push(c, s, s.reader.f).(reader := RCancel)
    case CancelRead => s.(reader := RClose, ctx := s.ctx.(cancelled := true))
    case CloseInput => s.(reader := RDone, net := s.net.(inputClosed := true))
  }

  // ---- processor goroutines ----

  predicate ProcEnabled<I, O>(c: Config<I, O>, s: State<I, O>, i: nat, a: ProcAct) {
    i < |s.procs| &&
    var p := s.procs[i];
    match a
    case Recv => p.PRecv? && |s.net.input| > 0
    case RecvClosed => p.PRecv? && |s.net.input| == 0 && s.net.inputClosed
    case RecvCancelled => p.PRecv? && s.ctx.cancelled
    case ProcessOk => p.PCall?
    case ProcessError(_) => p.PCall?
    case DropRelease => p.PDropRelease?
    case ErrRelease => p.PErrRelease?
    case SendOutput => p.PSend? && |s.net.output| < c.limits.buffered
    case SendOutputCancelled => p.PSend? && s.ctx.cancelled
    case CountProcessed => p.PCount?
    case PushProc => p.PFail?
    case CancelProc => p.PCancel?
  }

  function ProcApply<I, O>(c: Config<I, O>, s: State<I, O>, i: nat, a: ProcAct): State<I, O>
    requires ProcEnabled(c, s, i, a)
  {
    var p := s.procs[i];
    match a
    case Recv => s.(procs := s.procs[i := PCall(s.net.input[0])], net := s.net.(input := s.net.input[1..]))
    case RecvClosed => s.(procs := s.procs[i := PDone])
    case RecvCancelled => CountFailure(s).(procs := s.procs[i := PFail(Induced)])
    case ProcessOk =>
      var r := c.keep(p.item);
      s.(procs := s.procs[i := if r.Some? then PSend(r.value) else PDropRelease],
         hist := s.hist.(processed := s.hist.processed + [p.item]))
    case ProcessError(e) =>
      CountFailure(s).(procs := s.procs[i := PErrRelease(Callback(Processing, e, !s.ctx.cancelled))])
    case DropRelease => ReleaseToken(s).(procs := s.procs[i := PRecv])
    case ErrRelease => ReleaseToken(s).(procs := s.procs[i := PFail(p.f)])
    case SendOutput =>
      s.(procs := s.procs[i := PCount], net := s.net.(output := s.net.output + [p.out]),
         hist := s.hist.(sentOut := s.hist.sentOut + 1))
    case SendOutputCancelled => CountFailure(s).(procs := s.procs[i := PErrRelease(Induced)])
    case CountProcessed =>
      s.(procs := s.procs[i := PRecv], stats := s.stats.(itemsProcessed := s.stats.itemsProcessed + 1))
    case PushProc => Push(c, s, p.f).(procs := s.procs[i := PCancel])
    case CancelProc => s.(procs := s.procs[i := PDone], ctx := s.ctx.(cancelled := true))
  }

  // ---- writer goroutine ----

  predicate WriterEnabled<I, O>(c: Config<I, O>, s: State<I, O>, a: WriterAct) {
    match a
    case WRecvItem => s.writer.WRecv? && |s.net.output| > 0
    case WRecvClosed => s.writer.WRecv? && |s.net.output| == 0 && s.net.outputClosed
    case WRecvCancelled => s.writer.WRecv? && s.ctx.cancelled
    case WriteOk => s.writer.WCall?
    case WriteError(_) => s.writer.WCall?
    case CountWritten => s.writer.WCount?
    case ReleaseOne => s.writer.WRelease? && s.writer.n > 0
    case Released => s.writer.WRelease? && s.writer.n == 0
    case PushWrite => s.writer.WFail?
    case CancelWrite => s.writer.WCancel?
  }

  function WriterApply<I, O>(c: Config<I, O>, s: State<I, O>, a: WriterAct): State<I, O>
    requires WriterEnabled(c, s, a)
  {
    match a
    case WRecvItem =>
      var buf := s.net.buffer + [s.net.output[0]];
      s.(writer := if |buf| >= c.limits.batch then WCall(false) else WRecv,
         net := s.net.(output := s.net.output[1..], buffer := buf))
    case WRecvClosed => s.(writer := if s.net.buffer == [] then WDone else WCall(true))
    case WRecvCancelled => CountFailure(s).(writer := WFail(Induced))
    case WriteOk =>
      s.(writer := WCount(|s.net.buffer|, s.writer.final),
         hist := s.hist.(batches := s.hist.batches + [s.net.buffer]), net := s.net.(buffer := []))
    case WriteError(e) =>
      CountFailure(s).(writer := WRelease(|s.net.buffer|, ReturnErr(Callback(Writing, e, !s.ctx.cancelled))),
                       net := s.net.(buffer := []))
    case CountWritten =>
      s.(writer := WRelease(s.writer.n, if s.writer.final then ReturnNil else Continue),
         stats := s.stats.(itemsWritten := s.stats.itemsWritten + s.writer.n))
    case ReleaseOne => ReleaseToken(s).(writer := WRelease(s.writer.n - 1, s.writer.next))
    case Released =>
      s.(writer := match s.writer.next case Continue => WRecv case ReturnNil => WDone case ReturnErr(f) => WFail(f))
    case PushWrite => Push(c, s, s.writer.f).(writer := WCancel)
    case CancelWrite => s.(writer := WDone, ctx := s.ctx.(cancelled := true))
  }

  // ---- Run itself ----

  predicate MainEnabled<I, O>(s: State<I, O>, a: MainAct) {
    match a
    case DoneNoError => s.main.MSelect? && AllExited(s) && s.ctx.errCh == []
    case DoneWithError => s.main.MSelect? && AllExited(s) && s.ctx.errCh != []
    case TakeError => s.main.MSelect? && s.ctx.errCh != []
    case CancelAll => s.main.MCancel?
    case AwaitDone => s.main.MWait? && AllExited(s)
  }

  function MainApply<I, O>(s: State<I, O>, a: MainAct): State<I, O>
    requires MainEnabled(s, a)
  {
    match a
    case DoneNoError => s.(main := MReturned(if s.ctx.cancelled then Some(Induced) else None))
    case DoneWithError => s.(main := MReturned(Some(s.ctx.errCh[0])), ctx := s.ctx.(errCh := s.ctx.errCh[1..]))
    case TakeError => s.(main := MCancel(s.ctx.errCh[0]), ctx := s.ctx.(errCh := s.ctx.errCh[1..]))
    case CancelAll => s.(main := MWait(s.main.f), ctx := s.ctx.(cancelled := true))
    case AwaitDone => s.(main := MReturned(Some(s.main.f)))
  }

  predicate Enabled<I, O>(c: Config<I, O>, s: State<I, O>, a: Action) {
    match a
    case Reader(r) => ReaderEnabled(c, s, r)
    case Proc(i, p) => ProcEnabled(c, s, i, p)
    case Writer(w) => WriterEnabled(c, s, w)
    case Main(m) => MainEnabled(s, m)
    case CloseOutput => !s.net.outputClosed && AllProcsDone(s)
    case CallerCancel => !s.ctx.callerCancelled && !s.main.MReturned?
  }

  function Apply<I, O>(c: Config<I, O>, s: State<I, O>, a: Action): State<I, O>
    requires Enabled(c, s, a)
  {
    match a
    case Reader(r) => ReaderApply(c, s, r)
    case Proc(i, p) => ProcApply(c, s, i, p)
    case Writer(w) => WriterApply(c, s, w)
    case Main(m) => MainApply(s, m)
    case CloseOutput => s.(net := s.net.(outputClosed := true))
    case CallerCancel => s.(ctx := s.ctx.(callerCancelled := true, cancelled := true))
  }

  /** The state a sequence of actions leads to, when each was enabled in turn. */
  function Run<I, O>(c: Config<I, O>, acts: seq<Action>): Option<State<I, O>> {
    if acts == [] then Some(Init(c))
    else
      var prev := Run(c, acts[..|acts| - 1]);
      var a := acts[|acts| - 1];
      if prev.Some? && Enabled(c, prev.value, a) then Some(Apply(c, prev.value, a)) else None
  }

  ghost predicate Reaches<I, O>(c: Config<I, O>, acts: seq<Action>, s: State<I, O>) {
    Run(c, acts) == Some(s)
  }

  /** Everything Write accepted, in order. */
  function Written<I, O>(s: State<I, O>): seq<O> { Flatten(s.hist.batches) }
}
