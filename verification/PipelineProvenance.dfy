/** Where the errors of a run come from, action by action, and what they lead to. */
module PipelineProvenance {
  import opened Collections
  import opened Pipeline

  /** The error a callback returns in this action, with the context live or cancelled at that moment. */
  function Raised(a: Action, live: bool): set<Failure> {
    match a
    case Reader(ReadError(e)) => {Callback(Reading, e, live)}
    case Proc(_, ProcessError(e)) => {Callback(Processing, e, live)}
    case Writer(WriteError(e)) => {Callback(Writing, e, live)}
    case _ => {}
  }

  /** Action k of the run is a callback returning exactly this error. */
  ghost predicate RaisedAt<I, O>(c: Config<I, O>, acts: seq<Action>, k: nat, f: Failure) {
    k < |acts| && Run(c, acts[..k]).Some? && f in Raised(acts[k], !Run(c, acts[..k]).value.ctx.cancelled)
  }

  // ---- who carries an error ----

  predicate ReaderCarries<I>(r: ReaderPc<I>, f: Failure) { r.RFail? && r.f == f }

  predicate ProcCarries<I, O>(p: ProcPc<I, O>, f: Failure) { (p.PErrRelease? || p.PFail?) && p.f == f }

  predicate WriterCarries(w: WriterPc, f: Failure) { (w.WFail? && w.f == f) || (w.WRelease? && w.next == ReturnErr(f)) }

  predicate MainCarries(m: MainPc, f: Failure) {
    match m
    case MSelect => false
    case MCancel(g) => g == f
    case MWait(g) => g == f
    case MReturned(result) => result == Some(f)
  }

  ghost predicate Carries<I, O>(s: State<I, O>, f: Failure) {
    || ReaderCarries(s.reader, f) || WriterCarries(s.writer, f) || MainCarries(s.main, f) || f in s.ctx.errCh
    || exists i :: 0 <= i < |s.procs| && ProcCarries(s.procs[i], f)
  }

  lemma ReaderPasses<I, O>(c: Config<I, O>, s: State<I, O>, r: ReaderAct, f: Failure)
    requires ReaderEnabled(c, s, r) && f.Callback?
    ensures var t := ReaderApply(c, s, r);
            && t.procs == s.procs && t.writer == s.writer && t.main == s.main
            && (ReaderCarries(t.reader, f) ==> ReaderCarries(s.reader, f) || f in Raised(Reader(r), !s.ctx.cancelled))
            && (f in t.ctx.errCh ==> f in s.ctx.errCh || ReaderCarries(s.reader, f))
  {
    match r { case ReadItem => case ReadEnd => case ReadError(_) => case Acquire => case AcquireCancelled =>
              case SendInput => case SendInputCancelled => case CountRead => case ReleaseRead =>
              case PushRead => case CancelRead => case CloseInput => }
  }

  lemma ProcPasses<I, O>(c: Config<I, O>, s: State<I, O>, i: nat, p: ProcAct, f: Failure)
    requires ProcEnabled(c, s, i, p) && f.Callback?
    ensures var t := ProcApply(c, s, i, p);
            && t.procs == s.procs[i := t.procs[i]] && t.reader == s.reader && t.writer == s.writer && t.main == s.main
            && (ProcCarries(t.procs[i], f) ==> ProcCarries(s.procs[i], f) || f in Raised(Proc(i, p), !s.ctx.cancelled))
            && (f in t.ctx.errCh ==> f in s.ctx.errCh || ProcCarries(s.procs[i], f))
  {
    match p { case Recv => case RecvClosed => case RecvCancelled => case ProcessOk => case ProcessError(_) =>
              case DropRelease => case ErrRelease => case SendOutput => case SendOutputCancelled =>
              case CountProcessed => case PushProc => case CancelProc => }
  }

  lemma WriterPasses<I, O>(c: Config<I, O>, s: State<I, O>, w: WriterAct, f: Failure)
    requires WriterEnabled(c, s, w) && f.Callback?
    ensures var t := WriterApply(c, s, w);
            && t.procs == s.procs && t.reader == s.reader && t.main == s.main
            && (WriterCarries(t.writer, f) ==> WriterCarries(s.writer, f) || f in Raised(Writer(w), !s.ctx.cancelled))
            && (f in t.ctx.errCh ==> f in s.ctx.errCh || WriterCarries(s.writer, f))
  {
    match w { case WRecvItem => case WRecvClosed => case WRecvCancelled => case WriteOk => case WriteError(_) =>
              case CountWritten => case ReleaseOne => case Released => case PushWrite => case CancelWrite => }
  }

  /** Errors are handed on as they are: what a state carries was carried before or has just been raised. */
  lemma StepPasses<I, O>(c: Config<I, O>, s: State<I, O>, a: Action, f: Failure)
    requires Enabled(c, s, a) && f.Callback? && Carries(Apply(c, s, a), f)
    ensures Carries(s, f) || f in Raised(a, !s.ctx.cancelled)
  {
    var t := Apply(c, s, a);
    match a {
      case Reader(r) => ReaderPasses(c, s, r, f);
      case Proc(i, p) =>
        ProcPasses(c, s, i, p, f);
        if j :| 0 <= j < |t.procs| && ProcCarries(t.procs[j], f) && j != i {
          assert ProcCarries(s.procs[j], f);
        }
      case Writer(w) => WriterPasses(c, s, w, f);
      case Main(m) =>
        match m { case DoneNoError => case DoneWithError => case TakeError => case CancelAll => case AwaitDone => }
      case CloseOutput =>
      case CallerCancel =>
    }
  }

  /** Every callback error in a reachable state was returned, with that stage, text and timing, by an action
      of the run. */
  lemma {:induction false} RaisedInRun<I, O>(c: Config<I, O>, acts: seq<Action>, s: State<I, O>, f: Failure)
    returns (k: nat)
    requires Reaches(c, acts, s) && f.Callback? && Carries(s, f)
    ensures RaisedAt(c, acts, k, f)
    decreases |acts|
  {
    if acts == [] {
      assert false;
    } else {
      var n := |acts| - 1;
      var prev := Run(c, acts[..n]).value;
      StepPasses(c, prev, acts[n], f);
      if Carries(prev, f) {
        k := RaisedInRun(c, acts[..n], prev, f);
        assert acts[..n][..k] == acts[..k];
      } else {
        k := n;
      }
    }
  }

  // ---- cancel on error ----

  /** A goroutine has pushed its error and is about to cancel. */
  predicate AboutToCancel<I, O>(s: State<I, O>) {
    s.reader.RCancel? || s.writer.WCancel? || exists i :: 0 <= i < |s.procs| && s.procs[i].PCancel?
  }

  ghost predicate CancelDue<I, O>(s: State<I, O>) { s.ctx.errLog != [] ==> s.ctx.cancelled || AboutToCancel(s) }

  lemma CancelDueReader<I, O>(c: Config<I, O>, s: State<I, O>, r: ReaderAct)
    requires CancelDue(s) && ReaderEnabled(c, s, r)
    ensures CancelDue(ReaderApply(c, s, r))
  {
    match r { case ReadItem => case ReadEnd => case ReadError(_) => case Acquire => case AcquireCancelled =>
              case SendInput => case SendInputCancelled => case CountRead => case ReleaseRead =>
              case PushRead => case CancelRead => case CloseInput => }
  }

  lemma CancelDueProc<I, O>(c: Config<I, O>, s: State<I, O>, i: nat, p: ProcAct)
    requires CancelDue(s) && ProcEnabled(c, s, i, p)
    ensures CancelDue(ProcApply(c, s, i, p))
  {
    var t := ProcApply(c, s, i, p);
    if j :| 0 <= j < |s.procs| && s.procs[j].PCancel? && j != i {
      assert t.procs[j].PCancel?;
    }
    match p { case Recv => case RecvClosed => case RecvCancelled => case ProcessOk => case ProcessError(_) =>
              case DropRelease => case ErrRelease => case SendOutput => case SendOutputCancelled =>
              case CountProcessed => case PushProc => assert t.procs[i].PCancel?; case CancelProc => }
  }

  lemma CancelDueWriter<I, O>(c: Config<I, O>, s: State<I, O>, w: WriterAct)
    requires CancelDue(s) && WriterEnabled(c, s, w)
    ensures CancelDue(WriterApply(c, s, w))
  {
    match w { case WRecvItem => case WRecvClosed => case WRecvCancelled => case WriteOk => case WriteError(_) =>
              case CountWritten => case ReleaseOne => case Released => case PushWrite => case CancelWrite => }
  }

  lemma {:induction false} ErrorsCancel<I, O>(c: Config<I, O>, acts: seq<Action>, s: State<I, O>)
    requires Reaches(c, acts, s)
    ensures CancelDue(s)
    decreases |acts|
  {
    if acts == [] {
    } else {
      var n := |acts| - 1;
      var prev := Run(c, acts[..n]).value;
      ErrorsCancel(c, acts[..n], prev);
      match acts[n] {
        case Reader(r) => CancelDueReader(c, prev, r);
        case Proc(i, p) => CancelDueProc(c, prev, i, p);
        case Writer(w) => CancelDueWriter(c, prev, w);
        case Main(m) =>
          match m { case DoneNoError => case DoneWithError => case TakeError => case CancelAll => case AwaitDone => }
        case CloseOutput =>
        case CallerCancel =>
      }
    }
  }
}
