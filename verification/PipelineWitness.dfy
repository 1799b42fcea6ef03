/** Runs built by hand: option sets that can deadlock, and counters that run ahead. */
module PipelineWitness {
  import opened Collections
  import opened Pipeline
  import opened PipelineInvariant
  import opened PipelineFlow
  import opened PipelineTheorems

  lemma Extend<I, O>(c: Config<I, O>, acts: seq<Action>, s: State<I, O>, a: Action)
    requires Reaches(c, acts, s) && Enabled(c, s, a)
    ensures Reaches(c, acts + [a], Apply(c, s, a))
  {
    assert (acts + [a])[..|acts|] == acts;
  }

  /** The state after k items went through, those kept into the writer's buffer, with nothing else in flight. */
  function Buffered<I, O>(c: Config<I, O>, k: nat): State<I, O>
    requires k <= |c.src|
  {
    var kept := FilterMap(c.keep, c.src[..k]);
    Init(c).(net := Net([], false, [], false, |kept|, kept),
             stats := Stats(k, |kept|, 0),
             hist := History(k, c.src[..k], k, |kept|, [], 0))
  }

  /** The next item is in the input channel, counted or not yet. */
  function Sent<I, O>(c: Config<I, O>, k: nat, counted: bool): State<I, O>
    requires k < |c.src|
  {
    var s := Buffered(c, k);
    s.(reader := if counted then RRead else RCount,
       net := s.net.(input := [c.src[k]], tokens := s.net.tokens + 1),
       stats := if counted then s.stats.(itemsRead := k + 1) else s.stats,
       hist := s.hist.(pos := k + 1, sentIn := k + 1))
  }

  lemma SendOne<I, O>(c: Config<I, O>, k: nat, acts: seq<Action>) returns (acts': seq<Action>)
    requires c.limits.buffered > 0 && k < |c.src| && |FilterMap(c.keep, c.src[..k])| < c.limits.inflight
    requires Reaches(c, acts, Buffered(c, k))
    ensures Reaches(c, acts', Sent(c, k, false))
  {
    var s := Buffered(c, k);
    acts' := acts;
    Extend(c, acts', s, Reader(ReadItem));
    acts', s := acts' + [Reader(ReadItem)], Apply(c, s, Reader(ReadItem));
    Extend(c, acts', s, Reader(Acquire));
    acts', s := acts' + [Reader(Acquire)], Apply(c, s, Reader(Acquire));
    Extend(c, acts', s, Reader(SendInput));
    acts', s := acts' + [Reader(SendInput)], Apply(c, s, Reader(SendInput));
    assert s == Sent(c, k, false);
  }

  lemma ReadOne<I, O>(c: Config<I, O>, k: nat, acts: seq<Action>) returns (acts': seq<Action>)
    requires c.limits.buffered > 0 && k < |c.src| && |FilterMap(c.keep, c.src[..k])| < c.limits.inflight
    requires Reaches(c, acts, Buffered(c, k))
    ensures Reaches(c, acts', Sent(c, k, true))
  {
    acts' := SendOne(c, k, acts);
    Extend(c, acts', Sent(c, k, false), Reader(CountRead));
    acts' := acts' + [Reader(CountRead)];
  }

  /** The processor's result for the one item in the channel is sent, and not yet counted. */
  function Forwarded<I, O>(c: Config<I, O>, s: State<I, O>): State<I, O>
    requires s.procs != [] && |s.net.input| == 1 && c.keep(s.net.input[0]).Some?
  {
    var x := s.net.input[0];
    s.(procs := s.procs[0 := PCount], net := s.net.(input := [], output := [c.keep(x).value]),
       hist := s.hist.(processed := s.hist.processed + [x], sentOut := s.hist.sentOut + 1))
  }

  lemma ForwardOne<I, O>(c: Config<I, O>, acts: seq<Action>, s: State<I, O>) returns (acts': seq<Action>)
    requires Reaches(c, acts, s) && c.limits.buffered > 0
    requires s.procs != [] && s.procs[0] == PRecv && |s.net.input| == 1 && s.net.output == []
    requires c.keep(s.net.input[0]).Some?
    ensures Reaches(c, acts', Forwarded(c, s))
  {
    var t := s;
    acts' := acts;
    Extend(c, acts', t, Proc(0, Recv));
    acts', t := acts' + [Proc(0, Recv)], Apply(c, t, Proc(0, Recv));
    Extend(c, acts', t, Proc(0, ProcessOk));
    acts', t := acts' + [Proc(0, ProcessOk)], Apply(c, t, Proc(0, ProcessOk));
    Extend(c, acts', t, Proc(0, SendOutput));
    acts', t := acts' + [Proc(0, SendOutput)], Apply(c, t, Proc(0, SendOutput));
    assert t.procs == s.procs[0 := PCount];
    assert t == Forwarded(c, s);
  }

  lemma ProcessOne<I, O>(c: Config<I, O>, acts: seq<Action>, s: State<I, O>)
    returns (acts': seq<Action>, t: State<I, O>)
    requires Reaches(c, acts, s) && c.limits.buffered > 0
    requires s.procs != [] && s.procs[0] == PRecv && |s.net.input| == 1 && s.net.output == []
    requires c.keep(s.net.input[0]).Some?
    ensures Reaches(c, acts', t)
    ensures var x := s.net.input[0];
            t == s.(net := s.net.(input := [], output := [c.keep(x).value]),
                    stats := s.stats.(itemsProcessed := s.stats.itemsProcessed + 1),
                    hist := s.hist.(processed := s.hist.processed + [x], sentOut := s.hist.sentOut + 1))
  {
    acts' := ForwardOne(c, acts, s);
    t := Forwarded(c, s);
    Extend(c, acts', t, Proc(0, CountProcessed));
    acts', t := acts' + [Proc(0, CountProcessed)], Apply(c, t, Proc(0, CountProcessed));
    assert t.procs == s.procs;
  }

  lemma DropOne<I, O>(c: Config<I, O>, acts: seq<Action>, s: State<I, O>)
    returns (acts': seq<Action>, t: State<I, O>)
    requires Reaches(c, acts, s) && s.net.tokens > 0
    requires s.procs != [] && s.procs[0] == PRecv && |s.net.input| == 1 && c.keep(s.net.input[0]).None?
    ensures Reaches(c, acts', t)
    ensures t == s.(net := s.net.(input := [], tokens := s.net.tokens - 1),
                    hist := s.hist.(processed := s.hist.processed + [s.net.input[0]]))
  {
    acts', t := acts, s;
    Extend(c, acts', t, Proc(0, Recv));
    acts', t := acts' + [Proc(0, Recv)], Apply(c, t, Proc(0, Recv));
    Extend(c, acts', t, Proc(0, ProcessOk));
    acts', t := acts' + [Proc(0, ProcessOk)], Apply(c, t, Proc(0, ProcessOk));
    Extend(c, acts', t, Proc(0, DropRelease));
    acts', t := acts' + [Proc(0, DropRelease)], Apply(c, t, Proc(0, DropRelease));
    assert t.procs == s.procs;
  }

  lemma BufferOne<I, O>(c: Config<I, O>, acts: seq<Action>, s: State<I, O>)
    returns (acts': seq<Action>, t: State<I, O>)
    requires Reaches(c, acts, s) && s.writer == WRecv && |s.net.output| == 1 && |s.net.buffer| + 1 < c.limits.batch
    ensures Reaches(c, acts', t)
    ensures t == s.(net := s.net.(output := [], buffer := s.net.buffer + s.net.output))
  {
    Extend(c, acts, s, Writer(WRecvItem));
    acts', t := acts + [Writer(WRecvItem)], Apply(c, s, Writer(WRecvItem));
  }

  /** One more item, kept or dropped, goes all the way through. */
  lemma CarryOne<I, O>(c: Config<I, O>, k: nat, acts: seq<Action>) returns (acts': seq<Action>)
    requires c.limits.procs > 0 && c.limits.buffered > 0 && k < |c.src|
    requires |FilterMap(c.keep, c.src[..k])| < c.limits.inflight && |FilterMap(c.keep, c.src[..k + 1])| < c.limits.batch
    requires Reaches(c, acts, Buffered(c, k))
    ensures Reaches(c, acts', Buffered(c, k + 1))
  {
    assert c.src[..k + 1] == c.src[..k] + [c.src[k]];
    FilterMapAppend(c.keep, c.src[..k], c.src[k]);
    acts' := ReadOne(c, k, acts);
    var s := Sent(c, k, true);
    if c.keep(c.src[k]).Some? {
      acts', s := ProcessOne(c, acts', s);
      acts', s := BufferOne(c, acts', s);
    } else {
      acts', s := DropOne(c, acts', s);
    }
    assert s == Buffered(c, k + 1);
  }

  /** The items before k go through, as long as they leave a token and a place in the buffer free. */
  lemma {:induction false} FillBuffer<I, O>(c: Config<I, O>, k: nat) returns (acts: seq<Action>)
    requires c.limits.procs > 0 && c.limits.buffered > 0 && k <= |c.src|
    requires forall j :: 0 <= j < k ==> |FilterMap(c.keep, c.src[..j])| < c.limits.inflight
    requires |FilterMap(c.keep, c.src[..k])| < c.limits.batch
    ensures Reaches(c, acts, Buffered(c, k))
    decreases k
  {
    if k == 0 {
      acts := [];
      assert c.src[..0] == [];
    } else {
      FilterMapPrefix(c.keep, c.src[..k - 1], c.src[..k]);
      acts := FillBuffer(c, k - 1);
      acts := CarryOne(c, k - 1, acts);
    }
  }

  /** The shortest prefix of the source with m kept items. */
  lemma {:induction false} PrefixWith<I, O>(c: Config<I, O>, m: nat, n: nat) returns (k: nat)
    requires n <= |c.src| && |FilterMap(c.keep, c.src[..n])| >= m
    ensures k <= n && |FilterMap(c.keep, c.src[..k])| == m
    ensures forall j :: 0 <= j < k ==> |FilterMap(c.keep, c.src[..j])| < m
    decreases n
  {
    if n == 0 {
      k := 0;
    } else {
      assert c.src[..n] == c.src[..n - 1] + [c.src[n - 1]];
      FilterMapAppend(c.keep, c.src[..n - 1], c.src[n - 1]);
      if |FilterMap(c.keep, c.src[..n - 1])| >= m {
        k := PrefixWith(c, m, n - 1);
      } else {
        k := n;
        forall j | 0 <= j < k ensures |FilterMap(c.keep, c.src[..j])| < m {
          assert c.src[..j] <= c.src[..n - 1];
          FilterMapPrefix(c.keep, c.src[..j], c.src[..n - 1]);
        }
      }
    }
  }

  /** With MaxInflight below WriteBatchSize and as many kept items as tokens before the last item, a run
      gets stuck: the writer sits on every token, waiting for a batch the reader has no token to complete. */
  lemma UnderprovisionedDeadlocks<I(!new), O(!new)>(c: Config<I, O>) returns (acts: seq<Action>, s: State<I, O>)
    requires c.limits.procs > 0 && c.limits.buffered > 0 && c.limits.inflight < c.limits.batch
    requires c.src != [] && |FilterMap(c.keep, c.src[..|c.src| - 1])| >= c.limits.inflight
    ensures Reaches(c, acts, s) && Stuck(c, s) && !s.main.MReturned?
  {
    var k := PrefixWith(c, c.limits.inflight, |c.src| - 1);
    acts := FillBuffer(c, k);
    Extend(c, acts, Buffered(c, k), Reader(ReadItem));
    acts, s := acts + [Reader(ReadItem)], Apply(c, Buffered(c, k), Reader(ReadItem));
    NoTokenStuck(c, s);
  }

  /** Everyone waits: the processors for an item, the writer for more, the reader for a token. */
  lemma NoTokenStuck<I, O>(c: Config<I, O>, s: State<I, O>)
    requires s.procs != [] && (forall i :: 0 <= i < |s.procs| ==> s.procs[i].PRecv?)
    requires s.reader.RAcquire? && s.writer.WRecv? && s.main.MSelect? && !s.ctx.cancelled && s.ctx.errCh == []
    requires s.net.tokens >= c.limits.inflight && s.net.input == [] && s.net.output == []
    requires !s.net.inputClosed && !s.net.outputClosed
    ensures Stuck(c, s)
  {
    assert !AllProcsDone(s) by { assert s.procs[0].PRecv?; }
    forall a: Action | !a.CallerCancel? ensures !Enabled(c, s, a) {
      match a
      case Reader(r) =>
      case Proc(i, p) =>
      case Writer(w) =>
      case Main(m) =>
      case CloseOutput =>
    }
  }

  ghost predicate DeadlockFree<I(!new), O(!new)>(limits: Limits) {
    forall c: Config<I, O>, acts, s ::
      c.limits == limits && Reaches(c, acts, s) && Stuck(c, s) ==> s.main.MReturned?
  }

  /** The validation line is exactly what rules deadlock out. */
  lemma DeadlockFreeIffEnoughTokens<I(!new), O(!new)>(limits: Limits, item: I, out: O)
    requires limits.procs > 0 && limits.buffered > 0 && limits.batch > 0
    ensures DeadlockFree<I, O>(limits) <==> limits.inflight >= limits.batch
  {
    if limits.inflight >= limits.batch {
      forall c: Config<I, O>, acts, s | c.limits == limits && Reaches(c, acts, s) && Stuck(c, s)
        ensures s.main.MReturned?
      {
        RunTerminates(c, acts, s);
      }
    } else {
      var c: Config<I, O> := Config(limits, seq(limits.inflight + 1, _ => item), _ => Some(out));
      FilterMapAll(c.keep, c.src[..|c.src| - 1]);
      var acts, s := UnderprovisionedDeadlocks(c);
    }
  }

  // ---- one source at a time ----

  /** What has been processed came from the first n items, so it kept no more than they would. */
  lemma KeptWithin<I, O>(c: Config<I, O>, processed: seq<I>, n: nat)
    requires n <= |c.src| && forall x :: Occ(x, processed) <= Occ(x, c.src[..n])
    ensures |FilterMap(c.keep, processed)| <= |FilterMap(c.keep, c.src[..n])|
  {
    SubMultiset(processed, c.src[..n]);
    FilterMapSubMultiset(c.keep, processed, c.src[..n]);
    var few, many := FilterMap(c.keep, processed), FilterMap(c.keep, c.src[..n]);
    assert multiset(many) == multiset(few) + (multiset(many) - multiset(few));
    assert |multiset(few)| == |few| && |multiset(many)| == |many|;
  }

  /** The item a reader waits to pay for has not been processed. */
  lemma ProcessedBeforeWaiting<I(!new), O(!new)>(c: Config<I, O>, s: State<I, O>, x: I)
    requires Inv(c, s) && s.reader.RAcquire?
    ensures 0 < s.hist.pos <= |c.src| && Occ(x, s.hist.processed) <= Occ(x, c.src[..s.hist.pos - 1])
  {
    var n := s.hist.pos;
    assert InputInv(c, s, x);
    assert c.src[..n] == c.src[..n - 1] + [c.src[n - 1]];
    OccAppend(x, c.src[..n - 1], c.src[n - 1]);
  }

  /** With fewer kept items before the last one than tokens, the writer never sits on all of them while
      the reader waits. */
  lemma FewKeptLeaveToken<I(!new), O(!new)>(c: Config<I, O>, s: State<I, O>)
    requires Inv(c, s) && c.src != [] && |FilterMap(c.keep, c.src[..|c.src| - 1])| < c.limits.inflight
    ensures TokenLeft(c, s)
  {
    if s.writer.WRecv? && s.reader.RAcquire? {
      var n := s.hist.pos - 1;
      forall x ensures Occ(x, s.hist.processed) <= Occ(x, c.src[..n]) { ProcessedBeforeWaiting(c, s, x); }
      KeptWithin(c, s.hist.processed, n);
      assert c.src[..n] <= c.src[..|c.src| - 1];
      FilterMapPrefix(c.keep, c.src[..n], c.src[..|c.src| - 1]);
    }
  }

  ghost predicate NeverStuck<I(!new), O(!new)>(c: Config<I, O>) {
    forall acts, s :: Reaches(c, acts, s) && Stuck(c, s) ==> s.main.MReturned?
  }

  /** Which sources a pipeline that skipped the validation can still handle: those that keep, before their
      last item, fewer items than there are tokens. */
  lemma NeverStuckIff<I(!new), O(!new)>(c: Config<I, O>)
    requires c.limits.procs > 0 && c.limits.buffered > 0 && c.limits.batch > 0
    ensures NeverStuck(c) <==>
              || c.limits.inflight >= c.limits.batch || c.src == []
              || |FilterMap(c.keep, c.src[..|c.src| - 1])| < c.limits.inflight
  {
    if c.limits.inflight < c.limits.batch && c.src != []
       && |FilterMap(c.keep, c.src[..|c.src| - 1])| >= c.limits.inflight {
      var acts, s := UnderprovisionedDeadlocks(c);
    } else {
      forall acts, s | Reaches(c, acts, s) && Stuck(c, s) ensures s.main.MReturned? {
        RunInv(c, acts, s);
        if !s.main.MReturned? {
          if c.limits.inflight < c.limits.batch && c.src != [] {
            FewKeptLeaveToken(c, s);
          }
          var a := Progress(c, s);
        }
      }
    }
  }

  // ---- the published counters while a run is under way ----

  /** ItemsProcessed > ItemsRead: the reader sends before it counts. */
  lemma ProcessedRunsAhead<I, O>(c: Config<I, O>) returns (acts: seq<Action>, s: State<I, O>)
    requires ValidLimits(c.limits) && |c.src| > 0 && c.keep(c.src[0]).Some?
    ensures Reaches(c, acts, s) && s.stats.itemsProcessed > s.stats.itemsRead
  {
    acts := FillBuffer(c, 0);
    acts := SendOne(c, 0, acts);
    acts, s := ProcessOne(c, acts, Sent(c, 0, false));
  }

  /** ItemsWritten > ItemsProcessed: a processor sends before it counts, and its item can complete a batch. */
  lemma WrittenRunsAhead<I, O>(c: Config<I, O>) returns (acts: seq<Action>, s: State<I, O>)
    requires ValidLimits(c.limits) && |FilterMap(c.keep, c.src)| >= c.limits.batch
    ensures Reaches(c, acts, s) && s.stats.itemsWritten > s.stats.itemsProcessed
  {
    assert c.src[..|c.src|] == c.src;
    var k := PrefixWith(c, c.limits.batch, |c.src|);
    assert k > 0 && c.src[..k] == c.src[..k - 1] + [c.src[k - 1]];
    FilterMapAppend(c.keep, c.src[..k - 1], c.src[k - 1]);
    acts := FillBuffer(c, k - 1);
    acts := ReadOne(c, k - 1, acts);
    acts := ForwardOne(c, acts, Sent(c, k - 1, true));
    s := Forwarded(c, Sent(c, k - 1, true));
    Extend(c, acts, s, Writer(WRecvItem));
    acts, s := acts + [Writer(WRecvItem)], Apply(c, s, Writer(WRecvItem));
    Extend(c, acts, s, Writer(WriteOk));
    acts, s := acts + [Writer(WriteOk)], Apply(c, s, Writer(WriteOk));
    Extend(c, acts, s, Writer(CountWritten));
    acts, s := acts + [Writer(CountWritten)], Apply(c, s, Writer(CountWritten));
  }

  ghost predicate ProcessedWithinRead<I(!new), O(!new)>(c: Config<I, O>) {
    forall acts, s :: Reaches(c, acts, s) ==> s.stats.itemsProcessed <= s.stats.itemsRead
  }

  ghost predicate WrittenWithinProcessed<I(!new), O(!new)>(c: Config<I, O>) {
    forall acts, s :: Reaches(c, acts, s) ==> s.stats.itemsWritten <= s.stats.itemsProcessed
  }

  lemma FirstDropped<I, O>(c: Config<I, O>, n: nat)
    requires 0 < n <= |c.src| && c.keep(c.src[0]).None?
    ensures |FilterMap(c.keep, c.src[..n])| < n
  {
    assert c.src[..n] == [c.src[0]] + c.src[1..n];
    FilterMapConcat(c.keep, [c.src[0]], c.src[1..n]);
  }

  lemma DroppedFirstKeepsOrder<I(!new), O(!new)>(c: Config<I, O>, s: State<I, O>)
    requires Inv(c, s) && (c.src == [] || c.keep(c.src[0]).None?)
    ensures s.stats.itemsProcessed <= s.stats.itemsRead
  {
    if s.reader.RCount? {
      var n := s.hist.pos;
      FirstDropped(c, n);
      forall x ensures Occ(x, s.hist.processed) <= Occ(x, c.src[..n]) { assert InputInv(c, s, x); }
      KeptWithin(c, s.hist.processed, n);
    }
  }

  /** The exact condition for ItemsProcessed <= ItemsRead at every moment of every run: the first item, if
      there is one, is dropped, which leaves the reader's count one ahead. */
  lemma ProcessedWithinReadIff<I(!new), O(!new)>(c: Config<I, O>)
    requires ValidLimits(c.limits)
    ensures ProcessedWithinRead(c) <==> c.src == [] || c.keep(c.src[0]).None?
  {
    if c.src == [] || c.keep(c.src[0]).None? {
      forall acts, s | Reaches(c, acts, s) ensures s.stats.itemsProcessed <= s.stats.itemsRead {
        RunInv(c, acts, s);
        DroppedFirstKeepsOrder(c, s);
      }
    } else {
      var acts, s := ProcessedRunsAhead(c);
    }
  }

  /** No full batch: anything written was the last, short batch, flushed after every processor had counted. */
  lemma ShortBatchKeepsOrder<I(!new), O(!new)>(c: Config<I, O>, acts: seq<Action>, s: State<I, O>)
    requires c.limits.batch > 0 && Reaches(c, acts, s) && |FilterMap(c.keep, c.src)| < c.limits.batch
    ensures s.stats.itemsWritten <= s.stats.itemsProcessed
  {
    RunInv(c, acts, s);
    NothingDuplicated(c, acts, s);
    if s.hist.batches != [] {
      var n := |s.hist.batches| - 1;
      var few, many := Written(s), FilterMap(c.keep, c.src);
      assert multiset(many) == multiset(few) + (multiset(many) - multiset(few));
      assert |multiset(few)| == |few| && |multiset(many)| == |many|;
      assert few == Flatten(s.hist.batches[..n]) + s.hist.batches[n];
      assert |s.hist.batches[n]| < c.limits.batch;
      TotalUniform(ProcCounting<I, O>, s.procs, 0);
    }
  }

  /** The exact condition for ItemsWritten <= ItemsProcessed at every moment of every run: the source keeps
      less than one batch. */
  lemma WrittenWithinProcessedIff<I(!new), O(!new)>(c: Config<I, O>)
    requires ValidLimits(c.limits)
    ensures WrittenWithinProcessed(c) <==> |FilterMap(c.keep, c.src)| < c.limits.batch
  {
    if |FilterMap(c.keep, c.src)| < c.limits.batch {
      forall acts, s | Reaches(c, acts, s) ensures s.stats.itemsWritten <= s.stats.itemsProcessed {
        ShortBatchKeepsOrder(c, acts, s);
      }
    } else {
      var acts, s := WrittenRunsAhead(c);
    }
  }
}
