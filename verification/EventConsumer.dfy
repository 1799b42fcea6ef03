/**
 The event consumer protocol (internal/apps/worker/consumers.go over
 internal/platform/kafka/segmentio.go and the stores of internal/apps/worker/operations.go): fetch,
 check the marker, handle, dead-letter, mark, commit. Every store call may fail before or after
 taking effect, and the process may crash between any two steps; a new session resumes at the
 committed offset. One consumer is live per partition.
 */
module EventConsumer {
  import opened Collections

  /** An event as the database knows it: the 128-bit value its id casts to, however the id is spelled. An
      id that does not cast names an event the database cannot hold. */
  datatype Event = Uuid(value: nat) | Malformed(id: string)

  /** A partition: the event id header of each message ("" when missing), whether the consumer has a
      database pool (markers and dead letters), and what an id casts to. */
  datatype Partition = Partition(ids: seq<string>, pool: bool, cast: string -> Option<nat>) {
    function Event(o: nat): Event
      requires o < |ids|
    {
      EventOf(ids[o])
    }

    function EventOf(id: string): Event {
      match cast(id) case Some(value) => Uuid(value) case None => Malformed(id)
    }
  }

  datatype Pc =
    | Down | Fetch(o: nat) | Check(o: nat) | Handle(o: nat)
    | SaveDeadLetter(o: nat) | Mark(o: nat, handled: bool) | Commit(o: nat)

  datatype State = State(
    pc: Pc, committed: nat, markers: set<Event>, deadLetters: set<Event>,
    // History: offsets whose handling started, events handled successfully, and events whose
    // session ended after a successful handling and before its marker was stored.
    starts: seq<nat>, handled: seq<Event>, unmarked: seq<Event>)

  datatype Action =
    | Start | FetchOk | FetchFail | CheckOk | CheckFail
    | HandleOk | HandlePermanent | HandleRetry | HandleOkCrash
    | SaveOk | SaveFail(effect: bool) | MarkOk | MarkFail(effect: bool)
    | CommitOk | CommitFail(effect: bool) | Crash

  const INIT := State(Down, 0, {}, {}, [], [], [])

  predicate Enabled(p: Partition, s: State, a: Action) {
    match a
    case Start => s.pc.Down?
    case FetchOk => s.pc.Fetch? && s.pc.o < |p.ids|
    case FetchFail => s.pc.Fetch?
    case CheckOk => s.pc.Check? && s.pc.o < |p.ids| && p.Event(s.pc.o).Uuid?
    case CheckFail => s.pc.Check?
    case HandleOk => s.pc.Handle? && s.pc.o < |p.ids|
    case HandlePermanent => s.pc.Handle?
    case HandleRetry => s.pc.Handle?
    case HandleOkCrash => s.pc.Handle? && s.pc.o < |p.ids|
    case SaveOk => s.pc.SaveDeadLetter? && s.pc.o < |p.ids| && p.Event(s.pc.o).Uuid?
    case SaveFail(effect) => s.pc.SaveDeadLetter? && s.pc.o < |p.ids| && (effect ==> p.Event(s.pc.o).Uuid?)
    case MarkOk => s.pc.Mark? && s.pc.o < |p.ids| && p.Event(s.pc.o).Uuid?
    case MarkFail(effect) => s.pc.Mark? && s.pc.o < |p.ids| && (effect ==> p.Event(s.pc.o).Uuid?)
    case CommitOk => s.pc.Commit?
    case CommitFail(_) => s.pc.Commit?
    case Crash => !s.pc.Down? && (s.pc.Mark? ==> s.pc.o < |p.ids|)
  }

  /** Begin handling the message at offset o. */
  function Begin(s: State, o: nat): State { s.(pc := Handle(o), starts := s.starts + [o]) }

  /** The session ends; a handled event not yet marked will be seen again. */
  function End(p: Partition, s: State): State
    requires s.pc.Mark? ==> s.pc.o < |p.ids|
  {
    if s.pc.Mark? && s.pc.handled then s.(pc := Down, unmarked := s.unmarked + [p.Event(s.pc.o)]) else s.(pc := Down)
  }

  function Apply(p: Partition, s: State, a: Action): State
    requires Enabled(p, s, a)
  {
    match a
    case Start => s.(pc := Fetch(s.committed))
    case FetchOk =>
      var o := s.pc.o;
      if p.ids[o] == "" then s.(pc := Commit(o)) else if p.pool then s.(pc := Check(o)) else Begin(s, o)
    case FetchFail => End(p, s)
    case CheckOk => if p.Event(s.pc.o) in s.markers then s.(pc := Commit(s.pc.o)) else Begin(s, s.pc.o)
    case CheckFail => End(p, s)
    case HandleOk =>
      s.(handled := s.handled + [p.Event(s.pc.o)], pc := if p.pool then Mark(s.pc.o, true) else Commit(s.pc.o))
    case HandlePermanent => s.(pc := if p.pool then SaveDeadLetter(s.pc.o) else Commit(s.pc.o))
    case HandleRetry => End(p, s)
    case HandleOkCrash =>
      s.(pc := Down, handled := s.handled + [p.Event(s.pc.o)], unmarked := s.unmarked + [p.Event(s.pc.o)])
    case SaveOk => s.(pc := Mark(s.pc.o, false), deadLetters := s.deadLetters + {p.Event(s.pc.o)})
    case SaveFail(effect) =>
      s.(pc := Down, deadLetters := if effect then s.deadLetters + {p.Event(s.pc.o)} else s.deadLetters)
    case MarkOk => s.(pc := Commit(s.pc.o), markers := s.markers + {p.Event(s.pc.o)})
    case MarkFail(effect) =>
      if effect then s.(pc := Down, markers := s.markers + {p.Event(s.pc.o)}) else End(p, s)
    case CommitOk => s.(committed := s.pc.o + 1, pc := Fetch(s.pc.o + 1))
    case CommitFail(effect) => s.(pc := Down, committed := if effect then s.pc.o + 1 else s.committed)
    case Crash => End(p, s)
  }

  function Run(p: Partition, s: State, acts: seq<Action>): Option<State> {
    if acts == [] then Some(s)
    else
      var prev := Run(p, s, acts[..|acts| - 1]);
      var a := acts[|acts| - 1];
      if prev.Some? && Enabled(p, prev.value, a) then Some(Apply(p, prev.value, a)) else None
  }

  ghost predicate Reaches(p: Partition, acts: seq<Action>, s: State) { Run(p, INIT, acts) == Some(s) }

  // ---- invariants ----

  /** A session works on the committed offset and nothing else; offsets are handled in order. */
  ghost predicate Position(p: Partition, s: State) {
    && s.committed <= |p.ids|
    && (!s.pc.Down? ==> s.pc.o == s.committed)
    && (!s.pc.Down? && !s.pc.Fetch? ==> s.pc.o < |p.ids|)
    && (s.pc.Check? || s.pc.Handle? || s.pc.SaveDeadLetter? || s.pc.Mark? ==> p.ids[s.pc.o] != "")
    && (s.pc.Check? || s.pc.SaveDeadLetter? || s.pc.Mark? ==> p.pool)
    && (forall k :: 0 <= k < |s.starts| ==> s.starts[k] <= s.committed)
    && (forall j, k :: 0 <= j < k < |s.starts| ==> s.starts[j] <= s.starts[k])
  }

  ghost predicate Done(p: Partition, s: State, o: nat)
    requires o < |p.ids|
  {
    p.ids[o] == "" || p.Event(o) in s.markers
  }

  /** Nothing is committed unmarked, nothing is marked unhandled, nothing marked is being handled. */
  ghost predicate Stores(p: Partition, s: State)
    requires Position(p, s)
  {
    && (p.pool ==> forall o: nat :: o < s.committed ==> Done(p, s, o))
    && (p.pool && s.pc.Commit? ==> Done(p, s, s.pc.o))
    && (forall e :: e in s.markers ==> e in s.handled || e in s.deadLetters)
    && (s.pc.Handle? || s.pc.SaveDeadLetter? || s.pc.Mark? ==> p.Event(s.pc.o) !in s.markers || !p.pool)
    && (s.pc.Mark? ==> if s.pc.handled then p.Event(s.pc.o) in s.handled else p.Event(s.pc.o) in s.deadLetters)
  }

  /** Is e's successful handling still waiting for its marker? */
  predicate Pending(p: Partition, s: State, e: Event) {
    s.pc.Mark? && s.pc.handled && s.pc.o < |p.ids| && p.Event(s.pc.o) == e
  }

  ghost predicate Executions(p: Partition, s: State, e: Event) {
    Occ(e, s.handled) <= Occ(e, s.unmarked) + (if e in s.markers || Pending(p, s, e) then 1 else 0)
  }

  lemma PositionStep(p: Partition, s: State, a: Action)
    requires Position(p, s) && Enabled(p, s, a)
    ensures Position(p, Apply(p, s, a))
  {}

  lemma StoresStep(p: Partition, s: State, a: Action)
    requires Position(p, s) && Stores(p, s) && Enabled(p, s, a)
    ensures Position(p, Apply(p, s, a)) && Stores(p, Apply(p, s, a))
  {
    PositionStep(p, s, a);
    var t := Apply(p, s, a);
    if p.pool {
      forall o: nat | o < t.committed ensures Done(p, t, o) {
        assert Done(p, s, o);
      }
    }
  }

  lemma ExecutionsStep(p: Partition, s: State, a: Action, e: Event)
    requires p.pool && Position(p, s) && Stores(p, s) && Executions(p, s, e) && Enabled(p, s, a)
    ensures Executions(p, Apply(p, s, a), e)
  {
    if s.pc.Mark? || s.pc.Handle? {
      OccAppend(e, s.unmarked, p.Event(s.pc.o));
      OccAppend(e, s.handled, p.Event(s.pc.o));
    }
  }

  lemma {:induction false} RunInv(p: Partition, acts: seq<Action>, s: State)
    requires Reaches(p, acts, s)
    ensures Position(p, s) && Stores(p, s)
    ensures p.pool ==> forall e :: Executions(p, s, e)
    decreases |acts|
  {
    if acts == [] {
    } else {
      var n := |acts| - 1;
      var prev := Run(p, INIT, acts[..n]).value;
      RunInv(p, acts[..n], prev);
      StoresStep(p, prev, acts[n]);
      if p.pool {
        forall e ensures Executions(p, s, e) {
          assert Executions(p, prev, e);
          ExecutionsStep(p, prev, acts[n], e);
        }
      }
    }
  }

  /** The histories record what happens: each step that begins a handling, ends one successfully, or ends a
      session between a successful handling and its marker, adds exactly that message or event. */
  lemma StepRecords(p: Partition, s: State, a: Action)
    requires Position(p, s) && Enabled(p, s, a)
    ensures var t := Apply(p, s, a);
            && t.starts == s.starts + (if t.pc.Handle? then [t.pc.o] else [])
            && t.handled == s.handled + (if a.HandleOk? || a.HandleOkCrash? then [p.Event(s.pc.o)] else [])
            && t.unmarked == s.unmarked +
                 (if a.HandleOkCrash? || (s.pc.Mark? && s.pc.handled && t.pc.Down? && a != MarkFail(true))
                  then [p.Event(s.pc.o)] else [])
  {}

  // ---- theorems ----

  /** No lost event: whatever failed or crashed, an offset below the committed one has no event id or
      is marked, and a marked event was handled successfully or dead-lettered. */
  lemma NoLostEvent(p: Partition, acts: seq<Action>, s: State)
    requires p.pool && Reaches(p, acts, s)
    ensures s.committed <= |p.ids|
    ensures forall o :: 0 <= o < s.committed ==>
              p.ids[o] == "" || (p.Event(o) in s.markers && (p.Event(o) in s.handled || p.Event(o) in s.deadLetters))
  {
    RunInv(p, acts, s);
    forall o: nat | o < s.committed
      ensures p.ids[o] == "" || (p.Event(o) in s.markers && (p.Event(o) in s.handled || p.Event(o) in s.deadLetters))
    {
      assert Done(p, s, o);
    }
  }

  /** Every committed message had no event id, or its event was handled or dead-lettered. */
  ghost predicate Accounted(p: Partition, s: State, o: nat)
    requires o < |p.ids|
  {
    p.ids[o] == "" || p.Event(o) in s.handled || p.Event(o) in s.deadLetters
  }

  /** Without a pool there is neither marker nor dead letter, and permanent failures are committed away. */
  lemma {:induction false} FailAll(p: Partition, k: nat) returns (acts: seq<Action>, s: State)
    requires !p.pool && k <= |p.ids|
    ensures Reaches(p, acts, s) && s.pc == Fetch(k) && s.committed == k && s.handled == [] && s.deadLetters == {}
    decreases k
  {
    if k == 0 {
      Then(p, INIT, [], INIT, Start);
      acts, s := [] + [Start], Apply(p, INIT, Start);
    } else {
      acts, s := FailAll(p, k - 1);
      Then(p, INIT, acts, s, FetchOk);
      acts, s := acts + [FetchOk], Apply(p, s, FetchOk);
      if s.pc.Handle? {
        Then(p, INIT, acts, s, HandlePermanent);
        acts, s := acts + [HandlePermanent], Apply(p, s, HandlePermanent);
      }
      Then(p, INIT, acts, s, CommitOk);
      acts, s := acts + [CommitOk], Apply(p, s, CommitOk);
    }
  }

  ghost predicate LosesNothing(p: Partition) {
    forall acts, s, o: nat :: Reaches(p, acts, s) && o < s.committed && o < |p.ids| ==> Accounted(p, s, o)
  }

  /** The exact condition for losing nothing in any run: there is a pool, or no message has an event id. */
  lemma LosesNothingIff(p: Partition)
    ensures LosesNothing(p) <==> p.pool || forall o :: 0 <= o < |p.ids| ==> p.ids[o] == ""
  {
    if p.pool {
      forall acts, s, o: nat | Reaches(p, acts, s) && o < s.committed && o < |p.ids| ensures Accounted(p, s, o) {
        NoLostEvent(p, acts, s);
      }
    } else if o :| 0 <= o < |p.ids| && p.ids[o] != "" {
      var acts, s := FailAll(p, |p.ids|);
      assert !Accounted(p, s, o);
    }
  }

  /** Bounded re-execution: an event is handled successfully at most once more than the times its
      session ended between the handling and the marker, and never again once it is marked;
      handlings start in offset order. */
  lemma BoundedReexecution(p: Partition, acts: seq<Action>, s: State, e: Event)
    requires p.pool && Reaches(p, acts, s)
    ensures Occ(e, s.handled) <= 1 + Occ(e, s.unmarked)
    ensures s.pc.Handle? ==> s.pc.o < |p.ids| && p.Event(s.pc.o) !in s.markers
    ensures forall j, k :: 0 <= j < k < |s.starts| ==> s.starts[j] <= s.starts[k]
  {
    RunInv(p, acts, s);
    assert Executions(p, s, e);
  }

  // ---- liveness ----

  /** A message whose event id is missing or a UUID can always be got past. */
  predicate Passable(p: Partition, o: nat)
    requires o < |p.ids|
  {
    p.ids[o] == "" || !p.pool || p.Event(o).Uuid?
  }

  /** A malformed event id blocks its partition for ever: the marker query fails on every delivery,
      so no run commits beyond it. */
  lemma {:induction false} PoisonMessage(p: Partition, acts: seq<Action>, s: State, o: nat)
    requires Reaches(p, acts, s) && o < |p.ids| && !Passable(p, o)
    ensures s.committed <= o
    ensures s.committed == o ==> s.pc.Down? || s.pc.Fetch? || s.pc.Check?
    decreases |acts|
  {
    if acts == [] {
    } else {
      var n := |acts| - 1;
      var prev := Run(p, INIT, acts[..n]).value;
      PoisonMessage(p, acts[..n], prev, o);
      RunInv(p, acts[..n], prev);
    }
  }

  lemma Then(p: Partition, s: State, acts: seq<Action>, t: State, a: Action)
    requires Run(p, s, acts) == Some(t) && Enabled(p, t, a)
    ensures Run(p, s, acts + [a]) == Some(Apply(p, t, a))
  {
    assert (acts + [a])[..|acts|] == acts;
  }

  /** The failure-free step at each program point of a session. */
  function Forward(pc: Pc): Action
    requires !pc.Down? && !pc.SaveDeadLetter?
  {
    match pc
    case Fetch(_) => FetchOk
    case Check(_) => CheckOk
    case Handle(_) => HandleOk
    case Mark(_, _) => MarkOk
    case Commit(_) => CommitOk
  }

  function Remaining(pc: Pc): nat {
    match pc case Fetch(_) => 5 case Check(_) => 4 case Handle(_) => 3 case Mark(_, _) => 2 case _ => 1
  }

  /** From the fetch of a passable message, a few failure-free steps commit it. */
  lemma {:induction false} PassOne(p: Partition, s0: State, acts: seq<Action>, s: State)
    returns (acts': seq<Action>, t: State)
    requires Run(p, s0, acts) == Some(s) && !s.pc.Down? && !s.pc.SaveDeadLetter?
    requires s.pc.o < |p.ids| && Passable(p, s.pc.o) && (s.pc.Check? || s.pc.Mark? ==> p.pool)
    requires s.pc.Check? || s.pc.Handle? || s.pc.Mark? ==> p.ids[s.pc.o] != ""
    ensures Run(p, s0, acts') == Some(t) && t.pc == Fetch(s.pc.o + 1) && t.committed == s.pc.o + 1
    decreases Remaining(s.pc)
  {
    var a := Forward(s.pc);
    Then(p, s0, acts, s, a);
    acts', t := acts + [a], Apply(p, s, a);
    if !s.pc.Commit? {
      acts', t := PassOne(p, s0, acts', t);
    }
  }

  lemma {:induction false} DrainFrom(p: Partition, s0: State, acts: seq<Action>, s: State) returns (acts': seq<Action>, t: State)
    requires Run(p, s0, acts) == Some(s) && s.pc.Fetch? && s.pc.o == s.committed <= |p.ids|
    requires forall o: nat :: s.committed <= o < |p.ids| ==> Passable(p, o)
    ensures Run(p, s0, acts') == Some(t) && t.committed == |p.ids|
    decreases |p.ids| - s.committed
  {
    if s.committed == |p.ids| {
      acts', t := acts, s;
    } else {
      acts', t := PassOne(p, s0, acts, s);
      acts', t := DrainFrom(p, s0, acts', t);
    }
  }

  ghost predicate CanDrain(p: Partition, s: State) {
    exists acts, t :: Run(p, s, acts) == Some(t) && t.committed == |p.ids|
  }

  lemma {:induction false} RunConcat(p: Partition, s: State, a: seq<Action>, b: seq<Action>, t: State)
    requires Run(p, s, a) == Some(t)
    ensures Run(p, s, a + b) == Run(p, t, b)
    decreases |b|
  {
    if b == [] {
      assert a + b == a;
    } else {
      var n := |b| - 1;
      assert (a + b)[..|a + b| - 1] == a + b[..n];
      RunConcat(p, s, a, b[..n], t);
    }
  }

  /** Liveness, exactly: from any reachable state the partition can still be worked off, if and only
      if every message not yet committed has no event id or one the marker table accepts. */
  lemma DrainsIffPassable(p: Partition, acts: seq<Action>, s: State)
    requires Reaches(p, acts, s)
    ensures CanDrain(p, s) <==> forall o: nat :: s.committed <= o < |p.ids| ==> Passable(p, o)
  {
    RunInv(p, acts, s);
    if forall o: nat :: s.committed <= o < |p.ids| ==> Passable(p, o) {
      var pre: seq<Action>, d := [], s;
      if !s.pc.Down? {
        Then(p, s, [], s, Crash);
        pre, d := [] + [Crash], Apply(p, s, Crash);
      }
      Then(p, s, pre, d, Start);
      var rest, t := DrainFrom(p, s, pre + [Start], Apply(p, d, Start));
    }
    if CanDrain(p, s) {
      var more, t :| Run(p, s, more) == Some(t) && t.committed == |p.ids|;
      RunConcat(p, INIT, acts, more, s);
      forall o: nat | s.committed <= o < |p.ids| ensures Passable(p, o) {
        if !Passable(p, o) {
          PoisonMessage(p, acts + more, t, o);
        }
      }
    }
  }

  // ---- the consumer as written ----

  /** How a store call ends: its result, or an error, possibly after it took effect. */
  datatype Reply = Reached | Error(effect: bool)

  datatype Outcome = Handled | Permanent | Retryable

  /** What the environment answers while one message is worked on. */
  datatype Answers = Answers(check: Reply, outcome: Outcome, save: Reply, mark: Reply, commit: Reply)

  predicate Effective(r: Reply) { r.Reached? || r.effect }

  /** When the handler returns nil: there is nothing to do, or everything it had to do went through. */
  predicate Passes(p: Partition, id: string, marked: bool, env: Answers) {
    || id == ""
    || (!p.pool && !env.outcome.Retryable?)
    || (&& p.pool && p.EventOf(id).Uuid? && env.check.Reached?
        && (|| marked
            || (env.outcome.Handled? && env.mark.Reached?)
            || (env.outcome.Permanent? && env.save.Reached? && env.mark.Reached?)))
  }

  /** The stores after the handler, on every path: a dead letter for a permanent failure, then a marker, each if
      the call before it succeeded and its own took effect. */
  function DeadLettersAfter(p: Partition, o: nat, markers: set<Event>, deadLetters: set<Event>, env: Answers): set<Event>
    requires o < |p.ids|
  {
    if Reaching(p, o, markers, env) && env.outcome.Permanent? && Effective(env.save) then deadLetters + {p.Event(o)}
    else deadLetters
  }

  function MarkersAfter(p: Partition, o: nat, markers: set<Event>, env: Answers): set<Event>
    requires o < |p.ids|
  {
    if Reaching(p, o, markers, env) && Effective(env.mark)
       && (env.outcome.Handled? || (env.outcome.Permanent? && env.save.Reached?))
    then markers + {p.Event(o)}
    else markers
  }

  /** There is an event, a pool and no marker for it yet, and the check went through. */
  predicate Reaching(p: Partition, o: nat, markers: set<Event>, env: Answers)
    requires o < |p.ids|
  {
    p.ids[o] != "" && p.pool && p.Event(o).Uuid? && env.check.Reached? && p.Event(o) !in markers
  }

  /** What one session leaves behind. */
  datatype Left = Left(committed: nat, markers: set<Event>, deadLetters: set<Event>)

  /** The next message passes with these markers. */
  predicate NextPasses(p: Partition, x: Left, env: Answers)
    requires x.committed < |p.ids|
  {
    Passes(p, p.ids[x.committed], p.Event(x.committed) in x.markers, env)
  }

  /** The next message is handled and, if it passes, committed. */
  function AfterMessage(p: Partition, x: Left, env: Answers): Left
    requires x.committed < |p.ids|
  {
    Left(if NextPasses(p, x, env) && Effective(env.commit) then x.committed + 1 else x.committed,
         MarkersAfter(p, x.committed, x.markers, env),
         DeadLettersAfter(p, x.committed, x.markers, x.deadLetters, env))
  }

  /** One message after another, as long as each passes and its commit goes through. */
  function Session(p: Partition, x: Left, envs: seq<Answers>): Left
    decreases |envs|
  {
    if envs == [] || x.committed >= |p.ids| then x
    else if NextPasses(p, x, envs[0]) && envs[0].commit.Reached? then
      Session(p, AfterMessage(p, x, envs[0]), envs[1..])
    else AfterMessage(p, x, envs[0])
  }

  predicate AllWell(env: Answers) {
    env.check.Reached? && env.outcome.Handled? && env.mark.Reached? && env.commit.Reached?
  }

  /** When everything goes well, a session commits one message per answer, up to the end of the partition. */
  lemma {:induction false} WellSession(p: Partition, x: Left, envs: seq<Answers>)
    requires x.committed <= |p.ids| && forall i :: 0 <= i < |envs| ==> AllWell(envs[i])
    requires forall o :: x.committed <= o < |p.ids| ==> Passable(p, o)
    ensures var left := |p.ids| - x.committed;
            Session(p, x, envs).committed == x.committed + (if |envs| < left then |envs| else left)
    decreases |envs|
  {
    if envs == [] || x.committed == |p.ids| {
    } else {
      assert Passable(p, x.committed) && AllWell(envs[0]);
      assert NextPasses(p, x, envs[0]);
      WellSession(p, AfterMessage(p, x, envs[0]), envs[1..]);
    }
  }

  /** In general the messages committed are those of the longest run of answers that pass and commit, and one
      more if the commit that ends it fails after taking effect. */
  lemma {:induction false} SessionLength(p: Partition, x: Left, envs: seq<Answers>) returns (m: nat)
    requires x.committed <= |p.ids|
    ensures m <= |envs| && x.committed + m <= |p.ids|
    ensures forall i :: 0 <= i < m ==> Continues(p, x, envs, i)
    ensures m < |envs| && x.committed + m < |p.ids| ==> !Continues(p, x, envs, m)
    ensures Session(p, x, envs).committed == x.committed + m + (if EndsCommitted(p, x, envs, m) then 1 else 0)
    decreases |envs|
  {
    var o := x.committed;
    if envs == [] || o >= |p.ids| || !Continues(p, x, envs, 0) {
      m := 0;
      assert envs[..0] == [];
    } else {
      var y := AfterMessage(p, x, envs[0]);
      assert envs[..0] == [];
      var n := SessionLength(p, y, envs[1..]);
      m := n + 1;
      forall i | 1 <= i <= m && i < |envs| && o + i < |p.ids|
        ensures Continues(p, x, envs, i) == Continues(p, y, envs[1..], i - 1)
        ensures EndsCommitted(p, x, envs, i) == EndsCommitted(p, y, envs[1..], i - 1)
      {
        MarkersShift(p, x, y, envs, i);
      }
    }
  }

  /** The markers when the message at x.committed + i is fetched. */
  function MarkersAt(p: Partition, x: Left, envs: seq<Answers>, i: nat): set<Event>
    requires i <= |envs| && x.committed + i <= |p.ids|
  {
    if i == 0 then x.markers else MarkersAfter(p, x.committed + i - 1, MarkersAt(p, x, envs, i - 1), envs[i - 1])
  }

  predicate PassesAt(p: Partition, x: Left, envs: seq<Answers>, i: nat)
    requires i < |envs| && x.committed + i < |p.ids|
  {
    var o := x.committed + i;
    Passes(p, p.ids[o], p.Event(o) in MarkersAt(p, x, envs, i), envs[i])
  }

  /** Message i of the session passes with the markers of that moment, and its commit goes through. */
  predicate Continues(p: Partition, x: Left, envs: seq<Answers>, i: nat) {
    i < |envs| && x.committed + i < |p.ids| && PassesAt(p, x, envs, i) && envs[i].commit.Reached?
  }

  predicate EndsCommitted(p: Partition, x: Left, envs: seq<Answers>, i: nat) {
    i < |envs| && x.committed + i < |p.ids| && PassesAt(p, x, envs, i) && envs[i].commit == Error(true)
  }

  lemma {:induction false} MarkersShift(p: Partition, x: Left, y: Left, envs: seq<Answers>, i: nat)
    requires 1 <= i <= |envs| && x.committed + i <= |p.ids| && y.committed == x.committed + 1
    requires y.markers == MarkersAfter(p, x.committed, x.markers, envs[0])
    ensures MarkersAt(p, x, envs, i) == MarkersAt(p, y, envs[1..], i - 1)
    decreases i
  {
    if i == 1 {
      assert MarkersAt(p, x, envs, 0) == x.markers;
    } else {
      MarkersShift(p, x, y, envs, i - 1);
    }
  }

  class Consumer {
    const p: Partition
    var committed: nat
    var markers: set<Event>
    var deadLetters: set<Event>
    ghost var starts: seq<nat>
    ghost var handled: seq<Event>
    ghost var unmarked: seq<Event>
    ghost var trace: seq<Action>

    /** The protocol state when the session is at that program point. */
    ghost function At(pc: Pc): State
      reads this
    {
      State(pc, committed, markers, deadLetters, starts, handled, unmarked)
    }

    /** The stores are what some run of the protocol left behind. */
    ghost predicate Valid()
      reads this
    {
      Reaches(p, trace, At(Down))
    }

    constructor (p: Partition)
      ensures this.p == p && Valid() && committed == 0 && markers == {} && deadLetters == {}
    {
      this.p := p;
      committed, markers, deadLetters := 0, {}, {};
      starts, handled, unmarked, trace := [], [], [], [];
    }

    /** Nothing when the query fails, as its cast does on an id that is not a UUID. */
    method WasProcessed(id: string, reply: Reply) returns (already: Option<bool>)
      ensures already == if reply.Reached? && p.EventOf(id).Uuid? then Some(p.EventOf(id) in markers) else None
    {
      if !reply.Reached? || !p.EventOf(id).Uuid? { return None; }
      already := Some(p.EventOf(id) in markers);
    }

    method MarkProcessed(id: string, reply: Reply) returns (ok: bool)
      modifies this`markers
      ensures ok == (reply.Reached? && p.EventOf(id).Uuid?)
      ensures markers == if Effective(reply) && p.EventOf(id).Uuid? then old(markers) + {p.EventOf(id)} else old(markers)
    {
      if Effective(reply) && p.EventOf(id).Uuid? { markers := markers + {p.EventOf(id)}; }
      ok := reply.Reached? && p.EventOf(id).Uuid?;
    }

    method SaveDeadLetter(id: string, reply: Reply) returns (ok: bool)
      modifies this`deadLetters
      ensures ok == (reply.Reached? && p.EventOf(id).Uuid?)
      ensures deadLetters == if Effective(reply) && p.EventOf(id).Uuid? then old(deadLetters) + {p.EventOf(id)} else old(deadLetters)
    {
      if Effective(reply) && p.EventOf(id).Uuid? { deadLetters := deadLetters + {p.EventOf(id)}; }
      ok := reply.Reached? && p.EventOf(id).Uuid?;
    }

    /** The tail of the handler: store the marker, if there is a pool, after a handling or a dead letter. */
    method Finish(o: nat, wasHandled: bool, reply: Reply, ghost s0: State, ghost before: seq<Action>)
      returns (ok: bool, ghost acts: seq<Action>)
      requires o < |p.ids| && Run(p, s0, before) == Some(At(if p.pool then Mark(o, wasHandled) else Commit(o)))
      modifies this`markers, this`unmarked
      ensures ok == (p.pool ==> reply.Reached? && p.Event(o).Uuid?)
      ensures markers == if p.pool && Effective(reply) && p.Event(o).Uuid? then old(markers) + {p.Event(o)} else old(markers)
      ensures before <= acts && Run(p, s0, acts) == Some(At(if ok then Commit(o) else Down))
    {
      ok, acts := true, before;
      if p.pool {
        ghost var s := At(Mark(o, wasHandled));
        ok := MarkProcessed(p.ids[o], reply);
        ghost var effect := Effective(reply) && p.Event(o).Uuid?;
        ghost var a := if ok then MarkOk else MarkFail(effect);
        if !effect && wasHandled { unmarked := unmarked + [p.Event(o)]; }
        Then(p, s0, acts, s, a);
        acts := acts + [a];
      }
    }

    /** The handler for one message: its effects on the stores are those of a run of the protocol. */
    method Handle(o: nat, env: Answers, ghost s0: State, ghost before: seq<Action>)
      returns (ok: bool, ghost acts: seq<Action>)
      requires o < |p.ids| && Run(p, s0, before) == Some(At(Fetch(o)))
      modifies this`markers, this`deadLetters, this`starts, this`handled, this`unmarked
      ensures markers == MarkersAfter(p, o, old(markers), env)
      ensures deadLetters == DeadLettersAfter(p, o, old(markers), old(deadLetters), env)
      ensures ok == Passes(p, p.ids[o], p.Event(o) in old(markers), env)
      ensures before <= acts && Run(p, s0, acts) == Some(At(if ok then Commit(o) else Down))
    {
      var id := p.ids[o];
      Then(p, s0, before, At(Fetch(o)), FetchOk);
      acts := before + [FetchOk];
      if id == "" { return true, acts; }
      if p.pool {
        var already := WasProcessed(id, env.check);
        ghost var a := if already.Some? then CheckOk else CheckFail;
        Then(p, s0, acts, At(Check(o)), a);
        acts := acts + [a];
        if already.None? { return false, acts; }
        if already.value { return true, acts; }
      }
      starts := starts + [o];
      ghost var s := At(Pc.Handle(o));
      match env.outcome {
        case Handled =>
          handled := handled + [p.EventOf(id)];
          Then(p, s0, acts, s, HandleOk);
          ok, acts := Finish(o, true, env.mark, s0, acts + [HandleOk]);
        case Retryable =>
          Then(p, s0, acts, s, HandleRetry);
          ok, acts := false, acts + [HandleRetry];
        case Permanent =>
          Then(p, s0, acts, s, HandlePermanent);
          ok, acts := GiveUp(o, env, s0, acts + [HandlePermanent]);
      }
    }

    /** A permanent failure: the dead letter, if there is a pool, and then the marker. */
    method GiveUp(o: nat, env: Answers, ghost s0: State, ghost before: seq<Action>)
      returns (ok: bool, ghost acts: seq<Action>)
      requires o < |p.ids| && Run(p, s0, before) == Some(At(if p.pool then Pc.SaveDeadLetter(o) else Commit(o)))
      modifies this`markers, this`deadLetters, this`unmarked
      ensures ok == (p.pool ==> p.Event(o).Uuid? && env.save.Reached? && env.mark.Reached?)
      ensures deadLetters == if p.pool && p.Event(o).Uuid? && Effective(env.save) then old(deadLetters) + {p.Event(o)}
                             else old(deadLetters)
      ensures markers == if p.pool && p.Event(o).Uuid? && env.save.Reached? && Effective(env.mark)
                         then old(markers) + {p.Event(o)} else old(markers)
      ensures before <= acts && Run(p, s0, acts) == Some(At(if ok then Commit(o) else Down))
    {
      acts := before;
      if p.pool {
        ghost var s := At(Pc.SaveDeadLetter(o));
        ok := SaveDeadLetter(p.ids[o], env.save);
        ghost var a := if ok then SaveOk else SaveFail(Effective(env.save) && p.Event(o).Uuid?);
        Then(p, s0, acts, s, a);
        acts := acts + [a];
        if !ok { return false, acts; }
      }
      ok, acts := Finish(o, false, env.mark, s0, acts);
    }

    method CommitMessage(o: nat, reply: Reply, ghost s0: State, ghost before: seq<Action>)
      returns (ok: bool, ghost acts: seq<Action>)
      requires Run(p, s0, before) == Some(At(Commit(o)))
      modifies this`committed
      ensures ok == reply.Reached? && committed == if Effective(reply) then o + 1 else old(committed)
      ensures before <= acts && Run(p, s0, acts) == Some(At(if ok then Fetch(o + 1) else Down))
    {
      ghost var a := if reply.Reached? then CommitOk else CommitFail(reply.effect);
      Then(p, s0, before, At(Commit(o)), a);
      acts := before + [a];
      if Effective(reply) { committed := o + 1; }
      ok := reply.Reached?;
    }

    ghost function Contents(): Left
      reads this
    {
      Left(committed, markers, deadLetters)
    }

    /** The body of the loop: handle the message at the committed offset, and commit it if that went well. */
    method ConsumeOne(env: Answers) returns (running: bool)
      requires committed < |p.ids| && Reaches(p, trace, At(Fetch(committed)))
      modifies this
      ensures running == (NextPasses(p, old(Contents()), env) && env.commit.Reached?)
      ensures Contents() == AfterMessage(p, old(Contents()), env)
      ensures old(trace) <= trace && Reaches(p, trace, At(if running then Fetch(committed) else Down))
    {
      running, trace := Handle(committed, env, INIT, trace);
      if running {
        running, trace := CommitMessage(committed, env.commit, INIT, trace);
      }
    }

    /** One session: fetch, handle and commit from the committed offset until an error or the end of the answers. */
    method Consume(envs: seq<Answers>)
      requires Valid()
      modifies this
      ensures Contents() == Session(p, old(Contents()), envs)
      ensures Valid() && old(trace) <= trace && old(committed) <= committed <= |p.ids|
      ensures p.pool ==> forall o :: 0 <= o < committed ==>
                p.ids[o] == "" || (p.Event(o) in markers && (p.Event(o) in handled || p.Event(o) in deadLetters))
    {
      Then(p, INIT, trace, At(Down), Start);
      trace := trace + [Start];
      var i, running := 0, true;
      RunInv(p, trace, At(Fetch(committed)));
      while running && i < |envs| && committed < |p.ids|
        invariant 0 <= i <= |envs|
        invariant old(committed) <= committed <= |p.ids| && old(trace) <= trace
        invariant Session(p, old(Contents()), envs) == if running then Session(p, Contents(), envs[i..]) else Contents()
        invariant Reaches(p, trace, At(if running then Fetch(committed) else Down))
        decreases running, |envs| - i
      {
        assert envs[i..][1..] == envs[i + 1..];
        running := ConsumeOne(envs[i]);
        i := i + 1;
      }
      if running {
        Then(p, INIT, trace, At(Fetch(committed)), FetchFail);
        trace := trace + [FetchFail];
      }
      if p.pool {
        NoLostEvent(p, trace, At(Down));
      }
    }
  }
}
