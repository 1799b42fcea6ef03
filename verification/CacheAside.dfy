/**
 Cache-aside reads with a load lock (internal/platform/redis/cache.go over the atomic store steps of
 internal/platform/redis/redis.go), for one cache key and its lock key.

 Any number of flights run GetOrLoadJSON concurrently against the shared store while the source
 changes, the key is invalidated and time passes. A store call may fail at any point, before or after
 it took effect. A caller may instead share the result of a flight that was still running when it
 called (the in-process singleflight group).
 */
module CacheAside {
  import opened Collections

  /** A cached value in its stored form. */
  type Json = string

  /** Entry and lease lifetimes in clock ticks, and the polls a flight makes while another loads. */
  datatype Config = Config(ttl: nat, lockTtl: nat, waitRetries: nat)

  /** A stored value; `loadedAt` is history: when the load that produced it read the source. */
  datatype Entry = Entry(value: Json, loadedAt: nat, expires: nat)

  datatype Lease = Lease(token: nat, until: nat)

  /** What a flight returns: a value, when the source held it, and when the flight obtained it. */
  datatype Result = Value(value: Json, loadedAt: nat, obtainedAt: nat, start: nat) | Failed

  datatype ReadStage = First | Second | Waiting(attempt: nat) | Locked(lease: Lease)

  datatype Pc =
    | Idle
    | Read(start: nat, stage: ReadStage)
    | Acquire(start: nat)
    | Load(start: nat, lease: Option<Lease>)
    | Store(start: nat, lease: Option<Lease>, value: Json, loadedAt: nat)
    | Release(start: nat, held: Lease, result: Result)
    | Done(start: nat, result: Result, at: nat) // at: when the flight that made the result ended

  datatype State = State(
    now: nat, source: Json, cache: Option<Entry>, lock: Option<Lease>, nextToken: nat, flights: seq<Pc>,
    past: set<(nat, Json)>, // history: every value the source held, with the tick
    maxLag: nat)         // history: the longest time from a source read to the SET that stored it

  datatype FlightAct =
    | Call | Hit | Miss | ReadError
    | LockGranted | LockBusy | LockError(effect: bool)
    | LoadOk | LoadError | SetOk | SetError(effect: bool) | Released | ReleaseError(effect: bool) | Share(j: nat)

  datatype Action = Tick | Update(value: Json) | Invalidate | Flight(i: nat, a: FlightAct)

  function Init(source: Json, flights: nat): State {
    State(0, source, None, None, 0, seq(flights, _ => Idle), {(0, source)}, 0)
  }

  /** GET: an entry past its expiry is a miss. */
  predicate Cached(s: State) { s.cache.Some? && s.now < s.cache.value.expires }

  predicate LockHeld(s: State) { s.lock.Some? && s.now < s.lock.value.until }

  /** Leave the critical part, through the deferred release if a lease is held. */
  function Finish(s: State, start: nat, lease: Option<Lease>, r: Result): Pc {
    if lease.Some? then Release(start, lease.value, r) else Done(start, r, s.now)
  }

  /** SET with expiry; a non-positive ttl is refused. */
  function Stored(c: Config, s: State, value: Json, loadedAt: nat): State {
    if c.ttl == 0 then s
    else s.(cache := Some(Entry(value, loadedAt, s.now + c.ttl)),
            maxLag := if loadedAt <= s.now && s.now - loadedAt > s.maxLag then s.now - loadedAt else s.maxLag)
  }

  /** Compare-and-delete of the lock key. */
  function Unlocked(s: State, held: Lease): Option<Lease> {
    if LockHeld(s) && s.lock.value.token == held.token then None else s.lock
  }

  function StageLease(stage: ReadStage): Option<Lease> { if stage.Locked? then Some(stage.lease) else None }

  predicate FlightEnabled(s: State, i: nat, a: FlightAct) {
    i < |s.flights| &&
    var f := s.flights[i];
    match a
    case Call => f.Idle? || f.Done?
    case Hit => f.Read? && Cached(s)
    case Miss => f.Read? && !Cached(s)
    case ReadError => f.Read?
    case LockGranted => f.Acquire? && !LockHeld(s)
    case LockBusy => f.Acquire? && LockHeld(s)
    case LockError(effect) => f.Acquire? && (effect ==> !LockHeld(s))
    case LoadOk => f.Load?
    case LoadError => f.Load?
    case SetOk => f.Store?
    case SetError(_) => f.Store?
    case Released => f.Release?
    case ReleaseError(_) => f.Release?
    case Share(j) => f.Read? && f.stage.Second? && j < |s.flights| && s.flights[j].Done? && f.start <= s.flights[j].at
  }

  /** The flight's next program point when its read misses. */
  function AfterMiss(c: Config, start: nat, stage: ReadStage): Pc {
    match stage
    case First => Read(start, Second)
    case Second => Acquire(start)
    case Waiting(n) => if n + 1 < c.waitRetries then Read(start, Waiting(n + 1)) else Load(start, None)
    case Locked(lease) => Load(start, Some(lease))
  }

  function FlightApply(c: Config, s: State, i: nat, a: FlightAct): State
    requires FlightEnabled(s, i, a)
  {
    var f := s.flights[i];
    match a
    case Call => s.(flights := s.flights[i := Read(s.now, First)])
    case Hit =>
      var e := s.cache.value;
      s.(flights := s.flights[i := Finish(s, f.start, StageLease(f.stage), Value(e.value, e.loadedAt, s.now, f.start))])
    case Miss => s.(flights := s.flights[i := AfterMiss(c, f.start, f.stage)])
    case ReadError => s.(flights := s.flights[i := Finish(s, f.start, StageLease(f.stage), Failed)])
    case LockGranted =>
      var lease := Lease(s.nextToken, s.now + c.lockTtl);
      s.(lock := Some(lease), nextToken := s.nextToken + 1, flights := s.flights[i := Read(f.start, Locked(lease))])
    case LockBusy =>
      s.(nextToken := s.nextToken + 1,
         flights := s.flights[i := if c.waitRetries > 0 then Read(f.start, Waiting(0)) else Load(f.start, None)])
    case LockError(effect) =>
      s.(lock := if effect then Some(Lease(s.nextToken, s.now + c.lockTtl)) else s.lock, // set, and the reply lost
         nextToken := s.nextToken + 1, flights := s.flights[i := Load(f.start, None)])
    case LoadOk => s.(flights := s.flights[i := Store(f.start, f.lease, s.source, s.now)])
    case LoadError => s.(flights := s.flights[i := Finish(s, f.start, f.lease, Failed)])
    case SetOk => Stored(c, s, f.value, f.loadedAt).(flights := s.flights[i := AfterSet(s, f)])
    case SetError(effect) =>
      (if effect then Stored(c, s, f.value, f.loadedAt) else s).(flights := s.flights[i := AfterSet(s, f)])
    case Released => s.(lock := Unlocked(s, f.held), flights := s.flights[i := Done(f.start, f.result, s.now)])
    case ReleaseError(effect) =>
      s.(lock := if effect then Unlocked(s, f.held) else s.lock, flights := s.flights[i := Done(f.start, f.result, s.now)])
    case Share(j) => s.(flights := s.flights[i := Done(f.start, s.flights[j].result, s.flights[j].at)])
  }

  /** The loaded value is returned whether or not it could be stored. */
  function AfterSet(s: State, f: Pc): Pc
    requires f.Store?
  {
    Finish(s, f.start, f.lease, Value(f.value, f.loadedAt, s.now, f.start))
  }

  predicate Enabled(s: State, a: Action) { a.Flight? ==> FlightEnabled(s, a.i, a.a) }

  function Apply(c: Config, s: State, a: Action): State
    requires Enabled(s, a)
  {
    match a
    case Tick => s.(now := s.now + 1, past := s.past + {(s.now + 1, s.source)})
    case Update(v) => s.(source := v, past := s.past + {(s.now, v)})
    case Invalidate => s.(cache := None)
    case Flight(i, f) => FlightApply(c, s, i, f)
  }

  function Run(c: Config, s: State, acts: seq<Action>): Option<State> {
    if acts == [] then Some(s)
    else
      var prev := Run(c, s, acts[..|acts| - 1]);
      var a := acts[|acts| - 1];
      if prev.Some? && Enabled(prev.value, a) then Some(Apply(c, prev.value, a)) else None
  }

  ghost predicate Reaches(c: Config, source: Json, flights: nat, acts: seq<Action>, s: State) {
    Run(c, Init(source, flights), acts) == Some(s)
  }

  // ---- freshness ----

  ghost predicate FreshResult(c: Config, s: State, r: Result) {
    r.Value? ==>
      && (r.loadedAt, r.value) in s.past
      && r.loadedAt <= r.obtainedAt <= s.now
      && (r.loadedAt >= r.start || r.obtainedAt < r.loadedAt + s.maxLag + c.ttl)
  }

  ghost predicate FreshFlight(c: Config, s: State, f: Pc) {
    match f
    case Idle => true
    case Read(start, _) => start <= s.now
    case Acquire(start) => start <= s.now
    case Load(start, _) => start <= s.now
    case Store(start, _, v, at) => start <= at <= s.now && (at, v) in s.past
    case Release(start, _, r) => start <= s.now && FreshResult(c, s, r)
    case Done(start, r, at) => start <= at <= s.now && FreshResult(c, s, r) && (r.Value? ==> r.obtainedAt <= at)
  }

  ghost predicate Fresh(c: Config, s: State) {
    && (s.now, s.source) in s.past
    && (s.cache.Some? ==>
          var e := s.cache.value;
          (e.loadedAt, e.value) in s.past && e.loadedAt <= s.now && e.expires <= e.loadedAt + s.maxLag + c.ttl)
    && (forall i :: 0 <= i < |s.flights| ==> FreshFlight(c, s, s.flights[i]))
  }

  /** Time passes, history and the largest lag only grow: what was fresh stays fresh. */
  lemma StillFresh(c: Config, s: State, t: State, f: Pc)
    requires FreshFlight(c, s, f) && s.now <= t.now && s.past <= t.past && s.maxLag <= t.maxLag
    ensures FreshFlight(c, t, f)
  {}

  lemma FreshAct(c: Config, s: State, i: nat, a: FlightAct)
    requires Fresh(c, s) && FlightEnabled(s, i, a)
    ensures var t := FlightApply(c, s, i, a);
            && t.now == s.now && t.past == s.past && t.source == s.source && s.maxLag <= t.maxLag
            && t.flights == s.flights[i := t.flights[i]] && FreshFlight(c, t, t.flights[i])
            && (t.cache.Some? ==>
                  var e := t.cache.value;
                  (e.loadedAt, e.value) in t.past && e.loadedAt <= t.now && e.expires <= e.loadedAt + t.maxLag + c.ttl)
  {
    assert FreshFlight(c, s, s.flights[i]);
    assert a.Share? ==> FreshFlight(c, s, s.flights[a.j]);
    match a { case Call => case Hit => case Miss => case ReadError => case LockGranted => case LockBusy =>
              case LockError(_) => case LoadOk => case LoadError => case SetOk => case SetError(_) =>
              case Released => case ReleaseError(_) => case Share(_) => }
  }

  lemma FreshStep(c: Config, s: State, a: Action)
    requires Fresh(c, s) && Enabled(s, a)
    ensures Fresh(c, Apply(c, s, a))
  {
    var t := Apply(c, s, a);
    if a.Flight? {
      FreshAct(c, s, a.i, a.a);
    }
    forall i | 0 <= i < |s.flights| ensures FreshFlight(c, t, s.flights[i]) {
      StillFresh(c, s, t, s.flights[i]);
    }
  }

  // ---- the lock ----

  /** The lease a flight believes it holds. */
  function LeaseOf(f: Pc): Option<Lease> {
    match f
    case Read(_, stage) => StageLease(stage)
    case Load(_, lease) => lease
    case Store(_, lease, _, _) => lease
    case Release(_, lease, _) => Some(lease)
    case _ => None
  }

  function Leases(fs: seq<Pc>): (ls: seq<Option<Lease>>)
    ensures |ls| == |fs|
  {
    seq(|fs|, i requires 0 <= i < |fs| => LeaseOf(fs[i]))
  }

  /** Leases carry distinct issued tokens, and a lease still running is the one stored under the key. */
  ghost predicate Owners(now: nat, lock: Option<Lease>, nextToken: nat, ls: seq<Option<Lease>>) {
    && (lock.Some? ==> lock.value.token < nextToken)
    && (forall i :: 0 <= i < |ls| && ls[i].Some? ==>
          && ls[i].value.token < nextToken
          && (now < ls[i].value.until ==> lock == ls[i])
          && (lock.Some? && lock.value.token == ls[i].value.token ==> lock == ls[i]))
    && (forall i, j :: 0 <= i < j < |ls| && ls[i].Some? && ls[j].Some? ==> ls[i].value.token != ls[j].value.token)
  }

  ghost predicate OwnerInv(s: State) { Owners(s.now, s.lock, s.nextToken, Leases(s.flights)) }

  lemma GrantLease(now: nat, lock: Option<Lease>, nextToken: nat, ls: seq<Option<Lease>>, i: nat, until: nat)
    requires Owners(now, lock, nextToken, ls) && i < |ls| && !(lock.Some? && now < lock.value.until)
    ensures var l := Lease(nextToken, until);
            Owners(now, Some(l), nextToken + 1, ls[i := Some(l)]) && Owners(now, Some(l), nextToken + 1, ls)
  {}

  lemma DropLease(now: nat, lock: Option<Lease>, nextToken: nat, ls: seq<Option<Lease>>, i: nat, free: bool)
    requires Owners(now, lock, nextToken, ls) && i < |ls|
    requires free ==> lock.Some? && ls[i].Some? && lock.value.token == ls[i].value.token
    ensures Owners(now, if free then None else lock, nextToken, ls[i := None])
  {}

  /** What a flight's step does to its lease: hold on to it, be granted a new one, or let go. */
  lemma LeaseAct(c: Config, s: State, i: nat, a: FlightAct)
    requires FlightEnabled(s, i, a)
    ensures var t := FlightApply(c, s, i, a);
            && t.now == s.now && t.flights == s.flights[i := t.flights[i]]
            && (if a.LockGranted? then
                  LeaseOf(t.flights[i]) == t.lock == Some(Lease(s.nextToken, s.now + c.lockTtl)) && t.nextToken == s.nextToken + 1
                else if a.Released? || a.ReleaseError? then
                  LeaseOf(t.flights[i]) == None && t.nextToken == s.nextToken
                else if a.LockError? && a.effect then
                  LeaseOf(t.flights[i]) == LeaseOf(s.flights[i]) == None && t.nextToken == s.nextToken + 1
                  && t.lock == Some(Lease(s.nextToken, s.now + c.lockTtl))
                else
                  LeaseOf(t.flights[i]) == LeaseOf(s.flights[i]) && t.lock == s.lock && t.nextToken >= s.nextToken)
  {
    match a { case Call => case Hit => case Miss => case ReadError => case LockGranted => case LockBusy =>
              case LockError(_) => case LoadOk => case LoadError => case SetOk => case SetError(_) =>
              case Released => case ReleaseError(_) => case Share(_) => }
  }

  lemma OwnerStep(c: Config, s: State, a: Action)
    requires OwnerInv(s) && Enabled(s, a)
    ensures OwnerInv(Apply(c, s, a))
  {
    var t := Apply(c, s, a);
    if a.Flight? {
      LeaseAct(c, s, a.i, a.a);
      assert Leases(t.flights) == Leases(s.flights)[a.i := LeaseOf(t.flights[a.i])];
      if a.a.LockGranted? || (a.a.LockError? && a.a.effect) {
        GrantLease(s.now, s.lock, s.nextToken, Leases(s.flights), a.i, s.now + c.lockTtl);
      } else if a.a.Released? || a.a.ReleaseError? {
        var free := (a.a.Released? || a.a.effect) && LockHeld(s) && s.lock.value.token == s.flights[a.i].held.token;
        DropLease(s.now, s.lock, s.nextToken, Leases(s.flights), a.i, free);
      } else {
        assert Leases(t.flights) == Leases(s.flights);
      }
    }
  }

  lemma {:induction false} RunInv(c: Config, source: Json, flights: nat, acts: seq<Action>, s: State)
    requires Reaches(c, source, flights, acts, s)
    ensures Fresh(c, s) && OwnerInv(s) && |s.flights| == flights
    decreases |acts|
  {
    if acts == [] {
    } else {
      var n := |acts| - 1;
      var prev := Run(c, Init(source, flights), acts[..n]).value;
      RunInv(c, source, flights, acts[..n], prev);
      FreshStep(c, prev, acts[n]);
      OwnerStep(c, prev, acts[n]);
    }
  }

  // ---- theorems ----

  /** Bounded staleness: for every interleaving, a value a call returns is one the source held, either
      since the flight that obtained it started or less than ttl + D before it was obtained, where D
      bounds the time from reading the source to storing what was read; and that flight, the call's
      own or a shared one, ended no earlier than the call began. */
  lemma BoundedStaleness(c: Config, source: Json, flights: nat, acts: seq<Action>, s: State, i: nat, d: nat)
    requires Reaches(c, source, flights, acts, s) && s.maxLag <= d
    requires i < |s.flights| && s.flights[i].Done? && s.flights[i].result.Value?
    ensures var r := s.flights[i].result;
            && (r.loadedAt, r.value) in s.past
            && (r.loadedAt >= r.start || r.obtainedAt < r.loadedAt + c.ttl + d)
            && r.loadedAt <= r.obtainedAt <= s.flights[i].at && s.flights[i].start <= s.flights[i].at
  {
    RunInv(c, source, flights, acts, s);
    assert FreshFlight(c, s, s.flights[i]);
  }

  /** What a GET can see is a successful load's value, less than ttl + D old; failed loads leave
      nothing behind. */
  lemma CachedIsRecent(c: Config, source: Json, flights: nat, acts: seq<Action>, s: State, d: nat)
    requires Reaches(c, source, flights, acts, s) && s.maxLag <= d && Cached(s)
    ensures (s.cache.value.loadedAt, s.cache.value.value) in s.past
    ensures s.now < s.cache.value.loadedAt + c.ttl + d
  {
    RunInv(c, source, flights, acts, s);
  }

  /** Two flights never hold an unexpired lease at once, and the one that does owns the lock key. */
  lemma LeaseExclusive(c: Config, source: Json, flights: nat, acts: seq<Action>, s: State, i: nat, j: nat)
    requires Reaches(c, source, flights, acts, s) && i < |s.flights| && j < |s.flights|
    requires LeaseOf(s.flights[i]).Some? && s.now < LeaseOf(s.flights[i]).value.until
    requires LeaseOf(s.flights[j]).Some? && s.now < LeaseOf(s.flights[j]).value.until
    ensures i == j && s.lock == LeaseOf(s.flights[i])
  {
    RunInv(c, source, flights, acts, s);
    var ls := Leases(s.flights);
    assert ls[i] == LeaseOf(s.flights[i]) && ls[j] == LeaseOf(s.flights[j]);
  }

  /** No step of a flight touches a running lease that is not its own, so one whose lease ran out never
      deletes a successor's through the deferred release; the holder's release does delete its own. */
  lemma ReleaseKeepsSuccessor(
    c: Config, source: Json, flights: nat, acts: seq<Action>, s: State, i: nat, a: FlightAct)
    requires Reaches(c, source, flights, acts, s) && FlightEnabled(s, i, a) && LockHeld(s)
    ensures LeaseOf(s.flights[i]) != s.lock ==> FlightApply(c, s, i, a).lock == s.lock
    ensures LeaseOf(s.flights[i]).Some? && s.now >= LeaseOf(s.flights[i]).value.until ==>
              FlightApply(c, s, i, a).lock == s.lock
    ensures LeaseOf(s.flights[i]) == s.lock && a.Released? ==> FlightApply(c, s, i, a).lock == None
  {
    RunInv(c, source, flights, acts, s);
    assert Leases(s.flights)[i] == LeaseOf(s.flights[i]);
    match a { case Call => case Hit => case Miss => case ReadError => case LockGranted => case LockBusy =>
              case LockError(_) => case LoadOk => case LoadError => case SetOk => case SetError(_) =>
              case Released => case ReleaseError(_) => case Share(_) => }
  }
}
