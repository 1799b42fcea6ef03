/**
 What a run of the cache does for its callers: which action each result comes from, which path leads to a
 load, what the cache serves after a SET, and that the histories used to state staleness are exact.
 */
module CacheOutcomes {
  import opened Collections
  import opened CacheAside

  /** The state after the first n actions of a run. */
  ghost predicate Before(c: Config, s0: State, acts: seq<Action>, n: nat, w: State) {
    n <= |acts| && Run(c, s0, acts[..n]) == Some(w)
  }

  lemma BeforeExtends(c: Config, s0: State, acts: seq<Action>, m: nat, n: nat, w: State)
    requires m <= |acts| && Before(c, s0, acts[..m], n, w)
    ensures Before(c, s0, acts, n, w)
  {
    assert acts[..m][..n] == acts[..n];
  }

  // ---- results ----

  /** The action that decided what a flight's present call returns. */
  datatype Origin = Undecided | FromCache(n: nat) | FromLoad(n: nat) | FromError(n: nat)

  function OriginOf(acts: seq<Action>, i: nat): Origin {
    if acts == [] then Undecided
    else
      var n := |acts| - 1;
      if acts[n].Flight? && acts[n].i == i then
        match acts[n].a
        case Call => Undecided
        case Hit => FromCache(n)
        case LoadOk => FromLoad(n)
        case ReadError => FromError(n)
        case LoadError => FromError(n)
        case Share(j) => OriginOf(acts[..n], j)
        case _ => OriginOf(acts[..n], i)
      else OriginOf(acts[..n], i)
  }

  predicate Decides(acts: seq<Action>, o: Origin) {
    match o
    case Undecided => true
    case FromCache(n) => n < |acts| && acts[n].Flight? && acts[n].a.Hit?
    case FromLoad(n) => n < |acts| && acts[n].Flight? && acts[n].a.LoadOk?
    case FromError(n) => n < |acts| && acts[n].Flight? && (acts[n].a.ReadError? || acts[n].a.LoadError?)
  }

  /** The value was the source's when action n loaded it. */
  ghost predicate LoadedAt(c: Config, s0: State, acts: seq<Action>, n: nat, value: Json, at: nat) {
    exists w :: Before(c, s0, acts, n, w) && w.source == value && w.now == at
  }

  /** The value was the visible entry's when action n read it. */
  ghost predicate ReadAt(c: Config, s0: State, acts: seq<Action>, n: nat, value: Json, loadedAt: nat, at: nat) {
    exists w :: Before(c, s0, acts, n, w) && Cached(w) && w.cache.value.value == value
                && w.cache.value.loadedAt == loadedAt && w.now == at
  }

  ghost predicate Explains(c: Config, s0: State, acts: seq<Action>, o: Origin, r: Result) {
    match o
    case Undecided => false
    case FromError(_) => r.Failed?
    case FromLoad(n) => r.Value? && LoadedAt(c, s0, acts, n, r.value, r.loadedAt)
    case FromCache(n) => r.Value? && ReadAt(c, s0, acts, n, r.value, r.loadedAt, r.obtainedAt)
  }

  ghost predicate Explained(c: Config, s0: State, acts: seq<Action>, i: nat, f: Pc) {
    var o := OriginOf(acts, i);
    match f
    case Idle => true
    case Read(_, _) => o.Undecided?
    case Acquire(_) => o.Undecided?
    case Load(_, _) => o.Undecided?
    case Store(_, _, v, at) => o.FromLoad? && LoadedAt(c, s0, acts, o.n, v, at)
    case Release(_, _, r) => Explains(c, s0, acts, o, r)
    case Done(_, r, _) => Explains(c, s0, acts, o, r)
  }

  lemma LoadedExtends(c: Config, s0: State, acts: seq<Action>, m: nat, n: nat, v: Json, at: nat)
    requires m <= |acts| && LoadedAt(c, s0, acts[..m], n, v, at)
    ensures LoadedAt(c, s0, acts, n, v, at)
  {
    var w :| Before(c, s0, acts[..m], n, w) && w.source == v && w.now == at;
    BeforeExtends(c, s0, acts, m, n, w);
  }

  lemma ReadExtends(c: Config, s0: State, acts: seq<Action>, m: nat, n: nat, v: Json, loadedAt: nat, at: nat)
    requires m <= |acts| && ReadAt(c, s0, acts[..m], n, v, loadedAt, at)
    ensures ReadAt(c, s0, acts, n, v, loadedAt, at)
  {
    var w :| Before(c, s0, acts[..m], n, w) && Cached(w) && w.cache.value.value == v
             && w.cache.value.loadedAt == loadedAt && w.now == at;
    BeforeExtends(c, s0, acts, m, n, w);
  }

  lemma ExplainsExtends(c: Config, s0: State, acts: seq<Action>, m: nat, o: Origin, r: Result)
    requires m <= |acts| && Explains(c, s0, acts[..m], o, r)
    ensures Explains(c, s0, acts, o, r)
  {
    match o {
      case FromError(_) =>
      case FromLoad(n) => LoadedExtends(c, s0, acts, m, n, r.value, r.loadedAt);
      case FromCache(n) => ReadExtends(c, s0, acts, m, n, r.value, r.loadedAt, r.obtainedAt);
    }
  }

  /** A flight that takes no step keeps its explanation. */
  lemma ExplainedExtends(c: Config, s0: State, acts: seq<Action>, m: nat, i: nat, f: Pc)
    requires m + 1 == |acts| && Explained(c, s0, acts[..m], i, f) && OriginOf(acts, i) == OriginOf(acts[..m], i)
    ensures Explained(c, s0, acts, i, f)
  {
    var o := OriginOf(acts, i);
    match f {
      case Idle =>
      case Read(_, _) =>
      case Acquire(_) =>
      case Load(_, _) =>
      case Store(_, _, v, at) => LoadedExtends(c, s0, acts, m, o.n, v, at);
      case Release(_, _, r) => ExplainsExtends(c, s0, acts, m, o, r);
      case Done(_, r, _) => ExplainsExtends(c, s0, acts, m, o, r);
    }
  }

  lemma ExplainedStep(c: Config, s0: State, acts: seq<Action>, s: State, i: nat, a: FlightAct)
    requires acts != [] && acts[|acts| - 1] == Flight(i, a) && Run(c, s0, acts[..|acts| - 1]) == Some(s)
    requires FlightEnabled(s, i, a) && Explained(c, s0, acts[..|acts| - 1], i, s.flights[i])
    requires a.Share? ==> Explained(c, s0, acts[..|acts| - 1], a.j, s.flights[a.j])
    ensures Explained(c, s0, acts, i, FlightApply(c, s, i, a).flights[i])
  {
    var n := |acts| - 1;
    var f, o := s.flights[i], OriginOf(acts[..n], i);
    assert Before(c, s0, acts, n, s);
    match a {
      case Call => case Miss => case ReadError => case LockGranted => case LockBusy => case LockError(_) =>
      case LoadError =>
      case Hit =>
      case LoadOk =>
      case SetOk => LoadedExtends(c, s0, acts, n, o.n, f.value, f.loadedAt);
      case SetError(_) => LoadedExtends(c, s0, acts, n, o.n, f.value, f.loadedAt);
      case Released => ExplainsExtends(c, s0, acts, n, o, f.result);
      case ReleaseError(_) => ExplainsExtends(c, s0, acts, n, o, f.result);
      case Share(j) => ExplainsExtends(c, s0, acts, n, OriginOf(acts[..n], j), s.flights[j].result);
    }
  }

  lemma {:induction false} RunExplained(c: Config, source: Json, flights: nat, acts: seq<Action>, s: State, i: nat)
    requires Reaches(c, source, flights, acts, s) && i < |s.flights|
    ensures Explained(c, Init(source, flights), acts, i, s.flights[i])
    decreases |acts|
  {
    if acts == [] {
    } else {
      var n := |acts| - 1;
      var s0 := Init(source, flights);
      var prev := Run(c, s0, acts[..n]).value;
      RunExplained(c, source, flights, acts[..n], prev, i);
      if acts[n].Flight? && acts[n].i == i {
        if acts[n].a.Share? {
          RunExplained(c, source, flights, acts[..n], prev, acts[n].a.j);
        }
        ExplainedStep(c, s0, acts, prev, i, acts[n].a);
      } else {
        OtherFlights(c, prev, acts[n], i);
        ExplainedExtends(c, s0, acts, n, i, prev.flights[i]);
      }
    }
  }

  lemma OtherFlights(c: Config, s: State, a: Action, i: nat)
    requires Enabled(s, a) && i < |s.flights| && !(a.Flight? && a.i == i)
    ensures |Apply(c, s, a).flights| == |s.flights| && Apply(c, s, a).flights[i] == s.flights[i]
  {
    if a.Flight? {
      LeaseAct(c, s, a.i, a.a);
    }
  }

  /** A call fails exactly when a read of the cache or a load failed, its own or that of the flight it shared;
      one that loaded returns the value the source held at that moment, whether or not it could be stored and
      whatever happened in between; one that hit returns the entry it read. */
  lemma ResultsExplained(c: Config, source: Json, flights: nat, acts: seq<Action>, s: State, i: nat)
    requires Reaches(c, source, flights, acts, s) && i < |s.flights| && s.flights[i].Done?
    ensures var o, r := OriginOf(acts, i), s.flights[i].result;
            && (r.Failed? <==> o.FromError?)
            && (o.FromLoad? ==> LoadedAt(c, Init(source, flights), acts, o.n, r.value, r.loadedAt))
            && (o.FromCache? ==> ReadAt(c, Init(source, flights), acts, o.n, r.value, r.loadedAt, r.obtainedAt))
            && !o.Undecided? && Decides(acts, o)
  {
    RunExplained(c, source, flights, acts, s, i);
    OriginIs(acts, i);
  }

  lemma {:induction false} OriginIs(acts: seq<Action>, i: nat)
    ensures Decides(acts, OriginOf(acts, i))
    decreases |acts|
  {
    if acts == [] {
    } else {
      var n := |acts| - 1;
      OriginIs(acts[..n], i);
      if acts[n].Flight? && acts[n].i == i && acts[n].a.Share? {
        OriginIs(acts[..n], acts[n].a.j);
      }
    }
  }

  // ---- when calls and flights began ----

  /** The call a flight is in. */
  function OwnCall(acts: seq<Action>, i: nat): Option<nat> {
    if acts == [] then None
    else
      var n := |acts| - 1;
      if acts[n] == Flight(i, Call) then Some(n) else OwnCall(acts[..n], i)
  }

  /** The call of the flight whose result this one has: its own, or the one it shared. */
  function OriginCall(acts: seq<Action>, i: nat): Option<nat> {
    if acts == [] then None
    else
      var n := |acts| - 1;
      if acts[n].Flight? && acts[n].i == i && acts[n].a.Call? then Some(n)
      else if acts[n].Flight? && acts[n].i == i && acts[n].a.Share? then OriginCall(acts[..n], acts[n].a.j)
      else OriginCall(acts[..n], i)
  }

  ghost predicate StartedAt(c: Config, s0: State, acts: seq<Action>, call: Option<nat>, t: nat) {
    call.Some? && exists w :: Before(c, s0, acts, call.value, w) && w.now == t
  }

  ghost predicate Timed(c: Config, s0: State, acts: seq<Action>, i: nat, f: Pc) {
    && (!f.Idle? ==> StartedAt(c, s0, acts, OwnCall(acts, i), f.start))
    && (f.Read? || f.Acquire? || f.Load? || f.Store? ==> StartedAt(c, s0, acts, OriginCall(acts, i), f.start))
    && (f.Release? || f.Done? ==> f.result.Value? ==> StartedAt(c, s0, acts, OriginCall(acts, i), f.result.start))
  }

  lemma StartedExtends(c: Config, s0: State, acts: seq<Action>, m: nat, call: Option<nat>, t: nat)
    requires m <= |acts|
    ensures StartedAt(c, s0, acts[..m], call, t) ==> StartedAt(c, s0, acts, call, t)
  {
    if StartedAt(c, s0, acts[..m], call, t) {
      var w :| Before(c, s0, acts[..m], call.value, w) && w.now == t;
      BeforeExtends(c, s0, acts, m, call.value, w);
    }
  }

  lemma TimedStep(c: Config, s0: State, acts: seq<Action>, s: State, i: nat, a: FlightAct)
    requires acts != [] && acts[|acts| - 1] == Flight(i, a) && Run(c, s0, acts[..|acts| - 1]) == Some(s)
    requires FlightEnabled(s, i, a) && Timed(c, s0, acts[..|acts| - 1], i, s.flights[i])
    requires a.Share? ==> Timed(c, s0, acts[..|acts| - 1], a.j, s.flights[a.j])
    ensures Timed(c, s0, acts, i, FlightApply(c, s, i, a).flights[i])
  {
    var n := |acts| - 1;
    var f := s.flights[i];
    assert Before(c, s0, acts, n, s);
    if !f.Idle? {
      StartedExtends(c, s0, acts, n, OwnCall(acts[..n], i), f.start);
      StartedExtends(c, s0, acts, n, OriginCall(acts[..n], i), f.start);
    }
    if f.Release? && f.result.Value? {
      StartedExtends(c, s0, acts, n, OriginCall(acts[..n], i), f.result.start);
    }
    if a.Share? && s.flights[a.j].result.Value? {
      StartedExtends(c, s0, acts, n, OriginCall(acts[..n], a.j), s.flights[a.j].result.start);
    }
    match a { case Call => case Hit => case Miss => case ReadError => case LockGranted => case LockBusy =>
              case LockError(_) => case LoadOk => case LoadError => case SetOk => case SetError(_) =>
              case Released => case ReleaseError(_) => case Share(_) => }
  }

  /** The start recorded with a call is when it was made, and the start recorded with a result is when the call
      of the flight that obtained it was made. */
  lemma {:induction false} StartsAreReal(c: Config, source: Json, flights: nat, acts: seq<Action>, s: State, i: nat)
    requires Reaches(c, source, flights, acts, s) && i < |s.flights|
    ensures Timed(c, Init(source, flights), acts, i, s.flights[i])
    decreases |acts|
  {
    if acts == [] {
    } else {
      var n := |acts| - 1;
      var s0 := Init(source, flights);
      var prev := Run(c, s0, acts[..n]).value;
      StartsAreReal(c, source, flights, acts[..n], prev, i);
      if acts[n].Flight? && acts[n].i == i {
        if acts[n].a.Share? {
          StartsAreReal(c, source, flights, acts[..n], prev, acts[n].a.j);
        }
        TimedStep(c, s0, acts, prev, i, acts[n].a);
      } else {
        OtherFlights(c, prev, acts[n], i);
        var f := prev.flights[i];
        if !f.Idle? {
          StartedExtends(c, s0, acts, n, OwnCall(acts[..n], i), f.start);
          StartedExtends(c, s0, acts, n, OriginCall(acts[..n], i), f.start);
        }
        if (f.Release? || f.Done?) && f.result.Value? {
          StartedExtends(c, s0, acts, n, OriginCall(acts[..n], i), f.result.start);
        }
      }
    }
  }

  // ---- the way to a load ----

  /** The flight's own actions since its present call began. */
  function PathOf(acts: seq<Action>, i: nat): seq<FlightAct> {
    if acts == [] then []
    else
      var n := |acts| - 1;
      if acts[n].Flight? && acts[n].i == i then
        (if acts[n].a.Call? then [Call] else PathOf(acts[..n], i) + [acts[n].a])
      else PathOf(acts[..n], i)
  }

  function Misses(n: nat): seq<FlightAct> { seq(n, _ => Miss) }

  predicate LoadPath(c: Config, locked: bool, path: seq<FlightAct>) {
    if locked then path == [Call, Miss, Miss, LockGranted, Miss]
    else || path == [Call, Miss, Miss, LockError(true)] || path == [Call, Miss, Miss, LockError(false)]
         || path == [Call, Miss, Miss, LockBusy] + Misses(c.waitRetries)
  }

  predicate PathOk(c: Config, f: Pc, path: seq<FlightAct>) {
    match f
    case Read(_, First) => path == [Call]
    case Read(_, Second) => path == [Call, Miss]
    case Read(_, Locked(_)) => path == [Call, Miss, Miss, LockGranted]
    case Read(_, Waiting(n)) => n < c.waitRetries && path == [Call, Miss, Miss, LockBusy] + Misses(n)
    case Acquire(_) => path == [Call, Miss, Miss]
    case Load(_, lease) => LoadPath(c, lease.Some?, path)
    case _ => true
  }

  lemma MissOnce(c: Config, n: nat)
    ensures [Call, Miss, Miss, LockBusy] + Misses(n) + [Miss] == [Call, Miss, Miss, LockBusy] + Misses(n + 1)
    ensures [Call, Miss, Miss, LockBusy] + Misses(0) == [Call, Miss, Miss, LockBusy]
  {}

  lemma PathStep(c: Config, s: State, i: nat, a: FlightAct, path: seq<FlightAct>)
    requires FlightEnabled(s, i, a) && PathOk(c, s.flights[i], path)
    ensures PathOk(c, FlightApply(c, s, i, a).flights[i], if a.Call? then [Call] else path + [a])
  {
    var f := s.flights[i];
    match a {
      case Miss =>
        if f.stage.Waiting? {
          MissOnce(c, f.stage.attempt);
        }
      case LockBusy => MissOnce(c, 0);
      case Call => case Hit => case ReadError => case LockGranted => case LockError(_) => case LoadOk =>
      case LoadError => case SetOk => case SetError(_) => case Released => case ReleaseError(_) => case Share(_) =>
    }
  }

  /** A flight loads only after missing twice and then either holding the lease and missing once more, or
      failing to ask for the lock, or finding it taken and missing on every retry. */
  lemma {:induction false} LoadsOnlyAfter(
    c: Config, source: Json, flights: nat, acts: seq<Action>, s: State, i: nat)
    requires Reaches(c, source, flights, acts, s) && i < |s.flights|
    ensures PathOk(c, s.flights[i], PathOf(acts, i))
    ensures s.flights[i].Load? ==> LoadPath(c, s.flights[i].lease.Some?, PathOf(acts, i))
    decreases |acts|
  {
    if acts == [] {
    } else {
      var n := |acts| - 1;
      var prev := Run(c, Init(source, flights), acts[..n]).value;
      LoadsOnlyAfter(c, source, flights, acts[..n], prev, i);
      if acts[n].Flight? && acts[n].i == i {
        PathStep(c, prev, i, acts[n].a, PathOf(acts[..n], i));
      } else {
        OtherFlights(c, prev, acts[n], i);
      }
    }
  }

  // ---- what the cache serves ----

  predicate Stores(c: Config, a: Action) { c.ttl > 0 && a.Flight? && (a.a.SetOk? || a.a == SetError(true)) }

  /** The last action that stored an entry, unless the key was invalidated since. */
  function LastStore(c: Config, acts: seq<Action>): Option<nat> {
    if acts == [] then None
    else
      var n := |acts| - 1;
      if acts[n].Invalidate? then None else if Stores(c, acts[n]) then Some(n) else LastStore(c, acts[..n])
  }

  /** The entry that action n stored: the value and load time its flight held, for ttl from that moment. */
  ghost predicate StoredAt(c: Config, s0: State, acts: seq<Action>, n: nat, e: Entry) {
    n < |acts| && Stores(c, acts[n]) &&
    exists w :: && Before(c, s0, acts, n, w) && acts[n].i < |w.flights| && w.flights[acts[n].i].Store?
                && e == Entry(w.flights[acts[n].i].value, w.flights[acts[n].i].loadedAt, w.now + c.ttl)
  }

  lemma StoredExtends(c: Config, s0: State, acts: seq<Action>, m: nat, n: nat, e: Entry)
    requires m <= |acts| && StoredAt(c, s0, acts[..m], n, e)
    ensures StoredAt(c, s0, acts, n, e)
  {
    var w :| && Before(c, s0, acts[..m], n, w) && acts[n].i < |w.flights| && w.flights[acts[n].i].Store?
             && e == Entry(w.flights[acts[n].i].value, w.flights[acts[n].i].loadedAt, w.now + c.ttl);
    BeforeExtends(c, s0, acts, m, n, w);
  }

  lemma CacheStep(c: Config, s: State, a: Action)
    requires Enabled(s, a)
    ensures Apply(c, s, a).cache ==
              if a.Invalidate? then None
              else if Stores(c, a) then
                Some(Entry(s.flights[a.i].value, s.flights[a.i].loadedAt, s.now + c.ttl))
              else s.cache
  {
    match a {
      case Tick => case Update(_) => case Invalidate =>
      case Flight(i, f) =>
        match f { case Call => case Hit => case Miss => case ReadError => case LockGranted => case LockBusy =>
                  case LockError(_) => case LoadOk => case LoadError => case SetOk => case SetError(_) =>
                  case Released => case ReleaseError(_) => case Share(_) => }
    }
  }

  /** The cache holds what the last store put there, and nothing else. */
  lemma {:induction false} CacheHolds(c: Config, source: Json, flights: nat, acts: seq<Action>, s: State)
    requires Reaches(c, source, flights, acts, s)
    ensures match LastStore(c, acts)
            case None => s.cache == None
            case Some(n) => s.cache.Some? && StoredAt(c, Init(source, flights), acts, n, s.cache.value)
    decreases |acts|
  {
    if acts == [] {
    } else {
      var n := |acts| - 1;
      var s0 := Init(source, flights);
      var prev := Run(c, s0, acts[..n]).value;
      CacheHolds(c, source, flights, acts[..n], prev);
      CacheStep(c, prev, acts[n]);
      assert Before(c, s0, acts, n, prev);
      var last := LastStore(c, acts[..n]);
      if last.Some? && !acts[n].Invalidate? && !Stores(c, acts[n]) {
        StoredExtends(c, s0, acts, n, last.value, prev.cache.value);
      }
    }
  }

  /** After a SET, until the ttl is over and with no invalidation or later SET in between, every read hits and
      returns what was stored. */
  lemma StoredIsServed(c: Config, source: Json, flights: nat, acts: seq<Action>, s: State, i: nat, n: nat, w: State)
    requires Reaches(c, source, flights, acts, s) && i < |s.flights| && s.flights[i].Read?
    requires LastStore(c, acts) == Some(n) && Before(c, Init(source, flights), acts, n, w) && s.now < w.now + c.ttl
    ensures FlightEnabled(s, i, Hit) && !FlightEnabled(s, i, Miss)
    ensures n < |acts| && acts[n].Flight? && acts[n].i < |w.flights| && w.flights[acts[n].i].Store?
    ensures var f := FlightApply(c, s, i, Hit).flights[i];
            (f.Done? || f.Release?) && f.result.Value? && f.result.value == w.flights[acts[n].i].value
  {
    CacheHolds(c, source, flights, acts, s);
  }

  // ---- the histories ----

  /** What is recorded as past was the source's value at that time. */
  lemma {:induction false} PastIsPast(
    c: Config, source: Json, flights: nat, acts: seq<Action>, s: State, t: nat, v: Json)
    returns (n: nat, w: State)
    requires Reaches(c, source, flights, acts, s) && (t, v) in s.past
    ensures Before(c, Init(source, flights), acts, n, w) && w.now == t && w.source == v
    decreases |acts|
  {
    var s0 := Init(source, flights);
    if acts == [] {
      n, w := 0, s;
    } else {
      var m := |acts| - 1;
      var prev := Run(c, s0, acts[..m]).value;
      PastStep(c, prev, acts[m]);
      if (t, v) in prev.past {
        n, w := PastIsPast(c, source, flights, acts[..m], prev, t, v);
        BeforeExtends(c, s0, acts, m, n, w);
      } else {
        n, w := |acts|, s;
        assert acts[..|acts|] == acts;
      }
    }
  }

  lemma PastStep(c: Config, s: State, a: Action)
    requires Enabled(s, a)
    ensures var t := Apply(c, s, a); s.past <= t.past && t.past <= s.past + {(t.now, t.source)}
  {
    match a {
      case Tick => case Update(_) => case Invalidate =>
      case Flight(i, f) =>
        match f { case Call => case Hit => case Miss => case ReadError => case LockGranted => case LockBusy =>
                  case LockError(_) => case LoadOk => case LoadError => case SetOk => case SetError(_) =>
                  case Released => case ReleaseError(_) => case Share(_) => }
    }
  }

  /** The largest lag is one some store really had. */
  ghost predicate LagOf(c: Config, s0: State, acts: seq<Action>, n: nat, lag: nat) {
    n < |acts| && Stores(c, acts[n]) &&
    exists w :: && Before(c, s0, acts, n, w) && acts[n].i < |w.flights| && w.flights[acts[n].i].Store?
                && w.flights[acts[n].i].loadedAt + lag == w.now
  }

  lemma LagExtends(c: Config, s0: State, acts: seq<Action>, m: nat, n: nat, lag: nat)
    requires m <= |acts| && LagOf(c, s0, acts[..m], n, lag)
    ensures LagOf(c, s0, acts, n, lag)
  {
    var w :| && Before(c, s0, acts[..m], n, w) && acts[n].i < |w.flights| && w.flights[acts[n].i].Store?
             && w.flights[acts[n].i].loadedAt + lag == w.now;
    BeforeExtends(c, s0, acts, m, n, w);
  }

  lemma LagStep(c: Config, s: State, a: Action)
    requires Enabled(s, a)
    ensures var lag := Apply(c, s, a).maxLag;
            lag == s.maxLag || (Stores(c, a) && s.flights[a.i].loadedAt + lag == s.now)
  {
    match a {
      case Tick => case Update(_) => case Invalidate =>
      case Flight(i, f) =>
        match f { case Call => case Hit => case Miss => case ReadError => case LockGranted => case LockBusy =>
                  case LockError(_) => case LoadOk => case LoadError => case SetOk => case SetError(_) =>
                  case Released => case ReleaseError(_) => case Share(_) => }
    }
  }

  lemma {:induction false} LagIsReal(c: Config, source: Json, flights: nat, acts: seq<Action>, s: State)
    requires Reaches(c, source, flights, acts, s)
    ensures s.maxLag == 0 || exists n: nat :: LagOf(c, Init(source, flights), acts, n, s.maxLag)
    decreases |acts|
  {
    if acts == [] {
    } else {
      var m := |acts| - 1;
      var s0 := Init(source, flights);
      var prev := Run(c, s0, acts[..m]).value;
      LagIsReal(c, source, flights, acts[..m], prev);
      LagStep(c, prev, acts[m]);
      assert Before(c, s0, acts, m, prev);
      if s.maxLag == prev.maxLag {
        if s.maxLag != 0 {
          var n: nat :| LagOf(c, s0, acts[..m], n, prev.maxLag);
          LagExtends(c, s0, acts, m, n, prev.maxLag);
        }
      } else {
        assert LagOf(c, s0, acts, m, s.maxLag);
      }
    }
  }
}
