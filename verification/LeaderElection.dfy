/**
 Leader election over a PostgreSQL advisory lock (internal/platform/postgres/advisory_lock.go and
 internal/apps/worker/elected_scheduler.go), for one lock id and any number of instances.

 A session that fails a lock or unlock statement is dead, so the server frees whatever it held.
 */
module LeaderElection {
  import opened Collections

  type Session = nat

  /** The client side of a lock: the dedicated connection, and pool traffic so far. */
  datatype Lock = Lock(conn: Option<Session>, acquires: nat, releases: nat)

  datatype TryEnv = AcquireFails | QueryFails | QueryOk(session: Session)

  datatype TryOutcome = Leader | NotLeader | Busy | TryError

  datatype UnlockOutcome = Unlocked | NotHeld | UnlockError

  function TryLockSpec(l: Lock, holder: Option<Session>, env: TryEnv): (Lock, Option<Session>, TryOutcome) {
    if l.conn.Some? then (l, holder, Busy)
    else match env
      case AcquireFails => (l, holder, TryError)
      case QueryFails => (l.(acquires := l.acquires + 1, releases := l.releases + 1), holder, TryError)
      case QueryOk(session) =>
        if holder.None? then (l.(conn := Some(session), acquires := l.acquires + 1), Some(session), Leader)
        else (l.(acquires := l.acquires + 1, releases := l.releases + 1), holder, NotLeader)
  }

  function UnlockSpec(l: Lock, holder: Option<Session>, ok: bool): (Lock, Option<Session>, UnlockOutcome) {
    if l.conn.None? then (l, holder, NotHeld)
    else (Lock(None, l.acquires, l.releases + 1), if holder == l.conn then None else holder,
          if ok then Unlocked else UnlockError)
  }

  /** Every pool acquire is matched by a release, except for the connection being held. */
  predicate Balanced(l: Lock) { l.acquires == l.releases + (if l.conn.Some? then 1 else 0) }

  lemma CallsStayBalanced(l: Lock, holder: Option<Session>, env: TryEnv, ok: bool)
    requires Balanced(l)
    ensures Balanced(TryLockSpec(l, holder, env).0) && Balanced(UnlockSpec(l, holder, ok).0)
    ensures TryLockSpec(l, holder, env).2.Leader? <==> l.conn.None? && env.QueryOk? && holder.None?
    ensures UnlockSpec(l, holder, ok).0.conn == None
  {}

  // ---- the objects ----

  /** Server-side state of the advisory lock. */
  class Server {
    var holder: Option<Session>

    constructor ()
      ensures holder == None
    {
      holder := None;
    }
  }

  class AdvisoryLock {
    const server: Server
    var conn: Option<Session>
    var acquires: nat
    var releases: nat

    function Value(): Lock
      reads this
    {
      Lock(conn, acquires, releases)
    }

    constructor (server: Server)
      ensures this.server == server && Value() == Lock(None, 0, 0)
    {
      this.server := server;
      conn, acquires, releases := None, 0, 0;
    }

    method TryLock(env: TryEnv) returns (r: TryOutcome)
      modifies this, server
      ensures (Value(), server.holder, r) == TryLockSpec(old(Value()), old(server.holder), env)
    {
      if conn.Some? {
        return Busy;
      }
      if env.AcquireFails? {
        return TryError;
      }
      acquires := acquires + 1;
      if env.QueryFails? {
        releases := releases + 1;
        return TryError;
      }
      if server.holder.Some? {
        releases := releases + 1;
        return NotLeader;
      }
      server.holder := Some(env.session);
      conn := Some(env.session);
      return Leader;
    }

    method Unlock(ok: bool) returns (r: UnlockOutcome)
      modifies this, server
      ensures (Value(), server.holder, r) == UnlockSpec(old(Value()), old(server.holder), ok)
    {
      if conn.None? {
        return NotHeld;
      }
      // On success the statement frees the lock; on failure the session dies and the server does.
      if server.holder == conn {
        server.holder := None;
      }
      releases := releases + 1;
      conn := None;
      return if ok then Unlocked else UnlockError;
    }

    /** One elected poll cycle. A lock already held refuses it and nothing changes; otherwise client and
        server are left as they were found, and the inner poll runs exactly when this instance was elected. */
    method Poll(env: TryEnv, unlockOk: bool) returns (ran: bool)
      requires Balanced(Value())
      modifies this, server
      ensures Balanced(Value()) && conn == old(conn) && server.holder == old(server.holder)
      ensures old(conn).Some? ==> !ran && Value() == old(Value())
      ensures old(conn).None? ==> (ran <==> env.QueryOk? && old(server.holder).None?)
    {
      var r := TryLock(env);
      if !r.Leader? {
        return false;
      }
      ran := true;
      var _ := Unlock(unlockOk);
    }
  }

  // ---- any number of instances ----

  datatype Phase = Out | Inside | Leaving

  datatype Instance = Instance(lock: Lock, phase: Phase)

  /** `losses` counts sessions that dropped while holding the lock. */
  datatype World = World(holder: Option<Session>, instances: seq<Instance>, losses: nat)

  datatype Action = Try(i: nat, env: TryEnv) | InnerDone(i: nat) | Leave(i: nat, ok: bool) | SessionLoss(i: nat)

  function Init(n: nat): World { World(None, seq(n, _ => Instance(Lock(None, 0, 0), Out)), 0) }

  predicate Enabled(w: World, a: Action) {
    a.i < |w.instances| &&
    var x := w.instances[a.i];
    match a
    case Try(_, env) =>
      // The pool never hands out a connection that is in use.
      x.phase.Out? &&
      (env.QueryOk? ==> forall j :: 0 <= j < |w.instances| ==> w.instances[j].lock.conn != Some(env.session))
    case InnerDone(_) => x.phase.Inside?
    case Leave(_, _) => x.phase.Leaving?
    case SessionLoss(_) => x.lock.conn.Some? && w.holder == x.lock.conn
  }

  function Apply(w: World, a: Action): World
    requires Enabled(w, a)
  {
    var x := w.instances[a.i];
    match a
    case Try(i, env) =>
      var (l, h, r) := TryLockSpec(x.lock, w.holder, env);
      w.(holder := h, instances := w.instances[i := Instance(l, if r.Leader? then Inside else Out)])
    case InnerDone(i) => w.(instances := w.instances[i := x.(phase := Leaving)])
    case Leave(i, ok) =>
      var (l, h, r) := UnlockSpec(x.lock, w.holder, ok);
      w.(holder := h, instances := w.instances[i := Instance(l, Out)])
    case SessionLoss(i) => w.(holder := None, losses := w.losses + 1)
  }

  function Run(n: nat, acts: seq<Action>): Option<World> {
    if acts == [] then Some(Init(n))
    else
      var prev := Run(n, acts[..|acts| - 1]);
      var a := acts[|acts| - 1];
      if prev.Some? && Enabled(prev.value, a) then Some(Apply(prev.value, a)) else None
  }

  function Holding(x: Instance): nat { if x.lock.conn.Some? then 1 else 0 }

  ghost predicate InstanceOk(w: World, x: Instance) {
    && Balanced(x.lock)
    && (x.lock.conn.Some? <==> !x.phase.Out?)
    && (w.losses == 0 && x.lock.conn.Some? ==> w.holder == x.lock.conn)
  }

  ghost predicate Inv(w: World) {
    && (forall i :: 0 <= i < |w.instances| ==> InstanceOk(w, w.instances[i]))
    && (forall i, j :: 0 <= i < j < |w.instances| && w.instances[i].lock.conn.Some? ==>
          w.instances[i].lock.conn != w.instances[j].lock.conn)
    && (w.holder.Some? ==> exists i :: 0 <= i < |w.instances| && w.instances[i].lock.conn == w.holder)
    && Total(Holding, w.instances) <= w.losses + (if w.holder.Some? then 1 else 0)
  }

  lemma StepInstances(w: World, a: Action)
    requires Inv(w) && Enabled(w, a)
    ensures var v := Apply(w, a); forall j :: 0 <= j < |v.instances| ==> InstanceOk(v, v.instances[j])
  {
    var v := Apply(w, a);
    assert InstanceOk(w, w.instances[a.i]);
    forall j | 0 <= j < |v.instances| ensures InstanceOk(v, v.instances[j]) {
      assert InstanceOk(w, w.instances[j]);
    }
  }

  lemma StepHolding(w: World, a: Action)
    requires Inv(w) && Enabled(w, a)
    ensures var v := Apply(w, a); Total(Holding, v.instances) <= v.losses + (if v.holder.Some? then 1 else 0)
  {
    assert InstanceOk(w, w.instances[a.i]);
    TotalUpdate(Holding, w.instances, a.i, Apply(w, a).instances[a.i]);
    TotalAtLeast(Holding, w.instances, a.i);
  }

  lemma StepHolder(w: World, a: Action)
    requires Inv(w) && Enabled(w, a)
    ensures var v := Apply(w, a); v.holder.Some? ==> exists k :: 0 <= k < |v.instances| && v.instances[k].lock.conn == v.holder
  {
    var v := Apply(w, a);
    assert InstanceOk(w, w.instances[a.i]);
    if v.holder.Some? && v.instances[a.i].lock.conn != v.holder {
      var k :| 0 <= k < |w.instances| && w.instances[k].lock.conn == w.holder;
      assert v.instances[k].lock.conn == v.holder;
    }
  }

  lemma Step(w: World, a: Action)
    requires Inv(w) && Enabled(w, a)
    ensures Inv(Apply(w, a))
  {
    var v := Apply(w, a);
    StepInstances(w, a);
    StepHolding(w, a);
    StepHolder(w, a);
  }

  lemma {:induction false} RunInv(n: nat, acts: seq<Action>, w: World)
    requires Run(n, acts) == Some(w)
    ensures Inv(w)
    decreases |acts|
  {
    if acts == [] {
      TotalUniform(Holding, w.instances, 0);
    } else {
      var k := |acts| - 1;
      var prev := Run(n, acts[..k]).value;
      RunInv(n, acts[..k], prev);
      Step(prev, acts[k]);
    }
  }

  /** Leader election, with the damage of lost sessions stated: the instances that believe they lead
      number at most one more than the sessions lost, so absent loss at most one is inside; then a
      client holds a connection exactly when that session holds the server's lock. On every path,
      acquires and releases balance. */
  lemma Election(n: nat, acts: seq<Action>, w: World)
    requires Run(n, acts) == Some(w)
    ensures Total(Holding, w.instances) <= 1 + w.losses
    ensures w.losses == 0 ==> forall i, j ::
              0 <= i < |w.instances| && 0 <= j < |w.instances| && !w.instances[i].phase.Out? && !w.instances[j].phase.Out? ==> i == j
    ensures w.losses == 0 ==> forall i :: 0 <= i < |w.instances| && w.instances[i].lock.conn.Some? ==>
              w.holder == w.instances[i].lock.conn
    ensures w.holder.Some? ==> exists i :: 0 <= i < |w.instances| && w.instances[i].lock.conn == w.holder
    ensures forall i :: 0 <= i < |w.instances| ==> Balanced(w.instances[i].lock)
  {
    RunInv(n, acts, w);
    if w.losses == 0 {
      forall i, j | 0 <= i < |w.instances| && 0 <= j < |w.instances|
                    && !w.instances[i].phase.Out? && !w.instances[j].phase.Out?
        ensures i == j
      {
        assert InstanceOk(w, w.instances[i]) && InstanceOk(w, w.instances[j]);
      }
    }
    forall i | 0 <= i < |w.instances| ensures InstanceOk(w, w.instances[i]) {}
  }

  lemma Extend(n: nat, acts: seq<Action>, w: World, a: Action)
    requires Run(n, acts) == Some(w) && Enabled(w, a)
    ensures Run(n, acts + [a]) == Some(Apply(w, a))
  {
    assert (acts + [a])[..|acts|] == acts;
  }

  function Polling(i: nat): Instance { Instance(Lock(Some(i), 1, 0), Inside) }

  /** The first k instances were elected one after the other, each as its predecessor lost its session. */
  function Succession(n: nat, k: nat): seq<Instance> {
    seq(n, i requires 0 <= i < n => if i < k then Polling(i) else Instance(Lock(None, 0, 0), Out))
  }

  lemma Elect(n: nat, k: nat, acts: seq<Action>) returns (acts': seq<Action>)
    requires k < n && Run(n, acts) == Some(World(None, Succession(n, k), k))
    ensures Run(n, acts') == Some(World(Some(k), Succession(n, k + 1), k))
  {
    var w := World(None, Succession(n, k), k);
    Extend(n, acts, w, Try(k, QueryOk(k)));
    acts' := acts + [Try(k, QueryOk(k))];
    assert Apply(w, Try(k, QueryOk(k))).instances == Succession(n, k + 1);
  }

  lemma {:induction false} Succeed(n: nat, k: nat) returns (acts: seq<Action>)
    requires k <= n
    ensures Run(n, acts) == Some(World(None, Succession(n, k), k))
    decreases k
  {
    if k == 0 {
      acts := [];
      assert Init(n).instances == Succession(n, 0);
    } else {
      acts := Succeed(n, k - 1);
      acts := Elect(n, k - 1, acts);
      Extend(n, acts, World(Some(k - 1), Succession(n, k), k - 1), SessionLoss(k - 1));
      acts := acts + [SessionLoss(k - 1)];
    }
  }

  /** The bound is attained for any number of losses and enough instances: every former leader still polls on
      a connection that died. One lost session makes two leaders. */
  lemma LeadersAttained(n: nat, losses: nat) returns (acts: seq<Action>, w: World)
    requires n > losses
    ensures Run(n, acts) == Some(w) && w.losses == losses && |w.instances| == n
    ensures forall i :: 0 <= i <= losses ==> w.instances[i].phase.Inside?
  {
    acts := Succeed(n, losses);
    acts := Elect(n, losses, acts);
    w := World(Some(losses), Succession(n, losses + 1), losses);
  }
}
