/** The fixed-window rate limiter (internal/platform/ratelimit/ratelimit.go), over whole runs of requests. */
module RateLimit {
  import opened Collections

  const SECOND := 1_000_000_000

  /** The stored counter: INCR creates it at 1, and EXPIRE fixes its end, by the ttl of the call that created it. */
  datatype Counter = Counter(count: nat, start: nat, expires: nat)

  /** A key is visible until its expiry. */
  predicate Live(k: Option<Counter>, now: nat) { k.Some? && now < k.value.expires }

  /** The script: increment, and set the expiry when the increment created the key. */
  function Increment(ttl: nat, k: Option<Counter>, now: nat): Counter {
    if Live(k, now) then k.value.(count := k.value.count + 1) else Counter(1, now, now + ttl)
  }

  /** The window in whole seconds, at least one. */
  function TtlOf(window: int): nat {
    if window < SECOND then SECOND else window / SECOND * SECOND
  }

  /** How the script call ends: with the count, or with an error, possibly after it took effect. */
  datatype Reply = Reached | EvalError(effect: bool)

  class RedisService {
    var key: Option<Counter>

    constructor ()
      ensures key == None
    {
      key := None;
    }

    method Eval(ttl: nat, now: nat, reply: Reply) returns (count: Option<nat>)
      modifies this
      ensures key == if reply.Reached? || reply.effect then Some(Increment(ttl, old(key), now)) else old(key)
      ensures count == if reply.Reached? then Some(Increment(ttl, old(key), now).count) else None
    {
      if reply.EvalError? && !reply.effect {
        return None;
      }
      if key.Some? && now < key.value.expires {
        key := Some(Counter(key.value.count + 1, key.value.start, key.value.expires));
      } else {
        key := Some(Counter(1, now, now + ttl));
      }
      count := if reply.Reached? then Some(key.value.count) else None;
    }

    /** A non-positive limit allows without touching the counter; otherwise the incremented count decides. No
        decision is made when the call fails. */
    method Allow(limit: int, window: int, now: nat, reply: Reply) returns (ok: Option<bool>)
      modifies this
      ensures limit <= 0 ==> ok == Some(true) && key == old(key)
      ensures limit > 0 && reply.Reached? ==>
                key == Some(Increment(TtlOf(window), old(key), now)) && ok == Some(key.value.count <= limit)
      ensures limit > 0 && reply.EvalError? ==>
                ok == None && key == if reply.effect then Some(Increment(TtlOf(window), old(key), now)) else old(key)
    {
      if limit <= 0 {
        return Some(true);
      }
      var seconds := if window >= 0 then window / SECOND else 0;
      if seconds <= 0 {
        seconds := 1;
      }
      var count := Eval(seconds * SECOND, now, reply);
      if count.None? {
        return None;
      }
      ok := Some(count.value <= limit);
    }
  }

  // ---- runs ----

  /** A request that reached the counter: when, with what ttl, and whether its reply was lost on the way back. */
  datatype Request = Request(time: nat, ttl: nat, lost: bool)

  /** One counted request: when it came, in which lifetime it was counted, whether the count was within the
      limit, and whether the caller was told. */
  datatype Decision = Decision(time: nat, start: nat, within: bool, lost: bool) {
    predicate Allowed() { within && !lost }
  }

  datatype Trace = Trace(key: Option<Counter>, log: seq<Decision>)

  /** Decide one request on the state of the run. */
  function Next(limit: nat, t: Trace, q: Request): Trace {
    var k := Increment(q.ttl, t.key, q.time);
    Trace(Some(k), t.log + [Decision(q.time, k.start, k.count <= limit, q.lost)])
  }

  /** The decisions on a sequence of requests, from a fresh key. */
  function Decide(limit: nat, qs: seq<Request>): Trace {
    if qs == [] then Trace(None, []) else Next(limit, Decide(limit, qs[..|qs| - 1]), qs[|qs| - 1])
  }

  /** In time order, each with a ttl of at least w. */
  predicate Ordered(qs: seq<Request>, w: nat) {
    && (forall i, j :: 0 <= i < j < |qs| ==> qs[i].time <= qs[j].time)
    && (forall i :: 0 <= i < |qs| ==> qs[i].ttl >= w)
  }

  lemma OrderedPrefix(qs: seq<Request>, w: nat)
    requires Ordered(qs, w) && qs != []
    ensures var n := |qs| - 1; Ordered(qs[..n], w) && (n > 0 ==> qs[..n][n - 1].time == qs[n - 1].time <= qs[n].time)
  {}

  /** Requests counted in the lifetime that began at start, and those of them within the limit, lost, allowed. */
  function Requests(log: seq<Decision>, start: nat): nat {
    if log == [] then 0 else Requests(log[..|log| - 1], start) + (if log[|log| - 1].start == start then 1 else 0)
  }

  function Lost(log: seq<Decision>, start: nat): nat {
    if log == [] then 0
    else
      var d := log[|log| - 1];
      Lost(log[..|log| - 1], start) + (if d.start == start && d.within && d.lost then 1 else 0)
  }

  function Allowed(log: seq<Decision>, start: nat): nat {
    if log == [] then 0
    else
      var d := log[|log| - 1];
      Allowed(log[..|log| - 1], start) + (if d.start == start && d.Allowed() then 1 else 0)
  }

  /** Requests allowed in [a, a + w). */
  function Granted(log: seq<Decision>, a: nat, w: nat): nat {
    if log == [] then 0
    else
      var d := log[|log| - 1];
      Granted(log[..|log| - 1], a, w) + (if a <= d.time < a + w && d.Allowed() then 1 else 0)
  }

  function Min(a: nat, b: nat): nat { if a < b then a else b }

  lemma LogAppend(log: seq<Decision>, d: Decision, a: nat, w: nat)
    ensures Requests(log + [d], a) == Requests(log, a) + (if d.start == a then 1 else 0)
    ensures Lost(log + [d], a) == Lost(log, a) + (if d.start == a && d.within && d.lost then 1 else 0)
    ensures Allowed(log + [d], a) == Allowed(log, a) + (if d.start == a && d.Allowed() then 1 else 0)
    ensures Granted(log + [d], a, w) == Granted(log, a, w) + (if a <= d.time < a + w && d.Allowed() then 1 else 0)
  {
    assert (log + [d])[..|log|] == log;
  }

  ghost predicate LifetimeInv(limit: nat, t: Trace, start: nat) {
    && Allowed(t.log, start) + Lost(t.log, start) == Min(Requests(t.log, start), limit)
    && match t.key
       case None => Requests(t.log, start) == 0
       case Some(k) =>
         && k.start < k.expires
         && (k.start == start ==> Requests(t.log, start) == k.count)
         && (k.start < start ==> Requests(t.log, start) == 0)
  }

  lemma LifetimeStep(limit: nat, t: Trace, start: nat, q: Request)
    requires limit > 0 && q.ttl > 0 && LifetimeInv(limit, t, start) && (t.key.Some? ==> t.key.value.start <= q.time)
    ensures LifetimeInv(limit, Next(limit, t, q), start)
  {
    var k := Increment(q.ttl, t.key, q.time);
    LogAppend(t.log, Decision(q.time, k.start, k.count <= limit, q.lost), start, 1);
  }

  /** The current lifetime began no later than the last request. */
  lemma {:induction false} StartsBefore(limit: nat, qs: seq<Request>)
    requires qs != [] && Ordered(qs, 1)
    ensures var k := Decide(limit, qs).key; k.Some? && k.value.count > 0 && k.value.start <= qs[|qs| - 1].time
    decreases |qs|
  {
    var n := |qs| - 1;
    if n == 0 {
    } else {
      StartsBefore(limit, qs[..n]);
    }
  }

  lemma {:induction false} LifetimeRun(limit: nat, qs: seq<Request>, start: nat)
    requires limit > 0 && Ordered(qs, 1)
    ensures LifetimeInv(limit, Decide(limit, qs), start)
    decreases |qs|
  {
    if qs == [] {
    } else {
      var n := |qs| - 1;
      LifetimeRun(limit, qs[..n], start);
      if n > 0 {
        StartsBefore(limit, qs[..n]);
      }
      LifetimeStep(limit, Decide(limit, qs[..n]), start, qs[n]);
    }
  }

  lemma {:induction false} NoneLost(limit: nat, qs: seq<Request>, start: nat)
    requires forall i :: 0 <= i < |qs| ==> !qs[i].lost
    ensures Lost(Decide(limit, qs).log, start) == 0
    decreases |qs|
  {
    if qs == [] {
    } else {
      var n := |qs| - 1;
      var t := Decide(limit, qs[..n]);
      var k := Increment(qs[n].ttl, t.key, qs[n].time);
      NoneLost(limit, qs[..n], start);
      LogAppend(t.log, Decision(qs[n].time, k.start, k.count <= limit, qs[n].lost), start, 1);
    }
  }

  /** Each lifetime, whatever the ttl of each request, allows exactly the smaller of its requests and the limit,
      less those within the limit whose reply was lost. */
  lemma LifetimeAllows(limit: nat, qs: seq<Request>, start: nat)
    requires limit > 0 && Ordered(qs, 1)
    ensures var log := Decide(limit, qs).log;
            && Allowed(log, start) + Lost(log, start) == Min(Requests(log, start), limit)
            && ((forall i :: 0 <= i < |qs| ==> !qs[i].lost) ==> Allowed(log, start) == Min(Requests(log, start), limit))
  {
    LifetimeRun(limit, qs, start);
    if forall i :: 0 <= i < |qs| ==> !qs[i].lost {
      NoneLost(limit, qs, start);
    }
  }

  /** The bound carried along a run, by where the current lifetime began relative to the window. */
  ghost predicate WindowInv(limit: nat, w: nat, a: nat, t: Trace, last: nat) {
    var g := Granted(t.log, a, w);
    && (last < a ==> g == 0)
    && match t.key
       case None => g == 0
       case Some(k) =>
         && k.start <= last && k.count > 0 && k.start + w <= k.expires
         && (k.start < a ==> g < Min(k.count, limit) || g == 0)
         && (a <= k.start < a + w ==> g <= limit - 1 + Min(k.count, limit))
         && (a + w <= k.start ==> g <= 2 * limit - 1)
  }

  lemma WindowStep(limit: nat, w: nat, a: nat, t: Trace, last: nat, q: Request)
    requires limit > 0 && 0 < w <= q.ttl && WindowInv(limit, w, a, t, last) && last <= q.time
    ensures WindowInv(limit, w, a, Next(limit, t, q), q.time)
  {
    var k := Increment(q.ttl, t.key, q.time);
    LogAppend(t.log, Decision(q.time, k.start, k.count <= limit, q.lost), a, w);
  }

  lemma {:induction false} WindowRun(limit: nat, w: nat, qs: seq<Request>, a: nat)
    requires limit > 0 && w > 0 && Ordered(qs, w)
    ensures WindowInv(limit, w, a, Decide(limit, qs), if qs == [] then 0 else qs[|qs| - 1].time)
    decreases |qs|
  {
    if qs == [] {
    } else {
      var n := |qs| - 1;
      OrderedPrefix(qs, w);
      WindowRun(limit, w, qs[..n], a);
      var last := if n == 0 then 0 else qs[n - 1].time;
      WindowStep(limit, w, a, Decide(limit, qs[..n]), last, qs[n]);
    }
  }

  /** A half-open window no longer than any ttl sees at most 2 * limit - 1 allowed requests, whatever the
      timing: if two lifetimes meet it, the first request of the earlier one lies before it. */
  lemma WindowBound(limit: nat, w: nat, qs: seq<Request>, a: nat)
    requires limit > 0 && w > 0 && Ordered(qs, w)
    ensures Granted(Decide(limit, qs).log, a, w) <= 2 * limit - 1
  {
    WindowRun(limit, w, qs, a);
  }

  // ---- the bound is attained ----

  /** n requests at the same instant. */
  function Repeat(q: Request, n: nat): (s: seq<Request>)
    ensures |s| == n && forall i :: 0 <= i < n ==> s[i] == q
  {
    seq(n, _ => q)
  }

  lemma DecideAppend(limit: nat, qs: seq<Request>, q: Request)
    ensures Decide(limit, qs + [q]) == Next(limit, Decide(limit, qs), q)
  {
    assert (qs + [q])[..|qs|] == qs;
  }

  function Burst(limit: nat, t: Trace, q: Request, n: nat): Trace {
    if n == 0 then t else Next(limit, Burst(limit, t, q, n - 1), q)
  }

  lemma {:induction false} DecideBurst(limit: nat, qs: seq<Request>, q: Request, n: nat)
    ensures Decide(limit, qs + Repeat(q, n)) == Burst(limit, Decide(limit, qs), q, n)
    decreases n
  {
    if n == 0 {
      assert qs + Repeat(q, 0) == qs;
    } else {
      DecideBurst(limit, qs, q, n - 1);
      assert qs + Repeat(q, n) == qs + Repeat(q, n - 1) + [q];
      DecideAppend(limit, qs + Repeat(q, n - 1), q);
    }
  }

  lemma OneAllowed(limit: nat, t: Trace, q: Request, a: nat, w: nat)
    requires Live(t.key, q.time) && t.key.value.count + 1 <= limit && a <= q.time < a + w && !q.lost
    ensures var r := Next(limit, t, q);
            r.key == Some(t.key.value.(count := t.key.value.count + 1))
            && Granted(r.log, a, w) == Granted(t.log, a, w) + 1
  {
    LogAppend(t.log, Decision(q.time, t.key.value.start, true, false), a, w);
  }

  /** A burst on a live counter is allowed up to the limit. */
  lemma {:induction false} BurstAllowed(limit: nat, t: Trace, q: Request, n: nat, a: nat, w: nat)
    requires Live(t.key, q.time) && t.key.value.count + n <= limit && a <= q.time < a + w && !q.lost
    ensures var r := Burst(limit, t, q, n);
            r.key == Some(t.key.value.(count := t.key.value.count + n))
            && Granted(r.log, a, w) == Granted(t.log, a, w) + n
    decreases n
  {
    if n == 0 {
    } else {
      BurstAllowed(limit, t, q, n - 1, a, w);
      var b := Burst(limit, t, q, n - 1);
      assert Burst(limit, t, q, n) == Next(limit, b, q);
      assert b.key.value.expires == t.key.value.expires;
      OneAllowed(limit, b, q, a, w);
    }
  }

  lemma FirstBurst(limit: nat, ttl: nat, t: Trace)
    requires limit > 0 && ttl > 1 && t.key == Some(Counter(1, 0, ttl))
    ensures var r := Burst(limit, t, Request(ttl - 1, ttl, false), limit - 1);
            !Live(r.key, ttl) && Granted(r.log, 1, ttl) == Granted(t.log, 1, ttl) + limit - 1
  {
    BurstAllowed(limit, t, Request(ttl - 1, ttl, false), limit - 1, 1, ttl);
  }

  lemma SecondBurst(limit: nat, ttl: nat, t: Trace, q: Request)
    requires limit > 0 && ttl > 1 && !Live(t.key, q.time) && 1 <= q.time < 1 + ttl && q.ttl == ttl && !q.lost
    ensures Granted(Burst(limit, Next(limit, t, q), q, limit - 1).log, 1, ttl) == Granted(t.log, 1, ttl) + limit
  {
    LogAppend(t.log, Decision(q.time, q.time, true, false), 1, ttl);
    BurstAllowed(limit, Next(limit, t, q), q, limit - 1, 1, ttl);
  }

  lemma TwoBursts(limit: nat, qs: seq<Request>, q: Request, n: nat, r: Request, m: nat) returns (all: seq<Request>)
    ensures all == qs + Repeat(q, n) + [r] + Repeat(r, m)
    ensures Decide(limit, all) == Burst(limit, Next(limit, Burst(limit, Decide(limit, qs), q, n), r), r, m)
  {
    all := qs + Repeat(q, n) + [r] + Repeat(r, m);
    DecideBurst(limit, qs, q, n);
    DecideAppend(limit, qs + Repeat(q, n), r);
    DecideBurst(limit, qs + Repeat(q, n) + [r], r, m);
  }

  lemma BothBursts(limit: nat, ttl: nat, t: Trace, late: Request, next: Request)
    requires limit > 0 && ttl > 1 && late == Request(ttl - 1, ttl, false) && next == Request(ttl, ttl, false)
    requires t.key == Some(Counter(1, 0, ttl)) && Granted(t.log, 1, ttl) == 0
    ensures var first := Burst(limit, t, late, limit - 1);
            Granted(Burst(limit, Next(limit, first, next), next, limit - 1).log, 1, ttl) == 2 * limit - 1
  {
    FirstBurst(limit, ttl, t);
    SecondBurst(limit, ttl, Burst(limit, t, late, limit - 1), next);
  }

  lemma FirstRequest(limit: nat, ttl: nat)
    requires limit > 0
    ensures var t := Decide(limit, [Request(0, ttl, false)]);
            t.key == Some(Counter(1, 0, ttl)) && Granted(t.log, 1, ttl) == 0
  {
    DecideAppend(limit, [], Request(0, ttl, false));
    assert [] + [Request(0, ttl, false)] == [Request(0, ttl, false)];
    LogAppend([], Decision(0, 0, true, false), 1, ttl);
  }

  lemma BurstsOrdered(a: Request, q: Request, n: nat, r: Request, m: nat, w: nat)
    requires a.time <= q.time <= r.time && a.ttl >= w && q.ttl >= w && r.ttl >= w
    ensures Ordered([a] + Repeat(q, n) + [r] + Repeat(r, m), w)
  {}

  /** One request, a burst at the end of its lifetime, and a full burst in the next: 2 * limit - 1 requests
      are allowed within two ticks. */
  lemma BoundAttained(limit: nat, ttl: nat) returns (qs: seq<Request>)
    requires limit > 0 && ttl > 1
    ensures Ordered(qs, ttl) && Granted(Decide(limit, qs).log, 1, ttl) == 2 * limit - 1
  {
    var start, late, next := Request(0, ttl, false), Request(ttl - 1, ttl, false), Request(ttl, ttl, false);
    var n := limit - 1;
    qs := TwoBursts(limit, [start], late, n, next, n);
    BurstsOrdered(start, late, n, next, n, ttl);
    var t := Decide(limit, [start]);
    FirstRequest(limit, ttl);
    BothBursts(limit, ttl, t, late, next);
    assert Decide(limit, qs) == Burst(limit, Next(limit, Burst(limit, t, late, n), next), next, n);
  }

  /** The limit per window itself is kept in every run exactly when the limit is one. */
  lemma WindowKeepsLimitIff(limit: nat, ttl: nat)
    requires limit > 0 && ttl > 1
    ensures (forall qs, a :: Ordered(qs, ttl) ==> Granted(Decide(limit, qs).log, a, ttl) <= limit) <==> limit == 1
  {
    if limit == 1 {
      forall qs, a | Ordered(qs, ttl) ensures Granted(Decide(limit, qs).log, a, ttl) <= limit {
        WindowBound(limit, ttl, qs, a);
      }
    } else {
      var qs := BoundAttained(limit, ttl);
    }
  }

  // ---- what a window means ----

  /** A window of s whole seconds and a fraction gives a lifetime of s seconds, and never less than one. */
  lemma WindowSeconds(s: nat, fraction: nat)
    requires fraction < 1_000_000_000
    ensures TtlOf(s * 1_000_000_000 + fraction) == (if s == 0 then 1 else s) * 1_000_000_000
  {
    var w := s * 1_000_000_000 + fraction;
    if s > 0 {
      assert w / SECOND == s;
    }
  }

  lemma NegativeWindow(window: int)
    requires window < 0
    ensures TtlOf(window) == 1_000_000_000
  {}

  /** The log has one decision per request, with its time and whether its reply was lost. */
  lemma {:induction false} OneDecisionEach(limit: nat, qs: seq<Request>)
    ensures var log := Decide(limit, qs).log;
            && |log| == |qs|
            && forall i :: 0 <= i < |qs| ==> log[i].time == qs[i].time && log[i].lost == qs[i].lost
    decreases |qs|
  {
    if qs == [] {
    } else {
      OneDecisionEach(limit, qs[..|qs| - 1]);
    }
  }
}
