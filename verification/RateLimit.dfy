/**
 The fixed-window rate limiter: one counter per client and window, incremented and given a
 fresh lifetime of one window plus one second by a single transaction per request.
 */
module RateLimit {
  import opened Domain

  datatype Limits = Limits(requests: nat, window: nat, failOpen: bool)

  /** Requests and window are at least one in every accepted configuration. */
  ghost predicate ValidLimits(limits: Limits) { 1 <= limits.requests && 1 <= limits.window }

  /** Whether the transaction is executed, and whether its reply arrives. */
  datatype Redis = Up | Down | ReplyLost

  /** The client reads its clock at readAt; the counter's transaction runs at execAt. */
  datatype Request = Request(client: nat, readAt: real, execAt: real, redis: Redis)

  type Key = (nat, int)

  datatype Counter = Counter(count: nat, expires: real)

  datatype Decision = Admitted(remaining: nat) | TooMany | Bypassed | Unavailable

  function WindowOf(limits: Limits, readAt: real): int
    requires ValidLimits(limits)
  {
    readAt.Floor / limits.window
  }

  function KeyOf(limits: Limits, r: Request): Key
    requires ValidLimits(limits)
  {
    (r.client, WindowOf(limits, r.readAt))
  }

  /** INCR then EXPIRE: an expired counter is gone. */
  function Increment(limits: Limits, store: map<Key, Counter>, key: Key, now: real): Counter {
    var count := if key in store && now < store[key].expires then store[key].count + 1 else 1;
    Counter(count, now + limits.window as real + 1.0)
  }

  function Fallback(limits: Limits): Decision { if limits.failOpen then Bypassed else Unavailable }

  /** The store after a request, and the limiter's decision. */
  function Serve(limits: Limits, store: map<Key, Counter>, r: Request): (map<Key, Counter>, Decision)
    requires ValidLimits(limits)
  {
    if r.redis == Down then (store, Fallback(limits))
    else
      var counter := Increment(limits, store, KeyOf(limits, r), r.execAt);
      var store' := store[KeyOf(limits, r) := counter];
      if r.redis == ReplyLost then (store', Fallback(limits))
      else if counter.count > limits.requests then (store', TooMany)
      else (store', Admitted(limits.requests - counter.count))
  }

  // ---------- the limiter in the form of the source ----------

  class RedisStore {
    var counters: map<Key, Counter>

    constructor ()
      ensures counters == map[]
    {
      counters := map[];
    }

    method IncrementAndExpire(key: Key, window: nat, now: real) returns (count: nat)
      modifies this
      ensures key in counters && counters == old(counters)[key := counters[key]]
      ensures counters[key] == Counter(count, now + window as real + 1.0)
      ensures count == if key in old(counters) && now < old(counters)[key].expires then old(counters)[key].count + 1 else 1
    {
      if key in counters && now < counters[key].expires {
        count := counters[key].count + 1;
      } else {
        count := 1;
      }
      counters := counters[key := Counter(count, now + window as real + 1.0)];
    }
  }

  class Limiter {
    const limits: Limits
    const redis: RedisStore

    constructor (limits: Limits, redis: RedisStore)
      ensures this.limits == limits && this.redis == redis
    {
      this.limits, this.redis := limits, redis;
    }

    method Dispatch(r: Request) returns (decision: Decision)
      requires ValidLimits(limits)
      modifies redis
      ensures (redis.counters, decision) == Serve(limits, old(redis.counters), r)
      ensures r.redis != Up ==> decision == if limits.failOpen then Bypassed else Unavailable
      ensures r.redis == Up ==> decision.Admitted? || decision.TooMany?
      ensures r.redis == Down ==> redis.counters == old(redis.counters)
    {
      if r.redis == Down {
        return Fallback(limits);
      }
      var windowId := r.readAt.Floor / limits.window;
      var count := redis.IncrementAndExpire((r.client, windowId), limits.window, r.execAt);
      if r.redis == ReplyLost {
        return Fallback(limits);
      }
      if count > limits.requests {
        return TooMany;
      }
      return Admitted(limits.requests - count);
    }
  }

  // ---------- runs ----------

  /** The store and the decisions after a whole trace of requests. */
  function Run(limits: Limits, trace: seq<Request>): (r: (map<Key, Counter>, seq<Decision>))
    requires ValidLimits(limits)
    ensures |r.1| == |trace|
  {
    if trace == [] then (map[], [])
    else
      var (store, decisions) := Run(limits, trace[..|trace| - 1]);
      var (store', decision) := Serve(limits, store, trace[|trace| - 1]);
      (store', decisions + [decision])
  }

  /** Transactions run in order, each at most the given delay after its request read the clock. */
  ghost predicate Within(trace: seq<Request>, delay: real) {
    && (forall i :: 0 <= i < |trace| ==> trace[i].readAt <= trace[i].execAt <= trace[i].readAt + delay)
    && (forall i, j :: 0 <= i < j < |trace| ==> trace[i].execAt <= trace[j].execAt)
  }

  ghost predicate Timely(trace: seq<Request>) { Within(trace, 1.0) }

  /** How many transactions were executed for a client and window. */
  ghost function Executed(limits: Limits, trace: seq<Request>, key: Key): nat
    requires ValidLimits(limits)
  {
    if trace == [] then 0
    else
      var last := trace[|trace| - 1];
      Executed(limits, trace[..|trace| - 1], key) + if last.redis != Down && KeyOf(limits, last) == key then 1 else 0
  }

  /** How many requests of a client and window were admitted by the counter. */
  ghost function AdmittedIn(limits: Limits, trace: seq<Request>, key: Key): nat
    requires ValidLimits(limits)
  {
    if trace == [] then 0
    else
      AdmittedIn(limits, trace[..|trace| - 1], key)
      + if Run(limits, trace).1[|trace| - 1].Admitted? && KeyOf(limits, trace[|trace| - 1]) == key then 1 else 0
  }

  /** The counter of a window is the exact count, and outlives every request that can still belong to the window. */
  ghost predicate CounterExact(limits: Limits, trace: seq<Request>, key: Key)
    requires ValidLimits(limits)
  {
    var store, n := Run(limits, trace).0, Executed(limits, trace, key);
    if n == 0 then key !in store
    else key in store && store[key].count == n && ((key.1 + 1) * limits.window) as real + 1.0 <= store[key].expires
  }

  lemma WindowBounds(limits: Limits, readAt: real)
    requires ValidLimits(limits)
    ensures var w := WindowOf(limits, readAt);
            (w * limits.window) as real <= readAt < ((w + 1) * limits.window) as real
  {
    var w, n := WindowOf(limits, readAt), limits.window;
    assert readAt.Floor == w * n + readAt.Floor % n;
    assert (w + 1) * n == w * n + n;
    assert readAt.Floor + 1 <= (w + 1) * n;
  }

  /** No counter is lost while requests of its window can still arrive. */
  lemma {:induction false} CountersAreExact(limits: Limits, trace: seq<Request>, key: Key)
    requires ValidLimits(limits) && Timely(trace)
    ensures CounterExact(limits, trace, key)
  {
    if trace == [] {
    } else {
      var front, last := trace[..|trace| - 1], trace[|trace| - 1];
      assert Timely(front);
      CountersAreExact(limits, front, key);
      if last.redis != Down && KeyOf(limits, last) == key {
        assert last.readAt <= last.execAt <= last.readAt + 1.0;
        NextCountIsExact(limits, front, last, key);
      }
    }
  }

  /** The counter is still alive when the next transaction of its window runs. */
  lemma NextCountIsExact(limits: Limits, front: seq<Request>, last: Request, key: Key)
    requires ValidLimits(limits) && CounterExact(limits, front, key) && KeyOf(limits, last) == key
    requires last.readAt <= last.execAt <= last.readAt + 1.0
    ensures var counter := Increment(limits, Run(limits, front).0, key, last.execAt);
            && counter.count == Executed(limits, front, key) + 1
            && ((key.1 + 1) * limits.window) as real + 1.0 <= counter.expires
  {
    WindowBounds(limits, last.readAt);
    assert (key.1 + 1) * limits.window == key.1 * limits.window + limits.window;
  }

  /** A request whose transaction is answered is admitted exactly when it is among the first N of its client and window. */
  lemma FirstRequestsAreAdmitted(limits: Limits, trace: seq<Request>)
    requires ValidLimits(limits) && Timely(trace) && trace != [] && trace[|trace| - 1].redis == Up
    ensures var n := Executed(limits, trace, KeyOf(limits, trace[|trace| - 1]));
            Run(limits, trace).1[|trace| - 1] ==
            if n <= limits.requests then Admitted(limits.requests - n) else TooMany
  {
    var front, last := trace[..|trace| - 1], trace[|trace| - 1];
    CountersAreExact(limits, trace, KeyOf(limits, last));
    assert Run(limits, trace).0[KeyOf(limits, last)]
        == Increment(limits, Run(limits, front).0, KeyOf(limits, last), last.execAt);
  }

  /** Per client and window the counter admits at most N requests, and exactly the first N when no reply is lost. */
  lemma {:induction false} AdmittedPerWindow(limits: Limits, trace: seq<Request>, key: Key)
    requires ValidLimits(limits) && Timely(trace)
    ensures AdmittedIn(limits, trace, key) <= Min(limits.requests, Executed(limits, trace, key))
    ensures (forall i :: 0 <= i < |trace| ==> trace[i].redis != ReplyLost) ==>
              AdmittedIn(limits, trace, key) == Min(limits.requests, Executed(limits, trace, key))
  {
    if trace == [] {
    } else {
      AdmittedPerWindow(limits, trace[..|trace| - 1], key);
      if trace[|trace| - 1].redis == Up {
        FirstRequestsAreAdmitted(limits, trace);
      }
    }
  }

  /** The requests of a client admitted by the counter that read their clock in [from, from + window). */
  ghost function AdmittedSince(limits: Limits, trace: seq<Request>, client: nat, from: real): nat
    requires ValidLimits(limits)
  {
    if trace == [] then 0
    else
      var last := trace[|trace| - 1];
      AdmittedSince(limits, trace[..|trace| - 1], client, from)
      + if && Run(limits, trace).1[|trace| - 1].Admitted? && last.client == client
           && from <= last.readAt < from + limits.window as real then 1 else 0
  }

  lemma IntervalMeetsTwoWindows(limits: Limits, from: real, readAt: real)
    requires ValidLimits(limits) && from <= readAt < from + limits.window as real
    ensures WindowOf(limits, readAt) == WindowOf(limits, from) || WindowOf(limits, readAt) == WindowOf(limits, from) + 1
  {
    var n, a, b := limits.window, from.Floor, readAt.Floor;
    assert a <= b <= a + n;
    var w := a / n;
    assert a == w * n + a % n;
    assert (w + 2) * n == w * n + n + n;
    DivisionBetween(b, n, w);
  }

  lemma DivisionBetween(b: int, n: int, w: int)
    requires 1 <= n && w * n <= b < (w + 2) * n
    ensures b / n == w || b / n == w + 1
  {
    var q := b / n;
    assert b == q * n + b % n;
    assert (q + 1) * n == q * n + n;
    Cancel(w, q + 1, n);
    Cancel(q, w + 2, n);
  }

  lemma Cancel(a: int, b: int, n: int)
    requires 1 <= n && a * n < b * n
    ensures a < b
  {
    if b <= a {
      Scale(b, a, n);
    }
  }

  lemma Scale(a: int, b: int, n: int)
    requires a <= b && 0 <= n
    ensures a * n <= b * n
  {
    assert (b - a) * n == b * n - a * n;
  }

  lemma {:induction false} SinceSplits(limits: Limits, trace: seq<Request>, client: nat, from: real)
    requires ValidLimits(limits)
    ensures AdmittedSince(limits, trace, client, from)
         <= AdmittedIn(limits, trace, (client, WindowOf(limits, from)))
            + AdmittedIn(limits, trace, (client, WindowOf(limits, from) + 1))
  {
    if trace == [] {
    } else {
      var last := trace[|trace| - 1];
      SinceSplits(limits, trace[..|trace| - 1], client, from);
      if from <= last.readAt < from + limits.window as real {
        IntervalMeetsTwoWindows(limits, from, last.readAt);
      }
    }
  }

  /** In any interval of one window's length the counter admits at most 2N requests of a client. */
  lemma AtMostTwiceTheLimit(limits: Limits, trace: seq<Request>, client: nat, from: real)
    requires ValidLimits(limits) && Timely(trace)
    ensures AdmittedSince(limits, trace, client, from) <= 2 * limits.requests
  {
    var w := WindowOf(limits, from);
    SinceSplits(limits, trace, client, from);
    AdmittedPerWindow(limits, trace, (client, w));
    AdmittedPerWindow(limits, trace, (client, w + 1));
  }

  /** Two requests of one window, the second late by more than one second but by less than the excess more. */
  function LateRequests(window: nat, excess: real): seq<Request> {
    var end, late := window as real, if excess < 1.0 then excess / 2.0 else 0.5;
    [Request(0, 0.0, 0.0, Up), Request(0, end - late, end + 1.0 + late, Up)]
  }

  /** With any longer delay the counter of a window can be lost and its limit exceeded. */
  lemma LateRequestsExceed(window: nat, excess: real)
    requires 1 <= window && 0.0 < excess
    ensures Within(LateRequests(window, excess), 1.0 + excess)
    ensures AdmittedIn(Limits(1, window, true), LateRequests(window, excess), (0, 0)) == 2
  {
    var limits, trace := Limits(1, window, true), LateRequests(window, excess);
    var first := [trace[0]];
    assert trace[1].readAt.Floor == window - 1;
    assert WindowOf(limits, trace[0].readAt) == 0;
    assert WindowOf(limits, trace[1].readAt) == 0;
    assert trace[..1] == first && first[..0] == [];
    assert Run(limits, []) == (map[], []);
    assert Run(limits, first).1 == [Admitted(0)];
    assert Run(limits, first) == (map[(0, 0) := Counter(1, window as real + 1.0)], [Admitted(0)]);
    assert Run(limits, trace).1[1] == Admitted(0);
    assert AdmittedIn(limits, first, (0, 0)) == 1;
  }

  /** The counter never admits more than its limit per window, when transactions are delayed by so much. */
  ghost predicate LimitHolds(delay: real) {
    forall limits: Limits, trace: seq<Request>, key: Key ::
      ValidLimits(limits) && Within(trace, delay) ==> AdmittedIn(limits, trace, key) <= limits.requests
  }

  /** The second that a counter outlives its window is exactly the delay that the limit tolerates. */
  lemma LimitHoldsIff(delay: real)
    ensures LimitHolds(delay) <==> delay <= 1.0
  {
    if delay <= 1.0 {
      forall limits: Limits, trace: seq<Request>, key: Key | ValidLimits(limits) && Within(trace, delay)
        ensures AdmittedIn(limits, trace, key) <= limits.requests
      {
        AdmittedPerWindow(limits, trace, key);
      }
    } else {
      LateRequestsExceed(1, delay - 1.0);
    }
  }

  // ---------- requests that pass ----------

  /** The request reaches the application: admitted by the counter, or let through without one. */
  predicate Passes(d: Decision) { d.Admitted? || d.Bypassed? }

  ghost function PassedIn(limits: Limits, trace: seq<Request>, key: Key): nat
    requires ValidLimits(limits)
  {
    if trace == [] then 0
    else
      PassedIn(limits, trace[..|trace| - 1], key)
      + if Passes(Run(limits, trace).1[|trace| - 1]) && KeyOf(limits, trace[|trace| - 1]) == key then 1 else 0
  }

  ghost function PassedSince(limits: Limits, trace: seq<Request>, client: nat, from: real): nat
    requires ValidLimits(limits)
  {
    if trace == [] then 0
    else
      var last := trace[|trace| - 1];
      PassedSince(limits, trace[..|trace| - 1], client, from)
      + if && Passes(Run(limits, trace).1[|trace| - 1]) && last.client == client
           && from <= last.readAt < from + limits.window as real then 1 else 0
  }

  /** Nothing is let through without a counter: the limiter fails closed, or Redis answers every time. */
  ghost predicate NothingBypasses(limits: Limits, trace: seq<Request>) {
    limits.failOpen ==> forall i :: 0 <= i < |trace| ==> trace[i].redis == Up
  }

  lemma {:induction false} PassedAreAdmitted(limits: Limits, trace: seq<Request>, key: Key, client: nat, from: real)
    requires ValidLimits(limits) && NothingBypasses(limits, trace)
    ensures PassedIn(limits, trace, key) == AdmittedIn(limits, trace, key)
    ensures PassedSince(limits, trace, client, from) == AdmittedSince(limits, trace, client, from)
  {
    if trace == [] {
    } else {
      PassedAreAdmitted(limits, trace[..|trace| - 1], key, client, from);
      assert trace[|trace| - 1].redis == Up || !limits.failOpen;
    }
  }

  /** Then the bounds on admissions bound everything that passes. */
  lemma PassedWithinLimits(limits: Limits, trace: seq<Request>, key: Key, client: nat, from: real)
    requires ValidLimits(limits) && Timely(trace) && NothingBypasses(limits, trace)
    ensures PassedIn(limits, trace, key) <= limits.requests
    ensures PassedSince(limits, trace, client, from) <= 2 * limits.requests
  {
    PassedAreAdmitted(limits, trace, key, client, from);
    AdmittedPerWindow(limits, trace, key);
    AtMostTwiceTheLimit(limits, trace, client, from);
  }

  /** Requests of one client at one moment, while Redis is down. */
  function Outage(n: nat): seq<Request> { seq(n, _ => Request(0, 0.0, 0.0, Down)) }

  lemma {:induction false} OutagePasses(limits: Limits, n: nat)
    requires ValidLimits(limits) && limits.failOpen
    ensures PassedIn(limits, Outage(n), (0, 0)) == n
  {
    if n == 0 {
    } else {
      OutagePasses(limits, n - 1);
      assert Outage(n)[..n - 1] == Outage(n - 1);
      assert WindowOf(limits, 0.0) == 0;
    }
  }

  /** Whatever fails, at most the limit passes per window. */
  ghost predicate PassLimitHolds(limits: Limits)
    requires ValidLimits(limits)
  {
    forall trace: seq<Request>, key: Key :: Timely(trace) ==> PassedIn(limits, trace, key) <= limits.requests
  }

  /** The limit on what passes holds in all runs if and only if the limiter fails closed. */
  lemma PassLimitHoldsIff(limits: Limits)
    requires ValidLimits(limits)
    ensures PassLimitHolds(limits) <==> !limits.failOpen
  {
    if limits.failOpen {
      OutagePasses(limits, limits.requests + 1);
      assert Timely(Outage(limits.requests + 1));
    } else {
      forall trace: seq<Request>, key: Key | Timely(trace)
        ensures PassedIn(limits, trace, key) <= limits.requests
      {
        PassedWithinLimits(limits, trace, key, 0, 0.0);
      }
    }
  }
}
