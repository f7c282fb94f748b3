/** `RateLimiter` (async_okx_v5/utils.py:10-43, the same code as src/okx/utils.py:10-43):
    an asyncio semaphore of `concurrency` permits, a start-up budget `_count` of
    `concurrency` free acquisitions, and a deque `_inquiries` (maxlen `concurrency`) of the
    release times, from which every later acquisition pops the oldest and sleeps until
    `interval` seconds have passed since it. Clock readings are parameters. The lazily
    filled per-key limiter dictionaries of the endpoint classes are `Registry`. */
module Limiter {

  /** What `acquire` does: block in the semaphore because no permit is free, or take a
      permit after sleeping `sleep` seconds (0 when it does not sleep). */
  datatype Admission = Wait | Granted(sleep: real)

  /** The observable state of one limiter: the constructor's two arguments, `_count`, the
      semaphore's free permits, and the deque of release times, oldest first. */
  datatype LimiterState = LimiterState(concurrency: nat, interval: int, count: int, free: int, inquiries: seq<real>)

  /** The limiter's invariant under paired acquire/release: the start-up budget never
      exceeds the free permits, and the deque holds one time per free permit beyond it. */
  predicate Inv(s: LimiterState)
  {
    0 <= s.count <= s.free <= s.concurrency && |s.inquiries| == s.free - s.count
  }

  function Initial(concurrency: nat, interval: int): (s: LimiterState)
    ensures Inv(s) && s.count == concurrency && s.inquiries == []
  {
    LimiterState(concurrency, interval, concurrency, concurrency, [])
  }

  /** `collections.deque(maxlen=n).append(x)`: when full, the oldest entry falls out. */
  function BoundedAppend(q: seq<real>, x: real, n: nat): (r: seq<real>)
    ensures |q| < n ==> r == q + [x]
    ensures |r| <= n && |r| <= |q| + 1
  {
    var r := q + [x];
    if |r| <= n then r else r[|r| - n..]
  }

  /** One `acquire(now)`. Once the start-up budget is spent, the oldest release time is
      popped (the invariant guarantees there is one) and the call sleeps until `interval`
      has passed since it. */
  function AcquireStep(s: LimiterState, now: real): (r: (Admission, LimiterState))
    requires Inv(s)
    ensures Inv(r.1)
    ensures r.1.concurrency == s.concurrency && r.1.interval == s.interval
    ensures r.0 == Wait <==> s.free == 0
    ensures r.0 == Wait ==> r.1 == s
    ensures r.0.Granted? ==> r.1.free == s.free - 1 && r.0.sleep >= 0.0
    ensures r.0.Granted? && s.count > 0 ==> r.0.sleep == 0.0 && r.1.count == s.count - 1 && r.1.inquiries == s.inquiries
    ensures r.0.Granted? && s.count == 0 ==>
              r.1.count == 0 && r.1.inquiries == s.inquiries[1..] &&
              now + r.0.sleep >= s.inquiries[0] + s.interval as real &&
              (r.0.sleep > 0.0 <==> now - s.inquiries[0] < s.interval as real) &&
              (r.0.sleep > 0.0 ==> now + r.0.sleep == s.inquiries[0] + s.interval as real)
  {
    if s.free == 0 then (Wait, s)
    else if s.count > 0 then (Granted(0.0), s.(count := s.count - 1, free := s.free - 1))
    else
      var timelapse := now - s.inquiries[0];
      var sleep := if timelapse < s.interval as real then s.interval as real - timelapse else 0.0;
      (Granted(sleep), s.(free := s.free - 1, inquiries := s.inquiries[1..]))
  }

  /** One `release(now)` by a task that holds a permit: the time is appended once and a
      permit is freed; under the invariant the deque is never full here, so nothing falls
      out of it. */
  function ReleaseStep(s: LimiterState, now: real): (r: LimiterState)
    requires Inv(s) && s.free < s.concurrency
    ensures Inv(r)
    ensures r.inquiries == s.inquiries + [now]
    ensures r.free == s.free + 1 && r.count == s.count
    ensures r.concurrency == s.concurrency && r.interval == s.interval
  {
    s.(inquiries := BoundedAppend(s.inquiries, now, s.concurrency), free := s.free + 1)
  }

  /** A caller's use of a limiter: `acquire` at a time, or `release` at a time. */
  datatype Op = Acquire(at: real) | Release(at: real)

  /** Every release in `ops` is made while some permit is held, as `async with` does. */
  predicate Paired(s: LimiterState, ops: seq<Op>)
    requires Inv(s)
    decreases |ops|
  {
    ops == [] ||
    match ops[0]
    case Acquire(t) => Paired(AcquireStep(s, t).1, ops[1..])
    case Release(t) => s.free < s.concurrency && Paired(ReleaseStep(s, t), ops[1..])
  }

  /** Runs `ops` from `s`: the admissions of the acquisitions, in order, and the end state. */
  function Run(s: LimiterState, ops: seq<Op>): (r: (seq<Admission>, LimiterState))
    requires Inv(s) && Paired(s, ops)
    ensures Inv(r.1)
    decreases |ops|
  {
    if ops == [] then ([], s)
    else
      match ops[0]
      case Acquire(t) =>
        var (a, s1) := AcquireStep(s, t);
        var (rest, s2) := Run(s1, ops[1..]);
        ([a] + rest, s2)
      case Release(t) => Run(ReleaseStep(s, t), ops[1..])
  }

  /** The sleeps of the granted acquisitions, in order. */
  function Sleeps(adms: seq<Admission>): seq<real>
  {
    if adms == [] then []
    else (if adms[0].Granted? then [adms[0].sleep] else []) + Sleeps(adms[1..])
  }

  /** The first `count` granted acquisitions only spend the start-up budget and never
      sleep; the budget never grows, ends at `count` minus the grants (never below 0),
      and the deque never holds more than `concurrency` times. */
  lemma {:induction false} StartupGrantsDoNotSleep(s: LimiterState, ops: seq<Op>)
    requires Inv(s) && Paired(s, ops)
    ensures var (adms, e) := Run(s, ops);
            var g := Sleeps(adms);
            (forall k :: 0 <= k < |g| && k < s.count ==> g[k] == 0.0) &&
            e.count == (if |g| < s.count then s.count - |g| else 0) &&
            e.count <= s.count && |e.inquiries| <= e.concurrency
    decreases |ops|
  {
    if ops != [] {
      match ops[0]
      case Acquire(t) =>
        var (a, s1) := AcquireStep(s, t);
        StartupGrantsDoNotSleep(s1, ops[1..]);
        var (rest, s2) := Run(s1, ops[1..]);
        assert Run(s, ops).0 == [a] + rest;
        assert Sleeps([a] + rest) == (if a.Granted? then [a.sleep] else []) + Sleeps(rest) by {
          assert ([a] + rest)[1..] == rest;
        }
      case Release(t) =>
        StartupGrantsDoNotSleep(ReleaseStep(s, t), ops[1..]);
    }
  }

  /** From a fresh limiter, `concurrency` back-to-back acquisitions are all granted at
      once, and the next one (after one release at time `t`) waits until `t + interval`. */
  lemma WindowAfterStartup(c: nat, interval: int, now: real, t: real, later: real)
    requires c > 0 && interval >= 0
    ensures var s := Initial(c, interval);
            var ops := Repeat(c, Acquire(now)) + [Release(t), Acquire(later)];
            Paired(s, ops) &&
            var adms := Run(s, ops).0;
            |adms| == c + 1 && (forall k :: 0 <= k < c ==> adms[k] == Granted(0.0)) &&
            adms[c].Granted? && later + adms[c].sleep >= t + interval as real
  {
    var s := Initial(c, interval);
    var ops := Repeat(c, Acquire(now)) + [Release(t), Acquire(later)];
    var mid := s.(count := 0, free := 0);
    AcquiresFromBudget(s, c, now, [Release(t), Acquire(later)], mid);
    assert Run(s, ops) == (Repeat(c, Granted(0.0)) + Run(mid, [Release(t), Acquire(later)]).0,
                           Run(mid, [Release(t), Acquire(later)]).1);
    forall k | 0 <= k < c
      ensures Run(s, ops).0[k] == Granted(0.0)
    {
      RepeatAt(c, Granted(0.0), k);
    }
    var m1 := ReleaseStep(mid, t);
    assert m1.inquiries == [t];
    assert [Release(t), Acquire(later)][1..] == [Acquire(later)];
    assert [Acquire(later)][1..] == [];
    var last := AcquireStep(m1, later);
    assert Run(last.1, []) == ([], last.1);
    assert [Acquire(later)][0] == Acquire(later);
    assert [last.0] + [] == [last.0];
    assert Run(m1, [Acquire(later)]) == ([last.0], last.1);
    assert Run(mid, [Release(t), Acquire(later)]) == ([last.0], last.1);
  }

  /** One acquisition within the start-up budget, ahead of any paired continuation. */
  lemma AcquireFromBudgetOnce(s: LimiterState, now: real, ops: seq<Op>)
    requires Inv(s) && s.count > 0
    requires ops != [] && ops[0] == Acquire(now)
    requires Paired(s.(count := s.count - 1, free := s.free - 1), ops[1..])
    ensures Paired(s, ops)
    ensures var s1 := s.(count := s.count - 1, free := s.free - 1);
            Run(s, ops) == ([Granted(0.0)] + Run(s1, ops[1..]).0, Run(s1, ops[1..]).1)
  {
    assert AcquireStep(s, now) == (Granted(0.0), s.(count := s.count - 1, free := s.free - 1));
  }

  /** `n` copies of `x`. */
  function Repeat<T>(n: nat, x: T): (r: seq<T>)
    ensures |r| == n
  {
    if n == 0 then [] else [x] + Repeat(n - 1, x)
  }

  lemma {:induction false} RepeatAt<T>(n: nat, x: T, i: nat)
    requires i < n
    ensures Repeat(n, x)[i] == x
    decreases n
  {
    if i > 0 {
      RepeatAt(n - 1, x, i - 1);
    }
  }

  /** The inductive step of `AcquiresFromBudget`: one more acquisition from the budget in
      front of `n - 1` of them. */
  lemma BudgetStep(s: LimiterState, n: nat, now: real, tail: seq<Op>, e: LimiterState)
    requires Inv(s) && s.count >= n > 0 && e == s.(count := s.count - n, free := s.free - n)
    requires Paired(e, tail)
    requires var s1 := s.(count := s.count - 1, free := s.free - 1);
             Paired(s1, Repeat(n - 1, Acquire(now)) + tail) &&
             Run(s1, Repeat(n - 1, Acquire(now)) + tail) == (Repeat(n - 1, Granted(0.0)) + Run(e, tail).0, Run(e, tail).1)
    ensures Paired(s, Repeat(n, Acquire(now)) + tail)
    ensures Run(s, Repeat(n, Acquire(now)) + tail) == (Repeat(n, Granted(0.0)) + Run(e, tail).0, Run(e, tail).1)
  {
    var r := Run(e, tail);
    var rest := Repeat(n - 1, Acquire(now)) + tail;
    var ops := Repeat(n, Acquire(now)) + tail;
    assert ops == [Acquire(now)] + rest;
    assert ops[0] == Acquire(now) && ops[1..] == rest;
    AcquireFromBudgetOnce(s, now, ops);
    assert [Granted(0.0)] + (Repeat(n - 1, Granted(0.0)) + r.0) == Repeat(n, Granted(0.0)) + r.0;
  }

  /** `n` acquisitions at one time, all within the start-up budget, take `n` permits and
      `n` of the budget (leaving `e`) and grant without sleeping. */
  lemma {:induction false} AcquiresFromBudget(s: LimiterState, n: nat, now: real, tail: seq<Op>, e: LimiterState)
    requires Inv(s) && s.count >= n && e == s.(count := s.count - n, free := s.free - n)
    requires Paired(e, tail)
    ensures Paired(s, Repeat(n, Acquire(now)) + tail)
    ensures Run(s, Repeat(n, Acquire(now)) + tail) == (Repeat(n, Granted(0.0)) + Run(e, tail).0, Run(e, tail).1)
    decreases n
  {
    if n > 0 {
      AcquiresFromBudget(s.(count := s.count - 1, free := s.free - 1), n - 1, now, tail, e);
      BudgetStep(s, n, now, tail, e);
    } else {
      assert Repeat(n, Acquire(now)) + tail == tail;
      assert Repeat(n, Granted(0.0)) + Run(e, tail).0 == Run(e, tail).0;
    }
  }

  /** The limiter object. Its methods change its fields exactly as the step functions say. */
  class RateLimiter {
    const concurrency: nat
    const interval: int
    var count: int
    var free: int
    var inquiries: seq<real>

    function State(): LimiterState
      reads this
    {
      LimiterState(concurrency, interval, count, free, inquiries)
    }

    ghost predicate Valid()
      reads this
    {
      Inv(State())
    }

    /** `RateLimiter(concurrency, interval)`. */
    constructor (concurrency: nat, interval: int)
      ensures Valid() && State() == Initial(concurrency, interval)
    {
      this.concurrency := concurrency;
      this.interval := interval;
      count := concurrency;
      free := concurrency;
      inquiries := [];
    }

    /** `await acquire()` at clock reading `now`: first the semaphore, then either the
        start-up budget or the oldest release time. */
    method Acquire(now: real) returns (a: Admission)
      requires Valid()
      modifies this
      ensures Valid()
      ensures (a, State()) == AcquireStep(old(State()), now)
    {
      if free == 0 {
        return Wait;
      }
      free := free - 1;
      if count > 0 {
        count := count - 1;
        a := Granted(0.0);
      } else {
        var oldest := inquiries[0];
        inquiries := inquiries[1..];
        var timelapse := now - oldest;
        if timelapse < interval as real {
          a := Granted(interval as real - timelapse);
        } else {
          a := Granted(0.0);
        }
      }
    }

    /** `release()` at clock reading `now`, by a task holding a permit. */
    method Release(now: real)
      requires Valid() && free < concurrency
      modifies this
      ensures Valid()
      ensures State() == ReleaseStep(old(State()), now)
    {
      inquiries := BoundedAppend(inquiries, now, concurrency);
      free := free + 1;
    }
  }

  /** A class-level dictionary from a key (an instrument type, a currency) to its own
      limiter, filled on first use with `RateLimiter(concurrency, interval)`. */
  class Registry {
    const concurrency: nat
    const interval: int
    var limiters: map<string, RateLimiter>

    ghost predicate Valid()
      reads this, limiters.Values
    {
      (forall k1, k2 :: k1 in limiters && k2 in limiters && k1 != k2 ==> limiters[k1] != limiters[k2]) &&
      (forall k :: k in limiters ==> limiters[k].Valid() && limiters[k].concurrency == concurrency &&
                                       limiters[k].interval == interval)
    }

    constructor (concurrency: nat, interval: int)
      ensures Valid() && limiters == map[]
      ensures this.concurrency == concurrency && this.interval == interval
    {
      this.concurrency := concurrency;
      this.interval := interval;
      limiters := map[];
    }

    /** `if key not in D: D[key] = RateLimiter(...)`, then `D[key]`: an entry is created only
        for a new key and is never replaced, and distinct keys hold distinct limiters. */
    method Get(key: string) returns (l: RateLimiter)
      requires Valid()
      modifies this
      ensures Valid()
      ensures key in old(limiters) ==> l == old(limiters)[key] && limiters == old(limiters)
      ensures key !in old(limiters) ==>
                fresh(l) && limiters == old(limiters)[key := l] && l.State() == Initial(concurrency, interval)
      ensures key in limiters && limiters[key] == l
    {
      if key !in limiters {
        var created := new RateLimiter(concurrency, interval);
        limiters := limiters[key := created];
      }
      l := limiters[key];
    }

    /** `async with D[key]` entered at `now`: the key's limiter is fetched or created and
        acquired; every other key's limiter is left as it was. */
    method AcquireFor(key: string, now: real) returns (a: Admission)
      requires Valid()
      modifies this, limiters.Values
      ensures Valid()
      ensures key in limiters
      ensures key in old(limiters) ==> limiters == old(limiters)
      ensures key !in old(limiters) ==> fresh(limiters[key]) && limiters == old(limiters)[key := limiters[key]]
      ensures (a, limiters[key].State()) ==
                AcquireStep(if key in old(limiters) then old(limiters[key].State()) else Initial(concurrency, interval), now)
      ensures forall k :: k in old(limiters) && k != key ==>
                k in limiters && limiters[k] == old(limiters[k]) && limiters[k].State() == old(limiters[k].State())
    {
      var l := Get(key);
      a := l.Acquire(now);
    }

    /** Leaving `async with D[key]` at `now`: the key's limiter records the release; the
        dictionary and every other key's limiter are left as they were. */
    method ReleaseFor(key: string, now: real)
      requires Valid() && key in limiters && limiters[key].free < concurrency
      modifies limiters[key]
      ensures Valid()
      ensures limiters[key].State() == ReleaseStep(old(limiters[key].State()), now)
      ensures forall k :: k in limiters && k != key ==> limiters[k].State() == old(limiters[k].State())
    {
      limiters[key].Release(now);
    }
  }
}
