/** The per-device rate limiter (apps/ingestion/rate_limiter.py). The script opens a fixed window at the
    first request it counts, so it is not the sliding window its heading announces. Time is in clock ticks;
    a key set with an expiry of `window` ticks is gone `window` ticks later. */
module RateLimiter {
  import opened Wrappers

  datatype Counter = Counter(count: nat, expiresAt: int)

  type Counters = map<string, Counter>

  datatype Request = Request(device: string, at: int)

  datatype Limits = Limits(limit: int, window: nat)

  // -------------------------------------------------------------------------------- one invocation

  predicate Live(m: Counters, device: string, now: int) {
    device in m && now < m[device].expiresAt
  }

  /** The counter after `INCR`, and `EXPIRE` when it became one. */
  function Incr(m: Counters, device: string, now: int, window: nat): Counter {
    if Live(m, device, now) && m[device].count > 0 then Counter(m[device].count + 1, m[device].expiresAt)
    else Counter(1, now + window)
  }

  function Hit(m: Counters, r: Request, window: nat): Counters {
    m[r.device := Incr(m, r.device, r.at, window)]
  }

  predicate Allows(m: Counters, r: Request, l: Limits) {
    Incr(m, r.device, r.at, l.window).count <= l.limit
  }

  class RateLimiter {
    const limits: Limits
    var counters: Counters

    constructor (limits: Limits)
      ensures this.limits == limits && counters == map[]
    {
      this.limits := limits;
      counters := map[];
    }

    /** `is_allowed` at time `now`; an unreachable Redis lets the event through. */
    method IsAllowed(device: string, now: int, reachable: bool) returns (allowed: bool)
      modifies this`counters
      ensures reachable ==> counters == Hit(old(counters), Request(device, now), limits.window)
      ensures reachable ==> (allowed <==> Allows(old(counters), Request(device, now), limits))
      ensures !reachable ==> allowed && counters == old(counters)
    {
      if !reachable {
        return true;
      }
      var current := 1;
      if device in counters && now < counters[device].expiresAt {
        current := counters[device].count + 1;
      }
      if current == 1 {
        counters := counters[device := Counter(current, now + limits.window)];
      } else {
        counters := counters[device := Counter(current, counters[device].expiresAt)];
      }
      allowed := current <= limits.limit;
    }
  }

  // ---------------------------------------------------------------------------------- whole traces

  predicate Ordered(rs: seq<Request>) {
    forall i, j :: 0 <= i < j < |rs| ==> rs[i].at <= rs[j].at
  }

  function Init(rs: seq<Request>): seq<Request>
    requires rs != []
  {
    rs[..|rs| - 1]
  }

  function Last(rs: seq<Request>): Request
    requires rs != []
  {
    rs[|rs| - 1]
  }

  function After(rs: seq<Request>, window: nat): Counters {
    if rs == [] then map[] else Hit(After(Init(rs), window), Last(rs), window)
  }

  /** The verdict on request `i` of a run. */
  predicate Admitted(rs: seq<Request>, i: nat, l: Limits)
    requires i < |rs|
  {
    Allows(After(rs[..i], l.window), rs[i], l)
  }

  predicate Within(r: Request, d: string, from: int, to: int) {
    r.device == d && from <= r.at < to
  }

  /** Requests of `d` with a time in `[from, to)`. */
  function CountRequests(rs: seq<Request>, d: string, from: int, to: int): nat {
    if rs == [] then 0
    else CountRequests(Init(rs), d, from, to) + (if Within(Last(rs), d, from, to) then 1 else 0)
  }

  /** Those of them that were admitted. */
  function CountAdmitted(rs: seq<Request>, d: string, from: int, to: int, l: Limits): nat {
    if rs == [] then 0
    else CountAdmitted(Init(rs), d, from, to, l)
         + (if Within(Last(rs), d, from, to) && Admitted(rs, |rs| - 1, l) then 1 else 0)
  }

  function Min(a: int, b: int): int {
    if a <= b then a else b
  }

  // ------------------------------------------------------------- the bound over arbitrary intervals

  /** A device's counter is positive and its window was opened by some earlier request. */
  lemma {:induction false} CounterShape(rs: seq<Request>, d: string, window: nat)
    requires Ordered(rs) && d in After(rs, window)
    ensures rs != []
    ensures After(rs, window)[d].count >= 1
    ensures After(rs, window)[d].expiresAt - window <= Last(rs).at
  {
    var m := After(Init(rs), window);
    if Last(rs).device != d || Live(m, d, Last(rs).at) {
      CounterShape(Init(rs), d, window);
    }
  }

  lemma NextWindowIndex(s: int, t: int, window: nat)
    requires window > 0 && s + window <= t
    ensures s / window + 1 <= t / window
  {
    assert (s / window + 1) * window == (s / window) * window + window <= t;
    assert t < (t / window + 1) * window;
    if t / window + 1 <= s / window + 1 {
      MulMonotone(t / window + 1, s / window + 1, window);
    }
  }

  lemma MulMonotone(a: int, b: int, c: int)
    requires a <= b && c >= 0
    ensures a * c <= b * c
  {
  }

  /** What the admissions in `[from, …)` may amount to when the current window opened at `s`. */
  ghost predicate WithinBudget(admitted: nat, c: Counter, from: int, l: Limits)
    requires l.window > 0
  {
    var s := c.expiresAt - l.window;
    if s < from then admitted <= Min(c.count, l.limit) - 1
    else admitted <= l.limit - 1 + ((s - from) / l.window) * l.limit + Min(c.count, l.limit)
  }

  lemma {:induction false} NoneBefore(rs: seq<Request>, d: string, from: int, to: int, l: Limits)
    requires Ordered(rs) && (rs != [] ==> Last(rs).at < from)
    ensures CountAdmitted(rs, d, from, to, l) == 0
  {
    if rs != [] {
      NoneBefore(Init(rs), d, from, to, l);
    }
  }

  /** Opening a new window at `now` pays for its first admission. */
  lemma BudgetNewWindow(admitted: nat, c: Counter, now: int, from: int, l: Limits)
    requires l.window > 0 && l.limit >= 1 && c.count >= 1 && from <= now
    requires WithinBudget(admitted, c, from, l) && c.expiresAt <= now
    ensures WithinBudget(admitted + 1, Counter(1, now + l.window), from, l)
  {
    var s := c.expiresAt - l.window;
    if s < from {
      Carry(-1, (now - from) / l.window, l.limit);
    } else {
      NextWindowIndex(s - from, now - from, l.window);
      Carry((s - from) / l.window, (now - from) / l.window, l.limit);
    }
  }

  lemma Carry(q: int, r: int, limit: int)
    requires q + 1 <= r && limit >= 0
    ensures q * limit + limit <= r * limit
  {
    MulMonotone(q + 1, r, limit);
  }

  /** The very first window of a device. */
  lemma BudgetFirstWindow(now: int, from: int, l: Limits)
    requires l.window > 0 && l.limit >= 1
    ensures WithinBudget(if from <= now then 1 else 0, Counter(1, now + l.window), from, l)
  {
    if from <= now {
      assert (now - from) / l.window >= 0;
      MulMonotone(0, (now - from) / l.window, l.limit);
    }
  }

  /** Invariant of the counting argument: the admissions of the interval are paid for by the window that
      was already open when it began and by the windows opened since. */
  lemma {:induction false} BudgetKept(rs: seq<Request>, d: string, from: int, to: int, l: Limits)
    requires Ordered(rs) && l.window > 0 && l.limit >= 1
    ensures d !in After(rs, l.window) ==> CountAdmitted(rs, d, from, to, l) == 0
    ensures d in After(rs, l.window) ==>
              WithinBudget(CountAdmitted(rs, d, from, to, l), After(rs, l.window)[d], from, l)
  {
    if rs != [] {
      var before, r := Init(rs), Last(rs);
      BudgetKept(before, d, from, to, l);
      var m := After(before, l.window);
      if r.device == d {
        if r.at < from {
          NoneBefore(rs, d, from, to, l);
        }
        if d !in m {
          BudgetFirstWindow(r.at, from, l);
        } else {
          CounterShape(before, d, l.window);
          if !Live(m, d, r.at) && from <= r.at {
            BudgetNewWindow(CountAdmitted(before, d, from, to, l), m[d], r.at, from, l);
          }
        }
      }
    }
  }

  /** What the budget comes to when the current window opened before the interval ends. */
  lemma BudgetSpent(admitted: nat, c: Counter, from: int, k: nat, l: Limits)
    requires l.window > 0 && l.limit >= 1 && k >= 1
    requires WithinBudget(admitted, c, from, l) && c.expiresAt - l.window < from + k * l.window
    ensures admitted <= (k + 1) * l.limit - 1
  {
    var s := c.expiresAt - l.window;
    if s < from {
      MulMonotone(1, k + 1, l.limit);
    } else {
      var q := (s - from) / l.window;
      assert q * l.window <= s - from < k * l.window;
      if q >= k {
        MulMonotone(k, q, l.window);
      }
      MulMonotone(q, k - 1, l.limit);
      assert (k + 1) * l.limit == (k - 1) * l.limit + 2 * l.limit;
    }
  }

  lemma {:induction false} EmptyInterval(rs: seq<Request>, d: string, from: int, l: Limits)
    ensures CountAdmitted(rs, d, from, from, l) == 0
  {
    if rs != [] {
      EmptyInterval(Init(rs), d, from, l);
    }
  }

  /** Over any half-open interval of `k` windows a device is admitted at most `(k + 1) * limit - 1` times:
      at most `2 * limit - 1` times within a single window length, wherever the interval starts. */
  lemma {:induction false} IntervalBound(rs: seq<Request>, d: string, from: int, k: nat, l: Limits)
    requires Ordered(rs) && l.limit >= 1
    ensures CountAdmitted(rs, d, from, from + k * l.window, l) <= (k + 1) * l.limit - 1
  {
    var to := from + k * l.window;
    MulMonotone(1, k + 1, l.limit);
    if k == 0 || l.window == 0 {
      EmptyInterval(rs, d, from, l);
    } else if rs != [] && Within(Last(rs), d, from, to) {
      BudgetKept(rs, d, from, to, l);
      CounterShape(rs, d, l.window);
      BudgetSpent(CountAdmitted(rs, d, from, to, l), After(rs, l.window)[d], from, k, l);
    } else if rs != [] {
      IntervalBound(Init(rs), d, from, k, l);
    }
  }

  /** A limit below one admits nothing. */
  lemma {:induction false} NothingAdmitted(rs: seq<Request>, d: string, from: int, to: int, l: Limits)
    requires l.limit <= 0
    ensures CountAdmitted(rs, d, from, to, l) == 0
  {
    if rs != [] {
      NothingAdmitted(Init(rs), d, from, to, l);
    }
  }

  // ----------------------------------------------------------------------------- the bound is tight

  /** The counter of `d` as a request at time `now` finds it, `None` once its window is over. */
  function Seen(m: Counters, d: string, now: int): Option<Counter> {
    if Live(m, d, now) && m[d].count > 0 then Some(m[d]) else None
  }

  /** A non-decreasing run that ends no later than `at`. */
  predicate EndsBy(rs: seq<Request>, at: int) {
    Ordered(rs) && rs != [] && Last(rs).at <= at
  }

  /** A counter in hand, or a window about to open with nothing counted. */
  predicate Ready(m: Counters, d: string, at: int, c: Counter, window: nat) {
    match Seen(m, d, at)
    case Some(seen) => c == seen
    case None => c == Counter(0, at + window)
  }

  /** One more request in a window with room for it. */
  lemma OneMore(rs: seq<Request>, all: seq<Request>, d: string, at: int, c: Counter,
                from: int, to: int, l: Limits)
    requires all == rs + [Request(d, at)] && l.window > 0 && from <= at < to
    requires EndsBy(rs, at)
    requires Ready(After(rs, l.window), d, at, c, l.window) && c.count < l.limit
    ensures EndsBy(all, at)
    ensures CountAdmitted(all, d, from, to, l) == CountAdmitted(rs, d, from, to, l) + 1
    ensures d in After(all, l.window) && After(all, l.window)[d] == Counter(c.count + 1, c.expiresAt)
    ensures at < c.expiresAt
  {
    assert Init(all) == rs == all[..|rs|];
  }

  /** A burst of simultaneous requests that fits into what the window has left is admitted whole. */
  lemma {:induction false} Burst(rs: seq<Request>, d: string, at: int, size: nat, c: Counter,
                                 from: int, to: int, l: Limits) returns (all: seq<Request>)
    requires l.window > 0 && from <= at < to && EndsBy(rs, at)
    requires Ready(After(rs, l.window), d, at, c, l.window) && c.count + size <= l.limit
    ensures EndsBy(all, at)
    ensures CountAdmitted(all, d, from, to, l) == CountAdmitted(rs, d, from, to, l) + size
    ensures size == 0 ==> all == rs
    ensures size > 0 ==> d in After(all, l.window)
                         && After(all, l.window)[d] == Counter(c.count + size, c.expiresAt)
                         && at < c.expiresAt
  {
    if size == 0 {
      all := rs;
    } else {
      var shorter := Burst(rs, d, at, size - 1, c, from, to, l);
      all := shorter + [Request(d, at)];
      OneMore(shorter, all, d, at, Counter(c.count + size - 1, c.expiresAt), from, to, l);
    }
  }

  /** A request at time 0 opens a window, and `limit - 1` more use it up just before it ends. */
  lemma SurgeOpens(d: string, to: int, l: Limits) returns (rs: seq<Request>)
    requires l.limit >= 1 && l.window >= 2 && l.window <= to
    ensures EndsBy(rs, l.window - 1) && CountAdmitted(rs, d, 1, to, l) == l.limit - 1
    ensures d in After(rs, l.window) && After(rs, l.window)[d] == Counter(l.limit as nat, l.window)
  {
    var first := [Request(d, 0)];
    assert Init(first) == [];
    assert After(first, l.window) == map[d := Counter(1, l.window)];
    assert CountAdmitted(first, d, 1, to, l) == 0;
    rs := Burst(first, d, l.window - 1, (l.limit - 1) as nat, Counter(1, l.window), 1, to, l);
  }

  /** After that, `limit` requests at the start of each of the next `k` windows. */
  lemma {:induction false} Surge(d: string, k: nat, to: int, l: Limits) returns (rs: seq<Request>)
    requires l.limit >= 1 && l.window >= 2 && l.window <= to && k * l.window < to
    ensures EndsBy(rs, k * l.window + l.window - 1)
    ensures CountAdmitted(rs, d, 1, to, l) == k * l.limit + l.limit - 1
    ensures d in After(rs, l.window)
    ensures After(rs, l.window)[d] == Counter(l.limit as nat, k * l.window + l.window)
  {
    if k == 0 {
      rs := SurgeOpens(d, to, l);
    } else {
      var at := k * l.window;
      assert at == (k - 1) * l.window + l.window && (k - 1) * l.window >= 0;
      assert k * l.limit == (k - 1) * l.limit + l.limit;
      var before := Surge(d, k - 1, to, l);
      rs := Burst(before, d, at, l.limit as nat, Counter(0, at + l.window), 1, to, l);
    }
  }

  /** For every number of windows the interval bound is attained by some run, so it cannot be lowered; with
      `k == 1` and a limit above one this run admits more than `limit` requests within one window length,
      which no sliding window would. */
  lemma IntervalBoundAttained(d: string, k: nat, l: Limits) returns (rs: seq<Request>)
    requires l.limit >= 1 && l.window >= 2 && k >= 1
    ensures Ordered(rs) && CountAdmitted(rs, d, 1, 1 + k * l.window, l) == (k + 1) * l.limit - 1
  {
    MulMonotone(1, k, l.window);
    rs := Surge(d, k, 1 + k * l.window, l);
    assert (k + 1) * l.limit == k * l.limit + l.limit;
  }

  // --------------------------------------------------------------------------- fairness, isolation

  /** A live counter has counted nothing but requests of its own window. */
  lemma {:induction false} CountsOwnWindow(rs: seq<Request>, d: string, window: nat)
    requires Ordered(rs) && window > 0 && d in After(rs, window)
    ensures var c := After(rs, window)[d];
            c.count <= CountRequests(rs, d, c.expiresAt - window, c.expiresAt)
  {
    var m, r := After(Init(rs), window), Last(rs);
    if r.device != d || Live(m, d, r.at) {
      CountsOwnWindow(Init(rs), d, window);
      CounterShape(Init(rs), d, window);
    }
  }

  /** At most `limit` requests of `d` in the window-length interval starting at `from`. */
  predicate Modest(rs: seq<Request>, d: string, from: int, l: Limits) {
    CountRequests(rs, d, from, from + l.window) <= l.limit
  }

  ghost predicate AlwaysModest(rs: seq<Request>, d: string, l: Limits) {
    forall from: int :: Modest(rs, d, from, l)
  }

  /** A device that never sends more than `limit` requests in a window-length interval is never refused. */
  lemma NeverRefused(rs: seq<Request>, d: string, i: nat, l: Limits)
    requires Ordered(rs) && l.window > 0 && i < |rs| && rs[i].device == d
    requires AlwaysModest(rs[..i + 1], d, l)
    ensures Admitted(rs, i, l)
  {
    var upTo := rs[..i + 1];
    assert Init(upTo) == rs[..i];
    CountsOwnWindow(upTo, d, l.window);
    var start := After(upTo, l.window)[d].expiresAt - l.window;
    assert Modest(upTo, d, start, l);
  }

  /** The requests of one device. */
  function Own(rs: seq<Request>, d: string): seq<Request> {
    if rs == [] then []
    else Own(Init(rs), d) + (if Last(rs).device == d then [Last(rs)] else [])
  }

  lemma {:induction false} OwnCounter(rs: seq<Request>, d: string, window: nat)
    ensures d in After(rs, window) <==> d in After(Own(rs, d), window)
    ensures d in After(rs, window) ==> After(rs, window)[d] == After(Own(rs, d), window)[d]
  {
    if rs != [] {
      OwnCounter(Init(rs), d, window);
      if Last(rs).device == d {
        assert Init(Own(rs, d)) == Own(Init(rs), d);
      } else {
        assert Own(rs, d) == Own(Init(rs), d);
      }
    }
  }

  /** Isolation: the verdict on a request is the one it gets when its device is alone. */
  lemma Isolated(rs: seq<Request>, i: nat, l: Limits)
    requires i < |rs|
    ensures var own := Own(rs[..i + 1], rs[i].device);
            own != [] && Last(own) == rs[i] && (Admitted(rs, i, l) <==> Admitted(own, |own| - 1, l))
  {
    var d, upTo := rs[i].device, rs[..i + 1];
    var own := Own(upTo, d);
    assert Init(upTo) == rs[..i];
    assert own[..|own| - 1] == Own(rs[..i], d);
    OwnCounter(rs[..i], d, l.window);
  }
}
