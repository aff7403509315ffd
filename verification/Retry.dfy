/** Retry with capped exponential backoff and jitter (apps/worker/retry.py). Delays are reals. */
module Retry {
  import opened Wrappers
  import opened Models
  import opened Database

  datatype Policy = Policy(maxAttempts: int, base: real, multiplier: real, cap: real, jitter: real)

  const DEFAULT_POLICY := Policy(5, 1.0, 2.0, 30.0, 0.25)

  predicate Sensible(p: Policy) {
    p.base > 0.0 && p.multiplier >= 1.0 && p.cap >= 0.0 && 0.0 <= p.jitter <= 1.0
  }

  function Pow(x: real, n: nat): real {
    if n == 0 then 1.0 else x * Pow(x, n - 1)
  }

  function MinReal(a: real, b: real): real {
    if a <= b then a else b
  }

  /** The delay before jitter, after a failed attempt. */
  function Nominal(p: Policy, attempt: nat): real
    requires attempt >= 1
  {
    MinReal(p.base * Pow(p.multiplier, attempt - 1), p.cap)
  }

  function Times(a: real, b: real): real {
    a * b
  }

  function JitterRange(p: Policy, attempt: nat): real
    requires attempt >= 1
  {
    Times(Nominal(p, attempt), p.jitter)
  }

  /** `_compute_delay`: `draw` says where in `[-1, 1]` of the jitter range the random draw fell. */
  function Delay(p: Policy, attempt: nat, draw: real): real
    requires attempt >= 1
  {
    Nominal(p, attempt) + Times(draw, JitterRange(p, attempt))
  }

  predicate IsDraw(x: real) {
    -1.0 <= x <= 1.0
  }

  type Draws = nat -> real

  /** The attempt raised something else than a `ValueError`. */
  predicate FailsTransiently(r: InsertReply) {
    r.Failed? && r.error != ValueError
  }

  /** The sleeps are the delays after attempts 1, 2, 3, …. */
  predicate Follows(p: Policy, sleeps: seq<real>, draws: Draws) {
    forall i: nat :: i < |sleeps| ==> sleeps[i] == Delay(p, i + 1, draws(i + 1))
  }

  // --------------------------------------------------------------------------------- the retry loop

  type Replies = nat -> InsertReply

  predicate Retryable(e: Exn) {
    !e.ValueError?
  }

  /** The attempt returned, or raised an error that is not retried. */
  predicate Settles(r: InsertReply) {
    r.Returned? || !Retryable(r.error)
  }

  /** `n` is the number of calls a loop of at most `max` attempts makes: it stops at the first attempt
      that settles, and otherwise when the attempts run out. */
  ghost predicate IsCallCount(replies: Replies, max: int, n: nat) {
    if max < 1 then n == 0
    else
      && 1 <= n <= max
      && (n < max ==> Settles(replies(n)))
      && forall k :: 1 <= k < n ==> !Settles(replies(k))
  }

  lemma CallCountUnique(replies: Replies, max: int, n: nat, m: nat)
    requires IsCallCount(replies, max, n) && IsCallCount(replies, max, m)
    ensures n == m
  {
  }

  /** The call count, looked for from attempt `k` on. */
  function CallsFrom(replies: Replies, max: int, k: nat): (n: nat)
    requires 1 <= k <= max
    ensures k <= n <= max && (n < max ==> Settles(replies(n)))
    ensures forall j :: k <= j < n ==> !Settles(replies(j))
    decreases max - k
  {
    if k == max || Settles(replies(k)) then k else CallsFrom(replies, max, k + 1)
  }

  function Calls(replies: Replies, max: int): (n: nat)
    ensures IsCallCount(replies, max, n)
  {
    if max < 1 then 0 else CallsFrom(replies, max, 1)
  }

  /** What the loop raises: the last error, or the failed assertion when it made no attempt. */
  function Raises(replies: Replies, max: int): Option<Exn> {
    var n := Calls(replies, max);
    if n == 0 then Some(AssertionError)
    else match replies(n)
      case Returned(_) => None
      case Failed(e, _) => Some(e)
  }

  /** Attempts before `n` fail transiently; attempt `n` raises `e`, and either it is a `ValueError` or no attempt
      is left. */
  ghost predicate GivesUpAt(replies: Replies, max: int, n: nat, e: Exn) {
    && 1 <= n <= max && (forall k :: 1 <= k < n ==> FailsTransiently(replies(k)))
    && replies(n).Failed? && replies(n).error == e && (e == ValueError || n == max)
  }

  /** Attempts before `n` fail transiently; attempt `n` returns. */
  ghost predicate SucceedsAt(replies: Replies, max: int, n: nat) {
    1 <= n <= max && replies(n).Returned? && forall k :: 1 <= k < n ==> FailsTransiently(replies(k))
  }

  /** Calls made and error raised, attempt by attempt: a `ValueError` ends the loop at once, any other error is
      followed by another attempt while there is one, and what is raised is the last error. */
  lemma LoopEnds(replies: Replies, max: int)
    ensures max < 1 ==> Calls(replies, max) == 0 && Raises(replies, max) == Some(AssertionError)
    ensures forall n, e :: GivesUpAt(replies, max, n, e) ==> Calls(replies, max) == n && Raises(replies, max) == Some(e)
    ensures forall n :: SucceedsAt(replies, max, n) ==> Calls(replies, max) == n && Raises(replies, max) == None
    ensures max >= 1 ==>
              var n := Calls(replies, max);
              if replies(n).Returned? then SucceedsAt(replies, max, n) else GivesUpAt(replies, max, n, replies(n).error)
  {
    forall n, e | GivesUpAt(replies, max, n, e)
      ensures Calls(replies, max) == n
    {
      CallCountUnique(replies, max, n, Calls(replies, max));
    }
    forall n | SucceedsAt(replies, max, n)
      ensures Calls(replies, max) == n
    {
      CallCountUnique(replies, max, n, Calls(replies, max));
    }
  }

  /** The instant at which an attempt wrote its row, whether or not it then raised. */
  function WrittenAt(r: InsertReply): Option<int> {
    match r
    case Returned(now) => Some(now)
    case Failed(_, at) => at
  }

  /** The rows after `n` attempts: those there before, untouched, and one of the event for each attempt that
      wrote, unless its key was taken. Nothing else in the database moves. */
  lemma {:induction false} AttemptedRows(t: Tables, e: IoTEvent, replies: Replies, n: nat)
    ensures var u := AfterAttempts(t, e, replies, n);
            && u.devices == t.devices && u.states == t.states && u.dlq == t.dlq
            && (forall k :: k in t.events ==> k in u.events && u.events[k] == t.events[k])
            && (forall k :: k in u.events && k !in t.events ==>
                  u.events[k] == e && k.eventId == e.eventId
                  && exists a :: 1 <= a <= n && WrittenAt(replies(a)) == Some(k.ingestedAt))
            && (forall a :: 1 <= a <= n && WrittenAt(replies(a)).Some? ==>
                  RowKey(e.eventId, WrittenAt(replies(a)).value) in u.events)
  {
    if n > 0 {
      AttemptedRows(t, e, replies, n - 1);
    }
  }

  /** The tables after the first `n` attempts. */
  function AfterAttempts(t: Tables, e: IoTEvent, replies: Replies, n: nat): Tables {
    if n == 0 then t else InsertEffect(AfterAttempts(t, e, replies, n - 1), e, replies(n))
  }

  /** `with_retry(_insert)`: insert the event, sleeping between the attempts but not after the last one.
      `calls` is the `retry_count` that `_insert` keeps. */
  method WithRetry(db: Db, p: Policy, e: IoTEvent, replies: Replies, draws: Draws)
    returns (raised: Option<Exn>, calls: nat, sleeps: seq<real>)
    modifies db`events
    ensures IsCallCount(replies, p.maxAttempts, calls) && calls == Calls(replies, p.maxAttempts)
    ensures raised == Raises(replies, p.maxAttempts)
    ensures calls > 0 ==> raised == if replies(calls).Returned? then None else Some(replies(calls).error)
    ensures forall k :: 1 <= k < calls ==> FailsTransiently(replies(k))
    ensures p.maxAttempts >= 1 ==> calls == p.maxAttempts || (1 <= calls && !FailsTransiently(replies(calls)))
    ensures db.View() == AfterAttempts(old(db.View()), e, replies, calls)
    ensures |sleeps| == if calls == 0 then 0 else calls - 1
    ensures Follows(p, sleeps, draws)
  {
    raised, calls, sleeps := Some(AssertionError), 0, [];
    var attempt := 1;
    while attempt <= p.maxAttempts
      invariant 1 <= attempt && (attempt > p.maxAttempts ==> attempt == 1 || attempt == p.maxAttempts + 1)
      invariant calls == attempt - 1
      invariant forall k :: 1 <= k < attempt ==> !Settles(replies(k))
      invariant db.View() == AfterAttempts(old(db.View()), e, replies, calls)
      invariant |sleeps| == if attempt > p.maxAttempts >= 1 then calls - 1 else calls
      invariant Follows(p, sleeps, draws)
      invariant calls > 0 ==> raised == Some(replies(calls).error)
      invariant calls == 0 ==> raised == Some(AssertionError)
    {
      var r := replies(attempt);
      var _, failure := db.InsertEvent(e, r);
      calls := calls + 1;
      raised := failure;
      if failure.None? || !Retryable(failure.value) {
        CallCountUnique(replies, p.maxAttempts, calls, Calls(replies, p.maxAttempts));
        return;
      }
      if attempt < p.maxAttempts {
        sleeps := sleeps + [Delay(p, attempt, draws(attempt))];
      }
      attempt := attempt + 1;
    }
    CallCountUnique(replies, p.maxAttempts, calls, Calls(replies, p.maxAttempts));
  }

  // ------------------------------------------------------------------------------ backoff arithmetic

  function Sum(xs: seq<real>): real {
    if xs == [] then 0.0 else Sum(xs[..|xs| - 1]) + xs[|xs| - 1]
  }

  function Nominals(p: Policy, m: nat): seq<real> {
    seq(m, i requires 0 <= i < m => Nominal(p, i + 1))
  }

  /** The nominal sleep after `m` failed attempts that were all retried. */
  function SumNominal(p: Policy, m: nat): real {
    Sum(Nominals(p, m))
  }

  lemma SumNominalStep(p: Policy, m: nat)
    requires m > 0
    ensures SumNominal(p, m) == SumNominal(p, m - 1) + Nominal(p, m)
  {
    assert Nominals(p, m)[..m - 1] == Nominals(p, m - 1);
  }

  lemma {:induction false} PowAtLeastOne(x: real, n: nat)
    requires x >= 1.0
    ensures Pow(x, n) >= 1.0
  {
    if n > 0 {
      PowAtLeastOne(x, n - 1);
      MulMono(x, 1.0, Pow(x, n - 1));
    }
  }

  lemma MulMono(c: real, a: real, b: real)
    requires a <= b && c >= 0.0
    ensures c * a <= c * b
  {
  }

  lemma NominalNonNegative(p: Policy, k: nat)
    requires Sensible(p) && k >= 1
    ensures Nominal(p, k) >= 0.0
  {
    PowAtLeastOne(p.multiplier, k - 1);
    MulMono(p.base, 0.0, Pow(p.multiplier, k - 1));
  }

  lemma ProductNonNegative(a: real, b: real)
    requires a >= 0.0 && b >= 0.0
    ensures a * b >= 0.0
  {
  }

  lemma DrawBounds(range: real, draw: real)
    requires range >= 0.0 && IsDraw(draw)
    ensures -range <= Times(draw, range) <= range
  {
    ProductNonNegative(range, 1.0 - draw);
    ProductNonNegative(range, draw + 1.0);
    assert range * (1.0 - draw) == range - draw * range;
    assert range * (draw + 1.0) == range + draw * range;
  }

  lemma RangeNonNegative(p: Policy, k: nat)
    requires Sensible(p) && k >= 1
    ensures JitterRange(p, k) >= 0.0
  {
    NominalNonNegative(p, k);
    MulMono(Nominal(p, k), 0.0, p.jitter);
  }

  /** One delay stays within the jitter range of its nominal value. */
  lemma DelayBounds(p: Policy, k: nat, draw: real)
    requires Sensible(p) && k >= 1 && IsDraw(draw)
    ensures -JitterRange(p, k) <= Delay(p, k, draw) - Nominal(p, k) <= JitterRange(p, k)
  {
    RangeNonNegative(p, k);
    DrawBounds(JitterRange(p, k), draw);
  }

  function Scale(xs: seq<real>, c: real): (ys: seq<real>)
    ensures |ys| == |xs| && forall i :: 0 <= i < |xs| ==> ys[i] == Times(xs[i], c)
  {
    seq(|xs|, i requires 0 <= i < |xs| => Times(xs[i], c))
  }

  lemma {:induction false} SumScaled(xs: seq<real>, c: real)
    ensures Sum(Scale(xs, c)) == Times(Sum(xs), c)
  {
    if xs != [] {
      var front, last := xs[..|xs| - 1], xs[|xs| - 1];
      SumScaled(front, c);
      assert Scale(xs, c) == Scale(front, c) + [Times(last, c)];
      assert Scale(xs, c)[..|xs| - 1] == Scale(front, c);
      Distribute(c, Sum(front), last);
    }
  }

  /** Sums differ by no more than the sum of what their terms differ by. */
  lemma {:induction false} SumClose(ns: seq<real>, ds: seq<real>, slack: seq<real>)
    requires |ns| == |ds| == |slack|
    requires forall i :: 0 <= i < |ns| ==> -slack[i] <= ds[i] - ns[i] <= slack[i]
    ensures -Sum(slack) <= Sum(ds) - Sum(ns) <= Sum(slack)
  {
    if ns != [] {
      var m := |ns| - 1;
      SumClose(ns[..m], ds[..m], slack[..m]);
    }
  }

  lemma SleepClose(p: Policy, sleeps: seq<real>, draws: Draws, i: nat)
    requires Sensible(p) && Follows(p, sleeps, draws) && i < |sleeps| && IsDraw(draws(i + 1))
    ensures var ns := Nominals(p, |sleeps|);
            -Scale(ns, p.jitter)[i] <= sleeps[i] - ns[i] <= Scale(ns, p.jitter)[i]
  {
    DelayBounds(p, i + 1, draws(i + 1));
    assert Scale(Nominals(p, |sleeps|), p.jitter)[i] == JitterRange(p, i + 1);
  }

  /** Whatever the draws, the total sleep of a run with `m` retries differs from the nominal total by at
      most the jitter factor times that total. */
  lemma TotalSleepBounds(p: Policy, sleeps: seq<real>, draws: Draws)
    requires Sensible(p) && Follows(p, sleeps, draws) && forall k :: IsDraw(draws(k))
    ensures var total := SumNominal(p, |sleeps|);
            total - Times(total, p.jitter) <= Sum(sleeps) <= total + Times(total, p.jitter)
  {
    var ns := Nominals(p, |sleeps|);
    forall i: nat | i < |sleeps|
      ensures -Scale(ns, p.jitter)[i] <= sleeps[i] - ns[i] <= Scale(ns, p.jitter)[i]
    {
      assert IsDraw(draws(i + 1));
      SleepClose(p, sleeps, draws, i);
    }
    SumClose(ns, sleeps, Scale(ns, p.jitter));
    SumScaled(ns, p.jitter);
  }

  lemma {:induction false} SumShifted(ns: seq<real>, ds: seq<real>, slack: seq<real>)
    requires |ns| == |ds| == |slack| && forall i :: 0 <= i < |ns| ==> ds[i] == ns[i] + slack[i]
    ensures Sum(ds) == Sum(ns) + Sum(slack)
  {
    if ns != [] {
      var m := |ns| - 1;
      SumShifted(ns[..m], ds[..m], slack[..m]);
    }
  }

  /** Both ends of the range are reached, by draws at one end throughout. */
  lemma TotalSleepAttained(p: Policy, sleeps: seq<real>, draws: Draws, high: bool)
    requires Follows(p, sleeps, draws) && forall k :: draws(k) == if high then 1.0 else -1.0
    ensures var total := SumNominal(p, |sleeps|);
            Sum(sleeps) == if high then total + Times(total, p.jitter) else total - Times(total, p.jitter)
  {
    var ns := Nominals(p, |sleeps|);
    var slack := Scale(ns, p.jitter);
    forall i | 0 <= i < |sleeps|
      ensures sleeps[i] == if high then ns[i] + slack[i] else ns[i] - slack[i]
    {
      assert draws(i + 1) == if high then 1.0 else -1.0;
      ExtremeDelays(p, i + 1);
    }
    SumScaled(ns, p.jitter);
    if high {
      SumShifted(ns, sleeps, slack);
    } else {
      SumShifted(sleeps, ns, slack);
    }
  }

  lemma Distribute(c: real, a: real, b: real)
    ensures c * (a + b) == c * a + c * b
  {
  }

  predicate Uncapped(p: Policy, k: nat)
    requires k >= 1
  {
    p.base * Pow(p.multiplier, k - 1) <= p.cap
  }

  /** The first `u` of `m` delays are below the cap and the others are not. */
  ghost predicate CapsAfter(p: Policy, u: nat, m: nat) {
    && u <= m
    && (forall k: nat :: 1 <= k <= u ==> Uncapped(p, k))
    && (forall k: nat :: u < k <= m ==> !Uncapped(p, k))
  }

  /** Closed form of the nominal total: a geometric series up to the cap, or equal steps when the multiplier is
      one, then the cap itself. */
  lemma NominalClosedForm(p: Policy, u: nat, m: nat)
    requires Sensible(p) && CapsAfter(p, u, m)
    ensures SumNominal(p, m) == SumNominal(p, u) + (m - u) as real * p.cap
    ensures (p.multiplier - 1.0) * SumNominal(p, u) == p.base * (Pow(p.multiplier, u) - 1.0)
    ensures p.multiplier == 1.0 ==> SumNominal(p, u) == u as real * p.base
  {
    CappedTail(p, u, m);
    GeometricHead(p, u);
    if p.multiplier == 1.0 {
      ConstantHead(p, u);
    }
  }

  lemma {:induction false} PowOfOne(n: nat)
    ensures Pow(1.0, n) == 1.0
  {
    if n > 0 {
      PowOfOne(n - 1);
    }
  }

  lemma {:induction false} ConstantHead(p: Policy, u: nat)
    requires p.multiplier == 1.0 && forall k: nat :: 1 <= k <= u ==> Uncapped(p, k)
    ensures SumNominal(p, u) == u as real * p.base
  {
    if u > 0 {
      ConstantHead(p, u - 1);
      SumNominalStep(p, u);
      assert Uncapped(p, u);
      PowOfOne(u - 1);
      TailStep(0.0, (u - 1) as real, p.base);
    }
  }

  lemma {:induction false} GeometricHead(p: Policy, u: nat)
    requires Sensible(p) && forall k: nat :: 1 <= k <= u ==> Uncapped(p, k)
    ensures (p.multiplier - 1.0) * SumNominal(p, u) == p.base * (Pow(p.multiplier, u) - 1.0)
  {
    if u > 0 {
      GeometricHead(p, u - 1);
      SumNominalStep(p, u);
      assert Uncapped(p, u);
      GeometricStep(p.multiplier - 1.0, p.base, SumNominal(p, u - 1), Pow(p.multiplier, u - 1));
    }
  }

  lemma GeometricStep(q: real, b: real, s: real, x: real)
    requires q * s == b * (x - 1.0)
    ensures q * (s + b * x) == b * ((q + 1.0) * x - 1.0)
  {
    assert q * (s + b * x) == q * s + q * (b * x);
    assert q * (b * x) == b * (q * x);
    assert b * ((q + 1.0) * x - 1.0) == b * (x - 1.0) + b * (q * x);
  }

  lemma {:induction false} CappedTail(p: Policy, u: nat, m: nat)
    requires CapsAfter(p, u, m)
    ensures SumNominal(p, m) == SumNominal(p, u) + (m - u) as real * p.cap
  {
    if u < m {
      CappedTail(p, u, m - 1);
      SumNominalStep(p, m);
      assert !Uncapped(p, m);
      TailStep(SumNominal(p, u), (m - 1 - u) as real, p.cap);
    }
  }

  lemma TailStep(head: real, c: real, cap: real)
    ensures head + c * cap + cap == head + (c + 1.0) * cap
  {
  }

  /** Once capped, the delays stay capped. */
  lemma CappedStays(p: Policy, k: nat)
    requires Sensible(p) && k >= 1 && !Uncapped(p, k)
    ensures !Uncapped(p, k + 1)
  {
    var x := Pow(p.multiplier, k - 1);
    PowAtLeastOne(p.multiplier, k - 1);
    MulMono(x, 1.0, p.multiplier);
    MulMono(p.base, x, p.multiplier * x);
  }

  /** Every policy has such a split, so the closed form covers every run. */
  lemma {:induction false} CapExists(p: Policy, m: nat) returns (u: nat)
    requires Sensible(p)
    ensures CapsAfter(p, u, m)
  {
    if m == 0 {
      u := 0;
    } else {
      u := CapExists(p, m - 1);
      if u < m - 1 {
        CappedStays(p, m - 1);
      } else if Uncapped(p, m) {
        u := m;
      }
    }
  }

  /** With the shipped settings the nominal delays double from 1 to 16, and then meet the cap. */
  lemma DefaultNominals()
    ensures var p := DEFAULT_POLICY;
            && Nominal(p, 1) == 1.0 && Nominal(p, 2) == 2.0 && Nominal(p, 3) == 4.0 && Nominal(p, 4) == 8.0
            && Nominal(p, 5) == 16.0 && Nominal(p, 6) == 30.0
  {
    assert Pow(2.0, 1) == 2.0 * Pow(2.0, 0);
    assert Pow(2.0, 2) == 2.0 * Pow(2.0, 1);
    assert Pow(2.0, 3) == 2.0 * Pow(2.0, 2);
    assert Pow(2.0, 4) == 2.0 * Pow(2.0, 3);
    assert Pow(2.0, 5) == 2.0 * Pow(2.0, 4);
  }

  lemma DefaultTotal()
    ensures SumNominal(DEFAULT_POLICY, 4) == 15.0
  {
    DefaultNominals();
    SumNominalStep(DEFAULT_POLICY, 1);
    SumNominalStep(DEFAULT_POLICY, 2);
    SumNominalStep(DEFAULT_POLICY, 3);
    SumNominalStep(DEFAULT_POLICY, 4);
  }

  /** The shipped settings: five failing attempts sleep 15 seconds nominally, 11.25 to 18.75 with jitter, both
      ends included. */
  lemma DefaultBudget(sleeps: seq<real>, draws: Draws)
    requires |sleeps| == DEFAULT_POLICY.maxAttempts - 1
    requires Follows(DEFAULT_POLICY, sleeps, draws) && forall k :: IsDraw(draws(k))
    ensures SumNominal(DEFAULT_POLICY, |sleeps|) == 15.0
    ensures 11.25 <= Sum(sleeps) <= 18.75
    ensures (forall k :: draws(k) == 1.0) ==> Sum(sleeps) == 18.75
    ensures (forall k :: draws(k) == -1.0) ==> Sum(sleeps) == 11.25
  {
    DefaultTotal();
    TotalSleepBounds(DEFAULT_POLICY, sleeps, draws);
    if forall k :: draws(k) == 1.0 {
      TotalSleepAttained(DEFAULT_POLICY, sleeps, draws, true);
    } else if forall k :: draws(k) == -1.0 {
      TotalSleepAttained(DEFAULT_POLICY, sleeps, draws, false);
    }
  }

  /** Whatever the two draws, the delay after attempt `k + 1` exceeds the one after attempt `k`. */
  ghost predicate AlwaysGrows(p: Policy, k: nat)
    requires k >= 1
  {
    forall a, b :: IsDraw(a) && IsDraw(b) ==> Delay(p, k, a) < Delay(p, k + 1, b)
  }

  /** Below the cap the jittered delays grow for sure exactly when the multiplier outweighs the jitter. */
  lemma GrowthCondition(p: Policy, k: nat)
    requires Sensible(p) && k >= 1 && Uncapped(p, k + 1)
    ensures AlwaysGrows(p, k) <==> p.multiplier * (1.0 - p.jitter) > 1.0 + p.jitter
  {
    RangesApart(p, k);
    ExtremeDelays(p, k);
    ExtremeDelays(p, k + 1);
    if p.multiplier * (1.0 - p.jitter) > 1.0 + p.jitter {
      forall a, b | IsDraw(a) && IsDraw(b)
        ensures Delay(p, k, a) < Delay(p, k + 1, b)
      {
        DelayBounds(p, k, a);
        DelayBounds(p, k + 1, b);
      }
    }
  }

  /** Both ends of the jitter range are possible delays. */
  lemma ExtremeDelays(p: Policy, k: nat)
    requires k >= 1
    ensures IsDraw(1.0) && Delay(p, k, 1.0) == Nominal(p, k) + JitterRange(p, k)
    ensures IsDraw(-1.0) && Delay(p, k, -1.0) == Nominal(p, k) - JitterRange(p, k)
  {
  }

  lemma RangesApart(p: Policy, k: nat)
    requires Sensible(p) && k >= 1 && Uncapped(p, k + 1)
    ensures p.multiplier * (1.0 - p.jitter) > 1.0 + p.jitter
            <==> Nominal(p, k + 1) - JitterRange(p, k + 1) > Nominal(p, k) + JitterRange(p, k)
  {
    ConsecutiveNominals(p, k);
    Outweighs(Nominal(p, k), Nominal(p, k + 1), p.multiplier, p.jitter);
  }

  lemma ConsecutiveNominals(p: Policy, k: nat)
    requires Sensible(p) && k >= 1 && Uncapped(p, k + 1)
    ensures Nominal(p, k) > 0.0 && Nominal(p, k + 1) == p.multiplier * Nominal(p, k)
  {
    var x := Pow(p.multiplier, k - 1);
    PowAtLeastOne(p.multiplier, k - 1);
    MulMono(p.base, 1.0, x);
    MulMono(x, 1.0, p.multiplier);
    MulMono(p.base, x, p.multiplier * x);
    assert p.base * (p.multiplier * x) == p.multiplier * (p.base * x);
  }

  lemma Outweighs(d: real, e: real, m: real, j: real)
    requires d > 0.0 && e == m * d
    ensures m * (1.0 - j) > 1.0 + j <==> e - Times(e, j) > d + Times(d, j)
  {
    Regroup(m, d, j);
    Distribute(d, 1.0, j);
    ScaledOrder(m * (1.0 - j), 1.0 + j, d);
  }

  lemma Regroup(m: real, d: real, j: real)
    ensures m * d - Times(m * d, j) == (m * (1.0 - j)) * d
  {
    assert m * (1.0 - j) == m - m * j;
    assert (m - m * j) * d == m * d - (m * j) * d;
    assert (m * j) * d == (m * d) * j;
  }

  lemma ScaledOrder(a: real, b: real, d: real)
    requires d > 0.0
    ensures a > b <==> a * d > b * d
  {
    if a > b {
      assert (a - b) * d > 0.0;
      assert (a - b) * d == a * d - b * d;
    } else {
      MulMono(d, a, b);
    }
  }
}
