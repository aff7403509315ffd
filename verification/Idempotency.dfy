/** The Redis claim on an event id (apps/worker/idempotency.py): single and batched `SET NX EX`, release,
    and what the claims guarantee over a whole timed run. */
module Idempotency {
  import opened Models

  /** How one Redis command ended: answered, or raised with or without having been applied. */
  datatype Reply = Answered | LostBefore | LostAfter

  // ------------------------------------------------------------------- claims on a set of live keys

  function ClaimKeys(keys: set<string>, key: string, r: Reply): set<string> {
    if r.LostBefore? then keys else keys + {key}
  }

  /** Fail-open: an error counts as a fresh event. */
  predicate ClaimVerdict(keys: set<string>, key: string, r: Reply) {
    r.Answered? ==> key !in keys
  }

  function ReleaseKeys(keys: set<string>, key: string, r: Reply): set<string> {
    if r.LostBefore? then keys else keys - {key}
  }

  /** Claiming ids one after the other, every command answered. */
  function ClaimEach(keys: set<string>, ids: seq<string>): (set<string>, seq<bool>) {
    if ids == [] then (keys, [])
    else
      var n := |ids| - 1;
      var (k, vs) := ClaimEach(keys, ids[..n]);
      (ClaimKeys(k, Key(ids[n]), Answered), vs + [ClaimVerdict(k, Key(ids[n]), Answered)])
  }

  function KeysOf(ids: seq<string>): set<string> {
    set id | id in ids :: Key(id)
  }

  lemma KeysOneMore(ids: seq<string>, i: nat)
    requires i < |ids|
    ensures KeysOf(ids[..i + 1]) == KeysOf(ids[..i]) + {Key(ids[i])}
  {
    assert ids[..i + 1] == ids[..i] + [ids[i]];
  }

  /** The verdict on position `i`: the id was not live before and does not occur earlier in the list. */
  predicate Fresh(keys: set<string>, ids: seq<string>, i: nat)
    requires i < |ids|
  {
    Key(ids[i]) !in keys && ids[i] !in ids[..i]
  }

  function Verdicts(keys: set<string>, ids: seq<string>): seq<bool> {
    seq(|ids|, i requires 0 <= i < |ids| => Fresh(keys, ids, i))
  }

  /** Claiming one after the other admits exactly the first occurrence of every id that was not live. */
  lemma {:induction false} ClaimEachExact(keys: set<string>, ids: seq<string>)
    ensures ClaimEach(keys, ids) == (keys + KeysOf(ids), Verdicts(keys, ids))
  {
    if ids == [] {
      assert keys + KeysOf(ids) == keys;
    } else {
      var n := |ids| - 1;
      ClaimEachExact(keys, ids[..n]);
      assert ids == ids[..n] + [ids[n]];
      assert KeysOf(ids) == KeysOf(ids[..n]) + {Key(ids[n])};
      assert keys + KeysOf(ids) == keys + KeysOf(ids[..n]) + {Key(ids[n])};
      forall id | id in ids[..n]
        ensures Key(id) == Key(ids[n]) <==> id == ids[n]
      {
        KeyInjective(id, ids[n]);
      }
      assert forall i :: 0 <= i < n ==> ids[..n][..i] == ids[..i];
      assert Fresh(keys, ids, n) <==> Key(ids[n]) !in keys + KeysOf(ids[..n]);
      assert Verdicts(keys, ids) == Verdicts(keys, ids[..n]) + [Fresh(keys, ids, n)];
    }
  }

  // ------------------------------------------------------------------------------ keys with expiry

  predicate LiveAt(m: map<string, int>, key: string, now: int) {
    key in m && now < m[key]
  }

  /** Expiry times after `SET key NX EX ttl` at time `now`. */
  function Leased(m: map<string, int>, key: string, now: int, ttl: nat): map<string, int> {
    if LiveAt(m, key, now) then m else m[key := now + ttl]
  }

  /** Expiry times after one such `SET` for each of the keys `ks`. */
  function LeasedAll(m: map<string, int>, ks: set<string>, now: int, ttl: nat): map<string, int> {
    map k | k in m.Keys + ks :: if k in ks && !LiveAt(m, k, now) then now + ttl else m[k]
  }

  lemma LeasedOneMore(m: map<string, int>, ks: set<string>, key: string, now: int, ttl: nat)
    requires ttl > 0
    ensures Leased(LeasedAll(m, ks, now, ttl), key, now, ttl) == LeasedAll(m, ks + {key}, now, ttl)
  {
  }

  function CountFalse(verdicts: seq<bool>): nat {
    if verdicts == [] then 0
    else CountFalse(verdicts[..|verdicts| - 1]) + (if verdicts[|verdicts| - 1] then 0 else 1)
  }

  lemma {:induction false} CountFalseExact(verdicts: seq<bool>)
    ensures CountFalse(verdicts) == |set i | 0 <= i < |verdicts| && !verdicts[i]|
  {
    if verdicts != [] {
      var n := |verdicts| - 1;
      CountFalseExact(verdicts[..n]);
      var before, all := set i | 0 <= i < n && !verdicts[..n][i], set i | 0 <= i < |verdicts| && !verdicts[i];
      assert all == if verdicts[n] then before else before + {n};
    }
  }

  class IdempotencyGuard {
    const ttl: nat
    var clock: int
    var expiry: map<string, int>
    var duplicates: nat

    ghost predicate Valid() {
      ttl > 0
    }

    /** The keys a Redis command would find now. */
    ghost function Live(): set<string>
      reads this
    {
      set k | k in expiry && clock < expiry[k]
    }

    constructor (ttl: nat)
      requires ttl > 0
      ensures Valid() && this.ttl == ttl && Live() == {} && duplicates == 0
    {
      this.ttl := ttl;
      clock, expiry, duplicates := 0, map[], 0;
    }

    /** `SET key 1 NX EX ttl`. */
    method SetNx(key: string) returns (done: bool)
      requires Valid()
      modifies this`expiry
      ensures done <==> key !in old(Live())
      ensures Live() == old(Live()) + {key}
      ensures expiry == Leased(old(expiry), key, clock, ttl)
    {
      done := key !in expiry || expiry[key] <= clock;
      if done {
        expiry := expiry[key := clock + ttl];
      }
    }

    /** `is_new`: claim the id; a live key is a duplicate, an error admits the event. */
    method IsNew(id: string, r: Reply) returns (isNew: bool)
      requires Valid()
      modifies this`expiry, this`duplicates
      ensures isNew <==> ClaimVerdict(old(Live()), Key(id), r)
      ensures isNew <==> r != Answered || Key(id) !in old(Live())
      ensures Live() == if r == LostBefore then old(Live()) else old(Live()) + {Key(id)}
      ensures Live() == ClaimKeys(old(Live()), Key(id), r)
      ensures expiry == if r.LostBefore? then old(expiry) else Leased(old(expiry), Key(id), clock, ttl)
      ensures duplicates == old(duplicates) + (if isNew then 0 else 1)
    {
      if r.LostBefore? {
        return true;
      }
      var done := SetNx(Key(id));
      if r.LostAfter? {
        return true;
      }
      if !done {
        duplicates := duplicates + 1;
      }
      isNew := done;
    }

    /** The pipelined round trip of a batch: one reply per id. */
    method SetEachNx(ids: seq<string>) returns (results: seq<bool>)
      requires Valid()
      modifies this`expiry
      ensures (Live(), results) == ClaimEach(old(Live()), ids)
      ensures expiry == LeasedAll(old(expiry), KeysOf(ids), clock, ttl)
    {
      results := [];
      for i := 0 to |ids|
        invariant |results| == i
        invariant (Live(), results) == ClaimEach(old(Live()), ids[..i])
        invariant expiry == LeasedAll(old(expiry), KeysOf(ids[..i]), clock, ttl)
      {
        assert ids[..i + 1][..i] == ids[..i];
        KeysOneMore(ids, i);
        LeasedOneMore(old(expiry), KeysOf(ids[..i]), Key(ids[i]), clock, ttl);
        var done := SetNx(Key(ids[i]));
        results := results + [done];
      }
      assert ids[..|ids|] == ids;
    }

    /** `are_new_batch`, all commands answered: one verdict per reply, one duplicate counted per refusal. */
    method AreNewBatch(ids: seq<string>) returns (outcomes: seq<bool>)
      requires Valid()
      modifies this`expiry, this`duplicates
      ensures Live() == old(Live()) + KeysOf(ids)
      ensures outcomes == Verdicts(old(Live()), ids)
      ensures (Live(), outcomes) == ClaimEach(old(Live()), ids)
      ensures expiry == LeasedAll(old(expiry), KeysOf(ids), clock, ttl)
      ensures duplicates == old(duplicates) + CountFalse(outcomes)
    {
      ClaimEachExact(Live(), ids);
      outcomes := [];
      if ids == [] {
        return;
      }
      var results := SetEachNx(ids);
      for i := 0 to |results|
        modifies this`duplicates
        invariant outcomes == results[..i] && duplicates == old(duplicates) + CountFalse(outcomes)
      {
        assert results[..i + 1][..i] == results[..i];
        if !results[i] {
          duplicates := duplicates + 1;
        }
        outcomes := outcomes + [results[i]];
      }
    }

    /** `are_new_batch` when the pipeline raises after `applied` of its commands took effect: every event of
        the batch is admitted, and the applied commands keep their claims. */
    method AreNewBatchBroken(ids: seq<string>, applied: nat) returns (outcomes: seq<bool>)
      requires Valid() && applied <= |ids|
      modifies this`expiry
      ensures Live() == old(Live()) + KeysOf(ids[..applied])
      ensures expiry == LeasedAll(old(expiry), KeysOf(ids[..applied]), clock, ttl)
      ensures |outcomes| == |ids| && forall i :: 0 <= i < |ids| ==> outcomes[i]
    {
      for i := 0 to applied
        invariant Live() == old(Live()) + KeysOf(ids[..i])
        invariant expiry == LeasedAll(old(expiry), KeysOf(ids[..i]), clock, ttl)
      {
        KeysOneMore(ids, i);
        LeasedOneMore(old(expiry), KeysOf(ids[..i]), Key(ids[i]), clock, ttl);
        var _ := SetNx(Key(ids[i]));
      }
      outcomes := seq(|ids|, i => true);
    }

    /** `release`: best effort, never raises. */
    method Release(id: string, r: Reply)
      modifies this`expiry
      ensures Live() == ReleaseKeys(old(Live()), Key(id), r)
      ensures Live() == if r == LostBefore then old(Live()) else old(Live()) - {Key(id)}
      ensures expiry == if r.LostBefore? then old(expiry) else old(expiry) - {Key(id)}
    {
      if !r.LostBefore? {
        expiry := expiry - {Key(id)};
      }
    }
  }

  // ------------------------------------------------------------------------------------ timed runs

  /** The commands Redis answered, in the order it served them. A batch contributes its commands one by
      one, at whatever positions other clients leave it: the pipeline is not a transaction. An id stands for
      its key; different ids have different keys. */
  datatype Op = Claim(at: int, id: string) | Drop(at: int, id: string)

  predicate Ordered(ops: seq<Op>) {
    forall i, j :: 0 <= i < j < |ops| ==> ops[i].at <= ops[j].at
  }

  /** Expiry times after the first `n` commands. */
  function After(ops: seq<Op>, n: nat, ttl: nat): map<string, int>
    requires n <= |ops|
  {
    if n == 0 then map[]
    else
      var m := After(ops, n - 1, ttl);
      var op := ops[n - 1];
      match op
      case Claim(at, id) => Leased(m, id, at, ttl)
      case Drop(_, id) => m - {id}
  }

  predicate Won(ops: seq<Op>, j: nat, ttl: nat)
    requires j < |ops|
  {
    ops[j].Claim? && !LiveAt(After(ops, j, ttl), ops[j].id, ops[j].at)
  }

  /** No release of `id` strictly between positions `i` and `n`. */
  predicate NoDrop(ops: seq<Op>, i: int, n: int, id: string)
    requires n <= |ops|
  {
    forall k :: 0 <= k && i < k < n ==> ops[k].id == id ==> ops[k].Claim?
  }

  /** Position `i` won `id`, its lease covers time `t`, and nothing released it before position `n`. */
  predicate Holds(ops: seq<Op>, i: nat, n: nat, id: string, t: int, ttl: nat)
    requires i < n <= |ops|
  {
    ops[i].id == id && Won(ops, i, ttl) && t < ops[i].at + ttl && NoDrop(ops, i, n, id)
  }

  /** The last claim of `id` that still shows in the expiry map. */
  lemma {:induction false} LastWinner(ops: seq<Op>, n: nat, id: string, ttl: nat) returns (i: nat)
    requires n <= |ops| && id in After(ops, n, ttl)
    ensures i < n && ops[i].id == id && Won(ops, i, ttl) && NoDrop(ops, i, n, id)
    ensures After(ops, n, ttl)[id] == ops[i].at + ttl
  {
    var op := ops[n - 1];
    if op.id == id && Won(ops, n - 1, ttl) {
      i := n - 1;
    } else {
      i := LastWinner(ops, n - 1, id, ttl);
    }
  }

  /** A claim nobody released is still in the map, with an expiry at least as late as its own. */
  lemma {:induction false} WinnerKept(ops: seq<Op>, i: nat, n: nat, id: string, ttl: nat)
    requires i < n <= |ops| && Ordered(ops)
    requires ops[i].id == id && Won(ops, i, ttl) && NoDrop(ops, i, n, id)
    ensures id in After(ops, n, ttl) && ops[i].at + ttl <= After(ops, n, ttl)[id]
  {
    if i < n - 1 {
      WinnerKept(ops, i, n - 1, id, ttl);
    }
  }

  /** A claim succeeds exactly when no earlier successful claim of the id is both unexpired and unreleased:
      the verdicts of a run need no mention of the key store. */
  lemma WonExact(ops: seq<Op>, j: nat, ttl: nat)
    requires j < |ops| && ops[j].Claim? && Ordered(ops)
    ensures Won(ops, j, ttl) <==> !exists i: nat :: i < j && Holds(ops, i, j, ops[j].id, ops[j].at, ttl)
  {
    var id, t := ops[j].id, ops[j].at;
    if !Won(ops, j, ttl) {
      var i := LastWinner(ops, j, id, ttl);
      assert Holds(ops, i, j, id, t, ttl);
    }
    if i: nat :| i < j && Holds(ops, i, j, id, t, ttl) {
      WinnerKept(ops, i, j, id, ttl);
    }
  }

  /** Two successful claims of one id with no release between them are at least one lease apart. */
  lemma ClaimsSpaced(ops: seq<Op>, i: nat, j: nat, ttl: nat)
    requires i < j < |ops| && Ordered(ops)
    requires ops[i].id == ops[j].id && Won(ops, i, ttl) && Won(ops, j, ttl)
    requires NoDrop(ops, i, j, ops[i].id)
    ensures ops[j].at - ops[i].at >= ttl
  {
    WonExact(ops, j, ttl);
    if ops[j].at - ops[i].at < ttl {
      assert Holds(ops, i, j, ops[j].id, ops[j].at, ttl);
    }
  }

  function CountWon(ops: seq<Op>, id: string, a: nat, b: nat, ttl: nat): nat
    requires a <= b <= |ops|
  {
    if a == b then 0
    else CountWon(ops, id, a, b - 1, ttl) + (if ops[b - 1].id == id && Won(ops, b - 1, ttl) then 1 else 0)
  }

  function CountDrops(ops: seq<Op>, id: string, a: nat, b: nat): nat
    requires a <= b <= |ops|
  {
    if a == b then 0
    else CountDrops(ops, id, a, b - 1) + (if ops[b - 1] == Drop(ops[b - 1].at, id) then 1 else 0)
  }

  /** Some claim made since position `a` is not yet released at position `b`. */
  ghost predicate Held(ops: seq<Op>, id: string, a: nat, b: nat, ttl: nat)
    requires a <= b <= |ops|
  {
    exists i: nat :: a <= i < b && ops[i].id == id && Won(ops, i, ttl) && NoDrop(ops, i, b, id)
  }

  lemma {:induction false} WinsBoundedStep(ops: seq<Op>, id: string, a: nat, b: nat, ttl: nat)
    requires a <= b <= |ops| && Ordered(ops)
    requires a < b ==> ops[b - 1].at - ops[a].at < ttl
    ensures CountWon(ops, id, a, b, ttl)
            <= CountDrops(ops, id, a, b) + (if Held(ops, id, a, b, ttl) then 1 else 0)
  {
    if a < b {
      WinsBoundedStep(ops, id, a, b - 1, ttl);
      var last := ops[b - 1];
      if last.id == id && Won(ops, b - 1, ttl) {
        if Held(ops, id, a, b - 1, ttl) {
          var i: nat :| a <= i < b - 1 && ops[i].id == id && Won(ops, i, ttl) && NoDrop(ops, i, b - 1, id);
          ClaimsSpaced(ops, i, b - 1, ttl);
        }
        assert NoDrop(ops, b - 1, b, id);
        assert Held(ops, id, a, b, ttl);
      } else if last == Drop(last.at, id) {
      } else if Held(ops, id, a, b - 1, ttl) {
        var i: nat :| a <= i < b - 1 && ops[i].id == id && Won(ops, i, ttl) && NoDrop(ops, i, b - 1, id);
        assert NoDrop(ops, i, b, id);
      }
    }
  }

  /** In any span shorter than the lease an id is claimed successfully at most once more than it is
      released, however the clients interleave. */
  lemma WinsBounded(ops: seq<Op>, id: string, a: nat, b: nat, ttl: nat)
    requires a < b <= |ops| && Ordered(ops) && ops[b - 1].at - ops[a].at < ttl
    ensures CountWon(ops, id, a, b, ttl) <= 1 + CountDrops(ops, id, a, b)
  {
    WinsBoundedStep(ops, id, a, b, ttl);
  }

  /** No claim of `id` strictly between positions `d` and `n`. */
  predicate NoClaim(ops: seq<Op>, d: int, n: int, id: string)
    requires n <= |ops|
  {
    forall k :: 0 <= k && d < k < n ==> ops[k].id == id ==> !ops[k].Claim?
  }

  /** Since the beginning (`d == -1`) or since the release at `d`, position `first` is the first to claim
      its id. */
  predicate FirstSince(ops: seq<Op>, d: int, first: nat)
    requires first < |ops|
  {
    && -1 <= d < first && ops[first].Claim? && NoClaim(ops, d, first, ops[first].id)
    && (d >= 0 ==> ops[d] == Drop(ops[d].at, ops[first].id))
  }

  /** The first claim of an id after a release, or ever, wins, and until the next release or the end of its
      lease no other does. */
  lemma FirstClaimWins(ops: seq<Op>, d: int, first: nat, later: nat, ttl: nat)
    requires first <= later < |ops| && Ordered(ops) && FirstSince(ops, d, first)
    requires ops[later].Claim? && ops[first].id == ops[later].id
    requires NoDrop(ops, first, later, ops[first].id) && ops[later].at - ops[first].at < ttl
    ensures Won(ops, later, ttl) <==> later == first
  {
    var id := ops[first].id;
    WonExact(ops, first, ttl);
    if first < later && Won(ops, later, ttl) {
      ClaimsSpaced(ops, first, later, ttl);
    }
  }
}
