/** Deduplication: when an event is stored at most once, and why every condition is needed. */
module Uniqueness {
  import opened Wrappers
  import opened Models
  import opened Database
  import opened Idempotency
  import opened Handlers
  import opened Tasks

  // ------------------------------------------------------------------------------------ conditions

  /** Every event id is always sent in the same spelling. Upper case, as the ingestion service sends, is one
      way of doing so. */
  ghost predicate OneSpelling(w: World) {
    forall n, m :: 0 <= n < |w.msgs| && 0 <= m < |w.msgs| && SameEventId(w.msgs[n], w.msgs[m]) ==>
                     w.msgs[n].raw.eventId == w.msgs[m].raw.eventId
  }

  predicate SameEventId(m: Input, o: Input) {
    Accepted(m.raw) && Accepted(o.raw) && Event(m).eventId == Event(o).eventId
  }

  /** What the ingestion service forwards is in one spelling. */
  lemma UpperCaseIsOneSpelling(w: World)
    requires forall n :: 0 <= n < |w.msgs| && Accepted(w.msgs[n].raw) ==>
                           w.msgs[n].raw.eventId.text == Upper(w.msgs[n].raw.eventId.text)
    ensures OneSpelling(w)
  {
  }

  /** No `SET` errors, no key expires or is evicted, a failed insert writes nothing. */
  predicate CleanAction(a: Action) {
    match a
    case Claim(_, r) => r.Answered?
    case Insert(_, r) => r.Returned? || r.writtenAt.None?
    case Expire(_) => false
    case _ => true
  }

  predicate Clean(run: seq<Action>) {
    forall i :: 0 <= i < |run| ==> CleanAction(run[i])
  }

  // ------------------------------------------------------------------------------- at most one row

  /** Task `n` stored its event, or holds the claim on it and may still store it. */
  predicate Owns(w: World, n: nat) {
    && n < |w.msgs| && Accepted(w.msgs[n].raw)
    && (n in w.completed
        || (n in w.tasks && (w.tasks[n].AtSchema? || w.tasks[n].AtInsert? || w.tasks[n].AtRelease?)))
  }

  /** Completed inserts and claim holders of one id are together at most one, and while there is one the id's
      key is in Redis. */
  ghost predicate OneOwner(w: World) {
    && (forall n: nat, m: nat ::
          Owns(w, n) && Owns(w, m) && ClaimKey(w.msgs[n].raw) == ClaimKey(w.msgs[m].raw) ==> n == m)
    && (forall n: nat :: Owns(w, n) ==> ClaimKey(w.msgs[n].raw).Some? && ClaimKey(w.msgs[n].raw).value in w.store.keys)
  }

  /** The row was written by a completed insert of its event. */
  ghost predicate RowOwned(w: World, k: RowKey)
    requires k in w.store.tables.events
  {
    && k in w.writer && w.writer[k] in w.completed && w.writer[k] < |w.msgs|
    && Accepted(w.msgs[w.writer[k]].raw)
    && w.store.tables.events[k] == Event(w.msgs[w.writer[k]])
    && k.eventId == Event(w.msgs[w.writer[k]]).eventId
  }

  ghost predicate SameWriter(w: World, k: RowKey, l: RowKey) {
    k in w.writer && l in w.writer && w.writer[k] == w.writer[l]
  }

  /** No two rows were written by the same task. */
  ghost predicate WritersDiffer(w: World) {
    forall k, l :: k in w.store.tables.events && l in w.store.tables.events && SameWriter(w, k, l) ==> k == l
  }

  ghost predicate RowsOwned(w: World) {
    (forall k :: k in w.store.tables.events ==> RowOwned(w, k)) && WritersDiffer(w)
  }

  lemma AcceptedHasKey(m: Input)
    requires Accepted(m.raw)
    ensures ClaimKey(m.raw) == Some(Key(m.raw.eventId.text))
  {
  }

  /** An owner that was not one before has just won its claim. */
  lemma NewOwner(w: World, a: Action, n: nat)
    requires History(w) && Enabled(w, a) && CleanAction(a) && Owns(Step(w, a), n) && !Owns(w, n)
    ensures a.Claim? && a.n == n && n < |w.msgs| && Accepted(w.msgs[n].raw)
    ensures ClaimKey(w.msgs[n].raw).value !in w.store.keys
  {
    assert HistoryOf(w, n);
    if n < |w.msgs| && Accepted(w.msgs[n].raw) {
      AcceptedHasKey(w.msgs[n]);
    }
  }

  lemma OwnerKeepsMessage(w: World, a: Action, n: nat)
    requires Enabled(w, a) && n < |w.msgs|
    ensures n < |Step(w, a).msgs| && Step(w, a).msgs[n] == w.msgs[n]
  {
  }

  /** In one spelling, an id that is another one's upper-case form is the same id. */
  lemma ReleaseHitsOwnKey(w: World, n: nat, m: nat)
    requires OneSpelling(w) && n < |w.msgs| && m < |w.msgs| && Accepted(w.msgs[n].raw) && Accepted(w.msgs[m].raw)
    requires ClaimKey(w.msgs[n].raw) == Some(Key(Event(w.msgs[m]).eventId))
    ensures ClaimKey(w.msgs[n].raw) == ClaimKey(w.msgs[m].raw)
  {
    KeyInjective(w.msgs[n].raw.eventId.text, Event(w.msgs[m]).eventId);
    UpperIdempotent(w.msgs[m].raw.eventId.text);
    assert SameEventId(w.msgs[n], w.msgs[m]);
  }

  /** The only key that disappears is one that a failed task releases, and no task owns it then. */
  lemma KeyDropped(w: World, a: Action, n: nat)
    requires History(w) && OneSpelling(w) && OneOwner(w) && Enabled(w, a) && CleanAction(a)
    requires Owns(w, n) && Owns(Step(w, a), n)
    ensures ClaimKey(w.msgs[n].raw).value in Step(w, a).store.keys
  {
    AcceptedHasKey(w.msgs[n]);
    if a.Release? && ClaimKey(w.msgs[n].raw) == Some(Key(Event(w.msgs[a.n]).eventId)) {
      assert HistoryOf(w, a.n) && Owns(w, a.n);
      ReleaseHitsOwnKey(w, n, a.n);
    }
  }

  lemma StepOneOwner(w: World, a: Action)
    requires History(w) && OneSpelling(w) && OneOwner(w) && Enabled(w, a) && CleanAction(a)
    ensures OneOwner(Step(w, a))
  {
    var u := Step(w, a);
    forall n: nat | Owns(u, n)
      ensures ClaimKey(u.msgs[n].raw).Some? && ClaimKey(u.msgs[n].raw).value in u.store.keys
    {
      AcceptedHasKey(u.msgs[n]);
      if Owns(w, n) {
        KeyDropped(w, a, n);
        OwnerKeepsMessage(w, a, n);
      } else {
        NewOwner(w, a, n);
      }
    }
    forall n: nat, m: nat | Owns(u, n) && Owns(u, m) && ClaimKey(u.msgs[n].raw) == ClaimKey(u.msgs[m].raw)
      ensures n == m
    {
      if !Owns(w, n) {
        NewOwner(w, a, n);
      }
      if !Owns(w, m) {
        NewOwner(w, a, m);
      }
      if n < |w.msgs| && m < |w.msgs| {
        OwnerKeepsMessage(w, a, n);
        OwnerKeepsMessage(w, a, m);
      }
    }
  }

  predicate SameRows(w: World, u: World) {
    && u.store.tables.events == w.store.tables.events && u.writer == w.writer
    && w.completed <= u.completed && w.msgs <= u.msgs
  }

  lemma RowsElsewhere(w: World, a: Action)
    requires Enabled(w, a) && !a.Insert?
    ensures SameRows(w, Step(w, a))
  {
  }

  lemma SameRowsOwned(w: World, u: World)
    requires RowsOwned(w) && SameRows(w, u)
    ensures RowsOwned(u)
  {
    assert forall n :: 0 <= n < |w.msgs| ==> u.msgs[n] == w.msgs[n];
    forall k | k in u.store.tables.events
      ensures RowOwned(u, k)
    {
      assert RowOwned(w, k);
    }
  }

  /** What a clean insert attempt of task `n` does to rows and writers. */
  predicate RowsWritten(w: World, u: World, n: nat, r: InsertReply)
    requires n < |w.msgs| && Accepted(w.msgs[n].raw)
  {
    var e := Event(w.msgs[n]);
    && u.msgs == w.msgs
    && u.completed == (if r.Returned? then w.completed + {n} else w.completed)
    && if r.Returned? && RowKey(e.eventId, r.now) !in w.store.tables.events then
         && u.store.tables.events == w.store.tables.events[RowKey(e.eventId, r.now) := e]
         && u.writer == w.writer[RowKey(e.eventId, r.now) := n]
       else
         u.store.tables.events == w.store.tables.events && u.writer == w.writer
  }

  lemma InsertWritesRow(w: World, n: nat, r: InsertReply)
    requires Enabled(w, Insert(n, r)) && CleanAction(Insert(n, r))
    ensures RowsWritten(w, Step(w, Insert(n, r)), n, r)
  {
  }

  lemma WrittenRowOwned(w: World, u: World, n: nat, r: InsertReply, k: RowKey)
    requires n < |w.msgs| && Accepted(w.msgs[n].raw) && n !in w.completed
    requires RowsOwned(w) && RowsWritten(w, u, n, r) && k in u.store.tables.events
    ensures RowOwned(u, k)
    ensures k in w.store.tables.events ==> k in w.writer && w.writer[k] != n && u.writer[k] == w.writer[k]
    ensures k !in w.store.tables.events ==>
              r.Returned? && k == RowKey(Event(w.msgs[n]).eventId, r.now) && u.writer[k] == n
  {
    if k in w.store.tables.events {
      assert RowOwned(w, k);
    }
  }

  lemma WrittenRowsOwned(w: World, u: World, n: nat, r: InsertReply)
    requires n < |w.msgs| && Accepted(w.msgs[n].raw) && n !in w.completed
    requires RowsOwned(w) && RowsWritten(w, u, n, r)
    ensures RowsOwned(u)
  {
    forall k | k in u.store.tables.events
      ensures RowOwned(u, k)
    {
      WrittenRowOwned(w, u, n, r, k);
    }
    forall k, l | k in u.store.tables.events && l in u.store.tables.events && SameWriter(u, k, l)
      ensures k == l
    {
      WrittenRowOwned(w, u, n, r, k);
      WrittenRowOwned(w, u, n, r, l);
      assert k in w.store.tables.events && l in w.store.tables.events ==> SameWriter(w, k, l);
    }
  }

  lemma StepRowsOwned(w: World, a: Action)
    requires History(w) && RowsOwned(w) && Enabled(w, a) && CleanAction(a)
    ensures RowsOwned(Step(w, a))
  {
    if a.Insert? {
      assert HistoryOf(w, a.n);
      InsertWritesRow(w, a.n, a.insert);
      WrittenRowsOwned(w, Step(w, a), a.n, a.insert);
    } else {
      RowsElsewhere(w, a);
      SameRowsOwned(w, Step(w, a));
    }
  }

  ghost predicate CleanInv(w: World) {
    History(w) && OneOwner(w) && RowsOwned(w)
  }

  lemma StepCleanInv(w: World, a: Action)
    requires CleanInv(w) && OneSpelling(w) && Enabled(w, a) && CleanAction(a)
    ensures CleanInv(Step(w, a))
  {
    StepHistory(w, a);
    StepOneOwner(w, a);
    StepRowsOwned(w, a);
  }

  lemma SpelledBefore(w: World, a: Action)
    requires Enabled(w, a) && OneSpelling(Step(w, a))
    ensures OneSpelling(w)
  {
    forall n, m | 0 <= n < |w.msgs| && 0 <= m < |w.msgs| && SameEventId(w.msgs[n], w.msgs[m])
      ensures w.msgs[n].raw.eventId == w.msgs[m].raw.eventId
    {
      OwnerKeepsMessage(w, a, n);
      OwnerKeepsMessage(w, a, m);
    }
  }

  lemma {:induction false} RunCleanInv(w: World, run: seq<Action>)
    requires CleanInv(w) && Valid(w, run) && Clean(run) && OneSpelling(Exec(w, run))
    ensures CleanInv(Exec(w, run))
  {
    if run != [] {
      var before := run[..|run| - 1];
      SpelledBefore(Exec(w, before), run[|run| - 1]);
      RunCleanInv(w, before);
      assert CleanAction(run[|run| - 1]);
      StepCleanInv(Exec(w, before), run[|run| - 1]);
    }
  }

  lemma SameIdSameKey(w: World, n: nat, m: nat)
    requires OneSpelling(w) && n < |w.msgs| && m < |w.msgs| && SameEventId(w.msgs[n], w.msgs[m])
    ensures ClaimKey(w.msgs[n].raw) == ClaimKey(w.msgs[m].raw)
  {
  }

  /** Owners of one event id are one. */
  lemma SameOwner(w: World, n: nat, m: nat)
    requires OneOwner(w) && OneSpelling(w) && Owns(w, n) && Owns(w, m) && SameEventId(w.msgs[n], w.msgs[m])
    ensures n == m
  {
    SameIdSameKey(w, n, m);
  }

  lemma RowsUnique(w: World, k: RowKey, l: RowKey)
    requires CleanInv(w) && OneSpelling(w)
    requires k in w.store.tables.events && l in w.store.tables.events && k.eventId == l.eventId
    ensures k == l
  {
    WriterOwns(w, k);
    WriterOwns(w, l);
    SameOwner(w, w.writer[k], w.writer[l]);
    assert SameWriter(w, k, l);
  }

  lemma WriterOwns(w: World, k: RowKey)
    requires RowsOwned(w) && k in w.store.tables.events
    ensures k in w.writer && Owns(w, w.writer[k]) && Event(w.msgs[w.writer[k]]).eventId == k.eventId
  {
    assert RowOwned(w, k);
  }

  /** The rows of one event id. */
  function RowsOf(w: World, id: string): set<RowKey> {
    set k | k in w.store.tables.events && k.eventId == id
  }

  /** The task is past its claim and may still write its row. */
  predicate MayWrite(w: World, n: nat, id: string) {
    && n in w.tasks && n < |w.msgs| && Accepted(w.msgs[n].raw) && Event(w.msgs[n]).eventId == id
    && (w.tasks[n].AtSchema? || w.tasks[n].AtInsert? || w.tasks[n].AtRelease?)
  }

  /** The tasks that hold a claim on an event id and have not settled it. */
  function HoldersOf(w: World, id: string): set<nat> {
    set n | n in w.tasks && MayWrite(w, n, id)
  }

  lemma NoHolderBesideRow(w: World, k: RowKey, n: nat)
    requires CleanInv(w) && OneSpelling(w) && k in w.store.tables.events
    ensures !MayWrite(w, n, k.eventId)
  {
    assert RowOwned(w, k) && HistoryOf(w, n);
    if MayWrite(w, n, k.eventId) {
      SameIdSameKey(w, n, w.writer[k]);
    }
  }

  lemma OneHolder(w: World, n: nat, m: nat, id: string)
    requires CleanInv(w) && OneSpelling(w) && MayWrite(w, n, id) && MayWrite(w, m, id)
    ensures n == m
  {
    SameOwner(w, n, m);
  }

  lemma RowsOrHolder(w: World, id: string)
    requires CleanInv(w) && OneSpelling(w)
    ensures |RowsOf(w, id)| + |HoldersOf(w, id)| <= 1
  {
    forall k, l | k in RowsOf(w, id) && l in RowsOf(w, id)
      ensures k == l
    {
      RowsUnique(w, k, l);
    }
    AtMostOne(RowsOf(w, id));
    forall n, m | n in HoldersOf(w, id) && m in HoldersOf(w, id)
      ensures n == m
    {
      OneHolder(w, n, m, id);
    }
    AtMostOne(HoldersOf(w, id));
    if k, n :| k in RowsOf(w, id) && n in HoldersOf(w, id) {
      NoHolderBesideRow(w, k, n);
    }
  }

  lemma RowOrHolderKeepsKey(w: World, id: string, m: nat)
    requires CleanInv(w) && OneSpelling(w) && (RowsOf(w, id) != {} || HoldersOf(w, id) != {})
    requires m < |w.msgs| && Accepted(w.msgs[m].raw) && Event(w.msgs[m]).eventId == id
    ensures ClaimKey(w.msgs[m].raw).value in w.store.keys
  {
    var n: nat;
    if k :| k in RowsOf(w, id) {
      assert RowOwned(w, k);
      n := w.writer[k];
    } else {
      n :| n in HoldersOf(w, id);
    }
    SameIdSameKey(w, n, m);
    assert Owns(w, n);
  }

  /** At most one row: whatever the interleaving, the redeliveries and the crashes, in a clean run whose ids
      are each spelt in one way, the rows of an id and the tasks that may still write one are together at most
      one, and while there is one every message with that id finds its key taken. */
  lemma AtMostOneRow(maxAttempts: int, run: seq<Action>, id: string)
    requires Valid(Initial(maxAttempts), run) && Clean(run) && OneSpelling(Exec(Initial(maxAttempts), run))
    ensures var w := Exec(Initial(maxAttempts), run);
            && |RowsOf(w, id)| + |HoldersOf(w, id)| <= 1
            && (RowsOf(w, id) != {} || HoldersOf(w, id) != {} ==>
                  forall m: nat :: m < |w.msgs| && Accepted(w.msgs[m].raw) && Event(w.msgs[m]).eventId == id ==>
                                     ClaimKey(w.msgs[m].raw).value in w.store.keys)
  {
    RunCleanInv(Initial(maxAttempts), run);
    var w := Exec(Initial(maxAttempts), run);
    RowsOrHolder(w, id);
    if RowsOf(w, id) != {} || HoldersOf(w, id) != {} {
      forall m: nat | m < |w.msgs| && Accepted(w.msgs[m].raw) && Event(w.msgs[m]).eventId == id
        ensures ClaimKey(w.msgs[m].raw).value in w.store.keys
      {
        RowOrHolderKeepsKey(w, id, m);
      }
    }
  }

  // ------------------------------------------------------------------- every condition is necessary

  predicate TwoRows(w: World, id: string) {
    |RowsOf(w, id)| >= 2
  }

  lemma HasTwoRows(w: World, id: string)
    requires RowKey(id, 1) in w.store.tables.events && RowKey(id, 2) in w.store.tables.events
    ensures TwoRows(w, id)
  {
    SubsetNotLarger({RowKey(id, 1), RowKey(id, 2)}, RowsOf(w, id));
  }

  predicate Admitted(w: World, n: nat) {
    InFlight(w, n) && w.tasks[n].AtSchema? && Accepted(w.msgs[n].raw) && w.maxAttempts >= 1
  }

  /** The row is there, and whatever was there before; other admitted tasks still are. */
  ghost predicate RowAdded(w: World, u: World, n: nat, k: RowKey) {
    && u.msgs == w.msgs && k in u.store.tables.events
    && (forall l :: l in w.store.tables.events ==> l in u.store.tables.events)
    && (forall m: nat :: m != n && Admitted(w, m) ==> Admitted(u, m))
  }

  lemma ChecksAndInserts(w: World, n: nat, now: int)
    requires Admitted(w, n)
    ensures Enabled(w, Check(n)) && Enabled(Step(w, Check(n)), Insert(n, Returned(now)))
    ensures RowAdded(w, Step(Step(w, Check(n)), Insert(n, Returned(now))), n, RowKey(Event(w.msgs[n]).eventId, now))
  {
  }

  /** A task past the idempotency handler can validate its event and write it at any instant. */
  lemma AdmittedStores(w: World, run: seq<Action>, n: nat, now: int) returns (longer: seq<Action>)
    requires Valid(w, run) && Admitted(Exec(w, run), n)
    ensures longer == run + [Check(n), Insert(n, Returned(now))] && Valid(w, longer)
    ensures var before := Exec(w, run);
            RowAdded(before, Exec(w, longer), n, RowKey(Event(before.msgs[n]).eventId, now))
  {
    ChecksAndInserts(Exec(w, run), n, now);
    Extend(w, run, Check(n));
    Extend(w, run + [Check(n)], Insert(n, Returned(now)));
    longer := run + [Check(n)] + [Insert(n, Returned(now))];
    Associative(run, [Check(n)], [Insert(n, Returned(now))]);
  }

  /** Tasks 0 and 1 are past their claims, for one event id. */
  predicate BothAdmitted(w: World, id: string) {
    Admitted(w, 0) && Admitted(w, 1) && Event(w.msgs[0]).eventId == Event(w.msgs[1]).eventId == id
  }

  lemma BothRows(w: World, u: World, v: World, id: string)
    requires BothAdmitted(w, id) && RowAdded(w, u, 0, RowKey(id, 1)) && RowAdded(u, v, 1, RowKey(id, 2))
    ensures TwoRows(v, id) && v.msgs == w.msgs
  {
    HasTwoRows(v, id);
  }

  lemma CleanStores(a: nat, b: nat)
    ensures Clean([Check(0), Insert(0, Returned(a))] + [Check(1), Insert(1, Returned(b))])
  {
  }

  /** Two admitted tasks for one event id leave two rows: the database does not deduplicate. */
  lemma BothStore(w: World, run: seq<Action>, id: string) returns (longer: seq<Action>, rest: seq<Action>)
    requires Valid(w, run) && BothAdmitted(Exec(w, run), id)
    ensures Valid(w, longer) && longer == run + rest && Clean(rest)
    ensures TwoRows(Exec(w, longer), id) && Exec(w, longer).msgs == Exec(w, run).msgs
  {
    var once := AdmittedStores(w, run, 0, 1);
    assert Admitted(Exec(w, once), 1);
    longer := AdmittedStores(w, once, 1, 2);
    BothRows(Exec(w, run), Exec(w, once), Exec(w, longer), id);
    rest := [Check(0), Insert(0, Returned(1))] + [Check(1), Insert(1, Returned(2))];
    CleanStores(1, 2);
    Associative(run, [Check(0), Insert(0, Returned(1))], [Check(1), Insert(1, Returned(2))]);
  }

  /** Task 0 is past its claim; task 1, for the same event id, has its claim before it and will win it. */
  predicate OneAdmitted(w: World, id: string) {
    && Admitted(w, 0) && InFlight(w, 1) && w.tasks[1].AtClaim? && Accepted(w.msgs[1].raw)
    && Key(w.msgs[1].raw.eventId.text) !in w.store.keys
    && Event(w.msgs[0]).eventId == Event(w.msgs[1]).eventId == id
  }

  lemma SecondClaim(w: World, id: string)
    requires OneAdmitted(w, id)
    ensures var u := Step(w, Action.Claim(1, Answered)); BothAdmitted(u, id) && u.msgs == w.msgs
  {
    AcceptedHasKey(w.msgs[1]);
  }

  lemma BothClaimed(w: World, run: seq<Action>, id: string)
    requires Valid(w, run) && OneAdmitted(Exec(w, run), id)
    ensures Valid(w, run + [Action.Claim(1, Answered)])
    ensures BothAdmitted(Exec(w, run + [Action.Claim(1, Answered)]), id)
    ensures Exec(w, run + [Action.Claim(1, Answered)]).msgs == Exec(w, run).msgs
  {
    SecondClaim(Exec(w, run), id);
    Extend(w, run, Action.Claim(1, Answered));
  }

  lemma OneThenBothStore(w: World, run: seq<Action>, id: string) returns (longer: seq<Action>, rest: seq<Action>)
    requires Valid(w, run) && OneAdmitted(Exec(w, run), id)
    ensures Valid(w, longer) && longer == run + rest && Clean(rest)
    ensures TwoRows(Exec(w, longer), id) && Exec(w, longer).msgs == Exec(w, run).msgs
  {
    BothClaimed(w, run, id);
    var tail;
    longer, tail := BothStore(w, run + [Action.Claim(1, Answered)], id);
    rest := [Action.Claim(1, Answered)] + tail;
    CleanCons(run, Action.Claim(1, Answered), tail);
  }

  lemma CleanCons(run: seq<Action>, a: Action, rest: seq<Action>)
    requires CleanAction(a) && Clean(rest)
    ensures Clean([a] + rest) && run + [a] + rest == run + ([a] + rest)
  {
    Associative(run, [a], rest);
  }

  /** Two tasks for messages `m` and `other`, about to claim. */
  predicate BothWaiting(w: World, m: Input, other: Input) {
    && w.msgs == [m, other] && w.tasks == map[0 := AtClaim, 1 := AtClaim] && w.store.keys == {}
    && w.maxAttempts >= 1 && Accepted(m.raw) && Accepted(other.raw)
    && Event(m).eventId == Event(other).eventId
  }

  lemma BothSpawn(m: Input, other: Input, maxAttempts: int)
    requires Accepted(m.raw) && Accepted(other.raw) && maxAttempts >= 1
    requires Event(m).eventId == Event(other).eventId
    ensures Valid(Initial(maxAttempts), [Spawn(m), Spawn(other)])
    ensures BothWaiting(Exec(Initial(maxAttempts), [Spawn(m), Spawn(other)]), m, other)
  {
    Extend(Initial(maxAttempts), [], Spawn(m));
    Extend(Initial(maxAttempts), [Spawn(m)], Spawn(other));
    assert [Spawn(m), Spawn(other)] == [Spawn(m)] + [Spawn(other)];
  }

  /** A claim that succeeds, or fails open, admits its task. */
  lemma ClaimAdmits(w: World, n: nat, r: Reply)
    requires InFlight(w, n) && w.tasks[n].AtClaim? && Accepted(w.msgs[n].raw) && w.maxAttempts >= 1
    requires ClaimVerdict(w.store.keys, Key(w.msgs[n].raw.eventId.text), r)
    ensures var u := Step(w, Action.Claim(n, r));
            Admitted(u, n) && u.msgs == w.msgs && u.maxAttempts == w.maxAttempts
  {
    AcceptedHasKey(w.msgs[n]);
  }

  /** The first claim admits task 0, and leaves task 1 its key unless it took that very key. */
  lemma FirstClaim(w: World, m: Input, other: Input, r: Reply)
    requires BothWaiting(w, m, other)
    ensures var u := Step(w, Action.Claim(0, r));
            && u.msgs == Step(u, Expire(Key(other.raw.eventId.text))).msgs == [m, other]
            && (r.LostBefore? || m.raw.eventId != other.raw.eventId ==> OneAdmitted(u, Event(m).eventId))
            && OneAdmitted(Step(u, Expire(Key(other.raw.eventId.text))), Event(m).eventId)
  {
    AcceptedHasKey(m);
    AcceptedHasKey(other);
    KeyInjective(m.raw.eventId.text, other.raw.eventId.text);
  }

  /** One failing `SET` is enough: the handler fails open. */
  lemma NeedsRedis(m: Input, maxAttempts: int) returns (run: seq<Action>)
    requires Accepted(m.raw) && maxAttempts >= 1
    ensures Valid(Initial(maxAttempts), run) && TwoRows(Exec(Initial(maxAttempts), run), Event(m).eventId)
    ensures OneSpelling(Exec(Initial(maxAttempts), run))
    ensures |run| >= 3 && run[2] == Action.Claim(0, LostBefore) && Clean(run[..2]) && Clean(run[3..])
  {
    var w, two, claim := Initial(maxAttempts), [Spawn(m), Spawn(m)], Action.Claim(0, LostBefore);
    BothSpawn(m, m, maxAttempts);
    FirstClaim(Exec(w, two), m, m, LostBefore);
    Extend(w, two, claim);
    var rest;
    run, rest := OneThenBothStore(w, two + [claim], Event(m).eventId);
    assert run[..2] == two && run[3..] == rest;
  }

  /** Claim, expiry, second claim. */
  lemma ExpiredStores(w: World, run: seq<Action>, m: Input) returns (longer: seq<Action>)
    requires Valid(w, run) && BothWaiting(Exec(w, run), m, m)
    ensures Valid(w, longer) && TwoRows(Exec(w, longer), Event(m).eventId) && Exec(w, longer).msgs == [m, m]
    ensures run <= longer && |longer| >= |run| + 2 && longer[|run|] == Action.Claim(0, Answered)
    ensures longer[|run| + 1].Expire? && Clean(longer[|run| + 2..])
  {
    var claim, gone := Action.Claim(0, Answered), Expire(Key(m.raw.eventId.text));
    FirstClaim(Exec(w, run), m, m, Answered);
    Extend(w, run, claim);
    Extend(w, run + [claim], gone);
    var rest;
    longer, rest := OneThenBothStore(w, run + [claim] + [gone], Event(m).eventId);
    assert longer[|run| + 2..] == rest;
  }

  /** So is one key that expires, or is evicted, while its event is redelivered. */
  lemma NeedsLease(m: Input, maxAttempts: int) returns (run: seq<Action>)
    requires Accepted(m.raw) && maxAttempts >= 1
    ensures Valid(Initial(maxAttempts), run) && TwoRows(Exec(Initial(maxAttempts), run), Event(m).eventId)
    ensures OneSpelling(Exec(Initial(maxAttempts), run))
    ensures |run| >= 4 && run[3].Expire? && Clean(run[..3]) && Clean(run[4..])
  {
    BothSpawn(m, m, maxAttempts);
    run := ExpiredStores(Initial(maxAttempts), [Spawn(m), Spawn(m)], m);
  }

  /** So are two spellings of one id: they claim different keys and become the same event id. */
  lemma NeedsOneSpelling(m: Input, other: Input, maxAttempts: int) returns (run: seq<Action>)
    requires Accepted(m.raw) && Accepted(other.raw) && maxAttempts >= 1
    requires Event(m).eventId == Event(other).eventId && m.raw.eventId != other.raw.eventId
    ensures Valid(Initial(maxAttempts), run) && TwoRows(Exec(Initial(maxAttempts), run), Event(m).eventId)
    ensures |run| >= 2 && run[..2] == [Spawn(m), Spawn(other)] && Clean(run[2..])
  {
    var w, two, claim := Initial(maxAttempts), [Spawn(m), Spawn(other)], Action.Claim(0, Answered);
    BothSpawn(m, other, maxAttempts);
    FirstClaim(Exec(w, two), m, other, Answered);
    Extend(w, two, claim);
    var rest;
    run, rest := OneThenBothStore(w, two + [claim], Event(m).eventId);
    CleanCons(two, claim, rest);
    assert run[..2] == two && run[2..] == [claim] + rest;
  }

  /** A task past its claim whose first insert writes its row and still fails. */
  lemma WritesTwice(w: World, n: nat)
    requires Admitted(w, n) && w.maxAttempts >= 2
    ensures Enabled(w, Check(n)) && Enabled(Step(w, Check(n)), Insert(n, Failed(PostgresError, Some(1))))
    ensures var u := Step(Step(w, Check(n)), Insert(n, Failed(PostgresError, Some(1))));
            && Enabled(u, Insert(n, Returned(2)))
            && var t := Step(u, Insert(n, Returned(2)));
               && t.msgs == w.msgs && RowKey(Event(w.msgs[n]).eventId, 1) in t.store.tables.events
               && RowKey(Event(w.msgs[n]).eventId, 2) in t.store.tables.events
  {
  }

  lemma AdmitAlone(m: Input, maxAttempts: int) returns (run: seq<Action>)
    requires Accepted(m.raw) && maxAttempts >= 1
    ensures Valid(Initial(maxAttempts), run) && |run| == 2 && Clean(run)
    ensures var w := Exec(Initial(maxAttempts), run);
            Admitted(w, 0) && w.msgs == [m] && w.maxAttempts == maxAttempts
  {
    var w := Initial(maxAttempts);
    Extend(w, [], Spawn(m));
    assert [] + [Spawn(m)] == [Spawn(m)];
    ClaimAdmits(Exec(w, [Spawn(m)]), 0, Answered);
    Extend(w, [Spawn(m)], Action.Claim(0, Answered));
    run := [Spawn(m)] + [Action.Claim(0, Answered)];
  }

  lemma StoresTwice(w: World, run: seq<Action>, n: nat) returns (longer: seq<Action>)
    requires Valid(w, run) && Admitted(Exec(w, run), n) && Exec(w, run).maxAttempts >= 2
    ensures Valid(w, longer) && Exec(w, longer).msgs == Exec(w, run).msgs
    ensures TwoRows(Exec(w, longer), Event(Exec(w, run).msgs[n]).eventId)
    ensures |longer| == |run| + 3 && longer[|run| + 1] == Insert(n, Failed(PostgresError, Some(1)))
    ensures (Clean(run) ==> Clean(longer[..|run| + 1])) && Clean(longer[|run| + 2..])
  {
    var bad := Insert(n, Failed(PostgresError, Some(1)));
    WritesTwice(Exec(w, run), n);
    Extend(w, run, Check(n));
    Extend(w, run + [Check(n)], bad);
    Extend(w, run + [Check(n)] + [bad], Insert(n, Returned(2)));
    longer := run + [Check(n)] + [bad] + [Insert(n, Returned(2))];
    HasTwoRows(Exec(w, longer), Event(Exec(w, run).msgs[n]).eventId);
    assert longer[..|run| + 1] == run + [Check(n)] && longer[|run| + 2..] == [Insert(n, Returned(2))];
  }

  /** And so is one insert that writes its row and still raises: the retry writes another. */
  lemma NeedsCleanFailures(m: Input, maxAttempts: int) returns (run: seq<Action>)
    requires Accepted(m.raw) && maxAttempts >= 2
    ensures Valid(Initial(maxAttempts), run) && TwoRows(Exec(Initial(maxAttempts), run), Event(m).eventId)
    ensures OneSpelling(Exec(Initial(maxAttempts), run))
    ensures |run| == 5 && run[3] == Insert(0, Failed(PostgresError, Some(1))) && Clean(run[..3]) && Clean(run[4..])
  {
    var two := AdmitAlone(m, maxAttempts);
    run := StoresTwice(Initial(maxAttempts), two, 0);
  }
}
