/** What every run of the worker's tasks keeps, under any interleaving, failure, expiry and crash. */
module TaskLaws {
  import opened Wrappers
  import opened Models
  import opened Database
  import opened Idempotency
  import opened DeadLetters
  import opened Handlers
  import opened Tasks

  // ----------------------------------------------------------------------------- the device tables

  ghost predicate AllAccepted(msgs: seq<Input>, ns: seq<nat>) {
    forall i :: 0 <= i < |ns| ==> ns[i] < |msgs| && Accepted(msgs[ns[i]].raw)
  }

  ghost function EventsOf(msgs: seq<Input>, ns: seq<nat>): seq<IoTEvent>
    requires AllAccepted(msgs, ns)
  {
    seq(|ns|, i requires 0 <= i < |ns| => Event(msgs[ns[i]]))
  }

  ghost predicate UpsertsAccepted(w: World) {
    AllAccepted(w.msgs, w.upserts)
  }

  /** The upserted events, in the order of their upserts. */
  ghost function UpsertedEvents(w: World): seq<IoTEvent>
    requires UpsertsAccepted(w)
  {
    EventsOf(w.msgs, w.upserts)
  }

  ghost predicate Distinct(ns: seq<nat>) {
    forall i, j :: 0 <= i < j < |ns| ==> ns[i] != ns[j]
  }

  /** The state table is the replay of the upserts, and no task upserts twice. */
  ghost predicate StatesReplayed(w: World) {
    && UpsertsAccepted(w) && Distinct(w.upserts)
    && w.store.tables.states == Replay(UpsertedEvents(w))
  }

  /** Every state row has its device row. */
  ghost predicate DevicesExist(w: World) {
    && w.store.tables.states.Keys <= w.store.tables.devices
    && forall n :: n in w.tasks && w.tasks[n].AtState? ==>
                     n < |w.msgs| && Accepted(w.msgs[n].raw) && Event(w.msgs[n]).deviceId in w.store.tables.devices
  }

  predicate SameUpserts(w: World, u: World) {
    u.upserts == w.upserts && u.store.tables.states == w.store.tables.states && w.msgs <= u.msgs
  }

  lemma UpsertsElsewhere(w: World, a: Action)
    requires Enabled(w, a) && !a.Upsert?
    ensures SameUpserts(w, Step(w, a))
  {
  }

  lemma ReplayedElsewhere(w: World, u: World)
    requires StatesReplayed(w) && SameUpserts(w, u)
    ensures StatesReplayed(u)
  {
    assert forall n :: 0 <= n < |w.msgs| ==> u.msgs[n] == w.msgs[n];
    assert UpsertedEvents(u) == UpsertedEvents(w);
  }

  /** One more event upserted, by a task that has not upserted before. */
  predicate UpsertAdded(w: World, u: World, n: nat) {
    && n < |w.msgs| && Accepted(w.msgs[n].raw) && n !in w.upserts && u.msgs == w.msgs
    && u.upserts == w.upserts + [n]
    && u.store.tables.states == UpsertRow(w.store.tables.states, Event(w.msgs[n]))
  }

  lemma UpsertAdds(w: World, n: nat)
    requires HistoryOf(w, n) && Enabled(w, Upsert(n, true))
    ensures UpsertAdded(w, Step(w, Upsert(n, true)), n)
  {
  }

  lemma UpsertMissed(w: World, n: nat)
    requires Enabled(w, Upsert(n, false))
    ensures SameUpserts(w, Step(w, Upsert(n, false)))
  {
  }

  lemma ReplayedAdded(w: World, u: World, n: nat)
    requires StatesReplayed(w) && UpsertAdded(w, u, n)
    ensures StatesReplayed(u)
  {
    var before, after := UpsertedEvents(w), UpsertedEvents(u);
    assert after == before + [Event(w.msgs[n])];
    assert after[..|after| - 1] == before;
  }

  lemma ReplayedUpsert(w: World, n: nat, ok: bool)
    requires StatesReplayed(w) && HistoryOf(w, n) && Enabled(w, Upsert(n, ok))
    ensures StatesReplayed(Step(w, Upsert(n, ok)))
  {
    if ok {
      UpsertAdds(w, n);
      ReplayedAdded(w, Step(w, Upsert(n, ok)), n);
    } else {
      UpsertMissed(w, n);
      ReplayedElsewhere(w, Step(w, Upsert(n, ok)));
    }
  }

  lemma StepReplayed(w: World, a: Action)
    requires StatesReplayed(w) && History(w) && Enabled(w, a)
    ensures StatesReplayed(Step(w, a))
  {
    if a.Upsert? {
      assert HistoryOf(w, a.n);
      ReplayedUpsert(w, a.n, a.ok);
    } else {
      UpsertsElsewhere(w, a);
      ReplayedElsewhere(w, Step(w, a));
    }
  }

  /** No state row, and no task about to write one, that was not there before. */
  ghost predicate DevicesFramed(w: World, u: World) {
    && u.store.tables.states == w.store.tables.states && w.store.tables.devices <= u.store.tables.devices
    && w.msgs <= u.msgs
    && forall n :: n in u.tasks && u.tasks[n].AtState? ==> n in w.tasks && w.tasks[n].AtState?
  }

  lemma DevicesElsewhereEarly(w: World, a: Action)
    requires Enabled(w, a) && BeforeRelease(a)
    ensures DevicesFramed(w, Step(w, a))
  {
  }

  lemma DevicesElsewhereLate(w: World, a: Action)
    requires Enabled(w, a) && !BeforeRelease(a) && !a.EnsureDevice? && !a.Upsert?
    ensures DevicesFramed(w, Step(w, a))
  {
  }

  lemma FramedDevices(w: World, u: World)
    requires DevicesExist(w) && DevicesFramed(w, u)
    ensures DevicesExist(u)
  {
    assert forall n :: 0 <= n < |w.msgs| ==> u.msgs[n] == w.msgs[n];
  }

  lemma EnsureThenUpsert(w: World, a: Action)
    requires DevicesExist(w) && Enabled(w, a) && (a.EnsureDevice? || a.Upsert?)
    ensures DevicesExist(Step(w, a))
  {
  }

  lemma StepDevices(w: World, a: Action)
    requires DevicesExist(w) && Enabled(w, a)
    ensures DevicesExist(Step(w, a))
  {
    if a.EnsureDevice? || a.Upsert? {
      EnsureThenUpsert(w, a);
    } else {
      if BeforeRelease(a) {
        DevicesElsewhereEarly(w, a);
      } else {
        DevicesElsewhereLate(w, a);
      }
      FramedDevices(w, Step(w, a));
    }
  }

  // ------------------------------------------------------------------------- claims, rows, envelopes

  /** Task `n` got past the idempotency handler and is still in the pipeline, or stored its event, or tried
      the DLQ, or was cut off by a crash. */
  predicate Vouches(w: World, n: nat) {
    && n < |w.msgs| && n !in w.dup
    && (n in w.completed || n in w.tried || n in w.orphans
        || (n in w.tasks && !w.tasks[n].AtClaim?))
  }

  ghost predicate Backed(w: World, key: string) {
    exists n: nat :: Vouches(w, n) && ClaimKey(w.msgs[n].raw) == Some(key)
  }

  /** Task `n` failed to write its event and its release removed the very key it had claimed. */
  predicate LetGo(w: World, n: nat)
    requires n < |w.msgs|
  {
    n in w.released && Accepted(w.msgs[n].raw) && ClaimKey(w.msgs[n].raw) == Some(Key(Event(w.msgs[n]).eventId))
  }

  ghost predicate Kept(w: World, key: string) {
    exists n: nat :: Vouches(w, n) && ClaimKey(w.msgs[n].raw) == Some(key) && !LetGo(w, n)
  }

  /** No key without a task that accounts for it and has not given it back, no skipped duplicate without a
      task that accounts for its key. */
  ghost predicate ClaimsBacked(w: World) {
    && (forall k :: k in w.store.keys ==> Kept(w, k))
    && (forall n :: n in w.dup ==>
          n < |w.msgs| && ClaimKey(w.msgs[n].raw).Some? && Backed(w, ClaimKey(w.msgs[n].raw).value))
  }

  lemma StillVouches(w: World, a: Action, n: nat)
    requires History(w) && Enabled(w, a) && Vouches(w, n)
    ensures Vouches(Step(w, a), n) && Step(w, a).msgs[n] == w.msgs[n]
  {
    assert HistoryOf(w, n);
  }

  lemma StillBacked(w: World, a: Action, key: string)
    requires History(w) && Enabled(w, a) && Backed(w, key)
    ensures Backed(Step(w, a), key)
  {
    var n: nat :| Vouches(w, n) && ClaimKey(w.msgs[n].raw) == Some(key);
    StillVouches(w, a, n);
  }

  /** A task lets go of its key only in the step that deletes it. */
  lemma LetsGoWithKey(w: World, a: Action, n: nat)
    requires Enabled(w, a) && n < |w.msgs| && !LetGo(w, n)
    requires Step(w, a).msgs[n] == w.msgs[n] && LetGo(Step(w, a), n)
    ensures ClaimKey(w.msgs[n].raw).value !in Step(w, a).store.keys
  {
  }

  lemma StillKept(w: World, a: Action, key: string)
    requires History(w) && Enabled(w, a) && Kept(w, key) && key in Step(w, a).store.keys
    ensures Kept(Step(w, a), key)
  {
    var n: nat :| Vouches(w, n) && ClaimKey(w.msgs[n].raw) == Some(key) && !LetGo(w, n);
    StillVouches(w, a, n);
    if LetGo(Step(w, a), n) {
      LetsGoWithKey(w, a, n);
    }
  }

  lemma ClaimKeeps(w: World, n: nat, r: Reply, key: string)
    requires History(w) && AllReleases(w) && Enabled(w, Action.Claim(n, r)) && key !in w.store.keys
    requires key in Step(w, Action.Claim(n, r)).store.keys
    ensures Kept(Step(w, Action.Claim(n, r)), key)
  {
    assert HistoryOf(w, n) && ReleaseOf(w, n);
    var u := Step(w, Action.Claim(n, r));
    assert Vouches(u, n) && ClaimKey(u.msgs[n].raw) == Some(key) && !LetGo(u, n);
  }

  lemma DuplicateBacked(w: World, a: Action, n: nat)
    requires History(w) && ClaimsBacked(w) && Enabled(w, a) && n in Step(w, a).dup
    ensures n < |Step(w, a).msgs| && ClaimKey(Step(w, a).msgs[n].raw).Some?
            && Backed(Step(w, a), ClaimKey(Step(w, a).msgs[n].raw).value)
  {
    if n !in w.dup {
      assert a.Claim? && a.n == n && Kept(w, ClaimKey(w.msgs[n].raw).value);
    }
    StillBacked(w, a, ClaimKey(w.msgs[n].raw).value);
  }

  lemma StepClaimsBacked(w: World, a: Action)
    requires History(w) && AllReleases(w) && ClaimsBacked(w) && Enabled(w, a)
    ensures ClaimsBacked(Step(w, a))
  {
    var u := Step(w, a);
    forall k | k in u.store.keys
      ensures Kept(u, k)
    {
      if k in w.store.keys {
        StillKept(w, a, k);
      } else {
        ClaimKeeps(w, a.n, a.claim, k);
      }
    }
    forall n | n in u.dup
      ensures n < |u.msgs| && ClaimKey(u.msgs[n].raw).Some? && Backed(u, ClaimKey(u.msgs[n].raw).value)
    {
      DuplicateBacked(w, a, n);
    }
  }

  // -------------------------------------------------------------------------------------- releases

  predicate PastRelease(pc: Pc) {
    pc.AtPublish? || pc.AtRecord? || pc.Over? || pc.Thrown?
  }

  /** A release comes after the claim, and an acceptable event is not given to the DLQ before its task has
      tried to release. */
  predicate ReleaseOf(w: World, n: nat) {
    && (n in w.released ==> n < |w.msgs| && (n in w.tasks ==> PastRelease(w.tasks[n])))
    && (n < |w.msgs| && Accepted(w.msgs[n].raw)
        && (n in w.tried || (n in w.tasks && (w.tasks[n].AtPublish? || w.tasks[n].AtRecord?)))
        ==> n in w.released || n in w.releaseLost)
  }

  ghost predicate AllReleases(w: World) {
    forall n: nat :: ReleaseOf(w, n)
  }

  lemma ActorReleaseOf(w: World, a: Action, n: nat)
    requires HistoryOf(w, n) && ReleaseOf(w, n) && Enabled(w, a) && (Actor(w, a) == Some(n) || a.Crash?)
    ensures ReleaseOf(Step(w, a), n)
  {
  }

  lemma StepReleases(w: World, a: Action)
    requires History(w) && AllReleases(w) && Enabled(w, a)
    ensures AllReleases(Step(w, a))
  {
    forall n: nat
      ensures ReleaseOf(Step(w, a), n)
    {
      assert HistoryOf(w, n) && ReleaseOf(w, n);
      if a.Crash? || Actor(w, a) == Some(n) {
        ActorReleaseOf(w, a, n);
      } else {
        OnlyActorTouched(w, a, n);
      }
    }
  }

  ghost predicate HasRow(w: World, id: string) {
    exists k :: k in w.store.tables.events && k.eventId == id
  }

  ghost predicate HasEnvelope(w: World, m: Input) {
    exists i :: 0 <= i < |w.store.topic|
                && w.store.topic[i].original == m.raw
                && w.store.topic[i].partition == m.partition && w.store.topic[i].offset == m.offset
  }

  /** The history does not boast: a stored event has a row, … */
  ghost predicate RowsEvident(w: World) {
    forall n :: n in w.completed ==> n < |w.msgs| && Accepted(w.msgs[n].raw) && HasRow(w, Event(w.msgs[n]).eventId)
  }

  /** … and an arrived envelope is on the topic. */
  ghost predicate EnvelopesEvident(w: World) {
    forall n :: n in w.arrived ==> n < |w.msgs| && HasEnvelope(w, w.msgs[n])
  }

  /** … and every task that tried has an envelope on the topic or a publish that did not arrive. */
  ghost predicate AttemptsEvident(w: World) {
    w.tried == w.arrived + w.unsent
  }

  lemma StepAttemptsEvident(w: World, a: Action)
    requires AttemptsEvident(w) && Enabled(w, a)
    ensures AttemptsEvident(Step(w, a))
  {
  }

  lemma StepKeepsRows(w: World, a: Action, id: string)
    requires Enabled(w, a) && HasRow(w, id)
    ensures HasRow(Step(w, a), id)
  {
    var k :| k in w.store.tables.events && k.eventId == id;
    assert k in Step(w, a).store.tables.events;
  }

  lemma StepKeepsEnvelopes(w: World, a: Action, m: Input)
    requires Enabled(w, a) && HasEnvelope(w, m)
    ensures HasEnvelope(Step(w, a), m)
  {
    var i :| 0 <= i < |w.store.topic| && w.store.topic[i].original == m.raw
             && w.store.topic[i].partition == m.partition && w.store.topic[i].offset == m.offset;
    assert Step(w, a).store.topic[i] == w.store.topic[i];
  }

  lemma InsertLeavesRow(w: World, n: nat, r: InsertReply)
    requires Enabled(w, Insert(n, r)) && r.Returned?
    ensures HasRow(Step(w, Insert(n, r)), Event(w.msgs[n]).eventId)
  {
    assert RowKey(Event(w.msgs[n]).eventId, r.now) in Step(w, Insert(n, r)).store.tables.events;
  }

  lemma PublishLeavesEnvelope(w: World, n: nat, r: PublishReply)
    requires Enabled(w, Publish(n, r)) && Arrives(Published(w.msgs[n].raw, r))
    ensures HasEnvelope(Step(w, Publish(n, r)), w.msgs[n])
  {
    var topic := Step(w, Publish(n, r)).store.topic;
    assert topic[|topic| - 1] == EnvelopeOf(w.msgs[n], w.tasks[n].reason, w.tasks[n].retries);
  }

  lemma StepRowsEvident(w: World, a: Action)
    requires RowsEvident(w) && Enabled(w, a)
    ensures RowsEvident(Step(w, a))
  {
    var u := Step(w, a);
    if a.Insert? && a.insert.Returned? {
      InsertLeavesRow(w, a.n, a.insert);
    }
    forall n | n in u.completed
      ensures n < |u.msgs| && Accepted(u.msgs[n].raw) && HasRow(u, Event(u.msgs[n]).eventId)
    {
      if n in w.completed {
        StepKeepsRows(w, a, Event(w.msgs[n]).eventId);
      }
    }
  }

  lemma StepEnvelopesEvident(w: World, a: Action)
    requires EnvelopesEvident(w) && Enabled(w, a)
    ensures EnvelopesEvident(Step(w, a))
  {
    var u := Step(w, a);
    if a.Publish? && Arrives(Published(w.msgs[a.n].raw, a.publish)) {
      PublishLeavesEnvelope(w, a.n, a.publish);
    }
    forall n | n in u.arrived
      ensures n < |u.msgs| && HasEnvelope(u, u.msgs[n])
    {
      if n in w.arrived {
        StepKeepsEnvelopes(w, a, w.msgs[n]);
      }
    }
  }

  // --------------------------------------------------------------------------------------- counters

  predicate Uncounted(pc: Pc) {
    !pc.AtRecord? && !pc.Over? && !pc.Thrown?
  }

  /** Tasks that no counter has seen yet. */
  function UncountedTasks(w: World): set<nat> {
    set n | n in w.tasks && Uncounted(w.tasks[n])
  }

  /** Tasks and second envelopes of the session that the counters have not seen. */
  function Outstanding(w: World): int {
    w.spawned + w.resent - w.store.metrics.processed - w.store.metrics.duplicates - w.store.metrics.dlq
  }

  /** In the current session every task created is counted exactly once, or still to be counted; a second
      envelope counts once more. */
  ghost predicate CountersBalance(w: World) {
    Outstanding(w) == |UncountedTasks(w)|
  }

  predicate IsUncounted(w: World, n: nat) {
    n in w.tasks && Uncounted(w.tasks[n])
  }

  lemma ActorCounted(w: World, a: Action, n: nat)
    requires Enabled(w, a) && Actor(w, a) == Some(n) && (a.Spawn? ==> n !in w.tasks)
    ensures Outstanding(Step(w, a)) - Outstanding(w)
            == (if IsUncounted(Step(w, a), n) then 1 else 0) - (if IsUncounted(w, n) then 1 else 0)
  {
  }

  lemma ActorMoves(w: World, a: Action, n: nat)
    requires Enabled(w, a) && Actor(w, a) == Some(n)
    ensures forall m :: m != n ==> (m in UncountedTasks(Step(w, a)) <==> m in UncountedTasks(w))
    ensures UncountedTasks(Step(w, a)) == if IsUncounted(Step(w, a), n) then UncountedTasks(w) + {n}
                                          else UncountedTasks(w) - {n}
  {
    forall m: nat | m != n
      ensures m in UncountedTasks(Step(w, a)) <==> m in UncountedTasks(w)
    {
      OnlyActorTouched(w, a, m);
    }
  }

  lemma StepCounters(w: World, a: Action)
    requires CountersBalance(w) && History(w) && Enabled(w, a)
    ensures CountersBalance(Step(w, a))
  {
    match Actor(w, a)
    case None =>
      if a.Crash? {
        assert UncountedTasks(Step(w, a)) == {};
      } else {
        assert UncountedTasks(Step(w, a)) == UncountedTasks(w);
      }
    case Some(n) =>
      assert HistoryOf(w, n);
      ActorCounted(w, a, n);
      ActorMoves(w, a, n);
  }

  // ------------------------------------------------------------------------------------ every run

  ghost predicate Inv(w: World) {
    && History(w) && StatesReplayed(w) && DevicesExist(w) && AllReleases(w) && ClaimsBacked(w)
    && RowsEvident(w) && EnvelopesEvident(w) && AttemptsEvident(w)
    && CountersBalance(w)
  }

  lemma InitialInv(maxAttempts: int)
    ensures Inv(Initial(maxAttempts))
  {
    assert UncountedTasks(Initial(maxAttempts)) == {};
    assert UpsertedEvents(Initial(maxAttempts)) == [];
  }

  lemma StepInv(w: World, a: Action)
    requires Inv(w) && Enabled(w, a)
    ensures Inv(Step(w, a))
  {
    StepHistory(w, a);
    StepReplayed(w, a);
    StepDevices(w, a);
    StepReleases(w, a);
    StepClaimsBacked(w, a);
    StepRowsEvident(w, a);
    StepEnvelopesEvident(w, a);
    StepAttemptsEvident(w, a);
    StepCounters(w, a);
  }

  lemma {:induction false} RunInv(w: World, run: seq<Action>)
    requires Inv(w) && Valid(w, run)
    ensures Inv(Exec(w, run))
  {
    if run != [] {
      RunInv(w, run[..|run| - 1]);
      StepInv(Exec(w, run[..|run| - 1]), run[|run| - 1]);
    }
  }

  // ------------------------------------------------------------------------------------ the theorems

  /** Once `process` is over, exactly one of three things has become of the task: its event was skipped as a
      duplicate, inserted, or given to the DLQ. */
  lemma OneOutcome(w: World, n: nat)
    requires Inv(w) && n < |w.msgs| && n !in Running(w) && n !in w.orphans
    ensures n in w.dup + w.completed + w.tried
    ensures !(n in w.dup && n in w.completed) && !(n in w.dup && n in w.tried)
    ensures !(n in w.completed && n in w.tried)
  {
    assert HistoryOf(w, n);
  }

  /** At any moment an inserted event has no envelope, and a skipped one has neither row nor envelope of its
      own. */
  lemma StoredNeverRejected(w: World)
    requires Inv(w)
    ensures w.completed !! w.tried && w.completed !! w.arrived && w.dup !! (w.completed + w.tried)
  {
    forall n | n in w.completed + w.dup
      ensures n !in w.tried && n !in w.arrived && !(n in w.completed && n in w.dup)
    {
      assert HistoryOf(w, n);
    }
  }

  /** What accounts for a message: its own task, or a task that claimed the same key, has stored its event,
      tried the DLQ, or was cut off by a crash. */
  ghost predicate Explained(w: World, n: nat)
    requires n < |w.msgs|
  {
    exists m: nat :: m < |w.msgs| && (m == n || SharesKey(w, n, m)) && AccountsFor(w, m)
  }

  predicate SharesKey(w: World, n: nat, m: nat)
    requires n < |w.msgs| && m < |w.msgs|
  {
    ClaimKey(w.msgs[n].raw).Some? && ClaimKey(w.msgs[m].raw) == ClaimKey(w.msgs[n].raw)
  }

  predicate AccountsFor(w: World, m: nat) {
    m in w.completed || m in w.tried || m in w.orphans
  }

  /** Why the key of task `m` is still in Redis: the task inserted its event, or a crash cut it off, or it
      gave its event to the DLQ because the event was not acceptable, because its release was lost, or
      because its release named another key than its claim. */
  predicate Leaves(w: World, m: nat)
    requires m < |w.msgs|
  {
    || m in w.completed || m in w.orphans
    || (m in w.tried
        && (!Accepted(w.msgs[m].raw) || m in w.releaseLost
            || ClaimKey(w.msgs[m].raw) != Some(Key(Event(w.msgs[m]).eventId))))
  }

  /** No unexplained loss: when no task is running, every message ever given to a task is accounted for, and so
      is every key still in Redis. */
  lemma NoUnexplainedLoss(w: World)
    requires Inv(w) && Running(w) == {}
    ensures forall n :: 0 <= n < |w.msgs| ==> Explained(w, n)
    ensures forall k :: k in w.store.keys ==>
                          exists m: nat :: m < |w.msgs| && ClaimKey(w.msgs[m].raw) == Some(k) && Leaves(w, m)
  {
    forall n: nat | n < |w.msgs|
      ensures Explained(w, n)
    {
      assert HistoryOf(w, n) && n !in Running(w);
      if n in w.dup {
        var m: nat :| Vouches(w, m) && ClaimKey(w.msgs[m].raw) == Some(ClaimKey(w.msgs[n].raw).value);
        QuietVoucher(w, m);
        assert SharesKey(w, n, m);
      } else {
        assert AccountsFor(w, n);
      }
    }
    forall k | k in w.store.keys
      ensures exists m: nat :: m < |w.msgs| && ClaimKey(w.msgs[m].raw) == Some(k) && Leaves(w, m)
    {
      var m: nat :| Vouches(w, m) && ClaimKey(w.msgs[m].raw) == Some(k) && !LetGo(w, m);
      QuietVoucher(w, m);
      assert ReleaseOf(w, m);
    }
  }

  lemma QuietVoucher(w: World, m: nat)
    requires Inv(w) && Running(w) == {} && Vouches(w, m)
    ensures AccountsFor(w, m)
  {
    assert HistoryOf(w, m);
    assert m !in Running(w);
  }

  /** The tasks among `ns` whose event is of device `d`. */
  function OfDevice(w: World, ns: set<nat>, d: string): set<nat> {
    set n | n in ns && n < |w.msgs| && Accepted(w.msgs[n].raw) && Event(w.msgs[n]).deviceId == d
  }

  function Elements(ns: seq<nat>): set<nat> {
    set n | n in ns
  }

  lemma OfDeviceStep(w: World, ns: set<nat>, n: nat, d: string)
    requires n !in ns && n < |w.msgs| && Accepted(w.msgs[n].raw)
    ensures |OfDevice(w, ns + {n}, d)|
            == |OfDevice(w, ns, d)| + if Event(w.msgs[n]).deviceId == d then 1 else 0
  {
    assert n !in OfDevice(w, ns, d);
    if Event(w.msgs[n]).deviceId == d {
      assert OfDevice(w, ns + {n}, d) == OfDevice(w, ns, d) + {n};
    } else {
      assert OfDevice(w, ns + {n}, d) == OfDevice(w, ns, d);
    }
  }

  lemma {:induction false} CountIsCardinality(w: World, ns: seq<nat>, d: string)
    requires AllAccepted(w.msgs, ns) && Distinct(ns)
    ensures CountDevice(EventsOf(w.msgs, ns), d) == |OfDevice(w, Elements(ns), d)|
  {
    if ns != [] {
      var k := |ns| - 1;
      CountIsCardinality(w, ns[..k], d);
      assert EventsOf(w.msgs, ns)[..k] == EventsOf(w.msgs, ns[..k]);
      assert ns == ns[..k] + [ns[k]];
      assert Elements(ns) == Elements(ns[..k]) + {ns[k]};
      OfDeviceStep(w, Elements(ns[..k]), ns[k], d);
    }
  }

  /** A completed insert is in exactly one of four places. */
  lemma CompletedKind(w: World, n: nat)
    requires HistoryOf(w, n)
    ensures n in w.completed
            <==> n in w.upserts || n in w.upsertFailed || n in w.cutShort || n in Between(w)
    ensures n in w.upserts ==> n !in w.upsertFailed && n !in w.cutShort && n !in Between(w)
    ensures n in w.upsertFailed ==> n !in w.cutShort && n !in Between(w)
    ensures n in w.cutShort ==> n !in Between(w)
  {
  }

  lemma FourParts(all: set<nat>, a: set<nat>, b: set<nat>, c: set<nat>, d: set<nat>)
    requires forall n :: n in all <==> n in a || n in b || n in c || n in d
    requires forall n :: n in a ==> n !in b && n !in c && n !in d
    requires forall n :: n in b ==> n !in c && n !in d
    requires forall n :: n in c ==> n !in d
    ensures |all| == |a| + |b| + |c| + |d|
  {
    assert all == a + (b + (c + d));
    assert |c + d| == |c| + |d|;
    assert |b + (c + d)| == |b| + |c + d|;
    assert |a + (b + (c + d))| == |a| + |b + (c + d)|;
  }

  lemma UpsertsCounted(w: World, d: string)
    requires StatesReplayed(w)
    ensures CountOf(w.store.tables.states, d) == |OfDevice(w, Elements(w.upserts), d)|
  {
    CountIsCardinality(w, w.upserts, d);
    ReplayIsLastWriteWins(UpsertedEvents(w), d);
  }

  /** Conservation of device state: for each device, the completed inserts are the device's event count, the
      failed upserts, the tasks still between insert and upsert, and those a crash stopped there. */
  lemma DeviceStateConserved(w: World, d: string)
    requires Inv(w)
    ensures |OfDevice(w, w.completed, d)|
            == CountOf(w.store.tables.states, d) + |OfDevice(w, w.upsertFailed, d)|
               + |OfDevice(w, w.cutShort, d)| + |OfDevice(w, Between(w), d)|
  {
    UpsertsCounted(w, d);
    PlacesPartition(w, d);
  }

  lemma PlacesPartition(w: World, d: string)
    requires History(w)
    ensures |OfDevice(w, w.completed, d)|
            == |OfDevice(w, Elements(w.upserts), d)| + |OfDevice(w, w.upsertFailed, d)|
               + |OfDevice(w, w.cutShort, d)| + |OfDevice(w, Between(w), d)|
  {
    forall n: nat
      ensures n in w.completed
              <==> n in Elements(w.upserts) || n in w.upsertFailed || n in w.cutShort || n in Between(w)
      ensures n in Elements(w.upserts) ==> n !in w.upsertFailed && n !in w.cutShort && n !in Between(w)
      ensures n in w.upsertFailed ==> n !in w.cutShort && n !in Between(w)
      ensures n in w.cutShort ==> n !in Between(w)
    {
      assert HistoryOf(w, n);
      CompletedKind(w, n);
    }
    FourParts(OfDevice(w, w.completed, d), OfDevice(w, Elements(w.upserts), d), OfDevice(w, w.upsertFailed, d),
              OfDevice(w, w.cutShort, d), OfDevice(w, Between(w), d));
  }

  /** A state row shows the latest upsert of its device, not the latest reading. */
  lemma StateRowIsLatestUpsert(w: World, i: nat)
    requires Inv(w) && i < |w.upserts|
    requires Latest(UpsertedEvents(w), UpsertedEvents(w)[i].deviceId, i)
    ensures var e, states := UpsertedEvents(w)[i], w.store.tables.states;
            && e.deviceId in states && e.deviceId in w.store.tables.devices
            && IsRowOf(states[e.deviceId], e, CountOf(states, e.deviceId))
  {
    ReplayIsLastWriteWins(UpsertedEvents(w), UpsertedEvents(w)[i].deviceId);
  }
}
