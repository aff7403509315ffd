/** The tasks of the worker as a transition system: every await of apps/worker/handlers.py that touches Redis,
    PostgreSQL or the DLQ producer is one atomic step, the steps of different tasks interleave freely, and
    crashes and key expiry may strike at any point. A task keeps its serial number for ever, so that the
    history can tell redeliveries apart. */
module Tasks {
  import opened Wrappers
  import opened Models
  import opened Database
  import opened Idempotency
  import opened Retry
  import opened DeadLetters
  import opened Handlers

  /** Where a task stands inside `process`. */
  datatype Pc =
    | AtClaim
    | AtSchema
    | AtInsert(tries: nat)
    | AtDevice
    | AtState
    | AtRelease(error: Exn, tries: nat)
    | AtPublish(reason: Reason, retries: nat)
    | AtRecord(reason: Reason, retries: nat)
    | Over
    | Thrown

  /** `msgs` holds the message of every task ever created. The rest after `tasks` is history: which task wrote
      a row; tasks skipped as duplicates; tasks whose insert returned; device upserts in order; tasks whose
      upsert failed or was cut short by a crash; tasks that attempted an envelope, those of which one
      arrived, and those of which one did not; tasks whose release reached Redis, and those whose release was
      lost; tasks a crash interrupted before `process` was over; second envelopes and tasks created in this session. */
  datatype World = World(
    maxAttempts: int,
    store: Store,
    msgs: seq<Input>,
    tasks: map<nat, Pc>,
    writer: map<RowKey, nat>,
    dup: set<nat>,
    completed: set<nat>,
    upserts: seq<nat>,
    upsertFailed: set<nat>,
    cutShort: set<nat>,
    tried: set<nat>,
    arrived: set<nat>,
    unsent: set<nat>,
    released: set<nat>,
    releaseLost: set<nat>,
    orphans: set<nat>,
    resent: nat,
    spawned: nat)

  datatype Action =
    | Spawn(m: Input)
    | Claim(n: nat, claim: Reply)
    | Check(n: nat)
    | Insert(n: nat, insert: InsertReply)
    | Release(n: nat, release: Reply)
    | Publish(n: nat, publish: PublishReply)
    | Record(n: nat, ok: bool)
    | EnsureDevice(n: nat, ok: bool)
    | Upsert(n: nat, ok: bool)
    | Leave(n: nat)
    | Expire(key: string)
    | Crash

  const NoMetrics := Metrics(0, 0, 0)

  function Initial(maxAttempts: int): World {
    World(maxAttempts, Store({}, EmptyTables, [], NoMetrics), [], map[], map[],
          {}, {}, [], {}, {}, {}, {}, {}, {}, {}, {}, 0, 0)
  }

  predicate InFlight(w: World, n: nat) {
    n in w.tasks && n < |w.msgs|
  }

  predicate Enabled(w: World, a: Action) {
    match a
    case Spawn(_) => true
    case Claim(n, _) => InFlight(w, n) && w.tasks[n].AtClaim?
    case Check(n) => InFlight(w, n) && w.tasks[n].AtSchema?
    case Insert(n, _) => InFlight(w, n) && w.tasks[n].AtInsert? && Accepted(w.msgs[n].raw)
    case Release(n, _) => InFlight(w, n) && w.tasks[n].AtRelease? && Accepted(w.msgs[n].raw)
    case Publish(n, _) => InFlight(w, n) && w.tasks[n].AtPublish?
    case Record(n, _) => InFlight(w, n) && w.tasks[n].AtRecord?
    case EnsureDevice(n, _) => InFlight(w, n) && w.tasks[n].AtDevice? && Accepted(w.msgs[n].raw)
    case Upsert(n, _) => InFlight(w, n) && w.tasks[n].AtState? && Accepted(w.msgs[n].raw)
    case Leave(n) => InFlight(w, n) && (w.tasks[n].Over? || w.tasks[n].Thrown?)
    case Expire(_) => true
    case Crash => true
  }

  function Goto(w: World, n: nat, pc: Pc, s: Store): World {
    w.(tasks := w.tasks[n := pc], store := s)
  }

  function Event(m: Input): IoTEvent
    requires Accepted(m.raw)
  {
    Validate(m.raw).value
  }

  function ClaimStep(w: World, n: nat, r: Reply): World
    requires n < |w.msgs|
  {
    match ClaimKey(w.msgs[n].raw)
    case None => Goto(w, n, AtSchema, w.store)
    case Some(k) =>
      var s := ClaimEffect(w.store, k, r);
      if ClaimVerdict(w.store.keys, k, r) then Goto(w, n, AtSchema, s)
      else Goto(w, n, Over, s).(dup := w.dup + {n})
  }

  function CheckStep(w: World, n: nat): World
    requires n < |w.msgs|
  {
    Goto(w, n,
         if !Accepted(w.msgs[n].raw) then AtPublish(ValidationError, 0)
         else if w.maxAttempts < 1 then AtRelease(AssertionError, 0)
         else AtInsert(0),
         w.store)
  }

  /** The row key an insert would write, if it writes at all. */
  function Target(e: IoTEvent, r: InsertReply): Option<RowKey> {
    match r
    case Returned(now) => Some(RowKey(e.eventId, now))
    case Failed(_, None) => None
    case Failed(_, Some(now)) => Some(RowKey(e.eventId, now))
  }

  function InsertStep(w: World, n: nat, r: InsertReply): World
    requires InFlight(w, n) && w.tasks[n].AtInsert? && Accepted(w.msgs[n].raw)
  {
    var e, tries := Event(w.msgs[n]), w.tasks[n].tries + 1;
    var t := Target(e, r);
    var u := w.(store := w.store.(tables := InsertEffect(w.store.tables, e, r)),
                writer := if t.Some? && t.value !in w.store.tables.events then w.writer[t.value := n] else w.writer);
    if r.Returned? then Goto(u, n, AtDevice, u.store).(completed := w.completed + {n})
    else if Retryable(r.error) && tries < w.maxAttempts then Goto(u, n, AtInsert(tries), u.store)
    else Goto(u, n, AtRelease(r.error, tries), u.store)
  }

  function ReleaseStep(w: World, n: nat, r: Reply): World
    requires InFlight(w, n) && w.tasks[n].AtRelease? && Accepted(w.msgs[n].raw)
  {
    Goto(w, n, AtPublish(ReasonOf(w.tasks[n].error), w.tasks[n].tries),
         ReleaseEffect(w.store, Key(Event(w.msgs[n]).eventId), r))
    .(released := if r.LostBefore? then w.released else w.released + {n},
      releaseLost := if r.LostBefore? then w.releaseLost + {n} else w.releaseLost)
  }

  function PublishStep(w: World, n: nat, r: PublishReply): World
    requires InFlight(w, n) && w.tasks[n].AtPublish?
  {
    var m, pc := w.msgs[n], w.tasks[n];
    var reply := Published(m.raw, r);
    var u := w.(tried := w.tried + {n},
                arrived := if Arrives(reply) then w.arrived + {n} else w.arrived,
                unsent := if Arrives(reply) then w.unsent else w.unsent + {n});
    var s := PublishEffect(w.store, EnvelopeOf(m, pc.reason, pc.retries), r);
    if !reply.Broken? then Goto(u, n, AtRecord(pc.reason, pc.retries), s)
    else if pc.reason.ValidationError? then Goto(u, n, Thrown, s)
    else Goto(u, n, AtPublish(ValidationError, 0), s).(resent := w.resent + 1)
  }

  function CountProcessed(s: Store): Store {
    s.(metrics := s.metrics.(processed := s.metrics.processed + 1))
  }

  function EnsureDeviceStep(w: World, n: nat, ok: bool): World
    requires InFlight(w, n) && Accepted(w.msgs[n].raw)
  {
    if ok then Goto(w, n, AtState, w.store.(tables := AddDevice(w.store.tables, Event(w.msgs[n]).deviceId)))
    else Goto(w, n, Over, CountProcessed(w.store)).(upsertFailed := w.upsertFailed + {n})
  }

  function UpsertStep(w: World, n: nat, ok: bool): World
    requires InFlight(w, n) && Accepted(w.msgs[n].raw)
  {
    if ok then
      var t := w.store.tables;
      Goto(w, n, Over, CountProcessed(w.store.(tables := t.(states := UpsertRow(t.states, Event(w.msgs[n]))))))
      .(upserts := w.upserts + [n])
    else Goto(w, n, Over, CountProcessed(w.store)).(upsertFailed := w.upsertFailed + {n})
  }

  /** Tasks whose `process` is still running. */
  function Running(w: World): set<nat> {
    set n | n in w.tasks && !w.tasks[n].Over? && !w.tasks[n].Thrown?
  }

  /** Tasks between the insert and the device upsert. */
  function Between(w: World): set<nat> {
    set n | n in w.tasks && (w.tasks[n].AtDevice? || w.tasks[n].AtState?)
  }

  function Step(w: World, a: Action): World
    requires Enabled(w, a)
  {
    match a
    case Spawn(m) =>
      w.(tasks := w.tasks[|w.msgs| := AtClaim], msgs := w.msgs + [m], spawned := w.spawned + 1)
    case Claim(n, r) => ClaimStep(w, n, r)
    case Check(n) => CheckStep(w, n)
    case Insert(n, r) => InsertStep(w, n, r)
    case Release(n, r) => ReleaseStep(w, n, r)
    case Publish(n, r) => PublishStep(w, n, r)
    case Record(n, ok) =>
      Goto(w, n, Over,
           RecordEffect(w.store, EnvelopeOf(w.msgs[n], w.tasks[n].reason, w.tasks[n].retries), ok))
    case EnsureDevice(n, ok) => EnsureDeviceStep(w, n, ok)
    case Upsert(n, ok) => UpsertStep(w, n, ok)
    case Leave(n) => w.(tasks := w.tasks - {n})
    case Expire(k) => w.(store := w.store.(keys := w.store.keys - {k}))
    case Crash =>
      w.(tasks := map[], orphans := w.orphans + Running(w), cutShort := w.cutShort + Between(w),
         store := w.store.(metrics := NoMetrics), resent := 0, spawned := 0)
  }

  predicate Valid(w: World, run: seq<Action>)
    decreases |run|, 0
  {
    run == [] || (Valid(w, run[..|run| - 1]) && Enabled(Exec(w, run[..|run| - 1]), run[|run| - 1]))
  }

  function Exec(w: World, run: seq<Action>): World
    requires Valid(w, run)
    decreases |run|, 1
  {
    if run == [] then w else Step(Exec(w, run[..|run| - 1]), run[|run| - 1])
  }

  lemma Extend(w: World, run: seq<Action>, a: Action)
    requires Valid(w, run) && Enabled(Exec(w, run), a)
    ensures Valid(w, run + [a]) && Exec(w, run + [a]) == Step(Exec(w, run), a)
  {
    assert (run + [a])[..|run|] == run;
  }

  /** Expiry takes one key and nothing else. */
  lemma ExpiresOne(w: World, key: string)
    ensures var u := Step(w, Expire(key));
            && (forall k :: k in u.store.keys <==> k in w.store.keys && k != key)
            && u == w.(store := w.store.(keys := u.store.keys))
  {
  }

  // ----------------------------------------------------------------------- every task has one outcome

  predicate Fresh(w: World, n: nat) {
    n !in w.dup && n !in w.completed && n !in w.tried && n !in w.arrived && n !in w.orphans && NotUpserted(w, n)
  }

  predicate NotUpserted(w: World, n: nat) {
    n !in w.upserts && n !in w.upsertFailed && n !in w.cutShort
  }

  /** Exactly one of three things became of the insert's device update. */
  predicate UpsertDecided(w: World, n: nat) {
    && (n in w.upserts || n in w.upsertFailed || n in w.cutShort)
    && !(n in w.upserts && n in w.upsertFailed) && !(n in w.upserts && n in w.cutShort)
    && !(n in w.upsertFailed && n in w.cutShort)
  }

  /** Skipped as a duplicate. */
  predicate WasDuplicate(w: World, n: nat) {
    n in w.dup && n !in w.completed && n !in w.tried && n !in w.arrived && NotUpserted(w, n)
  }

  /** Given to the DLQ. */
  predicate WasRejected(w: World, n: nat) {
    n in w.tried && n !in w.dup && n !in w.completed && NotUpserted(w, n)
  }

  /** Inserted. */
  predicate WasStored(w: World, n: nat) {
    && n in w.completed && n !in w.dup && n !in w.tried && n !in w.arrived && UpsertDecided(w, n)
    && n < |w.msgs| && Accepted(w.msgs[n].raw)
  }

  predicate HasOneOutcome(w: World, n: nat) {
    WasDuplicate(w, n) || WasRejected(w, n) || WasStored(w, n)
  }

  /** What the history says about task `n`, wherever it stands. */
  predicate HistoryOf(w: World, n: nat) {
    if n >= |w.msgs| then n !in w.tasks && Fresh(w, n)
    else if n !in w.tasks then
      HasOneOutcome(w, n) || (n in w.orphans && (Fresh(w.(orphans := {}), n) || WasRejected(w, n)))
    else
      && n !in w.orphans
      && match w.tasks[n]
         case AtClaim => Fresh(w, n)
         case AtSchema => Fresh(w, n)
         case AtInsert(tries) => Fresh(w, n) && Accepted(w.msgs[n].raw) && tries < w.maxAttempts
         case AtRelease(_, _) => Fresh(w, n) && Accepted(w.msgs[n].raw)
         case AtDevice =>
           && n in w.completed && n !in w.dup && n !in w.tried && n !in w.arrived && NotUpserted(w, n)
           && Accepted(w.msgs[n].raw)
         case AtState =>
           && n in w.completed && n !in w.dup && n !in w.tried && n !in w.arrived && NotUpserted(w, n)
           && Accepted(w.msgs[n].raw)
         case AtPublish(reason, _) => Fresh(w, n) || WasRejected(w, n)
         case AtRecord(_, _) => WasRejected(w, n)
         case Over => HasOneOutcome(w, n)
         case Thrown => WasRejected(w, n)
  }

  ghost predicate History(w: World) {
    forall n: nat :: HistoryOf(w, n)
  }

  /** Nothing the history records about `n` differs between the two states. */
  predicate Untouched(w: World, u: World, n: nat) {
    && (n in w.tasks <==> n in u.tasks) && (n in w.tasks ==> w.tasks[n] == u.tasks[n])
    && (n < |w.msgs| <==> n < |u.msgs|) && (n < |w.msgs| ==> w.msgs[n] == u.msgs[n])
    && u.maxAttempts == w.maxAttempts
    && (n in w.dup <==> n in u.dup) && (n in w.completed <==> n in u.completed)
    && (n in w.upserts <==> n in u.upserts) && (n in w.upsertFailed <==> n in u.upsertFailed)
    && (n in w.cutShort <==> n in u.cutShort) && (n in w.tried <==> n in u.tried)
    && (n in w.arrived <==> n in u.arrived) && (n in w.orphans <==> n in u.orphans)
    && (n in w.released <==> n in u.released) && (n in w.releaseLost <==> n in u.releaseLost)
  }

  /** The task an action belongs to. */
  function Actor(w: World, a: Action): Option<nat> {
    match a
    case Spawn(_) => Some(|w.msgs|)
    case Expire(_) => None
    case Crash => None
    case _ => Some(a.n)
  }

  predicate BeforeRelease(a: Action) {
    a.Spawn? || a.Claim? || a.Check? || a.Insert?
  }

  lemma OthersUntouchedEarly(w: World, a: Action, n: nat)
    requires Enabled(w, a) && BeforeRelease(a) && !a.Insert? && Actor(w, a) != Some(n)
    ensures Untouched(w, Step(w, a), n)
  {
  }

  lemma OthersUntouchedByInsert(w: World, a: Action, n: nat)
    requires Enabled(w, a) && a.Insert? && a.n != n
    ensures Untouched(w, Step(w, a), n)
  {
  }

  lemma OthersUntouchedLate(w: World, a: Action, n: nat)
    requires Enabled(w, a) && !BeforeRelease(a) && !a.Crash? && Actor(w, a) != Some(n)
    ensures Untouched(w, Step(w, a), n)
  {
  }

  lemma OnlyActorTouched(w: World, a: Action, n: nat)
    requires Enabled(w, a) && !a.Crash? && Actor(w, a) != Some(n)
    ensures Untouched(w, Step(w, a), n)
  {
    if a.Insert? {
      OthersUntouchedByInsert(w, a, n);
    } else if BeforeRelease(a) {
      OthersUntouchedEarly(w, a, n);
    } else {
      OthersUntouchedLate(w, a, n);
    }
  }

  lemma ActorHistoryEarly(w: World, a: Action, n: nat)
    requires HistoryOf(w, n) && Enabled(w, a) && Actor(w, a) == Some(n) && BeforeRelease(a)
    ensures HistoryOf(Step(w, a), n)
  {
  }

  lemma ActorHistoryLate(w: World, a: Action, n: nat)
    requires HistoryOf(w, n) && Enabled(w, a) && Actor(w, a) == Some(n) && !BeforeRelease(a)
    ensures HistoryOf(Step(w, a), n)
  {
  }

  lemma CrashHistory(w: World, n: nat)
    requires HistoryOf(w, n)
    ensures HistoryOf(Step(w, Crash), n)
  {
  }

  lemma StepHistory(w: World, a: Action)
    requires History(w) && Enabled(w, a)
    ensures History(Step(w, a))
  {
    forall n: nat
      ensures HistoryOf(Step(w, a), n)
    {
      assert HistoryOf(w, n);
      if a.Crash? {
        CrashHistory(w, n);
      } else if Actor(w, a) == Some(n) {
        if BeforeRelease(a) {
          ActorHistoryEarly(w, a, n);
        } else {
          ActorHistoryLate(w, a, n);
        }
      } else {
        OnlyActorTouched(w, a, n);
      }
    }
  }
}
