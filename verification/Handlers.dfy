/** The worker's four handlers and the processor that chains them (apps/worker/handlers.py,
    apps/worker/processor.py): methods over the real objects, the nested meaning of the chain, and the
    flat decision it comes to. */
module Handlers {
  import opened Wrappers
  import opened Models
  import opened Database
  import opened Idempotency
  import opened Retry
  import opened DeadLetters

  datatype Stage = IdempotencyStage | ValidationStage | PersistenceStage | DeviceStateStage

  const WORKER_CHAIN := [IdempotencyStage, ValidationStage, PersistenceStage, DeviceStateStage]

  /** How the outside world answers while one event is processed. */
  datatype Script = Script(
    claim: Reply,
    inserts: Replies,
    draws: Draws,
    release: Reply,
    publish: Reason -> PublishReply,
    record: Reason -> bool,
    upsert: UpsertReply)

  /** The message in hand. */
  datatype Input = Input(raw: RawEvent, partition: nat, offset: nat)

  /** What the handlers write into their shared context. */
  datatype ContextFields = Fields(event: Option<IoTEvent>, processed: bool)

  /** The result of running a chain: the state, the context's fields, and what escaped. */
  datatype Outcome = Outcome(store: Store, fields: ContextFields, raised: Option<Exn>)

  /** `error_type` of the persistence handler's two except clauses. */
  function ReasonOf(e: Exn): Reason {
    if e.PostgresError? then DbError else Unexpected(e)
  }

  function EnvelopeOf(m: Input, reason: Reason, retries: nat): Envelope {
    Envelope(m.raw, reason, retries, m.partition, m.offset)
  }

  const SendFailed := OtherError("dlq send")

  // ------------------------------------------------------------------ nested meaning of the chain

  function ClaimEffect(s: Store, key: string, r: Reply): Store {
    s.(keys := ClaimKeys(s.keys, key, r),
       metrics := if ClaimVerdict(s.keys, key, r) then s.metrics
                  else s.metrics.(duplicates := s.metrics.duplicates + 1))
  }

  function ReleaseEffect(s: Store, key: string, r: Reply): Store {
    s.(keys := ReleaseKeys(s.keys, key, r))
  }

  function DeviceStateEffect(s: Store, e: IoTEvent, r: UpsertReply): Store {
    s.(tables := UpsertEffect(s.tables, e, r), metrics := s.metrics.(processed := s.metrics.processed + 1))
  }

  function Send(s: Store, f: ContextFields, m: Input, reason: Reason, retries: nat, script: Script): Outcome {
    var env, r := EnvelopeOf(m, reason, retries), script.publish(reason);
    Outcome(SendEffect(s, env, r, script.record(reason)), f,
            if Published(m.raw, r).Broken? then Some(SendFailed) else None)
  }

  /** The except clauses of the persistence handler: release the claim, then give the event to the DLQ. */
  function GiveUp(s: Store, f: ContextFields, m: Input, e: IoTEvent, error: Exn, retries: nat,
                  script: Script): Outcome
  {
    Send(ReleaseEffect(s, Key(e.eventId), script.release), f, m, ReasonOf(error), retries, script)
  }

  /** Running the handlers of `chain` from position `i` on, each with the rest of the chain as its
      continuation and with its own exception handlers around it. */
  function RunChain(chain: seq<Stage>, i: nat, m: Input, f: ContextFields, s: Store, script: Script,
                    p: Policy): Outcome
    decreases if i < |chain| then |chain| - i else 0
  {
    if i >= |chain| then Outcome(s, f, None)
    else match chain[i]
      case IdempotencyStage =>
        var key := ClaimKey(m.raw);
        if key.None? then RunChain(chain, i + 1, m, f, s, script, p)
        else
          var t := ClaimEffect(s, key.value, script.claim);
          if ClaimVerdict(s.keys, key.value, script.claim) then RunChain(chain, i + 1, m, f, t, script, p)
          else Outcome(t, f, None)
      case ValidationStage =>
        var e := Validate(m.raw);
        if e.None? then Send(s, f, m, ValidationError, 0, script)
        else
          var o := RunChain(chain, i + 1, m, f.(event := e), s, script, p);
          if o.raised.Some? then Send(o.store, o.fields, m, ValidationError, 0, script) else o
      case PersistenceStage =>
        if f.event.None? then Outcome(s, f, None)
        else
          var e, n := f.event.value, Calls(script.inserts, p.maxAttempts);
          var t := s.(tables := AfterAttempts(s.tables, e, script.inserts, n));
          var error := Raises(script.inserts, p.maxAttempts);
          if error.Some? then GiveUp(t, f, m, e, error.value, n, script)
          else
            var o := RunChain(chain, i + 1, m, f, t, script, p);
            if o.raised.Some? then GiveUp(o.store, o.fields, m, e, o.raised.value, n, script) else o
      case DeviceStateStage =>
        if f.event.None? then Outcome(s, f, None)
        else
          RunChain(chain, i + 1, m, f.(processed := true), DeviceStateEffect(s, f.event.value, script.upsert),
                   script, p)
  }

  // -------------------------------------------------------------------------------- the processor

  class WorkerContext {
    const message: Input
    var event: Option<IoTEvent>
    var processed: bool

    function View(): ContextFields
      reads this
    {
      Fields(event, processed)
    }

    constructor (message: Input)
      ensures this.message == message && View() == Fields(None, false)
    {
      this.message := message;
      event, processed := None, false;
    }
  }

  class EventProcessor {
    const guard: IdempotencyGuard
    const dlq: DlqPublisher
    const db: Db
    const policy: Policy
    var handlers: seq<Stage>
    var eventsProcessed: nat
    var activeTasks: int

    ghost function View(): Store
      reads this, guard, dlq, db
    {
      Store(guard.Live(), db.View(), dlq.topic, Metrics(eventsProcessed, guard.duplicates, dlq.sent))
    }

    /** The handlers are registered one after the other. */
    constructor (guard: IdempotencyGuard, dlq: DlqPublisher, db: Db, policy: Policy)
      ensures this.guard == guard && this.dlq == dlq && this.db == db && this.policy == policy
      ensures handlers == WORKER_CHAIN && activeTasks == 0 && eventsProcessed == 0
    {
      this.guard, this.dlq, this.db, this.policy := guard, dlq, db, policy;
      handlers, eventsProcessed, activeTasks := [], 0, 0;
      new;
      handlers := handlers + [IdempotencyStage];
      handlers := handlers + [ValidationStage];
      handlers := handlers + [PersistenceStage];
      handlers := handlers + [DeviceStateStage];
    }

    /** `process`: run the chain on a fresh context; the gauge of active tasks goes up and down again
        whatever happens. */
    method Process(m: Input, script: Script) returns (raised: Option<Exn>)
      requires guard.Valid()
      modifies this`activeTasks, this`eventsProcessed, guard, dlq, db
      ensures View() == old(Final(m, View(), script)).store && raised == old(Final(m, View(), script)).raised
      ensures activeTasks == old(activeTasks)
    {
      activeTasks := activeTasks + 1;
      var context := new WorkerContext(m);
      raised := Dispatch(0, context, script);
      activeTasks := activeTasks - 1;
    }

    ghost function Final(m: Input, s: Store, script: Script): Outcome
      reads this`handlers
    {
      RunChain(handlers, 0, m, Fields(None, false), s, script, policy)
    }

    method Dispatch(i: nat, context: WorkerContext, script: Script) returns (raised: Option<Exn>)
      requires guard.Valid()
      modifies this`eventsProcessed, guard, dlq, db, context
      ensures Outcome(View(), context.View(), raised)
              == RunChain(handlers, i, context.message, old(context.View()), old(View()), script, policy)
      decreases if i < |handlers| then |handlers| - i else 0, 1
    {
      raised := None;
      if i < |handlers| {
        match handlers[i]
        case IdempotencyStage => raised := CheckIdempotency(i, context, script);
        case ValidationStage => raised := CheckSchema(i, context, script);
        case PersistenceStage => raised := Persist(i, context, script);
        case DeviceStateStage => raised := UpdateDeviceState(i, context, script);
      }
    }

    /** `IdempotencyHandler`. */
    method CheckIdempotency(i: nat, context: WorkerContext, script: Script) returns (raised: Option<Exn>)
      requires i < |handlers| && handlers[i] == IdempotencyStage && guard.Valid()
      modifies this`eventsProcessed, guard, dlq, db, context
      ensures Outcome(View(), context.View(), raised)
              == RunChain(handlers, i, context.message, old(context.View()), old(View()), script, policy)
      decreases |handlers| - i, 0
    {
      var id := context.message.raw.eventId;
      if id.Missing? || id.Falsy? || id == Text("") {
        raised := Dispatch(i + 1, context, script);
        return;
      }
      var isNew := guard.IsNew(if id.Text? then id.text else id.shown, script.claim);
      if !isNew {
        return None;
      }
      raised := Dispatch(i + 1, context, script);
    }

    /** `ValidationHandler`: its try block also covers the rest of the chain. */
    method CheckSchema(i: nat, context: WorkerContext, script: Script) returns (raised: Option<Exn>)
      requires i < |handlers| && handlers[i] == ValidationStage && guard.Valid()
      modifies this`eventsProcessed, guard, dlq, db, context
      ensures Outcome(View(), context.View(), raised)
              == RunChain(handlers, i, context.message, old(context.View()), old(View()), script, policy)
      decreases |handlers| - i, 0
    {
      var e := Validate(context.message.raw);
      var caught := e.None?;
      if e.Some? {
        context.event := e;
        var escaped := Dispatch(i + 1, context, script);
        caught := escaped.Some?;
      }
      raised := None;
      if caught {
        raised := SendToDlq(context.message, ValidationError, 0, script);
      }
    }

    /** `PersistenceHandler`: retried insert, then the rest of the chain; any exception releases the claim
        and gives the event to the DLQ. */
    method Persist(i: nat, context: WorkerContext, script: Script) returns (raised: Option<Exn>)
      requires i < |handlers| && handlers[i] == PersistenceStage && guard.Valid()
      modifies this`eventsProcessed, guard, dlq, db, context
      ensures Outcome(View(), context.View(), raised)
              == RunChain(handlers, i, context.message, old(context.View()), old(View()), script, policy)
      decreases |handlers| - i, 0
    {
      if context.event.None? {
        return None;
      }
      var event := context.event.value;
      var failure, retryCount, _ := WithRetry(db, policy, event, script.inserts, script.draws);
      if failure.None? {
        failure := Dispatch(i + 1, context, script);
      }
      raised := None;
      if failure.Some? {
        guard.Release(event.eventId, script.release);
        raised := SendToDlq(context.message, ReasonOf(failure.value), retryCount, script);
      }
    }

    /** `DeviceStateHandler`: best effort, then the event counts as processed. */
    method UpdateDeviceState(i: nat, context: WorkerContext, script: Script) returns (raised: Option<Exn>)
      requires i < |handlers| && handlers[i] == DeviceStateStage && guard.Valid()
      modifies this`eventsProcessed, guard, dlq, db, context
      ensures Outcome(View(), context.View(), raised)
              == RunChain(handlers, i, context.message, old(context.View()), old(View()), script, policy)
      decreases |handlers| - i, 0
    {
      if context.event.None? {
        return None;
      }
      var _ := db.UpsertDeviceState(context.event.value, script.upsert);
      eventsProcessed := eventsProcessed + 1;
      context.processed := true;
      raised := Dispatch(i + 1, context, script);
    }

    method SendToDlq(m: Input, reason: Reason, retries: nat, script: Script) returns (raised: Option<Exn>)
      modifies dlq, db`dlq
      ensures View() == Send(old(View()), Fields(None, false), m, reason, retries, script).store
      ensures raised == Send(old(View()), Fields(None, false), m, reason, retries, script).raised
    {
      var broke := dlq.Send(db, EnvelopeOf(m, reason, retries), script.publish(reason), script.record(reason));
      raised := if broke then Some(SendFailed) else None;
    }
  }

  // ------------------------------------------------------------------------------ the flat decision

  /** What becomes of one event. */
  datatype Decision = Duplicate | Invalid | WriteFailed(error: Exn, attempts: nat) | Stored

  /** Decided from the message, the live keys and the answers alone, with no nesting. */
  function Decide(raw: RawEvent, keys: set<string>, script: Script, p: Policy): Decision {
    var key, error := ClaimKey(raw), Raises(script.inserts, p.maxAttempts);
    if key.Some? && !ClaimVerdict(keys, key.value, script.claim) then Duplicate
    else if !Accepted(raw) then Invalid
    else if error.Some? then WriteFailed(error.value, Calls(script.inserts, p.maxAttempts))
    else Stored
  }

  /** The `(reason, retry_count)` of every envelope attempted: an envelope about a failed write that breaks
      the producer is caught by the validation handler and followed by one about a validation error. */
  function Attempts(raw: RawEvent, d: Decision, script: Script): seq<(Reason, nat)> {
    match d
    case Duplicate => []
    case Stored => []
    case Invalid => [(ValidationError, 0)]
    case WriteFailed(e, n) =>
      if Published(raw, script.publish(ReasonOf(e))).Broken? then [(ReasonOf(e), n), (ValidationError, 0)]
      else [(ReasonOf(e), n)]
  }

  predicate BrokenFor(raw: RawEvent, reason: Reason, script: Script) {
    Published(raw, script.publish(reason)).Broken?
  }

  /** The envelope of one attempt, if it reaches the topic. */
  function ArrivingOne(m: Input, reason: Reason, n: nat, script: Script): seq<Envelope> {
    if Arrives(Published(m.raw, script.publish(reason))) then [EnvelopeOf(m, reason, n)] else []
  }

  /** The audit row of one attempt, if it is written. */
  function AuditedOne(m: Input, reason: Reason, n: nat, script: Script): seq<DlqRow> {
    if BrokenFor(m.raw, reason, script) || !script.record(reason) || !Recordable(m.raw) then []
    else [DlqRow(m.raw, reason, n)]
  }

  function Arriving(m: Input, attempts: seq<(Reason, nat)>, script: Script): seq<Envelope> {
    if attempts == [] then []
    else
      var last := attempts[|attempts| - 1];
      Arriving(m, attempts[..|attempts| - 1], script) + ArrivingOne(m, last.0, last.1, script)
  }

  function Audited(m: Input, attempts: seq<(Reason, nat)>, script: Script): seq<DlqRow> {
    if attempts == [] then []
    else
      var last := attempts[|attempts| - 1];
      Audited(m, attempts[..|attempts| - 1], script) + AuditedOne(m, last.0, last.1, script)
  }

  function KeysAfter(raw: RawEvent, keys: set<string>, d: Decision, script: Script): set<string> {
    var claimed := match ClaimKey(raw)
                   case None => keys
                   case Some(k) => ClaimKeys(keys, k, script.claim);
    if d.WriteFailed? && raw.eventId.Text? then ReleaseKeys(claimed, Key(Upper(raw.eventId.text)), script.release)
    else claimed
  }

  /** The tables after the insert attempts and, for a stored event, the device upsert; audit rows aside. */
  function TablesAfter(raw: RawEvent, t: Tables, d: Decision, script: Script, p: Policy): Tables {
    match Validate(raw)
    case None => t
    case Some(e) =>
      var written := AfterAttempts(t, e, script.inserts, Calls(script.inserts, p.maxAttempts));
      match d
      case Duplicate => t
      case Invalid => t
      case WriteFailed(_, _) => written
      case Stored => UpsertEffect(written, e, script.upsert)
  }

  /** The whole effect of processing one event, read off its decision. */
  function FlatStore(m: Input, s: Store, script: Script, p: Policy): Store {
    var d := Decide(m.raw, s.keys, script, p);
    var attempts := Attempts(m.raw, d, script);
    var t := TablesAfter(m.raw, s.tables, d, script, p);
    Store(KeysAfter(m.raw, s.keys, d, script),
          t.(dlq := t.dlq + Audited(m, attempts, script)),
          s.topic + Arriving(m, attempts, script),
          Metrics(s.metrics.processed + (if d.Stored? then 1 else 0),
                  s.metrics.duplicates + (if d.Duplicate? then 1 else 0),
                  s.metrics.dlq + |attempts|))
  }

  /** An exception leaves `process` exactly when the last envelope attempted broke the producer. */
  predicate FlatRaises(raw: RawEvent, d: Decision, script: Script) {
    match d
    case Duplicate => false
    case Stored => false
    case Invalid => BrokenFor(raw, ValidationError, script)
    case WriteFailed(e, _) => BrokenFor(raw, ReasonOf(e), script) && BrokenFor(raw, ValidationError, script)
  }

  /** `process` on the worker's chain. */
  function Processed(m: Input, s: Store, script: Script, p: Policy): Outcome {
    RunChain(WORKER_CHAIN, 0, m, Fields(None, false), s, script, p)
  }

  lemma {:induction false} AttemptsKeepDlq(t: Tables, e: IoTEvent, replies: Replies, n: nat)
    ensures AfterAttempts(t, e, replies, n).dlq == t.dlq
  {
    if n > 0 {
      AttemptsKeepDlq(t, e, replies, n - 1);
    }
  }

  lemma TailOfChain(m: Input, e: IoTEvent, s: Store, script: Script, p: Policy)
    ensures RunChain(WORKER_CHAIN, 3, m, Fields(Some(e), false), s, script, p)
            == Outcome(DeviceStateEffect(s, e, script.upsert), Fields(Some(e), true), None)
  {
    assert RunChain(WORKER_CHAIN, 4, m, Fields(Some(e), true), DeviceStateEffect(s, e, script.upsert), script, p)
           == Outcome(DeviceStateEffect(s, e, script.upsert), Fields(Some(e), true), None);
  }

  /** The state once the claim, if any, has been answered. */
  function AfterClaim(m: Input, s: Store, script: Script): Store {
    match ClaimKey(m.raw)
    case None => s
    case Some(k) => ClaimEffect(s, k, script.claim)
  }

  /** The chain with its nested continuations, spelled out decision by decision. */
  lemma ChainByDecision(m: Input, s: Store, script: Script, p: Policy)
    ensures var d, t := Decide(m.raw, s.keys, script, p), AfterClaim(m, s, script);
            var none := Fields(None, false);
            Processed(m, s, script, p) ==
            match d
            case Duplicate => Outcome(t, none, None)
            case Invalid => Send(t, none, m, ValidationError, 0, script)
            case WriteFailed(error, n) =>
              var e := Validate(m.raw).value;
              var f := Fields(Some(e), false);
              var u := t.(tables := AfterAttempts(t.tables, e, script.inserts, n));
              var o := GiveUp(u, f, m, e, error, n, script);
              if o.raised.None? then o else Send(o.store, f, m, ValidationError, 0, script)
            case Stored =>
              var e := Validate(m.raw).value;
              var n := Calls(script.inserts, p.maxAttempts);
              var u := t.(tables := AfterAttempts(t.tables, e, script.inserts, n));
              Outcome(DeviceStateEffect(u, e, script.upsert), Fields(Some(e), true), None)
  {
    var d, t := Decide(m.raw, s.keys, script, p), AfterClaim(m, s, script);
    if !d.Duplicate? {
      assert Processed(m, s, script, p) == RunChain(WORKER_CHAIN, 1, m, Fields(None, false), t, script, p);
      if d.Stored? {
        var e := Validate(m.raw).value;
        var u := t.(tables := AfterAttempts(t.tables, e, script.inserts, Calls(script.inserts, p.maxAttempts)));
        TailOfChain(m, e, u, script, p);
        assert RunChain(WORKER_CHAIN, 2, m, Fields(Some(e), false), t, script, p)
               == RunChain(WORKER_CHAIN, 3, m, Fields(Some(e), false), u, script, p);
      }
    }
  }

  lemma OneAttempt(m: Input, a: (Reason, nat), script: Script)
    ensures Arriving(m, [a], script) == ArrivingOne(m, a.0, a.1, script)
    ensures Audited(m, [a], script) == AuditedOne(m, a.0, a.1, script)
  {
    assert [a][..0] == [];
  }

  lemma TwoAttempts(m: Input, a: (Reason, nat), b: (Reason, nat), script: Script)
    ensures Arriving(m, [a, b], script) == ArrivingOne(m, a.0, a.1, script) + ArrivingOne(m, b.0, b.1, script)
    ensures Audited(m, [a, b], script) == AuditedOne(m, a.0, a.1, script) + AuditedOne(m, b.0, b.1, script)
  {
    assert [a, b][..1] == [a];
    OneAttempt(m, a, script);
  }

  lemma SendByParts(s: Store, f: ContextFields, m: Input, reason: Reason, n: nat, script: Script)
    ensures Send(s, f, m, reason, n, script).store ==
            Store(s.keys, s.tables.(dlq := s.tables.dlq + AuditedOne(m, reason, n, script)),
                  s.topic + ArrivingOne(m, reason, n, script), s.metrics.(dlq := s.metrics.dlq + 1))
  {
  }

  /** The state a failed write leaves before anything is sent. */
  lemma FailedWriteIsFlat(m: Input, s: Store, script: Script, p: Policy)
    requires Decide(m.raw, s.keys, script, p).WriteFailed?
    ensures Processed(m, s, script, p).store == FlatStore(m, s, script, p)
    ensures Processed(m, s, script, p).raised.Some? <==> FlatRaises(m.raw, Decide(m.raw, s.keys, script, p), script)
  {
    ChainByDecision(m, s, script, p);
    var d := Decide(m.raw, s.keys, script, p);
    var e, f := Validate(m.raw).value, Fields(Validate(m.raw), false);
    AttemptsKeepDlq(s.tables, e, script.inserts, d.attempts);
    var t := AfterClaim(m, s, script);
    var u := ReleaseEffect(t.(tables := AfterAttempts(t.tables, e, script.inserts, d.attempts)),
                           Key(e.eventId), script.release);
    var a, b := (ReasonOf(d.error), d.attempts), (ValidationError, 0);
    var one := Send(u, f, m, a.0, a.1, script);
    SendByParts(u, f, m, a.0, a.1, script);
    OneAttempt(m, a, script);
    if BrokenFor(m.raw, a.0, script) {
      SendByParts(one.store, f, m, b.0, b.1, script);
      TwoAttempts(m, a, b, script);
      assert Attempts(m.raw, d, script) == [a, b];
      assert Processed(m, s, script, p) == Send(one.store, f, m, b.0, b.1, script);
    } else {
      assert Attempts(m.raw, d, script) == [a];
      assert Processed(m, s, script, p) == one;
    }
  }

  /** The nested chain refines the flat decision: state, escaping exception and `processed` flag. */
  lemma ChainIsFlat(m: Input, s: Store, script: Script, p: Policy)
    ensures var d, o := Decide(m.raw, s.keys, script, p), Processed(m, s, script, p);
            && o.store == FlatStore(m, s, script, p)
            && (o.raised.Some? <==> FlatRaises(m.raw, d, script))
            && (o.fields.processed <==> d.Stored?)
  {
    ChainByDecision(m, s, script, p);
    var d := Decide(m.raw, s.keys, script, p);
    if d.WriteFailed? {
      FailedWriteIsFlat(m, s, script, p);
    } else if d.Stored? {
      AttemptsKeepDlq(s.tables, Validate(m.raw).value, script.inserts, Calls(script.inserts, p.maxAttempts));
    } else if d.Invalid? {
      OneAttempt(m, (ValidationError, 0), script);
      SendByParts(AfterClaim(m, s, script), Fields(None, false), m, ValidationError, 0, script);
    }
  }

  /** When the id can be encoded and the producer fails with nothing but broker errors, `process` never
      raises and attempts at most one envelope. */
  lemma NeverRaises(m: Input, s: Store, script: Script, p: Policy)
    requires !m.raw.eventId.Alien?
    requires forall reason :: !script.publish(reason).Broken?
    ensures Processed(m, s, script, p).raised.None?
    ensures |Attempts(m.raw, Decide(m.raw, s.keys, script, p), script)| <= 1
  {
    ChainIsFlat(m, s, script, p);
  }

  /** An id that is not a string and is not taken for a duplicate always makes `process` raise, and nothing of
      the event reaches the topic or the audit table. */
  lemma AlienIdRaises(m: Input, s: Store, script: Script, p: Policy)
    requires m.raw.eventId.Alien? && ClaimVerdict(s.keys, Key(m.raw.eventId.shown), script.claim)
    ensures var o := Processed(m, s, script, p);
            && o.raised.Some? && o.store.topic == s.topic && o.store.tables == s.tables
            && o.store.metrics.dlq == s.metrics.dlq + 1
  {
    ChainByDecision(m, s, script, p);
  }

  /** What an envelope or an audit row may report: a failed write with the number of insert attempts made, or a
      validation error with none. */
  predicate HonestCount(reason: Reason, n: nat, script: Script, p: Policy) {
    if reason.ValidationError? then n == 0 else n == Calls(script.inserts, p.maxAttempts)
  }

  /** Exactly one counter moves: an event is counted as processed, or as a duplicate, or given to the DLQ, the
      last at most twice. Only the DLQ outcome adds envelopes and audit rows, about this very message, and
      each reports a failed write with the number of insert attempts or a validation error with zero. */
  lemma ExactlyOneOutcome(m: Input, s: Store, script: Script, p: Policy)
    ensures var d, o := Decide(m.raw, s.keys, script, p), Processed(m, s, script, p).store;
            var stored, skipped, sent := o.metrics.processed - s.metrics.processed,
                                         o.metrics.duplicates - s.metrics.duplicates,
                                         o.metrics.dlq - s.metrics.dlq;
            && 0 <= stored && 0 <= skipped && 0 <= sent <= 2
            && stored + skipped + (if sent > 0 then 1 else 0) == 1
            && (stored == 1 <==> d.Stored?) && (skipped == 1 <==> d.Duplicate?)
            && s.topic <= o.topic && |o.topic| <= |s.topic| + sent
            && s.tables.dlq <= o.tables.dlq && |o.tables.dlq| <= |s.tables.dlq| + sent
            && (forall i :: |s.topic| <= i < |o.topic| ==>
                  && o.topic[i] == EnvelopeOf(m, o.topic[i].reason, o.topic[i].retryCount)
                  && HonestCount(o.topic[i].reason, o.topic[i].retryCount, script, p))
            && (forall i :: |s.tables.dlq| <= i < |o.tables.dlq| ==>
                  && o.tables.dlq[i].original == m.raw
                  && HonestCount(o.tables.dlq[i].reason, o.tables.dlq[i].retryCount, script, p))
  {
    ChainIsFlat(m, s, script, p);
    TablesKeepDlq(m, s, script, p);
    ArrivingHonest(m, Attempts(m.raw, Decide(m.raw, s.keys, script, p), script), script, p);
  }

  lemma TablesKeepDlq(m: Input, s: Store, script: Script, p: Policy)
    ensures TablesAfter(m.raw, s.tables, Decide(m.raw, s.keys, script, p), script, p).dlq == s.tables.dlq
  {
    if Accepted(m.raw) {
      AttemptsKeepDlq(s.tables, Validate(m.raw).value, script.inserts, Calls(script.inserts, p.maxAttempts));
    }
  }

  lemma {:induction false} ArrivingHonest(m: Input, attempts: seq<(Reason, nat)>, script: Script, p: Policy)
    requires forall i :: 0 <= i < |attempts| ==> HonestCount(attempts[i].0, attempts[i].1, script, p)
    ensures var envelopes, rows := Arriving(m, attempts, script), Audited(m, attempts, script);
            && |envelopes| <= |attempts| && |rows| <= |attempts|
            && (forall i :: 0 <= i < |envelopes| ==>
                  && envelopes[i] == EnvelopeOf(m, envelopes[i].reason, envelopes[i].retryCount)
                  && HonestCount(envelopes[i].reason, envelopes[i].retryCount, script, p))
            && (forall i :: 0 <= i < |rows| ==>
                  rows[i].original == m.raw && HonestCount(rows[i].reason, rows[i].retryCount, script, p))
  {
    if attempts != [] {
      ArrivingHonest(m, attempts[..|attempts| - 1], script, p);
    }
  }
}
