/** What becomes of an event, case by case and in plain terms: the whole effect of one call of `process` on Redis,
    the tables, the DLQ topic and the counters, told without any of the functions that compute it. */
module Outcomes {
  import opened Wrappers
  import opened Models
  import opened Database
  import opened Idempotency
  import opened Retry
  import opened DeadLetters
  import opened Handlers

  const PREFIX := "iotflow:idempotency:"

  /** No id, a null or otherwise falsy one, or the empty string. */
  predicate Keyless(raw: RawEvent) {
    raw.eventId.Missing? || raw.eventId.Falsy? || raw.eventId == Text("")
  }

  predicate HasKey(raw: RawEvent, key: string) {
    || (raw.eventId.Text? && raw.eventId.text != "" && key == PREFIX + raw.eventId.text)
    || (raw.eventId.Alien? && key == PREFIX + raw.eventId.shown)
  }

  /** Redis answers that the event's key was there. */
  predicate Refused(raw: RawEvent, keys: set<string>, claim: Reply) {
    claim == Answered && exists key :: key in keys && HasKey(raw, key)
  }

  /** The keys once the claim is over: the event's own has joined them, unless it has none or the command was
      lost on its way. */
  predicate KeysClaimed(before: set<string>, after: set<string>, raw: RawEvent, claim: Reply) {
    && (forall key :: key in before ==> key in after)
    && (forall key :: key in after && key !in before ==> HasKey(raw, key))
    && (claim != LostBefore && raw.eventId.Text? && raw.eventId.text != "" ==> PREFIX + raw.eventId.text in after)
    && (claim != LostBefore && raw.eventId.Alien? ==> PREFIX + raw.eventId.shown in after)
    && (claim == LostBefore ==> after == before)
  }

  /** The producer raises something that `send` does not catch. */
  predicate Breaks(raw: RawEvent, r: PublishReply) {
    raw.eventId.Alien? || r.Broken?
  }

  /** The envelope, if it reaches the topic. */
  function Sent(m: Input, reason: Reason, n: nat, r: PublishReply): seq<Envelope> {
    if m.raw.eventId.Alien? || (!r.Delivered? && !r.delivered) then []
    else [Envelope(m.raw, reason, n, m.partition, m.offset)]
  }

  /** The audit row, if it is written: for a missing id or a text. */
  function AuditRow(m: Input, reason: Reason, n: nat, r: PublishReply, ok: bool): seq<DlqRow> {
    if r.Broken? || !ok || (!m.raw.eventId.Missing? && !m.raw.eventId.Text?) then []
    else [DlqRow(m.raw, reason, n)]
  }

  lemma SendExact(s: Store, f: ContextFields, m: Input, reason: Reason, n: nat, script: Script)
    ensures var o, r := Send(s, f, m, reason, n, script), script.publish(reason);
            && o.store.keys == s.keys
            && o.store.topic == s.topic + Sent(m, reason, n, r)
            && o.store.tables == s.tables.(dlq := s.tables.dlq + AuditRow(m, reason, n, r, script.record(reason)))
            && o.store.metrics == s.metrics.(dlq := s.metrics.dlq + 1)
            && o.fields == f && (o.raised.Some? <==> Breaks(m.raw, r))
  {
  }

  lemma ClaimExact(m: Input, s: Store, script: Script)
    ensures var t := AfterClaim(m, s, script);
            && KeysClaimed(s.keys, t.keys, m.raw, script.claim)
            && t.tables == s.tables && t.topic == s.topic
            && t.metrics == if Refused(m.raw, s.keys, script.claim)
                            then s.metrics.(duplicates := s.metrics.duplicates + 1) else s.metrics
  {
  }

  lemma DecidedAs(m: Input, s: Store, script: Script, p: Policy)
    ensures var d := Decide(m.raw, s.keys, script, p);
            && (d.Duplicate? <==> Refused(m.raw, s.keys, script.claim))
            && (d.Invalid? <==> !Refused(m.raw, s.keys, script.claim) && Validate(m.raw).None?)
            && (d.Stored? ==> Raises(script.inserts, p.maxAttempts).None?)
            && (d.WriteFailed? ==> Raises(script.inserts, p.maxAttempts) == Some(d.error)
                                   && d.attempts == Calls(script.inserts, p.maxAttempts))
  {
    ClaimExact(m, s, script);
  }

  // ------------------------------------------------------------------------------------- the claim

  /** An event without an id claims nothing and is no duplicate, whatever keys are live: it goes to the DLQ. */
  lemma KeylessGoesToDlq(m: Input, s: Store, script: Script, p: Policy)
    requires Keyless(m.raw)
    ensures var o := Processed(m, s, script, p).store;
            && o.keys == s.keys && o.metrics == s.metrics.(dlq := s.metrics.dlq + 1)
            && o.tables.events == s.tables.events
  {
    ChainByDecision(m, s, script, p);
    DecidedAs(m, s, script, p);
    SendExact(AfterClaim(m, s, script), Fields(None, false), m, ValidationError, 0, script);
  }

  /** A refused event only counts as a duplicate. */
  lemma RefusedExactly(m: Input, s: Store, script: Script, p: Policy)
    requires Refused(m.raw, s.keys, script.claim)
    ensures var o := Processed(m, s, script, p);
            && o.store == s.(metrics := s.metrics.(duplicates := s.metrics.duplicates + 1))
            && o.raised.None? && !o.fields.processed
  {
    ChainByDecision(m, s, script, p);
    DecidedAs(m, s, script, p);
    ClaimExact(m, s, script);
  }

  /** With Redis answering, a text id is a duplicate exactly when its key was live; then nothing else happens. */
  lemma DuplicateExactly(m: Input, s: Store, script: Script, p: Policy, id: string)
    requires m.raw.eventId == Text(id) && id != "" && script.claim == Answered
    ensures var o := Processed(m, s, script, p);
            && (o.store.metrics.duplicates == s.metrics.duplicates + 1 <==> PREFIX + id in s.keys)
            && (PREFIX + id in s.keys ==>
                  o.raised.None? && o.store == s.(metrics := s.metrics.(duplicates := s.metrics.duplicates + 1)))
            && (PREFIX + id !in s.keys ==> o.store.metrics.duplicates == s.metrics.duplicates)
            && (PREFIX + id !in s.keys && script.release == LostBefore ==> o.store.keys == s.keys + {PREFIX + id})
  {
    ChainByDecision(m, s, script, p);
    ChainIsFlat(m, s, script, p);
    DecidedAs(m, s, script, p);
    assert HasKey(m.raw, PREFIX + id);
    assert AfterClaim(m, s, script).keys == s.keys + {PREFIX + id};
  }

  /** When the claim raises, the event is let through, whatever keys are live; if the command had arrived, the
      key is taken all the same. */
  lemma ClaimFailsOpen(m: Input, s: Store, script: Script, p: Policy)
    requires script.claim != Answered
    ensures var o := Processed(m, s, script, p).store;
            && o.metrics.duplicates == s.metrics.duplicates
            && (o.metrics.processed == s.metrics.processed + 1 || o.metrics.dlq > s.metrics.dlq)
            && (script.release == LostBefore ==> KeysClaimed(s.keys, o.keys, m.raw, script.claim))
  {
    ChainIsFlat(m, s, script, p);
    DecidedAs(m, s, script, p);
    ClaimExact(m, s, script);
  }

  // ----------------------------------------------------------------------------- unacceptable events

  /** An event that is let in and not accepted: one validation envelope with retry count zero. */
  lemma InvalidExactly(m: Input, s: Store, script: Script, p: Policy)
    requires !Refused(m.raw, s.keys, script.claim) && Validate(m.raw).None?
    ensures var o, r := Processed(m, s, script, p), script.publish(ValidationError);
            && KeysClaimed(s.keys, o.store.keys, m.raw, script.claim)
            && o.store.topic == s.topic + Sent(m, ValidationError, 0, r)
            && o.store.tables == s.tables.(dlq := s.tables.dlq
                                                  + AuditRow(m, ValidationError, 0, r, script.record(ValidationError)))
            && o.store.metrics == s.metrics.(dlq := s.metrics.dlq + 1)
            && (o.raised.Some? <==> Breaks(m.raw, r))
  {
    ChainByDecision(m, s, script, p);
    DecidedAs(m, s, script, p);
    ClaimExact(m, s, script);
    SendExact(AfterClaim(m, s, script), Fields(None, false), m, ValidationError, 0, script);
  }

  // -------------------------------------------------------------------------------------- failed writes

  /** What an error is reported as. */
  function Reported(e: Exn): Reason {
    if e == PostgresError then DbError else Unexpected(e)
  }

  /** The write ends without success after `n` calls, with `e`. */
  ghost predicate WriteFails(script: Script, p: Policy, n: nat, e: Exn) {
    if p.maxAttempts < 1 then n == 0 && e == AssertionError else GivesUpAt(script.inserts, p.maxAttempts, n, e)
  }

  /** The keys once the release is over: the one of the canonical id is gone, unless the command was lost. */
  predicate KeysReleased(before: set<string>, after: set<string>, id: string, release: Reply) {
    after == if release == LostBefore then before else before - {PREFIX + id}
  }

  /** An accepted event whose write fails after `n` calls with `e`: the attempts have left their rows, the
      claim is released, and one envelope reports the error and `n`; if that one breaks the producer, a second
      one reports a validation error. */
  lemma WriteFailedExactly(m: Input, s: Store, script: Script, p: Policy, event: IoTEvent, n: nat, e: Exn)
    requires !Refused(m.raw, s.keys, script.claim) && Validate(m.raw) == Some(event) && WriteFails(script, p, n, e)
    ensures var o, reason, again := Processed(m, s, script, p), Reported(e), ValidationError;
            var r := script.publish(reason);
            var t := AfterAttempts(s.tables, event, script.inserts, n);
            && (exists claimed :: KeysClaimed(s.keys, claimed, m.raw, script.claim)
                                  && KeysReleased(claimed, o.store.keys, event.eventId, script.release))
            && o.store.metrics.processed == s.metrics.processed
            && o.store.metrics.duplicates == s.metrics.duplicates
            && if Breaks(m.raw, r) then
                 && o.store.topic == s.topic + Sent(m, reason, n, r) + Sent(m, again, 0, script.publish(again))
                 && o.store.tables
                    == t.(dlq := s.tables.dlq + AuditRow(m, again, 0, script.publish(again), script.record(again)))
                 && o.store.metrics.dlq == s.metrics.dlq + 2
                 && (o.raised.Some? <==> Breaks(m.raw, script.publish(again)))
               else
                 && o.store.topic == s.topic + Sent(m, reason, n, r)
                 && o.store.tables == t.(dlq := s.tables.dlq + AuditRow(m, reason, n, r, script.record(reason)))
                 && o.store.metrics.dlq == s.metrics.dlq + 1 && o.raised.None?
  {
    LoopEnds(script.inserts, p.maxAttempts);
    ChainByDecision(m, s, script, p);
    DecidedAs(m, s, script, p);
    ClaimExact(m, s, script);
    AttemptedRows(s.tables, event, script.inserts, n);
    var claimed := AfterClaim(m, s, script);
    var f := Fields(Some(event), false);
    var u := ReleaseEffect(claimed.(tables := AfterAttempts(s.tables, event, script.inserts, n)), Key(event.eventId),
                           script.release);
    assert KeysReleased(claimed.keys, u.keys, event.eventId, script.release);
    SendExact(u, f, m, Reported(e), n, script);
    SendExact(Send(u, f, m, Reported(e), n, script).store, f, m, ValidationError, 0, script);
  }

  /** A `ValueError` at the first attempt is not retried: the event goes to the DLQ after one call. */
  lemma ValueErrorNotRetried(m: Input, s: Store, script: Script, p: Policy)
    requires !Refused(m.raw, s.keys, script.claim) && Validate(m.raw).Some? && p.maxAttempts >= 1
    requires script.inserts(1).Failed? && script.inserts(1).error == ValueError
    requires script.publish(Unexpected(ValueError)).Delivered?
    ensures Processed(m, s, script, p).store.topic
            == s.topic + [Envelope(m.raw, Unexpected(ValueError), 1, m.partition, m.offset)]
  {
    assert GivesUpAt(script.inserts, p.maxAttempts, 1, ValueError);
    WriteFailedExactly(m, s, script, p, Validate(m.raw).value, 1, ValueError);
  }

  // ------------------------------------------------------------------------------------- stored events

  /** The device tables after the best-effort update. */
  predicate DeviceUpdated(t: Tables, u: Tables, e: IoTEvent, r: UpsertReply) {
    && u.devices == (if r == NoDevice then t.devices else t.devices + {e.deviceId})
    && if r != Upserted then u.states == t.states
       else
         && u.states.Keys == t.states.Keys + {e.deviceId}
         && (forall d :: d in t.states && d != e.deviceId ==> u.states[d] == t.states[d])
         && IsRowOf(u.states[e.deviceId], e,
                    1 + if e.deviceId in t.states then t.states[e.deviceId].eventCount else 0)
  }

  /** An accepted event whose write succeeds at attempt `n`: the row is there and carries the raw event, the
      device is updated as far as that got, the event counts as processed, and nothing is sent. */
  lemma StoredExactly(m: Input, s: Store, script: Script, p: Policy, event: IoTEvent, n: nat)
    requires !Refused(m.raw, s.keys, script.claim) && Validate(m.raw) == Some(event)
    requires SucceedsAt(script.inserts, p.maxAttempts, n)
    ensures var o := Processed(m, s, script, p);
            var t, row := AfterAttempts(s.tables, event, script.inserts, n),
                          RowKey(event.eventId, script.inserts(n).now);
            && KeysClaimed(s.keys, o.store.keys, m.raw, script.claim)
            && o.store.topic == s.topic && o.store.tables.dlq == s.tables.dlq
            && o.store.tables.events == t.events && row in t.events
            && (row !in s.tables.events ==> t.events[row] == event && Carries(m.raw, t.events[row]))
            && DeviceUpdated(s.tables, o.store.tables, event, script.upsert)
            && o.store.metrics == s.metrics.(processed := s.metrics.processed + 1)
            && o.raised.None? && o.fields.processed
  {
    LoopEnds(script.inserts, p.maxAttempts);
    ChainByDecision(m, s, script, p);
    DecidedAs(m, s, script, p);
    ClaimExact(m, s, script);
    AttemptedRows(s.tables, event, script.inserts, n);
    FieldsCarried(m.raw, event);
  }

  // ---------------------------------------------------------------------------- the layers of any chain

  /** The validation handler turns whatever is raised below it into a validation envelope, in any chain. */
  lemma ValidationCatches(chain: seq<Stage>, i: nat, m: Input, f: ContextFields, s: Store, script: Script, p: Policy)
    requires i < |chain| && chain[i] == ValidationStage && Validate(m.raw).Some?
    ensures var inner := RunChain(chain, i + 1, m, f.(event := Validate(m.raw)), s, script, p);
            RunChain(chain, i, m, f, s, script, p)
            == if inner.raised.None? then inner
               else Send(inner.store, inner.fields, m, ValidationError, 0, script)
  {
  }

  /** The persistence handler, once its write has succeeded at attempt `n`, still releases the claim and sends an
      envelope naming the error and `n` when something is raised below it, in any chain. */
  lemma PersistenceCatches(chain: seq<Stage>, i: nat, m: Input, f: ContextFields, s: Store, script: Script, p: Policy,
                           n: nat)
    requires i < |chain| && chain[i] == PersistenceStage && f.event.Some?
    requires SucceedsAt(script.inserts, p.maxAttempts, n)
    ensures var t := s.(tables := AfterAttempts(s.tables, f.event.value, script.inserts, n));
            var inner := RunChain(chain, i + 1, m, f, t, script, p);
            var o := RunChain(chain, i, m, f, s, script, p);
            if inner.raised.None? then o == inner
            else
              var reason := Reported(inner.raised.value);
              && KeysReleased(inner.store.keys, o.store.keys, f.event.value.eventId, script.release)
              && o.store.topic == inner.store.topic + Sent(m, reason, n, script.publish(reason))
              && o.store.tables
                 == inner.store.tables.(dlq := inner.store.tables.dlq
                                               + AuditRow(m, reason, n, script.publish(reason), script.record(reason)))
              && (o.raised.Some? <==> Breaks(m.raw, script.publish(reason)))
  {
    LoopEnds(script.inserts, p.maxAttempts);
    var t := s.(tables := AfterAttempts(s.tables, f.event.value, script.inserts, n));
    var inner := RunChain(chain, i + 1, m, f, t, script, p);
    if inner.raised.Some? {
      SendExact(ReleaseEffect(inner.store, Key(f.event.value.eventId), script.release), inner.fields, m,
                Reported(inner.raised.value), n, script);
    }
  }

  /** Without a validated event the later handlers do nothing and do not call on. */
  lemma NoEventNothingDone(chain: seq<Stage>, i: nat, m: Input, f: ContextFields, s: Store, script: Script, p: Policy)
    requires i < |chain| && (chain[i] == PersistenceStage || chain[i] == DeviceStateStage) && f.event.None?
    ensures RunChain(chain, i, m, f, s, script, p) == Outcome(s, f, None)
  {
  }

  /** These are all the cases there are. */
  lemma EveryEventIsOneCase(m: Input, s: Store, script: Script, p: Policy)
    ensures || Refused(m.raw, s.keys, script.claim)
            || Validate(m.raw).None?
            || (exists n, e :: WriteFails(script, p, n, e))
            || (exists n :: SucceedsAt(script.inserts, p.maxAttempts, n))
  {
    LoopEnds(script.inserts, p.maxAttempts);
    if p.maxAttempts < 1 {
      assert WriteFails(script, p, 0, AssertionError);
    } else {
      var n := Calls(script.inserts, p.maxAttempts);
      assert script.inserts(n).Failed? ==> WriteFails(script, p, n, script.inserts(n).error);
    }
  }
}
