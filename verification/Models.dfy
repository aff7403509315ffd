/** The shared event model (libs/shared/models.py): what a raw Kafka value holds,
    when it is accepted, and its canonical form. */
module Models {
  import opened Wrappers

  /** The `event_id` of a raw JSON object. `Falsy` is null, zero or an empty collection (the empty string
      is `Text("")`); `Alien` is a truthy value that is not a string, known by the text an f-string
      shows for it. */
  datatype EventId = Missing | Falsy | Text(text: string) | Alien(shown: string)

  /** A JSON field: absent, of a type the model refuses, or given. */
  datatype Field<+T> = Absent | Illtyped | Given(value: T)

  /** A time stamp: not a time-zone aware ISO 8601 string, or a wall-clock reading with its UTC offset. */
  datatype Stamp = Unusable | Aware(wall: int, offset: int)

  /** Payloads are opaque; only their emptiness matters. */
  type Json = map<string, string>

  datatype RawEvent = RawEvent(
    eventId: EventId,
    deviceId: Field<string>,
    eventType: Field<string>,
    schemaVersion: Field<string>,
    timestamp: Stamp,
    payload: Field<Json>,
    metadata: Field<Json>,
    traceId: Option<string>)

  datatype IoTEvent = IoTEvent(
    eventId: string,
    deviceId: string,
    eventType: string,
    schemaVersion: string,
    timestamp: int,
    payload: Json,
    metadata: Json)

  const ULID_LENGTH := 26
  const MAX_DEVICE_ID := 128
  const MAX_EVENT_TYPE := 64
  const DEFAULT_SCHEMA := "1.0"

  function UpperChar(c: char): char {
    if 'a' <= c <= 'z' then (c as int - 32) as char else c
  }

  function Upper(s: string): (u: string)
    ensures |u| == |s|
    ensures forall i :: 0 <= i < |s| ==> u[i] == UpperChar(s[i])
  {
    seq(|s|, i requires 0 <= i < |s| => UpperChar(s[i]))
  }

  /** Crockford Base32 in either case: no I, L, O or U. */
  predicate IsUlidChar(c: char) {
    var u := UpperChar(c);
    '0' <= u <= '9' || ('A' <= u <= 'Z' && u != 'I' && u != 'L' && u != 'O' && u != 'U')
  }

  predicate IsUlid(s: string) {
    |s| == ULID_LENGTH && forall i :: 0 <= i < |s| ==> IsUlidChar(s[i])
  }

  /** The instant a stamp names, in UTC. */
  function Instant(t: Stamp): int
    requires t.Aware?
  {
    t.wall - t.offset
  }

  function OrElse<T>(f: Field<T>, default: T): T {
    if f.Given? then f.value else default
  }

  predicate Accepted(raw: RawEvent) {
    && raw.eventId.Text? && IsUlid(raw.eventId.text)
    && raw.deviceId.Given? && 1 <= |raw.deviceId.value| <= MAX_DEVICE_ID
    && raw.eventType.Given? && 1 <= |raw.eventType.value| <= MAX_EVENT_TYPE
    && !raw.schemaVersion.Illtyped?
    && raw.timestamp.Aware?
    && raw.payload.Given? && raw.payload.value != map[]
    && !raw.metadata.Illtyped?
  }

  /** `IoTEvent(**raw)`: the canonical event, or nothing when validation raises. Extra keys are ignored. */
  function Validate(raw: RawEvent): Option<IoTEvent> {
    if Accepted(raw) then
      Some(IoTEvent(
             Upper(raw.eventId.text),
             raw.deviceId.value,
             raw.eventType.value,
             OrElse(raw.schemaVersion, DEFAULT_SCHEMA),
             Instant(raw.timestamp),
             raw.payload.value,
             OrElse(raw.metadata, map[])))
    else
      None
  }

  /** `to_kafka_dict`, with the `_trace_id` key the ingestion service adds. */
  function ToKafka(e: IoTEvent, traceId: Option<string>): RawEvent {
    RawEvent(Text(e.eventId), Given(e.deviceId), Given(e.eventType), Given(e.schemaVersion),
             Aware(e.timestamp, 0), Given(e.payload), Given(e.metadata), traceId)
  }

  const KEY_PREFIX := "iotflow:idempotency:"

  /** `IdempotencyGuard._key`. */
  function Key(id: string): string {
    KEY_PREFIX + id
  }

  /** The Redis key the idempotency handler claims: none for a missing or falsy id. */
  function ClaimKey(raw: RawEvent): Option<string> {
    match raw.eventId
    case Text(s) => if s == "" then None else Some(Key(s))
    case Alien(shown) => Some(Key(shown))
    case _ => None
  }

  /** The key is the id behind a fixed prefix. */
  lemma KeyFormat(id: string)
    ensures Key(id) == "iotflow:idempotency:" + id
  {
  }

  lemma KeyInjective(a: string, b: string)
    ensures Key(a) == Key(b) <==> a == b
  {
    assert Key(a)[|KEY_PREFIX|..] == a;
    assert Key(b)[|KEY_PREFIX|..] == b;
  }

  lemma UpperIdempotent(s: string)
    ensures Upper(Upper(s)) == Upper(s)
  {
    assert forall i :: 0 <= i < |s| ==> UpperChar(UpperChar(s[i])) == UpperChar(s[i]);
  }

  /** Re-validating the Kafka dictionary of an accepted event yields that event, whatever trace id rides
      along, so validation is idempotent. */
  lemma RoundTrip(raw: RawEvent, e: IoTEvent, traceId: Option<string>)
    requires Validate(raw) == Some(e)
    ensures Validate(ToKafka(e, traceId)) == Some(e) && ToKafka(e, traceId).traceId == traceId
    ensures Carries(raw, e)
  {
    FieldsCarried(raw, e);
    UpperIdempotent(raw.eventId.text);
    assert forall i :: 0 <= i < |e.eventId| ==> IsUlidChar(e.eventId[i]);
  }

  /** The key claimed before validation is the key released after a failed insert exactly when the
      producer already sent the id in upper case. */
  lemma ClaimAndReleaseAgree(raw: RawEvent, e: IoTEvent)
    requires Validate(raw) == Some(e)
    ensures ClaimKey(raw) == Some(Key(e.eventId)) <==> raw.eventId.text == Upper(raw.eventId.text)
  {
    KeyInjective(raw.eventId.text, e.eventId);
  }

  /** Whatever the ingestion service forwards claims and releases one and the same key, and two such
      events share it only if they share their id. */
  lemma ForwardedKeysCanonical(raw: RawEvent, e: IoTEvent, other: RawEvent, f: IoTEvent,
                               t: Option<string>, u: Option<string>)
    requires Validate(raw) == Some(e) && Validate(other) == Some(f)
    ensures ClaimKey(ToKafka(e, t)) == Some(Key(e.eventId))
    ensures ClaimKey(ToKafka(e, t)) == ClaimKey(ToKafka(f, u)) <==> e.eventId == f.eventId
  {
    RoundTrip(raw, e, t);
    RoundTrip(other, f, u);
    KeyInjective(e.eventId, f.eventId);
  }

  /** Two stamps are interchangeable exactly when they name the same instant. */
  lemma SameInstantSameEvent(raw: RawEvent, t: Stamp)
    requires Accepted(raw) && t.Aware?
    ensures Validate(raw.(timestamp := t)) == Validate(raw) <==> Instant(t) == Instant(raw.timestamp)
  {
  }

  // ---------------------------------------------------------- the rules of the model, field by field

  /** A letter is in upper case, everything else as it was. */
  predicate RaisedChar(c: char, u: char) {
    if 'a' <= c <= 'z' then u as int == c as int - ('a' as int - 'A' as int) else u == c
  }

  /** The characters of a ULID, in either case. */
  const DIGITS := "0123456789"
  const CAPITALS := "ABCDEFGHJKMNPQRSTVWXYZ"
  const SMALLS := "abcdefghjkmnpqrstvwxyz"

  lemma UlidAlphabet(c: char)
    ensures IsUlidChar(c) <==> c in DIGITS || c in CAPITALS || c in SMALLS
  {
    assert c in DIGITS <==> '0' <= c <= '9';
    assert c in CAPITALS <==> 'A' <= c <= 'Z' && c != 'I' && c != 'L' && c != 'O' && c != 'U';
    assert c in SMALLS <==> 'a' <= c <= 'z' && c != 'i' && c != 'l' && c != 'o' && c != 'u';
  }

  /** Exactly which raw events are accepted. */
  lemma AcceptanceRules(raw: RawEvent)
    ensures Validate(raw).Some? <==>
            && raw.eventId.Text? && |raw.eventId.text| == 26
            && (forall c :: c in raw.eventId.text ==> c in DIGITS || c in CAPITALS || c in SMALLS)
            && raw.deviceId.Given? && 1 <= |raw.deviceId.value| <= 128
            && raw.eventType.Given? && 1 <= |raw.eventType.value| <= 64
            && (raw.schemaVersion.Absent? || raw.schemaVersion.Given?)
            && raw.timestamp.Aware?
            && raw.payload.Given? && |raw.payload.value| > 0
            && (raw.metadata.Absent? || raw.metadata.Given?)
  {
    forall c: char
      ensures IsUlidChar(c) <==> c in DIGITS || c in CAPITALS || c in SMALLS
    {
      UlidAlphabet(c);
    }
  }

  /** What the canonical event holds: the id in upper case, the other fields as they were given, and the
      defaults for an absent schema version and absent metadata. */
  ghost predicate Carries(raw: RawEvent, e: IoTEvent) {
    && raw.eventId.Text? && |e.eventId| == |raw.eventId.text|
    && (forall i :: 0 <= i < |e.eventId| ==> RaisedChar(raw.eventId.text[i], e.eventId[i]))
    && raw.deviceId == Given(e.deviceId) && raw.eventType == Given(e.eventType) && raw.payload == Given(e.payload)
    && (raw.schemaVersion == Given(e.schemaVersion) || (raw.schemaVersion == Absent && e.schemaVersion == "1.0"))
    && (raw.metadata == Given(e.metadata) || (raw.metadata == Absent && e.metadata == map[]))
    && raw.timestamp.Aware? && e.timestamp + raw.timestamp.offset == raw.timestamp.wall
  }

  /** The canonical event is the one event that carries an accepted raw event. */
  lemma FieldsCarried(raw: RawEvent, e: IoTEvent)
    requires Accepted(raw)
    ensures Validate(raw) == Some(e) <==> Carries(raw, e)
  {
    var v := Validate(raw).value;
    assert Carries(raw, v);
    if Carries(raw, e) {
      assert e.eventId == v.eventId;
    }
  }

  /** A stamp in UTC keeps its reading; moving reading and offset together changes nothing. */
  lemma StampsInUtc(raw: RawEvent, wall: int, offset: int, d: int)
    requires Accepted(raw)
    ensures Validate(raw.(timestamp := Aware(wall, 0))) == Some(Validate(raw).value.(timestamp := wall))
    ensures Validate(raw.(timestamp := Aware(wall + d, offset + d))) == Validate(raw.(timestamp := Aware(wall, offset)))
  {
  }
}
