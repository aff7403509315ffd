/** The PostgreSQL tables and the statements the worker runs on them (apps/worker/db.py). */
module Database {
  import opened Wrappers
  import opened Models

  /** The primary key of `events`: it holds the ingestion time as well as the event id. */
  datatype RowKey = RowKey(eventId: string, ingestedAt: int)

  datatype DeviceRow = DeviceRow(
    lastEventId: string,
    lastEventType: string,
    lastSeenAt: int,
    lastPayload: Json,
    eventCount: nat)

  /** Why an event was given to the dead letter queue. */
  datatype Reason = ValidationError | DbError | Unexpected(error: Exn)

  /** The exceptions that matter to some handler. `ValueError` stands for the non-retryable ones. */
  datatype Exn = PostgresError | ValueError | AssertionError | OtherError(name: string)

  datatype DlqRow = DlqRow(original: RawEvent, reason: Reason, retryCount: nat)

  datatype Tables = Tables(
    events: map<RowKey, IoTEvent>,
    devices: set<string>,
    states: map<string, DeviceRow>,
    dlq: seq<DlqRow>)

  const EmptyTables := Tables(map[], {}, map[], [])

  // ------------------------------------------------------------- the statements as table functions

  /** `INSERT INTO events … ON CONFLICT (event_id, ingested_at) DO NOTHING`, run at time `now`. */
  function InsertRow(t: Tables, e: IoTEvent, now: int): Tables {
    var k := RowKey(e.eventId, now);
    if k in t.events then t else t.(events := t.events[k := e])
  }

  function AddDevice(t: Tables, deviceId: string): Tables {
    t.(devices := t.devices + {deviceId})
  }

  function UpsertRow(states: map<string, DeviceRow>, e: IoTEvent): map<string, DeviceRow> {
    var count := if e.deviceId in states then states[e.deviceId].eventCount + 1 else 1;
    states[e.deviceId := DeviceRow(e.eventId, e.eventType, e.timestamp, e.payload, count)]
  }

  function AddDlqRow(t: Tables, original: RawEvent, reason: Reason, retries: nat): Tables {
    t.(dlq := t.dlq + [DlqRow(original, reason, retries)])
  }

  /** The audit table's `event_id` is a text and not null; a missing id is recorded as "unknown". */
  predicate Recordable(original: RawEvent) {
    original.eventId.Missing? || original.eventId.Text?
  }

  function CountOf(states: map<string, DeviceRow>, deviceId: string): nat {
    if deviceId in states then states[deviceId].eventCount else 0
  }

  // ------------------------------------------------------------------------------ how they answer

  /** What one `INSERT` did: it returned (a row or a conflict), or it raised, having written or not. */
  datatype InsertReply = Returned(now: int) | Failed(error: Exn, writtenAt: Option<int>)

  function InsertEffect(t: Tables, e: IoTEvent, r: InsertReply): Tables {
    match r
    case Returned(now) => InsertRow(t, e, now)
    case Failed(_, None) => t
    case Failed(_, Some(now)) => InsertRow(t, e, now)
  }

  /** How far `upsert_device_state` got: its first statement raised, its second one did, or neither. */
  datatype UpsertReply = NoDevice | NoState | Upserted

  function UpsertEffect(t: Tables, e: IoTEvent, r: UpsertReply): Tables {
    match r
    case NoDevice => t
    case NoState => AddDevice(t, e.deviceId)
    case Upserted =>
      var u := AddDevice(t, e.deviceId);
      u.(states := UpsertRow(u.states, e))
  }

  class Db {
    var events: map<RowKey, IoTEvent>
    var devices: set<string>
    var states: map<string, DeviceRow>
    var dlq: seq<DlqRow>

    function View(): Tables
      reads this
    {
      Tables(events, devices, states, dlq)
    }

    constructor ()
      ensures View() == EmptyTables
    {
      events, devices, states, dlq := map[], {}, map[], [];
    }

    /** `insert_event`: true when a row was added, false on a conflict; the error when the call raised. */
    method InsertEvent(e: IoTEvent, r: InsertReply) returns (inserted: bool, raised: Option<Exn>)
      modifies this`events
      ensures View() == InsertEffect(old(View()), e, r)
      ensures raised == if r.Failed? then Some(r.error) else None
      ensures r.Returned? ==> (inserted <==> RowKey(e.eventId, r.now) !in old(events))
      ensures r.Returned? ==> RowKey(e.eventId, r.now) in events
      ensures forall k :: k in old(events) ==> k in events && events[k] == old(events)[k]
      ensures forall k :: k in events && k !in old(events) ==> events[k] == e && k.eventId == e.eventId
      ensures r.Failed? && r.writtenAt.None? ==> events == old(events)
    {
      inserted, raised := false, None;
      var written := if r.Returned? then Some(r.now) else r.writtenAt;
      if written.Some? {
        var k := RowKey(e.eventId, written.value);
        if k !in events {
          events := events[k := e];
          inserted := true;
        }
      }
      if r.Failed? {
        raised := Some(r.error);
      }
    }

    /** `upsert_device_state`: the device row first, for the foreign key, then the state row. */
    method UpsertDeviceState(e: IoTEvent, r: UpsertReply) returns (raised: bool)
      modifies this`devices, this`states
      ensures View() == UpsertEffect(old(View()), e, r)
      ensures raised <==> !r.Upserted?
      ensures devices == if r.NoDevice? then old(devices) else old(devices) + {e.deviceId}
      ensures !r.Upserted? ==> states == old(states)
      ensures r.Upserted? ==>
                && e.deviceId in states
                && IsRowOf(states[e.deviceId], e,
                           (if e.deviceId in old(states) then old(states)[e.deviceId].eventCount else 0) + 1)
                && forall d :: d != e.deviceId ==>
                                 (d in states <==> d in old(states)) && (d in states ==> states[d] == old(states)[d])
    {
      if r.NoDevice? {
        return true;
      }
      devices := devices + {e.deviceId};
      if r.NoState? {
        return true;
      }
      var count := 1;
      if e.deviceId in states {
        count := states[e.deviceId].eventCount + 1;
      }
      states := states[e.deviceId := DeviceRow(e.eventId, e.eventType, e.timestamp, e.payload, count)];
      raised := false;
    }

    /** `record_dlq_event`: the serial primary key never conflicts, so a row is appended; the column refuses an
        id that is null or not a text, which raises like any other error. */
    method RecordDlqEvent(original: RawEvent, reason: Reason, retries: nat, ok: bool)
      modifies this`dlq
      ensures View() == if ok && Recordable(original) then AddDlqRow(old(View()), original, reason, retries)
                        else old(View())
      ensures ok && (original.eventId.Text? || original.eventId.Missing?) ==>
                dlq == old(dlq) + [DlqRow(original, reason, retries)]
      ensures !ok || original.eventId.Falsy? || original.eventId.Alien? ==> dlq == old(dlq)
    {
      if ok && !original.eventId.Falsy? && !original.eventId.Alien? {
        dlq := dlq + [DlqRow(original, reason, retries)];
      }
    }
  }

  // ------------------------------------------------------------------------------------ properties

  /** The conflict clause does not deduplicate by event id: a second insert of an event is dropped exactly
      when it runs at the very same instant as the first. */
  lemma ConflictNeedsSameInstant(t: Tables, e: IoTEvent, first: int, second: int)
    requires RowKey(e.eventId, first) !in t.events && RowKey(e.eventId, second) !in t.events
    ensures |InsertRow(InsertRow(t, e, first), e, second).events| == |t.events| + 1 <==> first == second
  {
    var one := InsertRow(t, e, first);
    assert one.events.Keys == t.events.Keys + {RowKey(e.eventId, first)};
    assert |one.events| == |one.events.Keys|;
    var two := InsertRow(one, e, second);
    assert two.events.Keys == one.events.Keys + {RowKey(e.eventId, second)};
    assert |two.events| == |two.events.Keys|;
    assert |t.events| == |t.events.Keys|;
  }

  /** The state table after upserting a sequence of events. */
  function Replay(es: seq<IoTEvent>): map<string, DeviceRow> {
    if es == [] then map[] else UpsertRow(Replay(es[..|es| - 1]), es[|es| - 1])
  }

  function CountDevice(es: seq<IoTEvent>, d: string): nat {
    if es == [] then 0
    else CountDevice(es[..|es| - 1], d) + (if es[|es| - 1].deviceId == d then 1 else 0)
  }

  /** Index of the latest event of a device. */
  ghost predicate Latest(es: seq<IoTEvent>, d: string, i: nat) {
    i < |es| && es[i].deviceId == d && forall j :: i < j < |es| ==> es[j].deviceId != d
  }

  /** The state row that upserting `e` as the `count`-th event of its device leaves. */
  predicate IsRowOf(r: DeviceRow, e: IoTEvent, count: nat) {
    && r.lastEventId == e.eventId && r.lastEventType == e.eventType && r.lastSeenAt == e.timestamp
    && r.lastPayload == e.payload && r.eventCount == count
  }

  /** A state row counts the upserts of its device and holds the fields of the latest one in upsert order;
      the device's own time stamps play no part. */
  lemma {:induction false} ReplayIsLastWriteWins(es: seq<IoTEvent>, d: string)
    ensures CountOf(Replay(es), d) == CountDevice(es, d)
    ensures d in Replay(es) <==> CountDevice(es, d) > 0
    ensures forall i: nat :: Latest(es, d, i) ==>
                               d in Replay(es) && IsRowOf(Replay(es)[d], es[i], CountDevice(es, d))
  {
    if es != [] {
      var n := |es| - 1;
      ReplayIsLastWriteWins(es[..n], d);
      forall i: nat | Latest(es, d, i)
        ensures d in Replay(es) && IsRowOf(Replay(es)[d], es[i], CountDevice(es, d))
      {
        if es[n].deviceId == d {
          assert i == n;
        } else {
          assert Latest(es[..n], d, i);
        }
      }
    }
  }

  /** A stale reading that arrives late moves a device's state backwards in time. */
  lemma LateReadingWins(early: IoTEvent, late: IoTEvent)
    requires early.deviceId == late.deviceId && early.timestamp < late.timestamp
    ensures Replay([late, early])[late.deviceId].lastSeenAt == early.timestamp < late.timestamp
  {
  }
}
