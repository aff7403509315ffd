/** Healthy runs: no matter how tasks interleave, which messages come again and in which order, the tables end
    up as if every distinct event had been processed once. */
module Confluence {
  import opened Wrappers
  import opened Models
  import opened Database
  import opened Retry
  import opened Tasks
  import opened TaskLaws
  import opened Uniqueness

  /** Redis and PostgreSQL are well: claims are answered, keys stay, inserts fail at most with errors that the
      retries absorb, upserts succeed, and a crash finds no task running. */
  predicate HealthyAction(w: World, a: Action)
    requires Enabled(w, a)
  {
    CleanAction(a) && match a
                      case Insert(n, r) =>
                        r.Returned? || (Retryable(r.error) && w.tasks[n].tries + 1 < w.maxAttempts)
                      case EnsureDevice(_, ok) => ok
                      case Upsert(_, ok) => ok
                      case Crash => Running(w) == {}
                      case _ => true
  }

  predicate Healthy(w: World, run: seq<Action>)
    requires Valid(w, run)
  {
    run == [] || (Healthy(w, run[..|run| - 1]) && HealthyAction(Exec(w, run[..|run| - 1]), run[|run| - 1]))
  }

  /** Two messages with one claim key are the same event, or both unacceptable, and no event id comes in two
      spellings. */
  ghost predicate SameIdSameEvent(w: World) {
    && OneSpelling(w)
    && forall n, m :: 0 <= n < |w.msgs| && 0 <= m < |w.msgs|
                      && ClaimKey(w.msgs[n].raw) == ClaimKey(w.msgs[m].raw) && ClaimKey(w.msgs[n].raw).Some?
                      ==> Validate(w.msgs[n].raw) == Validate(w.msgs[m].raw)
  }

  /** Nothing has gone wrong for task `n`: an acceptable event is never given up. */
  predicate GoesWell(w: World, n: nat) {
    && n !in w.upsertFailed && n !in w.cutShort && n !in w.orphans
    && (n < |w.msgs| && Accepted(w.msgs[n].raw) ==>
          && n !in w.tried
          && (n in w.tasks ==> !w.tasks[n].AtRelease? && !w.tasks[n].AtPublish? && !w.tasks[n].AtRecord?))
  }

  ghost predicate AllWell(w: World) {
    w.maxAttempts >= 1 && forall n: nat :: GoesWell(w, n)
  }

  lemma StepGoesWell(w: World, a: Action, n: nat)
    requires GoesWell(w, n) && HistoryOf(w, n) && w.maxAttempts >= 1 && Enabled(w, a) && HealthyAction(w, a)
    ensures GoesWell(Step(w, a), n)
  {
    if a.Crash? {
      assert n !in Running(w);
    } else if Actor(w, a) != Some(n) {
      OnlyActorTouched(w, a, n);
    }
  }

  lemma StepAllWell(w: World, a: Action)
    requires AllWell(w) && History(w) && Enabled(w, a) && HealthyAction(w, a)
    ensures AllWell(Step(w, a))
  {
    forall n: nat
      ensures GoesWell(Step(w, a), n)
    {
      assert GoesWell(w, n) && HistoryOf(w, n);
      StepGoesWell(w, a, n);
    }
  }

  ghost predicate HealthyInv(w: World) {
    TaskLaws.Inv(w) && CleanInv(w) && AllWell(w)
  }

  lemma InitialHealthyInv(maxAttempts: int)
    requires maxAttempts >= 1
    ensures HealthyInv(Initial(maxAttempts))
  {
    TaskLaws.InitialInv(maxAttempts);
  }

  lemma StepHealthyInv(w: World, a: Action)
    requires HealthyInv(w) && OneSpelling(w) && Enabled(w, a) && HealthyAction(w, a)
    ensures HealthyInv(Step(w, a))
  {
    TaskLaws.StepInv(w, a);
    StepCleanInv(w, a);
    StepAllWell(w, a);
  }

  lemma {:induction false} RunHealthyInv(maxAttempts: int, run: seq<Action>)
    requires maxAttempts >= 1 && Valid(Initial(maxAttempts), run) && Healthy(Initial(maxAttempts), run)
    requires OneSpelling(Exec(Initial(maxAttempts), run))
    ensures HealthyInv(Exec(Initial(maxAttempts), run))
  {
    if run == [] {
      InitialHealthyInv(maxAttempts);
    } else {
      SpelledBefore(Exec(Initial(maxAttempts), run[..|run| - 1]), run[|run| - 1]);
      RunHealthyInv(maxAttempts, run[..|run| - 1]);
      StepHealthyInv(Exec(Initial(maxAttempts), run[..|run| - 1]), run[|run| - 1]);
    }
  }

  // ------------------------------------------------------------------------------ the final tables

  /** The distinct acceptable events among the messages consumed. */
  ghost function Wanted(w: World): set<IoTEvent> {
    set n | 0 <= n < |w.msgs| && Accepted(w.msgs[n].raw) :: Event(w.msgs[n])
  }

  /** The contents of the events table, ingestion times aside. */
  function Contents(w: World): set<IoTEvent> {
    set k | k in w.store.tables.events :: w.store.tables.events[k]
  }

  function EventsOfDevice(es: set<IoTEvent>, d: string): set<IoTEvent> {
    set e | e in es && e.deviceId == d
  }

  /** At rest, every acceptable message has a completed insert of the same event. */
  lemma WantedStored(w: World, n: nat) returns (m: nat)
    requires HealthyInv(w) && SameIdSameEvent(w) && Running(w) == {}
    requires n < |w.msgs| && Accepted(w.msgs[n].raw)
    ensures m in w.completed && m < |w.msgs| && Validate(w.msgs[m].raw) == Validate(w.msgs[n].raw)
  {
    assert HistoryOf(w, n) && GoesWell(w, n) && n !in Running(w);
    if n in w.completed {
      m := n;
    } else {
      AcceptedHasKey(w.msgs[n]);
      m :| Vouches(w, m) && ClaimKey(w.msgs[m].raw) == Some(ClaimKey(w.msgs[n].raw).value);
      assert HistoryOf(w, m) && GoesWell(w, m);
      QuietVoucher(w, m);
    }
  }

  /** The events table holds exactly the distinct events consumed … */
  lemma ContentsExact(w: World)
    requires HealthyInv(w) && SameIdSameEvent(w) && Running(w) == {}
    ensures Contents(w) == Wanted(w)
  {
    forall e | e in Wanted(w)
      ensures e in Contents(w)
    {
      var n: nat :| n < |w.msgs| && Accepted(w.msgs[n].raw) && Event(w.msgs[n]) == e;
      var m := WantedStored(w, n);
      assert HasRow(w, e.eventId);
      var k :| k in w.store.tables.events && k.eventId == e.eventId;
      RowIsEvent(w, k, m);
    }
    forall e | e in Contents(w)
      ensures e in Wanted(w)
    {
      var k :| k in w.store.tables.events && w.store.tables.events[k] == e;
      assert RowOwned(w, k);
    }
  }

  /** A row with the id of a consumed event holds that event. */
  lemma RowIsEvent(w: World, k: RowKey, m: nat)
    requires HealthyInv(w) && SameIdSameEvent(w) && k in w.store.tables.events
    requires m < |w.msgs| && Accepted(w.msgs[m].raw) && Event(w.msgs[m]).eventId == k.eventId
    ensures w.store.tables.events[k] == Event(w.msgs[m])
  {
    assert RowOwned(w, k);
    var n := w.writer[k];
    SameIdSameKey(w, n, m);
    AcceptedHasKey(w.msgs[n]);
  }

  /** Rows with the same content are the same row. */
  lemma SameContentSameRow(w: World, k: RowKey, l: RowKey)
    requires HealthyInv(w) && OneSpelling(w) && k in w.store.tables.events && l in w.store.tables.events
    requires w.store.tables.events[k] == w.store.tables.events[l]
    ensures k == l
  {
    assert RowOwned(w, k) && RowOwned(w, l);
    RowsUnique(w, k, l);
  }

  const NoEvent := IoTEvent("", "", "", "", 0, map[], map[])

  /** A table without two equal contents has as many rows as contents. */
  lemma DistinctContents(t: map<RowKey, IoTEvent>, es: set<IoTEvent>)
    requires es == set k | k in t :: t[k]
    requires forall k, l :: k in t && l in t && t[k] == t[l] ==> k == l
    ensures |t| == |es|
  {
    var content := (k: RowKey) => if k in t then t[k] else NoEvent;
    assert es == set k | k in t.Keys :: content(k);
    InjectiveImageSameSize(t.Keys, es, content);
  }

  /** … once each. */
  lemma OneRowPerEvent(w: World)
    requires HealthyInv(w) && SameIdSameEvent(w) && Running(w) == {}
    ensures |w.store.tables.events| == |Wanted(w)|
  {
    var t := w.store.tables.events;
    forall k, l | k in t && l in t && t[k] == t[l]
      ensures k == l
    {
      SameContentSameRow(w, k, l);
    }
    DistinctContents(t, Contents(w));
    ContentsExact(w);
  }

  /** Every device has been counted once for each of its distinct events. */
  lemma CountsExact(w: World, d: string)
    requires HealthyInv(w) && SameIdSameEvent(w) && Running(w) == {}
    ensures CountOf(w.store.tables.states, d) == |EventsOfDevice(Wanted(w), d)|
  {
    UpsertsCounted(w, d);
    AllUpserted(w);
    CompletedImage(w, d);
  }

  /** Every completed insert has been followed by its device upsert. */
  lemma AllUpserted(w: World)
    requires History(w) && AllWell(w) && Running(w) == {}
    ensures Elements(w.upserts) == w.completed
  {
    forall n: nat
      ensures n in w.completed <==> n in Elements(w.upserts)
    {
      assert HistoryOf(w, n) && GoesWell(w, n) && n !in Running(w);
      CompletedKind(w, n);
    }
  }

  /** The event of a task, where it has one. */
  function EventOr(w: World, n: nat): IoTEvent {
    if n < |w.msgs| && Accepted(w.msgs[n].raw) then Event(w.msgs[n]) else NoEvent
  }

  lemma CompletedDiffer(w: World, n: nat, m: nat)
    requires HealthyInv(w) && OneSpelling(w) && n in w.completed && m in w.completed
    requires n < |w.msgs| && m < |w.msgs| && Accepted(w.msgs[n].raw) && Accepted(w.msgs[m].raw)
    requires Event(w.msgs[n]) == Event(w.msgs[m])
    ensures n == m
  {
    SameOwner(w, n, m);
  }

  lemma EventsImage(w: World, ns: set<nat>, es: set<IoTEvent>)
    requires es == set n | n in ns :: EventOr(w, n)
    requires forall n, m :: n in ns && m in ns && EventOr(w, n) == EventOr(w, m) ==> n == m
    ensures |ns| == |es|
  {
    var event := (n: nat) => EventOr(w, n);
    assert es == set n | n in ns :: event(n);
    InjectiveImageSameSize(ns, es, event);
  }

  lemma DeviceEvent(w: World, d: string, n: nat)
    requires n in OfDevice(w, w.completed, d)
    ensures EventOr(w, n) == Event(w.msgs[n]) && EventOr(w, n) in EventsOfDevice(Wanted(w), d)
  {
  }

  lemma DeviceEvents(w: World, d: string)
    requires HealthyInv(w) && SameIdSameEvent(w) && Running(w) == {}
    ensures EventsOfDevice(Wanted(w), d) == set n | n in OfDevice(w, w.completed, d) :: EventOr(w, n)
  {
    forall e | e in EventsOfDevice(Wanted(w), d)
      ensures exists n :: n in OfDevice(w, w.completed, d) && EventOr(w, n) == e
    {
      var n := CompletedFor(w, d, e);
    }
    forall n | n in OfDevice(w, w.completed, d)
      ensures EventOr(w, n) in EventsOfDevice(Wanted(w), d)
    {
      DeviceEvent(w, d, n);
    }
  }

  lemma CompletedImage(w: World, d: string)
    requires HealthyInv(w) && SameIdSameEvent(w) && Running(w) == {}
    ensures |OfDevice(w, w.completed, d)| == |EventsOfDevice(Wanted(w), d)|
  {
    var ns := OfDevice(w, w.completed, d);
    DeviceEvents(w, d);
    forall n, m | n in ns && m in ns && EventOr(w, n) == EventOr(w, m)
      ensures n == m
    {
      CompletedDiffer(w, n, m);
    }
    EventsImage(w, ns, EventsOfDevice(Wanted(w), d));
  }

  lemma CompletedFor(w: World, d: string, e: IoTEvent) returns (m: nat)
    requires HealthyInv(w) && SameIdSameEvent(w) && Running(w) == {} && e in EventsOfDevice(Wanted(w), d)
    ensures m in OfDevice(w, w.completed, d) && Event(w.msgs[m]) == e
  {
    var n: nat :| n < |w.msgs| && Accepted(w.msgs[n].raw) && Event(w.msgs[n]) == e;
    m := WantedStored(w, n);
  }

  /** The state a healthy run leaves at rest. */
  ghost predicate Settled(w: World) {
    HealthyInv(w) && SameIdSameEvent(w) && Running(w) == {}
  }

  lemma FinalTables(w: World, d: string)
    requires Settled(w)
    ensures Contents(w) == Wanted(w) && |w.store.tables.events| == |Wanted(w)|
    ensures CountOf(w.store.tables.states, d) == |EventsOfDevice(Wanted(w), d)|
  {
    ContentsExact(w);
    OneRowPerEvent(w);
    CountsExact(w, d);
  }

  /** Replay absorption: at rest after a healthy run the events table is the set of distinct acceptable events
      consumed, one row each, and every device's count is the number of its distinct events, whatever the
      schedule, the redeliveries and the rewinds were. */
  lemma ReplayAbsorbed(maxAttempts: int, run: seq<Action>, d: string)
    requires maxAttempts >= 1 && Valid(Initial(maxAttempts), run) && Healthy(Initial(maxAttempts), run)
    requires SameIdSameEvent(Exec(Initial(maxAttempts), run)) && Running(Exec(Initial(maxAttempts), run)) == {}
    ensures var w := Exec(Initial(maxAttempts), run);
            && Contents(w) == Wanted(w) && |w.store.tables.events| == |Wanted(w)|
            && CountOf(w.store.tables.states, d) == |EventsOfDevice(Wanted(w), d)|
  {
    RunHealthyInv(maxAttempts, run);
    FinalTables(Exec(Initial(maxAttempts), run), d);
  }

  /** Confluence: two healthy runs that consumed the same distinct events end with the same event rows,
      ingestion times aside, and the same count for every device. */
  lemma Confluent(maxAttempts: int, one: seq<Action>, other: seq<Action>, d: string)
    requires maxAttempts >= 1
    requires Valid(Initial(maxAttempts), one) && Healthy(Initial(maxAttempts), one)
    requires Valid(Initial(maxAttempts), other) && Healthy(Initial(maxAttempts), other)
    requires var w, u := Exec(Initial(maxAttempts), one), Exec(Initial(maxAttempts), other);
             && SameIdSameEvent(w) && SameIdSameEvent(u) && Running(w) == {} && Running(u) == {}
             && Wanted(w) == Wanted(u)
    ensures var w, u := Exec(Initial(maxAttempts), one), Exec(Initial(maxAttempts), other);
            && Contents(w) == Contents(u) && |w.store.tables.events| == |u.store.tables.events|
            && CountOf(w.store.tables.states, d) == CountOf(u.store.tables.states, d)
  {
    ReplayAbsorbed(maxAttempts, one, d);
    ReplayAbsorbed(maxAttempts, other, d);
  }
}
