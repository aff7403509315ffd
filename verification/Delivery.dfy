/** At-least-once delivery: exactly which restarts lose a message. The worker commits an offset after `process`
    has returned, but `process` also returns for a duplicate, and the claim that makes a duplicate is taken
    before the write. */
module Delivery {
  import opened Wrappers
  import opened Models
  import opened Handlers
  import opened Tasks
  import opened Worker
  import C = Consumer
  import TaskLaws

  // ------------------------------------------------------------------------------------ delivered

  /** A task for `o` also settles `m`: it is the same message, or claims the same key. */
  predicate Covers(m: Input, o: Input) {
    o == m || (ClaimKey(m.raw).Some? && ClaimKey(o.raw) == ClaimKey(m.raw))
  }

  /** Task `i` inserted its event or tried the DLQ. */
  predicate Closed(w: World, i: nat) {
    i in w.completed || i in w.tried
  }

  ghost predicate Settled(w: World, m: Input) {
    exists i: nat :: i < |w.msgs| && Covers(m, w.msgs[i]) && Closed(w, i)
  }

  ghost predicate RowOf(w: World, i: nat) {
    && i < |w.msgs| && i in w.completed && Accepted(w.msgs[i].raw)
    && TaskLaws.HasRow(w, Tasks.Event(w.msgs[i]).eventId)
  }

  ghost predicate EnvelopeFrom(w: World, i: nat) {
    i < |w.msgs| && i in w.arrived && TaskLaws.HasEnvelope(w, w.msgs[i])
  }

  /** The message's own task, or one that claimed its key, has a row in the events table, an envelope on the DLQ
      topic, or a publish that did not arrive. */
  ghost predicate Delivered(w: World, m: Input) {
    exists i: nat :: i < |w.msgs| && Covers(m, w.msgs[i]) && (RowOf(w, i) || EnvelopeFrom(w, i) || i in w.unsent)
  }

  lemma DeliveredIffSettled(w: World, m: Input)
    requires TaskLaws.Inv(w)
    ensures Delivered(w, m) <==> Settled(w, m)
  {
    if Settled(w, m) {
      var i: nat :| i < |w.msgs| && Covers(m, w.msgs[i]) && Closed(w, i);
      assert RowOf(w, i) || EnvelopeFrom(w, i) || i in w.unsent;
    }
    if Delivered(w, m) {
      var i: nat :| i < |w.msgs| && Covers(m, w.msgs[i]) && (RowOf(w, i) || EnvelopeFrom(w, i) || i in w.unsent);
      assert Closed(w, i);
    }
  }

  ghost predicate DeliveredAt(s: System, slot: C.Slot) {
    InLog(s.log, slot) && Delivered(s.w, MessageAt(s.log, slot))
  }

  /** The message lies below the fetch position. */
  predicate Reached(s: System, slot: C.Slot) {
    slot.partition < |s.c.position| && slot.offset < s.c.position[slot.partition]
  }

  predicate KeyTaken(w: World, m: Input) {
    ClaimKey(m.raw).Some? && ClaimKey(m.raw).value in w.store.keys
  }

  /** A restart now may lose the message: nothing delivered it yet, and it lies below the committed offset, so
      that it will not be fetched again, or its key is taken, so that fetching it again will do nothing. */
  ghost predicate AtRisk(s: System, slot: C.Slot) {
    && InLog(s.log, slot) && !Delivered(s.w, MessageAt(s.log, slot))
    && (C.Below(s.c, slot) || KeyTaken(s.w, MessageAt(s.log, slot)))
  }

  ghost predicate NothingAtRisk(s: System) {
    forall slot: C.Slot :: !AtRisk(s, slot)
  }

  predicate NoRestart(run: seq<Event>) {
    forall i :: 0 <= i < |run| ==> !run[i].Restart?
  }

  /** Whatever the session that begins in `t` goes through, up to its own end: when it is at rest, every message
      it has reached is delivered. */
  ghost predicate LosesNothing(t: System) {
    forall run, slot: C.Slot ::
      Possible(t, run) && NoRestart(run) && AtRest(After(t, run)) && Reached(After(t, run), slot)
      ==> DeliveredAt(After(t, run), slot)
  }

  // ------------------------------------------------------------------------ what a session adds up to

  /** A session begins. */
  ghost predicate Beginning(t: System) {
    Inv(t) && AtRest(t) && t.c.position == t.c.committed == t.c.start
  }

  /** A restart changes nothing that tells whether a message is at risk. */
  predicate SameRisk(s: System, t: System) {
    && t.log == s.log && t.c.committed == s.c.committed && t.w.store.keys == s.w.store.keys
    && t.w.msgs == s.w.msgs && t.w.completed == s.w.completed && t.w.tried == s.w.tried
  }

  lemma RestartKeeps(s: System)
    requires CanHappen(s, Restart)
    ensures var t := Next(s, Restart);
            SameRisk(s, t) && AtRest(t) && t.c.position == t.c.committed == t.c.start
  {
  }

  lemma SameDelivered(w: World, u: World, m: Input)
    requires TaskLaws.Inv(w) && TaskLaws.Inv(u)
    requires u.msgs == w.msgs && u.completed == w.completed && u.tried == w.tried
    ensures Delivered(w, m) <==> Delivered(u, m)
  {
    DeliveredIffSettled(w, m);
    DeliveredIffSettled(u, m);
    assert Settled(w, m) <==> Settled(u, m);
  }

  lemma SameAtRisk(s: System, t: System, slot: C.Slot)
    requires Inv(s) && Inv(t) && SameRisk(s, t)
    ensures AtRisk(s, slot) <==> AtRisk(t, slot)
  {
    if InLog(s.log, slot) {
      SameDelivered(s.w, t.w, MessageAt(s.log, slot));
    }
  }

  lemma RestartBegins(s: System)
    requires Inv(s)
    ensures Beginning(Next(s, Restart))
    ensures forall slot :: AtRisk(s, slot) <==> AtRisk(Next(s, Restart), slot)
  {
    NextInv(s, Restart);
    RestartKeeps(s);
    forall slot: C.Slot
      ensures AtRisk(s, slot) <==> AtRisk(Next(s, Restart), slot)
    {
      SameAtRisk(s, Next(s, Restart), slot);
    }
  }

  lemma StartBegins(max: nat, partitions: nat, maxAttempts: int)
    ensures Beginning(Start(max, partitions, maxAttempts)) && NothingAtRisk(Start(max, partitions, maxAttempts))
  {
    StartInv(max, partitions, maxAttempts);
  }

  /** Nothing that was there has gone. */
  predicate Grown(w: World, u: World) {
    w.msgs <= u.msgs && w.completed <= u.completed && w.tried <= u.tried && u.orphans == w.orphans
  }

  /** A task of the session stands behind the key. */
  ghost predicate BackedSince(w: World, n0: nat, key: string) {
    exists n: nat :: n0 <= n && TaskLaws.Vouches(w, n) && ClaimKey(w.msgs[n].raw) == Some(key)
  }

  /** All tasks are the session's own; keys and duplicates that the old keys do not explain have one of its
      tasks behind them. */
  ghost predicate KeysSince(w: World, n0: nat, oldKeys: set<string>) {
    && n0 <= |w.msgs|
    && (forall n :: n in w.tasks ==> n0 <= n)
    && (forall k :: k in w.store.keys ==> k in oldKeys || BackedSince(w, n0, k))
    && (forall n: nat :: n0 <= n && n in w.dup ==>
          n < |w.msgs| && ClaimKey(w.msgs[n].raw).Some?
          && (ClaimKey(w.msgs[n].raw).value in oldKeys || BackedSince(w, n0, ClaimKey(w.msgs[n].raw).value)))
  }

  lemma StillBackedSince(w: World, a: Action, n0: nat, key: string)
    requires TaskLaws.Inv(w) && Enabled(w, a) && BackedSince(w, n0, key)
    ensures BackedSince(Step(w, a), n0, key)
  {
    var n: nat :| n0 <= n && TaskLaws.Vouches(w, n) && ClaimKey(w.msgs[n].raw) == Some(key);
    TaskLaws.StillVouches(w, a, n);
  }

  lemma StepGrows(w: World, a: Action)
    requires Enabled(w, a) && !a.Crash?
    ensures Grown(w, Step(w, a))
    ensures forall n :: n in Step(w, a).tasks ==> n in w.tasks || n == |w.msgs|
  {
  }

  lemma NewKeyClaimed(w: World, a: Action, key: string)
    requires Enabled(w, a) && key !in w.store.keys && key in Step(w, a).store.keys
    ensures a.Claim? && a.n in w.tasks && a.n < |w.msgs| && ClaimKey(w.msgs[a.n].raw) == Some(key)
    ensures Step(w, a).msgs == w.msgs && Step(w, a).dup == w.dup && Step(w, a).tasks == w.tasks[a.n := AtSchema]
  {
  }

  lemma NewKeySince(w: World, a: Action, n0: nat, oldKeys: set<string>, key: string)
    requires TaskLaws.Inv(w) && KeysSince(w, n0, oldKeys) && Enabled(w, a) && !a.Crash?
    requires key in Step(w, a).store.keys
    ensures key in oldKeys || BackedSince(Step(w, a), n0, key)
  {
    if key in w.store.keys {
      if key !in oldKeys {
        StillBackedSince(w, a, n0, key);
      }
    } else {
      NewKeyClaimed(w, a, key);
      assert HistoryOf(w, a.n);
      assert TaskLaws.Vouches(Step(w, a), a.n);
    }
  }

  lemma NewDuplicateSince(w: World, a: Action, n0: nat, oldKeys: set<string>, n: nat)
    requires TaskLaws.Inv(w) && KeysSince(w, n0, oldKeys) && Enabled(w, a) && !a.Crash?
    requires n0 <= n && n in Step(w, a).dup
    ensures var u := Step(w, a);
            && n < |u.msgs| && ClaimKey(u.msgs[n].raw).Some?
            && (ClaimKey(u.msgs[n].raw).value in oldKeys || BackedSince(u, n0, ClaimKey(u.msgs[n].raw).value))
  {
    StepGrows(w, a);
    if n !in w.dup {
      assert a.Claim? && a.n == n && KeyTaken(w, w.msgs[n]);
    }
    if ClaimKey(w.msgs[n].raw).value !in oldKeys {
      StillBackedSince(w, a, n0, ClaimKey(w.msgs[n].raw).value);
    }
  }

  lemma StepKeysSince(w: World, a: Action, n0: nat, oldKeys: set<string>)
    requires TaskLaws.Inv(w) && KeysSince(w, n0, oldKeys) && Enabled(w, a) && !a.Crash?
    ensures KeysSince(Step(w, a), n0, oldKeys)
  {
    var u := Step(w, a);
    StepGrows(w, a);
    forall k | k in u.store.keys
      ensures k in oldKeys || BackedSince(u, n0, k)
    {
      NewKeySince(w, a, n0, oldKeys, k);
    }
    forall n: nat | n0 <= n && n in u.dup
      ensures n < |u.msgs| && ClaimKey(u.msgs[n].raw).Some?
              && (ClaimKey(u.msgs[n].raw).value in oldKeys || BackedSince(u, n0, ClaimKey(u.msgs[n].raw).value))
    {
      NewDuplicateSince(w, a, n0, oldKeys, n);
    }
  }

  ghost predicate TaskSince(s: System, n0: nat, slot: C.Slot) {
    exists n :: n0 <= n < |s.w.msgs| && s.w.msgs[n].partition == slot.partition && s.w.msgs[n].offset == slot.offset
  }

  /** Every message the session has fetched has had a task of the session, unless the loop still holds it. */
  ghost predicate HandedOutSince(s: System, n0: nat) {
    && |s.c.start| == |s.c.position|
    && forall slot: C.Slot ::
         Fetched(s.c, slot) && s.c.start[slot.partition] <= slot.offset ==> TaskSince(s, n0, slot)
  }

  lemma StepStart(c: C.State, a: C.Action)
    requires C.Shape(c) && C.Enabled(c, a) && !a.Crash?
    ensures C.Step(c, a).start == c.start && |C.Step(c, a).position| == |c.position|
  {
  }

  lemma NextStart(s: System, e: Event)
    requires C.Shape(s.c) && CanHappen(s, e) && !e.Restart?
    ensures Next(s, e).c.start == s.c.start && |Next(s, e).c.position| == |s.c.position|
  {
    if LoopPart(s, e).Some? {
      StepStart(s.c, LoopPart(s, e).value);
    }
  }

  lemma NewTaskSince(s: System, e: Event, n0: nat, slot: C.Slot)
    requires C.Shape(s.c) && HandedOutSince(s, n0) && CanHappen(s, e) && !e.Restart? && n0 <= |s.w.msgs|
    requires Fetched(Next(s, e).c, slot) && Next(s, e).c.start == s.c.start && s.c.start[slot.partition] <= slot.offset
    ensures TaskSince(Next(s, e), n0, slot)
  {
    NextMessages(s, e);
    if LoopPart(s, e).Some? {
      StepLoop(s.c, LoopPart(s, e).value, slot);
    }
    var msgs := Next(s, e).w.msgs;
    if Fetched(s.c, slot) {
      assert TaskSince(s, n0, slot);
      var n :| n0 <= n < |s.w.msgs| && s.w.msgs[n].partition == slot.partition && s.w.msgs[n].offset == slot.offset;
      assert msgs[n] == s.w.msgs[n];
    } else {
      assert msgs[|s.w.msgs|] == MessageAt(s.log, slot);
    }
  }

  lemma NextHandedOutSince(s: System, e: Event, n0: nat)
    requires C.Shape(s.c) && HandedOutSince(s, n0) && CanHappen(s, e) && !e.Restart? && n0 <= |s.w.msgs|
    ensures HandedOutSince(Next(s, e), n0)
  {
    NextStart(s, e);
    forall slot: C.Slot | Fetched(Next(s, e).c, slot) && s.c.start[slot.partition] <= slot.offset
      ensures TaskSince(Next(s, e), n0, slot)
    {
      NewTaskSince(s, e, n0, slot);
    }
  }

  /** How `u` relates to the beginning `t` of its session. */
  ghost predicate Since(u: System, t: System) {
    && Inv(u) && Grown(t.w, u.w) && KeysSince(u.w, |t.w.msgs|, t.w.store.keys)
    && HandedOutSince(u, |t.w.msgs|) && u.c.start == t.c.start && LogKept(t.log, u.log)
  }

  ghost predicate LogKept(log: seq<seq<RawEvent>>, longer: seq<seq<RawEvent>>) {
    forall slot :: InLog(log, slot) ==> InLog(longer, slot) && MessageAt(longer, slot) == MessageAt(log, slot)
  }

  lemma NextLogKept(s: System, e: Event)
    requires CanHappen(s, e)
    ensures LogKept(s.log, Next(s, e).log)
  {
  }

  lemma BeginsSince(t: System)
    requires Beginning(t)
    ensures Since(t, t)
  {
    RestingTasks(t);
    forall n: nat | |t.w.msgs| <= n
      ensures n !in t.w.dup
    {
      assert HistoryOf(t.w, n);
    }
  }

  lemma NextSince(u: System, t: System, e: Event)
    requires Since(u, t) && CanHappen(u, e) && !e.Restart?
    ensures Since(Next(u, e), t)
  {
    NextInv(u, e);
    NextStart(u, e);
    NextLogKept(u, e);
    NextHandedOutSince(u, e, |t.w.msgs|);
    if TaskPart(u, e).Some? {
      StepGrows(u.w, TaskPart(u, e).value);
      StepKeysSince(u.w, TaskPart(u, e).value, |t.w.msgs|, t.w.store.keys);
    }
  }

  lemma {:induction false} AfterSince(t: System, run: seq<Event>)
    requires Beginning(t) && Possible(t, run) && NoRestart(run)
    ensures Since(After(t, run), t)
  {
    if run == [] {
      BeginsSince(t);
    } else {
      AfterSince(t, run[..|run| - 1]);
      NextSince(After(t, run[..|run| - 1]), t, run[|run| - 1]);
    }
  }

  // -------------------------------------------------------------------------- nothing at risk, no loss

  lemma SettledGrows(w: World, u: World, m: Input)
    requires Grown(w, u) && Settled(w, m)
    ensures Settled(u, m)
  {
    var i: nat :| i < |w.msgs| && Covers(m, w.msgs[i]) && Closed(w, i);
    assert u.msgs[i] == w.msgs[i];
  }

  /** A key that was taken when the session began, with nothing at risk, belongs to a delivered message. */
  lemma OldKeySettled(t: System, key: string, m: Input)
    requires Beginning(t) && NothingAtRisk(t) && key in t.w.store.keys && ClaimKey(m.raw) == Some(key)
    ensures Settled(t.w, m)
  {
    var v := KeyVoucher(t.w, key);
    var o := t.w.msgs[v];
    assert FromLog(t.log, o);
    assert !AtRisk(t, C.Slot(o.partition, o.offset));
    DeliveredIffSettled(t.w, o);
    SharesSettled(t.w, o, m);
  }

  lemma KeyVoucher(w: World, key: string) returns (v: nat)
    requires TaskLaws.ClaimsBacked(w) && key in w.store.keys
    ensures v < |w.msgs| && ClaimKey(w.msgs[v].raw) == Some(key)
  {
    assert TaskLaws.Kept(w, key);
    v :| TaskLaws.Vouches(w, v) && ClaimKey(w.msgs[v].raw) == Some(key);
  }

  lemma SharesSettled(w: World, o: Input, m: Input)
    requires Settled(w, o) && ClaimKey(o.raw).Some? && ClaimKey(m.raw) == ClaimKey(o.raw)
    ensures Settled(w, m)
  {
    var i: nat :| i < |w.msgs| && Covers(o, w.msgs[i]) && Closed(w, i);
    assert Covers(m, w.msgs[i]);
  }

  /** A task of the session that a resting worker no longer runs has settled its message, or it met a key that
      the session did not take. */
  lemma SessionTaskSettles(u: System, t: System, n: nat)
    requires Since(u, t) && AtRest(u) && |t.w.msgs| <= n < |u.w.msgs|
    requires ClaimKey(u.w.msgs[n].raw).Some? ==> ClaimKey(u.w.msgs[n].raw).value !in t.w.store.keys
    requires forall i: nat :: |t.w.msgs| <= i ==> i !in u.w.orphans
    ensures Settled(u.w, u.w.msgs[n])
  {
    RestingTasks(u);
    assert HistoryOf(u.w, n);
    if Closed(u.w, n) {
      assert Covers(u.w.msgs[n], u.w.msgs[n]);
    } else {
      var key := ClaimKey(u.w.msgs[n].raw).value;
      assert BackedSince(u.w, |t.w.msgs|, key);
      var v: nat :| |t.w.msgs| <= v && TaskLaws.Vouches(u.w, v) && ClaimKey(u.w.msgs[v].raw) == Some(key);
      TaskLaws.QuietVoucher(u.w, v);
      assert Covers(u.w.msgs[n], u.w.msgs[v]) && Closed(u.w, v);
    }
  }

  lemma NoSessionOrphans(u: System, t: System, n: nat)
    requires TaskLaws.Inv(t.w) && Grown(t.w, u.w) && |t.w.msgs| <= n
    ensures n !in u.w.orphans
  {
    assert HistoryOf(t.w, n);
  }

  lemma ReachedInLog(u: System, slot: C.Slot)
    requires Inv(u) && Reached(u, slot)
    ensures InLog(u.log, slot)
  {
  }

  /** A message the session itself has fetched is settled, unless its key was taken before. */
  lemma FetchedSettles(u: System, t: System, slot: C.Slot)
    requires Beginning(t) && Since(u, t) && AtRest(u) && Reached(u, slot) && InLog(u.log, slot)
    requires u.c.start[slot.partition] <= slot.offset && !KeyTaken(t.w, MessageAt(u.log, slot))
    ensures Settled(u.w, MessageAt(u.log, slot))
  {
    assert Fetched(u.c, slot) && TaskSince(u, |t.w.msgs|, slot);
    var n :| |t.w.msgs| <= n < |u.w.msgs| && u.w.msgs[n].partition == slot.partition
             && u.w.msgs[n].offset == slot.offset;
    assert FromLog(u.log, u.w.msgs[n]);
    forall i: nat | |t.w.msgs| <= i
      ensures i !in u.w.orphans
    {
      NoSessionOrphans(u, t, i);
    }
    SessionTaskSettles(u, t, n);
  }

  /** Where nothing was at risk when the session began, a resting worker has delivered all it has reached. */
  lemma SessionDelivers(u: System, t: System, slot: C.Slot)
    requires Beginning(t) && NothingAtRisk(t) && Since(u, t) && AtRest(u) && Reached(u, slot)
    ensures DeliveredAt(u, slot)
  {
    ReachedInLog(u, slot);
    var m := MessageAt(u.log, slot);
    DeliveredIffSettled(u.w, m);
    if ClaimKey(m.raw).Some? && ClaimKey(m.raw).value in t.w.store.keys {
      OldKeySettled(t, ClaimKey(m.raw).value, m);
      SettledGrows(t.w, u.w, m);
    } else if slot.offset < t.c.start[slot.partition] {
      ReachedInLog(t, slot);
      assert !AtRisk(t, slot);
      DeliveredIffSettled(t.w, m);
      SettledGrows(t.w, u.w, m);
    } else {
      FetchedSettles(u, t, slot);
    }
  }

  lemma SafeBeginning(t: System)
    requires Beginning(t) && NothingAtRisk(t)
    ensures LosesNothing(t)
  {
    forall run, slot: C.Slot |
      Possible(t, run) && NoRestart(run) && AtRest(After(t, run)) && Reached(After(t, run), slot)
      ensures DeliveredAt(After(t, run), slot)
    {
      AfterSince(t, run);
      SessionDelivers(After(t, run), t, slot);
    }
  }

  /** Every restart of the run finds nothing at risk. */
  ghost predicate SafeRestarts(s: System, run: seq<Event>)
    requires Possible(s, run)
  {
    run == []
    || (SafeRestarts(s, run[..|run| - 1])
        && (run[|run| - 1].Restart? ==> NothingAtRisk(After(s, run[..|run| - 1]))))
  }

  lemma {:induction false} LastBeginning(max: nat, partitions: nat, maxAttempts: int, run: seq<Event>)
    returns (t: System)
    requires Possible(Start(max, partitions, maxAttempts), run)
    requires SafeRestarts(Start(max, partitions, maxAttempts), run)
    ensures Beginning(t) && NothingAtRisk(t) && Since(After(Start(max, partitions, maxAttempts), run), t)
  {
    if run == [] {
      t := Start(max, partitions, maxAttempts);
      StartBegins(max, partitions, maxAttempts);
      BeginsSince(t);
    } else {
      var before, e := run[..|run| - 1], run[|run| - 1];
      t := LastBeginning(max, partitions, maxAttempts, before);
      var s := After(Start(max, partitions, maxAttempts), before);
      if e.Restart? {
        RestartBegins(s);
        t := Next(s, Restart);
        BeginsSince(t);
      } else {
        NextSince(s, t, e);
      }
    }
  }

  /** At least once: in every run whose restarts find nothing at risk, whatever else fails, a worker at rest has
      delivered every message it has reached. */
  lemma AtLeastOnce(max: nat, partitions: nat, maxAttempts: int, run: seq<Event>, slot: C.Slot)
    requires Possible(Start(max, partitions, maxAttempts), run)
    requires SafeRestarts(Start(max, partitions, maxAttempts), run)
    requires var s := After(Start(max, partitions, maxAttempts), run); AtRest(s) && Reached(s, slot)
    ensures DeliveredAt(After(Start(max, partitions, maxAttempts), run), slot)
  {
    var t := LastBeginning(max, partitions, maxAttempts, run);
    SessionDelivers(After(Start(max, partitions, maxAttempts), run), t, slot);
  }

  // ------------------------------------------------------------------- restarts that interrupt nothing

  /** Every restart of the run finds no task running. */
  predicate QuietRestarts(s: System, run: seq<Event>)
    requires Possible(s, run)
  {
    run == []
    || (QuietRestarts(s, run[..|run| - 1])
        && (run[|run| - 1].Restart? ==> Running(After(s, run[..|run| - 1]).w) == {}))
  }

  lemma QuietVoucherSettles(w: World, m: Input)
    requires TaskLaws.Inv(w) && Running(w) == {} && w.orphans == {}
    requires ClaimKey(m.raw).Some? && TaskLaws.Backed(w, ClaimKey(m.raw).value)
    ensures Settled(w, m)
  {
    var v: nat :| TaskLaws.Vouches(w, v) && ClaimKey(w.msgs[v].raw) == Some(ClaimKey(m.raw).value);
    TaskLaws.QuietVoucher(w, v);
    assert Covers(m, w.msgs[v]) && Closed(w, v);
  }

  lemma QuietTaskEnds(w: World, n: nat)
    requires HistoryOf(w, n) && Running(w) == {} && w.orphans == {} && n < |w.msgs|
    ensures n in w.dup || Closed(w, n)
  {
    assert n !in Running(w);
  }

  lemma QuietTaskSettles(w: World, n: nat)
    requires TaskLaws.Inv(w) && Running(w) == {} && w.orphans == {} && n < |w.msgs|
    ensures Settled(w, w.msgs[n])
  {
    QuietTaskEnds(w, n);
    if n in w.dup {
      QuietVoucherSettles(w, w.msgs[n]);
    } else {
      assert Covers(w.msgs[n], w.msgs[n]);
    }
  }

  lemma QuietNotAtRisk(s: System, slot: C.Slot)
    requires Inv(s) && Running(s.w) == {} && s.w.orphans == {}
    ensures !AtRisk(s, slot)
  {
    if InLog(s.log, slot) {
      var m := MessageAt(s.log, slot);
      DeliveredIffSettled(s.w, m);
      if KeyTaken(s.w, m) {
        assert TaskLaws.Kept(s.w, ClaimKey(m.raw).value);
        QuietVoucherSettles(s.w, m);
      } else if C.Below(s.c, slot) {
        assert Fetched(s.c, slot) && TaskFor(s, slot);
        var n :| 0 <= n < |s.w.msgs| && s.w.msgs[n].partition == slot.partition && s.w.msgs[n].offset == slot.offset;
        assert FromLog(s.log, s.w.msgs[n]);
        QuietTaskSettles(s.w, n);
      }
    }
  }

  lemma {:induction false} QuietHasNoOrphans(max: nat, partitions: nat, maxAttempts: int, run: seq<Event>)
    requires Possible(Start(max, partitions, maxAttempts), run)
    requires QuietRestarts(Start(max, partitions, maxAttempts), run)
    ensures After(Start(max, partitions, maxAttempts), run).w.orphans == {}
  {
    if run != [] {
      var before, e := run[..|run| - 1], run[|run| - 1];
      QuietHasNoOrphans(max, partitions, maxAttempts, before);
      NextOrphans(After(Start(max, partitions, maxAttempts), before), e);
    }
  }

  lemma NextOrphans(s: System, e: Event)
    requires CanHappen(s, e)
    ensures Next(s, e).w.orphans == if e.Restart? then s.w.orphans + Running(s.w) else s.w.orphans
  {
    NextMessages(s, e);
  }

  /** Restarts that interrupt no task put nothing at risk. */
  lemma {:induction false} QuietIsSafe(max: nat, partitions: nat, maxAttempts: int, run: seq<Event>)
    requires Possible(Start(max, partitions, maxAttempts), run)
    requires QuietRestarts(Start(max, partitions, maxAttempts), run)
    ensures SafeRestarts(Start(max, partitions, maxAttempts), run)
  {
    if run != [] {
      var before := run[..|run| - 1];
      QuietIsSafe(max, partitions, maxAttempts, before);
      if run[|run| - 1].Restart? {
        AfterInv(max, partitions, maxAttempts, before);
        QuietHasNoOrphans(max, partitions, maxAttempts, before);
        forall slot: C.Slot
          ensures !AtRisk(After(Start(max, partitions, maxAttempts), before), slot)
        {
          QuietNotAtRisk(After(Start(max, partitions, maxAttempts), before), slot);
        }
      }
    }
  }

  /** Whatever else fails, and however commits run ahead, a run whose restarts find no task running delivers
      every message it has reached. */
  lemma QuietRestartsLoseNothing(max: nat, partitions: nat, maxAttempts: int, run: seq<Event>, slot: C.Slot)
    requires Possible(Start(max, partitions, maxAttempts), run)
    requires QuietRestarts(Start(max, partitions, maxAttempts), run)
    requires var s := After(Start(max, partitions, maxAttempts), run); AtRest(s) && Reached(s, slot)
    ensures DeliveredAt(After(Start(max, partitions, maxAttempts), run), slot)
  {
    QuietIsSafe(max, partitions, maxAttempts, run);
    AtLeastOnce(max, partitions, maxAttempts, run, slot);
  }

  lemma {:induction false} NoRestartIsQuiet(s: System, run: seq<Event>)
    requires Possible(s, run) && NoRestart(run)
    ensures QuietRestarts(s, run)
  {
    if run != [] {
      NoRestartIsQuiet(s, run[..|run| - 1]);
    }
  }

  /** In particular a run without any restart. */
  lemma CrashFreeLosesNothing(max: nat, partitions: nat, maxAttempts: int, run: seq<Event>, slot: C.Slot)
    requires Possible(Start(max, partitions, maxAttempts), run) && NoRestart(run)
    requires var s := After(Start(max, partitions, maxAttempts), run); AtRest(s) && Reached(s, slot)
    ensures DeliveredAt(After(Start(max, partitions, maxAttempts), run), slot)
  {
    NoRestartIsQuiet(Start(max, partitions, maxAttempts), run);
    QuietRestartsLoseNothing(max, partitions, maxAttempts, run, slot);
  }

  // ------------------------------------------------------------------------------ publishes that arrive

  /** No publish of the run fails. */
  predicate PublishesArrive(run: seq<Event>) {
    forall i :: 0 <= i < |run| && run[i].Work? && run[i].a.Publish? ==> run[i].a.publish.Delivered?
  }

  /** Every id in the log can be encoded as a message key. */
  ghost predicate EncodableIds(log: seq<seq<RawEvent>>) {
    forall slot: C.Slot :: InLog(log, slot) ==> !MessageAt(log, slot).raw.eventId.Alien?
  }

  lemma StepUnsent(w: World, a: Action)
    requires Enabled(w, a) && w.unsent == {}
    requires a.Publish? ==> a.publish.Delivered? && !w.msgs[a.n].raw.eventId.Alien?
    ensures Step(w, a).unsent == {}
  {
  }

  lemma {:induction false} NothingUnsent(max: nat, partitions: nat, maxAttempts: int, run: seq<Event>)
    requires Possible(Start(max, partitions, maxAttempts), run) && PublishesArrive(run)
    requires EncodableIds(After(Start(max, partitions, maxAttempts), run).log)
    ensures After(Start(max, partitions, maxAttempts), run).w.unsent == {}
  {
    if run != [] {
      var before, e := run[..|run| - 1], run[|run| - 1];
      var s := After(Start(max, partitions, maxAttempts), before);
      NextLogKept(s, e);
      NothingUnsent(max, partitions, maxAttempts, before);
      AfterInv(max, partitions, maxAttempts, before);
      if TaskPart(s, e).Some? {
        var a := TaskPart(s, e).value;
        if a.Publish? {
          assert FromLog(s.log, s.w.msgs[a.n]);
        }
        StepUnsent(s.w, a);
      }
    }
  }

  /** When publishes arrive, delivered means a row or an envelope that is there. */
  lemma RowOrEnvelope(max: nat, partitions: nat, maxAttempts: int, run: seq<Event>, slot: C.Slot)
    requires Possible(Start(max, partitions, maxAttempts), run) && PublishesArrive(run)
    requires SafeRestarts(Start(max, partitions, maxAttempts), run)
    requires var s := After(Start(max, partitions, maxAttempts), run);
             AtRest(s) && Reached(s, slot) && EncodableIds(s.log)
    ensures var s := After(Start(max, partitions, maxAttempts), run);
            && InLog(s.log, slot)
            && exists i: nat :: i < |s.w.msgs| && Covers(MessageAt(s.log, slot), s.w.msgs[i])
                                && (RowOf(s.w, i) || EnvelopeFrom(s.w, i))
  {
    AtLeastOnce(max, partitions, maxAttempts, run, slot);
    NothingUnsent(max, partitions, maxAttempts, run);
  }
}
