/** The whole worker: the consume loop and its tasks on one log, and what that guarantees from end to end. */
module Worker {
  import opened Wrappers
  import opened Models
  import opened Database
  import opened Handlers
  import opened Tasks
  import C = Consumer
  import TaskLaws
  import Uniqueness
  import Confluence

  /** `log` is the raw topic, partition by partition. */
  datatype System = System(c: C.State, w: World, log: seq<seq<RawEvent>>)

  datatype Event =
    | Produce(p: nat, raw: RawEvent)
    | Fetch(p: nat)
    | Acquire
    | Create
    | Work(a: Action)
    | CommitOk(n: nat)
    | CommitFail(n: nat)
    | Finish(n: nat)
    | Restart

  function Empty(partitions: nat): seq<seq<RawEvent>> {
    seq(partitions, i => [])
  }

  function Start(max: nat, partitions: nat, maxAttempts: int): System {
    System(C.Initial(max, partitions), Tasks.Initial(maxAttempts), Empty(partitions))
  }

  predicate InLog(log: seq<seq<RawEvent>>, slot: C.Slot) {
    slot.partition < |log| && slot.offset < |log[slot.partition]|
  }

  function MessageAt(log: seq<seq<RawEvent>>, slot: C.Slot): Input
    requires InLog(log, slot)
  {
    Input(log[slot.partition][slot.offset], slot.partition, slot.offset)
  }

  /** The steps inside `process`, and key expiry. */
  predicate OfTask(a: Action) {
    !a.Spawn? && !a.Leave? && !a.Crash?
  }

  /** The consumer's view of a task step: nothing, or the end of `process`. */
  function Seen(w: World, a: Action): Option<C.Action>
    requires Enabled(w, a)
  {
    if !OfTask(a) || a.Expire? then None
    else if Step(w, a).tasks[a.n].Over? then Some(C.Return(a.n))
    else if Step(w, a).tasks[a.n].Thrown? then Some(C.Escape(a.n))
    else None
  }

  predicate CanHappen(s: System, e: Event) {
    match e
    case Produce(p, _) => C.Enabled(s.c, C.Append(p)) && p < |s.log|
    case Fetch(p) => C.Enabled(s.c, C.Fetch(p))
    case Acquire => C.Enabled(s.c, C.Acquire)
    case Create => C.Enabled(s.c, C.Spawn) && InLog(s.log, s.c.loop.slot)
    case Work(a) => OfTask(a) && Enabled(s.w, a) && (Seen(s.w, a).Some? ==> C.Enabled(s.c, Seen(s.w, a).value))
    case CommitOk(n) => C.Enabled(s.c, C.CommitOk(n))
    case CommitFail(n) => C.Enabled(s.c, C.CommitFail(n))
    case Finish(n) => C.Enabled(s.c, C.Finish(n)) && Enabled(s.w, Leave(n))
    case Restart => true
  }

  /** What the consume loop does in the event, if anything. */
  function LoopPart(s: System, e: Event): Option<C.Action>
    requires CanHappen(s, e)
  {
    match e
    case Produce(p, _) => Some(C.Append(p))
    case Fetch(p) => Some(C.Fetch(p))
    case Acquire => Some(C.Acquire)
    case Create => Some(C.Spawn)
    case Work(a) => Seen(s.w, a)
    case CommitOk(n) => Some(C.CommitOk(n))
    case CommitFail(n) => Some(C.CommitFail(n))
    case Finish(n) => Some(C.Finish(n))
    case Restart => Some(C.Crash)
  }

  /** What the tasks do in it. */
  function TaskPart(s: System, e: Event): Option<Action>
    requires CanHappen(s, e)
  {
    match e
    case Create => Some(Spawn(MessageAt(s.log, s.c.loop.slot)))
    case Work(a) => Some(a)
    case Finish(n) => Some(Leave(n))
    case Restart => Some(Crash)
    case _ => None
  }

  function LoopStep(c: C.State, a: Option<C.Action>): C.State
    requires a.Some? ==> C.Enabled(c, a.value)
  {
    match a case None => c case Some(b) => C.Step(c, b)
  }

  function TaskStep(w: World, a: Option<Action>): World
    requires a.Some? ==> Enabled(w, a.value)
  {
    match a case None => w case Some(b) => Step(w, b)
  }

  function Next(s: System, e: Event): System
    requires CanHappen(s, e)
  {
    System(
      LoopStep(s.c, LoopPart(s, e)),
      TaskStep(s.w, TaskPart(s, e)),
      if e.Produce? then s.log[e.p := s.log[e.p] + [e.raw]] else s.log)
  }

  predicate Possible(s: System, run: seq<Event>)
    decreases |run|, 0
  {
    run == [] || (Possible(s, run[..|run| - 1]) && CanHappen(After(s, run[..|run| - 1]), run[|run| - 1]))
  }

  function After(s: System, run: seq<Event>): System
    requires Possible(s, run)
    decreases |run|, 1
  {
    if run == [] then s else Next(After(s, run[..|run| - 1]), run[|run| - 1])
  }

  // ------------------------------------------------------------------------------ the two halves agree

  /** Both halves know the same tasks, in corresponding states. */
  predicate Matched(s: System, n: nat) {
    && (n in s.c.flights <==> n in s.w.tasks)
    && (n in s.w.tasks ==>
          && n < |s.w.msgs|
          && s.c.flights[n].slot == C.Slot(s.w.msgs[n].partition, s.w.msgs[n].offset)
          && (s.c.flights[n].phase.Processing? <==> !s.w.tasks[n].Over? && !s.w.tasks[n].Thrown?)
          && (s.c.flights[n].phase.Committing? ==> s.w.tasks[n].Over?))
  }

  predicate FromLog(log: seq<seq<RawEvent>>, m: Input) {
    InLog(log, C.Slot(m.partition, m.offset)) && m == MessageAt(log, C.Slot(m.partition, m.offset))
  }

  predicate LogMeasured(s: System) {
    |s.log| == |s.c.ends| && forall p :: 0 <= p < |s.log| ==> s.c.ends[p] == |s.log[p]|
  }

  /** Every task works on a message of the log. */
  ghost predicate MessagesFromLog(s: System) {
    LogMeasured(s) && forall n :: 0 <= n < |s.w.msgs| ==> FromLog(s.log, s.w.msgs[n])
  }

  ghost predicate TaskFor(s: System, slot: C.Slot) {
    exists n :: 0 <= n < |s.w.msgs| && s.w.msgs[n].partition == slot.partition && s.w.msgs[n].offset == slot.offset
  }

  /** The slot lies below the fetch position and the loop has let go of it. */
  predicate Fetched(c: C.State, slot: C.Slot) {
    && slot.partition < |c.position| && slot.offset < c.position[slot.partition]
    && (c.loop.Idle? || c.loop.slot != slot)
  }

  /** Every message below the fetch position has had a task, unless the loop still holds it. */
  ghost predicate AllHandedOut(s: System) {
    forall slot: C.Slot :: Fetched(s.c, slot) ==> TaskFor(s, slot)
  }

  lemma WorkMatched(s: System, a: Action, n: nat)
    requires Matched(s, n) && CanHappen(s, Work(a))
    ensures Matched(Next(s, Work(a)), n)
  {
    if Actor(s.w, a) != Some(n) {
      OnlyActorTouched(s.w, a, n);
    }
  }

  predicate OfFetching(e: Event) {
    e.Produce? || e.Fetch? || e.Acquire? || e.Create?
  }

  lemma FetchingMatched(s: System, e: Event, n: nat)
    requires Matched(s, n) && s.c.next == |s.w.msgs| && CanHappen(s, e) && OfFetching(e)
    ensures Matched(Next(s, e), n)
  {
  }

  lemma FinishingMatched(s: System, e: Event, n: nat)
    requires Matched(s, n) && CanHappen(s, e) && !e.Work? && !OfFetching(e)
    ensures Matched(Next(s, e), n)
  {
  }

  ghost predicate AllMatched(s: System) {
    s.c.next == |s.w.msgs| && forall n: nat :: Matched(s, n)
  }

  lemma NextSerial(s: System, e: Event)
    requires s.c.next == |s.w.msgs| && CanHappen(s, e)
    ensures Next(s, e).c.next == |Next(s, e).w.msgs|
  {
    NextMessages(s, e);
  }

  lemma NextMatched(s: System, e: Event)
    requires AllMatched(s) && CanHappen(s, e)
    ensures AllMatched(Next(s, e))
  {
    NextSerial(s, e);
    forall n: nat
      ensures Matched(Next(s, e), n)
    {
      if e.Work? {
        WorkMatched(s, e.a, n);
      } else if OfFetching(e) {
        FetchingMatched(s, e, n);
      } else {
        FinishingMatched(s, e, n);
      }
    }
  }

  lemma StepMessages(w: World, a: Action)
    requires Enabled(w, a)
    ensures Step(w, a).msgs == if a.Spawn? then w.msgs + [a.m] else w.msgs
    ensures Step(w, a).spawned == if a.Spawn? then w.spawned + 1 else if a.Crash? then 0 else w.spawned
    ensures Step(w, a).orphans == if a.Crash? then w.orphans + Running(w) else w.orphans
  {
  }

  lemma NextMessages(s: System, e: Event)
    requires CanHappen(s, e)
    ensures Next(s, e).w.msgs
            == if e.Create? then s.w.msgs + [MessageAt(s.log, s.c.loop.slot)] else s.w.msgs
    ensures Next(s, e).w.spawned
            == if e.Create? then s.w.spawned + 1 else if e.Restart? then 0 else s.w.spawned
    ensures !e.Restart? ==> Next(s, e).w.orphans == s.w.orphans
  {
    if TaskPart(s, e).Some? {
      StepMessages(s.w, TaskPart(s, e).value);
    }
  }

  /** What an action does to the loop, the log ends and the counters of the consumer. */
  lemma StepLoop(c: C.State, a: C.Action, slot: C.Slot)
    requires C.Shape(c) && C.Enabled(c, a)
    ensures Fetched(C.Step(c, a), slot) ==> Fetched(c, slot) || (a.Spawn? && slot == c.loop.slot)
    ensures C.Step(c, a).consumed - (if C.Step(c, a).loop.Idle? then 0 else 1)
            == if a.Crash? then 0 else c.consumed - (if c.loop.Idle? then 0 else 1) + (if a.Spawn? then 1 else 0)
    ensures C.Step(c, a).crashes == if a.Crash? then c.crashes + 1 else c.crashes
    ensures C.Step(c, a).ends == if a.Append? then c.ends[a.p := c.ends[a.p] + 1] else c.ends
    ensures C.Step(c, a).next == if a.Spawn? then c.next + 1 else c.next
  {
  }

  /** The messages of the log stay where they are. */
  lemma LogGrows(s: System, e: Event, m: Input)
    requires CanHappen(s, e) && FromLog(s.log, m)
    ensures FromLog(Next(s, e).log, m)
  {
  }

  lemma NextMeasured(s: System, e: Event)
    requires C.Shape(s.c) && LogMeasured(s) && CanHappen(s, e)
    ensures LogMeasured(Next(s, e))
  {
    if LoopPart(s, e).Some? {
      StepLoop(s.c, LoopPart(s, e).value, C.Slot(0, 0));
    }
  }

  lemma NextFromLog(s: System, e: Event)
    requires C.Shape(s.c) && MessagesFromLog(s) && CanHappen(s, e)
    ensures MessagesFromLog(Next(s, e))
  {
    NextMeasured(s, e);
    NextMessages(s, e);
    var t := Next(s, e);
    forall n | 0 <= n < |t.w.msgs|
      ensures FromLog(t.log, t.w.msgs[n])
    {
      if n < |s.w.msgs| {
        assert t.w.msgs[n] == s.w.msgs[n];
        LogGrows(s, e, s.w.msgs[n]);
      }
    }
  }

  lemma HandedOut(s: System, e: Event, slot: C.Slot)
    requires C.Shape(s.c) && AllHandedOut(s) && CanHappen(s, e) && Fetched(Next(s, e).c, slot)
    ensures TaskFor(Next(s, e), slot)
  {
    NextMessages(s, e);
    if LoopPart(s, e).Some? {
      StepLoop(s.c, LoopPart(s, e).value, slot);
    }
    var msgs := Next(s, e).w.msgs;
    if Fetched(s.c, slot) {
      assert TaskFor(s, slot);
      var n :| 0 <= n < |s.w.msgs| && s.w.msgs[n].partition == slot.partition && s.w.msgs[n].offset == slot.offset;
      assert msgs[n] == s.w.msgs[n];
    } else {
      assert msgs[|s.w.msgs|] == MessageAt(s.log, slot);
    }
  }

  lemma NextHandedOut(s: System, e: Event)
    requires C.Shape(s.c) && AllHandedOut(s) && CanHappen(s, e)
    ensures AllHandedOut(Next(s, e))
  {
    forall slot: C.Slot | Fetched(Next(s, e).c, slot)
      ensures TaskFor(Next(s, e), slot)
    {
      HandedOut(s, e, slot);
    }
  }

  /** The session's consumed messages all have a task, but for the one in the loop; tasks are cut off by
      nothing but restarts. */
  ghost predicate SessionCounts(s: System) {
    && s.c.consumed == s.w.spawned + (if s.c.loop.Idle? then 0 else 1)
    && (s.c.crashes == 0 ==> s.w.orphans == {})
  }

  lemma NextSession(s: System, e: Event)
    requires C.Shape(s.c) && SessionCounts(s) && CanHappen(s, e)
    ensures SessionCounts(Next(s, e))
  {
    NextMessages(s, e);
    if LoopPart(s, e).Some? {
      StepLoop(s.c, LoopPart(s, e).value, C.Slot(0, 0));
    }
  }

  ghost predicate Linked(s: System) {
    AllMatched(s) && MessagesFromLog(s) && AllHandedOut(s) && SessionCounts(s)
  }

  lemma NextLinked(s: System, e: Event)
    requires C.Shape(s.c) && Linked(s) && CanHappen(s, e)
    ensures Linked(Next(s, e))
  {
    NextMatched(s, e);
    NextFromLog(s, e);
    NextHandedOut(s, e);
    NextSession(s, e);
  }

  ghost predicate Inv(s: System) {
    C.Inv(s.c) && TaskLaws.Inv(s.w) && Linked(s)
  }

  lemma LoopStepInv(c: C.State, a: Option<C.Action>)
    requires C.Inv(c) && (a.Some? ==> C.Enabled(c, a.value))
    ensures C.Inv(LoopStep(c, a))
  {
    if a.Some? {
      C.StepInv(c, a.value);
    }
  }

  lemma TaskStepInv(w: World, a: Option<Action>)
    requires TaskLaws.Inv(w) && (a.Some? ==> Enabled(w, a.value))
    ensures TaskLaws.Inv(TaskStep(w, a))
  {
    if a.Some? {
      TaskLaws.StepInv(w, a.value);
    }
  }

  lemma NextInv(s: System, e: Event)
    requires Inv(s) && CanHappen(s, e)
    ensures Inv(Next(s, e))
  {
    LoopStepInv(s.c, LoopPart(s, e));
    TaskStepInv(s.w, TaskPart(s, e));
    NextLinked(s, e);
  }

  lemma StartInv(max: nat, partitions: nat, maxAttempts: int)
    ensures Inv(Start(max, partitions, maxAttempts))
  {
    C.InitialInv(max, partitions);
    TaskLaws.InitialInv(maxAttempts);
  }

  lemma {:induction false} AfterInv(max: nat, partitions: nat, maxAttempts: int, run: seq<Event>)
    requires Possible(Start(max, partitions, maxAttempts), run)
    ensures Inv(After(Start(max, partitions, maxAttempts), run))
  {
    if run == [] {
      StartInv(max, partitions, maxAttempts);
    } else {
      var before := run[..|run| - 1];
      AfterInv(max, partitions, maxAttempts, before);
      NextInv(After(Start(max, partitions, maxAttempts), before), run[|run| - 1]);
    }
  }

  // ------------------------------------------------------------------------------------ no blocking

  /** Joining the two halves blocks neither: whatever a task … */
  lemma TaskNeverBlocked(s: System, a: Action)
    requires AllMatched(s) && OfTask(a) && Enabled(s.w, a)
    ensures CanHappen(s, Work(a))
  {
    if !a.Expire? {
      assert Matched(s, a.n);
    }
  }

  /** … or the loop can do alone, the worker can do. */
  lemma LoopNeverBlocked(s: System, n: nat)
    requires C.Shape(s.c) && AllMatched(s) && MessagesFromLog(s)
    ensures C.Enabled(s.c, C.Spawn) ==> CanHappen(s, Create)
    ensures C.Enabled(s.c, C.Finish(n)) ==> CanHappen(s, Finish(n))
  {
    assert Matched(s, n);
  }

  // ------------------------------------------------------------------------------ end-to-end theorems

  /** The loop waits for a message and no task exists. */
  predicate AtRest(s: System) {
    s.c.loop.Idle? && s.c.flights == map[]
  }

  lemma RestingTasks(s: System)
    requires Inv(s) && AtRest(s)
    ensures s.w.tasks == map[] && Running(s.w) == {} && TaskLaws.UncountedTasks(s.w) == {}
  {
    forall n: nat
      ensures n !in s.w.tasks
    {
      assert Matched(s, n);
    }
  }

  /** The message's own task, or one that claimed its key, stored its event, tried the DLQ, or died in a crash. */
  ghost predicate AccountedFor(s: System, slot: C.Slot) {
    exists n: nat :: n < |s.w.msgs| && InLog(s.log, slot) && s.w.msgs[n] == MessageAt(s.log, slot)
                     && TaskLaws.Explained(s.w, n)
  }

  /** No unexplained loss, from the log to the tables: when the worker is at rest, every message it ever
      fetched belongs to an event that has a row, or was given to the DLQ, or had a task cut off by a crash. */
  lemma NoUnexplainedLoss(max: nat, partitions: nat, maxAttempts: int, run: seq<Event>, slot: C.Slot)
    requires Possible(Start(max, partitions, maxAttempts), run)
    requires var s := After(Start(max, partitions, maxAttempts), run);
             AtRest(s) && slot.partition < |s.c.position| && slot.offset < s.c.position[slot.partition]
    ensures AccountedFor(After(Start(max, partitions, maxAttempts), run), slot)
  {
    AfterInv(max, partitions, maxAttempts, run);
    var s := After(Start(max, partitions, maxAttempts), run);
    RestingTasks(s);
    TaskLaws.NoUnexplainedLoss(s.w);
    assert Fetched(s.c, slot);
    var n :| 0 <= n < |s.w.msgs| && s.w.msgs[n].partition == slot.partition && s.w.msgs[n].offset == slot.offset;
    assert TaskLaws.Explained(s.w, n);
  }

  /** In every reachable state the counters of the session balance: messages consumed, and envelopes sent a
      second time, are the messages processed, skipped and given to the DLQ, those a task has yet to decide,
      and the one the loop holds. */
  lemma CountersConserved(max: nat, partitions: nat, maxAttempts: int, run: seq<Event>)
    requires Possible(Start(max, partitions, maxAttempts), run)
    ensures var s := After(Start(max, partitions, maxAttempts), run);
            s.c.consumed + s.w.resent
            == s.w.store.metrics.processed + s.w.store.metrics.duplicates + s.w.store.metrics.dlq
               + |TaskLaws.UncountedTasks(s.w)| + (if s.c.loop.Idle? then 0 else 1)
  {
    AfterInv(max, partitions, maxAttempts, run);
  }

  /** The acceptable events of the whole log. */
  ghost function EventsInLog(log: seq<seq<RawEvent>>): set<IoTEvent> {
    set p, o | 0 <= p < |log| && 0 <= o < |log[p]| && Accepted(log[p][o]) :: Validate(log[p][o]).value
  }

  /** Throughout the log equal claim keys mean equal events, and no event id comes in two spellings. */
  ghost predicate ConsistentLog(log: seq<seq<RawEvent>>) {
    forall a: C.Slot, b: C.Slot :: InLog(log, a) && InLog(log, b) ==>
      Consistent(log[a.partition][a.offset], log[b.partition][b.offset])
  }

  predicate Consistent(a: RawEvent, b: RawEvent) {
    && (ClaimKey(a).Some? && ClaimKey(a) == ClaimKey(b) ==> Validate(a) == Validate(b))
    && (Accepted(a) && Accepted(b) && Validate(a).value.eventId == Validate(b).value.eventId ==>
          a.eventId == b.eventId)
  }

  predicate HealthyRun(s: System, run: seq<Event>)
    requires Possible(s, run)
  {
    run == []
    || (HealthyRun(s, run[..|run| - 1])
        && var t, e := After(s, run[..|run| - 1]), run[|run| - 1];
           TaskPart(t, e).Some? ==> Confluence.HealthyAction(t.w, TaskPart(t, e).value))
  }

  lemma {:induction false} HealthyAfter(max: nat, partitions: nat, maxAttempts: int, run: seq<Event>)
    requires maxAttempts >= 1 && Possible(Start(max, partitions, maxAttempts), run)
    requires HealthyRun(Start(max, partitions, maxAttempts), run)
    requires Uniqueness.OneSpelling(After(Start(max, partitions, maxAttempts), run).w)
    ensures Confluence.HealthyInv(After(Start(max, partitions, maxAttempts), run).w)
  {
    if run == [] {
      Confluence.InitialHealthyInv(maxAttempts);
    } else {
      var before, e := run[..|run| - 1], run[|run| - 1];
      var s := After(Start(max, partitions, maxAttempts), before);
      if TaskPart(s, e).Some? {
        Uniqueness.SpelledBefore(s.w, TaskPart(s, e).value);
      }
      HealthyAfter(max, partitions, maxAttempts, before);
      if TaskPart(s, e).Some? {
        Confluence.StepHealthyInv(s.w, TaskPart(s, e).value);
      }
    }
  }

  lemma ConsistentPair(s: System, n: nat, m: nat)
    requires MessagesFromLog(s) && ConsistentLog(s.log) && n < |s.w.msgs| && m < |s.w.msgs|
    ensures Consistent(s.w.msgs[n].raw, s.w.msgs[m].raw)
  {
    assert FromLog(s.log, s.w.msgs[n]) && FromLog(s.log, s.w.msgs[m]);
    assert InLog(s.log, C.Slot(s.w.msgs[n].partition, s.w.msgs[n].offset));
    assert InLog(s.log, C.Slot(s.w.msgs[m].partition, s.w.msgs[m].offset));
  }

  lemma ConsistentMessages(s: System)
    requires MessagesFromLog(s) && ConsistentLog(s.log)
    ensures Confluence.SameIdSameEvent(s.w)
  {
    forall n: nat, m: nat | n < |s.w.msgs| && m < |s.w.msgs|
      ensures Consistent(s.w.msgs[n].raw, s.w.msgs[m].raw)
    {
      ConsistentPair(s, n, m);
    }
  }

  lemma LoggedIsWanted(s: System, slot: C.Slot)
    requires Inv(s) && AtRest(s) && s.c.position == s.c.ends
    requires InLog(s.log, slot) && Accepted(s.log[slot.partition][slot.offset])
    ensures Validate(s.log[slot.partition][slot.offset]).value in Confluence.Wanted(s.w)
  {
    assert Fetched(s.c, slot);
    var n :| 0 <= n < |s.w.msgs| && s.w.msgs[n].partition == slot.partition && s.w.msgs[n].offset == slot.offset;
    assert FromLog(s.log, s.w.msgs[n]);
  }

  /** When everything in the log has been fetched, the events wanted are the events of the log. */
  lemma WantedIsLog(s: System)
    requires Inv(s) && AtRest(s) && s.c.position == s.c.ends
    ensures Confluence.Wanted(s.w) == EventsInLog(s.log)
  {
    forall e | e in EventsInLog(s.log)
      ensures e in Confluence.Wanted(s.w)
    {
      var p, o :| 0 <= p < |s.log| && 0 <= o < |s.log[p]| && Accepted(s.log[p][o]) && Validate(s.log[p][o]).value == e;
      LoggedIsWanted(s, C.Slot(p, o));
    }
    forall e | e in Confluence.Wanted(s.w)
      ensures e in EventsInLog(s.log)
    {
      var n :| 0 <= n < |s.w.msgs| && Accepted(s.w.msgs[n].raw) && Tasks.Event(s.w.msgs[n]) == e;
      assert FromLog(s.log, s.w.msgs[n]);
    }
  }

  /** Effectively once, from the log to the tables: after a healthy run that has fetched the whole log and come
      to rest, the events table holds each distinct acceptable event of the log in exactly one row, and every
      device's count is the number of its distinct events, whatever the interleavings, the redeliveries, the
      commit order and the restarts were. */
  lemma EffectivelyOnce(max: nat, partitions: nat, maxAttempts: int, run: seq<Event>, d: string)
    requires maxAttempts >= 1 && Possible(Start(max, partitions, maxAttempts), run)
    requires HealthyRun(Start(max, partitions, maxAttempts), run)
    requires var s := After(Start(max, partitions, maxAttempts), run);
             AtRest(s) && s.c.position == s.c.ends && ConsistentLog(s.log)
    ensures var s := After(Start(max, partitions, maxAttempts), run);
            && Confluence.Contents(s.w) == EventsInLog(s.log)
            && |s.w.store.tables.events| == |EventsInLog(s.log)|
            && CountOf(s.w.store.tables.states, d) == |Confluence.EventsOfDevice(EventsInLog(s.log), d)|
  {
    AfterInv(max, partitions, maxAttempts, run);
    var s := After(Start(max, partitions, maxAttempts), run);
    ConsistentMessages(s);
    HealthyAfter(max, partitions, maxAttempts, run);
    RestingTasks(s);
    WantedIsLog(s);
    Confluence.FinalTables(s.w, d);
  }
}
