/** The consume loop of the worker (apps/worker/consumer.py): bounded concurrency, one commit per task in
    whatever order tasks finish, and restarts from the committed offsets. What a task does with its message
    is left to other components; here it returns or lets an exception escape. */
module Consumer {
  import opened Wrappers

  /** One message of the topic. */
  datatype Slot = Slot(partition: nat, offset: nat)

  /** The fetch loop: between messages, holding a message, or holding it together with a permit. */
  datatype Loop = Idle | Fetched(slot: Slot) | Permitted(slot: Slot)

  /** A task: `process` is running, it has returned, or only the `finally` clause is left. */
  datatype Phase = Processing | Committing | Finishing

  datatype Flight = Flight(slot: Slot, phase: Phase)

  /** `max` permits in all; `flights` holds the tasks by serial number. The last five fields are history:
      the slots whose processing returned (`settled`) or raised (`escaped`), the slots a crash left
      unprocessed below the committed offset (`skipped`), the crashes, and the messages consumed since the
      last one. */
  datatype State = State(
    max: nat,
    ends: seq<nat>,
    permits: nat,
    loop: Loop,
    flights: map<nat, Flight>,
    next: nat,
    position: seq<nat>,
    committed: seq<nat>,
    start: seq<nat>,
    settled: set<Slot>,
    escaped: set<Slot>,
    skipped: set<Slot>,
    crashes: nat,
    consumed: nat)

  datatype Action =
    | Append(p: nat)
    | Fetch(p: nat)
    | Acquire
    | Spawn
    | Return(n: nat)
    | Escape(n: nat)
    | CommitOk(n: nat)
    | CommitFail(n: nat)
    | Finish(n: nat)
    | Crash

  function Zeros(n: nat): seq<nat> {
    seq(n, i => 0)
  }

  function Initial(max: nat, partitions: nat): State {
    var z := Zeros(partitions);
    State(max, z, max, Idle, map[], 0, z, z, z, {}, {}, {}, 0, 0)
  }

  predicate InPhase(s: State, n: nat, phase: Phase) {
    n in s.flights && s.flights[n].phase == phase
  }

  predicate Below(s: State, slot: Slot) {
    slot.partition < |s.committed| && slot.offset < s.committed[slot.partition]
  }

  /** Unprocessed in-flight messages that a commit has already passed over. */
  function Jumped(s: State): set<nat> {
    set n | n in s.flights && s.flights[n].phase.Processing? && Below(s, s.flights[n].slot)
  }

  /** The messages those tasks held. */
  function PassedOver(s: State): set<Slot> {
    set n | n in Jumped(s) :: s.flights[n].slot
  }

  predicate Enabled(s: State, a: Action) {
    match a
    case Append(p) => p < |s.ends|
    case Fetch(p) => s.loop.Idle? && p < |s.ends| && p < |s.position| && s.position[p] < s.ends[p]
    case Acquire => s.loop.Fetched? && s.permits > 0
    case Spawn => s.loop.Permitted?
    case Return(n) => InPhase(s, n, Processing)
    case Escape(n) => InPhase(s, n, Processing)
    case CommitOk(n) => InPhase(s, n, Committing) && s.flights[n].slot.partition < |s.committed|
    case CommitFail(n) => InPhase(s, n, Committing)
    case Finish(n) => InPhase(s, n, Finishing)
    case Crash => true
  }

  function SetPhase(s: State, n: nat, phase: Phase): State
    requires n in s.flights
  {
    s.(flights := s.flights[n := s.flights[n].(phase := phase)])
  }

  function Step(s: State, a: Action): State
    requires Enabled(s, a)
  {
    match a
    case Append(p) => s.(ends := s.ends[p := s.ends[p] + 1])
    case Fetch(p) =>
      s.(loop := Fetched(Slot(p, s.position[p])), position := s.position[p := s.position[p] + 1],
         consumed := s.consumed + 1)
    case Acquire => s.(loop := Permitted(s.loop.slot), permits := s.permits - 1)
    case Spawn =>
      s.(loop := Idle, flights := s.flights[s.next := Flight(s.loop.slot, Processing)], next := s.next + 1)
    case Return(n) => SetPhase(s, n, Committing).(settled := s.settled + {s.flights[n].slot})
    case Escape(n) => SetPhase(s, n, Finishing).(escaped := s.escaped + {s.flights[n].slot})
    case CommitOk(n) =>
      var slot := s.flights[n].slot;
      SetPhase(s, n, Finishing).(committed := s.committed[slot.partition := slot.offset + 1])
    case CommitFail(n) => SetPhase(s, n, Finishing)
    case Finish(n) => s.(flights := s.flights - {n}, permits := s.permits + 1)
    case Crash =>
      s.(permits := s.max, loop := Idle, flights := map[], position := s.committed, start := s.committed,
         skipped := s.skipped + PassedOver(s),
         crashes := s.crashes + 1, consumed := 0)
  }

  predicate Valid(s: State, run: seq<Action>)
    decreases |run|, 0
  {
    run == [] || (Valid(s, run[..|run| - 1]) && Enabled(Exec(s, run[..|run| - 1]), run[|run| - 1]))
  }

  function Exec(s: State, run: seq<Action>): State
    requires Valid(s, run)
    decreases |run|, 1
  {
    if run == [] then s else Step(Exec(s, run[..|run| - 1]), run[|run| - 1])
  }

  // -------------------------------------------------------------------------------- the invariant

  ghost predicate Ranges(s: State) {
    && |s.ends| == |s.position| == |s.committed| == |s.start|
    && forall p :: 0 <= p < |s.ends| ==> s.start[p] <= s.committed[p] <= s.position[p] <= s.ends[p]
  }

  /** Every permit is free, held by the loop, or held by exactly one task. */
  ghost predicate PermitsConserved(s: State) {
    s.permits + (if s.loop.Permitted? then 1 else 0) + |s.flights| == s.max
  }

  ghost predicate InSession(s: State, slot: Slot) {
    && slot.partition < |s.start| && slot.partition < |s.position|
    && s.start[slot.partition] <= slot.offset < s.position[slot.partition]
  }

  ghost predicate FlightsInSession(s: State) {
    && (forall n :: n in s.flights ==> n < s.next && InSession(s, s.flights[n].slot))
    && (forall n, m :: n in s.flights && m in s.flights && s.flights[n].slot == s.flights[m].slot ==> n == m)
  }

  /** The message in the loop is the newest of its partition, and nothing is committed past it. */
  ghost predicate LoopNewest(s: State) {
    !s.loop.Idle? ==>
      && InSession(s, s.loop.slot)
      && s.loop.slot.offset + 1 == s.position[s.loop.slot.partition]
      && !Below(s, s.loop.slot)
      && forall n :: n in s.flights ==> s.flights[n].slot != s.loop.slot
  }

  /** A committed offset is the one the session started with or follows a processed message. */
  ghost predicate CommitsJustified(s: State) {
    && (forall n :: n in s.flights && s.flights[n].phase.Committing? ==> s.flights[n].slot in s.settled)
    && (forall p :: 0 <= p < |s.committed| && p < |s.start| && s.committed[p] != s.start[p] ==>
                      s.committed[p] > 0 && Slot(p, s.committed[p] - 1) in s.settled)
  }

  ghost predicate InFlight(s: State, slot: Slot) {
    exists n :: n in s.flights && s.flights[n].phase.Processing? && s.flights[n].slot == slot
  }

  ghost predicate Accounted(s: State, slot: Slot) {
    || slot in s.settled || slot in s.escaped || slot in s.skipped
    || InFlight(s, slot) || (!s.loop.Idle? && s.loop.slot == slot)
  }

  /** No message that was ever fetched is forgotten. */
  ghost predicate AllAccounted(s: State) {
    forall slot: Slot :: slot.partition < |s.position| && slot.offset < s.position[slot.partition] ==>
                           Accounted(s, slot)
  }

  /** Skipped messages lie before the session. */
  ghost predicate SkippedBehind(s: State) {
    forall slot :: slot in s.skipped ==> slot.partition < |s.start| && slot.offset < s.start[slot.partition]
  }

  /** At most `max - 1` unprocessed messages in flight have been passed over. */
  ghost predicate WindowBounded(s: State) {
    Jumped(s) == {} || |Jumped(s)| < s.max
  }

  /** `max - 1` messages for each crash. */
  function MaxSkips(max: nat, crashes: nat): nat {
    if max == 0 then 0 else (max - 1) * crashes
  }

  ghost predicate SkipsBounded(s: State) {
    |s.skipped| <= MaxSkips(s.max, s.crashes)
  }

  /** Where everything is, history aside. */
  ghost predicate Shape(s: State) {
    Ranges(s) && FlightsInSession(s) && LoopNewest(s)
  }

  ghost predicate Inv(s: State) {
    && Shape(s) && PermitsConserved(s) && CommitsJustified(s) && AllAccounted(s) && SkippedBehind(s)
    && WindowBounded(s) && SkipsBounded(s)
  }

  lemma InitialInv(max: nat, partitions: nat)
    ensures Inv(Initial(max, partitions))
  {
  }

  predicate OfLoop(a: Action) {
    a.Append? || a.Fetch? || a.Acquire? || a.Spawn?
  }

  lemma LoopRanges(s: State, a: Action)
    requires Shape(s) && Enabled(s, a) && OfLoop(a)
    ensures Ranges(Step(s, a))
  {
  }

  lemma LoopFlights(s: State, a: Action)
    requires Shape(s) && Enabled(s, a) && OfLoop(a)
    ensures FlightsInSession(Step(s, a))
  {
    var t := Step(s, a);
    forall n | n in t.flights
      ensures n < t.next && InSession(t, t.flights[n].slot)
    {
      if n in s.flights {
        assert InSession(s, s.flights[n].slot);
      }
    }
  }

  lemma LoopKeepsNewest(s: State, a: Action)
    requires Shape(s) && Enabled(s, a) && OfLoop(a)
    ensures LoopNewest(Step(s, a))
  {
    if a.Fetch? {
      assert forall n :: n in s.flights ==> InSession(s, s.flights[n].slot);
    }
  }

  lemma TaskRanges(s: State, a: Action)
    requires Shape(s) && Enabled(s, a) && !OfLoop(a)
    ensures Ranges(Step(s, a))
  {
    if a.CommitOk? {
      assert InSession(s, s.flights[a.n].slot);
    }
  }

  lemma TaskShape(s: State, a: Action)
    requires Shape(s) && Enabled(s, a) && !OfLoop(a)
    ensures Shape(Step(s, a))
  {
    TaskRanges(s, a);
    var t := Step(s, a);
    forall n | n in t.flights
      ensures n < t.next && InSession(t, t.flights[n].slot)
    {
      assert InSession(s, s.flights[n].slot);
    }
  }

  lemma LoopPermits(s: State, a: Action)
    requires Shape(s) && PermitsConserved(s) && Enabled(s, a) && OfLoop(a)
    ensures PermitsConserved(Step(s, a))
  {
    if a.Spawn? {
      assert s.next !in s.flights;
      assert Step(s, a).flights.Keys == s.flights.Keys + {s.next};
    }
  }

  lemma TaskPermits(s: State, a: Action)
    requires PermitsConserved(s) && Enabled(s, a) && !OfLoop(a) && !a.Crash?
    ensures PermitsConserved(Step(s, a))
  {
    if a.Finish? {
      assert Step(s, a).flights.Keys == s.flights.Keys - {a.n};
    } else {
      assert Step(s, a).flights.Keys == s.flights.Keys;
    }
  }

  lemma StepPermits(s: State, a: Action)
    requires Shape(s) && PermitsConserved(s) && Enabled(s, a)
    ensures PermitsConserved(Step(s, a))
  {
    if OfLoop(a) {
      LoopPermits(s, a);
    } else if !a.Crash? {
      TaskPermits(s, a);
    }
  }

  lemma StepCommits(s: State, a: Action)
    requires Ranges(s) && CommitsJustified(s) && Enabled(s, a)
    ensures CommitsJustified(Step(s, a))
  {
  }

  lemma StepBehind(s: State, a: Action)
    requires Ranges(s) && SkippedBehind(s) && Enabled(s, a)
    ensures SkippedBehind(Step(s, a))
  {
    if a.Crash? {
      forall slot | slot in Step(s, a).skipped && slot !in s.skipped
        ensures slot.partition < |s.committed| && slot.offset < s.committed[slot.partition]
      {
        var n :| n in Jumped(s) && slot == s.flights[n].slot;
      }
    }
  }

  lemma LoopAccounted(s: State, a: Action, slot: Slot)
    requires Shape(s) && AllAccounted(s) && Enabled(s, a) && OfLoop(a)
    requires var t := Step(s, a); slot.partition < |t.position| && slot.offset < t.position[slot.partition]
    ensures Accounted(Step(s, a), slot)
  {
    var t := Step(s, a);
    if a.Fetch? && slot == t.loop.slot {
    } else {
      assert Accounted(s, slot);
      if InFlight(s, slot) {
        var n :| n in s.flights && s.flights[n].phase.Processing? && s.flights[n].slot == slot;
        assert n in t.flights && t.flights[n] == s.flights[n];
      } else if a.Spawn? {
        assert t.flights[s.next] == Flight(s.loop.slot, Processing);
      }
    }
  }

  lemma TaskAccounted(s: State, a: Action, slot: Slot)
    requires AllAccounted(s) && Enabled(s, a) && !OfLoop(a) && !a.Crash?
    requires slot.partition < |s.position| && slot.offset < s.position[slot.partition]
    ensures Accounted(Step(s, a), slot)
  {
    assert Accounted(s, slot);
    if InFlight(s, slot) {
      var n :| n in s.flights && s.flights[n].phase.Processing? && s.flights[n].slot == slot;
      if n != a.n {
        assert n in Step(s, a).flights && Step(s, a).flights[n] == s.flights[n];
      }
    }
  }

  lemma CrashAccounted(s: State, slot: Slot)
    requires Shape(s) && AllAccounted(s) && Below(s, slot)
    ensures Accounted(Step(s, Crash), slot)
  {
    assert Accounted(s, slot);
    if InFlight(s, slot) {
      var n :| n in s.flights && s.flights[n].phase.Processing? && s.flights[n].slot == slot;
      assert n in Jumped(s);
    }
  }

  lemma StepAccounted(s: State, a: Action)
    requires Shape(s) && AllAccounted(s) && Enabled(s, a)
    ensures AllAccounted(Step(s, a))
  {
    var t := Step(s, a);
    forall slot: Slot | slot.partition < |t.position| && slot.offset < t.position[slot.partition]
      ensures Accounted(t, slot)
    {
      if OfLoop(a) {
        LoopAccounted(s, a, slot);
      } else if a.Crash? {
        CrashAccounted(s, slot);
      } else {
        TaskAccounted(s, a, slot);
      }
    }
  }

  /** Only a commit can pass over a message, and the task that commits is not itself passed over. */
  lemma StepJumped(s: State, a: Action)
    requires Shape(s) && Enabled(s, a)
    ensures !a.CommitOk? ==> Jumped(Step(s, a)) <= Jumped(s)
    ensures a.CommitOk? ==> Jumped(Step(s, a)) <= s.flights.Keys - {a.n}
  {
    if a.Spawn? {
      assert !Below(s, s.loop.slot);
    }
  }

  lemma StepWindow(s: State, a: Action)
    requires Shape(s) && PermitsConserved(s) && WindowBounded(s) && Enabled(s, a)
    ensures WindowBounded(Step(s, a))
  {
    StepJumped(s, a);
    if a.CommitOk? {
      SubsetNotLarger(Jumped(Step(s, a)), s.flights.Keys - {a.n});
    } else {
      SubsetNotLarger(Jumped(Step(s, a)), Jumped(s));
    }
  }

  lemma UnionSize<T>(a: set<T>, b: set<T>)
    ensures |a + b| <= |a| + |b|
  {
    assert a + b == a + (b - a);
    assert |a + (b - a)| == |a| + |b - a|;
    SubsetNotLarger(b - a, b);
  }

  lemma PassedOverSize(s: State)
    ensures |PassedOver(s)| <= |Jumped(s)|
  {
    var slotOf := (n: nat) => if n in s.flights then s.flights[n].slot else Slot(0, 0);
    assert PassedOver(s) == set n | n in Jumped(s) :: slotOf(n);
    ImageNotLarger(Jumped(s), PassedOver(s), slotOf);
  }

  lemma CrashSkips(s: State)
    ensures |Step(s, Crash).skipped| <= |s.skipped| + |Jumped(s)|
  {
    PassedOverSize(s);
    UnionSize(s.skipped, PassedOver(s));
  }

  lemma OneMoreCrash(max: nat, crashes: nat, jumped: nat)
    requires jumped == 0 || jumped < max
    ensures MaxSkips(max, crashes) + jumped <= MaxSkips(max, crashes + 1)
  {
    if max > 0 {
      assert (max - 1) * (crashes + 1) == (max - 1) * crashes + (max - 1);
    }
  }

  /** A crash skips no more messages than were passed over. */
  lemma StepSkips(s: State, a: Action)
    requires WindowBounded(s) && SkipsBounded(s) && Enabled(s, a)
    ensures SkipsBounded(Step(s, a))
  {
    if a.Crash? {
      CrashSkips(s);
      OneMoreCrash(s.max, s.crashes, |Jumped(s)|);
    }
  }

  lemma StepShape(s: State, a: Action)
    requires Shape(s) && Enabled(s, a)
    ensures Shape(Step(s, a))
  {
    if OfLoop(a) {
      LoopRanges(s, a);
      LoopFlights(s, a);
      LoopKeepsNewest(s, a);
    } else {
      TaskShape(s, a);
    }
  }

  /** Every action keeps the invariant. */
  lemma StepInv(s: State, a: Action)
    requires Inv(s) && Enabled(s, a)
    ensures Inv(Step(s, a))
  {
    StepShape(s, a);
    StepPermits(s, a);
    StepCommits(s, a);
    StepBehind(s, a);
    StepAccounted(s, a);
    StepWindow(s, a);
    StepSkips(s, a);
  }

  lemma {:induction false} RunInv(s: State, run: seq<Action>)
    requires Inv(s) && Valid(s, run)
    ensures Inv(Exec(s, run))
  {
    if run != [] {
      RunInv(s, run[..|run| - 1]);
      StepInv(Exec(s, run[..|run| - 1]), run[|run| - 1]);
    }
  }

  // ----------------------------------------------------------------------------------- the theorems

  /** Over any run: permits are conserved, at most `max - 1` unprocessed in-flight messages lie below their
      committed offsets, and crashes have skipped at most `max - 1` messages each. */
  lemma SkipWindow(max: nat, partitions: nat, run: seq<Action>)
    requires Valid(Initial(max, partitions), run)
    ensures var s := Exec(Initial(max, partitions), run);
            && PermitsConserved(s)
            && (Jumped(s) == {} || |Jumped(s)| < max)
            && |s.skipped| <= MaxSkips(max, s.crashes)
            && CommitsJustified(s)
  {
    InitialInv(max, partitions);
    RunInv(Initial(max, partitions), run);
    MaxFixed(Initial(max, partitions), run);
  }

  lemma {:induction false} MaxFixed(s: State, run: seq<Action>)
    requires Valid(s, run)
    ensures Exec(s, run).max == s.max && |Exec(s, run).ends| == |s.ends|
  {
    if run != [] {
      MaxFixed(s, run[..|run| - 1]);
    }
  }

  /** What the committed offset says: in every reachable state, of a message below it `process` has returned
      (maybe only to say that its key was taken), or raised, or it was skipped at a crash, or it is one of the
      few in flight that a commit has passed over. */
  lemma BelowCommitted(max: nat, partitions: nat, run: seq<Action>, slot: Slot)
    requires Valid(Initial(max, partitions), run) && Below(Exec(Initial(max, partitions), run), slot)
    ensures var s := Exec(Initial(max, partitions), run);
            || slot in s.settled || slot in s.escaped || slot in s.skipped
            || exists n :: n in Jumped(s) && s.flights[n].slot == slot
  {
    InitialInv(max, partitions);
    RunInv(Initial(max, partitions), run);
    var s := Exec(Initial(max, partitions), run);
    assert Accounted(s, slot);
    if InFlight(s, slot) {
      var n :| n in s.flights && s.flights[n].phase.Processing? && s.flights[n].slot == slot;
      assert n in Jumped(s);
    }
  }

  /** Without a crash, or with a single permit, no restart begins past a message whose `process` never ended.
      That alone does not deliver the message: its key may be taken by a task that died. */
  lemma NoSkips(max: nat, partitions: nat, run: seq<Action>)
    requires Valid(Initial(max, partitions), run)
    requires Exec(Initial(max, partitions), run).crashes == 0 || max <= 1
    ensures Exec(Initial(max, partitions), run).skipped == {}
  {
    SkipWindow(max, partitions, run);
    NoBudget(max, Exec(Initial(max, partitions), run).crashes);
  }

  lemma NoBudget(max: nat, crashes: nat)
    requires crashes == 0 || max <= 1
    ensures MaxSkips(max, crashes) == 0
  {
    if max == 1 {
      assert (max - 1) * crashes == 0;
    }
  }

  lemma StepKeepsSkipped(s: State, a: Action, slot: Slot)
    requires Inv(s) && Enabled(s, a) && slot in s.skipped && slot !in s.settled
    ensures slot in Step(s, a).skipped && slot !in Step(s, a).settled
  {
    if a.Return? {
      assert InSession(s, s.flights[a.n].slot);
    }
  }

  /** A skipped message is lost for good: no continuation of the run ever processes it. */
  lemma {:induction false} SkippedForever(s: State, run: seq<Action>, slot: Slot)
    requires Inv(s) && Valid(s, run) && slot in s.skipped && slot !in s.settled
    ensures slot in Exec(s, run).skipped && slot !in Exec(s, run).settled
  {
    if run != [] {
      var before := run[..|run| - 1];
      SkippedForever(s, before, slot);
      RunInv(s, before);
      StepKeepsSkipped(Exec(s, before), run[|run| - 1], slot);
    }
  }

  // ------------------------------------------------------------------------- the bound is attained

  lemma Extend(s: State, run: seq<Action>, a: Action)
    requires Valid(s, run) && Enabled(Exec(s, run), a)
    ensures Valid(s, run + [a]) && Exec(s, run + [a]) == Step(Exec(s, run), a)
  {
    assert (run + [a])[..|run|] == run;
  }

  /** `k` messages of one partition appended, fetched and in flight. */
  function Filled(max: nat, k: nat): State
    requires k <= max
  {
    State(max, [k], max - k, Idle, map n | 0 <= n < k :: Flight(Slot(0, n), Processing), k, [k], [0], [0],
          {}, {}, {}, 0, k)
  }

  lemma FillOne(max: nat, k: nat)
    requires k < max
    ensures var s := Filled(max, k);
            && Enabled(s, Append(0)) && Enabled(Step(s, Append(0)), Fetch(0))
            && Enabled(Step(Step(s, Append(0)), Fetch(0)), Acquire)
            && Enabled(Step(Step(Step(s, Append(0)), Fetch(0)), Acquire), Spawn)
            && Step(Step(Step(Step(s, Append(0)), Fetch(0)), Acquire), Spawn) == Filled(max, k + 1)
  {
    var s := Filled(max, k);
    var s1 := Step(s, Append(0));
    assert s1.ends == [k + 1];
    var s2 := Step(s1, Fetch(0));
    assert s2.position == [k + 1] && s2.loop == Fetched(Slot(0, k));
    var s3 := Step(s2, Acquire);
    var s4 := Step(s3, Spawn);
    assert s4.flights == Filled(max, k + 1).flights;
  }

  /** Four more steps put one more message in flight. */
  lemma FillSteps(s: State, run: seq<Action>, max: nat, k: nat) returns (longer: seq<Action>)
    requires k < max && Valid(s, run) && Exec(s, run) == Filled(max, k)
    ensures Valid(s, longer) && Exec(s, longer) == Filled(max, k + 1)
    ensures longer == run + [Append(0)] + [Fetch(0)] + [Acquire] + [Spawn]
  {
    FillOne(max, k);
    Extend(s, run, Append(0));
    Extend(s, run + [Append(0)], Fetch(0));
    var two := run + [Append(0)] + [Fetch(0)];
    Extend(s, two, Acquire);
    Extend(s, two + [Acquire], Spawn);
    longer := two + [Acquire] + [Spawn];
  }

  lemma {:induction false} Fill(max: nat, k: nat) returns (run: seq<Action>)
    requires k <= max
    ensures Valid(Initial(max, 1), run) && Exec(Initial(max, 1), run) == Filled(max, k)
    ensures forall i :: 0 <= i < |run| ==> OfLoop(run[i])
  {
    if k == 0 {
      run := [];
      assert Zeros(1) == [0];
      assert Filled(max, 0).flights == map[];
    } else {
      run := Fill(max, k - 1);
      run := FillSteps(Initial(max, 1), run, max, k - 1);
    }
  }

  /** The bound cannot be lowered: with any positive number of permits, one crash can skip `max - 1`
      messages of which `process` never ended. */
  lemma SkipBoundAttained(max: nat) returns (run: seq<Action>)
    requires max >= 1
    ensures Valid(Initial(max, 1), run)
    ensures var s := Exec(Initial(max, 1), run);
            s.crashes == 1 && |s.skipped| == max - 1 && s.skipped !! (s.settled + s.escaped)
  {
    run := Fill(max, max);
    var s, last := Filled(max, max), max - 1;
    Extend(Initial(max, 1), run, Return(last));
    run := run + [Return(last)];
    Extend(Initial(max, 1), run, CommitOk(last));
    run := run + [CommitOk(last)];
    var t := Exec(Initial(max, 1), run);
    Extend(Initial(max, 1), run, Crash);
    run := run + [Crash];
    FilledPassedOver(t, max);
    FirstSlotsSize(last);
  }

  lemma FilledPassedOver(t: State, max: nat)
    requires max >= 1 && t.committed == [max]
    requires t.flights == Filled(max, max).flights[max - 1 := Flight(Slot(0, max - 1), Finishing)]
    ensures PassedOver(t) == FirstSlots(max - 1)
  {
    forall n: nat | n < max - 1
      ensures Slot(0, n) in PassedOver(t)
    {
      assert n in Jumped(t) && t.flights[n].slot == Slot(0, n);
    }
    FirstSlotsMembers(max - 1);
  }

  function FirstSlots(k: nat): set<Slot> {
    if k == 0 then {} else FirstSlots(k - 1) + {Slot(0, k - 1)}
  }

  lemma {:induction false} FirstSlotsMembers(k: nat)
    ensures forall slot: Slot :: slot in FirstSlots(k) <==> slot.partition == 0 && slot.offset < k
  {
    if k > 0 {
      FirstSlotsMembers(k - 1);
    }
  }

  lemma {:induction false} FirstSlotsSize(k: nat)
    ensures |FirstSlots(k)| == k
  {
    if k > 0 {
      FirstSlotsSize(k - 1);
      FirstSlotsMembers(k - 1);
    }
  }

  // --------------------------------------------------------------------------- commits out of order

  /** Of messages in flight together a later one may commit first; when an earlier one then commits, the
      committed offset moves back to it. */
  lemma CommitMovesBack(max: nat, i: nat, j: nat)
    returns (run: seq<Action>, once: seq<Action>, twice: seq<Action>)
    requires i < j < max
    ensures forall k :: 0 <= k < |run| ==> OfLoop(run[k])
    ensures once == run + [Return(j), CommitOk(j)] && twice == once + [Return(i), CommitOk(i)]
    ensures Valid(Initial(max, 1), once) && Exec(Initial(max, 1), once).committed == [j + 1]
    ensures Valid(Initial(max, 1), twice) && Exec(Initial(max, 1), twice).committed == [i + 1]
  {
    run := Fill(max, max);
    once, twice := CommitsTwice(Initial(max, 1), run, i, j);
  }

  lemma CommitsTwice(s: State, run: seq<Action>, i: nat, j: nat) returns (once: seq<Action>, twice: seq<Action>)
    requires i != j && Valid(s, run) && InPhase(Exec(s, run), i, Processing) && InPhase(Exec(s, run), j, Processing)
    requires var u := Exec(s, run);
             u.flights[i].slot == Slot(0, i) && u.flights[j].slot == Slot(0, j) && |u.committed| == 1
    ensures once == run + [Return(j), CommitOk(j)] && Valid(s, once) && Exec(s, once).committed == [j + 1]
    ensures twice == once + [Return(i), CommitOk(i)] && Valid(s, twice) && Exec(s, twice).committed == [i + 1]
  {
    once := ReturnsAndCommits(s, run, j);
    OneCommitted(Exec(s, run), Exec(s, once), j);
    twice := ReturnsAndCommits(s, once, i);
    OneCommitted(Exec(s, once), Exec(s, twice), i);
  }

  lemma OneCommitted(u: State, v: State, n: nat)
    requires n in u.flights && u.flights[n].slot == Slot(0, n) && |u.committed| == 1 && OnlyCommitted(u, v, n)
    ensures v.committed == [n + 1]
  {
  }

  /** A task whose message is processed can commit its own offset plus one, whatever was committed before. */
  lemma ReturnsAndCommits(s: State, run: seq<Action>, n: nat) returns (longer: seq<Action>)
    requires Valid(s, run) && InPhase(Exec(s, run), n, Processing)
    requires Exec(s, run).flights[n].slot.partition < |Exec(s, run).committed|
    ensures longer == run + [Return(n), CommitOk(n)] && Valid(s, longer)
    ensures OnlyCommitted(Exec(s, run), Exec(s, longer), n)
  {
    Extend(s, run, Return(n));
    Extend(s, run + [Return(n)], CommitOk(n));
    longer := run + [Return(n)] + [CommitOk(n)];
  }

  /** The offset after the message of task `n` is committed; other partitions and other tasks are as before. */
  ghost predicate OnlyCommitted(before: State, after: State, n: nat)
    requires n in before.flights
  {
    var slot := before.flights[n].slot;
    && |after.committed| == |before.committed|
    && (slot.partition < |after.committed| ==> after.committed[slot.partition] == slot.offset + 1)
    && (forall p :: 0 <= p < |after.committed| && p != slot.partition ==> after.committed[p] == before.committed[p])
    && (forall m :: m != n && m in before.flights ==> m in after.flights && after.flights[m] == before.flights[m])
  }

  // ----------------------------------------------------------------------------------- the program

  /** The consumer object, the semaphore and the task set, updated in place. */
  class ConsumerLoop {
    const max: nat
    var ends: seq<nat>
    var permits: nat
    var loop: Loop
    var flights: map<nat, Flight>
    var next: nat
    var position: seq<nat>
    var committed: seq<nat>
    var consumed: nat
    ghost var start: seq<nat>
    ghost var settled: set<Slot>
    ghost var escaped: set<Slot>
    ghost var skipped: set<Slot>
    ghost var crashes: nat

    ghost function View(): State
      reads this
    {
      State(max, ends, permits, loop, flights, next, position, committed, start, settled, escaped, skipped,
            crashes, consumed)
    }

    constructor (max: nat, partitions: nat)
      ensures View() == Initial(max, partitions)
    {
      this.max, permits, loop, flights, next, consumed := max, max, Idle, map[], 0, 0;
      ends, position, committed, start := Zeros(partitions), Zeros(partitions), Zeros(partitions), Zeros(partitions);
      settled, escaped, skipped, crashes := {}, {}, {}, 0;
    }

    /** One turn of the `async for` loop up to its first suspension: the next message of partition `p` is
        taken, and if a permit is free a task is created for it. */
    method Turn(p: nat) returns (spawned: bool)
      requires Enabled(View(), Fetch(p))
      modifies this
      ensures spawned <==> old(permits) > 0
      ensures View() == if !spawned then Step(old(View()), Fetch(p))
                        else Step(Step(Step(old(View()), Fetch(p)), Acquire), Spawn)
      ensures position == old(position)[p := old(position[p]) + 1] && committed == old(committed)
      ensures consumed == old(consumed) + 1
      ensures if spawned then
                && loop.Idle? && permits == old(permits) - 1
                && flights == old(flights)[old(next) := Flight(Slot(p, old(position[p])), Processing)]
              else
                loop == Fetched(Slot(p, old(position[p]))) && permits == 0 && flights == old(flights)
    {
      var slot := Slot(p, position[p]);
      position := position[p := position[p] + 1];
      consumed := consumed + 1;
      loop := Fetched(slot);
      if permits == 0 {
        return false;
      }
      permits := permits - 1;
      flights := flights[next := Flight(slot, Processing)];
      next := next + 1;
      loop := Idle;
      spawned := true;
    }

    /** The loop wakes up when a permit is free again, and creates the task it was waiting for. */
    method Resume()
      requires loop.Fetched? && permits > 0
      modifies this
      ensures View() == Step(Step(old(View()), Acquire), Spawn)
      ensures loop.Idle? && permits == old(permits) - 1
      ensures flights == old(flights)[old(next) := Flight(old(loop).slot, Processing)]
    {
      permits := permits - 1;
      flights := flights[next := Flight(loop.slot, Processing)];
      next := next + 1;
      loop := Idle;
    }

    /** `process` is over: it returned, or an exception escaped. */
    method Settle(n: nat, returned: bool)
      requires InPhase(View(), n, Processing)
      modifies this`flights, this`settled, this`escaped
      ensures View() == Step(old(View()), if returned then Return(n) else Escape(n))
      ensures flights == old(flights)[n := Flight(old(flights)[n].slot, if returned then Committing else Finishing)]
    {
      if returned {
        settled := settled + {flights[n].slot};
        flights := flights[n := flights[n].(phase := Committing)];
      } else {
        escaped := escaped + {flights[n].slot};
        flights := flights[n := flights[n].(phase := Finishing)];
      }
    }

    /** `consumer.commit({tp: offset + 1})`; a failing commit raises into the `finally` clause. */
    method Commit(n: nat, ok: bool)
      requires InPhase(View(), n, Committing) && flights[n].slot.partition < |committed|
      modifies this`flights, this`committed
      ensures View() == Step(old(View()), if ok then CommitOk(n) else CommitFail(n))
      ensures var slot := old(flights)[n].slot;
              && |committed| == |old(committed)|
              && (ok ==> committed[slot.partition] == slot.offset + 1)
              && (forall p :: 0 <= p < |committed| && (!ok || p != slot.partition) ==>
                    committed[p] == old(committed)[p])
      ensures InPhase(View(), n, Finishing) && flights.Keys == old(flights).Keys
    {
      var slot := flights[n].slot;
      if ok {
        committed := committed[slot.partition := slot.offset + 1];
      }
      flights := flights[n := flights[n].(phase := Finishing)];
    }

    /** The `finally` clause and the done callback: the permit goes back, the task is discarded. */
    method Release(n: nat)
      requires InPhase(View(), n, Finishing)
      modifies this`flights, this`permits
      ensures View() == Step(old(View()), Finish(n))
      ensures permits == old(permits) + 1 && flights == old(flights) - {n}
    {
      permits := permits + 1;
      flights := flights - {n};
    }

    /** `_task_wrapper` after `process`: commit if it returned, and give the permit back whether or not
        anything raised. */
    method TaskWrapper(n: nat, returned: bool, commitOk: bool)
      requires InPhase(View(), n, Processing) && flights[n].slot.partition < |committed|
      modifies this`flights, this`permits, this`settled, this`escaped, this`committed
      ensures View() == if !returned then Step(Step(old(View()), Escape(n)), Finish(n))
                        else Step(Step(Step(old(View()), Return(n)), if commitOk then CommitOk(n) else CommitFail(n)),
                                  Finish(n))
      ensures permits == old(permits) + 1 && flights == old(flights) - {n} && |committed| == |old(committed)|
      ensures var slot := old(flights)[n].slot;
              && (returned && commitOk ==> committed[slot.partition] == slot.offset + 1)
              && (forall p :: 0 <= p < |committed| && (!(returned && commitOk) || p != slot.partition) ==>
                    committed[p] == old(committed)[p])
    {
      Settle(n, returned);
      if returned {
        Commit(n, commitOk);
      }
      Release(n);
    }

    /** Stop, gracefully or not, and start again: tasks are not drained, the semaphore is new, and fetching
        resumes at the committed offsets. */
    method Restart()
      modifies this
      ensures View() == Step(old(View()), Crash)
      ensures permits == max && loop.Idle? && flights == map[] && consumed == 0
      ensures position == committed == old(committed)
    {
      ghost var after := Step(View(), Crash);
      skipped := skipped + PassedOver(View());
      assert skipped == after.skipped;
      crashes := crashes + 1;
      permits, loop, flights, consumed := max, Idle, map[], 0;
      position, start := committed, committed;
    }
  }
}
