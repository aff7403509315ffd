/** The other half of at-least-once delivery: a message at risk when the worker restarts can really be lost, and
    the shortest run that loses one. */
module Losses {
  import opened Models
  import opened Database
  import opened Idempotency
  import opened Retry
  import opened DeadLetters
  import opened Handlers
  import opened Tasks
  import opened Worker
  import opened Delivery
  import C = Consumer
  import TaskLaws
  import Solo

  // ------------------------------------------------------------------------------- runs of a session

  /** A run of one session, and where it leads. */
  ghost predicate LeadsTo(t: System, run: seq<Event>, u: System) {
    Possible(t, run) && NoRestart(run) && Worker.After(t, run) == u && Worker.Inv(u)
  }

  lemma On(t: System, run: seq<Event>, u: System, e: Event) returns (longer: seq<Event>)
    requires LeadsTo(t, run, u) && CanHappen(u, e) && !e.Restart?
    ensures LeadsTo(t, longer, Next(u, e))
  {
    longer := run + [e];
    assert longer[..|run|] == run;
    NextInv(u, e);
  }

  /** The loop and the log are as they were, and so are the tasks' places, if not their phases. */
  predicate SameLoop(s: System, u: System) {
    && u.log == s.log && u.c.max == s.c.max && u.c.loop == s.c.loop && u.c.position == s.c.position
    && u.c.flights.Keys == s.c.flights.Keys
  }

  lemma WorkKeepsLoop(s: System, a: Action)
    requires CanHappen(s, Work(a))
    ensures SameLoop(s, Next(s, Work(a))) && Next(s, Work(a)).w == Step(s.w, a)
  {
  }

  /** What a task can do by itself, it can do in the worker. */
  lemma {:induction false} InWorker(t: System, run: seq<Event>, s: System, works: seq<Action>, n: nat)
    returns (longer: seq<Event>, u: System)
    requires LeadsTo(t, run, s) && Tasks.Valid(s.w, works) && Solo.OnlyBy(works, n)
    ensures LeadsTo(t, longer, u) && SameLoop(s, u) && u.w == Tasks.Exec(s.w, works)
  {
    if works == [] {
      longer, u := run, s;
    } else {
      var a := works[|works| - 1];
      longer, u := InWorker(t, run, s, works[..|works| - 1], n);
      assert Solo.StepOf(a, n);
      TaskNeverBlocked(u, a);
      WorkKeepsLoop(u, a);
      longer := On(t, longer, u, Work(a));
      u := Next(u, Work(a));
    }
  }

  // --------------------------------------------------------------------- one message, from fetch to finish

  /** The loop holds message `o` of partition `p`, with a permit or without. */
  predicate Loaded(v: System, u: System, p: nat, loop: C.Loop)
    requires p < |u.c.position|
  {
    && v.log == u.log && v.w == u.w && v.c.max == u.c.max && v.c.loop == loop
    && v.c.position == u.c.position[p := u.c.position[p] + 1] && v.c.flights == u.c.flights
  }

  lemma Fetches(u: System, p: nat)
    requires CanHappen(u, Fetch(p))
    ensures p < |u.c.position|
    ensures Loaded(Next(u, Fetch(p)), u, p, C.Fetched(C.Slot(p, u.c.position[p])))
    ensures Next(u, Fetch(p)).c.permits == u.c.permits
  {
  }

  lemma Acquires(v: System, u: System, p: nat, slot: C.Slot)
    requires p < |u.c.position| && Loaded(v, u, p, C.Fetched(slot)) && v.c.permits > 0
    ensures CanHappen(v, Acquire) && Loaded(Next(v, Acquire), u, p, C.Permitted(slot))
  {
  }

  lemma Creates(v: System, u: System, p: nat, slot: C.Slot)
    requires p < |u.c.position| && Loaded(v, u, p, C.Permitted(slot)) && InLog(u.log, slot)
    requires u.c.flights == map[] && v.c.next == |u.w.msgs|
    ensures CanHappen(v, Create)
    ensures var x := Next(v, Create);
            && x.log == u.log && x.c.max == u.c.max && x.c.loop.Idle?
            && x.c.position == u.c.position[p := u.c.position[p] + 1] && x.c.flights.Keys == {|u.w.msgs|}
            && x.w == Step(u.w, Spawn(MessageAt(u.log, slot)))
  {
  }

  lemma MayFetch(u: System, p: nat)
    requires Worker.Inv(u) && AtRest(u) && p < |u.c.position| && u.c.position[p] < u.c.ends[p]
    ensures CanHappen(u, Fetch(p)) && InLog(u.log, C.Slot(p, u.c.position[p])) && u.c.permits == u.c.max
  {
  }

  lemma SerialsMatch(u: System)
    requires Worker.Inv(u)
    ensures u.c.next == |u.w.msgs|
  {
  }

  /** Fetch the next message of a partition and create its task. */
  lemma Begin(t: System, run: seq<Event>, u: System, p: nat) returns (longer: seq<Event>, v: System)
    requires LeadsTo(t, run, u) && AtRest(u) && u.c.max >= 1 && p < |u.c.position| && u.c.position[p] < u.c.ends[p]
    ensures LeadsTo(t, longer, v)
    ensures v.log == u.log && v.c.max == u.c.max && v.c.loop.Idle?
    ensures v.c.position == u.c.position[p := u.c.position[p] + 1] && v.c.flights.Keys == {|u.w.msgs|}
    ensures InLog(u.log, C.Slot(p, u.c.position[p]))
    ensures v.w == Step(u.w, Spawn(MessageAt(u.log, C.Slot(p, u.c.position[p]))))
  {
    var slot := C.Slot(p, u.c.position[p]);
    MayFetch(u, p);
    Fetches(u, p);
    longer := On(t, run, u, Fetch(p));
    v := Next(u, Fetch(p));
    Acquires(v, u, p, slot);
    longer := On(t, longer, v, Acquire);
    v := Next(v, Acquire);
    SerialsMatch(v);
    Creates(v, u, p, slot);
    longer := On(t, longer, v, Create);
    v := Next(v, Create);
  }

  /** Nothing but the phase of a task and the set of tasks differs. */
  predicate SameDeeds(w: World, u: World) {
    u.store == w.store && u.msgs == w.msgs && u.completed == w.completed && u.tried == w.tried
  }

  lemma CommitFails(u: System, n: nat)
    requires CanHappen(u, CommitFail(n))
    ensures var v := Next(u, CommitFail(n)); SameLoop(u, v) && v.w == u.w && C.InPhase(v.c, n, C.Finishing)
  {
  }

  lemma MayFinish(u: System, n: nat)
    requires Matched(u, n) && C.InPhase(u.c, n, C.Finishing)
    ensures CanHappen(u, Finish(n))
  {
  }

  lemma Finishes(u: System, n: nat)
    requires CanHappen(u, Finish(n)) && u.c.flights.Keys == {n} && u.c.loop.Idle?
    ensures var v := Next(u, Finish(n));
            && AtRest(v) && SameDeeds(u.w, v.w) && v.log == u.log && v.c.max == u.c.max
            && v.c.position == u.c.position
  {
  }

  lemma OverPhase(u: System, n: nat)
    requires Matched(u, n) && n in u.w.tasks && (u.w.tasks[n].Over? || u.w.tasks[n].Thrown?)
    ensures C.InPhase(u.c, n, C.Committing) || C.InPhase(u.c, n, C.Finishing)
    ensures C.InPhase(u.c, n, C.Committing) ==> CanHappen(u, CommitFail(n))
  {
  }

  /** The only task is over: let its commit fail, if it has got that far, … */
  lemma Commits(t: System, run: seq<Event>, u: System, n: nat) returns (longer: seq<Event>, v: System)
    requires LeadsTo(t, run, u) && n in u.w.tasks && (u.w.tasks[n].Over? || u.w.tasks[n].Thrown?)
    ensures LeadsTo(t, longer, v) && SameLoop(u, v) && v.w == u.w && C.InPhase(v.c, n, C.Finishing)
  {
    assert Matched(u, n);
    OverPhase(u, n);
    longer, v := run, u;
    if C.InPhase(u.c, n, C.Committing) {
      CommitFails(u, n);
      longer := On(t, run, u, CommitFail(n));
      v := Next(u, CommitFail(n));
    }
  }

  /** … and finish it. */
  lemma End(t: System, run: seq<Event>, u: System, n: nat) returns (longer: seq<Event>, v: System)
    requires LeadsTo(t, run, u) && u.c.flights.Keys == {n} && u.c.loop.Idle?
    requires n in u.w.tasks && (u.w.tasks[n].Over? || u.w.tasks[n].Thrown?)
    ensures LeadsTo(t, longer, v) && AtRest(v) && SameDeeds(u.w, v.w) && v.log == u.log && v.c.max == u.c.max
    ensures v.c.position == u.c.position
  {
    var x;
    longer, x := Commits(t, run, u, n);
    assert Matched(x, n);
    MayFinish(x, n);
    Finishes(x, n);
    longer := On(t, longer, x, Finish(n));
    v := Next(x, Finish(n));
  }

  // ----------------------------------------------------------------------- processing another message

  const GoodWeather := Script(Answered, k => Returned(0), k => 0.0, LostBefore, r => PublishReply.Delivered,
                              r => true, Upserted)

  lemma {:induction false} OthersKept(w: World, run: seq<Action>, n: nat, i: nat)
    requires Tasks.Valid(w, run) && Solo.OnlyBy(run, n) && i != n
    ensures var u := Tasks.Exec(w, run);
            (i in u.completed <==> i in w.completed) && (i in u.tried <==> i in w.tried)
  {
    if run != [] {
      var before, a := run[..|run| - 1], run[|run| - 1];
      OthersKept(w, before, n, i);
      assert Solo.StepOf(a, n);
      OnlyActorTouched(Tasks.Exec(w, before), a, i);
    }
  }

  lemma KeysStay(m: Input, s: Store, p: Policy)
    ensures s.keys <= Processed(m, s, GoodWeather, p).store.keys
  {
    ChainIsFlat(m, s, GoodWeather, p);
  }

  lemma StaysUnsettled(w: World, u: World, n: nat, m: Input)
    requires u.msgs == w.msgs && !Settled(w, m) && forall i: nat :: i != n ==> (Closed(u, i) <==> Closed(w, i))
    requires n < |u.msgs| ==> !Covers(m, u.msgs[n])
    ensures !Settled(u, m)
  {
    forall i: nat
      ensures !(i < |u.msgs| && Covers(m, u.msgs[i]) && Closed(u, i))
    {
      assert !(i < |w.msgs| && Covers(m, w.msgs[i]) && Closed(w, i));
    }
  }

  /** A task that claims another key leaves an unsettled message unsettled and its key taken. */
  lemma OtherTask(w: World, n: nat, m: Input) returns (run: seq<Action>)
    requires InFlight(w, n) && w.tasks[n].AtClaim? && KeyTaken(w, m) && !Settled(w, m)
    requires ClaimKey(w.msgs[n].raw) != ClaimKey(m.raw)
    ensures Tasks.Valid(w, run) && Solo.OnlyBy(run, n)
    ensures var u := Tasks.Exec(w, run);
            && n in u.tasks && (u.tasks[n].Over? || u.tasks[n].Thrown?) && u.msgs == w.msgs
            && KeyTaken(u, m) && !Settled(u, m)
  {
    var p := DEFAULT_POLICY.(maxAttempts := w.maxAttempts);
    run := Solo.UninterruptedIsProcess(w, n, GoodWeather, p);
    KeysStay(w.msgs[n], w.store, p);
    forall i: nat | i != n
      ensures Closed(Tasks.Exec(w, run), i) <==> Closed(w, i)
    {
      OthersKept(w, run, n, i);
    }
    StaysUnsettled(w, Tasks.Exec(w, run), n, m);
  }

  /** A task that claims the same key is taken for a duplicate. */
  lemma SameKeyTask(w: World, n: nat, m: Input)
    requires InFlight(w, n) && w.tasks[n].AtClaim? && KeyTaken(w, m) && !Settled(w, m)
    requires ClaimKey(w.msgs[n].raw) == ClaimKey(m.raw)
    ensures var u := Step(w, Action.Claim(n, Answered));
            n in u.tasks && u.tasks[n].Over? && u.msgs == w.msgs && KeyTaken(u, m) && !Settled(u, m)
  {
  }

  lemma AnyTask(w: World, n: nat, m: Input) returns (run: seq<Action>)
    requires InFlight(w, n) && w.tasks[n].AtClaim? && KeyTaken(w, m) && !Settled(w, m)
    ensures Tasks.Valid(w, run) && Solo.OnlyBy(run, n)
    ensures var u := Tasks.Exec(w, run);
            && n in u.tasks && (u.tasks[n].Over? || u.tasks[n].Thrown?) && u.msgs == w.msgs
            && KeyTaken(u, m) && !Settled(u, m)
  {
    if ClaimKey(w.msgs[n].raw) == ClaimKey(m.raw) {
      SameKeyTask(w, n, m);
      Tasks.Extend(w, [], Action.Claim(n, Answered));
      run := [] + [Action.Claim(n, Answered)];
    } else {
      run := OtherTask(w, n, m);
    }
  }

  /** At rest, with an unsettled message whose key is taken. */
  ghost predicate Stuck(u: System, m: Input) {
    AtRest(u) && u.c.max >= 1 && KeyTaken(u.w, m) && !Settled(u.w, m)
  }

  lemma SpawnUnsettled(w: World, o: Input, m: Input)
    requires TaskLaws.Inv(w) && !Settled(w, m)
    ensures !Settled(Step(w, Spawn(o)), m)
  {
    assert HistoryOf(w, |w.msgs|);
  }

  lemma UnsettledStays(w: World, u: World, m: Input)
    requires SameDeeds(w, u) && KeyTaken(w, m) && !Settled(w, m)
    ensures KeyTaken(u, m) && !Settled(u, m)
  {
  }

  /** The worker can consume one more message and be as stuck as before. */
  lemma ConsumeOne(t: System, run: seq<Event>, u: System, p: nat, m: Input)
    returns (longer: seq<Event>, v: System)
    requires LeadsTo(t, run, u) && Stuck(u, m) && p < |u.c.position| && u.c.position[p] < u.c.ends[p]
    ensures LeadsTo(t, longer, v) && Stuck(v, m) && v.log == u.log
    ensures v.c.position == u.c.position[p := u.c.position[p] + 1]
  {
    var n := |u.w.msgs|;
    longer, v := Begin(t, run, u, p);
    SpawnUnsettled(u.w, MessageAt(u.log, C.Slot(p, u.c.position[p])), m);
    var works := AnyTask(v.w, n, m);
    longer, v := InWorker(t, longer, v, works, n);
    var before := v;
    longer, v := End(t, longer, v, n);
    UnsettledStays(before.w, v.w, m);
  }

  lemma {:induction false} ConsumeUpTo(t: System, run: seq<Event>, u: System, slot: C.Slot, m: Input)
    returns (longer: seq<Event>, v: System)
    requires LeadsTo(t, run, u) && Stuck(u, m) && InLog(u.log, slot)
    requires slot.partition < |u.c.position| && u.c.position[slot.partition] <= slot.offset + 1
    ensures LeadsTo(t, longer, v) && Stuck(v, m) && v.log == u.log && Reached(v, slot)
    decreases slot.offset + 1 - u.c.position[slot.partition]
  {
    longer, v := run, u;
    if u.c.position[slot.partition] <= slot.offset {
      longer, v := ConsumeOne(t, run, u, slot.partition, m);
      longer, v := ConsumeUpTo(t, longer, v, slot, m);
    }
  }

  /** A session that begins with a message at risk may end without delivering it. */
  lemma RiskLoses(t: System, slot: C.Slot) returns (run: seq<Event>)
    requires Beginning(t) && t.c.max >= 1 && AtRisk(t, slot)
    ensures Possible(t, run) && NoRestart(run) && AtRest(Worker.After(t, run))
    ensures Reached(Worker.After(t, run), slot) && !DeliveredAt(Worker.After(t, run), slot)
  {
    var m := MessageAt(t.log, slot);
    DeliveredIffSettled(t.w, m);
    run := [];
    if !C.Below(t.c, slot) {
      var u;
      run, u := ConsumeUpTo(t, [], t, slot, m);
      DeliveredIffSettled(u.w, m);
    }
  }

  lemma ExactFrom(t: System)
    requires Beginning(t) && t.c.max >= 1
    ensures LosesNothing(t) <==> NothingAtRisk(t)
  {
    if NothingAtRisk(t) {
      SafeBeginning(t);
    } else {
      var slot :| AtRisk(t, slot);
      var losing := RiskLoses(t, slot);
      assert !LosesNothing(t);
    }
  }

  lemma NextMax(s: System, e: Event)
    requires CanHappen(s, e)
    ensures Next(s, e).c.max == s.c.max
  {
  }

  lemma {:induction false} MaxKept(s: System, run: seq<Event>)
    requires Possible(s, run)
    ensures Worker.After(s, run).c.max == s.c.max
  {
    if run != [] {
      MaxKept(s, run[..|run| - 1]);
      NextMax(Worker.After(s, run[..|run| - 1]), run[|run| - 1]);
    }
  }

  lemma ExactAt(s: System)
    requires Worker.Inv(s) && s.c.max >= 1
    ensures LosesNothing(Next(s, Restart)) <==> NothingAtRisk(s)
  {
    RestartBegins(s);
    NextMax(s, Restart);
    ExactFrom(Next(s, Restart));
  }

  /** Exactly which restarts lose a message: in every reachable state of a worker that may run tasks at all, the
      session after a restart delivers whatever it reaches, for all that can happen in it, if and only if the
      restart finds nothing at risk. */
  lemma RestartExact(max: nat, partitions: nat, maxAttempts: int, run: seq<Event>)
    requires max >= 1 && Possible(Start(max, partitions, maxAttempts), run)
    ensures var s := Worker.After(Start(max, partitions, maxAttempts), run);
            LosesNothing(Next(s, Restart)) <==> NothingAtRisk(s)
  {
    AfterInv(max, partitions, maxAttempts, run);
    MaxKept(Start(max, partitions, maxAttempts), run);
    ExactAt(Worker.After(Start(max, partitions, maxAttempts), run));
  }

  // ------------------------------------------------------------------------- the shortest run that loses

  /** Nothing inside a task happens but claims, and Redis answers them. */
  predicate OnlyClaims(run: seq<Event>) {
    forall i :: 0 <= i < |run| && run[i].Work? ==> run[i].a.Claim? && run[i].a.claim.Answered?
  }

  lemma Append(s: System, run: seq<Event>, e: Event)
    requires Possible(s, run) && CanHappen(Worker.After(s, run), e)
    ensures Possible(s, run + [e]) && Worker.After(s, run + [e]) == Next(Worker.After(s, run), e)
    ensures OnlyClaims(run) && (e.Work? ==> e.a.Claim? && e.a.claim.Answered?) ==> OnlyClaims(run + [e])
  {
    assert (run + [e])[..|run|] == run;
  }

  /** What one partition with one message looks like from moment to moment. */
  datatype Scene = Scene(
    loop: C.Loop,
    permits: int,
    flights: map<nat, C.Flight>,
    position: nat,
    committed: nat,
    tasks: map<nat, Pc>,
    created: nat,
    keys: set<string>)

  const ONLY := C.Slot(0, 0)

  predicate Shows(s: System, raw: RawEvent, max: nat, x: Scene) {
    && s.log == [[raw]] && s.c.max == max && s.c.ends == [1] && s.c.skipped == {}
    && s.c.loop == x.loop && s.c.permits == x.permits && s.c.flights == x.flights
    && s.c.position == [x.position] && s.c.committed == [x.committed] && s.c.next == x.created
    && s.w.tasks == x.tasks && s.w.msgs == seq(x.created, i => Input(raw, 0, 0)) && s.w.store.keys == x.keys
    && s.w.store.tables == EmptyTables && s.w.store.topic == []
  }

  lemma Produces(raw: RawEvent, max: nat, maxAttempts: int)
    ensures var s := Start(max, 1, maxAttempts);
            && CanHappen(s, Produce(0, raw))
            && Shows(Next(s, Produce(0, raw)), raw, max, Scene(C.Idle, max, map[], 0, 0, map[], 0, {}))
            && Next(s, Produce(0, raw)).c.crashes == 0
  {
    assert C.Zeros(1) == [0] && Empty(1) == [[]];
    assert [] + [raw] == [raw];
    assert Next(Start(max, 1, maxAttempts), Produce(0, raw)).log == [[raw]];
  }

  lemma Hands(s: System, raw: RawEvent, max: nat, x: Scene)
    requires Shows(s, raw, max, x) && x.loop.Idle? && x.permits >= 1 && x.position == 0
    ensures CanHappen(s, Fetch(0)) && CanHappen(Next(s, Fetch(0)), Acquire)
    ensures CanHappen(Next(Next(s, Fetch(0)), Acquire), Create)
    ensures var u := Next(Next(Next(s, Fetch(0)), Acquire), Create);
            && Shows(u, raw, max,
                     x.(permits := x.permits - 1, flights := x.flights[x.created := C.Flight(ONLY, C.Processing)],
                        position := 1, tasks := x.tasks[x.created := AtClaim], created := x.created + 1))
            && u.c.crashes == s.c.crashes
  {
    assert [0][0 := 1] == [1];
  }

  /** The first task claims the key, … */
  lemma ClaimsFirst(s: System, raw: RawEvent, max: nat, x: Scene)
    requires Shows(s, raw, max, x) && Accepted(raw) && x.created == 1 && x.keys == {}
    requires x.tasks == map[0 := AtClaim] && x.flights == map[0 := C.Flight(ONLY, C.Processing)]
    ensures CanHappen(s, Work(Action.Claim(0, Answered)))
    ensures var u := Next(s, Work(Action.Claim(0, Answered)));
            && Shows(u, raw, max, x.(tasks := map[0 := AtSchema], keys := {Key(raw.eventId.text)}))
            && u.c.crashes == s.c.crashes
  {
  }

  /** … the worker stops before the write, and starts again, … */
  lemma Restarts(s: System, raw: RawEvent, max: nat, x: Scene)
    requires Shows(s, raw, max, x) && x.committed == 0
    ensures var u := Next(s, Restart);
            && Shows(u, raw, max, x.(loop := C.Idle, permits := max, flights := map[], position := 0, tasks := map[]))
            && u.c.crashes == s.c.crashes + 1
  {
  }

  /** … and the second task takes its own message for a duplicate. */
  lemma ClaimsAgain(s: System, raw: RawEvent, max: nat, x: Scene)
    requires Shows(s, raw, max, x) && Accepted(raw) && x.created == 2 && x.keys == {Key(raw.eventId.text)}
    requires x.tasks == map[1 := AtClaim] && x.flights == map[1 := C.Flight(ONLY, C.Processing)]
    ensures CanHappen(s, Work(Action.Claim(1, Answered)))
    ensures var u := Next(s, Work(Action.Claim(1, Answered)));
            && Shows(u, raw, max, x.(tasks := map[1 := Over], flights := map[1 := C.Flight(ONLY, C.Committing)]))
            && u.c.crashes == s.c.crashes && ONLY in u.c.settled
  {
  }

  lemma CommitsAndFinishes(s: System, raw: RawEvent, max: nat, x: Scene)
    requires Shows(s, raw, max, x) && x.created == 2 && x.loop.Idle? && x.position == 1
    requires x.tasks == map[1 := Over] && x.flights == map[1 := C.Flight(ONLY, C.Committing)]
    ensures CanHappen(s, CommitOk(1)) && CanHappen(Next(s, CommitOk(1)), Finish(1))
    ensures var u := Next(Next(s, CommitOk(1)), Finish(1));
            && Shows(u, raw, max, x.(tasks := map[], flights := map[], permits := x.permits + 1, committed := 1))
            && u.c.crashes == s.c.crashes && u.c.settled == s.c.settled
  {
    assert [x.committed][0 := 1] == [1];
  }

  lemma HandOver(s: System, run: seq<Event>, raw: RawEvent, max: nat, x: Scene) returns (longer: seq<Event>)
    requires Possible(s, run) && Shows(Worker.After(s, run), raw, max, x)
    requires x.loop.Idle? && x.permits >= 1 && x.position == 0
    ensures Possible(s, longer) && (OnlyClaims(run) ==> OnlyClaims(longer))
    ensures Shows(Worker.After(s, longer), raw, max,
                  x.(permits := x.permits - 1, flights := x.flights[x.created := C.Flight(ONLY, C.Processing)],
                     position := 1, tasks := x.tasks[x.created := AtClaim], created := x.created + 1))
    ensures Worker.After(s, longer).c.crashes == Worker.After(s, run).c.crashes
  {
    Hands(Worker.After(s, run), raw, max, x);
    Append(s, run, Fetch(0));
    Append(s, run + [Fetch(0)], Acquire);
    Append(s, run + [Fetch(0)] + [Acquire], Create);
    longer := run + [Fetch(0)] + [Acquire] + [Create];
  }

  /** The scene between the two sessions. */
  function Between(raw: RawEvent, max: nat): Scene
    requires Accepted(raw)
  {
    Scene(C.Idle, max, map[], 0, 0, map[], 1, {Key(raw.eventId.text)})
  }

  lemma FirstSession(raw: RawEvent, max: nat, maxAttempts: int) returns (run: seq<Event>)
    requires Accepted(raw) && max >= 1
    ensures Possible(Start(max, 1, maxAttempts), run) && OnlyClaims(run)
    ensures var s := Worker.After(Start(max, 1, maxAttempts), run);
            Shows(s, raw, max, Between(raw, max)) && s.c.crashes == 1
  {
    var s, claim := Start(max, 1, maxAttempts), Work(Action.Claim(0, Answered));
    Produces(raw, max, maxAttempts);
    Append(s, [], Produce(0, raw));
    run := HandOver(s, [] + [Produce(0, raw)], raw, max, Scene(C.Idle, max, map[], 0, 0, map[], 0, {}));
    var x := Scene(C.Idle, max - 1, map[0 := C.Flight(ONLY, C.Processing)], 1, 0, map[0 := AtClaim], 1, {});
    ClaimsFirst(Worker.After(s, run), raw, max, x);
    Append(s, run, claim);
    run := run + [claim];
    Restarts(Worker.After(s, run), raw, max, x.(tasks := map[0 := AtSchema], keys := {Key(raw.eventId.text)}));
    Append(s, run, Restart);
    run := run + [Restart];
  }

  lemma SecondSession(s: System, run: seq<Event>, raw: RawEvent, max: nat) returns (longer: seq<Event>)
    requires Accepted(raw) && max >= 1 && Possible(s, run) && OnlyClaims(run)
    requires Shows(Worker.After(s, run), raw, max, Between(raw, max))
    ensures Possible(s, longer) && OnlyClaims(longer)
    ensures var u := Worker.After(s, longer);
            && Shows(u, raw, max, Scene(C.Idle, max, map[], 1, 1, map[], 2, {Key(raw.eventId.text)}))
            && u.c.crashes == Worker.After(s, run).c.crashes && ONLY in u.c.settled
  {
    var claim := Work(Action.Claim(1, Answered));
    longer := HandOver(s, run, raw, max, Between(raw, max));
    var x := Scene(C.Idle, max - 1, map[1 := C.Flight(ONLY, C.Processing)], 1, 0, map[1 := AtClaim], 2,
                   {Key(raw.eventId.text)});
    ClaimsAgain(Worker.After(s, longer), raw, max, x);
    Append(s, longer, claim);
    longer := longer + [claim];
    CommitsAndFinishes(Worker.After(s, longer), raw, max,
                       x.(tasks := map[1 := Over], flights := map[1 := C.Flight(ONLY, C.Committing)]));
    Append(s, longer, CommitOk(1));
    longer := longer + [CommitOk(1)];
    Append(s, longer, Finish(1));
    longer := longer + [Finish(1)];
  }

  /** One restart between claim and write loses an acceptable event, with any number of permits, one included,
      with Redis, PostgreSQL and Kafka in perfect health, and without any commit passing over a message: the
      redelivered event is skipped as a duplicate of itself and its offset committed. */
  lemma OrphanedClaim(raw: RawEvent, max: nat, maxAttempts: int) returns (run: seq<Event>)
    requires Accepted(raw) && max >= 1
    ensures Possible(Start(max, 1, maxAttempts), run) && OnlyClaims(run)
    ensures var s := Worker.After(Start(max, 1, maxAttempts), run);
            && AtRest(s) && s.log == [[raw]] && s.c.position == s.c.ends == s.c.committed == [1]
            && s.c.crashes == 1 && s.c.skipped == {} && ONLY in s.c.settled
            && s.w.store.tables == EmptyTables && s.w.store.topic == []
  {
    run := FirstSession(raw, max, maxAttempts);
    run := SecondSession(Start(max, 1, maxAttempts), run, raw, max);
  }
}
