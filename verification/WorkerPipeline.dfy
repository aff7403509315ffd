/** The worker's four handlers as an instance of the generic pipeline: which handlers an event reaches. */
module WorkerPipeline {
  import opened Models
  import opened Database
  import opened Idempotency
  import opened Retry
  import opened DeadLetters
  import opened Handlers
  import P = Pipeline

  /** The end of a handler that has just sent an envelope. */
  function Ended(broken: bool): P.Plan {
    if broken then P.Throw else P.Done
  }

  /** How the handler of a stage treats `next_call` for this message. */
  function PlanOf(stage: Stage, raw: RawEvent, keys: set<string>, script: Script, p: Policy): P.Plan {
    match stage
    case IdempotencyStage =>
      var key := ClaimKey(raw);
      if key.Some? && !ClaimVerdict(keys, key.value, script.claim) then P.Done else P.Next(P.Done, P.Throw)
    case ValidationStage =>
      var end := Ended(BrokenFor(raw, ValidationError, script));
      if Accepted(raw) then P.Next(P.Done, end) else end
    case PersistenceStage =>
      match Raises(script.inserts, p.maxAttempts) {
        case Some(e) => Ended(BrokenFor(raw, ReasonOf(e), script))
        case None => P.Next(P.Done, Ended(BrokenFor(raw, ReasonOf(SendFailed), script)))
      }
    case DeviceStateStage => P.Next(P.Done, P.Throw)
  }

  /** Every handler of the worker calls on at most once and so is started at most once. */
  function HandlerOf(stage: Stage, raw: RawEvent, keys: set<string>, script: Script, p: Policy): P.Handler {
    past => PlanOf(stage, raw, keys, script, p)
  }

  function Chain(raw: RawEvent, keys: set<string>, script: Script, p: Policy): seq<P.Handler> {
    seq(|WORKER_CHAIN|, i requires 0 <= i < |WORKER_CHAIN| => HandlerOf(WORKER_CHAIN[i], raw, keys, script, p))
  }

  /** The handlers started for an event, by its decision. */
  function Reached(d: Decision): nat {
    match d
    case Duplicate => 1
    case Invalid => 2
    case WriteFailed(_, _) => 3
    case Stored => 4
  }

  lemma ChainByStage(raw: RawEvent, keys: set<string>, script: Script, p: Policy)
    ensures Chain(raw, keys, script, p)
            == [HandlerOf(IdempotencyStage, raw, keys, script, p), HandlerOf(ValidationStage, raw, keys, script, p),
                HandlerOf(PersistenceStage, raw, keys, script, p), HandlerOf(DeviceStateStage, raw, keys, script, p)]
  {
  }

  /** What the handlers that have been entered, each calling on, leave as marks. */
  function Entries(n: nat): seq<P.Mark> {
    if n == 0 then [] else Entries(n - 1) + [P.Enter(n - 1)]
  }

  lemma StopsWhereDecided(raw: RawEvent, keys: set<string>, script: Script, p: Policy)
    ensures var hs, n := Chain(raw, keys, script, p), P.StopsAt(Chain(raw, keys, script, p), 0, []);
            (if n < |hs| then n + 1 else n) == Reached(Decide(raw, keys, script, p))
  {
    ChainByStage(raw, keys, script, p);
    var hs := Chain(raw, keys, script, p);
    assert P.StopsAt(hs, 4, Entries(4)) == 4;
    assert P.StopsAt(hs, 3, Entries(3)) == 4;
    assert P.StopsAt(hs, 2, Entries(2)) == if hs[2](Entries(2)).Next? then 4 else 2;
    assert P.StopsAt(hs, 1, Entries(1)) == if hs[1](Entries(1)).Next? then P.StopsAt(hs, 2, Entries(2)) else 1;
    assert Entries(0) == [];
  }

  /** What leaves a handler that calls `next_call` at most once. */
  lemma Leaves(hs: seq<P.Handler>, i: nat, past: seq<P.Mark>)
    requires i < |hs| && P.AtMostOnce(hs[i](past))
    ensures P.Dispatch(hs, i, past).raised
            == match hs[i](past)
               case Done => false
               case Throw => true
               case Next(returned, raised) =>
                 (if P.Dispatch(hs, i + 1, past + [P.Enter(i)]).raised then raised else returned).Throw?
  {
    var plan, now := hs[i](past), past + [P.Enter(i)];
    if plan.Next? {
      var first := P.Dispatch(hs, i + 1, now);
      var last := if first.raised then plan.raised else plan.returned;
      assert P.Perform(hs, i, plan, now).raised == P.Perform(hs, i, last, now + first.marks).raised;
      assert P.NoNext(last);
    }
  }

  lemma RaisesTogether(raw: RawEvent, keys: set<string>, script: Script, p: Policy)
    ensures P.Dispatch(Chain(raw, keys, script, p), 0, []).raised
            <==> FlatRaises(raw, Decide(raw, keys, script, p), script)
  {
    ChainByStage(raw, keys, script, p);
    var hs := Chain(raw, keys, script, p);
    Leaves(hs, 3, Entries(3));
    Leaves(hs, 2, Entries(2));
    Leaves(hs, 1, Entries(1));
    Leaves(hs, 0, Entries(0));
    assert Entries(0) == [];
  }

  /** The worker's chain obeys the pipeline's laws: for a duplicate only the first handler starts, for an
      unacceptable event two, for a failed write three, and all four for a stored one, in order and once
      each, leaving in reverse order; an exception leaves the pipeline exactly when it leaves `process`. */
  lemma HandlersReached(m: Input, s: Store, script: Script, p: Policy)
    ensures var run, d := P.Dispatch(Chain(m.raw, s.keys, script, p), 0, []), Decide(m.raw, s.keys, script, p);
            && P.Entered(run.marks) == P.Range(0, Reached(d))
            && P.Read(run.marks, []) == P.Open([])
            && (run.raised <==> Processed(m, s, script, p).raised.Some?)
  {
    var hs := Chain(m.raw, s.keys, script, p);
    assert forall k :: 0 <= k < |hs| ==> P.CallsOnce(hs[k]);
    P.EntriesArePrefix(hs, 0, []);
    StopsWhereDecided(m.raw, s.keys, script, p);
    P.DispatchNests(hs, 0, [], []);
    RaisesTogether(m.raw, s.keys, script, p);
    ChainIsFlat(m, s, script, p);
  }
}
