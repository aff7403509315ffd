/** The generic middleware pipeline (libs/shared/pipeline.py) for handler lists of any length. */
module Pipeline {
  import opened Wrappers

  /** What a handler does once started, as far as the pipeline can tell: finish, raise, or call `next_call` and
      go on according to whether that call returned or raised. `Next(Done, Throw)` lets an exception through;
      `Next(p, q)` with a `q` other than `Throw` catches it. */
  datatype Plan = Done | Throw | Next(returned: Plan, raised: Plan)

  /** What an observer of the run sees: handler `index` starts, or is left, by return or by exception. */
  datatype Mark = Enter(index: nat) | Exit(index: nat)

  datatype Run = Run(marks: seq<Mark>, raised: bool)

  /** A handler started after the marks `past` follows the plan it has for them: started again, it may do
      something else. */
  type Handler = seq<Mark> -> Plan

  /** `_dispatch(i)`: nothing past the end of the list, else the handler with a continuation to `i + 1`. */
  function Dispatch(hs: seq<Handler>, i: nat, past: seq<Mark>): Run
    decreases if i < |hs| then |hs| - i else 0, 1, Done
  {
    if i >= |hs| then Run([], false)
    else
      var r := Perform(hs, i, hs[i](past), past + [Enter(i)]);
      Run([Enter(i)] + r.marks + [Exit(i)], r.raised)
  }

  function Perform(hs: seq<Handler>, i: nat, plan: Plan, past: seq<Mark>): Run
    requires i < |hs|
    decreases |hs| - i, 0, plan
  {
    match plan
    case Done => Run([], false)
    case Throw => Run([], true)
    case Next(returned, raised) =>
      var first := Dispatch(hs, i + 1, past);
      var rest := Perform(hs, i, if first.raised then raised else returned, past + first.marks);
      Run(first.marks + rest.marks, rest.raised)
  }

  class Context {
    var traceId: string

    constructor (traceId: string)
      ensures this.traceId == traceId
    {
      this.traceId := traceId;
    }
  }

  class Pipeline {
    var handlers: seq<Handler>

    constructor ()
      ensures handlers == []
    {
      handlers := [];
    }

    /** `use`: register a handler after the ones already there; the pipeline itself is returned. */
    method Use(h: Handler) returns (self: Pipeline)
      modifies this`handlers
      ensures self == this && handlers == old(handlers) + [h]
    {
      handlers := handlers + [h];
      self := this;
    }

    /** `execute`: give the context a trace id if it has none, then run the chain from its head. */
    method Execute(context: Context, newId: string) returns (marks: seq<Mark>, raised: bool)
      modifies context
      ensures Run(marks, raised) == Dispatch(handlers, 0, [])
      ensures context.traceId
              == if handlers != [] && old(context.traceId) == "" then newId else old(context.traceId)
    {
      if handlers == [] {
        return [], false;
      }
      if context.traceId == "" {
        context.traceId := newId;
      }
      marks, raised := DispatchFrom(0, []);
    }

    method DispatchFrom(i: nat, past: seq<Mark>) returns (marks: seq<Mark>, raised: bool)
      ensures Run(marks, raised) == Dispatch(handlers, i, past)
      decreases if i < |handlers| then |handlers| - i else 0, 1, Done
    {
      if i >= |handlers| {
        return [], false;
      }
      var inner, failed := Call(i, handlers[i](past), past + [Enter(i)]);
      marks, raised := [Enter(i)] + inner + [Exit(i)], failed;
    }

    /** The body of handler `i`, with `next_call` bound to the rest of the chain. */
    method Call(i: nat, plan: Plan, past: seq<Mark>) returns (marks: seq<Mark>, raised: bool)
      requires i < |handlers|
      ensures Run(marks, raised) == Perform(handlers, i, plan, past)
      decreases |handlers| - i, 0, plan
    {
      match plan
      case Done =>
        return [], false;
      case Throw =>
        return [], true;
      case Next(returned, failed) =>
        var first, firstRaised := DispatchFrom(i + 1, past);
        var rest, restRaised := Call(i, if firstRaised then failed else returned, past + first);
        marks, raised := first + rest, restRaised;
    }
  }

  // ------------------------------------------------------------------------------------- nesting

  datatype Nesting = Broken | Open(stack: seq<nat>)

  /** Reading the marks with a stack of the handlers that are running: handler `j` may start only as the
      continuation of `j - 1` (or at the bottom), and may be left only when it is the innermost one. */
  function Read(marks: seq<Mark>, stack: seq<nat>): Nesting {
    if marks == [] then Open(stack)
    else
      match marks[0]
      case Enter(j) =>
        if OnTop(stack, j) then Read(marks[1..], stack + [j]) else Broken
      case Exit(j) =>
        if stack != [] && stack[|stack| - 1] == j then Read(marks[1..], stack[..|stack| - 1]) else Broken
  }

  predicate OnTop(stack: seq<nat>, i: nat) {
    stack == [] || stack[|stack| - 1] + 1 == i
  }

  lemma {:induction false} ReadConcat(a: seq<Mark>, b: seq<Mark>, stack: seq<nat>)
    ensures Read(a + b, stack) == match Read(a, stack)
                                  case Broken => Broken
                                  case Open(s) => Read(b, s)
  {
    if a == [] {
      assert a + b == b;
    } else {
      assert (a + b)[0] == a[0] && (a + b)[1..] == a[1..] + b;
      match a[0]
      case Enter(j) => ReadConcat(a[1..], b, stack + [j]);
      case Exit(j) =>
        if stack != [] {
          ReadConcat(a[1..], b, stack[..|stack| - 1]);
        }
    }
  }

  /** Entries and exits nest like brackets, whatever the handlers do, however often they call on, and even if
      they do something else each time they are started: a dispatch leaves the stack of running handlers as it
      found it, also when a handler raises. */
  lemma {:induction false} DispatchNests(hs: seq<Handler>, i: nat, past: seq<Mark>, stack: seq<nat>)
    requires OnTop(stack, i)
    ensures Read(Dispatch(hs, i, past).marks, stack) == Open(stack)
    decreases if i < |hs| then |hs| - i else 0, 1, Done
  {
    if i < |hs| {
      var marks, inner := Dispatch(hs, i, past).marks, Perform(hs, i, hs[i](past), past + [Enter(i)]).marks;
      PerformNests(hs, i, hs[i](past), past + [Enter(i)], stack + [i]);
      ReadConcat(inner, [Exit(i)], stack + [i]);
      assert marks == [Enter(i)] + (inner + [Exit(i)]);
      assert marks[1..] == inner + [Exit(i)];
      assert (stack + [i])[..|stack|] == stack;
    }
  }

  lemma {:induction false} PerformNests(hs: seq<Handler>, i: nat, plan: Plan, past: seq<Mark>, stack: seq<nat>)
    requires i < |hs| && stack != [] && stack[|stack| - 1] == i
    ensures Read(Perform(hs, i, plan, past).marks, stack) == Open(stack)
    decreases |hs| - i, 0, plan
  {
    match plan
    case Done =>
    case Throw =>
    case Next(returned, raised) =>
      var first := Dispatch(hs, i + 1, past);
      var after := if first.raised then raised else returned;
      DispatchNests(hs, i + 1, past, stack);
      PerformNests(hs, i, after, past + first.marks, stack);
      ReadConcat(first.marks, Perform(hs, i, after, past + first.marks).marks, stack);
  }

  /** A handler that is started again finds its first run in the past: one that raises when it is new and not
      again is saved by a caller that calls on once more. */
  lemma SecondChance()
    ensures var again: Handler := past => Next(Done, Next(Done, Throw));
            var shy: Handler := past => if Exit(1) in past then Done else Throw;
            Dispatch([again, shy], 0, [])
            == Run([Enter(0), Enter(1), Exit(1), Enter(1), Exit(1), Exit(0)], false)
  {
    var again: Handler := past => Next(Done, Next(Done, Throw));
    var shy: Handler := past => if Exit(1) in past then Done else Throw;
    var hs, past := [again, shy], [] + [Enter(0)];
    assert Dispatch(hs, 1, past) == Run([Enter(1), Exit(1)], true);
    assert Dispatch(hs, 1, past + [Enter(1), Exit(1)]) == Run([Enter(1), Exit(1)], false);
    assert Perform(hs, 0, Next(Done, Throw), past + [Enter(1), Exit(1)]) == Run([Enter(1), Exit(1)], false);
    assert Perform(hs, 0, Next(Done, Next(Done, Throw)), past) == Run([Enter(1), Exit(1), Enter(1), Exit(1)], false);
  }

  // ---------------------------------------------------------------------------------- entry order

  predicate NoNext(p: Plan) {
    !p.Next?
  }

  predicate AtMostOnce(p: Plan) {
    p.Next? ==> NoNext(p.returned) && NoNext(p.raised)
  }

  /** Whenever it is started, the handler calls on at most once. */
  ghost predicate CallsOnce(h: Handler) {
    forall past :: AtMostOnce(h(past))
  }

  function EntryOf(m: Mark): seq<nat> {
    if m.Enter? then [m.index] else []
  }

  /** The handlers started, in order. */
  function Entered(marks: seq<Mark>): seq<nat> {
    if marks == [] then [] else EntryOf(marks[0]) + Entered(marks[1..])
  }

  lemma {:induction false} EnteredConcat(a: seq<Mark>, b: seq<Mark>)
    ensures Entered(a + b) == Entered(a) + Entered(b)
  {
    if a == [] {
      assert a + b == b;
    } else {
      EnteredConcat(a[1..], b);
      assert (a + b)[1..] == a[1..] + b;
      Associative(EntryOf(a[0]), Entered(a[1..]), Entered(b));
    }
  }

  lemma EnteredDispatch(hs: seq<Handler>, i: nat, past: seq<Mark>)
    requires i < |hs|
    ensures Entered(Dispatch(hs, i, past).marks)
            == [i] + Entered(Perform(hs, i, hs[i](past), past + [Enter(i)]).marks)
  {
    var inner := Perform(hs, i, hs[i](past), past + [Enter(i)]).marks;
    EnteredConcat([Enter(i)] + inner, [Exit(i)]);
    assert ([Enter(i)] + inner)[1..] == inner;
    assert Entered([Exit(i)]) == [];
  }

  /** A handler that calls `next_call` once does nothing else the marks would show. */
  lemma SingleCall(hs: seq<Handler>, i: nat, plan: Plan, past: seq<Mark>)
    requires i < |hs| && plan.Next? && AtMostOnce(plan)
    ensures Perform(hs, i, plan, past).marks == Dispatch(hs, i + 1, past).marks
  {
    var first := Dispatch(hs, i + 1, past);
    assert Perform(hs, i, if first.raised then plan.raised else plan.returned, past + first.marks).marks == [];
  }

  /** The first handler from `i` on that does not call `next_call` when those before it have, or the end of the
      list. */
  function StopsAt(hs: seq<Handler>, i: nat, past: seq<Mark>): (n: nat)
    requires i <= |hs|
    ensures i <= n <= |hs|
    decreases |hs| - i
  {
    if i == |hs| || NoNext(hs[i](past)) then i else StopsAt(hs, i + 1, past + [Enter(i)])
  }

  function Range(from: nat, to: nat): seq<nat>
    requires from <= to
  {
    seq(to - from, k requires 0 <= k < to - from => from + k)
  }

  /** If every handler calls `next_call` at most once, the handlers entered are, in registration order and
      once each, exactly those up to and including the first one that does not call it. */
  lemma {:induction false} EntriesArePrefix(hs: seq<Handler>, i: nat, past: seq<Mark>)
    requires i <= |hs| && forall k :: 0 <= k < |hs| ==> CallsOnce(hs[k])
    ensures var n := StopsAt(hs, i, past);
            Entered(Dispatch(hs, i, past).marks) == Range(i, if n < |hs| then n + 1 else n)
    decreases |hs| - i
  {
    if i < |hs| {
      EnteredDispatch(hs, i, past);
      var plan := hs[i](past);
      assert CallsOnce(hs[i]) && AtMostOnce(plan);
      if plan.Next? {
        SingleCall(hs, i, plan, past + [Enter(i)]);
        EntriesArePrefix(hs, i + 1, past + [Enter(i)]);
      }
    }
  }
}
