/**
 * The state-stack interpreter: the stack of live states (top = last element),
 * how a transition changes it, and the main loop that feeds each event to the
 * state on top until the stack is empty.
 */
module StateTools {
  import opened State

  /**
   * The stack after one transition; popping needs a state to pop.  A pushed
   * or rebased state ends up on top, and the stack becomes empty (which stops
   * the main loop) only when its last state pops.
   */
  function Applied<S>(stack: seq<S>, result: StateResult<S>): (r: seq<S>)
    requires result.Pop? ==> |stack| > 0
    ensures (result.Push? || result.Rebase?) ==> |r| > 0 && r[|r| - 1] == result.state
    ensures |r| == 0 <==> (result.Pop? && |stack| == 1) || (result.NoResult? && |stack| == 0)
  {
    match result
    case Push(s) => stack + [s]
    case Pop => stack[..|stack| - 1]
    case Rebase(s) => [s]
    case NoResult => stack
  }

  /** Push adds the state on top and keeps every earlier entry. */
  lemma PushOnTop<S>(stack: seq<S>, s: S)
    ensures |Applied(stack, Push(s))| == |stack| + 1
    ensures Applied(stack, Push(s))[|stack|] == s
    ensures Applied(stack, Push(s))[..|stack|] == stack
  {
  }

  /** Pop drops exactly the top entry. */
  lemma PopDropsTop<S>(stack: seq<S>)
    requires |stack| > 0
    ensures Applied(stack, Pop) + [stack[|stack| - 1]] == stack
  {
  }

  /** Push followed by Pop gives back the original stack. */
  lemma PushThenPop<S>(stack: seq<S>, s: S)
    ensures Applied(Applied(stack, Push(s)), Pop) == stack
  {
  }

  /**
   * Rebase leaves exactly one state, whatever the depth before.  This unfolds
   * `Applied`; the pop-all-then-push loop that reaches it is proved in
   * `StateStack.ApplyStateResult`.
   */
  lemma RebaseSingle<S>(stack: seq<S>, s: S)
    ensures Applied(stack, Rebase(s)) == [s]
  {
  }

  /** What one state's handler does with an event: its own new value and its reply. */
  datatype Handled<S> = Handled(updated: S, reply: Reply<S>)

  /** The result of running the loop over a sequence of events. */
  datatype Session<S, E> = Session(stack: seq<S>, dispatched: seq<(S, E)>, exited: bool)

  /** Replace the top state with its updated value, then apply its transition. */
  function AfterDispatch<S>(stack: seq<S>, h: Handled<S>): seq<S>
    requires |stack| > 0 && h.reply.Return?
  {
    Applied(stack[..|stack| - 1] + [h.updated], h.reply.result)
  }

  /**
   * The main loop over the events, in order: while the stack is non-empty the
   * next event goes to the top state only; an Exit reply ends the program.
   * Each dispatched event is recorded with the state that received it.
   */
  function Run<S, E>(stack: seq<S>, events: seq<E>, handler: (S, E) -> Handled<S>): (r: Session<S, E>)
    ensures r.exited ==> |r.dispatched| > 0
    decreases |events|
  {
    if |events| == 0 || |stack| == 0 then Session(stack, [], false)
    else
      var top := stack[|stack| - 1];
      var h := handler(top, events[0]);
      if h.reply.Exit? then Session(stack, [(top, events[0])], true)
      else
        var rest := Run(AfterDispatch(stack, h), events[1..], handler);
        Session(rest.stack, [(top, events[0])] + rest.dispatched, rest.exited)
  }

  /**
   * The dispatched events are a prefix of the input; events are left over only
   * when the program exited or the stack became empty.
   */
  lemma {:induction false} RunDispatchesPrefix<S, E>(stack: seq<S>, events: seq<E>, handler: (S, E) -> Handled<S>)
    ensures var r := Run(stack, events, handler);
      |r.dispatched| <= |events| &&
      (forall i :: 0 <= i < |r.dispatched| ==> r.dispatched[i].1 == events[i]) &&
      (|r.dispatched| < |events| ==> r.exited || r.stack == [])
    decreases |events|
  {
    if |events| > 0 && |stack| > 0 {
      var h := handler(stack[|stack| - 1], events[0]);
      if h.reply.Return? {
        RunDispatchesPrefix(AfterDispatch(stack, h), events[1..], handler);
      }
    }
  }

  /** The session `rest` preceded by the dispatches `prefix`. */
  function Continue<S, E>(prefix: seq<(S, E)>, rest: Session<S, E>): Session<S, E> {
    Session(rest.stack, prefix + rest.dispatched, rest.exited)
  }

  /** One turn of the loop: the top state handles the first event. */
  lemma RunUnfold<S, E>(stack: seq<S>, events: seq<E>, handler: (S, E) -> Handled<S>)
    requires |stack| > 0 && |events| > 0
    ensures var top := stack[|stack| - 1];
      var h := handler(top, events[0]);
      Run(stack, events, handler) ==
        if h.reply.Exit? then Continue([(top, events[0])], Session(stack, [], true))
        else Continue([(top, events[0])], Run(AfterDispatch(stack, h), events[1..], handler))
  {
    assert [(stack[|stack| - 1], events[0])] + [] == [(stack[|stack| - 1], events[0])];
  }

  /**
   * Where the main loop stands after `i` events: what it has dispatched so far,
   * followed by the run over the events still to come, is the whole run.
   */
  ghost predicate LoopAt<S, E>(start: seq<S>, events: seq<E>, handler: (S, E) -> Handled<S>,
                               stack: seq<S>, dispatched: seq<(S, E)>, exited: bool, i: int)
  {
    0 <= i <= |events| &&
    Run(start, events, handler) ==
      Continue(dispatched, if exited then Session(stack, [], true) else Run(stack, events[i..], handler))
  }

  lemma AppendAssociates<T>(a: seq<T>, b: seq<T>, c: seq<T>)
    ensures a + (b + c) == (a + b) + c
  {
  }

  /** One turn of the loop keeps it on course. */
  lemma LoopAdvance<S, E>(start: seq<S>, events: seq<E>, handler: (S, E) -> Handled<S>,
                          stack: seq<S>, dispatched: seq<(S, E)>, i: int, stack': seq<S>, exit: bool)
    requires LoopAt(start, events, handler, stack, dispatched, false, i)
    requires i < |events| && |stack| > 0
    requires exit == handler(stack[|stack| - 1], events[i]).reply.Exit?
    requires exit ==> stack' == stack
    requires !exit ==> stack' == AfterDispatch(stack, handler(stack[|stack| - 1], events[i]))
    ensures LoopAt(start, events, handler, stack', dispatched + [(stack[|stack| - 1], events[i])], exit, i + 1)
  {
    var x := (stack[|stack| - 1], events[i]);
    RunUnfold(stack, events[i..], handler);
    assert events[i..][0] == events[i] && events[i..][1..] == events[i + 1..];
    var rest := if exit then Session(stack', [], true) else Run(stack', events[i + 1..], handler);
    AppendAssociates(dispatched, [x], rest.dispatched);
  }

  /** Once the loop stops, what it has dispatched is the whole run. */
  lemma LoopDone<S, E>(start: seq<S>, events: seq<E>, handler: (S, E) -> Handled<S>,
                       stack: seq<S>, dispatched: seq<(S, E)>, exited: bool, i: int)
    requires LoopAt(start, events, handler, stack, dispatched, exited, i)
    requires i == |events| || |stack| == 0 || exited
    ensures Run(start, events, handler) == Session(stack, dispatched, exited)
  {
    assert dispatched + [] == dispatched;
  }

  /** The first event goes to the state on top of the stack, and to no other. */
  lemma FirstEventToTop<S, E>(stack: seq<S>, events: seq<E>, handler: (S, E) -> Handled<S>)
    requires |stack| > 0 && |events| > 0
    ensures var r := Run(stack, events, handler);
      |r.dispatched| > 0 && r.dispatched[0] == (stack[|stack| - 1], events[0])
  {
  }

  /** Nothing is dispatched to an empty stack: the loop has stopped. */
  lemma RunFromEmpty<S, E>(events: seq<E>, handler: (S, E) -> Handled<S>)
    ensures Run([], events, handler) == Session([], [], false)
  {
  }

  /**
   * Running over `first + later` is running over `first` and then, if the
   * program has neither exited nor emptied its stack, over `later`.
   */
  lemma {:induction false} RunSplits<S, E>(stack: seq<S>, first: seq<E>, later: seq<E>, handler: (S, E) -> Handled<S>)
    ensures var a := Run(stack, first, handler);
      var b := Run(a.stack, later, handler);
      Run(stack, first + later, handler) ==
        if a.exited then a else Session(b.stack, a.dispatched + b.dispatched, b.exited)
    decreases |first|
  {
    if |first| == 0 {
      assert first + later == later;
    } else if |stack| > 0 {
      var top := stack[|stack| - 1];
      var h := handler(top, first[0]);
      assert (first + later)[0] == first[0];
      assert (first + later)[1..] == first[1..] + later;
      if h.reply.Return? {
        var next := AfterDispatch(stack, h);
        RunSplits(next, first[1..], later, handler);
        var a := Run(next, first[1..], handler);
        AppendAssociates([(top, first[0])], a.dispatched, Run(a.stack, later, handler).dispatched);
      }
    } else {
      assert |first + later| > 0;
    }
  }

  /** Once the stack has emptied, later events change nothing. */
  lemma EventsAfterEmptyIgnored<S, E>(stack: seq<S>, first: seq<E>, later: seq<E>, handler: (S, E) -> Handled<S>)
    requires Run(stack, first, handler).stack == []
    ensures Run(stack, first + later, handler) == Run(stack, first, handler)
  {
    RunSplits(stack, first, later, handler);
  }

  /** The live states, with the last element active. */
  class StateStack<S> {
    var states: seq<S>

    constructor (initial: seq<S>)
      ensures states == initial
    {
      states := initial;
    }

    function Rank(result: StateResult<S>): nat {
      match result
      case Rebase(_) => 2
      case Push(_) => 1
      case _ => 0
    }

    /** apply_state_result: Rebase pops one state at a time, then pushes. */
    method ApplyStateResult(result: StateResult<S>)
      requires result.Pop? ==> |states| > 0
      modifies this
      ensures states == Applied(old(states), result)
      decreases Rank(result)
    {
      match result
      case Push(s) =>
        states := states + [s];
      case Pop =>
        states := states[..|states| - 1];
      case Rebase(s) =>
        while |states| > 0
          decreases |states|
        {
          ApplyStateResult(Pop);
        }
        ApplyStateResult(Push(s));
      case NoResult =>
    }

    /** One turn of main_loop: the top state handles the event, and its transition is applied. */
    method Dispatch<E>(event: E, handler: (S, E) -> Handled<S>) returns (top: S, exit: bool)
      requires |states| > 0
      modifies this
      ensures top == old(states)[|old(states)| - 1]
      ensures exit == handler(top, event).reply.Exit?
      ensures exit ==> states == old(states)
      ensures !exit ==> states == AfterDispatch(old(states), handler(top, event))
    {
      top := states[|states| - 1];
      var h := handler(top, event);
      exit := h.reply.Exit?;
      if !exit {
        states := states[..|states| - 1] + [h.updated];
        ApplyStateResult(h.reply.result);
      }
    }

    /**
     * main_loop over a finite sequence of events: each event is given to the
     * top state while there is one, and the loop stops on Exit.
     */
    method MainLoop<E>(events: seq<E>, handler: (S, E) -> Handled<S>)
      returns (dispatched: seq<(S, E)>, exited: bool)
      modifies this
      ensures Session(states, dispatched, exited) == Run(old(states), events, handler)
    {
      ghost var start := states;
      var i := 0;
      dispatched, exited := [], false;
      while i < |events| && |states| > 0 && !exited
        invariant LoopAt(start, events, handler, states, dispatched, exited, i)
      {
        ghost var before := states;
        var top;
        top, exited := Dispatch(events[i], handler);
        LoopAdvance(start, events, handler, before, dispatched, i, states, exited);
        dispatched := dispatched + [(top, events[i])];
        i := i + 1;
      }
      LoopDone(start, events, handler, states, dispatched, exited, i);
    }
  }
}
