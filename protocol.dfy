/** The firing protocol of one action, as pure functions: callback
    resolution, the call-or-raise dispatch, the commit rule, and what a
    whole firing does to the machine's state. */
module Protocol {
  import opened Description

  /** Result of one dispatch of a callback slot. */
  datatype Step = Returned(value: Option<State>, ctx: Context) | Threw | NotCallableError

  /** Why a firing failed. `TransitionError` is the source's own exception,
      raised when the event slot holds nothing callable; `CallbackRaised`
      is an exception escaping from a user callback; `UnknownAction` is the
      attribute error of calling an action the machine never registered. */
  datatype Error = UnknownAction(name: string) | TransitionError | CallbackRaised(slot: Slot)

  datatype Result = Ok | Err(error: Error)

  /** One callback that actually ran: its slot, the context it was given
      and what it did. */
  datatype Call = Call(slot: Slot, ctx: Context, outcome: Outcome)

  /** Everything one firing produces: its result, the callbacks that ran in
      order, and the machine's state afterwards. */
  datatype Run = Run(result: Result, calls: seq<Call>, next: Option<State>)

  /** One invocation of an action by name with its arguments. */
  datatype Invocation = Invocation(name: string, args: seq<Value>, kwargs: map<string, Value>)

  predicate IsCallable(h: Option<Handler>)
  {
    h.Some? && h.value.Callable?
  }

  /** The context a firing starts with. */
  function InitialContext(current: Option<State>, action: string, args: seq<Value>, kwargs: map<string, Value>): (c: Context)
  {
    Context(current, action, args, kwargs, map[])
  }

  /** The handler a firing uses for `slot`: the event's own entry whenever
      its table has the key (callable or not), else the global entry, else
      nothing. */
  function Resolve(ev: Event, globals: map<string, Handler>, slot: Slot): (r: Option<Handler>)
    ensures Key(slot) in Own(ev) ==> r == Some(Own(ev)[Key(slot)])
    ensures Key(slot) !in Own(ev) && Key(slot) in globals ==> r == Some(globals[Key(slot)])
    ensures r.None? <==> Key(slot) !in Own(ev) && Key(slot) !in globals
  {
    if ev.callbacks.Some? && Key(slot) in ev.callbacks.value then Some(ev.callbacks.value[Key(slot)])
    else if Key(slot) in globals then Some(globals[Key(slot)])
    else None
  }

  /** Call the handler when it is callable. Otherwise fail with the
      transition error when `raiseError` is set, and return nothing, with
      the context untouched, when it is not. */
  function SafeCall(h: Option<Handler>, ctx: Context, raiseError: bool): (s: Step)
    ensures s.NotCallableError? <==> !IsCallable(h) && raiseError
    ensures s.Threw? <==> IsCallable(h) && h.value.call(ctx).Raise?
    ensures !IsCallable(h) && !raiseError ==> s == Returned(None, ctx)
    ensures IsCallable(h) && s.Returned? ==> Return(s.value, s.ctx) == h.value.call(ctx)
  {
    if IsCallable(h) then
      match h.value.call(ctx)
      case Raise => Threw
      case Return(v, c) => Returned(v, c)
    else if raiseError then NotCallableError
    else Returned(None, ctx)
  }

  /** The record of a dispatch: one call when the handler is callable. */
  function Invoked(h: Option<Handler>, slot: Slot, ctx: Context): (calls: seq<Call>)
  {
    if IsCallable(h) then [Call(slot, ctx, h.value.call(ctx))] else []
  }

  /** The error a failed dispatch of `slot` surfaces. */
  function Failure(s: Step, slot: Slot): (e: Error)
  {
    if s.Threw? then CallbackRaised(slot) else TransitionError
  }

  /** The state committed at the end of a successful firing: a single `dst`
      is fixed, a list `dst` takes the event callback's return value as it
      is, member of the list or not. */
  function Commit(returned: Option<State>, dst: States): (r: Option<State>)
    ensures dst.Single? ==> r == Some(dst.state)
    ensures dst.Many? ==> r == returned
  {
    if dst.Many? then returned else Some(dst.state)
  }

  /** One firing of the registered event `ev` from state `current`:
      resolve the three slots, call before, event (which must be callable)
      and after in turn on one shared context, and commit only when all
      three returned. */
  function Transition(ev: Event, globals: map<string, Handler>, current: Option<State>,
                      args: seq<Value>, kwargs: map<string, Value>): (r: Run)
    ensures r.result.Err? ==> r.next == current
    ensures r.result.Err? ==> !r.result.error.UnknownAction?
    ensures r.result.Ok? && ev.dst.Single? ==> r.next == Some(ev.dst.state)
  {
    var before := Resolve(ev, globals, OnBefore);
    var event := Resolve(ev, globals, OnEvent);
    var after := Resolve(ev, globals, OnAfter);
    var ctx := InitialContext(current, ev.action, args, kwargs);
    var sb := SafeCall(before, ctx, false);
    var cb := Invoked(before, OnBefore, ctx);
    if !sb.Returned? then Run(Err(Failure(sb, OnBefore)), cb, current)
    else
      var se := SafeCall(event, sb.ctx, true);
      var ce := cb + Invoked(event, OnEvent, sb.ctx);
      if !se.Returned? then Run(Err(Failure(se, OnEvent)), ce, current)
      else
        var sa := SafeCall(after, se.ctx, false);
        var ca := ce + Invoked(after, OnAfter, se.ctx);
        if !sa.Returned? then Run(Err(Failure(sa, OnAfter)), ca, current)
        else Run(Ok, ca, Commit(se.value, ev.dst))
  }

  /** Invoking an action by name on a machine whose action table is
      `actions`: an unregistered name fails before anything runs. */
  function Invoke(actions: map<string, Event>, globals: map<string, Handler>,
                  current: Option<State>, inv: Invocation): (r: Run)
    ensures r.result.Err? ==> r.next == current
    ensures inv.name !in actions <==> r.result == Err(UnknownAction(inv.name))
    ensures inv.name !in actions ==> r.calls == []
  {
    if inv.name in actions then Transition(actions[inv.name], globals, current, inv.args, inv.kwargs)
    else Run(Err(UnknownAction(inv.name)), [], current)
  }

  /** The state after a sequence of invocations, each one starting from the
      state the previous one left. */
  function Replay(actions: map<string, Event>, globals: map<string, Handler>,
                  current: Option<State>, invs: seq<Invocation>): (final: Option<State>)
    decreases |invs|
  {
    if invs == [] then current
    else Replay(actions, globals, Invoke(actions, globals, current, invs[0]).next, invs[1..])
  }

  /** A firing succeeds exactly when the event slot resolves to something
      callable and none of the callbacks that ran raised. */
  lemma TransitionSucceedsIff(ev: Event, globals: map<string, Handler>, current: Option<State>,
                              args: seq<Value>, kwargs: map<string, Value>)
    ensures var r := Transition(ev, globals, current, args, kwargs);
      r.result.Ok? <==>
        IsCallable(Resolve(ev, globals, OnEvent)) && forall c :: c in r.calls ==> c.outcome.Return?
  {
  }

  /** A non-callable or missing event slot fails every firing, also of an
      event with a single destination; only before can have run. */
  lemma MissingEventFails(ev: Event, globals: map<string, Handler>, current: Option<State>,
                          args: seq<Value>, kwargs: map<string, Value>)
    requires !IsCallable(Resolve(ev, globals, OnEvent))
    ensures var r := Transition(ev, globals, current, args, kwargs);
      (r.result == Err(TransitionError) || r.result == Err(CallbackRaised(OnBefore))) &&
      r.next == current &&
      forall c :: c in r.calls ==> c.slot == OnBefore
  {
  }

  /** A successful firing of an event with a list destination commits
      exactly the value its event callback returned. */
  lemma ManyCommitsEventReturn(ev: Event, globals: map<string, Handler>, current: Option<State>,
                               args: seq<Value>, kwargs: map<string, Value>)
    requires ev.dst.Many?
    ensures var r := Transition(ev, globals, current, args, kwargs);
      r.result.Ok? ==>
        exists c :: c in r.calls && c.slot == OnEvent && c.outcome.Return? && c.outcome.value == r.next
  {
  }

  /** Callbacks run in the order before, event, after, each at most once. */
  lemma CallsInSlotOrder(ev: Event, globals: map<string, Handler>, current: Option<State>,
                         args: seq<Value>, kwargs: map<string, Value>)
    ensures var r := Transition(ev, globals, current, args, kwargs);
      forall i, j :: 0 <= i < j < |r.calls| ==> Rank(r.calls[i].slot) < Rank(r.calls[j].slot)
  {
  }

  /** Only the slots that resolved to a callable are called. */
  lemma CallsOnlyCallable(ev: Event, globals: map<string, Handler>, current: Option<State>,
                          args: seq<Value>, kwargs: map<string, Value>)
    ensures var r := Transition(ev, globals, current, args, kwargs);
      forall c :: c in r.calls ==> IsCallable(Resolve(ev, globals, c.slot))
  {
  }

  /** Each recorded outcome is what the slot's handler does on the context
      recorded with it. */
  lemma CallOutcomesFromHandlers(ev: Event, globals: map<string, Handler>, current: Option<State>,
                                 args: seq<Value>, kwargs: map<string, Value>)
    ensures var r := Transition(ev, globals, current, args, kwargs);
      forall c :: c in r.calls ==>
        IsCallable(Resolve(ev, globals, c.slot)) && c.outcome == Resolve(ev, globals, c.slot).value.call(c.ctx)
  {
    CallsOnlyCallable(ev, globals, current, args, kwargs);
  }

  /** With before and after skipped, a firing whose event handler returns on
      the initial context succeeds and commits: the fixed destination, or
      for a list destination exactly the handler's value. */
  lemma EventHandlerDecidesCommit(ev: Event, globals: map<string, Handler>, current: Option<State>,
                                  args: seq<Value>, kwargs: map<string, Value>)
    requires !IsCallable(Resolve(ev, globals, OnBefore)) && !IsCallable(Resolve(ev, globals, OnAfter))
    requires IsCallable(Resolve(ev, globals, OnEvent))
    requires Resolve(ev, globals, OnEvent).value.call(InitialContext(current, ev.action, args, kwargs)).Return?
    ensures var r := Transition(ev, globals, current, args, kwargs);
      var out := Resolve(ev, globals, OnEvent).value.call(InitialContext(current, ev.action, args, kwargs));
      r.result == Ok && r.next == Commit(out.value, ev.dst) &&
      (ev.dst.Many? ==> r.next == out.value)
  {
  }

  /** A callback that raises is the last one to run, and its slot is the
      one the error names. */
  lemma RaisingCallIsLast(ev: Event, globals: map<string, Handler>, current: Option<State>,
                          args: seq<Value>, kwargs: map<string, Value>)
    ensures var r := Transition(ev, globals, current, args, kwargs);
      r.result.Err? && r.result.error.CallbackRaised? ==>
        |r.calls| > 0 && r.calls[|r.calls| - 1].slot == r.result.error.slot &&
        r.calls[|r.calls| - 1].outcome.Raise?
  {
  }

  /** On success, every slot that resolved to a callable was called. */
  lemma SuccessRunsEveryCallable(ev: Event, globals: map<string, Handler>, current: Option<State>,
                                 args: seq<Value>, kwargs: map<string, Value>, slot: Slot)
    requires IsCallable(Resolve(ev, globals, slot))
    ensures var r := Transition(ev, globals, current, args, kwargs);
      r.result.Ok? ==> exists c :: c in r.calls && c.slot == slot
  {
  }

  /** The first callback sees the state read before any callback ran and
      the action name; each later callback sees the context the previous
      one left behind. */
  lemma ContextThreaded(ev: Event, globals: map<string, Handler>, current: Option<State>,
                        args: seq<Value>, kwargs: map<string, Value>)
    ensures var r := Transition(ev, globals, current, args, kwargs);
      (|r.calls| > 0 ==>
         r.calls[0].ctx == InitialContext(current, ev.action, args, kwargs) &&
         r.calls[0].ctx.src == current && r.calls[0].ctx.event == ev.action) &&
      forall i :: 0 <= i < |r.calls| - 1 ==>
        r.calls[i].outcome.Return? && r.calls[i + 1].ctx == r.calls[i].outcome.ctx
  {
  }

  /** When before raises, neither event nor after runs and the state stays. */
  lemma BeforeRaiseStopsFiring(ev: Event, globals: map<string, Handler>, current: Option<State>,
                               args: seq<Value>, kwargs: map<string, Value>)
    requires IsCallable(Resolve(ev, globals, OnBefore))
    requires Resolve(ev, globals, OnBefore).value.call(InitialContext(current, ev.action, args, kwargs)).Raise?
    ensures var r := Transition(ev, globals, current, args, kwargs);
      r.result == Err(CallbackRaised(OnBefore)) && r.next == current &&
      r.calls == [Call(OnBefore, InitialContext(current, ev.action, args, kwargs), Raise)]
  {
  }

  /** A missing or non-callable before or after slot is skipped on its own:
      no call is recorded for it, and it has no say in whether the firing
      succeeds, which depends only on the event slot and on the callbacks
      that did run. */
  lemma SkippedHookDoesNotBlock(ev: Event, globals: map<string, Handler>, current: Option<State>,
                                args: seq<Value>, kwargs: map<string, Value>, slot: Slot)
    requires slot != OnEvent
    requires !IsCallable(Resolve(ev, globals, slot))
    ensures var r := Transition(ev, globals, current, args, kwargs);
      (forall c :: c in r.calls ==> c.slot != slot) &&
      (r.result.Ok? <==>
        IsCallable(Resolve(ev, globals, OnEvent)) && forall c :: c in r.calls ==> c.outcome.Return?)
  {
  }

  /** An entry in the event's own table for a slot decides that slot,
      whatever the global table holds, even when the entry is not callable. */
  lemma OwnEntryShadowsGlobal(ev: Event, g1: map<string, Handler>, g2: map<string, Handler>, slot: Slot)
    requires Key(slot) in Own(ev)
    ensures Resolve(ev, g1, slot) == Resolve(ev, g2, slot) == Some(Own(ev)[Key(slot)])
  {
  }

  /** Resolution is independent per slot: changing the entry of another
      slot, in the event's own table or in the global table, does not
      change how `slot` resolves. */
  lemma ResolvePerSlot(ev: Event, globals: map<string, Handler>, slot: Slot, other: Slot, h: Handler)
    requires other != slot
    ensures Resolve(ev.(callbacks := Some(Own(ev)[Key(other) := h])), globals, slot) == Resolve(ev, globals, slot)
    ensures Resolve(ev, globals[Key(other) := h], slot) == Resolve(ev, globals, slot)
  {
  }

  /** The event's `src` list is never consulted: firing is the same from
      whatever sources the event declares. */
  lemma SourceNeverConsulted(ev: Event, src: States, globals: map<string, Handler>, current: Option<State>,
                             args: seq<Value>, kwargs: map<string, Value>)
    ensures Transition(ev.(src := src), globals, current, args, kwargs) == Transition(ev, globals, current, args, kwargs)
  {
  }

  /** Replaying a sequence of invocations and then another is replaying the
      second from the state the first left. `FireAll` uses it to tie a run of
      `Fire` calls on a machine to `Replay`. */
  lemma {:induction false} ReplayAppend(actions: map<string, Event>, globals: map<string, Handler>,
                                        current: Option<State>, xs: seq<Invocation>, ys: seq<Invocation>)
    ensures Replay(actions, globals, current, xs + ys) ==
            Replay(actions, globals, Replay(actions, globals, current, xs), ys)
    decreases |xs|
  {
    if xs != [] {
      assert (xs + ys)[0] == xs[0];
      assert (xs + ys)[1..] == xs[1..] + ys;
      ReplayAppend(actions, globals, Invoke(actions, globals, current, xs[0]).next, xs[1..], ys);
    } else {
      assert xs + ys == ys;
    }
  }

  /** Invocations that can only fail (unknown names, or events whose event
      slot is not callable) never move the machine, however many there are. */
  lemma {:induction false} FailingInvocationsKeepState(actions: map<string, Event>, globals: map<string, Handler>,
                                                       current: Option<State>, invs: seq<Invocation>)
    requires forall i :: 0 <= i < |invs| ==>
      invs[i].name !in actions || !IsCallable(Resolve(actions[invs[i].name], globals, OnEvent))
    ensures Replay(actions, globals, current, invs) == current
    decreases |invs|
  {
    if invs != [] {
      var inv := invs[0];
      if inv.name in actions {
        MissingEventFails(actions[inv.name], globals, current, inv.args, inv.kwargs);
      }
      FailingInvocationsKeepState(actions, globals, current, invs[1..]);
    }
  }
}
