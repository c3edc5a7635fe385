# Verified model of a declarative state machine engine

This project models the `Machine` class of `machine.py`, a small state machine
interpreter. A machine is built from an in-memory description. The description
holds an optional initial state, a list of events and an optional table of global
callbacks. Each event has an action name, a `src`, a `dst` (one state or a list
of states) and an optional table of its own callbacks under the keys
`on_before`, `on_event` and `on_after`.

Firing an action reads `current` into a fresh context. It then resolves each
of the three callback slots on its own: the event's own entry if its table has
the key, otherwise the global entry, otherwise nothing. It calls before, event
and after in turn. Before and after are skipped when they are not callable. A
non-callable event slot raises `TransitionError`. When all three return, the
destination is committed. A non-list `dst` is taken as it is. A list `dst`
takes the event callback's return value.

The files:

- `description.dfy` (module `Description`) holds the description and the values
  one firing uses. These are the context, a callback's outcome and the slot
  keys. It also holds `Registered`, the action table that registering the
  events in order produces.
- `protocol.dfy` (module `Protocol`) holds the firing protocol as pure
  functions: `Resolve`, `SafeCall`, `Commit`, `Transition` (one firing of a
  registered event), `Invoke` (firing by name) and `Replay` (a sequence of
  firings). It also holds the lemmas about them.
- `engine.dfy` (module `Engine`) holds the `Machine` class. Its fields are
  `current`, the global callbacks table and the action table. Its methods are
  the constructor, `ParseDesc`, `RegisterGlobalCallbacks`, `RegisterEvent`,
  `SafeSetCurrent` and `Fire`. `Fire` is proved equal to `Protocol.Invoke`, and
  it may change `current` and nothing else. Beside the class, `FireAll` is a
  caller firing a list of invocations in turn, proved to follow `Protocol.Replay`.
- `scenarios.dfy` (module `Scenarios`) builds small concrete machines through
  the class and fires them.

Callbacks are foreign code. A callback is a `Handler`: either
`Callable(call)`, where `call` is an arbitrary total function from the context to
an `Outcome`, or `NotCallable` for any stored value that cannot be called. An
`Outcome` is `Raise` (any exception, including a deliberate abort) or
`Return(value, ctx)`. The `ctx` part is the shared context as the callback left
it, which models callbacks attaching attributes to the context object. `Fire`
also returns `calls`, the list of callbacks that ran, each with the context it
got and what it did. This list stands in for the callbacks' side effects.

The model follows the code where a stricter design would differ:

- `current` is never checked against the event's `src`, so an action fires from
  any state (`Protocol.SourceNeverConsulted`, `Scenarios.StartFiresFromAnyState`).
- A list-destination result is never checked against the list
  (`Scenarios.UndeclaredDestinationCommitted`). A one-element list is still a
  list.
- The description is not validated at construction. Duplicate action names
  are allowed, and the last event registered under a name wins.
- A single-destination event with no callable `on_event` does not fire. It
  raises `TransitionError` like any other event (`Protocol.MissingEventFails`,
  `Scenarios.NoEventCallbackNeverFires`). The documented rule that a single
  destination is chosen "irrespective of the on_event handler" holds for the
  handler's return value only.
- Failures are the source's `TransitionError`, exceptions escaping from
  callbacks, and the attribute error of firing an unregistered name. There are
  no separate configuration, unknown-action or illegal-transition error kinds.

## Model

| member | source | states |
|---|---|---|
| Description.RegisteredLastWins | machine.py:78-89 | a name is registered iff some event declares it, and it is bound to the last such event in list order |
| Protocol.Resolve | machine.py:119-129 | the event's own entry for the slot wins whenever its key is present, callable or not; otherwise the global entry; nothing only when neither table has the key |
| Protocol.SafeCall | machine.py:131-142 | a callable handler is called and its raise or return passes through; a non-callable one raises the transition error when asked to, and otherwise returns nothing with the context untouched |
| Protocol.Commit | machine.py:144-153 | a single destination is committed whatever the event callback returned; a list destination commits exactly the returned value, with no membership check |
| Protocol.Transition | machine.py:93-115 | a failed firing leaves the state unchanged and is never an unknown-action error; a successful single-destination firing lands on that destination |
| Protocol.Invoke | machine.py:88-89 | firing an unregistered name fails before any callback runs and leaves the state unchanged; any failure leaves the state unchanged |
| Protocol.TransitionSucceedsIff | machine.py:108-115 | a firing succeeds iff the event slot resolves to a callable and no callback that ran raised |
| Protocol.MissingEventFails | machine.py:138-142 | a missing or non-callable event slot makes every firing fail, single destination included, with the transition error unless before raised first; the state stays and only before can have run |
| Protocol.ManyCommitsEventReturn | machine.py:150-151 | a successful list-destination firing commits exactly the value the event callback returned |
| Protocol.CallsInSlotOrder | machine.py:111-113 | callbacks run in the order before, event, after, each at most once |
| Protocol.CallsOnlyCallable | machine.py:138-140 | only slots that resolved to a callable are called |
| Protocol.CallOutcomesFromHandlers | machine.py:138-139 | each recorded call's slot resolved to a callable, and its outcome is what that handler does on the context it was given |
| Protocol.EventHandlerDecidesCommit | machine.py:112-115 | with before and after skipped, an event handler that returns on the initial context makes the firing succeed and commit the fixed destination, or for a list destination exactly the handler's value |
| Protocol.RaisingCallIsLast | machine.py:111-115 | a callback that raises is the last one to run, and the error names its slot |
| Protocol.SuccessRunsEveryCallable | machine.py:138-139 | on success every slot that resolved to a callable was called |
| Protocol.ContextThreaded | machine.py:97-113 | the first callback gets the initial context, whose src is the state read before any callback ran and whose event is the action name; each later callback gets the context the previous one left |
| Protocol.BeforeRaiseStopsFiring | machine.py:111-115 | when before raises, neither event nor after runs and the state stays |
| Protocol.SkippedHookDoesNotBlock | machine.py:138-140 | a missing or non-callable before or after slot, each on its own, records no call and has no say in success, which holds iff the event slot is callable and every callback that ran returned |
| Protocol.OwnEntryShadowsGlobal | machine.py:126-127 | an own entry for a slot decides that slot whatever the global table holds |
| Protocol.ResolvePerSlot | machine.py:108-110 | changing another slot's entry, own or global, does not change how a slot resolves |
| Protocol.SourceNeverConsulted | machine.py:99-115 | the event's src list has no effect on a firing |
| Protocol.ReplayAppend | machine.py:99-115 | replaying two sequences of invocations in turn equals replaying the second from the state the first left (the composition law FireAll relies on) |
| Protocol.FailingInvocationsKeepState | machine.py:112-115 | any number of invocations that can only fail never move the machine |
| Engine.Machine.constructor | machine.py:68-71 | the state is the description's initial state, or none when it has none; globals are its callbacks table; actions are its events registered in order |
| Engine.Machine.ParseDesc | machine.py:73-79 | sets the initial state only when present, adds the global callbacks only when present, and registers every event in list order |
| Engine.Machine.RegisterGlobalCallbacks | machine.py:81-86 | every entry of the table is stored, replacing an entry of the same key |
| Engine.Machine.RegisterEvent | machine.py:88-89 | the action name is bound to the event, replacing an earlier binding |
| Engine.Machine.SafeSetCurrent | machine.py:144-153 | the new state is the fixed destination, or the returned value for a list destination |
| Engine.Machine.Fire | machine.py:93-115 | result, callbacks run and new state are those of `Protocol.Invoke` from the old state; a failure leaves the state unchanged; only the state may change |
| Engine.FireAll | machine.py:93-115 | firing invocations one after another on one machine ends in the state `Replay` gives, and each result is that of its invocation from the state the earlier ones left |
| Scenarios.NoEventCallbackNeverFires | machine.py:108-115 | a machine with no on_event anywhere fails to fire its single-destination action |
| Scenarios.StartFiresFromAnyState | machine.py:150-153 | a single-destination action moves "idle" to "running", then fires again from "running", which is not among its sources, and stays at "running" |
| Scenarios.DecideByFlag | machine.py:150-151 | a list destination follows the event callback's choice driven by a keyword argument |
| Scenarios.UndeclaredDestinationCommitted | machine.py:150-151 | a state outside the destination list returned by the event callback is committed |

## Left out

- Missing `events`, `action` or `dst` keys raise `KeyError` in the source. The model's types make these keys required, so that error path is not modelled.
- Actions, global callbacks and the machine's own methods share one attribute namespace in the source. An action named `on_event`, or a global callback named like a method, interferes with lookup. The model keeps separate tables, and global lookup sees only the global callbacks.
- Engine.Machine.constructor: an action or a global callbacks key named `current`, `desc` or like a method overwrites that attribute of the machine in the source (so `current` can differ from the initial state after construction); the model keeps the machine's fields apart from both tables and does not capture these collisions.
- Protocol.ContextThreaded: in the source, keyword arguments are set on the context after `src` and `event`, so a keyword argument named `src` or `event` replaces what callbacks read there, and one named `args` is hidden by the positional arguments; the model keeps these as separate fields and does not capture the collisions.
- Callbacks that keep their own state across firings (closures, module globals) are not modelled: a callback is a function of the context alone, so in the model one firing depends only on the state, the arguments and the two tables.
- The text of error messages and `fn.__name__` are not modelled.
- Callback bodies are arbitrary total functions of the context. A callback that reaches back into the machine is not modelled. This covers writing `current` directly, re-registering callbacks and firing re-entrantly.
- Values that callbacks return are modelled as an optional state. Invocation arguments are modelled as a small value type. Other Python objects are not modelled.
- All non-callable slot values (None, strings, numbers) are collapsed into one `NotCallable` case.
- `DOCUMENTATION` is prose. No parser exists, because the description is an already-built structure.
- The Python 2 dictionary APIs (`has_key`, `iteritems`) are modelled as map membership and iteration over the key set.
- Concurrency is left out. The source has none.
- Aliasing of the description is not modelled. In the source each registered action keeps a reference to its event dictionary, reads its `callbacks` at every firing and its `dst` only at commit time, after the callbacks ran; mutating the description after construction, or from a callback, changes later firings. The model copies each `Event` value at registration.
- The Python class of an exception is not modelled. A before or after callback that aborts by raising `TransitionError` appears as `CallbackRaised` of its slot; the model's `Error` records where a failure came from, not which exception class it was.
