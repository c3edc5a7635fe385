/** The in-memory machine description a `Machine` is built from, and the
    values that flow through one firing: the context handed to callbacks,
    what a callback does, and the record of the callbacks that ran. */
module Description {

  /** A state label. States are compared only for identity. */
  type State = string

  datatype Option<T> = None | Some(value: T)

  /** Opaque invocation data: positional and keyword arguments of a firing. */
  datatype Value = NoneV | BoolV(b: bool) | IntV(i: int) | StrV(s: string)

  /** The object handed to every callback of one firing. `src` is the state
      read when the firing starts, `event` the action name, `args` and
      `kwargs` what the caller passed, and `attached` whatever callbacks
      store on it for the callbacks that run after them. */
  datatype Context = Context(
    src: Option<State>,
    event: string,
    args: seq<Value>,
    kwargs: map<string, Value>,
    attached: map<string, Value>)

  /** What a call of a user callback does: it raises (any exception,
      including a deliberate abort) or it returns a value, leaving the
      shared context as `ctx`. The returned value only matters for the
      event slot; Python's `None` is `Return(None, _)`. */
  datatype Outcome = Raise | Return(value: Option<State>, ctx: Context)

  /** A value stored in a callback slot: a callable, whose behaviour is an
      arbitrary total function of the context, or anything else. */
  datatype Handler = Callable(call: Context -> Outcome) | NotCallable

  /** The three callback slots, in the order a firing visits them. */
  datatype Slot = OnBefore | OnEvent | OnAfter

  /** The key under which a slot is looked up in a callbacks table. */
  function Key(slot: Slot): (k: string)
  {
    match slot
    case OnBefore => "on_before"
    case OnEvent => "on_event"
    case OnAfter => "on_after"
  }

  /** Position of a slot in the firing order. */
  function Rank(slot: Slot): (n: nat)
  {
    match slot
    case OnBefore => 0
    case OnEvent => 1
    case OnAfter => 2
  }

  /** A `src` or `dst` entry: one state, or a list of states. A list with a
      single element is still a list. */
  datatype States = Single(state: State) | Many(states: seq<State>)

  /** One element of the description's event list. */
  datatype Event = Event(
    action: string,
    src: States,
    dst: States,
    callbacks: Option<map<string, Handler>>)

  /** The whole description: optional initial state, the event list, and
      an optional table of global callbacks. */
  datatype Desc = Desc(
    initial: Option<State>,
    events: seq<Event>,
    callbacks: Option<map<string, Handler>>)

  /** The per-event callbacks table, empty when the event has none. */
  function Own(ev: Event): (table: map<string, Handler>)
  {
    if ev.callbacks.Some? then ev.callbacks.value else map[]
  }

  /** The action table after registering `events` one after another into
      an empty table: a later event with the same action name replaces an
      earlier one. */
  function Registered(events: seq<Event>): (table: map<string, Event>)
  {
    if events == [] then map[]
    else
      var last := events[|events| - 1];
      Registered(events[..|events| - 1])[last.action := last]
  }

  /** An action name is registered exactly when some event declares it, and
      it is bound to the LAST event in the list that declares it. */
  lemma {:induction false} RegisteredLastWins(events: seq<Event>, a: string)
    ensures a in Registered(events) <==> exists i :: 0 <= i < |events| && events[i].action == a
    ensures a in Registered(events) ==>
      exists i :: 0 <= i < |events| && events[i].action == a && Registered(events)[a] == events[i] &&
        forall j :: i < j < |events| ==> events[j].action != a
  {
    if events != [] {
      var n := |events| - 1;
      var prefix := events[..n];
      RegisteredLastWins(prefix, a);
      if events[n].action == a {
        assert Registered(events)[a] == events[n];
      } else {
        assert a in Registered(events) <==> a in Registered(prefix);
        if a in Registered(prefix) {
          assert Registered(events)[a] == Registered(prefix)[a];
          var i :| 0 <= i < n && prefix[i].action == a && Registered(prefix)[a] == prefix[i] &&
            forall j :: i < j < n ==> prefix[j].action != a;
          assert events[i] == prefix[i];
          assert forall j :: i < j < |events| ==> events[j].action != a by {
            forall j | i < j < |events| ensures events[j].action != a {
              if j < n { assert events[j] == prefix[j]; }
            }
          }
        } else {
          forall i | 0 <= i < |events| ensures events[i].action != a {
            if i < n { assert events[i] == prefix[i]; }
          }
        }
      }
    }
  }

  /** Registering one more event is one more binding. */
  lemma RegisteredSnoc(events: seq<Event>, i: nat)
    requires i < |events|
    ensures Registered(events[..i + 1]) == Registered(events[..i])[events[i].action := events[i]]
  {
    assert events[..i + 1][..i] == events[..i];
  }
}
