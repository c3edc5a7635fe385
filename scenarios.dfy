/** Small concrete machines, fired through the `Machine` class, that show
    the engine's behaviour on particular descriptions. */
module Scenarios {
  import opened Description
  import opened Protocol
  import opened Engine

  /** An on_event callback that returns `None` and leaves the context alone. */
  function ReturnsNothing(): (h: Handler)
  {
    Callable((c: Context) => Return(None, c))
  }

  /** An on_event callback that picks "B" when the keyword argument `flag`
      is true, "C" otherwise. */
  function Decider(): (h: Handler)
  {
    Callable((c: Context) =>
      if "flag" in c.kwargs && c.kwargs["flag"] == BoolV(true) then Return(Some("B"), c)
      else Return(Some("C"), c))
  }

  function StartEvent(callbacks: Option<map<string, Handler>>): (ev: Event)
  {
    Event("start", Single("idle"), Single("running"), callbacks)
  }

  /** Without any on_event callback, a single-destination action never
      fires: the transition error is raised and the state stays. */
  method NoEventCallbackNeverFires() returns (r: Result)
    ensures r == Err(TransitionError)
  {
    var m := new Machine(Desc(Some("idle"), [StartEvent(None)], None));
    assert m.actions == map["start" := StartEvent(None)];
    var calls;
    r, calls := m.Fire("start", [], map[]);
    assert m.current == Some("idle");
  }

  /** With a global on_event, "start" moves "idle" to "running"; fired again
      from "running", which is not among its sources, it still succeeds and
      stays at "running". */
  method StartFiresFromAnyState() returns (first: Result, afterFirst: Option<State>,
                                           second: Result, afterSecond: Option<State>)
    ensures first == Ok && afterFirst == Some("running")
    ensures second == Ok && afterSecond == Some("running")
  {
    var m := new Machine(Desc(Some("idle"), [StartEvent(None)], Some(map["on_event" := ReturnsNothing()])));
    assert m.actions == map["start" := StartEvent(None)];
    var calls;
    first, calls := m.Fire("start", [], map[]);
    afterFirst := m.current;
    second, calls := m.Fire("start", [], map[]);
    afterSecond := m.current;
  }

  /** A list destination takes whatever the event callback returns. */
  method DecideByFlag() returns (b: Option<State>, c: Option<State>)
    ensures b == Some("B") && c == Some("C")
  {
    var decide := Event("decide", Single("A"), Many(["B", "C"]), Some(map["on_event" := Decider()]));
    var m := new Machine(Desc(Some("A"), [decide], None));
    assert m.actions == map["decide" := decide];
    var r, calls := m.Fire("decide", [], map["flag" := BoolV(true)]);
    b := m.current;
    r, calls := m.Fire("decide", [], map["flag" := BoolV(false)]);
    c := m.current;
  }

  /** A list destination is not a constraint: a callback returning a state
      outside the list moves the machine there. */
  method UndeclaredDestinationCommitted() returns (state: Option<State>)
    ensures state == Some("Z")
  {
    var wander := Callable((c: Context) => Return(Some("Z"), c));
    var decide := Event("decide", Single("A"), Many(["B", "C"]), Some(map["on_event" := wander]));
    var m := new Machine(Desc(Some("A"), [decide], None));
    assert m.actions == map["decide" := decide];
    var r, calls := m.Fire("decide", [], map[]);
    state := m.current;
  }
}
