/** The machine object: it is built from a description, and its only
    state that firing changes is `current`. The attribute table the
    description fills in at construction is modelled by two maps: the
    global callbacks and the registered actions. */
module Engine {
  import opened Description
  import opened Protocol

  class Machine {
    const desc: Desc
    /** The state the machine is in; `None` until an initial state is set. */
    var current: Option<State>
    /** Global callbacks, by key, as registered from the description. */
    var globals: map<string, Handler>
    /** Registered actions, by name. */
    var actions: map<string, Event>

    /** Builds the machine: the state starts empty and the description is
        parsed, without any validation of it. */
    constructor (desc: Desc)
      ensures this.desc == desc
      ensures current == desc.initial
      ensures desc.callbacks.Some? ==> globals == desc.callbacks.value
      ensures desc.callbacks.None? ==> globals == map[]
      ensures actions == Registered(desc.events)
    {
      this.desc := desc;
      current := None;
      globals := map[];
      actions := map[];
      new;
      ParseDesc();
      assert map[] + Registered(desc.events) == Registered(desc.events);
    }

    /** Sets the initial state when the description has one, registers the
        global callbacks when it has them, then registers every event in
        list order. */
    method ParseDesc()
      modifies this`current, this`globals, this`actions
      ensures desc.initial.Some? ==> current == desc.initial
      ensures desc.initial.None? ==> current == old(current)
      ensures desc.callbacks.Some? ==> globals == old(globals) + desc.callbacks.value
      ensures desc.callbacks.None? ==> globals == old(globals)
      ensures actions == old(actions) + Registered(desc.events)
    {
      if desc.initial.Some? {
        current := desc.initial;
      }
      if desc.callbacks.Some? {
        RegisterGlobalCallbacks(desc.callbacks.value);
      }
      var events := desc.events;
      var i := 0;
      assert events[..0] == [];
      assert actions == old(actions) + map[];
      while i < |events|
        invariant 0 <= i <= |events|
        invariant actions == old(actions) + Registered(events[..i])
        modifies this`actions
      {
        RegisteredSnoc(events, i);
        RegisterEvent(events[i]);
        UpdateAfterUnion(old(actions), Registered(events[..i]), events[i].action, events[i]);
        i := i + 1;
      }
      assert events[..i] == events;
    }

    /** Stores every entry of the global callbacks table on the machine; an
        entry replaces one of the same key. */
    method RegisterGlobalCallbacks(table: map<string, Handler>)
      modifies this`globals
      ensures globals == old(globals) + table
    {
      var todo := table.Keys;
      while todo != {}
        invariant todo <= table.Keys
        invariant globals == old(globals) + map k | k in table.Keys - todo :: table[k]
        decreases todo
      {
        var k :| k in todo;
        globals := globals[k := table[k]];
        todo := todo - {k};
      }
      assert table == map k | k in table.Keys - todo :: table[k];
    }

    /** Binds the event's action name to the event, replacing any earlier
        event of the same name. */
    method RegisterEvent(ev: Event)
      modifies this`actions
      ensures actions == old(actions)[ev.action := ev]
    {
      actions := actions[ev.action := ev];
    }

    /** Commits the destination: a list `dst` takes the event callback's
        return value, any other `dst` is taken as it is. */
    method SafeSetCurrent(returned: Option<State>, ev: Event)
      modifies this`current
      ensures current == Commit(returned, ev.dst)
      ensures ev.dst.Single? ==> current == Some(ev.dst.state)
      ensures ev.dst.Many? ==> current == returned
    {
      if ev.dst.Many? {
        current := returned;
      } else {
        current := Some(ev.dst.state);
      }
    }

    /** Fires the action `name`: the state is read into a fresh context,
        the three slots are resolved, before, event and after are called
        in turn, and the destination is committed only when all three
        returned. `calls` records the callbacks that ran. */
    method Fire(name: string, args: seq<Value>, kwargs: map<string, Value>) returns (r: Result, calls: seq<Call>)
      modifies this`current
      ensures var run := Invoke(actions, globals, old(current), Invocation(name, args, kwargs));
        r == run.result && calls == run.calls && current == run.next
      ensures r.Err? ==> current == old(current)
      ensures r.Ok? && name in actions && actions[name].dst.Single? ==> current == Some(actions[name].dst.state)
    {
      if name !in actions {
        return Err(UnknownAction(name)), [];
      }
      var ev := actions[name];
      var ctx := InitialContext(current, ev.action, args, kwargs);
      var fnBefore := Resolve(ev, globals, OnBefore);
      var fnEvent := Resolve(ev, globals, OnEvent);
      var fnAfter := Resolve(ev, globals, OnAfter);

      var sb := SafeCall(fnBefore, ctx, false);
      calls := Invoked(fnBefore, OnBefore, ctx);
      if !sb.Returned? {
        return Err(Failure(sb, OnBefore)), calls;
      }
      var se := SafeCall(fnEvent, sb.ctx, true);
      calls := calls + Invoked(fnEvent, OnEvent, sb.ctx);
      if !se.Returned? {
        return Err(Failure(se, OnEvent)), calls;
      }
      var sa := SafeCall(fnAfter, se.ctx, false);
      calls := calls + Invoked(fnAfter, OnAfter, se.ctx);
      if !sa.Returned? {
        return Err(Failure(sa, OnAfter)), calls;
      }
      SafeSetCurrent(se.value, ev);
      r := Ok;
    }
  }

  /** A caller firing invocations on one machine, one after another: the
      machine ends in the state `Replay` gives, each result is that of its
      invocation from the state the earlier ones left, and the tables are
      untouched. */
  method FireAll(m: Machine, invs: seq<Invocation>) returns (results: seq<Result>)
    modifies m`current
    ensures m.current == Replay(m.actions, m.globals, old(m.current), invs)
    ensures |results| == |invs|
    ensures forall k :: 0 <= k < |invs| ==>
      results[k] == Invoke(m.actions, m.globals, Replay(m.actions, m.globals, old(m.current), invs[..k]), invs[k]).result
  {
    results := [];
    var i := 0;
    assert invs[..0] == [];
    while i < |invs|
      invariant 0 <= i <= |invs|
      invariant |results| == i
      invariant m.current == Replay(m.actions, m.globals, old(m.current), invs[..i])
      invariant forall k :: 0 <= k < i ==>
        results[k] == Invoke(m.actions, m.globals, Replay(m.actions, m.globals, old(m.current), invs[..k]), invs[k]).result
    {
      ghost var before := m.current;
      var r, calls := m.Fire(invs[i].name, invs[i].args, invs[i].kwargs);
      ReplayAppend(m.actions, m.globals, old(m.current), invs[..i], [invs[i]]);
      assert invs[..i + 1] == invs[..i] + [invs[i]];
      assert Replay(m.actions, m.globals, before, [invs[i]]) == m.current by {
        assert [invs[i]][1..] == [];
      }
      results := results + [r];
      i := i + 1;
    }
    assert invs[..i] == invs;
  }

  /** Binding a key after a union is binding it in the right operand. */
  lemma UpdateAfterUnion<K, V>(m: map<K, V>, d: map<K, V>, k: K, v: V)
    ensures (m + d)[k := v] == m + d[k := v]
  {
  }
}
