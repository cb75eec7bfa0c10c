/**
The recursive dispatch of events to plugins.

A plugin may answer anything, each time: answers(k) is the arbitrary result of the k-th call of HandleEvents that the
hub makes.  The plugin map is visited in an arbitrary order.  Each run of HandlePlugins is described by the forest of
the calls that it made; IsDispatch says which forests a run may produce, Records that a forest has the answers which
the plugins gave, and the theorems are about all of them.
*/
module PluginDispatch {
  import opened Wrappers
  import opened Events
  import opened Sequences

  type Name = string

  // An element of a slice of events, which may be nil.
  type Slot = Option<Event>

  // What a run needs to know about the plugins: their event filters, and the outcome of compiling and running one.
  datatype Plugins = Plugins(filters: map<Name, string>, accepts: (string, Event) -> bool)

  // One call of HandleEvents: its input, its answer (None for an error) and the calls made for the answer.
  datatype Call = Call(plugin: Name, input: seq<Event>, result: Option<seq<Event>>, sub: seq<Call>)

  // An event without a target filter passes every plugin filter.
  predicate Passes(ps: Plugins, filter: string, e: Event) {
    filter == "" || e.targetFilter == "" || ps.accepts(filter, e)
  }

  function Passing(ps: Plugins, filter: string, events: seq<Event>): seq<Event> {
    if events == [] then []
    else
      var front := Passing(ps, filter, events[..|events| - 1]);
      var last := events[|events| - 1];
      if Passes(ps, filter, last) then front + [last] else front
  }

  // ---------------------------------------------------------------- the forests a run may produce

  // One level: every plugin that is not skipped and has something to handle is called once, nothing else is called.
  ghost predicate IsLevel(ps: Plugins, events: seq<Event>, skip: set<Name>, calls: seq<Call>) {
    && (forall i :: 0 <= i < |calls| ==>
          && calls[i].plugin in ps.filters && calls[i].plugin !in skip
          && calls[i].input == Passing(ps, ps.filters[calls[i].plugin], events) != [])
    && (forall i, j :: 0 <= i < j < |calls| ==> calls[i].plugin != calls[j].plugin)
    && (forall p :: p in ps.filters && p !in skip && Passing(ps, ps.filters[p], events) != [] ==>
          exists i :: 0 <= i < |calls| && calls[i].plugin == p)
  }

  ghost predicate IsDispatch(ps: Plugins, events: seq<Event>, skip: set<Name>, calls: seq<Call>)
    decreases calls
  {
    && IsLevel(ps, events, skip, calls)
    && forall i :: 0 <= i < |calls| ==> IsFollowUp(ps, skip, calls[i])
  }

  ghost predicate IsFollowUp(ps: Plugins, skip: set<Name>, call: Call)
    decreases call
  {
    match call.result
    case None => call.sub == []
    case Some(answer) => IsDispatch(ps, answer, skip + {call.plugin}, call.sub)
  }

  // ---------------------------------------------------------------- the same, said of plugins and events directly

  // A plugin with this filter gets these events: those without a target filter of their own and those that its filter
  // accepts, all of them if it has no filter, each once and in order.
  ghost predicate GetsExactly(ps: Plugins, filter: string, events: seq<Event>, input: seq<Event>) {
    exists idx ::
      && Picks(idx, input, events)
      && forall i :: 0 <= i < |events| ==>
           (i in idx <==> filter == "" || events[i].targetFilter == "" || ps.accepts(filter, events[i]))
  }

  ghost predicate GetsSomething(ps: Plugins, filter: string, events: seq<Event>) {
    exists e :: e in events && (filter == "" || e.targetFilter == "" || ps.accepts(filter, e))
  }

  ghost predicate IsCalled(calls: seq<Call>, p: Name) { exists i :: 0 <= i < |calls| && calls[i].plugin == p }

  // Exactly the plugins that are not skipped and get something are called, each once with what it gets, and so on for
  // the answer to each call, with the plugin skipped that gave it.
  ghost predicate IsExact(ps: Plugins, events: seq<Event>, skip: set<Name>, calls: seq<Call>)
    decreases calls
  {
    && (forall p :: IsCalled(calls, p) <==> p in ps.filters && p !in skip && GetsSomething(ps, ps.filters[p], events))
    && (forall i, j :: 0 <= i < j < |calls| ==> calls[i].plugin != calls[j].plugin)
    && forall i :: 0 <= i < |calls| ==> IsExactCall(ps, events, skip, calls[i])
  }

  ghost predicate IsExactCall(ps: Plugins, events: seq<Event>, skip: set<Name>, call: Call)
    decreases call
  {
    && call.plugin in ps.filters && GetsExactly(ps, ps.filters[call.plugin], events, call.input)
    && if call.result.None? then call.sub == []
       else IsExact(ps, call.result.value, skip + {call.plugin}, call.sub)
  }

  lemma {:induction false} PassingIsKept(ps: Plugins, filter: string, events: seq<Event>, flags: seq<bool>)
    requires |flags| == |events|
    requires forall i :: 0 <= i < |events| ==>
      (flags[i] <==> filter == "" || events[i].targetFilter == "" || ps.accepts(filter, events[i]))
    ensures Passing(ps, filter, events) == Keep(events, flags)
  {
    if events != [] { PassingIsKept(ps, filter, events[..|events| - 1], flags[..|events| - 1]); }
  }

  lemma PassingIsExact(ps: Plugins, filter: string, events: seq<Event>)
    ensures GetsExactly(ps, filter, events, Passing(ps, filter, events))
    ensures Passing(ps, filter, events) != [] <==> GetsSomething(ps, filter, events)
  {
    var flags := seq(|events|, i requires 0 <= i < |events| =>
      filter == "" || events[i].targetFilter == "" || ps.accepts(filter, events[i]));
    PassingIsKept(ps, filter, events, flags);
    var idx := KeepPicks(events, flags);
    if idx != [] { assert events[idx[0]] in events && idx[0] in idx; }
  }

  lemma {:induction false} DispatchIsExact(ps: Plugins, events: seq<Event>, skip: set<Name>, calls: seq<Call>)
    requires IsDispatch(ps, events, skip, calls)
    ensures IsExact(ps, events, skip, calls)
    decreases calls
  {
    forall p ensures IsCalled(calls, p) <==> p in ps.filters && p !in skip && GetsSomething(ps, ps.filters[p], events) {
      if p in ps.filters { PassingIsExact(ps, ps.filters[p], events); }
    }
    forall i | 0 <= i < |calls| ensures IsExactCall(ps, events, skip, calls[i]) {
      FollowUpIsExact(ps, events, skip, calls[i]);
    }
  }

  lemma {:induction false} FollowUpIsExact(ps: Plugins, events: seq<Event>, skip: set<Name>, call: Call)
    requires IsFollowUp(ps, skip, call) && call.plugin in ps.filters
    requires call.input == Passing(ps, ps.filters[call.plugin], events)
    ensures IsExactCall(ps, events, skip, call)
    decreases call
  {
    PassingIsExact(ps, ps.filters[call.plugin], events);
    if call.result.Some? { DispatchIsExact(ps, call.result.value, skip + {call.plugin}, call.sub); }
  }

  // ---------------------------------------------------------------- how many calls there are, and what they answer

  // How many calls of HandleEvents there are in a forest.
  ghost function Count(calls: seq<Call>): nat
    decreases calls
  {
    if calls == [] then 0 else Count(calls[..|calls| - 1]) + CallCount(calls[|calls| - 1])
  }

  ghost function CallCount(call: Call): nat
    decreases call
  {
    1 + Count(call.sub)
  }

  // What the plugins answer to the calls of HandleEvents, numbered over the life of the hub; None is an error.
  type Behaviour = nat -> Option<seq<Event>>

  // The recorded results are the plugins' answers from number from on, in the order in which the calls are made.
  ghost predicate Records(answers: Behaviour, calls: seq<Call>, from: nat)
    decreases calls
  {
    calls == [] ||
    var front := calls[..|calls| - 1];
    Records(answers, front, from) && RecordsCall(answers, calls[|calls| - 1], from + Count(front))
  }

  ghost predicate RecordsCall(answers: Behaviour, call: Call, from: nat)
    decreases call
  {
    call.result == answers(from) && Records(answers, call.sub, from + 1)
  }

  // The batches a run puts on each of the two channels: post-order of the non-empty answers.
  ghost function Outputs(calls: seq<Call>): seq<seq<Event>>
    decreases calls
  {
    if calls == [] then [] else Outputs(calls[..|calls| - 1]) + CallOutputs(calls[|calls| - 1])
  }

  ghost function CallOutputs(call: Call): seq<seq<Event>>
    decreases call
  {
    Outputs(call.sub) + Batch(call.result)
  }

  function Batch(result: Option<seq<Event>>): seq<seq<Event>> {
    if result.Some? && result.value != [] then [result.value] else []
  }

  // ---------------------------------------------------------------- the code

  class SkipSet {
    var names: set<Name>

    constructor (names: set<Name>)
      ensures this.names == names
    {
      this.names := names;
    }
  }

  class Hub {
    const plugins: Plugins
    const answers: Behaviour
    var called: nat                        // how often HandleEvents has been called so far
    var broadcastEvents: seq<seq<Event>>   // everything sent on the channel so far
    var eventHistory: seq<seq<Event>>

    constructor (plugins: Plugins, answers: Behaviour)
      ensures this.plugins == plugins && this.answers == answers && called == 0
      ensures broadcastEvents == [] && eventHistory == []
    {
      this.plugins, this.answers, called := plugins, answers, 0;
      broadcastEvents, eventHistory := [], [];
    }

    method HandleEvents(events: seq<Event>)
      modifies `broadcastEvents, `eventHistory
      ensures broadcastEvents == old(broadcastEvents) + Batch(Some(events))
      ensures eventHistory == old(eventHistory) + Batch(Some(events))
      ensures events == [] ==> broadcastEvents == old(broadcastEvents) && eventHistory == old(eventHistory)
      ensures events != [] ==>
        broadcastEvents == old(broadcastEvents) + [events] && eventHistory == old(eventHistory) + [events]
    {
      if |events| > 0 {
        broadcastEvents := broadcastEvents + [events];
        eventHistory := eventHistory + [events];
      }
    }

    method PassEvents(filter: string, events: seq<Event>) returns (pass: seq<Event>)
      ensures pass == Passing(plugins, filter, events) && GetsExactly(plugins, filter, events, pass)
    {
      pass := [];
      for i := 0 to |events|
        invariant pass == Passing(plugins, filter, events[..i])
      {
        assert events[..i + 1][..i] == events[..i];
        if filter != "" {
          if events[i].targetFilter == "" || plugins.accepts(filter, events[i]) {
            pass := pass + [events[i]];
          }
        } else {
          pass := pass + [events[i]];
        }
      }
      assert events[..|events|] == events;
      PassingIsExact(plugins, filter, events);
    }

    method HandlePlugins(events: seq<Event>, skip: SkipSet) returns (ghost calls: seq<Call>)
      modifies this
      ensures IsDispatch(plugins, events, skip.names, calls) && IsExact(plugins, events, skip.names, calls)
      ensures Records(answers, calls, old(called)) && called == old(called) + Count(calls)
      ensures broadcastEvents == old(broadcastEvents) + Outputs(calls)
      ensures eventHistory == old(eventHistory) + Outputs(calls)
      decreases plugins.filters.Keys - skip.names, 1
    {
      calls := [];
      ghost var names := skip.names;
      var todo := plugins.filters.Keys;
      while todo != {}
        invariant todo <= plugins.filters.Keys && skip.names == names
        invariant Visited(plugins, events, names, calls, todo)
        invariant Records(answers, calls, old(called)) && called == old(called) + Count(calls)
        invariant broadcastEvents == old(broadcastEvents) + Outputs(calls)
        invariant eventHistory == old(eventHistory) + Outputs(calls)
        decreases todo
      {
        var name :| name in todo;
        ghost var before := todo;
        todo := todo - {name};
        if name in skip.names {
          VisitedSkip(plugins, events, names, calls, before, name);
          continue;
        }
        var pass := PassEvents(plugins.filters[name], events);
        if |pass| == 0 {
          VisitedSkip(plugins, events, names, calls, before, name);
          continue;
        }
        ghost var at := called;
        ghost var call := CallPlugin(name, pass, skip);
        ghost var more := calls + [call];
        VisitedCall(plugins, events, names, calls, before, call, more);
        OutputsOfNext(old(broadcastEvents), calls, call, more);
        OutputsOfNext(old(eventHistory), calls, call, more);
        RecordsNext(answers, calls, call, old(called), at, more);
        calls := more;
      }
      VisitedAll(plugins, events, names, calls);
      DispatchIsExact(plugins, events, names, calls);
    }

    // The part of the loop body for one plugin that has something to handle.
    method CallPlugin(name: Name, pass: seq<Event>, skip: SkipSet) returns (ghost call: Call)
      requires name in plugins.filters && name !in skip.names
      modifies this
      ensures call.plugin == name && call.input == pass && IsFollowUp(plugins, skip.names, call)
      ensures RecordsCall(answers, call, old(called)) && called == old(called) + CallCount(call)
      ensures broadcastEvents == old(broadcastEvents) + CallOutputs(call)
      ensures eventHistory == old(eventHistory) + CallOutputs(call)
      ensures CallOutputs(call) == Outputs(call.sub) +
        if call.result.Some? && call.result.value != [] then [call.result.value] else []
      decreases plugins.filters.Keys - skip.names, 0
    {
      var answer := answers(called);
      called := called + 1;
      call := Call(name, pass, None, []);
      if answer.Some? {
        var newSkip := new SkipSet(skip.names + {name});
        ghost var sub := HandlePlugins(answer.value, newSkip);
        HandleEvents(answer.value);
        call := Call(name, pass, answer, sub);
      }
    }

    // Takes the internal events out of the slice, in place, and clears the tail.
    method Compact(events: array<Slot>) returns (keepEvents: seq<Event>)
      requires forall i :: 0 <= i < events.Length ==> events[i].Some?
      modifies events
      ensures keepEvents == External(old(events[..])) && IsExternal(old(events[..]), keepEvents)
      ensures events[..] == Slots(keepEvents) + Nils(events.Length - |keepEvents|)
    {
      ghost var was := events[..];
      keepEvents := [];
      for i := 0 to events.Length
        invariant keepEvents == External(was[..i]) && |keepEvents| <= i
        invariant events[..|keepEvents|] == Slots(keepEvents)
        invariant forall j :: i <= j < events.Length ==> events[j] == was[j]
      {
        assert was[..i + 1][..i] == was[..i];
        var event := events[i].value;
        if event.name != INTERNAL {
          events[|keepEvents|] := Some(event);
          keepEvents := keepEvents + [event];
        }
      }
      assert was[..events.Length] == was;
      ExternalIsExact(was);
      Clear(events, |keepEvents|);
    }

    method Clear(events: array<Slot>, from: nat)
      requires from <= events.Length
      modifies events
      ensures events[..] == old(events[..from]) + Nils(events.Length - from)
    {
      for i := from to events.Length
        invariant events[..from] == old(events[..from])
        invariant forall j :: from <= j < i ==> events[j] == None
      {
        events[i] := None;
      }
    }

    // The part of EmitEvents after the compaction.
    method Emit(pluginName: Name, keepEvents: seq<Event>) returns (ghost calls: seq<Call>)
      modifies this
      ensures IsDispatch(plugins, keepEvents, {pluginName}, calls)
      ensures IsExact(plugins, keepEvents, {pluginName}, calls)
      ensures Records(answers, calls, old(called)) && called == old(called) + Count(calls)
      ensures broadcastEvents == old(broadcastEvents) + Outputs(calls) + Batch(Some(keepEvents))
      ensures eventHistory == old(eventHistory) + Outputs(calls) + Batch(Some(keepEvents))
    {
      var skip := new SkipSet({pluginName});
      calls := HandlePlugins(keepEvents, skip);
      HandleEvents(keepEvents);
    }

    // The plugin named pluginName emits events.
    method EmitEvents(pluginName: Name, events: array<Slot>) returns (ghost calls: seq<Call>)
      requires forall i :: 0 <= i < events.Length ==> events[i].Some?
      modifies this, events
      ensures IsDispatch(plugins, External(old(events[..])), {pluginName}, calls)
      ensures IsExact(plugins, External(old(events[..])), {pluginName}, calls)
      ensures Records(answers, calls, old(called)) && called == old(called) + Count(calls)
      ensures var keep := External(old(events[..]));
        && broadcastEvents == old(broadcastEvents) + Outputs(calls) + Batch(Some(keep))
        && eventHistory == old(eventHistory) + Outputs(calls) + Batch(Some(keep))
        && events[..] == Slots(keep) + Nils(events.Length - |keep|)
      ensures IsExternal(old(events[..]), External(old(events[..])))
    {
      var keepEvents := Compact(events);
      calls := Emit(pluginName, keepEvents);
    }
  }

  // Part of a run: the plugins in todo have not been looked at yet.
  ghost predicate Visited(ps: Plugins, events: seq<Event>, skip: set<Name>, calls: seq<Call>, todo: set<Name>) {
    && (forall i :: 0 <= i < |calls| ==>
          && calls[i].plugin in ps.filters && calls[i].plugin !in skip && calls[i].plugin !in todo
          && calls[i].input == Passing(ps, ps.filters[calls[i].plugin], events) != []
          && IsFollowUp(ps, skip, calls[i]))
    && (forall i, j :: 0 <= i < j < |calls| ==> calls[i].plugin != calls[j].plugin)
    && (forall p :: p in ps.filters && p !in skip && p !in todo && Passing(ps, ps.filters[p], events) != [] ==>
          exists i :: 0 <= i < |calls| && calls[i].plugin == p)
  }

  lemma VisitedSkip(ps: Plugins, events: seq<Event>, skip: set<Name>, calls: seq<Call>, todo: set<Name>, name: Name)
    requires Visited(ps, events, skip, calls, todo) && name in todo && name in ps.filters
    requires name in skip || Passing(ps, ps.filters[name], events) == []
    ensures Visited(ps, events, skip, calls, todo - {name})
  {
  }

  lemma VisitedCall(ps: Plugins, events: seq<Event>, skip: set<Name>, calls: seq<Call>, todo: set<Name>, call: Call,
                    calls': seq<Call>)
    requires calls' == calls + [call]
    requires Visited(ps, events, skip, calls, todo)
    requires call.plugin in todo && call.plugin in ps.filters && call.plugin !in skip
    requires call.input == Passing(ps, ps.filters[call.plugin], events) != [] && IsFollowUp(ps, skip, call)
    ensures Visited(ps, events, skip, calls', todo - {call.plugin})
  {
    forall p | p in ps.filters && p !in skip && p !in todo - {call.plugin} && Passing(ps, ps.filters[p], events) != []
      ensures exists i :: 0 <= i < |calls'| && calls'[i].plugin == p
    {
      if p == call.plugin {
        assert calls'[|calls|].plugin == p;
      } else {
        var i :| 0 <= i < |calls| && calls[i].plugin == p;
        assert calls'[i].plugin == p;
      }
    }
  }

  lemma VisitedAll(ps: Plugins, events: seq<Event>, skip: set<Name>, calls: seq<Call>)
    requires Visited(ps, events, skip, calls, {})
    ensures IsDispatch(ps, events, skip, calls)
  {
  }

  lemma OutputsOfNext(sent: seq<seq<Event>>, calls: seq<Call>, call: Call, calls': seq<Call>)
    requires calls' == calls + [call]
    ensures sent + Outputs(calls') == sent + Outputs(calls) + CallOutputs(call)
  {
    assert calls'[..|calls|] == calls;
  }

  lemma RecordsNext(answers: Behaviour, calls: seq<Call>, call: Call, from: nat, at: nat, calls': seq<Call>)
    requires calls' == calls + [call] && at == from + Count(calls)
    requires Records(answers, calls, from) && RecordsCall(answers, call, at)
    ensures Records(answers, calls', from) && Count(calls') == Count(calls) + CallCount(call)
  {
    assert calls'[..|calls|] == calls;
  }

  // The events that are not internal, in order.
  function External(events: seq<Slot>): (keep: seq<Event>)
    requires forall i :: 0 <= i < |events| ==> events[i].Some?
    ensures |keep| <= |events|
    ensures forall e :: e in keep <==> Some(e) in events && e.name != INTERNAL
  {
    if events == [] then []
    else
      var front := External(events[..|events| - 1]);
      var last := events[|events| - 1].value;
      if last.name != INTERNAL then front + [last] else front
  }

  // keep is the events whose name is not the internal one, each once and in order.
  ghost predicate IsExternal(events: seq<Slot>, keep: seq<Event>)
    requires forall i :: 0 <= i < |events| ==> events[i].Some?
  {
    exists idx ::
      && Picks(idx, Slots(keep), events)
      && forall i :: 0 <= i < |events| ==> (i in idx <==> events[i].value.name != INTERNAL)
  }

  lemma {:induction false} ExternalIsKept(events: seq<Slot>, flags: seq<bool>)
    requires |flags| == |events|
    requires forall i :: 0 <= i < |events| ==> events[i].Some? && (flags[i] <==> events[i].value.name != INTERNAL)
    ensures Slots(External(events)) == Keep(events, flags)
  {
    if events != [] { ExternalIsKept(events[..|events| - 1], flags[..|events| - 1]); }
  }

  lemma ExternalIsExact(events: seq<Slot>)
    requires forall i :: 0 <= i < |events| ==> events[i].Some?
    ensures IsExternal(events, External(events))
  {
    var flags := seq(|events|, i requires 0 <= i < |events| && events[i].Some? => events[i].value.name != INTERNAL);
    ExternalIsKept(events, flags);
    var idx := KeepPicks(events, flags);
  }

  function Slots(events: seq<Event>): seq<Slot> { seq(|events|, i requires 0 <= i < |events| => Some(events[i])) }

  function Nils(n: nat): seq<Slot> { seq(n, _ => None) }

}
