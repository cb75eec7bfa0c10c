/**
The history of a hub: a circle of linked nodes with a start and an end cursor.  With N nodes it holds the last N-1
events; the node under the end cursor is never read.
*/
module HistoryRing {
  import opened Wrappers
  import opened Events

  const DEFAULT_EVENT_HISTORY_SIZE := 100

  class Node {
    var value: Option<Event>
    var next: Node?

    constructor ()
      ensures value == None && next == null
    {
      value, next := None, null;
    }
  }

  // i and the index after a wrap around a circle of n nodes, for 0 <= i < 2n.
  function Wrap(i: nat, n: nat): nat { if i < n then i else i - n }

  // The index j steps after index i.
  function At(i: nat, j: nat, n: nat): nat { Wrap(i + j, n) }

  // Starting at index i, the cells of a circle hold the given events.
  ghost predicate Holds(cells: seq<Option<Event>>, i: nat, events: seq<Event>)
    requires i < |cells| && |events| <= |cells|
  {
    forall j :: 0 <= j < |events| ==> cells[At(i, j, |cells|)] == Some(events[j])
  }

  // Filling the cell after the last one.
  lemma HoldsOneMore(cells: seq<Option<Event>>, i: nat, events: seq<Event>, event: Event)
    requires i < |cells| && |events| < |cells| && Holds(cells, i, events)
    ensures Holds(cells[At(i, |events|, |cells|) := Some(event)], i, events + [event])
  {
  }

  // Dropping the first event moves the start by one cell.
  lemma HoldsLater(cells: seq<Option<Event>>, i: nat, events: seq<Event>)
    requires i < |cells| && 1 <= |events| <= |cells| && Holds(cells, i, events)
    ensures Holds(cells, Wrap(i + 1, |cells|), events[1..])
  {
    forall j | 0 <= j < |events| - 1 ensures cells[At(Wrap(i + 1, |cells|), j, |cells|)] == Some(events[1..][j]) {
      assert At(Wrap(i + 1, |cells|), j, |cells|) == At(i, j + 1, |cells|);
    }
  }

  function Least(a: nat, b: nat): nat { if a < b then a else b }

  // The last n elements, or all of them if there are fewer.
  function Last<T>(s: seq<T>, n: nat): (r: seq<T>) { s[|s| - Least(|s|, n)..] }

  lemma TakeOneMore<T>(s: seq<T>, k: nat, front: seq<T>)
    requires k < |s| && front == s[..k]
    ensures front + [s[k]] == s[..k + 1]
  {
  }

  // nodes are pairwise distinct and linked in a circle.
  ghost predicate IsCircle(nodes: seq<Node>)
    reads nodes
  {
    && |nodes| >= 1
    && (forall i, j :: 0 <= i < j < |nodes| ==> nodes[i] != nodes[j])
    && (forall i :: 0 <= i < |nodes| ==> nodes[i].next == nodes[Wrap(i + 1, |nodes|)])
  }

  // ring.New of container/ring.
  method NewRing(n: nat) returns (r: Node, ghost nodes: seq<Node>)
    requires n >= 1
    ensures IsCircle(nodes) && |nodes| == n && r == nodes[0]
    ensures forall i :: 0 <= i < n ==> fresh(nodes[i])
  {
    r := new Node();
    var p := r;
    nodes := [r];
    for i := 1 to n
      invariant |nodes| == i && nodes[0] == r && nodes[i - 1] == p
      invariant forall j :: 0 <= j < i ==> fresh(nodes[j])
      invariant forall j, k :: 0 <= j < k < i ==> nodes[j] != nodes[k]
      invariant forall j :: 0 <= j < i - 1 ==> nodes[j].next == nodes[j + 1]
    {
      var q := new Node();
      p.next := q;
      nodes := nodes + [q];
      p := q;
    }
    p.next := r;
  }

  // The cells from first up to last hold the most recent events of the log, as many as fit.
  ghost predicate IsWindow(cells: seq<Option<Event>>, first: nat, last: nat, log: seq<Event>) {
    && first < |cells| && last == At(first, Least(|log|, |cells| - 1), |cells|)
    && Holds(cells, first, Last(log, |cells| - 1))
  }

  lemma LastOneMore<T>(log: seq<T>, x: T, n: nat)
    ensures Last(log + [x], n) == if |log| < n then Last(log, n) + [x] else (Last(log, n) + [x])[1..]
  {
  }

  lemma EmptyWindow(cells: seq<Option<Event>>)
    requires |cells| >= 1
    ensures IsWindow(cells, 0, 0, [])
  {
  }

  // Where the end cursor and the start cursor are after one more event.
  function NextLast(last: nat, n: nat): nat { Wrap(last + 1, n) }

  function NextFirst(first: nat, last: nat, n: nat): nat {
    if NextLast(last, n) == first then Wrap(first + 1, n) else first
  }

  // Either the ring was not full and only the end moves, or both cursors move.
  lemma AfterPut(cells: seq<Option<Event>>, first: nat, last: nat, log: seq<Event>, event: Event)
    requires IsWindow(cells, first, last, log)
    ensures
      IsWindow(cells[last := Some(event)], NextFirst(first, last, |cells|), NextLast(last, |cells|), log + [event])
  {
    var held := Last(log, |cells| - 1);
    HoldsOneMore(cells, first, held, event);
    LastOneMore(log, event, |cells| - 1);
    if |held| == |cells| - 1 { HoldsLater(cells[last := Some(event)], first, held + [event]); }
  }

  ghost function Cells(nodes: seq<Node>): seq<Option<Event>>
    reads nodes
  {
    seq(|nodes|, i requires 0 <= i < |nodes| reads nodes => nodes[i].value)
  }

  lemma NextLog(log: seq<Event>, events: seq<Event>, i: nat)
    requires i < |events|
    ensures log + events[..i] + [events[i]] == log + events[..i + 1]
  {
  }

  class Hub {
    var eventHistoryStart: Node
    var eventHistoryEnd: Node

    ghost const nodes: seq<Node> // the circle
    ghost var first: nat         // where in the circle the start cursor is
    ghost var last: nat          // where in the circle the end cursor is
    ghost var log: seq<Event>    // every event that was ever put in

    ghost predicate Valid()
      reads this, nodes
    {
      && IsCircle(nodes) && first < |nodes| && last < |nodes|
      && eventHistoryStart == nodes[first] && eventHistoryEnd == nodes[last]
      && IsWindow(Cells(nodes), first, last, log)
    }

    // The ring is created and filled with the events that the persister returned, in the order in which it returned
    // them, also if it returned an error with them; None stands for no persister.
    constructor (historySize: int, loaded: Option<seq<Event>>)
      ensures Valid() && forall n :: n in nodes ==> fresh(n)
      ensures |nodes| == if historySize > 0 then historySize else DEFAULT_EVENT_HISTORY_SIZE
      ensures log == if loaded.Some? then loaded.value else []
    {
      var size := if historySize > 0 then historySize else DEFAULT_EVENT_HISTORY_SIZE;
      var r, circle := NewRing(size);
      eventHistoryStart, eventHistoryEnd := r, r;
      nodes, first, last, log := circle, 0, 0, [];
      new;
      EmptyWindow(Cells(nodes));
      if loaded.Some? {
        Store(loaded.value);
      }
    }

    // One round of the loops that store events.
    method Put(event: Event)
      requires Valid()
      modifies this, nodes
      ensures Valid()
      ensures log == old(log) + [event]
    {
      ghost var cells := Cells(nodes)[last := Some(event)];
      AfterPut(Cells(nodes), first, last, log, event);
      eventHistoryEnd.value := Some(event);
      assert Cells(nodes) == cells;
      Advance(event);
    }

    // The cursors move on after event has been stored under the end cursor.
    method Advance(ghost event: Event)
      requires IsCircle(nodes) && first < |nodes| && last < |nodes|
      requires eventHistoryStart == nodes[first] && eventHistoryEnd == nodes[last]
      requires IsWindow(Cells(nodes), NextFirst(first, last, |nodes|), NextLast(last, |nodes|), log + [event])
      modifies this
      ensures Valid()
      ensures log == old(log) + [event]
    {
      ghost var n, last' := |nodes|, NextLast(last, |nodes|);
      ghost var cells := Cells(nodes);
      assert nodes[last].next == nodes[last'] && nodes[first].next == nodes[Wrap(first + 1, n)];
      assert nodes[last'] == nodes[first] <==> last' == first;
      eventHistoryEnd := eventHistoryEnd.next;
      if eventHistoryEnd == eventHistoryStart {
        eventHistoryStart := eventHistoryStart.next;
      }
      first, last, log := NextFirst(first, last, n), last', log + [event];
      assert Cells(nodes) == cells;
    }

    // The loop of NewHub and of the EventHistory case of Run.
    method Store(events: seq<Event>)
      requires Valid()
      modifies this, nodes
      ensures Valid()
      ensures log == old(log) + events
    {
      for i := 0 to |events|
        invariant Valid()
        invariant log == old(log) + events[..i]
      {
        Put(events[i]);
        NextLog(old(log), events, i);
      }
      assert events[..|events|] == events;
    }

    // The events that are kept.
    ghost function Held(): seq<Event>
      reads this, nodes
      requires Valid()
    {
      Last(log, |nodes| - 1)
    }

    // k steps after the start.
    ghost predicate IsAt(k: nat, node: Node?)
      reads this, nodes
      requires Valid()
    {
      At(first, k, |nodes|) < |nodes| && node == nodes[At(first, k, |nodes|)]
    }

    // The node k steps after the start holds the k-th of the events that are kept.
    lemma NodeAt(k: nat, node: Node)
      requires Valid() && k < |Held()| && IsAt(k, node)
      ensures node.value == Some(Held()[k]) && IsAt(k + 1, node.next) && node != eventHistoryEnd
    {
      assert Cells(nodes)[At(first, k, |nodes|)] == Some(Held()[k]);
      assert Wrap(At(first, k, |nodes|) + 1, |nodes|) == At(first, k + 1, |nodes|);
    }

    lemma EndAt(node: Node)
      requires Valid() && IsAt(|Held()|, node)
      ensures node == eventHistoryEnd
    {
    }

    // Exactly the last N-1 events, oldest first.
    method GetHistory() returns (history: seq<Event>)
      requires Valid()
      ensures history == Last(log, |nodes| - 1)
      ensures |history| == if |log| < |nodes| then |log| else |nodes| - 1
      ensures |history| <= |log| && history == log[|log| - |history|..]
    {
      history := [];
      var current := eventHistoryStart;
      ghost var k := 0;
      while current != eventHistoryEnd
        invariant 0 <= k <= |Held()| && IsAt(k, current)
        invariant history == Held()[..k]
        decreases |Held()| - k
      {
        if k == |Held()| { EndAt(current); }
        NodeAt(k, current);
        TakeOneMore(Held(), k, history);
        history := history + [current.value.value];
        current := current.next;
        k := k + 1;
      }
      if k < |Held()| { NodeAt(k, current); }
    }
  }

}
