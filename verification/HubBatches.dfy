/**
What becomes of a batch of events that the hub receives: every event that is not internal gets a broadcast of its own,
in order, whatever else happens in between.
*/
module HubBatches {
  import opened Wrappers
  import opened Events
  import opened Sequences
  import opened HubProtocol
  import opened HubInvariant
  import opened HubSafety

  // The broadcasts that are started by the actions from n up to m.
  ghost function SpawnedIn(acts: seq<Action>, n: nat, m: nat): seq<BroadcastId>
    requires n <= m <= |acts|
    decreases m
  {
    if n == m then []
    else SpawnedIn(acts, n, m - 1) + if acts[m - 1].HubSpawn? then [acts[m - 1].b] else []
  }

  ghost predicate AreKnown(s: State, ids: seq<BroadcastId>) { forall i :: 0 <= i < |ids| ==> ids[i] in s.broadcasts }

  ghost function EventsOf(s: State, ids: seq<BroadcastId>): seq<Event>
    requires AreKnown(s, ids)
  {
    seq(|ids|, i requires 0 <= i < |ids| => s.broadcasts[ids[i]].event)
  }

  // ---------------------------------------------------------------- what a broadcast keeps

  predicate SameOrder(x: Broadcast, x': Broadcast) {
    x'.event == x.event && x'.hasProgram == x.hasProgram && x'.marshals == x.marshals
  }

  lemma OrderOfHubStep(s: State, at: HubPc, b: BroadcastId)
    requires HubEnabled(s, at) && b in s.broadcasts
    ensures HubNext(s, at).broadcasts == s.broadcasts
  {
    match at {
      case Idle => case RegLock(_) => case RegInsert(_) => case RegUnlock(_) => case RegRelease(_) =>
      case InfoLock => case InfoUnlock => case Batch(_) =>
    }
  }

  lemma OrderOfBroadcastStep(s: State, d: BroadcastId, at: BroadcastPc, b: BroadcastId)
    requires BroadcastEnabled(s, d, at) && b in s.broadcasts
    ensures b in BroadcastNext(s, d, at).broadcasts
    ensures SameOrder(s.broadcasts[b], BroadcastNext(s, d, at).broadcasts[b])
  {
    match at { case BcLock => case BcIterate => case BcAdd(_) => case BcWait => case BcUnlock => case BcEnd => }
  }

  lemma OrderOfSenderStep(s: State, d: BroadcastId, c: ClientId, b: BroadcastId)
    requires SenderEnabled(s, d, c) && b in s.broadcasts
    ensures b in SenderNext(s, d, c).broadcasts && SameOrder(s.broadcasts[b], SenderNext(s, d, c).broadcasts[b])
  {
    match s.broadcasts[d].senders[c] { case SenderSend => case SenderRelease => case SenderEnd => }
  }

  lemma OrderStays(s: State, a: Action, b: BroadcastId)
    requires Enabled(s, a) && b in s.broadcasts
    ensures b in Next(s, a).broadcasts && SameOrder(s.broadcasts[b], Next(s, a).broadcasts[b])
  {
    if IsHubAction(a) {
      match a {
        case HubStep(at) => OrderOfHubStep(s, at, b);
        case BroadcastStep(d, at) => OrderOfBroadcastStep(s, d, at, b);
        case SenderStep(d, c) => OrderOfSenderStep(s, d, c, b);
        case _ =>
      }
    } else {
      ClientActionShape(s, a);
    }
  }

  // ---------------------------------------------------------------- the batch, one step at a time

  // The first j events of the batch have been served: those that are not internal have their broadcasts.
  ghost predicate Served(s: State, ids: seq<BroadcastId>, events: seq<Event>, flags: seq<bool>, j: nat) {
    && j <= |events| == |flags| && Distinct(ids) && AreKnown(s, ids)
    && EventsOf(s, ids) == Keep(events[..j], flags[..j])
  }

  ghost predicate IsBusy(hub: HubPc, events: seq<Event>, j: nat) {
    j <= |events| && (hub == Batch(events[j..]) || (hub == Idle && j == |events|))
  }

  lemma ServedLater(s: State, a: Action, ids: seq<BroadcastId>, events: seq<Event>, flags: seq<bool>, j: nat)
    requires Enabled(s, a) && Served(s, ids, events, flags, j)
    ensures Served(Next(s, a), ids, events, flags, j)
  {
    forall i | 0 <= i < |ids|
      ensures ids[i] in Next(s, a).broadcasts && Next(s, a).broadcasts[ids[i]].event == s.broadcasts[ids[i]].event
    {
      OrderStays(s, a, ids[i]);
    }
    assert EventsOf(Next(s, a), ids) == EventsOf(s, ids);
  }

  lemma BatchStays(s: State, a: Action)
    requires Enabled(s, a) && s.hub.Batch? && !a.HubStep? && !a.HubSpawn?
    ensures Next(s, a).hub == s.hub
  {
    if IsHubAction(a) {
      match a {
        case BroadcastStep(b, at) =>
          match at { case BcLock => case BcIterate => case BcAdd(_) => case BcWait => case BcUnlock => case BcEnd => }
        case SenderStep(b, c) =>
          match s.broadcasts[b].senders[c] { case SenderSend => case SenderRelease => case SenderEnd => }
        case _ =>
      }
    } else {
      ClientActionShape(s, a);
    }
  }

  // The hub passes over an internal event, or finds that the batch is used up.
  lemma SkipServes(s: State, ids: seq<BroadcastId>, events: seq<Event>, flags: seq<bool>, j: nat) returns (j': nat)
    requires j <= |events| && s.hub == Batch(events[j..]) && HubEnabled(s, s.hub)
    requires Served(s, ids, events, flags, j)
    requires forall i :: 0 <= i < |events| ==> (flags[i] <==> events[i].name != INTERNAL)
    ensures IsBusy(HubNext(s, s.hub).hub, events, j') && Served(HubNext(s, s.hub), ids, events, flags, j')
  {
    var s' := HubNext(s, s.hub);
    assert EventsOf(s', ids) == EventsOf(s, ids);
    if j < |events| {
      j' := j + 1;
      KeepNext(events, flags, j);
      assert events[j..][0] == events[j] && events[j..][1..] == events[j'..];
    } else {
      j' := j;
    }
  }

  // The hub starts the broadcast of the next event.
  lemma SpawnServes(s: State, b: BroadcastId, compiles: bool, marshals: bool, ids: seq<BroadcastId>,
                    events: seq<Event>, flags: seq<bool>, j: nat)
    requires j <= |events| && s.hub == Batch(events[j..]) && HubSpawnEnabled(s, b)
    requires Served(s, ids, events, flags, j)
    requires forall i :: 0 <= i < |events| ==> (flags[i] <==> events[i].name != INTERNAL)
    ensures
      var s' := HubSpawnNext(s, b, compiles, marshals);
      IsBusy(s'.hub, events, j + 1) && Served(s', ids + [b], events, flags, j + 1)
  {
    var s' := HubSpawnNext(s, b, compiles, marshals);
    assert events[j..][0] == events[j] && events[j..][1..] == events[j + 1..];
    KeepNext(events, flags, j);
    assert EventsOf(s', ids + [b]) == EventsOf(s, ids) + [events[j]];
  }

  lemma StepServes(s: State, a: Action, ids: seq<BroadcastId>, events: seq<Event>, flags: seq<bool>, j: nat)
    returns (j': nat)
    requires Enabled(s, a) && j <= |events| && s.hub == Batch(events[j..]) && Served(s, ids, events, flags, j)
    requires forall i :: 0 <= i < |events| ==> (flags[i] <==> events[i].name != INTERNAL)
    ensures IsBusy(Next(s, a).hub, events, j')
    ensures Served(Next(s, a), ids + (if a.HubSpawn? then [a.b] else []), events, flags, j')
  {
    assert ids + [] == ids;
    if a.HubSpawn? {
      SpawnServes(s, a.b, a.compiles, a.marshals, ids, events, flags, j);
      j' := j + 1;
    } else if a.HubStep? {
      j' := SkipServes(s, ids, events, flags, j);
    } else {
      BatchStays(s, a);
      ServedLater(s, a, ids, events, flags, j);
      j' := j;
    }
  }

  // ---------------------------------------------------------------- runs

  lemma StateAfter(acts: seq<Action>, n: nat)
    requires IsRun(acts) && n < |acts|
    ensures Enabled(StateAt(acts, n), acts[n]) && StateAt(acts, n + 1) == Next(StateAt(acts, n), acts[n])
  {
    PrefixIsRun(acts, n);
    PrefixIsRun(acts, n + 1);
    assert acts[..n + 1][..n] == acts[..n] && acts[..n + 1][n] == acts[n];
  }

  // From the receipt of a batch (action n of the run) on, as long as the hub has not become idle since.
  lemma {:induction false} BatchIsServed(acts: seq<Action>, n: nat, m: nat, flags: seq<bool>) returns (j: nat)
    requires IsRun(acts) && n < m <= |acts| && acts[n].HubReceive? && |flags| == |acts[n].events|
    requires forall i :: 0 <= i < |flags| ==> (flags[i] <==> acts[n].events[i].name != INTERNAL)
    requires forall k :: n < k < m ==> StateAt(acts, k).hub != Idle
    ensures IsBusy(StateAt(acts, m).hub, acts[n].events, j)
    ensures Served(StateAt(acts, m), SpawnedIn(acts, n + 1, m), acts[n].events, flags, j)
    decreases m
  {
    var events := acts[n].events;
    StateAfter(acts, m - 1);
    if m == n + 1 {
      j := 0;
      assert events[0..] == events && events[..0] == [] && flags[..0] == [];
    } else {
      j := BatchIsServed(acts, n, m - 1, flags);
      j := StepServes(StateAt(acts, m - 1), acts[m - 1], SpawnedIn(acts, n + 1, m - 1), events, flags, j);
    }
  }

  // For every batch that the hub receives: when the hub is idle again, the broadcasts that it has started since are
  // one for each event of the batch that is not internal, in the order of the batch, and for nothing else.
  lemma EveryEventIsBroadcast(acts: seq<Action>, n: nat, m: nat)
    requires IsRun(acts) && n < m <= |acts| && acts[n].HubReceive?
    requires StateAt(acts, m).hub == Idle && forall k :: n < k < m ==> StateAt(acts, k).hub != Idle
    ensures
      var s, ids, events := StateAt(acts, m), SpawnedIn(acts, n + 1, m), acts[n].events;
      && Distinct(ids) && AreKnown(s, ids)
      && exists idx ::
           && Picks(idx, EventsOf(s, ids), events)
           && forall i :: 0 <= i < |events| ==> (i in idx <==> events[i].name != INTERNAL)
  {
    var events := acts[n].events;
    var flags := seq(|events|, i requires 0 <= i < |events| => events[i].name != INTERNAL);
    var j := BatchIsServed(acts, n, m, flags);
    assert j == |events| && events[..j] == events && flags[..j] == flags;
    var idx := KeepPicks(events, flags);
  }

  // A broadcast is for good what it was started as: it has a program exactly if its event has a target filter that
  // compiles.
  lemma {:induction false} BroadcastIsAsStarted(acts: seq<Action>, n: nat)
    requires IsRun(acts) && n < |acts| && acts[n].HubSpawn?
    ensures acts[n].b in Run(acts).value.broadcasts
    ensures
      var x, batch := Run(acts).value.broadcasts[acts[n].b], StateAt(acts, n).hub;
      && batch.Batch? && batch.events != [] && x.event == batch.events[0]
      && (x.hasProgram <==> x.event.targetFilter != "" && acts[n].compiles)
      && (x.marshals <==> acts[n].marshals)
    decreases |acts|
  {
    var before := acts[..|acts| - 1];
    StateAfter(acts, |acts| - 1);
    assert acts[..|acts|] == acts;
    if n < |before| {
      assert before[n] == acts[n] && before[..n] == acts[..n];
      PrefixIsRun(acts, |before|);
      BroadcastIsAsStarted(before, n);
      OrderStays(Run(before).value, acts[|acts| - 1], acts[n].b);
    }
  }

}
