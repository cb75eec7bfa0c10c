/**
What the invariant means for every run of the hub, with any number of clients and broadcasts and any interleaving:
no send on a closed channel, no second close, an exact WaitGroup counter, one life per client, and one copy of
every broadcast for each client that should have it.
*/
module HubSafety {
  import opened Wrappers
  import opened Events
  import opened HubProtocol
  import opened HubInvariant

  // A state that some run ends in.
  ghost predicate Reachable(s: State) { exists acts :: Run(acts) == Some(s) }

  lemma ReachableInv(s: State)
    requires Reachable(s)
    ensures Inv(s)
  {
    var acts :| Run(acts) == Some(s);
    RunsKeepInv(acts);
  }

  lemma PrefixIsRun(acts: seq<Action>, n: nat)
    requires IsRun(acts) && n <= |acts|
    ensures IsRun(acts[..n])
    decreases |acts|
  {
    if n < |acts| {
      PrefixIsRun(acts[..|acts| - 1], n);
      assert acts[..|acts| - 1][..n] == acts[..n];
    } else {
      assert acts[..n] == acts;
    }
  }

  // The state of a run before its action n, or at its end.
  ghost function StateAt(acts: seq<Action>, n: nat): State
    requires IsRun(acts) && n <= |acts|
  {
    PrefixIsRun(acts, n);
    Run(acts[..n]).value
  }

  // ---------------------------------------------------------------- operations that can panic

  predicate IsClosed(x: Client, ch: Channel) {
    match ch
    case Send => x.sendClosed
    case SendEvents => x.eventsClosed
    case PluginChan => x.pluginClosed
  }

  // Some goroutine's next statement is a send on the channel.
  ghost predicate AboutToSend(s: State, c: ClientId, ch: Channel)
    requires c in s.clients
  {
    var x := s.clients[c];
    match ch
    case Send => x.write == WriteSend || exists b :: SenderAboutToSend(s, b, c)
    case SendEvents => ReaderAboutToSend(x, ch) || exists h :: h in x.histories && x.histories[h] == HistorySend
    case PluginChan => ReaderAboutToSend(x, ch) || x.loginPlugin == SideSend
  }

  predicate SenderAboutToSend(s: State, b: BroadcastId, c: ClientId) {
    b in s.broadcasts && c in s.broadcasts[b].senders && s.broadcasts[b].senders[c] == SenderSend
  }

  predicate ReaderAboutToSend(x: Client, ch: Channel) {
    x.read.ReadSend? && |x.read.plan| > 0 && x.read.plan[0] == ch
  }

  // Some goroutine's next statement closes the channel.
  predicate AboutToClose(x: Client, ch: Channel) {
    match ch
    case Send => x.unregister == UnregCloseSend
    case SendEvents => x.unregister == UnregCloseEvents
    case PluginChan => x.unregister == UnregClosePlugin
  }

  predicate AboutToCloseDone(x: Client) { x.read == ReadCloseDone }

  // Some goroutine's next statement is Done on the client's WaitGroup.
  ghost predicate AboutToRelease(s: State, c: ClientId)
    requires c in s.clients
  {
    var x := s.clients[c];
    || s.hub == RegRelease(c) || x.read == ReadRelease || x.write == WriteRelease
    || exists b :: b in s.broadcasts && c in s.broadcasts[b].senders && s.broadcasts[b].senders[c] == SenderRelease
  }

  // ---------------------------------------------------------------- channels are open when they are used

  lemma DrainedIsQuiet(s: State, c: ClientId)
    requires Inv(s) && c in s.clients && Drained(s.clients[c].unregister)
    ensures s.clients[c].read == ReadEnd && s.clients[c].write == WriteEnd && s.clients[c].handler == HandlerEnd
    ensures c !in s.members && s.clients[c].counter == 0 && s.clients[c].local == 0
    ensures forall b :: !HoldsToken(s, b, c)
  {
    assert ClientInv(s.clients[c], c in s.members, PhaseOf(s.hub, c));
    forall b ensures !HoldsToken(s, b, c) {
      assert Sending(b) in s.clients[c].tokens <==> HoldsToken(s, b, c);
    }
  }

  lemma NobodySendsWhenDrained(s: State, c: ClientId, ch: Channel)
    requires Inv(s) && c in s.clients && Drained(s.clients[c].unregister)
    ensures !AboutToSend(s, c, ch)
  {
    DrainedIsQuiet(s, c);
    assert ClientInv(s.clients[c], c in s.members, PhaseOf(s.hub, c));
    forall b ensures !SenderAboutToSend(s, b, c) { assert !HoldsToken(s, b, c); }
  }

  // In no run does a goroutine send on a client's channel after it was closed.
  lemma NoSendOnClosedChannel(s: State, c: ClientId, ch: Channel)
    requires Reachable(s) && c in s.clients && AboutToSend(s, c, ch)
    ensures !IsClosed(s.clients[c], ch)
  {
    ReachableInv(s);
    assert ClientInv(s.clients[c], c in s.members, PhaseOf(s.hub, c));
    if IsClosed(s.clients[c], ch) { NobodySendsWhenDrained(s, c, ch); }
  }

  // Every send guarded by a membership test is made while the client is still registered.
  lemma GuardedSendsAreForMembers(s: State, c: ClientId)
    requires Reachable(s) && c in s.clients
    ensures
      && (s.clients[c].read.ReadSend? ==> c in s.members)
      && (forall h :: h in s.clients[c].histories && s.clients[c].histories[h] == HistorySend ==> c in s.members)
      && (forall b :: SenderAboutToSend(s, b, c) ==> c in s.members && Broadcaster(b) in s.readers)
  {
    ReachableInv(s);
    assert ClientInv(s.clients[c], c in s.members, PhaseOf(s.hub, c));
    forall b | SenderAboutToSend(s, b, c) ensures c in s.members && Broadcaster(b) in s.readers {
      assert BroadcastInv(s.broadcasts[b], s.members);
      assert InReadSection(s, Broadcaster(b));
    }
  }

  // No channel is closed a second time, and none before the client's counter has come down to zero.
  lemma NoSecondClose(s: State, c: ClientId, ch: Channel)
    requires Reachable(s) && c in s.clients
    ensures
      && (AboutToClose(s.clients[c], ch) ==>
            !IsClosed(s.clients[c], ch) && s.clients[c].counter == 0 && c !in s.members)
      && (AboutToCloseDone(s.clients[c]) ==> !s.clients[c].doneClosed)
  {
    ReachableInv(s);
    assert ClientInv(s.clients[c], c in s.members, PhaseOf(s.hub, c));
    if AboutToClose(s.clients[c], ch) { DrainedIsQuiet(s, c); }
  }

  // When the unregister goroutine is done with a client, everything that belongs to the client is closed.
  lemma LeavingClosesEverything(s: State, c: ClientId)
    requires Reachable(s) && c in s.clients
    requires
      var pc := s.clients[c].unregister;
      pc == UnregInfoLock || pc == UnregInfoUnlock || pc == UnregEnd
    ensures
      var x := s.clients[c];
      && c !in s.members && x.sendClosed && x.eventsClosed && x.pluginClosed && x.doneClosed
      && x.handler == HandlerEnd && x.read == ReadEnd && x.write == WriteEnd
  {
    ReachableInv(s);
    DrainedIsQuiet(s, c);
    assert ClientInv(s.clients[c], c in s.members, PhaseOf(s.hub, c));
  }

  // ---------------------------------------------------------------- the WaitGroup counter

  // The broadcasts whose sender for the client has been started and has not called Done.
  ghost function InFlight(s: State, c: ClientId): set<BroadcastId> {
    set b | b in s.broadcasts && HoldsToken(s, b, c)
  }

  // The handler has called Add(1) and the hub has not yet called Done for the registration.
  predicate RegistrationPending(s: State, c: ClientId)
    requires c in s.clients
  {
    s.clients[c].handler == SendRegister || PhaseOf(s.hub, c) != Elsewhere
  }

  lemma {:induction false} SendingCount(bs: set<BroadcastId>, ts: set<Token>)
    requires forall t :: t in ts <==> t.Sending? && t.b in bs
    ensures |ts| == |bs|
  {
    if bs == {} {
      assert ts == {};
    } else {
      var b :| b in bs;
      SendingCount(bs - {b}, ts - {Sending(b)});
      assert ts == (ts - {Sending(b)}) + {Sending(b)};
    }
  }

  lemma TokenCount(ts: set<Token>, bs: set<BroadcastId>)
    requires forall b :: Sending(b) in ts <==> b in bs
    ensures |ts| == One(Registration in ts) + One(Reading in ts) + One(Writing in ts) + |bs|
  {
    var fixed := {Registration, Reading, Writing};
    var sending := ts - fixed;
    SendingCount(bs, sending);
    assert |ts| == |ts * fixed| + |sending| by { assert ts == (ts * fixed) + sending; }
    FixedCount(ts);
  }

  lemma CountWithOne(ts: set<Token>, fixed: set<Token>, t: Token)
    requires t !in fixed
    ensures |ts * (fixed + {t})| == |ts * fixed| + One(t in ts)
  {
    assert ts * (fixed + {t}) == if t in ts then ts * fixed + {t} else ts * fixed;
  }

  lemma FixedCount(ts: set<Token>)
    ensures |ts * {Registration, Reading, Writing}| == One(Registration in ts) + One(Reading in ts) + One(Writing in ts)
  {
    CountWithOne(ts, {}, Registration);
    CountWithOne(ts, {Registration}, Reading);
    CountWithOne(ts, {Registration, Reading}, Writing);
    assert {} + {Registration} == {Registration} && {Registration} + {Reading} == {Registration, Reading};
    assert {Registration, Reading} + {Writing} == {Registration, Reading, Writing};
  }

  lemma SendersAreInFlight(s: State, c: ClientId)
    requires Inv(s) && c in s.clients
    ensures forall b :: Sending(b) in s.clients[c].tokens <==> b in InFlight(s, c)
    ensures forall b ::
      b in s.broadcasts && c in s.broadcasts[b].senders && s.broadcasts[b].senders[c] == SenderRelease ==>
        b in InFlight(s, c)
  {
    forall b ensures Sending(b) in s.clients[c].tokens <==> b in InFlight(s, c) {
      assert Sending(b) in s.clients[c].tokens <==> HoldsToken(s, b, c);
    }
  }

  // The counter is exactly the pending registration, the two loops and the broadcast sends in flight.
  lemma CounterIsExact(s: State, c: ClientId)
    requires Reachable(s) && c in s.clients
    ensures
      var x := s.clients[c];
      && x.counter == One(RegistrationPending(s, c))
                    + One(x.read != ReadUnborn && x.read != ReadEnd)
                    + One(x.write != WriteUnborn && x.write != WriteEnd)
                    + |InFlight(s, c)|
      && (AboutToRelease(s, c) ==> x.counter > 0)
  {
    ReachableInv(s);
    assert ClientInv(s.clients[c], c in s.members, PhaseOf(s.hub, c));
    SendersAreInFlight(s, c);
    TokenCount(s.clients[c].tokens, InFlight(s, c));
  }

  // ---------------------------------------------------------------- what a step can change

  // The client of a client action, after the action.
  function ClientAfter(s: State, a: Action): Client
    requires Enabled(s, a) && !IsHubAction(a)
  {
    match a
    case Connect(_, hasUser) => NewClient(hasUser)
    case Handler(c, at) => HandlerClient(s.clients[c], at)
    case LoginBroadcastStep(c, at) => LoginBroadcastNext(s.clients[c], at)
    case LoginPluginStep(c, at) => LoginPluginNext(s.clients[c], at)
    case HistoryStep(c, h) => HistoryClient(s.clients[c], h, c in s.members)
    case ReadStep(c, at) => ReadClient(s.clients[c], at, c in s.members)
    case ReadBeginSend(c, plan) => s.clients[c].(read := ReadTest(plan))
    case ReadStartHistory(c, h) => HistoryAt(s.clients[c], h, HistoryLock)
    case WriteStep(c, at) => WriteNext(s.clients[c], at)
    case WriteBeginSend(c) => s.clients[c].(write := WriteSend)
    case UnregisterStep(c, at) => UnregisterClient(s.clients[c], at, c in s.members)
  }

  lemma ClientActionShape(s: State, a: Action)
    requires Enabled(s, a) && !IsHubAction(a)
    ensures
      var s' := Next(s, a);
      && s'.clients == s.clients[a.c := ClientAfter(s, a)] && s'.broadcasts == s.broadcasts
      && s'.hub == (if a == Handler(a.c, SendRegister) then RegLock(a.c) else s.hub)
      && s'.members == (if a == UnregisterStep(a.c, UnregDelete) then s.members - {a.c} else s.members)
  {
  }

  // What hub and broadcast actions leave alone in every client.
  predicate SameThreads(x: Client, x': Client) {
    x' == x.(counter := x'.counter, tokens := x'.tokens, posted := x'.posted)
  }

  lemma HubStepShape(s: State, at: HubPc, c: ClientId)
    requires HubEnabled(s, at)
    ensures c in HubNext(s, at).clients <==> c in s.clients
    ensures c in s.clients ==> SameThreads(s.clients[c], HubNext(s, at).clients[c])
  {
    match at {
      case Idle => case RegLock(_) => case RegInsert(_) => case RegUnlock(_) => case RegRelease(_) =>
      case InfoLock => case InfoUnlock => case Batch(_) =>
    }
  }

  lemma BroadcastStepShape(s: State, b: BroadcastId, at: BroadcastPc, c: ClientId)
    requires BroadcastEnabled(s, b, at)
    ensures c in BroadcastNext(s, b, at).clients <==> c in s.clients
    ensures c in s.clients ==> SameThreads(s.clients[c], BroadcastNext(s, b, at).clients[c])
  {
    match at { case BcLock => case BcIterate => case BcAdd(_) => case BcWait => case BcUnlock => case BcEnd => }
  }

  lemma SenderStepShape(s: State, b: BroadcastId, d: ClientId, c: ClientId)
    requires SenderEnabled(s, b, d)
    ensures c in SenderNext(s, b, d).clients <==> c in s.clients
    ensures c in s.clients ==> SameThreads(s.clients[c], SenderNext(s, b, d).clients[c])
  {
    match s.broadcasts[b].senders[d] { case SenderSend => case SenderRelease => case SenderEnd => }
  }

  lemma HubActionShape(s: State, a: Action, c: ClientId)
    requires Enabled(s, a) && IsHubAction(a)
    ensures c in Next(s, a).clients <==> c in s.clients
    ensures c in s.clients ==> SameThreads(s.clients[c], Next(s, a).clients[c])
  {
    match a {
      case HubStep(at) => HubStepShape(s, at, c);
      case BroadcastStep(b, at) => BroadcastStepShape(s, b, at, c);
      case SenderStep(b, d) => SenderStepShape(s, b, d, c);
      case _ =>
    }
  }

  lemma HubActionPhase(s: State, a: Action, c: ClientId)
    requires Enabled(s, a) && IsHubAction(a)
    ensures PhaseOf(Next(s, a).hub, c) ==
      if a == HubStep(RegInsert(c)) then AfterInsert
      else if a == HubStep(RegRelease(c)) then Elsewhere
      else PhaseOf(s.hub, c)
  {
  }

  // ---------------------------------------------------------------- one life per client

  // The events of which a client's life has at most one each.
  datatype Milestone =
    | Inserted | Unregistered | Deleted | SendIsClosed | EventsAreClosed | PluginIsClosed | DoneIsClosed

  function ActionOf(m: Milestone, c: ClientId): Action {
    match m
    case Inserted => HubStep(RegInsert(c))
    case Unregistered => Handler(c, SendUnregister)
    case Deleted => UnregisterStep(c, UnregDelete)
    case SendIsClosed => UnregisterStep(c, UnregCloseSend)
    case EventsAreClosed => UnregisterStep(c, UnregCloseEvents)
    case PluginIsClosed => UnregisterStep(c, UnregClosePlugin)
    case DoneIsClosed => ReadStep(c, ReadCloseDone)
  }

  predicate Reached(x: Client, phase: Phase, m: Milestone) {
    match m
    case Inserted =>
      && x.handler != AddRegistration && x.handler != SendRegister
      && (x.handler == WaitRegistered ==> phase != BeforeInsert)
    case Unregistered => x.handler == HandlerEnd
    case Deleted => !BeforeDelete(x.unregister)
    case SendIsClosed => x.sendClosed
    case EventsAreClosed => x.eventsClosed
    case PluginIsClosed => x.pluginClosed
    case DoneIsClosed => x.doneClosed
  }

  predicate HasReached(s: State, c: ClientId, m: Milestone) {
    c in s.clients && Reached(s.clients[c], PhaseOf(s.hub, c), m)
  }

  // The part of a client that only its own unregister goroutine changes.
  predicate SameEnding(x: Client, x': Client) {
    && x'.unregister == x.unregister && x'.sendClosed == x.sendClosed
    && x'.eventsClosed == x.eventsClosed && x'.pluginClosed == x.pluginClosed
  }

  lemma HandlerFrame(x: Client, at: HandlerPc)
    requires x.handler == at && at != HandlerEnd
    ensures
      var x' := HandlerClient(x, at);
      && x'.doneClosed == x.doneClosed && (at != SendUnregister ==> SameEnding(x, x'))
      && (x'.handler == HandlerEnd <==> at == SendUnregister)
      && (x'.handler == SendRegister <==> at == AddRegistration)
      && (x'.handler == WaitRegistered <==> at == SendRegister)
      && x'.handler != AddRegistration
      && (at == SendUnregister ==> x' == x.(handler := HandlerEnd, unregister := UnregReadLock))
  {
    match at {
      case AddRegistration => case SendRegister => case WaitRegistered => case StartLoops => case StartLogin =>
      case StartHistory => case WaitLocal => case WaitDone => case SendUnregister =>
    }
  }

  lemma HistoryFrame(x: Client, h: HistoryId, member: bool)
    requires h in x.histories
    ensures
      var x' := HistoryClient(x, h, member);
      x'.handler == x.handler && SameEnding(x, x') && x'.doneClosed == x.doneClosed
  {
    match x.histories[h] {
      case HistoryLock => case HistoryTest => case HistorySend => case HistoryUnlock => case HistoryRelease =>
    }
  }

  lemma ReadFrame(x: Client, at: ReadPc, member: bool)
    ensures
      var x' := ReadClient(x, at, member);
      x'.handler == x.handler && SameEnding(x, x') && x'.doneClosed == (x.doneClosed || at == ReadCloseDone)
  {
    match at {
      case ReadIdle => case ReadTest(_) => case ReadSend(_) => case ReadUnlock => case ReadCloseDone =>
      case ReadRelease => case _ =>
    }
  }

  lemma WriteFrame(x: Client, at: WritePc)
    ensures
      var x' := WriteNext(x, at);
      x'.handler == x.handler && SameEnding(x, x') && x'.doneClosed == x.doneClosed
  {
    match at { case WriteIdle => case WriteSend => case WriteRelease => case _ => }
  }

  lemma UnregisterFrame(x: Client, at: UnregisterPc, member: bool)
    requires x.unregister == at && at != UnregUnborn && at != UnregEnd
    ensures
      var x' := UnregisterClient(x, at, member);
      && x'.handler == x.handler && x'.doneClosed == x.doneClosed
      && x'.sendClosed == (x.sendClosed || at == UnregCloseSend)
      && x'.eventsClosed == (x.eventsClosed || at == UnregCloseEvents)
      && x'.pluginClosed == (x.pluginClosed || at == UnregClosePlugin)
      && ((!BeforeDelete(at) || member) ==> BeforeDelete(x'.unregister) == (BeforeDelete(at) && at != UnregDelete))
      && (Drained(at) ==> Drained(x'.unregister))
  {
    match at {
      case UnregReadLock => case UnregTest => case UnregFound => case UnregNotFound => case UnregLock =>
      case UnregDelete =>
      case UnregUnlock => case UnregWait => case UnregCloseSend => case UnregCloseEvents => case UnregClosePlugin =>
      case UnregInfoLock => case UnregInfoUnlock =>
    }
  }

  lemma ClientAfterFrame(s: State, a: Action)
    requires Enabled(s, a) && !IsHubAction(a) && !a.Connect? && !a.Handler?
    ensures
      var x, x' := s.clients[a.c], ClientAfter(s, a);
      && x'.handler == x.handler
      && (!a.UnregisterStep? ==> SameEnding(x, x'))
      && x'.doneClosed == (x.doneClosed || a == ReadStep(a.c, ReadCloseDone))
  {
    match a {
      case LoginBroadcastStep(c, at) =>
      case LoginPluginStep(c, at) =>
      case HistoryStep(c, h) => HistoryFrame(s.clients[c], h, c in s.members);
      case ReadStep(c, at) => ReadFrame(s.clients[c], at, c in s.members);
      case ReadBeginSend(c, plan) =>
      case ReadStartHistory(c, h) =>
      case WriteStep(c, at) => WriteFrame(s.clients[c], at);
      case WriteBeginSend(c) =>
      case UnregisterStep(c, at) => UnregisterFrame(s.clients[c], at, c in s.members);
    }
  }

  // The milestone is reached exactly by its own action, and that action is taken only before it.
  predicate MilestoneMoves(s: State, a: Action, c: ClientId, m: Milestone, s': State) {
    && HasReached(s', c, m) == (HasReached(s, c, m) || a == ActionOf(m, c))
    && (a == ActionOf(m, c) ==> !HasReached(s, c, m))
  }

  lemma HubReached(x: Client, member: bool, phase: Phase, x': Client, phase': Phase, m: Milestone)
    requires MembershipInv(x, member, phase) && SameThreads(x, x')
    requires
      || phase' == phase || (phase == BeforeInsert && phase' == AfterInsert)
      || (phase == AfterInsert && phase' == Elsewhere)
    ensures Reached(x', phase', m) == (Reached(x, phase, m) || (m == Inserted && phase' == AfterInsert != phase))
    ensures m == Inserted && phase' == AfterInsert != phase ==> !Reached(x, phase, m)
  {
    match m case Inserted => case _ =>
  }

  // A move of the hub, given only what it does to the client and to its registration phase.
  lemma HubMoves(s: State, a: Action, c: ClientId, m: Milestone, s': State)
    requires ClientsInv(s) && (c in s'.clients <==> c in s.clients)
    requires c in s.clients ==> SameThreads(s.clients[c], s'.clients[c])
    requires PhaseOf(s'.hub, c) == if a == HubStep(RegInsert(c)) then AfterInsert
      else if a == HubStep(RegRelease(c)) then Elsewhere else PhaseOf(s.hub, c)
    requires a == HubStep(RegInsert(c)) ==> PhaseOf(s.hub, c) == BeforeInsert && c in s.clients
    requires a == HubStep(RegRelease(c)) ==> PhaseOf(s.hub, c) == AfterInsert
    requires a == ActionOf(m, c) <==> m == Inserted && a == HubStep(RegInsert(c))
    ensures MilestoneMoves(s, a, c, m, s')
  {
    if c in s.clients {
      assert ClientInv(s.clients[c], c in s.members, PhaseOf(s.hub, c));
      HubReached(s.clients[c], c in s.members, PhaseOf(s.hub, c), s'.clients[c], PhaseOf(s'.hub, c), m);
    }
  }

  lemma HubMilestone(s: State, a: Action, c: ClientId, m: Milestone)
    requires KnownInv(s) && ClientsInv(s) && Enabled(s, a) && IsHubAction(a)
    ensures MilestoneMoves(s, a, c, m, Next(s, a))
  {
    HubActionShape(s, a, c);
    HubActionPhase(s, a, c);
    HubActionIsNot(s, a, c);
    HubMoves(s, a, c, m, Next(s, a));
  }

  lemma HubActionIsNot(s: State, a: Action, c: ClientId)
    requires KnownInv(s) && Enabled(s, a) && IsHubAction(a)
    ensures a == HubStep(RegInsert(c)) ==> PhaseOf(s.hub, c) == BeforeInsert && c in s.clients
    ensures a == HubStep(RegRelease(c)) ==> PhaseOf(s.hub, c) == AfterInsert
    ensures forall m :: a == ActionOf(m, c) <==> m == Inserted && a == HubStep(RegInsert(c))
  {
  }

  lemma OtherMilestone(s: State, a: Action, c: ClientId, m: Milestone)
    requires Enabled(s, a) && !IsHubAction(a) && a.c != c
    ensures MilestoneMoves(s, a, c, m, Next(s, a))
  {
    ClientActionShape(s, a);
    assert a != ActionOf(m, c);
    assert PhaseOf(Next(s, a).hub, c) == PhaseOf(s.hub, c);
  }

  lemma HandlerReached(x: Client, at: HandlerPc, member: bool, phase: Phase, m: Milestone)
    requires MembershipInv(x, member, phase) && ClosedInv(x) && x.handler == at && at != HandlerEnd
    requires at == WaitRegistered ==> phase == Elsewhere
    ensures Reached(HandlerClient(x, at), if at == SendRegister then BeforeInsert else phase, m) ==
      (Reached(x, phase, m) || (m == Unregistered && at == SendUnregister))
    ensures m == Unregistered ==> !Reached(x, phase, m)
  {
    HandlerFrame(x, at);
    match m case Inserted => case Unregistered => case Deleted => case _ =>
  }

  lemma HandlerOwn(s: State, c: ClientId, at: HandlerPc, m: Milestone)
    requires ClientsInv(s) && HandlerEnabled(s, c, at)
    ensures
      var x, phase := s.clients[c], PhaseOf(s.hub, c);
      && Reached(HandlerClient(x, at), if at == SendRegister then BeforeInsert else phase, m) ==
           (Reached(x, phase, m) || (m == Unregistered && at == SendUnregister))
      && (m == Unregistered ==> !Reached(x, phase, m))
  {
    var x, phase := s.clients[c], PhaseOf(s.hub, c);
    assert ClientInv(x, c in s.members, phase);
    if at == WaitRegistered { EmptyCounter(x, phase); }
    HandlerReached(x, at, c in s.members, phase, m);
  }

  lemma HandlerMilestone(s: State, c: ClientId, at: HandlerPc, m: Milestone, s': State)
    requires ClientsInv(s) && HandlerEnabled(s, c, at)
    requires s'.clients == s.clients[c := HandlerClient(s.clients[c], at)]
    requires s'.hub == if at == SendRegister then RegLock(c) else s.hub
    ensures MilestoneMoves(s, Handler(c, at), c, m, s')
  {
    HandlerOwn(s, c, at, m);
  }

  lemma EmptyCounter(x: Client, phase: Phase)
    requires CounterInv(x, phase) && x.counter == 0
    ensures phase == Elsewhere && x.tokens == {}
  {
  }

  lemma UnregisterReached(x: Client, at: UnregisterPc, member: bool, phase: Phase, c: ClientId, m: Milestone)
    requires MembershipInv(x, member, phase) && ClosedInv(x)
    requires x.unregister == at && at != UnregUnborn && at != UnregEnd
    ensures Reached(UnregisterClient(x, at, member), phase, m) ==
      (Reached(x, phase, m) || UnregisterStep(c, at) == ActionOf(m, c))
    ensures UnregisterStep(c, at) == ActionOf(m, c) ==> !Reached(x, phase, m)
  {
    UnregisterFrame(x, at, member);
    match m case Deleted => case SendIsClosed => case EventsAreClosed => case PluginIsClosed => case _ =>
  }

  lemma UnregisterMilestone(s: State, c: ClientId, at: UnregisterPc, m: Milestone, s': State)
    requires ClientsInv(s) && UnregisterEnabled(s, c, at)
    requires s'.clients == s.clients[c := UnregisterClient(s.clients[c], at, c in s.members)] && s'.hub == s.hub
    ensures MilestoneMoves(s, UnregisterStep(c, at), c, m, s')
  {
    assert ClientInv(s.clients[c], c in s.members, PhaseOf(s.hub, c));
    UnregisterReached(s.clients[c], at, c in s.members, PhaseOf(s.hub, c), c, m);
  }

  // A move of one client's goroutine, given only what it does to the client.
  lemma OwnMoves(s: State, a: Action, c: ClientId, m: Milestone, x': Client, s': State)
    requires c in s.clients && s'.clients == s.clients[c := x'] && s'.hub == s.hub
    requires x'.handler == s.clients[c].handler && SameEnding(s.clients[c], x')
    requires x'.doneClosed == (s.clients[c].doneClosed || a == ReadStep(c, ReadCloseDone))
    requires a == ReadStep(c, ReadCloseDone) ==> !s.clients[c].doneClosed
    requires a == ActionOf(m, c) <==> m == DoneIsClosed && a == ReadStep(c, ReadCloseDone)
    ensures MilestoneMoves(s, a, c, m, s')
  {
    match m case DoneIsClosed => case _ =>
  }

  lemma OwnMilestone(s: State, a: Action, m: Milestone, s': State)
    requires ClientsInv(s) && Enabled(s, a) && !IsHubAction(a) && !a.Connect? && !a.Handler? && !a.UnregisterStep?
    requires s'.clients == s.clients[a.c := ClientAfter(s, a)] && s'.hub == s.hub
    ensures MilestoneMoves(s, a, a.c, m, s')
  {
    ClientAfterFrame(s, a);
    DoneStillOpen(s, a.c);
    OwnMoves(s, a, a.c, m, ClientAfter(s, a), s');
  }

  lemma ConnectMilestone(s: State, a: Action, m: Milestone)
    requires KnownInv(s) && Enabled(s, a) && a.Connect?
    ensures MilestoneMoves(s, a, a.c, m, Next(s, a))
  {
    assert PhaseOf(s.hub, a.c) == Elsewhere;
  }

  lemma DoneStillOpen(s: State, c: ClientId)
    requires ClientsInv(s) && c in s.clients
    ensures s.clients[c].read == ReadCloseDone ==> !s.clients[c].doneClosed
  {
    assert ClientInv(s.clients[c], c in s.members, PhaseOf(s.hub, c));
  }

  lemma StepMilestone(s: State, a: Action, c: ClientId, m: Milestone)
    requires Inv(s) && Enabled(s, a)
    ensures MilestoneMoves(s, a, c, m, Next(s, a))
  {
    if IsHubAction(a) { HubMilestone(s, a, c, m); }
    else if a.c != c { OtherMilestone(s, a, c, m); }
    else if a.Handler? { ClientActionShape(s, a); HandlerMilestone(s, c, a.at, m, Next(s, a)); }
    else if a.UnregisterStep? { ClientActionShape(s, a); UnregisterMilestone(s, c, a.unreg, m, Next(s, a)); }
    else if a.Connect? { ConnectMilestone(s, a, m); }
    else { ClientActionShape(s, a); OwnMilestone(s, a, m, Next(s, a)); }
  }

  lemma CountLast(acts: seq<Action>, a: Action)
    requires acts != []
    ensures multiset(acts)[a] == multiset(acts[..|acts| - 1])[a] + One(acts[|acts| - 1] == a)
  {
    assert acts == acts[..|acts| - 1] + [acts[|acts| - 1]];
  }

  lemma RunMilestone(acts: seq<Action>, c: ClientId, m: Milestone)
    requires IsRun(acts) && acts != []
    ensures MilestoneMoves(Run(acts[..|acts| - 1]).value, acts[|acts| - 1], c, m, Run(acts).value)
  {
    RunsKeepInv(acts[..|acts| - 1]);
    StepMilestone(Run(acts[..|acts| - 1]).value, acts[|acts| - 1], c, m);
  }

  // In every run, each milestone of a client has been passed exactly as often as the state shows: never or once.
  lemma {:induction false} OneLife(acts: seq<Action>, c: ClientId, m: Milestone)
    requires IsRun(acts)
    ensures multiset(acts)[ActionOf(m, c)] == One(HasReached(Run(acts).value, c, m))
    ensures multiset(acts)[ActionOf(m, c)] <= 1
  {
    if acts != [] {
      OneLife(acts[..|acts| - 1], c, m);
      RunMilestone(acts, c, m);
      CountLast(acts, ActionOf(m, c));
    }
  }

  // A client is a member exactly between its one registration and its one removal.
  lemma MembershipIsOneInterval(acts: seq<Action>, c: ClientId)
    requires IsRun(acts)
    ensures c in Run(acts).value.members <==>
      multiset(acts)[HubStep(RegInsert(c))] == 1 && multiset(acts)[UnregisterStep(c, UnregDelete)] == 0
  {
    var s := Run(acts).value;
    OneLife(acts, c, Inserted);
    OneLife(acts, c, Deleted);
    RunsKeepInv(acts);
    if c in s.clients { assert ClientInv(s.clients[c], c in s.members, PhaseOf(s.hub, c)); }
  }

  // A client that was a member and is one no more never becomes one again.
  lemma NeverReturns(acts: seq<Action>, c: ClientId, i: nat, j: nat)
    requires IsRun(acts) && i <= j <= |acts|
    requires c in StateAt(acts, i).members && c !in StateAt(acts, j).members
    ensures c !in Run(acts).value.members
  {
    PrefixIsRun(acts, i);
    PrefixIsRun(acts, j);
    MembershipIsOneInterval(acts[..i], c);
    MembershipIsOneInterval(acts[..j], c);
    MembershipIsOneInterval(acts, c);
    PrefixCount(acts[..j], i, HubStep(RegInsert(c)));
    PrefixCount(acts, j, UnregisterStep(c, UnregDelete));
    assert acts[..j][..i] == acts[..i];
    OneLife(acts[..j], c, Inserted);
  }

  lemma PrefixCount(acts: seq<Action>, n: nat, a: Action)
    requires n <= |acts|
    ensures multiset(acts[..n])[a] <= multiset(acts)[a]
  {
    assert acts == acts[..n] + acts[n..];
  }

  // ---------------------------------------------------------------- nothing is added after Wait

  lemma DrainedClientStays(s: State, a: Action)
    requires Inv(s) && Enabled(s, a) && !IsHubAction(a) && a.c in s.clients && Drained(s.clients[a.c].unregister)
    ensures Drained(ClientAfter(s, a).unregister)
  {
    DrainedIsQuiet(s, a.c);
    if !a.Handler? { ClientAfterFrame(s, a); }
    if a.UnregisterStep? { UnregisterFrame(s.clients[a.c], a.unreg, a.c in s.members); }
  }

  lemma DrainedStays(s: State, a: Action, c: ClientId)
    requires Inv(s) && Enabled(s, a) && c in s.clients && Drained(s.clients[c].unregister)
    ensures c in Next(s, a).clients && Drained(Next(s, a).clients[c].unregister)
  {
    DrainedIsQuiet(s, c);
    if IsHubAction(a) {
      HubActionShape(s, a, c);
    } else {
      ClientActionShape(s, a);
      if a.c == c { DrainedClientStays(s, a); }
    }
  }

  // Once the unregister goroutine's Wait has returned, the counter is zero in every continuation of the run.
  lemma {:induction false} NoAddAfterWait(acts: seq<Action>, n: nat, c: ClientId)
    requires IsRun(acts) && n <= |acts|
    requires c in StateAt(acts, n).clients && Drained(StateAt(acts, n).clients[c].unregister)
    ensures c in Run(acts).value.clients && Drained(Run(acts).value.clients[c].unregister)
    ensures Run(acts).value.clients[c].counter == 0 && c !in Run(acts).value.members
    decreases |acts|
  {
    RunsKeepInv(acts);
    if n == |acts| {
      assert acts[..n] == acts;
    } else {
      var before := acts[..|acts| - 1];
      assert before[..n] == acts[..n];
      NoAddAfterWait(before, n, c);
      RunsKeepInv(before);
      DrainedStays(Run(before).value, acts[|acts| - 1], c);
    }
    DrainedIsQuiet(Run(acts).value, c);
  }

  // ---------------------------------------------------------------- a broadcast reaches its snapshot, once

  lemma BroadcastIsComplete(x: Broadcast, members: set<ClientId>, c: ClientId)
    requires BroadcastInv(x, members) && (x.pc == BcUnlock || x.pc == BcEnd)
    ensures x.outcomes.Keys == x.snapshot && x.event.name != INTERNAL
    ensures Delivered(x, c) <==> c in x.snapshot && x.outcomes[c] == Deliver
    ensures x.pc == BcUnlock ==> x.snapshot == members
    ensures c in x.snapshot ==> MayDecide(x, x.outcomes[c])
    ensures !x.hasProgram && x.marshals && c in x.snapshot ==> x.outcomes[c] == Deliver
  {
  }

  // When the goroutine of a broadcast is about to release the lock, and ever after, each client has received one
  // copy if it was registered, passed the filter and could be marshalled, and no copy otherwise.  An event without a
  // target filter passes for everybody.
  lemma BroadcastDeliversOnce(s: State, b: BroadcastId, c: ClientId)
    requires Reachable(s) && b in s.broadcasts && c in s.clients
    requires s.broadcasts[b].pc == BcUnlock || s.broadcasts[b].pc == BcEnd
    ensures
      var x := s.broadcasts[b];
      && x.outcomes.Keys == x.snapshot
      && s.clients[c].posted[FromBroadcast(b)] == One(c in x.snapshot && x.outcomes[c] == Deliver)
      && (x.pc == BcUnlock ==> x.snapshot == s.members)
      && x.event.name != INTERNAL
      && (c in x.snapshot && x.outcomes[c] == Rejected ==> x.hasProgram)
      && (c in x.snapshot && x.outcomes[c] == Unmarshalled ==> !x.marshals)
      && (!x.marshals ==> s.clients[c].posted[FromBroadcast(b)] == 0)
      && (!x.hasProgram && x.marshals && c in x.snapshot ==> s.clients[c].posted[FromBroadcast(b)] == 1)
      && (x.hasProgram ==> x.event.targetFilter != "")
  {
    ReachableInv(s);
    BroadcastIsComplete(s.broadcasts[b], s.members, c);
    assert s.clients[c].posted[FromBroadcast(b)] == One(HasDelivered(s, b, c));
  }

  // At no time has a client received two copies, or a copy that the loop did not decide to deliver.
  lemma NoStrayCopy(s: State, b: BroadcastId, c: ClientId)
    requires Reachable(s) && c in s.clients
    ensures
      && s.clients[c].posted[FromBroadcast(b)] <= 1
      && (s.clients[c].posted[FromBroadcast(b)] == 1 ==>
            && b in s.broadcasts && c in s.broadcasts[b].snapshot && c in s.broadcasts[b].outcomes
            && s.broadcasts[b].outcomes[c] == Deliver)
  {
    ReachableInv(s);
    assert s.clients[c].posted[FromBroadcast(b)] == One(HasDelivered(s, b, c));
    if b in s.broadcasts { assert BroadcastInv(s.broadcasts[b], s.members); }
  }

  // After RLock the snapshot stays what it was: the members at the time of RLock.
  lemma SnapshotStep(s: State, a: Action, b: BroadcastId)
    requires Enabled(s, a) && b in s.broadcasts
    ensures
      var s' := Next(s, a);
      && b in s'.broadcasts
      && (s.broadcasts[b].pc != BcLock ==>
            s'.broadcasts[b].pc != BcLock && s'.broadcasts[b].snapshot == s.broadcasts[b].snapshot)
      && (a == BroadcastStep(b, BcLock) ==> s'.broadcasts[b].pc != BcLock && s'.broadcasts[b].snapshot == s.members)
  {
    if IsHubAction(a) { SnapshotHubStep(s, a, b); } else { ClientActionShape(s, a); }
  }

  lemma SnapshotHubStep(s: State, a: Action, b: BroadcastId)
    requires Enabled(s, a) && IsHubAction(a) && b in s.broadcasts
    ensures
      var s' := Next(s, a);
      && b in s'.broadcasts
      && (s.broadcasts[b].pc != BcLock ==>
            s'.broadcasts[b].pc != BcLock && s'.broadcasts[b].snapshot == s.broadcasts[b].snapshot)
      && (a == BroadcastStep(b, BcLock) ==> s'.broadcasts[b].pc != BcLock && s'.broadcasts[b].snapshot == s.members)
  {
  }

  // The snapshot of a broadcast, at any time after its RLock (action n of the run), is the membership at that RLock.
  lemma {:induction false} SnapshotIsMembershipAtLock(acts: seq<Action>, n: nat, b: BroadcastId)
    requires IsRun(acts) && n < |acts| && acts[n] == BroadcastStep(b, BcLock)
    ensures b in Run(acts).value.broadcasts && Run(acts).value.broadcasts[b].pc != BcLock
    ensures Run(acts).value.broadcasts[b].snapshot == StateAt(acts, n).members
    decreases |acts|
  {
    var before, a := acts[..|acts| - 1], acts[|acts| - 1];
    if n < |acts| - 1 {
      assert before[..n] == acts[..n];
      SnapshotIsMembershipAtLock(before, n, b);
    }
    SnapshotStep(Run(before).value, a, b);
  }

}
