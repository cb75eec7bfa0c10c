/**
The inductive invariant of the hub protocol, in six parts, and the proof that every transition keeps each part.
*/
module HubInvariant {
  import opened Wrappers
  import opened Events
  import opened HubProtocol

  // ---------------------------------------------------------------- who holds the lock

  predicate InReadSection(s: State, t: Holder) {
    match t
    case Hub => s.hub == InfoUnlock
    case Broadcaster(b) => b in s.broadcasts && BroadcastLocking(s.broadcasts[b].pc)
    case _ => t.c in s.clients && HoldsRead(s.clients[t.c], t)
  }

  predicate BelongsTo(t: Holder, c: ClientId) { !t.Hub? && !t.Broadcaster? && t.c == c }

  // One of the goroutines of client x is between RLock and RUnlock.
  predicate HoldsRead(x: Client, t: Holder) {
    match t
    case Reader(_) => ReadLocking(x.read)
    case History(_, h) => h in x.histories && HistoryLocking(x.histories[h])
    case Unregisterer(_) => UnregisterReadLocking(x.unregister)
    case _ => false
  }

  predicate InWriteSection(s: State, t: Holder) {
    match t
    case Hub => s.hub.RegInsert? || s.hub.RegUnlock?
    case Unregisterer(c) => c in s.clients && UnregisterWriteLocking(s.clients[c].unregister)
    case _ => false
  }

  predicate UnregisterWriteLocking(pc: UnregisterPc) { pc == UnregDelete || pc == UnregUnlock }

  predicate ReadLocking(pc: ReadPc) { pc.ReadTest? || pc.ReadSend? || pc.ReadUnlock? }

  predicate HistoryLocking(pc: HistoryPc) { pc == HistoryTest || pc == HistorySend || pc == HistoryUnlock }

  predicate BroadcastLocking(pc: BroadcastPc) { !pc.BcLock? && !pc.BcEnd? }

  predicate UnregisterReadLocking(pc: UnregisterPc) {
    pc == UnregTest || pc == UnregFound || pc == UnregNotFound || pc == UnregInfoUnlock
  }

  ghost predicate LockInv(s: State) {
    && (forall t :: t in s.readers <==> InReadSection(s, t))
    && (forall t :: s.writer == Some(t) <==> InWriteSection(s, t))
    && (s.writer.Some? ==> s.readers == {})
  }

  // ---------------------------------------------------------------- one client

  // How far the hub's Run loop is with the registration of a client.
  datatype Phase = Elsewhere | BeforeInsert | AfterInsert

  function PhaseOf(hub: HubPc, c: ClientId): Phase {
    match hub
    case RegLock(d) => if c == d then BeforeInsert else Elsewhere
    case RegInsert(d) => if c == d then BeforeInsert else Elsewhere
    case RegUnlock(d) => if c == d then AfterInsert else Elsewhere
    case RegRelease(d) => if c == d then AfterInsert else Elsewhere
    case _ => Elsewhere
  }

  predicate LoopsUnborn(pc: HandlerPc) {
    pc == AddRegistration || pc == SendRegister || pc == WaitRegistered || pc == StartLoops
  }

  predicate BeforeDelete(pc: UnregisterPc) {
    || pc == UnregUnborn || pc == UnregReadLock || pc == UnregTest || pc == UnregFound || pc == UnregLock
    || pc == UnregDelete
  }

  // The client's WaitGroup has been waited for and nothing can add to it any more.
  predicate Drained(pc: UnregisterPc) {
    pc == UnregCloseSend || pc == UnregCloseEvents || pc == UnregClosePlugin || pc == UnregInfoLock ||
    pc == UnregInfoUnlock || pc == UnregEnd
  }

  // Everything the handler's local WaitGroup counts has finished.
  predicate LocalWaited(pc: HandlerPc) { pc == WaitDone || pc == SendUnregister || pc == HandlerEnd }

  predicate SideAlive(pc: SidePc) { pc == SideSend || pc == SideRelease }

  function One(b: bool): int { if b then 1 else 0 }

  predicate MembershipInv(x: Client, member: bool, phase: Phase) {
    && (phase != Elsewhere ==> x.handler == WaitRegistered)
    && member == (
         if x.handler == AddRegistration || x.handler == SendRegister then false
         else if x.handler == WaitRegistered then phase != BeforeInsert
         else BeforeDelete(x.unregister))
    && (x.unregister == UnregUnborn <==> x.handler != HandlerEnd)
    && x.unregister != UnregNotFound
    && (x.read.ReadSend? ==> member)
    && (forall h :: h in x.histories && x.histories[h] == HistorySend ==> member)
  }

  predicate ThreadsInv(x: Client) {
    && (x.read == ReadUnborn <==> LoopsUnborn(x.handler))
    && (x.write == WriteUnborn <==> LoopsUnborn(x.handler))
    && (x.read == ReadUnborn ==> x.histories == map[])
    && (x.doneClosed <==> x.read == ReadRelease || x.read == ReadEnd)
    && (x.handler == SendUnregister || x.handler == HandlerEnd ==> x.doneClosed)
    && (LoopsUnborn(x.handler) || x.handler == StartLogin ==>
          x.loginBroadcast == SideUnborn && x.loginPlugin == SideUnborn)
    && (x.handler == StartHistory || x.handler == StartLogin ==> FIRST_HISTORY !in x.histories)
    && x.local == One(SideAlive(x.loginBroadcast)) + One(SideAlive(x.loginPlugin)) + One(FIRST_HISTORY in x.histories)
    && (LocalWaited(x.handler) ==> x.local == 0)
  }

  predicate CounterInv(x: Client, phase: Phase) {
    && x.counter == |x.tokens|
    && (Registration in x.tokens <==> x.handler == SendRegister || phase != Elsewhere)
    && (Reading in x.tokens <==> x.read != ReadUnborn && x.read != ReadEnd)
    && (Writing in x.tokens <==> x.write != WriteUnborn && x.write != WriteEnd)
    && (x.handler == AddRegistration ==> x.tokens == {})
    && (Drained(x.unregister) ==> x.tokens == {})
  }

  predicate ClosedInv(x: Client) {
    && (x.sendClosed <==> Drained(x.unregister) && x.unregister != UnregCloseSend)
    && (x.eventsClosed <==> x.sendClosed && x.unregister != UnregCloseEvents)
    && (x.pluginClosed <==> x.eventsClosed && x.unregister != UnregClosePlugin)
  }

  predicate ClientInv(x: Client, member: bool, phase: Phase) {
    MembershipInv(x, member, phase) && ThreadsInv(x) && CounterInv(x, phase) && ClosedInv(x)
  }

  predicate ClientsInv(s: State) {
    forall c :: c in s.clients ==> ClientInv(s.clients[c], c in s.members, PhaseOf(s.hub, c))
  }

  ghost predicate KnownInv(s: State) {
    && s.members <= s.clients.Keys
    && (forall b :: b in s.broadcasts ==> s.broadcasts[b].snapshot <= s.clients.Keys)
    && PhasesKnown(s)
  }

  ghost predicate PhasesKnown(s: State) {
    forall c :: PhaseOf(s.hub, c) != Elsewhere ==> c in s.clients
  }

  // ---------------------------------------------------------------- one broadcast

  predicate BroadcastInv(x: Broadcast, members: set<ClientId>) {
    && x.event.name != INTERNAL
    && (BroadcastLocking(x.pc) ==> x.snapshot == members)
    && (x.pc == BcLock ==> x.snapshot == {})
    && x.outcomes.Keys !! x.todo
    && x.outcomes.Keys + x.todo == x.snapshot
    && (x.pc.BcAdd? ==> x.pc.c in x.outcomes && x.outcomes[x.pc.c] == Deliver && x.pc.c !in x.senders)
    && (forall c :: c in x.senders ==> c in x.outcomes && x.outcomes[c] == Deliver)
    && (forall c :: c in x.outcomes ==> MayDecide(x, x.outcomes[c]))
    && (x.hasProgram ==> x.event.targetFilter != "")
    && x.wg == |x.senders.Keys|
    && (x.pc == BcWait || x.pc == BcUnlock || x.pc == BcEnd ==> x.todo == {})
    && (x.pc == BcUnlock || x.pc == BcEnd ==> x.senders.Keys == {})
  }

  predicate BroadcastsInv(s: State) {
    forall b :: b in s.broadcasts ==> BroadcastInv(s.broadcasts[b], s.members)
  }

  // ---------------------------------------------------------------- between clients and broadcasts

  // A sender goroutine for client c that has not called Done yet.
  predicate HoldsToken(s: State, b: BroadcastId, c: ClientId) {
    b in s.broadcasts && c in s.broadcasts[b].senders && s.broadcasts[b].senders[c] != SenderEnd
  }

  predicate HasDelivered(s: State, b: BroadcastId, c: ClientId) {
    b in s.broadcasts && Delivered(s.broadcasts[b], c)
  }

  predicate Delivered(x: Broadcast, c: ClientId) {
    && c in x.outcomes && x.outcomes[c] == Deliver
    && x.pc != BcAdd(c)
    && (c in x.senders ==> x.senders[c] != SenderSend)
  }

  ghost predicate TokensInv(s: State) {
    forall b, c :: c in s.clients ==> (Sending(b) in s.clients[c].tokens <==> HoldsToken(s, b, c))
  }

  ghost predicate DeliveryInv(s: State) {
    forall b, c :: c in s.clients ==> s.clients[c].posted[FromBroadcast(b)] == One(HasDelivered(s, b, c))
  }

  ghost predicate Inv(s: State) {
    LockInv(s) && KnownInv(s) && ClientsInv(s) && BroadcastsInv(s) && TokensInv(s) && DeliveryInv(s)
  }

  // ---------------------------------------------------------------- the lock under an update

  ghost predicate SameWriteSections(s: State, s': State) {
    forall u :: InWriteSection(s', u) == InWriteSection(s, u)
  }

  // t takes the read lock.
  lemma LockTaken(s: State, s': State, t: Holder)
    requires LockInv(s) && s.writer.None? && s'.writer.None? && s'.readers == s.readers + {t}
    requires forall u :: InReadSection(s', u) == (InReadSection(s, u) || u == t)
    requires SameWriteSections(s, s')
    ensures LockInv(s')
  {
    forall u ensures s'.writer == Some(u) <==> InWriteSection(s', u) {
      assert s.writer == Some(u) <==> InWriteSection(s, u);
    }
  }

  // t gives the read lock back.
  lemma LockReturned(s: State, s': State, t: Holder)
    requires LockInv(s) && InReadSection(s, t) && s'.writer == s.writer && s'.readers == s.readers - {t}
    requires forall u :: InReadSection(s', u) == (InReadSection(s, u) && u != t)
    requires SameWriteSections(s, s')
    ensures LockInv(s')
  {
    assert t in s.readers;
    forall u ensures s'.writer == Some(u) <==> InWriteSection(s', u) {
      assert s.writer == Some(u) <==> InWriteSection(s, u);
    }
  }

  lemma LockKept(s: State, s': State)
    requires LockInv(s) && s'.writer == s.writer && s'.readers == s.readers
    requires forall u :: InReadSection(s', u) == InReadSection(s, u)
    requires SameWriteSections(s, s')
    ensures LockInv(s')
  {
    forall u ensures s'.writer == Some(u) <==> InWriteSection(s', u) {
      assert s.writer == Some(u) <==> InWriteSection(s, u);
    }
  }

  // t takes or gives back the write lock.
  lemma WriteLockMoved(s: State, s': State, t: Holder)
    requires LockInv(s) && s'.readers == s.readers
    requires forall u :: InReadSection(s', u) == InReadSection(s, u)
    requires forall u :: u != t ==> InWriteSection(s', u) == InWriteSection(s, u)
    requires || (MayLock(s) && s'.writer == Some(t) && InWriteSection(s', t))
             || (InWriteSection(s, t) && s'.writer.None? && !InWriteSection(s', t))
    ensures LockInv(s')
  {
    forall u ensures s'.writer == Some(u) <==> InWriteSection(s', u) {
      assert s.writer == Some(u) <==> InWriteSection(s, u);
      assert s.writer == Some(t) <==> InWriteSection(s, t);
    }
  }

  // Nobody is in a read section while somebody is in the write section.
  lemma WriterExcludesReaders(s: State, t: Holder, u: Holder)
    requires LockInv(s) && InWriteSection(s, t)
    ensures !InReadSection(s, u)
  {
    assert s.writer == Some(t);
    assert u in s.readers <==> InReadSection(s, u);
  }

  // ---------------------------------------------------------------- updates of one client

  ghost predicate SameReadSections(x: Client, x': Client) {
    forall u :: HoldsRead(x', u) == HoldsRead(x, u)
  }

  predicate SameWriteSection(x: Client, x': Client) {
    UnregisterWriteLocking(x'.unregister) == UnregisterWriteLocking(x.unregister)
  }

  ghost predicate SameTokens(x: Client, x': Client) {
    forall b :: Sending(b) in x'.tokens <==> Sending(b) in x.tokens
  }

  ghost predicate SamePosts(x: Client, x': Client) {
    forall b :: x'.posted[FromBroadcast(b)] == x.posted[FromBroadcast(b)]
  }

  lemma ClientWriteSections(s: State, c: ClientId, x: Client)
    requires c in s.clients && SameWriteSection(s.clients[c], x)
    ensures SameWriteSections(s, WithClient(s, c, x))
  {
    var s' := WithClient(s, c, x);
    forall u ensures InWriteSection(s', u) == InWriteSection(s, u) {
      match u case Unregisterer(d) => case _ =>
    }
  }

  lemma ClientUpdateClients(s: State, c: ClientId, x: Client)
    requires ClientsInv(s) && c in s.clients
    requires ClientInv(x, c in s.members, PhaseOf(s.hub, c))
    ensures ClientsInv(WithClient(s, c, x))
  {
  }

  lemma ClientUpdateTokens(s: State, c: ClientId, x: Client)
    requires TokensInv(s) && c in s.clients && SameTokens(s.clients[c], x)
    ensures TokensInv(WithClient(s, c, x))
  {
    var s' := WithClient(s, c, x);
    forall b, d | d in s'.clients ensures Sending(b) in s'.clients[d].tokens <==> HoldsToken(s', b, d) {
      assert HoldsToken(s', b, d) == HoldsToken(s, b, d);
    }
  }

  lemma ClientUpdateDelivery(s: State, c: ClientId, x: Client)
    requires DeliveryInv(s) && c in s.clients && SamePosts(s.clients[c], x)
    ensures DeliveryInv(WithClient(s, c, x))
  {
    var s' := WithClient(s, c, x);
    forall b, d | d in s'.clients ensures s'.clients[d].posted[FromBroadcast(b)] == One(HasDelivered(s', b, d)) {
      assert HasDelivered(s', b, d) == HasDelivered(s, b, d);
    }
  }

  // Everything but the lock.
  ghost predicate RestInv(s: State) {
    KnownInv(s) && ClientsInv(s) && BroadcastsInv(s) && TokensInv(s) && DeliveryInv(s)
  }

  lemma ClientUpdateRest(s: State, c: ClientId, x: Client)
    requires RestInv(s) && c in s.clients
    requires SameTokens(s.clients[c], x) && SamePosts(s.clients[c], x)
    requires ClientInv(x, c in s.members, PhaseOf(s.hub, c))
    ensures RestInv(WithClient(s, c, x))
  {
    ClientUpdateClients(s, c, x);
    ClientUpdateTokens(s, c, x);
    ClientUpdateDelivery(s, c, x);
  }

  lemma ClientUpdate(s: State, c: ClientId, x: Client)
    requires Inv(s) && c in s.clients
    requires SameReadSections(s.clients[c], x) && SameWriteSection(s.clients[c], x)
    requires SameTokens(s.clients[c], x) && SamePosts(s.clients[c], x)
    requires ClientInv(x, c in s.members, PhaseOf(s.hub, c))
    ensures Inv(WithClient(s, c, x))
  {
    ClientUpdateRest(s, c, x);
    ClientWriteSections(s, c, x);
    ClientUpdateLock(s, c, x);
  }

  lemma ClientUpdateLock(s: State, c: ClientId, x: Client)
    requires LockInv(s) && c in s.clients
    requires SameReadSections(s.clients[c], x) && SameWriteSection(s.clients[c], x)
    ensures LockInv(WithClient(s, c, x))
  {
    var s' := WithClient(s, c, x);
    ClientWriteSections(s, c, x);
    forall u ensures InReadSection(s', u) == InReadSection(s, u) {
      match u case Hub => case Broadcaster(_) => case _ => assert HoldsRead(x, u) == HoldsRead(s.clients[c], u);
    }
    LockKept(s, s');
  }

  // One goroutine of client c takes the read lock, or gives it back.
  lemma ClientReadLocks(s: State, c: ClientId, x: Client, t: Holder)
    requires LockInv(s) && s.writer.None? && c in s.clients && BelongsTo(t, c)
    requires forall u :: BelongsTo(u, c) && u != t ==> HoldsRead(x, u) == HoldsRead(s.clients[c], u)
    requires HoldsRead(x, t) && SameWriteSection(s.clients[c], x)
    ensures LockInv(ReadLocked(WithClient(s, c, x), t))
  {
    var s' := ReadLocked(WithClient(s, c, x), t);
    ClientWriteSections(s, c, x);
    forall u ensures InWriteSection(s', u) == InWriteSection(s, u) {
      assert InWriteSection(s', u) == InWriteSection(WithClient(s, c, x), u);
    }
    forall u ensures InReadSection(s', u) == (InReadSection(s, u) || u == t) {
      match u case Hub => case Broadcaster(_) => case _ =>
    }
    LockTaken(s, s', t);
  }

  lemma ClientReadUnlocks(s: State, c: ClientId, x: Client, t: Holder)
    requires LockInv(s) && c in s.clients && BelongsTo(t, c)
    requires forall u :: BelongsTo(u, c) && u != t ==> HoldsRead(x, u) == HoldsRead(s.clients[c], u)
    requires HoldsRead(s.clients[c], t) && !HoldsRead(x, t) && SameWriteSection(s.clients[c], x)
    ensures LockInv(ReadUnlocked(WithClient(s, c, x), t))
  {
    var s' := ReadUnlocked(WithClient(s, c, x), t);
    ClientWriteSections(s, c, x);
    forall u ensures InWriteSection(s', u) == InWriteSection(s, u) {
      assert InWriteSection(s', u) == InWriteSection(WithClient(s, c, x), u);
    }
    forall u ensures InReadSection(s', u) == (InReadSection(s, u) && u != t) {
      match u case Hub => case Broadcaster(_) => case _ =>
    }
    LockReturned(s, s', t);
  }

  // ---------------------------------------------------------------- a new client

  lemma ConnectLock(s: State, c: ClientId, x: Client)
    requires LockInv(s) && c !in s.clients && x == NewClient(x.hasUser)
    ensures LockInv(WithClient(s, c, x))
  {
    var s' := WithClient(s, c, x);
    forall u ensures InReadSection(s', u) == InReadSection(s, u) && InWriteSection(s', u) == InWriteSection(s, u) {
      match u case Hub => case Broadcaster(_) => case _ =>
    }
    LockKept(s, s');
  }

  lemma NoOutcomeForUnknown(s: State, b: BroadcastId, c: ClientId)
    requires KnownInv(s) && BroadcastsInv(s) && c !in s.clients
    ensures !HoldsToken(s, b, c) && !HasDelivered(s, b, c)
  {
    if b in s.broadcasts {
      assert BroadcastInv(s.broadcasts[b], s.members);
      assert c !in s.broadcasts[b].snapshot;
    }
  }

  lemma ConnectTokens(s: State, c: ClientId, x: Client)
    requires RestInv(s) && c !in s.clients && x == NewClient(x.hasUser)
    ensures TokensInv(WithClient(s, c, x))
  {
    var s' := WithClient(s, c, x);
    forall b, d | d in s'.clients ensures Sending(b) in s'.clients[d].tokens <==> HoldsToken(s', b, d) {
      NoOutcomeForUnknown(s, b, c);
      assert HoldsToken(s', b, d) == HoldsToken(s, b, d);
    }
  }

  lemma ConnectDelivery(s: State, c: ClientId, x: Client)
    requires RestInv(s) && c !in s.clients && x == NewClient(x.hasUser)
    ensures DeliveryInv(WithClient(s, c, x))
  {
    var s' := WithClient(s, c, x);
    forall b, d | d in s'.clients ensures s'.clients[d].posted[FromBroadcast(b)] == One(HasDelivered(s', b, d)) {
      NoOutcomeForUnknown(s, b, c);
      assert HasDelivered(s', b, d) == HasDelivered(s, b, d);
    }
  }

  lemma ConnectStep(s: State, c: ClientId, x: Client)
    requires Inv(s) && c !in s.clients && x == NewClient(x.hasUser)
    ensures Inv(WithClient(s, c, x))
  {
    ConnectLock(s, c, x);
    ConnectTokens(s, c, x);
    ConnectDelivery(s, c, x);
    assert c !in s.members;
  }

  // ---------------------------------------------------------------- steps that change one client and nothing else

  // A step of one goroutine that keeps the client's own invariant and concerns nobody else.
  ghost predicate LocalStep(x: Client, x': Client, member: bool, phase: Phase) {
    && ClientInv(x', member, phase)
    && SameReadSections(x, x') && SameWriteSection(x, x')
    && SameTokens(x, x') && SamePosts(x, x')
  }

  lemma ClientLocalStep(s: State, c: ClientId, x': Client)
    requires Inv(s) && c in s.clients && LocalStep(s.clients[c], x', c in s.members, PhaseOf(s.hub, c))
    ensures Inv(WithClient(s, c, x'))
  {
    ClientUpdate(s, c, x');
  }

  lemma RegistrationLocal(x: Client, at: HandlerPc, member: bool, phase: Phase)
    requires ClientInv(x, member, phase) && x.handler == at && (at == AddRegistration || at == WaitRegistered)
    requires at == WaitRegistered ==> x.counter == 0
    ensures LocalStep(x, HandlerClient(x, at), member, phase)
  {
  }

  lemma WaitingLocal(x: Client, at: HandlerPc, member: bool, phase: Phase)
    requires ClientInv(x, member, phase) && x.handler == at && (at == StartHistory || at == WaitLocal || at == WaitDone)
    requires at == WaitLocal ==> x.local == 0
    requires at == WaitDone ==> x.doneClosed
    ensures LocalStep(x, HandlerClient(x, at), member, phase)
  {
  }

  lemma StartLoopsLocal(x: Client, member: bool, phase: Phase)
    requires ClientInv(x, member, phase) && x.handler == StartLoops
    ensures LocalStep(x, HandlerClient(x, StartLoops), member, phase)
  {
  }

  lemma StartLoginLocal(x: Client, member: bool, phase: Phase)
    requires ClientInv(x, member, phase) && x.handler == StartLogin
    ensures LocalStep(x, HandlerClient(x, StartLogin), member, phase)
  {
  }

  lemma HandlerAloneStep(s: State, c: ClientId, at: HandlerPc)
    requires Inv(s) && HandlerEnabled(s, c, at) && at != SendRegister && at != SendUnregister
    ensures Inv(HandlerNext(s, c, at))
  {
    var x, member, phase := s.clients[c], c in s.members, PhaseOf(s.hub, c);
    assert ClientInv(x, member, phase);
    if at == StartLoops { StartLoopsLocal(x, member, phase); }
    else if at == StartLogin { StartLoginLocal(x, member, phase); }
    else if at == AddRegistration || at == WaitRegistered { RegistrationLocal(x, at, member, phase); }
    else { WaitingLocal(x, at, member, phase); }
    ClientLocalStep(s, c, HandlerClient(x, at));
  }

  lemma LoginBroadcastLocal(x: Client, at: SidePc, member: bool, phase: Phase)
    requires ClientInv(x, member, phase) && SideEnabled(x.loginBroadcast, at)
    ensures LocalStep(x, LoginBroadcastNext(x, at), member, phase)
  {
  }

  lemma LoginPluginLocal(x: Client, at: SidePc, member: bool, phase: Phase)
    requires ClientInv(x, member, phase) && SideEnabled(x.loginPlugin, at)
    ensures LocalStep(x, LoginPluginNext(x, at), member, phase)
  {
  }

  lemma WriteLocal(x: Client, at: WritePc, member: bool, phase: Phase)
    requires ClientInv(x, member, phase) && x.write == at && !at.WriteUnborn? && !at.WriteEnd?
    ensures LocalStep(x, WriteNext(x, at), member, phase)
    ensures at == WriteIdle ==> LocalStep(x, x.(write := WriteSend), member, phase)
  {
    if at == WriteRelease { WriteReleaseLocal(x, member, phase); }
    else if at == WriteSend { WriteSendLocal(x, member, phase); }
    else { WriteIdleLocal(x, member, phase); }
  }

  lemma WriteIdleLocal(x: Client, member: bool, phase: Phase)
    requires ClientInv(x, member, phase) && x.write == WriteIdle
    ensures LocalStep(x, WriteNext(x, WriteIdle), member, phase)
    ensures LocalStep(x, x.(write := WriteSend), member, phase)
  {
  }

  lemma WriteSendLocal(x: Client, member: bool, phase: Phase)
    requires ClientInv(x, member, phase) && x.write == WriteSend
    ensures LocalStep(x, WriteNext(x, WriteSend), member, phase)
  {
  }

  lemma WriteReleaseLocal(x: Client, member: bool, phase: Phase)
    requires ClientInv(x, member, phase) && x.write == WriteRelease
    ensures LocalStep(x, WriteNext(x, WriteRelease), member, phase)
  {
  }

  lemma ReadLocal(x: Client, at: ReadPc, member: bool, phase: Phase)
    requires ClientInv(x, member, phase) && x.read == at && !at.ReadUnborn? && !at.ReadEnd? && !at.ReadUnlock?
    ensures LocalStep(x, ReadClient(x, at, member), member, phase)
  {
    match at { case ReadIdle => case ReadTest(_) => case ReadSend(_) => case ReadCloseDone => case _ => }
  }

  lemma ReadStartHistoryLocal(x: Client, h: HistoryId, member: bool, phase: Phase)
    requires ClientInv(x, member, phase) && x.read == ReadIdle && h != FIRST_HISTORY && h !in x.histories
    ensures LocalStep(x, HistoryAt(x, h, HistoryLock), member, phase)
  {
  }

  lemma HistoryLocal(x: Client, h: HistoryId, member: bool, phase: Phase)
    requires ClientInv(x, member, phase) && h in x.histories
    requires x.histories[h] == HistoryTest || x.histories[h] == HistorySend
    ensures LocalStep(x, HistoryClient(x, h, member), member, phase)
  {
  }

  lemma HistoryReleaseLocal(x: Client, h: HistoryId, member: bool, phase: Phase)
    requires ClientInv(x, member, phase) && h in x.histories && x.histories[h] == HistoryRelease
    ensures LocalStep(x, HistoryClient(x, h, member), member, phase)
  {
  }

  lemma UnregisterLocal(x: Client, at: UnregisterPc, member: bool, phase: Phase)
    requires ClientInv(x, member, phase) && x.unregister == at && (at == UnregWait ==> x.counter == 0)
    requires
      || at == UnregTest || at == UnregWait || at == UnregCloseSend || at == UnregCloseEvents
      || at == UnregClosePlugin
    ensures LocalStep(x, UnregisterClient(x, at, member), member, phase)
  {
  }

  // ---------------------------------------------------------------- a client's goroutine and the read lock

  // The rest of the invariant does not mention the lock.
  lemma RestIgnoresLock(s: State, s': State)
    requires RestInv(s)
    requires s'.members == s.members && s'.hub == s.hub && s'.clients == s.clients && s'.broadcasts == s.broadcasts
    ensures RestInv(s')
  {
    assert TokensInv(s') by {
      forall b, c ensures HoldsToken(s', b, c) == HoldsToken(s, b, c) {}
    }
    assert DeliveryInv(s') by {
      forall b, c ensures HasDelivered(s', b, c) == HasDelivered(s, b, c) {}
    }
  }

  // A step that keeps the client's own invariant, whatever it does to the lock.
  ghost predicate OwnStep(x: Client, x': Client, member: bool, phase: Phase) {
    ClientInv(x', member, phase) && SameTokens(x, x') && SamePosts(x, x')
  }

  lemma OwnStepRest(s: State, c: ClientId, x': Client, s': State)
    requires RestInv(s) && c in s.clients && OwnStep(s.clients[c], x', c in s.members, PhaseOf(s.hub, c))
    requires s'.members == s.members && s'.hub == s.hub && s'.broadcasts == s.broadcasts
    requires s'.clients == s.clients[c := x']
    ensures RestInv(s')
  {
    ClientUpdateRest(s, c, x');
    RestIgnoresLock(WithClient(s, c, x'), s');
  }

  lemma HistoryLockOwn(x: Client, h: HistoryId, member: bool, phase: Phase)
    requires ClientInv(x, member, phase) && h in x.histories
    requires x.histories[h] == HistoryLock || x.histories[h] == HistoryUnlock
    ensures OwnStep(x, HistoryClient(x, h, member), member, phase)
  {
  }

  lemma ReadLockOwn(x: Client, plan: seq<Channel>, member: bool, phase: Phase)
    requires ClientInv(x, member, phase)
    ensures x.read == ReadUnlock ==> OwnStep(x, ReadClient(x, ReadUnlock, member), member, phase)
    ensures x.read == ReadIdle ==> OwnStep(x, x.(read := ReadTest(plan)), member, phase)
  {
  }

  lemma UnregisterLockOwn(x: Client, at: UnregisterPc, member: bool, phase: Phase)
    requires ClientInv(x, member, phase) && x.unregister == at
    requires at == UnregReadLock || at == UnregFound || at == UnregInfoLock || at == UnregInfoUnlock
          || at == UnregLock || at == UnregUnlock
    ensures OwnStep(x, UnregisterClient(x, at, member), member, phase)
  {
  }

  lemma HistoryLockMoved(s: State, c: ClientId, h: HistoryId)
    requires LockInv(s) && HistoryEnabled(s, c, h)
    requires s.clients[c].histories[h] == HistoryLock || s.clients[c].histories[h] == HistoryUnlock
    ensures LockInv(HistoryNext(s, c, h))
  {
    var x := s.clients[c];
    var x' := HistoryClient(x, h, c in s.members);
    if x.histories[h] == HistoryLock { ClientReadLocks(s, c, x', History(c, h)); }
    else { ClientReadUnlocks(s, c, x', History(c, h)); }
  }

  lemma HistoryLockStep(s: State, c: ClientId, h: HistoryId)
    requires Inv(s) && HistoryEnabled(s, c, h)
    requires s.clients[c].histories[h] == HistoryLock || s.clients[c].histories[h] == HistoryUnlock
    ensures LockInv(HistoryNext(s, c, h)) && RestInv(HistoryNext(s, c, h))
  {
    var x := s.clients[c];
    var x' := HistoryClient(x, h, c in s.members);
    HistoryLockOwn(x, h, c in s.members, PhaseOf(s.hub, c));
    OwnStepRest(s, c, x', HistoryNext(s, c, h));
    HistoryLockMoved(s, c, h);
  }

  lemma ReadUnlockMoved(s: State, c: ClientId)
    requires LockInv(s) && ReadEnabled(s, c, ReadUnlock)
    ensures LockInv(ReadNext(s, c, ReadUnlock))
  {
    ClientReadUnlocks(s, c, ReadClient(s.clients[c], ReadUnlock, c in s.members), Reader(c));
  }

  lemma ReadUnlockStep(s: State, c: ClientId)
    requires Inv(s) && ReadEnabled(s, c, ReadUnlock)
    ensures LockInv(ReadNext(s, c, ReadUnlock)) && RestInv(ReadNext(s, c, ReadUnlock))
  {
    var x := s.clients[c];
    var x' := ReadClient(x, ReadUnlock, c in s.members);
    ReadLockOwn(x, [], c in s.members, PhaseOf(s.hub, c));
    OwnStepRest(s, c, x', ReadNext(s, c, ReadUnlock));
    ReadUnlockMoved(s, c);
  }

  lemma ReadBeginSendMoved(s: State, c: ClientId, plan: seq<Channel>)
    requires LockInv(s) && ReadBeginSendEnabled(s, c, plan)
    ensures LockInv(ReadBeginSendNext(s, c, plan))
  {
    ClientReadLocks(s, c, s.clients[c].(read := ReadTest(plan)), Reader(c));
  }

  lemma ReadBeginSendStep(s: State, c: ClientId, plan: seq<Channel>)
    requires Inv(s) && ReadBeginSendEnabled(s, c, plan)
    ensures LockInv(ReadBeginSendNext(s, c, plan)) && RestInv(ReadBeginSendNext(s, c, plan))
  {
    var x := s.clients[c];
    var x' := x.(read := ReadTest(plan));
    ReadLockOwn(x, plan, c in s.members, PhaseOf(s.hub, c));
    OwnStepRest(s, c, x', ReadBeginSendNext(s, c, plan));
    ReadBeginSendMoved(s, c, plan);
  }

  lemma UnregisterReadLockMoved(s: State, c: ClientId, at: UnregisterPc)
    requires LockInv(s) && UnregisterEnabled(s, c, at)
    requires at == UnregReadLock || at == UnregFound || at == UnregInfoLock || at == UnregInfoUnlock
    ensures LockInv(UnregisterNext(s, c, at))
  {
    var x' := UnregisterClient(s.clients[c], at, c in s.members);
    if at == UnregReadLock || at == UnregInfoLock { ClientReadLocks(s, c, x', Unregisterer(c)); }
    else { ClientReadUnlocks(s, c, x', Unregisterer(c)); }
  }

  // Every step of the unregister goroutine but the deletion.
  lemma UnregisterNextShape(s: State, c: ClientId, at: UnregisterPc)
    requires UnregisterEnabled(s, c, at) && at != UnregDelete
    ensures
      var s' := UnregisterNext(s, c, at);
      && s'.members == s.members && s'.hub == s.hub && s'.broadcasts == s.broadcasts
      && s'.clients == s.clients[c := UnregisterClient(s.clients[c], at, c in s.members)]
  {
  }

  lemma UnregisterLockRest(s: State, c: ClientId, at: UnregisterPc, s': State)
    requires RestInv(s) && UnregisterEnabled(s, c, at) && s' == UnregisterNext(s, c, at)
    requires at == UnregReadLock || at == UnregFound || at == UnregInfoLock || at == UnregInfoUnlock
          || at == UnregLock || at == UnregUnlock
    ensures RestInv(s')
  {
    var x := s.clients[c];
    var x' := UnregisterClient(x, at, c in s.members);
    UnregisterLockOwn(x, at, c in s.members, PhaseOf(s.hub, c));
    UnregisterNextShape(s, c, at);
    OwnStepRest(s, c, x', s');
  }

  // ---------------------------------------------------------------- the unregister goroutine writes

  lemma UnregisterWriteLockMoved(s: State, c: ClientId, at: UnregisterPc)
    requires LockInv(s) && UnregisterEnabled(s, c, at) && (at == UnregLock || at == UnregUnlock)
    ensures LockInv(UnregisterNext(s, c, at))
  {
    var s' := UnregisterNext(s, c, at);
    forall u ensures InReadSection(s', u) == InReadSection(s, u) {
      match u case Hub => case Broadcaster(_) => case _ =>
    }
    forall u | u != Unregisterer(c) ensures InWriteSection(s', u) == InWriteSection(s, u) {
      match u case Unregisterer(_) => case _ =>
    }
    WriteLockMoved(s, s', Unregisterer(c));
  }

  lemma IdleIgnoresMembers(x: Broadcast, members: set<ClientId>, members': set<ClientId>)
    requires BroadcastInv(x, members) && !BroadcastLocking(x.pc)
    ensures BroadcastInv(x, members')
  {
  }

  // The members change only under the write lock, when no broadcast is iterating over them.
  lemma MembersMove(s: State, t: Holder, members: set<ClientId>)
    requires LockInv(s) && BroadcastsInv(s) && InWriteSection(s, t)
    ensures forall b :: b in s.broadcasts ==> BroadcastInv(s.broadcasts[b], members)
  {
    forall b | b in s.broadcasts ensures BroadcastInv(s.broadcasts[b], members) {
      WriterExcludesReaders(s, t, Broadcaster(b));
      IdleIgnoresMembers(s.broadcasts[b], s.members, members);
    }
  }

  // No goroutine of any client is inside a read section while the write lock is held.
  lemma NoGuardedSend(s: State, t: Holder, c: ClientId, h: HistoryId)
    requires LockInv(s) && InWriteSection(s, t) && c in s.clients
    ensures !s.clients[c].read.ReadSend?
    ensures h in s.clients[c].histories ==> s.clients[c].histories[h] != HistorySend
  {
    WriterExcludesReaders(s, t, Reader(c));
    WriterExcludesReaders(s, t, History(c, h));
  }

  lemma UnregisterDeleteClient(s: State, c: ClientId)
    requires LockInv(s) && ClientsInv(s) && UnregisterEnabled(s, c, UnregDelete)
    ensures ClientInv(UnregisterClient(s.clients[c], UnregDelete, true), false, PhaseOf(s.hub, c))
  {
    var x := s.clients[c];
    assert ClientInv(x, c in s.members, PhaseOf(s.hub, c));
    forall h ensures !x.read.ReadSend? && (h in x.histories ==> x.histories[h] != HistorySend) {
      NoGuardedSend(s, Unregisterer(c), c, h);
    }
  }

  lemma UnregisterDeleteLock(s: State, c: ClientId)
    requires LockInv(s) && UnregisterEnabled(s, c, UnregDelete)
    ensures LockInv(UnregisterNext(s, c, UnregDelete))
  {
    var s' := UnregisterNext(s, c, UnregDelete);
    forall u ensures InReadSection(s', u) == InReadSection(s, u) && InWriteSection(s', u) == InWriteSection(s, u) {
      match u case Hub => case Broadcaster(_) => case _ =>
    }
    LockKept(s, s');
  }

  lemma UnregisterDeleteOthers(s: State, c: ClientId)
    requires ClientsInv(s) && UnregisterEnabled(s, c, UnregDelete)
    requires ClientInv(UnregisterClient(s.clients[c], UnregDelete, true), false, PhaseOf(s.hub, c))
    ensures ClientsInv(UnregisterNext(s, c, UnregDelete))
  {
  }

  lemma UnregisterDeleteRelations(s: State, c: ClientId)
    requires TokensInv(s) && DeliveryInv(s) && UnregisterEnabled(s, c, UnregDelete)
    ensures TokensInv(UnregisterNext(s, c, UnregDelete)) && DeliveryInv(UnregisterNext(s, c, UnregDelete))
  {
    var s' := UnregisterNext(s, c, UnregDelete);
    forall b, d
      ensures HoldsToken(s', b, d) == HoldsToken(s, b, d)
      ensures HasDelivered(s', b, d) == HasDelivered(s, b, d)
    {}
  }

  lemma UnregisterDeleteStep(s: State, c: ClientId)
    requires Inv(s) && UnregisterEnabled(s, c, UnregDelete)
    ensures LockInv(UnregisterNext(s, c, UnregDelete)) && RestInv(UnregisterNext(s, c, UnregDelete))
  {
    UnregisterDeleteClient(s, c);
    MembersMove(s, Unregisterer(c), s.members - {c});
    UnregisterDeleteLock(s, c);
    UnregisterDeleteOthers(s, c);
    UnregisterDeleteRelations(s, c);
  }

  // ---------------------------------------------------------------- rendezvous with the hub

  lemma UnregisterReceivedLocal(x: Client, member: bool, phase: Phase)
    requires ClientInv(x, member, phase) && x.handler == SendUnregister
    ensures LocalStep(x, HandlerClient(x, SendUnregister), member, phase)
  {
  }

  lemma UnregisterReceived(s: State, c: ClientId)
    requires Inv(s) && HandlerEnabled(s, c, SendUnregister)
    ensures Inv(HandlerNext(s, c, SendUnregister))
  {
    UnregisterReceivedLocal(s.clients[c], c in s.members, PhaseOf(s.hub, c));
    ClientLocalStep(s, c, HandlerClient(s.clients[c], SendUnregister));
  }

  // The hub moves while no registration phase and nothing else changes.
  lemma HubMoveRest(s: State, s': State)
    requires RestInv(s)
    requires forall c :: PhaseOf(s'.hub, c) == PhaseOf(s.hub, c)
    requires s'.members == s.members && s'.clients == s.clients && s'.broadcasts == s.broadcasts
    ensures RestInv(s')
  {
    forall b, c
      ensures HoldsToken(s', b, c) == HoldsToken(s, b, c)
      ensures HasDelivered(s', b, c) == HasDelivered(s, b, c)
    {}
  }

  // The hub moves outside its lock sections.
  lemma HubMoveLock(s: State, s': State)
    requires LockInv(s) && s'.readers == s.readers && s'.writer == s.writer
    requires InReadSection(s', Hub) == InReadSection(s, Hub) && InWriteSection(s', Hub) == InWriteSection(s, Hub)
    requires s'.broadcasts == s.broadcasts && s'.clients.Keys == s.clients.Keys
    requires forall c :: c in s.clients ==> SameReadSections(s.clients[c], s'.clients[c])
    requires forall c :: c in s.clients ==> SameWriteSection(s.clients[c], s'.clients[c])
    ensures LockInv(s')
  {
    forall u ensures InReadSection(s', u) == InReadSection(s, u) && InWriteSection(s', u) == InWriteSection(s, u) {
      match u case Hub => case Broadcaster(_) => case _ => assert u.c in s'.clients <==> u.c in s.clients;
    }
    LockKept(s, s');
  }

  // One client and the hub's registration phase of that client change together.
  lemma PhaseMoveRest(s: State, c: ClientId, x': Client, s': State)
    requires RestInv(s) && c in s.clients && SameTokens(s.clients[c], x') && SamePosts(s.clients[c], x')
    requires s'.members == s.members && s'.clients == s.clients[c := x'] && s'.broadcasts == s.broadcasts
    requires forall d :: d != c ==> PhaseOf(s'.hub, d) == PhaseOf(s.hub, d)
    requires ClientInv(x', c in s.members, PhaseOf(s'.hub, c))
    ensures RestInv(s')
  {
    var s1 := WithClient(s, c, x');
    ClientUpdateTokens(s, c, x');
    ClientUpdateDelivery(s, c, x');
    forall b, d
      ensures HoldsToken(s', b, d) == HoldsToken(s1, b, d)
      ensures HasDelivered(s', b, d) == HasDelivered(s1, b, d)
    {}
  }

  lemma RegisterLock(s: State, c: ClientId, s': State)
    requires LockInv(s) && HandlerEnabled(s, c, SendRegister) && s' == HandlerNext(s, c, SendRegister)
    ensures LockInv(s')
  {
    HubMoveLock(s, s');
  }

  lemma RegisterRest(s: State, c: ClientId, s': State)
    requires RestInv(s) && HandlerEnabled(s, c, SendRegister) && s' == HandlerNext(s, c, SendRegister)
    ensures RestInv(s')
  {
    RegisterOwn(s.clients[c], c in s.members);
    PhaseMoveRest(s, c, HandlerClient(s.clients[c], SendRegister), s');
  }

  lemma RegisterOwn(x: Client, member: bool)
    requires ClientInv(x, member, Elsewhere) && x.handler == SendRegister
    ensures ClientInv(HandlerClient(x, SendRegister), member, BeforeInsert)
  {
  }

  lemma RegReleaseOwn(x: Client, member: bool)
    requires ClientInv(x, member, AfterInsert)
    ensures ClientInv(Release(x, Registration), member, Elsewhere)
  {
  }

  lemma HubReleaseLock(s: State, c: ClientId, s': State)
    requires LockInv(s) && s.hub == RegRelease(c) && HubEnabled(s, s.hub) && s' == HubNext(s, s.hub)
    ensures LockInv(s')
  {
    HubMoveLock(s, s');
  }

  lemma HubReleaseRest(s: State, c: ClientId, s': State)
    requires RestInv(s) && s.hub == RegRelease(c) && HubEnabled(s, s.hub) && s' == HubNext(s, s.hub)
    ensures RestInv(s')
  {
    RegReleaseOwn(s.clients[c], c in s.members);
    PhaseMoveRest(s, c, Release(s.clients[c], Registration), s');
  }

  lemma HubWriteLockStep(s: State, s': State)
    requires LockInv(s) && (s.hub.RegLock? || s.hub.RegUnlock?) && HubEnabled(s, s.hub) && s' == HubNext(s, s.hub)
    ensures LockInv(s')
  {
    forall u ensures InReadSection(s', u) == InReadSection(s, u) {
      match u case Hub => case Broadcaster(_) => case _ =>
    }
    forall u | u != Hub ensures InWriteSection(s', u) == InWriteSection(s, u) {
      match u case Unregisterer(_) => case _ =>
    }
    WriteLockMoved(s, s', Hub);
  }

  lemma HubReadLockStep(s: State, s': State)
    requires LockInv(s) && (s.hub == InfoLock || s.hub == InfoUnlock) && HubEnabled(s, s.hub) && s' == HubNext(s, s.hub)
    ensures LockInv(s')
  {
    forall u ensures InWriteSection(s', u) == InWriteSection(s, u) {
      match u case Unregisterer(_) => case _ =>
    }
    forall u | u != Hub ensures InReadSection(s', u) == InReadSection(s, u) {
      match u case Broadcaster(_) => case _ =>
    }
    if s.hub == InfoLock { LockTaken(s, s', Hub); } else { LockReturned(s, s', Hub); }
  }

  lemma InsertOwn(x: Client)
    requires ClientInv(x, false, BeforeInsert)
    ensures ClientInv(x, true, AfterInsert)
  {
  }

  lemma InsertClients(s: State, c: ClientId, s': State)
    requires ClientsInv(s) && c in s.clients && s.hub == RegInsert(c) && s' == HubNext(s, s.hub)
    ensures ClientsInv(s')
  {
    assert ClientInv(s.clients[c], c in s.members, BeforeInsert);
    InsertOwn(s.clients[c]);
  }

  lemma HubInsertStep(s: State, c: ClientId, s': State)
    requires Inv(s) && s.hub == RegInsert(c) && s' == HubNext(s, s.hub)
    ensures LockInv(s') && RestInv(s')
  {
    assert PhaseOf(s.hub, c) != Elsewhere;
    InsertClients(s, c, s');
    MembersMove(s, Hub, s'.members);
    HubMoveLock(s, s');
    forall b, d
      ensures HoldsToken(s', b, d) == HoldsToken(s, b, d)
      ensures HasDelivered(s', b, d) == HasDelivered(s, b, d)
    {}
  }

  // ---------------------------------------------------------------- broadcasts

  lemma RelationsKept(s: State, s': State)
    requires TokensInv(s) && DeliveryInv(s) && s'.clients == s.clients
    requires forall d, c :: HoldsToken(s', d, c) == HoldsToken(s, d, c)
    requires forall d, c :: HasDelivered(s', d, c) == HasDelivered(s, d, c)
    ensures TokensInv(s') && DeliveryInv(s')
  {
  }

  lemma SpawnRelations(s: State, b: BroadcastId, compiles: bool, marshals: bool, s': State)
    requires TokensInv(s) && DeliveryInv(s) && HubSpawnEnabled(s, b) && s' == HubSpawnNext(s, b, compiles, marshals)
    ensures TokensInv(s') && DeliveryInv(s')
  {
    forall d, c
      ensures HoldsToken(s', d, c) == HoldsToken(s, d, c)
      ensures HasDelivered(s', d, c) == HasDelivered(s, d, c)
    {}
    RelationsKept(s, s');
  }

  lemma SpawnClients(s: State, b: BroadcastId, compiles: bool, marshals: bool, s': State)
    requires ClientsInv(s) && HubSpawnEnabled(s, b) && s' == HubSpawnNext(s, b, compiles, marshals)
    ensures ClientsInv(s') && PhasesKnown(s')
  {
  }

  lemma SpawnRest(s: State, b: BroadcastId, compiles: bool, marshals: bool, s': State)
    requires RestInv(s) && HubSpawnEnabled(s, b) && s' == HubSpawnNext(s, b, compiles, marshals)
    ensures RestInv(s')
  {
    SpawnRelations(s, b, compiles, marshals, s');
    SpawnClients(s, b, compiles, marshals, s');
    SpawnBroadcasts(s, b, s'.broadcasts[b], s');
  }

  lemma SpawnBroadcasts(s: State, b: BroadcastId, x: Broadcast, s': State)
    requires BroadcastsInv(s) && KnownInv(s) && x == NewBroadcast(x.event, x.hasProgram, x.marshals)
    requires x.event.name != INTERNAL && (x.hasProgram ==> x.event.targetFilter != "")
    requires s'.members == s.members && s'.clients == s.clients && PhasesKnown(s')
    requires s'.broadcasts == s.broadcasts[b := x]
    ensures BroadcastsInv(s') && KnownInv(s')
  {
  }

  lemma SpawnLock(s: State, b: BroadcastId, compiles: bool, marshals: bool, s': State)
    requires LockInv(s) && HubSpawnEnabled(s, b) && s' == HubSpawnNext(s, b, compiles, marshals)
    ensures LockInv(s')
  {
    forall u ensures InReadSection(s', u) == InReadSection(s, u) && InWriteSection(s', u) == InWriteSection(s, u) {
      match u case Hub => case Broadcaster(_) => case _ =>
    }
    LockKept(s, s');
  }

  // What clients can observe of a broadcast stays as it is.
  ghost predicate SameRelations(x: Broadcast, x': Broadcast) {
    forall c ::
      && (c in x'.senders && x'.senders[c] != SenderEnd <==> c in x.senders && x.senders[c] != SenderEnd)
      && Delivered(x', c) == Delivered(x, c)
  }

  lemma BroadcastRelations(s: State, b: BroadcastId, x': Broadcast, s': State)
    requires TokensInv(s) && DeliveryInv(s) && b in s.broadcasts && SameRelations(s.broadcasts[b], x')
    requires s'.clients == s.clients && s'.broadcasts == s.broadcasts[b := x']
    ensures TokensInv(s') && DeliveryInv(s')
  {
    forall d, c
      ensures HoldsToken(s', d, c) == HoldsToken(s, d, c)
      ensures HasDelivered(s', d, c) == HasDelivered(s, d, c)
    {}
    RelationsKept(s, s');
  }

  // A change of one broadcast that clients cannot observe.
  lemma BroadcastRest(s: State, b: BroadcastId, x': Broadcast, s': State)
    requires RestInv(s) && b in s.broadcasts && SameRelations(s.broadcasts[b], x')
    requires BroadcastInv(x', s.members) && x'.snapshot <= s.clients.Keys
    requires s'.members == s.members && s'.hub == s.hub && s'.clients == s.clients
    requires s'.broadcasts == s.broadcasts[b := x']
    ensures RestInv(s')
  {
    BroadcastRelations(s, b, x', s');
  }

  lemma BroadcastLock(s: State, b: BroadcastId, s': State)
    requires LockInv(s) && b in s.broadcasts && b in s'.broadcasts
    requires BroadcastLocking(s'.broadcasts[b].pc) == BroadcastLocking(s.broadcasts[b].pc)
    requires s'.broadcasts == s.broadcasts[b := s'.broadcasts[b]] && s'.hub == s.hub
    requires s'.readers == s.readers && s'.writer == s.writer && s'.clients.Keys == s.clients.Keys
    requires forall c :: c in s.clients ==> SameReadSections(s.clients[c], s'.clients[c])
    requires forall c :: c in s.clients ==> SameWriteSection(s.clients[c], s'.clients[c])
    ensures LockInv(s')
  {
    forall u ensures InReadSection(s', u) == InReadSection(s, u) && InWriteSection(s', u) == InWriteSection(s, u) {
      match u case Hub => case Broadcaster(_) => case _ => assert u.c in s'.clients <==> u.c in s.clients;
    }
    LockKept(s, s');
  }

  lemma BroadcastLockMoved(s: State, b: BroadcastId, s': State)
    requires LockInv(s) && b in s.broadcasts && (s.broadcasts[b].pc == BcLock || s.broadcasts[b].pc == BcUnlock)
    requires BroadcastEnabled(s, b, s.broadcasts[b].pc) && s' == BroadcastNext(s, b, s.broadcasts[b].pc)
    ensures LockInv(s')
  {
    forall u ensures InWriteSection(s', u) == InWriteSection(s, u) {
      match u case Unregisterer(_) => case _ =>
    }
    forall u | u != Broadcaster(b) ensures InReadSection(s', u) == InReadSection(s, u) {
      match u case Hub => case Broadcaster(_) => case _ =>
    }
    if s.broadcasts[b].pc == BcLock { LockTaken(s, s', Broadcaster(b)); } else { LockReturned(s, s', Broadcaster(b)); }
  }

  // The steps of the broadcast goroutine itself, except starting a sender.
  function BroadcastAlone(x: Broadcast, members: set<ClientId>): Broadcast {
    match x.pc
    case BcLock => x.(pc := BcIterate, snapshot := members, todo := members)
    case BcIterate => x.(pc := BcWait)
    case BcWait => x.(pc := BcUnlock)
    case BcUnlock => x.(pc := BcEnd)
    case _ => x
  }

  lemma BroadcastAloneOwn(x: Broadcast, members: set<ClientId>)
    requires BroadcastInv(x, members) && !x.pc.BcAdd? && !x.pc.BcEnd?
    requires x.pc == BcIterate ==> x.todo == {}
    requires x.pc == BcWait ==> x.wg == 0
    ensures BroadcastInv(BroadcastAlone(x, members), members) && SameRelations(x, BroadcastAlone(x, members))
  {
  }

  lemma BroadcastAloneRest(s: State, b: BroadcastId, at: BroadcastPc, s': State)
    requires RestInv(s) && BroadcastEnabled(s, b, at) && !at.BcAdd? && s' == BroadcastNext(s, b, at)
    ensures RestInv(s')
  {
    BroadcastAloneOwn(s.broadcasts[b], s.members);
    BroadcastRest(s, b, BroadcastAlone(s.broadcasts[b], s.members), s');
  }

  function Tested(x: Broadcast, c: ClientId, outcome: Outcome): Broadcast {
    x.(todo := x.todo - {c}, outcomes := x.outcomes[c := outcome],
       pc := if outcome == Deliver then BcAdd(c) else BcIterate)
  }

  lemma TestKeys(keys: set<ClientId>, todo: set<ClientId>, c: ClientId)
    requires keys !! todo && c in todo
    ensures keys + {c} !! todo - {c} && (keys + {c}) + (todo - {c}) == keys + todo
  {
  }

  lemma TestOwn(x: Broadcast, members: set<ClientId>, c: ClientId, outcome: Outcome)
    requires BroadcastInv(x, members) && x.pc == BcIterate && c in x.todo && MayDecide(x, outcome)
    ensures BroadcastInv(Tested(x, c, outcome), members)
  {
    TestKeys(x.outcomes.Keys, x.todo, c);
    assert x.outcomes[c := outcome].Keys == x.outcomes.Keys + {c};
    if outcome == Deliver { TestDeliverOwn(x, members, c); } else { TestSkipOwn(x, members, c, outcome); }
  }

  lemma TestDeliverOwn(x: Broadcast, members: set<ClientId>, c: ClientId)
    requires BroadcastInv(x, members) && x.pc == BcIterate && c in x.todo && x.marshals
    requires x.outcomes[c := Deliver].Keys !! x.todo - {c}
    requires x.outcomes[c := Deliver].Keys + (x.todo - {c}) == x.snapshot
    ensures BroadcastInv(Tested(x, c, Deliver), members)
  {
    assert c !in x.senders;
  }

  lemma TestSkipOwn(x: Broadcast, members: set<ClientId>, c: ClientId, outcome: Outcome)
    requires BroadcastInv(x, members) && x.pc == BcIterate && c in x.todo && outcome != Deliver
    requires MayDecide(x, outcome)
    requires x.outcomes[c := outcome].Keys !! x.todo - {c}
    requires x.outcomes[c := outcome].Keys + (x.todo - {c}) == x.snapshot
    ensures BroadcastInv(Tested(x, c, outcome), members)
  {
    assert c !in x.senders;
  }

  lemma TestRelations(x: Broadcast, members: set<ClientId>, c: ClientId, outcome: Outcome)
    requires BroadcastInv(x, members) && x.pc == BcIterate && c in x.todo
    ensures SameRelations(x, Tested(x, c, outcome))
  {
    var x' := Tested(x, c, outcome);
    assert x'.senders == x.senders;
    assert c !in x.outcomes;
    forall d ensures Delivered(x', d) == Delivered(x, d) {
      if d != c { assert d in x'.outcomes <==> d in x.outcomes; }
    }
  }

  lemma TestRest(s: State, b: BroadcastId, c: ClientId, outcome: Outcome, s': State)
    requires RestInv(s) && BroadcastTestEnabled(s, b, c, outcome) && s' == BroadcastTestNext(s, b, c, outcome)
    ensures RestInv(s')
  {
    TestOwn(s.broadcasts[b], s.members, c, outcome);
    TestRelations(s.broadcasts[b], s.members, c, outcome);
    BroadcastRest(s, b, s'.broadcasts[b], s');
  }

  // A broadcast and the client of one of its senders change together.
  lemma PairRest(s: State, b: BroadcastId, x': Broadcast, c: ClientId, y': Client, s': State)
    requires RestInv(s) && b in s.broadcasts && c in s.clients
    requires BroadcastInv(x', s.members) && x'.snapshot == s.broadcasts[b].snapshot
    requires ClientInv(y', c in s.members, PhaseOf(s.hub, c))
    requires s'.members == s.members && s'.hub == s.hub
    requires s'.clients == s.clients[c := y'] && s'.broadcasts == s.broadcasts[b := x']
    requires PairRelations(s.broadcasts[b], x', b, c, s.clients[c], y')
    ensures RestInv(s')
  {
    PairTokens(s, b, x', c, y', s');
    PairDelivery(s, b, x', c, y', s');
    PairClients(s, c, y', s');
    PairBroadcasts(s, b, x', s');
  }

  lemma PairBroadcasts(s: State, b: BroadcastId, x': Broadcast, s': State)
    requires BroadcastsInv(s) && KnownInv(s) && b in s.broadcasts
    requires BroadcastInv(x', s.members) && x'.snapshot <= s.clients.Keys
    requires s'.members == s.members && PhasesKnown(s') && s.clients.Keys <= s'.clients.Keys
    requires s'.broadcasts == s.broadcasts[b := x']
    ensures BroadcastsInv(s') && KnownInv(s')
  {
  }

  lemma PairClients(s: State, c: ClientId, y': Client, s': State)
    requires ClientsInv(s) && c in s.clients && ClientInv(y', c in s.members, PhaseOf(s.hub, c))
    requires s'.members == s.members && s'.hub == s.hub && s'.clients == s.clients[c := y']
    ensures ClientsInv(s')
  {
  }

  // Only what broadcast b and client c know of each other may change, and both sides agree on it.
  ghost predicate PairRelations(x: Broadcast, x': Broadcast, b: BroadcastId, c: ClientId, y: Client, y': Client) {
    && (forall d :: d != c ==>
          && (d in x'.senders && x'.senders[d] != SenderEnd <==> d in x.senders && x.senders[d] != SenderEnd)
          && Delivered(x', d) == Delivered(x, d))
    && (forall d :: d != b ==>
          && (Sending(d) in y'.tokens <==> Sending(d) in y.tokens)
          && y'.posted[FromBroadcast(d)] == y.posted[FromBroadcast(d)])
    && (Sending(b) in y'.tokens <==> c in x'.senders && x'.senders[c] != SenderEnd)
    && y'.posted[FromBroadcast(b)] == One(Delivered(x', c))
  }

  lemma PairTokens(s: State, b: BroadcastId, x': Broadcast, c: ClientId, y': Client, s': State)
    requires TokensInv(s) && b in s.broadcasts && c in s.clients
    requires s'.clients == s.clients[c := y'] && s'.broadcasts == s.broadcasts[b := x']
    requires PairRelations(s.broadcasts[b], x', b, c, s.clients[c], y')
    ensures TokensInv(s')
  {
    forall d, e | e in s'.clients ensures Sending(d) in s'.clients[e].tokens <==> HoldsToken(s', d, e) {
      assert Sending(d) in s.clients[e].tokens <==> HoldsToken(s, d, e);
    }
  }

  lemma PairDelivery(s: State, b: BroadcastId, x': Broadcast, c: ClientId, y': Client, s': State)
    requires DeliveryInv(s) && b in s.broadcasts && c in s.clients
    requires s'.clients == s.clients[c := y'] && s'.broadcasts == s.broadcasts[b := x']
    requires PairRelations(s.broadcasts[b], x', b, c, s.clients[c], y')
    ensures DeliveryInv(s')
  {
    forall d, e | e in s'.clients ensures s'.clients[e].posted[FromBroadcast(d)] == One(HasDelivered(s', d, e)) {
      assert s.clients[e].posted[FromBroadcast(d)] == One(HasDelivered(s, d, e));
    }
  }

  function SenderBroadcast(x: Broadcast, c: ClientId): Broadcast
    requires c in x.senders
  {
    match x.senders[c]
    case SenderSend => x.(senders := x.senders[c := SenderRelease])
    case SenderRelease => x.(senders := x.senders[c := SenderEnd])
    case SenderEnd => x.(senders := x.senders - {c}, wg := x.wg - 1)
  }

  function SenderClient(x: Broadcast, b: BroadcastId, c: ClientId, y: Client): Client
    requires c in x.senders
  {
    match x.senders[c]
    case SenderSend => y.(posted := y.posted + multiset{FromBroadcast(b)})
    case SenderRelease => Release(y, Sending(b))
    case SenderEnd => y
  }

  lemma SenderBroadcastOwn(x: Broadcast, members: set<ClientId>, c: ClientId)
    requires BroadcastInv(x, members) && c in x.senders
    ensures BroadcastInv(SenderBroadcast(x, c), members)
  {
    var x' := SenderBroadcast(x, c);
    if x.senders[c] == SenderEnd {
      assert x'.senders.Keys == x.senders.Keys - {c};
    } else {
      assert x'.senders.Keys == x.senders.Keys;
    }
  }

  lemma SenderClientOwn(x: Broadcast, b: BroadcastId, c: ClientId, y: Client, member: bool, phase: Phase)
    requires c in x.senders && ClientInv(y, member, phase)
    requires x.senders[c] == SenderRelease ==> Sending(b) in y.tokens
    ensures ClientInv(SenderClient(x, b, c, y), member, phase)
  {
  }

  lemma SenderRelations(x: Broadcast, members: set<ClientId>, b: BroadcastId, c: ClientId, y: Client)
    requires BroadcastInv(x, members) && c in x.senders
    requires Sending(b) in y.tokens <==> x.senders[c] != SenderEnd
    requires y.posted[FromBroadcast(b)] == One(Delivered(x, c))
    ensures PairRelations(x, SenderBroadcast(x, c), b, c, y, SenderClient(x, b, c, y))
  {
  }

  lemma SenderFacts(s: State, b: BroadcastId, c: ClientId)
    requires RestInv(s) && SenderEnabled(s, b, c)
    ensures BroadcastInv(s.broadcasts[b], s.members) && ClientInv(s.clients[c], c in s.members, PhaseOf(s.hub, c))
    ensures Sending(b) in s.clients[c].tokens <==> s.broadcasts[b].senders[c] != SenderEnd
    ensures s.clients[c].posted[FromBroadcast(b)] == One(Delivered(s.broadcasts[b], c))
  {
    assert Sending(b) in s.clients[c].tokens <==> HoldsToken(s, b, c);
    assert s.clients[c].posted[FromBroadcast(b)] == One(HasDelivered(s, b, c));
  }

  lemma SenderRest(s: State, b: BroadcastId, c: ClientId, s': State)
    requires RestInv(s) && SenderEnabled(s, b, c) && s' == SenderNext(s, b, c)
    ensures RestInv(s')
  {
    var x, y := s.broadcasts[b], s.clients[c];
    SenderFacts(s, b, c);
    SenderBroadcastOwn(x, s.members, c);
    SenderClientOwn(x, b, c, y, c in s.members, PhaseOf(s.hub, c));
    SenderRelations(x, s.members, b, c, y);
    SenderShape(s, b, c, s');
    PairRest(s, b, SenderBroadcast(x, c), c, SenderClient(x, b, c, y), s');
  }

  lemma SenderShape(s: State, b: BroadcastId, c: ClientId, s': State)
    requires SenderEnabled(s, b, c) && s' == SenderNext(s, b, c)
    ensures s'.members == s.members && s'.hub == s.hub && s'.readers == s.readers && s'.writer == s.writer
    ensures s'.clients == s.clients[c := SenderClient(s.broadcasts[b], b, c, s.clients[c])]
    ensures s'.broadcasts == s.broadcasts[b := SenderBroadcast(s.broadcasts[b], c)]
  {
    assert s.clients[c := s.clients[c]] == s.clients;
  }

  lemma SenderLock(s: State, b: BroadcastId, c: ClientId, s': State)
    requires LockInv(s) && SenderEnabled(s, b, c) && s' == SenderNext(s, b, c)
    ensures LockInv(s')
  {
    SenderShape(s, b, c, s');
    BroadcastLock(s, b, s');
  }

  lemma AddBroadcastOwn(x: Broadcast, members: set<ClientId>)
    requires BroadcastInv(x, members) && x.pc.BcAdd?
    ensures BroadcastInv(x.(pc := BcIterate, wg := x.wg + 1, senders := x.senders[x.pc.c := SenderSend]), members)
  {
    assert x.senders[x.pc.c := SenderSend].Keys == x.senders.Keys + {x.pc.c};
  }

  // Add is called for a member only, so it never revives a counter that Wait has seen at zero.
  lemma AddClientOwn(y: Client, b: BroadcastId, phase: Phase)
    requires ClientInv(y, true, phase) && Sending(b) !in y.tokens
    ensures ClientInv(Acquire(y, Sending(b)), true, phase)
  {
  }

  lemma AddRelations(x: Broadcast, members: set<ClientId>, b: BroadcastId, y: Client)
    requires BroadcastInv(x, members) && x.pc.BcAdd?
    requires y.posted[FromBroadcast(b)] == 0
    ensures PairRelations(x, x.(pc := BcIterate, wg := x.wg + 1, senders := x.senders[x.pc.c := SenderSend]),
                          b, x.pc.c, y, Acquire(y, Sending(b)))
  {
  }

  lemma AddRest(s: State, b: BroadcastId, c: ClientId, s': State)
    requires RestInv(s) && BroadcastEnabled(s, b, BcAdd(c)) && s' == BroadcastNext(s, b, BcAdd(c))
    ensures RestInv(s')
  {
    var x, y := s.broadcasts[b], s.clients[c];
    assert BroadcastInv(x, s.members);
    assert c in x.snapshot && c in s.members;
    assert Sending(b) in y.tokens <==> HoldsToken(s, b, c);
    assert y.posted[FromBroadcast(b)] == One(HasDelivered(s, b, c));
    AddBroadcastOwn(x, s.members);
    AddClientOwn(y, b, PhaseOf(s.hub, c));
    AddRelations(x, s.members, b, y);
    PairRest(s, b, s'.broadcasts[b], c, Acquire(y, Sending(b)), s');
  }

  // ---------------------------------------------------------------- every transition keeps the invariant

  lemma SideKeeps(s: State, a: Action, s': State)
    requires Inv(s) && Enabled(s, a) && s' == Next(s, a) && (a.LoginBroadcastStep? || a.LoginPluginStep?)
    ensures Inv(s')
  {
    var x := s.clients[a.c];
    var member, phase := a.c in s.members, PhaseOf(s.hub, a.c);
    if a.LoginBroadcastStep? {
      LoginBroadcastLocal(x, a.side, member, phase);
    } else {
      LoginPluginLocal(x, a.side, member, phase);
    }
    ClientLocalStep(s, a.c, s'.clients[a.c]);
  }

  lemma WriteKeeps(s: State, a: Action, s': State)
    requires Inv(s) && Enabled(s, a) && s' == Next(s, a) && (a.WriteStep? || a.WriteBeginSend?)
    ensures Inv(s')
  {
    var x := s.clients[a.c];
    WriteLocal(x, x.write, a.c in s.members, PhaseOf(s.hub, a.c));
    ClientLocalStep(s, a.c, s'.clients[a.c]);
  }

  lemma ReadStartHistoryKeeps(s: State, c: ClientId, h: HistoryId)
    requires Inv(s) && ReadStartHistoryEnabled(s, c, h)
    ensures Inv(WithClient(s, c, HistoryAt(s.clients[c], h, HistoryLock)))
  {
    ReadStartHistoryLocal(s.clients[c], h, c in s.members, PhaseOf(s.hub, c));
    ClientLocalStep(s, c, HistoryAt(s.clients[c], h, HistoryLock));
  }

  lemma ReadKeeps(s: State, c: ClientId, at: ReadPc, s': State)
    requires Inv(s) && ReadEnabled(s, c, at) && s' == ReadNext(s, c, at)
    ensures Inv(s')
  {
    if at == ReadUnlock {
      ReadUnlockStep(s, c);
    } else {
      ReadLocal(s.clients[c], at, c in s.members, PhaseOf(s.hub, c));
      ClientLocalStep(s, c, ReadClient(s.clients[c], at, c in s.members));
    }
  }

  lemma HistoryKeeps(s: State, c: ClientId, h: HistoryId, s': State)
    requires Inv(s) && HistoryEnabled(s, c, h) && s' == HistoryNext(s, c, h)
    ensures Inv(s')
  {
    var x := s.clients[c];
    var pc := x.histories[h];
    if pc == HistoryLock || pc == HistoryUnlock {
      HistoryLockStep(s, c, h);
    } else {
      if pc == HistoryRelease { HistoryReleaseLocal(x, h, c in s.members, PhaseOf(s.hub, c)); }
      else { HistoryLocal(x, h, c in s.members, PhaseOf(s.hub, c)); }
      ClientLocalStep(s, c, HistoryClient(x, h, c in s.members));
    }
  }

  lemma HandlerKeeps(s: State, c: ClientId, at: HandlerPc, s': State)
    requires Inv(s) && HandlerEnabled(s, c, at) && s' == HandlerNext(s, c, at)
    ensures Inv(s')
  {
    if at == SendRegister {
      RegisterLock(s, c, s');
      RegisterRest(s, c, s');
    } else if at == SendUnregister {
      UnregisterReceived(s, c);
    } else {
      HandlerAloneStep(s, c, at);
    }
  }

  lemma UnregisterKeeps(s: State, c: ClientId, at: UnregisterPc, s': State)
    requires Inv(s) && UnregisterEnabled(s, c, at) && s' == UnregisterNext(s, c, at)
    ensures Inv(s')
  {
    assert ClientInv(s.clients[c], c in s.members, PhaseOf(s.hub, c));
    match at {
      case UnregDelete => UnregisterDeleteStep(s, c);
      case UnregLock => UnregisterWriteLockMoved(s, c, at); UnregisterLockRest(s, c, at, s');
      case UnregUnlock => UnregisterWriteLockMoved(s, c, at); UnregisterLockRest(s, c, at, s');
      case UnregReadLock => UnregisterReadLockMoved(s, c, at); UnregisterLockRest(s, c, at, s');
      case UnregFound => UnregisterReadLockMoved(s, c, at); UnregisterLockRest(s, c, at, s');
      case UnregInfoLock => UnregisterReadLockMoved(s, c, at); UnregisterLockRest(s, c, at, s');
      case UnregInfoUnlock => UnregisterReadLockMoved(s, c, at); UnregisterLockRest(s, c, at, s');
      case _ => UnregisterAloneKeeps(s, c, at, s');
    }
  }

  lemma UnregisterAloneKeeps(s: State, c: ClientId, at: UnregisterPc, s': State)
    requires Inv(s) && UnregisterEnabled(s, c, at) && s' == UnregisterNext(s, c, at)
    requires
      || at == UnregTest || at == UnregWait || at == UnregCloseSend || at == UnregCloseEvents
      || at == UnregClosePlugin
    ensures Inv(s')
  {
    UnregisterLocal(s.clients[c], at, c in s.members, PhaseOf(s.hub, c));
    ClientLocalStep(s, c, UnregisterClient(s.clients[c], at, c in s.members));
  }

  lemma HubKeeps(s: State, at: HubPc, s': State)
    requires Inv(s) && HubEnabled(s, at) && s' == HubNext(s, at)
    ensures Inv(s')
  {
    match at {
      case RegLock(_) => HubWriteLockStep(s, s'); HubMoveRest(s, s');
      case RegInsert(c) => HubInsertStep(s, c, s');
      case RegUnlock(_) => HubWriteLockStep(s, s'); HubMoveRest(s, s');
      case RegRelease(c) => HubReleaseLock(s, c, s'); HubReleaseRest(s, c, s');
      case InfoLock => HubReadLockStep(s, s'); HubMoveRest(s, s');
      case InfoUnlock => HubReadLockStep(s, s'); HubMoveRest(s, s');
      case Batch(_) => HubMoveLock(s, s'); HubMoveRest(s, s');
    }
  }

  lemma HubReceiveKeeps(s: State, events: seq<Event>, s': State)
    requires Inv(s) && s.hub == Idle && s' == s.(hub := Batch(events))
    ensures Inv(s')
  {
    HubMoveLock(s, s');
    HubMoveRest(s, s');
  }

  lemma AddLock(s: State, b: BroadcastId, c: ClientId, s': State)
    requires LockInv(s) && BroadcastEnabled(s, b, BcAdd(c)) && s' == BroadcastNext(s, b, BcAdd(c))
    ensures LockInv(s')
  {
    BroadcastLock(s, b, s');
  }

  lemma AloneLock(s: State, b: BroadcastId, at: BroadcastPc, s': State)
    requires LockInv(s) && BroadcastEnabled(s, b, at) && (at == BcIterate || at == BcWait)
    requires s' == BroadcastNext(s, b, at)
    ensures LockInv(s')
  {
    BroadcastLock(s, b, s');
  }

  lemma TestLock(s: State, b: BroadcastId, c: ClientId, outcome: Outcome, s': State)
    requires LockInv(s) && BroadcastTestEnabled(s, b, c, outcome) && s' == BroadcastTestNext(s, b, c, outcome)
    ensures LockInv(s')
  {
    BroadcastLock(s, b, s');
  }

  lemma BroadcastKeeps(s: State, b: BroadcastId, at: BroadcastPc, s': State)
    requires Inv(s) && BroadcastEnabled(s, b, at) && s' == BroadcastNext(s, b, at)
    ensures Inv(s')
  {
    match at {
      case BcAdd(c) => AddRest(s, b, c, s'); AddLock(s, b, c, s');
      case BcLock => BroadcastAloneRest(s, b, at, s'); BroadcastLockMoved(s, b, s');
      case BcUnlock => BroadcastAloneRest(s, b, at, s'); BroadcastLockMoved(s, b, s');
      case _ => BroadcastAloneRest(s, b, at, s'); AloneLock(s, b, at, s');
    }
  }

  predicate IsHubAction(a: Action) {
    a.HubStep? || a.HubReceive? || a.HubSpawn? || a.BroadcastStep? || a.BroadcastTest? || a.SenderStep?
  }

  lemma ClientActionKeeps(s: State, a: Action)
    requires Inv(s) && Enabled(s, a)
    requires !IsHubAction(a)
    ensures Inv(Next(s, a))
  {
    var s' := Next(s, a);
    match a {
      case Connect(c, hasUser) => ConnectStep(s, c, NewClient(hasUser));
      case Handler(c, at) => HandlerKeeps(s, c, at, s');
      case LoginBroadcastStep(_, _) => SideKeeps(s, a, s');
      case LoginPluginStep(_, _) => SideKeeps(s, a, s');
      case HistoryStep(c, h) => HistoryKeeps(s, c, h, s');
      case ReadStep(c, at) => ReadKeeps(s, c, at, s');
      case ReadBeginSend(c, plan) => ReadBeginSendStep(s, c, plan);
      case ReadStartHistory(c, h) => ReadStartHistoryKeeps(s, c, h);
      case WriteStep(_, _) => WriteKeeps(s, a, s');
      case WriteBeginSend(_) => WriteKeeps(s, a, s');
      case UnregisterStep(c, at) => UnregisterKeeps(s, c, at, s');
    }
  }

  lemma HubActionKeeps(s: State, a: Action)
    requires Inv(s) && Enabled(s, a) && IsHubAction(a)
    ensures Inv(Next(s, a))
  {
    var s' := Next(s, a);
    match a {
      case HubStep(at) => HubKeeps(s, at, s');
      case HubReceive(events) => HubReceiveKeeps(s, events, s');
      case HubSpawn(b, compiles, marshals) =>
        SpawnLock(s, b, compiles, marshals, s');
        SpawnRest(s, b, compiles, marshals, s');
      case BroadcastStep(b, at) => BroadcastKeeps(s, b, at, s');
      case BroadcastTest(b, c, outcome) => TestLock(s, b, c, outcome, s'); TestRest(s, b, c, outcome, s');
      case SenderStep(b, c) => SenderLock(s, b, c, s'); SenderRest(s, b, c, s');
    }
  }

  lemma StepKeepsInv(s: State, a: Action)
    requires Inv(s) && Enabled(s, a)
    ensures Inv(Next(s, a))
  {
    if IsHubAction(a) { HubActionKeeps(s, a); } else { ClientActionKeeps(s, a); }
  }

  // Every reachable state satisfies the invariant.
  lemma {:induction false} RunsKeepInv(acts: seq<Action>)
    requires IsRun(acts)
    ensures Inv(Run(acts).value)
  {
    if acts != [] {
      var before := acts[..|acts| - 1];
      RunsKeepInv(before);
      StepKeepsInv(Run(before).value, acts[|acts| - 1]);
    }
  }
}
