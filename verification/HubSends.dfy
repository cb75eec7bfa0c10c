/**
The sends that the goroutines of a client do make: ReadLoop and SendHistory send what they are to send exactly to a
client that is a member, and the login is announced once for a client with a user.
*/
module HubSends {
  import opened Wrappers
  import opened Events
  import opened HubProtocol
  import opened HubInvariant
  import opened HubSafety
  import opened HubBatches

  // ---------------------------------------------------------------- the members under a read lock

  lemma MembersOfHubStep(s: State, at: HubPc)
    requires HubEnabled(s, at) && !at.RegInsert?
    ensures HubNext(s, at).members == s.members
  {
    match at {
      case Idle => case RegLock(_) => case RegUnlock(_) => case RegRelease(_) =>
      case InfoLock => case InfoUnlock => case Batch(_) =>
    }
  }

  lemma MembersOfHubAction(s: State, a: Action)
    requires Enabled(s, a) && IsHubAction(a) && !(a.HubStep? && a.hub.RegInsert?)
    ensures Next(s, a).members == s.members
  {
    match a {
      case HubStep(at) => MembersOfHubStep(s, at);
      case BroadcastStep(b, at) =>
        match at { case BcLock => case BcIterate => case BcAdd(_) => case BcWait => case BcUnlock => case BcEnd => }
      case SenderStep(b, c) =>
        match s.broadcasts[b].senders[c] { case SenderSend => case SenderRelease => case SenderEnd => }
      case _ =>
    }
  }

  // While a goroutine holds the read lock the members stay the same.
  lemma MembersStay(s: State, a: Action, t: Holder)
    requires LockInv(s) && Enabled(s, a) && InReadSection(s, t)
    ensures Next(s, a).members == s.members
  {
    if a.HubStep? && a.hub.RegInsert? {
      WriterExcludesReaders(s, Hub, t);
    } else if IsHubAction(a) {
      MembersOfHubAction(s, a);
    } else {
      ClientActionShape(s, a);
      if a == UnregisterStep(a.c, UnregDelete) { WriterExcludesReaders(s, Unregisterer(a.c), t); }
    }
  }

  // ---------------------------------------------------------------- the guarded sends of ReadLoop

  // The channels on which ReadLoop of a client sends in the actions from n up to m.
  ghost function ReadSends(acts: seq<Action>, c: ClientId, n: nat, m: nat): seq<Channel>
    requires n <= m <= |acts|
    decreases m
  {
    if n == m then [] else ReadSends(acts, c, n, m - 1) + ReadSendOf(acts[m - 1], c)
  }

  ghost function ReadSendOf(a: Action, c: ClientId): seq<Channel> {
    if a.ReadStep? && a.c == c && a.read.ReadSend? && a.read.plan != [] then [a.read.plan[0]] else []
  }

  lemma ReadStays(s: State, a: Action, c: ClientId)
    requires Inv(s) && Enabled(s, a) && c in s.clients && ReadLocking(s.clients[c].read)
    requires !(a.ReadStep? && a.c == c)
    ensures c in Next(s, a).clients && Next(s, a).clients[c].read == s.clients[c].read
  {
    if IsHubAction(a) {
      HubActionShape(s, a, c);
    } else {
      ClientActionShape(s, a);
      if a.c == c { OwnReadStays(s, a); }
    }
  }

  lemma OwnReadStays(s: State, a: Action)
    requires Inv(s) && Enabled(s, a) && !IsHubAction(a) && a.c in s.clients && ReadLocking(s.clients[a.c].read)
    requires !a.ReadStep?
    ensures ClientAfter(s, a).read == s.clients[a.c].read
  {
    var x := s.clients[a.c];
    assert ClientInv(x, a.c in s.members, PhaseOf(s.hub, a.c));
    match a {
      case Handler(c, at) => assert at != StartLoops; HandlerReadStays(x, at);
      case HistoryStep(c, h) => HistoryReadStays(x, h, c in s.members);
      case WriteStep(c, at) => WriteReadStays(x, at);
      case UnregisterStep(c, at) => UnregisterReadStays(x, at, c in s.members);
      case _ =>
    }
  }

  lemma HandlerReadStays(x: Client, at: HandlerPc)
    requires at != StartLoops
    ensures HandlerClient(x, at).read == x.read
  {
    match at {
      case AddRegistration => case SendRegister => case WaitRegistered => case StartLogin =>
      case StartHistory => case WaitLocal => case WaitDone => case SendUnregister => case HandlerEnd =>
    }
  }

  lemma HistoryReadStays(x: Client, h: HistoryId, member: bool)
    requires h in x.histories
    ensures HistoryClient(x, h, member).read == x.read
  {
    match x.histories[h] {
      case HistoryLock => case HistoryTest => case HistorySend => case HistoryUnlock => case HistoryRelease =>
    }
  }

  lemma WriteReadStays(x: Client, at: WritePc)
    ensures WriteNext(x, at).read == x.read
  {
    match at { case WriteIdle => case WriteSend => case WriteRelease => case _ => }
  }

  lemma UnregisterReadStays(x: Client, at: UnregisterPc, member: bool)
    ensures UnregisterClient(x, at, member).read == x.read
  {
    match at {
      case UnregReadLock => case UnregTest => case UnregFound => case UnregNotFound => case UnregLock =>
      case UnregDelete => case UnregUnlock => case UnregWait => case UnregCloseSend => case UnregCloseEvents =>
      case UnregClosePlugin => case UnregInfoLock => case UnregInfoUnlock => case _ =>
    }
  }

  // How far ReadLoop is with its plan, given what it has sent of it.
  ghost predicate IsAtRead(read: ReadPc, member: bool, plan: seq<Channel>, sent: seq<Channel>) {
    match read
    case ReadTest(p) => p == plan && sent == []
    case ReadSend(rest) => member && sent + rest == plan && rest != []
    case ReadUnlock => sent == if member then plan else []
    case _ => false
  }

  lemma ReadOneStep(x: Client, member: bool, plan: seq<Channel>, sent: seq<Channel>)
    requires IsAtRead(x.read, member, plan, sent) && x.read != ReadUnlock && plan != []
    ensures
      var sends := if x.read.ReadSend? && x.read.plan != [] then [x.read.plan[0]] else [];
      IsAtRead(ReadClient(x, x.read, member).read, member, plan, sent + sends)
  {
    match x.read {
      case ReadTest(p) => assert sent + [] == [];
      case ReadSend(rest) =>
        if |rest| == 1 {
          assert rest == [rest[0]];
        } else {
          assert (sent + [rest[0]]) + rest[1..] == sent + rest;
        }
      case _ =>
    }
  }

  ghost predicate IsAtPlan(s: State, c: ClientId, members: set<ClientId>, plan: seq<Channel>, sent: seq<Channel>) {
    && c in s.clients && s.members == members && plan != []
    && IsAtRead(s.clients[c].read, c in members, plan, sent)
  }

  lemma BeginPlan(s: State, c: ClientId, plan: seq<Channel>)
    requires ReadBeginSendEnabled(s, c, plan)
    ensures IsAtPlan(ReadBeginSendNext(s, c, plan), c, s.members, plan, [])
  {
  }

  lemma OwnPlanStep(s: State, c: ClientId, members: set<ClientId>, plan: seq<Channel>, sent: seq<Channel>)
    requires IsAtPlan(s, c, members, plan, sent)
    requires s.clients[c].read != ReadUnlock && ReadEnabled(s, c, s.clients[c].read)
    ensures
      var at := s.clients[c].read;
      IsAtPlan(ReadNext(s, c, at), c, members, plan, sent + ReadSendOf(ReadStep(c, at), c))
  {
    ReadOneStep(s.clients[c], c in members, plan, sent);
  }

  lemma PlanStep(s: State, a: Action, c: ClientId, members: set<ClientId>, plan: seq<Channel>, sent: seq<Channel>)
    requires Inv(s) && Enabled(s, a) && IsAtPlan(s, c, members, plan, sent) && s.clients[c].read != ReadUnlock
    ensures IsAtPlan(Next(s, a), c, members, plan, sent + ReadSendOf(a, c))
  {
    if a.ReadStep? && a.c == c {
      OwnPlanStep(s, c, members, plan, sent);
    } else {
      ReadStays(s, a, c);
      MembersStay(s, a, Reader(c));
      assert sent + [] == sent;
    }
  }

  lemma StateInv(acts: seq<Action>, n: nat)
    requires IsRun(acts) && n <= |acts|
    ensures Inv(StateAt(acts, n))
  {
    PrefixIsRun(acts, n);
    RunsKeepInv(acts[..n]);
  }

  // One more step of a run.
  lemma PlanGoesOn(acts: seq<Action>, k: nat, c: ClientId, members: set<ClientId>, plan: seq<Channel>,
                   sent: seq<Channel>, s': State)
    requires IsRun(acts) && k < |acts| && s' == StateAt(acts, k + 1)
    requires IsAtPlan(StateAt(acts, k), c, members, plan, sent) && StateAt(acts, k).clients[c].read != ReadUnlock
    ensures IsAtPlan(s', c, members, plan, sent + ReadSendOf(acts[k], c))
  {
    StateAfter(acts, k);
    StateInv(acts, k);
    PlanStep(StateAt(acts, k), acts[k], c, members, plan, sent);
  }

  lemma PlanBegins(acts: seq<Action>, n: nat, c: ClientId, s': State)
    requires IsRun(acts) && n < |acts| && acts[n].ReadBeginSend? && acts[n].c == c && s' == StateAt(acts, n + 1)
    ensures IsAtPlan(s', c, StateAt(acts, n).members, acts[n].plan, [])
  {
    StateAfter(acts, n);
    BeginPlan(StateAt(acts, n), c, acts[n].plan);
  }

  // From action n of the run, where ReadLoop takes the lock, until it is about to return it.
  lemma {:induction false} PlanSoFar(acts: seq<Action>, c: ClientId, n: nat, m: nat)
    requires IsRun(acts) && n < m <= |acts| && acts[n].ReadBeginSend? && acts[n].c == c
    requires forall k :: n < k < m ==>
      c in StateAt(acts, k).clients && StateAt(acts, k).clients[c].read != ReadUnlock
    ensures IsAtPlan(StateAt(acts, m), c, StateAt(acts, n).members, acts[n].plan, ReadSends(acts, c, n + 1, m))
    decreases m
  {
    if m == n + 1 {
      PlanBegins(acts, n, c, StateAt(acts, m));
    } else {
      PlanSoFar(acts, c, n, m - 1);
      PlanGoesOn(acts, m - 1, c, StateAt(acts, n).members, acts[n].plan, ReadSends(acts, c, n + 1, m - 1),
                 StateAt(acts, m));
    }
  }

  // Whenever ReadLoop takes the lock for a message: by the time it returns it, it has sent the message on each of the
  // channels of its plan, in order, if the client is a member, and on none if it is not.
  lemma PlanIsSent(acts: seq<Action>, c: ClientId, n: nat, m: nat)
    requires IsRun(acts) && n < m <= |acts| && acts[n].ReadBeginSend? && acts[n].c == c
    requires c in StateAt(acts, m).clients && StateAt(acts, m).clients[c].read == ReadUnlock
    requires forall k :: n < k < m ==>
      c in StateAt(acts, k).clients && StateAt(acts, k).clients[c].read != ReadUnlock
    ensures ReadSends(acts, c, n + 1, m) == if c in StateAt(acts, n).members then acts[n].plan else []
    ensures acts[n].plan == [SendEvents, PluginChan] || acts[n].plan == [PluginChan]
  {
    PlanSoFar(acts, c, n, m);
    StateAfter(acts, n);
  }

  // ---------------------------------------------------------------- SendHistory

  // How often a SendHistory goroutine sends the history in the actions from n up to m.
  ghost function HistorySends(acts: seq<Action>, c: ClientId, h: HistoryId, n: nat, m: nat): nat
    requires IsRun(acts) && n <= m <= |acts|
    decreases m
  {
    if n == m then 0
    else HistorySends(acts, c, h, n, m - 1) + HistorySendOf(StateAt(acts, m - 1), acts[m - 1], c, h)
  }

  ghost function HistorySendOf(s: State, a: Action, c: ClientId, h: HistoryId): nat {
    if a == HistoryStep(c, h) && IsHistoryAt(s, c, h, HistorySend) then 1 else 0
  }

  predicate IsHistoryAt(s: State, c: ClientId, h: HistoryId, pc: HistoryPc) {
    c in s.clients && h in s.clients[c].histories && s.clients[c].histories[h] == pc
  }

  lemma HistoryStays(s: State, a: Action, c: ClientId, h: HistoryId)
    requires Inv(s) && Enabled(s, a) && c in s.clients && h in s.clients[c].histories && a != HistoryStep(c, h)
    ensures IsHistoryAt(Next(s, a), c, h, s.clients[c].histories[h])
  {
    if IsHubAction(a) {
      HubActionShape(s, a, c);
    } else {
      ClientActionShape(s, a);
      if a.c == c { OwnHistoryStays(s, a, h); }
    }
  }

  lemma OwnHistoryStays(s: State, a: Action, h: HistoryId)
    requires Inv(s) && Enabled(s, a) && !IsHubAction(a) && a.c in s.clients && h in s.clients[a.c].histories
    requires a != HistoryStep(a.c, h)
    ensures h in ClientAfter(s, a).histories && ClientAfter(s, a).histories[h] == s.clients[a.c].histories[h]
  {
    var x := s.clients[a.c];
    assert ClientInv(x, a.c in s.members, PhaseOf(s.hub, a.c));
    match a {
      case Handler(c, at) => HandlerHistoriesStay(x, at, h);
      case HistoryStep(c, g) => OtherHistoryStays(x, g, c in s.members, h);
      case ReadStep(c, at) => ReadHistoriesStay(x, at, c in s.members);
      case WriteStep(c, at) => WriteHistoriesStay(x, at);
      case UnregisterStep(c, at) => UnregisterHistoriesStay(x, at, c in s.members);
      case _ =>
    }
  }

  lemma HandlerHistoriesStay(x: Client, at: HandlerPc, h: HistoryId)
    requires h in x.histories && (at == StartHistory ==> FIRST_HISTORY !in x.histories)
    ensures h in HandlerClient(x, at).histories && HandlerClient(x, at).histories[h] == x.histories[h]
  {
    match at {
      case AddRegistration => case SendRegister => case WaitRegistered => case StartLoops => case StartLogin =>
      case StartHistory => case WaitLocal => case WaitDone => case SendUnregister => case HandlerEnd =>
    }
  }

  lemma OtherHistoryStays(x: Client, g: HistoryId, member: bool, h: HistoryId)
    requires g in x.histories && h in x.histories && g != h
    ensures h in HistoryClient(x, g, member).histories && HistoryClient(x, g, member).histories[h] == x.histories[h]
  {
    match x.histories[g] {
      case HistoryLock => case HistoryTest => case HistorySend => case HistoryUnlock => case HistoryRelease =>
    }
  }

  lemma ReadHistoriesStay(x: Client, at: ReadPc, member: bool)
    ensures ReadClient(x, at, member).histories == x.histories
  {
    match at {
      case ReadIdle => case ReadTest(_) => case ReadSend(_) => case ReadUnlock => case ReadCloseDone =>
      case ReadRelease => case _ =>
    }
  }

  lemma WriteHistoriesStay(x: Client, at: WritePc)
    ensures WriteNext(x, at).histories == x.histories
  {
    match at { case WriteIdle => case WriteSend => case WriteRelease => case _ => }
  }

  lemma UnregisterHistoriesStay(x: Client, at: UnregisterPc, member: bool)
    ensures UnregisterClient(x, at, member).histories == x.histories
  {
    match at {
      case UnregReadLock => case UnregTest => case UnregFound => case UnregNotFound => case UnregLock =>
      case UnregDelete => case UnregUnlock => case UnregWait => case UnregCloseSend => case UnregCloseEvents =>
      case UnregClosePlugin => case UnregInfoLock => case UnregInfoUnlock => case _ =>
    }
  }

  // How far a SendHistory goroutine is after taking the lock, given how often it has sent.
  ghost predicate IsAtHistory(s: State, c: ClientId, h: HistoryId, members: set<ClientId>, sent: nat) {
    && c in s.clients && h in s.clients[c].histories && s.members == members
    && match s.clients[c].histories[h]
       case HistoryTest => sent == 0
       case HistorySend => sent == 0 && c in members
       case HistoryUnlock => sent == if c in members then 1 else 0
       case _ => false
  }

  lemma OwnHistoryStep(s: State, c: ClientId, h: HistoryId, members: set<ClientId>, sent: nat)
    requires HistoryEnabled(s, c, h) && IsAtHistory(s, c, h, members, sent) && !IsHistoryAt(s, c, h, HistoryUnlock)
    ensures
      IsAtHistory(HistoryNext(s, c, h), c, h, members, sent + HistorySendOf(s, HistoryStep(c, h), c, h))
  {
  }

  lemma FirstHistoryStep(s: State, c: ClientId, h: HistoryId)
    requires HistoryEnabled(s, c, h) && IsHistoryAt(s, c, h, HistoryLock)
    ensures IsAtHistory(HistoryNext(s, c, h), c, h, s.members, 0)
  {
  }

  lemma HistoryOneStep(s: State, a: Action, c: ClientId, h: HistoryId, members: set<ClientId>, sent: nat)
    requires Inv(s) && Enabled(s, a) && IsAtHistory(s, c, h, members, sent) && !IsHistoryAt(s, c, h, HistoryUnlock)
    ensures IsAtHistory(Next(s, a), c, h, members, sent + HistorySendOf(s, a, c, h))
  {
    if a == HistoryStep(c, h) {
      OwnHistoryStep(s, c, h, members, sent);
    } else {
      HistoryStays(s, a, c, h);
      MembersStay(s, a, History(c, h));
    }
  }

  lemma {:induction false} HistorySoFar(acts: seq<Action>, c: ClientId, h: HistoryId, n: nat, m: nat)
    requires IsRun(acts) && n < m <= |acts| && acts[n] == HistoryStep(c, h)
    requires IsHistoryAt(StateAt(acts, n), c, h, HistoryLock)
    requires forall k :: n < k < m ==> !IsHistoryAt(StateAt(acts, k), c, h, HistoryUnlock)
    ensures IsAtHistory(StateAt(acts, m), c, h, StateAt(acts, n).members, HistorySends(acts, c, h, n + 1, m))
    decreases m
  {
    if m == n + 1 {
      HistoryBegins(acts, c, h, n, StateAt(acts, m));
    } else {
      HistorySoFar(acts, c, h, n, m - 1);
      HistoryGoesOn(acts, m - 1, c, h, StateAt(acts, n).members, HistorySends(acts, c, h, n + 1, m - 1),
                    StateAt(acts, m));
    }
  }

  lemma HistoryBegins(acts: seq<Action>, c: ClientId, h: HistoryId, n: nat, s': State)
    requires IsRun(acts) && n < |acts| && acts[n] == HistoryStep(c, h) && s' == StateAt(acts, n + 1)
    requires IsHistoryAt(StateAt(acts, n), c, h, HistoryLock)
    ensures IsAtHistory(s', c, h, StateAt(acts, n).members, 0)
  {
    StateAfter(acts, n);
    FirstHistoryStep(StateAt(acts, n), c, h);
  }

  lemma HistoryGoesOn(
      acts: seq<Action>, k: nat, c: ClientId, h: HistoryId, members: set<ClientId>, sent: nat, s': State)
    requires IsRun(acts) && k < |acts| && s' == StateAt(acts, k + 1)
    requires IsAtHistory(StateAt(acts, k), c, h, members, sent)
    requires !IsHistoryAt(StateAt(acts, k), c, h, HistoryUnlock)
    ensures IsAtHistory(s', c, h, members, sent + HistorySendOf(StateAt(acts, k), acts[k], c, h))
  {
    StateAfter(acts, k);
    StateInv(acts, k);
    HistoryOneStep(StateAt(acts, k), acts[k], c, h, members, sent);
  }

  // Whenever a SendHistory goroutine has taken the lock: by the time it returns it, it has sent the history once if
  // the client is a member, and not at all if it is not.
  lemma HistoryIsSent(acts: seq<Action>, c: ClientId, h: HistoryId, n: nat, m: nat)
    requires IsRun(acts) && n < m <= |acts| && acts[n] == HistoryStep(c, h)
    requires IsHistoryAt(StateAt(acts, n), c, h, HistoryLock) && IsHistoryAt(StateAt(acts, m), c, h, HistoryUnlock)
    requires forall k :: n < k < m ==> !IsHistoryAt(StateAt(acts, k), c, h, HistoryUnlock)
    ensures HistorySends(acts, c, h, n + 1, m) == if c in StateAt(acts, n).members then 1 else 0
  {
    HistorySoFar(acts, c, h, n, m);
  }

}
