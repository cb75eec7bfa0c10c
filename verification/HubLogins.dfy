/**
The login of a client with a user is announced once to all clients and once to the plugins, that of a client without
one not at all.
*/
module HubLogins {
  import opened Wrappers
  import opened Events
  import opened HubProtocol
  import opened HubInvariant
  import opened HubSafety

  predicate HasSent(pc: SidePc) { pc == SideRelease || pc == SideEnd }

  // The login goroutines exist from StartLogin on, for a client with a user.
  predicate LoginsFit(x: Client) {
    if LoopsUnborn(x.handler) || x.handler == StartLogin then
      x.loginBroadcast == SideUnborn && x.loginPlugin == SideUnborn
    else
      && (x.loginBroadcast == SideUnborn <==> !x.hasUser)
      && (x.loginPlugin == SideUnborn <==> !x.hasUser)
  }

  predicate SameLogins(x: Client, x': Client) {
    && x'.hasUser == x.hasUser && x'.handler == x.handler
    && x'.loginBroadcast == x.loginBroadcast && x'.loginPlugin == x.loginPlugin
  }

  // How often the step of a login goroutine has been taken, as the program counter shows it.
  predicate LoginMoves(x: Client, x': Client, isBroadcast: bool, isPlugin: bool) {
    && x'.hasUser == x.hasUser && LoginsFit(x')
    && One(HasSent(x'.loginBroadcast)) == One(HasSent(x.loginBroadcast)) + One(isBroadcast)
    && One(HasSent(x'.loginPlugin)) == One(HasSent(x.loginPlugin)) + One(isPlugin)
  }

  lemma HandlerLogins(x: Client, at: HandlerPc)
    requires LoginsFit(x) && x.handler == at && at != HandlerEnd
    ensures LoginMoves(x, HandlerClient(x, at), false, false)
  {
    match at {
      case AddRegistration => case SendRegister => case WaitRegistered => case StartLoops => case StartLogin =>
      case StartHistory => case WaitLocal => case WaitDone => case SendUnregister =>
    }
  }

  lemma BroadcastLogins(x: Client, at: SidePc)
    requires LoginsFit(x) && SideEnabled(x.loginBroadcast, at)
    ensures LoginMoves(x, LoginBroadcastNext(x, at), at == SideSend, false)
  {
  }

  lemma PluginLogins(x: Client, at: SidePc)
    requires LoginsFit(x) && SideEnabled(x.loginPlugin, at)
    ensures LoginMoves(x, LoginPluginNext(x, at), false, at == SideSend)
  {
  }

  lemma HistoryLogins(x: Client, h: HistoryId, member: bool)
    requires h in x.histories
    ensures SameLogins(x, HistoryClient(x, h, member))
  {
    match x.histories[h] {
      case HistoryLock => case HistoryTest => case HistorySend => case HistoryUnlock => case HistoryRelease =>
    }
  }

  lemma ReadLogins(x: Client, at: ReadPc, member: bool)
    ensures SameLogins(x, ReadClient(x, at, member))
  {
    match at {
      case ReadIdle => case ReadTest(_) => case ReadSend(_) => case ReadUnlock => case ReadCloseDone =>
      case ReadRelease => case _ =>
    }
  }

  lemma WriteLogins(x: Client, at: WritePc)
    ensures SameLogins(x, WriteNext(x, at))
  {
    match at { case WriteIdle => case WriteSend => case WriteRelease => case _ => }
  }

  lemma UnregisterLogins(x: Client, at: UnregisterPc, member: bool)
    ensures SameLogins(x, UnregisterClient(x, at, member))
  {
    match at {
      case UnregReadLock => case UnregTest => case UnregFound => case UnregNotFound => case UnregLock =>
      case UnregDelete => case UnregUnlock => case UnregWait => case UnregCloseSend => case UnregCloseEvents =>
      case UnregClosePlugin => case UnregInfoLock => case UnregInfoUnlock => case _ =>
    }
  }

  lemma SameLoginsMove(x: Client, x': Client)
    requires SameLogins(x, x') && LoginsFit(x)
    ensures LoginMoves(x, x', false, false)
  {
  }

  lemma OwnLogins(s: State, a: Action, x': Client)
    requires Enabled(s, a) && !IsHubAction(a) && !a.Connect? && a.c in s.clients && LoginsFit(s.clients[a.c])
    requires x' == ClientAfter(s, a)
    ensures LoginMoves(s.clients[a.c], x', a == LoginBroadcastStep(a.c, SideSend), a == LoginPluginStep(a.c, SideSend))
  {
    var x, member := s.clients[a.c], a.c in s.members;
    match a {
      case Handler(c, at) => HandlerLogins(x, at);
      case LoginBroadcastStep(c, at) => BroadcastLogins(x, at);
      case LoginPluginStep(c, at) => PluginLogins(x, at);
      case HistoryStep(c, h) => HistoryLogins(x, h, member); SameLoginsMove(x, x');
      case ReadStep(c, at) => ReadLogins(x, at, member); SameLoginsMove(x, x');
      case WriteStep(c, at) => WriteLogins(x, at); SameLoginsMove(x, x');
      case UnregisterStep(c, at) => UnregisterLogins(x, at, member); SameLoginsMove(x, x');
      case _ => SameLoginsMove(x, x');
    }
  }

  lemma StepLogins(s: State, a: Action, c: ClientId, s': State)
    requires Enabled(s, a) && s' == Next(s, a) && c in s.clients && LoginsFit(s.clients[c])
    ensures c in s'.clients
    ensures
      var atBroadcast, atPlugin := a == LoginBroadcastStep(c, SideSend), a == LoginPluginStep(c, SideSend);
      LoginMoves(s.clients[c], s'.clients[c], atBroadcast, atPlugin)
  {
    if IsHubAction(a) {
      HubActionShape(s, a, c);
      SameLoginsMove(s.clients[c], s'.clients[c]);
    } else {
      ClientActionShape(s, a);
      if a.c == c { OwnLogins(s, a, s'.clients[c]); } else { SameLoginsMove(s.clients[c], s'.clients[c]); }
    }
  }

  // A client appears with its Connect action, and no login step is taken before.
  lemma NewLogins(s: State, a: Action, c: ClientId, s': State)
    requires Enabled(s, a) && s' == Next(s, a) && c !in s.clients
    ensures a != LoginBroadcastStep(c, SideSend) && a != LoginPluginStep(c, SideSend)
    ensures c in s'.clients ==>
      a == Connect(c, s'.clients[c].hasUser) && s'.clients[c] == NewClient(s'.clients[c].hasUser)
  {
    if IsHubAction(a) { HubActionShape(s, a, c); } else { ClientActionShape(s, a); }
  }

  // ---------------------------------------------------------------- runs

  // What a run says about the logins of a client.
  ghost predicate LoginsShow(acts: seq<Action>, c: ClientId, s: State) {
    if c !in s.clients then
      multiset(acts)[LoginBroadcastStep(c, SideSend)] == 0 && multiset(acts)[LoginPluginStep(c, SideSend)] == 0
    else
      && LoginsFit(s.clients[c]) && Connect(c, s.clients[c].hasUser) in acts
      && multiset(acts)[LoginBroadcastStep(c, SideSend)] == One(HasSent(s.clients[c].loginBroadcast))
      && multiset(acts)[LoginPluginStep(c, SideSend)] == One(HasSent(s.clients[c].loginPlugin))
  }

  lemma LoginsShowNext(acts: seq<Action>, a: Action, c: ClientId, s: State, s': State)
    requires LoginsShow(acts, c, s) && Enabled(s, a) && s' == Next(s, a)
    ensures LoginsShow(acts + [a], c, s')
  {
    assert (acts + [a])[..|acts|] == acts;
    CountLast(acts + [a], LoginBroadcastStep(c, SideSend));
    CountLast(acts + [a], LoginPluginStep(c, SideSend));
    if c in s.clients { StepLogins(s, a, c, s'); } else { NewLogins(s, a, c, s'); }
  }

  lemma {:induction false} RunsShowLogins(acts: seq<Action>, c: ClientId)
    requires IsRun(acts)
    ensures LoginsShow(acts, c, Run(acts).value)
  {
    if acts != [] {
      var front := acts[..|acts| - 1];
      RunsShowLogins(front, c);
      assert acts == front + [acts[|acts| - 1]];
      LoginsShowNext(front, acts[|acts| - 1], c, Run(front).value, Run(acts).value);
    }
  }

  // When the handler has waited for its goroutines, and ever after: the login has been announced once to all clients
  // and once to the plugins if the client connected with a user, and to nobody if it connected without one.
  lemma LoginIsAnnounced(acts: seq<Action>, c: ClientId)
    requires IsRun(acts) && c in Run(acts).value.clients && LocalWaited(Run(acts).value.clients[c].handler)
    ensures
      var hasUser := Run(acts).value.clients[c].hasUser;
      && Connect(c, hasUser) in acts
      && multiset(acts)[LoginBroadcastStep(c, SideSend)] == One(hasUser)
      && multiset(acts)[LoginPluginStep(c, SideSend)] == One(hasUser)
  {
    var s := Run(acts).value;
    RunsShowLogins(acts, c);
    RunsKeepInv(acts);
    assert ClientInv(s.clients[c], c in s.members, PhaseOf(s.hub, c));
  }

}
