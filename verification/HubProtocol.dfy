/**
The life of the clients of one hub, as a labelled transition system.

Every goroutine that touches a client has a program counter of its own: the websocket handler, ReadLoop,
WriteLoop, the SendHistory goroutines, the two login goroutines, the unregister goroutine, the broadcast
goroutines with one sender each per client, and the hub's Run loop.  A transition is one synchronisation step
of one goroutine (or a rendezvous on an unbuffered channel); any goroutine may go next.

A statement pair "Add; go f()" is one transition: a goroutine that has been started but not scheduled cannot be
told apart from one that is about to be started.  Sends are never blocked here, which allows more runs than a
bounded channel does.
*/
module HubProtocol {
  import opened Wrappers
  import opened Events

  type ClientId = nat
  type BroadcastId = nat
  type HistoryId = nat

  // The id of the SendHistory goroutine that the websocket handler starts and waits for.
  const FIRST_HISTORY: HistoryId := 0

  // The three channels that belong to a client.
  datatype Channel = Send | SendEvents | PluginChan

  // What can be put on a client's Send channel.
  datatype Message = FromBroadcast(b: BroadcastId) | FromWriteLoop

  // Goroutines that take the hub's RWMutex.
  datatype Holder =
    | Hub
    | Reader(c: ClientId)
    | History(c: ClientId, h: HistoryId)
    | Broadcaster(b: BroadcastId)
    | Unregisterer(c: ClientId)

  // The reasons for which a client's WaitGroup is not zero.
  datatype Token = Registration | Reading | Writing | Sending(b: BroadcastId)

  datatype HandlerPc =
    | AddRegistration | SendRegister | WaitRegistered | StartLoops | StartLogin | StartHistory
    | WaitLocal | WaitDone | SendUnregister | HandlerEnd

  datatype ReadPc =
    | ReadUnborn | ReadIdle | ReadTest(plan: seq<Channel>) | ReadSend(plan: seq<Channel>) | ReadUnlock
    | ReadCloseDone | ReadRelease | ReadEnd

  datatype WritePc = WriteUnborn | WriteIdle | WriteSend | WriteRelease | WriteEnd

  datatype SidePc = SideUnborn | SideSend | SideRelease | SideEnd

  datatype HistoryPc = HistoryLock | HistoryTest | HistorySend | HistoryUnlock | HistoryRelease

  datatype UnregisterPc =
    | UnregUnborn | UnregReadLock | UnregTest | UnregFound | UnregNotFound | UnregLock | UnregDelete | UnregUnlock
    | UnregWait | UnregCloseSend | UnregCloseEvents | UnregClosePlugin | UnregInfoLock | UnregInfoUnlock | UnregEnd

  datatype HubPc =
    | Idle
    | RegLock(c: ClientId) | RegInsert(c: ClientId) | RegUnlock(c: ClientId) | RegRelease(c: ClientId)
    | InfoLock | InfoUnlock
    | Batch(events: seq<Event>)

  datatype BroadcastPc = BcLock | BcIterate | BcAdd(c: ClientId) | BcWait | BcUnlock | BcEnd

  datatype SenderPc = SenderSend | SenderRelease | SenderEnd

  // What the loop over the clients decided for one client.
  datatype Outcome = Rejected | Unmarshalled | Deliver

  datatype Client = Client(
    hasUser: bool,                       // the handler found a user id
    handler: HandlerPc,
    read: ReadPc,
    write: WritePc,
    loginBroadcast: SidePc,
    loginPlugin: SidePc,
    histories: map<HistoryId, HistoryPc>,
    unregister: UnregisterPc,
    local: int,                          // the handler's own WaitGroup
    counter: int,                        // the client's WaitGroup
    tokens: set<Token>,                  // auxiliary: what the counter stands for
    sendClosed: bool,
    eventsClosed: bool,
    pluginClosed: bool,
    doneClosed: bool,
    posted: multiset<Message>            // auxiliary: everything put on Send so far
  )

  datatype Broadcast = Broadcast(
    event: Event,
    hasProgram: bool,
    marshals: bool,                      // whether the event can be marshalled
    pc: BroadcastPc,
    snapshot: set<ClientId>,             // auxiliary: the clients at the time of RLock
    todo: set<ClientId>,
    outcomes: map<ClientId, Outcome>,    // auxiliary: decisions taken so far
    senders: map<ClientId, SenderPc>,
    wg: int
  )

  datatype State = State(
    writer: Option<Holder>,
    readers: set<Holder>,
    members: set<ClientId>,
    hub: HubPc,
    clients: map<ClientId, Client>,
    broadcasts: map<BroadcastId, Broadcast>
  )

  const INITIAL := State(None, {}, {}, Idle, map[], map[])

  function NewClient(hasUser: bool): Client {
    Client(hasUser, AddRegistration, ReadUnborn, WriteUnborn, SideUnborn, SideUnborn, map[], UnregUnborn,
           0, 0, {}, false, false, false, false, multiset{})
  }

  function NewBroadcast(event: Event, hasProgram: bool, marshals: bool): Broadcast {
    Broadcast(event, hasProgram, marshals, BcLock, {}, {}, map[], map[], 0)
  }

  // Transitions are named by the goroutine and the statement it executes.
  datatype Action =
    | Connect(c: ClientId, hasUser: bool)
    | Handler(c: ClientId, at: HandlerPc)
    | LoginBroadcastStep(c: ClientId, side: SidePc)
    | LoginPluginStep(c: ClientId, side: SidePc)
    | HistoryStep(c: ClientId, h: HistoryId)
    | ReadStep(c: ClientId, read: ReadPc)
    | ReadBeginSend(c: ClientId, plan: seq<Channel>)
    | ReadStartHistory(c: ClientId, h: HistoryId)
    | WriteStep(c: ClientId, write: WritePc)
    | WriteBeginSend(c: ClientId)
    | UnregisterStep(c: ClientId, unreg: UnregisterPc)
    | HubStep(hub: HubPc)
    | HubReceive(events: seq<Event>)
    | HubSpawn(b: BroadcastId, compiles: bool, marshals: bool)
    | BroadcastStep(b: BroadcastId, bc: BroadcastPc)
    | BroadcastTest(b: BroadcastId, c: ClientId, outcome: Outcome)
    | SenderStep(b: BroadcastId, c: ClientId)

  // The two sequences of guarded sends that ReadLoop makes while it holds the read lock.
  const PROMPT_PLAN: seq<Channel> := [SendEvents, PluginChan]
  const CHAT_PLAN: seq<Channel> := [PluginChan]

  predicate MayReadLock(s: State) { s.writer.None? }

  predicate MayLock(s: State) { s.writer.None? && s.readers == {} }

  // ---------------------------------------------------------------- updates of one part of the state

  function WithClient(s: State, c: ClientId, x: Client): State {
    s.(clients := s.clients[c := x])
  }

  function WithBroadcast(s: State, b: BroadcastId, x: Broadcast): State {
    s.(broadcasts := s.broadcasts[b := x])
  }

  function ReadLocked(s: State, t: Holder): State { s.(readers := s.readers + {t}) }

  function ReadUnlocked(s: State, t: Holder): State { s.(readers := s.readers - {t}) }

  function Locked(s: State, t: Holder): State { s.(writer := Some(t)) }

  function Unlocked(s: State): State { s.(writer := None) }

  function Acquire(x: Client, t: Token): Client { x.(counter := x.counter + 1, tokens := x.tokens + {t}) }

  function Release(x: Client, t: Token): Client { x.(counter := x.counter - 1, tokens := x.tokens - {t}) }

  // ---------------------------------------------------------------- the websocket handler

  predicate HandlerEnabled(s: State, c: ClientId, at: HandlerPc) {
    c in s.clients && s.clients[c].handler == at &&
    match at
    case SendRegister => s.hub == Idle
    case WaitRegistered => s.clients[c].counter == 0
    case WaitLocal => s.clients[c].local == 0
    case WaitDone => s.clients[c].doneClosed
    case SendUnregister => s.hub == Idle
    case HandlerEnd => false
    case _ => true
  }

  function HandlerClient(x: Client, at: HandlerPc): Client {
    match at
    case AddRegistration => Acquire(x, Registration).(handler := SendRegister)
    case SendRegister => x.(handler := WaitRegistered)
    case WaitRegistered => x.(handler := StartLoops)
    case StartLoops =>
      Acquire(Acquire(x, Reading), Writing).(handler := StartLogin, read := ReadIdle, write := WriteIdle)
    case StartLogin =>
      if x.hasUser then
        x.(handler := StartHistory, local := x.local + 2, loginBroadcast := SideSend, loginPlugin := SideSend)
      else
        x.(handler := StartHistory)
    case StartHistory =>
      x.(handler := WaitLocal, local := x.local + 1, histories := x.histories[FIRST_HISTORY := HistoryLock])
    case WaitLocal => x.(handler := WaitDone)
    case WaitDone => x.(handler := SendUnregister)
    case SendUnregister => x.(handler := HandlerEnd, unregister := UnregReadLock)
    case HandlerEnd => x
  }

  // The hub receives from Register and from Unregister in its Run loop; Unregister starts a goroutine at once.
  function HandlerNext(s: State, c: ClientId, at: HandlerPc): State
    requires HandlerEnabled(s, c, at)
  {
    var s1 := WithClient(s, c, HandlerClient(s.clients[c], at));
    if at == SendRegister then s1.(hub := RegLock(c)) else s1
  }

  // ---------------------------------------------------------------- the two login goroutines

  predicate SideEnabled(pc: SidePc, at: SidePc) { pc == at && (at == SideSend || at == SideRelease) }

  function LoginBroadcastNext(x: Client, at: SidePc): Client {
    if at == SideSend then x.(loginBroadcast := SideRelease)  // the hub's own channel is never closed
    else x.(loginBroadcast := SideEnd, local := x.local - 1)
  }

  function LoginPluginNext(x: Client, at: SidePc): Client {
    if at == SideSend then x.(loginPlugin := SideRelease)     // sends on PluginChan
    else x.(loginPlugin := SideEnd, local := x.local - 1)
  }

  // ---------------------------------------------------------------- SendHistory

  predicate HistoryEnabled(s: State, c: ClientId, h: HistoryId) {
    c in s.clients && h in s.clients[c].histories &&
    (s.clients[c].histories[h] == HistoryLock ==> MayReadLock(s))
  }

  function HistoryAt(x: Client, h: HistoryId, pc: HistoryPc): Client {
    x.(histories := x.histories[h := pc])
  }

  function HistoryClient(x: Client, h: HistoryId, member: bool): Client
    requires h in x.histories
  {
    match x.histories[h]
    case HistoryLock => HistoryAt(x, h, HistoryTest)
    case HistoryTest => HistoryAt(x, h, if member then HistorySend else HistoryUnlock)
    case HistorySend => HistoryAt(x, h, HistoryUnlock)    // sends on SendEvents
    case HistoryUnlock => HistoryAt(x, h, HistoryRelease)
    case HistoryRelease =>
      x.(histories := x.histories - {h}, local := if h == FIRST_HISTORY then x.local - 1 else x.local)
  }

  function HistoryNext(s: State, c: ClientId, h: HistoryId): State
    requires HistoryEnabled(s, c, h)
  {
    var x := s.clients[c];
    var s1 := WithClient(s, c, HistoryClient(x, h, c in s.members));
    match x.histories[h]
    case HistoryLock => ReadLocked(s1, History(c, h))
    case HistoryUnlock => ReadUnlocked(s1, History(c, h))
    case _ => s1
  }

  // ---------------------------------------------------------------- ReadLoop

  predicate ReadEnabled(s: State, c: ClientId, at: ReadPc) {
    c in s.clients && s.clients[c].read == at && !at.ReadUnborn? && !at.ReadEnd?
  }

  function ReadClient(x: Client, at: ReadPc, member: bool): Client {
    match at
    case ReadIdle => x.(read := ReadCloseDone)
    case ReadTest(plan) => x.(read := if member then ReadSend(plan) else ReadUnlock)
    case ReadSend(plan) => x.(read := if |plan| <= 1 then ReadUnlock else ReadSend(plan[1..]))  // sends on plan[0]
    case ReadUnlock => x.(read := ReadIdle)
    case ReadCloseDone => x.(read := ReadRelease, doneClosed := true)
    case ReadRelease => Release(x, Reading).(read := ReadEnd)
    case _ => x
  }

  function ReadNext(s: State, c: ClientId, at: ReadPc): State
    requires ReadEnabled(s, c, at)
  {
    var s1 := WithClient(s, c, ReadClient(s.clients[c], at, c in s.members));
    if at == ReadUnlock then ReadUnlocked(s1, Reader(c)) else s1
  }

  predicate ReadBeginSendEnabled(s: State, c: ClientId, plan: seq<Channel>) {
    c in s.clients && s.clients[c].read == ReadIdle && MayReadLock(s) && (plan == PROMPT_PLAN || plan == CHAT_PLAN)
  }

  function ReadBeginSendNext(s: State, c: ClientId, plan: seq<Channel>): State
    requires ReadBeginSendEnabled(s, c, plan)
  {
    ReadLocked(WithClient(s, c, s.clients[c].(read := ReadTest(plan))), Reader(c))
  }

  predicate ReadStartHistoryEnabled(s: State, c: ClientId, h: HistoryId) {
    c in s.clients && s.clients[c].read == ReadIdle && h != FIRST_HISTORY && h !in s.clients[c].histories
  }

  // ---------------------------------------------------------------- WriteLoop

  predicate WriteEnabled(s: State, c: ClientId, at: WritePc) {
    c in s.clients && s.clients[c].write == at && !at.WriteUnborn? && !at.WriteEnd?
  }

  function WriteNext(x: Client, at: WritePc): Client {
    match at
    case WriteIdle => x.(write := WriteRelease)
    case WriteSend => x.(write := WriteIdle, posted := x.posted + multiset{FromWriteLoop})
    case WriteRelease => Release(x, Writing).(write := WriteEnd)
    case _ => x
  }

  // ---------------------------------------------------------------- the unregister goroutine

  predicate UnregisterEnabled(s: State, c: ClientId, at: UnregisterPc) {
    c in s.clients && s.clients[c].unregister == at &&
    match at
    case UnregReadLock => MayReadLock(s)
    case UnregInfoLock => MayReadLock(s)
    case UnregLock => MayLock(s)
    case UnregWait => s.clients[c].counter == 0
    case UnregUnborn => false
    case UnregEnd => false
    case _ => true
  }

  function UnregisterClient(x: Client, at: UnregisterPc, member: bool): Client {
    match at
    case UnregReadLock => x.(unregister := UnregTest)
    case UnregTest => x.(unregister := if member then UnregFound else UnregNotFound)
    case UnregFound => x.(unregister := UnregLock)
    case UnregNotFound => x.(unregister := UnregEnd)
    case UnregLock => x.(unregister := UnregDelete)
    case UnregDelete => x.(unregister := UnregUnlock)
    case UnregUnlock => x.(unregister := UnregWait)
    case UnregWait => x.(unregister := UnregCloseSend)
    case UnregCloseSend => x.(unregister := UnregCloseEvents, sendClosed := true)
    case UnregCloseEvents => x.(unregister := UnregClosePlugin, eventsClosed := true)
    case UnregClosePlugin => x.(unregister := UnregInfoLock, pluginClosed := true)
    case UnregInfoLock => x.(unregister := UnregInfoUnlock)
    case UnregInfoUnlock => x.(unregister := UnregEnd)
    case _ => x
  }

  function UnregisterNext(s: State, c: ClientId, at: UnregisterPc): State
    requires UnregisterEnabled(s, c, at)
  {
    var s1 := WithClient(s, c, UnregisterClient(s.clients[c], at, c in s.members));
    var t := Unregisterer(c);
    match at
    case UnregReadLock => ReadLocked(s1, t)
    case UnregFound => ReadUnlocked(s1, t)
    case UnregNotFound => ReadUnlocked(s1, t)
    case UnregLock => Locked(s1, t)
    case UnregDelete => s1.(members := s.members - {c})
    case UnregUnlock => Unlocked(s1)
    case UnregInfoLock => ReadLocked(s1, t)
    case UnregInfoUnlock => ReadUnlocked(s1, t)
    case _ => s1
  }

  // ---------------------------------------------------------------- the hub's Run loop

  predicate HubEnabled(s: State, at: HubPc) {
    s.hub == at &&
    match at
    case Idle => false
    case RegLock(_) => MayLock(s)
    case RegRelease(c) => c in s.clients
    case InfoLock => MayReadLock(s)
    // Skips an internal event, or finds that the batch is used up.
    case Batch(events) => events == [] || events[0].name == INTERNAL
    case _ => true
  }

  function HubNext(s: State, at: HubPc): State
    requires HubEnabled(s, at)
  {
    match at
    case RegLock(c) => Locked(s.(hub := RegInsert(c)), Hub)
    case RegInsert(c) => s.(hub := RegUnlock(c), members := s.members + {c})
    case RegUnlock(c) => Unlocked(s.(hub := RegRelease(c)))
    case RegRelease(c) => WithClient(s, c, Release(s.clients[c], Registration)).(hub := InfoLock)
    case InfoLock => ReadLocked(s.(hub := InfoUnlock), Hub)
    case InfoUnlock => ReadUnlocked(s.(hub := Idle), Hub)
    case Batch(events) => s.(hub := if events == [] then Idle else Batch(events[1..]))
  }

  predicate HubSpawnEnabled(s: State, b: BroadcastId) {
    s.hub.Batch? && s.hub.events != [] && s.hub.events[0].name != INTERNAL && b !in s.broadcasts
  }

  // A filter that is absent or does not compile leaves the program nil.
  function HubSpawnNext(s: State, b: BroadcastId, compiles: bool, marshals: bool): State
    requires HubSpawnEnabled(s, b)
  {
    var e := s.hub.events[0];
    WithBroadcast(s, b, NewBroadcast(e, e.targetFilter != "" && compiles, marshals)).(hub := Batch(s.hub.events[1..]))
  }

  // ---------------------------------------------------------------- a broadcast goroutine and its senders

  predicate BroadcastEnabled(s: State, b: BroadcastId, at: BroadcastPc) {
    b in s.broadcasts && s.broadcasts[b].pc == at &&
    match at
    case BcLock => MayReadLock(s)
    case BcIterate => s.broadcasts[b].todo == {}
    case BcAdd(c) => c in s.clients
    case BcWait => s.broadcasts[b].wg == 0
    case BcUnlock => true
    case BcEnd => false
  }

  function BroadcastNext(s: State, b: BroadcastId, at: BroadcastPc): State
    requires BroadcastEnabled(s, b, at)
  {
    var x := s.broadcasts[b];
    match at
    case BcLock =>
      ReadLocked(WithBroadcast(s, b, x.(pc := BcIterate, snapshot := s.members, todo := s.members)), Broadcaster(b))
    case BcIterate => WithBroadcast(s, b, x.(pc := BcWait))
    case BcAdd(c) =>
      WithBroadcast(WithClient(s, c, Acquire(s.clients[c], Sending(b))), b,
                    x.(pc := BcIterate, wg := x.wg + 1, senders := x.senders[c := SenderSend]))
    case BcWait => WithBroadcast(s, b, x.(pc := BcUnlock))
    case BcUnlock => ReadUnlocked(WithBroadcast(s, b, x.(pc := BcEnd)), Broadcaster(b))
  }

  // RunFilterEvent passes every event when the program is nil; an event that passes is marshalled.
  predicate MayDecide(x: Broadcast, outcome: Outcome) {
    match outcome
    case Rejected => x.hasProgram
    case Unmarshalled => !x.marshals
    case Deliver => x.marshals
  }

  predicate BroadcastTestEnabled(s: State, b: BroadcastId, c: ClientId, outcome: Outcome) {
    b in s.broadcasts && s.broadcasts[b].pc == BcIterate && c in s.broadcasts[b].todo &&
    MayDecide(s.broadcasts[b], outcome)
  }

  function BroadcastTestNext(s: State, b: BroadcastId, c: ClientId, outcome: Outcome): State
    requires BroadcastTestEnabled(s, b, c, outcome)
  {
    var x := s.broadcasts[b];
    WithBroadcast(s, b, x.(todo := x.todo - {c}, outcomes := x.outcomes[c := outcome],
                           pc := if outcome == Deliver then BcAdd(c) else BcIterate))
  }

  predicate SenderEnabled(s: State, b: BroadcastId, c: ClientId) {
    b in s.broadcasts && c in s.broadcasts[b].senders && c in s.clients
  }

  function SenderNext(s: State, b: BroadcastId, c: ClientId): State
    requires SenderEnabled(s, b, c)
  {
    var x := s.broadcasts[b];
    var y := s.clients[c];
    match x.senders[c]
    case SenderSend =>
      WithBroadcast(WithClient(s, c, y.(posted := y.posted + multiset{FromBroadcast(b)})), b,
                    x.(senders := x.senders[c := SenderRelease]))
    case SenderRelease =>
      WithBroadcast(WithClient(s, c, Release(y, Sending(b))), b, x.(senders := x.senders[c := SenderEnd]))
    case SenderEnd => WithBroadcast(s, b, x.(senders := x.senders - {c}, wg := x.wg - 1))
  }

  // ---------------------------------------------------------------- one step of the whole system

  predicate Enabled(s: State, a: Action) {
    match a
    case Connect(c, _) => c !in s.clients
    case Handler(c, at) => HandlerEnabled(s, c, at)
    case LoginBroadcastStep(c, at) => c in s.clients && SideEnabled(s.clients[c].loginBroadcast, at)
    case LoginPluginStep(c, at) => c in s.clients && SideEnabled(s.clients[c].loginPlugin, at)
    case HistoryStep(c, h) => HistoryEnabled(s, c, h)
    case ReadStep(c, at) => ReadEnabled(s, c, at)
    case ReadBeginSend(c, plan) => ReadBeginSendEnabled(s, c, plan)
    case ReadStartHistory(c, h) => ReadStartHistoryEnabled(s, c, h)
    case WriteStep(c, at) => WriteEnabled(s, c, at)
    case WriteBeginSend(c) => c in s.clients && s.clients[c].write == WriteIdle
    case UnregisterStep(c, at) => UnregisterEnabled(s, c, at)
    case HubStep(at) => HubEnabled(s, at)
    case HubReceive(_) => s.hub == Idle
    case HubSpawn(b, _, _) => HubSpawnEnabled(s, b)
    case BroadcastStep(b, at) => BroadcastEnabled(s, b, at)
    case BroadcastTest(b, c, outcome) => BroadcastTestEnabled(s, b, c, outcome)
    case SenderStep(b, c) => SenderEnabled(s, b, c)
  }

  function Next(s: State, a: Action): State
    requires Enabled(s, a)
  {
    match a
    case Connect(c, hasUser) => WithClient(s, c, NewClient(hasUser))
    case Handler(c, at) => HandlerNext(s, c, at)
    case LoginBroadcastStep(c, at) => WithClient(s, c, LoginBroadcastNext(s.clients[c], at))
    case LoginPluginStep(c, at) => WithClient(s, c, LoginPluginNext(s.clients[c], at))
    case HistoryStep(c, h) => HistoryNext(s, c, h)
    case ReadStep(c, at) => ReadNext(s, c, at)
    case ReadBeginSend(c, plan) => ReadBeginSendNext(s, c, plan)
    case ReadStartHistory(c, h) => WithClient(s, c, HistoryAt(s.clients[c], h, HistoryLock))
    case WriteStep(c, at) => WithClient(s, c, WriteNext(s.clients[c], at))
    case WriteBeginSend(c) => WithClient(s, c, s.clients[c].(write := WriteSend))
    case UnregisterStep(c, at) => UnregisterNext(s, c, at)
    case HubStep(at) => HubNext(s, at)
    case HubReceive(events) => s.(hub := Batch(events))
    case HubSpawn(b, compiles, marshals) => HubSpawnNext(s, b, compiles, marshals)
    case BroadcastStep(b, at) => BroadcastNext(s, b, at)
    case BroadcastTest(b, c, outcome) => BroadcastTestNext(s, b, c, outcome)
    case SenderStep(b, c) => SenderNext(s, b, c)
  }

  // ---------------------------------------------------------------- runs

  // The state after a list of actions, if each was enabled when it was taken.
  function Run(acts: seq<Action>): Option<State> {
    if acts == [] then Some(INITIAL)
    else
      var before := Run(acts[..|acts| - 1]);
      var a := acts[|acts| - 1];
      if before.Some? && Enabled(before.value, a) then Some(Next(before.value, a)) else None
  }

  predicate IsRun(acts: seq<Action>) { Run(acts).Some? }

}
