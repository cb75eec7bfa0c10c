/**
The identity of a client over a whole run of ReadLoop: users are objects, and a published event keeps a reference to
its user.  The session functions say on values what one message does; the class does it in place.
*/
module ReadLoop {
  import opened Wrappers
  import opened Events
  import opened Text
  import Commands

  const LOGIN := "login"
  const LOGOUT := "logout"
  const DEFAULT_LANGUAGE := "en"
  const PLEASE_LOG_IN := "Please log in to post a message!"

  // ---------------------------------------------------------------- what arrives, and what the surroundings answer

  datatype LoginMessage = LoginMessage(idToken: string, provider: string, language: string)
  datatype ChatMessage = ChatMessage(message: string, filter: string)
  datatype OtherMessage = OtherMessage(filter: string, language: string, tags: Tags)

  // The data of a message, as each of the three decoders reads it (None: it fails).
  datatype Data = Data(login: Option<LoginMessage>, chat: Option<ChatMessage>, other: Option<OtherMessage>)

  datatype Profile = Profile(id: string, nick: string, language: string)

  datatype Lookup = NotFound | Found(profile: Profile) | Failed
  datatype Store = Store(lookup: Lookup, accepts: bool)

  // One message.  A part that is missing keeps the value of the previous message, because the decoder fills one record
  // for the whole loop.  guest is the id of a guest: its nick where the room allows guests, nothing otherwise.
  datatype Input =
    | Unreadable
    | Frame(event: Option<string>, data: Option<Data>, authenticated: string, store: Option<Store>,
            guest: string, guestNick: string, member: bool)

  datatype Library = Library(quote: Commands.Quote, lower: string -> string)

  // ---------------------------------------------------------------- one message, on values

  datatype Session = Session(who: Profile, language: string, event: string, data: Data, replays: nat)

  // What went to the history, to all clients, to this client and to the plugins.
  datatype Sent = Sent(history: seq<Event>, broadcast: seq<Event>, own: seq<Event>, plugins: seq<Event>)

  const NOTHING := Sent([], [], [], [])

  function Both(a: Sent, b: Sent): Sent {
    Sent(a.history + b.history, a.broadcast + b.broadcast, a.own + b.own, a.plugins + b.plugins)
  }

  function Filled(s: Session, i: Input): Session
    requires i.Frame?
  {
    s.(event := if i.event.Some? then i.event.value else s.event, data := if i.data.Some? then i.data.value else s.data)
  }

  function LoggedOut(s: Session, i: Input): Session
    requires i.Frame?
  {
    if s.event == LOGOUT && s.who.id != "" then s.(who := Profile(i.guest, i.guestNick, s.language)) else s
  }

  function NewProfile(id: string): Profile { Profile(id, id, DEFAULT_LANGUAGE) }

  // The user that an accepted token stands for; None where the loop gives up.
  function Loaded(i: Input): Option<Profile>
    requires i.Frame?
  {
    match i.store
    case None => Some(NewProfile(i.authenticated))
    case Some(store) =>
      match store.lookup
      case NotFound => if store.accepts then Some(NewProfile(i.authenticated)) else None
      case Found(profile) => Some(profile)
      case Failed => None
  }

  predicate Accepted(m: LoginMessage, i: Input)
    requires i.Frame?
  {
    m.idToken != "" && m.provider != "" && i.authenticated != ""
  }

  function Become(s: Session, p: Profile): Session {
    s.(who := p, language := if p.language != "" then p.language else s.language)
  }

  function LoggedIn(lib: Library, s: Session, i: Input): Option<Session>
    requires i.Frame?
  {
    if s.event != LOGIN then Some(s)
    else match s.data.login
      case None => None
      case Some(m) =>
        if Accepted(m, i) then
          match Loaded(i)
          case None => None
          case Some(p) => Some(Settled(lib, Become(s, p), m, true))
        else Some(Settled(lib, s, m, false))
  }

  // The language setting that comes with a login, and the replay of the history.
  function Settled(lib: Library, s: Session, m: LoginMessage, loggedIn: bool): Session {
    if |m.language| > 1 && s.who.id != "" then s.(language := lib.lower(m.language[..2]), replays := s.replays + 1)
    else if loggedIn then s.(replays := s.replays + 1)
    else s
  }

  function Origin(p: Profile): Source { Source(Events.User(p.id, p.nick), "") }

  function Prompt(lib: Library, p: Profile): Event {
    NewEvent(Origin(p), "Target.User.Nick == " + lib.quote(p.nick), DEFAULT_LANGUAGE, CHAT,
             map["message" := PLEASE_LOG_IN])
  }

  function Said(p: Profile, m: ChatMessage): Event {
    NewEvent(Origin(p), m.filter, "", CHAT, map["message" := m.message, "mime_type" := "text/plain"])
  }

  function Command(lib: Library, p: Profile, m: ChatMessage): Event
    requires HasPrefix(m.message, "/")
  {
    Commands.CommandEvent(lib.quote, Events.User(p.id, p.nick), m.message, m.filter, "")
  }

  function Custom(p: Profile, name: string, m: OtherMessage): Event {
    NewEvent(Origin(p), m.filter, m.language, name, m.tags)
  }

  function Publish(e: Event, member: bool): Sent { Sent([e], [e], [], if member then [e] else []) }

  function Whisper(e: Event, member: bool): Sent {
    Sent([], [], if member then [e] else [], if member then [e] else [])
  }

  // Where a message goes; None where its data cannot be decoded.
  function Route(lib: Library, s: Session, member: bool): Option<Sent> {
    if s.who.id == "" then Some(Whisper(Prompt(lib, s.who), member))
    else if s.event == CHAT then
      match s.data.chat
      case None => None
      case Some(m) =>
        Some(if HasPrefix(m.message, "/") then Whisper(Command(lib, s.who, m), member)
             else Publish(Said(s.who, m), member))
    else match s.data.other
      case None => None
      case Some(m) => Some(Publish(Custom(s.who, s.event, m), member))
  }

  datatype Outcome = Outcome(session: Session, sent: Sent, running: bool)

  // The part of the loop body before anything is sent.
  function Identified(lib: Library, s: Session, i: Input): Outcome
    requires i.Frame?
  {
    var out := LoggedOut(Filled(s, i), i);
    match LoggedIn(lib, out, i)
    case None => Outcome(out, NOTHING, false)
    case Some(t) => Outcome(t, NOTHING, true)
  }

  function Step(lib: Library, s: Session, i: Input): Outcome {
    if i.Unreadable? then Outcome(s, NOTHING, false)
    else
      var o := Identified(lib, s, i);
      if !o.running then o
      else
        match Route(lib, o.session, i.member)
        case None => Outcome(o.session, NOTHING, false)
        case Some(sent) => Outcome(o.session, sent, true)
  }

  // A whole run: the messages up to the first that ends the loop.
  function Run(lib: Library, s: Session, inputs: seq<Input>): Outcome {
    if inputs == [] then Outcome(s, NOTHING, true)
    else
      var before := Run(lib, s, inputs[..|inputs| - 1]);
      if !before.running then before
      else
        var o := Step(lib, before.session, inputs[|inputs| - 1]);
        Outcome(o.session, Both(before.sent, o.sent), o.running)
  }

  lemma RunOneMore(lib: Library, s: Session, inputs: seq<Input>, n: nat)
    requires n < |inputs| && Run(lib, s, inputs[..n]).running
    ensures
      var before := Run(lib, s, inputs[..n]);
      var o := Step(lib, before.session, inputs[n]);
      Run(lib, s, inputs[..n + 1]) == Outcome(o.session, Both(before.sent, o.sent), o.running)
  {
    assert inputs[..n + 1][..n] == inputs[..n];
  }

  // Once the loop has ended, nothing that still arrives matters.
  lemma {:induction false} RunIsOver(lib: Library, s: Session, inputs: seq<Input>, n: nat)
    requires n <= |inputs| && (n < |inputs| ==> !Run(lib, s, inputs[..n]).running)
    ensures Run(lib, s, inputs) == Run(lib, s, inputs[..n])
  {
    if n == |inputs| {
      assert inputs[..n] == inputs;
    } else {
      var init := inputs[..|inputs| - 1];
      assert init[..n] == inputs[..n];
      RunIsOver(lib, s, init, n);
    }
  }

  // ---------------------------------------------------------------- the loop itself, in place

  datatype Time = Time(instant: int, utc: bool)

  // A user record, shared by reference between the client and the events that it sent.
  class Account {
    var id: string
    var nick: string
    var language: string
    var tags: Option<Tags>
    var lastOnline: Time

    constructor (p: Profile, tags: Option<Tags>, lastOnline: Time)
      ensures id == p.id && nick == p.nick && language == p.language
      ensures this.tags == tags && this.lastOnline == lastOnline
    {
      id, nick, language, this.tags, this.lastOnline := p.id, p.nick, p.language, tags, lastOnline;
    }

    function Who(): Profile
      reads `id, `nick, `language
    {
      Profile(id, nick, language)
    }
  }

  // An event as it lies in a channel.
  datatype Published = Published(name: string, user: Account, targetFilter: string, language: string, tags: Tags)

  // The event that a receiver sees now.
  function View(p: Published): Event
    reads p.user`id, p.user`nick
  {
    NewEvent(Source(Events.User(p.user.id, p.user.nick), ""), p.targetFilter, p.language, p.name, p.tags)
  }

  function Users(ps: seq<Published>): set<Account> { set p <- ps :: p.user }

  // The receivers of a channel see, in the records as they are now, these events.
  ghost predicate Shows(ps: seq<Published>, es: seq<Event>)
    reads Users(ps)`id, Users(ps)`nick
  {
    |ps| == |es| && forall k :: 0 <= k < |ps| ==> ps[k].user in Users(ps) && View(ps[k]) == es[k]
  }

  lemma ShowsOneMore(ps: seq<Published>, es: seq<Event>, p: Published)
    requires Shows(ps, es)
    ensures Shows(ps + [p], es + [View(p)])
  {
  }

  lemma BothAssociates(a: Sent, b: Sent, c: Sent)
    ensures Both(Both(a, b), c) == Both(a, Both(b, c)) && Both(a, NOTHING) == a
  {
  }

  // The outcome of a run that starts with something already sent.
  function Resumed(before: Sent, o: Outcome): Outcome { Outcome(o.session, Both(before, o.sent), o.running) }

  lemma ResumedOneMore(lib: Library, before: Sent, s: Session, inputs: seq<Input>, n: nat)
    requires n < |inputs| && Run(lib, s, inputs[..n]).running
    ensures
      var now := Resumed(before, Run(lib, s, inputs[..n]));
      Resumed(before, Run(lib, s, inputs[..n + 1])) == Resumed(now.sent, Step(lib, now.session, inputs[n]))
  {
    RunOneMore(lib, s, inputs, n);
    BothAssociates(before, Run(lib, s, inputs[..n]).sent, Step(lib, Run(lib, s, inputs[..n]).session, inputs[n]).sent);
  }

  method CreateEvent(user: Account, targetFilter: string, language: string, name: string, tags: Tags)
    returns (p: Published)
    modifies user`tags, user`lastOnline
    ensures p == Published(name, user, targetFilter, language, tags)
    ensures user.lastOnline == old(user.lastOnline).(utc := true)
    ensures user.tags == Some(if old(user.tags).Some? then old(user.tags).value else map[])
  {
    user.lastOnline := user.lastOnline.(utc := true);
    if user.tags.None? { user.tags := Some(map[]); }
    p := Published(name, user, targetFilter, language, tags);
  }

  class Client {
    var user: Account
    var language: string
    var event: string
    var data: Data
    var replays: nat
    var eventHistory: seq<Published>
    var broadcastEvents: seq<Published>
    var sendEvents: seq<Published>
    var pluginChan: seq<Published>
    ghost var log: Sent

    constructor (user: Account, language: string)
      ensures this.user == user && Valid() && log == NOTHING
      ensures
        var l := if |language| < 2 then DEFAULT_LANGUAGE else language[..2];
        Current() == Session(user.Who(), l, "", Data(None, None, None), 0)
    {
      this.user := user;
      this.language := if |language| < 2 then DEFAULT_LANGUAGE else language[..2];
      event, data, replays := "", Data(None, None, None), 0;
      eventHistory, broadcastEvents, sendEvents, pluginChan := [], [], [], [];
      log := NOTHING;
    }

    function Current(): Session
      reads `user, `language, `event, `data, `replays, user`id, user`nick, user`language
    {
      Session(user.Who(), language, event, data, replays)
    }

    // The log is what every receiver sees, in the records as they are now.
    ghost predicate Valid()
      reads `eventHistory, `broadcastEvents, `sendEvents, `pluginChan, `log
      reads Users(eventHistory)`id, Users(eventHistory)`nick, Users(broadcastEvents)`id, Users(broadcastEvents)`nick
      reads Users(sendEvents)`id, Users(sendEvents)`nick, Users(pluginChan)`id, Users(pluginChan)`nick
    {
      && Shows(eventHistory, log.history) && Shows(broadcastEvents, log.broadcast)
      && Shows(sendEvents, log.own) && Shows(pluginChan, log.plugins)
    }

    method PublishEvent(p: Published, member: bool)
      requires Valid()
      modifies `eventHistory, `broadcastEvents, `pluginChan, `log
      ensures Valid() && log == Both(old(log), Publish(View(p), member))
    {
      ShowsOneMore(eventHistory, log.history, p);
      ShowsOneMore(broadcastEvents, log.broadcast, p);
      ShowsOneMore(pluginChan, log.plugins, p);
      eventHistory := eventHistory + [p];
      broadcastEvents := broadcastEvents + [p];
      if member { pluginChan := pluginChan + [p]; }
      log := Both(log, Publish(View(p), member));
    }

    method WhisperEvent(p: Published, member: bool)
      requires Valid()
      modifies `sendEvents, `pluginChan, `log
      ensures Valid() && log == Both(old(log), Whisper(View(p), member))
    {
      ShowsOneMore(sendEvents, log.own, p);
      ShowsOneMore(pluginChan, log.plugins, p);
      if member {
        sendEvents := sendEvents + [p];
        pluginChan := pluginChan + [p];
      }
      log := Both(log, Whisper(View(p), member));
    }

    method LogOut(i: Input, now: Time)
      requires i.Frame?
      modifies `user
      ensures user == old(user) || fresh(user)
      ensures Current() == LoggedOut(old(Current()), i)
      ensures event == "logout" && old(user.id) != "" ==>
        fresh(user) && user.Who() == Profile(i.guest, i.guestNick, language)
      ensures event != "logout" || old(user.id) == "" ==> user == old(user)
    {
      if event == LOGOUT && user.id != "" {
        user := new Account(Profile(i.guest, i.guestNick, language), Some(map[]), now);
      }
    }

    method Authenticate(i: Input, now: Time) returns (ok: bool)
      requires i.Frame?
      modifies `user, `language
      ensures ok == Loaded(i).Some?
      ensures ok ==> fresh(user) && Current() == Become(old(Current()), Loaded(i).value)
      ensures !ok ==> user == old(user) && Current() == old(Current())
      ensures i.store.None? ==> ok && user.Who() == Profile(i.authenticated, i.authenticated, "en")
      ensures i.store.Some? && i.store.value.lookup.NotFound? ==>
        ok == i.store.value.accepts && (ok ==> user.Who() == Profile(i.authenticated, i.authenticated, "en"))
      ensures i.store.Some? && i.store.value.lookup.Found? ==> ok && user.Who() == i.store.value.lookup.profile
      ensures i.store.Some? && i.store.value.lookup.Failed? ==> !ok
      ensures ok ==> language == if user.language != "" then user.language else old(language)
    {
      var newUser := new Account(Profile(i.authenticated, "", ""), None, now);
      if i.store.Some? {
        match i.store.value.lookup
        case NotFound =>
          newUser.nick, newUser.language, newUser.lastOnline := newUser.id, DEFAULT_LANGUAGE, now;
          if !i.store.value.accepts { return false; }
        case Found(p) =>
          newUser.id, newUser.nick, newUser.language := p.id, p.nick, p.language;
        case Failed =>
          return false;
      } else {
        newUser.nick, newUser.language, newUser.lastOnline := newUser.id, DEFAULT_LANGUAGE, now;
      }
      user := newUser;
      if newUser.language != "" { language := newUser.language; }
      ok := true;
    }

    method LogIn(lib: Library, i: Input, now: Time) returns (ok: bool)
      requires i.Frame?
      modifies `user, `language, `replays
      ensures user == old(user) || fresh(user)
      ensures ok == LoggedIn(lib, old(Current()), i).Some?
      ensures Current() == if ok then LoggedIn(lib, old(Current()), i).value else old(Current())
    {
      if event == LOGIN {
        if data.login.None? { return false; }
        var m := data.login.value;
        var sendHistory := false;
        if Accepted(m, i) {
          sendHistory := true;
          ok := Authenticate(i, now);
          if !ok { return; }
        }
        if |m.language| > 1 && user.id != "" {
          language := lib.lower(m.language[..2]);
          sendHistory := true;
        }
        if sendHistory { replays := replays + 1; }
      }
      ok := true;
    }

    method Fill(i: Input)
      requires i.Frame?
      modifies `event, `data
      ensures Current() == Filled(old(Current()), i)
    {
      if i.event.Some? { event := i.event.value; }
      if i.data.Some? { data := i.data.value; }
    }

    method Identify(lib: Library, i: Input, now: Time) returns (ok: bool)
      requires Valid() && i.Frame?
      modifies `event, `data, `user, `language, `replays
      ensures Valid() && (user == old(user) || fresh(user))
      ensures var t := Identified(lib, old(Current()), i); ok == t.running && Current() == t.session
    {
      Fill(i);
      LogOut(i, now);
      ok := LogIn(lib, i, now);
    }

    method SendPrompt(lib: Library, member: bool)
      requires Valid()
      modifies `sendEvents, `pluginChan, `log, user`tags, user`lastOnline
      ensures Valid() && log == Both(old(log), Whisper(Prompt(lib, old(user.Who())), member))
    {
      var filter := "Target.User.Nick == " + lib.quote(user.nick);
      var p := CreateEvent(user, filter, DEFAULT_LANGUAGE, CHAT, map["message" := PLEASE_LOG_IN]);
      WhisperEvent(p, member);
    }

    method SendChat(m: ChatMessage, member: bool)
      requires Valid()
      modifies `eventHistory, `broadcastEvents, `pluginChan, `log, user`tags, user`lastOnline
      ensures Valid() && log == Both(old(log), Publish(Said(old(user.Who()), m), member))
    {
      var p := CreateEvent(user, m.filter, "", CHAT, map["message" := m.message, "mime_type" := "text/plain"]);
      PublishEvent(p, member);
    }

    method SendCommand(lib: Library, m: ChatMessage, member: bool)
      requires Valid() && HasPrefix(m.message, "/")
      modifies `sendEvents, `pluginChan, `log, user`tags, user`lastOnline
      ensures Valid() && log == Both(old(log), Whisper(Command(lib, old(user.Who()), m), member))
    {
      var tags := map["message" := m.message, "mime_type" := "text/plain", "original_target_filter" := m.filter];
      var own := "Target.User.Id == " + lib.quote(user.id);
      var filter := if m.filter != "" then "(" + m.filter + ") && " + own else own;
      var fields := Fields(m.message);
      Commands.SlashStartsAField(m.message);
      var args := if |fields| > 1 then Join(fields[1..], " ") else "";
      tags := tags["command" := fields[0]]["args" := args];
      var p := CreateEvent(user, filter, "", COMMAND, tags);
      WhisperEvent(p, member);
    }

    method SendCustom(name: string, m: OtherMessage, member: bool)
      requires Valid()
      modifies `eventHistory, `broadcastEvents, `pluginChan, `log
      ensures Valid() && log == Both(old(log), Publish(Custom(old(user.Who()), name, m), member))
    {
      var copy := new Account(user.Who(), user.tags, user.lastOnline);
      var p := CreateEvent(copy, m.filter, m.language, name, m.tags);
      PublishEvent(p, member);
    }

    method RouteMessage(lib: Library, member: bool) returns (ok: bool)
      requires Valid()
      modifies `eventHistory, `broadcastEvents, `sendEvents, `pluginChan, `log, user`tags, user`lastOnline
      ensures Valid()
      ensures var sent := Route(lib, old(Current()), member);
        ok == sent.Some? && log == if ok then Both(old(log), sent.value) else old(log)
    {
      ok := true;
      if user.id == "" {
        SendPrompt(lib, member);
      } else if event == CHAT {
        if data.chat.None? { return false; }
        var m := data.chat.value;
        if !HasPrefix(m.message, "/") { SendChat(m, member); } else { SendCommand(lib, m, member); }
      } else {
        if data.other.None? { return false; }
        SendCustom(event, data.other.value, member);
      }
    }

    method Receive(lib: Library, i: Input, now: Time) returns (running: bool)
      requires Valid()
      modifies this, user`tags, user`lastOnline
      ensures Valid() && (user == old(user) || fresh(user))
      ensures Outcome(Current(), log, running) == Resumed(old(log), Step(lib, old(Current()), i))
    {
      BothAssociates(log, NOTHING, NOTHING);
      running := false;
      if i.Frame? {
        running := Identify(lib, i, now);
        if running { running := RouteMessage(lib, i.member); }
      }
    }

    // Run in place: the records that were published on the way still show, at the end, what they showed when they
    // were sent.
    method ReadLoop(lib: Library, inputs: seq<Input>, now: Time) returns (running: bool)
      requires Valid()
      modifies this, user`tags, user`lastOnline
      ensures Valid()
      ensures Outcome(Current(), log, running) == Resumed(old(log), Run(lib, old(Current()), inputs))
    {
      ghost var s, before := Current(), log;
      BothAssociates(log, NOTHING, NOTHING);
      for n := 0 to |inputs|
        invariant Valid() && (user == old(user) || fresh(user))
        invariant Outcome(Current(), log, true) == Resumed(before, Run(lib, s, inputs[..n]))
      {
        ResumedOneMore(lib, before, s, inputs, n);
        running := Receive(lib, inputs[n], now);
        if !running {
          RunIsOver(lib, s, inputs, n + 1);
          return;
        }
      }
      assert inputs[..|inputs|] == inputs;
      running := true;
    }
  }

}
