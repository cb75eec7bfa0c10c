/**
Whose name an event carries: over every run of ReadLoop, the identity of the latest login or logout that took effect.
*/
module Identities {
  import opened Wrappers
  import opened Events
  import opened Text
  import opened ReadLoop
  import Commands

  // ---------------------------------------------------------------- identities, from the messages alone

  // The event and the data that the latest message stands for: parts that it lacks come from earlier messages.
  function LatestEvent(start: string, inputs: seq<Input>): string {
    if inputs == [] then start
    else
      var i := inputs[|inputs| - 1];
      if i.Frame? && i.event.Some? then i.event.value else LatestEvent(start, inputs[..|inputs| - 1])
  }

  function LatestData(start: Data, inputs: seq<Input>): Data {
    if inputs == [] then start
    else
      var i := inputs[|inputs| - 1];
      if i.Frame? && i.data.Some? then i.data.value else LatestData(start, inputs[..|inputs| - 1])
  }

  // The last message is a login whose token is accepted and whose user can be loaded or created.
  predicate IsLogin(s: Session, inputs: seq<Input>)
    requires inputs != []
  {
    var i := inputs[|inputs| - 1];
    var login := LatestData(s.data, inputs).login;
    i.Frame? && LatestEvent(s.event, inputs) == LOGIN && login.Some? && Accepted(login.value, i) && Loaded(i).Some?
  }

  // The last message is a logout of somebody.
  predicate IsLogout(s: Session, inputs: seq<Input>)
    requires inputs != []
    decreases |inputs|, 0
  {
    && inputs[|inputs| - 1].Frame? && LatestEvent(s.event, inputs) == LOGOUT
    && IdentityAfter(s, inputs[..|inputs| - 1]).id != ""
  }

  function IdentityAfter(s: Session, inputs: seq<Input>): Events.User
    decreases |inputs|, 1
  {
    if inputs == [] then Events.User(s.who.id, s.who.nick)
    else
      var i := inputs[|inputs| - 1];
      if IsLogin(s, inputs) then Events.User(Loaded(i).value.id, Loaded(i).value.nick)
      else if IsLogout(s, inputs) then Events.User(i.guest, i.guestNick)
      else IdentityAfter(s, inputs[..|inputs| - 1])
  }

  ghost predicate Takes(s: Session, inputs: seq<Input>, k: nat)
    requires k < |inputs|
  {
    IsLogin(s, inputs[..k + 1]) || IsLogout(s, inputs[..k + 1])
  }

  // A store that finds a user finds the one that was asked for.
  predicate Honest(i: Input) {
    i.Frame? && i.store.Some? && i.store.value.lookup.Found? ==>
      i.store.value.lookup.profile.id == i.authenticated
  }

  // The identity that message k brings.
  ghost predicate Brings(s: Session, inputs: seq<Input>, k: nat, user: Events.User)
    requires k < |inputs|
  {
    var i := inputs[k];
    && i.Frame?
    && (IsLogin(s, inputs[..k + 1]) ==>
      Loaded(i).Some? && user == Events.User(Loaded(i).value.id, Loaded(i).value.nick)
      && (Honest(i) ==> user.id == i.authenticated != ""))
    && (!IsLogin(s, inputs[..k + 1]) ==> user == Events.User(i.guest, i.guestNick))
  }

  ghost predicate IsLatest(s: Session, inputs: seq<Input>, k: nat) {
    k < |inputs| && Takes(s, inputs, k) && forall j :: k < j < |inputs| ==> !Takes(s, inputs, j)
  }

  lemma TakesInPrefix(s: Session, inputs: seq<Input>, n: nat, k: nat)
    requires k < n <= |inputs|
    ensures inputs[..n][..k + 1] == inputs[..k + 1] && Takes(s, inputs[..n], k) == Takes(s, inputs, k)
  {
    assert inputs[..n][..k + 1] == inputs[..k + 1];
  }

  lemma LatestInPrefix(s: Session, inputs: seq<Input>, n: nat, k: nat)
    requires k < n && n + 1 == |inputs| && IsLatest(s, inputs[..n], k) && !Takes(s, inputs, n)
    ensures IsLatest(s, inputs, k)
  {
    forall j | k <= j < n ensures Takes(s, inputs[..n], j) == Takes(s, inputs, j) { TakesInPrefix(s, inputs, n, j); }
  }

  // The identity is that of the latest login or logout that took effect, or the one that the client came with.
  lemma {:induction false} IdentityIsTheLatest(s: Session, inputs: seq<Input>)
    ensures
      || (IdentityAfter(s, inputs) == Events.User(s.who.id, s.who.nick) &&
          forall k :: 0 <= k < |inputs| ==> !Takes(s, inputs, k))
      || exists k: nat :: IsLatest(s, inputs, k) && Brings(s, inputs, k, IdentityAfter(s, inputs))
  {
    if inputs != [] {
      var n := |inputs| - 1;
      var init := inputs[..n];
      assert inputs[..n + 1] == inputs;
      if Takes(s, inputs, n) {
        assert IsLatest(s, inputs, n) && Brings(s, inputs, n, IdentityAfter(s, inputs));
      } else {
        IdentityIsTheLatest(s, init);
        if k: nat :| IsLatest(s, init, k) && Brings(s, init, k, IdentityAfter(s, init)) {
          LatestInPrefix(s, inputs, n, k);
          TakesInPrefix(s, inputs, n, k);
          assert Brings(s, inputs, k, IdentityAfter(s, inputs));
        } else {
          forall k | 0 <= k < n ensures !Takes(s, inputs, k) { TakesInPrefix(s, inputs, n, k); }
        }
      }
    }
  }

  // ---------------------------------------------------------------- the loop keeps to it

  predicate Follows(t: Session, s: Session, inputs: seq<Input>) {
    && Events.User(t.who.id, t.who.nick) == IdentityAfter(s, inputs)
    && t.event == LatestEvent(s.event, inputs) && t.data == LatestData(s.data, inputs)
  }

  lemma IdentifiedFollows(lib: Library, t: Session, s: Session, inputs: seq<Input>)
    requires inputs != [] && inputs[|inputs| - 1].Frame? && Follows(t, s, inputs[..|inputs| - 1])
    requires Identified(lib, t, inputs[|inputs| - 1]).running
    ensures Follows(Identified(lib, t, inputs[|inputs| - 1]).session, s, inputs)
  {
  }

  // As long as the loop runs.
  lemma {:induction false} SessionFollows(lib: Library, s: Session, inputs: seq<Input>)
    requires Run(lib, s, inputs).running
    ensures Follows(Run(lib, s, inputs).session, s, inputs)
  {
    if inputs != [] {
      var init := inputs[..|inputs| - 1];
      SessionFollows(lib, s, init);
      IdentifiedFollows(lib, Run(lib, s, init).session, s, inputs);
    }
  }

  // ---------------------------------------------------------------- what one message does to the user

  // The loop has ended, with nothing sent and the user and language as they were.
  predicate GaveUp(s: Session, o: Outcome) {
    !o.running && o.sent == NOTHING && o.session.who == s.who && o.session.language == s.language
  }

  // What an accepted token leads to: without a store a new user of that id, with one the user that it finds, or a new
  // one if it finds none and takes the new one; if it fails either way the loop ends.
  predicate IsAuthenticated(s: Session, i: Input, o: Outcome)
    requires i.Frame?
  {
    var created := Profile(i.authenticated, i.authenticated, "en");
    match i.store
    case None => o.session.who == created
    case Some(Store(NotFound, true)) => o.session.who == created
    case Some(Store(NotFound, false)) => GaveUp(s, o)
    case Some(Store(Found(p), _)) => o.session.who == p
    case Some(Store(Failed, _)) => GaveUp(s, o)
  }

  // A login with an accepted token brings a user or ends the loop, so does one that cannot be decoded, a logout of
  // somebody brings the guest, and any other message leaves the user alone.
  lemma UserAfterMessage(lib: Library, s: Session, i: Input)
    ensures
      var o := Step(lib, s, i);
      if i.Unreadable? then GaveUp(s, o)
      else
        var event := if i.event.Some? then i.event.value else s.event;
        var login := if i.data.Some? then i.data.value.login else s.data.login;
        if event == "login" then
          if login.None? then GaveUp(s, o)
          else if login.value.idToken != "" && login.value.provider != "" && i.authenticated != "" then
            IsAuthenticated(s, i, o)
          else o.session.who == s.who
        else if event == "logout" && s.who.id != "" then o.session.who == Profile(i.guest, i.guestNick, s.language)
        else o.session.who == s.who
  {
    if i.Frame? && i.store.Some? {
      match i.store.value.lookup case NotFound => case Found(_) => case Failed =>
    }
  }

  // The same at any point of a run.
  lemma UserAfterMessageOfRun(lib: Library, s: Session, inputs: seq<Input>, n: nat)
    requires n < |inputs| && Run(lib, s, inputs[..n]).running
    ensures
      var before, o := Run(lib, s, inputs[..n]).session, Run(lib, s, inputs[..n + 1]);
      && o.session == Step(lib, before, inputs[n]).session && o.running == Step(lib, before, inputs[n]).running
      && (IsTokenLogin(before, inputs[n]) ==>
            IsAuthenticated(before, inputs[n], Outcome(o.session, SentBy(lib, s, inputs, n), o.running)))
  {
    RunOneMore(lib, s, inputs, n);
    UserAfterMessage(lib, Run(lib, s, inputs[..n]).session, inputs[n]);
  }

  // A login message with a token that is accepted.
  predicate IsTokenLogin(s: Session, i: Input) {
    && i.Frame? && (if i.event.Some? then i.event.value else s.event) == "login"
    && var login := if i.data.Some? then i.data.value.login else s.data.login;
       login.Some? && login.value.idToken != "" && login.value.provider != "" && i.authenticated != ""
  }

  // What message k alone sends.
  function SentBy(lib: Library, s: Session, inputs: seq<Input>, k: nat): Sent
    requires k < |inputs|
  {
    var before := Run(lib, s, inputs[..k]);
    if before.running then Step(lib, before.session, inputs[k]).sent else NOTHING
  }

  // A run sends what its messages send, one after the other.
  lemma RunSendsInOrder(lib: Library, s: Session, inputs: seq<Input>, k: nat)
    requires k < |inputs|
    ensures Run(lib, s, inputs[..k + 1]).sent == Both(Run(lib, s, inputs[..k]).sent, SentBy(lib, s, inputs, k))
  {
    assert inputs[..k + 1][..k] == inputs[..k];
    BothAssociates(Run(lib, s, inputs[..k]).sent, NOTHING, NOTHING);
  }

  // Who speaks when message k is sent on, and what the message then says.
  lemma SpeakerOf(lib: Library, s: Session, inputs: seq<Input>, k: nat)
    requires k < |inputs| && Run(lib, s, inputs[..k]).running && inputs[k].Frame?
    requires Identified(lib, Run(lib, s, inputs[..k]).session, inputs[k]).running
    ensures
      Follows(Identified(lib, Run(lib, s, inputs[..k]).session, inputs[k]).session, s, inputs[..k + 1])
  {
    var upTo := inputs[..k + 1];
    assert upTo[..k] == inputs[..k] && upTo[k] == inputs[k];
    SessionFollows(lib, s, inputs[..k]);
    IdentifiedFollows(lib, Run(lib, s, inputs[..k]).session, s, upTo);
  }

  // A published event is a chat message without a slash or a custom event, and it says who is logged in.
  ghost predicate IsPublished(s: Session, inputs: seq<Input>, k: nat, e: Event)
    requires k < |inputs|
  {
    var upTo := inputs[..k + 1];
    var data := LatestData(s.data, upTo);
    && IdentityAfter(s, upTo).id != "" && e.source == Source(IdentityAfter(s, upTo), "")
    && if LatestEvent(s.event, upTo) == CHAT then
         && e.name == CHAT && data.chat.Some? && !HasPrefix(data.chat.value.message, "/")
         && e.targetFilter == data.chat.value.filter && e.language == ""
         && e.tags == map["message" := data.chat.value.message, "mime_type" := "text/plain"]
       else
         && e.name == LatestEvent(s.event, upTo) && data.other.Some?
         && e.targetFilter == data.other.value.filter && e.language == data.other.value.language
         && e.tags == data.other.value.tags
  }

  // The store fails, or finds no such user and does not take a new one.
  predicate LoadFails(i: Input)
    requires i.Frame?
  {
    i.store.Some? && (i.store.value.lookup.Failed? || (i.store.value.lookup.NotFound? && !i.store.value.accepts))
  }

  lemma LoadFailsIff(i: Input)
    requires i.Frame?
    ensures LoadFails(i) <==> Loaded(i).None?
  {
  }

  // The last message ends the loop before anything is sent.
  predicate GivesUp(s: Session, upTo: seq<Input>)
    requires upTo != []
  {
    var i := upTo[|upTo| - 1];
    var login := LatestData(s.data, upTo).login;
    || i.Unreadable?
    || (LatestEvent(s.event, upTo) == LOGIN && (login.None? || (Accepted(login.value, i) && LoadFails(i))))
  }

  // Somebody is logged in, and the last message can be decoded and is no command line.
  predicate IsPublic(s: Session, upTo: seq<Input>) {
    var data := LatestData(s.data, upTo);
    && IdentityAfter(s, upTo).id != ""
    && if LatestEvent(s.event, upTo) == CHAT then data.chat.Some? && !HasPrefix(data.chat.value.message, "/")
       else data.other.Some?
  }

  lemma IdentifiedRunsIff(lib: Library, t: Session, i: Input)
    requires i.Frame?
    ensures
      var f := Filled(t, i);
      Identified(lib, t, i).running <==>
        !(f.event == LOGIN && (f.data.login.None? || (Accepted(f.data.login.value, i) && LoadFails(i))))
  {
    LoadFailsIff(i);
  }

  lemma FilledIsLatest(t: Session, s: Session, init: seq<Input>, i: Input)
    requires i.Frame? && t.event == LatestEvent(s.event, init) && t.data == LatestData(s.data, init)
    ensures Filled(t, i).event == LatestEvent(s.event, init + [i])
    ensures Filled(t, i).data == LatestData(s.data, init + [i])
  {
    assert (init + [i])[..|init|] == init;
  }

  lemma IdentifiedUnlessGivenUp(lib: Library, s: Session, inputs: seq<Input>, k: nat)
    requires k < |inputs| && Run(lib, s, inputs[..k]).running && inputs[k].Frame?
    ensures Identified(lib, Run(lib, s, inputs[..k]).session, inputs[k]).running <==> !GivesUp(s, inputs[..k + 1])
  {
    var t := Run(lib, s, inputs[..k]).session;
    SessionFollows(lib, s, inputs[..k]);
    IdentifiedRunsIff(lib, t, inputs[k]);
    FilledIsLatest(t, s, inputs[..k], inputs[k]);
    var upTo := inputs[..k + 1];
    assert upTo == inputs[..k] + [inputs[k]] && upTo[|upTo| - 1] == inputs[k];
    assert GivesUp(s, upTo) <==> !Identified(lib, t, inputs[k]).running;
  }

  lemma PublicRoute(lib: Library, s: Session, inputs: seq<Input>, k: nat, t: Session, member: bool)
    requires k < |inputs| && Follows(t, s, inputs[..k + 1])
    ensures
      var sent := Route(lib, t, member);
      var history := if sent.Some? then sent.value.history else [];
      && (sent.Some? ==> sent.value.broadcast == history)
      && if IsPublic(s, inputs[..k + 1]) then
           && (exists e :: history == [e] && IsPublished(s, inputs, k, e))
           && sent.Some? && sent.value.own == [] && sent.value.plugins == if member then history else []
         else history == []
  {
    if IsPublic(s, inputs[..k + 1]) {
      var e := if t.event == CHAT then Said(t.who, t.data.chat.value) else Custom(t.who, t.event, t.data.other.value);
      assert Route(lib, t, member).value.history == [e] && IsPublished(s, inputs, k, e);
    }
  }

  // For every message of every run: history and all clients get the same, one event for a public message that the
  // loop gets to and nothing for any other, and that event carries the identity of the latest login or logout.  The
  // plugins get it too if the client is a member.
  lemma PublishedUnderLatestIdentity(lib: Library, s: Session, inputs: seq<Input>, k: nat)
    requires k < |inputs|
    ensures
      var sent := SentBy(lib, s, inputs, k);
      && sent.history == sent.broadcast
      && if Run(lib, s, inputs[..k]).running && !GivesUp(s, inputs[..k + 1]) && IsPublic(s, inputs[..k + 1])
         then
           && (exists e :: sent.history == [e] && IsPublished(s, inputs, k, e))
           && inputs[k].Frame? && sent.own == [] && sent.plugins == if inputs[k].member then sent.history else []
         else sent.history == []
  {
    var before := Run(lib, s, inputs[..k]);
    if before.running && inputs[k].Frame? {
      IdentifiedUnlessGivenUp(lib, s, inputs, k);
      if !GivesUp(s, inputs[..k + 1]) {
        SpeakerOf(lib, s, inputs, k);
        PublicRoute(lib, s, inputs, k, Identified(lib, before.session, inputs[k]).session, inputs[k].member);
      }
    }
  }

  // Over the whole run.
  lemma {:induction false} RunIsAttributed(lib: Library, s: Session, inputs: seq<Input>)
    ensures Run(lib, s, inputs).sent.history == Run(lib, s, inputs).sent.broadcast
    ensures forall e <- Run(lib, s, inputs).sent.history ::
      exists k: nat :: k < |inputs| && IsPublished(s, inputs, k, e)
  {
    if inputs != [] {
      var n := |inputs| - 1;
      assert inputs[..n + 1] == inputs;
      RunIsAttributed(lib, s, inputs[..n]);
      RunSendsInOrder(lib, s, inputs, n);
      PublishedUnderLatestIdentity(lib, s, inputs, n);
      forall e | e in Run(lib, s, inputs[..n]).sent.history
        ensures exists k: nat :: k < |inputs| && IsPublished(s, inputs, k, e)
      {
        var k: nat :| k < n && IsPublished(s, inputs[..n], k, e);
        assert inputs[..n][..k + 1] == inputs[..k + 1];
        assert IsPublished(s, inputs, k, e);
      }
    }
  }

  ghost predicate EndsWith(s: string, end: string) { exists front :: s == front + end }

  // The message is a chat message with a slash, from somebody.
  predicate IsCommandLine(s: Session, upTo: seq<Input>) {
    var chat := LatestData(s.data, upTo).chat;
    && IdentityAfter(s, upTo).id != "" && LatestEvent(s.event, upTo) == CHAT
    && chat.Some? && HasPrefix(chat.value.message, "/")
  }

  // What a client is told or tells the plugins alone: a request to log in, for its own nick, or its command, described
  // in the tags and limited to its own id by the last part of the filter.
  ghost predicate IsPrivate(lib: Library, s: Session, upTo: seq<Input>, e: Event) {
    var user := IdentityAfter(s, upTo);
    && e.source == Source(user, "")
    && if user.id == "" then
         && e.name == CHAT && e.language == "en" && e.targetFilter == "Target.User.Nick == " + lib.quote(user.nick)
         && e.tags == map["message" := PLEASE_LOG_IN]
       else
         var chat := LatestData(s.data, upTo).chat;
         && chat.Some? && e.language == "" && Commands.Describes(e, chat.value.message, chat.value.filter)
         && EndsWith(e.targetFilter, "Target.User.Id == " + lib.quote(user.id))
  }

  lemma CommandIsOwn(lib: Library, p: Profile, m: ChatMessage)
    requires HasPrefix(m.message, "/")
    ensures Commands.Describes(Command(lib, p, m), m.message, m.filter)
    ensures EndsWith(Command(lib, p, m).targetFilter, "Target.User.Id == " + lib.quote(p.id))
  {
    var own := "Target.User.Id == " + lib.quote(p.id);
    Commands.CommandEventDescribes(lib.quote, Events.User(p.id, p.nick), m.message, m.filter, "");
    assert own == "" + own;
    if m.filter != "" { assert Command(lib, p, m).targetFilter == ("(" + m.filter + ") && ") + own; }
  }

  // Nobody is logged in, or the message is a command line: history and other clients get nothing, this client and the
  // plugins get the same, one private event exactly if the loop gets to the message and the client is a member.
  lemma PrivateMessagesStayPrivate(lib: Library, s: Session, inputs: seq<Input>, k: nat)
    requires k < |inputs|
    requires IdentityAfter(s, inputs[..k + 1]).id == "" || IsCommandLine(s, inputs[..k + 1])
    ensures
      var sent := SentBy(lib, s, inputs, k);
      && sent.history == [] == sent.broadcast && sent.own == sent.plugins
      && if Run(lib, s, inputs[..k]).running && !GivesUp(s, inputs[..k + 1]) && inputs[k].Frame? && inputs[k].member
         then exists e :: sent.own == [e] && IsPrivate(lib, s, inputs[..k + 1], e)
         else sent.own == []
  {
    var before := Run(lib, s, inputs[..k]);
    if before.running && inputs[k].Frame? {
      IdentifiedUnlessGivenUp(lib, s, inputs, k);
      if !GivesUp(s, inputs[..k + 1]) {
        SpeakerOf(lib, s, inputs, k);
        PrivateRoute(lib, s, inputs[..k + 1], Identified(lib, before.session, inputs[k]).session, inputs[k].member);
      }
    }
  }

  // The loop goes on exactly after messages that it gets to and that are public or private.
  lemma RunsOnIff(lib: Library, s: Session, inputs: seq<Input>, k: nat)
    requires k < |inputs|
    ensures
      var upTo := inputs[..k + 1];
      Run(lib, s, upTo).running <==>
        && Run(lib, s, inputs[..k]).running && !GivesUp(s, upTo)
        && (IdentityAfter(s, upTo).id == "" || IsCommandLine(s, upTo) || IsPublic(s, upTo))
  {
    var upTo, before := inputs[..k + 1], Run(lib, s, inputs[..k]);
    assert upTo[..k] == inputs[..k] && upTo[k] == inputs[k];
    if before.running && inputs[k].Frame? {
      IdentifiedUnlessGivenUp(lib, s, inputs, k);
      if !GivesUp(s, upTo) { SpeakerOf(lib, s, inputs, k); }
    }
  }

  lemma PrivateRoute(lib: Library, s: Session, upTo: seq<Input>, t: Session, member: bool)
    requires Follows(t, s, upTo) && (t.who.id == "" || IsCommandLine(s, upTo))
    ensures
      var sent := Route(lib, t, member);
      && sent.Some? && sent.value.history == [] == sent.value.broadcast && sent.value.own == sent.value.plugins
      && if member then exists e :: sent.value.own == [e] && IsPrivate(lib, s, upTo, e) else sent.value.own == []
  {
    var e := if t.who.id == "" then Prompt(lib, t.who) else Command(lib, t.who, t.data.chat.value);
    if t.who.id != "" { CommandIsOwn(lib, t.who, t.data.chat.value); }
    assert IsPrivate(lib, s, upTo, e);
    if member { assert Route(lib, t, member).value.own == [e]; }
  }

  // ---------------------------------------------------------------- languages and replays, from the messages alone

  // The last message is a login that the loop gets through and that asks for a language for somebody.
  predicate AsksForLanguage(s: Session, inputs: seq<Input>)
    requires inputs != []
  {
    var login := LatestData(s.data, inputs).login;
    && !GivesUp(s, inputs) && LatestEvent(s.event, inputs) == LOGIN
    && |login.value.language| > 1 && IdentityAfter(s, inputs).id != ""
  }

  // The client's language is the one that the latest login asked for or, failing that, that of the user it loaded.
  function LanguageAfter(lib: Library, s: Session, inputs: seq<Input>): string {
    if inputs == [] then s.language
    else if AsksForLanguage(s, inputs) then lib.lower(LatestData(s.data, inputs).login.value.language[..2])
    else if IsLogin(s, inputs) && Loaded(inputs[|inputs| - 1]).value.language != "" then
      Loaded(inputs[|inputs| - 1]).value.language
    else LanguageAfter(lib, s, inputs[..|inputs| - 1])
  }

  // How often the history has been replayed: once for each login that takes effect or asks for a language.
  function ReplaysAfter(s: Session, inputs: seq<Input>): nat {
    if inputs == [] then s.replays
    else ReplaysAfter(s, inputs[..|inputs| - 1]) + if IsLogin(s, inputs) || AsksForLanguage(s, inputs) then 1 else 0
  }

  lemma LanguageOfStep(lib: Library, t: Session, s: Session, inputs: seq<Input>, t': Session)
    requires inputs != [] && inputs[|inputs| - 1].Frame? && Follows(t, s, inputs[..|inputs| - 1])
    requires
      var o := Identified(lib, t, inputs[|inputs| - 1]);
      o.running && t' == o.session && Follows(t', s, inputs)
    ensures
      var i := inputs[|inputs| - 1];
      && t'.language ==
           (if AsksForLanguage(s, inputs) then lib.lower(LatestData(s.data, inputs).login.value.language[..2])
            else if IsLogin(s, inputs) && Loaded(i).value.language != "" then Loaded(i).value.language
            else t.language)
      && t'.replays == t.replays + if IsLogin(s, inputs) || AsksForLanguage(s, inputs) then 1 else 0
  {
    LoadFailsIff(inputs[|inputs| - 1]);
  }

  // As long as the loop runs, language and replays are what the logins among the messages make them.
  lemma {:induction false} LanguageFollows(lib: Library, s: Session, inputs: seq<Input>)
    requires Run(lib, s, inputs).running
    ensures
      var t := Run(lib, s, inputs).session;
      t.language == LanguageAfter(lib, s, inputs) && t.replays == ReplaysAfter(s, inputs)
  {
    if inputs != [] {
      var init := inputs[..|inputs| - 1];
      LanguageFollows(lib, s, init);
      SessionFollows(lib, s, init);
      SessionFollows(lib, s, inputs);
      LanguageOfStep(lib, Run(lib, s, init).session, s, inputs, Run(lib, s, inputs).session);
    }
  }

  // ---------------------------------------------------------------- commands by name

  // Commands are told apart by the slash, not by the name: a published event is named "command" exactly if the client
  // named its own message so.
  lemma CommandNameIsPublishedIff(lib: Library, s: Session, inputs: seq<Input>, k: nat)
    requires k < |inputs| && SentBy(lib, s, inputs, k).history != []
    ensures SentBy(lib, s, inputs, k).history[0].name == COMMAND <==> LatestEvent(s.event, inputs[..k + 1]) == COMMAND
  {
    PublishedUnderLatestIdentity(lib, s, inputs, k);
  }

}
