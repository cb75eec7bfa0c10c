/**
Slash commands: ReadLoop takes a command line apart once, the base-commands plugin takes it apart again.
*/
module Commands {
  import opened Wrappers
  import opened Events
  import opened Sequences
  import opened Text

  const PLUGIN_NAME := "base-commands"
  const HELP_COMMAND := "/help"
  const TO_COMMAND := "/to"
  const FG_COMMAND := "/fg"
  const TEXT_LANGUAGE := "en-US"
  const HELP_TEXT :=
    "### Base commands plugin ###\n -> /to <nick> <message> - send private message to <nick>\n" +
    " -> /fg <color> <message> - use <color> as text color"

  // strconv.Quote
  type Quote = string -> string

  // ---------------------------------------------------------------- the first tokenisation

  lemma {:induction false} SlashStartsAField(message: string)
    requires HasPrefix(message, "/")
    ensures Fields(message) != [] && HasPrefix(message, Fields(message)[0])
  {
    assert message[0] == '/';
    var w := FirstWord(message);
    assert message == w + message[|w|..];
  }

  // The command event that ReadLoop builds for a message that starts with a slash.
  function CommandEvent(quote: Quote, user: User, message: string, filter: string, language: string): Event
    requires HasPrefix(message, "/")
  {
    SlashStartsAField(message);
    var own := "Target.User.Id == " + quote(user.id);
    var fields := Fields(message);
    var args := if |fields| > 1 then Join(fields[1..], " ") else "";
    NewEvent(Source(user, ""), if filter != "" then "(" + filter + ") && " + own else own, language, COMMAND,
             map["message" := message, "mime_type" := "text/plain", "original_target_filter" := filter,
                 "command" := fields[0], "args" := args])
  }

  // ---------------------------------------------------------------- the second tokenisation

  // What a handler finds: the first argument, the word that it cuts off the message, and the text that is left.
  datatype Cut = Cut(argument: string, word: string, text: string)

  // The common part of the handlers of /to and /fg.
  function CutCommand(e: Event, command: string): Option<Cut> {
    if e.name != COMMAND then None
    else if "command" !in e.tags || e.tags["command"] != command then None
    else if "args" !in e.tags || e.tags["args"] == "" then None
    else
      var fields := Fields(e.tags["args"]);
      if |fields| == 0 then None
      else if "message" !in e.tags || !HasPrefix(e.tags["message"], command) then None
      else if |e.tags["message"]| < |command| + 1 then None
      else CutText(TrimSpace(e.tags["message"][|command|..]), fields[0])
  }

  function CutText(message: string, argument: string): Option<Cut> {
    var fields := Fields(message);
    if |fields| == 0 then None
    else if |message| < |fields[0]| then None
    else
      var text := TrimSpace(message[|fields[0]|..]);
      if |text| == 0 then None else Some(Cut(argument, fields[0], text))
  }

  function Tag(tags: Tags, name: string, default: string): string { if name in tags then tags[name] else default }

  function ToFilter(quote: Quote, e: Event, nick: string): string {
    var target := "Target.User.Nick == " + quote(nick);
    var user := e.source.user;
    var both :=
      if user.id != "" && e.source.pluginName == "" then "(" + target + " || Target.User.Id == " + quote(user.id) + ")"
      else if user.nick != "" && e.source.pluginName == "" then
        "(" + target + " || Target.User.Nick == " + quote(user.nick) + ")"
      else target;
    var original := Tag(e.tags, "original_target_filter", "");
    if original != "" then both + " && (" + original + ")" else both
  }

  function HandleToCommand(quote: Quote, e: Event): seq<Event> {
    match CutCommand(e, TO_COMMAND)
    case None => []
    case Some(cut) =>
      [NewEvent(Source(e.source.user, PLUGIN_NAME), ToFilter(quote, e, cut.argument), e.language, CHAT,
                map["message" := cut.text, "mime_type" := Tag(e.tags, "mime_type", "text/plain")])]
  }

  function HandleFgCommand(e: Event): seq<Event> {
    match CutCommand(e, FG_COMMAND)
    case None => []
    case Some(cut) =>
      [NewEvent(Source(e.source.user, PLUGIN_NAME), "", e.language, CHAT,
                map["message" := cut.text, "mime_type" := Tag(e.tags, "mime_type", "text/plain"),
                    "fg_color" := cut.argument])]
  }

  function HandleHelpCommand(quote: Quote, e: Event): seq<Event> {
    [NewEvent(Source(e.source.user, PLUGIN_NAME), "Target.User.Id == " + quote(e.source.user.id), TEXT_LANGUAGE, CHAT,
              map["message" := HELP_TEXT, "mime_type" := "text/plain"])]
  }

  function Answer(quote: Quote, e: Event): seq<Event> {
    if e.name != COMMAND || "command" !in e.tags then []
    else if e.tags["command"] == TO_COMMAND then HandleToCommand(quote, e)
    else if e.tags["command"] == FG_COMMAND then HandleFgCommand(e)
    else if e.tags["command"] == HELP_COMMAND then HandleHelpCommand(quote, e)
    else []
  }

  function Answers(quote: Quote, events: seq<Event>): seq<Event> {
    if events == [] then [] else Answers(quote, events[..|events| - 1]) + Answer(quote, events[|events| - 1])
  }

  // ---------------------------------------------------------------- the two agree

  // What it means to cut the n-th word off a line: there is a result exactly if there are more words, and it consists
  // of the argument, that word, and what is left behind it, trimmed, white space inside it included.
  ghost predicate IsCut(r: Option<Cut>, argument: string, line: string, n: nat)
    requires n >= 1
  {
    var words := Fields(line);
    match r
    case None => |words| <= n
    case Some(cut) =>
      && |words| > n && cut.argument == argument && cut.word == words[n - 1]
      && Fields(cut.text) == words[n..] && IsRemainder(cut.text, line, n)
  }

  lemma CutTextAgrees(message: string, argument: string)
    requires message == "" || !IsSpace(message[0])
    ensures IsCut(CutText(message, argument), argument, message, 1)
  {
    if message != "" {
      var w := FirstWord(message);
      var rest := message[|w|..];
      assert message == w + rest;
      FieldsOfWord(w, rest);
      FieldsOfTrimSpace(rest);
      TrimSpaceEmpty(rest);
      if TrimSpace(rest) != "" { RemainderOfWord(w, rest); }
    }
  }

  // Cutting the n-th word off a trimmed text is cutting the word after it off with one more word in front.
  lemma CutBehindWord(r: Option<Cut>, argument: string, w: string, rest: string, n: nat)
    requires n >= 1 && IsWord(w) && IsTail(rest) && IsCut(r, argument, TrimSpace(rest), n)
    ensures IsCut(r, argument, w + rest, n + 1)
  {
    FieldsOfWord(w, rest);
    FieldsOfTrimSpace(rest);
    if r.Some? { RemainderBehindWord(w, rest, r.value.text, n); }
  }

  // What the tags of a command event say about the line it was made from.
  ghost predicate Describes(e: Event, message: string, filter: string) {
    var words := Fields(message);
    && e.name == COMMAND && words != []
    && "command" in e.tags && e.tags["command"] == words[0]
    && "args" in e.tags && e.tags["args"] == (if |words| > 1 then Join(words[1..], " ") else "")
    && "message" in e.tags && e.tags["message"] == message
    && "original_target_filter" in e.tags && e.tags["original_target_filter"] == filter
    && "mime_type" in e.tags && e.tags["mime_type"] == "text/plain"
  }

  lemma CommandEventDescribes(quote: Quote, user: User, message: string, filter: string, language: string)
    requires HasPrefix(message, "/")
    ensures Describes(CommandEvent(quote, user, message, filter, language), message, filter)
  {
  }

  lemma OneWord(message: string)
    requires IsWord(message)
    ensures Fields(message) == [message]
  {
    assert message + "" == message;
    FieldsOfWord(message, "");
  }

  lemma LineGoesOn(message: string, command: string)
    requires HasPrefix(message, command) && |Fields(message)| > 1 && Fields(message)[0] == command
    ensures |message| > |command|
  {
    assert message[..|command|] == command;
    if |message| == |command| { OneWord(message); }
  }

  lemma ArgumentOfLine(e: Event, message: string, filter: string, command: string)
    requires Describes(e, message, filter) && HasPrefix(message, command) && Fields(message)[0] == command
    ensures
      var words := Fields(message);
      CutCommand(e, command) == if |words| < 2 then None else CutText(TrimSpace(message[|command|..]), words[1])
  {
    var words := Fields(message);
    if |words| > 1 {
      FieldsOfJoin(words[1..]);
      ArgsAreVisible(words[1..]);
      LineGoesOn(message, command);
    }
  }

  lemma LineStarts(message: string, command: string)
    requires HasPrefix(message, command) && Fields(message) != [] && Fields(message)[0] == command
    ensures
      var rest := message[|command|..];
      message == command + rest && IsWord(command) && IsTail(rest) && Fields(message) == [command] + Fields(rest)
  {
    assert IsWord(Fields(message)[0]) && message[0] == command[0];
  }

  // For every command line whose first word is the command: the handler finds something exactly if there are at least
  // three words, the argument it takes from args is the word that it cuts from the message, the second of the line,
  // and the text it keeps is the line behind that word, trimmed.
  lemma TokenisationsAgree(e: Event, message: string, filter: string, command: string)
    requires Describes(e, message, filter) && HasPrefix(message, "/") && Fields(message)[0] == command
    ensures
      var words := Fields(message);
      match CutCommand(e, command)
      case None => |words| < 3
      case Some(cut) => |words| >= 3 && cut.argument == words[1] == cut.word && IsTextOf(cut.text, message)
  {
    var words := Fields(message);
    SlashStartsAField(message);
    ArgumentOfLine(e, message, filter, command);
    if |words| > 1 {
      var rest := message[|command|..];
      LineStarts(message, command);
      TrimSpaceStarts(rest);
      CutTextAgrees(TrimSpace(rest), words[1]);
      CutBehindWord(CutText(TrimSpace(rest), words[1]), words[1], command, rest, 1);
    }
  }

  // The text of a command: the line behind its second word, trimmed.  There is only one such text.
  ghost predicate IsTextOf(text: string, message: string) {
    |Fields(message)| >= 2 && Fields(text) == Fields(message)[2..] && IsRemainder(text, message, 2)
  }

  lemma ArgsAreVisible(words: seq<string>)
    requires words != [] && IsWord(words[0])
    ensures Join(words, " ") != ""
  {
  }

  // Who gets a private message: the named nick and its sender, within the sender's own filter.  A sender without an id
  // is known by its nick, one that is a plugin or has neither is left out.
  ghost predicate IsAddressed(quote: Quote, e: Event, nick: string, filter: string, targetFilter: string) {
    var user := e.source.user;
    var sender :=
      if e.source.pluginName != "" || (user.id == "" && user.nick == "") then ""
      else if user.id != "" then " || Target.User.Id == " + quote(user.id)
      else " || Target.User.Nick == " + quote(user.nick);
    var both := "Target.User.Nick == " + quote(nick) + sender;
    var limited := if sender == "" then both else "(" + both + ")";
    targetFilter == limited + if filter == "" then "" else " && (" + filter + ")"
  }

  lemma ToFilterIsAddressed(quote: Quote, e: Event, nick: string)
    ensures IsAddressed(quote, e, nick, Tag(e.tags, "original_target_filter", ""), ToFilter(quote, e, nick))
  {
    var user, target := e.source.user, "Target.User.Nick == " + quote(nick);
    var original := Tag(e.tags, "original_target_filter", "");
    ConcatFour("(", target, " || Target.User.Id == ", quote(user.id), ")");
    ConcatFour("(", target, " || Target.User.Nick == ", quote(user.nick), ")");
    assert target + "" == target && ToFilter(quote, e, nick) + "" == ToFilter(quote, e, nick);
    ConcatFilter(if original == "" then ToFilter(quote, e, nick) else "", original);
  }

  lemma ConcatFour(a: string, b: string, c: string, d: string, e: string)
    ensures a + b + c + d + e == a + (b + (c + d)) + e
  {
  }

  lemma ConcatFilter(both: string, filter: string)
    ensures both + " && (" + filter + ")" == both + (" && (" + filter + ")")
  {
  }

  // The answer to a command line: one chat event for three words or more, none otherwise.  It carries the text behind
  // the second word; for /to that word says who gets it, for /fg it is the colour.
  ghost predicate IsLineAnswer(quote: Quote, e: Event, message: string, filter: string, out: seq<Event>) {
    var words := Fields(message);
    if |words| < 3 then out == []
    else
      && |out| == 1 && out[0].name == CHAT && out[0].language == e.language
      && out[0].source == Source(e.source.user, PLUGIN_NAME)
      && "message" in out[0].tags && IsTextOf(out[0].tags["message"], message)
      && "mime_type" in out[0].tags && out[0].tags["mime_type"] == "text/plain"
      && if words[0] == "/to" then
           IsAddressed(quote, e, words[1], filter, out[0].targetFilter) && "fg_color" !in out[0].tags
         else
           out[0].targetFilter == "" && "fg_color" in out[0].tags && out[0].tags["fg_color"] == words[1]
  }

  lemma ToCommandAgrees(quote: Quote, e: Event, message: string, filter: string)
    requires Describes(e, message, filter) && HasPrefix(message, "/") && Fields(message)[0] == TO_COMMAND
    ensures IsLineAnswer(quote, e, message, filter, HandleToCommand(quote, e))
  {
    TokenisationsAgree(e, message, filter, TO_COMMAND);
    if |Fields(message)| >= 3 { ToFilterIsAddressed(quote, e, Fields(message)[1]); }
  }

  lemma FgCommandAgrees(quote: Quote, e: Event, message: string, filter: string)
    requires Describes(e, message, filter) && HasPrefix(message, "/") && Fields(message)[0] == FG_COMMAND
    ensures IsLineAnswer(quote, e, message, filter, HandleFgCommand(e))
  {
    TokenisationsAgree(e, message, filter, FG_COMMAND);
  }

  // ---------------------------------------------------------------- the plugin

  ghost predicate IsHelpAnswer(quote: Quote, e: Event, out: seq<Event>) {
    && |out| == 1 && out[0].name == CHAT && out[0].language == TEXT_LANGUAGE
    && out[0].source == Source(e.source.user, PLUGIN_NAME)
    && out[0].tags == map["message" := HELP_TEXT, "mime_type" := "text/plain"]
    && out[0].targetFilter == "Target.User.Id == " + quote(e.source.user.id)
  }

  // The command line that an event describes.
  ghost predicate IsLine(e: Event) {
    && "message" in e.tags && "original_target_filter" in e.tags && HasPrefix(e.tags["message"], "/")
    && Describes(e, e.tags["message"], e.tags["original_target_filter"])
  }

  // There is nothing behind the command, or the message does not start with it.
  predicate LacksArguments(e: Event, command: string) {
    || "args" !in e.tags || Fields(e.tags["args"]) == []
    || "message" !in e.tags || !HasPrefix(e.tags["message"], command)
  }

  // The plugin's answer to one event: to /to and /fg as to the line they describe, to /help the help text for the
  // sender alone, to anything else nothing.
  ghost predicate IsAnswer(quote: Quote, e: Event, out: seq<Event>) {
    if e.name != COMMAND || "command" !in e.tags then out == []
    else if e.tags["command"] == "/to" || e.tags["command"] == "/fg" then
      && (IsLine(e) ==> IsLineAnswer(quote, e, e.tags["message"], e.tags["original_target_filter"], out))
      && (LacksArguments(e, e.tags["command"]) ==> out == [])
    else if e.tags["command"] == "/help" then IsHelpAnswer(quote, e, out)
    else out == []
  }

  lemma CommandIsAnswered(quote: Quote, e: Event)
    ensures IsAnswer(quote, e, Answer(quote, e))
  {
    if IsLine(e) {
      var message, filter := e.tags["message"], e.tags["original_target_filter"];
      if e.tags["command"] == "/to" { ToCommandAgrees(quote, e, message, filter); }
      if e.tags["command"] == "/fg" { FgCommandAgrees(quote, e, message, filter); }
    }
  }

  // The answers to the events, one after the other.
  ghost predicate AreAnswers(quote: Quote, events: seq<Event>, out: seq<Event>) {
    exists parts ::
      && |parts| == |events| && out == Flatten(parts)
      && forall i :: 0 <= i < |events| ==> IsAnswer(quote, events[i], parts[i])
  }

  lemma {:induction false} AnswersAreFlat(quote: Quote, events: seq<Event>, parts: seq<seq<Event>>)
    requires |parts| == |events| && forall i :: 0 <= i < |events| ==> parts[i] == Answer(quote, events[i])
    ensures Answers(quote, events) == Flatten(parts)
  {
    if events != [] { AnswersAreFlat(quote, events[..|events| - 1], parts[..|parts| - 1]); }
  }

  lemma EachIsAnswer(quote: Quote, events: seq<Event>, parts: seq<seq<Event>>)
    requires |parts| == |events| && forall i :: 0 <= i < |events| ==> parts[i] == Answer(quote, events[i])
    ensures forall i :: 0 <= i < |events| ==> IsAnswer(quote, events[i], parts[i])
  {
    forall i | 0 <= i < |events| ensures IsAnswer(quote, events[i], parts[i]) { CommandIsAnswered(quote, events[i]); }
  }

  lemma AnswersAreAnswers(quote: Quote, events: seq<Event>)
    ensures AreAnswers(quote, events, Answers(quote, events))
  {
    var parts := seq(|events|, i requires 0 <= i < |events| => Answer(quote, events[i]));
    AnswersAreFlat(quote, events, parts);
    EachIsAnswer(quote, events, parts);
  }

  // The plugin answers every event by itself, in order; events that are no known command add nothing.
  method HandleEvents(quote: Quote, events: seq<Event>) returns (outEvents: seq<Event>)
    ensures outEvents == Answers(quote, events)
    ensures AreAnswers(quote, events, outEvents)
    ensures |outEvents| <= |events|
  {
    outEvents := [];
    for i := 0 to |events|
      invariant outEvents == Answers(quote, events[..i]) && |outEvents| <= i
    {
      assert events[..i + 1][..i] == events[..i];
      var event := events[i];
      if event.name == COMMAND && "command" in event.tags {
        var res := Answer(quote, event);
        if |res| > 0 {
          outEvents := outEvents + res;
        }
      }
    }
    assert events[..|events|] == events;
    AnswersAreAnswers(quote, events);
  }

}
