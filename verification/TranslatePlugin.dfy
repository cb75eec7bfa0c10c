/**
The events that the translate plugin answers with, given a faithful cache.
*/
module TranslatePlugin {
  import opened Wrappers
  import opened Events
  import opened Sequences
  import opened Text
  import opened TranslationCache

  const PLUGIN_NAME := "google-translate"
  const HELP_COMMAND := "/help"
  const TEXT_LANGUAGE := "en-US"
  const HELP_TEXT :=
    "### " + "Translator plugin ###\n -> all chat messages are automatically translated into all supported " +
    "languages, no further commands are required"

  type Languages = seq<string>

  predicate AreLong(langs: Languages) { forall i :: 0 <= i < |langs| ==> |langs[i]| >= 2 }

  // The translation of a chat event into one language.
  function TranslationEvent(svc: Service, e: Event, language: string, text: string): Event
    requires |language| >= 2
  {
    var clause := "Target.Client.ClientLanguage startsWith " + svc.quote(language[..2]);
    var filter := if e.targetFilter != "" then "( " + e.targetFilter + " ) && " + clause else clause;
    NewEvent(Source(e.source.user, PLUGIN_NAME), filter, language[..2], TRANSLATION,
             map["message" := text, "source_id" := e.id])
  }

  function HelpEvent(svc: Service, e: Event): (help: Event)
    ensures IsTranslatable(help) && !IsHelp(help)
  {
    assert HELP_TEXT[0] == '#';
    var filter := "Target.User.Id == " + svc.quote(e.source.user.id);
    NewEvent(Source(e.source.user, PLUGIN_NAME), filter, TEXT_LANGUAGE, CHAT, map["message" := HELP_TEXT])
  }

  // A chat event that is to be translated.
  predicate IsTranslatable(e: Event) {
    e.name == CHAT && "message" in e.tags && !HasPrefix(e.tags["message"], "/")
  }

  predicate IsHelp(e: Event) { e.name == COMMAND && "command" in e.tags && e.tags["command"] == HELP_COMMAND }

  // The translation into one language, if it differs from the message's own.
  function TranslationInto(svc: Service, language: string, e: Event): seq<Event>
    requires CodesAreLong(svc) && |language| >= 2 && IsTranslatable(e)
  {
    var text := Direct(svc, language, e.tags["message"]);
    if text != "" then [TranslationEvent(svc, e, language, text)] else []
  }

  function Parts(svc: Service, langs: Languages, e: Event): (parts: seq<seq<Event>>)
    requires CodesAreLong(svc) && AreLong(langs) && IsTranslatable(e)
  {
    seq(|langs|, i requires 0 <= i < |langs| => TranslationInto(svc, langs[i], e))
  }

  // The translations into the first n languages.
  function Translations(svc: Service, langs: Languages, e: Event, n: nat): seq<Event>
    requires CodesAreLong(svc) && AreLong(langs) && IsTranslatable(e) && n <= |langs|
  {
    Flatten(Parts(svc, langs, e)[..n])
  }

  function ChatAnswers(svc: Service, langs: Languages, e: Event): seq<Event>
    requires CodesAreLong(svc) && AreLong(langs)
  {
    if IsTranslatable(e) then Translations(svc, langs, e, |langs|) else []
  }

  // The complete answer to one event: the help text comes with its own translations.
  function Answers(svc: Service, langs: Languages, e: Event): seq<Event>
    requires CodesAreLong(svc) && AreLong(langs)
  {
    if IsHelp(e) then [HelpEvent(svc, e)] + ChatAnswers(svc, langs, HelpEvent(svc, e)) else ChatAnswers(svc, langs, e)
  }

  function AllAnswers(svc: Service, langs: Languages, events: seq<Event>): seq<Event>
    requires CodesAreLong(svc) && AreLong(langs)
  {
    if events == [] then []
    else AllAnswers(svc, langs, events[..|events| - 1]) + Answers(svc, langs, events[|events| - 1])
  }

  // s is t with some elements left out.
  ghost predicate IsSubsequence<T>(s: seq<T>, t: seq<T>) {
    if s == [] then true
    else if t == [] then false
    else (s[|s| - 1] == t[|t| - 1] && IsSubsequence(s[..|s| - 1], t[..|t| - 1])) || IsSubsequence(s, t[..|t| - 1])
  }

  lemma {:induction false} SubsequenceOfLonger<T>(s: seq<T>, t: seq<T>, more: seq<T>)
    requires IsSubsequence(s, t)
    ensures IsSubsequence(s, t + more)
  {
    if more == [] {
      assert t + more == t;
    } else {
      SubsequenceOfLonger(s, t, more[..|more| - 1]);
      assert (t + more)[..|t + more| - 1] == t + more[..|more| - 1];
    }
  }

  lemma {:induction false} SubsequencesJoin<T>(s: seq<T>, t: seq<T>, s2: seq<T>, t2: seq<T>)
    requires IsSubsequence(s, t) && IsSubsequence(s2, t2)
    ensures IsSubsequence(s + s2, t + t2)
    decreases |s2| + |t2|
  {
    if s2 == [] {
      assert s + s2 == s;
      SubsequenceOfLonger(s, t, t2);
    } else {
      assert (t + t2)[..|t + t2| - 1] == t + t2[..|t2| - 1];
      if s2[|s2| - 1] == t2[|t2| - 1] && IsSubsequence(s2[..|s2| - 1], t2[..|t2| - 1]) {
        SubsequencesJoin(s, t, s2[..|s2| - 1], t2[..|t2| - 1]);
        assert (s + s2)[..|s + s2| - 1] == s + s2[..|s2| - 1];
      } else {
        SubsequencesJoin(s, t, s2, t2[..|t2| - 1]);
      }
    }
  }

  lemma {:induction false} SelfSubsequence<T>(s: seq<T>)
    ensures IsSubsequence(s, s)
  {
    if s != [] { SelfSubsequence(s[..|s| - 1]); }
  }

  // ---------------------------------------------------------------- what a call answers, given the requests it makes

  // Of the requests from number from to number to, the last is rejected after an error, and no other one is.
  ghost predicate StopsAtRejection(svc: Service, from: nat, to: nat, err: bool) {
    && from <= to && (err ==> from < to)
    && forall k :: from <= k < to ==> (svc.rejects(k) <==> err && k == to - 1)
  }

  // The translations into the languages in front of the one whose request is rejected, or into all of them, with at
  // most one request for each language.
  ghost predicate Translated(svc: Service, langs: Languages, e: Event, from: nat, to: nat, out: seq<Event>, err: bool)
    requires CodesAreLong(svc) && AreLong(langs) && IsTranslatable(e)
  {
    && StopsAtRejection(svc, from, to, err)
    && exists n: nat ::
         n <= |langs| && (err <==> n < |langs|) && out == Translations(svc, langs, e, n) && to - from <= n + One(err)
  }

  function One(b: bool): nat { if b then 1 else 0 }

  // The help text comes with its own translations, as far as they go, and never fails.
  ghost predicate Answered(svc: Service, langs: Languages, e: Event, from: nat, to: nat, out: seq<Event>, err: bool)
    requires CodesAreLong(svc) && AreLong(langs)
  {
    if IsHelp(e) then
      var help := HelpEvent(svc, e);
      !err && exists t, failed :: out == [help] + t && Translated(svc, langs, help, from, to, t, failed)
    else if IsTranslatable(e) then Translated(svc, langs, e, from, to, out, err)
    else to == from && out == [] && !err
  }

  // After the answer front to the events before it, the last event is answered, unless there was an error already.
  ghost predicate HandledLast(svc: Service, langs: Languages, last: Event, mid: nat, front: seq<Event>, failed: bool,
                              to: nat, out: seq<Event>, err: bool)
    requires CodesAreLong(svc) && AreLong(langs)
  {
    if failed then to == mid && out == front && err
    else |front| <= |out| && out[..|front|] == front && Answered(svc, langs, last, mid, to, out[|front|..], err)
  }

  // The events are answered one after the other, up to the first chat event whose answer is an error.
  ghost predicate Handled(
      svc: Service, langs: Languages, events: seq<Event>, from: nat, to: nat, out: seq<Event>, err: bool)
    requires CodesAreLong(svc) && AreLong(langs)
  {
    if events == [] then to == from && out == [] && !err
    else
      var init, last := events[..|events| - 1], events[|events| - 1];
      exists mid, front, failed ::
        && Handled(svc, langs, init, from, mid, front, failed)
        && HandledLast(svc, langs, last, mid, front, failed, to, out, err)
  }

  // ---------------------------------------------------------------- the answers, event by event

  // t is the translation of e into a language, sent to the clients that use it.
  ghost predicate IsTranslationEvent(svc: Service, e: Event, language: string, t: Event) {
    && |language| >= 2 && "message" in e.tags
    && t.name == TRANSLATION && t.language == language[..2] && t.source == Source(e.source.user, PLUGIN_NAME)
    && t.tags == map["message" := svc.unescape(svc.answer(language, e.tags["message"]).text), "source_id" := e.id]
    && t.targetFilter ==
         (if e.targetFilter != "" then "( " + e.targetFilter + " ) && " else "") +
         ("Target.Client.ClientLanguage startsWith " + svc.quote(language[..2]))
  }

  // The service detects another language than this one and has a text for it.
  predicate NeedsTranslation(svc: Service, language: string, text: string) {
    var a := svc.answer(language, text);
    && |language| >= 2 && |a.detected| >= 2
    && (a.detected[0] != language[0] || a.detected[1] != language[1]) && svc.unescape(a.text) != ""
  }

  // One translation for each language that needs one, in the order of the languages.
  ghost predicate AreTranslations(svc: Service, langs: Languages, e: Event, out: seq<Event>) {
    "message" in e.tags &&
    exists idx, picked ::
      && Picks(idx, picked, langs)
      && (forall i :: 0 <= i < |langs| ==> (i in idx <==> NeedsTranslation(svc, langs[i], e.tags["message"])))
      && AreInto(svc, e, picked, out)
  }

  ghost predicate AreInto(svc: Service, e: Event, langs: Languages, out: seq<Event>) {
    |out| == |langs| && forall j :: 0 <= j < |out| ==> IsTranslationEvent(svc, e, langs[j], out[j])
  }

  ghost predicate IsHelpEvent(svc: Service, e: Event, help: Event) {
    && help.name == CHAT && help.language == TEXT_LANGUAGE && help.source == Source(e.source.user, PLUGIN_NAME)
    && help.tags == map["message" := HELP_TEXT]
    && help.targetFilter == "Target.User.Id == " + svc.quote(e.source.user.id)
  }

  // A chat message without a slash is translated, a call for help is answered with the help text and its translations,
  // and nothing else is answered.
  ghost predicate IsAnswer(svc: Service, langs: Languages, e: Event, out: seq<Event>) {
    if e.name == CHAT && "message" in e.tags && (e.tags["message"] == "" || e.tags["message"][0] != '/') then
      AreTranslations(svc, langs, e, out)
    else if e.name == COMMAND && "command" in e.tags && e.tags["command"] == "/help" then
      out != [] && IsHelpEvent(svc, e, out[0]) && AreTranslations(svc, langs, out[0], out[1..])
    else out == []
  }

  // The answers to the events, one after the other.
  ghost predicate AreAnswers(svc: Service, langs: Languages, events: seq<Event>, out: seq<Event>) {
    exists parts ::
      && |parts| == |events| && out == Flatten(parts)
      && forall i :: 0 <= i < |events| ==> IsAnswer(svc, langs, events[i], parts[i])
  }

  lemma NextTranslation(svc: Service, langs: Languages, e: Event, n: nat)
    requires CodesAreLong(svc) && AreLong(langs) && IsTranslatable(e) && n < |langs|
    ensures Translations(svc, langs, e, n + 1) == Translations(svc, langs, e, n) + TranslationInto(svc, langs[n], e)
  {
    var parts := Parts(svc, langs, e);
    assert parts[..n + 1][..n] == parts[..n];
  }

  lemma TranslationIntoIs(svc: Service, language: string, e: Event)
    requires CodesAreLong(svc) && |language| >= 2 && IsTranslatable(e)
    ensures
      var part := TranslationInto(svc, language, e);
      if NeedsTranslation(svc, language, e.tags["message"])
      then |part| == 1 && IsTranslationEvent(svc, e, language, part[0]) else part == []
  {
    DirectIsTranslation(svc, language, e.tags["message"]);
    var clause := "Target.Client.ClientLanguage startsWith " + svc.quote(language[..2]);
    assert "" + clause == clause;
  }

  lemma IntoNext(svc: Service, e: Event, langs: Languages, out: seq<Event>, langs': Languages, out': seq<Event>)
    requires AreInto(svc, e, langs, out) && AreInto(svc, e, langs', out')
    ensures AreInto(svc, e, langs + langs', out + out')
  {
  }

  lemma PartIsInto(svc: Service, language: string, e: Event, flag: bool) returns (langs: Languages)
    requires CodesAreLong(svc) && |language| >= 2 && IsTranslatable(e)
    requires flag <==> NeedsTranslation(svc, language, e.tags["message"])
    ensures langs == (if flag then [language] else []) && AreInto(svc, e, langs, TranslationInto(svc, language, e))
  {
    TranslationIntoIs(svc, language, e);
    langs := if flag then [language] else [];
  }

  lemma {:induction false} PartsAreInto(svc: Service, langs: Languages, e: Event, flags: seq<bool>, n: nat)
    requires CodesAreLong(svc) && AreLong(langs) && IsTranslatable(e) && n <= |langs| == |flags|
    requires forall i :: 0 <= i < |langs| ==> (flags[i] <==> NeedsTranslation(svc, langs[i], e.tags["message"]))
    ensures AreInto(svc, e, Keep(langs[..n], flags[..n]), Translations(svc, langs, e, n))
  {
    if n > 0 {
      PartsAreInto(svc, langs, e, flags, n - 1);
      NextTranslation(svc, langs, e, n - 1);
      KeepNext(langs, flags, n - 1);
      var last := PartIsInto(svc, langs[n - 1], e, flags[n - 1]);
      IntoNext(svc, e, Keep(langs[..n - 1], flags[..n - 1]), Translations(svc, langs, e, n - 1),
               last, TranslationInto(svc, langs[n - 1], e));
    }
  }

  lemma TranslationsAreTranslations(svc: Service, langs: Languages, e: Event)
    requires CodesAreLong(svc) && AreLong(langs) && IsTranslatable(e)
    ensures AreTranslations(svc, langs, e, Translations(svc, langs, e, |langs|))
  {
    var flags := seq(|langs|, i requires 0 <= i < |langs| && "message" in e.tags =>
      NeedsTranslation(svc, langs[i], e.tags["message"]));
    PartsAreInto(svc, langs, e, flags, |langs|);
    assert langs[..|langs|] == langs && flags[..|langs|] == flags;
    var idx := KeepPicks(langs, flags);
  }

  lemma AnswersAreAnswer(svc: Service, langs: Languages, e: Event)
    requires CodesAreLong(svc) && AreLong(langs)
    ensures IsAnswer(svc, langs, e, Answers(svc, langs, e))
  {
    if IsHelp(e) {
      TranslationsAreTranslations(svc, langs, HelpEvent(svc, e));
      assert Answers(svc, langs, e)[1..] == ChatAnswers(svc, langs, HelpEvent(svc, e));
    } else if IsTranslatable(e) {
      TranslationsAreTranslations(svc, langs, e);
    }
    if e.name == CHAT && "message" in e.tags && e.tags["message"] != "" {
      assert HasPrefix(e.tags["message"], "/") <==> e.tags["message"][0] == '/';
    }
  }

  lemma {:induction false} AllAnswersAreFlat(svc: Service, langs: Languages, events: seq<Event>, parts: seq<seq<Event>>)
    requires CodesAreLong(svc) && AreLong(langs) && |parts| == |events|
    requires forall i :: 0 <= i < |events| ==> parts[i] == Answers(svc, langs, events[i])
    ensures AllAnswers(svc, langs, events) == Flatten(parts)
  {
    if events != [] { AllAnswersAreFlat(svc, langs, events[..|events| - 1], parts[..|parts| - 1]); }
  }

  lemma EachIsAnswer(svc: Service, langs: Languages, events: seq<Event>, parts: seq<seq<Event>>)
    requires CodesAreLong(svc) && AreLong(langs) && |parts| == |events|
    requires forall i :: 0 <= i < |events| ==> parts[i] == Answers(svc, langs, events[i])
    ensures forall i :: 0 <= i < |events| ==> IsAnswer(svc, langs, events[i], parts[i])
  {
    forall i | 0 <= i < |events| ensures IsAnswer(svc, langs, events[i], parts[i]) {
      AnswersAreAnswer(svc, langs, events[i]);
    }
  }

  lemma AnswersFrom(svc: Service, langs: Languages, events: seq<Event>, parts: seq<seq<Event>>, out: seq<Event>)
    requires |parts| == |events| && out == Flatten(parts)
    requires forall i :: 0 <= i < |events| ==> IsAnswer(svc, langs, events[i], parts[i])
    ensures AreAnswers(svc, langs, events, out)
  {
  }

  // The complete answer is the answers to the events.
  lemma AllAnswersAreAnswers(svc: Service, langs: Languages, events: seq<Event>)
    requires CodesAreLong(svc) && AreLong(langs)
    ensures AreAnswers(svc, langs, events, AllAnswers(svc, langs, events))
  {
    var parts := seq(|events|, i requires 0 <= i < |events| => Answers(svc, langs, events[i]));
    AllAnswersAreFlat(svc, langs, events, parts);
    EachIsAnswer(svc, langs, events, parts);
    AnswersFrom(svc, langs, events, parts, AllAnswers(svc, langs, events));
  }

  // ---------------------------------------------------------------- what follows for a caller

  lemma {:induction false} FlattenGrows<T>(parts: seq<seq<T>>, n: nat)
    requires n <= |parts|
    ensures Flatten(parts[..n]) <= Flatten(parts)
  {
    if n == |parts| {
      assert parts[..n] == parts;
    } else {
      var front := parts[..|parts| - 1];
      assert front[..n] == parts[..n];
      FlattenGrows(front, n);
    }
  }

  lemma TranslationsGrow(svc: Service, langs: Languages, e: Event, n: nat)
    requires CodesAreLong(svc) && AreLong(langs) && IsTranslatable(e) && n <= |langs|
    ensures Translations(svc, langs, e, n) <= Translations(svc, langs, e, |langs|)
  {
    var parts := Parts(svc, langs, e);
    FlattenGrows(parts, n);
    assert parts[..|langs|] == parts;
  }

  ghost predicate NoneRejected(svc: Service, from: nat, to: nat) { forall k :: from <= k < to ==> !svc.rejects(k) }

  lemma {:induction false} PrefixIsSubsequence<T>(s: seq<T>, t: seq<T>)
    requires s <= t
    ensures IsSubsequence(s, t)
  {
    SelfSubsequence(s);
    SubsequenceOfLonger(s, s, t[|s|..]);
    assert t == s + t[|s|..];
  }

  lemma StoppedByRejection(svc: Service, from: nat, to: nat, err: bool)
    requires StopsAtRejection(svc, from, to, err)
    ensures NoneRejected(svc, from, to) ==> !err
    ensures from <= to && (err ==> from < to && svc.rejects(to - 1))
  {
    if err { assert svc.rejects(to - 1); }
  }

  // One chat event: a prefix of the complete answer, all of it if no request is rejected.
  lemma TranslatedIsPrefix(svc: Service, langs: Languages, e: Event, from: nat, to: nat, out: seq<Event>, err: bool)
    requires CodesAreLong(svc) && AreLong(langs) && IsTranslatable(e) && Translated(svc, langs, e, from, to, out, err)
    ensures out <= ChatAnswers(svc, langs, e)
    ensures NoneRejected(svc, from, to) ==> !err && out == ChatAnswers(svc, langs, e)
    ensures from <= to && (err ==> from < to && svc.rejects(to - 1))
  {
    StoppedByRejection(svc, from, to, err);
    var n: nat :|
      n <= |langs| && (err <==> n < |langs|) && out == Translations(svc, langs, e, n) && to - from <= n + One(err);
    TranslationsGrow(svc, langs, e, n);
  }

  // One event of any kind.
  lemma AnswerIsPrefix(svc: Service, langs: Languages, e: Event, from: nat, to: nat, out: seq<Event>, err: bool)
    requires CodesAreLong(svc) && AreLong(langs) && Answered(svc, langs, e, from, to, out, err)
    ensures out <= Answers(svc, langs, e)
    ensures NoneRejected(svc, from, to) ==> !err && out == Answers(svc, langs, e)
    ensures from <= to && (err ==> from < to && svc.rejects(to - 1))
  {
    if IsHelp(e) {
      var help := HelpEvent(svc, e);
      var t, failed :| out == [help] + t && Translated(svc, langs, help, from, to, t, failed);
      TranslatedIsPrefix(svc, langs, help, from, to, t, failed);
    } else if IsTranslatable(e) {
      TranslatedIsPrefix(svc, langs, e, from, to, out, err);
    }
  }

  lemma LastIsComplete(svc: Service, langs: Languages, init: seq<Event>, last: Event, mid: nat, front: seq<Event>,
                       failed: bool, to: nat, out: seq<Event>, err: bool)
    requires CodesAreLong(svc) && AreLong(langs) && HandledLast(svc, langs, last, mid, front, failed, to, out, err)
    requires IsSubsequence(front, AllAnswers(svc, langs, init))
    ensures mid <= to && IsSubsequence(out, AllAnswers(svc, langs, init) + Answers(svc, langs, last))
    ensures !failed && NoneRejected(svc, mid, to) ==> !err && out == front + Answers(svc, langs, last)
    ensures err && !failed ==> mid < to && svc.rejects(to - 1)
  {
    if failed {
      SubsequenceOfLonger(front, AllAnswers(svc, langs, init), Answers(svc, langs, last));
    } else {
      var part := out[|front|..];
      assert out == front + part;
      AnswerIsPrefix(svc, langs, last, mid, to, part, err);
      PrefixIsSubsequence(part, Answers(svc, langs, last));
      SubsequencesJoin(front, AllAnswers(svc, langs, init), part, Answers(svc, langs, last));
    }
  }

  // The answer to all events is complete if no request is rejected, and in any case nothing but events of the complete
  // answer, in their order; an error means that the last request was rejected.
  lemma {:induction false} HandledIsComplete(
      svc: Service, langs: Languages, events: seq<Event>, from: nat, to: nat, out: seq<Event>, err: bool)
    requires CodesAreLong(svc) && AreLong(langs) && Handled(svc, langs, events, from, to, out, err)
    ensures from <= to && IsSubsequence(out, AllAnswers(svc, langs, events))
    ensures NoneRejected(svc, from, to) ==> !err && out == AllAnswers(svc, langs, events)
    ensures err ==> from < to && svc.rejects(to - 1)
    decreases |events|
  {
    if events != [] {
      var init, last := events[..|events| - 1], events[|events| - 1];
      var mid, front, failed :|
        && Handled(svc, langs, init, from, mid, front, failed)
        && HandledLast(svc, langs, last, mid, front, failed, to, out, err);
      HandledIsComplete(svc, langs, init, from, mid, front, failed);
      LastIsComplete(svc, langs, init, last, mid, front, failed, to, out, err);
    }
  }

  // ---------------------------------------------------------------- the code

  // The loop body for one language: None if the request is rejected.
  method TranslateInto(svc: Service, cache: Cache, link: Link, language: string, e: Event)
    returns (part: Option<seq<Event>>)
    requires CodesAreLong(svc) && |language| >= 2 && IsTranslatable(e) && IsFaithful(svc, cache.entries)
    modifies cache, link
    ensures IsFaithful(svc, cache.entries)
    ensures
      var isMiss := Key(language, e.tags["message"]) !in old(cache.entries);
      && link.requests == old(link.requests) + One(isMiss)
      && (part.None? <==> isMiss && svc.rejects(old(link.requests)))
      && (part.None? || !isMiss ==> cache.entries == old(cache.entries))
    ensures part.Some? ==> part.value == TranslationInto(svc, language, e)
  {
    var texts := [e.tags["message"]];
    assert texts[0] == e.tags["message"];
    var res := Translation(svc, cache, link, texts, language);
    if res.None? {
      return None;
    }
    part := Some(if res.value[0] != "" then [TranslationEvent(svc, e, language, res.value[0])] else []);
  }

  lemma OneMoreRequest(svc: Service, from: nat, before: nat, to: nat, err: bool)
    requires StopsAtRejection(svc, from, before, false)
    requires (to == before && !err) || (to == before + 1 && (svc.rejects(before) <==> err))
    ensures StopsAtRejection(svc, from, to, err)
  {
  }

  // The answer ends in front of a language for which the message is not cached.
  ghost predicate StopsAtMiss(svc: Service, langs: Languages, e: Event, out: seq<Event>, entries: map<Key, string>)
    requires CodesAreLong(svc) && AreLong(langs) && IsTranslatable(e)
  {
    exists n: nat ::
      n < |langs| && out == Translations(svc, langs, e, n) && Key(langs[n], e.tags["message"]) !in entries
  }

  // The message is cached for every language.
  predicate IsWarm(entries: map<Key, string>, langs: Languages, e: Event)
    requires IsTranslatable(e)
  {
    forall l :: l in langs ==> Key(l, e.tags["message"]) in entries
  }

  lemma IsTranslated(
      svc: Service, langs: Languages, e: Event, n: nat, from: nat, to: nat, out: seq<Event>, err: bool)
    requires CodesAreLong(svc) && AreLong(langs) && IsTranslatable(e) && n <= |langs| && (err <==> n < |langs|)
    requires StopsAtRejection(svc, from, to, err) && out == Translations(svc, langs, e, n) && to - from <= n + One(err)
    ensures Translated(svc, langs, e, from, to, out, err)
  {
  }

  // The loop over the languages: the first rejected request ends it, and a message that is cached for every language
  // needs no request.
  method TranslateChat(svc: Service, cache: Cache, link: Link, langs: Languages, e: Event)
    returns (out: seq<Event>, err: bool)
    requires CodesAreLong(svc) && AreLong(langs) && IsTranslatable(e) && IsFaithful(svc, cache.entries)
    modifies cache, link
    ensures IsFaithful(svc, cache.entries)
    ensures Translated(svc, langs, e, old(link.requests), link.requests, out, err)
    ensures err ==> StopsAtMiss(svc, langs, e, out, cache.entries)
    ensures IsWarm(old(cache.entries), langs, e) ==> link.requests == old(link.requests) && !err
  {
    ghost var from := link.requests;
    out, err := [], false;
    for i := 0 to |langs|
      invariant IsFaithful(svc, cache.entries) && out == Translations(svc, langs, e, i) && !err
      invariant StopsAtRejection(svc, from, link.requests, false) && link.requests - from <= i
      invariant IsWarm(old(cache.entries), langs, e) ==> link.requests == from && cache.entries == old(cache.entries)
    {
      ghost var before := link.requests;
      assert langs[i] in langs;
      var part := TranslateInto(svc, cache, link, langs[i], e);
      OneMoreRequest(svc, from, before, link.requests, part.None?);
      if part.None? {
        IsTranslated(svc, langs, e, i, from, link.requests, out, true);
        assert StopsAtMiss(svc, langs, e, out, cache.entries);
        return out, true;
      }
      out := out + part.value;
      NextTranslation(svc, langs, e, i);
    }
    IsTranslated(svc, langs, e, |langs|, from, link.requests, out, false);
  }

  // The loop body for one event; the help text is handled like a chat message of its own, without its errors.
  method AnswerEvent(svc: Service, cache: Cache, link: Link, langs: Languages, e: Event)
    returns (out: seq<Event>, err: bool)
    requires CodesAreLong(svc) && AreLong(langs) && IsFaithful(svc, cache.entries)
    modifies cache, link
    ensures IsFaithful(svc, cache.entries)
    ensures Answered(svc, langs, e, old(link.requests), link.requests, out, err)
    decreases e.name == COMMAND, 0
  {
    out, err := [], false;
    if e.name == CHAT {
      if "message" !in e.tags || HasPrefix(e.tags["message"], "/") {
        return;
      }
      out, err := TranslateChat(svc, cache, link, langs, e);
    } else if e.name == COMMAND {
      if "command" in e.tags && e.tags["command"] == HELP_COMMAND {
        var help := HelpEvent(svc, e);
        var translated, failed := HandleEvents(svc, cache, link, langs, [help]);
        out := [help] + translated;
        OneIsHandled(svc, langs, help, old(link.requests), link.requests, translated, failed);
      }
    }
  }

  method HandleEvents(svc: Service, cache: Cache, link: Link, langs: Languages, events: seq<Event>)
    returns (out: seq<Event>, err: bool)
    requires CodesAreLong(svc) && AreLong(langs) && IsFaithful(svc, cache.entries)
    modifies cache, link
    ensures IsFaithful(svc, cache.entries)
    ensures Handled(svc, langs, events, old(link.requests), link.requests, out, err)
    ensures NoneRejected(svc, old(link.requests), link.requests) ==> !err && out == AllAnswers(svc, langs, events)
    ensures NoneRejected(svc, old(link.requests), link.requests) ==> AreAnswers(svc, langs, events, out)
    ensures IsSubsequence(out, AllAnswers(svc, langs, events))
    decreases exists e :: e in events && e.name == COMMAND, 1
  {
    AllAnswersAreAnswers(svc, langs, events);
    out, err := [], false;
    for i := 0 to |events|
      invariant IsFaithful(svc, cache.entries) && !err
      invariant Handled(svc, langs, events[..i], old(link.requests), link.requests, out, false)
    {
      ghost var before, front := link.requests, out;
      var res, failed := AnswerEvent(svc, cache, link, langs, events[i]);
      out := out + res;
      OneMoreIsHandled(svc, langs, events, i, old(link.requests), before, front, link.requests, res, failed);
      if failed {
        HandledStops(svc, langs, events, i + 1, old(link.requests), link.requests, out);
        HandledIsComplete(svc, langs, events, old(link.requests), link.requests, out, true);
        return out, true;
      }
    }
    assert events[..|events|] == events;
    HandledIsComplete(svc, langs, events, old(link.requests), link.requests, out, false);
  }

  lemma OneIsHandled(svc: Service, langs: Languages, e: Event, from: nat, to: nat, out: seq<Event>, err: bool)
    requires CodesAreLong(svc) && AreLong(langs) && Handled(svc, langs, [e], from, to, out, err) && !IsHelp(e)
    ensures Answered(svc, langs, e, from, to, out, err)
  {
    assert [e][..0] == [];
    assert out[0..] == out;
  }

  lemma OneMoreIsHandled(svc: Service, langs: Languages, events: seq<Event>, i: nat, from: nat, mid: nat,
                         front: seq<Event>, to: nat, part: seq<Event>, err: bool)
    requires CodesAreLong(svc) && AreLong(langs) && i < |events|
    requires Handled(svc, langs, events[..i], from, mid, front, false)
    requires Answered(svc, langs, events[i], mid, to, part, err)
    ensures Handled(svc, langs, events[..i + 1], from, to, front + part, err)
  {
    assert events[..i + 1][..i] == events[..i];
    assert HandledLast(svc, langs, events[i], mid, front, false, to, front + part, err) by {
      assert (front + part)[|front|..] == part;
    }
  }

  // Nothing is answered after an error.
  lemma {:induction false} HandledStops(
      svc: Service, langs: Languages, events: seq<Event>, i: nat, from: nat, to: nat, out: seq<Event>)
    requires CodesAreLong(svc) && AreLong(langs) && i <= |events|
    requires Handled(svc, langs, events[..i], from, to, out, true)
    ensures Handled(svc, langs, events, from, to, out, true)
    decreases |events| - i
  {
    if i == |events| {
      assert events[..i] == events;
    } else {
      assert events[..i + 1][..i] == events[..i];
      assert HandledLast(svc, langs, events[i], to, out, true, to, out, true);
      HandledStops(svc, langs, events, i + 1, from, to, out);
    }
  }

}
