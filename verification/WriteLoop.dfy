/**
How WriteLoop turns a list of events into messages: one message per event name, for the events that pass their
target filter.
*/
module WriteLoop {
  import opened Wrappers
  import opened Events
  import opened Sequences

  datatype Message = Message(event: string, data: seq<string>)

  // For one client: the outcome of its filters, and JSON encoding, which may fail for an event or a whole message.
  datatype Codec = Codec(accepts: Event -> bool, encode: Event -> Option<string>, encodes: Message -> bool)

  predicate Passes(codec: Codec, e: Event) { e.targetFilter == "" || codec.accepts(e) }

  // The texts of the events that pass and can be encoded, restricted to some names, in order.
  ghost function Texts(codec: Codec, events: seq<Event>, names: iset<string>): seq<string> {
    if events == [] then []
    else
      var front := Texts(codec, events[..|events| - 1], names);
      var e := events[|events| - 1];
      if Passes(codec, e) && codec.encode(e).Some? && e.name in names then front + [codec.encode(e).value] else front
  }

  // The names under which something is to be sent.
  ghost predicate IsUsed(codec: Codec, events: seq<Event>, name: string) {
    exists e ::
      && e in events && e.name == name
      && (e.targetFilter == "" || codec.accepts(e)) && codec.encode(e).Some?
  }

  function Plural(name: string): string { name + "s" }

  ghost function MessageFor(codec: Codec, events: seq<Event>, name: string): Message {
    Message(Plural(name), Texts(codec, events, iset{name}))
  }

  // The messages for a list of names, those left out that cannot be encoded.
  ghost function Messages(codec: Codec, events: seq<Event>, names: seq<string>): seq<Message> {
    if names == [] then []
    else
      var front := Messages(codec, events, names[..|names| - 1]);
      var last := MessageFor(codec, events, names[|names| - 1]);
      if codec.encodes(last) then front + [last] else front
  }

  // An order in which a Go map with these keys may be visited.
  ghost predicate IsOrder(codec: Codec, events: seq<Event>, names: seq<string>) {
    Distinct(names) && forall n :: n in names <==> IsUsed(codec, events, n)
  }

  class Client {
    var sent: seq<Message>   // everything that WriteLoop has put on Send

    constructor ()
      ensures sent == []
    {
      sent := [];
    }

    // The SendEvents case of WriteLoop.
    method WriteEvents(codec: Codec, events: seq<Event>) returns (ghost names: seq<string>)
      modifies this
      ensures IsOrder(codec, events, names)
      ensures sent == old(sent) + Messages(codec, events, names)
    {
      var eventsSlices := Group(codec, events);
      names := [];
      var todo := eventsSlices.Keys;
      while todo != {}
        invariant todo <= eventsSlices.Keys
        invariant Distinct(names) && forall n :: n in names <==> n in eventsSlices && n !in todo
        invariant sent == old(sent) + Messages(codec, events, names)
        decreases todo
      {
        var eventType :| eventType in todo;
        todo := todo - {eventType};
        var msg := Message(Plural(eventType), eventsSlices[eventType]);
        assert msg == MessageFor(codec, events, eventType);
        assert (names + [eventType])[..|names|] == names;
        names := names + [eventType];
        if codec.encodes(msg) {
          sent := sent + [msg];
        }
      }
    }

    // The first loop: fills the map of slices.
    method Group(codec: Codec, events: seq<Event>) returns (eventsSlices: map<string, seq<string>>)
      ensures forall n :: n in eventsSlices <==> IsUsed(codec, events, n)
      ensures forall n :: n in eventsSlices ==> eventsSlices[n] == Texts(codec, events, iset{n})
    {
      eventsSlices := map[];
      for i := 0 to |events|
        invariant forall n :: n in eventsSlices <==> IsUsed(codec, events[..i], n)
        invariant forall n :: n in eventsSlices ==> eventsSlices[n] == Texts(codec, events[..i], iset{n})
      {
        var event := events[i];
        UsedByOneMore(codec, events, i);
        TextsOfOneMore(codec, events, i);
        if event.targetFilter != "" {
          if !codec.accepts(event) {
            continue;
          }
        }
        var w := codec.encode(event);
        if w.None? {
          continue;
        }
        NoTextsIfUnused(codec, events[..i], event.name);
        if event.name !in eventsSlices {
          eventsSlices := eventsSlices[event.name := []];
        }
        eventsSlices := eventsSlices[event.name := eventsSlices[event.name] + [w.value]];
      }
      assert events[..|events|] == events;
    }
  }

  // The texts of the events with one of the names that have no target filter or pass it and that can be encoded, each
  // once and in order.
  ghost predicate IsGroup(codec: Codec, events: seq<Event>, names: iset<string>, texts: seq<string>) {
    exists idx, kept ::
      && Picks(idx, kept, events)
      && (forall i :: 0 <= i < |events| ==>
            (i in idx <==> (events[i].targetFilter == "" || codec.accepts(events[i])) &&
                           codec.encode(events[i]).Some? && events[i].name in names))
      && AreTexts(codec, kept, texts)
  }

  ghost predicate AreTexts(codec: Codec, events: seq<Event>, texts: seq<string>) {
    && |texts| == |events|
    && forall j :: 0 <= j < |events| ==> codec.encode(events[j]) == Some(texts[j])
  }

  lemma {:induction false} TextsAreKept(codec: Codec, events: seq<Event>, names: iset<string>, flags: seq<bool>)
    requires |flags| == |events|
    requires forall i :: 0 <= i < |events| ==>
      (flags[i] <==> (events[i].targetFilter == "" || codec.accepts(events[i])) &&
                     codec.encode(events[i]).Some? && events[i].name in names)
    ensures AreTexts(codec, Keep(events, flags), Texts(codec, events, names))
  {
    if events != [] { TextsAreKept(codec, events[..|events| - 1], names, flags[..|events| - 1]); }
  }

  lemma TextsAreGroup(codec: Codec, events: seq<Event>, names: iset<string>)
    ensures IsGroup(codec, events, names, Texts(codec, events, names))
  {
    ghost var flags := seq(|events|, i requires 0 <= i < |events| =>
      (events[i].targetFilter == "" || codec.accepts(events[i])) &&
      codec.encode(events[i]).Some? && events[i].name in names);
    TextsAreKept(codec, events, names, flags);
    ghost var idx := KeepPicks(events, flags);
  }

  lemma UsedByOneMore(codec: Codec, events: seq<Event>, i: nat)
    requires i < |events|
    ensures
      var e := events[i];
      forall n :: IsUsed(codec, events[..i + 1], n) <==>
        IsUsed(codec, events[..i], n) || (Passes(codec, e) && codec.encode(e).Some? && e.name == n)
  {
    assert events[..i + 1] == events[..i] + [events[i]];
  }

  lemma TextsOfOneMore(codec: Codec, events: seq<Event>, i: nat)
    requires i < |events|
    ensures
      var e := events[i];
      forall n :: Texts(codec, events[..i + 1], iset{n}) ==
        Texts(codec, events[..i], iset{n}) +
        if Passes(codec, e) && codec.encode(e).Some? && e.name == n then [codec.encode(e).value] else []
  {
    assert events[..i + 1][..i] == events[..i];
  }

  lemma {:induction false} NoTextsIfUnused(codec: Codec, events: seq<Event>, name: string)
    ensures !IsUsed(codec, events, name) ==> Texts(codec, events, iset{name}) == []
  {
    if events != [] {
      UsedByOneMore(codec, events, |events| - 1);
      assert events[..|events|] == events;
      NoTextsIfUnused(codec, events[..|events| - 1], name);
    }
  }

  // ---------------------------------------------------------------- a stable partition

  ghost predicate AllEncode(codec: Codec) { forall m :: codec.encodes(m) }

  // Different names are sent under different plurals.
  lemma PluralsDiffer(a: string, b: string)
    ensures Plural(a) == Plural(b) ==> a == b
  {
    assert Plural(a)[..|Plural(a)| - 1] == a && Plural(b)[..|Plural(b)| - 1] == b;
  }

  lemma {:induction false} MessagesAre(codec: Codec, events: seq<Event>, names: seq<string>)
    requires AllEncode(codec)
    ensures |Messages(codec, events, names)| == |names|
    ensures forall i :: 0 <= i < |names| ==> Messages(codec, events, names)[i] == MessageFor(codec, events, names[i])
  {
    if names != [] { MessagesAre(codec, events, names[..|names| - 1]); }
  }

  // The message sent for a name.
  ghost predicate IsMessageFor(codec: Codec, events: seq<Event>, name: string, m: Message) {
    m.event == name + "s" && IsGroup(codec, events, iset{name}, m.data)
  }

  // With every message encoded there is one per name, with the texts of that name, and no two are sent under the same
  // message name.
  lemma OneMessagePerName(codec: Codec, events: seq<Event>, names: seq<string>)
    requires AllEncode(codec)
    ensures
      var ms := Messages(codec, events, names);
      && |ms| == |names| && (forall i :: 0 <= i < |names| ==> IsMessageFor(codec, events, names[i], ms[i]))
      && (Distinct(names) ==> forall i, j :: 0 <= i < j < |names| ==> ms[i].event != ms[j].event)
  {
    MessagesAre(codec, events, names);
    forall i | 0 <= i < |names| ensures IsMessageFor(codec, events, names[i], MessageFor(codec, events, names[i])) {
      TextsAreGroup(codec, events, iset{names[i]});
    }
    forall i, j | 0 <= i < j < |names| && Distinct(names) ensures Plural(names[i]) != Plural(names[j]) {
      PluralsDiffer(names[i], names[j]);
    }
  }

  ghost function Union(ms: seq<Message>): multiset<string> {
    if ms == [] then multiset{} else Union(ms[..|ms| - 1]) + multiset(ms[|ms| - 1].data)
  }

  ghost function Names(names: seq<string>): iset<string> { iset n | n in names }

  lemma {:induction false} TextsOfOneMoreName(codec: Codec, events: seq<Event>, names: iset<string>, name: string)
    requires name !in names
    ensures multiset(Texts(codec, events, names + iset{name})) ==
      multiset(Texts(codec, events, names)) + multiset(Texts(codec, events, iset{name}))
  {
    if events != [] { TextsOfOneMoreName(codec, events[..|events| - 1], names, name); }
  }

  lemma {:induction false} TextsOfNoName(codec: Codec, events: seq<Event>)
    ensures Texts(codec, events, iset{}) == []
  {
    if events != [] { TextsOfNoName(codec, events[..|events| - 1]); }
  }

  lemma {:induction false} UnionOfMessages(codec: Codec, events: seq<Event>, names: seq<string>)
    requires AllEncode(codec) && Distinct(names)
    ensures Union(Messages(codec, events, names)) == multiset(Texts(codec, events, Names(names)))
  {
    if names == [] {
      TextsOfNoName(codec, events);
      assert Names(names) == iset{};
    } else {
      var front, last := names[..|names| - 1], names[|names| - 1];
      var ms := Messages(codec, events, names);
      UnionOfMessages(codec, events, front);
      assert ms[..|ms| - 1] == Messages(codec, events, front);
      assert last !in front;
      TextsOfOneMoreName(codec, events, Names(front), last);
      assert Names(names) == Names(front) + iset{last};
    }
  }

  ghost const EVERY_NAME: iset<string> := iset n: string | true

  // The texts of all events that pass and can be encoded, whatever their names.
  ghost function AllTexts(codec: Codec, events: seq<Event>): seq<string> {
    if events == [] then []
    else
      var e := events[|events| - 1];
      AllTexts(codec, events[..|events| - 1]) +
      if Passes(codec, e) && codec.encode(e).Some? then [codec.encode(e).value] else []
  }

  lemma {:induction false} TextsOfUsedNames(codec: Codec, events: seq<Event>, names: iset<string>)
    requires forall n :: IsUsed(codec, events, n) ==> n in names
    ensures Texts(codec, events, names) == AllTexts(codec, events)
  {
    if events != [] {
      UsedByOneMore(codec, events, |events| - 1);
      assert events[..|events|] == events;
      TextsOfUsedNames(codec, events[..|events| - 1], names);
    }
  }

  // Whatever the order of the map, the messages together hold each event that passes, once.
  lemma MessagesAreAPartition(codec: Codec, events: seq<Event>, names: seq<string>)
    requires AllEncode(codec) && IsOrder(codec, events, names)
    ensures Union(Messages(codec, events, names)) == multiset(AllTexts(codec, events))
    ensures IsGroup(codec, events, EVERY_NAME, AllTexts(codec, events))
  {
    UnionOfMessages(codec, events, names);
    forall n | IsUsed(codec, events, n) ensures n in Names(names) { assert n in names; }
    TextsOfUsedNames(codec, events, Names(names));
    TextsOfUsedNames(codec, events, EVERY_NAME);
    TextsAreGroup(codec, events, EVERY_NAME);
  }

}
