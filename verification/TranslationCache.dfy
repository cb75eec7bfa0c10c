/**
The translate plugin: a cache in front of a translation service, and the events that the plugin answers with.

The service is deterministic per text and target language and answers every text of a request it does not reject;
rejects(k) says whether it rejects the k-th request that it is sent.  The cache may drop any entries whenever one is
added.
*/
module TranslationCache {
  import opened Wrappers
  import opened Events
  import opened Text

  datatype Key = Key(language: string, text: string)

  datatype Answer = Answer(detected: string, text: string)

  // The service for one target language and text, the requests that it rejects, html.UnescapeString and strconv.Quote.
  datatype Service = Service(
    answer: (string, string) -> Answer,
    rejects: nat -> bool,
    unescape: string -> string,
    quote: string -> string
  )

  // Counts the requests that the service is sent.
  class Link {
    var requests: nat

    constructor ()
      ensures requests == 0
    {
      requests := 0;
    }
  }

  // Language codes have at least two characters, the ones that the service detects too.
  ghost predicate CodesAreLong(svc: Service) {
    forall language, text :: |svc.answer(language, text).detected| >= 2
  }

  // What the service alone would give: nothing if the text is in the target language already.
  function Direct(svc: Service, language: string, text: string): string
    requires |language| >= 2 && |svc.answer(language, text).detected| >= 2
  {
    var a := svc.answer(language, text);
    if a.detected[..2] != language[..2] then svc.unescape(a.text) else ""
  }

  // Every cached entry is what the service would give.
  ghost predicate IsFaithful(svc: Service, entries: map<Key, string>)
    requires CodesAreLong(svc)
  {
    forall k :: k in entries && |k.language| >= 2 ==> entries[k] == Direct(svc, k.language, k.text)
  }

  class Cache {
    var entries: map<Key, string>

    constructor ()
      ensures entries == map[]
    {
      entries := map[];
    }

    method Get(k: Key) returns (v: Option<string>)
      ensures v == if k in entries then Some(entries[k]) else None
    {
      v := if k in entries then Some(entries[k]) else None;
    }

    // Any entries may be evicted.
    method Add(k: Key, v: string)
      modifies this
      ensures forall x :: x in entries ==> x in old(entries)[k := v] && entries[x] == old(entries)[k := v][x]
    {
      var evicted: set<Key> := *;
      entries := entries[k := v] - evicted;
    }
  }

  function Cached(entries: map<Key, string>, k: Key): string { if k in entries then entries[k] else "" }

  // What a call returns if it succeeds: the cached text for a hit, the service's for a miss.
  function Lookup(svc: Service, entries: map<Key, string>, language: string, text: string): string
    requires |language| >= 2 && |svc.answer(language, text).detected| >= 2
  {
    if Key(language, text) in entries then entries[Key(language, text)] else Direct(svc, language, text)
  }

  // Some text is not in the cache.
  ghost predicate HasMiss(entries: map<Key, string>, srcText: seq<string>, language: string) {
    exists i :: 0 <= i < |srcText| && Key(language, srcText[i]) !in entries
  }

  lemma MissAt(entries: map<Key, string>, srcText: seq<string>, language: string, idx: seq<nat>)
    requires idx != [] && forall j :: 0 <= j < |srcText| ==> (Key(language, srcText[j]) in entries <==> j !in idx)
    requires idx[0] < |srcText|
    ensures HasMiss(entries, srcText, language)
  {
    assert idx[0] in idx;
  }

  // What the service's answer comes to: its unescaped text if it detects another language, nothing otherwise.
  ghost predicate IsTranslation(svc: Service, language: string, text: string, translated: string) {
    var a := svc.answer(language, text);
    && |language| >= 2 && |a.detected| >= 2
    && (a.detected[0] != language[0] || a.detected[1] != language[1] ==> translated == svc.unescape(a.text))
    && (a.detected[0] == language[0] && a.detected[1] == language[1] ==> translated == "")
  }

  lemma DirectIsTranslation(svc: Service, language: string, text: string)
    requires |language| >= 2 && |svc.answer(language, text).detected| >= 2
    ensures IsTranslation(svc, language, text, Direct(svc, language, text))
    ensures forall t :: IsTranslation(svc, language, text, t) ==> t == Direct(svc, language, text)
  {
    var detected := svc.answer(language, text).detected;
    assert detected[..2] == language[..2] <==> detected[0] == language[0] && detected[1] == language[1] by {
      if detected[..2] == language[..2] {
        assert detected[0] == detected[..2][0] && detected[1] == detected[..2][1];
        assert language[0] == language[..2][0] && language[1] == language[..2][1];
      }
    }
  }

  // The entries of a language are what the service's answers come to.
  ghost predicate HoldsTranslations(svc: Service, entries: map<Key, string>, language: string) {
    forall k :: k in entries && k.language == language ==> IsTranslation(svc, language, k.text, entries[k])
  }

  // Being faithful, said of the service's answers.
  lemma FaithfulIffTranslations(svc: Service, entries: map<Key, string>)
    requires CodesAreLong(svc)
    ensures IsFaithful(svc, entries) <==>
      forall language: string :: |language| >= 2 ==> HoldsTranslations(svc, entries, language)
  {
    forall k | k in entries && |k.language| >= 2
      ensures IsTranslation(svc, k.language, k.text, entries[k]) <==> entries[k] == Direct(svc, k.language, k.text)
    {
      DirectIsTranslation(svc, k.language, k.text);
    }
    if forall language: string :: |language| >= 2 ==> HoldsTranslations(svc, entries, language) {
      forall k | k in entries && |k.language| >= 2 ensures entries[k] == Direct(svc, k.language, k.text) {
        assert HoldsTranslations(svc, entries, k.language);
      }
    }
  }

  lemma HitOrTranslation(svc: Service, entries: map<Key, string>, language: string, text: string)
    requires CodesAreLong(svc) && |language| >= 2
    ensures
      var r := Lookup(svc, entries, language, text);
      if Key(language, text) in entries then r == entries[Key(language, text)]
      else IsTranslation(svc, language, text, r)
    ensures HoldsTranslations(svc, entries, language) ==>
      IsTranslation(svc, language, text, Lookup(svc, entries, language, text))
  {
    DirectIsTranslation(svc, language, text);
  }

  // A request is made exactly if some text is not cached, and the call fails exactly if that request is rejected.
  method Translation(svc: Service, cache: Cache, link: Link, srcText: seq<string>, language: string)
    returns (r: Option<seq<string>>)
    requires CodesAreLong(svc) && |language| >= 2
    modifies cache, link
    ensures link.requests == old(link.requests) + if HasMiss(old(cache.entries), srcText, language) then 1 else 0
    ensures r.None? <==> HasMiss(old(cache.entries), srcText, language) && svc.rejects(old(link.requests))
    ensures r.None? || !HasMiss(old(cache.entries), srcText, language) ==> cache.entries == old(cache.entries)
    ensures r.Some? ==> |r.value| == |srcText|
    ensures r.Some? ==> forall i :: 0 <= i < |srcText| ==>
      r.value[i] == Lookup(svc, old(cache.entries), language, srcText[i])
    ensures IsFaithful(svc, old(cache.entries)) && r.Some? ==>
      forall i :: 0 <= i < |srcText| ==> r.value[i] == Direct(svc, language, srcText[i])
    ensures HoldsTranslations(svc, old(cache.entries), language) && r.Some? ==>
      forall i :: 0 <= i < |srcText| ==> IsTranslation(svc, language, srcText[i], r.value[i])
    ensures IsFaithful(svc, old(cache.entries)) ==> IsFaithful(svc, cache.entries)
  {
    var translations := new string[|srcText|](_ => "");
    var toTranslateIdx := FillFromCache(cache, srcText, language, translations);
    if |toTranslateIdx| == 0 {
      r := Some(translations[..]);
      TranslationsFollow(svc, old(cache.entries), language, srcText, r.value);
      return;
    }
    MissAt(cache.entries, srcText, language, toTranslateIdx);
    var toTranslate := seq(|toTranslateIdx|,
      i requires 0 <= i < |toTranslateIdx| && toTranslateIdx[i] < |srcText| => srcText[toTranslateIdx[i]]);
    link.requests := link.requests + 1;
    if svc.rejects(link.requests - 1) {
      return None;
    }
    var resp := seq(|toTranslate|, i requires 0 <= i < |toTranslate| => svc.answer(language, toTranslate[i]));
    FillIn(svc, cache, srcText, language, toTranslateIdx, resp, translations);
    r := Some(translations[..]);
    forall i | 0 <= i < |srcText| ensures r.value[i] == Lookup(svc, old(cache.entries), language, srcText[i]) {}
    TranslationsFollow(svc, old(cache.entries), language, srcText, r.value);
  }

  lemma TranslationsFollow(
      svc: Service, entries: map<Key, string>, language: string, srcText: seq<string>, r: seq<string>)
    requires CodesAreLong(svc) && |language| >= 2 && |r| == |srcText|
    requires forall i :: 0 <= i < |srcText| ==> r[i] == Lookup(svc, entries, language, srcText[i])
    ensures HoldsTranslations(svc, entries, language) ==>
      forall i :: 0 <= i < |srcText| ==> IsTranslation(svc, language, srcText[i], r[i])
  {
    forall i | 0 <= i < |srcText| && HoldsTranslations(svc, entries, language)
      ensures IsTranslation(svc, language, srcText[i], r[i])
    {
      HitOrTranslation(svc, entries, language, srcText[i]);
    }
  }

  // The loop over the texts: the ones that are cached are filled in, the indexes of the others are collected.
  method FillFromCache(cache: Cache, srcText: seq<string>, language: string, translations: array<string>)
    returns (toTranslateIdx: seq<nat>)
    requires translations.Length == |srcText| && forall j :: 0 <= j < |srcText| ==> translations[j] == ""
    modifies translations
    ensures Increasing(toTranslateIdx) && forall j :: 0 <= j < |toTranslateIdx| ==> toTranslateIdx[j] < |srcText|
    ensures forall j :: 0 <= j < |srcText| ==> (Key(language, srcText[j]) in cache.entries <==> j !in toTranslateIdx)
    ensures forall j :: 0 <= j < |srcText| ==>
      translations[j] == if j in toTranslateIdx then "" else Cached(cache.entries, Key(language, srcText[j]))
  {
    toTranslateIdx := [];
    for i := 0 to |srcText|
      invariant forall j :: 0 <= j < |toTranslateIdx| ==> toTranslateIdx[j] < i
      invariant Increasing(toTranslateIdx)
      invariant forall j :: 0 <= j < i ==> (Key(language, srcText[j]) in cache.entries <==> j !in toTranslateIdx)
      invariant forall j :: 0 <= j < i ==>
        translations[j] == if j in toTranslateIdx then "" else Cached(cache.entries, Key(language, srcText[j]))
      invariant forall j :: i <= j < |srcText| ==> translations[j] == ""
    {
      var v := cache.Get(Key(language, srcText[i]));
      if v.Some? {
        translations[i] := v.value;
      } else {
        toTranslateIdx := toTranslateIdx + [i];
      }
    }
  }

  predicate Increasing(s: seq<nat>) { forall i, j :: 0 <= i < j < |s| ==> s[i] < s[j] }

  // The loop over the answers of the service.
  method FillIn(svc: Service, cache: Cache, srcText: seq<string>, language: string, idx: seq<nat>, resp: seq<Answer>,
                translations: array<string>)
    requires CodesAreLong(svc) && |language| >= 2
    requires translations.Length == |srcText| && |resp| == |idx| && Increasing(idx)
    requires forall i :: 0 <= i < |idx| ==>
      idx[i] < |srcText| && resp[i] == svc.answer(language, srcText[idx[i]]) && translations[idx[i]] == ""
    modifies cache, translations
    ensures forall j :: 0 <= j < |srcText| ==>
      translations[j] == if j in idx then Direct(svc, language, srcText[j]) else old(translations[j])
    ensures forall j :: 0 <= j < |srcText| && j in idx ==> IsTranslation(svc, language, srcText[j], translations[j])
    ensures IsFaithful(svc, old(cache.entries)) ==> IsFaithful(svc, cache.entries)
  {
    for i := 0 to |resp|
      invariant forall j :: 0 <= j < |srcText| ==>
        translations[j] == if j in idx[..i] then Direct(svc, language, srcText[j]) else old(translations[j])
      invariant IsFaithful(svc, old(cache.entries)) ==> IsFaithful(svc, cache.entries)
    {
      var t := resp[i];
      assert idx[..i + 1] == idx[..i] + [idx[i]];
      assert idx[i] !in idx[..i];
      if t.detected[..2] != language[..2] {
        translations[idx[i]] := svc.unescape(t.text);
        cache.Add(Key(language, srcText[idx[i]]), svc.unescape(t.text));
      }
    }
    assert idx[..|resp|] == idx;
    forall j | 0 <= j < |srcText| && j in idx ensures IsTranslation(svc, language, srcText[j], translations[j]) {
      DirectIsTranslation(svc, language, srcText[j]);
    }
  }

  // ---------------------------------------------------------------- transparency

  // A successful call returns what translating every text directly would, for every list of texts, exactly if the
  // entries of that language are faithful.
  lemma TransparentIffFaithful(svc: Service, entries: map<Key, string>, language: string)
    requires CodesAreLong(svc) && |language| >= 2
    ensures (forall text :: Lookup(svc, entries, language, text) == Direct(svc, language, text)) <==>
            (forall k :: k in entries && k.language == language ==> entries[k] == Direct(svc, language, k.text))
  {
    if forall text :: Lookup(svc, entries, language, text) == Direct(svc, language, text) {
      forall k | k in entries && k.language == language ensures entries[k] == Direct(svc, language, k.text) {
        assert k == Key(language, k.text);
        assert Lookup(svc, entries, language, k.text) == Direct(svc, language, k.text);
      }
    }
  }

}
