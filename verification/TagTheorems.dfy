/**
What tag updates promise: slices are updated at one position, failed updates leave no trace, and nothing but the
named tags changes.
*/
module TagTheorems {
  import opened Wrappers
  import opened Events
  import opened Numbers
  import opened Text
  import opened TagUpdates

  lemma FormatIntsArePlain(vs: seq<int64>)
    ensures forall i :: 0 <= i < |vs| ==> IsPlain(FormatInts(vs)[i]) && ParseInt(FormatInts(vs)[i]) == vs[i]
  {
    forall i | 0 <= i < |vs| ensures IsPlain(FormatInts(vs)[i]) && ParseInt(FormatInts(vs)[i]) == vs[i] {
      ParseIntOfFormat(vs[i]);
    }
  }

  // The text of a list of integers is read back as that list.
  lemma IntsRoundTrip(vs: seq<int64>)
    requires vs != []
    ensures AsIntSlice(Join(FormatInts(vs), ",")) == vs
  {
    FormatIntsArePlain(vs);
    SplitOfJoin(FormatInts(vs));
    SplitAllOfPlain(FormatInts(vs));
  }

  // Whatever the tag held before, an integer slice update changes the one position and no other.
  lemma IntSliceUpdateIsPointwise(text: string, k: nat, n: int64)
    requires k < |AsIntSlice(text)|
    ensures AsIntSlice(ReplaceInt(text, k, n)) == AsIntSlice(text)[k := n]
  {
    IntsRoundTrip(AsIntSlice(text)[k := n]);
  }

  // The same for the tag map: an update that evaluates to n sets position k of the slice, if there is one.
  lemma IntSliceUpdateOfTags<V, F>(lib: Library<V, F>, tags: Tags, u: TagUpdate, n: int64)
    requires u.kind == TYPE_INT_SLICE && u.index >= 0
    requires lib.eval(u.expression, tags).Some? && lib.decodeInt(lib.eval(u.expression, tags).value) == Some(n)
    ensures
      var before := AsIntSlice(Previous(tags, u.name));
      var after := AsIntSlice(Previous(After(tags, u.name, EffectOf(lib, tags, u)), u.name));
      after == if u.index < |before| then before[u.index := n] else before
  {
    var text := Previous(tags, u.name);
    if u.index < |AsIntSlice(text)| { IntSliceUpdateIsPointwise(text, u.index, n); }
  }

  // A string slice update splices the parts of the new value in at the position.
  lemma StringSliceUpdateSplices(text: string, k: nat, v: string)
    requires k < |AsStringSlice(text)|
    ensures
      var parts := AsStringSlice(text);
      && AsStringSlice(SpliceString(text, k, v)) == parts[..k] + (AsStringSlice(v) + parts[k + 1..])
      && |AsStringSlice(SpliceString(text, k, v))| == |parts| + Commas(v)
  {
    PartsArePlain(text);
    SplitOfReplaced(AsStringSlice(text), k, v);
    CommasSeparateParts(v);
  }

  // ---------------------------------------------------------------- every kind of update

  lemma ListUpdatesSplice(text: string, k: nat, v: string, n: int64)
    ensures k < |AsStringSlice(text)| ==>
      Split(SpliceString(text, k, v)) == Split(text)[..k] + (Split(v) + Split(text)[k + 1..])
    ensures k < |AsIntSlice(text)| ==> AsIntSlice(ReplaceInt(text, k, n)) == AsIntSlice(text)[k := n]
  {
    if k < |AsStringSlice(text)| {
      StringSliceUpdateSplices(text, k, v);
      IntSliceUpdateIsPointwise(text, k, n);
    }
  }

  lemma FloatsAreReplaced<V, F>(lib: Library<V, F>, text: string, k: nat, x: F)
    requires k < |AsFloatSlice(lib, text)|
    ensures
      var floats := AsFloatSlice(lib, text);
      ReplaceFloat(lib, text, k, x) ==
        Join(seq(|floats|, i requires 0 <= i < |floats| => lib.formatFloat(if i == k then x else floats[i])), ",")
  {
    var floats := AsFloatSlice(lib, text);
    assert FormatFloats(lib, floats[k := x]) ==
      seq(|floats|, i requires 0 <= i < |floats| => lib.formatFloat(if i == k then x else floats[i]));
  }

  lemma TextUpdateHasItsOutcome<V, F>(lib: Library<V, F>, tags: Tags, u: TagUpdate, v: V, tags': Tags, ok: bool)
    requires u.index >= 0 && lib.eval(u.expression, tags) == Some(v) && (u.kind == 0 || u.kind == 3)
    requires tags' == After(tags, u.name, EffectOf(lib, tags, u)) && ok == (EffectOf(lib, tags, u) != Failed)
    ensures IsTextOutcome(tags, u, lib.decodeString(v), Split(Previous(tags, u.name)), tags', ok)
  {
    if lib.decodeString(v).Some? { ListUpdatesSplice(Previous(tags, u.name), u.index, lib.decodeString(v).value, 0); }
  }

  lemma IntUpdateHasItsOutcome<V, F>(lib: Library<V, F>, tags: Tags, u: TagUpdate, v: V, tags': Tags, ok: bool)
    requires u.index >= 0 && lib.eval(u.expression, tags) == Some(v) && (u.kind == 1 || u.kind == 4)
    requires tags' == After(tags, u.name, EffectOf(lib, tags, u)) && ok == (EffectOf(lib, tags, u) != Failed)
    ensures IsIntOutcome(tags, u, lib.decodeInt(v), AsIntSlice(Previous(tags, u.name)), tags', ok)
  {
    if lib.decodeInt(v).Some? {
      ParseIntOfFormat(lib.decodeInt(v).value);
      ListUpdatesSplice(Previous(tags, u.name), u.index, "", lib.decodeInt(v).value);
    }
  }

  lemma FloatUpdateHasItsOutcome<V, F>(lib: Library<V, F>, tags: Tags, u: TagUpdate, v: V, tags': Tags, ok: bool)
    requires u.index >= 0 && lib.eval(u.expression, tags) == Some(v) && (u.kind == 2 || u.kind == 5)
    requires tags' == After(tags, u.name, EffectOf(lib, tags, u)) && ok == (EffectOf(lib, tags, u) != Failed)
    ensures IsFloatOutcome(lib, tags, u, lib.decodeFloat(v), AsFloatSlice(lib, Previous(tags, u.name)), tags', ok)
  {
    var prev := Previous(tags, u.name);
    if lib.decodeFloat(v).Some? && u.index < |AsFloatSlice(lib, prev)| {
      FloatsAreReplaced(lib, prev, u.index, lib.decodeFloat(v).value);
    }
  }

  lemma OneUpdate<V, F>(lib: Library<V, F>, tags: Tags, u: TagUpdate)
    requires u.index >= 0
    ensures TagsAfter(lib, tags, [u]) == After(tags, u.name, EffectOf(lib, tags, u))
    ensures FlagsOf(lib, tags, [u]) == [EffectOf(lib, tags, u) != Failed]
  {
    assert [u][1..] == [];
  }

  // One update, of any kind, does what its kind says.
  lemma UpdateHasItsOutcome<V, F>(lib: Library<V, F>, tags: Tags, u: TagUpdate)
    requires u.index >= 0
    ensures IsOutcome(lib, tags, u, TagsAfter(lib, tags, [u]), FlagsOf(lib, tags, [u])[0])
  {
    var tags', ok := TagsAfter(lib, tags, [u]), FlagsOf(lib, tags, [u])[0];
    OneUpdate(lib, tags, u);
    match lib.eval(u.expression, tags)
    case None =>
    case Some(v) =>
      if u.kind == 0 || u.kind == 3 { TextUpdateHasItsOutcome(lib, tags, u, v, tags', ok); }
      if u.kind == 1 || u.kind == 4 { IntUpdateHasItsOutcome(lib, tags, u, v, tags', ok); }
      if u.kind == 2 || u.kind == 5 { FloatUpdateHasItsOutcome(lib, tags, u, v, tags', ok); }
  }

  // ---------------------------------------------------------------- a whole list of updates

  predicate Indexed(us: seq<TagUpdate>) { forall u :: u in us ==> u.index >= 0 }

  // The updates whose flag is true, in order.
  function Kept(us: seq<TagUpdate>, flags: seq<bool>): (kept: seq<TagUpdate>)
    requires |flags| == |us|
    ensures forall u :: u in kept ==> u in us
  {
    if us == [] then [] else (if flags[0] then [us[0]] else []) + Kept(us[1..], flags[1..])
  }

  // Leaving out the updates that failed changes neither the resulting tags nor the success of the others.
  lemma {:induction false} FailedUpdatesAreInvisible<V, F>(lib: Library<V, F>, tags: Tags, us: seq<TagUpdate>)
    requires Indexed(us)
    ensures
      var kept := Kept(us, FlagsOf(lib, tags, us));
      && TagsAfter(lib, tags, kept) == TagsAfter(lib, tags, us)
      && FlagsOf(lib, tags, kept) == seq(|kept|, _ => true)
    decreases |us|
  {
    if us != [] {
      var e := EffectOf(lib, tags, us[0]);
      var tags' := After(tags, us[0].name, e);
      var flags := FlagsOf(lib, tags, us);
      FailedUpdatesAreInvisible(lib, tags', us[1..]);
      assert flags[1..] == FlagsOf(lib, tags', us[1..]);
      var rest := Kept(us[1..], flags[1..]);
      if e == Failed {
        assert Kept(us, flags) == rest;
      } else {
        assert Kept(us, flags) == [us[0]] + rest;
        assert Kept(us, flags)[1..] == rest;
        assert [true] + seq(|rest|, _ => true) == seq(|rest| + 1, _ => true);
      }
    }
  }

  // Later updates see the effects of earlier ones: a list of updates is one part after the other.
  lemma {:induction false} UpdatesCompose<V, F>(lib: Library<V, F>, tags: Tags, a: seq<TagUpdate>, b: seq<TagUpdate>)
    requires Indexed(a + b)
    ensures Indexed(a) && Indexed(b)
    ensures TagsAfter(lib, tags, a + b) == TagsAfter(lib, TagsAfter(lib, tags, a), b)
    ensures FlagsOf(lib, tags, a + b) == FlagsOf(lib, tags, a) + FlagsOf(lib, TagsAfter(lib, tags, a), b)
    decreases |a|
  {
    assert forall u :: u in a || u in b ==> u in a + b;
    if a == [] {
      assert a + b == b;
    } else {
      var tags' := After(tags, a[0].name, EffectOf(lib, tags, a[0]));
      assert (a + b)[1..] == a[1..] + b;
      UpdatesCompose(lib, tags', a[1..], b);
    }
  }

  // Tags that no update names are as before, and no tag disappears.
  lemma {:induction false} OtherTagsStay<V, F>(lib: Library<V, F>, tags: Tags, us: seq<TagUpdate>, name: string)
    requires Indexed(us)
    ensures name in tags ==> name in TagsAfter(lib, tags, us)
    ensures (forall u :: u in us ==> u.name != name) ==>
      && (name in TagsAfter(lib, tags, us) <==> name in tags)
      && (name in tags ==> TagsAfter(lib, tags, us)[name] == tags[name])
    decreases |us|
  {
    if us != [] {
      OtherTagsStay(lib, After(tags, us[0].name, EffectOf(lib, tags, us[0])), us[1..], name);
    }
  }

}
