/**
Updates of the tags of a user or a room.

The expression language, the weak decoding of its results and the formatting of floating-point numbers are
arbitrary functions here; everything else is as in the code.
*/
module TagUpdates {
  import opened Wrappers
  import opened Events
  import opened Numbers
  import opened Text

  const TYPE_STRING := 0
  const TYPE_INT := 1
  const TYPE_FLOAT := 2
  const TYPE_STRING_SLICE := 3
  const TYPE_INT_SLICE := 4
  const TYPE_FLOAT_SLICE := 5

  datatype TagUpdate = TagUpdate(name: string, kind: int, index: int, expression: string)

  // V are the results of expressions, F the floating-point numbers.
  datatype Library<!V, !F> = Library(
    eval: (string, Tags) -> Option<V>,
    decodeString: V -> Option<string>,
    decodeInt: V -> Option<int64>,
    decodeFloat: V -> Option<F>,
    parseFloat: string -> F,
    formatFloat: F -> string
  )

  // ---------------------------------------------------------------- the views of a tag

  function AsStringSlice(v: string): seq<string> { Split(v) }

  function AsIntSlice(v: string): seq<int64> {
    seq(|Split(v)|, i requires 0 <= i < |Split(v)| => ParseInt(Split(v)[i]))
  }

  function FormatInts(vs: seq<int64>): seq<string> { seq(|vs|, i requires 0 <= i < |vs| => FormatInt(vs[i])) }

  function AsFloatSlice<V, F>(lib: Library<V, F>, v: string): seq<F> {
    seq(|Split(v)|, i requires 0 <= i < |Split(v)| => lib.parseFloat(Split(v)[i]))
  }

  function FormatFloats<V, F>(lib: Library<V, F>, vs: seq<F>): seq<string> {
    seq(|vs|, i requires 0 <= i < |vs| => lib.formatFloat(vs[i]))
  }

  method ParseInts(v: string) returns (res: array<int64>)
    ensures fresh(res) && res[..] == AsIntSlice(v)
  {
    var parts := Split(v);
    res := new int64[|parts|];
    for i := 0 to |parts|
      invariant forall j :: 0 <= j < i ==> res[j] == ParseInt(parts[j])
    {
      res[i] := ParseInt(parts[i]);
    }
  }

  method ParseFloats<V, F(0)>(lib: Library<V, F>, v: string) returns (res: array<F>)
    ensures fresh(res) && res[..] == AsFloatSlice(lib, v)
  {
    var parts := Split(v);
    res := new F[|parts|];
    for i := 0 to |parts|
      invariant forall j :: 0 <= j < i ==> res[j] == lib.parseFloat(parts[j])
    {
      res[i] := lib.parseFloat(parts[i]);
    }
  }

  method PrintInts(vs: array<int64>) returns (strs: array<string>)
    ensures fresh(strs) && strs[..] == FormatInts(vs[..])
  {
    strs := new string[vs.Length];
    for i := 0 to vs.Length
      invariant forall j :: 0 <= j < i ==> strs[j] == FormatInt(vs[j])
    {
      strs[i] := FormatInt(vs[i]);
    }
  }

  method PrintFloats<V, F>(lib: Library<V, F>, vs: array<F>) returns (strs: array<string>)
    ensures fresh(strs) && strs[..] == FormatFloats(lib, vs[..])
  {
    strs := new string[vs.Length];
    for i := 0 to vs.Length
      invariant forall j :: 0 <= j < i ==> strs[j] == lib.formatFloat(vs[j])
    {
      strs[i] := lib.formatFloat(vs[i]);
    }
  }

  // ---------------------------------------------------------------- what one update does

  // The tag that an update reads before it writes it; a missing one counts as empty.
  function Previous(tags: Tags, name: string): string { if name in tags then tags[name] else "" }

  // The new text of the tag, or None if the update leaves the tags alone although it succeeds.
  datatype Effect = Failed | Unchanged | Written(text: string)

  function EffectOf<V, F>(lib: Library<V, F>, tags: Tags, u: TagUpdate): Effect
    requires u.index >= 0
  {
    match lib.eval(u.expression, tags)
    case None => Failed
    case Some(v) =>
      var prev := Previous(tags, u.name);
      if u.kind == TYPE_STRING then
        match lib.decodeString(v) { case None => Failed case Some(s) => Written(s) }
      else if u.kind == TYPE_INT then
        match lib.decodeInt(v) { case None => Failed case Some(n) => Written(FormatInt(n)) }
      else if u.kind == TYPE_FLOAT then
        match lib.decodeFloat(v) { case None => Failed case Some(x) => Written(lib.formatFloat(x)) }
      else if u.kind == TYPE_STRING_SLICE then
        match lib.decodeString(v) {
          case None => Failed
          case Some(s) =>
            if u.index < |AsStringSlice(prev)| then Written(SpliceString(prev, u.index, s)) else Unchanged }
      else if u.kind == TYPE_INT_SLICE then
        match lib.decodeInt(v) {
          case None => Failed
          case Some(n) => if u.index < |AsIntSlice(prev)| then Written(ReplaceInt(prev, u.index, n)) else Unchanged }
      else if u.kind == TYPE_FLOAT_SLICE then
        match lib.decodeFloat(v) {
          case None => Failed
          case Some(x) =>
            if u.index < |AsFloatSlice(lib, prev)| then Written(ReplaceFloat(lib, prev, u.index, x))
            else Unchanged }
      else Unchanged
  }

  function SpliceString(text: string, k: nat, v: string): string
    requires k < |AsStringSlice(text)|
  {
    Join(AsStringSlice(text)[k := v], ",")
  }

  function ReplaceInt(text: string, k: nat, n: int64): string
    requires k < |AsIntSlice(text)|
  {
    Join(FormatInts(AsIntSlice(text)[k := n]), ",")
  }

  function ReplaceFloat<V, F>(lib: Library<V, F>, text: string, k: nat, x: F): string
    requires k < |AsFloatSlice(lib, text)|
  {
    Join(FormatFloats(lib, AsFloatSlice(lib, text)[k := x]), ",")
  }

  function After(tags: Tags, name: string, e: Effect): Tags {
    if e.Written? then tags[name := e.text] else tags
  }

  function TagsAfter<V, F>(lib: Library<V, F>, tags: Tags, us: seq<TagUpdate>): Tags
    requires forall u :: u in us ==> u.index >= 0
    decreases |us|
  {
    if us == [] then tags else TagsAfter(lib, After(tags, us[0].name, EffectOf(lib, tags, us[0])), us[1..])
  }

  // The flag of each update, given the tags it sees.
  function FlagsOf<V, F>(lib: Library<V, F>, tags: Tags, us: seq<TagUpdate>): (flags: seq<bool>)
    requires forall u :: u in us ==> u.index >= 0
    ensures |flags| == |us|
    decreases |us|
  {
    if us == [] then []
    else
      var e := EffectOf(lib, tags, us[0]);
      [e != Failed] + FlagsOf(lib, After(tags, us[0].name, e), us[1..])
  }

  // Taking the i-th of the updates off.
  lemma NextUpdate<V, F>(lib: Library<V, F>, tags: Tags, us: seq<TagUpdate>, i: nat)
    requires i < |us| && forall u :: u in us ==> u.index >= 0
    ensures
      var e := EffectOf(lib, tags, us[i]);
      var tags' := After(tags, us[i].name, e);
      && TagsAfter(lib, tags, us[i..]) == TagsAfter(lib, tags', us[i + 1..])
      && FlagsOf(lib, tags, us[i..]) == [e != Failed] + FlagsOf(lib, tags', us[i + 1..])
  {
    assert us[i..][0] == us[i] && us[i..][1..] == us[i + 1..];
  }

  // ---------------------------------------------------------------- what an update means, kind by kind

  // The tags are as before but for the one of this name.
  predicate OnlyChanges(tags: Tags, tags': Tags, name: string) { name in tags' && tags' == tags[name := tags'[name]] }

  // The outcome of an update, with the kinds as numbers: 0 to 2 set the tag to a text, an integer or a float, 3 to 5
  // set one part of a comma list of them if there is such a part, and other kinds do nothing.
  ghost predicate IsOutcome<V, F>(lib: Library<V, F>, tags: Tags, u: TagUpdate, tags': Tags, ok: bool)
    requires u.index >= 0
  {
    var v := lib.eval(u.expression, tags);
    var prev := if u.name in tags then tags[u.name] else "";
    if v.None? then !ok && tags' == tags
    else if u.kind == 0 || u.kind == 3 then IsTextOutcome(tags, u, lib.decodeString(v.value), Split(prev), tags', ok)
    else if u.kind == 1 || u.kind == 4 then IsIntOutcome(tags, u, lib.decodeInt(v.value), AsIntSlice(prev), tags', ok)
    else if u.kind == 2 || u.kind == 5 then
      IsFloatOutcome(lib, tags, u, lib.decodeFloat(v.value), AsFloatSlice(lib, prev), tags', ok)
    else ok && tags' == tags
  }

  ghost predicate IsTextOutcome(
      tags: Tags, u: TagUpdate, text: Option<string>, parts: seq<string>, tags': Tags, ok: bool)
    requires u.index >= 0
  {
    if text.None? then !ok && tags' == tags
    else if u.kind == 0 then ok && tags' == tags[u.name := text.value]
    else if u.index >= |parts| then ok && tags' == tags
    else
      && ok && OnlyChanges(tags, tags', u.name)
      && Split(tags'[u.name]) == parts[..u.index] + (Split(text.value) + parts[u.index + 1..])
  }

  ghost predicate IsIntOutcome(tags: Tags, u: TagUpdate, n: Option<int64>, ints: seq<int64>, tags': Tags, ok: bool)
    requires u.index >= 0
  {
    if n.None? then !ok && tags' == tags
    else if u.kind == 1 then ok && OnlyChanges(tags, tags', u.name) && ParseInt(tags'[u.name]) == n.value
    else if u.index >= |ints| then ok && tags' == tags
    else ok && OnlyChanges(tags, tags', u.name) && AsIntSlice(tags'[u.name]) == ints[u.index := n.value]
  }

  ghost predicate IsFloatOutcome<V, F>(
      lib: Library<V, F>, tags: Tags, u: TagUpdate, x: Option<F>, floats: seq<F>, tags': Tags, ok: bool)
    requires u.index >= 0
  {
    if x.None? then !ok && tags' == tags
    else if u.kind == 2 then ok && tags' == tags[u.name := lib.formatFloat(x.value)]
    else if u.index >= |floats| then ok && tags' == tags
    else
      && ok && OnlyChanges(tags, tags', u.name)
      && tags'[u.name] == Join(seq(|floats|, i requires 0 <= i < |floats| =>
           lib.formatFloat(if i == u.index then x.value else floats[i])), ",")
  }

  lemma NextFlag(flags: seq<bool>, ok: bool, rest: seq<bool>)
    ensures flags + ([ok] + rest) == (flags + [ok]) + rest
  {
  }

  // ---------------------------------------------------------------- the code

  // A Go map: updated in place, shared by reference.
  class TagMap {
    var tags: Tags

    constructor (tags: Tags)
      ensures this.tags == tags
    {
      this.tags := tags;
    }

    // One round of the loop over the updates.
    method Update<V, F(0)>(lib: Library<V, F>, u: TagUpdate) returns (ok: bool)
      requires u.index >= 0
      modifies this
      ensures tags == After(old(tags), u.name, EffectOf(lib, old(tags), u))
      ensures ok == (EffectOf(lib, old(tags), u) != Failed)
    {
      var res := lib.eval(u.expression, tags);
      if res.None? {
        return false;
      }
      if u.kind == TYPE_STRING {
        ok := UpdateString(lib, u, res.value);
      } else if u.kind == TYPE_INT {
        ok := UpdateInt(lib, u, res.value);
      } else if u.kind == TYPE_FLOAT {
        ok := UpdateFloat(lib, u, res.value);
      } else if u.kind == TYPE_STRING_SLICE {
        ok := UpdateStringSlice(lib, u, res.value);
      } else if u.kind == TYPE_INT_SLICE {
        ok := UpdateIntSlice(lib, u, res.value);
      } else if u.kind == TYPE_FLOAT_SLICE {
        ok := UpdateFloatSlice(lib, u, res.value);
      } else {
        ok := true;
      }
    }

    method UpdateString<V, F>(lib: Library<V, F>, u: TagUpdate, v: V) returns (ok: bool)
      modifies this
      ensures ok == lib.decodeString(v).Some?
      ensures tags == if ok then old(tags)[u.name := lib.decodeString(v).value] else old(tags)
    {
      var s := lib.decodeString(v);
      if s.None? {
        return false;
      }
      tags := tags[u.name := s.value];
      ok := true;
    }

    method UpdateInt<V, F>(lib: Library<V, F>, u: TagUpdate, v: V) returns (ok: bool)
      modifies this
      ensures ok == lib.decodeInt(v).Some?
      ensures tags == if ok then old(tags)[u.name := FormatInt(lib.decodeInt(v).value)] else old(tags)
    {
      var n := lib.decodeInt(v);
      if n.None? {
        return false;
      }
      tags := tags[u.name := FormatInt(n.value)];
      ok := true;
    }

    method UpdateFloat<V, F>(lib: Library<V, F>, u: TagUpdate, v: V) returns (ok: bool)
      modifies this
      ensures ok == lib.decodeFloat(v).Some?
      ensures tags == if ok then old(tags)[u.name := lib.formatFloat(lib.decodeFloat(v).value)] else old(tags)
    {
      var x := lib.decodeFloat(v);
      if x.None? {
        return false;
      }
      tags := tags[u.name := lib.formatFloat(x.value)];
      ok := true;
    }

    method UpdateStringSlice<V, F>(lib: Library<V, F>, u: TagUpdate, v: V) returns (ok: bool)
      requires u.index >= 0
      modifies this
      ensures ok == lib.decodeString(v).Some?
      ensures
        var prev := Previous(old(tags), u.name);
        tags == if ok && u.index < |AsStringSlice(prev)|
                then old(tags)[u.name := SpliceString(prev, u.index, lib.decodeString(v).value)] else old(tags)
    {
      var s := lib.decodeString(v);
      if s.None? {
        return false;
      }
      var prevValues := AsStringSlice(Previous(tags, u.name));
      if |prevValues| > u.index {
        prevValues := prevValues[u.index := s.value];
        tags := tags[u.name := Join(prevValues, ",")];
      }
      ok := true;
    }

    method UpdateIntSlice<V, F>(lib: Library<V, F>, u: TagUpdate, v: V) returns (ok: bool)
      requires u.index >= 0
      modifies this
      ensures ok == lib.decodeInt(v).Some?
      ensures
        var prev := Previous(old(tags), u.name);
        tags == if ok && u.index < |AsIntSlice(prev)|
                then old(tags)[u.name := ReplaceInt(prev, u.index, lib.decodeInt(v).value)] else old(tags)
    {
      var n := lib.decodeInt(v);
      if n.None? {
        return false;
      }
      var prevValues := ParseInts(Previous(tags, u.name));
      if prevValues.Length > u.index {
        prevValues[u.index] := n.value;
        var prevValuesStr := PrintInts(prevValues);
        tags := tags[u.name := Join(prevValuesStr[..], ",")];
      }
      ok := true;
    }

    method UpdateFloatSlice<V, F(0)>(lib: Library<V, F>, u: TagUpdate, v: V) returns (ok: bool)
      requires u.index >= 0
      modifies this
      ensures ok == lib.decodeFloat(v).Some?
      ensures
        var prev := Previous(old(tags), u.name);
        tags == if ok && u.index < |AsFloatSlice(lib, prev)|
                then old(tags)[u.name := ReplaceFloat(lib, prev, u.index, lib.decodeFloat(v).value)]
                else old(tags)
    {
      var x := lib.decodeFloat(v);
      if x.None? {
        return false;
      }
      var prevValues := ParseFloats(lib, Previous(tags, u.name));
      if prevValues.Length > u.index {
        prevValues[u.index] := x.value;
        var prevValuesStr := PrintFloats(lib, prevValues);
        tags := tags[u.name := Join(prevValuesStr[..], ",")];
      }
      ok := true;
    }
  }

  // A nil map is left alone and every flag is false.
  method UpdateTags<V, F(0)>(lib: Library<V, F>, m: TagMap?, us: seq<TagUpdate>) returns (resOk: array<bool>)
    requires forall u :: u in us ==> u.index >= 0
    modifies m
    ensures fresh(resOk)
    ensures m == null ==> resOk[..] == seq(|us|, _ => false)
    ensures m != null ==> m.tags == TagsAfter(lib, old(m.tags), us) && resOk[..] == FlagsOf(lib, old(m.tags), us)
  {
    resOk := new bool[|us|](_ => false);
    if m == null {
      return;
    }
    for i := 0 to |us|
      invariant TagsAfter(lib, old(m.tags), us) == TagsAfter(lib, m.tags, us[i..])
      invariant FlagsOf(lib, old(m.tags), us) == resOk[..i] + FlagsOf(lib, m.tags, us[i..])
    {
      ghost var flags := resOk[..i];
      NextUpdate(lib, m.tags, us, i);
      var ok := m.Update(lib, us[i]);
      resOk[i] := ok;
      NextFlag(flags, ok, FlagsOf(lib, m.tags, us[i + 1..]));
      assert resOk[..i + 1] == flags + [ok];
    }
    assert us[|us|..] == [];
  }

}
