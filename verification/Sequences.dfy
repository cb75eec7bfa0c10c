// Properties of sequences that several modules use.
module Sequences {

  predicate Distinct<T(==)>(s: seq<T>) { forall i, j :: 0 <= i < j < |s| ==> s[i] != s[j] }

  function Flatten<T>(parts: seq<seq<T>>): seq<T> {
    if parts == [] then [] else Flatten(parts[..|parts| - 1]) + parts[|parts| - 1]
  }

  // kept consists of the elements of s at the positions idx, which are in increasing order.
  ghost predicate Picks<T>(idx: seq<nat>, kept: seq<T>, s: seq<T>) {
    && |idx| == |kept|
    && (forall j :: 0 <= j < |idx| ==> idx[j] < |s| && kept[j] == s[idx[j]])
    && (forall i, j :: 0 <= i < j < |idx| ==> idx[i] < idx[j])
  }

  // The elements whose flag is true.
  function Keep<T>(s: seq<T>, flags: seq<bool>): seq<T>
    requires |flags| == |s|
  {
    if s == [] then []
    else
      var front := Keep(s[..|s| - 1], flags[..|s| - 1]);
      if flags[|s| - 1] then front + [s[|s| - 1]] else front
  }

  lemma KeepNext<T>(s: seq<T>, flags: seq<bool>, n: nat)
    requires n < |s| == |flags|
    ensures Keep(s[..n + 1], flags[..n + 1]) ==
      Keep(s[..n], flags[..n]) + if flags[n] then [s[n]] else []
  {
    assert s[..n + 1][..n] == s[..n] && flags[..n + 1][..n] == flags[..n];
  }

  // Where the flags are true.
  function Positions(flags: seq<bool>): (idx: seq<nat>)
    ensures forall j :: 0 <= j < |idx| ==> idx[j] < |flags| && flags[idx[j]]
    ensures forall i, j :: 0 <= i < j < |idx| ==> idx[i] < idx[j]
  {
    if flags == [] then []
    else
      var n := |flags| - 1;
      if flags[n] then Positions(flags[..n]) + [n] else Positions(flags[..n])
  }

  lemma {:induction false} PositionsAreAll(flags: seq<bool>, i: nat)
    requires i < |flags| && flags[i]
    ensures i in Positions(flags)
  {
    if i < |flags| - 1 { PositionsAreAll(flags[..|flags| - 1], i); }
  }

  lemma {:induction false} KeepIsAtPositions<T>(s: seq<T>, flags: seq<bool>)
    requires |flags| == |s|
    ensures |Keep(s, flags)| == |Positions(flags)|
    ensures forall j :: 0 <= j < |Keep(s, flags)| ==> Keep(s, flags)[j] == s[Positions(flags)[j]]
  {
    if s != [] { KeepIsAtPositions(s[..|s| - 1], flags[..|s| - 1]); }
  }

  lemma KeepPicks<T>(s: seq<T>, flags: seq<bool>) returns (idx: seq<nat>)
    requires |flags| == |s|
    ensures Picks(idx, Keep(s, flags), s)
    ensures forall i :: 0 <= i < |s| ==> (i in idx <==> flags[i])
  {
    idx := Positions(flags);
    KeepIsAtPositions(s, flags);
    forall i | 0 <= i < |s| && flags[i] ensures i in idx { PositionsAreAll(flags, i); }
  }

}
