/**
Reading the stored events of a room page by page.
*/
module EventPaging {
  import opened Wrappers
  import opened Events
  import opened Sequences

  // An event from the store; history marks it as such.
  datatype Loaded = Loaded(event: Event, history: bool)

  // json.Unmarshal of a stored value.
  type Decode = string -> Option<Event>

  function Decoded(decode: Decode, values: seq<string>): seq<Loaded> {
    if values == [] then []
    else
      var front := Decoded(decode, values[..|values| - 1]);
      var last := decode(values[|values| - 1]);
      if last.Some? then front + [Loaded(last.value, true)] else front
  }

  // The first position of a page and the position after its last one, in a range of n values.
  function From(n: nat, fromIdx: int): (lo: nat)
    ensures lo <= n
  {
    if fromIdx < 0 then 0 else if fromIdx < n then fromIdx else n
  }

  function To(n: nat, fromIdx: int, maxCount: int): (hi: nat)
    ensures From(n, fromIdx) <= hi <= n
  {
    if maxCount <= 0 then n else if From(n, fromIdx) + maxCount < n then From(n, fromIdx) + maxCount else n
  }

  function Page(decode: Decode, values: seq<string>, fromIdx: int, maxCount: int): seq<Loaded> {
    Decoded(decode, values[From(|values|, fromIdx)..To(|values|, fromIdx, maxCount)])
  }

  // events are the values at the positions from fromIdx on that can be decoded, up to position fromIdx + maxCount if
  // maxCount is positive, each once, in order and marked as history.
  ghost predicate IsPage(decode: Decode, values: seq<string>, fromIdx: int, maxCount: int, events: seq<Loaded>) {
    exists idx, texts ::
      && Picks(idx, texts, values)
      && (forall i :: 0 <= i < |values| ==>
            (i in idx <==> fromIdx <= i && (maxCount <= 0 || i < fromIdx + maxCount || (fromIdx < 0 && i < maxCount)) &&
                           decode(values[i]).Some?))
      && IsDecoded(decode, texts, events)
  }

  ghost predicate IsDecoded(decode: Decode, texts: seq<string>, events: seq<Loaded>) {
    && |events| == |texts|
    && forall j :: 0 <= j < |texts| ==> decode(texts[j]).Some? && events[j] == Loaded(decode(texts[j]).value, true)
  }

  lemma {:induction false} DecodedIsKept(decode: Decode, values: seq<string>, flags: seq<bool>)
    requires |flags| == |values| && forall i :: 0 <= i < |values| ==> (flags[i] <==> decode(values[i]).Some?)
    ensures IsDecoded(decode, Keep(values, flags), Decoded(decode, values))
  {
    if values != [] { DecodedIsKept(decode, values[..|values| - 1], flags[..|values| - 1]); }
  }

  // The positions of a slice are those of the whole, moved by where the slice starts.
  lemma PicksOfSlice<T>(idx: seq<nat>, kept: seq<T>, s: seq<T>, lo: nat, hi: nat) returns (idx': seq<nat>)
    requires lo <= hi <= |s| && Picks(idx, kept, s[lo..hi])
    ensures Picks(idx', kept, s)
    ensures forall i :: 0 <= i < |s| ==> (i in idx' <==> lo <= i < hi && i - lo in idx)
  {
    idx' := seq(|idx|, j requires 0 <= j < |idx| => idx[j] + lo);
    forall i | 0 <= i < |s| ensures i in idx' <==> lo <= i < hi && i - lo in idx {
      if lo <= i < hi && i - lo in idx {
        var j :| 0 <= j < |idx| && idx[j] == i - lo;
        assert idx'[j] == i;
      }
    }
  }

  lemma PageIsPage(decode: Decode, values: seq<string>, fromIdx: int, maxCount: int)
    ensures IsPage(decode, values, fromIdx, maxCount, Page(decode, values, fromIdx, maxCount))
  {
    var lo, hi := From(|values|, fromIdx), To(|values|, fromIdx, maxCount);
    var slice := values[lo..hi];
    var flags := seq(|slice|, i requires 0 <= i < |slice| => decode(slice[i]).Some?);
    DecodedIsKept(decode, slice, flags);
    var idx := KeepPicks(slice, flags);
    idx := PicksOfSlice(idx, Keep(slice, flags), values, lo, hi);
  }

  // values is the range in descending order, or None if the room has no database.
  method GetEventHistory(decode: Decode, values: Option<seq<string>>, fromIdx: int, maxCount: int)
    returns (events: Option<seq<Loaded>>)
    ensures events == if values.Some? then Some(Page(decode, values.value, fromIdx, maxCount)) else None
    ensures events.Some? ==> IsPage(decode, values.value, fromIdx, maxCount, events.value)
  {
    if values.None? {
      return None;
    }
    var out := [];
    var currentNo := -1;
    var count := 0;
    var more := true;
    var vals := values.value;
    ghost var lo, hi := From(|vals|, fromIdx), To(|vals|, fromIdx, maxCount);
    while more && currentNo + 1 < |vals|
      invariant -1 <= currentNo < |vals|
      invariant count == if currentNo + 1 <= lo then 0 else currentNo + 1 - lo
      invariant currentNo + 1 <= hi || currentNo + 1 <= lo
      invariant out == if currentNo + 1 <= lo then [] else Decoded(decode, vals[lo..currentNo + 1])
      invariant more <==> !(maxCount > 0 && count >= maxCount)
      decreases |vals| - currentNo
    {
      currentNo := currentNo + 1;
      if currentNo < fromIdx {
        continue;
      }
      assert vals[lo..currentNo + 1][..currentNo - lo] == vals[lo..currentNo];
      var event := decode(vals[currentNo]);
      if event.Some? {
        out := out + [Loaded(event.value, true)];
      }
      count := count + 1;
      more := maxCount <= 0 || count < maxCount;
    }
    PageIsPage(decode, vals, fromIdx, maxCount);
    events := Some(out);
  }

  // ---------------------------------------------------------------- pages add up

  lemma {:induction false} DecodedOfConcat(decode: Decode, a: seq<string>, b: seq<string>)
    ensures Decoded(decode, a + b) == Decoded(decode, a) + Decoded(decode, b)
  {
    if b == [] {
      assert a + b == a;
    } else {
      assert (a + b)[..|a + b| - 1] == a + b[..|b| - 1];
      DecodedOfConcat(decode, a, b[..|b| - 1]);
    }
  }

  // The first p pages of m values each.
  function Pages(decode: Decode, values: seq<string>, m: nat, p: nat): seq<Loaded> {
    if p == 0 then [] else Pages(decode, values, m, p - 1) + Page(decode, values, (p - 1) * m, m)
  }

  lemma {:induction false} PagesArePrefix(decode: Decode, values: seq<string>, m: nat, p: nat)
    requires m > 0
    ensures Pages(decode, values, m, p) == Decoded(decode, values[..From(|values|, p * m)])
  {
    if p > 0 {
      PagesArePrefix(decode, values, m, p - 1);
      var lo, hi := From(|values|, (p - 1) * m), From(|values|, p * m);
      assert p * m == (p - 1) * m + m;
      assert hi == To(|values|, (p - 1) * m, m);
      assert values[..hi] == values[..lo] + values[lo..hi];
      DecodedOfConcat(decode, values[..lo], values[lo..hi]);
    }
  }

  // On an unchanged store, consecutive pages of any size put together are what reading without a limit returns.
  lemma PagesAreComplete(decode: Decode, values: seq<string>, m: nat, p: nat, unlimited: int)
    requires m > 0 && p * m >= |values| && unlimited <= 0
    ensures Pages(decode, values, m, p) == Page(decode, values, 0, unlimited)
  {
    PagesArePrefix(decode, values, m, p);
    assert values[..|values|] == values && values[0..|values|] == values;
  }

}
