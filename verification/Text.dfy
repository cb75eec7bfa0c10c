/**
The string functions of the Go library that the server relies on, and how they undo each other: Split and Join on
commas, Fields and TrimSpace on white space.
*/
module Text {

  // ---------------------------------------------------------------- Split and Join

  // strings.Split with a comma.
  function Split(s: string): (parts: seq<string>)
    ensures |parts| >= 1
  {
    if s == "" then [""] else Prepend(s[0], Split(s[1..]))
  }

  // One more character in front: a comma starts a new part, any other joins the first part.
  function Prepend(c: char, parts: seq<string>): seq<string>
    requires |parts| >= 1
  {
    if c == ',' then [""] + parts else [[c] + parts[0]] + parts[1..]
  }

  function Join(parts: seq<string>, sep: string): string {
    if |parts| == 0 then ""
    else if |parts| == 1 then parts[0]
    else parts[0] + sep + Join(parts[1..], sep)
  }

  function Commas(s: string): nat {
    if s == "" then 0 else Commas(s[1..]) + if s[0] == ',' then 1 else 0
  }

  predicate IsPlain(s: string) { ',' !in s }

  function SplitAll(parts: seq<string>): seq<string> {
    if parts == [] then [] else Split(parts[0]) + SplitAll(parts[1..])
  }

  lemma PrependConcat(c: char, p: seq<string>, q: seq<string>)
    requires |p| >= 1
    ensures Prepend(c, p + q) == Prepend(c, p) + q
  {
    assert (p + q)[1..] == p[1..] + q;
  }

  lemma {:induction false} SplitOfConcat(a: string, b: string)
    ensures Split(a + "," + b) == Split(a) + Split(b)
  {
    var s := a + "," + b;
    if a == "" {
      assert s[1..] == b;
    } else {
      SplitOfConcat(a[1..], b);
      PrependConcat(a[0], Split(a[1..]), Split(b));
      assert s[0] == a[0] && s[1..] == a[1..] + "," + b;
    }
  }

  lemma {:induction false} SplitOfPlain(s: string)
    requires IsPlain(s)
    ensures Split(s) == [s]
  {
    if s != "" {
      SplitOfPlain(s[1..]);
      assert [s[0]] + s[1..] == s;
    }
  }

  lemma {:induction false} PartsArePlain(s: string)
    ensures forall i :: 0 <= i < |Split(s)| ==> IsPlain(Split(s)[i])
  {
    if s != "" { PartsArePlain(s[1..]); }
  }

  lemma {:induction false} CommasSeparateParts(s: string)
    ensures |Split(s)| == Commas(s) + 1
  {
    if s != "" { CommasSeparateParts(s[1..]); }
  }

  // Joining what was split gives the text back.
  lemma {:induction false} JoinOfSplit(s: string)
    ensures Join(Split(s), ",") == s
  {
    if s != "" {
      JoinOfSplit(s[1..]);
      var parts, rest := Split(s), Split(s[1..]);
      if s[0] == ',' {
        assert parts[1..] == rest;
      } else if |rest| > 1 {
        assert parts[1..] == rest[1..];
        assert [s[0]] + s[1..] == s;
      } else {
        assert parts == [[s[0]] + rest[0]];
      }
    }
  }

  // Splitting what was joined splits every part.
  lemma {:induction false} SplitOfJoin(parts: seq<string>)
    requires parts != []
    ensures Split(Join(parts, ",")) == SplitAll(parts)
  {
    if |parts| == 1 {
      assert SplitAll(parts[1..]) == [];
    } else {
      SplitOfConcat(parts[0], Join(parts[1..], ","));
      SplitOfJoin(parts[1..]);
    }
  }

  lemma {:induction false} SplitAllOfPlain(parts: seq<string>)
    requires forall i :: 0 <= i < |parts| ==> IsPlain(parts[i])
    ensures SplitAll(parts) == parts
  {
    if parts != [] {
      SplitOfPlain(parts[0]);
      SplitAllOfPlain(parts[1..]);
    }
  }

  lemma {:induction false} SplitAllOfConcat(a: seq<string>, b: seq<string>)
    ensures SplitAll(a + b) == SplitAll(a) + SplitAll(b)
  {
    if a == [] {
      assert a + b == b;
    } else {
      SplitAllOfConcat(a[1..], b);
      assert (a + b)[1..] == a[1..] + b;
    }
  }

  lemma SplitAllAround(front: seq<string>, v: string, back: seq<string>)
    requires forall i :: 0 <= i < |front| ==> IsPlain(front[i])
    requires forall i :: 0 <= i < |back| ==> IsPlain(back[i])
    ensures SplitAll(front + ([v] + back)) == front + (Split(v) + back)
  {
    SplitAllOfConcat(front, [v] + back);
    SplitAllOfPlain(front);
    SplitAllOfPlain(back);
    assert ([v] + back)[1..] == back;
  }

  // Replacing one of the parts by any text splices the parts of that text in.
  lemma SplitOfReplaced(parts: seq<string>, k: nat, v: string)
    requires k < |parts| && forall i :: 0 <= i < |parts| ==> IsPlain(parts[i])
    ensures Split(Join(parts[k := v], ",")) == parts[..k] + (Split(v) + parts[k + 1..])
  {
    SplitOfJoin(parts[k := v]);
    assert parts[k := v] == parts[..k] + ([v] + parts[k + 1..]);
    SplitAllAround(parts[..k], v, parts[k + 1..]);
  }

  // ---------------------------------------------------------------- Fields and TrimSpace

  // unicode.IsSpace
  predicate IsSpace(c: char) {
    || '\t' <= c <= '\r' || c == ' ' || c == '\U{85}' || c == '\U{A0}' || c == '\U{1680}'
    || '\U{2000}' <= c <= '\U{200a}' || c == '\U{2028}' || c == '\U{2029}' || c == '\U{202f}'
    || c == '\U{205f}' || c == '\U{3000}'
  }

  predicate IsWord(s: string) { s != "" && forall i :: 0 <= i < |s| ==> !IsSpace(s[i]) }

  // The longest prefix without white space.
  function FirstWord(s: string): (w: string)
    ensures |w| <= |s| && w == s[..|w|]
    ensures forall i :: 0 <= i < |w| ==> !IsSpace(w[i])
    ensures |w| < |s| ==> IsSpace(s[|w|])
  {
    if s == "" || IsSpace(s[0]) then "" else [s[0]] + FirstWord(s[1..])
  }

  // strings.Fields
  function Fields(s: string): (words: seq<string>)
    ensures forall i :: 0 <= i < |words| ==> IsWord(words[i])
    decreases |s|
  {
    if s == "" then []
    else if IsSpace(s[0]) then Fields(s[1..])
    else
      var w := FirstWord(s);
      [w] + Fields(s[|w|..])
  }

  function TrimLeft(s: string): string {
    if s != "" && IsSpace(s[0]) then TrimLeft(s[1..]) else s
  }

  function TrimRight(s: string): string {
    if s != "" && IsSpace(s[|s| - 1]) then TrimRight(s[..|s| - 1]) else s
  }

  // strings.TrimSpace
  function TrimSpace(s: string): string { TrimRight(TrimLeft(s)) }

  predicate HasPrefix(s: string, prefix: string) { |s| >= |prefix| && s[..|prefix|] == prefix }

  // Nothing, or something that starts with white space.
  predicate IsTail(s: string) { s == "" || IsSpace(s[0]) }

  lemma {:induction false} FirstWordOf(w: string, tail: string)
    requires (forall i :: 0 <= i < |w| ==> !IsSpace(w[i])) && IsTail(tail)
    ensures FirstWord(w + tail) == w
  {
    if w == "" {
      assert w + tail == tail;
    } else {
      assert (w + tail)[1..] == w[1..] + tail;
      FirstWordOf(w[1..], tail);
    }
  }

  lemma FieldsOfWord(w: string, tail: string)
    requires IsWord(w) && IsTail(tail)
    ensures Fields(w + tail) == [w] + Fields(tail)
  {
    FirstWordOf(w, tail);
    assert (w + tail)[|w|..] == tail;
  }

  lemma {:induction false} FieldsOfTrimLeft(s: string)
    ensures Fields(TrimLeft(s)) == Fields(s)
  {
    if s != "" && IsSpace(s[0]) { FieldsOfTrimLeft(s[1..]); }
  }

  // A space at the end adds no field.
  lemma {:induction false} FieldsOfSpaceAtEnd(s: string, c: char)
    requires IsSpace(c)
    ensures Fields(s + [c]) == Fields(s)
    decreases |s|
  {
    if s == "" {
      assert (s + [c])[1..] == "";
    } else if IsSpace(s[0]) {
      assert (s + [c])[1..] == s[1..] + [c];
      FieldsOfSpaceAtEnd(s[1..], c);
    } else {
      var w := FirstWord(s);
      var rest := s[|w|..];
      assert s == w + rest && s + [c] == w + (rest + [c]);
      FieldsOfWord(w, rest);
      FieldsOfWord(w, rest + [c]);
      FieldsOfSpaceAtEnd(rest, c);
    }
  }

  lemma {:induction false} FieldsOfTrimRight(s: string)
    ensures Fields(TrimRight(s)) == Fields(s)
  {
    if s != "" && IsSpace(s[|s| - 1]) {
      var front := s[..|s| - 1];
      FieldsOfTrimRight(front);
      assert s == front + [s[|s| - 1]];
      FieldsOfSpaceAtEnd(front, s[|s| - 1]);
    }
  }

  lemma FieldsOfTrimSpace(s: string)
    ensures Fields(TrimSpace(s)) == Fields(s)
  {
    FieldsOfTrimRight(TrimLeft(s));
    FieldsOfTrimLeft(s);
  }

  // What is left after trimming starts and ends with something visible.
  lemma {:induction false} TrimLeftStarts(s: string)
    ensures var t := TrimLeft(s); t == "" || !IsSpace(t[0])
  {
    if s != "" && IsSpace(s[0]) { TrimLeftStarts(s[1..]); }
  }

  lemma {:induction false} TrimRightKeepsStart(s: string)
    ensures var t := TrimRight(s); |t| <= |s| && t == s[..|t|]
    ensures s != "" && !IsSpace(s[0]) ==> TrimRight(s) != ""
  {
    if s != "" && IsSpace(s[|s| - 1]) { TrimRightKeepsStart(s[..|s| - 1]); }
  }

  lemma TrimSpaceStarts(s: string)
    ensures var t := TrimSpace(s); t == "" || !IsSpace(t[0])
  {
    TrimLeftStarts(s);
    TrimRightKeepsStart(TrimLeft(s));
  }

  // A text without fields trims to nothing, any other text to something.
  lemma TrimSpaceEmpty(s: string)
    ensures TrimSpace(s) == "" <==> Fields(s) == []
  {
    FieldsOfTrimSpace(s);
    TrimSpaceStarts(s);
  }

  lemma FieldsOfSpaced(w: string, rest: string)
    requires IsWord(w)
    ensures Fields(w + " " + rest) == [w] + Fields(rest)
  {
    var tail := " " + rest;
    assert tail[1..] == rest;
    FieldsOfWord(w, tail);
    assert w + tail == w + " " + rest;
  }

  // Words joined by single spaces come apart again.
  lemma {:induction false} FieldsOfJoin(words: seq<string>)
    requires forall i :: 0 <= i < |words| ==> IsWord(words[i])
    ensures Fields(Join(words, " ")) == words
  {
    if |words| == 1 {
      FieldsOfWord(words[0], "");
      assert words[0] + "" == words[0];
    } else if |words| > 1 {
      FieldsOfJoin(words[1..]);
      FieldsOfSpaced(words[0], Join(words[1..], " "));
    }
  }

  // ---------------------------------------------------------------- what is left of a text after its first words

  predicate IsSpaces(s: string) { forall i :: 0 <= i < |s| ==> IsSpace(s[i]) }

  // Something that starts and ends with no white space.
  predicate IsTrimmed(s: string) { s != "" && !IsSpace(s[0]) && !IsSpace(s[|s| - 1]) }

  // text is what is left of s after its first n words and the white space behind them, trimmed and in one piece.
  ghost predicate IsRemainder(text: string, s: string, n: nat) {
    && n <= |Fields(s)| && IsTrimmed(text)
    && exists head, tail :: s == head + text + tail && Fields(head) == Fields(s)[..n] && IsSpaces(tail)
  }

  lemma {:induction false} TrimLeftParts(s: string) returns (front: string)
    ensures s == front + TrimLeft(s) && IsSpaces(front)
  {
    if s != "" && IsSpace(s[0]) {
      var more := TrimLeftParts(s[1..]);
      front := [s[0]] + more;
    } else {
      front := "";
    }
  }

  lemma {:induction false} TrimRightParts(s: string) returns (back: string)
    ensures s == TrimRight(s) + back && IsSpaces(back)
    ensures TrimRight(s) == "" || !IsSpace(TrimRight(s)[|TrimRight(s)| - 1])
  {
    if s != "" && IsSpace(s[|s| - 1]) {
      var more := TrimRightParts(s[..|s| - 1]);
      back := more + [s[|s| - 1]];
    } else {
      back := "";
    }
  }

  lemma TrimSpaceParts(s: string) returns (front: string, back: string)
    ensures s == front + TrimSpace(s) + back && IsSpaces(front) && IsSpaces(back)
    ensures TrimSpace(s) == "" || IsTrimmed(TrimSpace(s))
  {
    front := TrimLeftParts(s);
    back := TrimRightParts(TrimLeft(s));
    TrimSpaceStarts(s);
    assert front + (TrimSpace(s) + back) == front + TrimSpace(s) + back;
  }

  lemma {:induction false} FieldsAfterSpaces(front: string, s: string)
    requires IsSpaces(front)
    ensures Fields(front + s) == Fields(s)
  {
    if front == "" {
      assert front + s == s;
    } else {
      assert (front + s)[1..] == front[1..] + s;
      FieldsAfterSpaces(front[1..], s);
    }
  }

  lemma FieldsOfSpaces(s: string)
    requires IsSpaces(s)
    ensures Fields(s) == []
  {
    FieldsAfterSpaces(s, "");
    assert s + "" == s;
  }

  // The trimmed text behind the first word.
  lemma RemainderOfWord(w: string, rest: string)
    requires IsWord(w) && IsTail(rest) && TrimSpace(rest) != ""
    ensures IsRemainder(TrimSpace(rest), w + rest, 1)
  {
    var text := TrimSpace(rest);
    var front, back := TrimSpaceParts(rest);
    FieldsOfWord(w, rest);
    FieldsOfWord(w, front);
    FieldsOfSpaces(front);
    assert w + rest == (w + front) + text + back;
  }

  lemma FieldsOfSpacedWord(w: string, front: string, s: string)
    requires IsWord(w) && IsSpaces(front) && front != ""
    ensures Fields(w + (front + s)) == [w] + Fields(s)
  {
    FieldsOfWord(w, front + s);
    FieldsAfterSpaces(front, s);
  }

  lemma ConcatInside(w: string, front: string, head: string, text: string, tail: string, back: string)
    ensures w + (front + (head + text + tail) + back) == (w + (front + head)) + text + (tail + back)
  {
    var left, right := w + (front + (head + text + tail) + back), (w + (front + head)) + text + (tail + back);
    assert |left| == |right|;
    assert forall i :: 0 <= i < |left| ==> left[i] == right[i];
  }

  // What is left of a trimmed text is also left of the text with one more word in front.
  lemma RemainderBehindWord(w: string, rest: string, text: string, n: nat)
    requires IsWord(w) && IsTail(rest) && IsRemainder(text, TrimSpace(rest), n)
    ensures IsRemainder(text, w + rest, n + 1)
  {
    var trimmed := TrimSpace(rest);
    var front, back := TrimSpaceParts(rest);
    var head, tail :| trimmed == head + text + tail && Fields(head) == Fields(trimmed)[..n] && IsSpaces(tail);
    FrontIsThere(rest, front, trimmed, back);
    FirstFields(w, rest, n);
    FieldsOfSpacedWord(w, front, head);
    ConcatInside(w, front, head, text, tail, back);
    RemainderFrom(w + (front + head), text, tail + back, w + rest, n + 1);
  }

  lemma FrontIsThere(rest: string, front: string, middle: string, back: string)
    requires IsTail(rest) && rest == front + middle + back && middle != "" && !IsSpace(middle[0])
    ensures front != ""
  {
  }

  lemma FirstFields(w: string, rest: string, n: nat)
    requires IsWord(w) && IsTail(rest) && n <= |Fields(TrimSpace(rest))|
    ensures n + 1 <= |Fields(w + rest)| && Fields(w + rest)[..n + 1] == [w] + Fields(TrimSpace(rest))[..n]
  {
    FieldsOfWord(w, rest);
    FieldsOfTrimSpace(rest);
  }

  lemma RemainderFrom(head: string, text: string, tail: string, s: string, n: nat)
    requires n <= |Fields(s)| && IsTrimmed(text) && IsSpaces(tail)
    requires s == head + text + tail && Fields(head) == Fields(s)[..n]
    ensures IsRemainder(text, s, n)
  {
  }

  // ---------------------------------------------------------------- there is only one such remainder

  // How many characters are no white space.
  function Visible(s: string): nat { if s == "" then 0 else (if IsSpace(s[0]) then 0 else 1) + Visible(s[1..]) }

  function Total(words: seq<string>): nat { if words == [] then 0 else |words[0]| + Total(words[1..]) }

  lemma {:induction false} VisibleOfConcat(a: string, b: string)
    ensures Visible(a + b) == Visible(a) + Visible(b)
  {
    if a == "" {
      assert a + b == b;
    } else {
      assert (a + b)[1..] == a[1..] + b;
      VisibleOfConcat(a[1..], b);
    }
  }

  lemma {:induction false} VisibleOfWord(w: string)
    requires forall i :: 0 <= i < |w| ==> !IsSpace(w[i])
    ensures Visible(w) == |w|
  {
    if w != "" { VisibleOfWord(w[1..]); }
  }

  lemma {:induction false} VisibleOfFields(s: string)
    ensures Visible(s) == Total(Fields(s))
    decreases |s|
  {
    if s == "" {
    } else if IsSpace(s[0]) {
      VisibleOfFields(s[1..]);
    } else {
      var w := FirstWord(s);
      var rest := s[|w|..];
      assert s == w + rest && Fields(s)[1..] == Fields(rest);
      VisibleOfConcat(w, rest);
      VisibleOfWord(w);
      VisibleOfFields(rest);
    }
  }

  // Of two starts of a text with the same fields, none goes on with something visible where the other one ends.
  lemma HeadsAgree(a: string, more: string)
    requires Fields(a + more) == Fields(a) && more != ""
    ensures IsSpace(more[0])
  {
    VisibleOfFields(a);
    VisibleOfFields(a + more);
    VisibleOfConcat(a, more);
  }

  lemma HeadIsNotShorter(s: string, head: string, more: string, head': string, more': string)
    requires s == head + more == head' + more' && Fields(head) == Fields(head') && more != "" && !IsSpace(more[0])
    ensures |head| >= |head'|
  {
    if |head| < |head'| {
      var between := head'[|head|..];
      assert head' == head + between by {
        assert forall i :: 0 <= i < |head| ==> head[i] == s[i] == head'[i];
      }
      assert between[0] == s[|head|] == more[0];
      HeadsAgree(head, between);
    }
  }

  lemma TailIsNotLonger(s: string, front: string, tail: string, front': string, tail': string)
    requires s == front + tail == front' + tail' && front != "" && IsSpaces(tail')
    ensures |tail'| <= |tail| || IsSpace(front[|front| - 1])
  {
    if |tail'| > |tail| {
      assert front[|front| - 1] == s[|front| - 1] == tail'[|front| - 1 - |front'|];
    }
  }

  lemma ConcatParts(s: string, head: string, text: string, tail: string)
    requires s == head + text + tail
    ensures s == head + (text + tail) && |head| + |text| + |tail| == |s| && text == s[|head|..|s| - |tail|]
  {
  }

  // A text has no other remainder behind its first n words.
  lemma RemainderIsUnique(text: string, text': string, s: string, n: nat)
    requires IsRemainder(text, s, n) && IsRemainder(text', s, n)
    ensures text == text'
  {
    var head, tail :| s == head + text + tail && Fields(head) == Fields(s)[..n] && IsSpaces(tail);
    var head', tail' :| s == head' + text' + tail' && Fields(head') == Fields(s)[..n] && IsSpaces(tail');
    ConcatParts(s, head, text, tail);
    ConcatParts(s, head', text', tail');
    HeadIsNotShorter(s, head, text + tail, head', text' + tail');
    HeadIsNotShorter(s, head', text' + tail', head, text + tail);
    TailIsNotLonger(s, head + text, tail, head' + text', tail');
    TailIsNotLonger(s, head' + text', tail', head + text, tail);
  }

}
