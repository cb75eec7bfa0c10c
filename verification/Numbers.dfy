/**
strconv.ParseInt with base 0 and 64 bits, and strconv.FormatInt with base 10, as the Go library defines them:
a syntax error gives 0, a value out of range the nearest bound.
*/
module Numbers {
  import opened Text

  const TWO_63: int := 0x8000_0000_0000_0000
  const MAX_UINT64: int := 0xFFFF_FFFF_FFFF_FFFF

  type int64 = x: int | -TWO_63 <= x < TWO_63

  // The outcome of ParseUint.
  datatype Parsed = Value(n: nat) | SyntaxError | RangeError

  // The value of a digit or letter, 36 for anything else.
  function DigitValue(c: char): (d: nat)
    ensures d <= 36
  {
    if '0' <= c <= '9' then c as int - '0' as int
    else if 'a' <= c <= 'z' then c as int - 'a' as int + 10
    else if 'A' <= c <= 'Z' then c as int - 'A' as int + 10
    else 36
  }

  // The loop over the digits, n being the value so far; underscores are passed over.
  function ParseDigits(s: string, base: nat, n: nat): Parsed
    requires 2 <= base <= 16
  {
    if s == "" then Value(n)
    else if s[0] == '_' then ParseDigits(s[1..], base, n)
    else if DigitValue(s[0]) >= base then SyntaxError
    else if n >= MAX_UINT64 / base + 1 then RangeError
    else if n * base + DigitValue(s[0]) > MAX_UINT64 then RangeError
    else ParseDigits(s[1..], base, n * base + DigitValue(s[0]))
  }

  // The base that a prefix announces, and the number of characters of the prefix.
  function BasePrefix(s: string): (r: (nat, nat))
    ensures 2 <= r.0 <= 16 && r.1 <= |s|
  {
    if s == "" || s[0] != '0' then (10, 0)
    else if |s| >= 3 && s[1] in "bB" then (2, 2)
    else if |s| >= 3 && s[1] in "oO" then (8, 2)
    else if |s| >= 3 && s[1] in "xX" then (16, 2)
    else (8, 1)
  }

  datatype Saw = SawStart | SawDigit | SawUnderscore | SawOther

  function ScanUnderscores(s: string, hex: bool, saw: Saw): bool {
    if s == "" then saw != SawUnderscore
    else if '0' <= s[0] <= '9' || (hex && 10 <= DigitValue(s[0]) < 16) then ScanUnderscores(s[1..], hex, SawDigit)
    else if s[0] == '_' then saw == SawDigit && ScanUnderscores(s[1..], hex, SawUnderscore)
    else saw != SawUnderscore && ScanUnderscores(s[1..], hex, SawOther)
  }

  // Underscores may only stand between digits; a base prefix counts as a digit.
  function UnderscoreOk(s: string): bool {
    if |s| >= 2 && s[0] == '0' && s[1] in "bBoOxX" then ScanUnderscores(s[2..], s[1] in "xX", SawDigit)
    else ScanUnderscores(s, false, SawStart)
  }

  function ParseUint(s: string): Parsed {
    if s == "" then SyntaxError
    else
      var (base, skip) := BasePrefix(s);
      var r := ParseDigits(s[skip..], base, 0);
      if r.Value? && '_' in s[skip..] && !UnderscoreOk(s) then SyntaxError else r
  }

  function ParseInt(s: string): int64 {
    if s == "" then 0
    else
      var neg := s[0] == '-';
      match ParseUint(if s[0] == '+' || neg then s[1..] else s)
      case SyntaxError => 0
      case RangeError => if neg then -TWO_63 else TWO_63 - 1
      case Value(n) =>
        if !neg then if n >= TWO_63 then TWO_63 - 1 else n
        else if n > TWO_63 then -TWO_63 else 0 - n as int
  }

  function Digit(d: nat): (c: char)
    requires d < 16
    ensures DigitValue(c) == d && c != '_' && (c == '0' <==> d == 0)
    ensures c !in "+-bBoOxX" || d == 11
  {
    ['0', '1', '2', '3', '4', '5', '6', '7', '8', '9', 'a', 'b', 'c', 'd', 'e', 'f'][d]
  }

  // n in some base, without leading zeros.
  function FormatIn(n: nat, base: nat): string
    requires 2 <= base <= 16
  {
    if n < base then [Digit(n)]
    else
      DivisionShrinks(n, base);
      FormatIn(n / base, base) + [Digit(n % base)]
  }

  function FormatNat(n: nat): string { FormatIn(n, 10) }

  function FormatInt(v: int64): string { if v < 0 then "-" + FormatNat(0 - v as int) else FormatNat(v) }

  lemma DivisionShrinks(n: nat, base: nat)
    requires 2 <= base <= n
    ensures n / base < n && n == n / base * base + n % base && n % base < base
  {
  }

  // ---------------------------------------------------------------- reading digits back

  predicate AreDigits(s: string, base: nat) { s != "" && forall i :: 0 <= i < |s| ==> DigitValue(s[i]) < base }

  lemma {:induction false} FormatInShape(n: nat, base: nat)
    requires 2 <= base <= 16
    ensures AreDigits(FormatIn(n, base), base) && '_' !in FormatIn(n, base)
    ensures n > 0 ==> FormatIn(n, base)[0] != '0'
    ensures n >= base ==> |FormatIn(n, base)| >= 2
    decreases n
  {
    if n >= base {
      DivisionShrinks(n, base);
      FormatInShape(n / base, base);
    }
  }

  lemma ParseOneDigit(d: nat, base: nat, rest: string, n: nat)
    requires 2 <= base <= 16 && d < base
    ensures ParseDigits([Digit(d)] + rest, base, n) ==
      if n * base + d <= MAX_UINT64 then ParseDigits(rest, base, n * base + d) else RangeError
  {
    assert ([Digit(d)] + rest)[1..] == rest;
    Quotient(n, d, base);
  }

  // The test for overflow before the multiplication is no stricter than the one after it.
  lemma Quotient(n: nat, d: nat, base: nat)
    requires 2 <= base <= 16
    ensures n >= MAX_UINT64 / base + 1 ==> n * base + d > MAX_UINT64
  {
    if n >= MAX_UINT64 / base + 1 { Times(MAX_UINT64 / base + 1, n, base); }
  }

  lemma Times(a: nat, b: nat, c: nat)
    requires a <= b
    ensures a * c <= b * c
  {
  }

  // Reading the digits of n brings the value so far from 0 to n, or ends with a range error.
  lemma {:induction false} ParseOfFormat(n: nat, base: nat, rest: string)
    requires 2 <= base <= 16
    ensures ParseDigits(FormatIn(n, base) + rest, base, 0) ==
      if n <= MAX_UINT64 then ParseDigits(rest, base, n) else RangeError
    decreases n
  {
    if n < base {
      ParseOneDigit(n, base, rest, 0);
    } else {
      var tail := [Digit(n % base)] + rest;
      DivisionShrinks(n, base);
      assert FormatIn(n, base) + rest == FormatIn(n / base, base) + tail;
      ParseOfFormat(n / base, base, tail);
      if n / base <= MAX_UINT64 { ParseOneDigit(n % base, base, rest, n / base); }
    }
  }

  // What stands for a base in front of the digits.
  predicate IsPrefix(prefix: string, base: nat) {
    match base
    case 2 => prefix == "0b" || prefix == "0B"
    case 8 => prefix == "0o" || prefix == "0O" || prefix == "0"
    case 10 => prefix == ""
    case 16 => prefix == "0x" || prefix == "0X"
    case _ => false
  }

  lemma PrefixIsRead(prefix: string, base: nat, digits: string)
    requires IsPrefix(prefix, base) && AreDigits(digits, base)
    requires base == 10 ==> digits[0] != '0' || |digits| == 1
    requires prefix == "0" ==> |digits| >= 1
    ensures
      var r := BasePrefix(prefix + digits);
      (prefix != "" || digits[0] != '0') ==> r.0 == base && r.1 == |prefix|
  {
    var s := prefix + digits;
    if prefix == "" { assert s == digits; }
    else if prefix == "0" { assert s[1] == digits[0] && DigitValue(s[1]) < 8; }
    else { assert s[0] == prefix[0] && s[1] == prefix[1]; }
  }

  lemma ParseUintOfFormat(prefix: string, base: nat, n: nat)
    requires IsPrefix(prefix, base)
    ensures ParseUint(prefix + FormatIn(n, base)) == if n <= MAX_UINT64 then Value(n) else RangeError
  {
    var digits := FormatIn(n, base);
    var s := prefix + digits;
    FormatInShape(n, base);
    if prefix == "" && n == 0 {
      assert s == "0";
    } else {
      PrefixIsRead(prefix, base, digits);
      assert s[|prefix|..] == digits && digits + "" == digits;
      ParseOfFormat(n, base, "");
    }
  }

  function Clamped(n: int): int64 { if n < -TWO_63 then -TWO_63 else if n >= TWO_63 then TWO_63 - 1 else n }

  // The sign is taken off, and what the digits stand for is brought into range.
  lemma SignIsRead(sign: string, digits: string)
    requires (sign == "" || sign == "+" || sign == "-") && digits != "" && digits[0] != '+' && digits[0] != '-'
    ensures ParseInt(sign + digits) ==
      match ParseUint(digits)
      case SyntaxError => 0
      case RangeError => if sign == "-" then -TWO_63 else TWO_63 - 1
      case Value(n) => Clamped(if sign == "-" then 0 - n as int else n as int)
  {
    var s := sign + digits;
    if sign == "" {
      assert s == digits;
    } else {
      assert s[0] == sign[0] && s[1..] == digits;
    }
  }

  lemma PrefixedShape(prefix: string, base: nat, n: nat)
    requires IsPrefix(prefix, base)
    ensures
      var s := prefix + FormatIn(n, base);
      s != "" && s[0] != '+' && s[0] != '-'
  {
    FormatInShape(n, base);
    if prefix == "" { assert (prefix + FormatIn(n, base))[0] == FormatIn(n, base)[0]; }
    else { assert (prefix + FormatIn(n, base))[0] == prefix[0]; }
  }

  // Every number in base 2, 8, 10 or 16, with any of the prefixes and signs, is read as itself, or as the nearest
  // bound if it does not fit.
  lemma ParseIntIsClamped(sign: string, prefix: string, base: nat, n: nat)
    requires IsPrefix(prefix, base) && (sign == "" || sign == "+" || sign == "-")
    ensures ParseInt(sign + (prefix + FormatIn(n, base))) == Clamped(if sign == "-" then 0 - n as int else n as int)
  {
    ParseUintOfFormat(prefix, base, n);
    PrefixedShape(prefix, base, n);
    SignIsRead(sign, prefix + FormatIn(n, base));
  }

  // ---------------------------------------------------------------- what is no number

  lemma NoDigit(c: char, rest: string, base: nat, n: nat)
    requires 2 <= base <= 16 && DigitValue(c) >= base && c != '_'
    ensures ParseDigits([c] + rest, base, n) == SyntaxError
  {
  }

  // A character behind the digits that is no digit makes the text unparsable, which counts as 0.
  lemma UnparsableIsZero(sign: string, n: nat, c: char, rest: string)
    requires (sign == "" || sign == "+" || sign == "-") && 0 < n <= MAX_UINT64
    requires !('0' <= c <= '9') && c != '_'
    ensures ParseInt(sign + (FormatNat(n) + ([c] + rest))) == 0
  {
    var digits := FormatNat(n) + ([c] + rest);
    FormatInShape(n, 10);
    assert digits[0] == FormatNat(n)[0] && digits[0..] == digits;
    ParseOfFormat(n, 10, [c] + rest);
    NoDigit(c, rest, 10, n);
    SignIsRead(sign, digits);
  }

  // So do a missing number and one that starts with anything but a digit, a sign or an underscore.
  lemma NoNumberIsZero(sign: string, rest: string)
    requires (sign == "" || sign == "+" || sign == "-")
    requires rest != "" ==> DigitValue(rest[0]) >= 10 && rest[0] !in "+-_"
    ensures ParseInt(sign + rest) == 0
  {
    if rest == "" {
      assert sign + rest == sign;
      if sign != "" { assert sign[1..] == ""; }
    } else {
      SignIsRead(sign, rest);
      assert rest == [rest[0]] + rest[1..] && rest[0..] == rest;
      NoDigit(rest[0], rest[1..], 10, 0);
    }
  }

  // ---------------------------------------------------------------- underscores

  lemma {:induction false} ScanDigits(digits: string, rest: string, saw: Saw)
    requires digits != "" && forall i :: 0 <= i < |digits| ==> '0' <= digits[i] <= '9'
    ensures ScanUnderscores(digits + rest, false, saw) == ScanUnderscores(rest, false, SawDigit)
  {
    assert (digits + rest)[1..] == digits[1..] + rest;
    if |digits| > 1 {
      ScanDigits(digits[1..], rest, SawDigit);
    } else {
      assert digits[1..] + rest == rest;
    }
  }

  lemma DecimalDigits(s: string)
    requires AreDigits(s, 10)
    ensures forall i :: 0 <= i < |s| ==> '0' <= s[i] <= '9'
  {
    forall i | 0 <= i < |s| ensures '0' <= s[i] <= '9' { assert DigitValue(s[i]) < 10; }
  }

  lemma SeparatedUnderscoreOk(front: string, back: string)
    requires AreDigits(front, 10) && AreDigits(back, 10) && front[0] != '0'
    ensures UnderscoreOk(front + ("_" + back))
  {
    DecimalDigits(front);
    DecimalDigits(back);
    ScanDigits(front, "_" + back, SawStart);
    assert ("_" + back)[1..] == back && back + "" == back;
    ScanDigits(back, "", SawUnderscore);
  }

  // An underscore between digits changes nothing, one behind the last digit makes the text unparsable.
  lemma UnderscoresSeparateDigits(n: nat, back: string)
    requires n > 0 && AreDigits(back, 10)
    ensures ParseUint(FormatNat(n) + ("_" + back)) == ParseUint(FormatNat(n) + back)
    ensures n <= MAX_UINT64 ==> ParseUint(FormatNat(n) + "_") == SyntaxError
  {
    var front := FormatNat(n);
    var with, without, end := front + ("_" + back), front + back, front + "_";
    FormatInShape(n, 10);
    DecimalDigits(front);
    DecimalDigits(back);
    SeparatedUnderscoreOk(front, back);
    ParseOfFormat(n, 10, "_" + back);
    ParseOfFormat(n, 10, back);
    ParseOfFormat(n, 10, "_");
    ScanDigits(front, "_", SawStart);
    assert ("_" + back)[1..] == back && with[0..] == with && without[0..] == without && end[0..] == end;
    assert with[0] == front[0] && without[0] == front[0] && end[0] == front[0] && end[|front|] == '_';
    assert '_' !in without;
  }

  // Every 64-bit integer, the smallest included, is read back from its decimal text.
  lemma ParseIntOfFormat(v: int64)
    ensures ParseInt(FormatInt(v)) == v && IsPlain(FormatInt(v))
  {
    var n: nat := if v < 0 then 0 - v as int else v;
    var sign := if v < 0 then "-" else "";
    FormatInShape(n, 10);
    ParseIntIsClamped(sign, "", 10, n);
    assert "" + FormatNat(n) == FormatNat(n);
    assert sign + FormatNat(n) == FormatInt(v);
  }

}
