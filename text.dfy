/**
 * The java.lang and commons-lang string operations the pipeline core relies on:
 * StringUtils.isBlank / trim / lowerCase / equalsIgnoreCase / endsWith,
 * String.split on a literal separator, decimal formatting of integers and
 * Long.parseLong.  Java `long` and `int` limits are spelled out here.
 */
module Text {
  import opened Common

  const INT_MAX: int := 0x7FFF_FFFF
  const LONG_MAX: int := 0x7FFF_FFFF_FFFF_FFFF
  const LONG_MIN: int := -0x8000_0000_0000_0000

  /** Character.isWhitespace: the space separators other than the no-break ones, and the
      controls TAB, LF, VT, FF, CR and FS..US. */
  predicate IsWhitespace(c: char) {
    var n := c as int;
    (0x09 <= n <= 0x0D) || (0x1C <= n <= 0x20) || n == 0x1680 || (0x2000 <= n <= 0x2006)
    || (0x2008 <= n <= 0x200A) || n == 0x2028 || n == 0x2029 || n == 0x205F || n == 0x3000
  }

  /** StringUtils.isBlank: null, empty, or whitespace only. */
  predicate IsBlank(s: Option<string>) {
    s.None? || forall i :: 0 <= i < |s.value| ==> IsWhitespace(s.value[i])
  }

  /** String.trim drops every character up to U+0020 from both ends. */
  predicate Trimmed(c: char) { c <= ' ' }

  /** The first loop of String.trim: from `st`, the index of the first character kept. */
  function TrimFrom(s: string, st: nat): (n: nat)
    requires st <= |s|
    ensures st <= n <= |s|
    ensures forall k :: st <= k < n ==> Trimmed(s[k])
    ensures n < |s| ==> !Trimmed(s[n])
    decreases |s| - st
  {
    if st < |s| && Trimmed(s[st]) then TrimFrom(s, st + 1) else st
  }

  /** The second loop of String.trim: down from `len`, but not below `st`, the end of what is kept. */
  function TrimTo(s: string, st: nat, len: nat): (n: nat)
    requires st <= len <= |s|
    ensures st <= n <= len
    ensures forall k :: n <= k < len ==> Trimmed(s[k])
    ensures n > st ==> !Trimmed(s[n - 1])
    decreases len
  {
    if st < len && Trimmed(s[len - 1]) then TrimTo(s, st, len - 1) else len
  }

  /** String.trim: the longest infix of `s` that neither starts nor ends with a character up to U+0020. */
  function TrimStr(s: string): (r: string)
    ensures |r| <= |s|
    ensures r == [] || (!Trimmed(r[0]) && !Trimmed(r[|r| - 1]))
    ensures var i := TrimFrom(s, 0);
      i + |r| <= |s| && r == s[i..i + |r|]
      && (forall k :: 0 <= k < i ==> Trimmed(s[k]))
      && (forall k :: i + |r| <= k < |s| ==> Trimmed(s[k]))
  {
    var st := TrimFrom(s, 0);
    s[st..TrimTo(s, st, |s|)]
  }

  /** A string that neither starts nor ends with a trimmed character is its own trim. */
  lemma TrimStrOfTrimmed(s: string)
    requires s == [] || (!Trimmed(s[0]) && !Trimmed(s[|s| - 1]))
    ensures TrimStr(s) == s
  {
    assert TrimFrom(s, 0) == 0;
    assert TrimTo(s, 0, |s|) == |s|;
  }

  lemma TrimIdempotent(s: string)
    ensures TrimStr(TrimStr(s)) == TrimStr(s)
  {
    TrimStrOfTrimmed(TrimStr(s));
  }

  /** StringUtils.trim: null-safe String.trim. */
  function Trim(s: Option<string>): Option<string> {
    match s
    case None => None
    case Some(t) => Some(TrimStr(t))
  }

  /** Lower-casing restricted to ASCII letters. */
  function LowerChar(c: char): char {
    if 'A' <= c <= 'Z' then (c as int + 32) as char else c
  }

  predicate HasNoUpper(s: string) {
    forall i :: 0 <= i < |s| ==> !('A' <= s[i] <= 'Z')
  }

  function LowerStr(s: string): (r: string)
    ensures |r| == |s| && HasNoUpper(r)
    ensures forall i :: 0 <= i < |s| ==> r[i] == LowerChar(s[i])
  {
    seq(|s|, i requires 0 <= i < |s| => LowerChar(s[i]))
  }

  lemma LowerStrOfLower(s: string)
    requires HasNoUpper(s)
    ensures LowerStr(s) == s
  {
  }

  /** StringUtils.lowerCase: null-safe lower-casing. */
  function LowerCase(s: Option<string>): Option<string> {
    match s
    case None => None
    case Some(t) => Some(LowerStr(t))
  }

  /** StringUtils.equalsIgnoreCase: two nulls are equal, a null equals nothing else. */
  predicate EqualsIgnoreCase(a: Option<string>, b: Option<string>) {
    match (a, b)
    case (None, None) => true
    case (Some(x), Some(y)) => LowerStr(x) == LowerStr(y)
    case _ => false
  }

  /** Properties.getProperty: the value stored under `key`, or null. */
  function GetProperty(props: map<string, string>, key: string): Option<string> {
    if key in props then Some(props[key]) else None
  }

  /** StringUtils.endsWith for non-null arguments. */
  predicate EndsWith(s: string, suffix: string) {
    |suffix| <= |s| && s[|s| - |suffix|..] == suffix
  }

  /** Every piece between occurrences of `sep`, empty pieces included. */
  function SplitAll(s: string, sep: char): (r: seq<string>)
    ensures |r| >= 1
    ensures forall k :: 0 <= k < |r| ==> sep !in r[k]
    decreases |s|
  {
    if |s| == 0 then [""]
    else
      var rest := SplitAll(s[1..], sep);
      if s[0] == sep then [""] + rest else [[s[0]] + rest[0]] + rest[1..]
  }

  /** The pieces put back together with `sep` between them. */
  function Join(pieces: seq<string>, sep: char): string
    requires |pieces| >= 1
    decreases |pieces|
  {
    if |pieces| == 1 then pieces[0] else pieces[0] + [sep] + Join(pieces[1..], sep)
  }

  lemma {:induction false} SplitAllJoin(s: string, sep: char)
    ensures Join(SplitAll(s, sep), sep) == s
    decreases |s|
  {
    if |s| > 0 {
      var rest := SplitAll(s[1..], sep);
      SplitAllJoin(s[1..], sep);
      if s[0] == sep {
        assert SplitAll(s, sep)[1..] == rest;
      } else {
        var r := SplitAll(s, sep);
        assert r[1..] == rest[1..];
        if |rest| > 1 {
          assert Join(rest, sep) == rest[0] + [sep] + Join(rest[1..], sep);
        }
      }
    }
  }

  function DropTrailingEmpty(pieces: seq<string>): (r: seq<string>)
    ensures |r| <= |pieces| && r == pieces[..|r|]
    ensures r == [] || r[|r| - 1] != []
    ensures forall k :: |r| <= k < |pieces| ==> pieces[k] == []
  {
    if |pieces| > 0 && pieces[|pieces| - 1] == [] then DropTrailingEmpty(pieces[..|pieces| - 1]) else pieces
  }

  /** String.split with a one-character literal pattern and limit 0: a string without the separator
      is returned whole; otherwise the pieces, with trailing empty pieces removed. */
  function JavaSplit(s: string, sep: char): (r: seq<string>)
    ensures sep !in s ==> r == [s]
    ensures sep in s ==> r == [] || r[|r| - 1] != []
    ensures forall k :: 0 <= k < |r| ==> sep !in r[k]
    ensures |r| <= |SplitAll(s, sep)| && r == SplitAll(s, sep)[..|r|]
    ensures forall k :: |r| <= k < |SplitAll(s, sep)| ==> SplitAll(s, sep)[k] == []
  {
    if sep !in s then
      assert SplitAll(s, sep) == [s] by { SplitNoSeparator(s, sep); }
      [s]
    else DropTrailingEmpty(SplitAll(s, sep))
  }

  lemma {:induction false} SplitNoSeparator(s: string, sep: char)
    requires sep !in s
    ensures SplitAll(s, sep) == [s]
    decreases |s|
  {
    if |s| > 0 {
      assert sep !in s[1..] by {
        forall k | 0 <= k < |s| - 1 ensures s[1..][k] != sep { assert s[1..][k] == s[k + 1]; }
      }
      SplitNoSeparator(s[1..], sep);
      assert [s[0]] + s[1..] == s;
    }
  }

  function DigitChar(d: nat): (c: char)
    requires d < 10
    ensures '0' <= c <= '9' && c as int - '0' as int == d
  {
    (48 + d) as char
  }

  predicate AllDigits(s: string) {
    forall i :: 0 <= i < |s| ==> '0' <= s[i] <= '9'
  }

  /** 10 to the power `k`. */
  function Pow10(k: nat): (p: nat)
    ensures p >= 1
  {
    if k == 0 then 1 else 10 * Pow10(k - 1)
  }

  lemma AllDigitsAppend(a: string, b: string)
    requires AllDigits(a) && AllDigits(b)
    ensures AllDigits(a + b)
  {
    assert forall i :: 0 <= i < |a + b| ==> (a + b)[i] == (if i < |a| then a[i] else b[i - |a|]);
  }

  /** The shift of one more place: (x * p + y) * 10 + d == x * (10 * p) + (y * 10 + d), and the
      new low part stays below the new place value. */
  lemma ShiftPlace(x: nat, p: nat, y: nat, d: nat)
    requires y < p && d < 10
    ensures (x * p + y) * 10 + d == x * (10 * p) + (y * 10 + d)
    ensures y * 10 + d < 10 * p
  {
    assert (x * p) * 10 == x * (10 * p);
    assert y * 10 <= (p - 1) * 10;
  }

  /** Digits written after others shift those by one decimal place each. */
  lemma {:induction false} DigitsValueAppend(a: string, b: string)
    requires AllDigits(a) && AllDigits(b)
    ensures AllDigits(a + b)
    ensures DigitsValue(a + b) == DigitsValue(a) * Pow10(|b|) + DigitsValue(b)
    ensures DigitsValue(b) < Pow10(|b|)
    decreases |b|
  {
    AllDigitsAppend(a, b);
    if b == [] {
      assert a + b == a;
    } else {
      var b' := b[..|b| - 1];
      var c := b[|b| - 1];
      assert AllDigits(b');
      assert (a + b)[..|a + b| - 1] == a + b' && (a + b)[|a + b| - 1] == c;
      DigitsValueAppend(a, b');
      ShiftPlace(DigitsValue(a), Pow10(|b'|), DigitsValue(b'), c as int - '0' as int);
    }
  }

  /** Decimal rendering of a non-negative Java integer, as string concatenation produces it. */
  function NatToString(n: nat): (r: string)
    ensures |r| >= 1 && AllDigits(r)
  {
    if n < 10 then [DigitChar(n)] else NatToString(n / 10) + [DigitChar(n % 10)]
  }

  function DigitsValue(s: string): nat
    requires AllDigits(s)
    decreases |s|
  {
    if s == [] then 0 else DigitsValue(s[..|s| - 1]) * 10 + (s[|s| - 1] as int - '0' as int)
  }

  lemma {:induction false} DigitsValueOfNatToString(n: nat)
    ensures DigitsValue(NatToString(n)) == n
  {
    if n >= 10 {
      var s := NatToString(n);
      assert s[..|s| - 1] == NatToString(n / 10);
      DigitsValueOfNatToString(n / 10);
    }
  }

  /** StringBuffer.append(int) and string concatenation of a number: the decimal form, with a
      minus sign for negative values. */
  function IntToString(n: int): (r: string)
    ensures n >= 0 ==> r == NatToString(n)
    ensures n < 0 ==> |r| >= 2 && r[0] == '-' && r[1..] == NatToString(-n)
  {
    if n < 0 then "-" + NatToString(-n) else NatToString(n)
  }

  /** `t` is `sign` (nothing, "+" or "-") followed by `d`, a non-empty run of ASCII digits. */
  predicate LongLiteral(t: string, sign: string, d: string) {
    t == sign + d && (sign == "" || sign == "+" || sign == "-") && d != [] && AllDigits(d)
  }

  /** The number a sign and a run of digits denote. */
  function SignedValue(sign: string, d: string): int
    requires AllDigits(d)
  {
    if sign == "-" then 0 - (DigitsValue(d) as int) else DigitsValue(d)
  }

  /** The sign a text starts with, if any. */
  function SignOf(t: string): (sign: string)
    ensures sign == "" || sign == "+" || sign == "-"
    ensures |sign| <= |t| && sign == t[..|sign|]
  {
    if |t| > 0 && t[0] == '-' then "-" else if |t| > 0 && t[0] == '+' then "+" else ""
  }

  /** A text splits into a sign and digits in at most one way. */
  lemma LongLiteralUnique(t: string, sign: string, d: string)
    requires LongLiteral(t, sign, d)
    ensures sign == SignOf(t) && d == t[|sign|..]
  {
    assert t[|sign|..] == d;
    if sign == "" {
      assert t[0] == d[0];
    }
  }

  /** An optional sign and ASCII digits read as an integer of any size; `None` for other text. */
  function ParseInteger(t: string): (r: Option<int>)
    ensures r.Some? ==> LongLiteral(t, SignOf(t), t[|SignOf(t)|..]) && r.value == SignedValue(SignOf(t), t[|SignOf(t)|..])
    ensures forall sign, d :: LongLiteral(t, sign, d) ==> r == Some(SignedValue(sign, d))
  {
    var sign := SignOf(t);
    var digits := t[|sign|..];
    assert t == sign + digits;
    assert forall s2, d2 :: LongLiteral(t, s2, d2) ==> s2 == sign && d2 == digits by {
      forall s2, d2 | LongLiteral(t, s2, d2) ensures s2 == sign && d2 == digits {
        LongLiteralUnique(t, s2, d2);
      }
    }
    if digits == [] || !AllDigits(digits) then None
    else Some(SignedValue(sign, digits))
  }

  /** Long.parseLong over ASCII digits; `None` is the NumberFormatException raised for null,
      for text that is not a sign and digits and for values outside the `long` range. */
  function ParseLong(s: Option<string>): (r: Option<int>)
    ensures r.Some? ==> LONG_MIN <= r.value <= LONG_MAX
    ensures r.Some? ==> s.Some? && LongLiteral(s.value, SignOf(s.value), s.value[|SignOf(s.value)|..])
    ensures forall sign, d ::
              s.Some? && LongLiteral(s.value, sign, d) && LONG_MIN <= SignedValue(sign, d) <= LONG_MAX ==>
                r == Some(SignedValue(sign, d))
  {
    match s
    case None => None
    case Some(t) =>
      match ParseInteger(t)
      case None => None
      case Some(v) => if LONG_MIN <= v <= LONG_MAX then Some(v) else None
  }

  /** Long.parseLong accepts exactly a sign (or none) followed by ASCII digits whose value is a
      `long`, and gives that value. */
  lemma ParseLongAccepts(s: Option<string>)
    ensures ParseLong(s).Some? <==>
      s.Some? && exists sign, d :: LongLiteral(s.value, sign, d) && LONG_MIN <= SignedValue(sign, d) <= LONG_MAX
    ensures forall sign, d ::
              s.Some? && LongLiteral(s.value, sign, d) ==>
                ParseLong(s) == if LONG_MIN <= SignedValue(sign, d) <= LONG_MAX then Some(SignedValue(sign, d)) else None
  {
    if s.Some? {
      var t := s.value;
      forall sign, d | LongLiteral(t, sign, d)
        ensures ParseLong(s) == (if LONG_MIN <= SignedValue(sign, d) <= LONG_MAX then Some(SignedValue(sign, d)) else None)
      {
        LongLiteralUnique(t, sign, d);
      }
      if ParseLong(s).Some? {
        var sign := SignOf(t);
        assert LongLiteral(t, sign, t[|sign|..]);
      }
    }
  }

  lemma ParseLongOfNatToString(n: nat)
    requires n <= LONG_MAX
    ensures ParseLong(Some(NatToString(n))) == Some(n)
  {
    DigitsValueOfNatToString(n);
    assert LongLiteral(NatToString(n), "", NatToString(n));
  }

  /** Every `long` written in decimal parses back to itself. */
  lemma ParseLongOfIntToString(n: int)
    requires LONG_MIN <= n <= LONG_MAX
    ensures ParseLong(Some(IntToString(n))) == Some(n)
  {
    if n >= 0 {
      ParseLongOfNatToString(n);
    } else {
      var d := NatToString(-n);
      DigitsValueOfNatToString(-n);
      assert IntToString(n) == "-" + d;
      assert LongLiteral("-" + d, "-", d);
      assert SignedValue("-", d) == n;
    }
  }
}
