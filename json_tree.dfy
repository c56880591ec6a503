/**
 * The part of Jackson's tree model the JSON aggregator touches: a parsed document is a tree of
 * nodes, `get(name)` steps to a named member of an object node (and finds nothing on any other
 * node), and `asLong` reads a node as a Java `long`.  Number nodes hold integers here, so
 * Jackson's floating-point nodes are not modelled.  Text nodes are read the way Jackson reads
 * them: as a `long` literal, or else through Double.parseDouble and a (long) cast.
 */
module JsonTree {
  import opened Common
  import opened Text

  datatype Json =
    | JNull
    | JBool(b: bool)
    | JNum(n: int)
    | JStr(s: string)
    | JObj(members: map<string, Json>)
    | JArr(items: seq<Json>)

  /** JsonNode.get(String): the member of an object node, null for a missing member and for
      every node that is not an object. */
  function Child(node: Json, name: string): (c: Option<Json>)
    ensures c.Some? <==> node.JObj? && name in node.members
    ensures c.Some? ==> c.value == node.members[name]
  {
    if node.JObj? && name in node.members then Some(node.members[name]) else None
  }

  /** One `get` per path component, in order, from `node`; `None` is the NullPointerException
      of calling `get` (or anything else) on the null a missing member yields. */
  function Descend(node: Json, path: seq<string>): Option<Json>
    decreases |path|
  {
    if path == [] then Some(node)
    else match Child(node, path[0])
      case None => None
      case Some(c) => Descend(c, path[1..])
  }

  /** Walking a path in two pieces is walking it in one: the descent takes exactly one child
      per component, left to right. */
  lemma {:induction false} DescendAppend(node: Json, p: seq<string>, q: seq<string>)
    ensures Descend(node, p + q) ==
      (match Descend(node, p)
       case None => None
       case Some(n) => Descend(n, q))
    decreases |p|
  {
    if p == [] {
      assert p + q == q;
    } else {
      assert (p + q)[0] == p[0];
      assert (p + q)[1..] == p[1..] + q;
      match Child(node, p[0])
      case None =>
      case Some(c) => DescendAppend(c, p[1..], q);
    }
  }

  /** A member reached through a chain of objects is found, and the empty path is the root. */
  lemma {:induction false} DescendNested(node: Json, path: seq<string>, leaf: Json)
    requires node == Nest(path, leaf)
    ensures Descend(node, path) == Some(leaf)
    decreases |path|
  {
    if path != [] {
      assert Child(node, path[0]) == Some(Nest(path[1..], leaf));
      DescendNested(Nest(path[1..], leaf), path[1..], leaf);
    }
  }

  /** The document `{"p0": {"p1": ... leaf}}` that carries `leaf` under `path`. */
  function Nest(path: seq<string>, leaf: Json): (r: Json)
    ensures path != [] ==> r.JObj? && path[0] in r.members
    decreases |path|
  {
    if path == [] then leaf else JObj(map[path[0] := Nest(path[1..], leaf)])
  }

  /** A Java `long` holding the low 64 bits of `n`, as BigInteger.longValue gives. */
  function ToLong(n: int): (r: int)
    ensures LONG_MIN <= r <= LONG_MAX
    ensures (r - n) % 0x1_0000_0000_0000_0000 == 0
    ensures LONG_MIN <= n <= LONG_MAX ==> r == n
  {
    var m := n % 0x1_0000_0000_0000_0000;
    if m > LONG_MAX then m - 0x1_0000_0000_0000_0000 else m
  }

  /** The (long) cast of a number: values beyond the `long` range stop at its bounds. */
  function Saturate(v: int): (r: int)
    ensures LONG_MIN <= r <= LONG_MAX
    ensures LONG_MIN <= v <= LONG_MAX ==> r == v
    ensures v > LONG_MAX ==> r == LONG_MAX
    ensures v < LONG_MIN ==> r == LONG_MIN
  {
    if v > LONG_MAX then LONG_MAX else if v < LONG_MIN then LONG_MIN else v
  }

  /** The index of the first `a` or `b` in `t`, or the length of `t` when there is none. */
  function IndexOfEither(t: string, a: char, b: char): (i: nat)
    ensures i <= |t|
    ensures forall k :: 0 <= k < i ==> t[k] != a && t[k] != b
    ensures i < |t| ==> t[i] == a || t[i] == b
    decreases |t|
  {
    if t == [] || t[0] == a || t[0] == b then 0 else 1 + IndexOfEither(t[1..], a, b)
  }

  /** The digits of a mantissa without exponent, read as an integer, and the number of them after
      the point: digits, an optional point and further digits, at least one digit in all. */
  function Mantissa(m: string): Option<(nat, nat)>
  {
    var p := IndexOfEither(m, '.', '.');
    var whole := m[..p];
    var frac := if p < |m| then m[p + 1..] else [];
    if !AllDigits(whole) || !AllDigits(frac) || |whole| + |frac| == 0 then None
    else
      AllDigitsAppend(whole, frac);
      Some((DigitsValue(whole + frac), |frac|))
  }

  /** `n` times ten to the power `k`, truncated toward zero. */
  function Scale(n: nat, k: int): int
  {
    if k >= 0 then n * Pow10(k) else n / Pow10(-k)
  }

  /** An unsigned decimal number as Double.parseDouble reads it, truncated toward zero: a
      mantissa, then an optional exponent (`e` or `E`, an optional sign, digits).  `None` for
      any other text. */
  function UnsignedDecimal(t: string): Option<int>
  {
    var e := IndexOfEither(t, 'e', 'E');
    var exponent := if e < |t| then ParseInteger(t[e + 1..]) else Some(0);
    match (Mantissa(t[..e]), exponent)
    case (Some((n, fracDigits)), Some(x)) => Some(Scale(n, x - fracDigits))
    case _ => None
  }

  /** What Double.parseDouble reads from text without a sign, a number truncated toward zero. */
  datatype DoubleValue = NaN | Infinite | Finite(m: int)

  /** Double.parseDouble of unsigned text: "NaN", "Infinity", or a decimal number with an
      optional final `f`, `F`, `d` or `D`; `None` is the NumberFormatException. */
  function UnsignedDouble(body: string): Option<DoubleValue>
  {
    if body == "NaN" then Some(NaN)
    else if body == "Infinity" then Some(Infinite)
    else
      var core := if |body| > 0 && body[|body| - 1] in "fFdD" then body[..|body| - 1] else body;
      match UnsignedDecimal(core)
      case None => None
      case Some(m) => Some(Finite(m))
  }

  /** The (long) cast of a double: NaN gives 0, an infinity or a number beyond the `long` range
      the nearest bound, any other number its value truncated toward zero. */
  function LongCast(negative: bool, v: DoubleValue): (r: int)
    ensures LONG_MIN <= r <= LONG_MAX
  {
    match v
    case NaN => 0
    case Infinite => if negative then LONG_MIN else LONG_MAX
    case Finite(m) => Saturate(if negative then 0 - m else m)
  }

  /** Double.parseDouble of a trimmed text with an optional sign, then a (long) cast; `None` is
      the NumberFormatException. */
  function DoubleAsLong(s: string): (r: Option<int>)
    ensures r.Some? ==> LONG_MIN <= r.value <= LONG_MAX
  {
    var t := TrimStr(s);
    var sign := SignOf(t);
    match UnsignedDouble(t[|sign|..])
    case None => None
    case Some(v) => Some(LongCast(sign == "-", v))
  }

  /** The reading of a trimmed text whose leading "+", if any, is removed: Long.parseLong when
      everything from `skip` on is digits, otherwise Double.parseDouble and a (long) cast; 0 when
      that fails.  `skip` is 1 when the trimmed text itself began with "-", so a "-" that
      follows a removed "+" is not skipped and sends the text to Double.parseDouble. */
  function ParseAsLong(input: string, skip: nat): (r: int)
    requires skip <= |input|
    ensures LONG_MIN <= r <= LONG_MAX
  {
    var v := if AllDigits(input[skip..]) then ParseLong(Some(input)) else DoubleAsLong(input);
    if v.Some? then v.value else 0
  }

  /** A long literal without its "+" is read by Long.parseLong as the same value. */
  lemma ParseAsLongOfPlus(t: string, d: string)
    requires LongLiteral(t, "+", d) && SignedValue("+", d) <= LONG_MAX
    ensures ParseAsLong(t[1..], 0) == SignedValue("+", d)
  {
    assert t[1..] == d;
    assert LongLiteral(d, "", d);
    assert ParseLong(Some(d)) == Some(SignedValue("", d));
  }

  /** A long literal without "+" is read by Long.parseLong. */
  lemma ParseAsLongOfUnsignedOrMinus(t: string, sign: string, d: string)
    requires sign != "+" && LongLiteral(t, sign, d) && LONG_MIN <= SignedValue(sign, d) <= LONG_MAX
    ensures ParseAsLong(t, |sign|) == SignedValue(sign, d)
  {
    assert t[|sign|..] == d;
  }

  /** A text Long.parseLong accepts, its "+" removed, is read by Long.parseLong again. */
  lemma ParseAsLongOfLong(t: string)
    requires ParseLong(Some(t)).Some?
    ensures |t| > 0 && ParseAsLong(if t[0] == '+' then t[1..] else t, if t[0] == '-' then 1 else 0) == ParseLong(Some(t)).value
  {
    var sign, d :| LongLiteral(t, sign, d) && LONG_MIN <= SignedValue(sign, d) <= LONG_MAX;
    assert t[..|sign|] == sign;
    if sign == "+" {
      ParseAsLongOfPlus(t, d);
    } else {
      assert t[0] != '+' && (t[0] == '-' <==> sign == "-") by { if sign == "" { assert t[0] == d[0]; } }
      ParseAsLongOfUnsignedOrMinus(t, sign, d);
    }
  }

  /** TextNode.asLong, which is NumberInput.parseAsLong(text, 0): the text is trimmed, a leading
      "+" removed, a leading "-" skipped, and the rest read by ParseAsLong.  Every text Long.parseLong accepts reads as
      its value. */
  function TextAsLong(s: string): (r: int)
    ensures LONG_MIN <= r <= LONG_MAX
    ensures ParseLong(Some(TrimStr(s))).Some? ==> r == ParseLong(Some(TrimStr(s))).value
  {
    var t := TrimStr(s);
    if t == [] then 0
    else
      var input := if t[0] == '+' then t[1..] else t;
      var skip := if t[0] == '-' then 1 else 0;
      if ParseLong(Some(t)).Some? then ParseAsLongOfLong(t); ParseAsLong(input, skip)
      else ParseAsLong(input, skip)
  }

  /** Dropping the last `k` digits of a number written as `x` followed by them leaves `x`. */
  lemma DropPlaces(x: nat, p: nat, y: nat)
    requires y < p
    ensures (x * p + y) / p == x
  {
    var q, r := (x * p + y) / p, (x * p + y) % p;
    assert x * p + y == q * p + r && 0 <= r < p;
    if q > x {
      MulMono(x + 1, q, p);
      assert false;
    } else if q < x {
      MulMono(q + 1, x, p);
      assert false;
    }
  }

  lemma MulMono(a: int, b: int, p: nat)
    requires a <= b
    ensures a * p <= b * p && (a + 1) * p == a * p + p
  {
    assert b * p - a * p == (b - a) * p;
  }

  /** A text made of digits and points holds no exponent mark. */
  lemma NoExponentMark(u: string)
    requires forall k :: 0 <= k < |u| ==> '0' <= u[k] <= '9' || u[k] == '.'
    ensures IndexOfEither(u, 'e', 'E') == |u|
  {
  }

  /** The point of `whole.frac` is the first one. */
  lemma PointAfterWhole(whole: string, frac: string)
    requires AllDigits(whole)
    ensures IndexOfEither(whole + "." + frac, '.', '.') == |whole|
  {
    var u := whole + "." + frac;
    assert u[|whole|] == '.';
    assert forall k :: 0 <= k < |whole| ==> u[k] == whole[k];
  }

  /** The mantissa `whole.frac` is all its digits, with `frac` after the point. */
  lemma MantissaOfFraction(whole: string, frac: string)
    requires AllDigits(whole) && AllDigits(frac) && |whole| + |frac| >= 1
    ensures AllDigits(whole + frac)
    ensures Mantissa(whole + "." + frac) == Some((DigitsValue(whole + frac), |frac|))
  {
    var u := whole + "." + frac;
    PointAfterWhole(whole, frac);
    var p := IndexOfEither(u, '.', '.');
    assert p == |whole| && p < |u|;
    assert u[..p] == whole && u[p + 1..] == frac;
    AllDigitsAppend(whole, frac);
  }

  lemma FractionNoExponent(whole: string, frac: string)
    requires AllDigits(whole) && AllDigits(frac)
    ensures IndexOfEither(whole + "." + frac, 'e', 'E') == |whole + "." + frac|
  {
    var u := whole + "." + frac;
    forall k | 0 <= k < |u| ensures '0' <= u[k] <= '9' || u[k] == '.' {
      if k < |whole| { assert u[k] == whole[k]; }
      else if k > |whole| { assert u[k] == frac[k - |whole| - 1]; }
    }
    NoExponentMark(u);
  }

  /** Scaling the digits of `whole.frac` back by the fraction's length leaves the whole part. */
  lemma ScaleFraction(whole: string, frac: string)
    requires AllDigits(whole) && AllDigits(frac)
    ensures AllDigits(whole + frac)
    ensures Scale(DigitsValue(whole + frac), 0 - |frac|) == DigitsValue(whole)
  {
    DigitsValueAppend(whole, frac);
    DropPlaces(DigitsValue(whole), Pow10(|frac|), DigitsValue(frac));
  }

  /** Digits, a point and digits read as the digits before the point. */
  lemma UnsignedDecimalOfFraction(whole: string, frac: string)
    requires AllDigits(whole) && AllDigits(frac) && |whole| + |frac| >= 1
    ensures UnsignedDecimal(whole + "." + frac) == Some(DigitsValue(whole))
  {
    var u := whole + "." + frac;
    FractionNoExponent(whole, frac);
    assert u[..|u|] == u;
    MantissaOfFraction(whole, frac);
    ScaleFraction(whole, frac);
  }

  /** `whole.frac` is a finite double whose integer part is `whole`. */
  lemma UnsignedDoubleOfFraction(whole: string, frac: string)
    requires AllDigits(whole) && AllDigits(frac) && frac != []
    ensures UnsignedDouble(whole + "." + frac) == Some(Finite(DigitsValue(whole)))
  {
    var u := whole + "." + frac;
    var c := u[|u| - 1];
    assert c == frac[|frac| - 1];
    assert u != "NaN" by { assert "NaN"[2] == 'N'; }
    assert u != "Infinity" by { assert "Infinity"[7] == 'y'; }
    assert c !in "fFdD";
    UnsignedDecimalOfFraction(whole, frac);
  }

  lemma SignedFractionTail(sign: string, whole: string, frac: string)
    requires sign == "" || sign == "+" || sign == "-"
    ensures var t := sign + (whole + "." + frac); t[|sign|..] == whole + "." + frac
  {
  }

  lemma SignedFractionSign(sign: string, whole: string, frac: string)
    requires sign == "" || sign == "+" || sign == "-"
    requires AllDigits(whole)
    ensures SignOf(sign + (whole + "." + frac)) == sign
  {
    var u := whole + "." + frac;
    assert u[0] == (if whole != [] then whole[0] else '.');
  }

  lemma SignedFractionTrimmed(sign: string, whole: string, frac: string)
    requires sign == "" || sign == "+" || sign == "-"
    requires AllDigits(whole) && AllDigits(frac) && frac != []
    ensures var t := sign + (whole + "." + frac); TrimStr(t) == t
  {
    var u := whole + "." + frac;
    var t := sign + u;
    assert u[|u| - 1] == frac[|frac| - 1];
    assert t[|t| - 1] == u[|u| - 1];
    assert t[0] == (if sign != "" then sign[0] else u[0]);
    assert u[0] == (if whole != [] then whole[0] else '.');
    TrimStrOfTrimmed(t);
  }

  /** An optional sign before `whole.frac` needs no trimming and is read as its sign. */
  lemma SignedFractionShape(sign: string, whole: string, frac: string)
    requires sign == "" || sign == "+" || sign == "-"
    requires AllDigits(whole) && AllDigits(frac) && frac != []
    ensures var t := sign + (whole + "." + frac);
      TrimStr(t) == t && SignOf(t) == sign && t[|sign|..] == whole + "." + frac
  {
    SignedFractionTail(sign, whole, frac);
    SignedFractionSign(sign, whole, frac);
    SignedFractionTrimmed(sign, whole, frac);
  }

  /** Double.parseDouble and a (long) cast of an optionally negative `whole.frac` give the
      whole part. */
  lemma DoubleAsLongOfFraction(minus: string, whole: string, frac: string)
    requires minus == "" || minus == "-"
    requires AllDigits(whole) && AllDigits(frac) && frac != []
    ensures DoubleAsLong(minus + (whole + "." + frac)) == Some(Saturate(SignedValue(minus, whole)))
  {
    var t := minus + (whole + "." + frac);
    SignedFractionShape(minus, whole, frac);
    UnsignedDoubleOfFraction(whole, frac);
    DoubleAsLongOfTrimmed(t, minus, Finite(DigitsValue(whole)));
    assert LongCast(minus == "-", Finite(DigitsValue(whole))) == Saturate(SignedValue(minus, whole));
  }

  /** A trimmed text whose sign is `sign` and whose rest reads as `v`. */
  lemma DoubleAsLongOfTrimmed(t: string, sign: string, v: DoubleValue)
    requires TrimStr(t) == t && SignOf(t) == sign && UnsignedDouble(t[|sign|..]) == Some(v)
    ensures DoubleAsLong(t) == Some(LongCast(sign == "-", v))
  {
  }

  /** Past trimming and the removal of a "+", an optionally negative `whole.frac` is not a
      long literal and goes to Double.parseDouble. */
  lemma ParseAsLongOfFraction(minus: string, whole: string, frac: string)
    requires minus == "" || minus == "-"
    requires AllDigits(whole) && AllDigits(frac) && frac != []
    ensures ParseAsLong(minus + (whole + "." + frac), |minus|) == Saturate(SignedValue(minus, whole))
  {
    var u := whole + "." + frac;
    var input := minus + u;
    SignedFractionTail(minus, whole, frac);
    assert u[|whole|] == '.';
    assert !AllDigits(u);
    DoubleAsLongOfFraction(minus, whole, frac);
  }

  /** A decimal fraction reads as its whole part, the fraction dropped toward zero: "12.50" as
      12, "+3.7" as 3 and "-2.5" as -2. */
  lemma TextAsLongOfFraction(sign: string, whole: string, frac: string)
    requires sign == "" || sign == "+" || sign == "-"
    requires AllDigits(whole) && frac != [] && AllDigits(frac) && DigitsValue(whole) <= LONG_MAX
    ensures TextAsLong(sign + (whole + "." + frac)) == SignedValue(sign, whole)
  {
    var u := whole + "." + frac;
    var text := sign + u;
    SignedFractionShape(sign, whole, frac);
    var minus := if sign == "-" then "-" else "";
    assert text[0] == (if sign != "" then sign[0] else u[0]);
    assert u[0] == (if whole != [] then whole[0] else '.');
    assert (if text[0] == '+' then text[1..] else text) == minus + u;
    assert (if text[0] == '-' then 1 else 0) == |minus|;
    ParseAsLongOfFraction(minus, whole, frac);
  }

  /** A run of digits holds neither a point nor an exponent mark. */
  lemma DigitsHaveNoMarks(w: string)
    requires AllDigits(w)
    ensures IndexOfEither(w, '.', '.') == |w| && IndexOfEither(w, 'e', 'E') == |w|
  {
  }

  /** The mantissa of plain digits is their value, with no digits after the point. */
  lemma MantissaOfDigits(whole: string)
    requires whole != [] && AllDigits(whole)
    ensures Mantissa(whole) == Some((DigitsValue(whole), 0))
  {
    DigitsHaveNoMarks(whole);
    assert whole[..|whole|] == whole && whole + [] == whole;
  }

  /** The exponent mark of `whole` e `exp` follows the digits of `whole`. */
  lemma ExponentAfterWhole(whole: string, exp: string)
    requires AllDigits(whole)
    ensures var u := whole + "e" + exp;
      IndexOfEither(u, 'e', 'E') == |whole| && u[..|whole|] == whole && u[|whole| + 1..] == exp
  {
    var u := whole + "e" + exp;
    assert u[|whole|] == 'e';
    assert forall k :: 0 <= k < |whole| ==> u[k] == whole[k];
    assert u[..|whole|] == whole && u[|whole| + 1..] == exp;
  }

  /** Digits with no fraction, `e` and an integer read as the digits scaled by the integer. */
  lemma UnsignedDecimalAtExponent(whole: string, exp: string, n: nat, x: int)
    requires AllDigits(whole) && Mantissa(whole) == Some((n, 0)) && ParseInteger(exp) == Some(x)
    ensures UnsignedDecimal(whole + "e" + exp) == Some(Scale(n, x))
  {
    ExponentAfterWhole(whole, exp);
  }

  /** Digits, `e` and digits read as the first number scaled up by the second. */
  lemma UnsignedDecimalOfExponent(whole: string, exp: string)
    requires whole != [] && AllDigits(whole) && exp != [] && AllDigits(exp)
    ensures UnsignedDecimal(whole + "e" + exp) == Some(Scale(DigitsValue(whole), DigitsValue(exp)))
  {
    MantissaOfDigits(whole);
    ExponentValue(exp);
    UnsignedDecimalAtExponent(whole, exp, DigitsValue(whole), DigitsValue(exp));
  }

  /** Scaling by a non-negative power multiplies. */
  lemma ScaleUp(n: nat, k: nat)
    ensures Scale(n, k) == n * Pow10(k)
  {
  }

  /** An exponent of plain digits is their value. */
  lemma ExponentValue(exp: string)
    requires exp != [] && AllDigits(exp)
    ensures ParseInteger(exp) == Some(DigitsValue(exp))
  {
    assert LongLiteral(exp, "", exp);
  }

  /** A text that starts and ends with a digit, but is not all digits, is read by
      Double.parseDouble as an unsigned decimal number. */
  lemma TextAsLongOfUnsignedDecimal(t: string)
    requires |t| > 0 && '0' <= t[0] <= '9' && '0' <= t[|t| - 1] <= '9' && !AllDigits(t)
    ensures TextAsLong(t) == (match UnsignedDecimal(t) case None => 0 case Some(m) => Saturate(m))
  {
    TrimStrOfTrimmed(t);
    assert SignOf(t) == "" && t[0..] == t;
    assert t != "NaN" && t != "Infinity" by { assert t[0] != 'N' && t[0] != 'I'; }
    assert t[|t| - 1] !in "fFdD";
  }

  /** Text without an exponent mark reads as its mantissa. */
  lemma UnsignedDecimalWithoutExponent(t: string, n: nat)
    requires IndexOfEither(t, 'e', 'E') == |t| && Mantissa(t[..|t|]) == Some((n, 0))
    ensures UnsignedDecimal(t) == Some(Scale(n, 0))
  {
  }

  /** Plain digits read as their value. */
  lemma UnsignedDecimalOfDigits(d: string)
    requires d != [] && AllDigits(d)
    ensures UnsignedDecimal(d) == Some(DigitsValue(d))
  {
    DigitsHaveNoMarks(d);
    MantissaOfDigits(d);
    assert d[..|d|] == d;
    UnsignedDecimalWithoutExponent(d, DigitsValue(d));
    ScaleUp(DigitsValue(d), 0);
  }

  /** Double.parseDouble reads plain digits as their value. */
  lemma UnsignedDoubleOfDigits(d: string)
    requires d != [] && AllDigits(d)
    ensures UnsignedDouble(d) == Some(Finite(DigitsValue(d)))
  {
    assert d != "NaN" && d != "Infinity" by { assert d[0] != 'N' && d[0] != 'I'; }
    assert d[|d| - 1] !in "fFdD";
    UnsignedDecimalOfDigits(d);
  }

  lemma SignedDigitsTrimmed(minus: string, d: string)
    requires (minus == "" || minus == "-") && d != [] && AllDigits(d)
    ensures TrimStr(minus + d) == minus + d
  {
    var u := minus + d;
    assert u[0] == (if minus != "" then minus[0] else d[0]);
    assert u[|u| - 1] == d[|d| - 1];
    TrimStrOfTrimmed(u);
  }

  lemma SignedDigitsSign(minus: string, d: string)
    requires (minus == "" || minus == "-") && d != [] && AllDigits(d)
    ensures SignOf(minus + d) == minus && (minus + d)[|minus|..] == d
  {
    assert (minus + d)[0] == (if minus != "" then minus[0] else d[0]);
  }

  /** Double.parseDouble and a (long) cast of digits after an optional "-" give their signed
      value, stopped at the `long` bounds. */
  lemma DoubleAsLongOfSignedDigits(minus: string, d: string)
    requires (minus == "" || minus == "-") && d != [] && AllDigits(d)
    ensures DoubleAsLong(minus + d) == Some(Saturate(SignedValue(minus, d)))
  {
    var t := minus + d;
    SignedDigitsTrimmed(minus, d);
    SignedDigitsSign(minus, d);
    UnsignedDoubleOfDigits(d);
    DoubleAsLongOfTrimmed(t, minus, Finite(DigitsValue(d)));
    assert LongCast(minus == "-", Finite(DigitsValue(d))) == Saturate(SignedValue(minus, d));
  }

  /** "+-" followed by digits: once the "+" is removed, the "-" is not skipped, so the text is
      not read by Long.parseLong but by Double.parseDouble, and gives the negated digits stopped
      at Long.MIN_VALUE: "+-5" as -5, and "+-9223372036854775809" as Long.MIN_VALUE. */
  lemma TextAsLongOfPlusMinus(t: string)
    requires |t| > 2 && t[0] == '+' && t[1] == '-' && AllDigits(t[2..])
    ensures TextAsLong(t) == Saturate(0 - DigitsValue(t[2..]))
  {
    PlusMinusTrimmed(t);
    PlusMinusDouble(t);
    PlusMinusValue(t);
    PlusMinusRead(t);
  }

  lemma PlusMinusTrimmed(t: string)
    requires |t| > 2 && t[0] == '+' && t[1] == '-' && AllDigits(t[2..])
    ensures TrimStr(t) == t
  {
    assert t[|t| - 1] == t[2..][|t| - 3];
    TrimStrOfTrimmed(t);
  }

  lemma PlusMinusDouble(t: string)
    requires |t| > 2 && t[0] == '+' && t[1] == '-' && AllDigits(t[2..])
    ensures DoubleAsLong(t[1..]) == Some(Saturate(SignedValue(t[1..2], t[2..])))
  {
    assert t[1..2] == "-" && t[1..] == t[1..2] + t[2..];
    DoubleAsLongOfSignedDigits(t[1..2], t[2..]);
  }

  lemma PlusMinusValue(t: string)
    requires |t| > 2 && t[1] == '-' && AllDigits(t[2..])
    ensures SignedValue(t[1..2], t[2..]) == 0 - DigitsValue(t[2..])
  {
    assert t[1..2] == "-";
  }

  lemma PlusMinusRead(t: string)
    requires |t| > 2 && t[0] == '+' && t[1] == '-' && TrimStr(t) == t && DoubleAsLong(t[1..]).Some?
    ensures TextAsLong(t) == DoubleAsLong(t[1..]).value
  {
    var u := t[1..];
    TextAsLongOfPlus(t);
    assert !AllDigits(u[0..]) by { assert u[0] == '-'; }
    ParseAsLongOfDouble(u, 0);
  }

  /** A trimmed text that starts with "+" is read without it, from its first character on. */
  lemma TextAsLongOfPlus(t: string)
    requires |t| > 0 && t[0] == '+' && TrimStr(t) == t
    ensures TextAsLong(t) == ParseAsLong(t[1..], 0)
  {
  }

  /** Text that is not digits from `skip` on is read by Double.parseDouble. */
  lemma ParseAsLongOfDouble(input: string, skip: nat)
    requires skip <= |input| && !AllDigits(input[skip..]) && DoubleAsLong(input).Some?
    ensures ParseAsLong(input, skip) == DoubleAsLong(input).value
  {
  }

  /** A number with an exponent reads as its value, stopped at the `long` bounds: "1e3" as 1000. */
  lemma TextAsLongOfExponent(whole: string, exp: string)
    requires whole != [] && AllDigits(whole) && exp != [] && AllDigits(exp)
    ensures TextAsLong(whole + "e" + exp) == Saturate(DigitsValue(whole) * Pow10(DigitsValue(exp)))
  {
    var t := whole + "e" + exp;
    assert t[0] == whole[0] && t[|t| - 1] == exp[|exp| - 1] && t[|whole|] == 'e';
    TextAsLongOfUnsignedDecimal(t);
    UnsignedDecimalOfExponent(whole, exp);
    ScaleUp(DigitsValue(whole), DigitsValue(exp));
  }

  /** JsonNode.asLong: a number gives its low 64 bits, a boolean 1 or 0, text what TextAsLong
      reads from it, and every other node 0. */
  function AsLong(node: Json): (r: int)
    ensures LONG_MIN <= r <= LONG_MAX
    ensures node.JNum? && LONG_MIN <= node.n <= LONG_MAX ==> r == node.n
    ensures node.JBool? ==> r == (if node.b then 1 else 0)
    ensures node.JStr? ==> r == TextAsLong(node.s)
    ensures node.JNull? || node.JObj? || node.JArr? ==> r == 0
  {
    match node
    case JNum(n) => ToLong(n)
    case JBool(b) => if b then 1 else 0
    case JStr(s) => TextAsLong(s)
    case _ => 0
  }

  /** getNumericalFieldValue as a value: descend, then asLong; `None` is the exception. */
  function ReadLong(node: Json, path: seq<string>): (r: Option<int>)
    ensures r.Some? <==> Descend(node, path).Some?
    ensures r.Some? ==> r.value == AsLong(Descend(node, path).value)
  {
    match Descend(node, path)
    case None => None
    case Some(leaf) => Some(AsLong(leaf))
  }

  /** The text of a node as the aggregator's getTextFieldValue is taken to give it: the string of
      a text node, the decimal form of a number, "true"/"false", "null", and "" for containers.
      That method is not part of this model; this reading is an assumption. */
  function AsText(node: Json): string
  {
    match node
    case JStr(s) => s
    case JNum(n) => IntToString(n)
    case JBool(b) => if b then "true" else "false"
    case JNull => "null"
    case _ => ""
  }

  /** getTextFieldValue: descend along the path, then read the node as text; `None` is the
      exception a missing member raises. */
  function ReadText(node: Json, path: seq<string>): (r: Option<string>)
    ensures r.Some? <==> Descend(node, path).Some?
    ensures r.Some? && Descend(node, path).value.JStr? ==> r.value == Descend(node, path).value.s
  {
    match Descend(node, path)
    case None => None
    case Some(leaf) => Some(AsText(leaf))
  }
}
