/**
 * Money as the Python code handles it with decimal.Decimal: exact decimal
 * values, `quantize(Decimal('0.01'))` with the default half-even rounding,
 * and the `{:,.2f}` rendering with comma thousands separators. Amounts that
 * have been quantized are carried as integer pence.
 */
module Money {
  import opened Wrappers
  import opened Strings

  function Abs(x: real): real { if x < 0.0 then -x else x }

  /** Rounding to the nearest integer, ties to the even neighbour (ROUND_HALF_EVEN). */
  function RoundHalfEven(x: real): (r: int)
    ensures 2.0 * Abs(x - r as real) <= 1.0
    ensures 2.0 * Abs(x - r as real) == 1.0 ==> r % 2 == 0
  {
    var f := x.Floor;
    var frac := x - f as real;
    if frac < 0.5 then f
    else if frac > 0.5 then f + 1
    else if f % 2 == 0 then f
    else f + 1
  }

  /** The two properties of RoundHalfEven determine its result. */
  lemma RoundHalfEvenUnique(x: real, r: int)
    requires 2.0 * Abs(x - r as real) <= 1.0
    requires 2.0 * Abs(x - r as real) == 1.0 ==> r % 2 == 0
    ensures r == RoundHalfEven(x)
  {
    var q := RoundHalfEven(x);
    if r != q {
      assert false;
    }
  }

  /** Rounding half-even never reverses the order of two values. */
  lemma RoundHalfEvenMonotone(x: real, y: real)
    requires x <= y
    ensures RoundHalfEven(x) <= RoundHalfEven(y)
  {
  }

  lemma RoundHalfEvenOfInteger(n: int)
    ensures RoundHalfEven(n as real) == n
  {
    RoundHalfEvenUnique(n as real, n);
  }

  /** Python's `int()` of a number: its integer part, truncated toward zero. */
  function Truncate(x: real): (r: int)
    ensures Abs(r as real) <= Abs(x) < Abs(r as real) + 1.0
    ensures x >= 0.0 ==> r >= 0
    ensures x < 0.0 ==> r <= 0
  {
    if x >= 0.0 then x.Floor else -((-x).Floor)
  }

  /** `x / n` is the q with q * n <= x < (q + 1) * n. */
  lemma DivUnique(x: int, n: int, q: int)
    requires n > 0 && q * n <= x < (q + 1) * n
    ensures x / n == q
  {
    var d := x / n;
    assert d * n <= x < (d + 1) * n;
  }

  /** The floor of `done` out of `total` in percent: within 0..100, 100 only for all, 0 only below one percent. */
  lemma PercentOf(done: nat, total: nat)
    requires done <= total && total > 0
    ensures 0 <= done * 100 / total <= 100
    ensures done * 100 / total == 100 <==> done == total
    ensures done * 100 / total == 0 <==> done * 100 < total
  {
    var x, q := done * 100, done * 100 / total;
    assert q * total <= x < (q + 1) * total;
    if done == total {
      DivUnique(x, total, 100);
    } else {
      assert x < 100 * total;
    }
    if x < total {
      DivUnique(x, total, 0);
    }
  }

  /** Floor division by a positive number keeps order. */
  lemma DivMonotone(a: int, b: int, n: int)
    requires 0 <= a <= b && n > 0
    ensures a / n <= b / n
  {
    var qa, qb := a / n, b / n;
    assert qa * n <= a && b < (qb + 1) * n;
    MulMonotone(qa, qb + 1, n);
  }

  lemma MulMonotone(x: int, y: int, n: int)
    requires n > 0
    ensures x >= y ==> x * n >= y * n
  {
    assert x * n - y * n == (x - y) * n;
  }

  /** `x.quantize(Decimal('0.01'))`, in pence. */
  function Quantize2(x: real): (pence: int)
    ensures 2.0 * Abs(x * 100.0 - pence as real) <= 1.0
  {
    RoundHalfEven(x * 100.0)
  }

  function Pence(p: int): real { p as real / 100.0 }

  /** Digits grouped in threes from the right with commas: "1234567" becomes "1,234,567". */
  function Group(s: string): (r: string)
    ensures ',' !in s ==> RemoveAll(r, ',') == s
    ensures forall c :: c in r ==> c == ',' || c in s
    decreases |s|
  {
    if |s| <= 3 then s
    else
      var head, tail := s[..|s| - 3], s[|s| - 3..];
      var g := Group(head);
      var r := g + "," + tail;
      assert s == head + tail;
      assert forall c :: c in r ==> c in g || c == ',' || c in tail;
      assert forall c :: c in head || c in tail ==> c in s;
      CommaJoin(g, tail);
      r
  }

  lemma CommaJoin(g: string, tail: string)
    ensures ',' !in tail ==> RemoveAll(g + "," + tail, ',') == RemoveAll(g, ',') + tail
  {
    var comma: string := [','];
    assert RemoveAll(comma, ',') == [];
    RemoveAllConcat(g, comma, ',');
    RemoveAllConcat(g + comma, tail, ',');
  }

  /** `{:,.2f}` of an amount of pence: sign, grouped whole part, two decimals. */
  function FormatPence(p: int): (s: string)
    ensures forall c :: c in s ==> IsDigit(c) || c in ",.-"
    ensures |s| >= 4 && s[|s| - 3] == '.'
  {
    var a := if p < 0 then -p else p;
    (if p < 0 then "-" else "") + Group(NatToString(a / 100)) + "." + TwoDigits(a % 100)
  }

  /**
   * `{:,.2f}` of an exact decimal: rounded half-even to 2 places first. A
   * negative amount that rounds to zero keeps its sign, as `Decimal`
   * formatting does: -0.004 renders "-0.00".
   */
  function Format2(x: real): (s: string)
    ensures |s| >= 4 && s[|s| - 3] == '.'
    ensures x < 0.0 ==> s[0] == '-'
    ensures x >= 0.0 ==> s == FormatPence(Quantize2(x))
  {
    var p := Quantize2(x);
    if x < 0.0 && p == 0 then "-" + FormatPence(0)
    else
      assert x < 0.0 ==> p < 0 by {
        if x < 0.0 {
          RoundHalfEvenMonotone(x * 100.0, 0.0);
          RoundHalfEvenOfInteger(0);
        }
      }
      FormatPence(p)
  }

  /** An unsigned decimal numeral: digits, optionally with one '.' and a fraction. */
  function ParseUnsigned(s: string): (r: Option<real>)
    ensures r.Some? ==> r.value >= 0.0
  {
    var k := IndexOf(s, '.');
    if k < 0 then
      if |s| > 0 && AllDigits(s) then Some(DigitsValue(s) as real) else None
    else ParsePointed(s[..k], s[k + 1..])
  }

  /** The numeral `whole.frac`, where either part may be empty but not both. */
  function ParsePointed(whole: string, frac: string): (r: Option<real>)
    ensures r.Some? ==> r.value >= 0.0
  {
    if (|whole| > 0 || |frac| > 0) && AllDigits(whole) && AllDigits(frac) then
      Some(DigitsValue(whole) as real + DigitsValue(frac) as real / Pow10(|frac|) as real)
    else None
  }

  /** `Decimal(s)` on an already stripped string: an optional sign then a numeral. */
  function ParseDecimal(s: string): Option<real> {
    if |s| > 0 && (s[0] == '-' || s[0] == '+') then
      match ParseUnsigned(s[1..])
      case None => None
      case Some(v) => Some(if s[0] == '-' then -v else v)
    else ParseUnsigned(s)
  }

  /** `s.replace(",", "").replace("£", "").strip()`: the amount cleaning of uploads and manual entry. */
  function CleanAmount(s: string): string {
    Strip(RemoveAll(RemoveAll(s, ','), '£'))
  }

  lemma ParseWholeAndFraction(w: string, f: string)
    requires |w| > 0 && AllDigits(w) && AllDigits(f)
    ensures ParseUnsigned(w + ("." + f)) == ParsePointed(w, f)
  {
    var s := w + ("." + f);
    assert s == w + ['.'] + f;
    assert IndexOf(s, '.') == |w| by {
      DigitsFreeOf(w, '.');
      IndexOfAfter(w, '.', f);
    }
    assert s[..|w|] == w && s[|w| + 1..] == f;
  }

  lemma ParseFormattedUnsigned(a: nat)
    ensures ParseUnsigned(NatToString(a / 100) + ("." + TwoDigits(a % 100))) == Some(Pence(a))
  {
    ParseWholeAndFraction(NatToString(a / 100), TwoDigits(a % 100));
    NatToStringRoundTrip(a / 100);
    assert Pow10(2) == 100;
    assert (a / 100) as real + (a % 100) as real / 100.0 == a as real / 100.0;
  }

  lemma DigitsFreeOf(s: string, c: char)
    requires AllDigits(s) && !IsDigit(c)
    ensures c !in s
  {
  }

  lemma RemoveCommas(sign: string, digits: string, two: string)
    requires sign == "" || sign == "-"
    requires AllDigits(digits) && AllDigits(two)
    ensures RemoveAll("£" + sign + Group(digits) + ("." + two), ',') == "£" + sign + digits + ("." + two)
  {
    DigitsFreeOf(digits, ',');
    DigitsFreeOf(two, ',');
    RemoveAll3("£" + sign, Group(digits), "." + two, ',');
    assert RemoveAll("£" + sign, ',') == "£" + sign;
    assert ',' !in "." + two;
  }

  lemma RemovePound(sign: string, digits: string, two: string)
    requires sign == "" || sign == "-"
    requires AllDigits(digits) && AllDigits(two)
    ensures RemoveAll("£" + sign + digits + ("." + two), '£') == sign + digits + ("." + two)
  {
    var y := sign + digits + ("." + two);
    assert '£' !in y by {
      DigitsFreeOf(digits, '£');
      DigitsFreeOf(two, '£');
    }
    assert "£" + sign + digits + ("." + two) == ['£'] + y;
    DropLeading('£', y);
  }

  lemma CleanOfUnpadded(x: string, u: string)
    requires RemoveAll(RemoveAll(x, ','), '£') == u
    requires u == [] || (!IsSpace(u[0]) && !IsSpace(u[|u| - 1]))
    ensures CleanAmount(x) == u
  {
    StripFixesStripped(u);
  }

  lemma SignedHead(sign: string, digits: string, rest: string)
    requires sign == "" || sign == "-"
    requires AllDigits(digits) && |digits| > 0
    ensures !IsSpace((sign + digits + rest)[0])
  {
    if sign == "" {
      assert (sign + digits + rest)[0] == digits[0];
    } else {
      assert (sign + digits + rest)[0] == '-';
    }
  }

  lemma UnformattedEnds(sign: string, digits: string, two: string)
    requires sign == "" || sign == "-"
    requires AllDigits(digits) && |digits| > 0 && AllDigits(two) && |two| == 2
    ensures var u := sign + digits + ("." + two); !IsSpace(u[0]) && !IsSpace(u[|u| - 1])
  {
    var u := sign + digits + ("." + two);
    assert u[|u| - 1] == two[1];
    SignedHead(sign, digits, "." + two);
  }

  lemma CleanFormatted(x: string, sign: string, digits: string, two: string)
    requires sign == "" || sign == "-"
    requires AllDigits(digits) && |digits| > 0 && AllDigits(two) && |two| == 2
    requires x == "£" + sign + Group(digits) + ("." + two)
    ensures CleanAmount(x) == sign + digits + ("." + two)
  {
    var u := sign + digits + ("." + two);
    assert RemoveAll(RemoveAll(x, ','), '£') == u by {
      RemoveCommas(sign, digits, two);
      RemovePound(sign, digits, two);
    }
    UnformattedEnds(sign, digits, two);
    CleanOfUnpadded(x, u);
  }

  lemma ParseNegated(t: string, body: string, v: real)
    requires t == "-" + body && ParseUnsigned(body) == Some(v)
    ensures ParseDecimal(t) == Some(-v)
  {
    assert t[0] == '-' && t[1..] == body;
  }

  lemma ParsePlain(body: string, v: real)
    requires ParseUnsigned(body) == Some(v)
    requires |body| > 0 && IsDigit(body[0])
    ensures ParseDecimal(body) == Some(v)
  {
  }

  lemma ParseSigned(sign: string, w: string, f: string, v: real)
    requires sign == "" || sign == "-"
    requires ParseUnsigned(w + f) == Some(v)
    requires |w| > 0 && IsDigit(w[0])
    ensures ParseDecimal(sign + w + f) == Some(if sign == "-" then -v else v)
  {
    var body := w + f;
    if sign == "-" {
      ParseNegated(sign + w + f, body, v);
    } else {
      assert sign + w + f == body;
      assert body[0] == w[0];
      ParsePlain(body, v);
    }
  }

  /** What the cleaning of a rendered amount leaves: the sign and the ungrouped numeral. */
  function Unformatted(p: int): string {
    var a := if p < 0 then -p else p;
    (if p < 0 then "-" else "") + NatToString(a / 100) + ("." + TwoDigits(a % 100))
  }

  lemma CleanOfFormatPence(p: int)
    ensures CleanAmount("£" + FormatPence(p)) == Unformatted(p)
  {
    var a := if p < 0 then -p else p;
    var digits, two := NatToString(a / 100), TwoDigits(a % 100);
    var sign := if p < 0 then "-" else "";
    var x := "£" + FormatPence(p);
    assert x == "£" + sign + Group(digits) + ("." + two) by {
      FormatPenceShape(p);
    }
    CleanFormatted(x, sign, digits, two);
  }

  lemma FormatPenceShape(p: int)
    ensures var a := if p < 0 then -p else p;
      "£" + FormatPence(p) == "£" + (if p < 0 then "-" else "") + Group(NatToString(a / 100)) + ("." + TwoDigits(a % 100))
  {
  }

  lemma ParseUnformatted(p: int)
    ensures ParseDecimal(Unformatted(p)) == Some(Pence(p))
  {
    if p < 0 {
      ParseUnformattedNegative(p);
    } else {
      ParseUnformattedNonNegative(p);
    }
  }

  lemma ParseUnformattedNegative(p: int)
    requires p < 0
    ensures ParseDecimal(Unformatted(p)) == Some(Pence(p))
  {
    var a := -p;
    var body := NatToString(a / 100) + ("." + TwoDigits(a % 100));
    assert Unformatted(p) == "-" + body;
    ParseFormattedUnsigned(a);
    ParseNegativeNumeral(Unformatted(p), body, a, p);
  }

  lemma ParseNegativeNumeral(u: string, body: string, a: nat, p: int)
    requires a == -p && ParseUnsigned(body) == Some(Pence(a)) && u == "-" + body
    ensures ParseDecimal(u) == Some(Pence(p))
  {
    ParseNegated(u, body, Pence(a));
    assert -Pence(a) == Pence(p);
  }

  lemma ParseUnformattedNonNegative(p: int)
    requires p >= 0
    ensures ParseDecimal(Unformatted(p)) == Some(Pence(p))
  {
    ParseFormattedUnsigned(p);
    ParseSigned("", NatToString(p / 100), "." + TwoDigits(p % 100), Pence(p));
  }

  /**
   * A minus sign put before a rendered amount is read back as its negation;
   * in particular "-0.00", the rendering of a small negative amount, reads
   * back as zero.
   */
  lemma NegatedRenderReadsBack(x: string, a: int)
    requires a >= 0 && x == "£" + ("-" + FormatPence(a))
    ensures ParseDecimal(CleanAmount(x)) == Some(Pence(-a))
  {
    var digits, two := NatToString(a / 100), TwoDigits(a % 100);
    CleanNegatedRender(x, a, digits, two);
    ParseNegatedNumeral(CleanAmount(x), a, digits, two);
  }

  lemma ParseNegatedNumeral(t: string, a: int, digits: string, two: string)
    requires a >= 0 && digits == NatToString(a / 100) && two == TwoDigits(a % 100)
    requires t == "-" + digits + ("." + two)
    ensures ParseDecimal(t) == Some(Pence(-a))
  {
    var body := digits + ("." + two);
    assert t == "-" + body;
    ParseFormattedUnsigned(a);
    ParseNegativeNumeral(t, body, a, -a);
  }

  lemma CleanNegatedRender(x: string, a: nat, digits: string, two: string)
    requires x == "£" + ("-" + FormatPence(a))
    requires digits == NatToString(a / 100) && two == TwoDigits(a % 100)
    ensures CleanAmount(x) == "-" + digits + ("." + two)
  {
    var g := Group(digits);
    FormatPenceUnsigned(a, g, two);
    assert x == "£" + "-" + g + ("." + two);
    CleanFormatted(x, "-", digits, two);
  }

  lemma FormatPenceUnsigned(a: nat, g: string, two: string)
    requires g == Group(NatToString(a / 100)) && two == TwoDigits(a % 100)
    ensures FormatPence(a) == g + ("." + two)
  {
    assert FormatPence(a) == "" + g + "." + two;
  }

  /**
   * An amount rendered with `{:,.2f}` behind the '£' symbol is read back, by
   * the amount cleaning used for uploads and manual entry, as the same amount.
   */
  lemma FormatThenCleanRoundTrip(p: int)
    ensures ParseDecimal(CleanAmount("£" + FormatPence(p))) == Some(Pence(p))
  {
    CleanOfFormatPence(p);
    ParseUnformatted(p);
  }
  /**
   * A decimal amount rendered with `{:,.2f}` behind the '£' symbol is read
   * back as the amount rounded half-even to the penny, a negative amount
   * that rounds to zero included.
   */
  lemma Format2ReadsBack(x: real, s: string, p: int)
    requires p == Quantize2(x) && s == "£" + Format2(x)
    ensures ParseDecimal(CleanAmount(s)) == Some(Pence(p))
  {
    if x < 0.0 && p == 0 {
      RoundedToZeroReadsBack(x, s);
      assert Pence(p) == 0.0;
    } else {
      PlainRoundedReadsBack(x, s, p);
    }
  }

  lemma PlainRoundedReadsBack(x: real, s: string, p: int)
    requires p == Quantize2(x) && !(x < 0.0 && p == 0) && s == "£" + Format2(x)
    ensures ParseDecimal(CleanAmount(s)) == Some(Pence(p))
  {
    assert Format2(x) == FormatPence(p);
    FormatThenCleanRoundTrip(p);
  }

  lemma RoundedToZeroReadsBack(x: real, s: string)
    requires x < 0.0 && Quantize2(x) == 0 && s == "£" + Format2(x)
    ensures ParseDecimal(CleanAmount(s)) == Some(0.0)
  {
    assert Format2(x) == "-" + FormatPence(0);
    NegatedRenderReadsBack(s, 0);
  }


}
