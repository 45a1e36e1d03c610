/**
 * String helpers shared by the Python and JavaScript models: whitespace
 * stripping, ASCII case folding, prefix/suffix/substring tests, splitting on a
 * separator, and decimal digit strings.
 */
module Strings {
  import opened Wrappers

  /**
   * The ASCII whitespace characters. Python's str.strip() and JavaScript's
   * trim() remove these and more (U+00A0, U+2028, U+3000 and others; Python
   * also U+001C to U+001F): the model strips only these six.
   */
  predicate IsSpace(c: char) {
    c == ' ' || c == '\t' || c == '\n' || c == '\r' || c == '\U{000B}' || c == '\U{000C}'
  }

  function TrimStart(s: string): (r: string)
    ensures |r| <= |s| && r == s[|s| - |r|..]
    ensures r == [] || !IsSpace(r[0])
    ensures forall i :: 0 <= i < |s| - |r| ==> IsSpace(s[i])
  {
    if |s| > 0 && IsSpace(s[0]) then TrimStart(s[1..]) else s
  }

  function TrimEnd(s: string): (r: string)
    ensures |r| <= |s| && r == s[..|r|]
    ensures r == [] || !IsSpace(r[|r| - 1])
    ensures forall i :: |r| <= i < |s| ==> IsSpace(s[i])
  {
    if |s| > 0 && IsSpace(s[|s| - 1]) then TrimEnd(s[..|s| - 1]) else s
  }

  /** Python's str.strip() and JavaScript's String.prototype.trim(), on ASCII whitespace. */
  function Strip(s: string): (r: string)
    ensures |r| <= |s|
    ensures r == [] || (!IsSpace(r[0]) && !IsSpace(r[|r| - 1]))
    ensures forall c :: c in r ==> c in s
  {
    var t := TrimStart(s);
    var r := TrimEnd(t);
    assert forall c :: c in r ==> c in t;
    r
  }

  lemma StripFixesStripped(s: string)
    requires s == [] || (!IsSpace(s[0]) && !IsSpace(s[|s| - 1]))
    ensures Strip(s) == s
  {
  }

  lemma StripIdempotent(s: string)
    ensures Strip(Strip(s)) == Strip(s)
  {
    StripFixesStripped(Strip(s));
  }

  predicate IsUpper(c: char) { 'A' <= c <= 'Z' }

  function LowerChar(c: char): (r: char)
    ensures !IsUpper(r)
    ensures !IsUpper(c) ==> r == c
  {
    if IsUpper(c) then (c as int + 32) as char else c
  }

  /** Python's str.lower() and JavaScript's toLowerCase(), on ASCII letters. */
  function Lower(s: string): (r: string)
    ensures |r| == |s|
    ensures forall i :: 0 <= i < |s| ==> r[i] == LowerChar(s[i])
  {
    seq(|s|, i requires 0 <= i < |s| => LowerChar(s[i]))
  }

  /** Lower-casing works character by character, so it distributes over concatenation. */
  lemma LowerConcat(a: string, b: string)
    ensures Lower(a + b) == Lower(a) + Lower(b)
  {
    assert forall i :: 0 <= i < |a + b| ==> Lower(a + b)[i] == (Lower(a) + Lower(b))[i];
  }

  function Upper(s: string): (r: string)
    ensures |r| == |s|
    ensures forall i :: 0 <= i < |s| ==> !('a' <= r[i] <= 'z')
  {
    seq(|s|, i requires 0 <= i < |s| => if 'a' <= s[i] <= 'z' then (s[i] as int - 32) as char else s[i])
  }

  predicate StartsWith(s: string, p: string) { |p| <= |s| && s[..|p|] == p }

  lemma StartsWithConcat(p: string, t: string)
    ensures StartsWith(p + t, p)
  {
    assert (p + t)[..|p|] == p;
  }

  predicate EndsWith(s: string, p: string) { |p| <= |s| && s[|s| - |p|..] == p }

  predicate OccursAt(s: string, t: string, i: int) {
    0 <= i && i + |t| <= |s| && s[i..i + |t|] == t
  }

  /** Python's `t in s` and JavaScript's s.includes(t). */
  predicate Contains(s: string, t: string) {
    exists i :: 0 <= i <= |s| && OccursAt(s, t, i)
  }

  lemma EmptyContained(s: string)
    ensures Contains(s, "")
  {
    assert OccursAt(s, "", 0);
  }

  /** First index of `c` in `s`, or -1. */
  function IndexOf(s: string, c: char): (k: int)
    ensures -1 <= k < |s|
    ensures k == -1 <==> c !in s
    ensures k >= 0 ==> s[k] == c && c !in s[..k]
  {
    if |s| == 0 then -1
    else if s[0] == c then 0
    else
      var k := IndexOf(s[1..], c);
      if k == -1 then -1 else k + 1
  }

  lemma IndexOfAfter(w: string, c: char, rest: string)
    requires c !in w
    ensures IndexOf(w + [c] + rest, c) == |w|
  {
    var s := w + [c] + rest;
    var k := IndexOf(s, c);
    assert s[|w|] == c;
    if k != |w| {
      assert false;
    }
  }

  function Join(parts: seq<string>, sep: string): string {
    if |parts| == 0 then ""
    else if |parts| == 1 then parts[0]
    else parts[0] + sep + Join(parts[1..], sep)
  }

  /**
   * Python's s.split(sep) and JavaScript's s.split(sep) for a one-character
   * separator: the pieces between separators, so never an empty list.
   */
  function Split(s: string, sep: char): (parts: seq<string>)
    ensures |parts| >= 1
    ensures forall i :: 0 <= i < |parts| ==> sep !in parts[i]
    ensures Join(parts, [sep]) == s
    decreases |s|
  {
    var k := IndexOf(s, sep);
    if k < 0 then [s]
    else
      var rest := Split(s[k + 1..], sep);
      var parts := [s[..k]] + rest;
      assert parts[1..] == rest;
      assert Join(parts, [sep]) == s[..k] + [sep] + Join(rest, [sep]);
      assert s == s[..k] + [sep] + s[k + 1..];
      assert forall i :: 1 <= i < |parts| ==> parts[i] == rest[i - 1];
      parts
  }

  /** The last piece of a split, Python's `s.split(sep)[-1]`: what follows the last separator. */
  function LastPart(s: string, sep: char): (r: string)
    ensures sep !in r
    decreases |s|
  {
    var k := IndexOf(s, sep);
    if k < 0 then s else LastPart(s[k + 1..], sep)
  }

  /** Whatever precedes the last separator, the last piece is what follows it. */
  lemma {:induction false} LastPartAfter(w: string, sep: char, t: string)
    requires sep !in t
    ensures LastPart(w + [sep] + t, sep) == t
    decreases |w|
  {
    var s := w + [sep] + t;
    var k := IndexOf(s, sep);
    assert k <= |w| by {
      assert s[|w|] == sep;
    }
    if k < |w| {
      assert s[k + 1..] == w[k + 1..] + [sep] + t;
      LastPartAfter(w[k + 1..], sep, t);
    } else {
      assert s[k + 1..] == t;
    }
  }

  /**
   * Python's int() of a str: blanks around, an optional sign, then ASCII
   * digits; None where Python raises ValueError.
   */
  function PyInt(s: string): (r: Option<int>)
    ensures r.Some? && '-' !in s ==> r.value >= 0
  {
    var t := Strip(s);
    if |t| > 0 && (t[0] == '+' || t[0] == '-') then
      match ParseNat(t[1..])
      case None => None
      case Some(n) => Some(if t[0] == '-' then -(n as int) else n as int)
    else
      match ParseNat(t)
      case None => None
      case Some(n) => Some(n as int)
  }

  /** A plain numeral, leading zeros allowed, is read as its digits' value. */
  lemma PyIntOfDigits(t: string)
    requires |t| > 0 && AllDigits(t)
    ensures PyInt(t) == Some(DigitsValue(t) as int)
  {
    assert IsDigit(t[0]) && IsDigit(t[|t| - 1]);
    StripFixesStripped(t);
    assert t[0] != '+' && t[0] != '-';
    assert ParseNat(t) == Some(DigitsValue(t));
  }

  /** Python's s.replace(c, '') for one character. */
  function RemoveAll(s: string, c: char): (r: string)
    ensures c !in r
    ensures |r| <= |s|
    ensures c !in s ==> r == s
  {
    if |s| == 0 then ""
    else (if s[0] == c then "" else [s[0]]) + RemoveAll(s[1..], c)
  }

  predicate IsDigit(c: char) { '0' <= c <= '9' }

  predicate AllDigits(s: string) { forall i :: 0 <= i < |s| ==> IsDigit(s[i]) }

  function DigitChar(d: int): (c: char)
    requires 0 <= d < 10
    ensures IsDigit(c)
  {
    ('0' as int + d) as char
  }

  function DigitsValue(s: string): (n: nat)
    requires AllDigits(s)
  {
    if |s| == 0 then 0 else DigitsValue(s[..|s| - 1]) * 10 + (s[|s| - 1] as int - '0' as int)
  }

  /** The shortest decimal representation of a natural number. */
  function NatToString(n: nat): (s: string)
    ensures |s| >= 1 && AllDigits(s)
    ensures |s| > 1 ==> s[0] != '0'
  {
    if n < 10 then [DigitChar(n)] else NatToString(n / 10) + [DigitChar(n % 10)]
  }

  /** Python's str(n) and JavaScript's String(n) on an integer. */
  function IntToString(n: int): string {
    if n < 0 then "-" + NatToString(-n) else NatToString(n)
  }

  function Pow10(n: nat): (r: nat)
    ensures r >= 1
  {
    if n == 0 then 1 else 10 * Pow10(n - 1)
  }

  lemma ShiftDigit(d: int, p: int, v: int, l: int)
    ensures (d * p + v) * 10 + l == d * (10 * p) + (v * 10 + l)
  {
  }

  /** A digit in front weighs 10 to the power of the digits behind it. */
  lemma {:induction false} DigitsValuePrepend(c: char, s: string)
    requires IsDigit(c) && AllDigits(s)
    ensures DigitsValue([c] + s) == (c as int - '0' as int) * Pow10(|s|) + DigitsValue(s)
    decreases |s|
  {
    var t := [c] + s;
    if |s| > 0 {
      var init := s[..|s| - 1];
      var d, l := c as int - '0' as int, s[|s| - 1] as int - '0' as int;
      assert t[..|t| - 1] == [c] + init && t[|t| - 1] == s[|s| - 1];
      DigitsValuePrepend(c, init);
      var p, v := Pow10(|init|), DigitsValue(init);
      assert DigitsValue(t) == (d * p + v) * 10 + l;
      assert DigitsValue(s) == v * 10 + l;
      assert Pow10(|s|) == 10 * p;
      ShiftDigit(d, p, v, l);
    } else {
      assert t[..|t| - 1] == [];
    }
  }

  /** Padding a numeral with zeros keeps it a numeral. */
  lemma ZeroPaddedDigits(s: string, width: nat)
    requires AllDigits(s)
    ensures AllDigits(PadLeft(s, width, '0'))
  {
    var r := PadLeft(s, width, '0');
    var k := |r| - |s|;
    forall i | 0 <= i < |r|
      ensures IsDigit(r[i])
    {
      if i >= k {
        assert r[i] == r[k..][i - k] == s[i - k];
      }
    }
  }

  /** Leading zeros do not change the value of a numeral. */
  lemma {:induction false} DigitsValueZeroPadded(s: string, width: nat)
    requires AllDigits(s)
    ensures AllDigits(PadLeft(s, width, '0')) && DigitsValue(PadLeft(s, width, '0')) == DigitsValue(s)
    decreases width
  {
    if |s| < width {
      var p := PadLeft(s, width, '0');
      var q := PadLeft(s, width - 1, '0');
      assert p == ['0'] + q;
      DigitsValueZeroPadded(s, width - 1);
      forall i | 0 <= i < |p|
        ensures IsDigit(p[i])
      {
        if i > 0 {
          assert p[i] == q[i - 1];
        }
      }
      DigitsValuePrepend('0', q);
      assert DigitsValue(p) == 0 * Pow10(|q|) + DigitsValue(q);
    }
  }

  /** A string of ASCII digits read as a natural number; anything else is absent. */
  function ParseNat(s: string): (r: Option<nat>)
    ensures r.Some? <==> |s| > 0 && AllDigits(s)
  {
    if |s| > 0 && AllDigits(s) then Some(DigitsValue(s)) else None
  }

  lemma {:induction false} NatToStringRoundTrip(n: nat)
    ensures ParseNat(NatToString(n)) == Some(n)
  {
    var s := NatToString(n);
    if n >= 10 {
      NatToStringRoundTrip(n / 10);
      assert s[..|s| - 1] == NatToString(n / 10);
      assert s[|s| - 1] as int - '0' as int == n % 10;
      assert DigitsValue(s) == (n / 10) * 10 + n % 10;
    } else {
      assert DigitsValue(s) == DigitsValue([]) * 10 + n;
    }
  }

  /** A number below 100 as exactly two digits, as `{:02d}` and padStart(2, '0') render it. */
  function TwoDigits(n: int): (s: string)
    requires 0 <= n < 100
    ensures |s| == 2 && AllDigits(s)
    ensures DigitsValue(s) == n
  {
    var s := [DigitChar(n / 10), DigitChar(n % 10)];
    assert s[..1] == [DigitChar(n / 10)];
    assert s[..1][..0] == [];
    assert DigitsValue(s[..1]) == DigitsValue([]) * 10 + n / 10;
    assert DigitsValue(s) == DigitsValue(s[..1]) * 10 + n % 10;
    s
  }

  lemma {:induction false} RemoveAllConcat(a: string, b: string, c: char)
    ensures RemoveAll(a + b, c) == RemoveAll(a, c) + RemoveAll(b, c)
    decreases |a|
  {
    if |a| > 0 {
      assert (a + b)[1..] == a[1..] + b;
      RemoveAllConcat(a[1..], b, c);
    } else {
      assert a + b == b;
    }
  }

  lemma DropLeading(c: char, y: string)
    requires c !in y
    ensures RemoveAll([c] + y, c) == y
  {
    assert ([c] + y)[1..] == y;
  }

  lemma RemoveAll3(a: string, b: string, d: string, c: char)
    ensures RemoveAll(a + b + d, c) == RemoveAll(a, c) + RemoveAll(b, c) + RemoveAll(d, c)
  {
    RemoveAllConcat(a + b, d, c);
    RemoveAllConcat(a, b, c);
  }

  /** Python's `<` on strings: lexicographic by code point. */
  predicate LexLess(a: string, b: string) {
    if a == [] then b != []
    else b != [] && (a[0] < b[0] || (a[0] == b[0] && LexLess(a[1..], b[1..])))
  }

  lemma {:induction false} LexLessTotal(a: string, b: string)
    ensures LexLess(a, b) || a == b || LexLess(b, a)
    ensures !(LexLess(a, b) && LexLess(b, a))
  {
    if a != [] && b != [] && a[0] == b[0] {
      LexLessTotal(a[1..], b[1..]);
      if a[1..] == b[1..] {
        assert a == [a[0]] + a[1..] && b == [b[0]] + b[1..];
      }
    }
  }

  lemma {:induction false} LexLessTransitive(a: string, b: string, c: string)
    requires LexLess(a, b) && LexLess(b, c)
    ensures LexLess(a, c)
  {
    if a != [] && a[0] == b[0] && b[0] == c[0] {
      LexLessTransitive(a[1..], b[1..], c[1..]);
    }
  }

  /** The greatest string under LexLess. */
  function LexMax(xs: seq<string>): (m: string)
    requires |xs| > 0
    ensures m in xs
    ensures forall x :: x in xs ==> !LexLess(m, x)
  {
    if |xs| == 1 then
      LexLessTotal(xs[0], xs[0]);
      xs[0]
    else
      var rest := LexMax(xs[1..]);
      LexLessTotal(xs[0], rest);
      if LexLess(xs[0], rest) then
        rest
      else
        assert forall x :: x in xs[1..] ==> !LexLess(xs[0], x) by {
          forall x | x in xs[1..] ensures !LexLess(xs[0], x) {
            if LexLess(xs[0], x) && xs[0] != rest {
              LexLessTransitive(rest, xs[0], x);
            }
          }
        }
        LexLessTotal(xs[0], xs[0]);
        assert xs == [xs[0]] + xs[1..];
        xs[0]
  }

  /** Left padding to a minimum width: `{n:04d}` in Python and padStart in JavaScript. */
  function PadLeft(s: string, width: nat, fill: char): (r: string)
    ensures |r| == if |s| >= width then |s| else width
    ensures r[|r| - |s|..] == s
    ensures forall i :: 0 <= i < |r| - |s| ==> r[i] == fill
  {
    if |s| >= width then s else seq(width - |s|, _ => fill) + s
  }

  /** Slicing `s[:n]`: the first n characters, or all of them when there are fewer. */
  function Take(s: string, n: nat): (r: string)
    ensures |r| == if |s| <= n then |s| else n
    ensures StartsWith(s, r)
  {
    if |s| <= n then s else s[..n]
  }

  /** An index clamped into 0..n. */
  function Clamp(i: int, n: nat): (r: nat)
    ensures r <= n
    ensures 0 <= i <= n ==> r == i
  {
    if i < 0 then 0 else if i > n then n else i
  }

  /** JavaScript's s.substring(a, b): both ends clamped to 0..|s| and swapped when out of order. */
  function Substring(s: string, a: int, b: int): (r: string)
    ensures |r| <= |s|
    ensures 0 <= a <= b <= |s| ==> r == s[a..b]
    ensures b <= 0 ==> r == s[..Clamp(a, |s|)]
  {
    var i, j := Clamp(a, |s|), Clamp(b, |s|);
    if i <= j then s[i..j] else s[j..i]
  }
}
