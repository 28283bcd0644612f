/** Re-laying out a float's shortest decimal text: from the form `str` gives it to the form of
    section 3.2.2.3 of RFC 8785, which is ECMA-262's Number::toString. */
module FloatLayout {
  import opened CanonicalJson
  import opened CanonicalJsonReader

  const MAXIMUM_DIGITS: nat := 17

  /** A positive finite float by its shortest digits d.ddd and its decimal exponent. */
  datatype Shortest = Shortest(digits: string, exponent: int)

  predicate AllDigits(s: string) {
    forall k | 0 <= k < |s| :: IsDigit(s[k])
  }

  predicate IsShortest(x: Shortest) {
    && 1 <= |x.digits| <= MAXIMUM_DIGITS
    && AllDigits(x.digits)
    && x.digits[0] != '0'
    && (|x.digits| > 1 ==> x.digits[|x.digits| - 1] != '0')
  }

  function Zeros(n: nat): (z: string)
    ensures |z| == n && AllDigits(z)
  {
    seq(n, i => '0')
  }

  function Sign(e: int): string { if e < 0 then "-" else "+" }

  function Magnitude(e: int): nat { if e < 0 then -e else e }

  /** One digit, and the others after a point. */
  function Mantissa(digits: string): string
    requires digits != ""
  {
    if |digits| == 1 then digits else digits[..1] + "." + digits[1..]
  }

  /** `str` of the float: an exponent only from 16 up and from -5 down, with at least two digits. */
  function PythonText(x: Shortest): string
    requires IsShortest(x)
  {
    var digits, k, e := x.digits, |x.digits|, x.exponent;
    if -4 <= e < 16 then
      if e >= k - 1 then digits + Zeros(e - k + 1) + ".0"
      else if e >= 0 then digits[..e + 1] + "." + digits[e + 1..]
      else "0." + Zeros(-e - 1) + digits
    else
      Mantissa(digits) + "e" + Sign(e) + (if Magnitude(e) < 10 then "0" else "") + Digits(Magnitude(e))
  }

  /** Number::toString of ECMA-262 for k digits and n = exponent + 1. */
  function EcmaText(x: Shortest): string
    requires IsShortest(x)
  {
    var digits, k, n := x.digits, |x.digits|, x.exponent + 1;
    if k <= n <= 21 then digits + Zeros(n - k)
    else if 0 < n <= 21 then digits[..n] + "." + digits[n..]
    else if -6 < n <= 0 then "0." + Zeros(-n) + digits
    else Mantissa(digits) + "e" + Sign(n - 1) + Digits(Magnitude(n - 1))
  }

  // ---- Text operations ----

  /** `str.find` of one character. */
  function Find(s: string, c: char): (at: int)
    ensures -1 <= at < |s|
    ensures at >= 0 ==> s[at] == c
    ensures forall k | 0 <= k < (if at < 0 then |s| else at) :: s[k] != c
  {
    if s == "" then -1
    else if s[0] == c then 0
    else
      var at := Find(s[1..], c);
      assert forall k | 0 < k < |s| :: s[k] == s[1..][k - 1];
      if at < 0 then -1 else at + 1
  }

  lemma FindFirst(a: string, c: char, b: string)
    requires c !in a
    ensures Find(a + [c] + b, c) == |a|
  {
    var s := a + [c] + b;
    assert s[|a|] == c;
    assert forall k | 0 <= k < |a| :: s[k] == a[k] && a[k] in a;
  }

  /** `int` of a signed decimal text. */
  function IntOf(text: string): int
    requires text != ""
  {
    if text[0] == '-' then -(ReadDigits(text[1..], 0).0 as int)
    else if text[0] == '+' then ReadDigits(text[1..], 0).0
    else ReadDigits(text, 0).0
  }

  lemma DigitsValue(n: nat)
    ensures ReadDigits(Digits(n), 0) == (n, "")
  {
    DigitsComeBack(n, "");
    assert Digits(n) + "" == Digits(n);
  }

  lemma {:induction false} DigitsAreDigits(n: nat)
    ensures AllDigits(Digits(n))
    ensures n > 0 ==> Digits(n)[0] != '0'
  {
    if n >= 10 {
      DigitsAreDigits(n / 10);
    }
  }

  lemma SignedValue(e: int)
    ensures IntOf(Sign(e) + Digits(Magnitude(e))) == e
  {
    var text := Sign(e) + Digits(Magnitude(e));
    assert text[1..] == Digits(Magnitude(e));
    DigitsValue(Magnitude(e));
  }

  lemma NoSuchChar(s: string, c: char)
    requires AllDigits(s) && !IsDigit(c)
    ensures c !in s && Find(s, c) == -1
  {
    assert Find(s, c) < 0;
  }

  // ---- The re-layout ----

  datatype Split = Split(first: string, dot: string, last: string)

  /** The two ways `str` cuts a mantissa, and that a trailing ".0" is its own case. */
  predicate Cuts(body: string, s: Split) {
    && (if s.dot == "" then body == s.first && s.last == "" else s.dot == "." && body == s.first + "." + s.last)
    && AllDigits(s.first) && AllDigits(s.last) && s.first != ""
  }

  /** Splits a mantissa at its point, and drops a fraction that is just "0". */
  method SplitMantissa(body: string, ghost s: Split) returns (r: Split)
    requires Cuts(body, s)
    ensures r == if s.last == "0" then Split(s.first, "", "") else s
  {
    var first, dot, last := body, "", "";
    var q := Find(body, '.');
    if s.dot == "" {
      NoSuchChar(body, '.');
    } else {
      NoSuchChar(s.first, '.');
      FindFirst(s.first, '.', s.last);
    }
    if q > 0 {
      dot := ".";
      first := body[..q];
      last := body[q + 1..];
    }
    if last == "0" {
      dot, last := "", "";
    }
    return Split(first, dot, last);
  }

  /** Cuts the exponent off: the mantissa, the exponent text without its leading zero, and the
      exponent's value. */
  method SplitExponent(text: string, ghost body: string, ghost e: int, ghost pad: string)
    returns (stringified: string, exponentText: string, exponentValue: int)
    requires 'e' !in body && body != ""
    requires pad == if Magnitude(e) < 10 then "0" else ""
    requires text == body || (e != 0 && text == body + "e" + Sign(e) + pad + Digits(Magnitude(e)))
    ensures stringified == body
    ensures text == body ==> exponentText == "" && exponentValue == 0
    ensures text != body ==> exponentText == "e" + Sign(e) + Digits(Magnitude(e)) && exponentValue == e
  {
    stringified, exponentText, exponentValue := text, "", 0;
    var q := Find(text, 'e');
    if text != body {
      ExponentPosition(text, body, e, pad);
    }
    if q > 0 {
      exponentText := text[q..];
      if exponentText[2..3] == "0" {
        exponentText := exponentText[..2] + exponentText[3..];
      }
      ExponentTrimmed(e, pad, text[q..], exponentText);
      stringified := text[..q];
      exponentValue := IntOf(exponentText[1..]);
    }
  }

  lemma ExponentPosition(text: string, body: string, e: int, pad: string)
    requires 'e' !in body && text == body + "e" + Sign(e) + pad + Digits(Magnitude(e))
    ensures Find(text, 'e') == |body| && text[..|body|] == body
    ensures text[|body|..] == "e" + Sign(e) + pad + Digits(Magnitude(e))
  {
    var rest := Sign(e) + pad + Digits(Magnitude(e));
    assert text == body + ['e'] + rest;
    FindFirst(body, 'e', rest);
  }

  lemma ExponentTrimmed(e: int, pad: string, raw: string, trimmed: string)
    requires e != 0 && pad == if Magnitude(e) < 10 then "0" else ""
    requires raw == "e" + Sign(e) + pad + Digits(Magnitude(e))
    requires trimmed == if raw[2..3] == "0" then raw[..2] + raw[3..] else raw
    ensures trimmed == "e" + Sign(e) + Digits(Magnitude(e))
    ensures IntOf(trimmed[1..]) == e
  {
    var digits := Digits(Magnitude(e));
    DigitsAreDigits(Magnitude(e));
    SignedValue(e);
    assert raw[2] == (pad + digits)[0];
    if pad == "0" {
      assert raw[..2] + raw[3..] == "e" + Sign(e) + digits;
    } else {
      assert raw == "e" + Sign(e) + digits;
    }
    assert trimmed[1..] == Sign(e) + digits;
  }

  /** Integers up to 21 digits are shown in full. */
  method PadRight(digits: string, exponentValue: int) returns (first: string)
    requires exponentValue - |digits| >= -1
    ensures first == digits + Zeros(exponentValue + 1 - |digits|)
  {
    first := digits;
    var q := exponentValue - |first|;
    ghost var all := q + 1;
    while q >= 0
      invariant -1 <= q < all
      invariant first == digits + Zeros(all - 1 - q)
      decreases q + 1
    {
      q := q - 1;
      first := first + "0";
    }
  }

  /** Small numbers are shown as a fraction. */
  method PadLeft(digits: string, exponentValue: int) returns (last: string)
    requires exponentValue < 0
    ensures last == Zeros(-exponentValue - 1) + digits
  {
    last := digits;
    var q := exponentValue;
    while q < -1
      invariant exponentValue <= q <= -1
      invariant last == Zeros(q - exponentValue) + digits
      decreases -q
    {
      q := q + 1;
      last := "0" + last;
      assert "0" + Zeros(q - 1 - exponentValue) == Zeros(q - exponentValue);
    }
  }

  /** The mantissa of `str` and how it is cut. */
  function PythonBody(x: Shortest): string
    requires IsShortest(x)
  {
    var digits, k, e := x.digits, |x.digits|, x.exponent;
    if -4 <= e < 16 then PythonText(x) else Mantissa(digits)
  }

  function PythonSplit(x: Shortest): Split
    requires IsShortest(x)
  {
    var digits, k, e := x.digits, |x.digits|, x.exponent;
    if -4 <= e < 16 then
      if e >= k - 1 then Split(digits + Zeros(e - k + 1), ".", "0")
      else if e >= 0 then Split(digits[..e + 1], ".", digits[e + 1..])
      else Split("0", ".", Zeros(-e - 1) + digits)
    else if k == 1 then Split(digits, "", "")
    else Split(digits[..1], ".", digits[1..])
  }

  lemma CutsAreDigits(body: string, s: Split)
    requires Cuts(body, s)
    ensures 'e' !in body && body != ""
  {
    NoSuchChar(s.first, 'e');
    NoSuchChar(s.last, 'e');
  }

  lemma DigitPieces(a: string, b: string, n: nat)
    requires AllDigits(a) && AllDigits(b) && n <= |a|
    ensures AllDigits(a + b) && AllDigits(a[..n]) && AllDigits(a[n..])
  {
  }

  lemma PythonCuts(x: Shortest)
    requires IsShortest(x)
    ensures Cuts(PythonBody(x), PythonSplit(x)) && 'e' !in PythonBody(x) && PythonBody(x) != ""
    ensures -4 <= x.exponent < 16 && x.exponent < |x.digits| - 1 ==> PythonSplit(x).last != "0"
    ensures !(-4 <= x.exponent < 16) ==> PythonSplit(x).last != "0"
  {
    var s, digits, k, e := PythonSplit(x), x.digits, |x.digits|, x.exponent;
    DigitPieces(digits, "", 1);
    if -4 <= e < 16 {
      if e >= k - 1 {
        DigitPieces(digits, Zeros(e - k + 1), 0);
        assert PythonText(x) == s.first + "." + s.last;
      } else if e >= 0 {
        DigitPieces(digits, "", e + 1);
        assert s.last[|s.last| - 1] == digits[k - 1];
      } else {
        DigitPieces(Zeros(-e - 1), digits, 0);
        assert PythonText(x) == s.first + "." + s.last;
        assert s.last[|s.last| - 1] == digits[k - 1];
      }
    } else if k > 1 {
      assert s.last[|s.last| - 1] == digits[k - 1];
    }
    CutsAreDigits(PythonBody(x), s);
  }

  /** `_serialize_float` for a positive finite float: the text `str` gives is laid out anew. */
  method LayOut(text: string, ghost x: Shortest) returns (r: string)
    requires IsShortest(x) && text == PythonText(x)
    ensures r == EcmaText(x)
  {
    ghost var pad := if Magnitude(x.exponent) < 10 then "0" else "";
    ghost var cut := PythonSplit(x);
    PythonCuts(x);
    ExponentApart(x);
    var stringified, exponentText, exponentValue := SplitExponent(text, PythonBody(x), x.exponent, pad);
    var s := SplitMantissa(stringified, cut);
    var first, dot, last := s.first, s.dot, s.last;
    if 0 < exponentValue < 21 {
      assert first + last == x.digits;
      first := PadRight(first + last, exponentValue);
      dot, last, exponentText := "", "", "";
    } else if -7 < exponentValue < 0 {
      assert first + last == x.digits;
      last := PadLeft(first + last, exponentValue);
      first, dot, exponentText := "0", ".", "";
    }
    r := first + dot + last + exponentText;
    LaidOut(x, first, dot, last, exponentText);
  }

  lemma ExponentApart(x: Shortest)
    requires IsShortest(x)
    ensures var pad := if Magnitude(x.exponent) < 10 then "0" else "";
      if -4 <= x.exponent < 16 then PythonText(x) == PythonBody(x)
      else x.exponent != 0 && PythonText(x) != PythonBody(x)
           && PythonText(x) == PythonBody(x) + "e" + Sign(x.exponent) + pad + Digits(Magnitude(x.exponent))
  {
    if !(-4 <= x.exponent < 16) {
      assert |PythonText(x)| > |PythonBody(x)|;
    }
  }

  /** The pieces after the branches are the standard's text. */
  lemma LaidOut(x: Shortest, first: string, dot: string, last: string, exponentText: string)
    requires IsShortest(x)
    requires var s := PythonSplit(x);
      var e := x.exponent;
      if -4 <= e < 16 then
        exponentText == "" &&
        (if s.last == "0" then first == s.first && dot == "" && last == ""
         else first == s.first && dot == "." && last == s.last)
      else if 0 < e < 21 then
        first == x.digits + Zeros(e + 1 - |x.digits|) && dot == "" && last == "" && exponentText == ""
      else if -7 < e < 0 then
        first == "0" && dot == "." && last == Zeros(-e - 1) + x.digits && exponentText == ""
      else first == s.first && dot == s.dot && last == s.last && exponentText == "e" + Sign(e) + Digits(Magnitude(e))
    ensures first + dot + last + exponentText == EcmaText(x)
  {
    PythonCuts(x);
    if !(-7 < x.exponent < 21) {
      assert first + dot + last == Mantissa(x.digits);
      assert Mantissa(x.digits) + exponentText == Mantissa(x.digits) + "e" + Sign(x.exponent) + Digits(Magnitude(x.exponent));
    }
  }
}
