/** The re-layout keeps the number: both texts denote the same value, and the exponent form is
    used exactly where section 3.2.2.3 of RFC 8785 asks for it. */
module FloatValue {
  import opened Wrappers
  import opened Utf8
  import opened CanonicalJson
  import opened CanonicalJsonReader
  import opened CanonicalJsonWriter
  import opened FloatLayout

  // ---- What a decimal text denotes ----

  function Pow10(e: int): real
    decreases Magnitude(e)
  {
    if e == 0 then 1.0 else if e > 0 then 10.0 * Pow10(e - 1) else Pow10(e + 1) / 10.0
  }

  lemma Pow10Step(e: int)
    ensures Pow10(e + 1) == 10.0 * Pow10(e)
  {
  }

  function Number(digits: string): nat {
    ReadDigits(digits, 0).0
  }

  /** The text before its exponent. */
  function BodyOf(text: string): string {
    var q := Find(text, 'e');
    if q < 0 then text else text[..q]
  }

  function ExponentOf(text: string): int {
    var q := Find(text, 'e');
    if q < 0 || q + 1 == |text| then 0 else IntOf(text[q + 1..])
  }

  function WholeOf(body: string): string {
    var p := Find(body, '.');
    if p < 0 then body else body[..p]
  }

  function FractionOf(body: string): string {
    var p := Find(body, '.');
    if p < 0 then "" else body[p + 1..]
  }

  /** A positive decimal text: digits, possibly a point, possibly an exponent. */
  function Denotes(text: string): real {
    var fraction := FractionOf(BodyOf(text));
    Number(WholeOf(BodyOf(text)) + fraction) as real * Pow10(ExponentOf(text) - |fraction|)
  }

  /** The number itself: its digits, scaled. */
  function Value(x: Shortest): real {
    Number(x.digits) as real * Pow10(x.exponent - |x.digits| + 1)
  }

  // ---- Reading digits ----

  lemma {:induction false} DigitsThenDigits(a: string, b: string, read: nat)
    requires AllDigits(a)
    ensures ReadDigits(a + b, read) == ReadDigits(b, ReadDigits(a, read).0)
  {
    if a == "" {
      assert a + b == b;
    } else {
      assert (a + b)[1..] == a[1..] + b;
      DigitsThenDigits(a[1..], b, read * 10 + DigitValue(a[0]));
    }
  }

  lemma {:induction false} ZerosScale(n: nat, read: nat, m: int)
    ensures ReadDigits(Zeros(n), read).0 as real * Pow10(m) == read as real * Pow10(m + n)
  {
    if n > 0 {
      assert Zeros(n)[1..] == Zeros(n - 1);
      ZerosScale(n - 1, read * 10, m);
      Pow10Step(m + n - 1);
      assert (read * 10) as real * Pow10(m + n - 1) == read as real * (10.0 * Pow10(m + n - 1));
    }
  }

  lemma {:induction false} ZerosVanish(n: nat)
    ensures ReadDigits(Zeros(n), 0).0 == 0
  {
    if n > 0 {
      assert Zeros(n)[1..] == Zeros(n - 1);
      ZerosVanish(n - 1);
    }
  }

  /** Zeros after the digits scale the number. */
  lemma PaddedRight(digits: string, n: nat, m: int)
    requires AllDigits(digits)
    ensures Number(digits + Zeros(n)) as real * Pow10(m) == Number(digits) as real * Pow10(m + n)
  {
    hide ReadDigits, Pow10;
    DigitsThenDigits(digits, Zeros(n), 0);
    ZerosScale(n, Number(digits), m);
  }

  /** Zeros before them do not. */
  lemma PaddedLeft(digits: string, n: nat)
    requires AllDigits(digits)
    ensures Number(Zeros(n) + digits) == Number(digits)
  {
    hide ReadDigits;
    DigitsThenDigits(Zeros(n), digits, 0);
    ZerosVanish(n);
  }

  // ---- Cutting a text ----

  lemma CutIs(body: string, s: Split)
    requires Cuts(body, s)
    ensures WholeOf(body) == s.first && FractionOf(body) == s.last
  {
    if s.dot == "" {
      NoSuchChar(body, '.');
    } else {
      NoSuchChar(s.first, '.');
      FindFirst(s.first, '.', s.last);
      assert body == s.first + ['.'] + s.last;
      assert body[..|s.first|] == s.first && body[|s.first| + 1..] == s.last;
    }
  }

  /** What a text with this mantissa and this exponent denotes. */
  lemma DenotesCut(text: string, body: string, s: Split, exponentText: string, e: int)
    requires Cuts(body, s) && 'e' !in body && text == body + exponentText
    requires (exponentText == "" && e == 0) || (|exponentText| > 1 && exponentText[0] == 'e' && IntOf(exponentText[1..]) == e)
    ensures Denotes(text) == Number(s.first + s.last) as real * Pow10(e - |s.last|)
  {
    hide Number, Pow10, BodyOf, ExponentOf, WholeOf, FractionOf, IntOf;
    BodyIs(text, body, exponentText, e);
    CutIs(body, s);
  }

  /** The same for an exponent written out, with or without a leading zero. */
  lemma DenotesExponent(body: string, s: Split, e: int, pad: string)
    requires Cuts(body, s) && 'e' !in body && (pad == "0" || pad == "")
    ensures Denotes(body + "e" + Sign(e) + pad + Digits(Magnitude(e)))
      == Number(s.first + s.last) as real * Pow10(e - |s.last|)
  {
    hide Number, Pow10, Denotes, IntOf, Cuts;
    var exponentText := "e" + Sign(e) + pad + Digits(Magnitude(e));
    PaddedExponent(e, pad);
    assert body + "e" + Sign(e) + pad + Digits(Magnitude(e)) == body + exponentText;
    DenotesCut(body + exponentText, body, s, exponentText, e);
  }

  lemma BodyIs(text: string, body: string, exponentText: string, e: int)
    requires 'e' !in body && text == body + exponentText
    requires (exponentText == "" && e == 0) || (|exponentText| > 1 && exponentText[0] == 'e' && IntOf(exponentText[1..]) == e)
    ensures BodyOf(text) == body && ExponentOf(text) == e
  {
    if exponentText == "" {
      assert text == body;
      assert forall k | 0 <= k < |body| :: body[k] in body;
    } else {
      var rest := exponentText[1..];
      assert text == body + ['e'] + rest;
      FindFirst(body, 'e', rest);
      assert text[..|body|] == body && text[|body| + 1..] == rest;
    }
  }

  // ---- The number is kept ----

  /** The cut of the standard's text. */
  function EcmaSplit(x: Shortest): Split
    requires IsShortest(x)
  {
    var digits, k, n := x.digits, |x.digits|, x.exponent + 1;
    if k <= n <= 21 then Split(digits + Zeros(n - k), "", "")
    else if 0 < n <= 21 then Split(digits[..n], ".", digits[n..])
    else if -6 < n <= 0 then Split("0", ".", Zeros(-n) + digits)
    else if k == 1 then Split(digits, "", "")
    else Split(digits[..1], ".", digits[1..])
  }

  function EcmaBody(x: Shortest): string
    requires IsShortest(x)
  {
    if -7 < x.exponent < 21 then EcmaText(x) else Mantissa(x.digits)
  }

  lemma EcmaCuts(x: Shortest)
    requires IsShortest(x)
    ensures Cuts(EcmaBody(x), EcmaSplit(x)) && 'e' !in EcmaBody(x)
  {
    var s := EcmaSplit(x);
    if -7 < x.exponent < 0 {
      assert EcmaText(x) == s.first + "." + s.last;
    }
    assert EcmaBody(x) == s.first + s.dot + s.last;
  }

  /** A cut of the digits, possibly padded, that scales back to the number. */
  ghost predicate Scales(x: Shortest, s: Split, e: int, left: nat, right: nat) {
    && s.first + s.last == Zeros(left) + x.digits + Zeros(right)
    && e - |s.last| + right == x.exponent - |x.digits| + 1
  }

  lemma CutDenotes(x: Shortest, s: Split, e: int, left: nat, right: nat)
    requires IsShortest(x) && Scales(x, s, e, left, right)
    ensures Number(s.first + s.last) as real * Pow10(e - |s.last|) == Value(x)
  {
    hide Pow10, Number, EcmaText, PythonText;
    PaddedRight(Zeros(left) + x.digits, right, e - |s.last|);
    PaddedLeft(x.digits, left);
  }

  lemma EcmaScales(x: Shortest) returns (left: nat, right: nat)
    requires IsShortest(x)
    ensures Scales(x, EcmaSplit(x), if -7 < x.exponent < 21 then 0 else x.exponent, left, right)
  {
    var s, e, k := EcmaSplit(x), x.exponent, |x.digits|;
    left, right := 0, 0;
    if -7 < e < 0 {
      left := -e;
      assert "0" + Zeros(-e - 1) == Zeros(left);
    } else if k <= e + 1 <= 21 {
      right := e + 1 - k;
    }
    assert s.first + s.last == Zeros(left) + x.digits + Zeros(right);
  }

  lemma PythonScales(x: Shortest) returns (left: nat, right: nat)
    requires IsShortest(x)
    ensures Scales(x, PythonSplit(x), if -4 <= x.exponent < 16 then 0 else x.exponent, left, right)
  {
    var s, e, k := PythonSplit(x), x.exponent, |x.digits|;
    left, right := 0, 0;
    if -4 <= e < 0 {
      left := -e;
      assert "0" + Zeros(-e - 1) == Zeros(left);
    } else if k - 1 <= e < 16 {
      right := e - k + 2;
      assert Zeros(e - k + 1) + "0" == Zeros(right);
    }
    assert s.first + s.last == Zeros(left) + x.digits + Zeros(right);
  }

  lemma EcmaDenotes(x: Shortest)
    requires IsShortest(x)
    ensures Denotes(EcmaText(x)) == Value(x)
  {
    hide Denotes, Value, Scales, Number, Pow10, Cuts, Digits, EcmaSplit;
    var s, e := EcmaSplit(x), x.exponent;
    EcmaCuts(x);
    var left, right := EcmaScales(x);
    if -7 < e < 21 {
      assert EcmaText(x) + "" == EcmaText(x);
      DenotesCut(EcmaText(x), EcmaBody(x), s, "", 0);
      CutDenotes(x, s, 0, left, right);
    } else {
      DenotesExponent(EcmaBody(x), s, e, "");
      assert EcmaBody(x) + "e" + Sign(e) + "" == EcmaBody(x) + "e" + Sign(e);
      assert EcmaText(x) == EcmaBody(x) + "e" + Sign(e) + Digits(Magnitude(e));
      CutDenotes(x, s, e, left, right);
    }
  }

  lemma PythonDenotes(x: Shortest)
    requires IsShortest(x)
    ensures Denotes(PythonText(x)) == Value(x)
  {
    hide Denotes, Value, Scales, Number, Pow10, Cuts, PythonSplit, PythonText, PythonBody, Digits;
    var s, e := PythonSplit(x), x.exponent;
    PythonCuts(x);
    ExponentApart(x);
    var left, right := PythonScales(x);
    if -4 <= e < 16 {
      assert PythonText(x) + "" == PythonText(x);
      DenotesCut(PythonText(x), PythonBody(x), s, "", 0);
      CutDenotes(x, s, 0, left, right);
    } else {
      var pad := if Magnitude(e) < 10 then "0" else "";
      DenotesExponent(PythonBody(x), s, e, pad);
      CutDenotes(x, s, e, left, right);
    }
  }

  lemma PaddedExponent(e: int, pad: string)
    requires pad == "0" || pad == ""
    ensures IntOf(("e" + Sign(e) + pad + Digits(Magnitude(e)))[1..]) == e
  {
    var text := ("e" + Sign(e) + pad + Digits(Magnitude(e)))[1..];
    assert text == Sign(e) + pad + Digits(Magnitude(e));
    assert text[1..] == pad + Digits(Magnitude(e));
    DigitsValue(Magnitude(e));
    DigitsThenDigits(pad, Digits(Magnitude(e)), 0);
    if pad == "" {
      assert pad + Digits(Magnitude(e)) == Digits(Magnitude(e));
    }
  }

  /** The re-layout keeps the number, and an exponent appears exactly from 1e21 up and from
      below 1e-6 down. */
  lemma RelayoutKeepsValue(x: Shortest)
    requires IsShortest(x)
    ensures Denotes(EcmaText(x)) == Denotes(PythonText(x)) == Value(x)
    ensures 'e' in EcmaText(x) <==> x.exponent >= 21 || x.exponent <= -7
  {
    EcmaDenotes(x);
    PythonDenotes(x);
    EcmaCuts(x);
    if !(-7 < x.exponent < 21) {
      assert EcmaText(x)[|Mantissa(x.digits)|] == 'e';
    }
  }

  // ---- The serializer ----

  /** A Python float: not a number or infinite, a zero of either sign, or a signed magnitude. */
  datatype Float = NotFinite | Zero | Finite(negative: bool, magnitude: Shortest)

  datatype FloatError = FloatDomain

  predicate IsFloat(f: Float) {
    f.Finite? ==> IsShortest(f.magnitude)
  }

  function FloatText(f: Float): Result<string, FloatError>
    requires IsFloat(f)
  {
    match f
    case NotFinite => Err(FloatDomain)
    case Zero => Ok("0")
    case Finite(negative, x) => Ok((if negative then "-" else "") + EcmaText(x))
  }

  /** `_serialize_float`. */
  method SerializeFloat(f: Float, sink: Sink) returns (r: Result<(), FloatError>)
    requires IsFloat(f)
    modifies sink
    ensures match FloatText(f)
      case Ok(text) => r == Ok(()) && sink.written == old(sink.written) + Encode(text)
      case Err(why) => r == Err(why) && sink.written == old(sink.written)
    decreases f.Finite? && f.negative
  {
    if f.NotFinite? {
      return Err(FloatDomain);
    }
    if f.Zero? {
      sink.Write("0");
      return Ok(());
    }
    if f.negative {
      ghost var base := sink.written;
      sink.Write("-");
      r := SerializeFloat(Finite(false, f.magnitude), sink);
      WrittenAfter(base, "-", EcmaText(f.magnitude));
      assert "" + EcmaText(f.magnitude) == EcmaText(f.magnitude);
      return;
    }
    var text := LayOut(PythonText(f.magnitude), f.magnitude);
    assert "" + text == text;
    sink.Write(text);
    return Ok(());
  }
}
