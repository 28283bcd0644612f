/** Cutting a text to a byte bound: the longest prefix of whole code points that fits
    (section 3 of RFC 3629). */
module BoundedText {
  import opened Utf8
  import opened Utf8Codec

  /** `decode("utf-8", errors="ignore")`: bytes that are part of no character are skipped. */
  function DecodeIgnoring(b: bytes): string {
    if b == [] then ""
    else
      var width := Width(b[0]);
      if 0 < width <= |b| && WholeChar(b[..width])
      then [Number(b[..width]) as char] + DecodeIgnoring(b[width..])
      else DecodeIgnoring(b[1..])
  }

  function Cut(b: bytes, maximum: nat): bytes {
    if |b| <= maximum then b else b[..maximum]
  }

  /** `_bounded_utf8` of a text: what is kept, and whether anything was cut. */
  function Bounded(text: string, maximum: nat): (string, bool) {
    var raw := Encode(text);
    if |raw| <= maximum then (text, false) else (DecodeIgnoring(raw[..maximum]), true)
  }

  /** The longest prefix of whole code points within the bound. */
  ghost predicate LongestPrefix(text: string, maximum: nat, kept: string) {
    && kept <= text
    && |Encode(kept)| <= maximum
    && (|kept| < |text| ==> |Encode(text[..|kept| + 1])| > maximum)
  }

  lemma CharIsWhole(c: char)
    ensures WholeChar(EncodeChar(c)) && Number(EncodeChar(c)) == c as int
    ensures forall k | 1 <= k < |EncodeChar(c)| :: Width(EncodeChar(c)[k]) == 0
  {
    CharRoundTrip(c);
  }

  /** Nothing is read from a part of a character. */
  lemma {:induction false} PartIsIgnored(c: char, b: bytes)
    requires b < EncodeChar(c) || (exists k :: 1 <= k <= |EncodeChar(c)| && b <= EncodeChar(c)[k..])
    ensures DecodeIgnoring(b) == ""
    decreases |b|
  {
    CharIsWhole(c);
    if b != [] {
      var e := EncodeChar(c);
      if b < e {
        assert b[0] == e[0] && Width(b[0]) == |e| > |b|;
        assert b[1..] <= e[1..];
      } else {
        var k :| 1 <= k <= |e| && b <= e[k..];
        assert b[0] == e[k] && Width(b[0]) == 0;
        assert b[1..] <= e[k + 1..];
      }
      PartIsIgnored(c, b[1..]);
    }
  }

  lemma DecodeFirst(c: char, rest: bytes)
    ensures DecodeIgnoring(EncodeChar(c) + rest) == [c] + DecodeIgnoring(rest)
  {
    var b := EncodeChar(c) + rest;
    CharIsWhole(c);
    assert b[..|EncodeChar(c)|] == EncodeChar(c) && b[|EncodeChar(c)|..] == rest;
  }

  lemma LongestWith(c: char, rest: string, maximum: nat, kept: string)
    requires |EncodeChar(c)| <= maximum && LongestPrefix(rest, maximum - |EncodeChar(c)|, kept)
    ensures LongestPrefix([c] + rest, maximum, [c] + kept)
  {
    hide EncodeChar, Encode;
    EncodeCons(c, kept);
    if |kept| < |rest| {
      EncodeCons(c, rest[..|kept| + 1]);
      assert ([c] + rest)[..|kept| + 2] == [c] + rest[..|kept| + 1];
    }
    assert [c] + kept <= [c] + rest;
  }

  /** What the cut bytes decode to. */
  lemma {:induction false} CutIsLongest(text: string, maximum: nat)
    ensures LongestPrefix(text, maximum, DecodeIgnoring(Cut(Encode(text), maximum)))
  {
    if text != "" {
      var first, rest := EncodeChar(text[0]), Encode(text[1..]);
      assert text == [text[0]] + text[1..];
      if |first| <= maximum {
        CutIsLongest(text[1..], maximum - |first|);
        assert Cut(first + rest, maximum) == first + Cut(rest, maximum - |first|);
        DecodeFirst(text[0], Cut(rest, maximum - |first|));
        LongestWith(text[0], text[1..], maximum, DecodeIgnoring(Cut(rest, maximum - |first|)));
      } else {
        var part := Cut(first + rest, maximum);
        assert part == first[..maximum];
        PartIsIgnored(text[0], part);
        EncodeCons(text[0], "");
        assert text[..1] == [text[0]] + "";
      }
    }
  }

  /** `_bounded_utf8` keeps the longest prefix that fits, and says exactly whether it cut. */
  lemma BoundedIsLongest(text: string, maximum: nat)
    ensures var (kept, truncated) := Bounded(text, maximum);
      && LongestPrefix(text, maximum, kept)
      && (truncated <==> |Encode(text)| > maximum)
      && (truncated <==> kept != text)
  {
    CutIsLongest(text, maximum);
    var (kept, truncated) := Bounded(text, maximum);
    if truncated {
      assert kept != text;
    } else {
      assert text[..|text|] == text;
    }
  }
}
