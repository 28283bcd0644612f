/** Decoding UTF-8, and that encoding loses nothing (section 3 of RFC 3629). */
module Utf8Codec {
  import opened Wrappers
  import opened Utf8

  predicate IsScalar(n: int) {
    0 <= n < 0xD800 || 0xE000 <= n < 0x11_0000
  }

  /** How many bytes the character that starts with this byte takes; 0 is no start byte. */
  function Width(first: byte): nat {
    if first < 0x80 then 1
    else if first < 0xC0 then 0
    else if first < 0xE0 then 2
    else if first < 0xF0 then 3
    else if first < 0xF8 then 4
    else 0
  }

  /** The number the bytes of one character carry. */
  function Number(b: bytes): int
    requires b != [] && Width(b[0]) == |b|
  {
    var lead := b[0] as int;
    if |b| == 1 then lead
    else if |b| == 2 then (lead - 0xC0) * 0x40 + Tail(b, 1)
    else if |b| == 3 then (lead - 0xE0) * 0x1000 + Tail(b, 1) * 0x40 + Tail(b, 2)
    else (lead - 0xF0) * 0x4_0000 + Tail(b, 1) * 0x1000 + Tail(b, 2) * 0x40 + Tail(b, 3)
  }

  /** The bytes are one character's: a scalar value in its shortest form. */
  predicate WholeChar(b: bytes) {
    b != [] && Width(b[0]) == |b| && IsScalar(Number(b)) && EncodeChar(Number(b) as char) == b
  }

  /** The six bits of a continuation byte. */
  function Tail(b: bytes, k: nat): int
    requires k < |b|
  {
    b[k] as int - 0x80
  }

  function Decode(b: bytes): Option<string> {
    if b == [] then Some("")
    else
      var width := Width(b[0]);
      if width == 0 || width > |b| || !WholeChar(b[..width]) then None
      else
        match Decode(b[width..])
        case None => None
        case Some(rest) => Some([Number(b[..width]) as char] + rest)
  }

  /** A number is what its six-bit groups say. */
  lemma SixBitGroups(n: nat)
    ensures n == n / 0x40 * 0x40 + n % 0x40
    ensures n / 0x40 == n / 0x1000 * 0x40 + n / 0x40 % 0x40
    ensures n / 0x1000 == n / 0x4_0000 * 0x40 + n / 0x1000 % 0x40
  {
    assert n / 0x1000 == n / 0x40 / 0x40;
    assert n / 0x4_0000 == n / 0x1000 / 0x40;
  }

  lemma CharRoundTrip(c: char)
    ensures Width(EncodeChar(c)[0]) == |EncodeChar(c)|
    ensures Number(EncodeChar(c)) == c as int && IsScalar(c as int)
  {
    SixBitGroups(c as int);
  }

  lemma {:induction false} DecodeEncode(s: string)
    ensures Decode(Encode(s)) == Some(s)
  {
    if s != "" {
      var first, rest := EncodeChar(s[0]), Encode(s[1..]);
      CharRoundTrip(s[0]);
      DecodeEncode(s[1..]);
      assert (first + rest)[..|first|] == first && (first + rest)[|first|..] == rest;
      assert [s[0]] + s[1..] == s;
    }
  }

  /** Decoding accepts nothing but what encoding writes. */
  lemma {:induction false} EncodeDecode(b: bytes)
    requires Decode(b).Some?
    ensures Encode(Decode(b).value) == b
  {
    if b != [] {
      var width := Width(b[0]);
      EncodeDecode(b[width..]);
      EncodeCons(Number(b[..width]) as char, Decode(b[width..]).value);
    }
  }

  lemma EncodeCons(c: char, rest: string)
    ensures Encode([c] + rest) == EncodeChar(c) + Encode(rest)
  {
    assert ([c] + rest)[1..] == rest;
  }

  lemma Associative(a: bytes, b: bytes, c: bytes)
    ensures (a + b) + c == a + (b + c)
  {
  }

  lemma {:induction false} EncodeConcat(a: string, b: string)
    ensures Encode(a + b) == Encode(a) + Encode(b)
  {
    hide EncodeChar, Encode;
    if a == "" {
      assert a + b == b;
      assert Encode("") == [] by {
        EncodeEmpty();
      }
    } else {
      var first, rest := a[0], a[1..];
      assert a == [first] + rest && a + b == [first] + (rest + b);
      EncodeCons(first, rest + b);
      EncodeCons(first, rest);
      EncodeConcat(rest, b);
      Associative(EncodeChar(first), Encode(rest), Encode(b));
    }
  }

  lemma EncodeEmpty()
    ensures Encode("") == []
  {
  }
}
