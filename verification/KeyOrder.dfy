/** The order of object keys (section 3.2.3 of RFC 8785): big-endian UTF-16 bytes, which is the
    order of UTF-16 code units. */
module KeyOrder {

  // ---- Lexicographic order ----

  predicate Less(a: seq<int>, b: seq<int>) {
    if b == [] then false
    else if a == [] then true
    else if a[0] != b[0] then a[0] < b[0]
    else Less(a[1..], b[1..])
  }

  lemma {:induction false} LessTrichotomy(a: seq<int>, b: seq<int>)
    ensures Less(a, b) || a == b || Less(b, a)
    ensures !(Less(a, b) && Less(b, a)) && !Less(a, a)
  {
    if a != [] && b != [] && a[0] == b[0] {
      LessTrichotomy(a[1..], b[1..]);
      assert a == [a[0]] + a[1..] && b == [b[0]] + b[1..];
    }
    if a != [] {
      LessTrichotomy(a[1..], a[1..]);
    }
  }

  lemma {:induction false} LessTransitive(a: seq<int>, b: seq<int>, c: seq<int>)
    requires Less(a, b) && Less(b, c)
    ensures Less(a, c)
  {
    if a != [] && a[0] == b[0] == c[0] {
      LessTransitive(a[1..], b[1..], c[1..]);
    }
  }

  // ---- UTF-16 ----

  /** The one or two code units of a character. */
  function UnitsOf(c: char): (u: seq<int>)
    ensures 1 <= |u| <= 2 && forall k | 0 <= k < |u| :: 0 <= u[k] < 0x1_0000
  {
    var n := c as int;
    if n < 0x1_0000 then [n]
    else [0xD800 + (n - 0x1_0000) / 0x400, 0xDC00 + (n - 0x1_0000) % 0x400]
  }

  function Units(s: string): (u: seq<int>)
    ensures forall k | 0 <= k < |u| :: 0 <= u[k] < 0x1_0000
  {
    if s == "" then [] else UnitsOf(s[0]) + Units(s[1..])
  }

  /** `encode("utf-16be")` of the code units. */
  function BigEndian(u: seq<int>): seq<int> {
    if u == [] then [] else [u[0] / 0x100, u[0] % 0x100] + BigEndian(u[1..])
  }

  /** Big-endian byte order is code-unit order. */
  lemma {:induction false} BigEndianOrder(a: seq<int>, b: seq<int>)
    requires forall k | 0 <= k < |a| :: 0 <= a[k] < 0x1_0000
    requires forall k | 0 <= k < |b| :: 0 <= b[k] < 0x1_0000
    ensures Less(BigEndian(a), BigEndian(b)) <==> Less(a, b)
  {
    if a != [] && b != [] {
      var x, y := BigEndian(a), BigEndian(b);
      assert x[1..][1..] == BigEndian(a[1..]) && y[1..][1..] == BigEndian(b[1..]);
      assert x[1..][0] == a[0] % 0x100 && y[1..][0] == b[0] % 0x100;
      if a[0] == b[0] {
        BigEndianOrder(a[1..], b[1..]);
      }
    }
  }

  lemma UnitsOfFirst(c: char, d: char, s: string, t: string)
    requires UnitsOf(c) + Units(s) == UnitsOf(d) + Units(t)
    ensures c == d && Units(s) == Units(t)
  {
    var x, y := UnitsOf(c) + Units(s), UnitsOf(d) + Units(t);
    assert x[0] == UnitsOf(c)[0] && y[0] == UnitsOf(d)[0];
    assert |UnitsOf(c)| == |UnitsOf(d)|;
    if |UnitsOf(c)| == 2 {
      assert x[1] == UnitsOf(c)[1] && y[1] == UnitsOf(d)[1];
    }
    assert x[|UnitsOf(c)|..] == Units(s) && y[|UnitsOf(d)|..] == Units(t);
  }

  /** Distinct keys have distinct code units. */
  lemma {:induction false} UnitsInjective(s: string, t: string)
    requires Units(s) == Units(t)
    ensures s == t
  {
    if s != "" && t != "" {
      UnitsOfFirst(s[0], t[0], s[1..], t[1..]);
      UnitsInjective(s[1..], t[1..]);
      assert s == [s[0]] + s[1..] && t == [t[0]] + t[1..];
    }
  }

  /** `kv[0].encode("utf-16be")` compared. */
  predicate KeyLess(s: string, t: string) {
    Less(BigEndian(Units(s)), BigEndian(Units(t)))
  }

  /** Keys are totally and strictly ordered by their code units. */
  lemma KeyOrderIsStrictAndTotal(s: string, t: string)
    ensures KeyLess(s, t) <==> Less(Units(s), Units(t))
    ensures KeyLess(s, t) || s == t || KeyLess(t, s)
    ensures !(KeyLess(s, t) && KeyLess(t, s)) && !KeyLess(s, s)
  {
    BigEndianOrder(Units(s), Units(t));
    BigEndianOrder(Units(t), Units(s));
    BigEndianOrder(Units(s), Units(s));
    LessTrichotomy(Units(s), Units(t));
    LessTrichotomy(Units(s), Units(s));
    if Units(s) == Units(t) {
      UnitsInjective(s, t);
    }
  }

  lemma KeyOrderIsTransitive(s: string, t: string, u: string)
    requires KeyLess(s, t) && KeyLess(t, u)
    ensures KeyLess(s, u)
  {
    LessTransitive(BigEndian(Units(s)), BigEndian(Units(t)), BigEndian(Units(u)));
  }

  /** It is not the order of code points: a character outside the basic plane comes before the
      private-use characters at its end. */
  lemma KeyOrderIsNotCodePointOrder()
    ensures KeyLess("\U{10000}", "\U{E000}") && ("\U{10000}"[0] as int) > ("\U{E000}"[0] as int)
  {
    assert Units("\U{10000}"[1..]) == [] && Units("\U{E000}"[1..]) == [];
    assert Units("\U{10000}") == [0xD800, 0xDC00];
    assert Units("\U{E000}") == [0xE000];
    KeyOrderIsStrictAndTotal("\U{10000}", "\U{E000}");
  }
}
