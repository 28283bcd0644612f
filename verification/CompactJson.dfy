/** `json.dumps` with compact separators and without ASCII escaping: insertion order, and the
    same string escapes as the canonical serializer. */
module CompactJson {
  import opened Utf8
  import opened KeySorting
  import opened CanonicalJson
  import opened CanonicalJsonReader

  function ItemText(items: seq<Value>): string
    decreases items
  {
    if items == [] then ""
    else if |items| == 1 then Compact(items[0])
    else Compact(items[0]) + "," + ItemText(items[1..])
  }

  function EntryText(entries: seq<Keyed<Value>>): string
    decreases entries
  {
    if entries == [] then ""
    else if |entries| == 1 then Quoted(entries[0].key) + ":" + Compact(entries[0].value)
    else Quoted(entries[0].key) + ":" + Compact(entries[0].value) + "," + EntryText(entries[1..])
  }

  function Compact(v: Value): string
    decreases v
  {
    match v
    case Null => "null"
    case Bool(b) => if b then "true" else "false"
    case Int(n) => Decimal(n)
    case Str(s) => Quoted(s)
    case List(items) => "[" + ItemText(items) + "]"
    case Dict(entries) => "{" + EntryText(entries) + "}"
    case Unsupported => ""
  }

  /** Bytes on the wire. */
  function Size(text: string): nat { |Encode(text)| }

  lemma SizeConcat(a: string, b: string)
    ensures Size(a + b) == Size(a) + Size(b)
  {
    Utf8Codec.EncodeConcat(a, b);
  }

  lemma {:induction false} AsciiSize(s: string)
    requires forall k | 0 <= k < |s| :: s[k] as int < 0x80
    ensures Size(s) == |s|
  {
    if s != "" {
      AsciiSize(s[1..]);
    }
  }

  // ---- Sizes of the variable parts ----

  /** One code point of a JSON string takes at most six bytes, and a NUL takes exactly six. */
  lemma {:induction false} EscapedSize(s: string)
    ensures Size(Escape(s)) <= 6 * |s|
    ensures (forall k | 0 <= k < |s| :: s[k] == 0 as char) ==> Size(Escape(s)) == 6 * |s|
  {
    if s != "" {
      EscapedSize(s[1..]);
      EscapedCharSize(s[0]);
      SizeConcat(EscapeChar(s[0]), Escape(s[1..]));
    }
  }

  lemma EscapedCharSize(c: char)
    ensures Size(EscapeChar(c)) <= 6
    ensures c == 0 as char ==> Size(EscapeChar(c)) == 6
  {
    var e := EscapeChar(c);
    if |e| > 1 {
      AsciiSize(e);
    } else {
      assert Encode(e) == EncodeChar(e[0]) + Encode(e[1..]);
    }
  }

  lemma QuotedSize(s: string)
    ensures Size(Quoted(s)) == Size(Escape(s)) + 2
  {
    AsciiSize("\"");
    SizeConcat("\"", Escape(s));
    SizeConcat("\"" + Escape(s), "\"");
  }

  lemma {:induction false} DigitsSize(n: nat, m: nat)
    requires n <= m
    ensures |Digits(n)| <= |Digits(m)|
    ensures Size(Digits(n)) == |Digits(n)|
  {
    if n >= 10 {
      DigitsSize(n / 10, m / 10);
      SizeConcat(Digits(n / 10), [DigitChar(n % 10)]);
      AsciiSize([DigitChar(n % 10)]);
    } else {
      AsciiSize(Digits(n));
    }
  }

  // ---- The size of a value ----

  function ItemsCost(items: seq<Value>): nat
    decreases items
  {
    if items == [] then 0
    else if |items| == 1 then Cost(items[0])
    else Cost(items[0]) + 1 + ItemsCost(items[1..])
  }

  function EntriesCost(entries: seq<Keyed<Value>>): nat
    decreases entries
  {
    if entries == [] then 0
    else if |entries| == 1 then MemberCost(entries[0].key, Cost(entries[0].value))
    else MemberCost(entries[0].key, Cost(entries[0].value)) + 1 + EntriesCost(entries[1..])
  }

  function MemberCost(key: string, value: nat): nat { Size(Quoted(key)) + 1 + value }

  /** The bytes a value takes, added up from its parts. */
  function Cost(v: Value): nat
    decreases v
  {
    match v
    case Str(s) => Size(Escape(s)) + 2
    case List(items) => ItemsCost(items) + 2
    case Dict(entries) => EntriesCost(entries) + 2
    case _ => Size(Compact(v))
  }

  lemma {:induction false} ItemsCostIsSize(items: seq<Value>)
    requires forall k | 0 <= k < |items| :: Size(Compact(items[k])) == Cost(items[k])
    ensures Size(ItemText(items)) == ItemsCost(items)
  {
    if |items| > 1 {
      ItemsCostIsSize(items[1..]);
      JoinedSize(Compact(items[0]), ItemText(items[1..]));
    }
  }

  lemma JoinedSize(first: string, rest: string)
    ensures Size(first + "," + rest) == Size(first) + 1 + Size(rest)
  {
    AsciiSize(",");
    SizeConcat(first, ",");
    SizeConcat(first + ",", rest);
  }

  lemma MemberSize(key: string, value: string)
    ensures Size(Quoted(key) + ":" + value) == MemberCost(key, Size(value))
  {
    AsciiSize(":");
    SizeConcat(Quoted(key), ":");
    SizeConcat(Quoted(key) + ":", value);
  }

  lemma BracketSize(open: string, inner: string, close: string)
    requires |open| == 1 && open[0] as int < 0x80 && |close| == 1 && close[0] as int < 0x80
    ensures Size(open + inner + close) == Size(inner) + 2
  {
    AsciiSize(open);
    AsciiSize(close);
    SizeConcat(open, inner);
    SizeConcat(open + inner, close);
  }

  lemma {:induction false} EntriesCostIsSize(entries: seq<Keyed<Value>>)
    requires forall k | 0 <= k < |entries| :: Size(Compact(entries[k].value)) == Cost(entries[k].value)
    ensures Size(EntryText(entries)) == EntriesCost(entries)
  {
    if entries != [] {
      MemberSize(entries[0].key, Compact(entries[0].value));
      if |entries| > 1 {
        EntriesCostIsSize(entries[1..]);
        JoinedSize(Quoted(entries[0].key) + ":" + Compact(entries[0].value), EntryText(entries[1..]));
      }
    }
  }

  lemma {:induction false} CostIsSize(v: Value)
    ensures Size(Compact(v)) == Cost(v)
    decreases v
  {
    match v
    case Str(s) => QuotedSize(s);
    case List(items) =>
      forall k | 0 <= k < |items|
        ensures Size(Compact(items[k])) == Cost(items[k])
      {
        CostIsSize(items[k]);
      }
      ItemsCostIsSize(items);
      BracketSize("[", ItemText(items), "]");
    case Dict(entries) =>
      forall k | 0 <= k < |entries|
        ensures Size(Compact(entries[k].value)) == Cost(entries[k].value)
      {
        CostIsSize(entries[k].value);
      }
      EntriesCostIsSize(entries);
      BracketSize("{", EntryText(entries), "}");
    case _ =>
  }

  /** The cost of each kind of part, one level deep. */
  lemma PartCost(s: string, n: int, item: Value)
    ensures Cost(Str(s)) == Size(Escape(s)) + 2
    ensures Cost(Int(n)) == Size(Decimal(n))
    ensures Cost(Null) == 4 && Cost(List([])) == 2
    ensures Cost(List([item])) == Cost(item) + 2
  {
    AsciiSize("null");
  }

  lemma DictCost2(a: Keyed<Value>, b: Keyed<Value>)
    ensures Cost(Dict([a, b])) == MemberCost(a.key, Cost(a.value)) + MemberCost(b.key, Cost(b.value)) + 3
  {
    EntriesCost2(a, b);
  }

  lemma DictCost3(a: Keyed<Value>, b: Keyed<Value>, c: Keyed<Value>)
    ensures Cost(Dict([a, b, c])) ==
      MemberCost(a.key, Cost(a.value)) + MemberCost(b.key, Cost(b.value)) + MemberCost(c.key, Cost(c.value)) + 4
  {
    EntriesCost3(a, b, c);
  }

  lemma DictCost4(a: Keyed<Value>, b: Keyed<Value>, c: Keyed<Value>, d: Keyed<Value>)
    ensures Cost(Dict([a, b, c, d])) ==
      MemberCost(a.key, Cost(a.value)) + MemberCost(b.key, Cost(b.value))
      + MemberCost(c.key, Cost(c.value)) + MemberCost(d.key, Cost(d.value)) + 5
  {
    assert [a, b, c, d][1..] == [b, c, d];
    EntriesCost3(b, c, d);
  }

  lemma EntriesCost2(a: Keyed<Value>, b: Keyed<Value>)
    ensures EntriesCost([a, b]) == MemberCost(a.key, Cost(a.value)) + 1 + MemberCost(b.key, Cost(b.value))
  {
    assert [a, b][1..] == [b];
  }

  lemma EntriesCost3(a: Keyed<Value>, b: Keyed<Value>, c: Keyed<Value>)
    ensures EntriesCost([a, b, c]) ==
      MemberCost(a.key, Cost(a.value)) + MemberCost(b.key, Cost(b.value)) + MemberCost(c.key, Cost(c.value)) + 2
  {
    assert [a, b, c][1..] == [b, c];
    EntriesCost2(b, c);
  }

  // ---- Keys and numbers ----

  predicate PlainChar(c: char) {
    0x20 <= c as int < 0x80 && c != '\\' && c != '\"'
  }

  lemma {:induction false} PlainSize(s: string)
    requires forall k | 0 <= k < |s| :: PlainChar(s[k])
    ensures Escape(s) == s && Size(Escape(s)) == |s| && Size(Quoted(s)) == |s| + 2
  {
    if s != "" {
      PlainSize(s[1..]);
      assert [s[0]] + s[1..] == s;
    }
    AsciiSize(s);
    QuotedSize(s);
  }

  function TenTo(k: nat): nat { if k == 0 then 1 else 10 * TenTo(k - 1) }

  lemma {:induction false} DigitsLength(n: nat, k: nat)
    requires k >= 1 && n < TenTo(k) && (k > 1 ==> TenTo(k - 1) <= n)
    ensures |Digits(n)| == k
  {
    if k > 1 {
      assert n >= 10;
      DigitsLength(n / 10, k - 1);
    }
  }

  /** The largest safe integer has sixteen digits. */
  lemma SafeIntegerSize()
    ensures Size(Decimal(INT_MAX)) == 16 && Size(Decimal(INT_MIN)) == 17
  {
    assert TenTo(4) == 10_000;
    assert TenTo(8) == 100_000_000;
    assert TenTo(12) == 1_000_000_000_000;
    assert TenTo(15) == 1_000_000_000_000_000;
    assert TenTo(16) == 10_000_000_000_000_000;
    DigitsLength(INT_MAX, 16);
    DigitsSize(INT_MAX, INT_MAX);
    AsciiSize("-");
    SizeConcat("-", Digits(INT_MAX));
  }

  /** No safe integer is longer than the largest, or the smallest, of its sign. */
  lemma SafeIntegerFits(n: int)
    requires INT_MIN <= n <= INT_MAX
    ensures Size(Decimal(n)) <= if n < 0 then 17 else 16
  {
    SafeIntegerSize();
    if n < 0 {
      DigitsSize(-n, INT_MAX);
      AsciiSize("-");
      SizeConcat("-", Digits(-n));
      DigitsSize(INT_MAX, INT_MAX);
      SizeConcat("-", Digits(INT_MAX));
    } else {
      DigitsSize(n, INT_MAX);
      DigitsSize(INT_MAX, INT_MAX);
    }
  }
}
