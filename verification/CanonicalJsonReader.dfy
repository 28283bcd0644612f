/** A strict reader of canonical text, and the round trip: reading what `dumps` wrote gives the
    value back, up to key order. It knows one spelling of every value: no space, no escape but the
    prescribed one (section 3.2.2.2 of RFC 8785), no number with a leading zero, no key before a
    smaller one (section 3.2.3). */
module CanonicalJsonReader {
  import opened Wrappers
  import opened Utf8
  import Utf8Codec
  import opened KeyOrder
  import opened KeySorting
  import opened CanonicalJson
  import opened CanonicalForm

  // ---- Reading ----

  predicate IsDigit(c: char) { '0' <= c <= '9' }

  function DigitValue(c: char): nat
    requires IsDigit(c)
  {
    c as int - '0' as int
  }

  /** Reads on after the digits so far. */
  function ReadDigits(t: string, read: nat): (r: (nat, string))
    ensures |r.1| <= |t|
  {
    if t == "" || !IsDigit(t[0]) then (read, t) else ReadDigits(t[1..], read * 10 + DigitValue(t[0]))
  }

  function HexValue(c: char): Option<int> {
    if '0' <= c <= '9' then Some(c as int - '0' as int)
    else if 'a' <= c <= 'f' then Some(c as int - 'a' as int + 10)
    else None
  }

  /** Control characters with a short escape of their own. */
  predicate HasShortEscape(code: int) {
    code == 0x08 || code == 0x09 || code == 0x0A || code == 0x0C || code == 0x0D
  }

  /** The character after a backslash, and how long its escape is. Four hexadecimal digits, in lower
      case, are for the other control characters alone. */
  function ReadEscape(t: string): Option<(char, nat)> {
    if |t| < 2 then None
    else if t[1] == '\\' then Some(('\\', 2))
    else if t[1] == '\"' then Some(('\"', 2))
    else if t[1] == 'b' then Some((8 as char, 2))
    else if t[1] == 'f' then Some((12 as char, 2))
    else if t[1] == 'n' then Some(('\n', 2))
    else if t[1] == 'r' then Some(('\r', 2))
    else if t[1] == 't' then Some(('\t', 2))
    else if t[1] == 'u' && |t| >= 6 && t[2] == '0' && t[3] == '0' then
      match (HexValue(t[4]), HexValue(t[5]))
      case (Some(high), Some(low)) =>
        var code := high * 16 + low;
        if code < 0x20 && !HasShortEscape(code) then Some((code as char, 6)) else None
      case _ => None
    else None
  }

  /** The rest of a string after its opening quote. */
  function ReadString(t: string): (r: Option<(string, string)>)
    ensures r.Some? ==> |r.value.1| < |t|
  {
    if t == "" then None
    else if t[0] == '\"' then Some(("", t[1..]))
    else if t[0] == '\\' then
      match ReadEscape(t)
      case None => None
      case Some((c, length)) =>
        if length > |t| then None
        else
          match ReadString(t[length..])
          case None => None
          case Some((s, rest)) => Some(([c] + s, rest))
    else if t[0] as int < 0x20 then None
    else
      match ReadString(t[1..])
      case None => None
      case Some((s, rest)) => Some(([t[0]] + s, rest))
  }

  function ReadInt(t: string): (r: Option<(Value, string)>)
    ensures r.Some? ==> |r.value.1| < |t|
  {
    if t == "" then None
    else if t[0] == '-' then
      if |t| < 2 || !IsDigit(t[1]) || t[1] == '0' then None
      else var (n, rest) := ReadDigits(t[2..], DigitValue(t[1])); Some((Int(-(n as int)), rest))
    else if !IsDigit(t[0]) || (t[0] == '0' && |t| > 1 && IsDigit(t[1])) then None
    else var (n, rest) := ReadDigits(t[1..], DigitValue(t[0])); Some((Int(n), rest))
  }

  function ReadValue(t: string): (r: Option<(Value, string)>)
    ensures r.Some? ==> |r.value.1| < |t|
    decreases |t|, 0
  {
    if t == "" then None
    else if t[0] == '\"' then
      match ReadString(t[1..])
      case None => None
      case Some((s, rest)) => Some((Str(s), rest))
    else if t[0] == '[' then
      if |t| > 1 && t[1] == ']' then Some((List([]), t[2..]))
      else
        match ReadItems(t[1..])
        case None => None
        case Some((items, rest)) => Some((List(items), rest))
    else if t[0] == '{' then
      if |t| > 1 && t[1] == '}' then Some((Dict([]), t[2..]))
      else
        match ReadMembers(t[1..])
        case None => None
        case Some((entries, rest)) => Some((Dict(entries), rest))
    else if "null" <= t then Some((Null, t[4..]))
    else if "true" <= t then Some((Bool(true), t[4..]))
    else if "false" <= t then Some((Bool(false), t[5..]))
    else ReadInt(t)
  }

  /** The items of a list that has at least one more, with its closing bracket. */
  function ReadItems(t: string): (r: Option<(seq<Value>, string)>)
    ensures r.Some? ==> |r.value.1| < |t|
    decreases |t|, 1
  {
    match ReadValue(t)
    case None => None
    case Some((item, rest)) =>
      if rest == "" then None
      else if rest[0] == ']' then Some(([item], rest[1..]))
      else if rest[0] == ',' then
        match ReadItems(rest[1..])
        case None => None
        case Some((items, after)) => Some(([item] + items, after))
      else None
  }

  /** The members of an object that has at least one more, each no smaller than the one before. */
  function ReadMembers(t: string): (r: Option<(seq<Keyed<Value>>, string)>)
    ensures r.Some? ==> |r.value.1| < |t| && r.value.0 != []
    decreases |t|, 1
  {
    if t == "" || t[0] != '\"' then None
    else
      match ReadString(t[1..])
      case None => None
      case Some((key, afterKey)) =>
        if afterKey == "" || afterKey[0] != ':' then None
        else
          match ReadValue(afterKey[1..])
          case None => None
          case Some((value, rest)) =>
            if rest == "" then None
            else if rest[0] == '}' then Some(([Keyed(key, value)], rest[1..]))
            else if rest[0] == ',' then
              match ReadMembers(rest[1..])
              case None => None
              case Some((entries, after)) =>
                if KeyLess(entries[0].key, key) then None else Some(([Keyed(key, value)] + entries, after))
            else None
  }

  // ---- Strings and numbers come back ----

  lemma HexComesBack(d: int)
    requires 0 <= d < 16
    ensures HexValue(HexDigit(d)) == Some(d)
  {
  }

  lemma EscapeComesBack(c: char, rest: string)
    ensures EscapeChar(c)[0] != '\"'
    ensures EscapeChar(c)[0] == '\\' ==> ReadEscape(EscapeChar(c) + rest) == Some((c, |EscapeChar(c)|))
    ensures EscapeChar(c)[0] != '\\' ==> EscapeChar(c) == [c] && c as int >= 0x20
  {
    if c as int < 0x20 {
      HexComesBack(c as int / 16);
      HexComesBack(c as int % 16);
      assert c as int / 16 * 16 + c as int % 16 == c as int;
    }
  }

  lemma EscapeStep(c: char, s: string, rest: string)
    requires ReadString(Escape(s) + "\"" + rest) == Some((s, rest))
    ensures ReadString(EscapeChar(c) + (Escape(s) + "\"" + rest)) == Some(([c] + s, rest))
  {
    var tail := Escape(s) + "\"" + rest;
    var t := EscapeChar(c) + tail;
    EscapeComesBack(c, tail);
    assert t[|EscapeChar(c)|..] == tail;
  }

  lemma {:induction false} StringComesBack(s: string, rest: string)
    ensures ReadString(Escape(s) + "\"" + rest) == Some((s, rest))
  {
    if s == "" {
      assert Escape(s) + "\"" + rest == "\"" + rest;
      assert ("\"" + rest)[1..] == rest;
    } else {
      StringComesBack(s[1..], rest);
      EscapeStep(s[0], s[1..], rest);
      assert Escape(s) + "\"" + rest == EscapeChar(s[0]) + (Escape(s[1..]) + "\"" + rest);
      assert [s[0]] + s[1..] == s;
    }
  }

  /** Where a number can end. */
  predicate Delimited(rest: string) {
    rest == "" || !IsDigit(rest[0])
  }

  lemma {:induction false} DigitsComeBack(n: nat, rest: string)
    ensures IsDigit(Digits(n)[0]) && (n > 0 ==> Digits(n)[0] != '0')
    ensures ReadDigits((Digits(n) + rest)[1..], DigitValue(Digits(n)[0])) == ReadDigits(rest, n)
  {
    if n < 10 {
      assert (Digits(n) + rest)[1..] == rest;
    } else {
      var more := [DigitChar(n % 10)] + rest;
      DigitsComeBack(n / 10, more);
      assert Digits(n) + rest == Digits(n / 10) + more;
      assert more[1..] == rest;
    }
  }

  lemma ZeroText()
    ensures Digits(0) == "0"
  {
  }

  lemma NegativeComesBack(n: int, rest: string)
    requires n < 0 && Delimited(rest)
    ensures ReadInt(Decimal(n) + rest) == Some((Int(n), rest))
    ensures Decimal(n)[0] == '-'
  {
    hide Digits;
    DigitsComeBack(-n, rest);
    assert (Decimal(n) + rest)[1..] == Digits(-n) + rest;
    assert (Decimal(n) + rest)[2..] == (Digits(-n) + rest)[1..];
  }

  lemma IntComesBack(n: int, rest: string)
    requires Delimited(rest)
    ensures ReadInt(Decimal(n) + rest) == Some((Int(n), rest))
    ensures Decimal(n)[0] == '-' || IsDigit(Decimal(n)[0])
  {
    if n < 0 {
      NegativeComesBack(n, rest);
    } else {
      hide Digits;
      ZeroText();
      DigitsComeBack(n, rest);
    }
  }

  // ---- Values come back ----

  /** Reading the text of v gives v in canonical order, whatever follows. */
  ghost predicate ComesBack(v: Value) {
    Text(v).Ok? ==> forall rest | Delimited(rest) :: ReadValue(Text(v).value + rest) == Some((Canon(v), rest))
  }

  lemma ReadBack(v: Value, rest: string)
    requires ComesBack(v) && Text(v).Ok? && Delimited(rest)
    ensures ReadValue(Text(v).value + rest) == Some((Canon(v), rest))
  {
  }

  lemma {:induction false} ItemsComeBack(items: seq<Value>, rest: string)
    requires items != [] && Joined(ItemTexts(items)).Ok?
    requires forall k | 0 <= k < |items| :: ComesBack(items[k])
    ensures ReadItems(Joined(ItemTexts(items)).value + "]" + rest) == Some((CanonItems(items), rest))
  {
    hide Text, Canon, ReadValue, ComesBack, ItemTexts, CanonItems;
    var texts := ItemTexts(items);
    if |items| == 1 {
      ReadBack(items[0], "]" + rest);
      assert texts[0].value + "]" + rest == texts[0].value + ("]" + rest);
      assert ("]" + rest)[1..] == rest;
      assert [Canon(items[0])] == CanonItems(items);
    } else {
      var tail := Joined(ItemTexts(items[1..]));
      assert texts[1..] == ItemTexts(items[1..]);
      ItemsComeBack(items[1..], rest);
      var after := "," + (tail.value + "]" + rest);
      ReadBack(items[0], after);
      assert Joined(texts).value + "]" + rest == texts[0].value + after;
      assert after[1..] == tail.value + "]" + rest;
      assert [Canon(items[0])] + CanonItems(items[1..]) == CanonItems(items);
    }
  }

  /** One member of an object, up to what follows its value. */
  lemma MemberComesBack(entry: Keyed<Value>, after: string)
    requires ComesBack(entry.value) && Text(entry.value).Ok? && after != "" && !IsDigit(after[0])
    ensures var t := Quoted(entry.key) + ":" + Text(entry.value).value + after;
      && t[0] == '\"'
      && ReadString(t[1..]) == Some((entry.key, ":" + Text(entry.value).value + after))
      && ReadValue(Text(entry.value).value + after) == Some((Canon(entry.value), after))
  {
    hide Text, Canon, ReadValue, ComesBack, ReadString, Escape;
    var t := Quoted(entry.key) + ":" + Text(entry.value).value + after;
    var afterKey := ":" + Text(entry.value).value + after;
    StringComesBack(entry.key, afterKey);
    assert t[1..] == Escape(entry.key) + "\"" + afterKey;
    ReadBack(entry.value, after);
  }

  lemma {:induction false} MembersComeBack(entries: seq<Keyed<Value>>, rest: string)
    requires entries != [] && Joined(Members(EntryTexts(entries))).Ok?
    requires forall k | 0 <= k < |entries| :: ComesBack(entries[k].value)
    requires InOrder(entries)
    ensures ReadMembers(Joined(Members(EntryTexts(entries))).value + "}" + rest) == Some((CanonEntries(entries), rest))
  {
    hide Text, Canon, ReadValue, ComesBack, EntryTexts, CanonEntries, Members, ReadString, Escape;
    hide InOrder, KeyLess;
    var texts := Members(EntryTexts(entries));
    var first := entries[0];
    assert texts[0] == Member(Keyed(first.key, Text(first.value)));
    if |entries| == 1 {
      var after := "}" + rest;
      MemberComesBack(first, after);
      assert texts[0].value + "}" + rest == Quoted(first.key) + ":" + Text(first.value).value + after;
      assert (":" + Text(first.value).value + after)[1..] == Text(first.value).value + after;
      assert after[1..] == rest;
      assert [Keyed(first.key, Canon(first.value))] == CanonEntries(entries);
    } else {
      assert texts[1..] == Members(EntryTexts(entries[1..]));
      var tail := Joined(texts[1..]);
      InOrderTail(entries);
      MembersComeBack(entries[1..], rest);
      assert CanonEntries(entries[1..])[0].key == entries[1].key;
      var after := "," + (tail.value + "}" + rest);
      MemberComesBack(first, after);
      assert Joined(texts).value + "}" + rest == Quoted(first.key) + ":" + Text(first.value).value + after;
      assert (":" + Text(first.value).value + after)[1..] == Text(first.value).value + after;
      assert after[1..] == tail.value + "}" + rest;
      assert [Keyed(first.key, Canon(first.value))] + CanonEntries(entries[1..]) == CanonEntries(entries);
    }
  }

  // ---- The whole value ----

  predicate StartsOther(t: string) {
    t != "" && t[0] != '\"' && t[0] != '[' && t[0] != '{' && t[0] != 'n' && t[0] != 't' && t[0] != 'f'
  }

  lemma NumberIsRead(n: int, rest: string)
    requires Delimited(rest)
    ensures ReadValue(Decimal(n) + rest) == Some((Int(n), rest))
  {
    hide Decimal, ReadInt;
    IntComesBack(n, rest);
    var t := Decimal(n) + rest;
    assert StartsOther(t) && t == Decimal(n) + rest;
    assert !("null" <= t) && !("true" <= t) && !("false" <= t);
  }

  lemma WordIsRead(rest: string)
    ensures ReadValue("null" + rest) == Some((Null, rest))
    ensures ReadValue("true" + rest) == Some((Bool(true), rest))
    ensures ReadValue("false" + rest) == Some((Bool(false), rest))
  {
    assert ("null" + rest)[4..] == rest && "null" <= "null" + rest;
    assert ("true" + rest)[4..] == rest && "true" <= "true" + rest;
    assert ("false" + rest)[5..] == rest && "false" <= "false" + rest;
  }

  lemma StringIsRead(s: string, rest: string)
    ensures ReadValue(Quoted(s) + rest) == Some((Str(s), rest))
  {
    hide ReadString, Escape;
    StringComesBack(s, rest);
    assert (Quoted(s) + rest)[1..] == Escape(s) + "\"" + rest;
  }

  /** No canonical text starts with a closing bracket. */
  lemma TextOpens(v: Value)
    requires Text(v).Ok?
    ensures Text(v).value != "" && Text(v).value[0] != ']' && Text(v).value[0] != '}'
  {
    if v.Int? {
      IntComesBack(v.n, "");
    }
  }

  lemma ItemsRead(items: seq<Value>, rest: string)
    requires Joined(ItemTexts(items)).Ok? && forall k | 0 <= k < |items| :: ComesBack(items[k])
    ensures ReadValue("[" + Joined(ItemTexts(items)).value + "]" + rest) == Some((List(CanonItems(items)), rest))
  {
    hide ComesBack, ReadItems, Text, Canon;
    var inner := Joined(ItemTexts(items)).value;
    var t := "[" + inner + "]" + rest;
    if items == [] {
      assert inner == "" && t[2..] == rest;
    } else {
      ItemsComeBack(items, rest);
      TextOpens(items[0]);
      assert t[1..] == inner + "]" + rest;
      assert t[1] == inner[0] == Text(items[0]).value[0];
    }
  }

  lemma ListIsRead(items: seq<Value>, rest: string)
    requires Text(List(items)).Ok? && forall k | 0 <= k < |items| :: ComesBack(items[k])
    ensures ReadValue(Text(List(items)).value + rest) == Some((List(CanonItems(items)), rest))
  {
    hide ComesBack, ReadValue, Joined, ItemTexts;
    ItemsRead(items, rest);
  }

  lemma {:induction false} CanonInsert(entry: Keyed<Value>, sorted: seq<Keyed<Value>>)
    ensures CanonEntries(Insert(entry, sorted)) == Insert(Keyed(entry.key, Canon(entry.value)), CanonEntries(sorted))
  {
    if sorted != [] && KeyLess(sorted[0].key, entry.key) {
      CanonInsert(entry, sorted[1..]);
    }
  }

  lemma {:induction false} CanonSort(entries: seq<Keyed<Value>>)
    ensures CanonEntries(SortByKey(entries)) == SortByKey(CanonEntries(entries))
  {
    if entries != [] {
      CanonSort(entries[1..]);
      CanonInsert(entries[0], SortByKey(entries[1..]));
    }
  }

  lemma SortedComeBack(entries: seq<Keyed<Value>>)
    requires forall k | 0 <= k < |entries| :: ComesBack(entries[k].value)
    ensures forall k | 0 <= k < |SortByKey(entries)| :: ComesBack(SortByKey(entries)[k].value)
    ensures |SortByKey(entries)| == |entries|
  {
    hide ComesBack;
    SortIsPermutation(entries);
    forall k | 0 <= k < |SortByKey(entries)|
      ensures ComesBack(SortByKey(entries)[k].value)
    {
      SortMembers(entries, SortByKey(entries)[k]);
    }
  }

  lemma DictText(entries: seq<Keyed<Value>>)
    requires Text(Dict(entries)).Ok?
    ensures var inner := Joined(Members(EntryTexts(SortByKey(entries))));
      inner.Ok? && Text(Dict(entries)).value == "{" + inner.value + "}"
  {
    TextsSort(entries);
  }

  lemma MembersRead(sorted: seq<Keyed<Value>>, rest: string)
    requires Joined(Members(EntryTexts(sorted))).Ok? && forall k | 0 <= k < |sorted| :: ComesBack(sorted[k].value)
    requires InOrder(sorted)
    ensures ReadValue("{" + Joined(Members(EntryTexts(sorted))).value + "}" + rest) == Some((Dict(CanonEntries(sorted)), rest))
  {
    hide ComesBack, ReadMembers, InOrder;
    var inner := Joined(Members(EntryTexts(sorted))).value;
    var t := "{" + inner + "}" + rest;
    if sorted == [] {
      assert inner == "" && t[2..] == rest;
    } else {
      MembersComeBack(sorted, rest);
      assert t[1..] == inner + "}" + rest;
      assert Members(EntryTexts(sorted))[0] == Member(Keyed(sorted[0].key, Text(sorted[0].value)));
      assert t[1] == '\"';
    }
  }

  lemma DictIsRead(entries: seq<Keyed<Value>>, rest: string)
    requires Text(Dict(entries)).Ok? && forall k | 0 <= k < |entries| :: ComesBack(entries[k].value)
    ensures ReadValue(Text(Dict(entries)).value + rest) == Some((Canon(Dict(entries)), rest))
  {
    hide ComesBack, ReadValue, SortByKey, Text;
    CanonSort(entries);
    SortedComeBack(entries);
    DictText(entries);
    SortIsInOrder(entries);
    MembersRead(SortByKey(entries), rest);
  }

  /** The round trip, for every value that has a canonical text. */
  lemma {:induction false} ValueComesBack(v: Value)
    ensures ComesBack(v)
    decreases v
  {
    if v.List? {
      forall k | 0 <= k < |v.items|
        ensures ComesBack(v.items[k])
      {
        ValueComesBack(v.items[k]);
      }
    } else if v.Dict? {
      forall k | 0 <= k < |v.entries|
        ensures ComesBack(v.entries[k].value)
      {
        ValueComesBack(v.entries[k].value);
      }
    }
    if Text(v).Ok? {
      forall rest | Delimited(rest)
        ensures ReadValue(Text(v).value + rest) == Some((Canon(v), rest))
      {
        match v
        case Null => WordIsRead(rest);
        case Bool(_) => WordIsRead(rest);
        case Int(n) => NumberIsRead(n, rest);
        case Str(s) => StringIsRead(s, rest);
        case List(items) => ListIsRead(items, rest);
        case Dict(entries) => DictIsRead(entries, rest);
      }
    }
  }

  // ---- Bytes ----

  /** Reading canonical bytes: UTF-8, one value, nothing after it. */
  function Loads(b: bytes): Option<Value> {
    match Utf8Codec.Decode(b)
    case None => None
    case Some(text) =>
      match ReadValue(text)
      case Some((v, "")) => Some(v)
      case _ => None
  }

  /** `dumps` is uniquely decodable: its bytes give the value back, in canonical key order. */
  lemma LoadsDumps(v: Value)
    requires Dumps(v).Ok?
    ensures Loads(Dumps(v).value) == Some(Canon(v))
  {
    ValueComesBack(v);
    Utf8Codec.DecodeEncode(Text(v).value);
    ReadBack(v, "");
    assert Text(v).value + "" == Text(v).value;
  }

  /** Two values have the same canonical bytes exactly when a reader could not tell them apart:
      the same value, whatever order their dicts were built in. */
  lemma SameBytesIffSameValue(v: Value, w: Value)
    requires WellKeyed(v) && WellKeyed(w) && Dumps(v).Ok? && Dumps(w).Ok?
    ensures Dumps(v) == Dumps(w) <==> Meaning(v) == Meaning(w)
  {
    if Dumps(v) == Dumps(w) {
      LoadsDumps(v);
      LoadsDumps(w);
      CanonKeepsMeaning(v);
      CanonKeepsMeaning(w);
    }
    if Meaning(v) == Meaning(w) {
      SameMeaningSameCanon(v, w);
      TextOfCanon(v);
      TextOfCanon(w);
    }
  }

  /** Insertion order never shows, not even in whether a value can be written. */
  lemma InsertionOrderIsInvisible(v: Value, w: Value)
    requires WellKeyed(v) && WellKeyed(w) && Meaning(v) == Meaning(w)
    ensures Dumps(v) == Dumps(w)
  {
    SameMeaningSameCanon(v, w);
    TextOfCanon(v);
    TextOfCanon(w);
  }
}
