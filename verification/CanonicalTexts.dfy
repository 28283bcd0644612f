/** What `dumps` writes is all a strict reader accepts: every value within the domain has exactly
    one text, and nothing else is one. */
module CanonicalTexts {
  import opened Wrappers
  import opened Utf8
  import opened KeyOrder
  import opened KeySorting
  import opened CanonicalJson
  import opened CanonicalForm
  import opened CanonicalJsonReader

  // ---- What has a text ----

  /** Every integer is within plus or minus 2^53 - 1, and every part of a supported type. */
  ghost predicate Serializable(v: Value)
    decreases v
  {
    match v
    case Int(n) => -9007199254740991 <= n <= 9007199254740991
    case List(items) => forall k | 0 <= k < |items| :: Serializable(items[k])
    case Dict(entries) => forall k | 0 <= k < |entries| :: Serializable(entries[k].value)
    case Unsupported => false
    case _ => true
  }

  lemma {:induction false} JoinedIffAll(texts: seq<Result<string, Error>>)
    ensures Joined(texts).Ok? <==> forall k | 0 <= k < |texts| :: texts[k].Ok?
  {
    if |texts| > 1 {
      JoinedIffAll(texts[1..]);
      assert forall k | 0 <= k < |texts[1..]| :: texts[1..][k] == texts[k + 1];
      if forall k | 0 <= k < |texts[1..]| :: texts[1..][k].Ok? {
        forall k | 1 <= k < |texts|
          ensures texts[k].Ok?
        {
          assert texts[1..][k - 1].Ok?;
        }
      }
    }
  }

  lemma DictHasText(entries: seq<Keyed<Value>>)
    ensures Text(Dict(entries)).Ok? <==> forall k | 0 <= k < |entries| :: Text(entries[k].value).Ok?
  {
    var texts := EntryTexts(entries);
    var sorted := SortByKey(texts);
    SortIsPermutation(texts);
    JoinedIffAll(Members(sorted));
    if forall k | 0 <= k < |entries| :: Text(entries[k].value).Ok? {
      forall k | 0 <= k < |sorted|
        ensures Members(sorted)[k].Ok?
      {
        SortMembers(texts, sorted[k]);
      }
    }
    if forall k | 0 <= k < |sorted| :: Members(sorted)[k].Ok? {
      forall k | 0 <= k < |entries|
        ensures Text(entries[k].value).Ok?
      {
        SortMembers(texts, texts[k]);
        var j :| 0 <= j < |sorted| && sorted[j] == texts[k];
        assert Members(sorted)[j].Ok?;
      }
    }
  }

  /** `dumps` raises exactly for a value that holds an integer beyond 2^53 - 1 or an unsupported
      part, at whatever depth. */
  lemma {:induction false} TextIffSerializable(v: Value)
    ensures Text(v).Ok? <==> Serializable(v)
    decreases v
  {
    hide Joined, Members, EntryTexts, SortByKey;
    match v
    case List(items) =>
      forall k | 0 <= k < |items|
        ensures Text(items[k]).Ok? <==> Serializable(items[k])
      {
        TextIffSerializable(items[k]);
      }
      JoinedIffAll(ItemTexts(items));
    case Dict(entries) =>
      forall k | 0 <= k < |entries|
        ensures Text(entries[k].value).Ok? <==> Serializable(entries[k].value)
      {
        TextIffSerializable(entries[k].value);
      }
      DictHasText(entries);
    case _ =>
  }

  // ---- Strings and numbers have one spelling ----

  lemma HexIsOnly(c: char)
    requires HexValue(c).Some?
    ensures 0 <= HexValue(c).value < 16 && HexDigit(HexValue(c).value) == c
  {
  }

  lemma EscapeIsOnly(t: string)
    requires t != "" && t[0] == '\\' && ReadEscape(t).Some?
    ensures var (c, n) := ReadEscape(t).value; n <= |t| && t[..n] == EscapeChar(c)
  {
    var (c, n) := ReadEscape(t).value;
    if t[1] == 'u' {
      HexIsOnly(t[4]);
      HexIsOnly(t[5]);
      assert t[..6] == [t[0], t[1], t[2], t[3], t[4], t[5]];
    } else {
      assert t[..2] == [t[0], t[1]];
    }
  }

  /** A string is read from its escaped text and from nothing else. */
  lemma {:induction false} StringIsOnly(t: string)
    requires ReadString(t).Some?
    ensures var (s, rest) := ReadString(t).value; t == Escape(s) + "\"" + rest
    decreases |t|
  {
    hide EscapeChar, ReadEscape;
    if t[0] == '\"' {
      assert t == "" + "\"" + t[1..];
    } else if t[0] == '\\' {
      var (c, n) := ReadEscape(t).value;
      EscapeIsOnly(t);
      EscapeIsNotEmpty(c);
      StringIsOnly(t[n..]);
      OneMore(c, t, n, ReadString(t[n..]).value.0, ReadString(t[n..]).value.1);
    } else {
      PlainIsItself(t[0]);
      StringIsOnly(t[1..]);
      OneMore(t[0], t, 1, ReadString(t[1..]).value.0, ReadString(t[1..]).value.1);
    }
  }

  lemma EscapeIsNotEmpty(c: char)
    ensures |EscapeChar(c)| >= 1
  {
  }

  lemma PlainIsItself(c: char)
    requires c != '\"' && c != '\\' && c as int >= 0x20
    ensures EscapeChar(c) == [c]
  {
  }

  lemma OneMore(c: char, t: string, n: nat, s: string, rest: string)
    requires n <= |t| && t[..n] == EscapeChar(c) && t[n..] == Escape(s) + "\"" + rest
    ensures t == Escape([c] + s) + "\"" + rest
  {
    hide EscapeChar;
    assert ([c] + s)[1..] == s;
    assert t == t[..n] + t[n..];
  }

  lemma DigitIsOnly(c: char)
    requires IsDigit(c)
    ensures DigitValue(c) < 10 && DigitChar(DigitValue(c)) == c
  {
  }

  lemma {:induction false} DigitsAreOnly(t: string, read: nat)
    requires read > 0
    ensures var (n, rest) := ReadDigits(t, read); n > 0 && Digits(read) + t == Digits(n) + rest
    decreases |t|
  {
    if t != "" && IsDigit(t[0]) {
      var d := DigitValue(t[0]);
      DigitIsOnly(t[0]);
      DigitsAreOnly(t[1..], read * 10 + d);
      assert (read * 10 + d) / 10 == read && (read * 10 + d) % 10 == d;
      assert Digits(read * 10 + d) == Digits(read) + [t[0]];
      assert Digits(read) + t == (Digits(read) + [t[0]]) + t[1..];
    }
  }

  /** An integer is read from its decimal text and from nothing else. */
  lemma IntIsOnly(t: string)
    requires ReadInt(t).Some?
    ensures var (v, rest) := ReadInt(t).value; v.Int? && t == Decimal(v.n) + rest
  {
    hide ReadDigits;
    if t[0] == '-' {
      DigitIsOnly(t[1]);
      DigitsAreOnly(t[2..], DigitValue(t[1]));
      OneDigit(DigitValue(t[1]));
      assert t == "-" + ([t[1]] + t[2..]);
    } else if t[0] == '0' {
      DigitIsOnly(t[0]);
      OneDigit(0);
      NoMoreDigits(t[1..]);
      assert t == "0" + t[1..];
    } else {
      DigitIsOnly(t[0]);
      DigitsAreOnly(t[1..], DigitValue(t[0]));
      OneDigit(DigitValue(t[0]));
      assert t == [t[0]] + t[1..];
    }
  }

  lemma OneDigit(d: nat)
    requires d < 10
    ensures Digits(d) == [DigitChar(d)]
  {
  }

  lemma NoMoreDigits(t: string)
    requires t == "" || !IsDigit(t[0])
    ensures ReadDigits(t, 0) == (0, t)
  {
  }

  // ---- Values have one spelling ----

  /** The text of a value in canonical order, if it has one, and what follows it. */
  ghost predicate Spells(t: string, v: Value, rest: string) {
    Canon(v) == v && (Serializable(v) ==> Text(v).Ok? && t == Text(v).value + rest)
  }

  ghost predicate SpellsItems(t: string, items: seq<Value>, rest: string) {
    && items != [] && CanonItems(items) == items
    && (Serializable(List(items)) ==>
          var joined := Joined(ItemTexts(items)); joined.Ok? && t == joined.value + "]" + rest)
  }

  ghost predicate SpellsMembers(t: string, entries: seq<Keyed<Value>>, rest: string) {
    && entries != [] && CanonEntries(entries) == entries && InOrder(entries)
    && (Serializable(Dict(entries)) ==>
          var joined := Joined(Members(EntryTexts(entries))); joined.Ok? && t == joined.value + "}" + rest)
  }

  lemma SpellsList(t: string, items: seq<Value>, rest: string)
    requires t != "" && t[0] == '[' && SpellsItems(t[1..], items, rest)
    ensures Spells(t, List(items), rest)
  {
    hide Joined, CanonItems, ItemTexts;
    if Serializable(List(items)) {
      var joined := Joined(ItemTexts(items));
      assert t == "[" + t[1..];
      assert "[" + (joined.value + "]" + rest) == ("[" + joined.value + "]") + rest;
    }
  }

  lemma SpellsDict(t: string, entries: seq<Keyed<Value>>, rest: string)
    requires t != "" && t[0] == '{' && SpellsMembers(t[1..], entries, rest)
    ensures Spells(t, Dict(entries), rest)
  {
    hide Joined, CanonEntries, EntryTexts, SortByKey, Members, InOrder;
    InOrderIsFixed(entries);
    TextsSort(entries);
    if Serializable(Dict(entries)) {
      var joined := Joined(Members(EntryTexts(entries)));
      assert t == "{" + t[1..];
      assert "{" + (joined.value + "}" + rest) == ("{" + joined.value + "}") + rest;
    }
  }

  lemma EmptySpells(t: string)
    ensures t != "" && t[0] == '[' && |t| > 1 && t[1] == ']' ==> Spells(t, List([]), t[2..])
    ensures t != "" && t[0] == '{' && |t| > 1 && t[1] == '}' ==> Spells(t, Dict([]), t[2..])
  {
  }

  lemma WordSpells(t: string)
    ensures "null" <= t ==> Spells(t, Null, t[4..])
    ensures "true" <= t ==> Spells(t, Bool(true), t[4..])
    ensures "false" <= t ==> Spells(t, Bool(false), t[5..])
  {
  }

  lemma LeafSpells(t: string)
    ensures ReadInt(t).Some? ==> Spells(t, ReadInt(t).value.0, ReadInt(t).value.1)
    ensures t != "" && t[0] == '\"' && ReadString(t[1..]).Some? ==>
      var (s, rest) := ReadString(t[1..]).value; Spells(t, Str(s), rest)
  {
    hide ReadInt, ReadString, Decimal, Escape;
    if ReadInt(t).Some? {
      IntIsOnly(t);
      TextIffSerializable(ReadInt(t).value.0);
    }
    if t != "" && t[0] == '\"' && ReadString(t[1..]).Some? {
      StringIsOnly(t[1..]);
      var (s, rest) := ReadString(t[1..]).value;
      assert t == "\"" + t[1..];
      assert "\"" + (Escape(s) + "\"" + rest) == Quoted(s) + rest;
    }
  }

  /** A value is read from its canonical text and from nothing else. */
  lemma {:induction false} ValueIsOnly(t: string)
    requires ReadValue(t).Some?
    ensures Spells(t, ReadValue(t).value.0, ReadValue(t).value.1)
    decreases |t|, 0
  {
    hide Spells, ReadString, ReadInt, ReadItems, ReadMembers;
    EmptySpells(t);
    WordSpells(t);
    LeafSpells(t);
    if t[0] == '[' && !(|t| > 1 && t[1] == ']') {
      ItemsAreOnly(t[1..]);
      SpellsList(t, ReadItems(t[1..]).value.0, ReadItems(t[1..]).value.1);
    } else if t[0] == '{' && !(|t| > 1 && t[1] == '}') {
      MembersAreOnly(t[1..]);
      SpellsDict(t, ReadMembers(t[1..]).value.0, ReadMembers(t[1..]).value.1);
    }
  }

  lemma LastItem(t: string, item: Value, rest: string)
    requires Spells(t, item, rest) && rest != "" && rest[0] == ']'
    ensures SpellsItems(t, [item], rest[1..])
  {
    hide Text, Canon;
    assert [item][1..] == [] && CanonItems([item]) == [Canon(item)];
    if Serializable(List([item])) {
      assert Serializable([item][0]);
      assert ItemTexts([item]) == [Text(item)];
      assert rest == "]" + rest[1..];
      assert Text(item).value + ("]" + rest[1..]) == Text(item).value + "]" + rest[1..];
    }
  }

  lemma NextItem(t: string, item: Value, rest: string, items: seq<Value>, after: string)
    requires Spells(t, item, rest) && rest != "" && rest[0] == ',' && SpellsItems(rest[1..], items, after)
    ensures SpellsItems(t, [item] + items, after)
  {
    hide Text, Canon;
    var all := [item] + items;
    assert all[1..] == items;
    if Serializable(List(all)) {
      assert Serializable(all[0]);
      assert forall k | 0 <= k < |items| :: items[k] == all[k + 1];
      assert ItemTexts(all) == [Text(item)] + ItemTexts(items);
      assert ItemTexts(all)[1..] == ItemTexts(items);
      var joined := Joined(ItemTexts(items)).value;
      assert rest == "," + rest[1..];
      assert Text(item).value + ("," + (joined + "]" + after)) == (Text(item).value + "," + joined) + "]" + after;
    }
  }

  lemma {:induction false} ItemsAreOnly(t: string)
    requires ReadItems(t).Some?
    ensures SpellsItems(t, ReadItems(t).value.0, ReadItems(t).value.1)
    decreases |t|, 1
  {
    hide Spells, SpellsItems, ReadValue;
    var (item, rest) := ReadValue(t).value;
    ValueIsOnly(t);
    if rest[0] == ']' {
      LastItem(t, item, rest);
    } else {
      ItemsAreOnly(rest[1..]);
      NextItem(t, item, rest, ReadItems(rest[1..]).value.0, ReadItems(rest[1..]).value.1);
    }
  }

  /** The text of one member, up to what follows its value. */
  lemma MemberText(t: string, key: string, afterKey: string, value: Value, rest: string)
    requires t != "" && t[0] == '\"' && t[1..] == Escape(key) + "\"" + afterKey
    requires Text(value).Ok?
    requires afterKey != "" && afterKey[0] == ':' && afterKey[1..] == Text(value).value + rest
    ensures t == (Quoted(key) + ":" + Text(value).value) + rest
  {
    hide Text, Escape;
    assert t == "\"" + t[1..] && afterKey == ":" + afterKey[1..];
  }

  lemma LastMember(t: string, key: string, afterKey: string, value: Value, rest: string)
    requires t != "" && t[0] == '\"' && t[1..] == Escape(key) + "\"" + afterKey
    requires afterKey != "" && afterKey[0] == ':' && Spells(afterKey[1..], value, rest)
    requires rest != "" && rest[0] == '}'
    ensures SpellsMembers(t, [Keyed(key, value)], rest[1..])
  {
    hide Text, Canon, Escape;
    var entries := [Keyed(key, value)];
    assert entries[1..] == [] && CanonEntries(entries) == [Keyed(key, Canon(value))];
    if Serializable(Dict(entries)) {
      assert Serializable(entries[0].value);
      MemberText(t, key, afterKey, value, rest);
      assert Members(EntryTexts(entries)) == [Member(Keyed(key, Text(value)))];
      assert rest == "}" + rest[1..];
      var member := Quoted(key) + ":" + Text(value).value;
      assert member + ("}" + rest[1..]) == member + "}" + rest[1..];
    }
  }

  lemma NextMember(
    t: string, key: string, afterKey: string, value: Value, rest: string, entries: seq<Keyed<Value>>, after: string)
    requires t != "" && t[0] == '\"' && t[1..] == Escape(key) + "\"" + afterKey
    requires afterKey != "" && afterKey[0] == ':' && Spells(afterKey[1..], value, rest)
    requires rest != "" && rest[0] == ',' && SpellsMembers(rest[1..], entries, after)
    requires !KeyLess(entries[0].key, key)
    ensures SpellsMembers(t, [Keyed(key, value)] + entries, after)
  {
    hide Text, Canon, Escape, KeyLess;
    var all := [Keyed(key, value)] + entries;
    assert all[1..] == entries;
    assert forall k | 0 <= k < |entries| :: all[k + 1] == entries[k];
    InOrderCons(Keyed(key, value), entries);
    if Serializable(Dict(all)) {
      assert Serializable(all[0].value);
      MemberText(t, key, afterKey, value, rest);
      assert Members(EntryTexts(all)) == [Member(Keyed(key, Text(value)))] + Members(EntryTexts(entries));
      assert Members(EntryTexts(all))[1..] == Members(EntryTexts(entries));
      var member, joined := Quoted(key) + ":" + Text(value).value, Joined(Members(EntryTexts(entries))).value;
      assert rest == "," + rest[1..];
      assert member + ("," + (joined + "}" + after)) == (member + "," + joined) + "}" + after;
    }
  }

  lemma InOrderCons(first: Keyed<Value>, entries: seq<Keyed<Value>>)
    requires InOrder(entries) && entries != [] && !KeyLess(entries[0].key, first.key)
    ensures InOrder([first] + entries)
  {
    var all := [first] + entries;
    forall i | 0 <= i < |all| - 1
      ensures !KeyLess(all[i + 1].key, all[i].key)
    {
      if i > 0 {
        assert !KeyLess(entries[i - 1 + 1].key, entries[i - 1].key);
      }
    }
  }

  lemma {:induction false} MembersAreOnly(t: string)
    requires ReadMembers(t).Some?
    ensures SpellsMembers(t, ReadMembers(t).value.0, ReadMembers(t).value.1)
    decreases |t|, 1
  {
    hide Spells, SpellsMembers, ReadValue, ReadString, KeyLess, Escape;
    var (key, afterKey) := ReadString(t[1..]).value;
    var (value, rest) := ReadValue(afterKey[1..]).value;
    StringIsOnly(t[1..]);
    ValueIsOnly(afterKey[1..]);
    if rest[0] == '}' {
      LastMember(t, key, afterKey, value, rest);
    } else {
      MembersAreOnly(rest[1..]);
      NextMember(t, key, afterKey, value, rest, ReadMembers(rest[1..]).value.0, ReadMembers(rest[1..]).value.1);
    }
  }

  // ---- The canonical bytes ----

  /** These bytes are what `dumps` writes of this value, its dicts in canonical order, if and only
      if the strict reader reads the value from them and the value is within the domain. */
  lemma CanonicalBytesExactly(b: bytes, v: Value)
    ensures (Dumps(v) == Ok(b) && Canon(v) == v) <==> (Loads(b) == Some(v) && Serializable(v))
  {
    hide ReadValue, Text, Canon, Serializable, Encode, Utf8Codec.Decode;
    TextIffSerializable(v);
    if Dumps(v) == Ok(b) && Canon(v) == v {
      LoadsDumps(v);
    }
    if Loads(b) == Some(v) && Serializable(v) {
      var text := Utf8Codec.Decode(b).value;
      ValueIsOnly(text);
      Utf8Codec.EncodeDecode(b);
      assert Text(v).value + "" == Text(v).value;
    }
  }
}
