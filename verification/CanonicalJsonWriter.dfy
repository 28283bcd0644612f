/** `dump` as the source has it: a recursive writer into a byte sink. */
module CanonicalJsonWriter {
  import opened Wrappers
  import opened Utf8
  import Utf8Codec
  import opened KeySorting
  import opened CanonicalJson
  import opened CanonicalForm

  class Sink {
    var written: bytes

    constructor ()
      ensures written == []
    {
      written := [];
    }

    method Write(text: string)
      modifies this
      ensures written == old(written) + Encode(text)
    {
      written := written + Encode(text);
    }
  }

  /** What writing a text after another text leaves. */
  lemma WrittenAfter(base: bytes, a: string, b: string)
    ensures base + Encode(a) + Encode(b) == base + Encode(a + b)
  {
    Utf8Codec.EncodeConcat(a, b);
    Utf8Codec.Associative(base, Encode(a), Encode(b));
  }

  lemma NothingWritten(base: bytes)
    ensures base + Encode("") == base
  {
  }

  // ---- Joining from the left ----

  function Comma(i: nat): string { if i > 0 then "," else "" }

  predicate AllOk(texts: seq<Result<string, Error>>) {
    forall k | 0 <= k < |texts| :: texts[k].Ok?
  }

  lemma {:induction false} JoinedAppends(texts: seq<Result<string, Error>>, text: string)
    requires AllOk(texts)
    ensures Joined(texts).Ok?
    ensures Joined(texts + [Ok(text)]) == Ok(Joined(texts).value + Comma(|texts|) + text)
  {
    if |texts| == 0 {
      assert texts + [Ok(text)] == [Ok(text)];
      assert "" + "" + text == text;
    } else {
      var all := texts + [Ok(text)];
      JoinedAppends(texts[1..], text);
      assert all[0] == texts[0] && all[1..] == texts[1..] + [Ok(text)];
      if |texts| == 1 {
        assert texts[1..] + [Ok(text)] == [Ok(text)];
      } else {
        var first, rest := texts[0].value, Joined(texts[1..]).value;
        assert first + "," + (rest + "," + text) == first + "," + rest + "," + text;
      }
    }
  }

  /** The first error is the join's error. */
  lemma {:induction false} JoinedStops(texts: seq<Result<string, Error>>, i: nat)
    requires i < |texts| && AllOk(texts[..i]) && texts[i].Err?
    ensures Joined(texts) == texts[i]
  {
    if i > 0 {
      assert texts[..i][0].Ok?;
      assert texts[1..][..i - 1] == texts[..i][1..];
      JoinedStops(texts[1..], i - 1);
    }
  }

  lemma JoinedStep(texts: seq<Result<string, Error>>, i: nat)
    requires i < |texts| && AllOk(texts[..i]) && texts[i].Ok?
    ensures AllOk(texts[..i + 1]) && Joined(texts[..i]).Ok? && Joined(texts[..i + 1]).Ok?
    ensures Joined(texts[..i + 1]).value == Joined(texts[..i]).value + Comma(i) + texts[i].value
  {
    JoinedAppends(texts[..i], texts[i].value);
    assert texts[..i + 1] == texts[..i] + [texts[i]];
  }

  /** What the sink holds after i of the joined texts. */
  ghost function Opened(base: bytes, open: string, texts: seq<Result<string, Error>>, i: nat): bytes
    requires i <= |texts| && AllOk(texts[..i])
  {
    if Joined(texts[..i]).Ok? then base + Encode(open + Joined(texts[..i]).value) else base
  }

  lemma OpenedStep(base: bytes, open: string, texts: seq<Result<string, Error>>, i: nat)
    requires i < |texts| && AllOk(texts[..i]) && texts[i].Ok?
    ensures AllOk(texts[..i + 1])
    ensures Opened(base, open, texts, i) + Encode(Comma(i)) + Encode(texts[i].value) == Opened(base, open, texts, i + 1)
    ensures i == 0 ==> Opened(base, open, texts, i) + Encode(texts[i].value) == Opened(base, open, texts, i + 1)
  {
    hide Encode, Joined;
    JoinedStep(texts, i);
    NothingWritten(Opened(base, open, texts, i));
    var inner := open + Joined(texts[..i]).value;
    WrittenAfter(base, inner, Comma(i));
    WrittenAfter(base, inner + Comma(i), texts[i].value);
    assert inner + Comma(i) + texts[i].value == open + Joined(texts[..i + 1]).value;
  }

  lemma OpenedStart(base: bytes, open: string, texts: seq<Result<string, Error>>)
    ensures Opened(base, open, texts, 0) == base + Encode(open)
  {
    assert texts[..0] == [];
    assert open + "" == open;
  }

  lemma OpenedEnd(base: bytes, open: string, texts: seq<Result<string, Error>>, close: string)
    requires AllOk(texts)
    ensures texts[..|texts|] == texts && Joined(texts).Ok?
    ensures Opened(base, open, texts, |texts|) + Encode(close) == base + Encode(Bracketed(open, Joined(texts), close).value)
  {
    assert texts[..|texts|] == texts;
    AllJoined(texts);
    WrittenAfter(base, open + Joined(texts).value, close);
  }

  lemma AllJoined(texts: seq<Result<string, Error>>)
    requires AllOk(texts)
    ensures Joined(texts).Ok?
  {
    if texts != [] {
      JoinedAppends(texts, "");
    }
  }

  // ---- Writing ----

  /** `_serialize_str`. */
  method SerializeStr(s: string, sink: Sink)
    modifies sink
    ensures sink.written == old(sink.written) + Encode(Quoted(s))
  {
    ghost var base := sink.written;
    sink.Write("\"");
    sink.Write(Escape(s));
    sink.Write("\"");
    WrittenAfter(base, "\"", Escape(s));
    WrittenAfter(base, "\"" + Escape(s), "\"");
  }

  /** What `dump` leaves: the canonical text after what was there, or its error. */
  ghost predicate Dumped(v: Value, base: bytes, r: Result<(), Error>, written: bytes) {
    match Text(v)
    case Ok(text) => r == Ok(()) && written == base + Encode(text)
    case Err(why) => r == Err(why)
  }

  method Dump(v: Value, sink: Sink) returns (r: Result<(), Error>)
    modifies sink
    ensures Dumped(v, old(sink.written), r, sink.written)
    decreases v, 2
  {
    match v
    case Null => sink.Write("null"); return Ok(());
    case Bool(b) => sink.Write(if b then "true" else "false"); return Ok(());
    case Int(n) =>
      if n < INT_MIN || n > INT_MAX {
        return Err(IntegerDomain);
      }
      sink.Write(Decimal(n));
      return Ok(());
    case Str(s) => SerializeStr(s, sink); return Ok(());
    case List(items) => r := DumpList(v, sink);
    case Dict(entries) => r := DumpDict(v, sink);
    case Unsupported => return Err(UnsupportedType);
  }

  method DumpList(v: Value, sink: Sink) returns (r: Result<(), Error>)
    requires v.List?
    modifies sink
    ensures Dumped(v, old(sink.written), r, sink.written)
    decreases v, 1
  {
    var items := v.items;
    if items == [] {
      sink.Write("[]");
      return Ok(());
    }
    ghost var base := sink.written;
    ghost var texts := ItemTexts(items);
    sink.Write("[");
    OpenedStart(base, "[", texts);
    for i := 0 to |items|
      invariant AllOk(texts[..i])
      invariant sink.written == Opened(base, "[", texts, i)
    {
      if i > 0 {
        sink.Write(",");
      }
      r := Dump(items[i], sink);
      if r.Err? {
        JoinedStops(texts, i);
        return;
      }
      OpenedStep(base, "[", texts, i);
    }
    assert texts[..|texts|] == texts;
    sink.Write("]");
    OpenedEnd(base, "[", texts, "]");
    return Ok(());
  }

  /** One member: its key, a colon, its value. */
  method DumpMember(v: Value, sorted: seq<Keyed<Value>>, i: nat, sink: Sink) returns (r: Result<(), Error>)
    requires v.Dict? && sorted == SortByKey(v.entries) && i < |sorted|
    modifies sink
    ensures match Member(Keyed(sorted[i].key, Text(sorted[i].value)))
      case Ok(text) => r == Ok(()) && sink.written == old(sink.written) + Encode(text)
      case Err(why) => r == Err(why)
    decreases v, 0
  {
    ghost var base := sink.written;
    var entry := sorted[i];
    SortMembers(v.entries, entry);
    ghost var k :| 0 <= k < |v.entries| && v.entries[k] == entry;
    SerializeStr(entry.key, sink);
    sink.Write(":");
    WrittenAfter(base, Quoted(entry.key), ":");
    r := Dump(entry.value, sink);
    if r.Ok? {
      WrittenAfter(base, Quoted(entry.key) + ":", Text(entry.value).value);
    }
  }

  method DumpDict(v: Value, sink: Sink) returns (r: Result<(), Error>)
    requires v.Dict?
    modifies sink
    ensures Dumped(v, old(sink.written), r, sink.written)
    decreases v, 1
  {
    if v.entries == [] {
      sink.Write("{}");
      return Ok(());
    }
    var sorted := SortByKey(v.entries);
    ghost var base := sink.written;
    ghost var texts := Members(EntryTexts(sorted));
    TextsSort(v.entries);
    sink.Write("{");
    OpenedStart(base, "{", texts);
    for i := 0 to |sorted|
      invariant AllOk(texts[..i])
      invariant sink.written == Opened(base, "{", texts, i)
    {
      assert texts[i] == Member(Keyed(sorted[i].key, Text(sorted[i].value)));
      if i > 0 {
        sink.Write(",");
      }
      r := DumpMember(v, sorted, i, sink);
      if r.Err? {
        JoinedStops(texts, i);
        return;
      }
      OpenedStep(base, "{", texts, i);
    }
    assert texts[..|texts|] == texts;
    sink.Write("}");
    OpenedEnd(base, "{", texts, "}");
    return Ok(());
  }

  /** `dumps`. */
  method DumpsOf(v: Value) returns (r: Result<bytes, Error>)
    ensures r == Dumps(v)
  {
    var sink := new Sink();
    var dumped := Dump(v, sink);
    NothingWritten([]);
    if dumped.Err? {
      return Err(dumped.error);
    }
    assert [] + Encode(Text(v).value) == Encode(Text(v).value);
    return Ok(sink.written);
  }
}
