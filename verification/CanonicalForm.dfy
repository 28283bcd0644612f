/** What canonical text depends on: the value a JSON reader would see, and nothing else. */
module CanonicalForm {
  import opened KeyOrder
  import opened KeySorting
  import opened CanonicalJson
  import Json

  // ---- Canonical key order, at every level ----

  function CanonItems(items: seq<Value>): (r: seq<Value>)
    ensures |r| == |items| && forall k | 0 <= k < |items| :: r[k] == Canon(items[k])
    decreases items
  {
    if items == [] then [] else [Canon(items[0])] + CanonItems(items[1..])
  }

  function CanonEntries(entries: seq<Keyed<Value>>): (r: seq<Keyed<Value>>)
    ensures |r| == |entries|
    ensures forall k | 0 <= k < |entries| :: r[k] == Keyed(entries[k].key, Canon(entries[k].value))
    decreases entries
  {
    if entries == [] then [] else [Keyed(entries[0].key, Canon(entries[0].value))] + CanonEntries(entries[1..])
  }

  function Canon(v: Value): Value
    decreases v
  {
    match v
    case List(items) => List(CanonItems(items))
    case Dict(entries) => Dict(SortByKey(CanonEntries(entries)))
    case _ => v
  }

  // ---- Canonical order does not change the text ----

  lemma {:induction false} TextsInsert(entry: Keyed<Value>, sorted: seq<Keyed<Value>>)
    ensures EntryTexts(Insert(entry, sorted)) == Insert(Keyed(entry.key, Text(entry.value)), EntryTexts(sorted))
  {
    if sorted != [] && KeyLess(sorted[0].key, entry.key) {
      TextsInsert(entry, sorted[1..]);
    }
  }

  /** Sorting entries and taking their texts commute. */
  lemma {:induction false} TextsSort(entries: seq<Keyed<Value>>)
    ensures EntryTexts(SortByKey(entries)) == SortByKey(EntryTexts(entries))
  {
    if entries != [] {
      TextsSort(entries[1..]);
      TextsInsert(entries[0], SortByKey(entries[1..]));
    }
  }

  lemma {:induction false} TextOfCanon(v: Value)
    ensures Text(Canon(v)) == Text(v)
    decreases v
  {
    match v
    case List(items) =>
      forall k | 0 <= k < |items|
        ensures Text(CanonItems(items)[k]) == Text(items[k])
      {
        TextOfCanon(items[k]);
      }
      assert ItemTexts(CanonItems(items)) == ItemTexts(items);
    case Dict(entries) =>
      var canon := CanonEntries(entries);
      forall k | 0 <= k < |entries|
        ensures Text(canon[k].value) == Text(entries[k].value)
      {
        TextOfCanon(entries[k].value);
      }
      assert EntryTexts(canon) == EntryTexts(entries);
      TextsSort(canon);
      SortIsInOrder(EntryTexts(entries));
      InOrderIsFixed(SortByKey(EntryTexts(entries)));
    case _ =>
  }

  // ---- The value a reader sees ----

  /** A dict's keys are distinct, at every level, and every part is of a supported type. */
  ghost predicate WellKeyed(v: Value)
    decreases v
  {
    match v
    case List(items) => forall k | 0 <= k < |items| :: WellKeyed(items[k])
    case Dict(entries) => DistinctKeys(entries) && forall k | 0 <= k < |entries| :: WellKeyed(entries[k].value)
    case Unsupported => false
    case _ => true
  }

  function MeaningItems(items: seq<Value>): (r: seq<Json.Json>)
    ensures |r| == |items| && forall k | 0 <= k < |items| :: r[k] == Meaning(items[k])
    decreases items
  {
    if items == [] then [] else [Meaning(items[0])] + MeaningItems(items[1..])
  }

  function MeaningEntries(entries: seq<Keyed<Value>>): (r: map<string, Json.Json>)
    ensures forall key :: key in r <==> exists k :: 0 <= k < |entries| && entries[k].key == key
    ensures forall key | key in r ::
      exists k :: 0 <= k < |entries| && entries[k].key == key && r[key] == Meaning(entries[k].value)
    decreases entries
  {
    if entries == [] then map[]
    else
      var r := MeaningEntries(entries[1..])[entries[0].key := Meaning(entries[0].value)];
      assert forall k | 0 < k < |entries| :: entries[k] == entries[1..][k - 1];
      r
  }

  /** Python equality of the supported values: dicts are equal whatever their insertion order. */
  function Meaning(v: Value): Json.Json
    decreases v
  {
    match v
    case Null => Json.Null
    case Bool(b) => Json.Bool(b)
    case Int(n) => Json.Int(n)
    case Str(s) => Json.Str(s)
    case List(items) => Json.Arr(MeaningItems(items))
    case Dict(entries) => Json.Obj(MeaningEntries(entries))
    case Unsupported => Json.Null
  }

  lemma EntryMeaning(entries: seq<Keyed<Value>>, k: nat)
    requires DistinctKeys(entries) && k < |entries|
    ensures entries[k].key in MeaningEntries(entries)
    ensures MeaningEntries(entries)[entries[k].key] == Meaning(entries[k].value)
  {
    var key := entries[k].key;
    assert key in MeaningEntries(entries);
    var j :| 0 <= j < |entries| && entries[j].key == key && MeaningEntries(entries)[key] == Meaning(entries[j].value);
    assert j == k;
  }

  /** Values a reader cannot tell apart have the same canonical form. */
  lemma {:induction false} SameMeaningSameCanon(v: Value, w: Value)
    requires WellKeyed(v) && WellKeyed(w) && Meaning(v) == Meaning(w)
    ensures Canon(v) == Canon(w)
    decreases v
  {
    match v
    case List(items) =>
      assert w.List?;
      assert MeaningItems(items) == MeaningItems(w.items);
      forall k | 0 <= k < |items|
        ensures Canon(items[k]) == Canon(w.items[k])
      {
        assert MeaningItems(items)[k] == MeaningItems(w.items)[k];
        SameMeaningSameCanon(items[k], w.items[k]);
      }
      assert CanonItems(items) == CanonItems(w.items);
    case Dict(entries) =>
      assert w.Dict?;
      forall k | 0 <= k < |entries|
        ensures HasCounterpart(w.entries, entries[k])
      {
        EntryMeaning(entries, k);
        var key := entries[k].key;
        assert key in MeaningEntries(w.entries);
        var j :| 0 <= j < |w.entries| && w.entries[j].key == key
                 && MeaningEntries(w.entries)[key] == Meaning(w.entries[j].value);
        SameMeaningSameCanon(entries[k].value, w.entries[j].value);
      }
      SameEntriesSameSort(entries, w.entries);
    case _ =>
  }

  lemma CanonKeysDistinct(entries: seq<Keyed<Value>>)
    requires DistinctKeys(entries)
    ensures Ascending(SortByKey(CanonEntries(entries)))
  {
    SortIsAscending(CanonEntries(entries));
  }

  lemma SameEntriesSameSort(a: seq<Keyed<Value>>, b: seq<Keyed<Value>>)
    requires DistinctKeys(a) && DistinctKeys(b)
    requires MeaningEntries(a).Keys == MeaningEntries(b).Keys
    requires forall k | 0 <= k < |a| :: HasCounterpart(b, a[k])
    ensures SortByKey(CanonEntries(a)) == SortByKey(CanonEntries(b))
  {
    var ca, cb := CanonEntries(a), CanonEntries(b);
    CanonKeysDistinct(a);
    CanonKeysDistinct(b);
    forall x
      ensures x in SortByKey(ca) <==> x in SortByKey(cb)
    {
      SortMembers(ca, x);
      SortMembers(cb, x);
      SameMember(a, b, x);
    }
    AscendingIsUnique(SortByKey(ca), SortByKey(cb));
  }

  ghost predicate HasCounterpart(b: seq<Keyed<Value>>, entry: Keyed<Value>) {
    exists j :: 0 <= j < |b| && b[j].key == entry.key && Canon(b[j].value) == Canon(entry.value)
  }

  lemma SameMember(a: seq<Keyed<Value>>, b: seq<Keyed<Value>>, x: Keyed<Value>)
    requires DistinctKeys(a) && DistinctKeys(b)
    requires MeaningEntries(a).Keys == MeaningEntries(b).Keys
    requires forall k | 0 <= k < |a| :: HasCounterpart(b, a[k])
    ensures x in CanonEntries(a) <==> x in CanonEntries(b)
  {
    var ca, cb := CanonEntries(a), CanonEntries(b);
    if x in ca {
      var k :| 0 <= k < |ca| && ca[k] == x;
      assert HasCounterpart(b, a[k]);
      var j :| 0 <= j < |b| && b[j].key == a[k].key && Canon(b[j].value) == Canon(a[k].value);
      assert cb[j] == x;
    }
    if x in cb {
      var j :| 0 <= j < |cb| && cb[j] == x;
      EntryMeaning(b, j);
      assert b[j].key in MeaningEntries(a);
      var k :| 0 <= k < |a| && a[k].key == b[j].key;
      assert HasCounterpart(b, a[k]);
      var i :| 0 <= i < |b| && b[i].key == a[k].key && Canon(b[i].value) == Canon(a[k].value);
      assert i == j;
      assert ca[k] == x;
    }
  }

  /** The canonical form means the same value. */
  lemma {:induction false} CanonKeepsMeaning(v: Value)
    requires WellKeyed(v)
    ensures WellKeyed(Canon(v)) && Meaning(Canon(v)) == Meaning(v)
    decreases v
  {
    match v
    case List(items) =>
      forall k | 0 <= k < |items|
        ensures WellKeyed(CanonItems(items)[k]) && Meaning(CanonItems(items)[k]) == Meaning(items[k])
      {
        CanonKeepsMeaning(items[k]);
      }
      assert MeaningItems(CanonItems(items)) == MeaningItems(items);
    case Dict(entries) =>
      forall k | 0 <= k < |entries|
        ensures WellKeyed(Canon(entries[k].value)) && Meaning(Canon(entries[k].value)) == Meaning(entries[k].value)
      {
        CanonKeepsMeaning(entries[k].value);
      }
      assert Means(entries);
      SortedEntriesMean(entries);
    case _ =>
  }

  ghost predicate Means(entries: seq<Keyed<Value>>) {
    forall k | 0 <= k < |entries| ::
      WellKeyed(Canon(entries[k].value)) && Meaning(Canon(entries[k].value)) == Meaning(entries[k].value)
  }

  /** An entry and its canonical counterpart say the same. */
  lemma CanonEntryMeans(entries: seq<Keyed<Value>>, sorted: seq<Keyed<Value>>, j: nat, k: nat)
    requires DistinctKeys(entries) && DistinctKeys(sorted) && Means(entries)
    requires j < |entries| && k < |sorted| && sorted[k] == CanonEntries(entries)[j]
    ensures entries[j].key in MeaningEntries(entries) && entries[j].key in MeaningEntries(sorted)
    ensures MeaningEntries(sorted)[entries[j].key] == MeaningEntries(entries)[entries[j].key]
    ensures WellKeyed(sorted[k].value)
  {
    EntryMeaning(sorted, k);
    EntryMeaning(entries, j);
  }

  lemma SortedIsDistinct(entries: seq<Keyed<Value>>)
    requires DistinctKeys(entries)
    ensures DistinctKeys(SortByKey(CanonEntries(entries)))
  {
    var sorted := SortByKey(CanonEntries(entries));
    CanonKeysDistinct(entries);
    forall i, j | 0 <= i < j < |sorted|
      ensures sorted[i].key != sorted[j].key
    {
      KeyOrderIsStrictAndTotal(sorted[i].key, sorted[j].key);
    }
  }

  lemma SortedFrom(entries: seq<Keyed<Value>>, k: nat) returns (j: nat)
    requires k < |SortByKey(CanonEntries(entries))|
    ensures j < |entries| && SortByKey(CanonEntries(entries))[k] == CanonEntries(entries)[j]
  {
    SortMembers(CanonEntries(entries), SortByKey(CanonEntries(entries))[k]);
    j :| 0 <= j < |entries| && SortByKey(CanonEntries(entries))[k] == CanonEntries(entries)[j];
  }

  lemma SortedTo(entries: seq<Keyed<Value>>, j: nat) returns (k: nat)
    requires j < |entries|
    ensures k < |SortByKey(CanonEntries(entries))| && SortByKey(CanonEntries(entries))[k] == CanonEntries(entries)[j]
  {
    SortMembers(CanonEntries(entries), CanonEntries(entries)[j]);
    k :| 0 <= k < |SortByKey(CanonEntries(entries))| && SortByKey(CanonEntries(entries))[k] == CanonEntries(entries)[j];
  }

  lemma SortedEntriesMean(entries: seq<Keyed<Value>>)
    requires DistinctKeys(entries) && Means(entries)
    ensures var sorted := SortByKey(CanonEntries(entries));
      && DistinctKeys(sorted) && (forall k | 0 <= k < |sorted| :: WellKeyed(sorted[k].value))
      && MeaningEntries(sorted) == MeaningEntries(entries)
  {
    var sorted := SortByKey(CanonEntries(entries));
    SortedIsDistinct(entries);
    forall k | 0 <= k < |sorted|
      ensures WellKeyed(sorted[k].value)
    {
      var j := SortedFrom(entries, k);
      CanonEntryMeans(entries, sorted, j, k);
    }
    forall key
      ensures key in MeaningEntries(sorted) <==> key in MeaningEntries(entries)
      ensures key in MeaningEntries(sorted) ==> MeaningEntries(sorted)[key] == MeaningEntries(entries)[key]
    {
      if key in MeaningEntries(sorted) {
        var k: nat :| k < |sorted| && sorted[k].key == key;
        var j := SortedFrom(entries, k);
        CanonEntryMeans(entries, sorted, j, k);
      } else if key in MeaningEntries(entries) {
        var j: nat :| j < |entries| && entries[j].key == key;
        var k := SortedTo(entries, j);
        CanonEntryMeans(entries, sorted, j, k);
      }
    }
  }
}
