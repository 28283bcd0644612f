/** Sorting the entries of an object by key: the result is a strictly ascending permutation,
    and there is only one. */
module KeySorting {
  import opened KeyOrder

  datatype Keyed<+T> = Keyed(key: string, value: T)

  function Insert<T>(entry: Keyed<T>, sorted: seq<Keyed<T>>): seq<Keyed<T>> {
    if sorted == [] then [entry]
    else if KeyLess(sorted[0].key, entry.key) then [sorted[0]] + Insert(entry, sorted[1..])
    else [entry] + sorted
  }

  /** `sorted(obj.items(), key=...)`. */
  function SortByKey<T>(entries: seq<Keyed<T>>): (sorted: seq<Keyed<T>>) {
    if entries == [] then [] else Insert(entries[0], SortByKey(entries[1..]))
  }

  ghost predicate DistinctKeys<T(!new)>(entries: seq<Keyed<T>>) {
    forall i, j | 0 <= i < j < |entries| :: entries[i].key != entries[j].key
  }

  ghost predicate Ascending<T(!new)>(entries: seq<Keyed<T>>) {
    forall i, j | 0 <= i < j < |entries| :: KeyLess(entries[i].key, entries[j].key)
  }

  // ---- A permutation ----

  lemma {:induction false} InsertKeepsEntries<T>(entry: Keyed<T>, sorted: seq<Keyed<T>>)
    ensures multiset(Insert(entry, sorted)) == multiset(sorted) + multiset{entry}
    ensures |Insert(entry, sorted)| == |sorted| + 1
  {
    if sorted != [] && KeyLess(sorted[0].key, entry.key) {
      InsertKeepsEntries(entry, sorted[1..]);
      assert sorted == [sorted[0]] + sorted[1..];
    }
  }

  lemma {:induction false} SortIsPermutation<T>(entries: seq<Keyed<T>>)
    ensures multiset(SortByKey(entries)) == multiset(entries)
    ensures |SortByKey(entries)| == |entries|
  {
    if entries != [] {
      SortIsPermutation(entries[1..]);
      InsertKeepsEntries(entries[0], SortByKey(entries[1..]));
      assert entries == [entries[0]] + entries[1..];
    }
  }

  lemma SameMembers<T>(a: seq<T>, b: seq<T>, x: T)
    requires multiset(a) == multiset(b)
    ensures x in a <==> x in b
  {
    assert x in a <==> x in multiset(a);
    assert x in b <==> x in multiset(b);
  }

  lemma SortMembers<T>(entries: seq<Keyed<T>>, x: Keyed<T>)
    ensures x in SortByKey(entries) <==> x in entries
  {
    SortIsPermutation(entries);
    SameMembers(SortByKey(entries), entries, x);
  }

  // ---- Strictly ascending ----

  lemma {:induction false} InsertKeepsAscending<T(!new)>(entry: Keyed<T>, sorted: seq<Keyed<T>>)
    requires Ascending(sorted) && forall k | 0 <= k < |sorted| :: sorted[k].key != entry.key
    ensures Ascending(Insert(entry, sorted))
  {
    hide KeyLess;
    if sorted != [] {
      var first, rest := sorted[0], sorted[1..];
      KeyOrderIsStrictAndTotal(first.key, entry.key);
      if KeyLess(first.key, entry.key) {
        var inserted := Insert(entry, rest);
        InsertKeepsAscending(entry, rest);
        InsertKeepsEntries(entry, rest);
        forall j | 0 <= j < |inserted|
          ensures KeyLess(first.key, inserted[j].key)
        {
          assert inserted[j] in multiset(inserted);
        }
      } else {
        forall j | 0 < j < |sorted|
          ensures KeyLess(entry.key, sorted[j].key)
        {
          KeyOrderIsTransitive(entry.key, first.key, sorted[j].key);
        }
      }
    }
  }

  /** Distinct keys come out strictly ascending. */
  lemma {:induction false} SortIsAscending<T(!new)>(entries: seq<Keyed<T>>)
    requires DistinctKeys(entries)
    ensures Ascending(SortByKey(entries))
  {
    if entries != [] {
      var rest := SortByKey(entries[1..]);
      SortIsAscending(entries[1..]);
      forall k | 0 <= k < |rest|
        ensures rest[k].key != entries[0].key
      {
        SortMembers(entries[1..], rest[k]);
      }
      InsertKeepsAscending(entries[0], rest);
    }
  }

  lemma AscendingTail<T(!new)>(a: seq<Keyed<T>>)
    requires Ascending(a) && a != []
    ensures Ascending(a[1..])
    ensures forall x | x in a[1..] :: KeyLess(a[0].key, x.key)
  {
  }

  /** Two ascending sequences with the same members are the same. */
  lemma {:induction false} AscendingIsUnique<T(!new)>(a: seq<Keyed<T>>, b: seq<Keyed<T>>)
    requires Ascending(a) && Ascending(b)
    requires forall x :: x in a <==> x in b
    ensures a == b
  {
    assert b != [] ==> b[0] in b;
    if a != [] {
      assert a[0] in b;
      AscendingTail(a);
      AscendingTail(b);
      assert b[0] in a;
      assert a[0] == b[0] by {
        if a[0] != b[0] {
          assert a[0] in b[1..] && b[0] in a[1..];
          KeyOrderIsStrictAndTotal(a[0].key, b[0].key);
        }
      }
      forall x
        ensures x in a[1..] <==> x in b[1..]
      {
        KeyOrderIsStrictAndTotal(a[0].key, a[0].key);
        assert x in a <==> x == a[0] || x in a[1..];
        assert x in b <==> x == b[0] || x in b[1..];
      }
      AscendingIsUnique(a[1..], b[1..]);
      assert a == [a[0]] + a[1..] && b == [b[0]] + b[1..];
    }
  }

  /** What is in order stays as it is. */
  ghost predicate InOrder<T(!new)>(entries: seq<Keyed<T>>) {
    forall i | 0 <= i < |entries| - 1 :: !KeyLess(entries[i + 1].key, entries[i].key)
  }

  lemma InOrderTail<T(!new)>(entries: seq<Keyed<T>>)
    requires InOrder(entries) && |entries| > 1
    ensures InOrder(entries[1..]) && !KeyLess(entries[1].key, entries[0].key)
  {
    assert !KeyLess(entries[0 + 1].key, entries[0].key);
    forall i | 0 <= i < |entries[1..]| - 1
      ensures !KeyLess(entries[1..][i + 1].key, entries[1..][i].key)
    {
      assert !KeyLess(entries[i + 1 + 1].key, entries[i + 1].key);
    }
  }

  lemma {:induction false} InsertKeepsOrder<T(!new)>(entry: Keyed<T>, sorted: seq<Keyed<T>>)
    requires InOrder(sorted)
    ensures InOrder(Insert(entry, sorted))
    ensures Insert(entry, sorted)[0] == entry || (sorted != [] && Insert(entry, sorted)[0] == sorted[0])
  {
    if sorted != [] {
      KeyOrderIsStrictAndTotal(sorted[0].key, entry.key);
      if KeyLess(sorted[0].key, entry.key) {
        InsertKeepsOrder(entry, sorted[1..]);
      }
    }
  }

  lemma {:induction false} SortIsInOrder<T(!new)>(entries: seq<Keyed<T>>)
    ensures InOrder(SortByKey(entries))
  {
    if entries != [] {
      SortIsInOrder(entries[1..]);
      InsertKeepsOrder(entries[0], SortByKey(entries[1..]));
    }
  }

  lemma {:induction false} InOrderIsFixed<T(!new)>(entries: seq<Keyed<T>>)
    requires InOrder(entries)
    ensures SortByKey(entries) == entries
  {
    if entries != [] {
      InOrderIsFixed(entries[1..]);
      assert entries == [entries[0]] + entries[1..];
      if |entries| > 1 {
        assert !KeyLess(entries[1].key, entries[0].key);
      }
    }
  }
}
