/** The FIFO queue between the App Server reader and its consumers, bounded both in items and
    in bytes. */
module ByteBoundedQueue {
  import opened Wrappers

  /** What the queued items weigh together. */
  function TotalBytes<T>(size: T -> int, items: seq<T>): int {
    if items == [] then 0 else TotalBytes(size, items[..|items| - 1]) + size(items[|items| - 1])
  }

  /** Whether one more item fits: a free place, and enough of the byte budget left. */
  predicate Fits<T>(maxItems: nat, maxBytes: int, size: T -> int, items: seq<T>, item: T) {
    && (maxItems == 0 || |items| < maxItems)
    && 0 <= size(item) <= maxBytes - TotalBytes(size, items)
  }

  /** Taking the oldest item gives back exactly its weight. */
  lemma {:induction false} TotalBytesTail<T>(size: T -> int, items: seq<T>)
    requires items != []
    ensures TotalBytes(size, items) == size(items[0]) + TotalBytes(size, items[1..])
  {
    if |items| == 1 {
      assert items[1..] == [] && items[..0] == [];
    } else {
      var init := items[..|items| - 1];
      TotalBytesTail(size, init);
      assert items[1..][..|items| - 2] == init[1..];
    }
  }

  class Queue<T> {
    const maxItems: nat
    const maxBytes: int
    const size: T -> int

    var entries: seq<(int, T)>
    var queuedBytes: int

    ghost function Items(): seq<T>
      reads this
    {
      seq(|entries|, i requires 0 <= i < |entries| reads this => entries[i].1)
    }

    /** The stored weights are right, and the running total is their sum, within the budget. */
    ghost predicate Valid()
      reads this
    {
      && (forall i | 0 <= i < |entries| :: entries[i].0 == size(entries[i].1) >= 0)
      && queuedBytes == TotalBytes(size, Items())
      && 0 <= queuedBytes <= maxBytes
      && (maxItems == 0 || |entries| <= maxItems)
    }

    constructor (maxItems: nat, maxBytes: nat, size: T -> int)
      ensures this.maxItems == maxItems && this.maxBytes == maxBytes && this.size == size
      ensures Valid() && Items() == []
    {
      this.maxItems, this.maxBytes, this.size := maxItems, maxBytes, size;
      entries, queuedBytes := [], 0;
    }

    /** `put_nowait`: false is `queue.Full`, and then nothing has changed. */
    method PutNowait(item: T) returns (put: bool)
      requires Valid()
      modifies this
      ensures Valid()
      ensures put == Fits(maxItems, maxBytes, size, old(Items()), item)
      ensures Items() == if put then old(Items()) + [item] else old(Items())
    {
      if maxItems > 0 && |entries| >= maxItems {
        return false;
      }
      var itemBytes := size(item);
      if itemBytes < 0 || itemBytes > maxBytes - queuedBytes {
        return false;
      }
      ghost var before := Items();
      entries := entries + [(itemBytes, item)];
      queuedBytes := queuedBytes + itemBytes;
      assert Items() == before + [item];
      assert Items()[..|before|] == before;
      return true;
    }

    /** `get_nowait`: None is `queue.Empty`. */
    method GetNowait() returns (r: Option<T>)
      requires Valid()
      modifies this
      ensures Valid()
      ensures r.None? <==> old(Items()) == []
      ensures r.None? ==> Items() == []
      ensures r.Some? ==> old(Items()) == [r.value] + Items()
    {
      if entries == [] {
        return None;
      }
      var (itemBytes, item) := entries[0];
      ghost var before := Items();
      TotalBytesTail(size, before);
      TotalBytesNonNegative(size, before[1..]);
      entries := entries[1..];
      queuedBytes := queuedBytes - itemBytes;
      assert Items() == before[1..];
      return Some(item);
    }

    /** Taking items until the queue is empty. */
    method DrainAll() returns (items: seq<T>)
      requires Valid()
      modifies this
      ensures Valid()
      ensures items == old(Items()) && Items() == []
    {
      ghost var all := Items();
      items := [];
      while true
        invariant Valid()
        invariant items + Items() == all
        decreases |Items()|
      {
        var item := GetNowait();
        if item.None? {
          return;
        }
        assert (items + [item.value]) + Items() == items + ([item.value] + Items());
        items := items + [item.value];
      }
    }
  }

  lemma {:induction false} TotalBytesNonNegative<T>(size: T -> int, items: seq<T>)
    requires forall i | 0 <= i < |items| :: size(items[i]) >= 0
    ensures TotalBytes(size, items) >= 0
  {
    if items != [] {
      TotalBytesNonNegative(size, items[..|items| - 1]);
    }
  }
}
