/** The byte-bounded in-memory cache (internal/cache/lru.go) with the process-wide
    memory bound it reserves from (internal/resourcebounds/bounds.go). */
module Lru {
  import opened Ordering
  import opened Files
  import opened LruOrder

  /** What an admission of `n` bytes reserves: at least one, at most the limit. */
  function Reserve(limit: int, n: nat): (r: nat) {
    var m := if n == 0 then 1 else n;
    if 0 < limit < m then limit else m
  }

  class Bound {
    const limit: int
    const limitCount: int
    var outBytes: int
    var outCount: int

    constructor (limit: int, limitCount: int)
      ensures this.limit == limit && this.limitCount == limitCount && outBytes == 0 && outCount == 0
    {
      this.limit, this.limitCount, outBytes, outCount := limit, limitCount, 0, 0;
    }

    /** An outlier is admitted alone. */
    predicate Admits(bytes: int, count: int, n: nat) {
      && (limit <= 0 || bytes + Reserve(limit, n) <= limit || count == 0)
      && (limitCount <= 0 || count < limitCount)
    }

    method TryAcquire(n: nat) returns (r: Option<nat>)
      modifies this
      ensures r == if Admits(old(outBytes), old(outCount), n) then Some(Reserve(limit, n)) else None
      ensures var m: int := if n == 0 then 1 else if 0 < limit < n then limit else n;
              if (limit <= 0 || old(outBytes) + m <= limit || old(outCount) == 0) && (limitCount <= 0 || old(outCount) < limitCount)
              then r.Some? && r.value == m else r.None?
      ensures outBytes == old(outBytes) + (if r.Some? then r.value else 0)
      ensures outCount == old(outCount) + (if r.Some? then 1 else 0)
    {
      var m := if n == 0 then 1 else n;
      if limit > 0 && m > limit { m := limit; }
      var bytesOK := limit <= 0 || outBytes + m <= limit || outCount == 0;
      var countOK := limitCount <= 0 || outCount < limitCount;
      if !bytesOK || !countOK { return None; }
      outBytes, outCount := outBytes + m, outCount + 1;
      return Some(m);
    }

    method Release(amount: nat)
      modifies this
      ensures outBytes == if old(outBytes) < amount then 0 else old(outBytes) - amount
      ensures outCount == if old(outCount) < 1 then 0 else old(outCount) - 1
    {
      outBytes, outCount := outBytes - amount, outCount - 1;
      if outBytes < 0 { outBytes := 0; }
      if outCount < 0 { outCount := 0; }
    }
  }

  /** The order with the reservation of one key given back. */
  function Freed(o: Order, key: string): (r: Order) {
    if Has(o, key) then o[Find(o, key) := o[Find(o, key)].(reserved := None)] else o
  }

  /** The map and the list hold the same entries. */
  ghost predicate Agree(items: map<string, Item>, order: Order) {
    && Distinct(order)
    && (forall i | 0 <= i < |order| :: order[i].key in items && items[order[i].key] == order[i])
    && (forall k | k in items :: Has(order, k))
  }

  lemma Lookup(items: map<string, Item>, order: Order, key: string)
    requires Agree(items, order)
    ensures key in items <==> Has(order, key)
    ensures key in items ==> items[key] == order[Find(order, key)]
  {
    if Has(order, key) { assert order[Find(order, key)].key in items; }
  }

  lemma AgreeWithout(items: map<string, Item>, order: Order, i: nat)
    requires Agree(items, order) && i < |order|
    ensures Agree(items - {order[i].key}, Without(order, i))
  {
    var w, rest := Without(order, i), items - {order[i].key};
    DistinctPart(order, i);
    forall a | 0 <= a < |w| ensures w[a].key in rest && rest[w[a].key] == w[a] {
      assert w[a] == order[if a < i then a else a + 1];
    }
    forall k | k in rest ensures Has(w, k) {
      var a :| 0 <= a < |order| && order[a].key == k;
      assert w[if a < i then a else a - 1] == order[a];
    }
  }

  lemma AgreeFront(items: map<string, Item>, order: Order, x: Item)
    requires Agree(items, order) && !Has(order, x.key)
    ensures Agree(items[x.key := x], [x] + order)
  {
    var o := [x] + order;
    forall k | k in items[x.key := x] ensures Has(o, k) {
      if k == x.key {
        assert o[0].key == k;
      } else {
        var a :| 0 <= a < |order| && order[a].key == k;
        assert o[a + 1].key == k;
      }
    }
  }

  lemma AgreeReplace(items: map<string, Item>, order: Order, i: nat, x: Item)
    requires Agree(items, order) && i < |order| && x.key == order[i].key
    ensures Agree(items[x.key := x], order[i := x])
  {
    var o := order[i := x];
    assert forall a | 0 <= a < |o| :: o[a].key == order[a].key;
    forall k | k in items[x.key := x] ensures Has(o, k) {
      assert Has(order, k);
      var a :| 0 <= a < |order| && order[a].key == k;
      assert o[a].key == k;
    }
  }

  /** Giving back a reservation changes the reservations only. */
  lemma FreedTotals(o: Order, key: string)
    requires Has(o, key)
    ensures var i := Find(o, key);
            && Size(Freed(o, key)) == Size(o) && Held(Freed(o, key)) == Held(o) - Amount(o[i])
            && Holders(Freed(o, key)) == Holders(o) - (if o[i].reserved.Some? then 1 else 0)
  {
    var i := Find(o, key);
    TakeOut(o, i);
    TakeOut(Freed(o, key), i);
    assert Without(Freed(o, key), i) == Without(o, i);
  }

  predicate ReservedBy(o: Order, key: string) {
    Has(o, key) && o[Find(o, key)].reserved.Some?
  }

  function ReservedOf(o: Order, key: string): nat {
    if Has(o, key) then Amount(o[Find(o, key)]) else 0
  }

  lemma {:induction false} NoReservation(o: Order, key: string)
    requires Holders(o) == 0
    ensures !ReservedBy(o, key)
  {
    if Has(o, key) { TakeOut(o, Find(o, key)); }
  }

  lemma {:induction false} NothingHeld(o: Order)
    requires Holders(o) == 0
    ensures Held(o) == 0
  {
    if o != [] { NothingHeld(o[1..]); }
  }

  /** After the reservation is given back the key is found where it was. */
  lemma FreedDrop(o: Order, key: string)
    requires Distinct(o)
    ensures !ReservedBy(Freed(o, key), key) && Drop(Freed(o, key), key) == Drop(o, key)
  {
    if Has(o, key) {
      var f, i := Freed(o, key), Find(o, key);
      assert f[i].key == key && forall a | 0 <= a < |f| :: f[a].key == o[a].key;
      assert Find(f, key) == i;
      assert Without(f, i) == Without(o, i);
    } else {
      assert Freed(o, key) == o;
    }
  }

  /** The order after a hit. */
  function Fronted(o: Order, key: string): Order {
    if Has(o, key) then [o[Find(o, key)]] + Drop(o, key) else o
  }

  function SizeOf(o: Order, key: string): nat {
    if Has(o, key) then |o[Find(o, key)].val| else 0
  }

  /** The order after a put, before anything is evicted. */
  function Stored(o: Order, e: Item): Order {
    [e] + Drop(o, e.key)
  }

  lemma DropKeeps(items: map<string, Item>, order: Order, key: string)
    requires Agree(items, order)
    ensures Agree(items - {key}, Drop(order, key)) && !Has(Drop(order, key), key)
    ensures Size(Drop(order, key)) == Size(order) - SizeOf(order, key)
    ensures Held(Drop(order, key)) == Held(order) - ReservedOf(order, key)
    ensures Holders(Drop(order, key)) == Holders(order) - (if ReservedBy(order, key) then 1 else 0)
  {
    Lookup(items, order, key);
    if Has(order, key) {
      var i := Find(order, key);
      AgreeWithout(items, order, i);
      DistinctPart(order, i);
      TakeOut(order, i);
    } else {
      assert items - {key} == items;
    }
  }

  lemma StoreKeeps(items: map<string, Item>, order: Order, e: Item)
    requires Agree(items, order)
    ensures Agree(items[e.key := e], Stored(order, e))
    ensures Size(Stored(order, e)) == Size(order) - SizeOf(order, e.key) + |e.val|
    ensures Held(Stored(order, e)) == Held(order) - ReservedOf(order, e.key) + Amount(e)
    ensures Holders(Stored(order, e))
            == Holders(order) - (if ReservedBy(order, e.key) then 1 else 0) + (if e.reserved.Some? then 1 else 0)
  {
    DropKeeps(items, order, e.key);
    AgreeFront(items - {e.key}, Drop(order, e.key), e);
    assert (items - {e.key})[e.key := e] == items[e.key := e];
    SizeSplit([e], Drop(order, e.key));
    OneItem(e);
  }

  /** A hit keeps everything but the order. */
  lemma FrontKeeps(items: map<string, Item>, order: Order, key: string)
    requires Agree(items, order)
    ensures Agree(items, Fronted(order, key)) && Size(Fronted(order, key)) == Size(order)
    ensures Held(Fronted(order, key)) == Held(order) && Holders(Fronted(order, key)) == Holders(order)
  {
    if Has(order, key) {
      var e := order[Find(order, key)];
      Lookup(items, order, key);
      StoreKeeps(items, order, e);
      assert items[e.key := e] == items;
    }
  }

  lemma FreeKeeps(items: map<string, Item>, order: Order, key: string)
    requires Agree(items, order) && key in items
    ensures Has(order, key) && Agree(items[key := items[key].(reserved := None)], Freed(order, key))
  {
    Lookup(items, order, key);
    AgreeReplace(items, order, Find(order, key), items[key].(reserved := None));
  }

  lemma FreedTotal(o: Order, key: string)
    ensures Size(Freed(o, key)) == Size(o) && Held(Freed(o, key)) == Held(o) - ReservedOf(o, key)
    ensures Holders(Freed(o, key)) == Holders(o) - (if ReservedBy(o, key) then 1 else 0)
  {
    if Has(o, key) { FreedTotals(o, key); }
  }

  class Cache {
    var items: map<string, Item>
    var order: Order
    var curSize: int
    const maxSize: int
    var bound: Bound?
    var rejected: nat

    /** Map and list in bijection, and the exact size. */
    ghost predicate Consistent()
      reads this
    {
      Agree(items, order) && curSize == Size(order)
    }

    /** The bound carries at least what this cache's entries still hold; the rest belongs
        to its other users. */
    ghost predicate Backed()
      reads this, bound
    {
      if bound == null then Holders(order) == 0
      else bound.outBytes >= Held(order) && bound.outCount >= Holders(order)
    }

    ghost predicate Valid()
      reads this, bound
    {
      Consistent() && Backed() && (maxSize >= 0 ==> curSize <= maxSize)
    }

    /** What the bound's other users hold: bytes and reservations. */
    ghost function OtherBytes(): int
      reads this, bound
    {
      if bound == null then 0 else bound.outBytes - Held(order)
    }

    ghost function OtherCount(): int
      reads this, bound
    {
      if bound == null then 0 else bound.outCount - Holders(order)
    }

    constructor (maxSize: int)
      ensures Valid() && order == [] && bound == null && this.maxSize == maxSize
    {
      items, order, curSize, rejected, bound := map[], [], 0, 0, null;
      this.maxSize := maxSize;
    }

    /** SetBound, called once: entries cached before it hold no reservation. */
    method SetBound(b: Bound)
      requires Valid() && bound == null && b.outBytes >= 0 && b.outCount >= 0
      modifies this
      ensures Valid() && bound == b && order == old(order) && OtherBytes() == b.outBytes && OtherCount() == b.outCount
    {
      NothingHeld(order);
      bound := b;
    }

    /** Take one entry out, and give back its reservation if it holds one. */
    method RemoveAt(i: nat)
      requires Consistent() && Backed() && i < |order|
      modifies this, bound
      ensures bound == old(bound) && rejected == old(rejected) && OtherBytes() == old(OtherBytes()) && OtherCount() == old(OtherCount())
      ensures Consistent() && Backed() && order == Without(old(order), i)
    {
      var e := order[i];
      AgreeWithout(items, order, i);
      TakeOut(order, i);
      order, items := Without(order, i), items - {e.key};
      curSize := curSize - |e.val|;
      if e.reserved.Some? && bound != null { bound.Release(e.reserved.value); }
    }

    method EvictOldest()
      requires Consistent() && Backed() && order != []
      modifies this, bound
      ensures bound == old(bound) && rejected == old(rejected) && OtherBytes() == old(OtherBytes()) && OtherCount() == old(OtherCount())
      ensures Consistent() && Backed() && order == old(order)[..|old(order)| - 1]
    {
      assert Without(order, |order| - 1) == order[..|order| - 1];
      RemoveAt(|order| - 1);
    }

    /** Evict from the back until the rest fits. */
    method Shrink()
      requires Consistent() && Backed()
      modifies this, bound
      ensures bound == old(bound) && rejected == old(rejected) && OtherBytes() == old(OtherBytes()) && OtherCount() == old(OtherCount())
      ensures Valid() && order == Fit(old(order), maxSize)
    {
      while curSize > maxSize && |order| > 0
        invariant bound == old(bound) && rejected == old(rejected) && OtherBytes() == old(OtherBytes()) && OtherCount() == old(OtherCount())
        invariant Consistent() && Backed() && Fit(order, maxSize) == Fit(old(order), maxSize)
        decreases |order|
      {
        EvictOldest();
      }
    }

    /** Get: a hit moves the entry to the front. */
    method Get(key: string) returns (r: Option<Bytes>)
      requires Valid()
      modifies this
      ensures Valid() && bound == old(bound) && OtherBytes() == old(OtherBytes()) && OtherCount() == old(OtherCount())
      ensures r == if Has(old(order), key) then Some(old(order)[Find(old(order), key)].val) else None
      ensures order == Fronted(old(order), key)
      ensures key !in old(items) ==> r.None? && order == old(order)
      ensures key in old(items) ==>
                && r == Some(old(items)[key].val) && order != [] && order[0] == old(items)[key]
                && exists i :: 0 <= i < |old(order)| && old(order)[i].key == key && order[1..] == old(order)[..i] + old(order)[i + 1..]
      ensures items == old(items)
    {
      Lookup(items, order, key);
      FrontKeeps(items, order, key);
      if key !in items { return None; }
      ghost var i := Find(order, key);
      assert Fronted(order, key)[1..] == order[..i] + order[i + 1..];
      order := Fronted(order, key);
      return Some(items[key].val);
    }

    /** Store an entry at the front, in place of the one of its key. */
    method Store(e: Item)
      requires Consistent()
      modifies this
      ensures bound == old(bound) && rejected == old(rejected)
      ensures Consistent() && order == Stored(old(order), e)
    {
      Lookup(items, order, e.key);
      StoreKeeps(items, order, e);
      if e.key in items { curSize := curSize - |items[e.key].val|; }
      items, order := items[e.key := e], Stored(order, e);
      curSize := curSize + |e.val|;
    }

    /** The update path first gives back the reservation of the key it replaces. */
    method GiveBack(key: string)
      requires Valid() && bound != null
      modifies this, bound
      ensures bound == old(bound) && rejected == old(rejected) && OtherBytes() == old(OtherBytes()) && OtherCount() == old(OtherCount())
      ensures Valid() && order == Freed(old(order), key)
    {
      Lookup(items, order, key);
      if key !in items { return; }
      FreedTotal(order, key);
      FreeKeeps(items, order, key);
      var e := items[key];
      if e.reserved.Some? { bound.Release(e.reserved.value); }
      items, order := items[key := e.(reserved := None)], Freed(order, key);
    }

    /** A put of `n` bytes under the key is admitted once the key's own reservation is
        given back. */
    ghost predicate Admissible(key: string, n: nat)
      reads this, bound
    {
      bound == null
      || bound.Admits(OtherBytes() + Held(Freed(order, key)), OtherCount() + Holders(Freed(order, key)), n)
    }

    /** Reserve for a put, or count the rejection. */
    method Admit(key: string, n: nat) returns (r: Option<nat>)
      requires Valid() && bound != null
      modifies this, bound
      ensures bound == old(bound) && Consistent() && order == Freed(old(order), key) && (maxSize >= 0 ==> curSize <= maxSize)
      ensures r == if old(Admissible(key, n)) then Some(Reserve(bound.limit, n)) else None
      ensures rejected == old(rejected) + (if r.None? then 1 else 0) && Backed()
      ensures bound.outBytes == old(OtherBytes()) + Held(order) + (if r.Some? then r.value else 0)
      ensures bound.outCount == old(OtherCount()) + Holders(order) + (if r.Some? then 1 else 0)
    {
      GiveBack(key);
      r := bound.TryAcquire(n);
      if r.None? { rejected := rejected + 1; }
    }

    /** putBuffer. An admitted put leaves the longest prefix of the new recency order
        that fits; a rejected one leaves the old entry, without its reservation. Either
        way the bound moves by exactly what this cache's entries hold. */
    method Put(key: string, val: Bytes) returns (admitted: bool)
      requires Valid()
      modifies this, bound
      ensures bound == old(bound) && Valid() && OtherBytes() == old(OtherBytes()) && OtherCount() == old(OtherCount())
      ensures admitted == old(Admissible(key, |val|))
      ensures admitted ==> order == Fit([Item(key, val, Reservation(|val|))] + Drop(old(order), key), maxSize)
      ensures !admitted ==> order == Freed(old(order), key)
      ensures rejected == old(rejected) + (if admitted then 0 else 1)
    {
      var reserved: Option<nat> := None;
      if bound != null {
        FreedDrop(order, key);
        reserved := Admit(key, |val|);
        if reserved.None? { return false; }
      } else {
        NoReservation(order, key);
      }
      StoreKeeps(items, order, Item(key, val, reserved));
      Store(Item(key, val, reserved));
      Shrink();
      return true;
    }

    ghost function Reservation(n: nat): Option<nat>
      reads this, bound
    {
      if bound == null then None else Some(Reserve(bound.limit, n))
    }

    method Delete(key: string)
      requires Valid()
      modifies this, bound
      ensures bound == old(bound) && Valid() && OtherBytes() == old(OtherBytes()) && OtherCount() == old(OtherCount()) && order == Drop(old(order), key)
    {
      Lookup(items, order, key);
      if key !in items { return; }
      TakeOut(order, Find(order, key));
      RemoveAt(Find(order, key));
    }

    /** Clear: every reservation is given back. */
    method Clear()
      requires Valid()
      modifies this, bound
      ensures bound == old(bound) && Valid() && OtherBytes() == old(OtherBytes()) && OtherCount() == old(OtherCount()) && order == []
    {
      for i := 0 to |order|
        invariant bound == old(bound) && order == old(order) && items == old(items)
        invariant bound != null ==> bound.outBytes == old(OtherBytes()) + Held(order[i..]) && bound.outCount == old(OtherCount()) + Holders(order[i..])
        invariant bound == null ==> Holders(order) == 0
      {
        assert order[i..][0] == order[i] && order[i..][1..] == order[i + 1..];
        if order[i].reserved.Some? && bound != null { bound.Release(order[i].reserved.value); }
      }
      items, order, curSize := map[], [], 0;
    }
  }
}
