/** Recency order of the in-memory cache (internal/cache/lru.go), most recent first, and
    what fits. */
module LruOrder {
  import opened Ordering
  import opened Files

  type Bytes = seq<int>

  /** A cached value, and what its reservation holds while it has not been released. */
  datatype Item = Item(key: string, val: Bytes, reserved: Option<nat>)

  type Order = seq<Item>

  function Size(o: Order): nat {
    if o == [] then 0 else |o[0].val| + Size(o[1..])
  }

  function Amount(i: Item): nat {
    if i.reserved.Some? then i.reserved.value else 0
  }

  /** The bytes and the number of the reservations still held. */
  function Held(o: Order): nat {
    if o == [] then 0 else Amount(o[0]) + Held(o[1..])
  }

  function Holders(o: Order): nat {
    if o == [] then 0 else (if o[0].reserved.Some? then 1 else 0) + Holders(o[1..])
  }

  ghost predicate Distinct(o: Order) {
    forall i, j | 0 <= i < j < |o| :: o[i].key != o[j].key
  }

  predicate Has(o: Order, key: string) {
    exists i | 0 <= i < |o| :: o[i].key == key
  }

  function Find(o: Order, key: string): (i: nat)
    requires Has(o, key)
    ensures i < |o| && o[i].key == key
  {
    if o[0].key == key then 0 else
      assert Has(o[1..], key) by {
        var i :| 0 <= i < |o| && o[i].key == key;
        assert o[1..][i - 1].key == key;
      }
      1 + Find(o[1..], key)
  }

  /** The order without a key. */
  function Drop(o: Order, key: string): Order {
    if Has(o, key) then Without(o, Find(o, key)) else o
  }

  /** The longest prefix of total size at most `most`; none of it when `most` is negative. */
  function Fit(o: Order, most: int): Order {
    if o == [] || Size(o) <= most then o else Fit(o[..|o| - 1], most)
  }

  lemma {:induction false} SizeSplit(a: Order, b: Order)
    ensures Size(a + b) == Size(a) + Size(b) && Held(a + b) == Held(a) + Held(b) && Holders(a + b) == Holders(a) + Holders(b)
  {
    if a == [] {
      assert a + b == b;
    } else {
      assert (a + b)[0] == a[0] && (a + b)[1..] == a[1..] + b;
      SizeSplit(a[1..], b);
    }
  }

  lemma OneItem(i: Item)
    ensures Size([i]) == |i.val| && Held([i]) == Amount(i) && Holders([i]) == if i.reserved.Some? then 1 else 0
  {
    assert [i][1..] == [];
  }

  /** What taking one item out of the order takes out of its totals. */
  lemma TakeOut(o: Order, i: nat)
    requires i < |o|
    ensures Size(o) == Size(Without(o, i)) + |o[i].val|
    ensures Held(o) == Held(Without(o, i)) + Amount(o[i])
    ensures Holders(o) == Holders(Without(o, i)) + if o[i].reserved.Some? then 1 else 0
  {
    assert o == o[..i] + ([o[i]] + o[i + 1..]);
    SizeSplit(o[..i], [o[i]] + o[i + 1..]);
    SizeSplit([o[i]], o[i + 1..]);
    SizeSplit(o[..i], o[i + 1..]);
    OneItem(o[i]);
  }

  /** It is a prefix that fits, and no longer one does: eviction drops the least recent
      items and no more of them than it must. */
  lemma {:induction false} FitIsLongest(o: Order, most: int)
    ensures Fit(o, most) <= o && (most >= 0 ==> Size(Fit(o, most)) <= most)
    ensures forall n | |Fit(o, most)| < n <= |o| :: Size(o[..n]) > most
  {
    if o != [] && Size(o) > most {
      FitIsLongest(o[..|o| - 1], most);
      forall n | |Fit(o, most)| < n <= |o| ensures Size(o[..n]) > most {
        if n == |o| {
          assert o[..n] == o;
        } else {
          assert o[..|o| - 1][..n] == o[..n];
        }
      }
    }
  }

  lemma DistinctPart(o: Order, i: nat)
    requires i < |o| && Distinct(o)
    ensures Distinct(Without(o, i)) && !Has(Without(o, i), o[i].key)
  {
    var w := Without(o, i);
    forall a | 0 <= a < |w| ensures w[a] == o[if a < i then a else a + 1] {}
  }
}
