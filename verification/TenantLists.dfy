/** The sorted tenant list of one pick and its order of visits
    (internal/compaction/fair_share.go). */
module TenantLists {
  import opened Ordering
  import opened Cyclic

  ghost predicate Increasing(ts: seq<string>) {
    forall i, j | 0 <= i < j < |ts| :: LexLess(ts[i], ts[j])
  }

  lemma AscendingIncreases(ts: seq<string>)
    requires Ascending(LexLess, ts) && forall x :: multiset(ts)[x] <= 1
    ensures Increasing(ts)
  {
    LexIsOrder();
    AscendsStrictly(LexLess, ts);
  }

  lemma IncreasingOnce(ts: seq<string>, x: string)
    requires Increasing(ts)
    ensures multiset(ts)[x] <= 1
  {
    LexIsOrder();
    CountedOnce(ts, x);
  }

  lemma InsertIncreases(t: string, ts: seq<string>)
    requires Increasing(ts) && t !in ts
    ensures Increasing(Insert(LexLess, t, ts))
  {
    var r := Insert(LexLess, t, ts);
    IncreasingAscends(ts);
    InsertedAscends(t, ts);
    forall x ensures multiset(r)[x] <= 1 { InsertedOnce(t, ts, r, x); }
    AscendingIncreases(r);
  }

  lemma IncreasingAscends(ts: seq<string>)
    requires Increasing(ts)
    ensures Ascending(LexLess, ts)
  {
    forall i, j | 0 <= i < j < |ts| ensures !LexLess(ts[j], ts[i]) { LexTriple(ts[i], ts[j], ts[i]); }
  }

  lemma InsertedAscends(t: string, ts: seq<string>)
    requires Ascending(LexLess, ts)
    ensures Ascending(LexLess, Insert(LexLess, t, ts))
  {
    LexIsOrder();
    InsertAscends(LexLess, t, ts);
  }

  lemma InsertedOnce(t: string, ts: seq<string>, r: seq<string>, x: string)
    requires Increasing(ts) && t !in ts && multiset(r) == multiset(ts) + multiset{t}
    ensures multiset(r)[x] <= 1
  {
    IncreasingOnce(ts, x);
    assert t !in multiset(ts);
  }

  /** An increasing list is determined by its members. */
  lemma IncreasingIsUnique(a: seq<string>, b: seq<string>)
    requires Increasing(a) && Increasing(b) && forall x :: x in a <==> x in b
    ensures a == b
  {
    LexIsOrder();
    forall x ensures multiset(a)[x] == multiset(b)[x] {
      IncreasingOnce(a, x);
      IncreasingOnce(b, x);
      assert (x in a <==> x in multiset(a)) && (x in b <==> x in multiset(b));
    }
    AscendingIsUnique(LexLess, a, b);
  }

  /** The tenants in the order a pick with this cursor visits them. */
  function Rotated(tenants: seq<string>, cursor: nat): (r: seq<string>)
    requires tenants != []
    ensures Visits(tenants, cursor, r)
  {
    seq(|tenants|, i requires 0 <= i < |tenants| => tenants[Slot(cursor, i, |tenants|)])
  }

  ghost predicate Visits(tenants: seq<string>, cursor: nat, names: seq<string>) {
    |names| == |tenants| && forall i | 0 <= i < |names| :: names[i] == tenants[Slot(cursor, i, |tenants|)]
  }

  function Swapped(s: seq<string>, j: nat): seq<string>
    requires 0 < j < |s|
  {
    s[j - 1 := s[j]][j := s[j - 1]]
  }

  lemma SwapPermutes(s: seq<string>, j: nat)
    requires 0 < j < |s|
    ensures multiset(Swapped(s, j)) == multiset(s)
  {
    assert s == s[..j - 1] + [s[j - 1], s[j]] + s[j + 1..];
    assert Swapped(s, j) == s[..j - 1] + [s[j], s[j - 1]] + s[j + 1..];
  }

  ghost predicate AscendingBut(s: seq<string>, upTo: nat, hole: int)
    requires upTo <= |s|
  {
    forall a, b | 0 <= a < b < upTo && b != hole :: !LexLess(s[b], s[a])
  }

  /** Element `j` is on its way down: it is before all it has passed. */
  ghost predicate Sinking(s: seq<string>, i: nat, j: nat) {
    j <= i < |s| && AscendingBut(s, i + 1, j) && forall b | j < b <= i :: LexLess(s[j], s[b])
  }

  lemma SinkStep(s: seq<string>, i: nat, j: nat)
    requires Sinking(s, i, j) && 0 < j && LexLess(s[j], s[j - 1])
    ensures Sinking(Swapped(s, j), i, j - 1)
  {
    var r := Swapped(s, j);
    forall a, b | 0 <= a < b < i + 1 && b != j - 1 ensures !LexLess(r[b], r[a]) {
      SwappedPair(s, i, j, a, b);
    }
    forall b | j - 1 < b <= i ensures LexLess(r[j - 1], r[b]) {}
  }

  /** Two places that the swap leaves in order: where each came from. */
  lemma SwappedPair(s: seq<string>, i: nat, j: nat, a: nat, b: nat)
    requires Sinking(s, i, j) && 0 < j && LexLess(s[j], s[j - 1]) && a < b <= i && b != j - 1
    ensures !LexLess(Swapped(s, j)[b], Swapped(s, j)[a])
  {
    LexTriple(s[j], s[b], s[j]);
    LexTriple(s[j], s[j - 1], s[j]);
    if b == j && a < j - 1 { assert Swapped(s, j)[b] == s[j - 1]; }
  }

  lemma SinkEnds(s: seq<string>, i: nat, j: nat)
    requires Sinking(s, i, j) && (j == 0 || !LexLess(s[j], s[j - 1]))
    ensures AscendingBut(s, i + 1, -1)
  {
    LexIsOrder();
    forall a | 0 <= a < j ensures !LexLess(s[j], s[a]) {
      assert a == j - 1 || !LexLess(s[j - 1], s[a]);
    }
  }

  /** One pass of the insertion sort: element `i` sinks into the sorted part. */
  method Sink(s: seq<string>, i: nat) returns (r: seq<string>)
    requires i < |s| && AscendingBut(s, i, -1)
    ensures |r| == |s| && multiset(r) == multiset(s) && AscendingBut(r, i + 1, -1)
  {
    r := s;
    var j: nat := i;
    while j > 0 && LexLess(r[j], r[j - 1])
      invariant |r| == |s| && multiset(r) == multiset(s) && Sinking(r, i, j)
    {
      SwapPermutes(r, j);
      SinkStep(r, i, j);
      r := Swapped(r, j);
      j := j - 1;
    }
    SinkEnds(r, i, j);
  }

  method SortedTenantList(keys: set<string>) returns (tenants: seq<string>)
    ensures Increasing(tenants) && forall t :: t in tenants <==> t in keys
  {
    tenants := [];
    var todo := keys;
    while todo != {}
      invariant todo <= keys && multiset(tenants) == multiset(keys - todo)
      decreases todo
    {
      var t :| t in todo;
      assert keys - (todo - {t}) == (keys - todo) + {t};
      tenants, todo := tenants + [t], todo - {t};
    }
    assert keys - {} == keys;
    for i := 0 to |tenants|
      invariant multiset(tenants) == multiset(keys) && AscendingBut(tenants, i, -1)
    {
      tenants := Sink(tenants, i);
    }
    forall t ensures t in tenants <==> t in keys {
      assert t in tenants <==> t in multiset(tenants);
    }
    AscendingIncreases(tenants);
  }

  lemma RotatedNames(tenants: seq<string>, cursor: nat, names: seq<string>)
    requires tenants != [] && Increasing(tenants) && Visits(tenants, cursor, names)
    ensures NoneTwice(names) && forall t :: t in names <==> t in tenants
  {
    var n := |tenants|;
    LexIsOrder();
    forall i, j | 0 <= i < j < n ensures names[i] != names[j] { SlotsDiffer(cursor, i, j, n); }
    forall t | t in tenants ensures t in names {
      var k :| 0 <= k < n && tenants[k] == t;
      var i := SlotReached(cursor, k, n);
      assert names[i] == t;
    }
  }

  lemma VisitsFromPlace(tenants: seq<string>, cursor: nat, names: seq<string>)
    requires tenants != [] && Visits(tenants, cursor, names)
    ensures Visits(tenants, cursor % |tenants|, names)
  {
    forall i | 0 <= i < |names| ensures names[i] == tenants[Slot(cursor % |tenants|, i, |tenants|)] {
      SlotFromPlace(cursor, i, |tenants|);
    }
  }
}
