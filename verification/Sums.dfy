/** Totals over a finite set of keys: row contents and byte counts. */
module Sums {

  ghost function Pick<K>(ks: set<K>): K
    requires ks != {}
  {
    var k :| k in ks;
    k
  }

  function At<K, R>(a: map<K, multiset<R>>, k: K): multiset<R> {
    if k in a then a[k] else multiset{}
  }

  /** The rows of all the objects named by `ks`, together. */
  ghost function Sum<K, R>(a: map<K, multiset<R>>, ks: set<K>): multiset<R> {
    if ks == {} then multiset{} else At(a, Pick(ks)) + Sum(a, ks - {Pick(ks)})
  }

  lemma {:induction false} SumTake<K, R>(a: map<K, multiset<R>>, ks: set<K>, k: K)
    requires k in ks
    ensures Sum(a, ks) == At(a, k) + Sum(a, ks - {k})
    decreases ks
  {
    var j := Pick(ks);
    if j != k {
      SumTake(a, ks - {j}, k);
      SumTake(a, ks - {k}, j);
      assert ks - {j} - {k} == ks - {k} - {j};
    }
  }

  lemma {:induction false} SumSplit<K, R>(a: map<K, multiset<R>>, xs: set<K>, ys: set<K>)
    requires xs !! ys
    ensures Sum(a, xs + ys) == Sum(a, xs) + Sum(a, ys)
    decreases ys
  {
    if ys == {} {
      assert xs + ys == xs;
    } else {
      var y := Pick(ys);
      SumTake(a, xs + ys, y);
      assert xs + ys - {y} == xs + (ys - {y});
      SumSplit(a, xs, ys - {y});
    }
  }

  lemma {:induction false} SumFrame<K, R>(a: map<K, multiset<R>>, b: map<K, multiset<R>>, ks: set<K>)
    requires forall k | k in ks :: At(a, k) == At(b, k)
    ensures Sum(a, ks) == Sum(b, ks)
    decreases ks
  {
    if ks != {} {
      SumFrame(a, b, ks - {Pick(ks)});
    }
  }

  /** Taking some keys out of a set and putting one in changes the total accordingly. */
  lemma SumSwap<K, R>(a: map<K, multiset<R>>, ks: set<K>, outs: set<K>, k: K)
    requires outs <= ks && k !in ks
    ensures Sum(a, ks) == Sum(a, ks - outs) + Sum(a, outs)
    ensures Sum(a, ks - outs + {k}) == Sum(a, ks - outs) + At(a, k)
  {
    assert ks == (ks - outs) + outs;
    SumSplit(a, ks - outs, outs);
    SumTake(a, ks - outs + {k}, k);
    assert ks - outs + {k} - {k} == ks - outs;
  }

  /** A new object adds its rows to the total. */
  lemma SumGrows<K, R>(a: map<K, multiset<R>>, ks: set<K>, k: K, rows: multiset<R>)
    requires k !in ks
    ensures Sum(a[k := rows], ks + {k}) == Sum(a, ks) + rows
  {
    SumTake(a[k := rows], ks + {k}, k);
    assert ks + {k} - {k} == ks;
    SumFrame(a, a[k := rows], ks);
  }

  /** A removed object takes its rows out of the total. */
  lemma SumShrinks<K, R>(a: map<K, multiset<R>>, ks: set<K>, k: K)
    requires k in ks
    ensures Sum(a, ks - {k}) == Sum(a, ks) - At(a, k)
  {
    SumTake(a, ks, k);
    Cancel(Sum(a, ks), Sum(a, ks - {k}), At(a, k));
  }

  lemma Cancel<R>(total: multiset<R>, rest: multiset<R>, taken: multiset<R>)
    requires total == rest + taken
    ensures total - taken == rest
  {}

  ghost function Count<K>(a: map<K, int>, ks: set<K>): int {
    if ks == {} then 0 else (if Pick(ks) in a then a[Pick(ks)] else 0) + Count(a, ks - {Pick(ks)})
  }

  lemma {:induction false} CountTake<K>(a: map<K, int>, ks: set<K>, k: K)
    requires k in ks
    ensures Count(a, ks) == (if k in a then a[k] else 0) + Count(a, ks - {k})
    decreases ks
  {
    var j := Pick(ks);
    if j != k {
      CountTake(a, ks - {j}, k);
      CountTake(a, ks - {k}, j);
      assert ks - {j} - {k} == ks - {k} - {j};
    }
  }

  lemma {:induction false} CountSplit<K>(a: map<K, int>, xs: set<K>, ys: set<K>)
    requires xs !! ys
    ensures Count(a, xs + ys) == Count(a, xs) + Count(a, ys)
    decreases ys
  {
    if ys == {} {
      assert xs + ys == xs;
    } else {
      var y := Pick(ys);
      CountTake(a, xs + ys, y);
      assert xs + ys - {y} == xs + (ys - {y});
      CountSplit(a, xs, ys - {y});
    }
  }

  lemma {:induction false} CountFrame<K>(a: map<K, int>, b: map<K, int>, ks: set<K>)
    requires forall k | k in ks :: k in a <==> k in b
    requires forall k | k in ks && k in a :: a[k] == b[k]
    ensures Count(a, ks) == Count(b, ks)
    decreases ks
  {
    if ks != {} {
      CountFrame(a, b, ks - {Pick(ks)});
    }
  }
}
