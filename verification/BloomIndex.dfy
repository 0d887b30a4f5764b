/** The multi-column bloom index (internal/bloomindex/bloomindex.go): what a query keeps,
    and when a filter covers the files behind its key. */
module BloomIndex {
  import Ordering
  import opened Files
  import opened Bloom

  // ---- Queries -------------------------------------------------------------------

  type Columns = map<string, Filter>
  type Index = map<string, Columns>

  datatype Check = Check(column: string, value: string)

  ghost predicate ValidIndex(idx: Index) {
    forall k, c | k in idx && c in idx[k] :: idx[k][c].Valid()
  }

  /** The index rules the file out. */
  predicate Rejects(fnv: Hash, cols: Columns, check: Check)
    requires forall c | c in cols :: cols[c].Valid()
  {
    check.column in cols && !Accepts(fnv, cols[check.column], check.value)
  }

  /** Kept: not indexed, or no check rules it out. */
  function Keeps(fnv: Hash, idx: Index, checks: seq<Check>): (r: string -> bool)
    requires ValidIndex(idx)
  {
    (key: string) => key in idx ==> forall c | c in checks :: key in idx && !Rejects(fnv, idx[key], c)
  }

  /** MayContain and, with several checks, MayContainAll: one pass over the keys, each
      column's filter consulted where there is one. */
  method MayContainAll(fnv: Hash, idx: Index, keys: seq<string>, checks: seq<Check>) returns (result: seq<string>)
    requires ValidIndex(idx)
    ensures result == Ordering.Filter(keys, Keeps(fnv, idx, checks))
    ensures forall k :: k in result <==>
              k in keys && (k in idx ==> forall c | c in checks && c.column in idx[k] :: Accepts(fnv, idx[k][c.column], c.value))
  {
    result := [];
    for i := 0 to |keys|
      invariant result == Ordering.Filter(keys[..i], Keeps(fnv, idx, checks))
    {
      var key := keys[i];
      Ordering.FilterNext(keys, i, Keeps(fnv, idx, checks));
      var keep := true;
      if key in idx {
        keep := PassesAll(fnv, idx[key], checks);
      }
      if keep { result := result + [key]; }
    }
    assert keys[..|keys|] == keys;
  }

  method PassesAll(fnv: Hash, cols: Columns, checks: seq<Check>) returns (keep: bool)
    requires forall c | c in cols :: cols[c].Valid()
    ensures keep <==> forall c | c in checks :: !Rejects(fnv, cols, c)
  {
    for i := 0 to |checks|
      invariant forall j | 0 <= j < i :: !Rejects(fnv, cols, checks[j])
    {
      if checks[i].column in cols && !Accepts(fnv, cols[checks[i].column], checks[i].value) {
        assert checks[i] in checks;
        return false;
      }
    }
    return true;
  }

  // ---- The files behind an index ------------------------------------------------------

  /** What is true of the stored files: the units the writers index (files or row
      groups, written once), the values each column of a unit holds, and the key under
      which a unit is found in an index of each tier, if such an index is about it at
      all. A tier is a granularity and a part of the store: the row groups of every
      file, the files of one partition, one partition as a whole. */
  datatype Facts = Facts(
    fnv: Hash, units: set<string>, content: (string, string) -> set<string>, keyAt: (nat, string) -> Option<string>)

  /** A filter under this key and column covers every unit found there. */
  ghost predicate Covers(fx: Facts, tier: nat, key: string, column: string, f: Filter) {
    f.Valid() && forall u, v | u in fx.units && fx.keyAt(tier, u) == Some(key) && v in fx.content(u, column) :: Accepts(fx.fnv, f, v)
  }

  lemma CoversGrows(fx: Facts, tier: nat, key: string, column: string, f: Filter, g: Filter)
    requires Covers(fx, tier, key, column, f) && Grows(f, g)
    ensures Covers(fx, tier, key, column, g)
  {
    forall u, v | u in fx.units && fx.keyAt(tier, u) == Some(key) && v in fx.content(u, column) ensures Accepts(fx.fnv, g, v) {
      GrowsAccepts(fx.fnv, f, g, v);
    }
  }
}
