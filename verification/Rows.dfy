/** What a merge does to rows (internal/compaction/compactor.go, mergeLogFiles and
    mergeTraceFiles): concatenate, drop, heal, sort. The rules of a mode are a
    parameter here; `LogRows` and `TraceRows` have the two modes' own. */
module Rows {
  import opened Ordering

  /** The row rules of one mode: logs drop trace-shaped rows and heal severity and
      dedicated columns; traces drop nothing and re-promote. */
  datatype Healing<!Row(!new)> = Healing(drop: Row -> bool, heal: Row -> Row) {
    /** A second merge of this row, once merged, changes nothing. */
    ghost predicate LawfulAt(r: Row) {
      heal(heal(r)) == heal(r) && drop(heal(r)) == drop(r)
    }

    ghost predicate Lawful() {
      forall r: Row :: LawfulAt(r)
    }
  }

  /** The rows a merge writes for the rows it read, in reading order. */
  function NormalForm<Row(!new)>(h: Healing<Row>, rows: seq<Row>): (r: seq<Row>)
    ensures |r| <= |rows|
  {
    if rows == [] then
      []
    else
      (if h.drop(rows[0]) then [] else [h.heal(rows[0])]) + NormalForm(h, rows[1..])
  }

  function Flatten<T>(files: seq<seq<T>>): seq<T> {
    if files == [] then [] else files[0] + Flatten(files[1..])
  }

  lemma {:induction false} NormalFormConcat<Row(!new)>(h: Healing<Row>, a: seq<Row>, b: seq<Row>)
    ensures NormalForm(h, a + b) == NormalForm(h, a) + NormalForm(h, b)
  {
    if a == [] {
      assert a + b == b;
    } else {
      assert (a + b)[0] == a[0] && (a + b)[1..] == a[1..] + b;
      NormalFormConcat(h, a[1..], b);
    }
  }

  /** Rules `g` see in a merged row what they see in the row it came from. */
  ghost predicate Absorbs<Row(!new)>(g: Healing<Row>, h: Healing<Row>, r: Row) {
    g.drop(r) == h.drop(r) && (!h.drop(r) ==> g.heal(h.heal(r)) == g.heal(r) && !g.drop(h.heal(r)))
  }

  lemma {:induction false} NormalFormAbsorbs<Row(!new)>(g: Healing<Row>, h: Healing<Row>, rows: seq<Row>)
    requires forall r | r in rows :: Absorbs(g, h, r)
    ensures NormalForm(g, NormalForm(h, rows)) == NormalForm(g, rows)
  {
    if rows != [] {
      NormalFormAbsorbs(g, h, rows[1..]);
      var tail := NormalForm(h, rows[1..]);
      assert rows[0] in rows;
      if !h.drop(rows[0]) {
        var n := NormalForm(h, rows);
        assert n[0] == h.heal(rows[0]) && n[1..] == tail;
      } else {
        assert NormalForm(h, rows) == tail;
      }
    }
  }

  /** The merged content depends on which rows were read, not on their order. */
  lemma {:induction false} NormalFormPermutes<Row(!new)>(h: Healing<Row>, a: seq<Row>, b: seq<Row>)
    requires multiset(a) == multiset(b)
    ensures multiset(NormalForm(h, a)) == multiset(NormalForm(h, b))
  {
    assert |a| == |multiset(a)| && |b| == |multiset(b)|;
    if a != [] {
      var i := MatchHead(a, b);
      var before, after := b[..i], b[i + 1..];
      assert b == before + ([b[i]] + after);
      NormalFormPermutes(h, a[1..], before + after);
      NormalFormConcat(h, before, after);
      NormalFormConcat(h, before, [b[i]] + after);
      assert ([b[i]] + after)[1..] == after;
    }
  }

  /** What a later merge or a reader in normal form sees of an object. */
  function Content<Row(!new)>(h: Healing<Row>, rows: seq<Row>): multiset<Row> {
    multiset(NormalForm(h, rows))
  }

  /** The content of several objects together. */
  function TotalContent<Row(!new)>(h: Healing<Row>, files: seq<seq<Row>>): multiset<Row> {
    if files == [] then multiset{} else Content(h, files[0]) + TotalContent(h, files[1..])
  }

  lemma {:induction false} ContentOfFlatten<Row(!new)>(h: Healing<Row>, files: seq<seq<Row>>)
    ensures Content(h, Flatten(files)) == TotalContent(h, files)
  {
    if files != [] {
      NormalFormConcat(h, files[0], Flatten(files[1..]));
      ContentOfFlatten(h, files[1..]);
    }
  }

  /** Any arrangement of the merged rows holds exactly the sources' content: a
      merge neither loses nor doubles a row, and merging its output again would
      not change it, where the rules are lawful on the rows that were read. */
  lemma MergeKeepsContent<Row(!new)>(h: Healing<Row>, files: seq<seq<Row>>, merged: seq<Row>)
    requires forall r | r in Flatten(files) && !h.drop(r) :: h.LawfulAt(r)
    requires multiset(merged) == multiset(NormalForm(h, Flatten(files)))
    ensures Content(h, merged) == TotalContent(h, files)
    ensures multiset(merged) == TotalContent(h, files)
  {
    NormalFormPermutes(h, merged, NormalForm(h, Flatten(files)));
    NormalFormAbsorbs(h, h, Flatten(files));
    ContentOfFlatten(h, files);
  }

  // ---- Attribute maps ------------------------------------------------------------------

  /** The entries of `done` that `keep` is for. */
  function Restricted(m: map<string, string>, done: set<string>, keep: string -> bool): map<string, string>
    requires done <= m.Keys
  {
    map k | k in done && keep(k) :: m[k]
  }

  lemma RestrictedNext(m: map<string, string>, done: set<string>, keep: string -> bool, k: string)
    requires done <= m.Keys && k in m && k !in done
    ensures Restricted(m, done + {k}, keep)
            == if keep(k) then Restricted(m, done, keep)[k := m[k]] else Restricted(m, done, keep)
  {}

  // ---- The passes ------------------------------------------------------------------------

  /** What the drop pass keeps. */
  function Survives<Row(!new)>(h: Healing<Row>): Row -> bool {
    r => !h.drop(r)
  }

  /** The drop pass: a filter through the slice's own backing array. */
  method DropInPlace<Row(!new)>(h: Healing<Row>, rows: array<Row>) returns (kept: nat)
    modifies rows
    ensures kept <= rows.Length
    ensures rows[..kept] == Filter(old(rows[..]), Survives(h))
  {
    kept := 0;
    ghost var all := rows[..];
    for i := 0 to rows.Length
      invariant 0 <= kept <= i
      invariant rows[..kept] == Filter(all[..i], Survives(h))
      invariant forall j | i <= j < rows.Length :: rows[j] == all[j]
    {
      FilterNext(all, i, Survives(h));
      ghost var front := rows[..kept];
      if !h.drop(rows[i]) {
        rows[kept] := rows[i];
        kept := kept + 1;
        assert rows[..kept] == front + [all[i]];
      }
    }
    assert all[..rows.Length] == all;
  }

  /** The backfill and re-promotion passes, row by row in place. */
  method HealInPlace<Row(!new)>(h: Healing<Row>, rows: array<Row>, kept: nat)
    requires kept <= rows.Length
    modifies rows
    ensures forall j | 0 <= j < kept :: rows[j] == h.heal(old(rows[j]))
  {
    for i := 0 to kept
      invariant forall j | 0 <= j < i :: rows[j] == h.heal(old(rows[j]))
      invariant forall j | i <= j < kept :: rows[j] == old(rows[j])
    {
      rows[i] := h.heal(rows[i]);
    }
  }

  /** The rows of all files, one file after the other. */
  method ReadFiles<Row(!new)>(allData: seq<seq<Row>>) returns (rows: array<Row>)
    ensures fresh(rows) && rows[..] == Flatten(allData)
  {
    var all: seq<Row> := [];
    for d := 0 to |allData|
      invariant all == Flatten(allData[..d])
    {
      FlattenAppend(allData[..d], allData[d]);
      assert allData[..d + 1] == allData[..d] + [allData[d]];
      all := all + allData[d];
    }
    assert allData[..|allData|] == allData;
    rows := new Row[|all|](i requires 0 <= i < |all| => all[i]);
    assert rows[..] == all;
  }

  /** mergeLogFiles / mergeTraceFiles: append, filter in place, heal in place, sort. */
  method MergeFiles<Row(!new)>(h: Healing<Row>, less: (Row, Row) -> bool, allData: seq<seq<Row>>)
    returns (merged: seq<Row>)
    requires WeakOrder(less)
    ensures multiset(merged) == multiset(NormalForm(h, Flatten(allData)))
    ensures Ascending(less, merged)
  {
    var rows := ReadFiles(allData);
    ghost var all := rows[..];
    var kept := DropInPlace(h, rows);
    HealInPlace(h, rows, kept);
    HealAfterFilter(h, all, rows[..kept]);
    merged := Sort(less, rows[..kept]);
    SortAscends(less, rows[..kept]);
  }

  lemma {:induction false} FlattenAppend<T>(files: seq<seq<T>>, last: seq<T>)
    ensures Flatten(files + [last]) == Flatten(files) + last
  {
    if files == [] {
      assert Flatten([last]) == last + Flatten([last][1..]) == last;
      assert files + [last] == [last];
    } else {
      assert (files + [last])[1..] == files[1..] + [last];
      FlattenAppend(files[1..], last);
    }
  }

  /** Filtering first and healing the survivors is the row-by-row normal form. */
  lemma {:induction false} HealAfterFilter<Row(!new)>(h: Healing<Row>, all: seq<Row>, healed: seq<Row>)
    requires |healed| == |Filter(all, Survives(h))|
    requires forall j | 0 <= j < |healed| :: healed[j] == h.heal(Filter(all, Survives(h))[j])
    ensures healed == NormalForm(h, all)
  {
    if all != [] {
      var f := Filter(all, Survives(h));
      if h.drop(all[0]) {
        assert f == Filter(all[1..], Survives(h));
        HealAfterFilter(h, all[1..], healed);
      } else {
        assert f[1..] == Filter(all[1..], Survives(h));
        HealAfterFilter(h, all[1..], healed[1..]);
        assert healed == [healed[0]] + healed[1..];
      }
    }
  }
}
