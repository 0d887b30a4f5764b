/** The bloom indexes of a store with partitions (internal/bloomindex/metadata_compactor.go):
    each partition's index is downgraded on its own, to its files and then to one summary,
    whatever the other partitions hold. */
module BloomPartitions {
  import opened Files
  import opened BloomIndex
  import opened BloomTiers
  import opened BloomDowngrades
  import opened BloomHeap
  import opened BloomRuns

  /** The partitions, and the one each unit is in. */
  datatype Layout = Layout(partitions: seq<string>, partitionOf: string -> string)

  const FINE: nat := 0

  /** The tier of a partition's downgraded index. */
  function TierOf(i: nat, g: Grouping): nat {
    match g
    case PerFile => 2 * i + 1
    case Summary => 2 * i + 2
  }

  /** The writers' indexes are about every unit, a downgraded one about its partition's. */
  function KeyIn(l: Layout, tier: nat, u: string): Option<string> {
    if tier == FINE then Some(u)
    else
      var i, g := (tier - 1) / 2, if tier % 2 == 1 then PerFile else Summary;
      if i < |l.partitions| && l.partitionOf(u) == l.partitions[i] then Some(GroupBy(g)(u)) else None
  }

  ghost predicate LaidOut(fx: Facts, l: Layout) {
    forall tier: nat, u :: fx.keyAt(tier, u) == KeyIn(l, tier, u)
  }

  ghost predicate InPartition(fx: Facts, l: Layout, i: nat, u: string) {
    i < |l.partitions| && u in fx.units && l.partitionOf(u) == l.partitions[i]
  }

  lemma KeyInTier(l: Layout, i: nat, g: Grouping, u: string)
    ensures KeyIn(l, TierOf(i, g), u)
            == if i < |l.partitions| && l.partitionOf(u) == l.partitions[i] then Some(GroupBy(g)(u)) else None
  {}

  lemma FineIsFiner(fx: Facts, l: Layout, i: nat, g: Grouping)
    requires LaidOut(fx, l)
    ensures Coarser(fx, FINE, TierOf(i, g), GroupBy(g))
  {
    forall u | u in fx.units && fx.keyAt(TierOf(i, g), u).Some?
      ensures fx.keyAt(FINE, u) == Some(u) && fx.keyAt(TierOf(i, g), u) == Some(GroupBy(g)(u))
    {
      KeyInTier(l, i, g, u);
    }
  }

  lemma FilesAreFiner(fx: Facts, l: Layout, i: nat)
    requires LaidOut(fx, l)
    ensures Coarser(fx, TierOf(i, PerFile), TierOf(i, Summary), GroupBy(Summary))
  {
    forall u | u in fx.units && fx.keyAt(TierOf(i, Summary), u).Some?
      ensures fx.keyAt(TierOf(i, PerFile), u).Some? && fx.keyAt(TierOf(i, Summary), u) == Some(SUMMARY_KEY)
    {
      KeyInTier(l, i, Summary, u);
      KeyInTier(l, i, PerFile, u);
    }
  }

  /** The index has a filter for every column of the partition's units that holds values. */
  ghost predicate Indexed(fx: Facts, l: Layout, i: nat, tier: nat, refs: Refs) {
    forall u, c | InPartition(fx, l, i, u) && fx.content(u, c) != {} :: HasFilter(fx, tier, refs, u, c)
  }

  /** The filters that become one have one size. */
  ghost predicate SameShapes(s: Heap, x: nat, g: Grouping)
    requires Linked(s) && x in s.indexes
  {
    forall gc | IsGroup(RefsOf(s, x), GroupBy(g), gc) :: OneShape(s.filters, RefsOf(s, x), GroupBy(g), gc)
  }

  /** A partition whose units are indexed can be downgraded, to its files or to a summary
      and from its files to a summary, and the result is about that partition alone;
      nothing is asked of any other. */
  lemma PartitionDowngrades(fx: Facts, l: Layout, i: nat, s: Heap, x: nat, y: nat, g: Grouping, refs: Refs)
    requires LaidOut(fx, l) && Linked(s) && x in s.indexes && y !in s.indexes
    requires s.indexes[x].tier == FINE || (s.indexes[x].tier == TierOf(i, PerFile) && g.Summary?)
    requires Indexed(fx, l, i, s.indexes[x].tier, RefsOf(s, x)) && SameShapes(s, x, g)
    ensures var op := Downgrade(x, y, g, TierOf(i, g), refs); Enabled(fx, s, op) && Assumed(fx, s, op)
  {
    if s.indexes[x].tier == FINE { FineIsFiner(fx, l, i, g); } else { FilesAreFiner(fx, l, i); }
    forall gc ensures Filled(fx, s.indexes[x].tier, TierOf(i, g), RefsOf(s, x), gc) {
      PartitionIsFilled(fx, l, i, s.indexes[x].tier, g, RefsOf(s, x), gc);
    }
  }

  lemma PartitionIsFilled(fx: Facts, l: Layout, i: nat, tier: nat, g: Grouping, refs: Refs, gc: GroupColumn)
    requires LaidOut(fx, l) && Indexed(fx, l, i, tier, refs)
    ensures Filled(fx, tier, TierOf(i, g), refs, gc)
  {
    forall u | u in fx.units && fx.keyAt(TierOf(i, g), u) == Some(gc.group) && fx.content(u, gc.column) != {}
      ensures HasFilter(fx, tier, refs, u, gc.column)
    {
      KeyInTier(l, i, g, u);
      assert InPartition(fx, l, i, u);
    }
  }

  /** After any run, a downgraded index skips no unit of its partition. */
  lemma PartitionNeverSkips(
    fx: Facts, l: Layout, i: nat, run: seq<Move>, x: nat, g: Grouping, unit: string, checks: seq<Check>)
    requires LaidOut(fx, l) && Legal(fx, EMPTY, run) && x in Last(EMPTY, run).indexes
    requires Last(EMPTY, run).indexes[x].tier == TierOf(i, g) && InPartition(fx, l, i, unit)
    requires forall c | c in checks :: c.value in fx.content(unit, c.column)
    ensures Linked(Last(EMPTY, run)) && Keeps(fx.fnv, View(Last(EMPTY, run), x), checks)(GroupBy(g)(unit))
  {
    KeyInTier(l, i, g, unit);
    NeverSkips(fx, run, x, unit, checks);
  }

  // ---- A file that comes after the summary ------------------------------------------------

  lemma AddedBeside(s: Heap, x: nat, unit: string, columns: map<string, nat>, t: nat, key: string)
    requires Linked(s) && x in s.indexes && t !in s.tables && key != unit
    requires Linked(SetColumns(s, x, unit, columns, t))
    ensures var s' := SetColumns(s, x, unit, columns, t);
            (key in View(s', x) <==> key in View(s, x)) && (key in View(s, x) ==> View(s', x)[key] == View(s, x)[key])
  {}

  lemma ViewExtends(s: Heap, filters: map<nat, Bloom.Filter>, x: nat, key: string)
    requires Linked(s) && x in s.indexes && Extends(s.filters, filters) && Linked(s.(filters := filters))
    ensures var s' := s.(filters := filters);
            (key in View(s', x) <==> key in View(s, x)) && (key in View(s, x) ==> View(s', x)[key] == View(s, x)[key])
  {}

  /** Adding a file leaves the other keys of the index as they are. */
  lemma AddFileBeside(fx: Facts, s: Heap, op: Op, s': Heap, key: string)
    requires Ok(fx, s) && op.AddFile? && Enabled(fx, s, op) && Assumed(fx, s, op) && Next(fx, s, op, s') && key != op.unit
    ensures Linked(s') && (key in View(s', op.x) <==> key in View(s, op.x))
    ensures key in View(s, op.x) ==> View(s', op.x)[key] == View(s, op.x)[key]
  {
    AddFileKeeps(fx, s, op, s');
    ExtendingKeeps(fx, s, s'.filters);
    ViewExtends(s, s'.filters, op.x, key);
    if op.ids != map[] { AddedBeside(s.(filters := s'.filters), op.x, op.unit, op.ids, op.t, key); }
  }

  /** A file added to an index that already has a summary: the summary rules it out for a
      value it holds, if and only if the summary has a filter for the column that does not
      accept the value. The file's own filters do not matter. */
  lemma LateFileRuledOutIff(fx: Facts, s: Heap, op: Op, s': Heap, column: string, value: string)
    requires Ok(fx, s) && op.AddFile? && Enabled(fx, s, op) && Assumed(fx, s, op) && Next(fx, s, op, s')
    requires op.unit != SUMMARY_KEY && SUMMARY_KEY in View(s, op.x)
    ensures Linked(s')
    ensures !Keeps(fx.fnv, View(s', op.x), [Check(column, value)])(SUMMARY_KEY)
            <==> Rejects(fx.fnv, View(s, op.x)[SUMMARY_KEY], Check(column, value))
  {
    AddFileBeside(fx, s, op, s', SUMMARY_KEY);
    assert Check(column, value) in [Check(column, value)];
  }
}
