/** Every run of the bloom index's operations (internal/bloomindex/bloomindex.go,
    partitioned.go, tiering.go): files are added with filters built from their values,
    indexes merge, drop keys, go through their binary form and are downgraded, in any
    order and sharing what the source shares. A file that holds a value is never
    skipped. */
module BloomRuns {
  import opened Bloom
  import opened BloomIndex
  import opened BloomTiers
  import opened BloomHeap
  import opened BloomDowngrades
  import IndexCodec
  import IndexCoder
  import IndexRoundTrip
  import RowGroupKeys

  const SUMMARY_KEY: string := "summary"

  datatype Grouping = PerFile | Summary

  /** The key a downgraded index lists another index's key under. */
  function GroupBy(g: Grouping): string -> string {
    match g
    case PerFile => RowGroupKeys.FileOf
    case Summary => (k: string) => SUMMARY_KEY
  }

  /** `ids`, `t` and `refs` name the objects the step allocates. */
  datatype Op =
    | NewIndex(x: nat, tier: nat)
    | AddFile(x: nat, unit: string, values: map<string, seq<string>>, size: Sizing, ids: map<string, nat>, t: nat)
    | NewFilter(f: nat, bytes: nat, hashes: nat)
    | AddValue(f: nat, value: string)
    | Add(x: nat, key: string, column: string, f: nat, t: nat)
    | MergeFrom(x: nat, y: nat)
    | RemoveKeys(x: nat, keys: set<string>)
    | Reload(x: nat, y: nat, es: seq<IndexCodec.Entry>, refs: Refs)
    | Downgrade(x: nat, y: nat, g: Grouping, coarse: nat, refs: Refs)

  /** New objects are new and references exist; indexes of one tier merge, Marshal walks
      the index's maps, and a coarser index lists its units, those of the finer one or
      some of them, by their group. */
  ghost predicate Enabled(fx: Facts, s: Heap, op: Op)
    requires Linked(s)
  {
    match op
    case NewIndex(x, _) => x !in s.indexes
    case AddFile(x, _, values, size, ids, t) =>
      && x in s.indexes && t !in s.tables && Sizes(size)
      && ids.Keys == Built(fx.fnv, size, values).Keys && forall c | c in ids :: ids[c] !in s.filters
    case NewFilter(f, bytes, hashes) => f !in s.filters && bytes >= 1 && hashes < 256
    case AddValue(f, _) => f in s.filters
    case Add(x, _, _, f, t) => x in s.indexes && f in s.filters && t !in s.tables
    case MergeFrom(x, y) => x in s.indexes && y in s.indexes && s.indexes[x].tier == s.indexes[y].tier
    case RemoveKeys(x, _) => x in s.indexes
    case Reload(x, y, es, refs) => x in s.indexes && y !in s.indexes && IndexCoder.Walks(es, View(s, x))
    case Downgrade(x, y, g, coarse, refs) =>
      x in s.indexes && y !in s.indexes && Coarser(fx, s.indexes[x].tier, coarse, GroupBy(g))
  }

  /** What the code relies on but does not check: a writer adds a file under its own key
      and passes the values the file holds, a filter added by hand covers its file, a written index fits the format's
      widths, and a downgrade meets filters of one shape and no unit without one. */
  ghost predicate Assumed(fx: Facts, s: Heap, op: Op)
    requires Linked(s) && Enabled(fx, s, op)
  {
    match op
    case AddFile(x, unit, values, _, _, _) =>
      OwnKey(fx, s.indexes[x].tier, unit) && forall c, v | c in values && v in fx.content(unit, c) :: v in values[c]
    case Add(x, key, column, f, _) => Covers(fx, s.indexes[x].tier, key, column, s.filters[f])
    case Reload(x, _, _, _) => IndexRoundTrip.IndexFits(View(s, x))
    case Downgrade(x, _, g, coarse, _) =>
      forall gc | IsGroup(RefsOf(s, x), GroupBy(g), gc) ::
        OneShape(s.filters, RefsOf(s, x), GroupBy(g), gc) && Filled(fx, s.indexes[x].tier, coarse, RefsOf(s, x), gc)
    case _ => true
  }

  ghost predicate IsGroup(refs: Refs, h: string -> string, gc: GroupColumn) {
    exists id :: Member(refs, h, gc, id)
  }

  /** New filters `ids`, holding `cols`, and no others. */
  ghost predicate NewFilters(filters: map<nat, Filter>, now: map<nat, Filter>, ids: map<string, nat>, cols: Columns) {
    && Extends(filters, now) && ids.Keys == cols.Keys && forall c | c in ids :: ids[c] in now && now[ids[c]] == cols[c]
  }

  /** The decoded index `y`: new filters and new tables that hold `idx`. */
  ghost predicate Loaded(s: Heap, s': Heap, y: nat, tier: nat, refs: Refs, idx: Index) {
    && Extends(s.filters, s'.filters) && Resolves(refs, s'.filters) && Deref(refs, s'.filters) == idx
    && NewTables(s, s', y, tier, refs)
  }

  /** The step takes `s` to `s'`. */
  ghost predicate Next(fx: Facts, s: Heap, op: Op, s': Heap)
    requires Linked(s) && Enabled(fx, s, op)
  {
    match op
    case NewIndex(x, tier) => s' == s.(indexes := s.indexes[x := IndexRef(tier, map[])])
    case AddFile(x, unit, values, size, ids, t) =>
      && NewFilters(s.filters, s'.filters, ids, Built(fx.fnv, size, values))
      && (if ids == map[] then s' == s.(filters := s'.filters)
          else Linked(s.(filters := s'.filters)) && s' == SetColumns(s.(filters := s'.filters), x, unit, ids, t))
    case NewFilter(f, bytes, hashes) => s' == s.(filters := s.filters[f := Empty(bytes, hashes)])
    case AddValue(f, value) => s' == s.(filters := s.filters[f := With(fx.fnv, s.filters[f], value)])
    case Add(x, key, column, f, t) => s' == SetColumns(s, x, key, map[column := f], t)
    case MergeFrom(x, y) => s' == Merged(s, x, y)
    case RemoveKeys(x, keys) => s' == s.(indexes := s.indexes[x := s.indexes[x].(tables := s.indexes[x].tables - keys)])
    case Reload(x, y, es, refs) =>
      (match IndexCodec.Get(IndexCodec.Put(es))
       case None => s' == s
       case Some(idx) => Loaded(s, s', y, s.indexes[x].tier, refs, idx))
    case Downgrade(x, y, g, coarse, refs) =>
      && Downgraded(s.filters, RefsOf(s, x), GroupBy(g), s'.filters, refs)
      && NewTables(s, s', y, coarse, refs)
  }

  // ---- Every step keeps every index sound ------------------------------------------------

  lemma AddFileKeeps(fx: Facts, s: Heap, op: Op, s': Heap)
    requires Ok(fx, s) && op.AddFile? && Enabled(fx, s, op) && Assumed(fx, s, op) && Next(fx, s, op, s')
    ensures Ok(fx, s')
  {
    var s1 := s.(filters := s'.filters);
    ExtendingKeeps(fx, s, s'.filters);
    if op.ids != map[] {
      forall c | c in op.ids ensures Covers(fx, s.indexes[op.x].tier, op.unit, c, s'.filters[op.ids[c]]) {
        BuiltCovers(fx, s.indexes[op.x].tier, op.unit, op.size, op.values, c);
      }
      SetColumnsKeeps(fx, s1, op.x, op.unit, op.ids, op.t);
    }
  }

  lemma FilterStepKeeps(fx: Facts, s: Heap, op: Op, s': Heap)
    requires Ok(fx, s) && (op.NewFilter? || op.AddValue?) && Enabled(fx, s, op) && Next(fx, s, op, s')
    ensures Ok(fx, s')
  {
    if op.NewFilter? {
      ExtendingKeeps(fx, s, s'.filters);
    } else {
      AddedIsAccepted(fx.fnv, s.filters[op.f], op.value);
      GrowingKeeps(fx, s, s'.filters);
    }
  }

  /** Reading an index back gives filters that cover what the written ones covered. */
  lemma ReloadKeeps(fx: Facts, s: Heap, op: Op, s': Heap)
    requires Ok(fx, s) && op.Reload? && Enabled(fx, s, op) && Assumed(fx, s, op) && Next(fx, s, op, s')
    ensures Ok(fx, s')
  {
    var tier := s.indexes[op.x].tier;
    IndexRoundTrip.MarshalUnmarshal(op.es, View(s, op.x));
    ExtendingKeeps(fx, s, s'.filters);
    forall k, c | k in op.refs && c in op.refs[k] ensures Covers(fx, tier, k, c, s'.filters[op.refs[k][c]]) {
      DerefAt(op.refs, s'.filters, k, c);
      ViewCovers(fx, s, op.x, k, c);
    }
    forall k | k in op.refs ensures ColumnsCover(fx, tier, k, op.refs[k], s'.filters) {}
    NewTablesKeep(fx, s, s', op.y, tier, op.refs);
  }

  lemma DerefAt(refs: Refs, filters: map<nat, Filter>, k: string, c: string)
    requires Resolves(refs, filters) && k in refs && c in refs[k]
    ensures k in Deref(refs, filters) && c in Deref(refs, filters)[k] && Deref(refs, filters)[k][c] == filters[refs[k][c]]
  {}

  lemma SourceIsCovered(fx: Facts, s: Heap, x: nat)
    requires Ok(fx, s) && x in s.indexes
    ensures Covered(fx, s.indexes[x].tier, s.filters, RefsOf(s, x))
  {
    var refs := RefsOf(s, x);
    forall k, c | k in refs && c in refs[k] ensures Covers(fx, s.indexes[x].tier, k, c, s.filters[refs[k][c]]) {
      DerefAt(refs, s.filters, k, c);
      ViewCovers(fx, s, x, k, c);
    }
  }

  /** A downgrade unites filters that others share, and its own index covers the groups. */
  lemma DowngradeKeeps(fx: Facts, s: Heap, op: Op, s': Heap)
    requires Ok(fx, s) && op.Downgrade? && Enabled(fx, s, op) && Assumed(fx, s, op) && Next(fx, s, op, s')
    ensures Ok(fx, s')
  {
    var refs, h, tier := RefsOf(s, op.x), GroupBy(op.g), s.indexes[op.x].tier;
    GrowingKeeps(fx, s, s'.filters);
    SourceIsCovered(fx, s, op.x);
    forall k, c | k in op.refs && c in op.refs[k] ensures Covers(fx, op.coarse, k, c, s'.filters[op.refs[k][c]]) {
      var gc := GroupColumn(k, c);
      assert Entry(op.refs, gc) && IsGroup(refs, h, gc);
      DowngradeCovers(fx, tier, op.coarse, s.filters, refs, h, s'.filters, op.refs, gc);
    }
    forall k | k in op.refs ensures ColumnsCover(fx, op.coarse, k, op.refs[k], s'.filters) {}
    NewTablesKeep(fx, s, s', op.y, op.coarse, op.refs);
  }

  lemma IndexStepKeeps(fx: Facts, s: Heap, op: Op, s': Heap)
    requires Ok(fx, s) && (op.NewIndex? || op.RemoveKeys?) && Enabled(fx, s, op) && Next(fx, s, op, s')
    ensures Ok(fx, s')
  {
    forall t | t in s'.tables ensures ColumnsCover(fx, s'.tables[t].tier, s'.tables[t].key, s'.tables[t].columns, s'.filters) {
      TableCovers(fx, s, t);
    }
    TablesKeep(fx, s, s');
  }

  /** Every operation leaves every index sound, those that share the changed tables or
      filters included. */
  lemma StepKeeps(fx: Facts, s: Heap, op: Op, s': Heap)
    requires Ok(fx, s) && Enabled(fx, s, op) && Assumed(fx, s, op) && Next(fx, s, op, s')
    ensures Ok(fx, s')
  {
    match op
    case NewIndex(_, _) => IndexStepKeeps(fx, s, op, s');
    case AddFile(_, _, _, _, _, _) => AddFileKeeps(fx, s, op, s');
    case NewFilter(_, _, _) => FilterStepKeeps(fx, s, op, s');
    case AddValue(_, _) => FilterStepKeeps(fx, s, op, s');
    case Add(x, key, column, f, t) => SetColumnsKeeps(fx, s, x, key, map[column := f], t);
    case MergeFrom(x, y) => MergedKeeps(fx, s, x, y);
    case RemoveKeys(_, _) => IndexStepKeeps(fx, s, op, s');
    case Reload(_, _, _, _) => ReloadKeeps(fx, s, op, s');
    case Downgrade(_, _, _, _, _) => DowngradeKeeps(fx, s, op, s');
  }

  // ---- Over every run ----------------------------------------------------------------------

  /** One step of a run: the operation and the heap after it. */
  datatype Move = Move(op: Op, after: Heap)

  ghost predicate Legal(fx: Facts, s: Heap, run: seq<Move>)
    decreases |run|
  {
    run != [] ==>
      && Linked(s) && Enabled(fx, s, run[0].op) && Assumed(fx, s, run[0].op) && Next(fx, s, run[0].op, run[0].after)
      && Legal(fx, run[0].after, run[1..])
  }

  function Last(s: Heap, run: seq<Move>): Heap {
    if run == [] then s else run[|run| - 1].after
  }

  lemma {:induction false} RunKeeps(fx: Facts, s: Heap, run: seq<Move>)
    requires Ok(fx, s) && Legal(fx, s, run)
    ensures Ok(fx, Last(s, run))
    decreases |run|
  {
    if run != [] {
      StepKeeps(fx, s, run[0].op, run[0].after);
      RunKeeps(fx, run[0].after, run[1..]);
      assert Last(run[0].after, run[1..]) == Last(s, run);
    }
  }

  /** After any run, a query on any index, fine or coarse, of one partition or of many,
      keeps every file that the index is about and that meets the checks. */
  lemma NeverSkips(fx: Facts, run: seq<Move>, x: nat, unit: string, checks: seq<Check>)
    requires Legal(fx, EMPTY, run) && x in Last(EMPTY, run).indexes
    requires unit in fx.units && fx.keyAt(Last(EMPTY, run).indexes[x].tier, unit).Some?
    requires forall c | c in checks :: c.value in fx.content(unit, c.column)
    ensures var s := Last(EMPTY, run);
            Linked(s) && Keeps(fx.fnv, View(s, x), checks)(fx.keyAt(s.indexes[x].tier, unit).value)
  {
    RunKeeps(fx, EMPTY, run);
    SoundKeeps(fx, Last(EMPTY, run), x, unit, checks);
  }
}
