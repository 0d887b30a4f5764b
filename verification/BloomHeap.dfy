/** The bloom indexes of a process on an explicit heap: they share column tables and
    filters by reference, as the source's maps and pointers do, and filters change in
    place. Each lemma is about one kind of change and everyone who holds what changed. */
module BloomHeap {
  import opened Bloom
  import opened BloomIndex
  import opened BloomTiers

  /** A column table belongs to one key of one tier; several indexes may hold it. */
  datatype Table = Table(tier: nat, key: string, columns: map<string, nat>)

  datatype IndexRef = IndexRef(tier: nat, tables: map<string, nat>)

  datatype Heap = Heap(filters: map<nat, Filter>, tables: map<nat, Table>, indexes: map<nat, IndexRef>)

  const EMPTY := Heap(map[], map[], map[])

  /** References resolve, and an index holds its own tier's tables under their keys. */
  ghost predicate Linked(s: Heap) {
    && (forall f | f in s.filters :: s.filters[f].Valid())
    && (forall t, c | t in s.tables && c in s.tables[t].columns :: s.tables[t].columns[c] in s.filters)
    && (forall x, k | x in s.indexes && k in s.indexes[x].tables ::
          && s.indexes[x].tables[k] in s.tables
          && s.tables[s.indexes[x].tables[k]].key == k && s.tables[s.indexes[x].tables[k]].tier == s.indexes[x].tier)
  }

  /** Every filter in a table covers the units found under the table's key. */
  ghost predicate Sound(fx: Facts, s: Heap)
    requires Linked(s)
  {
    forall t, c | t in s.tables && c in s.tables[t].columns ::
      Covers(fx, s.tables[t].tier, s.tables[t].key, c, s.filters[s.tables[t].columns[c]])
  }

  ghost predicate Ok(fx: Facts, s: Heap) {
    Linked(s) && Sound(fx, s)
  }

  /** The references of index `x`: keys to columns to filters. */
  ghost function RefsOf(s: Heap, x: nat): (refs: Refs)
    requires Linked(s) && x in s.indexes
    ensures Resolves(refs, s.filters)
  {
    map k | k in s.indexes[x].tables :: s.tables[s.indexes[x].tables[k]].columns
  }

  /** The filters behind some references. */
  ghost function Deref(refs: Refs, filters: map<nat, Filter>): (idx: Index)
    requires Resolves(refs, filters)
  {
    map k | k in refs :: map c | c in refs[k] :: filters[refs[k][c]]
  }

  /** What a reader of index `x` sees. */
  ghost function View(s: Heap, x: nat): (idx: Index)
    requires Linked(s) && x in s.indexes
    ensures ValidIndex(idx)
  {
    Deref(RefsOf(s, x), s.filters)
  }

  lemma ViewCovers(fx: Facts, s: Heap, x: nat, k: string, c: string)
    requires Ok(fx, s) && x in s.indexes && k in View(s, x) && c in View(s, x)[k]
    ensures Covers(fx, s.indexes[x].tier, k, c, View(s, x)[k][c])
  {
    var t := s.indexes[x].tables[k];
    assert Covers(fx, s.tables[t].tier, s.tables[t].key, c, s.filters[s.tables[t].columns[c]]);
  }

  /** A query on a sound index keeps every file that meets its checks. */
  lemma SoundKeeps(fx: Facts, s: Heap, x: nat, unit: string, checks: seq<Check>)
    requires Ok(fx, s) && x in s.indexes && unit in fx.units && fx.keyAt(s.indexes[x].tier, unit).Some?
    requires forall c | c in checks :: c.value in fx.content(unit, c.column)
    ensures Keeps(fx.fnv, View(s, x), checks)(fx.keyAt(s.indexes[x].tier, unit).value)
  {
    var key := fx.keyAt(s.indexes[x].tier, unit).value;
    if key in View(s, x) {
      forall c | c in checks ensures !Rejects(fx.fnv, View(s, x)[key], c) {
        if c.column in View(s, x)[key] { ViewCovers(fx, s, x, key, c.column); }
      }
    }
  }

  // ---- Filters ---------------------------------------------------------------------

  /** Filters that lose no bit leave every index sound, whoever shares them. */
  lemma GrowingKeeps(fx: Facts, s: Heap, now: map<nat, Filter>)
    requires Ok(fx, s) && AllGrow(s.filters, now)
    ensures Ok(fx, s.(filters := now))
  {
    var s' := s.(filters := now);
    forall f | f in s'.filters ensures s'.filters[f].Valid() { assert Grows(s.filters[f], now[f]); }
    forall t, c | t in s'.tables && c in s'.tables[t].columns
      ensures Covers(fx, s'.tables[t].tier, s'.tables[t].key, c, s'.filters[s'.tables[t].columns[c]])
    {
      var id := s.tables[t].columns[c];
      CoversGrows(fx, s.tables[t].tier, s.tables[t].key, c, s.filters[id], now[id]);
    }
  }

  /** New filters beside the old ones. */
  ghost predicate Extends(filters: map<nat, Filter>, now: map<nat, Filter>) {
    && (forall f | f in filters :: f in now && now[f] == filters[f])
    && (forall f | f in now :: f in filters || now[f].Valid())
  }

  lemma ExtendingKeeps(fx: Facts, s: Heap, now: map<nat, Filter>)
    requires Ok(fx, s) && Extends(s.filters, now)
    ensures Ok(fx, s.(filters := now))
  {
    var s' := s.(filters := now);
    forall t, c | t in s'.tables && c in s'.tables[t].columns
      ensures Covers(fx, s'.tables[t].tier, s'.tables[t].key, c, s'.filters[s'.tables[t].columns[c]])
    {
      assert Covers(fx, s.tables[t].tier, s.tables[t].key, c, s.filters[s.tables[t].columns[c]]);
    }
  }

  // ---- Tables ----------------------------------------------------------------------

  /** The columns may be written under this key. */
  ghost predicate ColumnsCover(fx: Facts, tier: nat, key: string, columns: map<string, nat>, filters: map<nat, Filter>) {
    forall c | c in columns :: columns[c] in filters && Covers(fx, tier, key, c, filters[columns[c]])
  }

  /** The same heap with other tables, each of them sound. */
  lemma TablesKeep(fx: Facts, s: Heap, s': Heap)
    requires Linked(s) && s'.filters == s.filters
    requires forall t | t in s'.tables :: ColumnsCover(fx, s'.tables[t].tier, s'.tables[t].key, s'.tables[t].columns, s'.filters)
    requires forall x, k | x in s'.indexes && k in s'.indexes[x].tables ::
               && s'.indexes[x].tables[k] in s'.tables
               && s'.tables[s'.indexes[x].tables[k]].key == k && s'.tables[s'.indexes[x].tables[k]].tier == s'.indexes[x].tier
    ensures Ok(fx, s')
  {
    forall t, c | t in s'.tables && c in s'.tables[t].columns
      ensures s'.tables[t].columns[c] in s'.filters
      ensures Covers(fx, s'.tables[t].tier, s'.tables[t].key, c, s'.filters[s'.tables[t].columns[c]])
    {
      assert ColumnsCover(fx, s'.tables[t].tier, s'.tables[t].key, s'.tables[t].columns, s'.filters);
    }
  }

  lemma TableCovers(fx: Facts, s: Heap, t: nat)
    requires Ok(fx, s) && t in s.tables
    ensures ColumnsCover(fx, s.tables[t].tier, s.tables[t].key, s.tables[t].columns, s.filters)
  {}

  /** AddColumns: a key's table is updated in place where the index already has one, and
      is a new one where it has none. */
  function SetColumns(s: Heap, x: nat, key: string, columns: map<string, nat>, t: nat): Heap
    requires Linked(s) && x in s.indexes
  {
    var mine := s.indexes[x];
    if key in mine.tables then
      var held := mine.tables[key];
      s.(tables := s.tables[held := s.tables[held].(columns := s.tables[held].columns + columns)])
    else
      s.(tables := s.tables[t := Table(mine.tier, key, columns)], indexes := s.indexes[x := mine.(tables := mine.tables[key := t])])
  }

  lemma SetColumnsKeeps(fx: Facts, s: Heap, x: nat, key: string, columns: map<string, nat>, t: nat)
    requires Ok(fx, s) && x in s.indexes && t !in s.tables
    requires ColumnsCover(fx, s.indexes[x].tier, key, columns, s.filters)
    ensures Ok(fx, SetColumns(s, x, key, columns, t))
  {
    var s' := SetColumns(s, x, key, columns, t);
    forall u | u in s'.tables ensures ColumnsCover(fx, s'.tables[u].tier, s'.tables[u].key, s'.tables[u].columns, s'.filters) {
      if u in s.tables { TableCovers(fx, s, u); }
    }
    TablesKeep(fx, s, s');
  }

  /** MergeFrom: the other index's tables are shared under keys this one lacks, and their
      columns are written into this one's tables under keys both have. */
  function MergedTable(s: Heap, x: nat, y: nat, t: nat): Table
    requires Linked(s) && x in s.indexes && y in s.indexes && t in s.tables
  {
    var k, mine, theirs := s.tables[t].key, s.indexes[x].tables, s.indexes[y].tables;
    if k in mine && mine[k] == t && k in theirs
    then s.tables[t].(columns := s.tables[t].columns + s.tables[theirs[k]].columns) else s.tables[t]
  }

  function Merged(s: Heap, x: nat, y: nat): Heap
    requires Linked(s) && x in s.indexes && y in s.indexes
  {
    s.(tables := map t | t in s.tables :: MergedTable(s, x, y, t),
       indexes := s.indexes[x := s.indexes[x].(tables := s.indexes[y].tables + s.indexes[x].tables)])
  }

  lemma MergedKeeps(fx: Facts, s: Heap, x: nat, y: nat)
    requires Ok(fx, s) && x in s.indexes && y in s.indexes && s.indexes[x].tier == s.indexes[y].tier
    ensures Ok(fx, Merged(s, x, y))
  {
    var s' := Merged(s, x, y);
    forall t | t in s'.tables ensures ColumnsCover(fx, s'.tables[t].tier, s'.tables[t].key, s'.tables[t].columns, s'.filters) {
      TableCovers(fx, s, t);
      var k := s.tables[t].key;
      if k in s.indexes[y].tables { TableCovers(fx, s, s.indexes[y].tables[k]); }
    }
    TablesKeep(fx, s, s');
  }

  /** A new index `y` with new tables for these references, and nothing else changed. */
  ghost predicate NewTables(s: Heap, s': Heap, y: nat, tier: nat, refs: Refs) {
    && y !in s.indexes && y in s'.indexes && s'.indexes == s.indexes[y := s'.indexes[y]]
    && s'.indexes[y].tier == tier && s'.indexes[y].tables.Keys == refs.Keys
    && (forall k | k in refs ::
          var t := s'.indexes[y].tables[k]; t !in s.tables && t in s'.tables && s'.tables[t] == Table(tier, k, refs[k]))
    && (forall t | t in s.tables :: t in s'.tables && s'.tables[t] == s.tables[t])
    && (forall t | t in s'.tables && t !in s.tables :: s'.tables[t].key in refs && s'.indexes[y].tables[s'.tables[t].key] == t)
  }

  lemma NewTablesKeep(fx: Facts, s: Heap, s': Heap, y: nat, tier: nat, refs: Refs)
    requires Ok(fx, s.(filters := s'.filters)) && NewTables(s, s', y, tier, refs)
    requires forall k | k in refs :: ColumnsCover(fx, tier, k, refs[k], s'.filters)
    ensures Ok(fx, s')
  {
    var s1 := s.(filters := s'.filters);
    forall t | t in s'.tables ensures ColumnsCover(fx, s'.tables[t].tier, s'.tables[t].key, s'.tables[t].columns, s'.filters) {
      if t in s.tables {
        TableCovers(fx, s1, t);
      } else {
        assert s'.tables[t] == Table(tier, s'.tables[t].key, refs[s'.tables[t].key]);
      }
    }
    TablesKeep(fx, s1, s');
  }

  // ---- What the operations leave in an index --------------------------------------------

  /** Columns added under a key replace those of the same name; the rest of the index stays. */
  lemma ColumnsAdded(s: Heap, x: nat, key: string, columns: map<string, nat>, t: nat, k: string)
    requires Linked(s) && x in s.indexes && t !in s.tables && forall c | c in columns :: columns[c] in s.filters
    ensures var s' := SetColumns(s, x, key, columns, t);
            && Linked(s') && s'.filters == s.filters
            && (k in RefsOf(s', x) <==> k in RefsOf(s, x) || k == key)
            && (k == key ==> RefsOf(s', x)[k] == (if key in RefsOf(s, x) then RefsOf(s, x)[key] else map[]) + columns)
            && (k in RefsOf(s, x) && k != key ==> RefsOf(s', x)[k] == RefsOf(s, x)[k])
  {
    ColumnsLinked(s, x, key, columns, t);
    RefsAt(s, x, k);
    RefsAt(SetColumns(s, x, key, columns, t), x, k);
  }

  lemma ColumnsLinked(s: Heap, x: nat, key: string, columns: map<string, nat>, t: nat)
    requires Linked(s) && x in s.indexes && t !in s.tables && forall c | c in columns :: columns[c] in s.filters
    ensures Linked(SetColumns(s, x, key, columns, t))
  {}

  lemma RefsAt(s: Heap, x: nat, k: string)
    requires Linked(s) && x in s.indexes
    ensures k in RefsOf(s, x) <==> k in s.indexes[x].tables
    ensures k in s.indexes[x].tables ==> s.indexes[x].tables[k] in s.tables && RefsOf(s, x)[k] == s.tables[s.indexes[x].tables[k]].columns
  {}

  lemma MergedIsLinked(s: Heap, x: nat, y: nat)
    requires Linked(s) && x in s.indexes && y in s.indexes && s.indexes[x].tier == s.indexes[y].tier
    ensures Linked(Merged(s, x, y)) && Merged(s, x, y).filters == s.filters
  {}

  /** After a merge the index has the keys of both, and under each the columns of both, those
      of the other index where both have one. */
  lemma IndexesMerged(s: Heap, x: nat, y: nat, k: string)
    requires Linked(s) && x in s.indexes && y in s.indexes && s.indexes[x].tier == s.indexes[y].tier
    ensures var s' := Merged(s, x, y);
            && Linked(s') && (k in RefsOf(s', x) <==> k in RefsOf(s, x) || k in RefsOf(s, y))
            && (k in RefsOf(s', x) ==>
                  RefsOf(s', x)[k] == (if k in RefsOf(s, x) then RefsOf(s, x)[k] else map[]) + (if k in RefsOf(s, y) then RefsOf(s, y)[k] else map[]))
  {
    MergedIsLinked(s, x, y);
    RefsAt(s, x, k);
    RefsAt(s, y, k);
    RefsAt(Merged(s, x, y), x, k);
    MergedColumns(s, x, y, k);
  }

  lemma MergedColumns(s: Heap, x: nat, y: nat, k: string)
    requires Linked(s) && x in s.indexes && y in s.indexes
    ensures var s' := Merged(s, x, y);
            var mine, theirs, both := s.indexes[x].tables, s.indexes[y].tables, s'.indexes[x].tables;
            && (k in both <==> k in mine || k in theirs)
            && (k in both ==>
                  && both[k] in s'.tables
                  && s'.tables[both[k]].columns == (if k in mine then s.tables[mine[k]].columns else map[]) + (if k in theirs then s.tables[theirs[k]].columns else map[]))
  {}
}
