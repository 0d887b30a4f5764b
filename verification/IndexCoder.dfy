/** Marshal and Unmarshal of the bloom index as the source computes them: one pass to
    measure, one to append, maps walked in whatever order they come; and a reader that
    moves a position through the data. */
module IndexCoder {
  import opened Files
  import opened Wire
  import opened ItemLists
  import opened Sums
  import opened BloomIndex
  import opened IndexCodec

  // ---- Enumerations of the maps ------------------------------------------------------

  ghost predicate NamesDiffer(cs: seq<Column>) {
    forall i, j | 0 <= i < j < |cs| :: cs[i].name != cs[j].name
  }

  ghost predicate KeysDiffer(es: seq<Entry>) {
    forall i, j | 0 <= i < j < |es| :: es[i].key != es[j].key
  }

  /** `cs` walks the columns of `cols` once each. */
  ghost predicate WalksColumns(cs: seq<Column>, cols: Columns) {
    NamesDiffer(cs) && AddColumns(map[], cs) == cols
  }

  /** `es` walks the entries of `idx` once each, and each entry's columns. */
  ghost predicate Walks(es: seq<Entry>, idx: Index) {
    KeysDiffer(es) && (forall e | e in es :: NamesDiffer(e.columns)) && AddEntries(map[], es) == idx
  }

  lemma {:induction false} AddColumnsAppend(cols: Columns, cs: seq<Column>, c: Column)
    ensures AddColumns(cols, cs + [c]) == AddColumns(cols, cs)[c.name := c.filter]
    decreases |cs|
  {
    if cs == [] {
      assert [c][1..] == [] && cs + [c] == [c];
    } else {
      assert (cs + [c])[0] == cs[0] && (cs + [c])[1..] == cs[1..] + [c];
      AddColumnsAppend(cols[cs[0].name := cs[0].filter], cs[1..], c);
    }
  }

  lemma {:induction false} AddEntriesAppend(idx: Index, es: seq<Entry>, e: Entry)
    ensures AddEntries(idx, es + [e]) == AddEntries(idx, es)[e.key := AddColumns(map[], e.columns)]
    decreases |es|
  {
    if es == [] {
      assert [e][1..] == [] && es + [e] == [e];
    } else {
      assert (es + [e])[0] == es[0] && (es + [e])[1..] == es[1..] + [e];
      AddEntriesAppend(idx[es[0].key := AddColumns(map[], es[0].columns)], es[1..], e);
    }
  }

  // ---- Sizes ------------------------------------------------------------------------

  function ColumnSizes(cols: Columns): map<string, int> {
    map c | c in cols :: 1 + |c| + 4 + (|cols[c].bits| + 1)
  }

  ghost function ColumnsSizeOf(cols: Columns): int {
    Count(ColumnSizes(cols), cols.Keys)
  }

  ghost function EntrySizes(idx: Index): map<string, int> {
    map k | k in idx :: 2 + |k| + 2 + ColumnsSizeOf(idx[k])
  }

  /** What the first pass of Marshal reserves. */
  ghost function SizeOf(idx: Index): int {
    5 + Count(EntrySizes(idx), idx.Keys)
  }

  method MeasureColumns(cols: Columns) returns (size: int)
    ensures size == ColumnsSizeOf(cols)
  {
    size := 0;
    var todo := cols.Keys;
    while todo != {}
      invariant todo <= cols.Keys && size + Count(ColumnSizes(cols), todo) == ColumnsSizeOf(cols)
      decreases todo
    {
      var c :| c in todo;
      CountTake(ColumnSizes(cols), todo, c);
      size := size + (1 + |c| + 4 + (|cols[c].bits| + 1));
      todo := todo - {c};
    }
  }

  method Measure(idx: Index) returns (size: int)
    ensures size == SizeOf(idx)
  {
    size := 5;
    var todo := idx.Keys;
    while todo != {}
      invariant todo <= idx.Keys && size + Count(EntrySizes(idx), todo) == SizeOf(idx)
      decreases todo
    {
      var k :| k in todo;
      CountTake(EntrySizes(idx), todo, k);
      var columns := MeasureColumns(idx[k]);
      size := size + (2 + |k| + 2 + columns);
      todo := todo - {k};
    }
  }

  // ---- Marshal ------------------------------------------------------------------------

  /** The columns walked so far: a prefix of an enumeration, and what is left to count. */
  ghost predicate ColumnsWalked(cols: Columns, todo: set<string>, cs: seq<Column>, buf: Bytes) {
    && todo <= cols.Keys && NamesDiffer(cs) && buf == PutAll(PutColumn, cs)
    && AddColumns(map[], cs) == (map c | c in cols && c !in todo :: cols[c])
    && (forall c | c in cs :: c.name in cols && c.name !in todo)
    && |cs| + |todo| == |cols|
    && |buf| + Count(ColumnSizes(cols), todo) == ColumnsSizeOf(cols)
  }

  lemma WalkColumn(cols: Columns, todo: set<string>, cs: seq<Column>, buf: Bytes, name: string)
    requires ColumnsWalked(cols, todo, cs, buf) && name in todo
    ensures var c := Column(name, cols[name]);
            ColumnsWalked(cols, todo - {name}, cs + [c], buf + PutColumn(c))
  {
    var c := Column(name, cols[name]);
    AddColumnsAppend(map[], cs, c);
    PutAllAppend(PutColumn, cs, c);
    CountTake(ColumnSizes(cols), todo, name);
    forall i, j | 0 <= i < j < |cs + [c]| ensures (cs + [c])[i].name != (cs + [c])[j].name {
      if j == |cs| { assert cs[i] in cs; }
    }
  }

  method MarshalColumns(cols: Columns) returns (buf: Bytes, ghost cs: seq<Column>)
    ensures WalksColumns(cs, cols) && buf == PutAll(PutColumn, cs) && |cs| == |cols| && |buf| == ColumnsSizeOf(cols)
  {
    buf, cs := [], [];
    var todo := cols.Keys;
    while todo != {}
      invariant ColumnsWalked(cols, todo, cs, buf)
      decreases todo
    {
      var name :| name in todo;
      WalkColumn(cols, todo, cs, buf, name);
      cs := cs + [Column(name, cols[name])];
      buf := buf + PutColumn(Column(name, cols[name]));
      todo := todo - {name};
    }
    assert cols == map c | c in cols && c !in todo :: cols[c];
  }

  ghost predicate EntryWalked(idx: Index, e: Entry) {
    e.key in idx && |e.columns| == |idx[e.key]| && WalksColumns(e.columns, idx[e.key])
  }

  ghost predicate EntriesWalked(idx: Index, todo: set<string>, es: seq<Entry>, buf: Bytes) {
    && todo <= idx.Keys && KeysDiffer(es) && buf == PutAll(PutEntry, es)
    && AddEntries(map[], es) == (map k | k in idx && k !in todo :: idx[k])
    && (forall e | e in es :: EntryWalked(idx, e) && e.key !in todo)
    && |es| + |todo| == |idx|
    && |buf| + Count(EntrySizes(idx), todo) == Count(EntrySizes(idx), idx.Keys)
  }

  lemma WalkEntry(idx: Index, todo: set<string>, es: seq<Entry>, buf: Bytes, e: Entry)
    requires EntriesWalked(idx, todo, es, buf) && e.key in todo
    requires EntryWalked(idx, e)
    requires |PutAll(PutColumn, e.columns)| == ColumnsSizeOf(idx[e.key])
    ensures EntriesWalked(idx, todo - {e.key}, es + [e], buf + PutEntry(e))
  {
    AddEntriesAppend(map[], es, e);
    PutAllAppend(PutEntry, es, e);
    CountTake(EntrySizes(idx), todo, e.key);
    OneMoreKey(es, e);
    OneMoreDone(idx, todo, e.key);
    assert |PutEntry(e)| == EntrySizes(idx)[e.key];
  }

  lemma OneMoreDone<V>(m: map<string, V>, todo: set<string>, k: string)
    requires k in todo && todo <= m.Keys
    ensures (map x | x in m && x !in todo :: m[x])[k := m[k]] == map x | x in m && x !in todo - {k} :: m[x]
  {}

  lemma OneMoreKey(es: seq<Entry>, e: Entry)
    requires KeysDiffer(es) && forall x | x in es :: x.key != e.key
    ensures KeysDiffer(es + [e])
  {
    forall i, j | 0 <= i < j < |es + [e]| ensures (es + [e])[i].key != (es + [e])[j].key {
      if j == |es| { assert es[i] in es; }
    }
  }

  lemma WholeWalk(idx: Index, es: seq<Entry>, buf: Bytes)
    requires EntriesWalked(idx, {}, es, buf)
    ensures Walks(es, idx) && |es| == |idx| && 5 + |buf| == SizeOf(idx)
  {
    assert idx == map k | k in idx && k !in {} :: idx[k];
    forall e | e in es ensures NamesDiffer(e.columns) { assert EntryWalked(idx, e); }
  }

  method MarshalEntries(idx: Index) returns (buf: Bytes, ghost es: seq<Entry>)
    ensures EntriesWalked(idx, {}, es, buf)
  {
    buf, es := [], [];
    var todo := idx.Keys;
    while todo != {}
      invariant EntriesWalked(idx, todo, es, buf)
      decreases todo
    {
      var key :| key in todo;
      var columns, cs := MarshalColumns(idx[key]);
      ghost var e := Entry(key, cs);
      WalkEntry(idx, todo, es, buf, e);
      es := es + [e];
      buf := buf + (Put16(|key|) + (ToBytes(key) + (Put16(|idx[key]|) + columns)));
      todo := todo - {key};
    }
  }

  /** Marshal: the bytes of one enumeration, exactly as many as the first pass reserved. */
  method Marshal(idx: Index) returns (buf: Bytes, ghost es: seq<Entry>)
    ensures Walks(es, idx) && buf == Put(es) && |buf| == SizeOf(idx)
  {
    var size := Measure(idx);
    var entries;
    entries, es := MarshalEntries(idx);
    buf := [Byte(2)] + (Put32(|idx|) + entries);
    WholeWalk(idx, es, entries);
    assert |buf| == size;
  }

  // ---- Unmarshal ------------------------------------------------------------------------

  lemma SizedFilterReadsOn(s: Bytes)
    requires GetSizedFilter(s).Some?
    ensures Leaves(s, GetSizedFilter(s).value.1)
  {}

  lemma NameReadsOn(s: Bytes)
    requires GetName(s).Some?
    ensures Leaves(s, GetName(s).value.1)
  {}

  lemma KeyReadsOn(s: Bytes)
    requires GetKey(s).Some?
    ensures Leaves(s, GetKey(s).value.1)
  {}

  lemma ColumnReadsOn()
    ensures ReadsOn(GetColumn)
  {
    forall s | GetColumn(s).Some? ensures Leaves(s, GetColumn(s).value.1) {
      var rest := GetName(s).value.1;
      NameReadsOn(s);
      SizedFilterReadsOn(rest);
      LeavesMore(s, rest, GetSizedFilter(rest).value.1);
    }
  }

  lemma ColumnsReadOn(get: Bytes -> Option<(Column, Bytes)>, s: Bytes)
    requires ReadsOn(get) && GetColumns(get, s).Some?
    ensures Leaves(s, GetColumns(get, s).value.1)
  {
    GetAllReadsOn(get, s[2..], Get16(s));
    LeavesMore(s, s[2..], GetColumns(get, s).value.1);
  }

  lemma EntryV2ReadsOn()
    ensures ReadsOn(GetEntryV2)
  {
    ColumnReadsOn();
    forall s | GetEntryV2(s).Some? ensures Leaves(s, GetEntryV2(s).value.1) {
      var rest := GetKey(s).value.1;
      KeyReadsOn(s);
      ColumnsReadOn(GetColumn, rest);
      LeavesMore(s, rest, GetEntryV2(s).value.1);
    }
  }

  lemma EntryV1ReadsOn()
    ensures ReadsOn(GetEntryV1)
  {
    forall s | GetEntryV1(s).Some? ensures Leaves(s, GetEntryV1(s).value.1) {
      var rest := GetKey(s).value.1;
      KeyReadsOn(s);
      SizedFilterReadsOn(rest);
      LeavesMore(s, rest, GetEntryV1(s).value.1);
    }
  }

  /** What is read goes into the maps in turn: a repeated name or key keeps the last. */
  method FillColumns(cs: seq<Column>) returns (cols: Columns)
    ensures cols == AddColumns(map[], cs)
  {
    cols := map[];
    for i := 0 to |cs|
      invariant cols == AddColumns(map[], cs[..i])
    {
      assert cs[..i + 1] == cs[..i] + [cs[i]];
      AddColumnsAppend(map[], cs[..i], cs[i]);
      cols := cols[cs[i].name := cs[i].filter];
    }
    assert cs[..|cs|] == cs;
  }

  method FillIndex(es: seq<Entry>) returns (idx: Index)
    ensures idx == AddEntries(map[], es)
  {
    idx := map[];
    for i := 0 to |es|
      invariant idx == AddEntries(map[], es[..i])
    {
      assert es[..i + 1] == es[..i] + [es[i]];
      AddEntriesAppend(map[], es[..i], es[i]);
      var cols := FillColumns(es[i].columns);
      idx := idx[es[i].key := cols];
    }
    assert es[..|es|] == es;
  }

  /** The header checks and the entry loop of unmarshalV1 and unmarshalV2. */
  method ReadBody(get: Bytes -> Option<(Entry, Bytes)>, data: Bytes, minSize: nat) returns (r: Option<Index>)
    requires minSize > 0 && ReadsOn(get) && |data| >= 5
    ensures r == GetBody(get, data[1..], minSize)
  {
    var count := Get32(data[1..]);
    if count > MAX_ENTRIES { return None; }
    if count > (|data| - 5) / minSize { return None; }
    assert data[1..][4..] == data[5..];
    var es, _ := ReadEach(get, data, 5, count);
    if es.None? { return None; }
    var idx := FillIndex(es.value);
    return Some(idx);
  }

  /** Unmarshal: the version byte chooses the reader. */
  method Unmarshal(data: Bytes) returns (r: Option<Index>)
    ensures r == Get(data)
  {
    if |data| < 5 { return None; }
    if Value(data[0]) == 1 {
      EntryV1ReadsOn();
      r := ReadBody(GetEntryV1, data, MIN_ENTRY_V1);
    } else if Value(data[0]) == 2 {
      EntryV2ReadsOn();
      r := ReadBody(GetEntryV2, data, MIN_ENTRY_V2);
    } else {
      r := None;
    }
  }
}
