/** The bloom index survives its binary form: every enumeration of its maps decodes to
    the index itself, and whatever a reader accepts can be written and read again. */
module IndexRoundTrip {
  import opened Files
  import opened Wire
  import opened ItemLists
  import opened BloomIndex
  import opened IndexCodec
  import opened IndexCoder

  // ---- An index within the format's widths ----------------------------------------------

  ghost predicate EachColumnFits(cols: Columns) {
    forall c | c in cols :: ColumnFits(Column(c, cols[c]))
  }

  ghost predicate ColumnsFit(cols: Columns) {
    |cols| < 0x1_0000 && EachColumnFits(cols)
  }

  ghost predicate KeyedColumnsFit(key: string, cols: Columns) {
    |key| < 0x1_0000 && IsBytes(key) && ColumnsFit(cols)
  }

  ghost predicate EachEntryFits(idx: Index) {
    forall k | k in idx :: KeyedColumnsFit(k, idx[k])
  }

  ghost predicate IndexFits(idx: Index) {
    |idx| <= MAX_ENTRIES && EachEntryFits(idx)
  }

  lemma MapGrows<K, V>(m: map<K, V>, k: K, v: V)
    ensures |m[k := v]| == if k in m then |m| else |m| + 1
  {
    var n := m[k := v];
    assert n.Keys == m.Keys + {k} && |n.Keys| == |n| && |m.Keys| == |m|;
  }

  lemma {:induction false} ColumnsKeep(cols: Columns, cs: seq<Column>, name: string)
    requires forall c | c in cs :: c.name != name
    ensures name in AddColumns(cols, cs) <==> name in cols
    ensures name in cols ==> AddColumns(cols, cs)[name] == cols[name]
    decreases |cs|
  {
    if cs != [] {
      assert cs[0] in cs && forall c | c in cs[1..] :: c in cs;
      ColumnsKeep(cols[cs[0].name := cs[0].filter], cs[1..], name);
    }
  }

  lemma NamesAfter(cs: seq<Column>)
    requires cs != [] && NamesDiffer(cs)
    ensures NamesDiffer(cs[1..]) && forall c | c in cs[1..] :: c.name != cs[0].name
  {
    forall i, j | 0 <= i < j < |cs[1..]| ensures cs[1..][i].name != cs[1..][j].name {
      assert cs[1..][i] == cs[i + 1] && cs[1..][j] == cs[j + 1];
    }
    forall c | c in cs[1..] ensures c.name != cs[0].name {
      var i :| 0 <= i < |cs[1..]| && cs[1..][i] == c;
      assert cs[i + 1] == c;
    }
  }

  /** A walk with distinct names has as many columns as the map, and they are its own. */
  lemma {:induction false} ColumnsWalkSize(cols: Columns, cs: seq<Column>)
    requires NamesDiffer(cs) && forall c | c in cs :: c.name !in cols
    ensures |AddColumns(cols, cs)| == |cols| + |cs|
    ensures forall c | c in cs :: c.name in AddColumns(cols, cs) && AddColumns(cols, cs)[c.name] == c.filter
    decreases |cs|
  {
    if cs != [] {
      var next := cols[cs[0].name := cs[0].filter];
      assert cs == [cs[0]] + cs[1..] && cs[0] in cs && forall c | c in cs[1..] :: c in cs;
      NamesAfter(cs);
      ColumnsWalkSize(next, cs[1..]);
      ColumnsKeep(next, cs[1..], cs[0].name);
      MapGrows(cols, cs[0].name, cs[0].filter);
    }
  }

  lemma {:induction false} EntriesKeep(idx: Index, es: seq<Entry>, key: string)
    requires forall e | e in es :: e.key != key
    ensures key in AddEntries(idx, es) <==> key in idx
    ensures key in idx ==> AddEntries(idx, es)[key] == idx[key]
    decreases |es|
  {
    if es != [] {
      assert es[0] in es && forall e | e in es[1..] :: e in es;
      EntriesKeep(idx[es[0].key := AddColumns(map[], es[0].columns)], es[1..], key);
    }
  }

  lemma KeysAfter(es: seq<Entry>)
    requires es != [] && KeysDiffer(es)
    ensures KeysDiffer(es[1..]) && forall e | e in es[1..] :: e.key != es[0].key
  {
    forall i, j | 0 <= i < j < |es[1..]| ensures es[1..][i].key != es[1..][j].key {
      assert es[1..][i] == es[i + 1] && es[1..][j] == es[j + 1];
    }
    forall e | e in es[1..] ensures e.key != es[0].key {
      var i :| 0 <= i < |es[1..]| && es[1..][i] == e;
      assert es[i + 1] == e;
    }
  }

  lemma {:induction false} EntriesWalkSize(idx: Index, es: seq<Entry>)
    requires KeysDiffer(es) && forall e | e in es :: e.key !in idx
    ensures |AddEntries(idx, es)| == |idx| + |es|
    ensures forall e | e in es :: e.key in AddEntries(idx, es) && AddEntries(idx, es)[e.key] == AddColumns(map[], e.columns)
    decreases |es|
  {
    if es != [] {
      var next := idx[es[0].key := AddColumns(map[], es[0].columns)];
      assert es == [es[0]] + es[1..] && es[0] in es && forall e | e in es[1..] :: e in es;
      KeysAfter(es);
      EntriesWalkSize(next, es[1..]);
      EntriesKeep(next, es[1..], es[0].key);
      MapGrows(idx, es[0].key, AddColumns(map[], es[0].columns));
    }
  }

  lemma EntryOfFitting(e: Entry, cols: Columns)
    requires NamesDiffer(e.columns) && AddColumns(map[], e.columns) == cols && ColumnsFit(cols)
    requires |e.key| < 0x1_0000 && IsBytes(e.key)
    ensures EntryFits(e)
  {
    ColumnsWalkSize(map[], e.columns);
    forall c | c in e.columns ensures ColumnFits(c) {
      assert ColumnFits(Column(c.name, cols[c.name]));
    }
  }

  lemma WalkFits(es: seq<Entry>, idx: Index)
    requires Walks(es, idx) && IndexFits(idx)
    ensures Fits(es)
  {
    EntriesWalkSize(map[], es);
    forall e | e in es ensures EntryFits(e) {
      EntryOfFitting(e, idx[e.key]);
    }
  }

  /** Unmarshal(Marshal(idx)) is idx, in whatever order Marshal walked the maps. */
  lemma MarshalUnmarshal(es: seq<Entry>, idx: Index)
    requires Walks(es, idx) && IndexFits(idx)
    ensures Get(Put(es)) == Some(idx)
  {
    WalkFits(es, idx);
    PutGet(es, []);
    assert Put(es) + [] == Put(es);
  }

  // ---- Whatever is accepted can be written again ------------------------------------------

  lemma SizedFilterFits(s: Bytes)
    requires GetSizedFilter(s).Some?
    ensures var f := GetSizedFilter(s).value.0; f.Valid() && 1 + |f.bits| < 0x1_0000_0000
  {}

  lemma KeyFits(s: Bytes)
    requires GetKey(s).Some?
    ensures |GetKey(s).value.0| < 0x1_0000 && IsBytes(GetKey(s).value.0)
  {
    FromBytesIsBytes(s[2..][..Get16(s)]);
  }

  lemma ColumnReadFits(s: Bytes)
    requires GetColumn(s).Some?
    ensures ColumnFits(GetColumn(s).value.0)
  {
    FromBytesIsBytes(s[1..][..Value(s[0])]);
    SizedFilterFits(GetName(s).value.1);
  }

  lemma ColumnsReadFit(get: Bytes -> Option<(Column, Bytes)>, s: Bytes)
    requires (forall u | get(u).Some? :: ColumnFits(get(u).value.0)) && GetColumns(get, s).Some?
    ensures |GetColumns(get, s).value.0| < 0x1_0000 && forall c | c in GetColumns(get, s).value.0 :: ColumnFits(c)
  {
    GetAllEach(get, ColumnFits, s[2..], Get16(s));
  }

  lemma EntryV2Fits(s: Bytes)
    requires GetEntryV2(s).Some?
    ensures EntryFits(GetEntryV2(s).value.0)
  {
    KeyFits(s);
    forall u | GetColumn(u).Some? ensures ColumnFits(GetColumn(u).value.0) { ColumnReadFits(u); }
    ColumnsReadFit(GetColumn, GetKey(s).value.1);
  }

  lemma EntryV1Fits(s: Bytes)
    requires GetEntryV1(s).Some?
    ensures EntryFits(GetEntryV1(s).value.0)
  {
    KeyFits(s);
    SizedFilterFits(GetKey(s).value.1);
  }

  lemma BodyFits(get: Bytes -> Option<(Entry, Bytes)>, s: Bytes, minSize: nat)
    requires minSize > 0 && (forall u | get(u).Some? :: EntryFits(get(u).value.0)) && GetBody(get, s, minSize).Some?
    ensures IndexFits(GetBody(get, s, minSize).value)
  {
    GetAllEach(get, EntryFits, s[4..], Get32(s));
    var es := GetAll(get, s[4..], Get32(s)).value.0;
    AddedEntriesFit(map[], es);
  }

  lemma {:induction false} AddedColumnsFit(cols: Columns, cs: seq<Column>)
    requires EachColumnFits(cols) && forall c | c in cs :: ColumnFits(c)
    ensures EachColumnFits(AddColumns(cols, cs)) && |AddColumns(cols, cs)| <= |cols| + |cs|
    decreases |cs|
  {
    if cs != [] {
      assert cs[0] in cs && forall c | c in cs[1..] :: c in cs;
      MapGrows(cols, cs[0].name, cs[0].filter);
      OneMoreColumn(cols, cs[0]);
      AddedColumnsFit(cols[cs[0].name := cs[0].filter], cs[1..]);
    }
  }

  lemma OneMoreColumn(cols: Columns, c: Column)
    requires EachColumnFits(cols) && ColumnFits(c)
    ensures EachColumnFits(cols[c.name := c.filter])
  {}

  lemma {:induction false} AddedEntriesFit(idx: Index, es: seq<Entry>)
    requires EachEntryFits(idx) && forall e | e in es :: EntryFits(e)
    ensures EachEntryFits(AddEntries(idx, es)) && |AddEntries(idx, es)| <= |idx| + |es|
    decreases |es|
  {
    if es != [] {
      assert es[0] in es && forall e | e in es[1..] :: e in es;
      var cols := AddColumns(map[], es[0].columns);
      AddedColumnsFit(map[], es[0].columns);
      MapGrows(idx, es[0].key, cols);
      assert EachEntryFits(idx[es[0].key := cols]);
      AddedEntriesFit(idx[es[0].key := cols], es[1..]);
    }
  }

  lemma ReadFits(v1: Bytes -> Option<Index>, v2: Bytes -> Option<Index>, s: Bytes)
    requires (forall u | v1(u).Some? :: IndexFits(v1(u).value)) && (forall u | v2(u).Some? :: IndexFits(v2(u).value))
    requires Dispatch(v1, v2, s).Some?
    ensures IndexFits(Dispatch(v1, v2, s).value)
  {}

  lemma V1Fits(s: Bytes)
    requires GetV1(s).Some?
    ensures IndexFits(GetV1(s).value)
  {
    forall u | GetEntryV1(u).Some? ensures EntryFits(GetEntryV1(u).value.0) { EntryV1Fits(u); }
    BodyFits(GetEntryV1, s, MIN_ENTRY_V1);
  }

  lemma V2Fits(s: Bytes)
    requires GetV2(s).Some?
    ensures IndexFits(GetV2(s).value)
  {
    forall u | GetEntryV2(u).Some? ensures EntryFits(GetEntryV2(u).value.0) { EntryV2Fits(u); }
    BodyFits(GetEntryV2, s, MIN_ENTRY_V2);
  }

  /** Bytes of either version that are accepted decode to an index that can be written
      and read back unchanged. */
  lemma AcceptedReencodes(s: Bytes, es: seq<Entry>)
    requires Get(s).Some? && Walks(es, Get(s).value)
    ensures Get(Put(es)) == Get(s)
  {
    forall u | GetV1(u).Some? ensures IndexFits(GetV1(u).value) { V1Fits(u); }
    forall u | GetV2(u).Some? ensures IndexFits(GetV2(u).value) { V2Fits(u); }
    ReadFits(GetV1, GetV2, s);
    MarshalUnmarshal(es, Get(s).value);
  }

  // ---- The checksum wrapper ------------------------------------------------------------------

  const CHECKSUM: nat := 32

  type Sum = Bytes -> Bytes

  function PutSealed(sha: Sum, es: seq<Entry>): Bytes {
    Put(es) + sha(Put(es))
  }

  function GetSealed(sha: Sum, data: Bytes): Option<Index> {
    if |data| < CHECKSUM + 5 then None
    else
      var payload, stored := data[..|data| - CHECKSUM], data[|data| - CHECKSUM..];
      if sha(payload) != stored then None else Get(payload)
  }

  /** UnmarshalWithChecksum compares the stored bytes one by one. */
  method UnmarshalSealed(sha: Sum, data: Bytes) returns (r: Option<Index>)
    requires forall s :: |sha(s)| == CHECKSUM
    ensures r == GetSealed(sha, data)
    ensures r.Some? ==> |data| >= 37 && sha(data[..|data| - 32]) == data[|data| - 32..]
    ensures |data| >= 37 && sha(data[..|data| - 32]) == data[|data| - 32..] ==> r == Get(data[..|data| - 32])
  {
    if |data| < CHECKSUM + 5 { return None; }
    var payload, stored := data[..|data| - CHECKSUM], data[|data| - CHECKSUM..];
    var computed := sha(payload);
    for i := 0 to CHECKSUM
      invariant stored[..i] == computed[..i]
    {
      if stored[i] != computed[i] { return None; }
    }
    assert stored[..CHECKSUM] == stored && computed[..CHECKSUM] == computed;
    r := Unmarshal(payload);
  }

  lemma SealedRoundTrip(sha: Sum, es: seq<Entry>, idx: Index)
    requires (forall s :: |sha(s)| == CHECKSUM) && Walks(es, idx) && IndexFits(idx)
    ensures GetSealed(sha, PutSealed(sha, es)) == Some(idx)
  {
    var payload, data := Put(es), PutSealed(sha, es);
    assert data[..|data| - CHECKSUM] == payload && data[|data| - CHECKSUM..] == sha(payload);
    MarshalUnmarshal(es, idx);
  }
}
