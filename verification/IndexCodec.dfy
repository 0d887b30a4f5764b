/** The binary form of the bloom index (internal/bloomindex/bloomindex.go, Marshal and
    Unmarshal): what the writer appends for each enumeration of its maps, and what the
    readers of both versions accept. The readers are stated on the unread bytes. */
module IndexCodec {
  import opened Files
  import opened Wire
  import opened ItemLists
  import Bloom
  import opened BloomIndex

  const MAX_ENTRIES: nat := 1_000_000
  const MIN_ENTRY_V1: nat := 8
  const MIN_ENTRY_V2: nat := 4
  const MIN_COLUMN: nat := 7
  const TRACE_ID: string := "trace_id"

  datatype Column = Column(name: string, filter: Bloom.Filter)
  datatype Entry = Entry(key: string, columns: seq<Column>)

  /** The columns as the reader's map holds them: a repeated name keeps the last. */
  function AddColumns(cols: Columns, cs: seq<Column>): Columns
    decreases |cs|
  {
    if cs == [] then cols else AddColumns(cols[cs[0].name := cs[0].filter], cs[1..])
  }

  function AddEntries(idx: Index, es: seq<Entry>): Index
    decreases |es|
  {
    if es == [] then idx else AddEntries(idx[es[0].key := AddColumns(map[], es[0].columns)], es[1..])
  }

  // ---- Writing --------------------------------------------------------------------

  function PutFilter(f: Bloom.Filter): (r: Bytes)
    ensures |r| == 1 + |f.bits|
  {
    [Byte(f.hashes)] + FromBits(f.bits)
  }

  function PutColumn(c: Column): (r: Bytes)
    ensures |r| == 6 + |c.name| + |c.filter.bits|
  {
    [Byte(|c.name|)] + (ToBytes(c.name) + (Put32(1 + |c.filter.bits|) + PutFilter(c.filter)))
  }

  function PutEntry(e: Entry): (r: Bytes)
    ensures |r| >= MIN_ENTRY_V2
  {
    Put16(|e.key|) + (ToBytes(e.key) + (Put16(|e.columns|) + PutAll(PutColumn, e.columns)))
  }

  function Put(es: seq<Entry>): Bytes {
    [Byte(2)] + (Put32(|es|) + PutAll(PutEntry, es))
  }

  // ---- Reading --------------------------------------------------------------------

  /** checkCount: a count that the unread bytes cannot hold is refused. */
  predicate CountFits(count: nat, unread: nat, minSize: nat)
    requires minSize > 0
  {
    count <= unread / minSize
  }

  function GetFilter(s: Bytes): Option<Bloom.Filter> {
    if |s| < 2 then None else Some(Bloom.Filter(ToBits(s[1..]), Value(s[0])))
  }

  /** filter_len, then that many bytes. */
  function GetSizedFilter(s: Bytes): Option<(Bloom.Filter, Bytes)> {
    if |s| < 4 then None
    else if Get32(s) > |s| - 4 then None
    else
      match GetFilter(s[4..][..Get32(s)])
      case None => None
      case Some(f) => Some((f, s[4..][Get32(s)..]))
  }

  /** name_len in one byte, then the name. */
  function GetName(s: Bytes): Option<(string, Bytes)> {
    if |s| < 1 then None
    else if Value(s[0]) > |s| - 1 then None
    else Some((FromBytes(s[1..][..Value(s[0])]), s[1..][Value(s[0])..]))
  }

  function GetColumn(s: Bytes): Option<(Column, Bytes)> {
    match GetName(s)
    case None => None
    case Some((name, rest)) =>
      match GetSizedFilter(rest)
      case None => None
      case Some((f, rest')) => Some((Column(name, f), rest'))
  }

  /** key_len, then the key. */
  function GetKey(s: Bytes): Option<(string, Bytes)> {
    if |s| < 2 then None
    else if Get16(s) > |s| - 2 then None
    else Some((FromBytes(s[2..][..Get16(s)]), s[2..][Get16(s)..]))
  }

  /** col_count, then the columns. */
  function GetColumns(get: Bytes -> Option<(Column, Bytes)>, s: Bytes): Option<(seq<Column>, Bytes)> {
    if |s| < 2 then None
    else if !CountFits(Get16(s), |s| - 2, MIN_COLUMN) then None
    else GetAll(get, s[2..], Get16(s))
  }

  function GetEntryV2(s: Bytes): Option<(Entry, Bytes)> {
    match GetKey(s)
    case None => None
    case Some((key, rest)) =>
      match GetColumns(GetColumn, rest)
      case None => None
      case Some((cs, rest')) => Some((Entry(key, cs), rest'))
  }

  /** Version 1: one filter, for the trace id. */
  function GetEntryV1(s: Bytes): Option<(Entry, Bytes)> {
    match GetKey(s)
    case None => None
    case Some((key, rest)) =>
      match GetSizedFilter(rest)
      case None => None
      case Some((f, rest')) => Some((Entry(key, [Column(TRACE_ID, f)]), rest'))
  }

  /** The entries behind the version byte. */
  function GetBody(get: Bytes -> Option<(Entry, Bytes)>, s: Bytes, minSize: nat): Option<Index>
    requires minSize > 0
  {
    if |s| < 4 || Get32(s) > MAX_ENTRIES then None
    else if !CountFits(Get32(s), |s| - 4, minSize) then None
    else
      match GetAll(get, s[4..], Get32(s))
      case None => None
      case Some((es, _)) => Some(AddEntries(map[], es))
  }

  function GetV1(s: Bytes): Option<Index> {
    GetBody(GetEntryV1, s, MIN_ENTRY_V1)
  }

  function GetV2(s: Bytes): Option<Index> {
    GetBody(GetEntryV2, s, MIN_ENTRY_V2)
  }

  /** The version byte chooses the reader. */
  function Dispatch(v1: Bytes -> Option<Index>, v2: Bytes -> Option<Index>, s: Bytes): Option<Index> {
    if |s| < 5 then None
    else if Value(s[0]) == 1 then v1(s[1..])
    else if Value(s[0]) == 2 then v2(s[1..])
    else None
  }

  function Get(s: Bytes): Option<Index> {
    Dispatch(GetV1, GetV2, s)
  }

  // ---- What is written is read back ----------------------------------------------------

  /** The widths of the format's length fields. */
  ghost predicate ColumnFits(c: Column) {
    |c.name| < 256 && IsBytes(c.name) && c.filter.Valid() && 1 + |c.filter.bits| < 0x1_0000_0000
  }

  ghost predicate EntryFits(e: Entry) {
    && |e.key| < 0x1_0000 && IsBytes(e.key) && |e.columns| < 0x1_0000
    && forall c | c in e.columns :: ColumnFits(c)
  }

  ghost predicate Fits(es: seq<Entry>) {
    |es| <= MAX_ENTRIES && forall e | e in es :: EntryFits(e)
  }

  lemma FilterRoundTrip(f: Bloom.Filter)
    requires f.Valid()
    ensures GetFilter(PutFilter(f)) == Some(f)
  {
    assert PutFilter(f)[1..] == FromBits(f.bits);
    BitsRoundTrip(f.bits);
  }

  lemma SizedFilterRoundTrip(f: Bloom.Filter, post: Bytes)
    requires f.Valid() && 1 + |f.bits| < 0x1_0000_0000
    ensures GetSizedFilter(Put32(1 + |f.bits|) + PutFilter(f) + post) == Some((f, post))
  {
    var n, body := 1 + |f.bits|, PutFilter(f);
    assert Put32(n) + body + post == Put32(n) + (body + post);
    Get32Put32(n, body + post);
    assert (body + post)[..n] == body && (body + post)[n..] == post;
    FilterRoundTrip(f);
  }

  lemma NameRoundTrip(name: string, post: Bytes)
    requires |name| < 256 && IsBytes(name)
    ensures GetName([Byte(|name|)] + ToBytes(name) + post) == Some((name, post))
  {
    var s, body := [Byte(|name|)] + ToBytes(name) + post, ToBytes(name) + post;
    assert s[0] == Byte(|name|) && s[1..] == body;
    assert body[..|name|] == ToBytes(name) && body[|name|..] == post;
    StringRoundTrip(name);
  }

  lemma ColumnRoundTrip(c: Column, post: Bytes)
    requires ColumnFits(c)
    ensures GetColumn(PutColumn(c) + post) == Some((c, post))
  {
    var rest := Put32(1 + |c.filter.bits|) + PutFilter(c.filter) + post;
    assert PutColumn(c) + post == [Byte(|c.name|)] + ToBytes(c.name) + rest;
    NameRoundTrip(c.name, rest);
    SizedFilterRoundTrip(c.filter, post);
  }

  lemma KeyRoundTrip(key: string, post: Bytes)
    requires |key| < 0x1_0000 && IsBytes(key)
    ensures GetKey(Put16(|key|) + ToBytes(key) + post) == Some((key, post))
  {
    var body := ToBytes(key);
    assert Put16(|key|) + body + post == Put16(|key|) + (body + post);
    Get16Put16(|key|, body + post);
    assert (body + post)[..|key|] == body && (body + post)[|key|..] == post;
    StringRoundTrip(key);
  }

  lemma ColumnsRoundTrip(
    put: Column -> Bytes, get: Bytes -> Option<(Column, Bytes)>, cs: seq<Column>, post: Bytes)
    requires |cs| < 0x1_0000 && forall c | c in cs :: |put(c)| >= MIN_COLUMN
    requires forall c, rest | c in cs :: get(put(c) + rest) == Some((c, rest))
    ensures GetColumns(get, Put16(|cs|) + (PutAll(put, cs) + post)) == Some((cs, post))
  {
    Get16Put16(|cs|, PutAll(put, cs) + post);
    PutAllSize(put, cs, MIN_COLUMN);
    GetAllPutAll(put, get, cs, post);
  }

  lemma EntryRoundTrip(e: Entry, post: Bytes)
    requires EntryFits(e)
    ensures GetEntryV2(PutEntry(e) + post) == Some((e, post))
  {
    var rest := Put16(|e.columns|) + (PutAll(PutColumn, e.columns) + post);
    assert PutEntry(e) + post == Put16(|e.key|) + ToBytes(e.key) + rest;
    KeyRoundTrip(e.key, rest);
    forall c, more | c in e.columns ensures GetColumn(PutColumn(c) + more) == Some((c, more)) { ColumnRoundTrip(c, more); }
    ColumnsRoundTrip(PutColumn, GetColumn, e.columns, post);
  }

  lemma BodyRoundTrip(put: Entry -> Bytes, get: Bytes -> Option<(Entry, Bytes)>, es: seq<Entry>, least: nat, post: Bytes)
    requires least > 0 && |es| <= MAX_ENTRIES && CountFits(|es|, |PutAll(put, es) + post|, least)
    requires forall e, rest | e in es :: get(put(e) + rest) == Some((e, rest))
    ensures GetBody(get, Put32(|es|) + (PutAll(put, es) + post), least) == Some(AddEntries(map[], es))
  {
    Get32Put32(|es|, PutAll(put, es) + post);
    GetAllPutAll(put, get, es, post);
  }

  lemma ReadsVersion2(v1: Bytes -> Option<Index>, v2: Bytes -> Option<Index>, body: Bytes)
    requires |body| >= 4
    ensures Dispatch(v1, v2, [Byte(2)] + body) == v2(body) && Dispatch(v1, v2, [Byte(1)] + body) == v1(body)
  {
    var s, t := [Byte(2)] + body, [Byte(1)] + body;
    assert s[0] == Byte(2) && s[1..] == body && t[0] == Byte(1) && t[1..] == body;
  }

  lemma V2RoundTrip(es: seq<Entry>, post: Bytes)
    requires Fits(es)
    ensures GetV2(Put32(|es|) + (PutAll(PutEntry, es) + post)) == Some(AddEntries(map[], es))
  {
    forall e, rest | e in es ensures GetEntryV2(PutEntry(e) + rest) == Some((e, rest)) { EntryRoundTrip(e, rest); }
    PutAllSize(PutEntry, es, MIN_ENTRY_V2);
    BodyRoundTrip(PutEntry, GetEntryV2, es, MIN_ENTRY_V2, post);
  }

  /** No written form is refused, and it reads back as the entries it was written from,
      whatever follows it. */
  lemma PutGet(es: seq<Entry>, post: Bytes)
    requires Fits(es)
    ensures Get(Put(es) + post) == Some(AddEntries(map[], es))
  {
    var body := Put32(|es|) + (PutAll(PutEntry, es) + post);
    assert Put(es) + post == [Byte(2)] + body;
    ReadsVersion2(GetV1, GetV2, body);
    V2RoundTrip(es, post);
  }

  // ---- Version 1 -------------------------------------------------------------------------

  /** An entry as version 1 wrote it: the key and one filter, of the trace ids. */
  ghost predicate IsV1(e: Entry) {
    |e.columns| == 1 && e.columns[0].name == "trace_id" && EntryFits(e)
  }

  function PutEntryV1(e: Entry): (r: Bytes)
  {
    if |e.columns| != 1 then [] else
    Put16(|e.key|) + (ToBytes(e.key) + (Put32(1 + |e.columns[0].filter.bits|) + PutFilter(e.columns[0].filter)))
  }

  function PutV1(es: seq<Entry>): Bytes {
    [Byte(1)] + (Put32(|es|) + PutAll(PutEntryV1, es))
  }

  lemma EntryV1RoundTrip(e: Entry, post: Bytes)
    requires IsV1(e)
    ensures GetEntryV1(PutEntryV1(e) + post) == Some((e, post)) && |PutEntryV1(e)| >= MIN_ENTRY_V1
  {
    var f := e.columns[0].filter;
    assert e.columns[0] in e.columns;
    var rest := Put32(1 + |f.bits|) + PutFilter(f) + post;
    assert PutEntryV1(e) + post == Put16(|e.key|) + ToBytes(e.key) + rest;
    KeyRoundTrip(e.key, rest);
    SizedFilterRoundTrip(f, post);
    assert e == Entry(e.key, [Column(TRACE_ID, f)]);
  }

  lemma V1RoundTrip(es: seq<Entry>, post: Bytes)
    requires |es| <= MAX_ENTRIES && forall e | e in es :: IsV1(e)
    ensures GetV1(Put32(|es|) + (PutAll(PutEntryV1, es) + post)) == Some(AddEntries(map[], es))
  {
    forall e, rest | e in es ensures GetEntryV1(PutEntryV1(e) + rest) == Some((e, rest)) && |PutEntryV1(e)| >= MIN_ENTRY_V1 {
      EntryV1RoundTrip(e, rest);
    }
    forall e | e in es ensures |PutEntryV1(e)| >= MIN_ENTRY_V1 { EntryV1RoundTrip(e, []); }
    PutAllSize(PutEntryV1, es, MIN_ENTRY_V1);
    BodyRoundTrip(PutEntryV1, GetEntryV1, es, MIN_ENTRY_V1, post);
  }

  /** An index of version 1 reads back with its filters as those of the trace ids. */
  lemma PutGetV1(es: seq<Entry>, post: Bytes)
    requires |es| <= MAX_ENTRIES && forall e | e in es :: IsV1(e)
    ensures Get(PutV1(es) + post) == Some(AddEntries(map[], es))
  {
    V1RoundTrip(es, post);
    ReadV1(es, PutAll(PutEntryV1, es), post);
  }

  lemma ReadV1(es: seq<Entry>, body: Bytes, post: Bytes)
    ensures Get([Byte(1)] + (Put32(|es|) + body) + post) == GetV1(Put32(|es|) + (body + post))
  {
    var s := Put32(|es|) + (body + post);
    assert [Byte(1)] + (Put32(|es|) + body) + post == [Byte(1)] + s;
    ReadsVersion2(GetV1, GetV2, s);
  }

  // ---- What the maps and the bytes are -----------------------------------------------------

  /** Of entries with one key the last is kept, and the others are kept as they are. */
  lemma {:induction false} AddEntriesAt(idx: Index, es: seq<Entry>, k: string)
    ensures k in AddEntries(idx, es) <==> k in idx || exists i :: 0 <= i < |es| && es[i].key == k
    ensures (forall i | 0 <= i < |es| :: es[i].key != k) && k in idx ==> AddEntries(idx, es)[k] == idx[k]
    ensures forall i | 0 <= i < |es| && es[i].key == k && forall j | i < j < |es| :: es[j].key != k ::
              AddEntries(idx, es)[k] == AddColumns(map[], es[i].columns)
    decreases |es|
  {
    if es != [] {
      AddEntriesAt(idx[es[0].key := AddColumns(map[], es[0].columns)], es[1..], k);
      assert forall i | 1 <= i < |es| :: es[i] == es[1..][i - 1];
    }
  }

  lemma {:induction false} AddColumnsAt(cols: Columns, cs: seq<Column>, c: string)
    ensures c in AddColumns(cols, cs) <==> c in cols || exists i :: 0 <= i < |cs| && cs[i].name == c
    ensures (forall i | 0 <= i < |cs| :: cs[i].name != c) && c in cols ==> AddColumns(cols, cs)[c] == cols[c]
    ensures forall i | 0 <= i < |cs| && cs[i].name == c && forall j | i < j < |cs| :: cs[j].name != c ::
              AddColumns(cols, cs)[c] == cs[i].filter
    decreases |cs|
  {
    if cs != [] {
      AddColumnsAt(cols[cs[0].name := cs[0].filter], cs[1..], c);
      assert forall i | 1 <= i < |cs| :: cs[i] == cs[1..][i - 1];
    }
  }

  lemma SmallColumnBytes()
    ensures PutColumn(Column("c", Bloom.Filter([5], 3))) == [1, 99, 2, 0, 0, 0, 3, 5]
  {
    assert PutFilter(Bloom.Filter([5], 3)) == [3, 5];
    assert Put32(2) == [2, 0, 0, 0] && ToBytes("c") == [99];
  }

  lemma PutOne<A>(put: A -> Bytes, a: A)
    ensures PutAll(put, [a]) == put(a)
  {
    assert [a][1..] == [] && PutAll(put, [a]) == put(a) + PutAll(put, [a][1..]);
  }

  lemma SmallEntryBytes(c: Column)
    ensures PutEntry(Entry("a", [c])) == [1, 0, 97, 1, 0] + PutColumn(c)
  {
    PutOne(PutColumn, c);
    assert Put16(1) == [1, 0] && ToBytes("a") == [97];
  }

  /** The bytes of one small index: version, counts and lengths in little-endian order. */
  lemma SmallIndexBytes()
    ensures Put([Entry("a", [Column("c", Bloom.Filter([5], 3))])])
            == [2, 1, 0, 0, 0, 1, 0, 97, 1, 0, 1, 99, 2, 0, 0, 0, 3, 5]
  {
    SmallColumnBytes();
    SmallEntryBytes(Column("c", Bloom.Filter([5], 3)));
    PutOne(PutEntry, Entry("a", [Column("c", Bloom.Filter([5], 3))]));
    assert Put32(1) == [1, 0, 0, 0];
  }

  /** What is accepted has a version of 1 or 2 and counts at most a million entries, each of
      which had room in the data. */
  lemma AcceptedHeader(data: Bytes)
    requires Get(data).Some?
    ensures |data| >= 5 && (data[0] == 1 || data[0] == 2) && Get32(data[1..]) <= 1_000_000
    ensures Get32(data[1..]) * (if data[0] == 1 then 8 else 4) <= |data| - 5
  {}
}
