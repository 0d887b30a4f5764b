/** One output per tenant group (internal/compaction/compactor.go, groupFilesByTenant):
    no merge mixes tenants or buckets. */
module TenantGroups {
  import opened Ordering
  import opened Files
  import opened Keys
  import opened Partition

  datatype Group = Group(key: GroupKey, files: seq<FileInfo>)

  function Shares(key: GroupKey): FileInfo -> bool {
    (f: FileInfo) => GroupOf(f) == key
  }

  function MembersOf(files: seq<FileInfo>, key: GroupKey): seq<FileInfo> {
    Filter(files, Shares(key))
  }

  predicate GroupLess(a: GroupKey, b: GroupKey) {
    if a.prefix != b.prefix then LexLess(a.prefix, b.prefix) else LexLess(a.bucket, b.bucket)
  }

  lemma GroupLessIsOrder()
    ensures WeakOrder(GroupLess)
    ensures forall a: GroupKey, b: GroupKey :: a != b ==> GroupLess(a, b) || GroupLess(b, a)
  {
    LexIsOrder();
  }

  /** The files of each group seen so far. */
  ghost predicate Split(files: seq<FileInfo>, byKey: map<GroupKey, seq<FileInfo>>) {
    && (forall k | k in byKey :: byKey[k] == MembersOf(files, k) != [])
    && (forall k | k !in byKey :: MembersOf(files, k) == [])
  }

  /** Each group once, in the order they were first seen. */
  ghost predicate Enumerates(order: seq<GroupKey>, byKey: map<GroupKey, seq<FileInfo>>) {
    (forall k :: k in order <==> k in byKey) && NoneTwice(order)
  }

  function AddFile(byKey: map<GroupKey, seq<FileInfo>>, f: FileInfo): map<GroupKey, seq<FileInfo>> {
    byKey[GroupOf(f) := (if GroupOf(f) in byKey then byKey[GroupOf(f)] else []) + [f]]
  }

  lemma SplitOneMore(files: seq<FileInfo>, byKey: map<GroupKey, seq<FileInfo>>, f: FileInfo)
    requires Split(files, byKey)
    ensures Split(files + [f], AddFile(byKey, f))
  {
    forall k ensures MembersOf(files + [f], k) == MembersOf(files, k) + (if k == GroupOf(f) then [f] else []) {
      FilterAppend(files, f, Shares(k));
    }
  }

  lemma EnumeratesOneMore(order: seq<GroupKey>, byKey: map<GroupKey, seq<FileInfo>>, f: FileInfo)
    requires Enumerates(order, byKey)
    ensures Enumerates(if GroupOf(f) in byKey then order else order + [GroupOf(f)], AddFile(byKey, f))
  {
    if GroupOf(f) !in byKey {
      assert GroupOf(f) !in order;
      assert NoneTwice(order + [GroupOf(f)]);
    }
  }

  method SplitFiles(files: seq<FileInfo>) returns (order: seq<GroupKey>, byKey: map<GroupKey, seq<FileInfo>>)
    ensures Split(files, byKey) && Enumerates(order, byKey)
  {
    order, byKey := [], map[];
    for i := 0 to |files|
      invariant Split(files[..i], byKey) && Enumerates(order, byKey)
    {
      var f := files[i];
      assert files[..i + 1] == files[..i] + [f];
      SplitOneMore(files[..i], byKey, f);
      EnumeratesOneMore(order, byKey, f);
      if GroupOf(f) !in byKey { order := order + [GroupOf(f)]; }
      byKey := AddFile(byKey, f);
    }
    assert files[..|files|] == files;
  }

  /** The groups of some files: in order, each with all of its files in manifest order,
      and none missing. */
  ghost predicate GroupsOf(files: seq<FileInfo>, groups: seq<Group>) {
    && (forall i, j | 0 <= i < j < |groups| :: GroupLess(groups[i].key, groups[j].key))
    && (forall g | g in groups :: g.files == MembersOf(files, g.key) != [])
    && (forall f | f in files :: exists g | g in groups :: g.key == GroupOf(f))
  }

  lemma SortedGroups(order: seq<GroupKey>, sorted: seq<GroupKey>)
    requires sorted == Sort(GroupLess, order) && NoneTwice(order)
    ensures forall k :: k in sorted <==> k in order
    ensures forall i, j | 0 <= i < j < |sorted| :: GroupLess(sorted[i], sorted[j])
  {
    GroupLessIsOrder();
    SortAscends(GroupLess, order);
    forall k ensures k in sorted <==> k in order { MultisetMember(sorted, order, k); }
    forall k ensures multiset(sorted)[k] <= 1 { CountedOnce(order, k); }
    AscendsStrictly(GroupLess, sorted);
  }

  method OutputGroups(sorted: seq<GroupKey>, byKey: map<GroupKey, seq<FileInfo>>) returns (groups: seq<Group>)
    requires forall k | k in sorted :: k in byKey
    ensures |groups| == |sorted| && forall i | 0 <= i < |sorted| :: groups[i] == Group(sorted[i], byKey[sorted[i]])
  {
    groups := [];
    for i := 0 to |sorted|
      invariant |groups| == i && forall j | 0 <= j < i :: groups[j] == Group(sorted[j], byKey[sorted[j]])
    {
      groups := groups + [Group(sorted[i], byKey[sorted[i]])];
    }
  }

  method GroupFilesByTenant(files: seq<FileInfo>) returns (groups: seq<Group>)
    ensures GroupsOf(files, groups)
    ensures forall i, j | 0 <= i < j < |groups| ::
              var a, b := groups[i].key, groups[j].key;
              LexLess(a.prefix, b.prefix) || (a.prefix == b.prefix && LexLess(a.bucket, b.bucket))
    ensures forall g, f | g in groups :: f in g.files <==> f in files && GroupPrefix(f.key) == g.key.prefix && f.bucket == g.key.bucket
  {
    var order, byKey := SplitFiles(files);
    var sorted := Sort(GroupLess, order);
    SortedGroups(order, sorted);
    groups := OutputGroups(sorted, byKey);
    AllGrouped(files, byKey, sorted, groups);
  }

  lemma AllGrouped(files: seq<FileInfo>, byKey: map<GroupKey, seq<FileInfo>>, sorted: seq<GroupKey>, groups: seq<Group>)
    requires Split(files, byKey) && forall k :: k in sorted <==> k in byKey
    requires forall i, j | 0 <= i < j < |sorted| :: GroupLess(sorted[i], sorted[j])
    requires |groups| == |sorted| && forall i | 0 <= i < |sorted| :: groups[i] == Group(sorted[i], byKey[sorted[i]])
    ensures GroupsOf(files, groups)
  {
    forall f | f in files ensures exists g | g in groups :: g.key == GroupOf(f) {
      assert f in MembersOf(files, GroupOf(f));
      var i :| 0 <= i < |sorted| && sorted[i] == GroupOf(f);
      assert groups[i] in groups;
    }
  }

  /** The files of one tenant group, as every plan's are, become one group and so one
      output. */
  lemma OneGroupOneOutput(files: seq<FileInfo>, key: GroupKey, groups: seq<Group>)
    requires files != [] && forall f | f in files :: GroupOf(f) == key
    requires GroupsOf(files, groups)
    ensures groups == [Group(key, files)]
  {
    if |groups| >= 2 { TwoKeys(groups[0].key, groups[1].key); }
    forall i | 0 <= i < |groups| ensures groups[i].key == key {
      assert groups[i] in groups;
      assert groups[i].files[0] in MembersOf(files, groups[i].key);
    }
    assert files[0] in files;
    AllInGroup(files, key);
    assert groups[0] in groups;
  }

  lemma TwoKeys(a: GroupKey, b: GroupKey)
    requires GroupLess(a, b)
    ensures a != b
  {
    GroupLessIsOrder();
  }

  lemma {:induction false} AllInGroup(files: seq<FileInfo>, key: GroupKey)
    requires forall f | f in files :: GroupOf(f) == key
    ensures MembersOf(files, key) == files
  {
    if files != [] {
      assert files[0] in files && forall f | f in files[1..] :: f in files;
      AllInGroup(files[1..], key);
    }
  }
}
