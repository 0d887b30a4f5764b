/** Planning one partition (internal/compaction/planner.go, planner.partition): two
    passes over the manifest's own slice with scratch maps kept across partitions,
    against the plain reading: drop what is kept out, split by tenant and bucket,
    plan each group alone. */
module Partition {
  import opened Ordering
  import opened Files
  import opened Planner
  import opened Keys
  import opened Freeze

  datatype GroupKey = GroupKey(prefix: string, bucket: string)

  /** What one scan plans with. */
  datatype Scan = Scan(
    policy: LevelPolicy, current: string, now: int,
    held: set<string>, fenced: set<string>, freeze: Option<LifecycleFreeze>)

  datatype MergePlan = MergePlan(
    partition: string, group: GroupKey, tenant: string, plan: Plan, time: int, bytes: int)

  function GroupOf(f: FileInfo): GroupKey {
    GroupKey(GroupPrefix(f.key), f.bucket)
  }

  function FenceKey(f: FileInfo): string {
    f.bucket + ['\0'] + f.key
  }

  /** Kept out before grouping: held, refused by the forward fence, or in a class
      that must not be rewritten. */
  predicate Skips(s: Scan, f: FileInfo) {
    f.key in s.held || FenceKey(f) in s.fenced || ViewClassFrozen(s.freeze, f)
  }

  function InGroup(s: Scan, g: GroupKey): FileInfo -> bool {
    (f: FileInfo) => !Skips(s, f) && GroupOf(f) == g
  }

  function GroupFiles(s: Scan, files: seq<FileInfo>, g: GroupKey): seq<FileInfo> {
    Filter(files, InGroup(s, g))
  }

  /** One group's plan under its tenant's lifecycle limits. */
  ghost function GroupPlan(p: LevelPolicy, group: seq<FileInfo>, age: int, current: string, limits: Limits): Option<Plan> {
    if limits.FrozenAt(age) then None else PlanGroup(p, group, age, current, limits.SizeMergesAt(age))
  }

  /** The plain reading: this group's plan, from its own files alone. */
  ghost function NaivePlan(s: Scan, files: seq<FileInfo>, time: int, g: GroupKey): Option<Plan> {
    GroupPlan(s.policy, GroupFiles(s, files, g), s.now - time, s.current, ViewLimits(s.freeze, g.prefix))
  }

  function Bytes(files: seq<FileInfo>): int {
    if files == [] then 0 else files[0].size + Bytes(files[1..])
  }

  /** "<account>/<project>" of a group prefix; "default" without one. */
  function FairShareTenant(prefix: string): string {
    if prefix == "" then "default" else
    match Cut(prefix)
    case None => prefix
    case Some((account, rest)) =>
      match Cut(rest)
      case None => prefix
      case Some((project, _)) => account + "/" + project
  }

  /** Which groups may have a plan: two or more files and not past the freeze age. */
  predicate Open(s: Scan, files: seq<FileInfo>, time: int, g: GroupKey) {
    |GroupFiles(s, files, g)| >= 2 && !ViewLimits(s.freeze, g.prefix).FrozenAt(s.now - time)
  }

  /** The files at some indices, in order. */
  function FilesAt(files: seq<FileInfo>, idx: seq<nat>): seq<FileInfo>
    requires forall i | i in idx :: i < |files|
  {
    seq(|idx|, j requires 0 <= j < |idx| => assert idx[j] in idx; files[idx[j]])
  }

  ghost predicate Collected(s: Scan, files: seq<FileInfo>, upTo: nat, g: GroupKey, idx: seq<nat>)
    requires upTo <= |files|
  {
    (forall i | i in idx :: i < |files|) && FilesAt(files, idx) == GroupFiles(s, files[..upTo], g)
  }

  /** The counts of a pass over some files. */
  ghost predicate Counted(s: Scan, files: seq<FileInfo>, counts: map<GroupKey, nat>) {
    && (forall g | g in counts :: counts[g] == |GroupFiles(s, files, g)| > 0)
    && (forall g | g !in counts :: GroupFiles(s, files, g) == [])
  }

  lemma CountOne(s: Scan, files: seq<FileInfo>, f: FileInfo, counts: map<GroupKey, nat>)
    requires Counted(s, files, counts)
    ensures var g := GroupOf(f);
            Counted(s, files + [f],
              if Skips(s, f) then counts else counts[g := (if g in counts then counts[g] else 0) + 1])
  {
    var h := GroupOf(f);
    var counts' := if Skips(s, f) then counts else counts[h := (if h in counts then counts[h] else 0) + 1];
    forall g: GroupKey
      ensures g in counts' ==> counts'[g] == |GroupFiles(s, files + [f], g)| > 0
      ensures g !in counts' ==> GroupFiles(s, files + [f], g) == []
    {
      FilterAppend(files, f, InGroup(s, g));
    }
  }

  /** The plain reading of a partition: each group's plan. */
  ghost function NaivePlans(s: Scan, files: seq<FileInfo>, time: int): GroupKey -> Option<Plan> {
    g => NaivePlan(s, files, time, g)
  }

  /** `p` is the plan `want` gives its group, with the bookkeeping around it. */
  predicate IsPlanOf(want: GroupKey -> Option<Plan>, partition: string, time: int, p: MergePlan) {
    && want(p.group) == Some(p.plan)
    && p.partition == partition && p.time == time
    && p.tenant == FairShareTenant(p.group.prefix) && p.bytes == Bytes(p.plan.files)
  }

  /** `plans` holds exactly the plans `want` gives the groups in `done`, one each. */
  ghost predicate PlansOf(
    want: GroupKey -> Option<Plan>, partition: string, time: int, done: set<GroupKey>, plans: seq<MergePlan>)
  {
    && (forall i, j | 0 <= i < j < |plans| :: plans[i].group != plans[j].group)
    && (forall p | p in plans :: p.group in done && IsPlanOf(want, partition, time, p))
    && (forall g | g in done && want(g).Some? :: exists p | p in plans :: p.group == g)
  }

  lemma PlansOfOneMore(
    want: GroupKey -> Option<Plan>, partition: string, time: int, done: set<GroupKey>, plans: seq<MergePlan>, p: MergePlan)
    requires PlansOf(want, partition, time, done, plans) && p.group !in done && IsPlanOf(want, partition, time, p)
    ensures PlansOf(want, partition, time, done + {p.group}, plans + [p])
  {
    var more := plans + [p];
    assert p in more && forall q | q in plans :: q in more;
    forall i, j | 0 <= i < j < |more| ensures more[i].group != more[j].group {
      if j == |plans| { assert more[i] == plans[i] && plans[i] in plans; }
    }
    forall h | h in done + {p.group} && want(h).Some? ensures exists q | q in more :: q.group == h {
      if h != p.group {
        var q :| q in plans && q.group == h;
        assert q in more;
      }
    }
  }

  lemma BytesAppend(files: seq<FileInfo>, f: FileInfo)
    ensures Bytes(files + [f]) == Bytes(files) + f.size
  {
    if files == [] {
      assert Bytes([f]) == f.size + Bytes([f][1..]);
      assert files + [f] == [f];
    } else {
      assert (files + [f])[1..] == files[1..] + [f];
    }
  }

  /** The groups of `done` that may plan a merge, with nothing collected yet. */
  ghost predicate Decided(
    s: Scan, files: seq<FileInfo>, time: int, done: set<GroupKey>, members: map<GroupKey, seq<nat>>, sizeOK: map<GroupKey, bool>)
  {
    DecidedBy(OpenAt(s, files, time), SizeMergesAt(s, time), done, members, sizeOK)
  }

  function OpenAt(s: Scan, files: seq<FileInfo>, time: int): GroupKey -> bool {
    (g: GroupKey) => Open(s, files, time, g)
  }

  function SizeMergesAt(s: Scan, time: int): GroupKey -> bool {
    (g: GroupKey) => ViewLimits(s.freeze, g.prefix).SizeMergesAt(s.now - time)
  }

  ghost predicate DecidedBy(
    open: GroupKey -> bool, sizeMerges: GroupKey -> bool, done: set<GroupKey>, members: map<GroupKey, seq<nat>>, sizeOK: map<GroupKey, bool>)
  {
    && members.Keys == sizeOK.Keys
    && (forall g :: g in members <==> g in done && open(g))
    && (forall g | g in members :: members[g] == [])
    && (forall g | g in sizeOK :: sizeOK[g] == sizeMerges(g))
  }

  lemma DecideOne(
    s: Scan, files: seq<FileInfo>, time: int, done: set<GroupKey>, members: map<GroupKey, seq<nat>>, sizeOK: map<GroupKey, bool>,
    g: GroupKey, open: bool)
    requires Decided(s, files, time, done, members, sizeOK) && g !in done && open == Open(s, files, time, g)
    ensures if open then
              Decided(s, files, time, done + {g}, members[g := []],
                      sizeOK[g := ViewLimits(s.freeze, g.prefix).SizeMergesAt(s.now - time)])
            else Decided(s, files, time, done + {g}, members, sizeOK)
  {
    DecideNext(OpenAt(s, files, time), SizeMergesAt(s, time), done, members, sizeOK, g);
  }

  lemma DecideNext(
    open: GroupKey -> bool, sizeMerges: GroupKey -> bool, done: set<GroupKey>, members: map<GroupKey, seq<nat>>,
    sizeOK: map<GroupKey, bool>, g: GroupKey)
    requires DecidedBy(open, sizeMerges, done, members, sizeOK) && g !in done
    ensures if open(g) then DecidedBy(open, sizeMerges, done + {g}, members[g := []], sizeOK[g := sizeMerges(g)])
            else DecidedBy(open, sizeMerges, done + {g}, members, sizeOK)
  {}

  /** The planner of one scan, with its scratch maps. */
  class PartitionPlanner {
    const scan: Scan
    const view: FreezeView
    var counts: map<GroupKey, nat>
    var members: map<GroupKey, seq<nat>>

    ghost predicate Valid()
      reads this, view
    {
      view.Valid() && view.freeze == scan.freeze
    }

    constructor (scan: Scan)
      ensures Valid() && fresh(view) && this.scan == scan
    {
      this.scan := scan;
      view := new FreezeView(scan.freeze);
      counts, members := map[], map[];
    }

    method SkipsFile(f: FileInfo) returns (skip: bool)
      requires Valid()
      ensures skip == Skips(scan, f)
    {
      if f.key in scan.held { return true; }
      if FenceKey(f) in scan.fenced { return true; }
      skip := view.IsClassFrozen(f);
    }

    /** First pass: count each group's files. */
    method CountGroups(files: seq<FileInfo>)
      requires Valid()
      modifies this
      ensures Valid() && Counted(scan, files, counts)
    {
      counts := map[];
      for n := 0 to |files|
        invariant Valid() && Counted(scan, files[..n], counts)
      {
        var f := files[n];
        assert files[..n + 1] == files[..n] + [f];
        CountOne(scan, files[..n], f, counts);
        var skip := SkipsFile(f);
        if !skip {
          var g := GroupOf(f);
          counts := counts[g := (if g in counts then counts[g] else 0) + 1];
        }
      }
      assert files[..|files|] == files;
    }

    /** Between the passes: keep only the groups that may plan a merge. */
    method DecideGroups(files: seq<FileInfo>, time: int) returns (sizeOK: map<GroupKey, bool>)
      requires Valid() && Counted(scan, files, counts)
      modifies this, view
      ensures Valid()
      ensures members.Keys == sizeOK.Keys
      ensures forall g :: g in members <==> Open(scan, files, time, g)
      ensures forall g | g in members :: members[g] == []
      ensures forall g | g in sizeOK :: sizeOK[g] == ViewLimits(scan.freeze, g.prefix).SizeMergesAt(scan.now - time)
    {
      var age := scan.now - time;
      members, sizeOK := map[], map[];
      var todo := counts.Keys;
      ghost var all := counts;
      while todo != {}
        invariant todo <= counts.Keys && counts == all && Valid()
        invariant Decided(scan, files, time, counts.Keys - todo, members, sizeOK)
        decreases todo
      {
        var g :| g in todo;
        var limits := view.LimitsFor(g.prefix);
        var open := !limits.FrozenAt(age) && counts[g] >= 2;
        DecideOne(scan, files, time, counts.Keys - todo, members, sizeOK, g, open);
        assert counts.Keys - todo + {g} == counts.Keys - (todo - {g});
        if open {
          sizeOK := sizeOK[g := limits.SizeMergesAt(age)];
          members := members[g := []];
        }
        todo := todo - {g};
      }
      assert counts.Keys - todo == counts.Keys;
    }

    /** Second pass: the indices of the kept groups' files, in manifest order. */
    method CollectMembers(files: seq<FileInfo>)
      requires Valid()
      requires forall g | g in members :: members[g] == []
      modifies this
      ensures Valid() && members.Keys == old(members.Keys)
      ensures AllCollected(scan, files, |files|, members)
    {
      ghost var keys := members.Keys;
      NothingCollected(scan, files, members);
      for n := 0 to |files|
        invariant Valid() && members.Keys == keys && AllCollected(scan, files, n, members)
      {
        var f := files[n];
        CollectNext(scan, files, n, members);
        var skip := SkipsFile(f);
        if !skip && GroupOf(f) in members {
          members := members[GroupOf(f) := members[GroupOf(f)] + [n]];
        }
      }
    }

    method PlanOneGroup(files: seq<FileInfo>, time: int, g: GroupKey, idx: seq<nat>, sizeOK: bool) returns (found: Option<Plan>)
      requires Collected(scan, files, |files|, g, idx) && Open(scan, files, time, g)
      requires sizeOK == ViewLimits(scan.freeze, g.prefix).SizeMergesAt(scan.now - time)
      ensures found == NaivePlans(scan, files, time)(g)
    {
      assert files[..|files|] == files;
      found := FindGroupPlan(scan.policy, FilesAt(files, idx), scan.now - time, scan.current, sizeOK);
    }

    /** One round of the planning loop: append the group's plan, if it has one. */
    method AppendPlan(
      partition: string, files: seq<FileInfo>, time: int, g: GroupKey, sizeOK: bool,
      plans: seq<MergePlan>, ghost done: set<GroupKey>)
      returns (more: seq<MergePlan>)
      requires g in members && g !in done && Collected(scan, files, |files|, g, members[g])
      requires Open(scan, files, time, g)
      requires sizeOK == ViewLimits(scan.freeze, g.prefix).SizeMergesAt(scan.now - time)
      requires PlansOf(NaivePlans(scan, files, time), partition, time, done, plans)
      ensures PlansOf(NaivePlans(scan, files, time), partition, time, done + {g}, more)
    {
      var found := PlanOneGroup(files, time, g, members[g], sizeOK);
      if found.None? { return plans; }
      var bytes := TotalBytes(found.value.files);
      var p := MergePlan(partition, g, FairShareTenant(g.prefix), found.value, time, bytes);
      PlansOfOneMore(NaivePlans(scan, files, time), partition, time, done, plans, p);
      more := plans + [p];
    }

    /** Plan each kept group from its collected files. */
    method PlanGroups(partition: string, files: seq<FileInfo>, time: int, sizeOK: map<GroupKey, bool>)
      returns (plans: seq<MergePlan>)
      requires Valid() && members.Keys == sizeOK.Keys
      requires AllCollected(scan, files, |files|, members)
      requires forall g | g in members :: Open(scan, files, time, g)
      requires forall g | g in sizeOK :: sizeOK[g] == ViewLimits(scan.freeze, g.prefix).SizeMergesAt(scan.now - time)
      ensures PlansOf(NaivePlans(scan, files, time), partition, time, members.Keys, plans)
    {
      plans := [];
      var todo := members.Keys;
      while todo != {}
        invariant todo <= members.Keys
        invariant PlansOf(NaivePlans(scan, files, time), partition, time, members.Keys - todo, plans)
        decreases todo
      {
        var g :| g in todo;
        assert Collected(scan, files, |files|, g, members[g]);
        plans := AppendPlan(partition, files, time, g, sizeOK[g], plans, members.Keys - todo);
        assert members.Keys - (todo - {g}) == members.Keys - todo + {g};
        todo := todo - {g};
      }
      assert members.Keys - {} == members.Keys;
    }

    /** planner.partition: the plans are exactly those of the plain reading, one for
        each group that has one. */
    method PlanPartition(partition: string, files: seq<FileInfo>, time: int) returns (plans: seq<MergePlan>)
      requires Valid()
      modifies this, view
      ensures Valid()
      ensures forall i, j | 0 <= i < j < |plans| :: plans[i].group != plans[j].group
      ensures forall p | p in plans :: IsPlanOf(NaivePlans(scan, files, time), partition, time, p)
      ensures forall g | NaivePlans(scan, files, time)(g).Some? :: exists p | p in plans :: p.group == g
    {
      CountGroups(files);
      var sizeOK := DecideGroups(files, time);
      CollectMembers(files);
      plans := PlanGroups(partition, files, time, sizeOK);
      forall g | NaivePlans(scan, files, time)(g).Some? ensures g in members {
        OpenIfPlanned(scan, files, time, g);
      }
    }
  }

  lemma OpenIfPlanned(s: Scan, files: seq<FileInfo>, time: int, g: GroupKey)
    requires NaivePlans(s, files, time)(g).Some?
    ensures Open(s, files, time, g)
  {}

  method TotalBytes(files: seq<FileInfo>) returns (bytes: int)
    ensures bytes == Bytes(files)
  {
    bytes := 0;
    for i := 0 to |files|
      invariant bytes == Bytes(files[..i])
    {
      assert files[..i + 1] == files[..i] + [files[i]];
      BytesAppend(files[..i], files[i]);
      bytes := bytes + files[i].size;
    }
    assert files[..|files|] == files;
  }

  lemma CollectOne(s: Scan, files: seq<FileInfo>, n: nat, g: GroupKey, idx: seq<nat>)
    requires n < |files| && Collected(s, files, n, g, idx)
    ensures Collected(s, files, n + 1, g, if InGroup(s, g)(files[n]) then idx + [n] else idx)
  {
    FilterNext(files, n, InGroup(s, g));
    if InGroup(s, g)(files[n]) {
      assert FilesAt(files, idx + [n]) == FilesAt(files, idx) + [files[n]];
    }
  }

  lemma GatesHold(s: Scan, files: seq<FileInfo>, g: GroupKey, plan: Plan)
    requires WellFormed(plan, GroupFiles(s, files, g))
    ensures |plan.files| >= 2 && OneSchema(plan.files) && LevelsBelow(plan.files, plan.level + 1)
    ensures forall f | f in plan.files :: f in files && GroupOf(f) == g && !Skips(s, f)
  {
    forall f | f in plan.files ensures f in files && InGroup(s, g)(f) {
      assert f in multiset(plan.files) && f in multiset(GroupFiles(s, files, g));
    }
  }

  lemma NaivePlanIsWellFormed(s: Scan, files: seq<FileInfo>, time: int, g: GroupKey)
    requires NaivePlan(s, files, time, g).Some?
    ensures WellFormed(NaivePlan(s, files, time, g).value, GroupFiles(s, files, g))
  {
    var age := s.now - time;
    PlanIsWellFormed(s.policy, GroupFiles(s, files, g), age, s.current, ViewLimits(s.freeze, g.prefix).SizeMergesAt(age));
  }

  ghost predicate AllCollected(s: Scan, files: seq<FileInfo>, upTo: nat, members: map<GroupKey, seq<nat>>)
    requires upTo <= |files|
  {
    forall g | g in members :: Collected(s, files, upTo, g, members[g])
  }

  lemma NothingCollected(s: Scan, files: seq<FileInfo>, members: map<GroupKey, seq<nat>>)
    requires forall g | g in members :: members[g] == []
    ensures AllCollected(s, files, 0, members)
  {
    assert files[..0] == [];
  }

  lemma CollectNext(s: Scan, files: seq<FileInfo>, n: nat, members: map<GroupKey, seq<nat>>)
    requires n < |files| && AllCollected(s, files, n, members)
    ensures var g := GroupOf(files[n]);
            AllCollected(s, files, n + 1,
              if !Skips(s, files[n]) && g in members then members[g := members[g] + [n]] else members)
  {
    forall g | g in members
      ensures Collected(s, files, n + 1, g, if InGroup(s, g)(files[n]) then members[g] + [n] else members[g])
    {
      CollectOne(s, files, n, g, members[g]);
    }
  }

  /** Every plan passes the compactor's gates: two or more live files of one tenant
      group and one schema, none of them held, fenced or class-frozen, merged into a
      level above all of them. */
  lemma PlanPassesGates(s: Scan, files: seq<FileInfo>, time: int, g: GroupKey)
    requires NaivePlan(s, files, time, g).Some?
    ensures var plan := NaivePlan(s, files, time, g).value;
            && |plan.files| >= 2 && OneSchema(plan.files) && LevelsBelow(plan.files, plan.level + 1)
            && (forall f | f in plan.files :: f in files && GroupOf(f) == g && !Skips(s, f))
            && (forall f | f in plan.files ::
                  && GroupPrefix(f.key) == g.prefix && f.bucket == g.bucket
                  && f.key !in s.held && (f.bucket + ['\0'] + f.key) !in s.fenced
                  && !ClassFrozen(f) && f.key !in FrozenKeys(s.freeze))
  {
    NaivePlanIsWellFormed(s, files, time, g);
    GatesHold(s, files, g, NaivePlan(s, files, time, g).value);
  }

  lemma GroupPlanPermutes(p: LevelPolicy, a: seq<FileInfo>, b: seq<FileInfo>, age: int, current: string, limits: Limits)
    requires multiset(a) == multiset(b)
    ensures SamePlan(GroupPlan(p, a, age, current, limits), GroupPlan(p, b, age, current, limits))
  {
    PlanPermutes(p, a, b, age, current, limits.SizeMergesAt(age));
  }

  /** The plans of a partition depend on which files it holds, not on their order. */
  lemma PartitionPlansPermute(s: Scan, a: seq<FileInfo>, b: seq<FileInfo>, time: int, g: GroupKey)
    requires multiset(a) == multiset(b)
    ensures SamePlan(NaivePlan(s, a, time, g), NaivePlan(s, b, time, g))
  {
    GroupsPermute(s, a, b, g);
    PermutedGroups(s, a, b, GroupFiles(s, a, g), GroupFiles(s, b, g), time, g);
  }

  lemma PermutedGroups(s: Scan, a: seq<FileInfo>, b: seq<FileInfo>, x: seq<FileInfo>, y: seq<FileInfo>, time: int, g: GroupKey)
    requires x == GroupFiles(s, a, g) && y == GroupFiles(s, b, g) && multiset(x) == multiset(y)
    ensures SamePlan(NaivePlan(s, a, time, g), NaivePlan(s, b, time, g))
  {
    GroupPlanPermutes(s.policy, x, y, s.now - time, s.current, ViewLimits(s.freeze, g.prefix));
  }

  lemma GroupsPermute(s: Scan, a: seq<FileInfo>, b: seq<FileInfo>, g: GroupKey)
    requires multiset(a) == multiset(b)
    ensures multiset(GroupFiles(s, a, g)) == multiset(GroupFiles(s, b, g))
  {
    FilterPermutes(a, b, InGroup(s, g));
  }

  // ---- What a group is -------------------------------------------------------------------

  /** A group has all files of its prefix and bucket that are not kept out, and no others. */
  lemma GroupHasAll(s: Scan, files: seq<FileInfo>, g: GroupKey, f: FileInfo)
    ensures f in GroupFiles(s, files, g) <==>
              && f in files && GroupPrefix(f.key) == g.prefix && f.bucket == g.bucket
              && f.key !in s.held && (f.bucket + ['\0'] + f.key) !in s.fenced
              && !ClassFrozen(f) && f.key !in FrozenKeys(s.freeze)
    ensures f in GroupFiles(s, files, g) ==> multiset(GroupFiles(s, files, g))[f] == multiset(files)[f]
  {
    FilterCount(files, InGroup(s, g), f);
  }

  /** A group past its freeze age is left alone; any other is planned from its files. */
  lemma PlannedUnlessFrozen(s: Scan, files: seq<FileInfo>, time: int, g: GroupKey)
    ensures var l, age := ViewLimits(s.freeze, g.prefix), s.now - time;
            NaivePlan(s, files, time, g)
            == if l.hasRule && age >= l.freezeAge then None
               else PlanGroup(s.policy, GroupFiles(s, files, g), age, s.current, l.hasRule || l.sizeMaxAge <= 0 || age < l.sizeMaxAge)
  {}

  /** The fair-share tenant is the account and project of the group's prefix. */
  lemma TenantOfPrefix(account: string, project: string, mode: string)
    requires '/' !in account && '/' !in project && '/' !in mode
    ensures FairShareTenant(account + "/" + (project + "/" + (mode + "/" + ""))) == account + "/" + project
    ensures FairShareTenant("") == "default"
  {
    CutPrefix(account, project, mode, "");
    assert Prefix(account, project, mode) + "" == Prefix(account, project, mode);
  }

  /** A plan's bytes are the sum of its files' sizes. */
  lemma {:induction false} BytesAdd(a: seq<FileInfo>, b: seq<FileInfo>)
    ensures Bytes(a + b) == Bytes(a) + Bytes(b) && Bytes([]) == 0
    ensures |b| == 1 ==> Bytes(b) == b[0].size
  {
    if |b| == 1 { assert b[1..] == [] && Bytes(b[1..]) == 0; }
    if a == [] {
      assert a + b == b;
    } else {
      assert (a + b)[0] == a[0] && (a + b)[1..] == a[1..] + b;
      BytesAdd(a[1..], b);
    }
  }
}
