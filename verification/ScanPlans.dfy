/** The plans of a whole scan (internal/compaction/scheduler.go, step D of Scan): one call
    of the planner for each partition, then one order for all of them. Two pods that see
    the same files, in whatever order, try the same merges in the same order. */
module ScanPlans {
  import opened Ordering
  import opened Files
  import opened Planner
  import opened Partition
  import opened PlanOrder
  import opened Keys

  /** The plan each group of each partition has. */
  type Plans = (string, GroupKey) -> Option<Plan>

  ghost predicate IsPlan(want: Plans, times: string -> int, p: MergePlan) {
    && want(p.partition, p.group) == Some(p.plan) && p.time == times(p.partition)
    && p.tenant == FairShareTenant(p.group.prefix) && p.bytes == Bytes(p.plan.files)
  }

  /** No group of a partition twice. */
  ghost predicate Apart(plans: seq<MergePlan>) {
    forall i, j | 0 <= i < j < |plans| :: plans[i].partition != plans[j].partition || plans[i].group != plans[j].group
  }

  /** `plans` are exactly the plans of the partitions in `done`. */
  ghost predicate Collects(want: Plans, times: string -> int, done: set<string>, plans: seq<MergePlan>) {
    && Apart(plans)
    && (forall p | p in plans :: p.partition in done && IsPlan(want, times, p))
    && (forall part, g | part in done && want(part, g).Some? :: HasPlan(plans, part, g))
  }

  ghost predicate HasPlan(plans: seq<MergePlan>, part: string, g: GroupKey) {
    exists p | p in plans :: p.partition == part && p.group == g
  }

  // ---- Collecting ------------------------------------------------------------------------

  /** The plain reading of a whole manifest. */
  ghost function ManifestPlans(s: Scan, manifest: map<string, seq<FileInfo>>, times: string -> int): Plans {
    (part: string, g: GroupKey) => if part in manifest then NaivePlan(s, manifest[part], times(part), g) else None
  }

  lemma CollectsMore(want: Plans, times: string -> int, done: set<string>, plans: seq<MergePlan>, part: string, more: seq<MergePlan>)
    requires Collects(want, times, done, plans) && part !in done && Apart(more)
    requires forall p | p in more :: p.partition == part && IsPlan(want, times, p)
    requires forall g | want(part, g).Some? :: HasPlan(more, part, g)
    ensures Collects(want, times, done + {part}, plans + more)
  {
    var all := plans + more;
    forall i, j | 0 <= i < j < |all| ensures all[i].partition != all[j].partition || all[i].group != all[j].group {
      if i < |plans| <= j {
        assert all[i] in plans && all[j] in more;
      } else if |plans| <= i {
        assert all[i] == more[i - |plans|] && all[j] == more[j - |plans|];
      }
    }
    forall other, g | other in done + {part} && want(other, g).Some? ensures HasPlan(all, other, g) {
      assert other == part || HasPlan(plans, other, g);
      assert other == part ==> HasPlan(more, other, g);
    }
  }

  /** The walk over the partitions. */
  method CollectPlans(scan: Scan, manifest: map<string, seq<FileInfo>>, times: string -> int) returns (plans: seq<MergePlan>)
    ensures Collects(ManifestPlans(scan, manifest, times), times, manifest.Keys, plans)
  {
    var planner := new PartitionPlanner(scan);
    plans := [];
    var todo := manifest.Keys;
    assert manifest.Keys - todo == {};
    while todo != {}
      invariant todo <= manifest.Keys && planner.Valid() && planner.scan == scan && fresh(planner) && fresh(planner.view)
      invariant Collects(ManifestPlans(scan, manifest, times), times, manifest.Keys - todo, plans)
      decreases todo
    {
      var part :| part in todo;
      var more := planner.PlanPartition(part, manifest[part], times(part));
      PartitionCollected(scan, manifest, times, part, more);
      CollectsMore(ManifestPlans(scan, manifest, times), times, manifest.Keys - todo, plans, part, more);
      assert manifest.Keys - todo + {part} == manifest.Keys - (todo - {part});
      plans, todo := plans + more, todo - {part};
    }
    assert manifest.Keys - todo == manifest.Keys;
  }

  lemma PartitionCollected(scan: Scan, manifest: map<string, seq<FileInfo>>, times: string -> int, part: string, more: seq<MergePlan>)
    requires part in manifest
    requires forall i, j | 0 <= i < j < |more| :: more[i].group != more[j].group
    requires forall p | p in more :: IsPlanOf(NaivePlans(scan, manifest[part], times(part)), part, times(part), p)
    requires forall g | NaivePlans(scan, manifest[part], times(part))(g).Some? :: exists p | p in more :: p.group == g
    ensures Apart(more)
    ensures forall p | p in more :: p.partition == part && IsPlan(ManifestPlans(scan, manifest, times), times, p)
    ensures forall g | ManifestPlans(scan, manifest, times)(part, g).Some? :: HasPlan(more, part, g)
  {
    LocalCollected(ManifestPlans(scan, manifest, times), NaivePlans(scan, manifest[part], times(part)), times, part, more);
  }

  lemma LocalCollected(want: Plans, local: GroupKey -> Option<Plan>, times: string -> int, part: string, more: seq<MergePlan>)
    requires forall g :: want(part, g) == local(g)
    requires forall i, j | 0 <= i < j < |more| :: more[i].group != more[j].group
    requires forall p | p in more :: IsPlanOf(local, part, times(part), p)
    requires forall g | local(g).Some? :: exists p | p in more :: p.group == g
    ensures Apart(more)
    ensures forall p | p in more :: p.partition == part && IsPlan(want, times, p)
    ensures forall g | want(part, g).Some? :: HasPlan(more, part, g)
  {
    forall g | want(part, g).Some? ensures HasPlan(more, part, g) {
      var p :| p in more && p.group == g;
    }
  }

  // ---- Two scans of the same files -----------------------------------------------------------

  lemma {:induction false} BytesPermute(a: seq<FileInfo>, b: seq<FileInfo>)
    requires multiset(a) == multiset(b)
    ensures Bytes(a) == Bytes(b)
  {
    SameSize(a, b);
    if a != [] {
      var i := MatchHead(a, b);
      BytesPermute(a[1..], b[..i] + b[i + 1..]);
      BytesSplit(b[..i], b[i + 1..]);
      BytesSplit(b[..i], [b[i]] + b[i + 1..]);
      assert b == b[..i] + ([b[i]] + b[i + 1..]) && ([b[i]] + b[i + 1..])[1..] == b[i + 1..];
    }
  }

  lemma {:induction false} BytesSplit(a: seq<FileInfo>, b: seq<FileInfo>)
    ensures Bytes(a + b) == Bytes(a) + Bytes(b)
  {
    if a == [] {
      assert a + b == b;
    } else {
      assert (a + b)[0] == a[0] && (a + b)[1..] == a[1..] + b;
      BytesSplit(a[1..], b);
    }
  }

  /** The same merge: only the order of its files may differ. */
  ghost predicate SameMerge(p: MergePlan, q: MergePlan) {
    && p.partition == q.partition && p.group == q.group && p.tenant == q.tenant && p.time == q.time && p.bytes == q.bytes
    && SamePlan(Some(p.plan), Some(q.plan))
  }

  /** The same merges are tried in the same order. */
  lemma SameMergeSameOrder(p: MergePlan, q: MergePlan, p': MergePlan, q': MergePlan)
    requires SameMerge(p, q) && SameMerge(p', q')
    ensures PlanLess(p, p') == PlanLess(q, q')
  {
    SameSize(p.plan.files, q.plan.files);
    SameSize(p'.plan.files, q'.plan.files);
  }

  ghost predicate Alike(a: Plans, b: Plans) {
    forall part, g :: SamePlan(a(part, g), b(part, g))
  }

  lemma Partner(a: Plans, b: Plans, times: string -> int, parts: set<string>, plans: seq<MergePlan>, p: MergePlan) returns (q: MergePlan)
    requires Alike(a, b) && Collects(b, times, parts, plans) && p.partition in parts && IsPlan(a, times, p)
    ensures q in plans && SameMerge(p, q)
  {
    assert SamePlan(a(p.partition, p.group), b(p.partition, p.group));
    assert HasPlan(plans, p.partition, p.group);
    q :| q in plans && q.partition == p.partition && q.group == p.group;
    BytesPermute(p.plan.files, q.plan.files);
  }

  ghost predicate HasPartner(same: (MergePlan, MergePlan) -> bool, plans: seq<MergePlan>, p: MergePlan) {
    exists q | q in plans :: same(p, q)
  }

  /** The partners of some plans, one by one. */
  lemma {:induction false} Pair(same: (MergePlan, MergePlan) -> bool, plans: seq<MergePlan>, from: seq<MergePlan>) returns (to: seq<MergePlan>)
    requires forall p | p in from :: HasPartner(same, plans, p)
    ensures |to| == |from| && forall i | 0 <= i < |from| :: to[i] in plans && same(from[i], to[i])
  {
    if from == [] {
      to := [];
    } else {
      assert from[0] in from && forall p | p in from[1..] :: p in from;
      assert HasPartner(same, plans, from[0]);
      var q :| q in plans && same(from[0], q);
      var rest := Pair(same, plans, from[1..]);
      to := [q] + rest;
      forall i | 0 < i < |from| ensures to[i] in plans && same(from[i], to[i]) {
        assert from[i] == from[1..][i - 1] && to[i] == rest[i - 1];
      }
    }
  }

  lemma Partners(a: Plans, b: Plans, times: string -> int, parts: set<string>, plans: seq<MergePlan>, from: seq<MergePlan>)
    returns (to: seq<MergePlan>)
    requires Alike(a, b) && Collects(b, times, parts, plans)
    requires forall p | p in from :: p.partition in parts && IsPlan(a, times, p)
    ensures |to| == |from| && forall i | 0 <= i < |from| :: to[i] in plans && SameMerge(from[i], to[i])
  {
    forall p | p in from ensures HasPartner(SameMerge, plans, p) {
      var q := Partner(a, b, times, parts, plans, p);
    }
    to := Pair(SameMerge, plans, from);
  }

  /** The same elements, none twice. */
  lemma SameElements(a: seq<MergePlan>, b: seq<MergePlan>)
    requires NoneTwice(a) && NoneTwice(b) && forall x :: x in a <==> x in b
    ensures multiset(a) == multiset(b)
  {
    forall x ensures multiset(a)[x] == multiset(b)[x] {
      CountedOnce(a, x);
      CountedOnce(b, x);
      assert (x in a <==> x in multiset(a)) && (x in b <==> x in multiset(b));
    }
  }

  lemma Keyed(plans: seq<MergePlan>, x: MergePlan, y: MergePlan)
    requires Apart(plans) && x in plans && y in plans && x.partition == y.partition && x.group == y.group
    ensures x == y
  {
    var i :| 0 <= i < |plans| && plans[i] == x;
    var j :| 0 <= j < |plans| && plans[j] == y;
  }

  /** Sorting keeps plans apart. */
  lemma SortedApart(plans: seq<MergePlan>)
    requires Apart(plans)
    ensures Apart(Sort(PlanLess, plans)) && forall p :: p in Sort(PlanLess, plans) <==> p in plans
  {
    var s := Sort(PlanLess, plans);
    forall p ensures p in s <==> p in plans { MultisetMember(s, plans, p); }
    forall p ensures multiset(s)[p] <= 1 { CountedOnce(plans, p); }
    forall i, j | 0 <= i < j < |s| ensures s[i].partition != s[j].partition || s[i].group != s[j].group {
      OnceMeansApart(s, i, j);
      assert s[i] in s && s[j] in s;
      if s[i].partition == s[j].partition && s[i].group == s[j].group { Keyed(plans, s[i], s[j]); }
    }
  }

  /** Every group that has a plan is the group of some key. */
  ghost predicate RealGroups(want: Plans) {
    forall part, g | want(part, g).Some? :: IsPrefix(g.prefix)
  }

  ghost predicate IsPrefix(prefix: string) {
    exists key :: prefix == GroupPrefix(key)
  }

  lemma CollectedOnePerGroup(want: Plans, times: string -> int, parts: set<string>, plans: seq<MergePlan>)
    requires Collects(want, times, parts, plans) && RealGroups(want)
    ensures OnePerGroup(plans)
  {
    forall x, y | x in plans && y in plans && x != y ensures x.partition != y.partition || x.group != y.group {
      if x.partition == y.partition && x.group == y.group { Keyed(plans, x, y); }
    }
    forall x | x in plans ensures exists key :: x.group.prefix == GroupPrefix(key) {
      assert want(x.partition, x.group).Some? && IsPrefix(x.group.prefix);
    }
  }

  /** The partners of one scan's plans are all of the other's. */
  lemma PartnersAreAll(
    a: Plans, b: Plans, times: string -> int, parts: set<string>, pa: seq<MergePlan>, pb: seq<MergePlan>,
    from: seq<MergePlan>, to: seq<MergePlan>)
    requires Alike(b, a) && Collects(a, times, parts, pa) && Collects(b, times, parts, pb)
    requires Apart(from) && (forall p :: p in from <==> p in pa)
    requires |to| == |from| && forall i | 0 <= i < |from| :: to[i] in pb && SameMerge(from[i], to[i])
    ensures multiset(to) == multiset(pb)
  {
    forall q | q in pb ensures q in to {
      var p := Partner(b, a, times, parts, pa, q);
      var i :| 0 <= i < |from| && from[i] == p;
      Keyed(pb, q, to[i]);
    }
    SameElements(to, pb);
  }

  lemma SortedPartners(from: seq<MergePlan>, to: seq<MergePlan>)
    requires Ascending(PlanLess, from) && |to| == |from| && forall i | 0 <= i < |from| :: SameMerge(from[i], to[i])
    ensures Ascending(PlanLess, to)
  {
    forall i, j | 0 <= i < j < |to| ensures !PlanLess(to[j], to[i]) {
      SameMergeSameOrder(from[j], to[j], from[i], to[i]);
    }
  }

  /** Two collections of alike plans sort to the same merges, one by one. */
  lemma SortedAlike(a: Plans, b: Plans, times: string -> int, parts: set<string>, pa: seq<MergePlan>, pb: seq<MergePlan>)
    requires Alike(a, b) && Alike(b, a) && RealGroups(b)
    requires Collects(a, times, parts, pa) && Collects(b, times, parts, pb)
    ensures |Sort(PlanLess, pa)| == |Sort(PlanLess, pb)|
    ensures forall i | 0 <= i < |Sort(PlanLess, pa)| :: SameMerge(Sort(PlanLess, pa)[i], Sort(PlanLess, pb)[i])
  {
    var from := Sort(PlanLess, pa);
    SortedApart(pa);
    PlanLessIsOrder();
    SortAscends(PlanLess, pa);
    var to := Partners(a, b, times, parts, pb, from);
    SortedPartners(from, to);
    PartnersAreAll(a, b, times, parts, pa, pb, from, to);
    SameSize(to, pb);
    CollectedOnePerGroup(b, times, parts, pb);
    SortOfAscending(to, pb);
  }

  lemma SortOfAscending(to: seq<MergePlan>, pb: seq<MergePlan>)
    requires Ascending(PlanLess, to) && multiset(to) == multiset(pb) && OnePerGroup(pb)
    ensures to == Sort(PlanLess, pb)
  {
    PlanLessIsOrder();
    SortAscends(PlanLess, pb);
    PlansSeparate(pb, to);
    AscendingIsUnique(PlanLess, to, Sort(PlanLess, pb));
  }

  lemma ManifestGroupsAreReal(s: Scan, manifest: map<string, seq<FileInfo>>, times: string -> int)
    ensures RealGroups(ManifestPlans(s, manifest, times))
  {
    forall part, g | ManifestPlans(s, manifest, times)(part, g).Some? ensures IsPrefix(g.prefix) {
      PlannedGroupIsReal(s, manifest[part], times(part), g);
    }
  }

  lemma PlannedGroupIsReal(s: Scan, files: seq<FileInfo>, time: int, g: GroupKey)
    requires NaivePlan(s, files, time, g).Some?
    ensures IsPrefix(g.prefix)
  {
    OpenIfPlanned(s, files, time, g);
    var f := GroupFiles(s, files, g)[0];
    assert f in GroupFiles(s, files, g) && InGroup(s, g)(f);
  }

  /** The same partitions with the same files in each, in whatever order. */
  ghost predicate SameFiles(a: map<string, seq<FileInfo>>, b: map<string, seq<FileInfo>>) {
    a.Keys == b.Keys && forall part | part in a :: multiset(a[part]) == multiset(b[part])
  }

  lemma PermutedManifestsAreAlike(s: Scan, a: map<string, seq<FileInfo>>, b: map<string, seq<FileInfo>>, times: string -> int)
    requires SameFiles(a, b)
    ensures Alike(ManifestPlans(s, a, times), ManifestPlans(s, b, times))
  {
    forall part, g ensures SamePlan(ManifestPlans(s, a, times)(part, g), ManifestPlans(s, b, times)(part, g)) {
      if part in a { PartitionPlansPermute(s, a[part], b[part], times(part), g); }
    }
  }

  /** Two pods that see the same files try the same merges in the same order, however
      their manifests list them and in whatever order the partitions were walked. */
  lemma ScansAgree(
    s: Scan, a: map<string, seq<FileInfo>>, b: map<string, seq<FileInfo>>, times: string -> int,
    pa: seq<MergePlan>, pb: seq<MergePlan>)
    requires SameFiles(a, b)
    requires Collects(ManifestPlans(s, a, times), times, a.Keys, pa) && Collects(ManifestPlans(s, b, times), times, b.Keys, pb)
    ensures |Sort(PlanLess, pa)| == |Sort(PlanLess, pb)|
    ensures forall i | 0 <= i < |Sort(PlanLess, pa)| :: SameMerge(Sort(PlanLess, pa)[i], Sort(PlanLess, pb)[i])
  {
    PermutedManifestsAreAlike(s, a, b, times);
    PermutedManifestsAreAlike(s, b, a, times);
    ManifestGroupsAreReal(s, b, times);
    SortedAlike(ManifestPlans(s, a, times), ManifestPlans(s, b, times), times, a.Keys, pa, pb);
  }
}
