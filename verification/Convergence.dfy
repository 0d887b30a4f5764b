/** Plan-then-merge on one tenant group with no new input: it ends, it rewrites no
    row more often than the level says, and it conserves raw bytes
    (internal/compaction/planner.go, internal/compaction/compactor.go). */
module Convergence {
  import opened Ordering
  import opened Files
  import opened Schemas
  import opened Planner

  /** A file and how often the most rewritten of its rows was rewritten. */
  datatype Tracked = Tracked(file: FileInfo, rewrites: nat)

  function FilesOf(s: seq<Tracked>): (r: seq<FileInfo>)
    ensures |r| == |s|
    ensures forall i | 0 <= i < |s| :: r[i] == s[i].file
  {
    seq(|s|, i requires 0 <= i < |s| => s[i].file)
  }

  function MostRewritten(s: seq<Tracked>): (m: nat)
    ensures forall x | x in s :: x.rewrites <= m
  {
    if s == [] then
      0
    else
      var rest := MostRewritten(s[1..]);
      assert s == [s[0]] + s[1..];
      if s[0].rewrites > rest then s[0].rewrites else rest
  }

  function RawTotal(files: seq<FileInfo>): (r: int)
    ensures |files| == 1 ==> r == files[0].raw
  {
    if files == [] then 0 else files[0].raw + RawTotal(files[1..])
  }

  /** One merge: the planned files `sel` go, the output comes, the rest stays. Its
      size is whatever the rows compress to. */
  datatype Merge = Merge(age: int, current: string, sizeOK: bool, sel: seq<Tracked>, rest: seq<Tracked>, out: FileInfo)

  /** The group after the merge. */
  function After(m: Merge): seq<Tracked> {
    m.rest + [Tracked(m.out, 1 + MostRewritten(m.sel))]
  }

  /** The merge carries out the plan of the group as it stands, or what the recheck of
      the live files and the fence leave of it: two files or more. */
  ghost predicate Merges(p: LevelPolicy, s: seq<Tracked>, m: Merge) {
    var plan := PlanGroup(p, FilesOf(s), m.age, m.current, m.sizeOK);
    && plan.Some?
    && multiset(s) == multiset(m.sel + m.rest)
    && |m.sel| >= 2 && multiset(FilesOf(m.sel)) <= multiset(plan.value.files)
    && m.out.level == plan.value.level + 1
    && m.out.raw == RawTotal(FilesOf(m.sel))
  }

  ghost predicate IsRun(p: LevelPolicy, s: seq<Tracked>, merges: seq<Merge>)
    decreases |merges|
  {
    merges == [] || (Merges(p, s, merges[0]) && IsRun(p, After(merges[0]), merges[1..]))
  }

  function Final(s: seq<Tracked>, merges: seq<Merge>): seq<Tracked>
    decreases |merges|
  {
    if merges == [] then s else Final(After(merges[0]), merges[1..])
  }

  ghost predicate LevelBounds(s: seq<Tracked>) {
    forall x | x in s :: x.rewrites <= x.file.level
  }

  lemma {:induction false} RawConcat(a: seq<FileInfo>, b: seq<FileInfo>)
    ensures RawTotal(a + b) == RawTotal(a) + RawTotal(b)
  {
    if a == [] {
      assert a + b == b;
    } else {
      assert (a + b)[0] == a[0] && (a + b)[1..] == a[1..] + b;
      RawConcat(a[1..], b);
    }
  }

  lemma {:induction false} RawPermutes(a: seq<FileInfo>, b: seq<FileInfo>)
    requires multiset(a) == multiset(b)
    ensures RawTotal(a) == RawTotal(b)
  {
    assert |a| == |multiset(a)| && |b| == |multiset(b)|;
    if a != [] {
      var i := MatchHead(a, b);
      assert b == b[..i] + ([b[i]] + b[i + 1..]);
      RawPermutes(a[1..], b[..i] + b[i + 1..]);
      RawConcat(b[..i], b[i + 1..]);
      RawConcat(b[..i], [b[i]] + b[i + 1..]);
      assert ([b[i]] + b[i + 1..])[1..] == b[i + 1..];
    }
  }

  lemma FilesConcat(a: seq<Tracked>, b: seq<Tracked>)
    ensures FilesOf(a + b) == FilesOf(a) + FilesOf(b)
  {}

  lemma {:induction false} FilesPermute(a: seq<Tracked>, b: seq<Tracked>)
    requires multiset(a) == multiset(b)
    ensures multiset(FilesOf(a)) == multiset(FilesOf(b))
  {
    assert |a| == |multiset(a)| && |b| == |multiset(b)|;
    if a != [] {
      var i := MatchHead(a, b);
      var fb := FilesOf(b);
      FilesPermute(a[1..], b[..i] + b[i + 1..]);
      assert FilesOf(a) == [a[0].file] + FilesOf(a[1..]);
      assert FilesOf(b[..i] + b[i + 1..]) == fb[..i] + fb[i + 1..];
      assert fb == fb[..i] + ([a[0].file] + fb[i + 1..]);
    }
  }

  lemma {:induction false} MostRewrittenAtMost(s: seq<Tracked>, bound: nat)
    requires forall x | x in s :: x.rewrites <= bound
    ensures MostRewritten(s) <= bound
  {
    if s != [] {
      assert s[0] in s && forall x | x in s[1..] :: x in s;
      MostRewrittenAtMost(s[1..], bound);
    }
  }

  lemma MergeShrinks(s: seq<Tracked>, m: Merge)
    requires multiset(s) == multiset(m.sel + m.rest) && |m.sel| >= 2
    ensures |m.rest| + 1 < |s|
  {
    SameSize(s, m.sel + m.rest);
  }

  lemma MergeBounds(s: seq<Tracked>, m: Merge, plan: Plan)
    requires LevelBounds(s) && multiset(s) == multiset(m.sel + m.rest)
    requires multiset(FilesOf(m.sel)) <= multiset(plan.files) && LevelsBelow(plan.files, plan.level + 1)
    ensures MostRewritten(m.sel) <= plan.level
    ensures LevelBounds(m.rest)
  {
    forall x | x in m.sel ensures x.rewrites <= plan.level {
      MultisetMember(s, m.sel + m.rest, x);
      var i :| 0 <= i < |m.sel| && m.sel[i] == x;
      assert FilesOf(m.sel)[i] == x.file;
      assert x.file in multiset(FilesOf(m.sel)) && x.file in multiset(plan.files);
    }
    MostRewrittenAtMost(m.sel, plan.level);
    forall x | x in m.rest ensures x.rewrites <= x.file.level {
      MultisetMember(s, m.sel + m.rest, x);
    }
  }

  lemma MergeRaw(s: seq<Tracked>, sel: seq<Tracked>, rest: seq<Tracked>, out: Tracked)
    requires multiset(s) == multiset(sel + rest) && out.file.raw == RawTotal(FilesOf(sel))
    ensures RawTotal(FilesOf(rest + [out])) == RawTotal(FilesOf(s))
  {
    FilesPermute(s, sel + rest);
    RawPermutes(FilesOf(s), FilesOf(sel + rest));
    FilesConcat(sel, rest);
    RawConcat(FilesOf(sel), FilesOf(rest));
    FilesConcat(rest, [out]);
    RawConcat(FilesOf(rest), [out.file]);
    assert FilesOf([out]) == [out.file];
    assert RawTotal([out.file]) == out.file.raw + RawTotal([out.file][1..]);
  }

  lemma AppliedPlan(s: seq<Tracked>, m: Merge, plan: Plan, out: Tracked)
    requires |m.sel| >= 2 && LevelsBelow(plan.files, plan.level + 1)
    requires multiset(s) == multiset(m.sel + m.rest) && multiset(FilesOf(m.sel)) <= multiset(plan.files)
    requires out == Tracked(m.out, 1 + MostRewritten(m.sel))
    requires m.out.level == plan.level + 1 && m.out.raw == RawTotal(FilesOf(m.sel))
    ensures |m.rest + [out]| < |s|
    ensures LevelBounds(s) ==> LevelBounds(m.rest + [out])
    ensures RawTotal(FilesOf(m.rest + [out])) == RawTotal(FilesOf(s))
  {
    MergeShrinks(s, m);
    if LevelBounds(s) {
      MergeBounds(s, m, plan);
    }
    MergeRaw(s, m.sel, m.rest, out);
  }

  /** Each merge removes at least one file, keeps the level bound, and conserves
      the group's raw bytes. */
  lemma MergeProgress(p: LevelPolicy, s: seq<Tracked>, m: Merge)
    requires Merges(p, s, m)
    ensures 1 <= |After(m)| < |s|
    ensures LevelBounds(s) ==> LevelBounds(After(m))
    ensures RawTotal(FilesOf(After(m))) == RawTotal(FilesOf(s))
  {
    PlanIsWellFormed(p, FilesOf(s), m.age, m.current, m.sizeOK);
    MergeApplies(s, m, PlanGroup(p, FilesOf(s), m.age, m.current, m.sizeOK).value);
  }

  lemma MergeApplies(s: seq<Tracked>, m: Merge, plan: Plan)
    requires LevelsBelow(plan.files, plan.level + 1) && |m.sel| >= 2 && multiset(s) == multiset(m.sel + m.rest)
    requires multiset(FilesOf(m.sel)) <= multiset(plan.files)
    requires m.out.level == plan.level + 1 && m.out.raw == RawTotal(FilesOf(m.sel))
    ensures 1 <= |After(m)| < |s|
    ensures LevelBounds(s) ==> LevelBounds(After(m))
    ensures RawTotal(FilesOf(After(m))) == RawTotal(FilesOf(s))
  {
    AppliedPlan(s, m, plan, Tracked(m.out, 1 + MostRewritten(m.sel)));
  }

  /** Over any run, whatever the ages and sizes: fewer merges than there were files,
      no row rewritten more often than its file's level, raw bytes conserved. */
  lemma {:induction false} RunBounds(p: LevelPolicy, s: seq<Tracked>, merges: seq<Merge>)
    requires IsRun(p, s, merges)
    ensures merges != [] ==> |merges| < |s|
    ensures |Final(s, merges)| + |merges| <= |s|
    ensures LevelBounds(s) ==> LevelBounds(Final(s, merges))
    ensures RawTotal(FilesOf(Final(s, merges))) == RawTotal(FilesOf(s))
    decreases |merges|
  {
    if merges != [] {
      MergeProgress(p, s, merges[0]);
      RunBounds(p, After(merges[0]), merges[1..]);
    }
  }

  /** The planned files can be taken out of the group. */
  lemma {:induction false} TakeOut(s: seq<Tracked>, want: seq<FileInfo>) returns (sel: seq<Tracked>, rest: seq<Tracked>)
    requires multiset(want) <= multiset(FilesOf(s))
    ensures FilesOf(sel) == want && multiset(s) == multiset(sel + rest)
    decreases |want|
  {
    if want == [] {
      sel, rest := [], s;
      assert sel + rest == s;
    } else {
      var i := FindFile(s, want);
      var tail;
      tail, rest := TakeOut(Without(s, i), want[1..]);
      sel := [s[i]] + tail;
      RemoveAt(s, i);
      RemoveAt(sel + rest, 0);
      assert Without(sel + rest, 0) == tail + rest;
    }
  }

  lemma FilesWithout(s: seq<Tracked>, i: nat)
    requires i < |s|
    ensures FilesOf(Without(s, i)) == Without(FilesOf(s), i)
  {}

  lemma FindFile(s: seq<Tracked>, want: seq<FileInfo>) returns (i: nat)
    requires want != [] && multiset(want) <= multiset(FilesOf(s))
    ensures i < |s| && s[i].file == want[0]
    ensures multiset(want[1..]) <= multiset(FilesOf(Without(s, i)))
  {
    var fs := FilesOf(s);
    assert want[0] in multiset(want) && want[0] in multiset(fs);
    i :| 0 <= i < |fs| && fs[i] == want[0];
    FilesWithout(s, i);
    RemoveAt(fs, i);
    RemoveAt(want, 0);
    assert Without(want, 0) == want[1..];
    SubsetWithout(multiset(want[1..]), multiset(Without(fs, i)), want[0]);
  }

  lemma SettledFiles(p: LevelPolicy, files: seq<FileInfo>, age: int, current: string)
    requires age >= p.minAge && RollupAge(p) > 0 && age >= RollupAge(p)
    requires PlanGroup(p, files, age, current, true).None?
    ensures forall fp :: |Filter(Filter(files, Immature()), HasFingerprint(fp))| <= 1
  {
    forall fp ensures |Filter(Filter(files, Immature()), HasFingerprint(fp))| <= 1 {
      SettledGroup(p, files, age, current, fp);
    }
  }

  lemma BuildMerge(s: seq<Tracked>, plan: Plan, age: int, current: string, size: seq<FileInfo> -> int)
    returns (m: Merge)
    requires |plan.files| > 0 && multiset(plan.files) <= multiset(FilesOf(s))
    ensures m.age == age && m.current == current && m.sizeOK
    ensures multiset(s) == multiset(m.sel + m.rest)
    ensures multiset(FilesOf(m.sel)) == multiset(plan.files)
    ensures m.out.level == plan.level + 1 && m.out.raw == RawTotal(FilesOf(m.sel))
  {
    var sel, rest := TakeOut(s, plan.files);
    var out := FileInfo("out", "", size(plan.files), RawTotal(plan.files), plan.files[0].fingerprint, plan.level + 1, "");
    m := Merge(age, current, true, sel, rest, out);
  }

  lemma NextMerge(p: LevelPolicy, s: seq<Tracked>, age: int, current: string, size: seq<FileInfo> -> int)
    returns (m: Merge)
    requires PlanGroup(p, FilesOf(s), age, current, true).Some?
    ensures Merges(p, s, m)
  {
    PlanIsWellFormed(p, FilesOf(s), age, current, true);
    m := BuildMerge(s, PlanGroup(p, FilesOf(s), age, current, true).value, age, current, size);
    SameSize(FilesOf(m.sel), PlanGroup(p, FilesOf(s), age, current, true).value.files);
  }

  /** At a fixed age past the rollup age the group always reaches a state with
      nothing left to plan, and there it holds at most one immature file per schema
      (with `RunBounds`: after fewer merges than it had files). Merged sizes are arbitrary. */
  lemma {:induction false} GroupSettles(
    p: LevelPolicy, s: seq<Tracked>, age: int, current: string, size: seq<FileInfo> -> int)
    returns (merges: seq<Merge>)
    requires age >= p.minAge && RollupAge(p) > 0 && age >= RollupAge(p)
    ensures IsRun(p, s, merges)
    ensures PlanGroup(p, FilesOf(Final(s, merges)), age, current, true).None?
    ensures forall fp :: |Filter(Filter(FilesOf(Final(s, merges)), Immature()), HasFingerprint(fp))| <= 1
    decreases |s|
  {
    if PlanGroup(p, FilesOf(s), age, current, true).None? {
      merges := [];
      SettledFiles(p, FilesOf(s), age, current);
    } else {
      var m := NextMerge(p, s, age, current, size);
      MergeProgress(p, s, m);
      var later := GroupSettles(p, After(m), age, current, size);
      merges := [m] + later;
      assert merges[0] == m && merges[1..] == later;
    }
  }
}
