/** Which files of one tenant group merge, and why (internal/compaction/planner.go,
    policy.go, recompactionLevel in scheduler.go). The functions say what is
    planned; the methods compute it the way the source does. */
module Planner {
  import opened Ordering
  import opened Files
  import opened Schemas

  datatype LevelPolicy = LevelPolicy(minFilesL0: int, minFilesL1: int, minAge: int, dailyRollupAge: int)

  datatype Reason = L0Count | L1Count | Rollup | StaleSchema | Fragmented

  datatype Plan = Plan(level: nat, files: seq<FileInfo>, reason: Reason)

  /** DailyRollupAge with its one-hour floor; 0 or less disables the rollup. */
  function RollupAge(p: LevelPolicy): int {
    if 0 < p.dailyRollupAge < HOUR then HOUR else p.dailyRollupAge
  }

  function AtLevel(level: nat): FileInfo -> bool {
    (f: FileInfo) => f.level == level
  }

  function Selects(level: nat, fp: string): FileInfo -> bool {
    (f: FileInfo) => f.level == level && f.fingerprint == fp
  }

  function Immature(): FileInfo -> bool {
    (f: FileInfo) => f.size < MATURE_BYTES
  }

  function Everything(): FileInfo -> bool {
    (f: FileInfo) => true
  }

  function MaxLevel(files: seq<FileInfo>): (m: nat)
    ensures forall f | f in files :: f.level <= m
  {
    if files == [] then
      0
    else
      var rest := MaxLevel(files[1..]);
      assert files == [files[0]] + files[1..];
      if files[0].level > rest then files[0].level else rest
  }

  ghost predicate HasStale(files: seq<FileInfo>, current: string) {
    current != "" && exists f | f in files :: f.fingerprint != current
  }

  /** The level a compaction hint asks to merge at: the top level, when a file is
      stale or two or more files sit at a top level of 2 or above. */
  ghost function RecompactionLevel(files: seq<FileInfo>, current: string): Option<nat> {
    var top := MaxLevel(files);
    if HasStale(files, current) then Some(top)
    else if top >= 2 && |Filter(files, AtLevel(top))| >= 2 then Some(top)
    else None
  }

  /** The files of the level's majority fingerprint at that level. */
  ghost function SelectMajority(files: seq<FileInfo>, level: nat): seq<FileInfo> {
    Filter(files, Selects(level, Majority(Fingerprints(Filter(files, AtLevel(level))), "")))
  }

  /** The hint's merge of one level's selection: all of it to bring it onto the
      current schema, or its immature files to reduce their number. */
  ghost function HintOf(level: nat, sel: seq<FileInfo>, current: string, fragmentOK: bool): Option<Plan> {
    var small := Filter(sel, Immature());
    if HasStale(sel, current) then
      if |sel| >= 2 then Some(Plan(level, sel, StaleSchema)) else None
    else if fragmentOK && |small| >= 2 then Some(Plan(level, small, Fragmented))
    else None
  }

  ghost function PlanHint(files: seq<FileInfo>, current: string, fragmentOK: bool): Option<Plan> {
    match RecompactionLevel(files, current)
    case None => None
    case Some(level) => HintOf(level, SelectMajority(files, level), current, fragmentOK)
  }

  ghost function RollupFiles(files: seq<FileInfo>, current: string): seq<FileInfo> {
    var small := Filter(files, Immature());
    Filter(small, HasFingerprint(Majority(Fingerprints(Filter(small, Everything())), current)))
  }

  /** An open-hour merge of one level, once it has enough files. */
  ghost function ThresholdPlan(minFiles: int, files: seq<FileInfo>, level: nat, reason: Reason): Option<Plan> {
    if |Filter(files, AtLevel(level))| >= minFiles && |SelectMajority(files, level)| >= 2
    then Some(Plan(level, SelectMajority(files, level), reason)) else None
  }

  /** The closed-hour rollup of every immature file of the majority schema. */
  ghost function RollupPlan(p: LevelPolicy, files: seq<FileInfo>, age: int, current: string): Option<Plan> {
    var sel := RollupFiles(files, current);
    if RollupAge(p) > 0 && age >= RollupAge(p) && |sel| >= 2 then Some(Plan(MaxLevel(sel), sel, Rollup)) else None
  }

  ghost function OrElse<T>(first: Option<T>, second: Option<T>): Option<T> {
    if first.Some? then first else second
  }

  /** planGroup: the one merge, if any, for one tenant group at one age. */
  ghost function PlanGroup(p: LevelPolicy, files: seq<FileInfo>, age: int, current: string, sizeOK: bool): Option<Plan> {
    if |files| < 2 || age < p.minAge then None
    else if !sizeOK then PlanHint(files, current, false)
    else
      OrElse(ThresholdPlan(p.minFilesL0, files, 0, L0Count),
      OrElse(ThresholdPlan(p.minFilesL1, files, 1, L1Count),
      OrElse(RollupPlan(p, files, age, current),
             PlanHint(files, current, true))))
  }

  // ---- The methods -----------------------------------------------------------

  method CountAtLevel(files: seq<FileInfo>, level: nat) returns (n: nat)
    ensures n == |Filter(files, AtLevel(level))|
  {
    n := 0;
    for i := 0 to |files|
      invariant n == |Filter(files[..i], AtLevel(level))|
    {
      FilterNext(files, i, AtLevel(level));
      if files[i].level == level { n := n + 1; }
    }
    assert files[..|files|] == files;
  }

  /** The append loop behind SelectFiles and the small-file filters. */
  method Select(files: seq<FileInfo>, keep: FileInfo -> bool) returns (selected: seq<FileInfo>)
    ensures selected == Filter(files, keep)
  {
    selected := [];
    for i := 0 to |files|
      invariant selected == Filter(files[..i], keep)
    {
      FilterNext(files, i, keep);
      if keep(files[i]) { selected := selected + [files[i]]; }
    }
    assert files[..|files|] == files;
  }

  method SelectFiles(files: seq<FileInfo>, level: nat) returns (selected: seq<FileInfo>)
    ensures selected == SelectMajority(files, level)
  {
    var fp := MajorityFingerprint(files, "", AtLevel(level));
    selected := Select(files, Selects(level, fp));
  }

  lemma {:induction false} MaxLevelAppend(files: seq<FileInfo>, f: FileInfo)
    ensures MaxLevel(files + [f]) == if f.level > MaxLevel(files) then f.level else MaxLevel(files)
  {
    if files == [] {
      assert [f][1..] == [];
      assert files + [f] == [f];
      assert MaxLevel([f]) == if f.level > MaxLevel([]) then f.level else MaxLevel([]);
    } else {
      assert (files + [f])[0] == files[0] && (files + [f])[1..] == files[1..] + [f];
      MaxLevelAppend(files[1..], f);
    }
  }

  method FindRecompactionLevel(files: seq<FileInfo>, current: string) returns (level: Option<nat>)
    ensures level == RecompactionLevel(files, current)
  {
    var maxLevel: nat, stale := 0, false;
    for i := 0 to |files|
      invariant maxLevel == MaxLevel(files[..i])
      invariant stale == HasStale(files[..i], current)
    {
      assert files[..i + 1] == files[..i] + [files[i]];
      MaxLevelAppend(files[..i], files[i]);
      assert files[i] in files[..i + 1];
      if files[i].level > maxLevel { maxLevel := files[i].level; }
      if current != "" && files[i].fingerprint != current { stale := true; }
    }
    assert files[..|files|] == files;
    if stale { return Some(maxLevel); }
    if maxLevel >= 2 {
      var count := CountAtLevel(files, maxLevel);
      if count >= 2 { return Some(maxLevel); }
    }
    return None;
  }

  method FindHintPlan(files: seq<FileInfo>, current: string, fragmentOK: bool) returns (plan: Option<Plan>)
    ensures plan == PlanHint(files, current, fragmentOK)
  {
    var found := FindRecompactionLevel(files, current);
    if found.None? { return None; }
    var level := found.value;
    var sel := SelectFiles(files, level);
    var stale, i := false, 0;
    while i < |sel| && !stale
      invariant 0 <= i <= |sel|
      invariant stale ==> HasStale(sel, current)
      invariant !stale ==> forall j | 0 <= j < i :: current == "" || sel[j].fingerprint == current
    {
      if current != "" && sel[i].fingerprint != current {
        assert sel[i] in sel;
        stale := true;
      }
      i := i + 1;
    }
    if stale {
      return if |sel| >= 2 then Some(Plan(level, sel, StaleSchema)) else None;
    }
    if !fragmentOK { return None; }
    var small := Select(sel, Immature());
    return if |small| >= 2 then Some(Plan(level, small, Fragmented)) else None;
  }

  lemma RollupOneMore(small: seq<FileInfo>, i: nat, fp: string, sel: seq<FileInfo>)
    requires i < |small| && sel == Filter(small[..i], HasFingerprint(fp))
    ensures var f := small[i];
            && Filter(small[..i + 1], HasFingerprint(fp)) == (if f.fingerprint == fp then sel + [f] else sel)
            && MaxLevel(sel + [f]) == if f.level > MaxLevel(sel) then f.level else MaxLevel(sel)
  {
    FilterNext(small, i, HasFingerprint(fp));
    MaxLevelAppend(sel, small[i]);
  }

  /** The selection loop of the rollup: the files of one fingerprint and their top level. */
  method SelectRollup(small: seq<FileInfo>, fp: string) returns (sel: seq<FileInfo>, top: nat)
    ensures sel == Filter(small, HasFingerprint(fp)) && top == MaxLevel(sel)
  {
    sel, top := [], 0;
    for i := 0 to |small|
      invariant sel == Filter(small[..i], HasFingerprint(fp))
      invariant top == MaxLevel(sel)
    {
      var f := small[i];
      RollupOneMore(small, i, fp, sel);
      if f.fingerprint == fp {
        sel := sel + [f];
        if f.level > top { top := f.level; }
      }
    }
    assert small[..|small|] == small;
  }

  method FindRollupPlan(files: seq<FileInfo>, current: string) returns (plan: Option<Plan>)
    ensures var sel := RollupFiles(files, current);
            plan == if |sel| >= 2 then Some(Plan(MaxLevel(sel), sel, Rollup)) else None
  {
    var small := Select(files, Immature());
    var fp := MajorityFingerprint(small, current, Everything());
    var sel, top := SelectRollup(small, fp);
    return if |sel| >= 2 then Some(Plan(top, sel, Rollup)) else None;
  }

  method FindThresholdPlan(minFiles: int, files: seq<FileInfo>, level: nat, reason: Reason) returns (plan: Option<Plan>)
    ensures plan == ThresholdPlan(minFiles, files, level, reason)
  {
    var count := CountAtLevel(files, level);
    if count < minFiles { return None; }
    var sel := SelectFiles(files, level);
    return if |sel| >= 2 then Some(Plan(level, sel, reason)) else None;
  }

  method FindGroupPlan(p: LevelPolicy, files: seq<FileInfo>, age: int, current: string, sizeOK: bool)
    returns (plan: Option<Plan>)
    ensures plan == PlanGroup(p, files, age, current, sizeOK)
  {
    if |files| < 2 { return None; }
    if age < p.minAge { return None; }
    if !sizeOK {
      plan := FindHintPlan(files, current, false);
      return;
    }
    plan := FindThresholdPlan(p.minFilesL0, files, 0, L0Count);
    if plan.Some? { return; }
    plan := FindThresholdPlan(p.minFilesL1, files, 1, L1Count);
    if plan.Some? { return; }
    if RollupAge(p) > 0 && age >= RollupAge(p) {
      plan := FindRollupPlan(files, current);
      if plan.Some? { return; }
    }
    plan := FindHintPlan(files, current, true);
  }

  // ---- What every plan satisfies -----------------------------------------------

  ghost predicate OneSchema(files: seq<FileInfo>) {
    forall f, g | f in files && g in files :: f.fingerprint == g.fingerprint
  }

  ghost predicate LevelsBelow(files: seq<FileInfo>, level: nat) {
    forall f | f in files :: f.level < level
  }

  /** A plan passes every gate of the compactor: two or more of the group's own
      files, one fingerprint, and an output level above every input's. */
  ghost predicate WellFormed(plan: Plan, files: seq<FileInfo>) {
    && |plan.files| >= 2
    && multiset(plan.files) <= multiset(files)
    && LevelsBelow(plan.files, plan.level + 1)
    && OneSchema(plan.files)
  }

  lemma FilterIsPart<T(!new)>(s: seq<T>, keep: T -> bool)
    ensures multiset(Filter(s, keep)) <= multiset(s)
  {
    forall x ensures multiset(Filter(s, keep))[x] <= multiset(s)[x] {
      FilterCount(s, keep, x);
    }
  }

  lemma SelectionIsPart(files: seq<FileInfo>, level: nat)
    ensures multiset(SelectMajority(files, level)) <= multiset(files)
    ensures OneSchema(SelectMajority(files, level)) && LevelsBelow(SelectMajority(files, level), level + 1)
  {
    FilterIsPart(files, Selects(level, Majority(Fingerprints(Filter(files, AtLevel(level))), "")));
  }

  lemma HintOfIsWellFormed(level: nat, sel: seq<FileInfo>, files: seq<FileInfo>, current: string, fragmentOK: bool)
    requires multiset(sel) <= multiset(files) && OneSchema(sel) && LevelsBelow(sel, level + 1)
    requires HintOf(level, sel, current, fragmentOK).Some?
    ensures WellFormed(HintOf(level, sel, current, fragmentOK).value, files)
  {
    SmallPart(sel, files, level);
  }

  /** The immature files of a selection. */
  lemma SmallPart(sel: seq<FileInfo>, files: seq<FileInfo>, level: nat)
    requires multiset(sel) <= multiset(files) && OneSchema(sel) && LevelsBelow(sel, level + 1)
    ensures var small := Filter(sel, Immature());
            multiset(small) <= multiset(files) && OneSchema(small) && LevelsBelow(small, level + 1)
  {
    FilterIsPart(sel, Immature());
  }

  lemma HintIsWellFormed(files: seq<FileInfo>, current: string, fragmentOK: bool)
    requires PlanHint(files, current, fragmentOK).Some?
    ensures WellFormed(PlanHint(files, current, fragmentOK).value, files)
  {
    var level := RecompactionLevel(files, current).value;
    SelectionIsPart(files, level);
    HintOfIsWellFormed(level, SelectMajority(files, level), files, current, fragmentOK);
  }

  lemma RollupIsPart(files: seq<FileInfo>, current: string)
    ensures multiset(RollupFiles(files, current)) <= multiset(files)
    ensures OneSchema(RollupFiles(files, current))
  {
    var small := Filter(files, Immature());
    FilterIsPart(files, Immature());
    FilterIsPart(small, HasFingerprint(Majority(Fingerprints(Filter(small, Everything())), current)));
  }

  lemma PlanIsWellFormed(p: LevelPolicy, files: seq<FileInfo>, age: int, current: string, sizeOK: bool)
    requires PlanGroup(p, files, age, current, sizeOK).Some?
    ensures WellFormed(PlanGroup(p, files, age, current, sizeOK).value, files)
  {
    ThresholdIsWellFormed(p.minFilesL0, files, 0, L0Count);
    ThresholdIsWellFormed(p.minFilesL1, files, 1, L1Count);
    RollupIsWellFormed(p, files, age, current);
    if PlanHint(files, current, sizeOK).Some? {
      HintIsWellFormed(files, current, sizeOK);
    }
  }

  lemma ThresholdIsWellFormed(minFiles: int, files: seq<FileInfo>, level: nat, reason: Reason)
    ensures var plan := ThresholdPlan(minFiles, files, level, reason); plan.Some? ==> WellFormed(plan.value, files)
  {
    SelectionIsPart(files, level);
  }

  lemma RollupIsWellFormed(p: LevelPolicy, files: seq<FileInfo>, age: int, current: string)
    ensures var plan := RollupPlan(p, files, age, current); plan.Some? ==> WellFormed(plan.value, files)
  {
    RollupIsPart(files, current);
  }

  // ---- Planning depends on the contents, not on their order ----------------------

  lemma {:induction false} MaxLevelReached(files: seq<FileInfo>)
    requires MaxLevel(files) > 0
    ensures exists f | f in files :: f.level == MaxLevel(files)
  {
    assert files == [files[0]] + files[1..];
    if files[0].level > MaxLevel(files[1..]) {
      assert files[0] in files;
    } else {
      MaxLevelReached(files[1..]);
    }
  }

  lemma MaxLevelPermutes(a: seq<FileInfo>, b: seq<FileInfo>)
    requires multiset(a) == multiset(b)
    ensures MaxLevel(a) == MaxLevel(b)
  {
    forall f: FileInfo ensures f in a <==> f in b {
      MultisetMember(a, b, f);
    }
    if MaxLevel(a) > 0 { MaxLevelReached(a); }
    if MaxLevel(b) > 0 { MaxLevelReached(b); }
  }

  lemma SelectMajorityPermutes(a: seq<FileInfo>, b: seq<FileInfo>, level: nat)
    requires multiset(a) == multiset(b)
    ensures multiset(SelectMajority(a, level)) == multiset(SelectMajority(b, level))
    ensures |SelectMajority(a, level)| == |SelectMajority(b, level)|
  {
    FilterPermutes(a, b, AtLevel(level));
    FingerprintsPermute(Filter(a, AtLevel(level)), Filter(b, AtLevel(level)));
    FilterPermutes(a, b, Selects(level, Majority(Fingerprints(Filter(a, AtLevel(level))), "")));
  }

  lemma HasStalePermutes(a: seq<FileInfo>, b: seq<FileInfo>, current: string)
    requires multiset(a) == multiset(b)
    ensures HasStale(a, current) == HasStale(b, current)
  {
    forall f: FileInfo ensures f in a <==> f in b {
      MultisetMember(a, b, f);
    }
  }

  /** The same decision: the same level and reason for the same set of files. */
  ghost predicate SamePlan(x: Option<Plan>, y: Option<Plan>) {
    match (x, y)
    case (Some(a), Some(b)) => a.level == b.level && a.reason == b.reason && multiset(a.files) == multiset(b.files)
    case (None, None) => true
    case _ => false
  }

  lemma HintPermutes(a: seq<FileInfo>, b: seq<FileInfo>, current: string, fragmentOK: bool)
    requires multiset(a) == multiset(b)
    ensures SamePlan(PlanHint(a, current, fragmentOK), PlanHint(b, current, fragmentOK))
  {
    MaxLevelPermutes(a, b);
    HasStalePermutes(a, b, current);
    FilterPermutes(a, b, AtLevel(MaxLevel(a)));
    var level := MaxLevel(a);
    SelectMajorityPermutes(a, b, level);
    HasStalePermutes(SelectMajority(a, level), SelectMajority(b, level), current);
    FilterPermutes(SelectMajority(a, level), SelectMajority(b, level), Immature());
  }

  lemma RollupPermutes(a: seq<FileInfo>, b: seq<FileInfo>, current: string)
    requires multiset(a) == multiset(b)
    ensures multiset(RollupFiles(a, current)) == multiset(RollupFiles(b, current))
    ensures |RollupFiles(a, current)| == |RollupFiles(b, current)|
    ensures MaxLevel(RollupFiles(a, current)) == MaxLevel(RollupFiles(b, current))
  {
    var smallA, smallB := Filter(a, Immature()), Filter(b, Immature());
    FilterPermutes(a, b, Immature());
    FilterPermutes(smallA, smallB, Everything());
    FingerprintsPermute(Filter(smallA, Everything()), Filter(smallB, Everything()));
    FilterPermutes(smallA, smallB, HasFingerprint(Majority(Fingerprints(Filter(smallA, Everything())), current)));
    MaxLevelPermutes(RollupFiles(a, current), RollupFiles(b, current));
  }

  /** Every pod that sees the same files plans the same merge, in whatever order
      its manifest lists them. */
  lemma PlanPermutes(p: LevelPolicy, a: seq<FileInfo>, b: seq<FileInfo>, age: int, current: string, sizeOK: bool)
    requires multiset(a) == multiset(b)
    ensures SamePlan(PlanGroup(p, a, age, current, sizeOK), PlanGroup(p, b, age, current, sizeOK))
  {
    assert |a| == |multiset(a)| && |b| == |multiset(b)|;
    HintPermutes(a, b, current, sizeOK);
    if sizeOK {
      ThresholdPermutes(p.minFilesL0, a, b, 0, L0Count);
      ThresholdPermutes(p.minFilesL1, a, b, 1, L1Count);
      RollupPlanPermutes(p, a, b, age, current);
    }
  }

  lemma RollupPlanPermutes(p: LevelPolicy, a: seq<FileInfo>, b: seq<FileInfo>, age: int, current: string)
    requires multiset(a) == multiset(b)
    ensures SamePlan(RollupPlan(p, a, age, current), RollupPlan(p, b, age, current))
  {
    RollupPermutes(a, b, current);
  }

  lemma ThresholdPermutes(minFiles: int, a: seq<FileInfo>, b: seq<FileInfo>, level: nat, reason: Reason)
    requires multiset(a) == multiset(b)
    ensures SamePlan(ThresholdPlan(minFiles, a, level, reason), ThresholdPlan(minFiles, b, level, reason))
  {
    FilterPermutes(a, b, AtLevel(level));
    SelectMajorityPermutes(a, b, level);
  }

  // ---- Where planning stops --------------------------------------------------------

  /** Past the rollup age with size merges allowed, a group with nothing left to plan
      has at most one immature file per schema fingerprint. */
  lemma SettledGroup(p: LevelPolicy, files: seq<FileInfo>, age: int, current: string, fp: string)
    requires age >= p.minAge && RollupAge(p) > 0 && age >= RollupAge(p)
    requires PlanGroup(p, files, age, current, true).None?
    ensures |Filter(Filter(files, Immature()), HasFingerprint(fp))| <= 1
  {
    var small := Filter(files, Immature());
    var counts := Fingerprints(Filter(small, Everything()));
    AllKept(small);
    CountedByFilter(small, fp);
    var best := Majority(counts, current);
    CountedByFilter(small, best);
    if |files| < 2 {
      assert |small| <= 1;
    } else if fp in counts && fp != best {
      assert Beats(counts, current, best, fp);
    }
  }

  lemma {:induction false} AllKept(files: seq<FileInfo>)
    ensures Filter(files, Everything()) == files
  {
    if files != [] {
      AllKept(files[1..]);
    }
  }
}
