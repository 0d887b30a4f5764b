/** When a tenant group is merged, at which level and of which files, told from the counts
    of its files alone (internal/compaction/planner.go, planGroup and planHint): every
    reason has its condition, and no other plan is made. */
module PlanReasons {
  import opened Ordering
  import opened Files
  import opened Schemas
  import opened Planner

  function InLevel(level: nat): FileInfo -> bool {
    (f: FileInfo) => f.level == level
  }

  function LevelAndPrint(level: nat, fp: string): FileInfo -> bool {
    (f: FileInfo) => f.level == level && f.fingerprint == fp
  }

  function Small(): FileInfo -> bool {
    (f: FileInfo) => f.size < 33_554_432
  }

  function SmallAndPrint(fp: string): FileInfo -> bool {
    (f: FileInfo) => f.size < 33_554_432 && f.fingerprint == fp
  }

  /** The files of a level with a fingerprint, in order. */
  function Alike(files: seq<FileInfo>, level: nat, fp: string): seq<FileInfo> {
    Filter(files, LevelAndPrint(level, fp))
  }

  /** The files below 32 MiB with a fingerprint, in order. */
  function SmallAlike(files: seq<FileInfo>, fp: string): seq<FileInfo> {
    Filter(files, SmallAndPrint(fp))
  }

  /** More files of the level have this fingerprint than any other, or as many and it is
      the smallest. */
  ghost predicate MostCommon(files: seq<FileInfo>, level: nat, fp: string) {
    && Alike(files, level, fp) != []
    && forall o | o != fp ::
         |Alike(files, level, o)| < |Alike(files, level, fp)|
         || (|Alike(files, level, o)| == |Alike(files, level, fp)| && LexLess(fp, o))
  }

  /** The same of the small files, where a tie goes to the current fingerprint first. */
  ghost predicate MostCommonSmall(files: seq<FileInfo>, current: string, fp: string) {
    && SmallAlike(files, fp) != []
    && forall o | o != fp ::
         |SmallAlike(files, o)| < |SmallAlike(files, fp)|
         || (|SmallAlike(files, o)| == |SmallAlike(files, fp)| && o != current && (fp == current || LexLess(fp, o)))
  }

  ghost predicate IsTop(files: seq<FileInfo>, top: nat) {
    (exists f | f in files :: f.level == top) && forall f | f in files :: f.level <= top
  }

  // ---- Counting --------------------------------------------------------------------------

  lemma {:induction false} FilterSame<T>(s: seq<T>, p: T -> bool, q: T -> bool)
    requires forall x | x in s :: p(x) == q(x)
    ensures Filter(s, p) == Filter(s, q)
  {
    if s != [] {
      assert s == [s[0]] + s[1..];
      FilterSame(s[1..], p, q);
    }
  }

  lemma {:induction false} FilterTwice<T>(s: seq<T>, p: T -> bool, q: T -> bool, both: T -> bool)
    requires forall x | x in s :: both(x) == (p(x) && q(x))
    ensures Filter(Filter(s, p), q) == Filter(s, both)
  {
    if s != [] {
      assert s == [s[0]] + s[1..];
      FilterTwice(s[1..], p, q, both);
      var rest := Filter(s[1..], p);
      if p(s[0]) {
        assert Filter(s, p) == [s[0]] + rest;
        assert ([s[0]] + rest)[1..] == rest;
      } else {
        assert Filter(s, p) == rest;
      }
    }
  }

  lemma LevelFiles(files: seq<FileInfo>, level: nat, fp: string)
    ensures Filter(files, AtLevel(level)) == Filter(files, InLevel(level))
    ensures Filter(files, Selects(level, fp)) == Alike(files, level, fp)
    ensures Fingerprints(Filter(files, InLevel(level)))[fp] == |Alike(files, level, fp)|
  {
    FilterSame(files, AtLevel(level), InLevel(level));
    FilterSame(files, Selects(level, fp), LevelAndPrint(level, fp));
    CountedByFilter(Filter(files, InLevel(level)), fp);
    FilterTwice(files, InLevel(level), HasFingerprint(fp), LevelAndPrint(level, fp));
  }

  lemma SmallFiles(files: seq<FileInfo>, fp: string)
    ensures Filter(files, Immature()) == Filter(files, Small())
    ensures Filter(Filter(files, Small()), HasFingerprint(fp)) == SmallAlike(files, fp)
    ensures Fingerprints(Filter(Filter(files, Small()), Everything()))[fp] == |SmallAlike(files, fp)|
  {
    FilterSame(files, Immature(), Small());
    FilterTwice(files, Small(), HasFingerprint(fp), SmallAndPrint(fp));
    AllKept(Filter(files, Small()));
    CountedByFilter(Filter(files, Small()), fp);
  }

  lemma NothingBeforeEmpty(s: string)
    ensures !LexLess(s, "")
  {}

  /** The majority of a level is the most common fingerprint there. */
  lemma MajorityIsMostCommon(files: seq<FileInfo>, level: nat, fp: string)
    requires MostCommon(files, level, fp)
    ensures SelectMajority(files, level) == Alike(files, level, fp)
  {
    var counts := Fingerprints(Filter(files, InLevel(level)));
    LevelFiles(files, level, fp);
    assert counts[fp] > 0;
    forall o | o in counts && o != fp ensures Beats(counts, "", fp, o) {
      LevelFiles(files, level, o);
      NothingBeforeEmpty(fp);
    }
    assert IsMajority(counts, "", fp);
    MajorityIsUnique(counts, "", Majority(counts, ""), fp);
  }

  lemma MajorityIsMostCommonSmall(files: seq<FileInfo>, current: string, fp: string)
    requires MostCommonSmall(files, current, fp)
    ensures RollupFiles(files, current) == SmallAlike(files, fp)
  {
    var counts := Fingerprints(Filter(Filter(files, Small()), Everything()));
    SmallFiles(files, fp);
    assert counts[fp] > 0;
    forall o | o in counts && o != fp ensures Beats(counts, current, fp, o) { SmallFiles(files, o); }
    assert IsMajority(counts, current, fp);
    MajorityIsUnique(counts, current, Majority(counts, current), fp);
  }

  /** A level that has files has a most common fingerprint. */
  lemma SomeMostCommon(files: seq<FileInfo>, level: nat) returns (fp: string)
    requires exists f | f in files :: f.level == level
    ensures MostCommon(files, level, fp)
  {
    var counts := Fingerprints(Filter(files, InLevel(level)));
    var f :| f in files && f.level == level;
    LevelFiles(files, level, f.fingerprint);
    assert f in Alike(files, level, f.fingerprint);
    assert f.fingerprint in counts;
    fp := Majority(counts, "");
    LevelFiles(files, level, fp);
    forall o | o != fp
      ensures |Alike(files, level, o)| < |Alike(files, level, fp)|
              || (|Alike(files, level, o)| == |Alike(files, level, fp)| && LexLess(fp, o))
    {
      LevelFiles(files, level, o);
      EmptyIsFirst(o);
      if o in counts { assert Beats(counts, "", fp, o); }
    }
  }

  lemma EmptyIsFirst(s: string)
    ensures s != "" ==> LexLess("", s)
  {}

  /** Where nothing else decides, the small files have a most common fingerprint too. */
  lemma SomeMostCommonSmall(files: seq<FileInfo>, current: string) returns (fp: string)
    requires exists f | f in files :: f.size < 33_554_432
    ensures MostCommonSmall(files, current, fp)
  {
    var counts := Fingerprints(Filter(Filter(files, Small()), Everything()));
    var f :| f in files && f.size < 33_554_432;
    SmallFiles(files, f.fingerprint);
    assert f in SmallAlike(files, f.fingerprint);
    assert f.fingerprint in counts;
    fp := Majority(counts, current);
    SmallFiles(files, fp);
    forall o | o != fp
      ensures |SmallAlike(files, o)| < |SmallAlike(files, fp)|
              || (|SmallAlike(files, o)| == |SmallAlike(files, fp)| && o != current && (fp == current || LexLess(fp, o)))
    {
      SmallFiles(files, o);
      if o in counts { assert Beats(counts, current, fp, o); }
    }
  }

  // ---- When a level is merged in an open hour ----------------------------------------------

  /** The level has enough files, and two of one schema. */
  ghost predicate Due(files: seq<FileInfo>, level: nat, minFiles: int) {
    |Filter(files, InLevel(level))| >= minFiles && exists fp :: |Alike(files, level, fp)| >= 2
  }

  lemma DueOfMostCommon(files: seq<FileInfo>, level: nat, minFiles: int, fp: string)
    requires MostCommon(files, level, fp)
    ensures Due(files, level, minFiles) <==> |Filter(files, InLevel(level))| >= minFiles && |Alike(files, level, fp)| >= 2
  {
    if o :| |Alike(files, level, o)| >= 2 { assert o == fp || |Alike(files, level, o)| <= |Alike(files, level, fp)|; }
  }

  lemma NoFilesNotDue(files: seq<FileInfo>, level: nat, minFiles: int)
    requires forall f | f in files :: f.level != level
    ensures !Due(files, level, minFiles) && |SelectMajority(files, level)| == 0
  {
    forall fp ensures Alike(files, level, fp) == [] { NoneKept(files, LevelAndPrint(level, fp)); }
    NoneKept(files, Selects(level, Majority(Fingerprints(Filter(files, AtLevel(level))), "")));
  }

  lemma {:induction false} NoneKept<T>(s: seq<T>, p: T -> bool)
    requires forall x | x in s :: !p(x)
    ensures Filter(s, p) == []
  {
    if s != [] {
      assert s == [s[0]] + s[1..];
      NoneKept(s[1..], p);
    }
  }

  /** A threshold is met exactly when the level is due. */
  lemma ThresholdIffDue(minFiles: int, files: seq<FileInfo>, level: nat, reason: Reason)
    ensures ThresholdPlan(minFiles, files, level, reason).Some? <==> Due(files, level, minFiles)
  {
    LevelFiles(files, level, "");
    if exists f | f in files :: f.level == level {
      var fp := SomeMostCommon(files, level);
      MajorityIsMostCommon(files, level, fp);
      DueOfMostCommon(files, level, minFiles, fp);
    } else {
      NoFilesNotDue(files, level, minFiles);
    }
  }

  lemma ThresholdFiles(minFiles: int, files: seq<FileInfo>, level: nat, reason: Reason, fp: string)
    requires Due(files, level, minFiles) && MostCommon(files, level, fp)
    ensures ThresholdPlan(minFiles, files, level, reason) == Some(Plan(level, Alike(files, level, fp), reason))
  {
    ThresholdIffDue(minFiles, files, level, reason);
    MajorityIsMostCommon(files, level, fp);
  }

  /** An open hour with enough level-0 files of one schema merges exactly those. */
  lemma L0Planned(p: LevelPolicy, files: seq<FileInfo>, age: int, current: string, fp: string)
    requires |files| >= 2 && age >= p.minAge
    requires Due(files, 0, p.minFilesL0) && MostCommon(files, 0, fp)
    ensures PlanGroup(p, files, age, current, true) == Some(Plan(0, Alike(files, 0, fp), L0Count))
  {
    ThresholdFiles(p.minFilesL0, files, 0, L0Count, fp);
  }

  /** With nothing due at level 0, the same of level 1. */
  lemma L1Planned(p: LevelPolicy, files: seq<FileInfo>, age: int, current: string, fp: string)
    requires |files| >= 2 && age >= p.minAge
    requires !Due(files, 0, p.minFilesL0) && Due(files, 1, p.minFilesL1) && MostCommon(files, 1, fp)
    ensures PlanGroup(p, files, age, current, true) == Some(Plan(1, Alike(files, 1, fp), L1Count))
  {
    ThresholdIffDue(p.minFilesL0, files, 0, L0Count);
    ThresholdFiles(p.minFilesL1, files, 1, L1Count, fp);
  }

  // ---- The rollup ----------------------------------------------------------------------------

  /** The hour is closed for good, and two small files have one schema. */
  ghost predicate RollupDue(p: LevelPolicy, files: seq<FileInfo>, age: int) {
    && p.dailyRollupAge > 0 && age >= p.dailyRollupAge && age >= 3_600_000_000_000
    && exists fp :: |SmallAlike(files, fp)| >= 2
  }

  lemma TopIsMaxLevel(files: seq<FileInfo>, top: nat)
    requires IsTop(files, top)
    ensures MaxLevel(files) == top
  {
    if MaxLevel(files) > 0 { MaxLevelReached(files); }
  }

  lemma RollupIffDue(p: LevelPolicy, files: seq<FileInfo>, age: int, current: string)
    ensures RollupPlan(p, files, age, current).Some? <==> RollupDue(p, files, age)
  {
    if exists f | f in files :: f.size < 33_554_432 {
      var fp := SomeMostCommonSmall(files, current);
      MajorityIsMostCommonSmall(files, current, fp);
      if o :| |SmallAlike(files, o)| >= 2 { assert o == fp || |SmallAlike(files, o)| <= |SmallAlike(files, fp)|; }
    } else {
      NoSmallFiles(files, current);
    }
  }

  lemma NoSmallFiles(files: seq<FileInfo>, current: string)
    requires forall f | f in files :: f.size >= 33_554_432
    ensures |RollupFiles(files, current)| == 0 && forall fp :: SmallAlike(files, fp) == []
  {
    forall fp ensures SmallAlike(files, fp) == [] { NoneKept(files, SmallAndPrint(fp)); }
    NoneKept(files, Immature());
  }

  /** With nothing due at either level, a closed hour rolls up the small files of the most
      common schema, above the highest of their levels. */
  lemma RollupPlanned(p: LevelPolicy, files: seq<FileInfo>, age: int, current: string, fp: string, top: nat)
    requires |files| >= 2 && age >= p.minAge
    requires !Due(files, 0, p.minFilesL0) && !Due(files, 1, p.minFilesL1)
    requires RollupDue(p, files, age) && MostCommonSmall(files, current, fp) && IsTop(SmallAlike(files, fp), top)
    ensures PlanGroup(p, files, age, current, true) == Some(Plan(top, SmallAlike(files, fp), Rollup))
  {
    ThresholdIffDue(p.minFilesL0, files, 0, L0Count);
    ThresholdIffDue(p.minFilesL1, files, 1, L1Count);
    RollupIffDue(p, files, age, current);
    MajorityIsMostCommonSmall(files, current, fp);
    TopIsMaxLevel(SmallAlike(files, fp), top);
  }

  // ---- Hints -----------------------------------------------------------------------------------

  ghost predicate SomeStale(files: seq<FileInfo>, current: string) {
    current != "" && exists f | f in files :: f.fingerprint != current
  }

  /** The hint's merge, told from the group's top level and its most common schema there. */
  ghost predicate HintIs(
    files: seq<FileInfo>, current: string, fragmentOK: bool, top: nat, fp: string, plan: Option<Plan>)
  {
    var alike := Alike(files, top, fp);
    var small := Filter(alike, Small());
    if current != "" && fp != current then
      plan == if |alike| >= 2 then Some(Plan(top, alike, StaleSchema)) else None
    else
      plan == if fragmentOK && |small| >= 2 && (SomeStale(files, current) || (top >= 2 && |Filter(files, InLevel(top))| >= 2))
              then Some(Plan(top, small, Fragmented)) else None
  }

  lemma HintPlanned(files: seq<FileInfo>, current: string, fragmentOK: bool, top: nat, fp: string)
    requires IsTop(files, top) && MostCommon(files, top, fp)
    ensures HintIs(files, current, fragmentOK, top, fp, PlanHint(files, current, fragmentOK))
  {
    var alike := Alike(files, top, fp);
    HintLevel(files, current, top);
    MajorityIsMostCommon(files, top, fp);
    HintOfAlike(alike, current, fragmentOK, top, fp);
    assert alike[0] in alike && alike[0] in files;
  }

  lemma HintLevel(files: seq<FileInfo>, current: string, top: nat)
    requires IsTop(files, top)
    ensures RecompactionLevel(files, current)
            == if SomeStale(files, current) || (top >= 2 && |Filter(files, InLevel(top))| >= 2) then Some(top) else None
  {
    TopIsMaxLevel(files, top);
    LevelFiles(files, top, "");
  }

  lemma HintOfAlike(alike: seq<FileInfo>, current: string, fragmentOK: bool, top: nat, fp: string)
    requires alike != [] && forall f | f in alike :: f.fingerprint == fp
    ensures HintOf(top, alike, current, fragmentOK)
            == if current != "" && fp != current then (if |alike| >= 2 then Some(Plan(top, alike, StaleSchema)) else None)
               else if fragmentOK && |Filter(alike, Small())| >= 2 then Some(Plan(top, Filter(alike, Small()), Fragmented))
               else None
  {
    FilterSame(alike, Immature(), Small());
    assert alike[0] in alike;
  }

  /** Without size merges, only the hint is followed, and only to heal a stale schema. */
  lemma HealPlanned(p: LevelPolicy, files: seq<FileInfo>, age: int, current: string, top: nat, fp: string)
    requires |files| >= 2 && age >= p.minAge && IsTop(files, top) && MostCommon(files, top, fp)
    ensures HintIs(files, current, false, top, fp, PlanGroup(p, files, age, current, false))
  {
    HintPlanned(files, current, false, top, fp);
  }

  /** With nothing else due, the hint is followed. */
  lemma HintPlannedLast(p: LevelPolicy, files: seq<FileInfo>, age: int, current: string, top: nat, fp: string)
    requires |files| >= 2 && age >= p.minAge && IsTop(files, top) && MostCommon(files, top, fp)
    requires !Due(files, 0, p.minFilesL0) && !Due(files, 1, p.minFilesL1) && !RollupDue(p, files, age)
    ensures HintIs(files, current, true, top, fp, PlanGroup(p, files, age, current, true))
  {
    ThresholdIffDue(p.minFilesL0, files, 0, L0Count);
    ThresholdIffDue(p.minFilesL1, files, 1, L1Count);
    RollupIffDue(p, files, age, current);
    HintPlanned(files, current, true, top, fp);
  }

  // ---- Every reason has its condition --------------------------------------------------------

  lemma TopOf(files: seq<FileInfo>) returns (top: nat)
    requires files != []
    ensures IsTop(files, top)
  {
    top := MaxLevel(files);
    if top > 0 {
      MaxLevelReached(files);
    } else {
      assert files[0] in files;
    }
  }

  lemma HintReason(files: seq<FileInfo>, current: string, fragmentOK: bool)
    requires files != [] && PlanHint(files, current, fragmentOK).Some?
    ensures var plan := PlanHint(files, current, fragmentOK).value;
            && (plan.reason == StaleSchema || plan.reason == Fragmented)
            && (plan.reason == StaleSchema ==> SomeStale(files, current))
            && (plan.reason == Fragmented ==> fragmentOK && forall f | f in plan.files :: f.size < 33_554_432)
  {
    var top := TopOf(files);
    var fp := SomeMostCommon(files, top);
    HintPlanned(files, current, fragmentOK, top, fp);
    assert Alike(files, top, fp)[0] in files;
  }

  /** No plan for fewer than two files or too young an hour, and each reason only under its
      own condition. */
  lemma ReasonHolds(p: LevelPolicy, files: seq<FileInfo>, age: int, current: string, sizeOK: bool)
    requires PlanGroup(p, files, age, current, sizeOK).Some?
    ensures |files| >= 2 && age >= p.minAge
    ensures var plan := PlanGroup(p, files, age, current, sizeOK).value;
            match plan.reason
            case L0Count => sizeOK && plan.level == 0 && Due(files, 0, p.minFilesL0)
            case L1Count => sizeOK && plan.level == 1 && Due(files, 1, p.minFilesL1) && !Due(files, 0, p.minFilesL0)
            case Rollup => sizeOK && RollupDue(p, files, age) && !Due(files, 0, p.minFilesL0) && !Due(files, 1, p.minFilesL1)
            case StaleSchema => SomeStale(files, current)
            case Fragmented => sizeOK && forall f | f in plan.files :: f.size < 33_554_432
  {
    ThresholdIffDue(p.minFilesL0, files, 0, L0Count);
    ThresholdIffDue(p.minFilesL1, files, 1, L1Count);
    RollupIffDue(p, files, age, current);
    if PlanHint(files, current, sizeOK).Some? { HintReason(files, current, sizeOK); }
  }
}
