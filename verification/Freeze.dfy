/** The lifecycle freeze (internal/compaction/lifecycle_freeze.go, freeze_warnings.go)
    and the detector lookups it makes (internal/delete/storageclass.go): which files
    stay out of compaction because S3 has moved, or is about to move, them. */
module Freeze {
  import opened Files
  import opened Keys
  import opened Planner

  const DAY: int := 24 * HOUR
  const DEFAULT_MARGIN: int := 48 * HOUR
  const DEFAULT_SIZE_MERGE_MAX_AGE: int := 7 * DAY

  datatype Rule = Rule(days: int, tier: string)

  /** The lifecycle rules mirrored in the configuration, and the classes seen so far. */
  datatype Detector = Detector(
    rules: seq<Rule>, perTenant: map<(nat, nat), seq<Rule>>, cache: map<string, string>)

  datatype LifecycleFreeze = LifecycleFreeze(
    detector: Option<Detector>, extraRules: seq<Rule>, margin: int, sizeMergeMaxAge: int)

  datatype Limits = Limits(hasRule: bool, freezeAge: int, sizeMaxAge: int) {
    predicate FrozenAt(age: int) {
      hasRule && age >= freezeAge
    }
    predicate SizeMergesAt(age: int) {
      hasRule || sizeMaxAge <= 0 || age < sizeMaxAge
    }
  }

  predicate CanRewrite(tier: string) {
    tier == "STANDARD" || tier == "INTELLIGENT_TIERING"
  }

  function Upper(s: string): string {
    seq(|s|, i requires 0 <= i < |s| => if 'a' <= s[i] <= 'z' then ((s[i] as int) - 32) as char else s[i])
  }

  /** A recorded class whose objects must not be rewritten. */
  predicate ClassFrozen(f: FileInfo) {
    f.storageClass != "" && f.storageClass != "STANDARD" && f.storageClass != "INTELLIGENT_TIERING"
    && !CanRewrite(Upper(f.storageClass))
  }

  /** The earliest transition out of a rewritable class. */
  function FirstTransition(rules: seq<Rule>): (r: Option<int>)
    ensures r.None? ==> forall x | x in rules :: CanRewrite(x.tier)
    ensures r.Some? ==> forall x | x in rules && !CanRewrite(x.tier) :: r.value <= x.days
    ensures r.Some? ==> exists x | x in rules :: !CanRewrite(x.tier) && r.value == x.days
  {
    if rules == [] then
      None
    else
      assert rules == [rules[0]] + rules[1..];
      assert rules[0] in rules && forall x | x in rules[1..] :: x in rules;
      var rest := FirstTransition(rules[1..]);
      if CanRewrite(rules[0].tier) then rest
      else if rest.Some? && rest.value < rules[0].days then rest
      else Some(rules[0].days)
  }

  /** The earlier of two optional transitions. */
  function Earlier(a: Option<int>, b: Option<int>): Option<int> {
    if b.Some? && (a.None? || b.value < a.value) then b else a
  }

  /** The margin is capped at half the transition. */
  function FreezeAge(transition: int, margin: int): int {
    transition - (if margin > transition / 2 then transition / 2 else margin)
  }

  function LimitsFromTransition(f: LifecycleFreeze, transition: Option<int>): Limits {
    match transition
    case None => Limits(false, 0, if f.sizeMergeMaxAge == 0 then DEFAULT_SIZE_MERGE_MAX_AGE else f.sizeMergeMaxAge)
    case Some(days) =>
      var t := days * DAY;
      var margin := if f.margin <= 0 then DEFAULT_MARGIN else f.margin;
      Limits(true, FreezeAge(t, margin), 0)
  }

  /** The rules that apply to a key: its tenant's own when it has an override. */
  function RulesFor(d: Detector, key: string): seq<Rule> {
    var t := ParseTenant(key);
    if t.Some? && t.value in d.perTenant then d.perTenant[t.value] else d.rules
  }

  function LimitsOf(f: LifecycleFreeze, key: string): Limits {
    var extra := FirstTransition(f.extraRules);
    LimitsFromTransition(f,
      if f.detector.Some? then Earlier(extra, FirstTransition(RulesFor(f.detector.value, key))) else extra)
  }

  /** frozen: the simple form, asked of one file. */
  predicate Frozen(freeze: Option<LifecycleFreeze>, f: FileInfo, age: int) {
    || ClassFrozen(f)
    || (freeze.Some? && freeze.value.detector.Some? && f.key in freeze.value.detector.value.cache
        && !CanRewrite(freeze.value.detector.value.cache[f.key]))
    || (freeze.Some? && LimitsOf(freeze.value, f.key).FrozenAt(age))
  }

  // ---- The per-scan view ---------------------------------------------------------

  function GlobalLimits(f: LifecycleFreeze): Limits {
    var extra := FirstTransition(f.extraRules);
    LimitsFromTransition(f,
      if f.detector.Some? then Earlier(extra, FirstTransition(f.detector.value.rules)) else extra)
  }

  predicate PerTenant(f: LifecycleFreeze) {
    f.detector.Some? && |f.detector.value.perTenant| > 0
  }

  /** What limitsFor answers for a tenant group, however often it was asked before. */
  function ViewLimits(freeze: Option<LifecycleFreeze>, prefix: string): Limits {
    if freeze.None? then Limits(false, 0, 0)
    else if !PerTenant(freeze.value) || prefix == "" then GlobalLimits(freeze.value)
    else LimitsOf(freeze.value, prefix)
  }

  /** The keys whose cached class is not rewritable (CachedNonRewritableKeys). */
  function FrozenKeys(freeze: Option<LifecycleFreeze>): set<string> {
    if freeze.Some? && freeze.value.detector.Some? then
      var cache := freeze.value.detector.value.cache;
      set k | k in cache && !CanRewrite(cache[k])
    else {}
  }

  predicate ViewClassFrozen(freeze: Option<LifecycleFreeze>, f: FileInfo) {
    ClassFrozen(f) || f.key in FrozenKeys(freeze)
  }

  /** One scan's read of the freeze, with its per-prefix cache. */
  class FreezeView {
    const freeze: Option<LifecycleFreeze>
    const global: Limits
    const perTenant: bool
    const classes: set<string>
    var cache: map<string, Limits>

    ghost predicate Valid()
      reads this
    {
      && classes == FrozenKeys(freeze)
      && (freeze.Some? ==> global == GlobalLimits(freeze.value) && perTenant == PerTenant(freeze.value))
      && (forall p | p in cache :: freeze.Some? && p != "" && cache[p] == LimitsOf(freeze.value, p))
    }

    constructor (freeze: Option<LifecycleFreeze>)
      ensures Valid() && this.freeze == freeze && cache == map[]
    {
      this.freeze := freeze;
      classes := FrozenKeys(freeze);
      global := if freeze.Some? then GlobalLimits(freeze.value) else Limits(false, 0, 0);
      perTenant := freeze.Some? && PerTenant(freeze.value);
      cache := map[];
    }

    method LimitsFor(prefix: string) returns (l: Limits)
      requires Valid()
      modifies this
      ensures Valid() && l == ViewLimits(freeze, prefix)
    {
      if freeze.None? { return Limits(false, 0, 0); }
      if !perTenant || prefix == "" { return global; }
      if prefix in cache { return cache[prefix]; }
      l := LimitsOf(freeze.value, prefix);
      cache := cache[prefix := l];
    }

    method IsClassFrozen(f: FileInfo) returns (frozen: bool)
      requires Valid()
      ensures frozen == ViewClassFrozen(freeze, f)
    {
      if ClassFrozen(f) { return true; }
      return f.key in classes;
    }
  }

  /** What a scan keeps out of planning by class or by lifecycle age. */
  predicate ViewKeepsOut(freeze: Option<LifecycleFreeze>, f: FileInfo, age: int) {
    ViewClassFrozen(freeze, f) || ViewLimits(freeze, GroupPrefix(f.key)).FrozenAt(age)
  }

  /** A key that names a tenant with its own rules but has no tenant group prefix
      ("<account>/<project>/<file>"): the view applies the global rules to it. */
  predicate Shadowed(freeze: Option<LifecycleFreeze>, key: string) {
    && freeze.Some? && freeze.value.detector.Some? && GroupPrefix(key) == ""
    && ParseTenant(key).Some? && ParseTenant(key).value in freeze.value.detector.value.perTenant
  }

  /** Two limits freeze at the same ages. */
  predicate SameFreeze(a: Limits, b: Limits) {
    a.hasRule == b.hasRule && (a.hasRule ==> a.freezeAge == b.freezeAge)
  }

  lemma ViewLimitsAgree(freeze: Option<LifecycleFreeze>, key: string)
    requires freeze.Some? && !Shadowed(freeze, key)
    ensures ViewLimits(freeze, GroupPrefix(key)) == LimitsOf(freeze.value, key)
  {
    var g := GroupPrefix(key);
    if g != "" {
      PrefixKeepsTenant(key);
    }
  }

  /** The cached view keeps out exactly the files the simple form would, at every
      age, for every key that is not shadowed; and for a shadowed key exactly when its
      class is frozen anyway or its tenant's rules freeze at the global age. */
  lemma ViewAgreesIff(freeze: Option<LifecycleFreeze>, f: FileInfo)
    ensures (forall age :: ViewKeepsOut(freeze, f, age) == Frozen(freeze, f, age))
            <==> (!Shadowed(freeze, f.key) || ViewClassFrozen(freeze, f)
                  || SameFreeze(GlobalLimits(freeze.value), LimitsOf(freeze.value, f.key)))
  {
    if freeze.Some? {
      if !Shadowed(freeze, f.key) {
        ViewLimitsAgree(freeze, f.key);
      } else if !ViewClassFrozen(freeze, f) {
        var a, b := ViewLimits(freeze, GroupPrefix(f.key)), LimitsOf(freeze.value, f.key);
        assert a == GlobalLimits(freeze.value);
        if !SameFreeze(a, b) {
          var age := if a.hasRule && (!b.hasRule || a.freezeAge < b.freezeAge) then a.freezeAge else b.freezeAge;
          assert ViewKeepsOut(freeze, f, age) != Frozen(freeze, f, age);
        }
      }
    }
  }

  /** "1/2/x" is such a key: it parses as tenant (1, 2) and has no group prefix. */
  lemma ShadowedKeyExists()
    ensures ParseTenant("1/2/x") == Some((1, 2)) && GroupPrefix("1/2/x") == ""
  {
    CutJoin("1", "2/x");
    assert "1" + "/" + "2/x" == "1/2/x";
    CutJoin("2", "x");
    assert "2" + "/" + "x" == "2/x";
    assert Decimal("1") == Decimal("1"[..0]) * 10 + 1 && Decimal("2") == Decimal("2"[..0]) * 10 + 2;
  }

  /** On every shadowed key the two can really differ: with an override that moves the
      tenant's objects after four days, the simple form freezes a week-old file and the
      view lets it be planned. */
  lemma ShadowedKeyDiffers(f: FileInfo, tenant: (nat, nat))
    requires f.storageClass == "" && GroupPrefix(f.key) == "" && ParseTenant(f.key) == Some(tenant)
    ensures var d := Detector([], map[tenant := [Rule(4, "GLACIER")]], map[]);
            var freeze := Some(LifecycleFreeze(Some(d), [], 0, 0));
            Frozen(freeze, f, 7 * DAY) && !ViewKeepsOut(freeze, f, 7 * DAY)
  {
    var d := Detector([], map[tenant := [Rule(4, "GLACIER")]], map[]);
    var freeze := LifecycleFreeze(Some(d), [], 0, 0);
    assert RulesFor(d, f.key) == [Rule(4, "GLACIER")];
    OneRule();
    assert LimitsOf(freeze, f.key) == LimitsFromTransition(freeze, Some(4));
    assert GlobalLimits(freeze) == LimitsFromTransition(freeze, None);
  }

  lemma OneRule()
    ensures FirstTransition([Rule(4, "GLACIER")]) == Some(4)
  {
    var rules := [Rule(4, "GLACIER")];
    assert rules[1..] == [];
    assert FirstTransition(rules[1..]).None?;
  }

  // ---- The freeze age --------------------------------------------------------------

  /** The freeze age is the transition less the margin, but never earlier than half
      the transition: so it lies between the two and grows with the transition. */
  lemma FreezeAgeBounds(transition: int, later: int, margin: int)
    requires transition <= later
    ensures var age := FreezeAge(transition, margin);
            && age >= transition - margin && age >= transition / 2
            && (age == transition - margin || age == transition - transition / 2)
            && (transition >= 0 && margin >= 0 ==> age <= transition)
            && age <= FreezeAge(later, margin)
  {}

  /** The same of the limits a configured transition in days gives. */
  lemma TransitionLimits(f: LifecycleFreeze, days: nat, later: nat)
    requires days <= later
    ensures var l := LimitsFromTransition(f, Some(days));
            && l.hasRule && days * DAY / 2 <= l.freezeAge <= days * DAY
            && l.freezeAge <= LimitsFromTransition(f, Some(later)).freezeAge
  {
    FreezeAgeBounds(days * DAY, later * DAY, if f.margin <= 0 then DEFAULT_MARGIN else f.margin);
  }

  predicate RollupWindowConflict(freezeAge: int, dailyRollupAge: int) {
    var rollup := RollupAge(LevelPolicy(0, 0, 0, dailyRollupAge));
    rollup > 0 && freezeAge <= rollup
  }

  /** The startup warning is exact: it fires just when the rollup is enabled and no
      age is both past the rollup age and not yet frozen. */
  lemma ConflictIff(p: LevelPolicy, l: Limits)
    requires l.hasRule
    ensures RollupWindowConflict(l.freezeAge, p.dailyRollupAge)
            <==> RollupAge(p) > 0 && forall age | age >= RollupAge(p) :: l.FrozenAt(age)
  {
    if RollupAge(p) > 0 && forall age | age >= RollupAge(p) :: l.FrozenAt(age) {
      assert l.FrozenAt(RollupAge(p));
    }
  }

  /** So with the warning, no unfrozen group of any files at any age is ever rolled up. */
  lemma ConflictMeansNoRollup(
    p: LevelPolicy, l: Limits, files: seq<FileInfo>, age: int, current: string, sizeOK: bool)
    requires l.hasRule && RollupWindowConflict(l.freezeAge, p.dailyRollupAge) && !l.FrozenAt(age)
    ensures PlanGroup(p, files, age, current, sizeOK).Some? ==>
              PlanGroup(p, files, age, current, sizeOK).value.reason != Rollup
  {
    ConflictIff(p, l);
    assert RollupPlan(p, files, age, current).None?;
  }

  // ---- What the limits mean ----------------------------------------------------------------

  /** A group is frozen from its transition less the margin on, where the margin is two days
      unless configured and at most half the transition; it merges by size at every age. */
  lemma TransitionFreezes(f: LifecycleFreeze, days: nat, age: int)
    ensures var transition, margin := days * 86_400_000_000_000, if f.margin <= 0 then 172_800_000_000_000 else f.margin;
            var l := LimitsFromTransition(f, Some(days));
            && (l.FrozenAt(age) <==> age >= transition - (if margin <= transition / 2 then margin else transition / 2))
            && l.SizeMergesAt(age)
  {}

  /** Without a transition nothing freezes, and size merges end at the configured age, a week
      unless configured, or never. */
  lemma NoTransitionNeverFreezes(f: LifecycleFreeze, age: int)
    ensures var l, limit := LimitsFromTransition(f, None), if f.sizeMergeMaxAge == 0 then 604_800_000_000_000 else f.sizeMergeMaxAge;
            !l.FrozenAt(age) && (l.SizeMergesAt(age) <==> limit <= 0 || age < limit)
  {}

  /** The rule moves objects out of the rewritable classes, and it applies to the key: it is
      configured for compaction, or for the key's tenant, or for all tenants without rules
      of their own. */
  ghost predicate Moves(f: LifecycleFreeze, key: string, x: Rule) {
    && x.tier != "STANDARD" && x.tier != "INTELLIGENT_TIERING"
    && (x in f.extraRules
        || (f.detector.Some? &&
            (if ParseTenant(key).Some? && ParseTenant(key).value in f.detector.value.perTenant
             then x in f.detector.value.perTenant[ParseTenant(key).value] else x in f.detector.value.rules)))
  }

  /** No applicable rule freezes later than the limits do, some rule gives them, and without
      one nothing freezes. */
  lemma EarliestRuleFreezes(f: LifecycleFreeze, key: string, x: Rule, age: int)
    requires Moves(f, key, x) && x.days >= 0 && age >= x.days * DAY
    requires forall y | Moves(f, key, y) :: y.days >= 0
    ensures LimitsOf(f, key).FrozenAt(age)
    ensures exists y :: Moves(f, key, y) && LimitsOf(f, key) == LimitsFromTransition(f, Some(y.days))
  {
    var y := EarliestRule(f, key, x);
    EarlierFreezes(f, y.days, x.days, age);
  }

  lemma EarlierFreezes(f: LifecycleFreeze, days: nat, later: nat, age: int)
    requires days <= later && age >= later * DAY
    ensures LimitsFromTransition(f, Some(days)).FrozenAt(age)
  {
    TransitionLimits(f, days, later);
    TransitionLimits(f, later, later);
  }

  lemma EarliestRule(f: LifecycleFreeze, key: string, x: Rule) returns (y: Rule)
    requires Moves(f, key, x)
    ensures Moves(f, key, y) && y.days <= x.days && LimitsOf(f, key) == LimitsFromTransition(f, Some(y.days))
  {
    var extra := FirstTransition(f.extraRules);
    var own := if f.detector.Some? then FirstTransition(RulesFor(f.detector.value, key)) else None;
    if own.Some? && (extra.None? || own.value < extra.value) {
      y :| y in RulesFor(f.detector.value, key) && !CanRewrite(y.tier) && own.value == y.days;
    } else {
      y :| y in f.extraRules && !CanRewrite(y.tier) && extra.value == y.days;
    }
  }

  lemma NoRuleNeverFreezes(f: LifecycleFreeze, key: string, age: int)
    requires forall y :: !Moves(f, key, y)
    ensures !LimitsOf(f, key).FrozenAt(age)
  {
    var extra := FirstTransition(f.extraRules);
    if extra.Some? {
      var y :| y in f.extraRules && !CanRewrite(y.tier) && extra.value == y.days;
      assert Moves(f, key, y);
    }
    if f.detector.Some? && FirstTransition(RulesFor(f.detector.value, key)).Some? {
      var own := FirstTransition(RulesFor(f.detector.value, key));
      var y :| y in RulesFor(f.detector.value, key) && !CanRewrite(y.tier) && own.value == y.days;
      assert Moves(f, key, y);
    }
  }

  /** Equal but for the case of the letters a to z. */
  predicate SameLetters(s: string, upper: string) {
    |s| == |upper| && forall i | 0 <= i < |s| ::
      s[i] == upper[i] || ('a' <= s[i] <= 'z' && s[i] as int == upper[i] as int + 32)
  }

  /** A recorded class freezes a file unless it is a rewritable one, in whatever case. */
  lemma ClassFrozenIff(f: FileInfo)
    ensures ClassFrozen(f) <==>
              f.storageClass != "" && !SameLetters(f.storageClass, "STANDARD") && !SameLetters(f.storageClass, "INTELLIGENT_TIERING")
  {
    UpperIs(f.storageClass, "STANDARD");
    UpperIs(f.storageClass, "INTELLIGENT_TIERING");
  }

  lemma UpperIs(s: string, upper: string)
    requires forall c | c in upper :: !('a' <= c <= 'z')
    ensures Upper(s) == upper <==> SameLetters(s, upper)
  {
    if Upper(s) == upper {
      forall i | 0 <= i < |s| ensures s[i] == upper[i] || ('a' <= s[i] <= 'z' && s[i] as int == upper[i] as int + 32) {
        assert Upper(s)[i] == upper[i];
      }
    }
    if SameLetters(s, upper) {
      forall i | 0 <= i < |s| ensures Upper(s)[i] == upper[i] { assert upper[i] in upper; }
    }
  }
}
