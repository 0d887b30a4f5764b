/** Concrete runs that end in a wrong skip: two row groups of one file, one of them with
    too many values for a filter, downgraded to one filter for the file; and a file that
    is added to a partition after its summary was made. */
module BloomSkips {
  import opened Ordering
  import opened Files
  import opened RowGroupKeys
  import B = Bloom
  import opened BloomIndex
  import opened BloomTiers
  import opened BloomHeap
  import opened BloomDowngrades
  import opened BloomRuns
  import opened BloomPartitions

  const FILE: string := "f"
  const COLUMN: string := "c"
  const HAY: string := "h"
  const NEEDLE: string := "n"

  function Group(i: nat): string {
    PerRGKey(FILE, i)
  }

  /** One value more than a filter is built for, each once. */
  function Many(): (s: seq<string>)
    ensures |s| == MAX_VALUES + 1 && s[0] == NEEDLE
  {
    seq(MAX_VALUES + 1, i requires 0 <= i <= MAX_VALUES => if i == 0 then NEEDLE else "v" + Digits(i))
  }

  lemma ManyAreDistinct()
    ensures NoneTwice(Many())
  {
    forall i, j | 0 <= i < j < |Many()| ensures Many()[i] != Many()[j] {
      if i == 0 {
        assert Many()[j][0] == 'v';
      } else {
        DigitsDecimal(i);
        DigitsDecimal(j);
        assert Many()[i][1..] == Digits(i) && Many()[j][1..] == Digits(j);
      }
    }
  }

  function ValuesOf(unit: string): seq<string> {
    if unit == Group(0) then [HAY] else if unit == Group(1) then Many() else []
  }

  function Content(): (string, string) -> set<string> {
    (u: string, c: string) => if c == COLUMN then set v | v in ValuesOf(u) else {}
  }

  /** The needle hashes to the second bit, everything else to the first. */
  function Hashes(): B.Hash {
    (s: string) => if s == NEEDLE then 1 else 0
  }

  function OneByte(): Sizing {
    (n: nat) => (1, 1)
  }

  function KeyAt(): (nat, string) -> Option<string> {
    (tier: nat, u: string) => Some(if tier == 0 then u else FileOf(u))
  }

  function World(): Facts {
    Facts(Hashes(), {Group(0), Group(1)}, Content(), KeyAt())
  }

  lemma Groups()
    ensures Group(0) != Group(1) && FileOf(Group(0)) == FILE && FileOf(Group(1)) == FILE
  {
    RowGroupKeyRoundTrip(FILE, 0);
    RowGroupKeyRoundTrip(FILE, 1);
    RowGroupsOfOneFile(FILE, 0);
    RowGroupsOfOneFile(FILE, 1);
  }

  /** The filter of the small row group: it accepts its value and not the needle. */
  function HayFilter(): B.Filter {
    B.With(Hashes(), B.Empty(1, 1), HAY)
  }

  lemma HayRejectsNeedle()
    ensures HayFilter().Valid() && !B.Accepts(Hashes(), HayFilter(), NEEDLE)
  {
    assert HAY[0] != NEEDLE[0];
    B.PositionOfFirst(0, 0, 1);
    B.PositionOfFirst(1, 0, 1);
    B.EmptyBits(1, 1, 1);
    B.SetUpToSets(0, B.Empty(1, 1).bits, 1, 1);
    assert B.Position(Hashes()(NEEDLE), 0, 1) == 1 && !B.Bit(HayFilter().bits, 1);
  }

  lemma BuiltSmall()
    ensures Sizes(OneByte()) && Built(Hashes(), OneByte(), map[COLUMN := [HAY]]) == map[COLUMN := HayFilter()]
  {
    var e := B.Empty(1, 1);
    assert [HAY][..0] == [];
    assert WithAll(Hashes(), e, [HAY]) == B.With(Hashes(), WithAll(Hashes(), e, [HAY][..0]), HAY);
  }

  lemma BuiltLarge()
    ensures Sizes(OneByte()) && Built(Hashes(), OneByte(), map[COLUMN := Many()]) == map[]
  {}

  const COLUMNS: map<string, nat> := map[COLUMN := 0]

  /** The new objects of the step are new. */
  ghost predicate Room(s: Heap, op: Op) {
    && op.AddFile? && Linked(s) && op.x in s.indexes && op.t !in s.tables && Sizes(op.size)
    && forall c | c in op.ids :: op.ids[c] !in s.filters
  }

  /** The writer gives the file's values, under the file's own key. */
  ghost predicate Given(fx: Facts, tier: nat, unit: string, values: map<string, seq<string>>) {
    OwnKey(fx, tier, unit) && forall c, v | c in values && v in fx.content(unit, c) :: v in values[c]
  }

  /** What a writer does with a file some columns of which get a filter. */
  lemma FileIsAdded(fx: Facts, s: Heap, op: Op, filters: map<nat, B.Filter>, s': Heap)
    requires Room(s, op) && Given(fx, s.indexes[op.x].tier, op.unit, op.values) && COLUMN in op.ids
    requires NewFilters(s.filters, filters, op.ids, Built(fx.fnv, op.size, op.values)) && Linked(s.(filters := filters))
    requires s' == SetColumns(s.(filters := filters), op.x, op.unit, op.ids, op.t)
    ensures Enabled(fx, s, op) && Assumed(fx, s, op) && Next(fx, s, op, s')
  {
    assert s'.filters == filters;
  }

  /** And with a file none of which does. */
  lemma FileIsNoted(fx: Facts, s: Heap, op: Op)
    requires Room(s, op) && Given(fx, s.indexes[op.x].tier, op.unit, op.values) && op.ids == map[]
    requires Built(fx.fnv, op.size, op.values) == map[]
    ensures Enabled(fx, s, op) && Assumed(fx, s, op) && Next(fx, s, op, s)
  {}

  /** A run with one more step in front. */
  lemma Then(fx: Facts, s: Heap, op: Op, s': Heap, rest: seq<Move>)
    requires Linked(s) && Enabled(fx, s, op) && Assumed(fx, s, op) && Next(fx, s, op, s') && Legal(fx, s', rest)
    ensures Legal(fx, s, [Move(op, s')] + rest) && Last(s, [Move(op, s')] + rest) == Last(s', rest)
  {
    var run := [Move(op, s')] + rest;
    assert run[0] == Move(op, s') && run[1..] == rest;
    if rest != [] { assert run[|run| - 1] == rest[|rest| - 1]; }
  }

  lemma IndexIsMade(fx: Facts)
    ensures Linked(EMPTY) && Enabled(fx, EMPTY, NewIndex(0, 0)) && Assumed(fx, EMPTY, NewIndex(0, 0))
    ensures Next(fx, EMPTY, NewIndex(0, 0), FRESH)
  {}

  // A unit that holds one value, in an index of its own, and that index downgraded.

  /** The unit's one filter, in index 0. */
  function Holding(unit: string): Heap {
    Heap(map[0 := HayFilter()], map[0 := Table(0, unit, COLUMNS)], map[0 := IndexRef(0, map[unit := 0])])
  }

  function AddingHay(unit: string): Op {
    AddFile(0, unit, map[COLUMN := [HAY]], OneByte(), COLUMNS, 0)
  }

  const FRESH := Heap(map[], map[], map[0 := IndexRef(0, map[])])

  ghost predicate HoldsHay(fx: Facts, unit: string) {
    fx.fnv == Hashes() && OwnKey(fx, 0, unit) && forall v | v in fx.content(unit, COLUMN) :: v == HAY
  }

  lemma AddsHay(fx: Facts, unit: string)
    requires HoldsHay(fx, unit)
    ensures Linked(FRESH) && Enabled(fx, FRESH, AddingHay(unit)) && Assumed(fx, FRESH, AddingHay(unit))
    ensures Next(fx, FRESH, AddingHay(unit), Holding(unit))
  {
    HayRoom(unit);
    HayGiven(fx, unit);
    HayFilters(unit);
    HayColumns(unit);
    FileIsAdded(fx, FRESH, AddingHay(unit), Holding(unit).filters, Holding(unit));
  }

  lemma HayRoom(unit: string)
    ensures Room(FRESH, AddingHay(unit))
  {}

  lemma HayGiven(fx: Facts, unit: string)
    requires HoldsHay(fx, unit)
    ensures Given(fx, 0, unit, map[COLUMN := [HAY]])
  {
    var values := map[COLUMN := [HAY]];
    forall c, v | c in values && v in fx.content(unit, c) ensures v in values[c] { assert values[c][0] == HAY; }
  }

  lemma HayFilters(unit: string)
    ensures NewFilters(FRESH.filters, Holding(unit).filters, COLUMNS, Built(Hashes(), OneByte(), map[COLUMN := [HAY]]))
  {
    BuiltSmall();
    HayRejectsNeedle();
  }

  lemma HayColumns(unit: string)
    ensures Linked(FRESH.(filters := Holding(unit).filters))
    ensures SetColumns(FRESH.(filters := Holding(unit).filters), 0, unit, COLUMNS, 0) == Holding(unit)
  {
    HayRejectsNeedle();
  }

  lemma HoldingRefs(unit: string)
    ensures Linked(Holding(unit)) && RefsOf(Holding(unit), 0) == map[unit := COLUMNS]
  {
    HayRejectsNeedle();
  }

  /** Index 1 is index 0 downgraded: the group's one filter is that of the unit. */
  function Coarsened(unit: string, group: string): Heap {
    Heap(map[0 := HayFilter()], map[0 := Table(0, unit, COLUMNS), 1 := Table(1, group, COLUMNS)],
         map[0 := IndexRef(0, map[unit := 0]), 1 := IndexRef(1, map[group := 1])])
  }

  function Coarsening(g: Grouping, group: string): Op {
    Downgrade(0, 1, g, 1, map[group := COLUMNS])
  }

  lemma Coarsens(fx: Facts, unit: string, g: Grouping, group: string)
    requires GroupBy(g)(unit) == group && Coarser(fx, 0, 1, GroupBy(g))
    ensures Linked(Holding(unit)) && Enabled(fx, Holding(unit), Coarsening(g, group))
    ensures Next(fx, Holding(unit), Coarsening(g, group), Coarsened(unit, group))
  {
    HoldingRefs(unit);
    OneRefDowngrades(Holding(unit).filters, unit, group, GroupBy(g), COLUMN, 0);
    GroupTables(unit, group);
  }

  lemma GroupTables(unit: string, group: string)
    ensures NewTables(Holding(unit), Coarsened(unit, group), 1, 1, map[group := COLUMNS])
  {}

  lemma CoarsenedRefs(unit: string, group: string)
    ensures Linked(Coarsened(unit, group)) && RefsOf(Coarsened(unit, group), 1) == map[group := COLUMNS]
  {
    HayRejectsNeedle();
  }

  lemma CoarsenedView(unit: string, group: string)
    ensures Linked(Coarsened(unit, group)) && var idx := View(Coarsened(unit, group), 1);
            group in idx && COLUMN in idx[group] && idx[group][COLUMN] == HayFilter()
  {
    CoarsenedRefs(unit, group);
    DerefAt(RefsOf(Coarsened(unit, group), 1), Coarsened(unit, group).filters, group, COLUMN);
  }

  /** One filter alone is its own downgrade. */
  lemma OneRefDowngrades(filters: map<nat, B.Filter>, key: string, group: string, h: string -> string, column: string, id: nat)
    requires h(key) == group && id in filters
    ensures var refs, merged := map[key := map[column := id]], map[group := map[column := id]];
            Resolves(refs, filters) && Downgraded(filters, refs, h, filters, merged)
  {
    var refs, merged: Refs := map[key := map[column := id]], map[group := map[column := id]];
    forall gc ensures Entry(merged, gc) <==> exists i :: Member(refs, h, gc, i) {
      if Entry(merged, gc) { assert Member(refs, h, gc, id); }
    }
  }

  // ---- A row group too large for a filter ------------------------------------------------

  function Second(): Op {
    AddFile(0, Group(1), map[COLUMN := Many()], OneByte(), map[], 1)
  }

  function Run(): seq<Move> {
    [Move(NewIndex(0, 0), FRESH)] + ([Move(AddingHay(Group(0)), Holding(Group(0)))] + ([Move(Second(), Holding(Group(0)))] + []))
  }

  lemma FirstHoldsHay()
    ensures HoldsHay(World(), Group(0))
  {}

  lemma SecondAdds()
    ensures Linked(Holding(Group(0))) && Enabled(World(), Holding(Group(0)), Second()) && Assumed(World(), Holding(Group(0)), Second())
    ensures Next(World(), Holding(Group(0)), Second(), Holding(Group(0)))
  {
    SecondRoom();
    SecondGiven();
    BuiltLarge();
    FileIsNoted(World(), Holding(Group(0)), Second());
  }

  lemma SecondRoom()
    ensures Room(Holding(Group(0)), Second())
  {
    HoldingRefs(Group(0));
  }

  lemma SecondGiven()
    ensures Given(World(), 0, Group(1), map[COLUMN := Many()])
  {
    Groups();
  }

  lemma RunIsLegal()
    ensures Legal(World(), EMPTY, Run()) && Last(EMPTY, Run()) == Holding(Group(0))
  {
    FirstHoldsHay();
    SecondAdds();
    Then(World(), Holding(Group(0)), Second(), Holding(Group(0)), []);
    AddsHay(World(), Group(0));
    Then(World(), FRESH, AddingHay(Group(0)), Holding(Group(0)), [Move(Second(), Holding(Group(0)))] + []);
    IndexIsMade(World());
    Then(World(), EMPTY, NewIndex(0, 0), FRESH,
         [Move(AddingHay(Group(0)), Holding(Group(0)))] + ([Move(Second(), Holding(Group(0)))] + []));
  }

  /** The file is skipped in a query for the needle, which its second row group holds. */
  lemma LargeRowGroupIsSkipped()
    ensures Legal(World(), EMPTY, Run()) && Last(EMPTY, Run()) == Holding(Group(0)) && NoneTwice(Many())
    ensures Linked(Holding(Group(0))) && Enabled(World(), Holding(Group(0)), Coarsening(PerFile, FILE))
    ensures Next(World(), Holding(Group(0)), Coarsening(PerFile, FILE), Coarsened(Group(0), FILE))
    ensures Group(1) in World().units && NEEDLE in World().content(Group(1), COLUMN)
    ensures Linked(Coarsened(Group(0), FILE))
    ensures !Keeps(Hashes(), View(Coarsened(Group(0), FILE), 1), [Check(COLUMN, NEEDLE)])(World().keyAt(1, Group(1)).value)
  {
    ManyAreDistinct();
    RunIsLegal();
    Groups();
    Coarsens(World(), Group(0), PerFile, FILE);
    NeedleIsHeld();
    NeedleIsSkipped(Group(0), FILE);
  }

  lemma NeedleIsSkipped(unit: string, group: string)
    ensures Linked(Coarsened(unit, group))
    ensures !Keeps(Hashes(), View(Coarsened(unit, group), 1), [Check(COLUMN, NEEDLE)])(group)
  {
    CoarsenedView(unit, group);
    HayRejectsNeedle();
    RejectedIsSkipped(Hashes(), View(Coarsened(unit, group), 1), group, Check(COLUMN, NEEDLE));
  }

  lemma RejectedIsSkipped(fnv: B.Hash, idx: Index, key: string, check: Check)
    requires ValidIndex(idx) && key in idx && Rejects(fnv, idx[key], check)
    ensures !Keeps(fnv, idx, [check])(key)
  {
    assert check in [check];
  }

  lemma NeedleIsHeld()
    ensures NEEDLE in World().content(Group(1), COLUMN)
  {
    Groups();
    assert Many()[0] in Many();
  }

  // ---- A file that comes after the summary ---------------------------------------------

  const OLD: string := "a"
  const LATE: string := "b"

  /** Two files of one partition, each with one value. The summary is about the first, and
      was made before the second came. */
  function LateWorld(): Facts {
    Facts(
      Hashes(), {OLD, LATE},
      (u: string, c: string) => if c != COLUMN then {} else if u == OLD then {HAY} else if u == LATE then {NEEDLE} else {},
      (tier: nat, u: string) => if tier == 0 then Some(u) else if tier == 1 && u == OLD then Some(SUMMARY_KEY) else None)
  }

  function NeedleFilter(): B.Filter {
    B.With(Hashes(), B.Empty(1, 1), NEEDLE)
  }

  lemma BuiltNeedle()
    ensures Built(Hashes(), OneByte(), map[COLUMN := [NEEDLE]]) == map[COLUMN := NeedleFilter()]
  {
    var e := B.Empty(1, 1);
    assert [NEEDLE][..0] == [];
    assert WithAll(Hashes(), e, [NEEDLE]) == B.With(Hashes(), WithAll(Hashes(), e, [NEEDLE][..0]), NEEDLE);
  }

  /** The late file, with a filter of its own, in the summarised index. */
  function AddingLate(): Op {
    AddFile(1, LATE, map[COLUMN := [NEEDLE]], OneByte(), map[COLUMN := 1], 2)
  }

  function Before(): Heap {
    Coarsened(OLD, SUMMARY_KEY)
  }

  function Grown(): Heap {
    Before().(filters := map[0 := HayFilter(), 1 := NeedleFilter()])
  }

  lemma GrownIsLinked()
    ensures Linked(Grown())
  {
    HayRejectsNeedle();
  }

  function After(): Heap {
    GrownIsLinked();
    SetColumns(Grown(), 1, LATE, map[COLUMN := 1], 2)
  }

  lemma LateAdds()
    ensures Linked(Before()) && Enabled(LateWorld(), Before(), AddingLate()) && Assumed(LateWorld(), Before(), AddingLate())
    ensures Next(LateWorld(), Before(), AddingLate(), After())
  {
    LateRoom();
    LateGiven();
    LateFilters();
    GrownIsLinked();
    FileIsAdded(LateWorld(), Before(), AddingLate(), Grown().filters, After());
  }

  lemma LateRoom()
    ensures Room(Before(), AddingLate())
  {
    CoarsenedRefs(OLD, SUMMARY_KEY);
  }

  lemma LateGiven()
    ensures Given(LateWorld(), 1, LATE, map[COLUMN := [NEEDLE]])
  {
    var values := map[COLUMN := [NEEDLE]];
    forall c, v | c in values && v in LateWorld().content(LATE, c) ensures v in values[c] { assert values[c][0] == NEEDLE; }
  }

  lemma LateFilters()
    ensures NewFilters(Before().filters, Grown().filters, map[COLUMN := 1], Built(Hashes(), OneByte(), map[COLUMN := [NEEDLE]]))
  {
    BuiltNeedle();
    GrownIsLinked();
  }

  lemma SummaryIsMade()
    ensures Linked(Holding(OLD)) && Enabled(LateWorld(), Holding(OLD), Coarsening(Summary, SUMMARY_KEY))
    ensures Assumed(LateWorld(), Holding(OLD), Coarsening(Summary, SUMMARY_KEY))
    ensures Next(LateWorld(), Holding(OLD), Coarsening(Summary, SUMMARY_KEY), Before())
  {
    OldIsCoarser();
    Coarsens(LateWorld(), OLD, Summary, SUMMARY_KEY);
    SummaryIsFilled();
  }

  lemma OldIsCoarser()
    ensures Coarser(LateWorld(), 0, 1, GroupBy(Summary))
  {}

  lemma SummaryIsFilled()
    ensures Linked(Holding(OLD)) && Enabled(LateWorld(), Holding(OLD), Coarsening(Summary, SUMMARY_KEY)) ==>
              Assumed(LateWorld(), Holding(OLD), Coarsening(Summary, SUMMARY_KEY))
  {
    HoldingRefs(OLD);
    forall gc ensures Filled(LateWorld(), 0, 1, map[OLD := COLUMNS], gc) {
      if gc.column == COLUMN { assert Entry(map[OLD := COLUMNS], GroupColumn(OLD, COLUMN)); }
    }
  }

  function ToSummary(): seq<Move> {
    [Move(NewIndex(0, 0), FRESH)] + ([Move(AddingHay(OLD), Holding(OLD))] + ([Move(Coarsening(Summary, SUMMARY_KEY), Before())] + []))
  }

  lemma OldHoldsHay()
    ensures HoldsHay(LateWorld(), OLD)
  {}

  /** The summary is made by a legal run. */
  lemma ToSummaryIsLegal()
    ensures Legal(LateWorld(), EMPTY, ToSummary()) && Last(EMPTY, ToSummary()) == Before()
  {
    var last := [Move(Coarsening(Summary, SUMMARY_KEY), Before())] + [];
    SummaryIsMade();
    Then(LateWorld(), Holding(OLD), Coarsening(Summary, SUMMARY_KEY), Before(), []);
    OldHoldsHay();
    AddsHay(LateWorld(), OLD);
    Then(LateWorld(), FRESH, AddingHay(OLD), Holding(OLD), last);
    IndexIsMade(LateWorld());
    Then(LateWorld(), EMPTY, NewIndex(0, 0), FRESH, [Move(AddingHay(OLD), Holding(OLD))] + last);
  }

  /** A file is added to a partition that has its summary, by a legal step after a legal
      run: the summary then rules the partition out for the value the late file holds. */
  lemma LateFileIsSkipped()
    ensures Legal(LateWorld(), EMPTY, ToSummary()) && Last(EMPTY, ToSummary()) == Before() && Linked(Before())
    ensures Enabled(LateWorld(), Before(), AddingLate()) && Assumed(LateWorld(), Before(), AddingLate())
    ensures Next(LateWorld(), Before(), AddingLate(), After()) && NEEDLE in LateWorld().content(LATE, COLUMN)
    ensures Linked(After()) && !Keeps(Hashes(), View(After(), 1), [Check(COLUMN, NEEDLE)])(SUMMARY_KEY)
  {
    ToSummaryIsLegal();
    RunKeeps(LateWorld(), EMPTY, ToSummary());
    LateAdds();
    SummaryRejects();
    LateFileRuledOutIff(LateWorld(), Before(), AddingLate(), After(), COLUMN, NEEDLE);
    NeedleIsLate();
  }

  lemma SummaryRejects()
    ensures Linked(Before()) && SUMMARY_KEY in View(Before(), 1)
    ensures Rejects(Hashes(), View(Before(), 1)[SUMMARY_KEY], Check(COLUMN, NEEDLE))
  {
    CoarsenedView(OLD, SUMMARY_KEY);
    HayRejectsNeedle();
  }

  lemma NeedleIsLate()
    ensures LATE != SUMMARY_KEY && NEEDLE in LateWorld().content(LATE, COLUMN)
  {
    assert LATE[0] != OLD[0];
  }
}
