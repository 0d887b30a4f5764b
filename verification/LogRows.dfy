/** What a merge does to log rows (internal/compaction/compactor.go, mergeLogFiles;
    internal/vlstorage/insert.go, mapFieldToRow and RepromoteLogRow;
    internal/schema/severity.go). Trace-shaped rows are dropped, an empty severity text
    is derived, then every attribute is routed as on ingest, and that can change the
    severity again, after it was derived. */
module LogRows {
  import opened Ordering
  import opened Files
  import opened Rows
  import RowGroupKeys

  /** The fields a merge reads or writes. `columns` holds the dedicated columns and the
      custom slots under their attribute's name. */
  datatype LogRow = LogRow(
    timestamp: int, stream: string, text: string, number: Option<int>,
    columns: map<string, string>, attributes: map<string, string>)

  /** What the rules leave open: which streams are trace-shaped, the level tag of a
      stream ("" without one), the names of the severities 1 to 24, and which attributes
      have a column or a slot. */
  datatype LogRules = LogRules(
    traceShaped: string -> bool, level: string -> string, severity: int -> string, column: string -> bool)

  const SERVICE: string := "service.name"
  const LEVEL: string := "level"
  const TEXT: string := "severity_text"
  const NUMBER: string := "severity_number"

  // ---- One row ---------------------------------------------------------------------

  /** DeriveSeverityText without an explicit text. */
  function Derived(rules: LogRules, number: Option<int>, stream: string): string {
    if number.Some? && 1 <= number.value <= 24 then rules.severity(number.value) else rules.level(stream)
  }

  /** The backfill. */
  function Backfilled(rules: LogRules, r: LogRow): LogRow {
    if r.text != "" then r else r.(text := Derived(rules, r.number, r.stream))
  }

  /** strconv.ParseInt(s, 10, 32). */
  function ParseInt32(s: string): Option<int> {
    match RowGroupKeys.Atoi(s)
    case Some(i) => if -0x8000_0000 <= i < 0x8000_0000 then Some(i) else None
    case None => None
  }

  predicate IsText(k: string) {
    k == LEVEL || k == TEXT
  }

  /** The attribute has a column of its own. */
  predicate Lifted(rules: LogRules, k: string) {
    k != "" && !IsText(k) && k != NUMBER && (k == SERVICE || rules.column(k))
  }

  predicate Stays(rules: LogRules, k: string) {
    !IsText(k) && k != NUMBER && !Lifted(rules, k)
  }

  /** mapFieldToRow for an attribute of the row, the empty name kept as RepromoteLogRow
      keeps it. */
  function Routed(rules: LogRules, r: LogRow, k: string, v: string): LogRow {
    if IsText(k) then r.(text := v)
    else if k == NUMBER then (if ParseInt32(v).Some? then r.(number := ParseInt32(v)) else r)
    else if Lifted(rules, k) then r.(columns := r.columns[k := v])
    else r.(attributes := r.attributes[k := v])
  }

  /** The number the attributes leave. */
  function NumberLeft(r: LogRow): Option<int> {
    if NUMBER in r.attributes && ParseInt32(r.attributes[NUMBER]).Some? then ParseInt32(r.attributes[NUMBER]) else r.number
  }

  /** The attribute whose text stays: of two, the one that is routed last. */
  function Winner(r: LogRow, levelLast: bool): (k: Option<string>)
    ensures k.Some? ==> k.value in r.attributes
  {
    if LEVEL in r.attributes && (levelLast || TEXT !in r.attributes) then Some(LEVEL)
    else if TEXT in r.attributes then Some(TEXT)
    else None
  }

  /** The row after some of its attributes were routed, `last` of those with a text last. */
  function Partly(rules: LogRules, r: LogRow, done: set<string>, last: Option<string>): LogRow
    requires done <= r.attributes.Keys && (last.Some? ==> last.value in r.attributes)
  {
    r.(text := if last.Some? then r.attributes[last.value] else r.text,
       number := if NUMBER in done then NumberLeft(r) else r.number,
       columns := r.columns + Restricted(r.attributes, done, k => Lifted(rules, k)),
       attributes := Restricted(r.attributes, done, k => Stays(rules, k)))
  }

  /** RepromoteLogRow. */
  function Repromoted(rules: LogRules, r: LogRow, levelLast: bool): LogRow {
    Partly(rules, r, r.attributes.Keys, Winner(r, levelLast))
  }

  function Healed(rules: LogRules, r: LogRow, levelLast: bool): LogRow {
    Repromoted(rules, Backfilled(rules, r), levelLast)
  }

  lemma PartlyNext(rules: LogRules, r: LogRow, done: set<string>, last: Option<string>, k: string)
    requires done <= r.attributes.Keys && (last.Some? ==> last.value in r.attributes)
    requires k in r.attributes && k !in done
    ensures Routed(rules, Partly(rules, r, done, last), k, r.attributes[k])
            == Partly(rules, r, done + {k}, if IsText(k) then Some(k) else last)
  {
    RestrictedNext(r.attributes, done, k => Lifted(rules, k), k);
    RestrictedNext(r.attributes, done, k => Stays(rules, k), k);
    var lifted := Restricted(r.attributes, done, k => Lifted(rules, k));
    assert Lifted(rules, k) ==> (r.columns + lifted)[k := r.attributes[k]] == r.columns + lifted[k := r.attributes[k]];
  }

  /** `last` is the text attribute routed last, if one was. */
  predicate IsLast(done: set<string>, last: Option<string>) {
    if last.Some? then last.value in done && IsText(last.value) else LEVEL !in done && TEXT !in done
  }

  lemma NothingRouted(rules: LogRules, r: LogRow)
    ensures Partly(rules, r, {}, None) == r.(attributes := map[])
  {
    assert r.columns + map[] == r.columns;
  }

  lemma NothingToRoute(rules: LogRules, r: LogRow)
    requires |r.attributes| == 0
    ensures Repromoted(rules, r, false) == r
  {
    assert r.attributes == map[];
    NothingRouted(rules, r);
  }

  lemma AllRouted(r: LogRow, last: Option<string>)
    requires IsLast(r.attributes.Keys, last)
    ensures last == Winner(r, last == Some(LEVEL))
  {}

  /** The loop over the attribute map, in whatever order it comes. */
  method RepromoteLogRow(rules: LogRules, r: LogRow) returns (row: LogRow, ghost levelLast: bool)
    ensures row == Repromoted(rules, r, levelLast)
  {
    if |r.attributes| == 0 {
      NothingToRoute(rules, r);
      return r, false;
    }
    ghost var last: Option<string>;
    row, last := RouteAll(rules, r);
    AllRouted(r, last);
    levelLast := last == Some(LEVEL);
  }

  method RouteAll(rules: LogRules, r: LogRow) returns (row: LogRow, ghost last: Option<string>)
    ensures IsLast(r.attributes.Keys, last) && row == Partly(rules, r, r.attributes.Keys, last)
  {
    last := None;
    ghost var done: set<string> := {};
    row := r.(attributes := map[]);
    NothingRouted(rules, r);
    var todo := r.attributes.Keys;
    while todo != {}
      invariant done + todo == r.attributes.Keys && done !! todo
      invariant IsLast(done, last) && row == Partly(rules, r, done, last)
      decreases todo
    {
      var k :| k in todo;
      PartlyNext(rules, r, done, last, k);
      row := Routed(rules, row, k, r.attributes[k]);
      last := if IsText(k) then Some(k) else last;
      todo, done := todo - {k}, done + {k};
    }
    assert done == r.attributes.Keys;
  }

  // ---- A row merged again --------------------------------------------------------------

  /** The text the backfill and then the attributes leave. */
  function TextLeft(rules: LogRules, r: LogRow, levelLast: bool): string {
    match Winner(r, levelLast)
    case Some(k) => r.attributes[k]
    case None => if r.text != "" then r.text else Derived(rules, r.number, r.stream)
  }

  /** The attributes leave no text and a number, or a stream, that has one: the merge
      writes the row without the text the next merge derives. */
  predicate Lags(rules: LogRules, r: LogRow, levelLast: bool) {
    TextLeft(rules, r, levelLast) == "" && Derived(rules, NumberLeft(r), r.stream) != ""
  }

  /** Two attributes set the text, to different values. */
  predicate Ambiguous(r: LogRow) {
    LEVEL in r.attributes && TEXT in r.attributes && r.attributes[LEVEL] != r.attributes[TEXT]
  }

  lemma HealedRow(rules: LogRules, r: LogRow, levelLast: bool)
    ensures var once := Healed(rules, r, levelLast);
            && once.stream == r.stream && once.text == TextLeft(rules, r, levelLast) && once.number == NumberLeft(r)
            && forall k | k in once.attributes :: Stays(rules, k)
  {}

  /** A row whose attributes all stay is not changed by routing them. */
  lemma RoutedStays(rules: LogRules, r: LogRow, levelLast: bool)
    requires forall k | k in r.attributes :: Stays(rules, k)
    ensures Repromoted(rules, r, levelLast) == r
  {
    assert Restricted(r.attributes, r.attributes.Keys, k => Stays(rules, k)) == r.attributes;
    assert Restricted(r.attributes, r.attributes.Keys, k => Lifted(rules, k)) == map[];
    assert r.columns + map[] == r.columns;
    assert !Stays(rules, LEVEL) && !Stays(rules, TEXT) && !Stays(rules, NUMBER);
  }

  /** The second merge derives the text that the first left out, and changes nothing else. */
  lemma HealedAgain(rules: LogRules, r: LogRow, first: bool, second: bool)
    ensures var once := Healed(rules, r, first);
            && Healed(rules, once, second) == Backfilled(rules, once)
            && Backfilled(rules, once) == if Lags(rules, r, first) then once.(text := Derived(rules, NumberLeft(r), r.stream)) else once
  {
    var once := Healed(rules, r, first);
    HealedRow(rules, r, first);
    RoutedStays(rules, Backfilled(rules, once), second);
  }

  /** A second merge leaves a row as the first wrote it, if and only if it does not lag. */
  lemma HealsOnceIff(rules: LogRules, r: LogRow, first: bool, second: bool)
    ensures Healed(rules, Healed(rules, r, first), second) == Healed(rules, r, first) <==> !Lags(rules, r, first)
  {
    HealedAgain(rules, r, first, second);
    HealedRow(rules, r, first);
  }

  /** A third merge never changes a row. */
  lemma HealsTwice(rules: LogRules, r: LogRow, first: bool, second: bool, third: bool)
    ensures var twice := Healed(rules, Healed(rules, r, first), second); Healed(rules, twice, third) == twice
  {
    var once := Healed(rules, r, first);
    HealedRow(rules, r, first);
    HealedAgain(rules, r, first, second);
    RoutedStays(rules, Backfilled(rules, once), third);
  }

  /** The order of the attribute map decides what is written, if and only if both text
      attributes are there with different values. */
  lemma OrderMattersIff(rules: LogRules, r: LogRow)
    ensures Healed(rules, r, true) != Healed(rules, r, false) <==> Ambiguous(r)
  {
    HealedRow(rules, r, true);
    HealedRow(rules, r, false);
  }

  /** The number is an attribute, and nothing else tells the severity: the first merge
      writes no text and the second the text of the number. */
  lemma LateNumberLags(rules: LogRules, levelLast: bool)
    requires rules.severity(17) != "" && rules.level("") == ""
    ensures var r := LogRow(0, "", "", None, map[], map[NUMBER := "17"]);
            var once := Healed(rules, r, levelLast);
            && once.text == "" && once.number == Some(17)
            && Healed(rules, once, levelLast).text == rules.severity(17)
  {
    var r := LogRow(0, "", "", None, map[], map[NUMBER := "17"]);
    RowGroupKeys.AtoiOfItoa(17);
    assert RowGroupKeys.Itoa(17) == "17";
    HealedRow(rules, r, levelLast);
    HealedAgain(rules, r, levelLast, levelLast);
  }

  // ---- A merge ---------------------------------------------------------------------------

  /** The log rules, for rows whose map order does not matter. */
  function LogHealing(rules: LogRules): Healing<LogRow> {
    Healing((r: LogRow) => rules.traceShaped(r.stream), (r: LogRow) => Healed(rules, r, true))
  }

  /** What a row becomes in the end. */
  function Settled(rules: LogRules, r: LogRow): LogRow {
    Healed(rules, Healed(rules, r, true), true)
  }

  function Settling(rules: LogRules): Healing<LogRow> {
    Healing((r: LogRow) => rules.traceShaped(r.stream), (r: LogRow) => Settled(rules, r))
  }

  lemma SettledStays(rules: LogRules, r: LogRow)
    ensures Settled(rules, r).stream == r.stream && Settled(rules, Settled(rules, r)) == Settled(rules, r)
    ensures Settled(rules, Healed(rules, r, true)) == Settled(rules, r)
  {
    HealedRow(rules, r, true);
    HealedRow(rules, Healed(rules, r, true), true);
    HealsTwice(rules, r, true, true, true);
  }

  function Service(r: LogRow): string {
    if SERVICE in r.columns then r.columns[SERVICE] else ""
  }

  predicate LogLess(a: LogRow, b: LogRow) {
    a.timestamp < b.timestamp || (a.timestamp == b.timestamp && LexLess(Service(a), Service(b)))
  }

  lemma LogLessIsWeakOrder()
    ensures WeakOrder(LogLess)
  {
    LexIsOrder();
  }

  /** The rows of the merge that are not dropped. */
  function Kept(rules: LogRules, allData: seq<seq<LogRow>>): seq<LogRow> {
    Filter(Flatten(allData), Survives(LogHealing(rules)))
  }

  function HealedAll(rules: LogRules, rows: seq<LogRow>, levelLast: seq<bool>): (r: seq<LogRow>)
    requires |levelLast| == |rows|
    ensures |r| == |rows|
  {
    seq(|rows|, i requires 0 <= i < |rows| => Healed(rules, rows[i], levelLast[i]))
  }

  ghost predicate NoneAmbiguous(rows: seq<LogRow>) {
    forall r | r in rows :: !Ambiguous(r)
  }

  /** The row pass of mergeLogFiles: the backfill, then the attributes. */
  method HealLogRows(rules: LogRules, rows: array<LogRow>, kept: nat) returns (ghost levelLast: seq<bool>)
    requires kept <= rows.Length
    modifies rows
    ensures |levelLast| == kept && rows[..kept] == HealedAll(rules, old(rows[..kept]), levelLast)
  {
    var backfill := Healing((r: LogRow) => false, (r: LogRow) => Backfilled(rules, r));
    HealInPlace(backfill, rows, kept);
    levelLast := [];
    for i := 0 to kept
      invariant |levelLast| == i
      invariant forall j | 0 <= j < i :: rows[j] == Healed(rules, old(rows[j]), levelLast[j])
      invariant forall j | i <= j < kept :: rows[j] == Backfilled(rules, old(rows[j]))
    {
      ghost var last;
      rows[i], last := RepromoteLogRow(rules, rows[i]);
      levelLast := levelLast + [last];
    }
  }

  lemma HealedAllAt(rules: LogRules, rows: seq<LogRow>, levelLast: seq<bool>, i: nat)
    requires i < |rows| == |levelLast|
    ensures HealedAll(rules, rows, levelLast)[i] == Healed(rules, rows[i], levelLast[i])
  {}

  /** Where the map order does not matter, the merge writes the normal form of its rows. */
  lemma HealedIsNormalForm(rules: LogRules, allData: seq<seq<LogRow>>, levelLast: seq<bool>)
    requires |levelLast| == |Kept(rules, allData)| && NoneAmbiguous(Kept(rules, allData))
    ensures HealedAll(rules, Kept(rules, allData), levelLast) == NormalForm(LogHealing(rules), Flatten(allData))
  {
    var kept := Kept(rules, allData);
    forall i | 0 <= i < |kept| ensures HealedAll(rules, kept, levelLast)[i] == LogHealing(rules).heal(kept[i]) {
      HealedAllAt(rules, kept, levelLast, i);
      assert kept[i] in kept;
      OrderMattersIff(rules, kept[i]);
    }
    HealAfterFilter(LogHealing(rules), Flatten(allData), HealedAll(rules, kept, levelLast));
  }

  /** A merge of rows that are not dropped heals each. */
  lemma {:induction false} NormalFormOfKept(rules: LogRules, rows: seq<LogRow>, once: seq<bool>)
    requires |once| == |rows| && forall r | r in rows :: !rules.traceShaped(r.stream)
    requires forall i | 0 <= i < |once| :: once[i]
    ensures NormalForm(LogHealing(rules), rows) == HealedAll(rules, rows, once)
  {
    var all := HealedAll(rules, rows, once);
    if rows != [] {
      NormalFormOfKept(rules, rows[1..], once[1..]);
      assert rows[0] in rows;
      assert all[1..] == HealedAll(rules, rows[1..], once[1..]);
      assert all == [all[0]] + all[1..];
    }
  }

  predicate Blank(r: LogRow) {
    r.text == ""
  }

  /** If texts are only filled in, there are fewer blank rows, by one or more if one is. */
  lemma {:induction false} FewerBlank(before: seq<LogRow>, after: seq<LogRow>)
    requires |before| == |after| && forall i | 0 <= i < |before| :: Blank(after[i]) ==> Blank(before[i])
    ensures |Filter(after, Blank)| <= |Filter(before, Blank)|
    ensures (exists i | 0 <= i < |before| :: Blank(before[i]) && !Blank(after[i])) ==> |Filter(after, Blank)| < |Filter(before, Blank)|
  {
    if before != [] {
      FewerBlank(before[1..], after[1..]);
      if i :| 0 < i < |before| && Blank(before[i]) && !Blank(after[i]) {
        assert before[1..][i - 1] == before[i] && after[1..][i - 1] == after[i];
      }
    }
  }

  /** Merging a merge's output again leaves it as it is, if and only if no row lagged. */
  lemma MergedAgainIff(rules: LogRules, kept: seq<LogRow>, levelLast: seq<bool>, merged: seq<LogRow>)
    requires |levelLast| == |kept| && forall r | r in kept :: !rules.traceShaped(r.stream)
    requires multiset(merged) == multiset(HealedAll(rules, kept, levelLast))
    ensures Content(LogHealing(rules), merged) == multiset(merged)
            <==> forall i | 0 <= i < |kept| :: !Lags(rules, kept[i], levelLast[i])
  {
    var once := HealedAll(rules, kept, levelLast);
    var twice := HealedAll(rules, once, seq(|once|, _ => true));
    NormalFormPermutes(LogHealing(rules), merged, once);
    HealedKeepStreams(rules, kept, levelLast);
    NormalFormOfKept(rules, once, seq(|once|, _ => true));
    assert Content(LogHealing(rules), merged) == multiset(twice);
    AgainIff(rules, kept, levelLast, once, twice);
  }

  lemma HealedKeepStreams(rules: LogRules, kept: seq<LogRow>, levelLast: seq<bool>)
    requires |levelLast| == |kept| && forall r | r in kept :: !rules.traceShaped(r.stream)
    ensures forall r | r in HealedAll(rules, kept, levelLast) :: !rules.traceShaped(r.stream)
  {
    var once := HealedAll(rules, kept, levelLast);
    forall r | r in once ensures !rules.traceShaped(r.stream) {
      var i :| 0 <= i < |once| && once[i] == r;
      HealedAllAt(rules, kept, levelLast, i);
      HealedRow(rules, kept[i], levelLast[i]);
      assert kept[i] in kept;
    }
  }

  lemma AgainIff(rules: LogRules, kept: seq<LogRow>, levelLast: seq<bool>, once: seq<LogRow>, twice: seq<LogRow>)
    requires |levelLast| == |kept| && once == HealedAll(rules, kept, levelLast)
    requires twice == HealedAll(rules, once, seq(|once|, _ => true))
    ensures multiset(twice) == multiset(once) <==> forall i | 0 <= i < |kept| :: !Lags(rules, kept[i], levelLast[i])
  {
    forall i | 0 <= i < |kept|
      ensures Blank(twice[i]) ==> Blank(once[i])
      ensures if Lags(rules, kept[i], levelLast[i]) then Blank(once[i]) && !Blank(twice[i]) else twice[i] == once[i]
    {
      AgainAt(rules, kept[i], levelLast[i]);
      HealedAllAt(rules, kept, levelLast, i);
      HealedAllAt(rules, once, seq(|once|, _ => true), i);
    }
    if forall i | 0 <= i < |kept| :: !Lags(rules, kept[i], levelLast[i]) {
      assert twice == once;
    } else {
      FewerBlank(once, twice);
      if multiset(twice) == multiset(once) { FilterPermutes(twice, once, Blank); }
    }
  }

  lemma AgainAt(rules: LogRules, r: LogRow, last: bool)
    ensures var once := Healed(rules, r, last);
            var twice := Healed(rules, once, true);
            if Lags(rules, r, last) then Blank(once) && !Blank(twice) else twice == once
  {
    HealedRow(rules, r, last);
    HealedAgain(rules, r, last, true);
  }

  /** What the rows become in the end is kept by a merge, lagging rows included. */
  lemma SettledContentKept(rules: LogRules, allData: seq<seq<LogRow>>, merged: seq<LogRow>)
    requires multiset(merged) == multiset(NormalForm(LogHealing(rules), Flatten(allData)))
    ensures Content(Settling(rules), merged) == TotalContent(Settling(rules), allData)
  {
    NormalFormPermutes(Settling(rules), merged, NormalForm(LogHealing(rules), Flatten(allData)));
    forall r | r in Flatten(allData) ensures Absorbs(Settling(rules), LogHealing(rules), r) {
      HealedRow(rules, r, true);
      SettledStays(rules, r);
    }
    NormalFormAbsorbs(Settling(rules), LogHealing(rules), Flatten(allData));
    ContentOfFlatten(Settling(rules), allData);
  }

  /** mergeLogFiles: the output is ordered by time and service and holds exactly the rows
      that are not dropped, healed. It is the sources' content, now and in the end,
      unless the order of an attribute map mattered; and another merge would leave it
      as it is, if and only if no row lagged. */
  method MergeLogFiles(rules: LogRules, allData: seq<seq<LogRow>>) returns (merged: seq<LogRow>, ghost levelLast: seq<bool>)
    ensures Ascending(LogLess, merged) && forall i, j | 0 <= i < j < |merged| :: InOrder(merged[i], merged[j])
    ensures |levelLast| == |Kept(rules, allData)| && multiset(merged) == multiset(HealedAll(rules, Kept(rules, allData), levelLast))
    ensures NoneAmbiguous(Kept(rules, allData)) ==>
              && multiset(merged) == TotalContent(LogHealing(rules), allData)
              && Content(Settling(rules), merged) == TotalContent(Settling(rules), allData)
    ensures Content(LogHealing(rules), merged) == multiset(merged)
            <==> forall i | 0 <= i < |levelLast| :: !Lags(rules, Kept(rules, allData)[i], levelLast[i])
  {
    var rows := ReadFiles(allData);
    var kept := DropInPlace(LogHealing(rules), rows);
    ghost var survivors := rows[..kept];
    levelLast := HealLogRows(rules, rows, kept);
    LogLessIsWeakOrder();
    SortAscends(LogLess, rows[..kept]);
    merged := Sort(LogLess, rows[..kept]);
    AscendsInOrder(merged);
    MergedAgainIff(rules, survivors, levelLast, merged);
    if NoneAmbiguous(survivors) {
      HealedIsNormalForm(rules, allData, levelLast);
      ContentOfFlatten(LogHealing(rules), allData);
      SettledContentKept(rules, allData, merged);
    }
  }

  // ---- What a healed row holds -------------------------------------------------------------

  /** Without a text of its own or among its attributes, a row gets the name of its number,
      and only without one the level of its stream; a text of its own stays. */
  lemma TextHealed(rules: LogRules, r: LogRow, levelLast: bool)
    requires LEVEL !in r.attributes && TEXT !in r.attributes
    ensures Healed(rules, r, levelLast).text
            == if r.text != "" then r.text
               else if r.number.Some? && 1 <= r.number.value <= 24 then rules.severity(r.number.value)
               else rules.level(r.stream)
  {}

  /** An attribute that names the severity decides it. */
  lemma TextAttributeWins(rules: LogRules, r: LogRow, levelLast: bool)
    ensures "level" in r.attributes && "severity_text" !in r.attributes ==> Healed(rules, r, levelLast).text == r.attributes["level"]
    ensures "severity_text" in r.attributes && "level" !in r.attributes ==> Healed(rules, r, levelLast).text == r.attributes["severity_text"]
    ensures "level" in r.attributes && "severity_text" in r.attributes ==>
              Healed(rules, r, levelLast).text == r.attributes[if levelLast then "level" else "severity_text"]
    ensures "severity_number" in r.attributes && ParseInt32(r.attributes["severity_number"]).Some? ==>
              Healed(rules, r, levelLast).number == ParseInt32(r.attributes["severity_number"])
    ensures "severity_number" !in r.attributes || ParseInt32(r.attributes["severity_number"]).None? ==>
              Healed(rules, r, levelLast).number == r.number
  {}

  /** Where the attribute of this name goes: to its column, if it has one. */
  predicate Routes(rules: LogRules, k: string) {
    k != "" && k != "level" && k != "severity_text" && k != "severity_number" && (k == "service.name" || rules.column(k))
  }

  /** Every attribute with a column is in it and not among the attributes; those without one
      stay there, the three severity names excepted; and nothing else changes. */
  lemma ColumnsHealed(rules: LogRules, r: LogRow, levelLast: bool, k: string)
    ensures var once := Healed(rules, r, levelLast);
            && once.timestamp == r.timestamp && once.stream == r.stream
            && (k in r.attributes && Routes(rules, k) ==>
                  k in once.columns && once.columns[k] == r.attributes[k] && k !in once.attributes)
            && (!(k in r.attributes && Routes(rules, k)) ==>
                  (k in once.columns <==> k in r.columns) && (k in r.columns ==> once.columns[k] == r.columns[k]))
            && (k in once.attributes <==>
                  k in r.attributes && !Routes(rules, k) && k != "level" && k != "severity_text" && k != "severity_number")
            && (k in once.attributes ==> once.attributes[k] == r.attributes[k])
  {}

  /** The rows' times do not decrease, and at one time their services do not. */
  predicate InOrder(a: LogRow, b: LogRow) {
    var x := if "service.name" in a.columns then a.columns["service.name"] else "";
    var y := if "service.name" in b.columns then b.columns["service.name"] else "";
    a.timestamp < b.timestamp || (a.timestamp == b.timestamp && (x == y || LexLess(x, y)))
  }

  lemma AscendsInOrder(rows: seq<LogRow>)
    requires Ascending(LogLess, rows)
    ensures forall i, j | 0 <= i < j < |rows| :: InOrder(rows[i], rows[j])
  {
    LexIsOrder();
  }
}
