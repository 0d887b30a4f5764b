/** What a merge does to trace rows (internal/compaction/compactor.go, mergeTraceFiles;
    lakehouse-traces/internal/vlstorage/insert.go, RepromoteTraceRow): the attributes of
    the resource and of the span are routed to their columns and slots, the resource's
    first. Nothing is dropped, and a second merge changes nothing. */
module TraceRows {
  import opened Ordering
  import opened Files
  import opened Rows

  /** The fields a merge reads or writes. Columns and slots are kept under their
      attribute's name; a slot is filled from either map. */
  datatype TraceRow = TraceRow(
    timestamp: int, traceId: string, resource: map<string, string>, span: map<string, string>,
    resourceColumns: map<string, string>, spanColumns: map<string, string>, slots: map<string, string>)

  /** Which attributes of a resource and of a span have a column, and which have a slot. */
  datatype TraceRules = TraceRules(resource: string -> bool, span: string -> bool, slot: string -> bool)

  const SERVICE: string := "service.name"

  // ---- One attribute map ---------------------------------------------------------------

  /** An attribute map, and the columns and slots its entries go to. */
  datatype Routing = Routing(columns: map<string, string>, slots: map<string, string>, left: map<string, string>)

  predicate HasColumn(own: string -> bool, k: string) {
    k != "" && own(k)
  }

  predicate HasSlot(own: string -> bool, slot: string -> bool, k: string) {
    k != "" && !own(k) && slot(k)
  }

  predicate Stays(own: string -> bool, slot: string -> bool, k: string) {
    !HasColumn(own, k) && !HasSlot(own, slot, k)
  }

  /** mapResourceAttr and mapSpanAttr. */
  function Routed(own: string -> bool, slot: string -> bool, m: Routing, k: string, v: string): Routing {
    if HasColumn(own, k) then m.(columns := m.columns[k := v])
    else if HasSlot(own, slot, k) then m.(slots := m.slots[k := v])
    else m.(left := m.left[k := v])
  }

  /** After the entries `done`. */
  function Partly(own: string -> bool, slot: string -> bool, m: Routing, done: set<string>): Routing
    requires done <= m.left.Keys
  {
    Routing(
      m.columns + Restricted(m.left, done, k => HasColumn(own, k)),
      m.slots + Restricted(m.left, done, k => HasSlot(own, slot, k)),
      Restricted(m.left, done, k => Stays(own, slot, k)))
  }

  function AllRouted(own: string -> bool, slot: string -> bool, m: Routing): Routing {
    Partly(own, slot, m, m.left.Keys)
  }

  lemma OneMore(m: map<string, string>, more: map<string, string>, k: string, v: string)
    ensures (m + more)[k := v] == m + more[k := v]
  {}

  lemma PartlyNext(own: string -> bool, slot: string -> bool, m: Routing, done: set<string>, k: string)
    requires done <= m.left.Keys && k in m.left && k !in done
    ensures Routed(own, slot, Partly(own, slot, m, done), k, m.left[k]) == Partly(own, slot, m, done + {k})
  {
    RestrictedNext(m.left, done, k => HasColumn(own, k), k);
    RestrictedNext(m.left, done, k => HasSlot(own, slot, k), k);
    RestrictedNext(m.left, done, k => Stays(own, slot, k), k);
    OneMore(m.columns, Restricted(m.left, done, k => HasColumn(own, k)), k, m.left[k]);
    OneMore(m.slots, Restricted(m.left, done, k => HasSlot(own, slot, k)), k, m.left[k]);
  }

  lemma NothingRouted(own: string -> bool, slot: string -> bool, m: Routing)
    ensures Partly(own, slot, m, {}) == m.(left := map[])
  {
    assert m.columns + map[] == m.columns && m.slots + map[] == m.slots;
  }

  /** The loop over one attribute map, in whatever order it comes. */
  method RouteMap(own: string -> bool, slot: string -> bool, m: Routing) returns (now: Routing)
    ensures now == AllRouted(own, slot, m)
  {
    now := m.(left := map[]);
    NothingRouted(own, slot, m);
    ghost var done: set<string> := {};
    var todo := m.left.Keys;
    while todo != {}
      invariant done + todo == m.left.Keys && done !! todo
      invariant now == Partly(own, slot, m, done)
      decreases todo
    {
      var k :| k in todo;
      PartlyNext(own, slot, m, done, k);
      now := Routed(own, slot, now, k, m.left[k]);
      todo, done := todo - {k}, done + {k};
    }
    assert done == m.left.Keys;
  }

  /** Entries that stay are not routed. */
  lemma RoutedStays(own: string -> bool, slot: string -> bool, m: Routing)
    requires forall k | k in m.left :: Stays(own, slot, k)
    ensures AllRouted(own, slot, m) == m
  {
    assert Restricted(m.left, m.left.Keys, k => Stays(own, slot, k)) == m.left;
    assert Restricted(m.left, m.left.Keys, k => HasColumn(own, k)) == map[];
    assert Restricted(m.left, m.left.Keys, k => HasSlot(own, slot, k)) == map[];
    NothingRouted(own, slot, m);
  }

  lemma LeftStays(own: string -> bool, slot: string -> bool, m: Routing)
    ensures forall k | k in AllRouted(own, slot, m).left :: Stays(own, slot, k)
  {}

  // ---- One row ---------------------------------------------------------------------------

  function ResourceColumn(rules: TraceRules): string -> bool {
    (k: string) => k == SERVICE || rules.resource(k)
  }

  function ResourceRouted(rules: TraceRules, r: TraceRow): TraceRow {
    var m := AllRouted(ResourceColumn(rules), rules.slot, Routing(r.resourceColumns, r.slots, r.resource));
    r.(resourceColumns := m.columns, slots := m.slots, resource := m.left)
  }

  function SpanRouted(rules: TraceRules, r: TraceRow): TraceRow {
    var m := AllRouted(rules.span, rules.slot, Routing(r.spanColumns, r.slots, r.span));
    r.(spanColumns := m.columns, slots := m.slots, span := m.left)
  }

  /** RepromoteTraceRow: of an attribute in both maps, the slot gets the span's value. */
  function Repromoted(rules: TraceRules, r: TraceRow): TraceRow {
    SpanRouted(rules, ResourceRouted(rules, r))
  }

  method RepromoteTraceRow(rules: TraceRules, r: TraceRow) returns (row: TraceRow)
    ensures row == Repromoted(rules, r)
  {
    var m := RouteMap(ResourceColumn(rules), rules.slot, Routing(r.resourceColumns, r.slots, r.resource));
    row := r.(resourceColumns := m.columns, slots := m.slots, resource := m.left);
    m := RouteMap(rules.span, rules.slot, Routing(row.spanColumns, row.slots, row.span));
    row := row.(spanColumns := m.columns, slots := m.slots, span := m.left);
  }

  lemma RepromotedStays(rules: TraceRules, r: TraceRow)
    ensures Repromoted(rules, Repromoted(rules, r)) == Repromoted(rules, r)
  {
    var first := ResourceRouted(rules, r);
    var once := SpanRouted(rules, first);
    LeftStays(ResourceColumn(rules), rules.slot, Routing(r.resourceColumns, r.slots, r.resource));
    LeftStays(rules.span, rules.slot, Routing(first.spanColumns, first.slots, first.span));
    RoutedStays(ResourceColumn(rules), rules.slot, Routing(once.resourceColumns, once.slots, once.resource));
    RoutedStays(rules.span, rules.slot, Routing(once.spanColumns, once.slots, once.span));
  }

  // ---- A merge ---------------------------------------------------------------------------

  /** The trace rules; without an installed re-promotion, rows are left alone. */
  function TraceHealing(rules: Option<TraceRules>): Healing<TraceRow> {
    Healing((r: TraceRow) => false, (r: TraceRow) => if rules.Some? then Repromoted(rules.value, r) else r)
  }

  lemma TraceHealingIsLawful(rules: Option<TraceRules>)
    ensures TraceHealing(rules).Lawful()
  {
    forall r: TraceRow ensures TraceHealing(rules).LawfulAt(r) {
      if rules.Some? { RepromotedStays(rules.value, r); }
    }
  }

  function Service(r: TraceRow): string {
    if SERVICE in r.resourceColumns then r.resourceColumns[SERVICE] else ""
  }

  predicate TraceLess(a: TraceRow, b: TraceRow) {
    if a.timestamp != b.timestamp then a.timestamp < b.timestamp
    else if Service(a) != Service(b) then LexLess(Service(a), Service(b))
    else LexLess(a.traceId, b.traceId)
  }

  lemma TraceLessIsWeakOrder()
    ensures WeakOrder(TraceLess)
  {
    LexIsOrder();
  }

  /** mergeTraceFiles: the output is ordered by time, service and trace, holds the
      sources' content exactly, and another merge would not change it. */
  method MergeTraceFiles(rules: Option<TraceRules>, allData: seq<seq<TraceRow>>) returns (merged: seq<TraceRow>)
    ensures Ascending(TraceLess, merged) && forall i, j | 0 <= i < j < |merged| :: InOrder(merged[i], merged[j])
    ensures multiset(merged) == TotalContent(TraceHealing(rules), allData)
    ensures Content(TraceHealing(rules), merged) == multiset(merged)
  {
    TraceLessIsWeakOrder();
    TraceHealingIsLawful(rules);
    merged := MergeFiles(TraceHealing(rules), TraceLess, allData);
    AscendsInOrder(merged);
    forall r | r in Flatten(allData) ensures TraceHealing(rules).LawfulAt(r) {}
    MergeKeepsContent(TraceHealing(rules), allData, merged);
  }

  // ---- What a re-promoted row holds ----------------------------------------------------------

  /** Where a resource attribute goes. */
  predicate ToColumn(rules: TraceRules, k: string) {
    k != "" && (k == "service.name" || rules.resource(k))
  }

  /** Every resource attribute with a column is in it; the others are in a slot or stay. */
  lemma ResourceRepromoted(rules: TraceRules, r: TraceRow, k: string)
    ensures var once := Repromoted(rules, r);
            && once.timestamp == r.timestamp && once.traceId == r.traceId
            && (k in r.resource && ToColumn(rules, k) ==> k in once.resourceColumns && once.resourceColumns[k] == r.resource[k])
            && (!(k in r.resource && ToColumn(rules, k)) ==>
                  (k in once.resourceColumns <==> k in r.resourceColumns) && (k in r.resourceColumns ==> once.resourceColumns[k] == r.resourceColumns[k]))
            && (k in once.resource <==> k in r.resource && (k == "" || (!ToColumn(rules, k) && !rules.slot(k))))
            && (k in once.resource ==> once.resource[k] == r.resource[k])
  {}

  /** The same of the span's attributes. */
  lemma SpanRepromoted(rules: TraceRules, r: TraceRow, k: string)
    ensures var once := Repromoted(rules, r);
            && (k in r.span && k != "" && rules.span(k) ==> k in once.spanColumns && once.spanColumns[k] == r.span[k])
            && (!(k in r.span && k != "" && rules.span(k)) ==>
                  (k in once.spanColumns <==> k in r.spanColumns) && (k in r.spanColumns ==> once.spanColumns[k] == r.spanColumns[k]))
            && (k in once.span <==> k in r.span && (k == "" || (!rules.span(k) && !rules.slot(k))))
            && (k in once.span ==> once.span[k] == r.span[k])
  {}

  lemma SlotsRouted(own: string -> bool, slot: string -> bool, m: Routing, k: string)
    ensures var now, moved := AllRouted(own, slot, m), k in m.left && k != "" && !own(k) && slot(k);
            && (moved ==> k in now.slots && now.slots[k] == m.left[k])
            && (!moved ==> (k in now.slots <==> k in m.slots) && (k in m.slots ==> now.slots[k] == m.slots[k]))
  {}

  /** A slot gets the span's value, if both maps have one for it. */
  lemma SlotsRepromoted(rules: TraceRules, r: TraceRow, k: string)
    ensures var once := Repromoted(rules, r);
            var fromSpan := k in r.span && k != "" && !rules.span(k) && rules.slot(k);
            var fromResource := k in r.resource && k != "" && !ToColumn(rules, k) && rules.slot(k);
            && (fromSpan ==> k in once.slots && once.slots[k] == r.span[k])
            && (!fromSpan && fromResource ==> k in once.slots && once.slots[k] == r.resource[k])
            && (!fromSpan && !fromResource ==> (k in once.slots <==> k in r.slots) && (k in r.slots ==> once.slots[k] == r.slots[k]))
  {
    var first := ResourceRouted(rules, r);
    SlotsRouted(ResourceColumn(rules), rules.slot, Routing(r.resourceColumns, r.slots, r.resource), k);
    SlotsRouted(rules.span, rules.slot, Routing(first.spanColumns, first.slots, first.span), k);
  }

  /** The rows' times do not decrease, at one time their services do not, and of one service
      their traces do not. */
  predicate InOrder(a: TraceRow, b: TraceRow) {
    var x := if "service.name" in a.resourceColumns then a.resourceColumns["service.name"] else "";
    var y := if "service.name" in b.resourceColumns then b.resourceColumns["service.name"] else "";
    a.timestamp < b.timestamp
    || (a.timestamp == b.timestamp && (LexLess(x, y) || (x == y && (a.traceId == b.traceId || LexLess(a.traceId, b.traceId)))))
  }

  lemma AscendsInOrder(rows: seq<TraceRow>)
    requires Ascending(TraceLess, rows)
    ensures forall i, j | 0 <= i < j < |rows| :: InOrder(rows[i], rows[j])
  {
    LexIsOrder();
  }
}
