/** How filters are built from a file's values (internal/bloomindex/partitioned.go) and
    how an index is downgraded to a coarser one (internal/bloomindex/tiering.go): the
    filters of a group are united in place into the first of them. */
module BloomTiers {
  import opened Files
  import opened Bloom
  import opened BloomIndex

  // ---- Building --------------------------------------------------------------------

  const MAX_VALUES: nat := 50_000

  /** NewFilter's sizes for a number of values, by its floating-point formula. */
  type Sizing = nat -> (nat, nat)

  ghost predicate Sizes(size: Sizing) {
    forall n: nat :: size(n).0 >= 1 && size(n).1 < 256
  }

  function WithAll(fnv: Hash, f: Filter, values: seq<string>): (r: Filter)
    requires f.Valid()
    ensures r.Valid() && |r.bits| == |f.bits| && r.hashes == f.hashes
  {
    if values == [] then f else With(fnv, WithAll(fnv, f, values[..|values| - 1]), values[|values| - 1])
  }

  lemma {:induction false} WithAllAccepts(fnv: Hash, f: Filter, values: seq<string>, v: string)
    requires f.Valid() && v in values
    ensures Accepts(fnv, WithAll(fnv, f, values), v)
  {
    var n := |values| - 1;
    var before := WithAll(fnv, f, values[..n]);
    AddedIsAccepted(fnv, before, values[n]);
    if v != values[n] {
      assert v in values[..n];
      WithAllAccepts(fnv, f, values[..n], v);
      GrowsAccepts(fnv, before, With(fnv, before, values[n]), v);
    }
  }

  /** The bit is one of the value's in a filter of this shape. */
  ghost predicate Marks(fnv: Hash, value: string, bytes: nat, hashes: nat, q: nat)
    requires bytes >= 1
  {
    exists i: nat | i < hashes :: Position(fnv(value), i, bytes) == q
  }

  ghost predicate SomeMarks(fnv: Hash, values: seq<string>, bytes: nat, hashes: nat, q: nat)
    requires bytes >= 1
  {
    exists v | v in values :: Marks(fnv, v, bytes, hashes, q)
  }

  lemma WithBit(fnv: Hash, f: Filter, value: string, q: nat)
    requires f.Valid() && q < 8 * |f.bits|
    ensures Bit(With(fnv, f, value).bits, q) <==> Bit(f.bits, q) || Marks(fnv, value, |f.bits|, f.hashes, q)
  {
    SetUpToSets(fnv(value), f.bits, f.hashes, q);
  }

  lemma MarksOneMore(fnv: Hash, values: seq<string>, value: string, bytes: nat, hashes: nat, q: nat)
    requires bytes >= 1
    ensures SomeMarks(fnv, values + [value], bytes, hashes, q)
            <==> SomeMarks(fnv, values, bytes, hashes, q) || Marks(fnv, value, bytes, hashes, q)
  {
    if Marks(fnv, value, bytes, hashes, q) { assert value in values + [value]; }
    if v :| v in values && Marks(fnv, v, bytes, hashes, q) { assert v in values + [value]; }
  }

  /** A bit is set afterwards, if and only if it was or is one of a value's. */
  lemma {:induction false} WithAllBits(fnv: Hash, f: Filter, values: seq<string>, q: nat)
    requires f.Valid() && q < 8 * |f.bits|
    ensures Bit(WithAll(fnv, f, values).bits, q) <==> Bit(f.bits, q) || SomeMarks(fnv, values, |f.bits|, f.hashes, q)
    decreases |values|
  {
    if values != [] {
      var n := |values| - 1;
      WithAllBits(fnv, f, values[..n], q);
      WithBit(fnv, WithAll(fnv, f, values[..n]), values[n], q);
      MarksOneMore(fnv, values[..n], values[n], |f.bits|, f.hashes, q);
      assert values == values[..n] + [values[n]];
    }
  }

  /** The filter of a column has the bits of its values and no others. */
  lemma BuiltBits(fnv: Hash, size: Sizing, values: map<string, seq<string>>, c: string, q: nat)
    requires Sizes(size) && c in Built(fnv, size, values)
    ensures var f, shape := Built(fnv, size, values)[c], size(|values[c]|);
            && |f.bits| == shape.0 && f.hashes == shape.1
            && (q < 8 * shape.0 ==> (Bit(f.bits, q) <==> SomeMarks(fnv, values[c], shape.0, shape.1, q)))
  {
    var shape := size(|values[c]|);
    if q < 8 * shape.0 {
      WithAllBits(fnv, Empty(shape.0, shape.1), values[c], q);
      EmptyBits(shape.0, shape.1, q);
    }
  }

  method BuildFilter(fnv: Hash, size: Sizing, values: seq<string>) returns (filter: Filter)
    requires Sizes(size)
    ensures filter == WithAll(fnv, Empty(size(|values|).0, size(|values|).1), values)
  {
    filter := Empty(size(|values|).0, size(|values|).1);
    for i := 0 to |values|
      invariant filter == WithAll(fnv, Empty(size(|values|).0, size(|values|).1), values[..i])
    {
      assert values[..i + 1][..i] == values[..i];
      filter := With(fnv, filter, values[i]);
    }
    assert values[..|values|] == values;
  }

  /** The filters of one file: one for each column of few enough values, all of them in. */
  ghost function Built(fnv: Hash, size: Sizing, values: map<string, seq<string>>): (cols: Columns)
    requires Sizes(size)
    ensures forall c :: c in cols <==> c in values && |values[c]| <= MAX_VALUES
  {
    map c | c in values && |values[c]| <= MAX_VALUES ::
      WithAll(fnv, Empty(size(|values[c]|).0, size(|values[c]|).1), values[c])
  }

  lemma BuiltAccepts(fnv: Hash, size: Sizing, values: map<string, seq<string>>, c: string, v: string)
    requires Sizes(size) && c in Built(fnv, size, values) && v in values[c]
    ensures Built(fnv, size, values)[c].Valid() && Accepts(fnv, Built(fnv, size, values)[c], v)
  {
    WithAllAccepts(fnv, Empty(size(|values[c]|).0, size(|values[c]|).1), values[c], v);
  }

  lemma BuiltFits(fnv: Hash, size: Sizing, values: map<string, seq<string>>)
    requires Sizes(size)
    ensures forall c | c in Built(fnv, size, values) ::
              Built(fnv, size, values)[c].Valid() && forall v | v in values[c] :: Accepts(fnv, Built(fnv, size, values)[c], v)
  {
    forall c | c in Built(fnv, size, values)
      ensures Built(fnv, size, values)[c].Valid() && forall v | v in values[c] :: Accepts(fnv, Built(fnv, size, values)[c], v)
    {
      forall v | v in values[c] ensures Accepts(fnv, Built(fnv, size, values)[c], v) { BuiltAccepts(fnv, size, values, c, v); }
    }
  }

  /** BuildFileColumns: a filter for each column of few enough values, and that filter
      accepts all of them. */
  method BuildFileColumns(fnv: Hash, size: Sizing, values: map<string, seq<string>>) returns (cols: Columns)
    requires Sizes(size)
    ensures cols == Built(fnv, size, values)
    ensures forall c :: c in cols <==> c in values && |values[c]| <= MAX_VALUES
    ensures forall c | c in cols :: cols[c].Valid() && forall v | v in values[c] :: Accepts(fnv, cols[c], v)
  {
    cols := map[];
    var todo := values.Keys;
    while todo != {}
      invariant todo <= values.Keys
      invariant cols == BuiltBut(fnv, size, values, todo)
      decreases todo
    {
      var c :| c in todo;
      BuiltOneMore(fnv, size, values, todo, c);
      todo := todo - {c};
      if |values[c]| > MAX_VALUES { continue; }
      var filter := BuildFilter(fnv, size, values[c]);
      cols := cols[c := filter];
    }
    assert BuiltBut(fnv, size, values, {}) == Built(fnv, size, values);
    BuiltFits(fnv, size, values);
  }

  /** The filters of the columns not to do. */
  ghost function BuiltBut(fnv: Hash, size: Sizing, values: map<string, seq<string>>, todo: set<string>): Columns
    requires Sizes(size)
  {
    var all := Built(fnv, size, values);
    map c | c in all && c !in todo :: all[c]
  }

  lemma BuiltOneMore(fnv: Hash, size: Sizing, values: map<string, seq<string>>, todo: set<string>, c: string)
    requires Sizes(size) && c in todo && c in values
    ensures var all, done := Built(fnv, size, values), BuiltBut(fnv, size, values, todo);
            BuiltBut(fnv, size, values, todo - {c}) == if c in all then done[c := all[c]] else done
  {}

  /** No other unit is found under this unit's own name. */
  ghost predicate OwnKey(fx: Facts, tier: nat, unit: string) {
    forall u | u in fx.units && fx.keyAt(tier, u) == Some(unit) :: u == unit
  }

  /** A file's filters cover it in any index where its key is its own, when the values they
      were built from hold what the file holds. */
  lemma BuiltCovers(fx: Facts, tier: nat, unit: string, size: Sizing, values: map<string, seq<string>>, c: string)
    requires Sizes(size) && c in Built(fx.fnv, size, values) && OwnKey(fx, tier, unit)
    requires forall v | v in fx.content(unit, c) :: v in values[c]
    ensures Covers(fx, tier, unit, c, Built(fx.fnv, size, values)[c])
  {
    forall v | v in fx.content(unit, c) ensures Accepts(fx.fnv, Built(fx.fnv, size, values)[c], v) {
      BuiltAccepts(fx.fnv, size, values, c, v);
    }
  }

  // ---- Downgrading --------------------------------------------------------------------

  /** An index as keys to columns to filter references. */
  type Refs = map<string, map<string, nat>>

  datatype GroupColumn = GroupColumn(group: string, column: string)

  predicate InLists(lists: map<GroupColumn, seq<nat>>, gc: GroupColumn, id: nat) {
    gc in lists && id in lists[gc]
  }

  ghost predicate Member(refs: Refs, h: string -> string, gc: GroupColumn, id: nat) {
    exists k | k in refs :: h(k) == gc.group && gc.column in refs[k] && refs[k][gc.column] == id
  }

  function AddTo(lists: map<GroupColumn, seq<nat>>, gc: GroupColumn, id: nat): map<GroupColumn, seq<nat>> {
    lists[gc := (if gc in lists then lists[gc] else []) + [id]]
  }

  lemma AddToLists(lists: map<GroupColumn, seq<nat>>, gc: GroupColumn, id: nat)
    ensures forall other, i :: InLists(AddTo(lists, gc, id), other, i) <==> InLists(lists, other, i) || (other == gc && i == id)
  {}

  /** The inner loop: one key's filters go to its group's lists. */
  method CollectKey(lists: map<GroupColumn, seq<nat>>, group: string, columns: map<string, nat>)
    returns (r: map<GroupColumn, seq<nat>>)
    requires forall gc | gc in lists :: lists[gc] != []
    ensures forall gc | gc in r :: r[gc] != []
    ensures forall gc, id :: InLists(r, gc, id) <==>
              InLists(lists, gc, id) || (gc.group == group && gc.column in columns && columns[gc.column] == id)
  {
    r := lists;
    var todo := columns.Keys;
    while todo != {}
      invariant todo <= columns.Keys && forall gc | gc in r :: r[gc] != []
      invariant forall gc, id :: InLists(r, gc, id) <==>
                  InLists(lists, gc, id) || (gc.group == group && gc.column in columns.Keys - todo && columns[gc.column] == id)
      decreases todo
    {
      var c :| c in todo;
      AddToLists(r, GroupColumn(group, c), columns[c]);
      r := AddTo(r, GroupColumn(group, c), columns[c]);
      todo := todo - {c};
    }
  }

  ghost predicate MemberOf(refs: Refs, keys: set<string>, h: string -> string, gc: GroupColumn, id: nat) {
    exists k | k in refs && k in keys :: h(k) == gc.group && gc.column in refs[k] && refs[k][gc.column] == id
  }

  method CollectGroups(refs: Refs, h: string -> string) returns (lists: map<GroupColumn, seq<nat>>)
    ensures forall gc | gc in lists :: lists[gc] != []
    ensures forall gc, id :: InLists(lists, gc, id) <==> Member(refs, h, gc, id)
  {
    lists := map[];
    var todo := refs.Keys;
    while todo != {}
      invariant todo <= refs.Keys && forall gc | gc in lists :: lists[gc] != []
      invariant forall gc, id :: InLists(lists, gc, id) <==> MemberOf(refs, refs.Keys - todo, h, gc, id)
      decreases todo
    {
      var k :| k in todo;
      ghost var before, done := lists, refs.Keys - todo;
      lists := CollectKey(lists, h(k), refs[k]);
      todo := todo - {k};
      assert refs.Keys - todo == done + {k};
      forall gc, id ensures InLists(lists, gc, id) <==> MemberOf(refs, done + {k}, h, gc, id) {
        MemberOneMore(refs, done, k, h, gc, id);
      }
    }
    forall gc, id ensures InLists(lists, gc, id) <==> Member(refs, h, gc, id) {
      assert MemberOf(refs, refs.Keys - {}, h, gc, id) <==> Member(refs, h, gc, id);
    }
  }

  lemma MemberOneMore(refs: Refs, done: set<string>, k: string, h: string -> string, gc: GroupColumn, id: nat)
    requires k in refs
    ensures MemberOf(refs, done + {k}, h, gc, id) <==>
              MemberOf(refs, done, h, gc, id) || (h(k) == gc.group && gc.column in refs[k] && refs[k][gc.column] == id)
  {}

  ghost predicate SameShape(f: Filter, g: Filter) {
    |f.bits| == |g.bits| && f.hashes == g.hashes
  }

  lemma UnionAbsorbs(f: Filter, g: Filter)
    requires SameShape(f, g)
    ensures Grows(g, Union(f, g))
  {
    forall q | 0 <= q < 8 * |g.bits| && Bit(g.bits, q) ensures Bit(Union(f, g).bits, q) { UnionBits(f, g, q); }
  }

  /** No filter of the heap loses a bit. */
  ghost predicate AllGrow(before: map<nat, Filter>, after: map<nat, Filter>) {
    after.Keys == before.Keys && forall id | id in before :: Grows(before[id], after[id])
  }

  lemma UnionStep(before: map<nat, Filter>, now: map<nat, Filter>, f: nat, g: nat)
    requires AllGrow(before, now) && f in now && g in now
    ensures AllGrow(before, now[f := Union(now[f], now[g])])
    ensures SameShape(before[f], before[g]) ==> Grows(before[g], Union(now[f], now[g]))
  {
    UnionKeepsOwn(now[f], now[g]);
    if SameShape(before[f], before[g]) { UnionAbsorbs(now[f], now[g]); }
  }

  /** The filter has the bit; one beyond its length it has not. */
  predicate BitAt(f: Filter, q: nat) {
    q < 8 * |f.bits| && Bit(f.bits, q)
  }

  lemma UnionBitAt(f: Filter, g: Filter, q: nat)
    ensures BitAt(Union(f, g), q) <==> q < 8 * |f.bits| && (BitAt(f, q) || BitAt(g, q))
  {
    if q < 8 * |f.bits| { UnionBits(f, g, q); }
  }

  /** Some filter of the list has the bit. */
  ghost predicate SomeHas(filters: map<nat, Filter>, list: seq<nat>, n: nat, q: nat)
    requires n <= |list| && forall id | id in list :: id in filters
  {
    exists i | 0 <= i < n :: BitAt(filters[list[i]], q)
  }

  lemma UnionExact(filters: map<nat, Filter>, now: map<nat, Filter>, list: seq<nat>, n: nat, q: nat)
    requires 0 < n < |list| && now.Keys == filters.Keys && (forall id | id in list :: id in filters)
    requires forall id | id in filters && id != list[0] :: now[id] == filters[id]
    requires |now[list[0]].bits| == |filters[list[0]].bits|
    requires BitAt(now[list[0]], q) <==> q < 8 * |filters[list[0]].bits| && SomeHas(filters, list, n, q)
    ensures BitAt(Union(now[list[0]], now[list[n]]), q) <==> q < 8 * |filters[list[0]].bits| && SomeHas(filters, list, n + 1, q)
  {
    UnionBitAt(now[list[0]], now[list[n]], q);
    assert list[n] in list;
    if list[n] == list[0] && BitAt(filters[list[0]], q) { assert SomeHas(filters, list, n, q); }
    if SomeHas(filters, list, n + 1, q) && !SomeHas(filters, list, n, q) { assert BitAt(filters[list[n]], q); }
  }

  /** The union loop: the first filter of the list takes in the others, in place. */
  method UnionAll(filters: map<nat, Filter>, list: seq<nat>) returns (r: map<nat, Filter>)
    requires list != [] && forall id | id in list :: id in filters
    ensures AllGrow(filters, r)
    ensures forall id | id in list && SameShape(filters[list[0]], filters[id]) :: Grows(filters[id], r[list[0]])
    ensures forall id | id in filters && id != list[0] :: r[id] == filters[id]
    ensures forall q: nat :: BitAt(r[list[0]], q) <==> q < 8 * |filters[list[0]].bits| && SomeHas(filters, list, |list|, q)
  {
    r := filters;
    for i := 1 to |list|
      invariant AllGrow(filters, r)
      invariant forall id | id in filters && id != list[0] :: r[id] == filters[id]
      invariant forall q: nat :: BitAt(r[list[0]], q) <==> q < 8 * |filters[list[0]].bits| && SomeHas(filters, list, i, q)
      invariant forall j | 0 <= j < i && SameShape(filters[list[0]], filters[list[j]]) :: Grows(filters[list[j]], r[list[0]])
    {
      UnionStep(filters, r, list[0], list[i]);
      var union := Union(r[list[0]], r[list[i]]);
      UnionKeepsOwn(r[list[0]], r[list[i]]);
      forall q: nat ensures BitAt(union, q) <==> q < 8 * |filters[list[0]].bits| && SomeHas(filters, list, i + 1, q) {
        UnionExact(filters, r, list, i, q);
      }
      r := r[list[0] := union];
    }
  }

  /** The group's first filter has taken in every filter of the list that has its shape. */
  ghost predicate Absorbed(filters: map<nat, Filter>, now: map<nat, Filter>, list: seq<nat>)
    requires list != [] && (forall id | id in list :: id in filters) && filters.Keys == now.Keys
  {
    forall id | id in list && SameShape(filters[list[0]], filters[id]) :: Grows(filters[id], now[list[0]])
  }

  lemma AbsorbedGrows(filters: map<nat, Filter>, now: map<nat, Filter>, next: map<nat, Filter>, list: seq<nat>)
    requires list != [] && (forall id | id in list :: id in filters) && filters.Keys == now.Keys
    requires Absorbed(filters, now, list) && AllGrow(now, next)
    ensures Absorbed(filters, next, list)
  {
    assert list[0] in list;
  }

  lemma AbsorbedNow(filters: map<nat, Filter>, now: map<nat, Filter>, next: map<nat, Filter>, list: seq<nat>)
    requires list != [] && (forall id | id in list :: id in filters) && AllGrow(filters, now) && AllGrow(now, next)
    requires Absorbed(now, next, list)
    ensures Absorbed(filters, next, list)
  {
    assert list[0] in list;
  }

  predicate Entry(refs: Refs, gc: GroupColumn) {
    gc.group in refs && gc.column in refs[gc.group]
  }

  function AddRef(refs: Refs, gc: GroupColumn, id: nat): Refs {
    refs[gc.group := (if gc.group in refs then refs[gc.group] else map[])[gc.column := id]]
  }

  lemma AddRefEntry(refs: Refs, gc: GroupColumn, id: nat, other: GroupColumn)
    ensures Entry(AddRef(refs, gc, id), other) <==> other == gc || Entry(refs, other)
    ensures Entry(AddRef(refs, gc, id), gc) && AddRef(refs, gc, id)[gc.group][gc.column] == id
    ensures other != gc && Entry(refs, other) ==>
              AddRef(refs, gc, id)[other.group][other.column] == refs[other.group][other.column]
  {}

  /** What the second loop has done for the groups behind it. */
  ghost predicate Unioned(filters: map<nat, Filter>, now: map<nat, Filter>, lists: map<GroupColumn, seq<nat>>, merged: Refs, done: set<GroupColumn>) {
    && (forall gc | gc in lists :: lists[gc] != [] && forall id | id in lists[gc] :: id in filters)
    && AllGrow(filters, now) && done <= lists.Keys
    && (forall gc :: Entry(merged, gc) <==> gc in done)
    && (forall gc | gc in done :: merged[gc.group][gc.column] == lists[gc][0] && Absorbed(filters, now, lists[gc]))
  }

  lemma UnionedOneMore(
    filters: map<nat, Filter>, now: map<nat, Filter>, next: map<nat, Filter>, lists: map<GroupColumn, seq<nat>>,
    merged: Refs, done: set<GroupColumn>, gc: GroupColumn)
    requires Unioned(filters, now, lists, merged, done) && gc in lists && gc !in done
    requires AllGrow(now, next) && Absorbed(now, next, lists[gc])
    ensures Unioned(filters, next, lists, AddRef(merged, gc, lists[gc][0]), done + {gc})
  {
    forall other ensures Entry(AddRef(merged, gc, lists[gc][0]), other) <==> other in done + {gc} {
      AddRefEntry(merged, gc, lists[gc][0], other);
    }
    forall other | other in done + {gc}
      ensures AddRef(merged, gc, lists[gc][0])[other.group][other.column] == lists[other][0]
      ensures Absorbed(filters, next, lists[other])
    {
      AddRefEntry(merged, gc, lists[gc][0], other);
      if other == gc {
        AbsorbedNow(filters, now, next, lists[gc]);
      } else {
        AbsorbedGrows(filters, now, next, lists[other]);
      }
    }
  }

  // ---- Nothing but the group's bits ------------------------------------------------------

  /** With the filter that takes in a group, the set holds the whole group. */
  ghost predicate Fed(lists: map<GroupColumn, seq<nat>>, s: set<nat>) {
    forall gc | gc in lists && lists[gc] != [] && lists[gc][0] in s :: forall id | id in lists[gc] :: id in s
  }

  ghost predicate AnyHas(filters: map<nat, Filter>, s: set<nat>, q: nat) {
    exists id | id in s :: id in filters && BitAt(filters[id], q)
  }

  /** The filters of such a set have no bit that none of them had. */
  ghost predicate FromWithin(filters: map<nat, Filter>, now: map<nat, Filter>, s: set<nat>) {
    forall id, q: nat | id in s && id in now && BitAt(now[id], q) :: AnyHas(filters, s, q)
  }

  /** The group's first filter has every bit of the group that it has room for. */
  ghost predicate TakenIn(filters: map<nat, Filter>, now: map<nat, Filter>, list: seq<nat>) {
    list != [] && list[0] in now &&
    forall id, q: nat | id in list && id in filters && q < 8 * |now[list[0]].bits| && BitAt(filters[id], q) :: BitAt(now[list[0]], q)
  }

  /** What is exact about the second loop. */
  ghost predicate Exact(filters: map<nat, Filter>, now: map<nat, Filter>, lists: map<GroupColumn, seq<nat>>, done: set<GroupColumn>) {
    && now.Keys == filters.Keys && done <= lists.Keys
    && (forall id | id in filters && now[id] != filters[id] :: exists gc | gc in done :: lists[gc] != [] && lists[gc][0] == id)
    && (forall s | Fed(lists, s) :: FromWithin(filters, now, s))
    && (forall gc | gc in done :: TakenIn(filters, now, lists[gc]))
  }

  lemma ExactNothing(filters: map<nat, Filter>, lists: map<GroupColumn, seq<nat>>)
    ensures Exact(filters, filters, lists, {})
  {
    forall s | Fed(lists, s) ensures FromWithin(filters, filters, s) {}
  }

  /** One group more: what UnionAll did to its list. */
  ghost predicate United(now: map<nat, Filter>, next: map<nat, Filter>, list: seq<nat>) {
    && list != [] && (forall id | id in list :: id in now) && AllGrow(now, next)
    && (forall id | id in now && id != list[0] :: next[id] == now[id])
    && (forall q: nat :: BitAt(next[list[0]], q) <==> q < 8 * |now[list[0]].bits| && SomeHas(now, list, |list|, q))
  }

  lemma WithinOneMore(
    filters: map<nat, Filter>, now: map<nat, Filter>, next: map<nat, Filter>, lists: map<GroupColumn, seq<nat>>, gc: GroupColumn, s: set<nat>)
    requires gc in lists && United(now, next, lists[gc]) && Fed(lists, s) && FromWithin(filters, now, s)
    ensures FromWithin(filters, next, s)
  {
    var list := lists[gc];
    forall id, q: nat | id in s && id in next && BitAt(next[id], q) ensures AnyHas(filters, s, q) {
      if id == list[0] {
        var i :| 0 <= i < |list| && BitAt(now[list[i]], q);
        assert list[i] in list && list[i] in s && list[i] in now;
      } else {
        assert BitAt(now[id], q);
      }
    }
  }

  lemma TakenInGrows(filters: map<nat, Filter>, now: map<nat, Filter>, next: map<nat, Filter>, list: seq<nat>)
    requires TakenIn(filters, now, list) && AllGrow(now, next)
    ensures TakenIn(filters, next, list)
  {
    assert Grows(now[list[0]], next[list[0]]);
    forall id, q: nat | id in list && id in filters && q < 8 * |next[list[0]].bits| && BitAt(filters[id], q)
      ensures BitAt(next[list[0]], q)
    {
      assert BitAt(now[list[0]], q);
    }
  }

  lemma TakenInNow(filters: map<nat, Filter>, now: map<nat, Filter>, next: map<nat, Filter>, list: seq<nat>)
    requires United(now, next, list) && AllGrow(filters, now)
    ensures TakenIn(filters, next, list)
  {
    assert list[0] in list && Grows(now[list[0]], next[list[0]]);
    forall id, q: nat | id in list && id in filters && q < 8 * |next[list[0]].bits| && BitAt(filters[id], q)
      ensures BitAt(next[list[0]], q)
    {
      assert Grows(filters[id], now[id]) && BitAt(now[id], q);
      var i :| 0 <= i < |list| && list[i] == id;
      assert SomeHas(now, list, |list|, q);
    }
  }

  lemma ExactOneMore(
    filters: map<nat, Filter>, now: map<nat, Filter>, next: map<nat, Filter>, lists: map<GroupColumn, seq<nat>>,
    done: set<GroupColumn>, gc: GroupColumn)
    requires Exact(filters, now, lists, done) && AllGrow(filters, now) && gc in lists && United(now, next, lists[gc])
    ensures Exact(filters, next, lists, done + {gc})
  {
    forall s | Fed(lists, s) ensures FromWithin(filters, next, s) { WithinOneMore(filters, now, next, lists, gc, s); }
    forall other | other in done + {gc} ensures TakenIn(filters, next, lists[other]) {
      if other in done { TakenInGrows(filters, now, next, lists[other]); } else { TakenInNow(filters, now, next, lists[gc]); }
    }
    forall id | id in filters && next[id] != filters[id]
      ensures exists other | other in done + {gc} :: lists[other] != [] && lists[other][0] == id
    {
      if id == lists[gc][0] {
        assert gc in done + {gc};
      } else {
        var other :| other in done && lists[other] != [] && lists[other][0] == id;
        assert other in done + {gc};
      }
    }
  }

  ghost predicate Resolves(refs: Refs, filters: map<nat, Filter>) {
    forall k, c | k in refs && c in refs[k] :: refs[k][c] in filters
  }

  method UnionGroups(filters: map<nat, Filter>, lists: map<GroupColumn, seq<nat>>) returns (now: map<nat, Filter>, merged: Refs)
    requires forall gc | gc in lists :: lists[gc] != [] && forall id | id in lists[gc] :: id in filters
    ensures Unioned(filters, now, lists, merged, lists.Keys) && Exact(filters, now, lists, lists.Keys)
  {
    now, merged := filters, map[];
    var todo := lists.Keys;
    assert lists.Keys - todo == {};
    ExactNothing(filters, lists);
    while todo != {}
      invariant todo <= lists.Keys && Unioned(filters, now, lists, merged, lists.Keys - todo)
      invariant Exact(filters, now, lists, lists.Keys - todo)
      decreases todo
    {
      var gc :| gc in todo;
      var next := UnionAll(now, lists[gc]);
      UnionedOneMore(filters, now, next, lists, merged, lists.Keys - todo, gc);
      ExactOneMore(filters, now, next, lists, lists.Keys - todo, gc);
      assert lists.Keys - todo + {gc} == lists.Keys - (todo - {gc});
      now, merged, todo := next, AddRef(merged, gc, lists[gc][0]), todo - {gc};
    }
    assert lists.Keys - todo == lists.Keys;
  }

  /** All filters of one group and column have one length and one hash count. */
  ghost predicate OneShape(filters: map<nat, Filter>, refs: Refs, h: string -> string, gc: GroupColumn) {
    forall i, j | Member(refs, h, gc, i) && Member(refs, h, gc, j) && i in filters && j in filters :: SameShape(filters[i], filters[j])
  }

  /** What a downgrade leaves: no filter of the old index lost a bit, the new index has
      exactly the groups and columns of the old one, and (where the shapes agree) each of
      its filters has every bit of every filter of its group. */
  ghost predicate Downgraded(filters: map<nat, Filter>, refs: Refs, h: string -> string, now: map<nat, Filter>, merged: Refs)
    requires Resolves(refs, filters)
  {
    && AllGrow(filters, now) && Resolves(merged, now)
    && (forall gc :: Entry(merged, gc) <==> exists id :: Member(refs, h, gc, id))
    && (forall k, c | k in refs && c in refs[k] && OneShape(filters, refs, h, GroupColumn(h(k), c)) ::
          Entry(merged, GroupColumn(h(k), c)) && Grows(filters[refs[k][c]], now[merged[h(k)][c]]))
  }

  /** The set holds, with a filter that takes in a group, the filters of the whole group. */
  ghost predicate Closed(refs: Refs, h: string -> string, merged: Refs, s: set<nat>) {
    forall gc, id | Entry(merged, gc) && merged[gc.group][gc.column] in s && Member(refs, h, gc, id) :: id in s
  }

  /** A downgrade leaves nothing but its groups' bits: each group's new filter is one of its
      own and has every bit of the group it has room for; filters that take in no group are
      unchanged; and where a set of filters holds every group that one of them takes in,
      they have no bit that none of them had. */
  ghost predicate OnlyGroupBits(filters: map<nat, Filter>, refs: Refs, h: string -> string, now: map<nat, Filter>, merged: Refs) {
    && now.Keys == filters.Keys
    && (forall gc | Entry(merged, gc) :: Member(refs, h, gc, merged[gc.group][gc.column]))
    && (forall id | id in filters && now[id] != filters[id] :: exists gc :: Entry(merged, gc) && merged[gc.group][gc.column] == id)
    && (forall s | Closed(refs, h, merged, s) :: FromWithin(filters, now, s))
    && (forall gc, id, q: nat | Entry(merged, gc) && Member(refs, h, gc, id) && id in filters && merged[gc.group][gc.column] in now
          && q < 8 * |now[merged[gc.group][gc.column]].bits| && BitAt(filters[id], q) :: BitAt(now[merged[gc.group][gc.column]], q))
  }

  lemma ExactIsOnlyGroupBits(
    filters: map<nat, Filter>, refs: Refs, h: string -> string, lists: map<GroupColumn, seq<nat>>, now: map<nat, Filter>, merged: Refs)
    requires Unioned(filters, now, lists, merged, lists.Keys) && Exact(filters, now, lists, lists.Keys)
    requires forall gc, id :: InLists(lists, gc, id) <==> Member(refs, h, gc, id)
    ensures OnlyGroupBits(filters, refs, h, now, merged)
  {
    forall gc | Entry(merged, gc) ensures Member(refs, h, gc, merged[gc.group][gc.column]) {
      assert InLists(lists, gc, lists[gc][0]);
    }
    forall id | id in filters && now[id] != filters[id] ensures exists gc :: Entry(merged, gc) && merged[gc.group][gc.column] == id {
      var gc :| gc in lists && lists[gc] != [] && lists[gc][0] == id;
      assert Entry(merged, gc);
    }
    forall s | Closed(refs, h, merged, s) ensures FromWithin(filters, now, s) { ClosedIsFed(filters, refs, h, lists, now, merged, s); }
    forall gc, id, q: nat | Entry(merged, gc) && Member(refs, h, gc, id) && id in filters
          && q < 8 * |now[merged[gc.group][gc.column]].bits| && BitAt(filters[id], q)
      ensures BitAt(now[merged[gc.group][gc.column]], q)
    {
      assert InLists(lists, gc, id) && TakenIn(filters, now, lists[gc]);
    }
  }

  lemma ClosedIsFed(
    filters: map<nat, Filter>, refs: Refs, h: string -> string, lists: map<GroupColumn, seq<nat>>, now: map<nat, Filter>, merged: Refs,
    s: set<nat>)
    requires Unioned(filters, now, lists, merged, lists.Keys)
    requires forall gc, id :: InLists(lists, gc, id) <==> Member(refs, h, gc, id)
    requires Closed(refs, h, merged, s)
    ensures Fed(lists, s)
  {
    forall gc, id | gc in lists && lists[gc][0] in s && id in lists[gc] ensures id in s {
      assert Entry(merged, gc) && InLists(lists, gc, id);
    }
  }

  /** No filter belongs to two groups. */
  ghost predicate Separate(refs: Refs, h: string -> string) {
    forall a, b, id | Member(refs, h, a, id) && Member(refs, h, b, id) :: a == b
  }

  /** Then a bit of a group's new filter is set, if and only if a filter of the group had it. */
  lemma UnitedExactly(
    filters: map<nat, Filter>, refs: Refs, h: string -> string, now: map<nat, Filter>, merged: Refs, gc: GroupColumn, q: nat)
    requires Resolves(refs, filters) && Downgraded(filters, refs, h, now, merged) && OnlyGroupBits(filters, refs, h, now, merged)
    requires Separate(refs, h) && Entry(merged, gc)
    ensures var head := merged[gc.group][gc.column];
            && head in filters && now[head].hashes == filters[head].hashes && |now[head].bits| == |filters[head].bits|
            && (BitAt(now[head], q) <==>
                q < 8 * |filters[head].bits| && exists id :: Member(refs, h, gc, id) && id in filters && BitAt(filters[id], q))
  {
    var head := merged[gc.group][gc.column];
    assert Grows(filters[head], now[head]);
    var s := set id | id in filters && Member(refs, h, gc, id);
    assert Closed(refs, h, merged, s) by {
      forall other, id | Entry(merged, other) && merged[other.group][other.column] in s && Member(refs, h, other, id) ensures id in s {
        assert other == gc;
      }
    }
    if BitAt(now[head], q) { assert AnyHas(filters, s, q); }
  }

  /** DowngradeToPerFile and DowngradeToSummary, which differ in the grouping only. */
  method Downgrade(filters: map<nat, Filter>, refs: Refs, h: string -> string) returns (now: map<nat, Filter>, merged: Refs)
    requires Resolves(refs, filters)
    ensures Downgraded(filters, refs, h, now, merged) && OnlyGroupBits(filters, refs, h, now, merged)
  {
    var lists := CollectGroups(refs, h);
    forall gc, id | gc in lists && id in lists[gc] ensures id in filters {
      assert InLists(lists, gc, id);
    }
    now, merged := UnionGroups(filters, lists);
    UnionedIsDowngraded(filters, refs, h, lists, now, merged);
    ExactIsOnlyGroupBits(filters, refs, h, lists, now, merged);
  }

  lemma UnionedIsDowngraded(
    filters: map<nat, Filter>, refs: Refs, h: string -> string, lists: map<GroupColumn, seq<nat>>, now: map<nat, Filter>, merged: Refs)
    requires Resolves(refs, filters) && Unioned(filters, now, lists, merged, lists.Keys)
    requires forall gc, id :: InLists(lists, gc, id) <==> Member(refs, h, gc, id)
    ensures Downgraded(filters, refs, h, now, merged)
  {
    forall gc ensures Entry(merged, gc) <==> exists id :: Member(refs, h, gc, id) {
      SameGroups(refs, h, lists, gc);
    }
    forall k, c | k in merged && c in merged[k] ensures merged[k][c] in now {
      assert Entry(merged, GroupColumn(k, c));
      assert lists[GroupColumn(k, c)][0] in lists[GroupColumn(k, c)];
    }
    forall k, c | k in refs && c in refs[k] && OneShape(filters, refs, h, GroupColumn(h(k), c))
      ensures Entry(merged, GroupColumn(h(k), c)) && Grows(filters[refs[k][c]], now[merged[h(k)][c]])
    {
      GroupAbsorbed(filters, refs, h, lists, now, merged, k, c);
    }
  }

  lemma SameGroups(refs: Refs, h: string -> string, lists: map<GroupColumn, seq<nat>>, gc: GroupColumn)
    requires gc in lists ==> lists[gc] != []
    requires forall id :: InLists(lists, gc, id) <==> Member(refs, h, gc, id)
    ensures gc in lists <==> exists id :: Member(refs, h, gc, id)
  {
    if gc in lists { assert InLists(lists, gc, lists[gc][0]); }
    if id :| Member(refs, h, gc, id) { assert InLists(lists, gc, id); }
  }

  lemma GroupAbsorbed(
    filters: map<nat, Filter>, refs: Refs, h: string -> string, lists: map<GroupColumn, seq<nat>>, now: map<nat, Filter>, merged: Refs,
    k: string, c: string)
    requires Resolves(refs, filters) && Unioned(filters, now, lists, merged, lists.Keys)
    requires forall gc, id :: InLists(lists, gc, id) <==> Member(refs, h, gc, id)
    requires k in refs && c in refs[k] && OneShape(filters, refs, h, GroupColumn(h(k), c))
    ensures Entry(merged, GroupColumn(h(k), c)) && merged[h(k)][c] in now && Grows(filters[refs[k][c]], now[merged[h(k)][c]])
  {
    var gc, id := GroupColumn(h(k), c), refs[k][c];
    assert Member(refs, h, gc, id);
    assert InLists(lists, gc, id) && InLists(lists, gc, lists[gc][0]);
    assert Entry(merged, gc);
  }
}
