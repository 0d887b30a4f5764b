/** What a downgrade is worth (internal/bloomindex/tiering.go): when the coarser index
    still skips no file that holds the value, and the row-group keys it groups by. */
module BloomDowngrades {
  import opened Files
  import opened Bloom
  import opened BloomIndex
  import opened BloomTiers

  // ---- Soundness ------------------------------------------------------------------

  /** The index covers its units: each registered filter accepts their values. */
  ghost predicate Covered(fx: Facts, tier: nat, filters: map<nat, Filter>, refs: Refs)
    requires Resolves(refs, filters)
  {
    forall k, c | k in refs && c in refs[k] :: Covers(fx, tier, k, c, filters[refs[k][c]])
  }

  /** The index has a filter for this column of the unit. */
  predicate HasFilter(fx: Facts, tier: nat, refs: Refs, u: string, column: string) {
    fx.keyAt(tier, u).Some? && Entry(refs, GroupColumn(fx.keyAt(tier, u).value, column))
  }

  /** Every unit of the group has a filter for the column. */
  ghost predicate Complete(fx: Facts, tier: nat, coarse: nat, refs: Refs, gc: GroupColumn) {
    forall u | u in fx.units && fx.keyAt(coarse, u) == Some(gc.group) :: HasFilter(fx, tier, refs, u, gc.column)
  }

  /** Every unit of the group that holds values of the column has a filter for it. */
  ghost predicate Filled(fx: Facts, tier: nat, coarse: nat, refs: Refs, gc: GroupColumn) {
    forall u | u in fx.units && fx.keyAt(coarse, u) == Some(gc.group) && fx.content(u, gc.column) != {} ::
      HasFilter(fx, tier, refs, u, gc.column)
  }

  /** The coarse tier is about some of the fine tier's units, and groups them by `h`. */
  ghost predicate Coarser(fx: Facts, tier: nat, coarse: nat, h: string -> string) {
    forall u | u in fx.units && fx.keyAt(coarse, u).Some? ::
      fx.keyAt(tier, u).Some? && fx.keyAt(coarse, u).value == h(fx.keyAt(tier, u).value)
  }

  /** The downgraded filter covers its group when the filters have one shape and no
      unit of the group that holds values is without one. */
  lemma DowngradeCovers(
    fx: Facts, tier: nat, coarse: nat, filters: map<nat, Filter>, refs: Refs, h: string -> string,
    now: map<nat, Filter>, merged: Refs, gc: GroupColumn)
    requires Resolves(refs, filters) && Covered(fx, tier, filters, refs) && Coarser(fx, tier, coarse, h)
    requires Downgraded(filters, refs, h, now, merged) && Entry(merged, gc)
    requires OneShape(filters, refs, h, gc) && Filled(fx, tier, coarse, refs, gc)
    ensures Covers(fx, coarse, gc.group, gc.column, now[merged[gc.group][gc.column]])
  {
    var f := now[merged[gc.group][gc.column]];
    var id :| Member(refs, h, gc, id);
    var k :| k in refs && h(k) == gc.group && gc.column in refs[k] && refs[k][gc.column] == id;
    assert Covers(fx, tier, k, gc.column, filters[id]) && Grows(filters[id], f);
    forall u, v | u in fx.units && fx.keyAt(coarse, u) == Some(gc.group) && v in fx.content(u, gc.column) ensures Accepts(fx.fnv, f, v) {
      assert HasFilter(fx, tier, refs, u, gc.column);
      var key := fx.keyAt(tier, u).value;
      assert Covers(fx, tier, key, gc.column, filters[refs[key][gc.column]]);
      GrowsAccepts(fx.fnv, filters[refs[key][gc.column]], f, v);
    }
  }

  /** The downgraded filter is safe: whatever the units hold, as long as the old index
      covers it, the new filter covers it too. */
  ghost predicate SafeDowngrade(
    fx: Facts, tier: nat, coarse: nat, filters: map<nat, Filter>, refs: Refs, gc: GroupColumn, f: Filter)
    requires Resolves(refs, filters)
  {
    forall content: (string, string) -> set<string> ::
      Covered(fx.(content := content), tier, filters, refs) ==> Covers(fx.(content := content), coarse, gc.group, gc.column, f)
  }

  function Only(unit: string, column: string, value: string): (string, string) -> set<string> {
    (u: string, c: string) => if u == unit && c == column then {value} else {}
  }

  /** A value of a unit without a filter, which the united filter does not accept, is
      lost: the index was conservative about that unit and no longer is. */
  lemma UncoveredUnitIsLost(
    fx: Facts, tier: nat, coarse: nat, filters: map<nat, Filter>, refs: Refs, h: string -> string,
    gc: GroupColumn, f: Filter, unit: string, value: string)
    requires Resolves(refs, filters) && Coarser(fx, tier, coarse, h) && f.Valid() && !Accepts(fx.fnv, f, value)
    requires forall k, c | k in refs && c in refs[k] :: filters[refs[k][c]].Valid()
    requires unit in fx.units && fx.keyAt(coarse, unit) == Some(gc.group) && !HasFilter(fx, tier, refs, unit, gc.column)
    ensures !SafeDowngrade(fx, tier, coarse, filters, refs, gc, f)
  {
    var content := Only(unit, gc.column, value);
    var fx' := fx.(content := content);
    forall k, c | k in refs && c in refs[k] ensures Covers(fx', tier, k, c, filters[refs[k][c]]) {
      assert Entry(refs, GroupColumn(k, c));
    }
    assert Covered(fx', tier, filters, refs);
    assert value in content(unit, gc.column) && fx'.keyAt(coarse, unit) == Some(gc.group);
    assert !Covers(fx', coarse, gc.group, gc.column, f);
  }

  /** Exactly when a downgrade with filters of one shape is safe: every unit of the
      group has a filter for the column, or the united filter accepts everything. A
      column too large for a filter in one row group breaks it for the whole file. */
  lemma SafeDowngradeIff(
    fx: Facts, tier: nat, coarse: nat, filters: map<nat, Filter>, refs: Refs, h: string -> string,
    now: map<nat, Filter>, merged: Refs, gc: GroupColumn)
    requires Resolves(refs, filters) && Coarser(fx, tier, coarse, h)
    requires forall k, c | k in refs && c in refs[k] :: filters[refs[k][c]].Valid()
    requires Downgraded(filters, refs, h, now, merged) && Entry(merged, gc) && OneShape(filters, refs, h, gc)
    ensures now[merged[gc.group][gc.column]].Valid()
    ensures SafeDowngrade(fx, tier, coarse, filters, refs, gc, now[merged[gc.group][gc.column]])
            <==> Complete(fx, tier, coarse, refs, gc) || forall v :: Accepts(fx.fnv, now[merged[gc.group][gc.column]], v)
  {
    var f := now[merged[gc.group][gc.column]];
    var id :| Member(refs, h, gc, id);
    var k :| k in refs && h(k) == gc.group && gc.column in refs[k] && refs[k][gc.column] == id;
    assert Grows(filters[id], f);
    if Complete(fx, tier, coarse, refs, gc) {
      CompleteIsSafe(fx, tier, coarse, filters, refs, h, now, merged, gc);
    } else {
      var u :| u in fx.units && fx.keyAt(coarse, u) == Some(gc.group) && !HasFilter(fx, tier, refs, u, gc.column);
      forall v | !Accepts(fx.fnv, f, v) ensures !SafeDowngrade(fx, tier, coarse, filters, refs, gc, f) {
        UncoveredUnitIsLost(fx, tier, coarse, filters, refs, h, gc, f, u, v);
      }
    }
  }

  lemma CompleteIsSafe(
    fx: Facts, tier: nat, coarse: nat, filters: map<nat, Filter>, refs: Refs, h: string -> string,
    now: map<nat, Filter>, merged: Refs, gc: GroupColumn)
    requires Resolves(refs, filters) && Coarser(fx, tier, coarse, h) && Complete(fx, tier, coarse, refs, gc)
    requires Downgraded(filters, refs, h, now, merged) && Entry(merged, gc) && OneShape(filters, refs, h, gc)
    ensures SafeDowngrade(fx, tier, coarse, filters, refs, gc, now[merged[gc.group][gc.column]])
  {
    forall content: (string, string) -> set<string> | Covered(fx.(content := content), tier, filters, refs)
      ensures Covers(fx.(content := content), coarse, gc.group, gc.column, now[merged[gc.group][gc.column]])
    {
      DowngradeCovers(fx.(content := content), tier, coarse, filters, refs, h, now, merged, gc);
    }
  }
}
