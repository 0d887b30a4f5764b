/** Concrete runs in which something the protocol relies on, and does not check, fails:
    each failure comes one step after a legal run. */
module ProtocolLimits {
  import opened Catalog
  import opened Sums
  import opened Protocol
  import opened ProtocolRuns
  import opened ProtocolRaw
  import opened ProtocolOwed

  lemma {:induction false} Extend(w: World, run: seq<Action>, a: Action)
    requires Legal(w, run) && Enabled(Exec(w, run), a) && Sound(Exec(w, run), a)
    ensures Legal(w, run + [a]) && Exec(w, run + [a]) == Step(Exec(w, run), a)
    ensures Flushed(run + [a]) == Flushed(run) + Brings(a)
    decreases |run|
  {
    if run == [] {
      assert run + [a] == [a];
      JustOne(w, a);
    } else {
      assert (run + [a])[0] == run[0] && (run + [a])[1..] == run[1..] + [a];
      Extend(Step(w, run[0]), run[1..], a);
    }
  }

  lemma JustOne(w: World, a: Action)
    requires Enabled(w, a) && Sound(w, a)
    ensures Legal(w, [a]) && Exec(w, [a]) == Step(w, a) && Flushed([a]) == Brings(a)
  {
    assert [a][1..] == [];
    assert Exec(w, [a]) == Exec(Step(w, a), []);
    assert Flushed([a]) == Brings(a) + Flushed([]);
  }

  /** `w` is reached by a legal run of flushes and merges that brought in `rows`. */
  ghost predicate Reached(run: seq<Action>, w: World, rows: multiset<Row>) {
    Legal(INIT, run) && w == Exec(INIT, run) && Flushed(run) == rows
  }

  /** One more step. */
  lemma Then(run: seq<Action>, w: World, rows: multiset<Row>, a: Action) returns (more: seq<Action>, w': World)
    requires Reached(run, w, rows) && Enabled(w, a) && Sound(w, a)
    ensures w' == Step(w, a) && Reached(more, w', rows + Brings(a))
    ensures OnlyCompacts(run) && !a.LetGo? && (a.Start? ==> !a.rewrite) ==> OnlyCompacts(more)
  {
    Extend(INIT, run, a);
    more, w' := run + [a], Step(w, a);
  }

  lemma ReachedOk(run: seq<Action>, w: World, rows: multiset<Row>)
    requires Reached(run, w, rows)
    ensures Inv(w) && (OnlyCompacts(run) ==> Rows(w) == rows)
  {
    InitOk();
    RunKeeps(INIT, run);
    RowsConserved(run);
  }

  const ENTRY := Entry("p", 1)

  lemma NothingButOne<K, V>(m: map<K, V>, k: K)
    requires m.Keys <= {k}
    ensures m - {k} == map[]
  {}

  // ---- Merging one object ---------------------------------------------------------------

  /** A flush of one object, registered. */
  ghost predicate OneFlushed(w: World, a: Key, rows: multiset<Row>) {
    && w.t == EMPTY.(live := map[a := ENTRY], adds := map[a := 0]) && w.archive == map[a := rows] && w.stored == {a}
    && w.clock == 0 && w.flushing == map[] && w.jobs == map[] && w.listings == map[] && w.deletes == map[] && w.gone == {}
  }

  lemma FlushedOne(a: Key, rows: multiset<Row>) returns (run: seq<Action>, w: World)
    ensures Reached(run, w, rows) && OnlyCompacts(run) && OneFlushed(w, a, rows)
  {
    run, w := UploadOne(a, rows);
    var flushed := w;
    run, w := Then(run, w, rows, FlushRegister(a));
    NothingButOne(flushed.flushing, a);
    assert w.t.retired == map[];
  }

  lemma UploadOne(a: Key, rows: multiset<Row>) returns (run: seq<Action>, w: World)
    ensures Reached(run, w, rows) && OnlyCompacts(run)
    ensures w == INIT.(archive := map[a := rows], stored := {a}, flushing := map[a := ENTRY], expected := rows)
  {
    run, w := Then([], INIT, multiset{}, FlushUpload(a, rows, ENTRY));
  }

  ghost predicate MergingOne(w: World, a: Key, rows: multiset<Row>, phase: Phase) {
    && w.clock == 0 && w.listings == map[] && w.t.held == {} && w.t.retired == map[]
    && w.t.live == map[a := ENTRY] && w.t.adds == map[a := 0]
    && w.jobs.Keys == {0} && w.jobs[0] == Job("p", {a}, map[a := 1], false, phase)
    && a in w.archive && w.archive[a] == rows && a in w.stored
  }

  /** Read by a merge. */
  lemma ReadOne(a: Key, rows: multiset<Row>) returns (run: seq<Action>, w: World)
    ensures Reached(run, w, rows) && OnlyCompacts(run) && MergingOne(w, a, rows, Reading({a}))
    ensures w.t.pending == {} && w.archive.Keys == {a} && w.stored == {a}
  {
    run, w := FlushedOne(a, rows);
    run, w := Then(run, w, rows, Start(0, "p", {a}, false));
    assert w.jobs[0].planned == map[a := 1];
    run, w := Then(run, w, rows, Read(0, a));
    assert w.jobs[0].phase.read == {a};
  }

  lemma ClaimedOne(a: Key, b: Key, rows: multiset<Row>) returns (run: seq<Action>, w: World)
    requires a != b && b != ""
    ensures Reached(run, w, rows) && OnlyCompacts(run) && MergingOne(w, a, rows, Claimed(b))
    ensures w.t.pending == {b} && w.archive.Keys == {a} && w.stored == {a}
  {
    run, w := ReadOne(a, rows);
    run, w := Then(run, w, rows, Claim(0, b));
  }

  /** Claimed and uploaded: the output is a second copy of the rows. */
  lemma UploadedOne(a: Key, b: Key, rows: multiset<Row>) returns (run: seq<Action>, w: World)
    requires a != b && b != ""
    ensures Reached(run, w, rows) && OnlyCompacts(run) && MergingOne(w, a, rows, Uploaded(b))
    ensures w.t.pending == {b} && w.archive.Keys == {a, b} && w.archive[b] == rows && w.stored == {a, b}
  {
    run, w := ClaimedOne(a, b, rows);
    SumTake(w.archive, {a}, a);
    assert {a} - {a} == {};
    run, w := Then(run, w, rows, Upload(0, rows));
  }

  /** Published; the delete of the source has not landed. */
  ghost predicate SourceRetired(w: World, a: Key, b: Key, rows: multiset<Row>) {
    && w.archive.Keys == {a, b} && w.archive[a] == rows && w.archive[b] == rows && w.stored == {a, b}
    && w.t.retired.Keys == {a} && w.t.retired[a].at == 0 && w.t.pending == {}
  }

  lemma MergedOne(a: Key, b: Key, rows: multiset<Row>) returns (run: seq<Action>, w: World)
    requires a != b && b != ""
    ensures Reached(run, w, rows) && OnlyCompacts(run)
    ensures SourceRetired(w, a, b, rows) && w.clock == 0 && w.listings == map[]
  {
    run, w := UploadedOne(a, b, rows);
    PublishOne(w, a, b);
    run, w := Then(run, w, rows, Publish(0));
  }

  lemma PublishOne(w: World, a: Key, b: Key)
    requires a != b && w.t.live == map[a := ENTRY] && w.t.held == {} && w.t.retired == map[] && w.t.pending == {b} && w.clock == 0
    requires 0 in w.jobs && w.jobs[0] == Job("p", {a}, map[a := 1], false, Uploaded(b))
    ensures Enabled(w, Publish(0))
    ensures var t' := Step(w, Publish(0)).t; t'.retired.Keys == {a} && t'.retired[a].at == 0 && t'.pending == {}
  {
    ReplacedTables(w.t, "p", {a}, b, Entry("p", PlannedRaw(w.jobs[0])), 0);
  }

  lemma TwoCopies(archive: map<Key, multiset<Row>>, a: Key, b: Key, rows: multiset<Row>)
    requires a != b && At(archive, a) == At(archive, b) == rows
    ensures Sum(archive, {b} + {a}) == rows + rows
  {
    SumSplit(archive, {b}, {a});
    SumTake(archive, {a}, a);
    SumTake(archive, {b}, b);
    assert {a} - {a} == {} && {b} - {b} == {};
  }

  // ---- A listing that misses a retired object ---------------------------------------------

  /** A listing of nothing, begun at the present time. */
  lemma ListNothing(run: seq<Action>, w: World, rows: multiset<Row>, l: nat) returns (more: seq<Action>, w': World)
    requires Reached(run, w, rows) && l !in w.listings
    ensures Reached(more, w', rows) && (OnlyCompacts(run) ==> OnlyCompacts(more))
    ensures w' == w.(clock := w.clock + 1, listings := w.listings[l := Listing(w.clock + 1, map[])])
  {
    more, w' := Wait(run, w, rows, 1);
    more, w' := Then(more, w', rows, BeginListing(l));
  }

  lemma Wait(run: seq<Action>, w: World, rows: multiset<Row>, d: nat) returns (more: seq<Action>, w': World)
    requires Reached(run, w, rows)
    ensures Reached(more, w', rows) && (OnlyCompacts(run) ==> OnlyCompacts(more)) && w' == w.(clock := w.clock + d)
  {
    more, w' := Then(run, w, rows, Tick(d));
  }

  lemma ForgettingDoubles(w: World, a: Key, b: Key, rows: multiset<Row>)
    requires a != b && TablesOk(w) && SourceRetired(w, a, b, rows) && 0 in w.listings && w.listings[0] == Listing(1, map[])
    ensures Rows(Step(w, Refresh(0, [], true))) == rows + rows
  {
    ForgetsSource(w, a, b, rows);
    RefreshAuthority(w, 0, [], true);
    assert {a} * w.stored == {a};
    TwoCopies(w.archive, a, b, rows);
  }

  lemma ForgetsSource(w: World, a: Key, b: Key, rows: multiset<Row>)
    requires a != b && SourceRetired(w, a, b, rows) && 0 in w.listings && w.listings[0] == Listing(1, map[])
    ensures Forgets(w, 0, [], true) == {a} && Authoritative(w) == {b}
  {
    assert Authoritative(w) == {b};
  }

  /** A listing that silently misses the retired source makes the next refresh forget
      the retirement, and from then on every flushed row counts twice. */
  lemma SparseListingDoublesRows(a: Key, b: Key, rows: multiset<Row>) returns (run: seq<Action>)
    requires a != b && b != ""
    ensures Legal(INIT, run) && Flushed(run) == rows && OnlyCompacts(run)
    ensures Enabled(Exec(INIT, run), Refresh(0, [], true))
    ensures Rows(Step(Exec(INIT, run), Refresh(0, [], true))) == rows + rows
  {
    var w;
    run, w := MergedOne(a, b, rows);
    run, w := ListNothing(run, w, rows, 0);
    ReachedOk(run, w, rows);
    ForgettingDoubles(w, a, b, rows);
  }

  // ---- A drawn key that names an object not adopted yet ---------------------------------

  /** The claim takes the object's rows out of those that count. */
  lemma ClaimHidesRows(a: Key, b: Key, rows: multiset<Row>, more: multiset<Row>) returns (run: seq<Action>)
    requires a != b && b != "" && more != multiset{}
    ensures Legal(INIT, run) && Flushed(run) == rows + more && OnlyCompacts(run)
    ensures Enabled(Exec(INIT, run), Claim(0, b))
    ensures Rows(Exec(INIT, run)) == rows + more && Rows(Step(Exec(INIT, run), Claim(0, b))) != rows + more
  {
    var w;
    run, w := ReadBeside(a, b, rows, more);
    ReachedOk(run, w, rows + more);
    ClaimConservesIff(w, 0, b);
  }

  lemma ReadBeside(a: Key, b: Key, rows: multiset<Row>, more: multiset<Row>) returns (run: seq<Action>, w: World)
    requires a != b && b != ""
    ensures Reached(run, w, rows + more) && OnlyCompacts(run) && Enabled(w, Claim(0, b))
    ensures b in w.stored && b in w.archive && w.archive[b] == more
  {
    run, w := ReadOne(a, rows);
    run, w := Then(run, w, rows, FlushUpload(b, more, ENTRY));
  }

  // ---- A record that is pruned before its object is gone --------------------------------

  const LET_GO := Retirement(0, "", false, false)

  /** The owner lets go of the object. */
  lemma LetGoOne(a: Key, rows: multiset<Row>) returns (run: seq<Action>, w: World)
    ensures Reached(run, w, rows) && w.t.retired == map[a := LET_GO] && w.stored == {a} && w.archive == map[a := rows]
    ensures w.clock == 0
  {
    run, w := FlushedOne(a, rows);
    run, w := Then(run, w, rows, LetGo(a));
  }

  /** A week later the record of an object that was let go of, and whose delete never
      came, expires; its rows count again. */
  lemma PruningRevivesRows(a: Key, rows: multiset<Row>) returns (run: seq<Action>)
    requires rows != multiset{}
    ensures Legal(INIT, run) && Enabled(Exec(INIT, run), Forget({a}))
    ensures Rows(Step(Exec(INIT, run), Forget({a}))) != Rows(Exec(INIT, run))
  {
    var w;
    run, w := LetGoOne(a, rows);
    run, w := Wait(run, w, rows, RETIRED_TTL + 1);
    ReachedOk(run, w, rows);
    OnlyOneExpires(w.t, a, w.clock);
    ExpiryRevives(w, a);
  }

  lemma ExpiryRevives(w: World, a: Key)
    requires Inv(w) && Enabled(w, Forget({a})) && w.stored == {a} && a in w.archive && w.archive[a] != multiset{}
    ensures Rows(Step(w, Forget({a}))) != Rows(w)
  {
    ForgetConservesIff(w, {a});
    assert {a} * w.stored == {a};
    SumTake(w.archive, {a}, a);
    assert {a} - {a} == {};
  }

  lemma OnlyOneExpires(t: Tables, a: Key, now: int)
    requires t.retired.Keys == {a} && !t.retired[a].reclaim && now - t.retired[a].at > RETIRED_TTL
    ensures Prunes(t, {a}, now)
  {
    assert Expired(t, now) == {a} == t.retired.Keys;
    assert t.retired.Keys - {a} == {};
  }

  // ---- A flush that registers after its object's whole life -------------------------------

  /** A refresh whose listing returned `listed` and which is the only one in progress. */
  lemma RefreshTo(run: seq<Action>, w: World, rows: multiset<Row>, l: nat, listed: map<Key, Entry>, start: int)
    returns (more: seq<Action>, w': World)
    requires Reached(run, w, rows) && w.listings == map[l := Listing(start, listed)]
    requires Forgotten(w.t, listed, start, []) !! w.stored
    ensures Reached(more, w', rows) && (OnlyCompacts(run) ==> OnlyCompacts(more))
    ensures w' == w.(t := ApplyListing(w.t, listed, start, [], true), listings := map[])
  {
    more, w' := Then(run, w, rows, Refresh(l, [], true));
    NothingButOne(w.listings, l);
  }

  /** A listing that returns the one object there is. */
  lemma ListOne(run: seq<Action>, w: World, rows: multiset<Row>, a: Key) returns (more: seq<Action>, w': World)
    requires Reached(run, w, rows) && w.listings == map[] && a in w.stored
    ensures Reached(more, w', rows) && w' == w.(listings := map[0 := Listing(w.clock, map[a := ENTRY])])
  {
    more, w' := Then(run, w, rows, BeginListing(0));
    more, w' := Return(more, w', rows, a, ENTRY, w.clock);
  }

  /** The only listing in progress, which has returned nothing yet, returns one object. */
  lemma Return(run: seq<Action>, w: World, rows: multiset<Row>, a: Key, e: Entry, start: int) returns (more: seq<Action>, w': World)
    requires Reached(run, w, rows) && w.listings == map[0 := Listing(start, map[])] && a in w.stored
    ensures Reached(more, w', rows) && (OnlyCompacts(run) ==> OnlyCompacts(more))
    ensures w' == w.(listings := map[0 := Listing(start, map[a := e])])
  {
    more, w' := Then(run, w, rows, ListObject(0, a, e));
    assert w'.listings == map[0 := Listing(start, map[a := e])];
  }

  /** The object is let go of, swept and gone. */
  lemma SweepOne(run: seq<Action>, w: World, rows: multiset<Row>, a: Key) returns (more: seq<Action>, w': World)
    requires Reached(run, w, rows) && w.t.live == map[a := ENTRY] && w.t.retired == map[] && w.t.pending == {} && w.t.held == {}
    requires a in w.stored && w.deletes == map[]
    ensures Reached(more, w', rows) && w'.t == w.t.(live := map[], retired := map[a := Retirement(w.clock, "", false, false)])
    ensures w'.stored == w.stored - {a} && a in w'.gone && w'.clock == w.clock
    ensures w'.flushing == w.flushing && w'.listings == w.listings && w'.archive == w.archive && w'.deletes == Swept(a)
    ensures w'.refused == w.refused
  {
    more, w' := Then(run, w, rows, LetGo(a));
    NothingButOne(w.t.live, a);
    more, w' := SweepRetired(more, w', rows, a);
  }

  lemma SweepRetired(run: seq<Action>, w: World, rows: multiset<Row>, a: Key) returns (more: seq<Action>, w': World)
    requires Reached(run, w, rows) && a in w.t.retired && !w.t.retired[a].deleted
    requires a !in w.t.pending && a !in w.t.held && a !in w.t.live && w.deletes == map[]
    ensures Reached(more, w', rows) && w' == w.(deletes := Swept(a), stored := w.stored - {a})
  {
    more, w' := Then(run, w, rows, DeleteTierB(0, a));
    more, w' := Land(more, w', rows, a);
  }

  lemma Land(run: seq<Action>, w: World, rows: multiset<Row>, a: Key) returns (more: seq<Action>, w': World)
    requires Reached(run, w, rows) && w.deletes == map[0 := Delete(a, TierB, Asked)]
    ensures Reached(more, w', rows) && w' == w.(deletes := Swept(a), stored := w.stored - {a})
  {
    more, w' := Then(run, w, rows, DeleteLands(0));
    assert w'.deletes == Swept(a);
  }

  /** Tier B's delete has landed and not returned yet. */
  function Swept(a: Key): map<nat, Delete> {
    map[0 := Delete(a, TierB, Landed)]
  }

  /** A refresh adopts the object before its flush registers it. */
  lemma AdoptedEarly(a: Key, rows: multiset<Row>) returns (run: seq<Action>, w: World)
    ensures Reached(run, w, rows)
    ensures w.flushing == map[a := ENTRY] && w.stored == {a} && w.archive == map[a := rows] && w.deletes == map[] && w.refused == {}
    ensures w.t == EMPTY.(live := map[a := ENTRY]) && w.listings == map[] && w.clock == 0
  {
    run, w := UploadOne(a, rows);
    run, w := ListOne(run, w, rows, a);
    AdoptOne(w.t, a);
    run, w := RefreshTo(run, w, rows, 0, map[a := ENTRY], 0);
  }

  lemma AdoptOne(t: Tables, a: Key)
    requires t == EMPTY
    ensures Forgotten(t, map[a := ENTRY], 0, []) == {}
    ensures ApplyListing(t, map[a := ENTRY], 0, [], true) == EMPTY.(live := map[a := ENTRY])
  {
    RefreshChanges(t, map[a := ENTRY], 0, [], true);
    assert Adopted(t, map[a := ENTRY], 0, []) == {a};
    assert t.retired - {} == map[];
  }

  /** A later listing settles the record of the object that was let go of and swept. */
  lemma ForgottenEarly(a: Key, rows: multiset<Row>) returns (run: seq<Action>, w: World)
    ensures Reached(run, w, rows) && w.t == EMPTY && w.flushing == map[a := ENTRY] && w.stored == {} && w.archive == map[a := rows]
  {
    run, w := SweptEarly(a, rows);
    run, w := ListNothing(run, w, rows, 0);
    SettleOne(w.t, a);
    run, w := RefreshTo(run, w, rows, 0, map[], 1);
  }

  /** The late registration then serves an object that is not there. */
  lemma LateFlushServesNothing(a: Key, rows: multiset<Row>) returns (run: seq<Action>)
    ensures Legal(INIT, run) && Enabled(Exec(INIT, run), FlushRegister(a))
    ensures var w := Step(Exec(INIT, run), FlushRegister(a)); a in w.t.live && a !in w.stored
  {
    var w;
    run, w := ForgottenEarly(a, rows);
  }

  /** A late upload brings back the rows of the object that was let go of. */
  lemma LateUploadRevivesRows(a: Key, rows: multiset<Row>) returns (run: seq<Action>)
    requires rows != multiset{}
    ensures Legal(INIT, run) && Enabled(Exec(INIT, run), FlushReupload(a))
    ensures Rows(Step(Exec(INIT, run), FlushReupload(a))) != Rows(Exec(INIT, run))
  {
    var w;
    run, w := ForgottenEarly(a, rows);
    ReachedOk(run, w, rows);
    ReuploadConservesIff(w, a);
  }

  /** While the record is there, an upload that recreates the swept object is refused at
      its registration, and its delete is owed again. */
  lemma UploadAgainIsOwed(a: Key, rows: multiset<Row>) returns (run: seq<Action>)
    ensures Legal(INIT, run)
    ensures var w := Exec(INIT, run);
            a in w.stored && a !in w.t.live && a in w.t.retired && w.t.retired[a].reclaim && !w.t.retired[a].deleted
  {
    var w;
    run, w := OwedAgain(a, rows);
  }

  /** The object is there again, next to the request that deleted it before. */
  ghost predicate Recreated(w: World, a: Key, rows: multiset<Row>, record: Retirement) {
    && w.t == EMPTY.(retired := map[a := record]) && w.stored == {a} && w.archive == map[a := rows]
    && w.deletes.Keys == {0} && w.deletes[0].k == a && w.clock == 0 && w.flushing == map[]
  }

  lemma RefusedAgain(a: Key, rows: multiset<Row>) returns (run: seq<Action>, w: World)
    ensures Reached(run, w, rows) && w.refused == {a} && Recreated(w, a, rows, LET_GO) && w.deletes == Swept(a)
  {
    run, w := UploadedAgain(a, rows);
    var before := w;
    run, w := Then(run, w, rows, FlushRegister(a));
    NothingButOne(before.flushing, a);
  }

  lemma UploadedAgain(a: Key, rows: multiset<Row>) returns (run: seq<Action>, w: World)
    ensures Reached(run, w, rows) && w.t == EMPTY.(retired := map[a := LET_GO]) && w.refused == {}
    ensures w.flushing == map[a := ENTRY] && w.stored == {a} && w.archive == map[a := rows] && w.clock == 0 && w.deletes == Swept(a)
  {
    run, w := SweptEarly(a, rows);
    run, w := Then(run, w, rows, FlushReupload(a));
  }

  lemma OwedAgain(a: Key, rows: multiset<Row>) returns (run: seq<Action>, w: World)
    ensures Reached(run, w, rows) && w.refused == {} && Recreated(w, a, rows, Retirement(0, "", true, false)) && w.deletes == Swept(a)
  {
    run, w := RefusedAgain(a, rows);
    run, w := Then(run, w, rows, FlushRetire(a));
    assert w.t.retired == map[a := Retirement(0, "", true, false)];
  }

  lemma SettledAgain(a: Key, rows: multiset<Row>) returns (run: seq<Action>, w: World)
    ensures Reached(run, w, rows) && w.refused == {} && Recreated(w, a, rows, Retirement(0, "", false, true))
  {
    run, w := OwedAgain(a, rows);
    run, w := Then(run, w, rows, Confirm(0));
    assert w.t.retired == map[a := Retirement(0, "", false, true)];
  }

  /** The delete that landed before is confirmed last: it settles the record of the new
      object, which no reclaim and no sweep deletes any more. */
  lemma LateConfirmLeaks(a: Key, rows: multiset<Row>) returns (run: seq<Action>)
    ensures Legal(INIT, run)
    ensures var w := Exec(INIT, run);
            && a in w.stored && a in w.t.retired && !InFlush(w, a) && !Owed(w)
            && forall d :: !Enabled(w, DeleteReclaim(d, a)) && !Enabled(w, DeleteTierB(d, a))
  {
    var w;
    run, w := SettledAgain(a, rows);
  }

  /** A week later the settled record expires, and the object's rows count again. */
  lemma LeakedRowsReturn(a: Key, rows: multiset<Row>) returns (run: seq<Action>)
    requires rows != multiset{}
    ensures Legal(INIT, run) && Enabled(Exec(INIT, run), Forget({a}))
    ensures a in Exec(INIT, run).t.retired && Exec(INIT, run).t.retired[a].deleted
    ensures Rows(Step(Exec(INIT, run), Forget({a}))) != Rows(Exec(INIT, run))
  {
    var w;
    run, w := SettledAgain(a, rows);
    run, w := Wait(run, w, rows, RETIRED_TTL + 1);
    ReachedOk(run, w, rows);
    OnlyOneExpires(w.t, a, w.clock);
    ExpiryRevives(w, a);
  }

  lemma SweptEarly(a: Key, rows: multiset<Row>) returns (run: seq<Action>, w: World)
    ensures Reached(run, w, rows) && w.t == EMPTY.(retired := map[a := LET_GO])
    ensures w.flushing == map[a := ENTRY] && w.stored == {} && w.archive == map[a := rows]
    ensures w.listings == map[] && w.clock == 0 && w.deletes == Swept(a) && w.refused == {}
  {
    run, w := AdoptedEarly(a, rows);
    run, w := SweepOne(run, w, rows, a);
  }

  lemma SettleOne(t: Tables, a: Key)
    requires t == EMPTY.(retired := map[a := LET_GO])
    ensures ApplyListing(t, map[], 1, [], true) == EMPTY
  {
    assert Forgotten(t, map[], 1, []) == {a} && Adopted(t, map[], 1, []) == {};
    NothingButOne(t.retired, a);
    RefreshChanges(t, map[], 1, [], true);
  }

  // ---- A source that a sparse listing drops and the next one adopts again ----------------

  /** The output is uploaded; what is served of the source may have changed. */
  ghost predicate AboutToPublish(w: World, a: Key, b: Key, live: map<Key, Entry>) {
    && w.t.live == live && w.t.pending == {b} && w.t.held == {} && w.t.retired == map[]
    && w.jobs.Keys == {0} && w.jobs[0] == Job("p", {a}, map[a := 1], false, Uploaded(b)) && w.listings == map[]
    && w.stored == {a, b} && forall k | k in w.t.adds :: w.t.adds[k] == 0
  }

  lemma RefreshServing(t: Tables, listed: map<Key, Entry>, start: int, b: Key)
    requires t.retired == map[] && t.pending == {b} && b !in listed && start > 0 && (forall k | k in t.adds :: t.adds[k] == 0)
    requires t.live == map[] || listed == map[]
    ensures var t' := ApplyListing(t, listed, start, [], true);
            t'.live == listed && t'.pending == t.pending && t'.held == t.held && t'.retired == map[] && t'.adds == map[]
  {
    RefreshChanges(t, listed, start, [], true);
    assert Adopted(t, listed, start, []) == listed.Keys;
    assert t.retired - Forgotten(t, listed, start, []) == map[];
  }

  lemma DroppedSource(a: Key, b: Key, rows: multiset<Row>) returns (run: seq<Action>, w: World)
    requires a != b && b != ""
    ensures Reached(run, w, rows) && OnlyCompacts(run) && AboutToPublish(w, a, b, map[]) && w.clock == 1
  {
    run, w := UploadedOne(a, b, rows);
    run, w := ListNothing(run, w, rows, 0);
    RefreshServing(w.t, map[], 1, b);
    run, w := RefreshTo(run, w, rows, 0, map[], 1);
  }

  lemma ReadoptedSource(a: Key, b: Key, rows: multiset<Row>) returns (run: seq<Action>, w: World)
    requires a != b && b != ""
    ensures Reached(run, w, rows) && OnlyCompacts(run) && AboutToPublish(w, a, b, map[a := Entry("p", 0)])
  {
    run, w := DroppedSource(a, b, rows);
    run, w := ListNothing(run, w, rows, 0);
    run, w := Return(run, w, rows, a, Entry("p", 0), 2);
    RefreshServing(w.t, map[a := Entry("p", 0)], 2, b);
    run, w := RefreshTo(run, w, rows, 0, map[a := Entry("p", 0)], 2);
  }

  /** The merge then publishes the raw bytes its source recorded at the start, and the
      served total jumps from nothing to them. */
  lemma PublishJumps(a: Key, b: Key, rows: multiset<Row>) returns (run: seq<Action>)
    requires a != b && b != ""
    ensures Legal(INIT, run) && OnlyCompacts(run) && Enabled(Exec(INIT, run), Publish(0))
    ensures TotalRaw(Exec(INIT, run).t) == 0 && TotalRaw(Step(Exec(INIT, run), Publish(0)).t) == 1
  {
    var w;
    run, w := ReadoptedSource(a, b, rows);
    ReachedOk(run, w, rows);
    PublishMovesRaw(w, 0);
    CountOnly(RawOf(w.t), a);
    CountOnly(map[a := 1], a);
    assert w.t.live.Keys == {a};
  }

  lemma CountOnly(m: map<Key, int>, a: Key)
    requires a in m
    ensures Count(m, {a}) == m[a]
  {
    CountTake(m, {a}, a);
    assert {a} - {a} == {};
  }

  // ---- Two refreshes that overlap ------------------------------------------------------------

  /** A listing returned the object; then it was let go of, swept and gone. */
  lemma SeenAndSwept(a: Key, rows: multiset<Row>) returns (run: seq<Action>, w: World)
    ensures Reached(run, w, rows) && w.clock == 0 && w.stored == {} && a in w.gone
    ensures w.t == EMPTY.(retired := map[a := LET_GO], adds := map[a := 0])
    ensures w.listings == map[0 := Listing(0, map[a := ENTRY])]
  {
    run, w := FlushedOne(a, rows);
    run, w := ListOne(run, w, rows, a);
    run, w := SweepOne(run, w, rows, a);
  }

  lemma LaterSettles(t: Tables, a: Key)
    requires t == EMPTY.(retired := map[a := LET_GO], adds := map[a := 0])
    ensures ApplyListing(t, map[], 1, [], true) == EMPTY
    ensures a in ApplyListing(EMPTY, map[a := ENTRY], 0, [], true).live
  {
    RefreshForgets(t, map[], 1, [], true);
    RefreshChanges(t, map[], 1, [], true);
    RefreshChanges(EMPTY, map[a := ENTRY], 0, [], true);
    assert Adopted(t, map[], 1, []) == {} && Forgotten(t, map[], 1, []) == {a};
  }

  /** A refresh that began later settles the record first; the earlier one then serves
      the object that is gone. */
  lemma OverlapRevives(a: Key, rows: multiset<Row>) returns (run: seq<Action>)
    ensures Legal(INIT, run) && Enabled(Exec(INIT, run), Refresh(1, [], true))
    ensures var between := Step(Exec(INIT, run), Refresh(1, [], true));
            && Enabled(between, Refresh(0, [], true)) && a in between.gone
            && var after := Step(between, Refresh(0, [], true)); a in after.t.live && a !in after.stored
  {
    var w;
    run, w := SeenAndSwept(a, rows);
    run, w := ListNothing(run, w, rows, 1);
    LaterFirst(w, a);
  }

  lemma LaterFirst(w: World, a: Key)
    requires w.t == EMPTY.(retired := map[a := LET_GO], adds := map[a := 0]) && w.stored == {} && a in w.gone
    requires w.listings == map[0 := Listing(0, map[a := ENTRY]), 1 := Listing(1, map[])]
    ensures var between := Step(w, Refresh(1, [], true));
            && Enabled(between, Refresh(0, [], true)) && a in between.gone
            && var after := Step(between, Refresh(0, [], true)); a in after.t.live && a !in after.stored
  {
    LaterSettles(w.t, a);
  }
}
