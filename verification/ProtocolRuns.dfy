/** What holds of every run of the protocol, and exactly where it needs the object
    store's help. */
module ProtocolRuns {
  import opened Catalog
  import opened Sums
  import opened Protocol
  import opened ProtocolSafety

  /** Every action was enabled and sound when it was taken. */
  ghost predicate Legal(w: World, run: seq<Action>)
    decreases |run|
  {
    run == [] || (Enabled(w, run[0]) && Sound(w, run[0]) && Legal(Step(w, run[0]), run[1..]))
  }

  ghost function Exec(w: World, run: seq<Action>): World
    requires Legal(w, run)
    decreases |run|
  {
    if run == [] then w else Exec(Step(w, run[0]), run[1..])
  }

  /** The rows the run's flushes brought in. */
  ghost function Flushed(run: seq<Action>): multiset<Row> {
    if run == [] then multiset{} else Brings(run[0]) + Flushed(run[1..])
  }

  /** The rows a step brings in. */
  function Brings(a: Action): multiset<Row> {
    if a.FlushUpload? then a.rows else multiset{}
  }

  /** No delete rewrite and no removal by another component. */
  predicate OnlyCompacts(run: seq<Action>) {
    forall i | 0 <= i < |run| :: !run[i].LetGo? && (run[i].Start? ==> !run[i].rewrite)
  }

  predicate NoRewriteJobs(w: World) {
    forall id | id in w.jobs :: !w.jobs[id].rewrite
  }

  lemma InitOk()
    ensures Inv(INIT)
  {
    assert Authoritative(INIT) == {};
  }

  lemma {:induction false} RunKeeps(w: World, run: seq<Action>)
    requires Inv(w) && Legal(w, run)
    ensures Inv(Exec(w, run))
    decreases |run|
  {
    if run != [] {
      StepKeeps(w, run[0]);
      RunKeeps(Step(w, run[0]), run[1..]);
    }
  }

  /** One step's effect on the expected rows: a flush adds its rows, a rewrite or a
      removal only takes rows away, nothing else changes them. */
  lemma ExpectedStep(w: World, a: Action)
    requires Inv(w) && Enabled(w, a)
    ensures Step(w, a).expected <= w.expected + Brings(a)
    ensures NoRewriteJobs(w) && !a.LetGo? ==> Step(w, a).expected == w.expected + Brings(a)
  {
    if a.Publish? {
      RewriteTakesRows(w, a.id);
    } else if OfJob(a) {
      JobExpects(w, a);
    }
  }

  lemma JobExpects(w: World, a: Action)
    requires Enabled(w, a) && OfJob(a) && !a.Publish?
    ensures JobStep(w, a).expected == w.expected
  {}

  lemma NoRewriteStarts(w: World, a: Action)
    requires NoRewriteJobs(w) && Enabled(w, a) && (a.Start? ==> !a.rewrite)
    ensures NoRewriteJobs(Step(w, a))
  {
    forall id | id in Step(w, a).jobs ensures !Step(w, a).jobs[id].rewrite {
      if !(a.Start? && a.id == id) { KindKept(w, a, id); }
    }
  }

  /** A job stays a merge or a rewrite. */
  lemma KindKept(w: World, a: Action, id: nat)
    requires Enabled(w, a) && id in Step(w, a).jobs && !(a.Start? && a.id == id)
    ensures id in w.jobs && Step(w, a).jobs[id].rewrite == w.jobs[id].rewrite
  {
    if OfJob(a) { JobKindKept(w, a, id); }
  }

  lemma JobKindKept(w: World, a: Action, id: nat)
    requires Enabled(w, a) && OfJob(a) && id in JobStep(w, a).jobs && !(a.Start? && a.id == id)
    ensures id in w.jobs && JobStep(w, a).jobs[id].rewrite == w.jobs[id].rewrite
  {}

  lemma RewriteTakesRows(w: World, id: nat)
    requires Inv(w) && Enabled(w, Publish(id))
    ensures Step(w, Publish(id)).expected <= w.expected
    ensures !w.jobs[id].rewrite ==> Step(w, Publish(id)).expected == w.expected
  {
    var j := w.jobs[id];
    assert JobOk(w, j);
    if j.rewrite && CanReplace(w.t, j.partition, j.sources, j.phase.out) {
      assert j.sources <= Authoritative(w);
      SumSwap(w.archive, Authoritative(w), j.sources, j.phase.out);
      Cancel(w.expected, Sum(w.archive, Authoritative(w) - j.sources), Sum(w.archive, j.sources));
    }
  }

  lemma {:induction false} ExpectedRun(w: World, run: seq<Action>)
    requires Inv(w) && Legal(w, run)
    ensures Exec(w, run).expected <= w.expected + Flushed(run)
    decreases |run|
  {
    if run != [] {
      ExpectedStep(w, run[0]);
      StepKeeps(w, run[0]);
      ExpectedRun(Step(w, run[0]), run[1..]);
      AtMostBoth(Exec(w, run).expected, Step(w, run[0]).expected, Flushed(run[1..]), w.expected, Brings(run[0]));
    }
  }

  lemma AtMostBoth(last: multiset<Row>, next: multiset<Row>, later: multiset<Row>, first: multiset<Row>, now: multiset<Row>)
    requires last <= next + later && next <= first + now
    ensures last <= first + (now + later)
  {}

  lemma {:induction false} ExpectedMerges(w: World, run: seq<Action>)
    requires Inv(w) && Legal(w, run) && NoRewriteJobs(w) && OnlyCompacts(run)
    ensures Exec(w, run).expected == w.expected + Flushed(run)
    decreases |run|
  {
    if run != [] {
      ExpectedStep(w, run[0]);
      StepKeeps(w, run[0]);
      NoRewriteStarts(w, run[0]);
      assert forall i | 0 <= i < |run[1..]| :: run[1..][i] == run[i + 1];
      ExpectedMerges(Step(w, run[0]), run[1..]);
    }
  }

  /** Row conservation: whatever flushes, merges, abandoned merges, complete or
      partial refreshes, reclaims and sweeps did, in whatever order, the objects that
      count hold exactly the rows that were flushed; rewrites and removals can only
      take rows away, so no row is ever there twice. */
  lemma RowsConserved(run: seq<Action>)
    requires Legal(INIT, run)
    ensures Rows(Exec(INIT, run)) <= Flushed(run)
    ensures OnlyCompacts(run) ==> Rows(Exec(INIT, run)) == Flushed(run)
  {
    InitOk();
    RunKeeps(INIT, run);
    ExpectedRun(INIT, run);
    if OnlyCompacts(run) { ExpectedMerges(INIT, run); }
  }

  /** What a query can read is part of that: served rows are never doubled. */
  lemma ServedOnce(run: seq<Action>)
    requires Legal(INIT, run)
    ensures var w := Exec(INIT, run);
            w.t.live.Keys <= Authoritative(w) && Sum(w.archive, w.t.live.Keys) <= Flushed(run)
  {
    InitOk();
    RunKeeps(INIT, run);
    RowsConserved(run);
    var w := Exec(INIT, run);
    var rest := Authoritative(w) - w.t.live.Keys;
    assert Authoritative(w) == w.t.live.Keys + rest;
    SumSplit(w.archive, w.t.live.Keys, rest);
  }

  /** A refresh returns to the rows that count exactly the stored objects whose
      retirement it forgets. */
  lemma RefreshAuthority(w: World, l: nat, skipped: seq<string>, shrinkConfirmed: bool)
    requires TablesOk(w) && l in w.listings
    ensures Authoritative(Step(w, Refresh(l, skipped, shrinkConfirmed)))
            == Authoritative(w) + Forgets(w, l, skipped, shrinkConfirmed) * w.stored
  {
    var seen, start := w.listings[l].seen, w.listings[l].start;
    var w' := Step(w, Refresh(l, skipped, shrinkConfirmed));
    if Accepts(w.t, Adopted(w.t, seen, start, skipped), shrinkConfirmed) {
      RefreshForgets(w.t, seen, start, skipped, shrinkConfirmed);
      AuthorityGrows(w, w', Forgotten(w.t, seen, start, skipped));
    } else {
      AuthorityGrows(w, w', {});
    }
  }

  lemma AuthorityGrows(w: World, w': World, forgotten: set<Key>)
    requires TablesOk(w) && w'.stored == w.stored && w'.t.pending == w.t.pending
    requires forgotten <= w.t.retired.Keys && w'.t.retired.Keys == w.t.retired.Keys - forgotten
    ensures Authoritative(w') == Authoritative(w) + forgotten * w.stored
  {}

  /** In any reachable state, a refresh whose listing covered every object and missed
      no retired one serves all the rows that count, and with `ServedOnce` exactly once. */
  lemma CompleteRefreshServesAll(run: seq<Action>, l: nat, skipped: seq<string>, shrinkConfirmed: bool)
    requires Legal(INIT, run)
    requires var w := Exec(INIT, run);
             && l in w.listings && w.stored <= w.listings[l].seen.Keys
             && Accepts(w.t, Adopted(w.t, w.listings[l].seen, w.listings[l].start, skipped), shrinkConfirmed)
    ensures var w' := Step(Exec(INIT, run), Refresh(l, skipped, shrinkConfirmed));
            && w'.t.live.Keys == Authoritative(w')
            && (OnlyCompacts(run) ==> Sum(w'.archive, w'.t.live.Keys) == Flushed(run))
  {
    InitOk();
    RunKeeps(INIT, run);
    RowsConserved(run);
    var w := Exec(INIT, run);
    FullRefresh(w, l, skipped, shrinkConfirmed);
  }

  lemma FullRefresh(w: World, l: nat, skipped: seq<string>, shrinkConfirmed: bool)
    requires TablesOk(w) && ListingOk(w) && l in w.listings && w.stored <= w.listings[l].seen.Keys
    requires Accepts(w.t, Adopted(w.t, w.listings[l].seen, w.listings[l].start, skipped), shrinkConfirmed)
    ensures Step(w, Refresh(l, skipped, shrinkConfirmed)).archive == w.archive
    ensures Step(w, Refresh(l, skipped, shrinkConfirmed)).t.live.Keys == Authoritative(w)
    ensures Authoritative(Step(w, Refresh(l, skipped, shrinkConfirmed))) == Authoritative(w)
  {
    FullListingAdopts(w, l, skipped);
    AcceptedForgets(w, l, skipped, shrinkConfirmed);
    RefreshServes(w, l, skipped, shrinkConfirmed);
    RefreshAuthority(w, l, skipped, shrinkConfirmed);
  }

  lemma RefreshServes(w: World, l: nat, skipped: seq<string>, shrinkConfirmed: bool)
    requires l in w.listings
    requires Accepts(w.t, Adopted(w.t, w.listings[l].seen, w.listings[l].start, skipped), shrinkConfirmed)
    ensures Step(w, Refresh(l, skipped, shrinkConfirmed)).archive == w.archive
    ensures Step(w, Refresh(l, skipped, shrinkConfirmed)).t.live.Keys == Adopted(w.t, w.listings[l].seen, w.listings[l].start, skipped)
  {
    var seen, start := w.listings[l].seen, w.listings[l].start;
    RefreshChanges(w.t, seen, start, skipped, shrinkConfirmed);
    assert Step(w, Refresh(l, skipped, shrinkConfirmed)).t == ApplyListing(w.t, seen, start, skipped, shrinkConfirmed);
  }

  lemma AcceptedForgets(w: World, l: nat, skipped: seq<string>, shrinkConfirmed: bool)
    requires l in w.listings
    requires Accepts(w.t, Adopted(w.t, w.listings[l].seen, w.listings[l].start, skipped), shrinkConfirmed)
    ensures Forgets(w, l, skipped, shrinkConfirmed) == Forgotten(w.t, w.listings[l].seen, w.listings[l].start, skipped)
  {}

  lemma FullListingAdopts(w: World, l: nat, skipped: seq<string>)
    requires TablesOk(w) && ListingOk(w) && l in w.listings && w.stored <= w.listings[l].seen.Keys
    ensures Adopted(w.t, w.listings[l].seen, w.listings[l].start, skipped) == Authoritative(w)
    ensures Forgotten(w.t, w.listings[l].seen, w.listings[l].start, skipped) * w.stored == {}
  {
    var seen, start := w.listings[l].seen, w.listings[l].start;
    AdoptsOnlyFree(w.t, seen, start, skipped);
    AdoptsListed(w.t, seen, start, skipped);
    FullListingCovers(w, seen.Keys, Adopted(w.t, seen, start, skipped), Forgotten(w.t, seen, start, skipped));
  }

  lemma FullListingCovers(w: World, seen: set<Key>, adopted: set<Key>, forgotten: set<Key>)
    requires TablesOk(w) && w.stored <= seen <= w.stored + w.t.retired.Keys
    requires seen - w.t.retired.Keys - w.t.pending <= adopted
    requires adopted <= w.t.live.Keys + (seen - w.t.retired.Keys - w.t.pending)
    requires forgotten !! seen
    ensures adopted == Authoritative(w) && forgotten * w.stored == {}
  {}

  lemma {:induction false} LastStep(w: World, run: seq<Action>, a: Action)
    requires Legal(w, run + [a])
    ensures Legal(w, run) && Enabled(Exec(w, run), a) && Sound(Exec(w, run), a)
    ensures Exec(w, run + [a]) == Step(Exec(w, run), a)
    decreases |run|
  {
    if run == [] {
      assert run + [a] == [a] && [a][1..] == [];
      assert Exec(w, [a]) == Exec(Step(w, a), []);
    } else {
      assert (run + [a])[0] == run[0] && (run + [a])[1..] == run[1..] + [a];
      LastStep(Step(w, run[0]), run[1..], a);
    }
  }

  /** Of the merges and rewrites that share a source at most one publishes, in every
      run; an output that is not published is not served; and the branch for an
      output key that is already registered is never taken. */
  lemma PublishesOnce(run: seq<Action>)
    requires Legal(INIT, run)
    ensures var w := Exec(INIT, run);
            && (forall i, j | i in w.jobs && j in w.jobs && i != j
                 && w.jobs[i].phase.Published? && w.jobs[j].phase.Published? :: w.jobs[i].sources !! w.jobs[j].sources)
            && (forall i | i in w.jobs && (Unsettled(w.jobs[i].phase) || w.jobs[i].phase.Abandoned?) ::
                  w.jobs[i].phase.out !in w.t.live && w.jobs[i].phase.out !in Authoritative(w))
            && (forall i | i in w.jobs :: !w.jobs[i].phase.KeyTaken?)
  {
    InitOk();
    RunKeeps(INIT, run);
    var w := Exec(INIT, run);
    forall i | i in w.jobs ensures JobOk(w, w.jobs[i]) {}
  }

  /** Every delete that lands, from a merge, a reclaim or the sweep, was preceded by
      the key's retirement, never hits a served, held or pending object, and leaves
      the rows that count untouched. */
  lemma DeletesAreSafe(run: seq<Action>, d: nat)
    requires Legal(INIT, run + [DeleteLands(d)])
    ensures Legal(INIT, run) && d in Exec(INIT, run).deletes
    ensures var w := Exec(INIT, run);
            var k := w.deletes[d].k;
            && k in w.gone && (k in w.stored ==> k in w.t.retired)
            && k !in w.t.live && k !in w.t.held && k !in w.t.pending && k !in Authoritative(w)
            && Rows(Exec(INIT, run + [DeleteLands(d)])) == Rows(w)
  {
    LastStep(INIT, run, DeleteLands(d));
    InitOk();
    RunKeeps(INIT, run);
    var w := Exec(INIT, run);
    assert Authoritative(Step(w, DeleteLands(d))) == Authoritative(w);
  }

  lemma GoneStays(w: World, a: Action)
    requires Enabled(w, a)
    ensures w.gone <= Step(w, a).gone
  {
    if OfJob(a) { JobGoneStays(w, a); }
  }

  lemma JobGoneStays(w: World, a: Action)
    requires Enabled(w, a) && OfJob(a)
    ensures w.gone <= JobStep(w, a).gone
  {}

  lemma GoneIsUnserved(w: World, k: Key)
    requires TablesOk(w) && k in w.gone
    ensures k !in w.t.live
  {}

  /** A retired key never comes back: once a publish or a removal let it go, no
      later step of the run serves it again. */
  lemma {:induction false} RetiredStaysOut(w: World, run: seq<Action>, k: Key)
    requires Inv(w) && Legal(w, run) && k in w.gone
    ensures k in Exec(w, run).gone && k !in Exec(w, run).t.live
    decreases |run|
  {
    if run != [] {
      StepKeeps(w, run[0]);
      GoneStays(w, run[0]);
      RetiredStaysOut(Step(w, run[0]), run[1..], k);
    } else {
      GoneIsUnserved(w, k);
    }
  }

  // ---- Exactly when the unchecked assumptions are needed -----------------------

  /** A refresh leaves the rows that count unchanged exactly when no retirement
      record it forgets names an object that is still stored with rows. A listing
      that misses such an object brings its rows back next to the merged copy. */
  lemma RefreshConservesIff(w: World, l: nat, skipped: seq<string>, shrinkConfirmed: bool)
    requires Inv(w) && l in w.listings
    ensures Rows(Step(w, Refresh(l, skipped, shrinkConfirmed))) == Rows(w)
            <==> Sum(w.archive, Forgets(w, l, skipped, shrinkConfirmed) * w.stored) == multiset{}
  {
    var w' := Step(w, Refresh(l, skipped, shrinkConfirmed));
    var back := Forgets(w, l, skipped, shrinkConfirmed) * w.stored;
    RefreshAuthority(w, l, skipped, shrinkConfirmed);
    SumSplit(w.archive, Authoritative(w), back);
    var extra := Sum(w.archive, back);
    assert Rows(w') == Rows(w) + extra;
    Cancel(Rows(w'), extra, Rows(w));
    assert Rows(w) - Rows(w) == multiset{};
  }

  /** A refresh serves no retired key, whatever other listings are in progress, exactly
      when every retired key its listing returned still has its record: a refresh that
      overlaps it may have forgotten one in between. */
  lemma RefreshRevivesIff(w: World, l: nat, skipped: seq<string>, shrinkConfirmed: bool)
    requires TablesOk(w) && l in w.listings
    requires Accepts(w.t, Adopted(w.t, w.listings[l].seen, w.listings[l].start, skipped), shrinkConfirmed)
    ensures Step(w, Refresh(l, skipped, shrinkConfirmed)).t.live.Keys !! w.gone
            <==> w.listings[l].seen.Keys * w.gone <= w.t.retired.Keys
  {
    RefreshServes(w, l, skipped, shrinkConfirmed);
    AdoptsOnlyFree(w.t, w.listings[l].seen, w.listings[l].start, skipped);
    AdoptsListed(w.t, w.listings[l].seen, w.listings[l].start, skipped);
  }

  /** Pruning the records does so exactly when none of them names an object that is
      still stored with rows; below the cap only records of deletes that others owe
      can (`Catalog.PruneSparesOwed`). */
  lemma ForgetConservesIff(w: World, ks: set<Key>)
    requires Inv(w) && Enabled(w, Forget(ks))
    ensures Rows(Step(w, Forget(ks))) == Rows(w) <==> Sum(w.archive, ks * w.stored) == multiset{}
  {
    var w', extra := Step(w, Forget(ks)), Sum(w.archive, ks * w.stored);
    AuthorityGrows(w, w', ks);
    SumSplit(w.archive, Authoritative(w), ks * w.stored);
    assert Rows(w') == Rows(w) + extra;
    Cancel(Rows(w'), extra, Rows(w));
    assert Rows(w) - Rows(w) == multiset{};
  }

  /** The claim's own check (not served, not retired, not pending) keeps the rows
      exactly when the drawn key does not name a stored object with rows: an object
      the manifest has not adopted yet would be hidden, then overwritten. */
  lemma ClaimConservesIff(w: World, id: nat, k: Key)
    requires Inv(w) && Enabled(w, Claim(id, k))
    ensures Rows(Step(w, Claim(id, k))) == Rows(w) <==> k !in w.stored || At(w.archive, k) == multiset{}
  {
    var w' := Step(w, Claim(id, k));
    assert Authoritative(w') == Authoritative(w) - {k};
    if k in w.stored {
      SumTake(w.archive, Authoritative(w), k);
      Cancel(Rows(w), Rows(w'), At(w.archive, k));
      Cancel(Rows(w), At(w.archive, k), Rows(w'));
      assert Rows(w) - Rows(w) == multiset{};
    } else {
      assert Authoritative(w') == Authoritative(w);
    }
  }

  /** An upload under a key in flight again keeps the rows exactly when the object is
      still there, or its retirement is still on record, or it has no rows. */
  lemma ReuploadConservesIff(w: World, k: Key)
    requires Inv(w) && k in w.flushing
    ensures Rows(Step(w, FlushReupload(k))) == Rows(w) <==> k in w.stored || k in w.t.retired || At(w.archive, k) == multiset{}
  {
    var w' := Step(w, FlushReupload(k));
    if k in w.stored || k in w.t.retired {
      assert Authoritative(w') == Authoritative(w);
    } else {
      assert Authoritative(w') - {k} == Authoritative(w);
      SumTake(w.archive, Authoritative(w'), k);
      Cancel(Rows(w'), At(w.archive, k), Rows(w));
      assert Rows(w) - Rows(w) == multiset{};
    }
  }

  /** A flush's registration serves only stored objects exactly when its object is
      still there or its retirement is still on record. */
  lemma RegisterServesStoredIff(w: World, k: Key)
    requires Inv(w) && k in w.flushing
    ensures Step(w, FlushRegister(k)).t.live.Keys <= w.stored <==> k in w.stored || k in w.t.retired
  {
    var w' := Step(w, FlushRegister(k));
    if k !in w.t.retired {
      assert w'.t.live.Keys == w.t.live.Keys + {k};
    }
  }
}
