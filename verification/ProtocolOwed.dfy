/** Whether a superseded object that is still stored is still owed its delete
    (internal/manifest/retired.go, ConfirmDeleted and ReclaimRetired;
    internal/storage/parquets3/writer.go). An upload may land again under a key whose
    delete has landed, and the older delete is confirmed after it. */
module ProtocolOwed {
  import opened Catalog
  import opened Protocol
  import opened ProtocolSafety
  import opened ProtocolRuns

  /** The key's own flush has uploaded and has still to register, or to owe the delete. */
  predicate InFlush(w: World, k: Key) {
    k in w.flushing || k in w.refused
  }

  /** No record says of a stored object that its delete is done, unless the object's own
      flush is about to owe it again. */
  predicate Owed(w: World) {
    forall k | k in w.t.retired && w.t.retired[k].deleted && k in w.stored :: InFlush(w, k)
  }

  /** The confirmation of this delete settles the key's record. */
  predicate Settles(t: Tables, delete: Delete) {
    delete.k in t.retired && (delete.deleter.Reclaim? ==> t.retired[delete.k].at == delete.deleter.at)
  }

  /** The confirmation finds the object gone, or its flush still to owe the delete, or no
      record that it settles. */
  predicate InTime(w: World, d: nat)
    requires d in w.deletes
  {
    w.deletes[d].k !in w.stored || InFlush(w, w.deletes[d].k) || !Settles(w.t, w.deletes[d])
  }

  lemma ConfirmStepOwesIff(w: World, d: nat)
    requires Owed(w) && d in w.deletes
    ensures Owed(ConfirmStep(w, d)) <==> InTime(w, d)
  {
    var w', k := ConfirmStep(w, d), w.deletes[d].k;
    if Settles(w.t, w.deletes[d]) { assert k in w'.t.retired && w'.t.retired[k].deleted; }
  }

  /** A confirmation leaves every stored object owed, if and only if it is in time. */
  lemma ConfirmOwesIff(w: World, d: nat)
    requires Owed(w) && Enabled(w, Confirm(d))
    ensures Owed(Step(w, Confirm(d))) <==> InTime(w, d)
  {
    ConfirmStepOwesIff(w, d);
  }

  // ---- The other steps -----------------------------------------------------------------

  lemma PublishOwes(w: World, j: Job, out: Key)
    requires TablesOk(w) && Owed(w) && OutputOk(w, j, out)
    ensures Owed(PublishEffect(w, j, out))
  {
    if CanReplace(w.t, j.partition, j.sources, out) {
      ReplacedTables(w.t, j.partition, j.sources, out, Entry(j.partition, PlannedRaw(j)), w.clock);
    }
  }

  lemma EffectOwes(w: World, j: Job, a: Action)
    requires TablesOk(w) && Owed(w) && JobOk(w, j)
    ensures Owed(JobEffect(w, j, a))
  {
    if a.Publish? && j.phase.Uploaded? { PublishOwes(w, j, j.phase.out); }
  }

  lemma JobOwes(w: World, a: Action)
    requires Inv(w) && Owed(w) && Enabled(w, a) && OfJob(a)
    ensures Owed(JobStep(w, a))
  {
    if !a.Start? {
      assert JobOk(w, w.jobs[a.id]);
      EffectOwes(w, w.jobs[a.id], a);
    }
  }

  lemma RefreshOwes(w: World, l: nat, skipped: seq<string>, shrinkConfirmed: bool)
    requires Owed(w) && l in w.listings
    ensures Owed(Step(w, Refresh(l, skipped, shrinkConfirmed)))
  {
    var seen, start := w.listings[l].seen, w.listings[l].start;
    if Accepts(w.t, Adopted(w.t, seen, start, skipped), shrinkConfirmed) {
      RefreshChanges(w.t, seen, start, skipped, shrinkConfirmed);
    }
  }

  predicate OfFlush(a: Action) {
    a.FlushUpload? || a.FlushReupload? || a.FlushRegister? || a.FlushRetire?
  }

  lemma FlushOwes(w: World, a: Action)
    requires TablesOk(w) && Owed(w) && Enabled(w, a) && Sound(w, a) && OfFlush(a)
    ensures Owed(Step(w, a))
  {}

  lemma TableOwes(w: World, a: Action)
    requires Owed(w) && Enabled(w, a) && !OfJob(a) && !OfDelete(a) && !OfFlush(a) && !a.Refresh?
    ensures Owed(Step(w, a))
  {}

  lemma DeleteOwes(w: World, a: Action)
    requires Owed(w) && Enabled(w, a) && OfDelete(a) && !a.Confirm?
    ensures Owed(DeleteStep(w, a))
  {}

  /** Every step but a confirmation that is late leaves every stored object owed. */
  lemma StepOwes(w: World, a: Action)
    requires Inv(w) && Owed(w) && Enabled(w, a) && Sound(w, a) && (a.Confirm? ==> InTime(w, a.d))
    ensures Owed(Step(w, a))
  {
    if OfJob(a) {
      JobOwes(w, a);
    } else if a.Confirm? {
      ConfirmOwesIff(w, a.d);
    } else if OfDelete(a) {
      DeleteOwes(w, a);
    } else if OfFlush(a) {
      FlushOwes(w, a);
    } else if a.Refresh? {
      RefreshOwes(w, a.l, a.skipped, a.shrinkConfirmed);
    } else {
      TableOwes(w, a);
    }
  }

  // ---- Over every run --------------------------------------------------------------------

  /** Every confirmation of the run came in time. */
  ghost predicate Timely(w: World, run: seq<Action>)
    requires Legal(w, run)
    decreases |run|
  {
    run != [] ==> (run[0].Confirm? ==> InTime(w, run[0].d)) && Timely(Step(w, run[0]), run[1..])
  }

  lemma {:induction false} RunOwes(w: World, run: seq<Action>)
    requires Inv(w) && Owed(w) && Legal(w, run) && Timely(w, run)
    ensures Owed(Exec(w, run))
    decreases |run|
  {
    if run != [] {
      StepKeeps(w, run[0]);
      StepOwes(w, run[0]);
      RunOwes(Step(w, run[0]), run[1..]);
    }
  }

  /** In every run whose confirmations came in time, an object that is stored and was
      retired can still be deleted by Tier B, unless it is held or its own flush is still
      to owe the delete. */
  lemma StoredIsOwed(run: seq<Action>, k: Key, d: nat)
    requires Legal(INIT, run) && Timely(INIT, run)
    ensures var w := Exec(INIT, run);
            k in w.stored && k in w.gone && !InFlush(w, k) && k !in w.t.held && d !in w.deletes ==> Enabled(w, DeleteTierB(d, k))
  {
    InitOk();
    RunKeeps(INIT, run);
    RunOwes(INIT, run);
  }

  /** A refused flush owes the delete, whatever was settled before, in every run. */
  lemma RefusedOwesAgain(run: seq<Action>, k: Key, d: nat)
    requires Legal(INIT, run) && k in Exec(INIT, run).refused && d !in Exec(INIT, run).deletes
    ensures Enabled(Step(Exec(INIT, run), FlushRetire(k)), DeleteReclaim(d, k))
  {
    InitOk();
    RunKeeps(INIT, run);
    GoneIsUnserved(Exec(INIT, run), k);
  }

  // ---- A confirmation is late only after another upload ------------------------------------

  lemma JobStoresOutputs(w: World, a: Action, k: Key)
    requires Inv(w) && Enabled(w, a) && OfJob(a) && k in w.gone && k !in w.stored
    ensures k !in JobStep(w, a).stored
  {
    if !a.Start? { assert JobOk(w, w.jobs[a.id]); }
  }

  lemma StepStores(w: World, a: Action, k: Key)
    requires Inv(w) && Enabled(w, a) && Sound(w, a) && k in w.gone && k !in w.stored && a != FlushReupload(k)
    ensures k !in Step(w, a).stored
  {
    if OfJob(a) { JobStoresOutputs(w, a, k); }
  }

  /** A retired object that is gone stays gone until its flush uploads it again. */
  lemma {:induction false} GoneUntilUploaded(w: World, run: seq<Action>, k: Key)
    requires Inv(w) && Legal(w, run) && k in w.gone && k !in w.stored && FlushReupload(k) !in run
    ensures k !in Exec(w, run).stored
    decreases |run|
  {
    if run != [] {
      StepKeeps(w, run[0]);
      StepStores(w, run[0], k);
      GoneStays(w, run[0]);
      GoneUntilUploaded(Step(w, run[0]), run[1..], k);
    }
  }

  lemma LandedIsGone(w: World, d: nat)
    requires Inv(w) && Enabled(w, DeleteLands(d))
    ensures var w', k := Step(w, DeleteLands(d)), w.deletes[d].k;
            Inv(w') && k in w'.gone && k !in w'.stored && d in w'.deletes && w'.deletes[d].k == k
  {
    StepKeeps(w, DeleteLands(d));
  }

  lemma KeyKept(w: World, a: Action, d: nat)
    requires Enabled(w, a) && d in w.deletes
    ensures d in Step(w, a).deletes && Step(w, a).deletes[d].k == w.deletes[d].k
  {
    if OfJob(a) { JobKeepsDeletes(w, a); }
  }

  lemma JobKeepsDeletes(w: World, a: Action)
    requires Enabled(w, a) && OfJob(a)
    ensures JobStep(w, a).deletes == w.deletes
  {}

  lemma {:induction false} KeyKeptOverRun(w: World, run: seq<Action>, d: nat)
    requires Legal(w, run) && d in w.deletes
    ensures d in Exec(w, run).deletes && Exec(w, run).deletes[d].k == w.deletes[d].k
    decreases |run|
  {
    if run != [] {
      KeyKept(w, run[0], d);
      KeyKeptOverRun(Step(w, run[0]), run[1..], d);
    }
  }

  /** A delete that lands and is confirmed with no upload under its key in between, is
      confirmed in time. */
  lemma ConfirmedInTime(w: World, d: nat, run: seq<Action>)
    requires Inv(w) && Enabled(w, DeleteLands(d)) && Legal(Step(w, DeleteLands(d)), run)
    requires FlushReupload(w.deletes[d].k) !in run
    ensures var now := Exec(Step(w, DeleteLands(d)), run); d in now.deletes && InTime(now, d)
  {
    var w' := Step(w, DeleteLands(d));
    LandedIsGone(w, d);
    GoneUntilUploaded(w', run, w.deletes[d].k);
    KeyKeptOverRun(w', run, d);
  }
}
