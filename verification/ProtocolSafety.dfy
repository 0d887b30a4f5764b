/** Safety of the merge / publish / reclaim protocol over every run. */
module ProtocolSafety {
  import opened Catalog
  import opened Sums
  import opened Protocol

  predicate Extends(a: map<Key, multiset<Row>>, b: map<Key, multiset<Row>>) {
    forall k | k in a :: k in b && b[k] == a[k]
  }

  /** A job not touched by a step stays sound when the step only adds objects,
      keeps its output and never claims its key. */
  lemma JobKept(w: World, w': World, j: Job)
    requires JobOk(w, j) && w.stored <= w.archive.Keys
    requires Extends(w.archive, w'.archive) && w.gone <= w'.gone
    requires Unsettled(j.phase) && j.phase.out in w.t.pending ==> j.phase.out in w'.t.pending
    requires Unsettled(j.phase) && j.phase.out in w.stored ==> j.phase.out in w'.stored
    requires j.phase.Claimed? ==> j.phase.out !in w'.archive
    ensures JobOk(w', j)
  {
    if j.phase.Uploaded? || j.phase.Refused? {
      SumFrame(w.archive, w'.archive, j.sources);
    }
  }

  lemma JobsKept(w: World, w': World)
    requires JobsOk(w) && w.stored <= w.archive.Keys && w'.jobs == w.jobs
    requires Extends(w.archive, w'.archive) && w.gone <= w'.gone
    requires w.t.pending <= w'.t.pending
    requires w.t.pending * w.stored <= w'.stored
    requires w'.archive.Keys * w.t.pending <= w.archive.Keys
    ensures JobsOk(w')
  {
    forall id | id in w'.jobs ensures JobOk(w', w'.jobs[id]) {
      assert JobOk(w, w.jobs[id]);
      JobKept(w, w', w.jobs[id]);
    }
  }

  lemma FlushUploadKeeps(w: World, k: Key, rows: multiset<Row>, e: Entry)
    requires Inv(w) && Fresh(w, k)
    ensures Inv(Step(w, FlushUpload(k, rows, e)))
  {
    var w' := Step(w, FlushUpload(k, rows, e));
    FlushUploadShape(w, k, rows, e);
    JobsKept(w, w');
    assert Authoritative(w') == Authoritative(w) + {k};
    SumGrows(w.archive, Authoritative(w), k, rows);
  }

  lemma FlushUploadShape(w: World, k: Key, rows: multiset<Row>, e: Entry)
    requires Shape(w) && Fresh(w, k)
    ensures Shape(Step(w, FlushUpload(k, rows, e)))
  {}

  lemma FlushReuploadKeeps(w: World, k: Key)
    requires Inv(w) && Enabled(w, FlushReupload(k)) && Sound(w, FlushReupload(k))
    ensures Inv(Step(w, FlushReupload(k)))
  {
    var w' := Step(w, FlushReupload(k));
    ReuploadShape(w, w', k);
    JobsKept(w, w');
    assert Authoritative(w') == Authoritative(w);
  }

  lemma ReuploadShape(w: World, w': World, k: Key)
    requires Shape(w) && k in w.flushing && (k in w.stored || k in w.t.retired) && w' == w.(stored := w.stored + {k})
    ensures Shape(w')
  {}

  /** A refused flush owes the delete of what it may have uploaded again. */
  lemma FlushRetireKeeps(w: World, k: Key)
    requires Inv(w) && Enabled(w, FlushRetire(k))
    ensures Inv(Step(w, FlushRetire(k)))
  {
    var w' := Step(w, FlushRetire(k));
    FlushRetireShape(w, w', k);
    JobsKept(w, w');
    assert Authoritative(w') == Authoritative(w);
  }

  lemma FlushRetireShape(w: World, w': World, k: Key)
    requires Shape(w) && k in w.refused
    requires w' == w.(t := Retire(w.t, k, "", true, w.clock), refused := w.refused - {k})
    ensures Shape(w') && w'.t.pending == w.t.pending && w'.t.retired.Keys == w.t.retired.Keys + {k}
  {
    assert w'.t.retired.Keys == w.t.retired.Keys + {k};
    assert k !in w.t.live && w'.t.pending == w.t.pending;
  }

  lemma FlushRegisterKeeps(w: World, k: Key)
    requires Inv(w) && k in w.flushing && (k in w.stored || k in w.t.retired)
    ensures Inv(Step(w, FlushRegister(k)))
  {
    var w' := Step(w, FlushRegister(k));
    FlushRegisterShape(w, k);
    JobsKept(w, w');
    assert Authoritative(w') == Authoritative(w);
  }

  lemma FlushRegisterShape(w: World, k: Key)
    requires Shape(w) && k in w.flushing && (k in w.stored || k in w.t.retired)
    ensures var w' := Step(w, FlushRegister(k));
            Shape(w') && w'.t.pending == w.t.pending && w'.t.retired.Keys == w.t.retired.Keys
  {
    var w' := Step(w, FlushRegister(k));
    assert w'.t.pending == w.t.pending;
    assert w'.t.retired.Keys == w.t.retired.Keys;
  }

  lemma StartKeeps(w: World, id: nat, partition: string, sources: set<Key>, rewrite: bool)
    requires Inv(w) && Enabled(w, Start(id, partition, sources, rewrite))
    ensures Inv(Step(w, Start(id, partition, sources, rewrite)))
  {
    var w' := Step(w, Start(id, partition, sources, rewrite));
    StartShape(w, id, partition, sources, rewrite);
    OthersKept(w, w', id);
  }

  lemma StartShape(w: World, id: nat, partition: string, sources: set<Key>, rewrite: bool)
    requires Shape(w) && Enabled(w, Start(id, partition, sources, rewrite))
    ensures Shape(Step(w, Start(id, partition, sources, rewrite)))
  {}

  /** A job moved on without publishing or abandoning, and the bucket and tables kept
      their shape. */
  lemma PhaseShape(w: World, w': World, id: nat)
    requires Shape(w) && id in w.jobs && id in w'.jobs && w'.jobs == w.jobs[id := w'.jobs[id]]
    requires !w'.jobs[id].phase.Published? && !w'.jobs[id].phase.Abandoned?
    requires w'.gone == w.gone && w'.deletes == w.deletes && w'.flushing == w.flushing && w'.listings == w.listings
    requires w'.refused == w.refused
    requires w'.t.live == w.t.live && w'.t.retired == w.t.retired && w'.t.held == w.t.held
    requires w.stored <= w'.stored && Extends(w.archive, w'.archive) && w'.stored <= w'.archive.Keys
    requires w.gone * w'.stored <= w.t.retired.Keys && (w'.stored - w.stored) !! w.t.retired.Keys
    requires w'.t.pending !! w.t.live.Keys && w'.t.pending !! w.gone && w'.t.pending !! w.flushing.Keys && w'.t.pending !! w.t.held
    ensures Shape(w')
  {}

  /** The step changed job `id` and, for the others, only what JobKept allows. */
  lemma OthersKept(w: World, w': World, id: nat)
    requires JobsOk(w) && w.stored <= w.archive.Keys && id in w'.jobs && w'.jobs == w.jobs[id := w'.jobs[id]]
    requires Extends(w.archive, w'.archive) && w.gone <= w'.gone
    requires forall i | i in w.jobs && i != id && Unsettled(w.jobs[i].phase) ::
               (w.jobs[i].phase.out in w.t.pending ==> w.jobs[i].phase.out in w'.t.pending) &&
               (w.jobs[i].phase.out in w.stored ==> w.jobs[i].phase.out in w'.stored) &&
               (w.jobs[i].phase.Claimed? ==> w.jobs[i].phase.out !in w'.archive)
    ensures forall i | i in w'.jobs && i != id :: JobOk(w', w'.jobs[i])
  {
    forall i | i in w'.jobs && i != id ensures JobOk(w', w'.jobs[i]) {
      assert JobOk(w, w.jobs[i]);
      JobKept(w, w', w.jobs[i]);
    }
  }

  lemma ReadKeeps(w: World, id: nat, k: Key)
    requires Inv(w) && Enabled(w, Read(id, k))
    ensures Inv(Step(w, Read(id, k)))
  {
    var w' := Step(w, Read(id, k));
    assert JobOk(w, w.jobs[id]);
    PhaseShape(w, w', id);
    OthersKept(w, w', id);
  }

  lemma ClaimKeeps(w: World, id: nat, k: Key)
    requires Inv(w) && Enabled(w, Claim(id, k)) && Fresh(w, k)
    ensures Inv(Step(w, Claim(id, k)))
  {
    var w' := Step(w, Claim(id, k));
    assert JobOk(w, w.jobs[id]);
    PhaseShape(w, w', id);
    OthersKept(w, w', id);
    forall i | i in w.jobs && i != id && Unsettled(w.jobs[i].phase) ensures w.jobs[i].phase.out != k {
      assert JobOk(w, w.jobs[i]);
    }
    assert Authoritative(w') == Authoritative(w);
  }

  lemma UploadKeepsJobs(w: World, id: nat, rows: multiset<Row>)
    requires Inv(w) && Enabled(w, Upload(id, rows))
    ensures JobsOk(Step(w, Upload(id, rows)))
  {
    var w' := Step(w, Upload(id, rows));
    assert JobOk(w, w.jobs[id]);
    OthersKept(w, w', id);
    SumFrame(w.archive, w'.archive, w.jobs[id].sources);
    assert JobOk(w', w'.jobs[id]);
  }

  lemma UploadKeeps(w: World, id: nat, rows: multiset<Row>)
    requires Inv(w) && Enabled(w, Upload(id, rows))
    ensures Inv(Step(w, Upload(id, rows)))
  {
    var w' := Step(w, Upload(id, rows));
    assert JobOk(w, w.jobs[id]);
    PhaseShape(w, w', id);
    UploadKeepsJobs(w, id, rows);
    PendingDoesNotCount(w, w', w.jobs[id].phase.out);
  }

  /** A new object under a pending key changes nothing that counts. */
  lemma PendingDoesNotCount(w: World, w': World, out: Key)
    requires TablesOk(w) && out in w.t.pending && out !in w.archive && w'.t == w.t
    requires w'.stored == w.stored + {out} && Extends(w.archive, w'.archive)
    ensures Rows(w') == Rows(w)
  {
    assert Authoritative(w') == Authoritative(w);
    SumFrame(w.archive, w'.archive, Authoritative(w));
  }

  lemma UploadFailsKeeps(w: World, id: nat)
    requires Inv(w) && Enabled(w, UploadFails(id))
    ensures Inv(Step(w, UploadFails(id)))
  {
    var w' := Step(w, UploadFails(id));
    assert JobOk(w, w.jobs[id]);
    PhaseShape(w, w', id);
    OthersKept(w, w', id);
    assert Authoritative(w') == Authoritative(w);
  }

  lemma PublishedTables(w: World, id: nat)
    requires Inv(w) && Enabled(w, Publish(id))
    requires var j := w.jobs[id]; CanReplace(w.t, j.partition, j.sources, j.phase.out)
    ensures Swapped(w, id, Step(w, Publish(id)))
  {
    var j, out := w.jobs[id], w.jobs[id].phase.out;
    assert JobOk(w, j);
    ReplacedTables(w.t, j.partition, j.sources, out, Entry(j.partition, PlannedRaw(j)), w.clock);
    SwappedTables(w, id, Step(w, Publish(id)));
  }

  lemma SwappedTables(w: World, id: nat, w': World)
    requires TablesOk(w) && Enabled(w, Publish(id)) && OutputOk(w, w.jobs[id], w.jobs[id].phase.out)
    requires var j, out := w.jobs[id], w.jobs[id].phase.out;
             && CanReplace(w.t, j.partition, j.sources, out)
             && w'.t.live.Keys == w.t.live.Keys - j.sources + {out}
             && w'.t.retired.Keys == w.t.retired.Keys + j.sources
             && w'.t.pending == w.t.pending - j.sources - {out} && w'.t.held == w.t.held
             && (forall o | o in w.t.retired && o !in j.sources :: w'.t.retired[o] == w.t.retired[o])
             && (forall o | o in j.sources :: !w'.t.retired[o].deleted)
             && w' == PublishEffect(w, j, out).(t := w'.t, jobs := w.jobs[id := j.(phase := Published(out))])
    ensures Swapped(w, id, w')
  {}

  /** The swap: the sources' rows leave with the sources and come back with the output. */
  lemma PublishKeeps(w: World, id: nat)
    requires Inv(w) && Enabled(w, Publish(id))
    ensures Inv(Step(w, Publish(id)))
  {
    var w' := Step(w, Publish(id));
    var j := w.jobs[id];
    var out := j.phase.out;
    assert JobOk(w, j);
    if CanReplace(w.t, j.partition, j.sources, out) {
      PublishedTables(w, id);
      PublishExcludes(w, id);
      SwapKeepsTables(w, id, w');
      SwapKeepsJobs(w, id, w');
      SwapKeepsRows(w, id, w');
    } else {
      RefusalKeeps(w, id);
    }
  }

  /** A refused publish changes nothing but the merge's own phase. */
  lemma RefusalKeeps(w: World, id: nat)
    requires Inv(w) && Enabled(w, Publish(id))
    requires var j := w.jobs[id]; !CanReplace(w.t, j.partition, j.sources, j.phase.out)
    ensures Inv(Step(w, Publish(id)))
  {
    var w' := Step(w, Publish(id));
    assert JobOk(w, w.jobs[id]);
    PhaseShape(w, w', id);
    OthersKept(w, w', id);
    assert JobOk(w', w'.jobs[id]);
  }

  /** A source that is still served was never the source of an earlier publish. */
  lemma PublishExcludes(w: World, id: nat)
    requires Inv(w) && Enabled(w, Publish(id))
    requires var j := w.jobs[id]; CanReplace(w.t, j.partition, j.sources, j.phase.out)
    ensures Exclusive(Step(w, Publish(id)))
  {
    forall i | i in w.jobs && w.jobs[i].phase.Published? ensures w.jobs[i].sources !! w.jobs[id].sources {
      assert JobOk(w, w.jobs[i]);
    }
    ExcludesOneMore(w, Step(w, Publish(id)), id);
  }

  lemma ExcludesOneMore(w: World, w': World, id: nat)
    requires Exclusive(w) && id in w.jobs && id in w'.jobs && w'.jobs == w.jobs[id := w'.jobs[id]]
    requires w'.jobs[id].sources == w.jobs[id].sources
    requires forall i | i in w.jobs && w.jobs[i].phase.Published? :: w.jobs[i].sources !! w.jobs[id].sources
    ensures Exclusive(w')
  {}

  /** The shape of a successful publish, without the machinery that produced it. */
  ghost predicate Swapped(w: World, id: nat, w': World)
    requires Enabled(w, Publish(id))
  {
    var j, out := w.jobs[id], w.jobs[id].phase.out;
    && j.sources <= w.t.live.Keys && j.sources !! w.t.held
    && w'.t.live.Keys == w.t.live.Keys - j.sources + {out}
    && w'.t.retired.Keys == w.t.retired.Keys + j.sources
    && w'.t.pending == w.t.pending - {out} && w'.t.held == w.t.held
    && (forall k | k in w'.t.retired :: if k in j.sources then !w'.t.retired[k].deleted else w'.t.retired[k] == w.t.retired[k])
    && w' == w.(t := w'.t, gone := w.gone + j.sources, expected := w'.expected,
                jobs := w.jobs[id := j.(phase := Published(out))])
    && w'.expected ==
       if j.rewrite then w.expected - Sum(w.archive, j.sources) + At(w.archive, out) else w.expected
  }

  lemma SwapKeepsTables(w: World, id: nat, w': World)
    requires Inv(w) && Enabled(w, Publish(id)) && Swapped(w, id, w')
    ensures TablesOk(w') && DeletesOk(w') && FlushesOk(w') && ListingOk(w')
  {
    assert JobOk(w, w.jobs[id]);
  }

  lemma SwapKeepsJobs(w: World, id: nat, w': World)
    requires Inv(w) && Enabled(w, Publish(id)) && Swapped(w, id, w')
    ensures JobsOk(w')
  {
    assert JobOk(w, w.jobs[id]);
    OthersKept(w, w', id);
    assert JobOk(w', w'.jobs[id]);
  }

  lemma SwapKeepsRows(w: World, id: nat, w': World)
    requires Inv(w) && Enabled(w, Publish(id)) && Swapped(w, id, w')
    ensures Rows(w') == w'.expected
  {
    var j, out := w.jobs[id], w.jobs[id].phase.out;
    assert JobOk(w, j);
    assert Authoritative(w') == Authoritative(w) - j.sources + {out};
    PublishConserves(w, j, out, w');
  }

  lemma PublishConserves(w: World, j: Job, out: Key, w': World)
    requires Rows(w) == w.expected && OutputOk(w, j, out)
    requires w'.archive == w.archive
    requires j.sources <= Authoritative(w)
    requires Authoritative(w') == Authoritative(w) - j.sources + {out}
    requires w'.expected ==
             if j.rewrite then w.expected - Sum(w.archive, j.sources) + At(w.archive, out) else w.expected
    ensures Rows(w') == w'.expected
  {
    var auth := Authoritative(w);
    SumSwap(w.archive, auth, j.sources, out);
    Cancel(Sum(w.archive, auth), Sum(w.archive, auth - j.sources), Sum(w.archive, j.sources));
  }

  lemma AbandonKeeps(w: World, id: nat)
    requires Inv(w) && Enabled(w, Abandon(id))
    ensures Inv(Step(w, Abandon(id)))
  {
    var w' := Step(w, Abandon(id));
    assert JobOk(w, w.jobs[id]);
    AbandonShape(w, id);
    AbandonKeepsJobs(w, id);
    assert Authoritative(w') == Authoritative(w);
  }

  lemma AbandonShape(w: World, id: nat)
    requires Inv(w) && Enabled(w, Abandon(id))
    ensures Shape(Step(w, Abandon(id)))
  {
    assert JobOk(w, w.jobs[id]);
    AbandonedShape(w, Step(w, Abandon(id)), id, w.jobs[id].phase.out);
  }

  lemma AbandonedShape(w: World, w': World, id: nat, out: Key)
    requires Shape(w) && id in w.jobs && out in w.t.pending && out in w.stored && out !in w.t.live
    requires w' == w.(t := AbandonPending(w.t, out, w.clock), gone := w.gone + {out},
                      jobs := w.jobs[id := w.jobs[id].(phase := Abandoned(out))])
    ensures Shape(w')
  {
    assert w'.t.retired.Keys == w.t.retired.Keys + {out} && w'.t.live == w.t.live && w'.t.pending == w.t.pending - {out};
  }

  lemma AbandonKeepsJobs(w: World, id: nat)
    requires Inv(w) && Enabled(w, Abandon(id))
    ensures JobsOk(Step(w, Abandon(id)))
  {
    var w' := Step(w, Abandon(id));
    assert JobOk(w, w.jobs[id]);
    OthersKept(w, w', id);
    assert JobOk(w', w'.jobs[id]);
  }

  lemma DeleteDecisionsKeep(w: World, a: Action)
    requires Inv(w) && Enabled(w, a) && (a.DeleteOwn? || a.DeleteReclaim? || a.DeleteTierB?)
    ensures Inv(Step(w, a))
  {
    if a.DeleteOwn? {
      assert JobOk(w, w.jobs[a.id]);
    }
    DecisionShape(w, a);
    JobsKept(w, Step(w, a));
  }

  lemma DecisionShape(w: World, a: Action)
    requires Shape(w) && Enabled(w, a) && (a.DeleteOwn? || a.DeleteReclaim? || a.DeleteTierB?)
    requires a.DeleteOwn? ==> JobOk(w, w.jobs[a.id])
    ensures Shape(Step(w, a))
  {}

  lemma DeleteLandsKeeps(w: World, d: nat)
    requires Inv(w) && Enabled(w, DeleteLands(d))
    ensures Inv(Step(w, DeleteLands(d)))
  {
    var w' := Step(w, DeleteLands(d));
    LandShape(w, w', d);
    JobsKept(w, w');
    assert Authoritative(w') == Authoritative(w);
  }

  lemma LandShape(w: World, w': World, d: nat)
    requires Shape(w) && d in w.deletes && w' == LandStep(w, d)
    ensures Shape(w')
  {}

  lemma ConfirmKeeps(w: World, d: nat)
    requires Inv(w) && Enabled(w, Confirm(d))
    ensures Inv(Step(w, Confirm(d)))
  {
    var w' := Step(w, Confirm(d));
    ConfirmShape(w, w', d);
    JobsKept(w, w');
    assert Authoritative(w') == Authoritative(w);
  }

  lemma ConfirmShape(w: World, w': World, d: nat)
    requires Shape(w) && d in w.deletes
    requires w' == ConfirmStep(w, d)
    ensures Shape(w') && w'.t.retired.Keys == w.t.retired.Keys && w'.t.pending == w.t.pending
  {
    assert w'.t.retired.Keys == w.t.retired.Keys;
  }

  lemma ListingsKeep(w: World, a: Action)
    requires Inv(w) && Enabled(w, a) && (a.BeginListing? || a.ListObject? || a.Tick?)
    ensures Inv(Step(w, a))
  {
    ListingShape(w, a);
    JobsKept(w, Step(w, a));
  }

  lemma ListingShape(w: World, a: Action)
    requires Shape(w) && Enabled(w, a) && (a.BeginListing? || a.ListObject? || a.Tick?)
    ensures Shape(Step(w, a))
  {
    ListedShape(w, Step(w, a));
  }

  lemma ListedShape(w: World, w': World)
    requires Shape(w) && w' == w.(clock := w'.clock, listings := w'.listings) && ListingOk(w')
    ensures Shape(w')
  {}

  lemma RefreshKeeps(w: World, l: nat, skipped: seq<string>, shrinkConfirmed: bool)
    requires Inv(w) && l in w.listings && Sound(w, Refresh(l, skipped, shrinkConfirmed))
    ensures Inv(Step(w, Refresh(l, skipped, shrinkConfirmed)))
  {
    var seen, start := w.listings[l].seen, w.listings[l].start;
    var w' := Step(w, Refresh(l, skipped, shrinkConfirmed));
    if Accepts(w.t, Adopted(w.t, seen, start, skipped), shrinkConfirmed) {
      AdoptsOnlyFree(w.t, seen, start, skipped);
      RefreshChanges(w.t, seen, start, skipped, shrinkConfirmed);
      RefreshFrame(w, w', l, Forgotten(w.t, seen, start, skipped));
    } else {
      assert w.t.retired - {} == w.t.retired;
      RefreshFrame(w, w', l, {});
    }
  }

  lemma RefreshFrame(w: World, w': World, l: nat, forgotten: set<Key>)
    requires Inv(w) && l in w.listings && forgotten !! w.stored && Unseen(w, forgotten, {l})
    requires w' == w.(t := w'.t, listings := w.listings - {l})
    requires w'.t.retired == w.t.retired - forgotten
    requires w'.t.pending == w.t.pending && w'.t.held == w.t.held
    requires w'.t.live.Keys <= w.t.live.Keys + (w.listings[l].seen.Keys - w.t.retired.Keys - w.t.pending)
    ensures Inv(w')
  {
    JobsKept(w, w');
    assert Authoritative(w') == Authoritative(w);
  }

  lemma HoldsKeep(w: World, a: Action)
    requires Inv(w) && Enabled(w, a) && Sound(w, a) && (a.Hold? || a.Unhold?)
    ensures Inv(Step(w, a))
  {
    HoldShape(w, a);
    JobsKept(w, Step(w, a));
  }

  lemma HoldShape(w: World, a: Action)
    requires Inv(w) && Enabled(w, a) && Sound(w, a) && (a.Hold? || a.Unhold?)
    ensures Shape(Step(w, a))
  {
    if a.Hold? {
      forall id | id in w.jobs ensures JobOk(w, w.jobs[id]) {}
      HeldShape(w, Step(w, a), a.k);
    } else {
      ReleasedShape(w, Step(w, a), a.k);
    }
  }

  lemma HeldShape(w: World, w': World, k: Key)
    requires Shape(w) && k in w.t.live && k !in w.flushing && w' == w.(t := w.t.(held := w.t.held + {k}))
    requires forall id | id in w.jobs :: JobOk(w, w.jobs[id])
    ensures Shape(w')
  {}

  lemma ReleasedShape(w: World, w': World, k: Key)
    requires Shape(w) && w' == w.(t := w.t.(held := w.t.held - {k}))
    ensures Shape(w')
  {}

  lemma LetGoKeeps(w: World, k: Key)
    requires Inv(w) && Sound(w, LetGo(k))
    ensures Inv(Step(w, LetGo(k)))
  {
    var w' := Step(w, LetGo(k));
    assert w'.t.retired.Keys == w.t.retired.Keys + {k};
    assert w'.t.pending == w.t.pending;
    JobsKept(w, w');
    assert Authoritative(w') == Authoritative(w) - {k};
    SumShrinks(w.archive, Authoritative(w), k);
  }

  lemma ForgetKeeps(w: World, ks: set<Key>)
    requires Inv(w) && Enabled(w, Forget(ks)) && Sound(w, Forget(ks))
    ensures Inv(Step(w, Forget(ks)))
  {
    ForgetFrame(w, Step(w, Forget(ks)), ks);
  }

  lemma ForgetFrame(w: World, w': World, ks: set<Key>)
    requires Inv(w) && w' == w.(t := w.t.(retired := w.t.retired - ks))
    requires ks !! w.stored && Unseen(w, ks, {})
    ensures Inv(w')
  {
    assert w'.t.retired.Keys == w.t.retired.Keys - ks;
    JobsKept(w, w');
    assert Authoritative(w') == Authoritative(w);
  }

  lemma JobStepKeeps(w: World, a: Action)
    requires Inv(w) && Enabled(w, a) && Sound(w, a) && OfJob(a)
    ensures Inv(Step(w, a))
  {
    match a
    case Start(id, partition, sources, rewrite) => StartKeeps(w, id, partition, sources, rewrite);
    case Read(id, k) => ReadKeeps(w, id, k);
    case Claim(id, k) => ClaimKeeps(w, id, k);
    case Upload(id, rows) => UploadKeeps(w, id, rows);
    case UploadFails(id) => UploadFailsKeeps(w, id);
    case Publish(id) => PublishKeeps(w, id);
    case Abandon(id) => AbandonKeeps(w, id);
  }

  lemma DeleteStepKeeps(w: World, a: Action)
    requires Inv(w) && Enabled(w, a) && OfDelete(a)
    ensures Inv(Step(w, a))
  {
    match a
    case DeleteOwn(_, _, _) => DeleteDecisionsKeep(w, a);
    case DeleteReclaim(_, _) => DeleteDecisionsKeep(w, a);
    case DeleteTierB(_, _) => DeleteDecisionsKeep(w, a);
    case DeleteLands(d) => DeleteLandsKeeps(w, d);
    case Confirm(d) => ConfirmKeeps(w, d);
  }

  /** Every step keeps the invariant. */
  lemma StepKeeps(w: World, a: Action)
    requires Inv(w) && Enabled(w, a) && Sound(w, a)
    ensures Inv(Step(w, a))
  {
    if OfJob(a) {
      JobStepKeeps(w, a);
    } else if OfDelete(a) {
      DeleteStepKeeps(w, a);
    } else {
      TableStepKeeps(w, a);
    }
  }

  lemma TableStepKeeps(w: World, a: Action)
    requires Inv(w) && Enabled(w, a) && Sound(w, a) && !OfJob(a) && !OfDelete(a)
    ensures Inv(Step(w, a))
  {
    match a
    case Tick(d) => ListingsKeep(w, a);
    case FlushUpload(k, rows, e) => FlushUploadKeeps(w, k, rows, e);
    case FlushReupload(k) => FlushReuploadKeeps(w, k);
    case FlushRegister(k) => FlushRegisterKeeps(w, k);
    case FlushRetire(k) => FlushRetireKeeps(w, k);
    case BeginListing(l) => ListingsKeep(w, a);
    case ListObject(l, k, e) => ListingsKeep(w, a);
    case Refresh(l, skipped, shrinkConfirmed) => RefreshKeeps(w, l, skipped, shrinkConfirmed);
    case Hold(k) => HoldsKeep(w, a);
    case Unhold(k) => HoldsKeep(w, a);
    case LetGo(k) => LetGoKeeps(w, k);
    case Forget(ks) => ForgetKeeps(w, ks);
  }
}
