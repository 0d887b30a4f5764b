/** The merge / publish / reclaim protocol (internal/compaction/compactor.go,
    internal/compaction/orphan_sweep.go, internal/manifest/retired.go) as a state
    machine. Flushes, merges, delete rewrites, refreshes, reclaims and orphan sweeps
    interleave freely; every step is one critical section of the manifest or one
    request to the object store.

    An object's content is what its rows become in the end (see `LogRows.Settling` and
    `TraceRows.TraceHealing`), so a merge output holds exactly the content of its
    sources. */
module Protocol {
  import opened Catalog
  import opened Sums

  type Row = nat

  /** How far a merge or a delete rewrite has come. */
  datatype Phase =
    | Reading(read: set<Key>)
    | Failed
    | Claimed(out: Key)
    | Uploaded(out: Key)
    | Refused(out: Key)
    | Published(out: Key)
    | Abandoned(out: Key)
    | KeyTaken(out: Key)

  /** One merge (or one delete rewrite) in flight. `planned` holds the raw bytes the
      manifest recorded for each source when it started. */
  datatype Job = Job(partition: string, sources: set<Key>, planned: map<Key, int>, rewrite: bool, phase: Phase)

  /** Who deletes an object: a merge or a rewrite its own, Tier B of the orphan sweep, or a
      reclaim, which remembers when the record it read was made. */
  datatype Deleter = Owner | TierB | Reclaim(at: int)

  datatype Progress = Asked | Landed | Answered

  datatype Delete = Delete(k: Key, deleter: Deleter, progress: Progress)

  /** A bucket listing in progress: when it began and what it has returned. The
      binaries refresh one listing at a time; the model lets any number overlap. */
  datatype Listing = Listing(start: int, seen: map<Key, Entry>)

  datatype World = World(
    clock: int,
    t: Tables,
    archive: map<Key, multiset<Row>>,  // the content of every object ever written
    stored: set<Key>,                  // the objects in the bucket now
    flushing: map<Key, Entry>,         // uploaded by a flush, not registered yet
    refused: set<Key>,                 // flushes whose registration was refused, to be retired again
    jobs: map<nat, Job>,
    deletes: map<nat, Delete>,         // every delete request so far
    listings: map<nat, Listing>,
    gone: set<Key>,                    // every key that was ever retired
    expected: multiset<Row>)           // the rows ingested and not deliberately removed

  const INIT := World(0, EMPTY, map[], {}, map[], {}, map[], map[], map[], {}, multiset{})

  datatype Action =
    | Tick(d: nat)
    | FlushUpload(k: Key, rows: multiset<Row>, e: Entry)
    | FlushReupload(k: Key)
    | FlushRegister(k: Key)
    | FlushRetire(k: Key)
    | Start(id: nat, partition: string, sources: set<Key>, rewrite: bool)
    | Read(id: nat, k: Key)
    | Claim(id: nat, k: Key)
    | Upload(id: nat, rows: multiset<Row>)
    | UploadFails(id: nat)
    | Publish(id: nat)
    | Abandon(id: nat)
    | DeleteOwn(d: nat, id: nat, k: Key)
    | DeleteReclaim(d: nat, k: Key)
    | DeleteTierB(d: nat, k: Key)
    | DeleteLands(d: nat)
    | Confirm(d: nat)
    | BeginListing(l: nat)
    | ListObject(l: nat, k: Key, e: Entry)
    | Refresh(l: nat, skipped: seq<string>, shrinkConfirmed: bool)
    | Hold(k: Key)
    | Unhold(k: Key)
    | LetGo(k: Key)
    | Forget(ks: set<Key>)

  /** The objects whose rows count: stored, not retired, not pending. */
  function Authoritative(w: World): set<Key> {
    w.stored - w.t.retired.Keys - w.t.pending
  }

  ghost function Rows(w: World): multiset<Row> {
    Sum(w.archive, Authoritative(w))
  }

  /** What the code checks before it takes the step. */
  ghost predicate Enabled(w: World, a: Action) {
    match a
    case Tick(d) => true
    case FlushUpload(k, rows, e) => true
    case FlushReupload(k) => k in w.flushing
    case FlushRegister(k) => k in w.flushing
    case FlushRetire(k) => k in w.refused
    case Start(id, partition, sources, rewrite) =>
      id !in w.jobs && sources != {} && sources <= w.t.live.Keys && sources !! w.t.held
    case Read(id, k) =>
      id in w.jobs && w.jobs[id].phase.Reading? && k in w.jobs[id].sources && k in w.stored
    case Claim(id, k) =>
      id in w.jobs && w.jobs[id].phase.Reading? && w.jobs[id].phase.read == w.jobs[id].sources && CanClaim(w.t, k)
    case Upload(id, rows) =>
      id in w.jobs && w.jobs[id].phase.Claimed? &&
      (if w.jobs[id].rewrite then rows <= Sum(w.archive, w.jobs[id].sources)
       else rows == Sum(w.archive, w.jobs[id].sources))
    case UploadFails(id) => id in w.jobs && w.jobs[id].phase.Claimed?
    case Publish(id) => id in w.jobs && w.jobs[id].phase.Uploaded?
    case Abandon(id) => id in w.jobs && w.jobs[id].phase.Refused?
    case DeleteOwn(d, id, k) =>
      d !in w.deletes && id in w.jobs &&
      ((w.jobs[id].phase.Published? && k in w.jobs[id].sources) || w.jobs[id].phase == Abandoned(k))
    case DeleteReclaim(d, k) => d !in w.deletes && k in w.t.retired && w.t.retired[k].reclaim && k !in w.t.live
    case DeleteTierB(d, k) =>
      && d !in w.deletes && k in w.t.retired && !w.t.retired[k].deleted
      && k !in w.t.pending && k !in w.t.held && k !in w.t.live
    case DeleteLands(d) => d in w.deletes
    case Confirm(d) => d in w.deletes && w.deletes[d].progress.Landed?
    case BeginListing(l) => l !in w.listings
    case ListObject(l, k, e) => l in w.listings && k in w.stored
    case Refresh(l, skipped, shrinkConfirmed) => l in w.listings
    case Hold(k) => k != ""
    case Unhold(k) => true
    case LetGo(k) => true
    case Forget(ks) => Prunes(w.t, ks, w.clock)
  }

  /** No object and no upload was ever made under the key. */
  predicate Fresh(w: World, k: Key) {
    k !in w.archive && k !in w.t.pending
  }

  /** The records this refresh would forget. */
  function Forgets(w: World, l: nat, skipped: seq<string>, shrinkConfirmed: bool): set<Key>
    requires l in w.listings
  {
    var seen, start := w.listings[l].seen, w.listings[l].start;
    if Accepts(w.t, Adopted(w.t, seen, start, skipped), shrinkConfirmed) then Forgotten(w.t, seen, start, skipped) else {}
  }

  /** No listing in progress, other than `except`, has returned one of the keys. */
  predicate Unseen(w: World, ks: set<Key>, except: set<nat>) {
    forall m | m in w.listings && m !in except :: ks !! w.listings[m].seen.Keys
  }

  /** What the code relies on but does not check: random ids do not repeat, a
      listing does not miss a retired object that still exists, a flush uploads again and
      registers its key before the key's whole life has been forgotten, a record outlives its object
      and the listings that saw it, and a component holds or lets go of an object that
      is there to hold or let go of. */
  predicate Sound(w: World, a: Action) {
    match a
    case FlushUpload(k, rows, e) => Fresh(w, k)
    case Claim(id, k) => Fresh(w, k)
    case FlushReupload(k) => k in w.stored || k in w.t.retired
    case FlushRegister(k) => k in w.stored || k in w.t.retired
    case Refresh(l, skipped, shrinkConfirmed) =>
      l in w.listings ==>
        Forgets(w, l, skipped, shrinkConfirmed) !! w.stored && Unseen(w, Forgets(w, l, skipped, shrinkConfirmed), {l})
    case Forget(ks) => ks !! w.stored && Unseen(w, ks, {})
    case Hold(k) => k in w.t.live && k !in w.flushing
    case LetGo(k) => k in Authoritative(w)
    case _ => true
  }

  /** The merged entry's raw bytes: the sum over the planned sources. */
  ghost function PlannedRaw(j: Job): int {
    Count(j.planned, j.sources)
  }

  ghost function PublishEffect(w: World, j: Job, out: Key): World {
    if CanReplace(w.t, j.partition, j.sources, out) then
      w.(t := ReplaceFiles(w.t, j.partition, j.sources, out, Entry(j.partition, PlannedRaw(j)), w.clock),
         gone := w.gone + j.sources,
         expected := if j.rewrite then w.expected - Sum(w.archive, j.sources) + At(w.archive, out) else w.expected)
    else w
  }

  function AbandonEffect(w: World, out: Key): World {
    if out in w.t.live then w else w.(t := AbandonPending(w.t, out, w.clock), gone := w.gone + {out})
  }

  /** AddFileUnlessRetired: a refused flush has its key still to retire. */
  function RegisterStep(w: World, k: Key): World
    requires k in w.flushing
  {
    w.(t := AddFileUnlessRetired(w.t, k, w.flushing[k], w.clock), flushing := w.flushing - {k},
       refused := if k in w.t.retired then w.refused + {k} else w.refused)
  }

  /** The object goes; a request may reach the store more than once. */
  function LandStep(w: World, d: nat): World
    requires d in w.deletes
  {
    var now := if w.deletes[d].progress.Asked? then w.deletes[d].(progress := Landed) else w.deletes[d];
    w.(stored := w.stored - {now.k}, deletes := w.deletes[d := now])
  }

  /** What the deleter records when its request has returned. */
  function Confirmed(t: Tables, delete: Delete): Tables {
    match delete.deleter
    case Reclaim(at) => SettleReclaimed(t, delete.k, at)
    case _ => ConfirmDeleted(t, delete.k)
  }

  function ConfirmStep(w: World, d: nat): World
    requires d in w.deletes
  {
    w.(t := Confirmed(w.t, w.deletes[d]), deletes := w.deletes[d := w.deletes[d].(progress := Answered)])
  }

  /** The steps of a merge or a rewrite. */
  predicate OfJob(a: Action) {
    a.Start? || a.Read? || a.Claim? || a.Upload? || a.UploadFails? || a.Publish? || a.Abandon?
  }

  /** How far the job is after the step. */
  function NextPhase(w: World, j: Job, a: Action): Phase {
    match (a, j.phase)
    case (Read(_, k), Reading(read)) => Reading(read + {k})
    case (Claim(_, k), _) => Claimed(k)
    case (Upload(_, _), Claimed(out)) => Uploaded(out)
    case (UploadFails(_), _) => Failed
    case (Publish(_), Uploaded(out)) => if CanReplace(w.t, j.partition, j.sources, out) then Published(out) else Refused(out)
    case (Abandon(_), Refused(out)) => if out in w.t.live then KeyTaken(out) else Abandoned(out)
    case _ => j.phase
  }

  /** What the step does to the manifest and the bucket. */
  ghost function JobEffect(w: World, j: Job, a: Action): World {
    match (a, j.phase)
    case (Claim(_, k), _) => w.(t := ClaimPending(w.t, k))
    case (Upload(_, rows), Claimed(out)) => w.(archive := w.archive[out := rows], stored := w.stored + {out})
    case (UploadFails(_), Claimed(out)) => w.(t := ReleasePending(w.t, out))
    case (Publish(_), Uploaded(out)) => PublishEffect(w, j, out)
    case (Abandon(_), Refused(out)) => AbandonEffect(w, out)
    case _ => w
  }

  ghost function JobStep(w: World, a: Action): World
    requires Enabled(w, a) && OfJob(a)
  {
    if a.Start? then
      var planned := map k | k in a.sources :: w.t.live[k].raw;
      w.(jobs := w.jobs[a.id := Job(a.partition, a.sources, planned, a.rewrite, Reading({}))])
    else
      var j := w.jobs[a.id];
      JobEffect(w, j, a).(jobs := w.jobs[a.id := j.(phase := NextPhase(w, j, a))])
  }

  /** The steps of a delete. */
  predicate OfDelete(a: Action) {
    a.DeleteOwn? || a.DeleteReclaim? || a.DeleteTierB? || a.DeleteLands? || a.Confirm?
  }

  ghost function DeleteStep(w: World, a: Action): World
    requires Enabled(w, a) && OfDelete(a)
  {
    match a
    case DeleteOwn(d, id, k) => w.(deletes := w.deletes[d := Delete(k, Owner, Asked)])
    case DeleteReclaim(d, k) => w.(deletes := w.deletes[d := Delete(k, Reclaim(w.t.retired[k].at), Asked)])
    case DeleteTierB(d, k) => w.(deletes := w.deletes[d := Delete(k, TierB, Asked)])
    case DeleteLands(d) => LandStep(w, d)
    case Confirm(d) => ConfirmStep(w, d)
  }

  ghost function Step(w: World, a: Action): World
    requires Enabled(w, a)
  {
    if OfJob(a) then JobStep(w, a) else if OfDelete(a) then DeleteStep(w, a) else
    match a
    case Tick(d) => w.(clock := w.clock + d)
    case FlushUpload(k, rows, e) =>
      w.(archive := w.archive[k := rows], stored := w.stored + {k}, flushing := w.flushing[k := e],
         expected := w.expected + rows)
    case FlushReupload(k) => w.(stored := w.stored + {k})
    case FlushRegister(k) => RegisterStep(w, k)
    case FlushRetire(k) => w.(t := Retire(w.t, k, "", true, w.clock), refused := w.refused - {k})
    case BeginListing(l) => w.(listings := w.listings[l := Listing(w.clock, map[])])
    case ListObject(l, k, e) =>
      w.(listings := w.listings[l := w.listings[l].(seen := w.listings[l].seen[k := e])])
    case Refresh(l, skipped, shrinkConfirmed) =>
      w.(t := ApplyListing(w.t, w.listings[l].seen, w.listings[l].start, skipped, shrinkConfirmed), listings := w.listings - {l})
    case Hold(k) => w.(t := w.t.(held := w.t.held + {k}))
    case Unhold(k) => w.(t := w.t.(held := w.t.held - {k}))
    case LetGo(k) =>
      w.(t := RemoveFile(w.t, k, w.clock), gone := w.gone + {k}, expected := w.expected - At(w.archive, k))
    case Forget(ks) => w.(t := Prune(w.t, ks))
  }

  // ---- The invariant -------------------------------------------------------

  predicate TablesOk(w: World) {
    && w.t.live.Keys <= w.stored && w.t.live.Keys !! w.t.retired.Keys && w.t.live.Keys !! w.t.pending
    && w.t.pending !! w.gone
    && w.t.retired.Keys <= w.gone && w.gone * w.stored <= w.t.retired.Keys
    && w.gone <= w.archive.Keys && w.stored <= w.archive.Keys
  }

  /** An output that is uploaded and not settled: pending, stored, and holding what
      its sources hold (a rewrite: part of it). */
  ghost predicate OutputOk(w: World, j: Job, out: Key) {
    && out in w.t.pending && out in w.stored && j.sources <= w.archive.Keys && out !in j.sources
    && (if j.rewrite then At(w.archive, out) <= Sum(w.archive, j.sources)
        else At(w.archive, out) == Sum(w.archive, j.sources))
  }

  ghost predicate JobOk(w: World, j: Job) {
    match j.phase
    case Reading(read) => read <= w.archive.Keys
    case Failed => true
    case Claimed(out) => out in w.t.pending && out !in w.archive && j.sources <= w.archive.Keys
    case Uploaded(out) => OutputOk(w, j, out)
    case Refused(out) => OutputOk(w, j, out)
    case Published(out) => j.sources <= w.gone
    case Abandoned(out) => out in w.gone
    case KeyTaken(out) => false
  }

  predicate Unsettled(p: Phase) {
    p.Claimed? || p.Uploaded? || p.Refused?
  }

  ghost predicate JobsOk(w: World) {
    && (forall id | id in w.jobs :: JobOk(w, w.jobs[id]))
    && (forall i, j | i in w.jobs && j in w.jobs && i != j && Unsettled(w.jobs[i].phase) && Unsettled(w.jobs[j].phase) ::
          w.jobs[i].phase.out != w.jobs[j].phase.out)
  }

  /** No two published jobs had a source in common. */
  predicate Exclusive(w: World) {
    forall i, j | i in w.jobs && j in w.jobs && i != j && w.jobs[i].phase.Published? && w.jobs[j].phase.Published? ::
      w.jobs[i].sources !! w.jobs[j].sources
  }

  predicate DeletesOk(w: World) {
    && (forall d | d in w.deletes :: w.deletes[d].k in w.gone && w.deletes[d].k !in w.t.held)
    && w.t.held <= w.archive.Keys && w.t.held !! w.t.pending
    && (forall k | k in w.t.held && k in w.t.retired :: !w.t.retired[k].reclaim)
    && (forall id | id in w.jobs && w.jobs[id].phase.Published? :: w.jobs[id].sources !! w.t.held)
    && (forall id | id in w.jobs && w.jobs[id].phase.Abandoned? :: w.jobs[id].phase.out !in w.t.held)
  }

  predicate FlushesOk(w: World) {
    && w.flushing.Keys <= w.archive.Keys && w.flushing.Keys !! w.t.pending && w.flushing.Keys !! w.t.held
    && w.refused <= w.gone && w.refused !! w.t.held
  }

  predicate ListingOk(w: World) {
    forall l | l in w.listings :: w.listings[l].seen.Keys <= w.stored + w.t.retired.Keys
  }

  /** What does not depend on the jobs' own progress or on the rows. */
  predicate Shape(w: World) {
    TablesOk(w) && Exclusive(w) && DeletesOk(w) && FlushesOk(w) && ListingOk(w)
  }

  ghost predicate Inv(w: World) {
    Shape(w) && JobsOk(w) && Rows(w) == w.expected
  }
}
