/** The raw bytes the manifest reports (internal/compaction/compactor.go, the carry-forward
    of RawBytes): a publish adds up what its sources recorded when the merge started, so
    the total survives it unless a refresh replaced a source's entry in between. */
module ProtocolRaw {
  import opened Catalog
  import opened Sums
  import opened Protocol
  import opened ProtocolSafety
  import opened ProtocolRuns

  ghost function RawOf(t: Tables): map<Key, int> {
    map k | k in t.live :: t.live[k].raw
  }

  /** The raw bytes the manifest reports for what it serves. */
  ghost function TotalRaw(t: Tables): int {
    Count(RawOf(t), t.live.Keys)
  }

  /** A publish moves the served raw bytes by the difference between what was recorded
      for its sources at the start and what the manifest records now. */
  lemma PublishMovesRaw(w: World, id: nat)
    requires Inv(w) && Enabled(w, Publish(id))
    requires var j := w.jobs[id]; CanReplace(w.t, j.partition, j.sources, j.phase.out)
    ensures TotalRaw(Step(w, Publish(id)).t)
            == TotalRaw(w.t) + PlannedRaw(w.jobs[id]) - Count(RawOf(w.t), w.jobs[id].sources)
  {
    var j, out := w.jobs[id], w.jobs[id].phase.out;
    assert JobOk(w, j);
    ReplacedTables(w.t, j.partition, j.sources, out, Entry(j.partition, PlannedRaw(j)), w.clock);
    SwapMovesRaw(w.t, Step(w, Publish(id)).t, j.sources, out, PlannedRaw(j));
  }

  lemma SwapMovesRaw(t: Tables, t': Tables, sources: set<Key>, out: Key, raw: int)
    requires sources <= t.live.Keys && out !in t.live && t'.live.Keys == t.live.Keys - sources + {out} && t'.live[out].raw == raw
    requires forall o | o in t.live && o !in sources :: t'.live[o] == t.live[o]
    ensures TotalRaw(t') == TotalRaw(t) + raw - Count(RawOf(t), sources)
  {
    var rest := t.live.Keys - sources;
    assert t.live.Keys == rest + sources;
    CountSplit(RawOf(t), rest, sources);
    CountTake(RawOf(t'), t'.live.Keys, out);
    assert t'.live.Keys - {out} == rest;
    CountFrame(RawOf(t), RawOf(t'), rest);
  }

  // ---- What can happen to a source's entry ------------------------------------------

  /** The step is a refresh that replaces the served entry of `k`: its listing does not
      return `k` (and nothing else keeps it), or returns it in another partition. */
  predicate Replaces(w: World, a: Action, k: Key) {
    && a.Refresh? && a.l in w.listings && k in w.t.live
    && var seen, start := w.listings[a.l].seen, w.listings[a.l].start;
       && Accepts(w.t, Adopted(w.t, seen, start, a.skipped), a.shrinkConfirmed)
       && (k !in Adopted(w.t, seen, start, a.skipped) || (k in seen && seen[k].partition != w.t.live[k].partition))
  }

  /** Some refresh of the run replaces the entry of `k`. */
  ghost predicate Replaced(w: World, run: seq<Action>, k: Key)
    requires Legal(w, run)
    decreases |run|
  {
    run != [] && (Replaces(w, run[0], k) || Replaced(Step(w, run[0]), run[1..], k))
  }

  lemma RefreshKeepsEntry(w: World, a: Action, k: Key)
    requires TablesOk(w) && a.Refresh? && Enabled(w, a) && k in w.t.live && !Replaces(w, a, k)
    ensures k in Step(w, a).t.live && Step(w, a).t.live[k] == w.t.live[k]
  {}

  predicate Unserves(a: Action) {
    a.Publish? || a.Abandon? || a.LetGo?
  }

  lemma OthersServeOn(w: World, a: Action, k: Key)
    requires Enabled(w, a) && !a.Refresh? && !Unserves(a) && k in w.t.live
    ensures k in Step(w, a).t.live && Step(w, a).t.live[k] == w.t.live[k]
  {
    if OfJob(a) { JobServesOn(w, a); }
  }

  lemma JobServesOn(w: World, a: Action)
    requires Enabled(w, a) && OfJob(a) && !Unserves(a)
    ensures JobStep(w, a).t.live == w.t.live
  {}

  lemma UnservedIsGone(w: World, a: Action, k: Key)
    requires Inv(w) && Enabled(w, a) && Unserves(a) && k in w.t.live
    ensures k in Step(w, a).gone || (k in Step(w, a).t.live && Step(w, a).t.live[k] == w.t.live[k])
  {
    if a.LetGo? {
      LetGoServesOn(w, a.k, k);
    } else {
      var j := w.jobs[a.id];
      assert JobOk(w, j);
      if a.Publish? { PublishServesOn(w, j, j.phase.out, k); } else { AbandonServesOn(w, j.phase.out, k); }
    }
  }

  lemma LetGoServesOn(w: World, gone: Key, k: Key)
    requires k in w.t.live
    ensures var w' := Step(w, LetGo(gone)); k in w'.gone || (k in w'.t.live && w'.t.live[k] == w.t.live[k])
  {}

  lemma AbandonServesOn(w: World, out: Key, k: Key)
    requires k in w.t.live
    ensures var w' := AbandonEffect(w, out); k in w'.t.live && w'.t.live[k] == w.t.live[k]
  {}

  lemma PublishServesOn(w: World, j: Job, out: Key, k: Key)
    requires TablesOk(w) && OutputOk(w, j, out) && k in w.t.live
    ensures var w' := PublishEffect(w, j, out);
            k in w'.gone || (k in w'.t.live && w'.t.live[k] == w.t.live[k])
  {
    if CanReplace(w.t, j.partition, j.sources, out) {
      ReplacedTables(w.t, j.partition, j.sources, out, Entry(j.partition, PlannedRaw(j)), w.clock);
    }
  }

  /** A step leaves a served entry as it is, or retires its key for good. */
  lemma EntryKept(w: World, a: Action, k: Key)
    requires Inv(w) && Enabled(w, a) && k in w.t.live && !Replaces(w, a, k)
    ensures k in Step(w, a).gone || (k in Step(w, a).t.live && Step(w, a).t.live[k] == w.t.live[k])
  {
    if a.Refresh? {
      RefreshKeepsEntry(w, a, k);
    } else if Unserves(a) {
      UnservedIsGone(w, a, k);
    } else {
      OthersServeOn(w, a, k);
    }
  }

  lemma {:induction false} EntryKeptOverRun(w: World, run: seq<Action>, k: Key)
    requires Inv(w) && Legal(w, run) && k in w.t.live && !Replaced(w, run, k) && k in Exec(w, run).t.live
    ensures Exec(w, run).t.live[k] == w.t.live[k]
    decreases |run|
  {
    if run != [] {
      var w' := Step(w, run[0]);
      StepKeeps(w, run[0]);
      EntryKept(w, run[0], k);
      if k in w'.gone { RetiredStaysOut(w', run[1..], k); }
      EntryKeptOverRun(w', run[1..], k);
    }
  }

  lemma OthersLeaveJobs(w: World, a: Action)
    requires Enabled(w, a) && !OfJob(a)
    ensures Step(w, a).jobs == w.jobs
  {}

  lemma JobKeptByStep(w: World, a: Action, id: nat)
    requires Enabled(w, a) && id in w.jobs
    ensures id in Step(w, a).jobs
    ensures Step(w, a).jobs[id] == w.jobs[id].(phase := Step(w, a).jobs[id].phase)
  {
    if OfJob(a) { OwnStep(w, a, id); } else { OthersLeaveJobs(w, a); }
  }

  lemma OwnStep(w: World, a: Action, id: nat)
    requires Enabled(w, a) && OfJob(a) && id in w.jobs
    ensures id in JobStep(w, a).jobs
    ensures JobStep(w, a).jobs[id] == w.jobs[id].(phase := JobStep(w, a).jobs[id].phase)
  {}

  lemma {:induction false} JobOverRun(w: World, run: seq<Action>, id: nat)
    requires Legal(w, run) && id in w.jobs
    ensures id in Exec(w, run).jobs
    ensures Exec(w, run).jobs[id] == w.jobs[id].(phase := Exec(w, run).jobs[id].phase)
    decreases |run|
  {
    if run != [] {
      JobKeptByStep(w, run[0], id);
      JobOverRun(Step(w, run[0]), run[1..], id);
    }
  }

  lemma KeptSum(at: map<Key, int>, now: map<Key, int>, sources: set<Key>, replaced: set<Key>)
    requires replaced <= sources && forall k | k in sources - replaced :: k in at && k in now && at[k] == now[k]
    ensures Count(at, sources) - Count(now, sources) == Count(at, replaced) - Count(now, replaced)
  {
    assert sources == (sources - replaced) + replaced;
    CountSplit(at, sources - replaced, replaced);
    CountSplit(now, sources - replaced, replaced);
    CountFrame(at, now, sources - replaced);
  }

  /** The recorded sum moves by what was replaced. */
  lemma RecordedSum(w: World, begun: World, run: seq<Action>, id: nat, replaced: set<Key>)
    requires Inv(begun) && Legal(begun, run) && id in begun.jobs && begun.t == w.t
    requires begun.jobs[id].sources <= w.t.live.Keys
    requires begun.jobs[id].planned == map k | k in begun.jobs[id].sources :: w.t.live[k].raw
    requires begun.jobs[id].sources <= Exec(begun, run).t.live.Keys
    requires replaced == (set k | k in begun.jobs[id].sources && Replaced(begun, run, k))
    ensures PlannedRaw(begun.jobs[id]) - Count(RawOf(Exec(begun, run).t), begun.jobs[id].sources)
            == Count(RawOf(w.t), replaced) - Count(RawOf(Exec(begun, run).t), replaced)
  {
    var now, sources := Exec(begun, run), begun.jobs[id].sources;
    CountFrame(begun.jobs[id].planned, RawOf(w.t), sources);
    forall k | k in sources - replaced ensures RawOf(w.t)[k] == RawOf(now.t)[k] {
      EntryKeptOverRun(begun, run, k);
    }
    KeptSum(RawOf(w.t), RawOf(now.t), sources, replaced);
  }

  /** A merge that started in `w`, ran through any steps of anyone, and publishes now:
      the served raw bytes stay the same exactly when the sources whose entries a
      refresh replaced meanwhile record the same sum as at the start; in particular
      when none was replaced. */
  lemma PublishKeepsRawIff(
    w: World, start: Action, begun: World, run: seq<Action>, now: World, replaced: set<Key>)
    requires Inv(w) && start.Start? && Enabled(w, start) && begun == Step(w, start)
    requires Legal(begun, run) && now == Exec(begun, run)
    requires replaced == (set k | k in start.sources && Replaced(begun, run, k))
    requires Enabled(now, Publish(start.id))
    requires var j := now.jobs[start.id]; CanReplace(now.t, j.partition, j.sources, j.phase.out)
    ensures TotalRaw(Step(now, Publish(start.id)).t) == TotalRaw(now.t)
            <==> Count(RawOf(w.t), replaced) == Count(RawOf(now.t), replaced)
    ensures replaced == {} ==> TotalRaw(Step(now, Publish(start.id)).t) == TotalRaw(now.t)
  {
    StartRecords(w, start);
    RunMovesRaw(w, begun, run, now, start.id, replaced);
  }

  lemma RunMovesRaw(w: World, begun: World, run: seq<Action>, now: World, id: nat, replaced: set<Key>)
    requires Inv(begun) && Legal(begun, run) && now == Exec(begun, run) && id in begun.jobs && begun.t == w.t
    requires begun.jobs[id].sources <= w.t.live.Keys
    requires begun.jobs[id].planned == map k | k in begun.jobs[id].sources :: w.t.live[k].raw
    requires replaced == (set k | k in begun.jobs[id].sources && Replaced(begun, run, k))
    requires Enabled(now, Publish(id))
    requires var j := now.jobs[id]; CanReplace(now.t, j.partition, j.sources, j.phase.out)
    ensures TotalRaw(Step(now, Publish(id)).t)
            == TotalRaw(now.t) + Count(RawOf(w.t), replaced) - Count(RawOf(now.t), replaced)
  {
    RunKeeps(begun, run);
    JobOverRun(begun, run, id);
    RecordedSum(w, begun, run, id, replaced);
    PublishMovesRaw(now, id);
  }

  lemma StartRecords(w: World, start: Action)
    requires Inv(w) && start.Start? && Enabled(w, start)
    ensures var begun := Step(w, start);
            && Inv(begun) && begun.t == w.t && start.id in begun.jobs
            && begun.jobs[start.id].sources == start.sources <= w.t.live.Keys
            && begun.jobs[start.id].planned == map k | k in start.sources :: w.t.live[k].raw
  {
    StepKeeps(w, start);
  }
}
