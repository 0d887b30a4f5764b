/** The manifest as the process holds it: the operations of `Catalog`, in place. */
module Manifests {
  import opened Catalog

  /** What a publish leaves: the sources are out, each owed its delete and naming its
      replacement, and the output is in. */
  ghost predicate Swapped(t: Tables, olds: seq<Key>, k: Key, e: Entry, now: int, t': Tables) {
    && t'.held == t.held && t'.adds == t.adds[k := now]
    && t'.live.Keys == (t.live.Keys - set o | o in olds) + {k} && t'.live[k] == e
    && (forall o | o in t.live && o !in olds && o != k :: t'.live[o] == t.live[o])
    && t'.pending == t.pending - (set o | o in olds) - {k}
    && t'.retired.Keys == (t.retired.Keys + set o | o in olds) - {k}
    && (forall o | o in olds && o != k ::
          t'.retired[o].at == now && t'.retired[o].reclaim && !t'.retired[o].deleted && (k != "" ==> t'.retired[o].replacedBy == k))
    && (forall o | o in t.retired && o !in olds && o != k :: t'.retired[o] == t.retired[o])
  }

  lemma SwapIsPlain(t: Tables, olds: seq<Key>, k: Key, e: Entry, now: int)
    ensures Swapped(t, olds, k, e, now, Catalog.AddFile(RetireSources(t, KeySet(olds), k, now), k, e, now))
            || (k in t.live && k !in olds)
  {}

  /** The object is under a prefix that the listing could not cover. */
  predicate Uncovered(k: Key, skipped: seq<string>) {
    exists p | p in skipped :: |p| <= |k| && k[..|p|] == p
  }

  /** What an accepted refresh leaves. Served: what the listing returned and nobody let go
      of or has pending, and of what was served what was published since the listing began
      or lies where it could not look. Forgotten: records older than the listing of keys it
      did not return, where it could look. */
  ghost predicate Refreshed(t: Tables, listed: map<Key, Entry>, start: int, skipped: seq<string>, t': Tables) {
    && t'.pending == t.pending && t'.held == t.held
    && Served(t, listed, start, skipped, t'.live) && Remembered(t, listed, start, skipped, t'.retired)
    && (forall k :: k in t'.adds <==> k in t.adds && t.adds[k] >= start)
    && (forall k | k in t'.adds :: t'.adds[k] == t.adds[k])
  }

  ghost predicate Served(t: Tables, listed: map<Key, Entry>, start: int, skipped: seq<string>, next: map<Key, Entry>) {
    && (forall k :: k in next <==>
          || (k in listed && k !in t.retired && k !in t.pending)
          || (k in t.live && k !in listed && k in t.adds && t.adds[k] >= start)
          || (k in t.live && Uncovered(k, skipped)))
    && (forall k | k in next && k in t.live && (k !in listed || listed[k].partition == t.live[k].partition) :: next[k] == t.live[k])
    && (forall k | k in next && k !in t.live :: next[k] == listed[k])
  }

  ghost predicate Remembered(t: Tables, listed: map<Key, Entry>, start: int, skipped: seq<string>, records: map<Key, Retirement>) {
    && (forall k :: k in records <==> k in t.retired && (k in listed || t.retired[k].at >= start || Uncovered(k, skipped)))
    && (forall k | k in records :: records[k] == t.retired[k])
  }

  lemma AdoptedIsServed(t: Tables, listed: map<Key, Entry>, start: int, skipped: seq<string>)
    ensures Served(t, listed, start, skipped, map k | k in Adopted(t, listed, start, skipped) :: AdoptedEntry(t, listed, k))
  {
    forall k ensures UnderSkipped(k, skipped) <==> Uncovered(k, skipped) { SkippedIsUncovered(k, skipped); }
  }

  lemma ForgottenIsGone(t: Tables, listed: map<Key, Entry>, start: int, skipped: seq<string>)
    ensures Remembered(t, listed, start, skipped, t.retired - Forgotten(t, listed, start, skipped))
  {
    forall k ensures UnderSkipped(k, skipped) <==> Uncovered(k, skipped) { SkippedIsUncovered(k, skipped); }
  }

  lemma SkippedIsUncovered(k: Key, skipped: seq<string>)
    ensures UnderSkipped(k, skipped) <==> Uncovered(k, skipped)
  {
    if i :| 0 <= i < |skipped| && skipped[i] <= k { assert skipped[i] in skipped; }
    if p :| p in skipped && |p| <= |k| && k[..|p|] == p {
      var i :| 0 <= i < |skipped| && skipped[i] == p;
      assert skipped[i] <= k;
    }
  }

  lemma RefreshIsPlain(t: Tables, listed: map<Key, Entry>, start: int, skipped: seq<string>, shrinkConfirmed: bool)
    requires Accepts(t, Adopted(t, listed, start, skipped), shrinkConfirmed)
    ensures Refreshed(t, listed, start, skipped, Catalog.ApplyListing(t, listed, start, skipped, shrinkConfirmed))
  {
    AdoptedIsServed(t, listed, start, skipped);
    ForgottenIsGone(t, listed, start, skipped);
  }

  /** Whatever the listing says, what it could not look at stays as it is, and a file
      published since it began stays served. */
  lemma UncoveredStays(t: Tables, listed: map<Key, Entry>, start: int, skipped: seq<string>, shrinkConfirmed: bool, p: string, k: Key)
    requires p in skipped && |p| <= |k| && k[..|p|] == p
    ensures var t' := Catalog.ApplyListing(t, listed, start, skipped, shrinkConfirmed);
            && (k in t.live ==> k in t'.live && (k !in listed ==> t'.live[k] == t.live[k]))
            && (k in t.retired ==> k in t'.retired && t'.retired[k] == t.retired[k])
  {
    if Accepts(t, Adopted(t, listed, start, skipped), shrinkConfirmed) {
      RefreshIsPlain(t, listed, start, skipped, shrinkConfirmed);
      assert Uncovered(k, skipped);
    }
  }

  lemma RecentStays(t: Tables, listed: map<Key, Entry>, start: int, skipped: seq<string>, shrinkConfirmed: bool, k: Key)
    requires k in t.live && k !in listed && k in t.adds && t.adds[k] >= start
    ensures var t' := Catalog.ApplyListing(t, listed, start, skipped, shrinkConfirmed);
            k in t'.live && t'.live[k] == t.live[k] && k in t'.adds && t'.adds[k] == t.adds[k]
  {
    if Accepts(t, Adopted(t, listed, start, skipped), shrinkConfirmed) {
      RefreshIsPlain(t, listed, start, skipped, shrinkConfirmed);
    }
  }

  /** The tables as the process holds them. */
  class Manifest {
    var live: map<Key, Entry>
    var pending: set<Key>
    var held: set<Key>
    var retired: map<Key, Retirement>
    var adds: map<Key, int>

    function State(): Tables
      reads this
    {
      Tables(live, pending, held, retired, adds)
    }

    constructor ()
      ensures State() == EMPTY
    {
      live, pending, held, retired, adds := map[], {}, {}, map[], map[];
    }

    method ClaimPending(k: Key) returns (ok: bool)
      modifies this
      ensures ok == CanClaim(old(State()), k)
      ensures State() == Catalog.ClaimPending(old(State()), k)
      ensures ok <==> k != "" && k !in old(live) && k !in old(retired) && k !in old(pending)
      ensures State() == old(State()).(pending := if ok then old(pending) + {k} else old(pending))
    {
      if k == "" { return false; }
      if k in live { return false; }
      if k in retired { return false; }
      if k in pending { return false; }
      pending := pending + {k};
      return true;
    }

    method ReleasePending(k: Key)
      modifies this
      ensures State() == Catalog.ReleasePending(old(State()), k)
      ensures State() == old(State()).(pending := old(pending) - {k})
    {
      pending := pending - {k};
    }

    method RetireLocked(k: Key, winner: Key, reclaim: bool, now: int)
      modifies this
      ensures State() == Catalog.Retire(old(State()), k, winner, reclaim, now)
      ensures live == old(live) && held == old(held) && adds == old(adds) && pending == old(pending) - {k}
      ensures retired.Keys == old(retired.Keys) + {k} && forall o | o in old(retired) && o != k :: retired[o] == old(retired[o])
      ensures var was := if k in old(retired) then old(retired)[k] else Retirement(now, "", false, false);
              retired[k] == Retirement(now, if winner != "" then winner else was.replacedBy, reclaim || was.reclaim, false)
    {
      var winner', reclaim' := winner, reclaim;
      if k in retired {
        reclaim' := reclaim || retired[k].reclaim;
        if winner == "" { winner' := retired[k].replacedBy; }
      }
      retired := retired[k := Retirement(now, winner', reclaim', false)];
      pending := pending - {k};
    }

    method AbandonPending(k: Key, now: int)
      modifies this
      ensures State() == Catalog.AbandonPending(old(State()), k, now)
      ensures live == old(live) - {k} && pending == old(pending) - {k} && held == old(held) && adds == old(adds)
      ensures k in retired && retired[k].at == now && retired[k].reclaim && !retired[k].deleted
      ensures retired.Keys == old(retired.Keys) + {k} && forall o | o in old(retired) && o != k :: retired[o] == old(retired[o])
    {
      live := live - {k};
      RetireLocked(k, "", true, now);
    }

    method AddFileLocked(k: Key, e: Entry, now: int)
      modifies this
      ensures State() == Catalog.AddFile(old(State()), k, e, now)
      ensures k in old(live) ==> State() == old(State())
      ensures k !in old(live) ==>
                State() == Tables(old(live)[k := e], old(pending) - {k}, old(held), old(retired) - {k}, old(adds)[k := now])
    {
      if k in live { return; }
      pending := pending - {k};
      retired := retired - {k};
      adds := adds[k := now];
      live := live[k := e];
    }

    /** Every source is still registered here and not held. */
    method SourcesPresent(partition: string, olds: seq<Key>) returns (ok: bool)
      ensures ok == forall o | o in olds :: o in live && live[o].partition == partition && o !in held
    {
      for i := 0 to |olds|
        invariant forall j | 0 <= j < i :: olds[j] in live && live[olds[j]].partition == partition && olds[j] !in held
      {
        if olds[i] !in live || live[olds[i]].partition != partition || olds[i] in held {
          return false;
        }
      }
      return true;
    }

    method RetireAll(olds: seq<Key>, k: Key, now: int)
      modifies this
      ensures State() == RetireSources(old(State()), KeySet(olds), k, now)
    {
      ghost var t := State();
      assert RetireSources(t, KeySet([]), k, now) == t;
      for i := 0 to |olds|
        invariant State() == RetireSources(t, KeySet(olds[..i]), k, now)
      {
        assert olds[..i + 1] == olds[..i] + [olds[i]];
        assert KeySet(olds[..i + 1]) == KeySet(olds[..i]) + {olds[i]};
        RetireOneMore(t, KeySet(olds[..i]), olds[i], k, now);
        live := live - {olds[i]};
        RetireLocked(olds[i], k, true, now);
      }
      assert olds[..|olds|] == olds;
    }

    /** The publish: a conditional swap in one step. */
    method ReplaceFiles(partition: string, olds: seq<Key>, k: Key, e: Entry, now: int) returns (ok: bool)
      modifies this
      ensures ok == CanReplace(old(State()), partition, KeySet(olds), k)
      ensures State() == Catalog.ReplaceFiles(old(State()), partition, KeySet(olds), k, e, now)
      ensures ok <==>
                && (forall o | o in olds :: o in old(live) && old(live)[o].partition == partition && o !in old(held))
                && (k !in old(live) || k in olds)
      ensures !ok ==> State() == old(State())
      ensures ok ==> Swapped(old(State()), olds, k, e, now, State())
    {
      var present := SourcesPresent(partition, olds);
      if !present { return false; }
      if k in live && k !in olds { return false; }
      RetireAll(olds, k, now);
      AddFileLocked(k, e, now);
      SwapIsPlain(old(State()), olds, k, e, now);
      return true;
    }

    method ConfirmDeleted(k: Key)
      modifies this
      ensures State() == Catalog.ConfirmDeleted(old(State()), k)
      ensures k !in old(retired) ==> State() == old(State())
      ensures k in old(retired) ==>
                State() == old(State()).(retired := old(retired)[k := old(retired)[k].(reclaim := false, deleted := true)])
    {
      if k !in retired { return; }
      retired := retired[k := retired[k].(reclaim := false, deleted := true)];
    }

    /** What ReclaimRetired does once its delete has landed. */
    method SettleReclaimed(k: Key, at: int)
      modifies this
      ensures State() == Catalog.SettleReclaimed(old(State()), k, at)
      ensures !(k in old(retired) && old(retired)[k].at == at) ==> State() == old(State())
      ensures k in old(retired) && old(retired)[k].at == at ==>
                State() == old(State()).(retired := old(retired)[k := old(retired)[k].(reclaim := false, deleted := true)])
    {
      if k !in retired || retired[k].at != at { return; }
      retired := retired[k := retired[k].(reclaim := false, deleted := true)];
    }

    method AddFileUnlessRetired(k: Key, e: Entry, now: int) returns (ok: bool)
      modifies this
      ensures ok == (k !in old(retired))
      ensures State() == Catalog.AddFileUnlessRetired(old(State()), k, e, now)
      ensures !ok || k in old(live) ==> State() == old(State())
      ensures ok && k !in old(live) ==>
                State() == Tables(old(live)[k := e], old(pending) - {k}, old(held), old(retired) - {k}, old(adds)[k := now])
    {
      if k in retired { return false; }
      AddFileLocked(k, e, now);
      return true;
    }

    /** The listing without what must not be adopted; tracked entries keep their
        metadata. Maps are walked in an arbitrary order, as Go walks them. */
    method Exclude(listed: map<Key, Entry>) returns (next: map<Key, Entry>)
      ensures next.Keys == set k | k in listed && k !in retired && k !in pending
      ensures forall k | k in next :: next[k] == AdoptedEntry(State(), listed, k)
    {
      next := map[];
      var todo := listed.Keys;
      while todo != {}
        invariant todo <= listed.Keys
        invariant next.Keys == set k | k in listed && k !in todo && k !in retired && k !in pending
        invariant forall k | k in next :: next[k] == AdoptedEntry(State(), listed, k)
        decreases todo
      {
        var k :| k in todo;
        if k !in retired && k !in pending {
          next := next[k := if k in live && live[k].partition == listed[k].partition then live[k] else listed[k]];
        }
        todo := todo - {k};
      }
    }

    /** The retired keys the listing is taken to prove deleted. */
    method ConfirmedGone(listed: map<Key, Entry>, start: int, skipped: seq<string>) returns (gone: set<Key>)
      ensures gone == Forgotten(State(), listed, start, skipped)
    {
      gone := {};
      var records := retired.Keys;
      while records != {}
        invariant records <= retired.Keys
        invariant gone == set k | k in Forgotten(State(), listed, start, skipped) && k !in records
        decreases records
      {
        var k :| k in records;
        if k !in listed && retired[k].at < start && !UnderSkipped(k, skipped) {
          gone := gone + {k};
        }
        records := records - {k};
      }
    }

    /** Adds what was published since the listing began and what it could not cover. */
    method CarryOver(first: map<Key, Entry>, listed: map<Key, Entry>, start: int, skipped: seq<string>)
      returns (next: map<Key, Entry>)
      ensures next.Keys == first.Keys + set k | k in live
                && ((k !in listed && k in adds && adds[k] >= start) || UnderSkipped(k, skipped))
      ensures forall k | k in next :: next[k] == if k in first then first[k] else live[k]
    {
      next := first;
      var tracked := live.Keys;
      while tracked != {}
        invariant tracked <= live.Keys
        invariant next.Keys == first.Keys + set k | k in live && k !in tracked
                    && ((k !in listed && k in adds && adds[k] >= start) || UnderSkipped(k, skipped))
        invariant forall k | k in next :: next[k] == if k in first then first[k] else live[k]
        decreases tracked
      {
        var k :| k in tracked;
        var recent := k !in listed && k in adds && adds[k] >= start;
        if (recent || UnderSkipped(k, skipped)) && k !in next {
          next := next[k := live[k]];
        }
        tracked := tracked - {k};
      }
    }

    /** One refresh: fold a listing that began at `start` into the tables. */
    method ApplyListing(listed: map<Key, Entry>, start: int, skipped: seq<string>, shrinkConfirmed: bool)
      returns (accepted: bool)
      modifies this
      ensures accepted == Accepts(old(State()), Adopted(old(State()), listed, start, skipped), shrinkConfirmed)
      ensures State() == Catalog.ApplyListing(old(State()), listed, start, skipped, shrinkConfirmed)
      ensures !accepted ==> State() == old(State())
      ensures accepted ==> Refreshed(old(State()), listed, start, skipped, State())
      ensures shrinkConfirmed || |old(live)| == 0 ==> accepted
      ensures !shrinkConfirmed ==> |live| >= |old(live)| / 2
    {
      var next, gone := Passes(listed, start, skipped);
      NextIsListing(State(), listed, start, skipped, shrinkConfirmed, next, gone);
      if |live| > 0 && |next| < |live| / 2 && !shrinkConfirmed {
        return false;
      }
      Install(next, gone, start);
      RefreshIsPlain(old(State()), listed, start, skipped, shrinkConfirmed);
      return true;
    }

    method Passes(listed: map<Key, Entry>, start: int, skipped: seq<string>) returns (next: map<Key, Entry>, gone: set<Key>)
      ensures next.Keys == Adopted(State(), listed, start, skipped) && gone == Forgotten(State(), listed, start, skipped)
      ensures next == map k | k in Adopted(State(), listed, start, skipped) :: AdoptedEntry(State(), listed, k)
    {
      var first := Exclude(listed);
      gone := ConfirmedGone(listed, start, skipped);
      next := CarryOver(first, listed, start, skipped);
      PassesBuildNext(State(), listed, start, skipped, first, next);
    }

    method Install(next: map<Key, Entry>, gone: set<Key>, start: int)
      modifies this
      ensures State() == old(State()).(live := next, retired := old(State()).retired - gone,
                                       adds := map k | k in old(State()).adds && old(State()).adds[k] >= start :: old(State()).adds[k])
    {
      live := next;
      retired := retired - gone;
      adds := map k | k in adds && adds[k] >= start :: adds[k];
    }
  }
}
