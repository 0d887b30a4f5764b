/** The manifest's key tables and the operations compaction performs on them
    (internal/manifest/retired.go, internal/manifest/manifest.go). Each operation
    is one critical section, so each is a function of the whole table state; the
    class `Manifests.Manifest` performs them in place. */
module Catalog {

  type Key = string

  /** What the manifest tracks for a served object. */
  datatype Entry = Entry(partition: string, raw: int)

  /** A key the manifest let go of while its object may still exist. */
  datatype Retirement = Retirement(at: int, replacedBy: Key, reclaim: bool, deleted: bool)

  datatype Tables = Tables(
    live: map<Key, Entry>,
    pending: set<Key>,
    held: set<Key>,
    retired: map<Key, Retirement>,
    adds: map<Key, int>)

  const EMPTY := Tables(map[], {}, {}, map[], map[])

  /** retireLocked: a second retirement never downgrades an owed reclaim. */
  function Retire(t: Tables, k: Key, winner: Key, reclaim: bool, now: int): Tables {
    var cur := if k in t.retired then t.retired[k] else Retirement(now, "", false, false);
    t.(retired := t.retired[k := Retirement(now, if winner == "" then cur.replacedBy else winner, reclaim || cur.reclaim, false)],
       pending := t.pending - {k})
  }

  /** addFileLocked: a registered key is neither pending nor retired; a duplicate is dropped. */
  function AddFile(t: Tables, k: Key, e: Entry, now: int): Tables {
    if k in t.live then t
    else t.(live := t.live[k := e], pending := t.pending - {k}, retired := t.retired - {k}, adds := t.adds[k := now])
  }

  predicate CanClaim(t: Tables, k: Key) {
    k != "" && k !in t.live && k !in t.retired && k !in t.pending
  }

  function ClaimPending(t: Tables, k: Key): Tables {
    if CanClaim(t, k) then t.(pending := t.pending + {k}) else t
  }

  function ReleasePending(t: Tables, k: Key): Tables {
    t.(pending := t.pending - {k})
  }

  function AbandonPending(t: Tables, k: Key, now: int): Tables {
    Retire(t.(live := t.live - {k}), k, "", true, now)
  }

  function RemoveFile(t: Tables, k: Key, now: int): Tables {
    Retire(t.(live := t.live - {k}), k, "", false, now)
  }

  /** The publish condition: every source is still registered in the partition and
      not held, and the new key is free. */
  predicate CanReplace(t: Tables, partition: string, olds: set<Key>, k: Key) {
    && (forall o | o in olds :: o in t.live && t.live[o].partition == partition && o !in t.held)
    && (k !in t.live || k in olds)
  }

  /** The sources leave the served set with their deletes owed. */
  function RetireSources(t: Tables, olds: set<Key>, winner: Key, now: int): Tables {
    t.(live := t.live - olds,
       pending := t.pending - olds,
       retired := t.retired + map o | o in olds :: RetiredSource(t, o, winner, now))
  }

  /** Retiring the sources one by one, in any order, is retiring them together. */
  lemma RetireOneMore(t: Tables, olds: set<Key>, o: Key, winner: Key, now: int)
    ensures var r := RetireSources(t, olds, winner, now);
            Retire(r.(live := r.live - {o}), o, winner, true, now) == RetireSources(t, olds + {o}, winner, now)
  {
    var r := RetireSources(t, olds, winner, now);
    var one := Retire(r.(live := r.live - {o}), o, winner, true, now);
    var all := RetireSources(t, olds + {o}, winner, now);
    RetireOneMoreRecord(t, olds, o, winner, now);
    assert one.live == all.live;
    assert one.pending == all.pending;
  }

  lemma RetireOneMoreRecord(t: Tables, olds: set<Key>, o: Key, winner: Key, now: int)
    ensures var r := RetireSources(t, olds, winner, now);
            Retire(r.(live := r.live - {o}), o, winner, true, now).retired == RetireSources(t, olds + {o}, winner, now).retired
  {
  }

  function KeySet(s: seq<Key>): set<Key> {
    set k | k in s
  }

  function RetiredSource(t: Tables, o: Key, winner: Key, now: int): Retirement {
    Retirement(now, if winner == "" && o in t.retired then t.retired[o].replacedBy else winner, true, false)
  }

  /** ReplaceFiles: all sources out and the output in, or nothing at all. */
  function ReplaceFiles(t: Tables, partition: string, olds: set<Key>, k: Key, e: Entry, now: int): Tables {
    if CanReplace(t, partition, olds, k) then AddFile(RetireSources(t, olds, k, now), k, e, now) else t
  }

  /** What a successful swap leaves, for an output that was neither served nor retired. */
  lemma ReplacedTables(t: Tables, partition: string, olds: set<Key>, k: Key, e: Entry, now: int)
    requires CanReplace(t, partition, olds, k) && k !in t.live && k !in t.retired && k !in olds
    ensures var r := ReplaceFiles(t, partition, olds, k, e, now);
            && r.live.Keys == t.live.Keys - olds + {k} && r.live[k] == e
            && (forall o | o in t.live && o !in olds :: r.live[o] == t.live[o])
            && r.retired.Keys == t.retired.Keys + olds && r.pending == t.pending - olds - {k} && r.held == t.held
            && (forall o | o in t.retired && o !in olds :: r.retired[o] == t.retired[o])
            && (forall o | o in olds :: r.retired[o] == RetiredSource(t, o, k, now))
  {}

  function AddFileUnlessRetired(t: Tables, k: Key, e: Entry, now: int): Tables {
    if k in t.retired then t else AddFile(t, k, e, now)
  }

  /** A landed delete settles who owes it; the record itself stays. */
  function ConfirmDeleted(t: Tables, k: Key): Tables {
    if k !in t.retired then t
    else t.(retired := t.retired[k := t.retired[k].(reclaim := false, deleted := true)])
  }

  /** ReclaimRetired settles only the record it read, not a later retirement of the key. */
  function SettleReclaimed(t: Tables, k: Key, at: int): Tables {
    if k in t.retired && t.retired[k].at == at then ConfirmDeleted(t, k) else t
  }

  /** A record nobody here owes a delete for is kept a week, in nanoseconds. */
  const RETIRED_TTL: int := 604_800_000_000_000
  const MAX_RETIRED: nat := 100_000

  function Expired(t: Tables, now: int): set<Key> {
    set k | k in t.retired && !t.retired[k].reclaim && now - t.retired[k].at > RETIRED_TTL
  }

  /** Over the cap the cheapest to forget goes first: an object that is gone, then one
      whose delete others owe, then the oldest. */
  predicate EvictedBefore(a: Retirement, b: Retirement) {
    if a.deleted != b.deleted then a.deleted
    else if a.reclaim != b.reclaim then !a.reclaim
    else a.at < b.at
  }

  /** pruneRetiredLocked may forget the records of `ks`: the expired ones, and over the
      cap as many more as it takes, in order of eviction. */
  predicate Prunes(t: Tables, ks: set<Key>, now: int) {
    && Expired(t, now) <= ks <= t.retired.Keys
    && (if |t.retired.Keys - Expired(t, now)| <= MAX_RETIRED then ks == Expired(t, now)
        else |t.retired.Keys - ks| == MAX_RETIRED)
    && (forall k, o | k in ks - Expired(t, now) && o in t.retired.Keys - ks :: !EvictedBefore(t.retired[o], t.retired[k]))
  }

  function Prune(t: Tables, ks: set<Key>): Tables {
    t.(retired := t.retired - ks)
  }

  /** Below the cap no owed delete is ever forgotten. */
  lemma PruneSparesOwed(t: Tables, ks: set<Key>, now: int, k: Key)
    requires Prunes(t, ks, now) && |t.retired.Keys| <= MAX_RETIRED && k in t.retired && t.retired[k].reclaim
    ensures k !in ks
  {
    SubsetSize(t.retired.Keys - Expired(t, now), t.retired.Keys);
  }

  lemma {:induction false} SubsetSize<T>(a: set<T>, b: set<T>)
    requires a <= b
    ensures |a| <= |b|
  {
    if a != {} {
      var x :| x in a;
      SubsetSize(a - {x}, b - {x});
    }
  }

  predicate UnderSkipped(k: Key, skipped: seq<string>) {
    exists i | 0 <= i < |skipped| :: skipped[i] <= k
  }

  /** The keys a refresh serves next: listed ones that are neither retired nor
      pending, the ones published since the listing began, and the ones under a
      prefix the listing could not cover. */
  function Adopted(t: Tables, listed: map<Key, Entry>, start: int, skipped: seq<string>): set<Key> {
    (set k | k in listed && k !in t.retired && k !in t.pending)
    + (set k | k in t.live && k !in listed && k in t.adds && t.adds[k] >= start)
    + (set k | k in t.live && UnderSkipped(k, skipped))
  }

  /** A tracked entry keeps its metadata; a new one has only what the listing says. */
  function AdoptedEntry(t: Tables, listed: map<Key, Entry>, k: Key): Entry
    requires k in listed || k in t.live
  {
    if k in listed && k !in t.retired && k !in t.pending then
      if k in t.live && t.live[k].partition == listed[k].partition then t.live[k] else listed[k]
    else if k in t.live then t.live[k] else listed[k]
  }

  /** The retirement records a refresh forgets. */
  function Forgotten(t: Tables, listed: map<Key, Entry>, start: int, skipped: seq<string>): set<Key> {
    set k | k in t.retired && k !in listed && t.retired[k].at < start && !UnderSkipped(k, skipped)
  }

  /** The cliff rule: a listing that drops more than half of the tracked files is
      believed only when a HEAD sample confirmed the shrink. */
  predicate Accepts(t: Tables, adopted: set<Key>, shrinkConfirmed: bool) {
    |t.live| == 0 || |adopted| >= |t.live| / 2 || shrinkConfirmed
  }

  /** applyRefreshedFiles. */
  function ApplyListing(
    t: Tables, listed: map<Key, Entry>, start: int, skipped: seq<string>, shrinkConfirmed: bool): Tables
  {
    var adopted := Adopted(t, listed, start, skipped);
    if !Accepts(t, adopted, shrinkConfirmed) then t
    else t.(
      live := map k | k in adopted :: AdoptedEntry(t, listed, k),
      retired := t.retired - Forgotten(t, listed, start, skipped),
      adds := map k | k in t.adds && t.adds[k] >= start :: t.adds[k])
  }

  /** The three passes of a refresh together build exactly the next served set. */
  lemma PassesBuildNext(
    t: Tables, listed: map<Key, Entry>, start: int, skipped: seq<string>, first: map<Key, Entry>, next: map<Key, Entry>)
    requires first.Keys == set k | k in listed && k !in t.retired && k !in t.pending
    requires forall k | k in first :: first[k] == AdoptedEntry(t, listed, k)
    requires next.Keys == first.Keys + set k | k in t.live
               && ((k !in listed && k in t.adds && t.adds[k] >= start) || UnderSkipped(k, skipped))
    requires forall k | k in next :: next[k] == if k in first then first[k] else t.live[k]
    ensures next.Keys == Adopted(t, listed, start, skipped)
    ensures next == map k | k in Adopted(t, listed, start, skipped) :: AdoptedEntry(t, listed, k)
  {
    assert next.Keys == Adopted(t, listed, start, skipped);
    forall k | k in next ensures next[k] == AdoptedEntry(t, listed, k) {
      if k !in first {
        assert k in t.live && (k !in listed || k in t.retired || k in t.pending);
      }
    }
  }

  /** The served set and the records a refresh leaves, given what its passes built. */
  lemma NextIsListing(
    t: Tables, listed: map<Key, Entry>, start: int, skipped: seq<string>, shrinkConfirmed: bool, next: map<Key, Entry>, gone: set<Key>)
    requires next.Keys == Adopted(t, listed, start, skipped) && gone == Forgotten(t, listed, start, skipped)
    requires next == map k | k in Adopted(t, listed, start, skipped) :: AdoptedEntry(t, listed, k)
    ensures Accepts(t, Adopted(t, listed, start, skipped), shrinkConfirmed)
            <==> |t.live| == 0 || |next| >= |t.live| / 2 || shrinkConfirmed
    ensures ApplyListing(t, listed, start, skipped, shrinkConfirmed)
            == if Accepts(t, Adopted(t, listed, start, skipped), shrinkConfirmed)
               then t.(live := next, retired := t.retired - gone, adds := map k | k in t.adds && t.adds[k] >= start :: t.adds[k])
               else t
  {
    assert |next| == |next.Keys|;
  }

  /** A refresh serves nothing that is retired or pending. */
  lemma AdoptsOnlyFree(t: Tables, listed: map<Key, Entry>, start: int, skipped: seq<string>)
    ensures Adopted(t, listed, start, skipped) <= t.live.Keys + (listed.Keys - t.retired.Keys - t.pending)
  {}

  lemma AdoptsListed(t: Tables, listed: map<Key, Entry>, start: int, skipped: seq<string>)
    ensures listed.Keys - t.retired.Keys - t.pending <= Adopted(t, listed, start, skipped)
  {}

  lemma RefreshForgets(t: Tables, listed: map<Key, Entry>, start: int, skipped: seq<string>, shrinkConfirmed: bool)
    requires Accepts(t, Adopted(t, listed, start, skipped), shrinkConfirmed)
    ensures ApplyListing(t, listed, start, skipped, shrinkConfirmed).retired.Keys
            == t.retired.Keys - Forgotten(t, listed, start, skipped)
    ensures ApplyListing(t, listed, start, skipped, shrinkConfirmed).pending == t.pending
  {
    var forgotten := Forgotten(t, listed, start, skipped);
    assert (t.retired - forgotten).Keys == t.retired.Keys - forgotten;
  }

  /** What a refresh changes: the served set, and the records named by `Forgotten`. */
  lemma RefreshChanges(t: Tables, listed: map<Key, Entry>, start: int, skipped: seq<string>, shrinkConfirmed: bool)
    requires Accepts(t, Adopted(t, listed, start, skipped), shrinkConfirmed)
    ensures ApplyListing(t, listed, start, skipped, shrinkConfirmed).live.Keys == Adopted(t, listed, start, skipped)
  {
    var adopted := Adopted(t, listed, start, skipped);
    var live' := map k | k in adopted :: AdoptedEntry(t, listed, k);
    assert live'.Keys == adopted;
  }

  /** Every record nobody here owes a delete for goes after a week. Any other goes only over
      the cap, down to the cap, and then those of objects that are gone go first, then those
      whose delete others owe, the oldest first. */
  lemma PruneOrder(t: Tables, ks: set<Key>, now: int, k: Key, o: Key)
    requires Prunes(t, ks, now) && k in t.retired && o in t.retired
    ensures !t.retired[k].reclaim && now - t.retired[k].at > 604_800_000_000_000 ==> k in ks
    ensures k in ks && (t.retired[k].reclaim || now - t.retired[k].at <= 604_800_000_000_000) ==> |t.retired.Keys - ks| == 100_000
    ensures k in ks && (t.retired[k].reclaim || now - t.retired[k].at <= 604_800_000_000_000) && o !in ks ==>
              var a, b := t.retired[k], t.retired[o];
              && (b.deleted ==> a.deleted)
              && (a.deleted == b.deleted && a.reclaim ==> b.reclaim)
              && (a.deleted == b.deleted && a.reclaim == b.reclaim ==> a.at <= b.at)
  {
    assert Expired(t, now) <= ks;
    if k in ks && k !in Expired(t, now) {
      assert ks != Expired(t, now);
      if o !in ks { assert !EvictedBefore(t.retired[o], t.retired[k]); }
    }
  }
}
