/** The sequential parts of a merge (internal/compaction/compactor.go) and of the orphan
    sweep (internal/compaction/orphan_sweep.go) on the manifest and the bucket: the gates
    before it, the output claim, the publish or the abandoned output, and the deletes. */
module Compactor {
  import opened Ordering
  import opened Files
  import opened Catalog
  import opened Manifests
  import Partition

  // ---- Gates -------------------------------------------------------------------------

  predicate Listed(files: seq<FileInfo>, n: nat, key: string)
    requires n <= |files|
  {
    exists i | 0 <= i < n :: files[i].key == key
  }

  /** File `j` is the first whose key an earlier file already has. */
  predicate FirstDuplicate(files: seq<FileInfo>, j: nat) {
    j < |files| && Listed(files, j, files[j].key) && forall i | 0 <= i < j :: !Listed(files, i, files[i].key)
  }

  /** firstDuplicateKey. The merge is refused unless it returns "", so a repeated key
      always refuses it, except the empty key. */
  method FirstDuplicateKey(files: seq<FileInfo>) returns (dup: string)
    ensures forall j: nat | FirstDuplicate(files, j) :: dup == files[j].key
    ensures (forall i, j | 0 <= i < j < |files| :: files[i].key != files[j].key) ==> dup == ""
    ensures dup == "" ==> forall i, j | 0 <= i < j < |files| && files[i].key == files[j].key ::
              exists d: nat | d <= j :: FirstDuplicate(files, d) && files[d].key == ""
  {
    var seen: set<string> := {};
    for n := 0 to |files|
      invariant seen == set i | 0 <= i < n :: files[i].key
      invariant forall i | 0 <= i < n :: !Listed(files, i, files[i].key)
    {
      if files[n].key in seen {
        assert Listed(files, n, files[n].key) && FirstDuplicate(files, n);
        forall i, j | 0 <= i < j < |files| && files[i].key == files[j].key ensures n <= j {
          assert Listed(files, j, files[j].key);
        }
        return files[n].key;
      }
      seen := seen + {files[n].key};
    }
    forall i, j | 0 <= i < j < |files| ensures files[i].key != files[j].key {
      assert !Listed(files, j, files[j].key);
    }
    return "";
  }

  function Unfenced(fenced: set<string>): FileInfo -> bool {
    (f: FileInfo) => Partition.FenceKey(f) !in fenced
  }

  /** The forward fence: fenced inputs stay where they are; after a fence a lone file is
      not rewritten, and without one even a single file is. */
  method ApplyFence(files: seq<FileInfo>, fenced: set<string>) returns (kept: seq<FileInfo>, merge: bool)
    ensures kept == Filter(files, Unfenced(fenced))
    ensures forall f :: f in kept <==> f in files && (f.bucket + ['\0'] + f.key) !in fenced
    ensures merge <==> |kept| == |files| || |kept| >= 2
  {
    kept := [];
    var skipped := 0;
    for i := 0 to |files|
      invariant kept == Filter(files[..i], Unfenced(fenced)) && skipped + |kept| == i
    {
      FilterNext(files, i, Unfenced(fenced));
      if Partition.FenceKey(files[i]) in fenced {
        skipped := skipped + 1;
      } else {
        kept := kept + [files[i]];
      }
    }
    assert files[..|files|] == files;
    merge := skipped == 0 || |kept| >= 2;
  }

  // ---- The output key ------------------------------------------------------------------

  const MAX_ATTEMPTS: nat := 5

  /** claimOutputKey: the first of five drawn keys that nobody uses becomes pending;
      otherwise nothing changes. */
  method ClaimOutputKey(m: Manifest, draw: nat -> Key) returns (key: Option<Key>)
    modifies m
    ensures key.Some? ==>
              exists n | 0 <= n < MAX_ATTEMPTS ::
                && key == Some(draw(n)) && CanClaim(old(m.State()), draw(n))
                && (forall i | 0 <= i < n :: !CanClaim(old(m.State()), draw(i)))
                && m.State() == Catalog.ClaimPending(old(m.State()), draw(n))
    ensures key.None? ==> m.State() == old(m.State()) && forall i | 0 <= i < MAX_ATTEMPTS :: !CanClaim(m.State(), draw(i))
  {
    for n := 0 to MAX_ATTEMPTS
      invariant m.State() == old(m.State()) && forall i | 0 <= i < n :: !CanClaim(m.State(), draw(i))
    {
      var claimed := m.ClaimPending(draw(n));
      if claimed { return Some(draw(n)); }
    }
    return None;
  }

  // ---- Settling a merge -----------------------------------------------------------------

  class Bucket {
    var objects: map<Key, multiset<nat>>

    /** A delete of an absent object succeeds too. */
    method Delete(k: Key, fails: bool)
      modifies this
      ensures objects == if fails then old(objects) else old(objects) - {k}
    {
      if !fails { objects := objects - {k}; }
    }
  }

  /** The deletes of some keys landed. */
  function ConfirmAll(t: Tables, ks: set<Key>): Tables {
    t.(retired := map k | k in t.retired ::
         if k in ks then t.retired[k].(reclaim := false, deleted := true) else t.retired[k])
  }

  lemma ConfirmOneMore(t: Tables, ks: set<Key>, k: Key)
    ensures Catalog.ConfirmDeleted(ConfirmAll(t, ks), k) == ConfirmAll(t, ks + {k})
  {
    assert Catalog.ConfirmDeleted(ConfirmAll(t, ks), k).retired == ConfirmAll(t, ks + {k}).retired;
  }

  lemma ConfirmNone(t: Tables)
    ensures ConfirmAll(t, {}) == t
  {
    assert ConfirmAll(t, {}).retired == t.retired;
  }

  /** The keys whose delete succeeds. */
  function Landed(keys: seq<Key>, fails: Key -> bool): set<Key> {
    set k | k in keys && !fails(k)
  }

  method DeleteSources(m: Manifest, bucket: Bucket, keys: seq<Key>, fails: Key -> bool)
    modifies m, bucket
    ensures bucket.objects == old(bucket.objects) - Landed(keys, fails)
    ensures m.State() == ConfirmAll(old(m.State()), Landed(keys, fails))
  {
    ghost var t, objects := m.State(), bucket.objects;
    ConfirmNone(t);
    for i := 0 to |keys|
      invariant bucket.objects == objects - Landed(keys[..i], fails)
      invariant m.State() == ConfirmAll(t, Landed(keys[..i], fails))
    {
      var k := keys[i];
      ghost var done := Landed(keys[..i], fails);
      assert Landed(keys[..i + 1], fails) == if fails(k) then done else done + {k};
      ConfirmOneMore(t, done, k);
      bucket.Delete(k, fails(k));
      if fails(k) { continue; }
      m.ConfirmDeleted(k);
    }
    assert keys[..|keys|] == keys;
  }

  /** How a merge ended. */
  datatype End = Published | KeyTaken | Abandoned

  /** The tables once the merge is settled. */
  function Settled(t: Tables, partition: string, sources: seq<Key>, out: Key, e: Entry, now: int, fails: Key -> bool): Tables {
    if CanReplace(t, partition, KeySet(sources), out) then
      ConfirmAll(Catalog.ReplaceFiles(t, partition, KeySet(sources), out, e, now), Landed(sources, fails))
    else if out in t.live then t
    else ConfirmAll(Catalog.AbandonPending(t, out, now), Landed([out], fails))
  }

  /** From the uploaded output to the end of compactGroup: publish and delete the
      sources, or retire the output before its delete, or leave a foreign object alone. */
  method Settle(
    m: Manifest, bucket: Bucket, partition: string, sources: seq<Key>, out: Key, e: Entry, now: int, fails: Key -> bool)
    returns (end: End)
    modifies m, bucket
    ensures end.Published? <==> CanReplace(old(m.State()), partition, KeySet(sources), out)
    ensures end.KeyTaken? ==> out in old(m.live)
    ensures m.State() == Settled(old(m.State()), partition, sources, out, e, now, fails)
    ensures bucket.objects ==
              old(bucket.objects) - (match end
                                     case Published => Landed(sources, fails)
                                     case KeyTaken => {}
                                     case Abandoned => Landed([out], fails))
  {
    var ok := m.ReplaceFiles(partition, sources, out, e, now);
    if ok {
      DeleteSources(m, bucket, sources, fails);
      return Published;
    }
    if out in m.live { return KeyTaken; }
    m.AbandonPending(out, now);
    DeleteSources(m, bucket, [out], fails);
    return Abandoned;
  }

  /** Whatever the racing components did to the tables before the publish: each object a
      merge deletes is retired and not served when the merge is settled, and each of its
      own objects whose delete failed still has its delete owed. */
  lemma SettleDeletesRetired(
    t: Tables, partition: string, sources: seq<Key>, out: Key, e: Entry, now: int, fails: Key -> bool, k: Key)
    requires out !in sources
    requires if CanReplace(t, partition, KeySet(sources), out) then k in sources else k == out && out !in t.live
    ensures var t' := Settled(t, partition, sources, out, e, now, fails);
            k in t'.retired && k !in t'.live && t'.retired[k].deleted == !fails(k) && t'.retired[k].reclaim == fails(k)
  {
    if CanReplace(t, partition, KeySet(sources), out) {
      assert k in KeySet(sources);
    }
  }

  // ---- The orphan sweep --------------------------------------------------------------------

  /** Tier B's evidence for deleting an object: a record that it was let go of, old
      enough and not settled, an old object, and nobody that names it. */
  predicate Deletable(t: Tables, k: Key, age: int, now: int, ttl: int) {
    && k in t.retired && !t.retired[k].deleted && now - t.retired[k].at >= ttl && age >= ttl
    && k !in t.live && k !in t.pending && k !in t.held
  }

  function Swept(t: Tables, keys: seq<Key>, age: Key -> int, now: int, ttl: int, fails: Key -> bool): set<Key> {
    set k | k in keys && Deletable(t, k, age(k), now, ttl) && !fails(k)
  }

  /** The key loop of RunTierB, over the listed keys of this pod's prefixes that are not
      protected. It deletes exactly the objects with full evidence: nothing that is
      served, pending, held or merely unlisted. */
  method SweepKeys(m: Manifest, bucket: Bucket, keys: seq<Key>, age: Key -> int, now: int, ttl: int, fails: Key -> bool)
    modifies m, bucket
    ensures bucket.objects == old(bucket.objects) - Swept(old(m.State()), keys, age, now, ttl, fails)
    ensures m.State() == ConfirmAll(old(m.State()), Swept(old(m.State()), keys, age, now, ttl, fails))
    ensures forall k | k in old(bucket.objects) && k !in bucket.objects ::
              && k in keys && age(k) >= ttl && k in old(m.retired)
              && !old(m.retired)[k].deleted && now - old(m.retired)[k].at >= ttl
              && k !in old(m.live) && k !in old(m.pending) && k !in old(m.held)
    ensures forall k | k in keys && age(k) >= ttl && k in old(m.retired) && !old(m.retired)[k].deleted
                       && now - old(m.retired)[k].at >= ttl && k !in old(m.live) && k !in old(m.pending) && k !in old(m.held) ::
              if fails(k) then m.retired[k] == old(m.retired)[k]
              else k !in bucket.objects && m.retired[k] == old(m.retired)[k].(reclaim := false, deleted := true)
    ensures forall k | k in bucket.objects :: k in old(bucket.objects) && bucket.objects[k] == old(bucket.objects)[k]
    ensures m.live == old(m.live) && m.pending == old(m.pending) && m.held == old(m.held) && m.retired.Keys == old(m.retired.Keys)
    ensures forall k | k in m.retired && m.retired[k] != old(m.retired)[k] :: k !in bucket.objects
  {
    ghost var t, objects := m.State(), bucket.objects;
    ConfirmNone(t);
    for i := 0 to |keys|
      invariant bucket.objects == objects - Swept(t, keys[..i], age, now, ttl, fails)
      invariant m.State() == ConfirmAll(t, Swept(t, keys[..i], age, now, ttl, fails))
    {
      var k := keys[i];
      ghost var done := Swept(t, keys[..i], age, now, ttl, fails);
      SweptOneMore(t, keys, i, age, now, ttl, fails);
      ConfirmOneMore(t, done, k);
      if k in m.live { continue; }
      if k !in m.retired || m.retired[k].deleted || now - m.retired[k].at < ttl || k in m.pending || k in m.held { continue; }
      if age(k) < ttl { continue; }
      bucket.Delete(k, fails(k));
      if fails(k) { continue; }
      m.ConfirmDeleted(k);
    }
    assert keys[..|keys|] == keys;
  }

  lemma SweptOneMore(t: Tables, keys: seq<Key>, i: nat, age: Key -> int, now: int, ttl: int, fails: Key -> bool)
    requires i < |keys|
    ensures var done := Swept(t, keys[..i], age, now, ttl, fails);
            var k := keys[i];
            Swept(t, keys[..i + 1], age, now, ttl, fails)
            == if Deletable(t, k, age(k), now, ttl) && !fails(k) then done + {k} else done
  {
    assert keys[..i + 1] == keys[..i] + [keys[i]];
  }
}
