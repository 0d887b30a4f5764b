/** The majority schema fingerprint (internal/compaction/planner.go, policy.go): the
    most common one, ties to the current schema and then to the smallest. */
module Schemas {
  import opened Ordering
  import opened Files

  function Fingerprints(files: seq<FileInfo>): multiset<string> {
    if files == [] then multiset{} else multiset{files[0].fingerprint} + Fingerprints(files[1..])
  }

  /** `a` is preferred to `b`. */
  predicate Beats(counts: multiset<string>, current: string, a: string, b: string) {
    counts[a] > counts[b] || (counts[a] == counts[b] && b != current && (a == current || LexLess(a, b)))
  }

  /** The independent meaning of the choice: present, and preferred to all others. */
  ghost predicate IsMajority(counts: multiset<string>, current: string, fp: string) {
    fp in counts && forall o | o in counts && o != fp :: Beats(counts, current, fp, o)
  }

  lemma BeatsIsOrder(counts: multiset<string>, current: string, a: string, b: string, c: string)
    ensures !(Beats(counts, current, a, b) && Beats(counts, current, b, a))
    ensures a != b ==> Beats(counts, current, a, b) || Beats(counts, current, b, a)
    ensures Beats(counts, current, a, b) && Beats(counts, current, b, c) ==> Beats(counts, current, a, c)
  {
    LexIsOrder();
  }

  lemma MajorityIsUnique(counts: multiset<string>, current: string, a: string, b: string)
    requires IsMajority(counts, current, a) && IsMajority(counts, current, b)
    ensures a == b
  {
    BeatsIsOrder(counts, current, a, b, a);
  }

  /** Every walk over the counted fingerprints has a best one so far. */
  lemma {:induction false} BestOf(counts: multiset<string>, current: string, among: set<string>) returns (fp: string)
    requires among != {}
    ensures fp in among && forall o | o in among && o != fp :: Beats(counts, current, fp, o)
    decreases among
  {
    var x :| x in among;
    if among == {x} {
      return x;
    }
    var y := BestOf(counts, current, among - {x});
    BeatsIsOrder(counts, current, x, y, x);
    if Beats(counts, current, x, y) {
      fp := x;
      forall o | o in among && o != fp ensures Beats(counts, current, fp, o) {
        BeatsIsOrder(counts, current, x, y, o);
      }
    } else {
      fp := y;
    }
  }

  lemma MajorityExists(counts: multiset<string>, current: string)
    requires counts != multiset{}
    ensures exists fp :: IsMajority(counts, current, fp)
  {
    var x :| x in counts;
    var among := set s | s in counts;
    assert x in among;
    var fp := BestOf(counts, current, among);
    assert IsMajority(counts, current, fp);
  }

  /** The choice as a function of what was counted alone. */
  ghost function Majority(counts: multiset<string>, current: string): (fp: string)
    ensures counts == multiset{} ==> fp == ""
    ensures counts != multiset{} ==> IsMajority(counts, current, fp)
  {
    if counts == multiset{} then
      ""
    else
      MajorityExists(counts, current);
      var fp :| IsMajority(counts, current, fp);
      fp
  }

  lemma {:induction false} FingerprintsConcat(a: seq<FileInfo>, b: seq<FileInfo>)
    ensures Fingerprints(a + b) == Fingerprints(a) + Fingerprints(b)
  {
    if a == [] {
      assert a + b == b;
    } else {
      assert (a + b)[0] == a[0] && (a + b)[1..] == a[1..] + b;
      FingerprintsConcat(a[1..], b);
    }
  }

  lemma {:induction false} FingerprintsPermute(a: seq<FileInfo>, b: seq<FileInfo>)
    requires multiset(a) == multiset(b)
    ensures Fingerprints(a) == Fingerprints(b)
  {
    assert |a| == |multiset(a)| && |b| == |multiset(b)|;
    if a != [] {
      var i := MatchHead(a, b);
      assert b == b[..i] + ([b[i]] + b[i + 1..]);
      FingerprintsPermute(a[1..], b[..i] + b[i + 1..]);
      FingerprintsConcat(b[..i], b[i + 1..]);
      FingerprintsConcat(b[..i], [b[i]] + b[i + 1..]);
      assert ([b[i]] + b[i + 1..])[1..] == b[i + 1..];
    }
  }

  function HasFingerprint(fp: string): FileInfo -> bool {
    (f: FileInfo) => f.fingerprint == fp
  }

  lemma {:induction false} CountedByFilter(files: seq<FileInfo>, fp: string)
    ensures Fingerprints(files)[fp] == |Filter(files, HasFingerprint(fp))|
  {
    if files != [] {
      CountedByFilter(files[1..], fp);
    }
  }

  /** A map of positive counts, as the multiset it counts. */
  ghost predicate Counts(counts: map<string, int>, total: multiset<string>) {
    && (forall fp | fp in counts :: counts[fp] == total[fp] > 0)
    && (forall fp | fp in total :: fp in counts)
  }

  lemma CountOneMore(counts: map<string, int>, total: multiset<string>, fp: string)
    requires Counts(counts, total)
    ensures Counts(counts[fp := (if fp in counts then counts[fp] else 0) + 1], total + multiset{fp})
  {}

  lemma KeptOneMore(files: seq<FileInfo>, f: FileInfo, keep: FileInfo -> bool)
    ensures Fingerprints(Filter(files + [f], keep))
            == Fingerprints(Filter(files, keep)) + (if keep(f) then multiset{f.fingerprint} else multiset{})
  {
    FilterAppend(files, f, keep);
    if keep(f) {
      FingerprintsConcat(Filter(files, keep), [f]);
      assert [f][1..] == [];
      assert Fingerprints([f]) == multiset{f.fingerprint} + Fingerprints([f][1..]);
    } else {
      assert Filter(files + [f], keep) == Filter(files, keep);
    }
  }

  lemma CountNext(counts: map<string, int>, files: seq<FileInfo>, f: FileInfo, keep: FileInfo -> bool)
    requires Counts(counts, Fingerprints(Filter(files, keep)))
    ensures var fp := f.fingerprint;
            Counts(if keep(f) then counts[fp := (if fp in counts then counts[fp] else 0) + 1] else counts,
                   Fingerprints(Filter(files + [f], keep)))
  {
    KeptOneMore(files, f, keep);
    if keep(f) { CountOneMore(counts, Fingerprints(Filter(files, keep)), f.fingerprint); }
  }

  method CountFingerprints(files: seq<FileInfo>, keep: FileInfo -> bool) returns (counts: map<string, int>)
    ensures Counts(counts, Fingerprints(Filter(files, keep)))
  {
    counts := map[];
    for i := 0 to |files|
      invariant Counts(counts, Fingerprints(Filter(files[..i], keep)))
    {
      var f := files[i];
      assert files[..i + 1] == files[..i] + [f];
      CountNext(counts, files[..i], f, keep);
      if keep(f) {
        counts := counts[f.fingerprint := (if f.fingerprint in counts then counts[f.fingerprint] else 0) + 1];
      }
    }
    assert files[..|files|] == files;
  }

  /** majorityFingerprint: count into a map, then walk the map in whatever order it
      comes. The result is the same for every order. */
  method MajorityFingerprint(files: seq<FileInfo>, current: string, keep: FileInfo -> bool) returns (best: string)
    ensures best == Majority(Fingerprints(Filter(files, keep)), current)
  {
    ghost var total := Fingerprints(Filter(files, keep));
    var counts := CountFingerprints(files, keep);
    best := "";
    var bestCount := 0;
    var todo := counts.Keys;
    while todo != {}
      invariant todo <= counts.Keys
      invariant bestCount == 0 ==> todo == counts.Keys && best == ""
      invariant bestCount != 0 ==> best in counts && best !in todo && bestCount == counts[best]
      invariant bestCount != 0 ==> forall o | o in counts && o !in todo && o != best :: Beats(total, current, best, o)
      decreases todo
    {
      var fp :| fp in todo;
      var c := counts[fp];
      ghost var before, hadBest, seen := best, bestCount != 0, counts.Keys - todo;
      if c > bestCount {
        best, bestCount := fp, c;
      } else if c == bestCount && best != current && (fp == current || LexLess(fp, best)) {
        best := fp;
      }
      todo := todo - {fp};
      if hadBest {
        BestStays(total, current, seen, before, fp, best);
        assert counts.Keys - todo == seen + {fp};
      }
    }
    if counts.Keys == {} {
      assert total == multiset{};
    } else {
      assert IsMajority(total, current, best);
      MajorityIsUnique(total, current, best, Majority(total, current));
    }
  }

  lemma BestStays(total: multiset<string>, current: string, seen: set<string>, before: string, fp: string, best: string)
    requires before in seen && fp !in seen
    requires forall o | o in seen && o != before :: Beats(total, current, before, o)
    requires best == if Beats(total, current, fp, before) then fp else before
    ensures forall o | o in seen + {fp} && o != best :: Beats(total, current, best, o)
  {
    forall o | o in seen + {fp} && o != best ensures Beats(total, current, best, o) {
      BeatsIsOrder(total, current, fp, before, o);
    }
  }
}
