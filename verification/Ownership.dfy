/** Leaderless ownership by rendezvous hashing (internal/compaction/ownership.go) and
    the Tier A steal gate (internal/compaction/orphan_sweep.go). The hash is any
    function; every result holds for all of them, collisions included. */
module Ownership {
  import opened Ordering
  import opened Files

  type Hash = string -> nat

  datatype PeerWeight = PeerWeight(peer: string, weight: nat)

  /** The peer, a unit separator and the partition, hashed together. */
  function Weight(h: Hash, peer: string, partition: string): nat {
    h(peer + [31 as char] + partition)
  }

  /** Highest weight first, ties by name. */
  predicate WeightLess(a: PeerWeight, b: PeerWeight) {
    if a.weight != b.weight then a.weight > b.weight else LexLess(a.peer, b.peer)
  }

  function Weighed(h: Hash, partition: string, peer: string): PeerWeight {
    PeerWeight(peer, Weight(h, peer, partition))
  }

  function RankLess(h: Hash, partition: string): (string, string) -> bool {
    (p: string, q: string) => WeightLess(Weighed(h, partition, p), Weighed(h, partition, q))
  }

  /** Every peer in the order it would own the partition. */
  function Ranking(h: Hash, partition: string, peers: seq<string>): seq<string> {
    Sort(RankLess(h, partition), peers)
  }

  lemma RankLessIsOrder(h: Hash, partition: string, peers: seq<string>)
    ensures WeakOrder(RankLess(h, partition)) && Separates(RankLess(h, partition), peers)
  {
    LexIsOrder();
  }

  // ---- What one pod computes -----------------------------------------------------

  /** What one pod sees: the peer list as discovery gave it, who advertises that it
      is draining, its own entry in the list, and whether the ring is settling. */
  datatype Pod = Pod(peers: seq<string>, draining: string -> bool, self: Option<string>, stabilizing: bool)

  function Stays(draining: string -> bool): string -> bool {
    (p: string) => !draining(p)
  }

  function Effective(pod: Pod): seq<string> {
    Filter(pod.peers, Stays(pod.draining))
  }

  function RankedBy(pod: Pod, h: Hash, partition: string): seq<string> {
    Ranking(h, partition, Effective(pod))
  }

  /** This pod is identified, in the set ownership hashes over. */
  predicate Takes(pod: Pod, peer: string) {
    pod.self == Some(peer) && peer in Effective(pod)
  }

  /** The pod merges this partition in its own scans. */
  ghost predicate Owns(pod: Pod, h: Hash, partition: string) {
    var ranked := RankedBy(pod, h, partition);
    !pod.stabilizing && |ranked| > 0 && Takes(pod, ranked[0])
  }

  /** The pod passes the steal gate of Tier A for this partition. */
  ghost predicate Steals(pod: Pod, h: Hash, partition: string) {
    var ranked := RankedBy(pod, h, partition);
    |ranked| >= 2 && Takes(pod, ranked[1])
  }

  method FilterDraining(peers: seq<string>, draining: string -> bool) returns (out: seq<string>)
    ensures out == Filter(peers, Stays(draining))
  {
    out := [];
    for i := 0 to |peers|
      invariant out == Filter(peers[..i], Stays(draining))
    {
      FilterNext(peers, i, Stays(draining));
      if !draining(peers[i]) { out := out + [peers[i]]; }
    }
    assert peers[..|peers|] == peers;
  }

  function WeighAll(h: Hash, partition: string, peers: seq<string>): (w: seq<PeerWeight>)
    ensures |w| == |peers| && forall i | 0 <= i < |w| :: w[i] == Weighed(h, partition, peers[i])
  {
    seq(|peers|, i requires 0 <= i < |peers| => Weighed(h, partition, peers[i]))
  }

  lemma {:induction false} InsertWeighed(h: Hash, partition: string, x: string, s: seq<string>)
    ensures Insert(WeightLess, Weighed(h, partition, x), WeighAll(h, partition, s))
            == WeighAll(h, partition, Insert(RankLess(h, partition), x, s))
  {
    if s != [] {
      WeighTail(h, partition, s);
      if RankLess(h, partition)(s[0], x) {
        InsertWeighed(h, partition, x, s[1..]);
        WeighTail(h, partition, Insert(RankLess(h, partition), x, s));
      } else {
        WeighTail(h, partition, [x] + s);
      }
    }
  }

  lemma WeighTail(h: Hash, partition: string, s: seq<string>)
    requires s != []
    ensures WeighAll(h, partition, s) == [Weighed(h, partition, s[0])] + WeighAll(h, partition, s[1..])
  {}

  /** Sorting the (peer, weight) records is sorting the peers. */
  lemma {:induction false} SortWeighed(h: Hash, partition: string, peers: seq<string>)
    ensures Sort(WeightLess, WeighAll(h, partition, peers)) == WeighAll(h, partition, Ranking(h, partition, peers))
  {
    if peers != [] {
      SortWeighed(h, partition, peers[1..]);
      WeighTail(h, partition, peers);
      InsertWeighed(h, partition, peers[0], Ranking(h, partition, peers[1..]));
    }
  }

  method WeighPeers(h: Hash, partition: string, peers: seq<string>) returns (ranked: seq<PeerWeight>)
    ensures ranked == WeighAll(h, partition, peers)
  {
    ranked := [];
    for i := 0 to |peers|
      invariant |ranked| == i && forall j | 0 <= j < i :: ranked[j] == Weighed(h, partition, peers[j])
    {
      ranked := ranked + [PeerWeight(peers[i], Weight(h, peers[i], partition))];
    }
  }

  method Names(ranked: seq<PeerWeight>) returns (out: seq<string>)
    ensures |out| == |ranked| && forall i | 0 <= i < |out| :: out[i] == ranked[i].peer
  {
    out := [];
    for i := 0 to |ranked|
      invariant |out| == i && forall j | 0 <= j < i :: out[j] == ranked[j].peer
    {
      out := out + [ranked[i].peer];
    }
  }

  /** rankFromPeers: weigh, sort, strip the weights. */
  method RankFromPeers(h: Hash, partition: string, peers: seq<string>) returns (out: seq<string>)
    ensures out == Ranking(h, partition, peers)
  {
    var ranked := WeighPeers(h, partition, peers);
    SortWeighed(h, partition, peers);
    out := Names(Sort(WeightLess, ranked));
  }

  method InPeers(peers: seq<string>, self: string) returns (found: bool)
    ensures found == (self in peers)
  {
    for i := 0 to |peers|
      invariant self !in peers[..i]
    {
      if peers[i] == self { return true; }
    }
    return false;
  }

  /** OwnsPartition, with the self lookup of view. */
  method OwnsPartition(pod: Pod, h: Hash, partition: string) returns (owns: bool)
    ensures owns == Owns(pod, h, partition)
  {
    if pod.stabilizing || pod.self.None? { return false; }
    var peers := FilterDraining(pod.peers, pod.draining);
    var found := InPeers(peers, pod.self.value);
    if !found { return false; }
    var owners := RankFromPeers(h, partition, peers);
    return owners[0] == pod.self.value;
  }

  // ---- The same ranking on every pod ----------------------------------------------

  /** Discovery may list the peers in any order. */
  lemma RankingPermutes(h: Hash, partition: string, a: seq<string>, b: seq<string>)
    requires multiset(a) == multiset(b)
    ensures Ranking(h, partition, a) == Ranking(h, partition, b)
  {
    var less := RankLess(h, partition);
    RankLessIsOrder(h, partition, Sort(less, a));
    SortAscends(less, a);
    SortAscends(less, b);
    AscendingIsUnique(less, Sort(less, a), Sort(less, b));
  }

  /** Two pods of one fleet: the same peers in some order, the same draining view. */
  ghost predicate SameRing(a: Pod, b: Pod) {
    multiset(a.peers) == multiset(b.peers) && forall p | p in a.peers :: a.draining(p) == b.draining(p)
  }

  lemma {:induction false} FilterAgrees(s: seq<string>, f: string -> bool, g: string -> bool)
    requires forall p | p in s :: f(p) == g(p)
    ensures Filter(s, f) == Filter(s, g)
  {
    if s != [] { FilterAgrees(s[1..], f, g); }
  }

  lemma SameRanking(a: Pod, b: Pod, h: Hash, partition: string)
    requires SameRing(a, b)
    ensures RankedBy(a, h, partition) == RankedBy(b, h, partition)
    ensures forall p :: p in Effective(a) <==> p in Effective(b)
  {
    FilterAgrees(a.peers, Stays(a.draining), Stays(b.draining));
    FilterPermutes(a.peers, b.peers, Stays(b.draining));
    RankingPermutes(h, partition, Effective(a), Effective(b));
    forall p ensures p in Effective(a) <==> p in Effective(b) {
      MultisetMember(Effective(a), Effective(b), p);
    }
  }

  /** No partition has two owners, no partition has two thieves, whatever the order
      of each pod's list and even when hashes collide. */
  lemma AtMostOneOwner(a: Pod, b: Pod, h: Hash, partition: string)
    requires SameRing(a, b) && a.self != b.self
    ensures !(Owns(a, h, partition) && Owns(b, h, partition))
    ensures !(Steals(a, h, partition) && Steals(b, h, partition))
  {
    SameRanking(a, b, h, partition);
  }

  /** And every partition has one: of the pods of a settled ring with a member left,
      exactly the one whose own entry is the top of the common ranking owns it. */
  lemma ExactlyOneOwner(a: Pod, h: Hash, partition: string) returns (owner: string)
    requires Effective(a) != []
    ensures owner in Effective(a)
    ensures forall b: Pod | SameRing(a, b) && !b.stabilizing :: Owns(b, h, partition) <==> b.self == Some(owner)
  {
    owner := RankedBy(a, h, partition)[0];
    MultisetMember(RankedBy(a, h, partition), Effective(a), owner);
    forall b: Pod | SameRing(a, b) && !b.stabilizing ensures Owns(b, h, partition) <==> b.self == Some(owner) {
      SameRanking(a, b, h, partition);
    }
  }

  /** A thief never steals from itself exactly because discovery lists its pods once:
      a duplicated primary would be its own successor. */
  lemma ThiefIsAnotherPodIff(pod: Pod, h: Hash, partition: string)
    requires Steals(pod, h, partition)
    ensures RankedBy(pod, h, partition)[0] != pod.self.value
            <==> multiset(Effective(pod))[RankedBy(pod, h, partition)[0]] == 1
  {
    var ranked, less := RankedBy(pod, h, partition), RankLess(h, partition);
    RankLessIsOrder(h, partition, ranked);
    SortAscends(less, Effective(pod));
    TopIsSingleIff(less, ranked);
  }

  /** A peer that discovery lists twice: the pod passes its own steal gate. */
  lemma DuplicateStealsFromItself(h: Hash, partition: string, peer: string)
    ensures var pod := Pod([peer, peer], _ => false, Some(peer), false);
            && Owns(pod, h, partition) && Steals(pod, h, partition)
            && RankedBy(pod, h, partition)[0] == pod.self.value
  {
    var pod := Pod([peer, peer], _ => false, Some(peer), false);
    AllStay([peer, peer], pod.draining);
    var ranked := RankedBy(pod, h, partition);
    forall i | 0 <= i < |ranked| ensures ranked[i] == peer {
      MultisetMember(ranked, [peer, peer], ranked[i]);
    }
  }

  lemma {:induction false} AllStay(peers: seq<string>, draining: string -> bool)
    requires forall p | p in peers :: !draining(p)
    ensures Filter(peers, Stays(draining)) == peers
  {
    if peers != [] {
      assert peers[0] in peers && forall p | p in peers[1..] :: p in peers;
      AllStay(peers[1..], draining);
    }
  }

  lemma TopIsSingleIff(less: (string, string) -> bool, s: seq<string>)
    requires Separates(less, s) && Ascending(less, s) && |s| >= 2
    ensures s[0] != s[1] <==> multiset(s)[s[0]] == 1
  {
    var rest := s[2..];
    assert s == [s[0], s[1]] + rest;
    assert multiset(s) == multiset{s[0], s[1]} + multiset(rest);
    forall i | 0 <= i < |rest| && rest[i] == s[0] ensures s[1] == s[0] {
      assert s[i + 2] == rest[i];
      EqualsAreAdjacent(less, s, i + 2);
    }
  }

  lemma EqualsAreAdjacent(less: (string, string) -> bool, s: seq<string>, k: nat)
    requires Separates(less, s) && Ascending(less, s) && 1 <= k < |s| && s[k] == s[0]
    ensures s[1] == s[0]
  {
    assert s[0] in s && s[1] in s;
  }

  // ---- Minimal disruption -----------------------------------------------------------

  /** Removing or draining peers leaves the old ranking with just those peers gone. */
  lemma RankingWithout(h: Hash, partition: string, peers: seq<string>, keep: string -> bool)
    ensures Ranking(h, partition, Filter(peers, keep)) == Filter(Ranking(h, partition, peers), keep)
  {
    var less := RankLess(h, partition);
    var before, after := Ranking(h, partition, peers), Ranking(h, partition, Filter(peers, keep));
    RankLessIsOrder(h, partition, after);
    SortAscends(less, peers);
    SortAscends(less, Filter(peers, keep));
    FilterAscends(less, before, keep);
    FilterPermutes(before, peers, keep);
    AscendingIsUnique(less, after, Filter(before, keep));
  }

  lemma {:induction false} FirstKept(s: seq<string>, keep: string -> bool)
    requires s != []
    ensures keep(s[0]) ==> Filter(s, keep) != [] && Filter(s, keep)[0] == s[0]
    ensures !keep(s[0]) && |s| >= 2 && keep(s[1]) ==> Filter(s, keep) != [] && Filter(s, keep)[0] == s[1]
  {
    if |s| >= 2 {
      assert Filter(s, keep) == (if keep(s[0]) then [s[0]] else []) + Filter(s[1..], keep);
      assert Filter(s[1..], keep) == (if keep(s[1]) then [s[1]] else []) + Filter(s[1..][1..], keep);
    }
  }

  /** Only the partitions of the removed peers move, and a removed primary's
      partitions go to the peer that was its secondary. */
  lemma OnlyRemovedMove(h: Hash, partition: string, peers: seq<string>, keep: string -> bool)
    requires peers != []
    ensures var before, after := Ranking(h, partition, peers), Ranking(h, partition, Filter(peers, keep));
            && (keep(before[0]) ==> after != [] && after[0] == before[0])
            && (!keep(before[0]) && |before| >= 2 && keep(before[1]) ==> after != [] && after[0] == before[1])
  {
    RankingWithout(h, partition, peers, keep);
    FirstKept(Ranking(h, partition, peers), keep);
  }

  function Others(peer: string): string -> bool {
    (p: string) => p != peer
  }

  /** A new peer takes partitions, and no other peer gains one. */
  lemma AddedPeerOnlyTakes(h: Hash, partition: string, before: seq<string>, after: seq<string>, peer: string)
    requires multiset(after) == multiset(before) + multiset{peer} && peer !in before && before != []
    ensures after != []
    ensures Ranking(h, partition, after)[0] in {peer, Ranking(h, partition, before)[0]}
  {
    assert peer in multiset(after);
    forall p ensures multiset(Filter(after, Others(peer)))[p] == multiset(before)[p] {
      FilterCount(after, Others(peer), p);
    }
    RankingPermutes(h, partition, before, Filter(after, Others(peer)));
    OnlyRemovedMove(h, partition, after, Others(peer));
  }

  // ---- Who the peers are ---------------------------------------------------------------

  /** The peer list: the discovered writers, else the cache's members, else this pod
      alone, and nobody when discovery is configured but lists no one. */
  function Discovered(writers: seq<string>, members: seq<string>, discovery: bool, addr: string): seq<string> {
    if writers != [] then writers else if members != [] then members else if discovery then [] else [addr]
  }

  /** A discovery outage leaves every partition ownerless rather than owned by all;
      without discovery the pod owns every partition. */
  lemma FallbackOwnership(pod: Pod, h: Hash, partition: string, discovery: bool, addr: string)
    requires pod.peers == Discovered([], [], discovery, addr)
    ensures discovery ==> !Owns(pod, h, partition) && !Steals(pod, h, partition)
    ensures !discovery && pod.self == Some(addr) && !pod.stabilizing && !pod.draining(addr) ==> Owns(pod, h, partition)
  {
    if !discovery && !pod.draining(addr) {
      assert pod.peers[1..] == [];
      assert Effective(pod) == [addr];
      assert [addr][1..] == [];
      assert Ranking(h, partition, [addr]) == Insert(RankLess(h, partition), addr, []);
    }
  }

  // ---- Who owns, told from the weights ---------------------------------------------------

  /** The peer comes before the other: a greater weight, or the same and a smaller name. */
  predicate Outweighs(h: Hash, partition: string, p: string, q: string) {
    || h(p + [31 as char] + partition) > h(q + [31 as char] + partition)
    || (h(p + [31 as char] + partition) == h(q + [31 as char] + partition) && LexLess(p, q))
  }

  lemma OutweighsIsRank(h: Hash, partition: string, p: string, q: string)
    ensures RankLess(h, partition)(p, q) <==> Outweighs(h, partition, p, q)
  {}

  lemma TopOutweighs(pod: Pod, h: Hash, partition: string, q: string)
    requires q in Effective(pod)
    ensures var ranked := RankedBy(pod, h, partition);
            |ranked| > 0 && ranked[0] in Effective(pod) && (q == ranked[0] || Outweighs(h, partition, ranked[0], q))
  {
    var ranked, less := RankedBy(pod, h, partition), RankLess(h, partition);
    RankLessIsOrder(h, partition, ranked);
    SortAscends(less, Effective(pod));
    MultisetMember(ranked, Effective(pod), q);
    MultisetMember(ranked, Effective(pod), ranked[0]);
    var i :| 0 <= i < |ranked| && ranked[i] == q;
    OutweighsIsRank(h, partition, ranked[0], q);
    if i > 0 && q != ranked[0] { assert !less(ranked[i], ranked[0]); }
  }

  /** A pod owns the partition, if and only if its ring is settled and it is a peer that does
      not drain and outweighs every other such peer. */
  lemma OwnsIff(pod: Pod, h: Hash, partition: string)
    ensures Owns(pod, h, partition) <==>
              && !pod.stabilizing && pod.self.Some? && pod.self.value in pod.peers && !pod.draining(pod.self.value)
              && forall q | q in pod.peers && !pod.draining(q) && q != pod.self.value :: Outweighs(h, partition, pod.self.value, q)
  {
    forall q | q in Effective(pod)
      ensures |RankedBy(pod, h, partition)| > 0
      ensures q == RankedBy(pod, h, partition)[0] || Outweighs(h, partition, RankedBy(pod, h, partition)[0], q)
    {
      TopOutweighs(pod, h, partition, q);
    }
    if pod.self.Some? && pod.self.value in Effective(pod) {
      TopOutweighs(pod, h, partition, pod.self.value);
      OneOutweighs(h, partition, RankedBy(pod, h, partition)[0], pod.self.value);
    }
  }

  lemma OneOutweighs(h: Hash, partition: string, p: string, q: string)
    ensures !(Outweighs(h, partition, p, q) && Outweighs(h, partition, q, p))
  {
    LexIsOrder();
  }

  /** Distinct pairs of a peer and a partition are hashed apart, so a peer's weights for two
      partitions are as independent as the hash makes them. */
  lemma WeighedApart(p: string, x: string, q: string, y: string)
    requires (31 as char) !in p && (31 as char) !in q
    requires forall h: Hash :: Weight(h, p, x) == Weight(h, q, y)
    ensures p == q && x == y
  {
    var s, t := p + [31 as char] + x, q + [31 as char] + y;
    var h: Hash := (k: string) => if k == s then 1 else 0;
    assert Weight(h, p, x) == Weight(h, q, y);
    assert s == t;
    SplitsOnce(p, 31 as char, x, q, y);
  }

  lemma Strictly(pod: Pod, h: Hash, partition: string)
    requires NoneTwice(Effective(pod))
    ensures var ranked := RankedBy(pod, h, partition);
            && (forall q :: q in ranked <==> q in Effective(pod))
            && forall i, j | 0 <= i < j < |ranked| :: ranked[i] != ranked[j] && Outweighs(h, partition, ranked[i], ranked[j])
  {
    var ranked, less := RankedBy(pod, h, partition), RankLess(h, partition);
    RankLessIsOrder(h, partition, ranked);
    SortAscends(less, Effective(pod));
    forall q ensures multiset(ranked)[q] <= 1 && (q in ranked <==> q in Effective(pod)) {
      CountedOnce(Effective(pod), q);
      MultisetMember(ranked, Effective(pod), q);
    }
    AscendsStrictly(less, ranked);
    forall i, j | 0 <= i < j < |ranked| ensures ranked[i] != ranked[j] && Outweighs(h, partition, ranked[i], ranked[j]) {
      OutweighsIsRank(h, partition, ranked[i], ranked[j]);
      OnceMeansApart(ranked, i, j);
    }
  }

  /** Of peers listed once, a pod passes the steal gate, if and only if it is one that does
      not drain, one such peer outweighs it, and it outweighs every other. */
  lemma StealsIff(pod: Pod, h: Hash, partition: string)
    requires NoneTwice(Effective(pod))
    ensures Steals(pod, h, partition) <==>
              && pod.self.Some? && pod.self.value in Effective(pod)
              && exists p | p in Effective(pod) ::
                   && p != pod.self.value && Outweighs(h, partition, p, pod.self.value)
                   && forall q | q in Effective(pod) && q != p && q != pod.self.value :: Outweighs(h, partition, pod.self.value, q)
  {
    Strictly(pod, h, partition);
    var ranked := RankedBy(pod, h, partition);
    if Steals(pod, h, partition) {
      assert ranked[0] in Effective(pod);
    } else if pod.self.Some? && pod.self.value in Effective(pod) {
      var me := pod.self.value;
      forall p | p in Effective(pod) && p != me && Outweighs(h, partition, p, me)
        ensures exists q | q in Effective(pod) && q != p && q != me :: !Outweighs(h, partition, me, q)
      {
        NotSecond(ranked, h, partition, me, p);
      }
    }
  }

  /** A peer outweighed by `p` that is not second in rank is outweighed by another too. */
  lemma NotSecond(ranked: seq<string>, h: Hash, partition: string, me: string, p: string)
    requires forall i, j | 0 <= i < j < |ranked| :: ranked[i] != ranked[j] && Outweighs(h, partition, ranked[i], ranked[j])
    requires me in ranked && p in ranked && p != me && Outweighs(h, partition, p, me) && !(|ranked| >= 2 && ranked[1] == me)
    ensures exists q | q in ranked && q != p && q != me :: !Outweighs(h, partition, me, q)
  {
    var i :| 0 <= i < |ranked| && ranked[i] == me;
    var j :| 0 <= j < |ranked| && ranked[j] == p;
    OneOutweighs(h, partition, me, p);
    assert j < i && i >= 2;
    var m := if j == 0 then 1 else 0;
    assert ranked[m] in ranked && ranked[m] != p && ranked[m] != me;
    OneOutweighs(h, partition, me, ranked[m]);
  }
}
