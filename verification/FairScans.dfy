/** Fair share across scans (internal/compaction/scheduler.go, the pick, budget and
    serve steps of Scan): a scan that its time budget cuts short leaves the cursor at
    the first tenant it did not reach. */
module FairScans {
  import opened Ordering
  import opened RoundRobin
  import opened Cyclic
  import opened TenantLists
  import opened Partition
  import opened FairShare

  /** The tenants of the first `k` plans. */
  function ServedBy(picked: seq<MergePlan>, k: nat): set<string>
    requires k <= |picked|
  {
    set p | p in picked[..k] :: p.tenant
  }

  /** One scan: the plans it saw, its slots, how many merges it started, and whether
      the time budget cut it. */
  datatype ScanEvent = ScanEvent(plans: seq<MergePlan>, most: int, started: nat, cut: bool)

  ghost predicate Happens(e: ScanEvent, cursor: nat, quantum: nat) {
    && quantum > 0 && e.started <= |Picked(e.plans, cursor, quantum, e.most)|
    && (if e.cut then 0 < e.started else e.started == |Picked(e.plans, cursor, quantum, e.most)|)
  }

  function Serves(e: ScanEvent, cursor: nat, quantum: nat): set<string>
    requires Happens(e, cursor, quantum)
  {
    ServedBy(Picked(e.plans, cursor, quantum, e.most), e.started)
  }

  function Advanced(cursor: nat, cut: bool, served: set<string>): nat {
    if cut && |served| > 1 then cursor + |served| - 1 else cursor
  }

  function NextCursor(e: ScanEvent, cursor: nat, quantum: nat): nat
    requires Happens(e, cursor, quantum)
  {
    if e.plans == [] || e.most <= 0 then cursor
    else Advanced(PickedCursor(e.plans, cursor), e.cut, Serves(e, cursor, quantum))
  }

  method TenantsWithWork(plans: seq<MergePlan>) returns (n: nat)
    ensures n == |set p | p in plans :: p.tenant|
  {
    var seen: set<string> := {};
    for i := 0 to |plans|
      invariant seen == set p | p in plans[..i] :: p.tenant
    {
      seen := seen + {plans[i].tenant};
    }
    assert plans[..|plans|] == plans;
    n := |seen|;
  }

  /** The serving loop: merges start in order until a drain, the end of the time
      budget (never before the first), or the last pick. */
  method ServePicked(fair: FairShareScheduler, picked: seq<MergePlan>, draining: nat -> bool, expired: nat -> bool)
    returns (started: nat, cut: bool)
    modifies fair
    ensures started <= |picked| && (cut ==> 0 < started < |picked| && !draining(started) && expired(started))
    ensures forall i | 0 <= i < started :: !draining(i) && (i > 0 ==> !expired(i))
    ensures started == |picked| || draining(started) || cut
    ensures fair.cursor == Advanced(old(fair.cursor), cut, ServedBy(picked, started))
  {
    started, cut := 0, false;
    var served: set<string> := {};
    while started < |picked|
      invariant started <= |picked| && served == ServedBy(picked, started)
      invariant fair.cursor == old(fair.cursor) && !cut
      invariant forall i | 0 <= i < started :: !draining(i) && (i > 0 ==> !expired(i))
    {
      if draining(started) { return; }
      if started > 0 && expired(started) {
        if |served| > 1 { fair.Advance(|served| - 1); }
        cut := true;
        return;
      }
      served := served + {picked[started].tenant};
      started := started + 1;
    }
  }

  /** One scan. Uninterrupted it is one event of the model below; one that a drain stops
      has started its picks in order up to there, and moved the cursor by one. */
  method Scan(
    fair: FairShareScheduler, plans: seq<MergePlan>, maxConcurrent: int, draining: nat -> bool, expired: nat -> bool)
    returns (started: nat, cut: bool, ghost most: int, ghost drained: bool)
    requires fair.Valid()
    modifies fair
    ensures maxConcurrent >= 1 ==> most >= |Tenants(plans)|
    ensures most == maxConcurrent * |set p | p in plans :: p.tenant|
    ensures var e := ScanEvent(plans, most, started, cut);
            !drained ==> Happens(e, old(fair.cursor), fair.quantum) && fair.cursor == NextCursor(e, old(fair.cursor), fair.quantum)
    ensures drained ==>
              && plans != [] && most > 0 && !cut && started < |Picked(plans, old(fair.cursor), fair.quantum, most)|
              && draining(started) && fair.cursor == PickedCursor(plans, old(fair.cursor))
  {
    var n := TenantsWithWork(plans);
    var budget := maxConcurrent * n;
    most := budget;
    TenantCount(plans);
    if maxConcurrent >= 1 { MulAtLeast(maxConcurrent, n); }
    var picked := fair.PickCandidates(plans, budget);
    started, cut := ServePicked(fair, picked, draining, expired);
    drained := started < |picked| && !cut;
  }

  // ---- What a scan with one slot per turn serves ---------------------------------------

  lemma TenantCount(plans: seq<MergePlan>)
    ensures |set p | p in plans :: p.tenant| == |Tenants(plans)|
  {
    TenantsIncrease(plans);
    var ts := Tenants(plans);
    assert (set p | p in plans :: p.tenant) == set t | t in ts;
    LexIsOrder();
    DistinctSize(ts);
  }

  lemma {:induction false} DistinctSize(ts: seq<string>)
    requires NoneTwice(ts)
    ensures |set t | t in ts| == |ts|
  {
    if ts != [] {
      var rest := ts[1..];
      forall i, j | 0 <= i < j < |rest| ensures rest[i] != rest[j] { assert rest[i] == ts[i + 1] && rest[j] == ts[j + 1]; }
      DistinctSize(rest);
      assert (set t | t in ts) == (set t | t in rest) + {ts[0]};
      assert ts[0] !in rest;
    }
  }

  /** With one plan a turn, the first picks are one of each tenant, from the cursor on. */
  lemma FirstPicks(plans: seq<MergePlan>, cursor: nat, most: nat)
    requires plans != [] && most >= |Tenants(plans)|
    ensures var picked, names := Picked(plans, cursor, 1, most), Rotated(Tenants(plans), cursor);
            |picked| >= |names| > 0 && forall i | 0 <= i < |names| :: picked[i].tenant == names[i]
  {
    var names := PickSetup(plans, cursor);
    BucketsNonEmpty(plans, cursor, names);
    FirstOfBuckets(plans, cursor, most, names, BucketsOf(plans, names));
  }

  lemma FirstOfBuckets(plans: seq<MergePlan>, cursor: nat, most: nat, names: seq<string>, buckets: seq<seq<MergePlan>>)
    requires plans != [] && Tenants(plans) != [] && most >= |names| && names == Rotated(Tenants(plans), cursor)
    requires buckets == BucketsOf(plans, names) && Tagged(buckets, names, Tenant()) && Total(buckets) == |plans|
    requires forall i | 0 <= i < |buckets| :: buckets[i] != []
    ensures var picked := Picked(plans, cursor, 1, most);
            |picked| >= |names| > 0 && forall i | 0 <= i < |names| :: picked[i].tenant == names[i]
  {
    FirstOfOrder(buckets, names, Tenant());
  }

  lemma BucketsNonEmpty(plans: seq<MergePlan>, cursor: nat, names: seq<string>)
    requires Tenants(plans) != [] && names == Rotated(Tenants(plans), cursor)
    ensures forall i | 0 <= i < |names| :: BucketsOf(plans, names)[i] != []
  {
    TenantsIncrease(plans);
    forall i | 0 <= i < |names| ensures BucketsOf(plans, names)[i] != [] {
      assert names[i] in Tenants(plans);
      var p :| p in plans && p.tenant == names[i];
      assert p in PlansFor(plans, names[i]);
    }
  }

  /** The tenants of a window of `w` places from the cursor. */
  function Window(tenants: seq<string>, cursor: nat, w: nat): set<string>
    requires w <= |tenants| && tenants != []
  {
    set t | t in Rotated(tenants, cursor)[..w]
  }

  lemma WindowSize(tenants: seq<string>, cursor: nat, w: nat)
    requires w <= |tenants| && tenants != [] && Increasing(tenants)
    ensures |Window(tenants, cursor, w)| == w
  {
    RotatedNames(tenants, cursor, Rotated(tenants, cursor));
    DistinctSize(Rotated(tenants, cursor)[..w]);
  }

  /** A scan serves a window of tenants; a cut scan leaves the cursor where its window
      ends, and a scan that is not cut serves them all. */
  ghost predicate Turn(tenants: seq<string>, cursor: nat, w: nat, cut: bool, served: set<string>, next: nat) {
    && 1 <= w <= |tenants| && served == Window(tenants, cursor, w)
    && (if cut then next % |tenants| == (cursor + w) % |tenants| else w == |tenants|)
  }

  lemma ScanServesWindow(e: ScanEvent, cursor: nat) returns (w: nat)
    requires e.plans != [] && e.most >= |Tenants(e.plans)| && Happens(e, cursor, 1)
    ensures Turn(Tenants(e.plans), cursor, w, e.cut, Serves(e, cursor, 1), NextCursor(e, cursor, 1))
  {
    FirstPicks(e.plans, cursor, e.most);
    TenantsIncrease(e.plans);
    w := if e.started < |Tenants(e.plans)| then e.started else |Tenants(e.plans)|;
    ServesNames(e.plans, cursor, e.most, e.started, w);
    TurnOf(Tenants(e.plans), cursor, w, e.cut, Serves(e, cursor, 1), PickedCursor(e.plans, cursor));
  }

  lemma TurnOf(tenants: seq<string>, cursor: nat, w: nat, cut: bool, served: set<string>, picked: nat)
    requires 1 <= w <= |tenants| && Increasing(tenants) && served == Window(tenants, cursor, w)
    requires picked == (cursor + 1) % |tenants| && (cut || w == |tenants|)
    ensures Turn(tenants, cursor, w, cut, served, Advanced(picked, cut, served))
  {
    WindowSize(tenants, cursor, w);
    CursorMoves(cursor, w, |tenants|);
  }

  lemma TurnReaches(tenants: seq<string>, cursor: nat, w: nat, cut: bool, served: set<string>, next: nat, d: nat)
    requires Turn(tenants, cursor, w, cut, served, next) && d < |tenants|
    ensures if d < w then tenants[Slot(cursor, d, |tenants|)] in served
            else Slot(next, d - w, |tenants|) == Slot(cursor, d, |tenants|)
  {
    if d < w {
      assert Rotated(tenants, cursor)[..w][d] == tenants[Slot(cursor, d, |tenants|)];
    } else {
      SlotMoves(cursor, next, w, d, |tenants|);
    }
  }

  lemma CursorMoves(cursor: nat, w: nat, n: nat)
    requires n > 0 && w > 0
    ensures ((cursor + 1) % n + w - 1) % n == (cursor + w) % n
  {
    SlotFromPlace(cursor + 1, w - 1, n);
    assert Slot((cursor + 1) % n, w - 1, n) == ((cursor + 1) % n + (w - 1)) % n;
  }

  lemma FirstWindow(picked: seq<MergePlan>, names: seq<string>, k: nat, w: nat)
    requires |names| <= |picked| && k <= |picked| && w == if k < |names| then k else |names|
    requires forall i | 0 <= i < |names| :: picked[i].tenant == names[i]
    requires forall p | p in picked :: p.tenant in names
    ensures ServedBy(picked, k) == set t | t in names[..w]
  {
    forall t | t in ServedBy(picked, k) ensures t in names[..w] {
      var i :| 0 <= i < k && picked[i].tenant == t;
      if k <= |names| {
        assert names[..w][i] == t;
      } else {
        assert names[..w] == names && picked[i] in picked;
      }
    }
    forall t | t in names[..w] ensures t in ServedBy(picked, k) {
      var i :| 0 <= i < w && names[i] == t;
      assert picked[..k][i] == picked[i];
    }
  }

  lemma ServesNames(plans: seq<MergePlan>, cursor: nat, most: nat, k: nat, w: nat)
    requires plans != [] && most >= |Tenants(plans)| && Tenants(plans) != []
    requires k <= |Picked(plans, cursor, 1, most)| && w == if k < |Tenants(plans)| then k else |Tenants(plans)|
    ensures ServedBy(Picked(plans, cursor, 1, most), k) == Window(Tenants(plans), cursor, w)
  {
    var picked, names := Picked(plans, cursor, 1, most), Rotated(Tenants(plans), cursor);
    FirstPicks(plans, cursor, most);
    TenantsIncrease(plans);
    RotatedNames(Tenants(plans), cursor, names);
    forall p | p in picked ensures p.tenant in names {
      PickedIsOffered(plans, cursor, most, p);
    }
    FirstWindow(picked, names, k, w);
  }

  lemma PickedIsOffered(plans: seq<MergePlan>, cursor: nat, most: nat, p: MergePlan)
    requires p in Picked(plans, cursor, 1, most)
    ensures p in plans
  {
    PickIsFull(plans, cursor, 1, most, p.tenant);
    assert p in PlansFor(Picked(plans, cursor, 1, most), p.tenant);
    assert p in PlansFor(plans, p.tenant);
  }

  // ---- Over whole runs --------------------------------------------------------------------

  /** A run of scans over one tenant set, each with a slot per tenant or more. */
  ghost predicate IsRun(scans: seq<ScanEvent>, cursor: nat, tenants: seq<string>) {
    scans != [] ==>
      && scans[0].plans != [] && Tenants(scans[0].plans) == tenants && scans[0].most >= |tenants|
      && Happens(scans[0], cursor, 1)
      && IsRun(scans[1..], NextCursor(scans[0], cursor, 1), tenants)
  }

  function EverServed(scans: seq<ScanEvent>, cursor: nat, tenants: seq<string>): set<string>
    requires IsRun(scans, cursor, tenants)
  {
    if scans == [] then {}
    else Serves(scans[0], cursor, 1) + EverServed(scans[1..], NextCursor(scans[0], cursor, 1), tenants)
  }

  /** What a scan did, without how it picked. */
  datatype Outcome = Outcome(w: nat, cut: bool, served: set<string>, next: nat)

  ghost predicate Turns(turns: seq<Outcome>, cursor: nat, tenants: seq<string>) {
    turns != [] ==>
      && Turn(tenants, cursor, turns[0].w, turns[0].cut, turns[0].served, turns[0].next)
      && Turns(turns[1..], turns[0].next, tenants)
  }

  function ServedOver(turns: seq<Outcome>): set<string> {
    if turns == [] then {} else turns[0].served + ServedOver(turns[1..])
  }

  /** Every run of scans is a run of turns. */
  lemma {:induction false} RunTakesTurns(scans: seq<ScanEvent>, cursor: nat, tenants: seq<string>) returns (turns: seq<Outcome>)
    requires IsRun(scans, cursor, tenants)
    ensures |turns| == |scans| && Turns(turns, cursor, tenants) && ServedOver(turns) == EverServed(scans, cursor, tenants)
  {
    if scans == [] {
      turns := [];
    } else {
      var e, next := scans[0], NextCursor(scans[0], cursor, 1);
      var w := ScanServesWindow(e, cursor);
      var later := RunTakesTurns(scans[1..], next, tenants);
      turns := AddTurn(Outcome(w, e.cut, Serves(e, cursor, 1), next), later, cursor, tenants);
    }
  }

  lemma AddTurn(o: Outcome, later: seq<Outcome>, cursor: nat, tenants: seq<string>) returns (turns: seq<Outcome>)
    requires Turn(tenants, cursor, o.w, o.cut, o.served, o.next) && Turns(later, o.next, tenants)
    ensures |turns| == |later| + 1 && Turns(turns, cursor, tenants) && ServedOver(turns) == o.served + ServedOver(later)
  {
    turns := [o] + later;
    assert turns[0] == o && turns[1..] == later;
  }

  /** The tenant `d` places after the cursor is served within `d + 1` turns. */
  lemma {:induction false} ServedInTurn(turns: seq<Outcome>, cursor: nat, tenants: seq<string>, d: nat)
    requires Turns(turns, cursor, tenants) && d < |tenants| && d < |turns|
    ensures tenants[Slot(cursor, d, |tenants|)] in ServedOver(turns)
  {
    var t := turns[0];
    TurnReaches(tenants, cursor, t.w, t.cut, t.served, t.next, d);
    if d >= t.w { ServedInTurn(turns[1..], t.next, tenants, d - t.w); }
  }

  /** However the time budget cuts the scans, every tenant with work is served within
      as many scans as there are tenants. */
  lemma EveryTenantIsServed(scans: seq<ScanEvent>, cursor: nat, tenants: seq<string>, t: string)
    requires IsRun(scans, cursor, tenants) && |scans| >= |tenants| && t in tenants
    ensures t in EverServed(scans, cursor, tenants)
  {
    var k :| 0 <= k < |tenants| && tenants[k] == t;
    var d := SlotReached(cursor, k, |tenants|);
    var turns := RunTakesTurns(scans, cursor, tenants);
    ServedInTurn(turns, cursor, tenants, d);
  }
}
