/** Per-tenant fair share with a persistent cursor (internal/compaction/fair_share.go)
    and the serving loop of a scan (internal/compaction/scheduler.go). */
module FairShare {
  import opened Ordering
  import opened RoundRobin
  import opened TenantLists
  import opened Rounds
  import opened Partition

  function Tenant(): MergePlan -> string {
    (p: MergePlan) => p.tenant
  }

  function PlansFor(plans: seq<MergePlan>, tenant: string): seq<MergePlan> {
    Filter(plans, Of(Tenant(), tenant))
  }

  /** The tenants with work, in order, each once. */
  function Tenants(plans: seq<MergePlan>): (ts: seq<string>)
    ensures forall p | p in plans :: p.tenant in ts
  {
    if plans == [] then
      []
    else
      assert plans == [plans[0]] + plans[1..];
      AddTenant(plans[0].tenant, Tenants(plans[1..]))
  }

  function AddTenant(t: string, ts: seq<string>): (r: seq<string>)
    ensures forall x :: x in r <==> x == t || x in ts
  {
    if t in ts then ts else
      var r := Insert(LexLess, t, ts);
      assert forall x :: x in r <==> x in multiset(r);
      r
  }

  lemma {:induction false} TenantsIncrease(plans: seq<MergePlan>)
    ensures Increasing(Tenants(plans))
    ensures forall t | t in Tenants(plans) :: exists p | p in plans :: p.tenant == t
  {
    if plans != [] {
      assert plans == [plans[0]] + plans[1..];
      var t, ts := plans[0].tenant, Tenants(plans[1..]);
      TenantsIncrease(plans[1..]);
      if t !in ts { InsertIncreases(t, ts); }
      assert plans[0] in plans;
    }
  }

  // ---- The specification of one pick ------------------------------------------------

  function BucketsOf(plans: seq<MergePlan>, names: seq<string>): (b: seq<seq<MergePlan>>)
    ensures |b| == |names| && forall i | 0 <= i < |b| :: b[i] == PlansFor(plans, names[i])
  {
    seq(|names|, i requires 0 <= i < |names| => PlansFor(plans, names[i]))
  }

  /** What one pick returns: the head of the plain round robin. */
  function Picked(plans: seq<MergePlan>, cursor: nat, quantum: nat, most: int): seq<MergePlan>
    requires quantum > 0
  {
    if plans == [] || most <= 0 then []
    else
      assert plans[0].tenant in Tenants(plans);
      Head(FairOrder(BucketsOf(plans, Rotated(Tenants(plans), cursor)), quantum), most)
  }

  // ---- How the pick is computed -------------------------------------------------------

  ghost predicate Grouped(plans: seq<MergePlan>, byTenant: map<string, seq<MergePlan>>) {
    && (forall t | t in byTenant :: byTenant[t] == PlansFor(plans, t) != [])
    && (forall t | t !in byTenant :: PlansFor(plans, t) == [])
  }

  lemma GroupOneMore(plans: seq<MergePlan>, byTenant: map<string, seq<MergePlan>>, p: MergePlan)
    requires Grouped(plans, byTenant)
    ensures Grouped(plans + [p], byTenant[p.tenant := (if p.tenant in byTenant then byTenant[p.tenant] else []) + [p]])
  {
    forall t ensures PlansFor(plans + [p], t) == PlansFor(plans, t) + (if t == p.tenant then [p] else []) {
      FilterAppend(plans, p, Of(Tenant(), t));
    }
  }

  method GroupByTenant(plans: seq<MergePlan>) returns (byTenant: map<string, seq<MergePlan>>)
    ensures Grouped(plans, byTenant)
  {
    byTenant := map[];
    for i := 0 to |plans|
      invariant Grouped(plans[..i], byTenant)
    {
      var p := plans[i];
      assert plans[..i + 1] == plans[..i] + [p];
      GroupOneMore(plans[..i], byTenant, p);
      byTenant := byTenant[p.tenant := (if p.tenant in byTenant then byTenant[p.tenant] else []) + [p]];
    }
    assert plans[..|plans|] == plans;
  }

  lemma SameBuckets(plans: seq<MergePlan>, byTenant: map<string, seq<MergePlan>>, names: seq<string>)
    requires Grouped(plans, byTenant) && forall t | t in names :: t in byTenant
    ensures Buckets(byTenant, names) == BucketsOf(plans, names)
  {}

  method PickFrom(plans: seq<MergePlan>, cursor: nat, quantum: nat, most: nat)
    returns (picked: seq<MergePlan>, next: nat)
    requires plans != [] && most > 0 && quantum > 0
    ensures picked == Picked(plans, cursor, quantum, most) && next == PickedCursor(plans, cursor)
  {
    var byTenant := GroupByTenant(plans);
    var tenants := SortedTenantList(byTenant.Keys);
    GroupedTenants(plans, byTenant, tenants);
    var place := cursor % |tenants|;
    ghost var names := Rounded(plans, byTenant, tenants, cursor, place);
    picked := PickRounds(byTenant, tenants, place, quantum, most, names);
    next := (cursor + 1) % |tenants|;
  }

  /** The tenants in the order the rounds visit them. */
  lemma Rounded(plans: seq<MergePlan>, byTenant: map<string, seq<MergePlan>>, tenants: seq<string>, cursor: nat, place: nat)
    returns (names: seq<string>)
    requires Grouped(plans, byTenant) && tenants == Tenants(plans) != [] && Increasing(tenants)
    requires (forall t :: t in tenants <==> t in byTenant) && place == cursor % |tenants|
    ensures names == Rotated(tenants, cursor) && Visits(tenants, place, names)
    ensures NoneTwice(names) && (forall t | t in names :: t in byTenant) && Buckets(byTenant, names) == BucketsOf(plans, names)
  {
    names := Rotated(tenants, cursor);
    RotatedNames(tenants, cursor, names);
    VisitsFromPlace(tenants, cursor, names);
    SameBuckets(plans, byTenant, names);
  }

  class FairShareScheduler {
    var cursor: nat
    const quantum: nat

    ghost predicate Valid() { quantum > 0 }

    constructor (compactionsPerTenant: int)
      ensures Valid() && cursor == 0
      ensures quantum == if compactionsPerTenant <= 0 then 1 else compactionsPerTenant
    {
      cursor := 0;
      quantum := if compactionsPerTenant <= 0 then 1 else compactionsPerTenant;
    }

    method PickCandidates(plans: seq<MergePlan>, most: int) returns (picked: seq<MergePlan>)
      requires Valid()
      modifies this
      ensures picked == Picked(plans, old(cursor), quantum, most)
      ensures cursor == if plans == [] || most <= 0 then old(cursor) else PickedCursor(plans, old(cursor))
    {
      if |plans| == 0 || most <= 0 { return []; }
      picked, cursor := PickFrom(plans, cursor, quantum, most);
    }

    method Advance(n: int)
      modifies this
      ensures cursor == if n <= 0 then old(cursor) else old(cursor) + n
    {
      if n > 0 { cursor := cursor + n; }
    }
  }

  function PickedCursor(plans: seq<MergePlan>, cursor: nat): nat
    requires plans != []
  {
    assert plans[0].tenant in Tenants(plans);
    (cursor + 1) % |Tenants(plans)|
  }

  lemma GroupedTenants(plans: seq<MergePlan>, byTenant: map<string, seq<MergePlan>>, tenants: seq<string>)
    requires plans != [] && Grouped(plans, byTenant) && Increasing(tenants)
    requires forall t :: t in tenants <==> t in byTenant
    ensures tenants == Tenants(plans) != []
  {
    TenantsIncrease(plans);
    forall t ensures t in tenants <==> t in Tenants(plans) {
      if t in byTenant { assert PlansFor(plans, t)[0] in plans; }
      if p :| p in plans && p.tenant == t { assert p in PlansFor(plans, t); }
    }
    assert plans[0].tenant in Tenants(plans);
    IncreasingIsUnique(tenants, Tenants(plans));
  }

  // ---- What a pick gives each tenant --------------------------------------------------

  lemma PlansForTenant(plans: seq<MergePlan>, t: string)
    ensures forall p | p in PlansFor(plans, t) :: p.tenant == t
  {}

  lemma BucketsAreTagged(plans: seq<MergePlan>, names: seq<string>)
    requires NoneTwice(names)
    ensures Tagged(BucketsOf(plans, names), names, Tenant())
  {
    forall i | 0 <= i < |names| ensures forall p | p in BucketsOf(plans, names)[i] :: Tenant()(p) == names[i] {
      PlansForTenant(plans, names[i]);
    }
  }

  lemma {:induction false} TotalOneMore<T>(b: seq<seq<T>>, i: nat, x: seq<T>)
    requires i < |b|
    ensures Total(b[i := x]) == Total(b) - |b[i]| + |x|
  {
    if i == 0 {
      assert b[0 := x][1..] == b[1..];
    } else {
      assert b[i := x][1..] == b[1..][i - 1 := x];
      TotalOneMore(b[1..], i - 1, x);
    }
  }

  lemma FilterHead(plans: seq<MergePlan>, t: string)
    requires plans != []
    ensures PlansFor(plans, t) == (if plans[0].tenant == t then [plans[0]] else []) + PlansFor(plans[1..], t)
  {}

  /** Every plan is in one bucket. */
  lemma {:induction false} TotalOfBuckets(plans: seq<MergePlan>, names: seq<string>)
    requires NoneTwice(names) && forall p | p in plans :: p.tenant in names
    ensures Total(BucketsOf(plans, names)) == |plans|
  {
    var b := BucketsOf(plans, names);
    if plans == [] {
      TotalZero(b);
    } else {
      assert plans[0] in plans && forall p | p in plans[1..] :: p in plans;
      TotalOfBuckets(plans[1..], names);
      var i :| 0 <= i < |names| && names[i] == plans[0].tenant;
      BucketsHead(plans, names, i);
      var rest := BucketsOf(plans[1..], names);
      TotalOneMore(rest, i, [plans[0]] + rest[i]);
    }
  }

  lemma BucketsHead(plans: seq<MergePlan>, names: seq<string>, i: nat)
    requires plans != [] && NoneTwice(names) && i < |names| && names[i] == plans[0].tenant
    ensures var rest := BucketsOf(plans[1..], names);
            BucketsOf(plans, names) == rest[i := [plans[0]] + rest[i]]
  {
    var b, rest := BucketsOf(plans, names), BucketsOf(plans[1..], names);
    var c := rest[i := [plans[0]] + rest[i]];
    forall k | 0 <= k < |names| ensures b[k] == c[k] {
      FilterHead(plans, names[k]);
      assert k != i ==> names[k] != names[i];
    }
  }

  /** The names a pick visits, with all it needs to know about its buckets. */
  lemma PickSetup(plans: seq<MergePlan>, cursor: nat) returns (names: seq<string>)
    requires plans != []
    ensures Tenants(plans) != [] && names == Rotated(Tenants(plans), cursor)
    ensures Tagged(BucketsOf(plans, names), names, Tenant()) && Total(BucketsOf(plans, names)) == |plans|
    ensures forall p | p in plans :: p.tenant in names
  {
    assert plans[0].tenant in Tenants(plans);
    TenantsIncrease(plans);
    names := Rotated(Tenants(plans), cursor);
    RotatedNames(Tenants(plans), cursor, names);
    BucketsAreTagged(plans, names);
    TotalOfBuckets(plans, names);
  }

  /** Exactly as many plans as there are slots or plans, and of each tenant its
      first ones in their order. */
  lemma PickIsFull(plans: seq<MergePlan>, cursor: nat, quantum: nat, most: nat, t: string)
    requires quantum > 0
    ensures |Picked(plans, cursor, quantum, most)| == if most < |plans| then most else |plans|
    ensures PlansFor(Picked(plans, cursor, quantum, most), t) <= PlansFor(plans, t)
  {
    if plans != [] && most > 0 {
      var names := PickSetup(plans, cursor);
      PrefixOfOwn(plans, names, quantum, Picked(plans, cursor, quantum, most), t);
    }
  }

  lemma PrefixOfOwn(plans: seq<MergePlan>, names: seq<string>, quantum: nat, picked: seq<MergePlan>, t: string)
    requires quantum > 0 && Tagged(BucketsOf(plans, names), names, Tenant())
    requires picked <= FairOrder(BucketsOf(plans, names), quantum) && forall p | p in plans :: p.tenant in names
    ensures PlansFor(picked, t) <= PlansFor(plans, t)
  {
    if t in names {
      var i :| 0 <= i < |names| && names[i] == t;
      PrefixShare(BucketsOf(plans, names), names, Tenant(), quantum, picked, i);
    } else {
      PrefixNone(BucketsOf(plans, names), names, Tenant(), quantum, picked, t);
    }
  }

  /** While a tenant has a plan left, no other tenant got more than the quantum more. */
  lemma PickIsFair(plans: seq<MergePlan>, cursor: nat, quantum: nat, most: nat, t: string, u: string)
    requires quantum > 0
    requires |PlansFor(Picked(plans, cursor, quantum, most), t)| < |PlansFor(plans, t)|
    ensures |PlansFor(Picked(plans, cursor, quantum, most), u)|
            <= |PlansFor(Picked(plans, cursor, quantum, most), t)| + quantum
  {
    if most > 0 {
      assert PlansFor(plans, t)[0] in plans;
      var names := PickSetup(plans, cursor);
      FairOfBuckets(plans, names, quantum, Picked(plans, cursor, quantum, most), t, u);
    }
  }

  lemma FairOfBuckets(plans: seq<MergePlan>, names: seq<string>, quantum: nat, picked: seq<MergePlan>, t: string, u: string)
    requires quantum > 0 && Tagged(BucketsOf(plans, names), names, Tenant())
    requires picked <= FairOrder(BucketsOf(plans, names), quantum) && t in names
    requires |PlansFor(picked, t)| < |PlansFor(plans, t)|
    ensures |PlansFor(picked, u)| <= |PlansFor(picked, t)| + quantum
  {
    var b := BucketsOf(plans, names);
    var i :| 0 <= i < |names| && names[i] == t;
    if u in names {
      var j :| 0 <= j < |names| && names[j] == u;
      PrefixIsFair(b, names, Tenant(), quantum, picked, i, j);
    } else {
      PrefixNone(b, names, Tenant(), quantum, picked, u);
    }
  }
}
