/** The order merges are tried in (internal/compaction/planner.go, sortPlans): open
    hours first, then the most files removed per byte rewritten, then the oldest. */
module PlanOrder {
  import opened Ordering
  import opened Keys
  import opened Planner
  import opened Partition

  predicate IsOpen(p: MergePlan) {
    p.plan.reason.L0Count? || p.plan.reason.L1Count?
  }

  /** Files removed per byte rewritten; rounding is not modelled. */
  function Debt(p: MergePlan): real {
    (|p.plan.files| - 1) as real / (if p.bytes < 1 then 1 else p.bytes) as real
  }

  function LabelOf(p: MergePlan): string {
    Label(p.group.prefix, p.group.bucket)
  }

  /** What orders plans of equal priority: the hour, then names. */
  datatype Place = Place(time: int, partition: string, group: string, tenant: string)

  function PlaceOf(p: MergePlan): Place {
    Place(p.time, p.partition, LabelOf(p), p.tenant)
  }

  predicate PlaceLess(a: Place, b: Place) {
    if a.time != b.time then a.time < b.time
    else if a.partition != b.partition then LexLess(a.partition, b.partition)
    else if a.group != b.group then LexLess(a.group, b.group)
    else LexLess(a.tenant, b.tenant)
  }

  predicate PlanLess(a: MergePlan, b: MergePlan) {
    if IsOpen(a) != IsOpen(b) then IsOpen(a)
    else if Debt(a) != Debt(b) then Debt(a) > Debt(b)
    else PlaceLess(PlaceOf(a), PlaceOf(b))
  }

  lemma PlaceOrder(a: Place, b: Place, c: Place)
    ensures !PlaceLess(a, a)
    ensures PlaceLess(a, b) && PlaceLess(b, c) ==> PlaceLess(a, c)
    ensures PlaceLess(a, c) ==> PlaceLess(a, b) || PlaceLess(b, c)
  {
    LexTriple(a.partition, b.partition, c.partition);
    LexTriple(a.group, b.group, c.group);
    LexTriple(a.tenant, b.tenant, c.tenant);
  }

  lemma PlanLessIsOrder()
    ensures WeakOrder(PlanLess)
  {
    forall a: MergePlan, b: MergePlan, c: MergePlan
      ensures !PlanLess(a, a)
      ensures PlanLess(a, b) && PlanLess(b, c) ==> PlanLess(a, c)
      ensures PlanLess(a, c) ==> PlanLess(a, b) || PlanLess(b, c)
    {
      PlaceOrder(PlaceOf(a), PlaceOf(b), PlaceOf(c));
    }
  }

  /** One plan per (partition, tenant group), as a scan collects them. */
  ghost predicate OnePerGroup(plans: seq<MergePlan>) {
    && (forall x, y | x in plans && y in plans && x != y :: x.partition != y.partition || x.group != y.group)
    && (forall x | x in plans :: exists key :: x.group.prefix == GroupPrefix(key))
  }

  /** sortPlans gives one sequence: however the partitions and the groups' maps were
      walked, the merges are tried in the same order on every pod. */
  lemma SortedPlansAreUnique(a: seq<MergePlan>, b: seq<MergePlan>)
    requires multiset(a) == multiset(b) && OnePerGroup(a)
    ensures Sort(PlanLess, a) == Sort(PlanLess, b)
  {
    PlanLessIsOrder();
    SortAscends(PlanLess, a);
    SortAscends(PlanLess, b);
    PlansSeparate(a, Sort(PlanLess, a));
    AscendingIsUnique(PlanLess, Sort(PlanLess, a), Sort(PlanLess, b));
  }

  /** No two plans of a scan tie. */
  lemma PlansSeparate(a: seq<MergePlan>, s: seq<MergePlan>)
    requires OnePerGroup(a) && multiset(s) == multiset(a)
    ensures Separates(PlanLess, s)
  {
    forall x, y | x in s && y in s && x != y ensures PlanLess(x, y) || PlanLess(y, x) {
      MultisetMember(s, a, x);
      MultisetMember(s, a, y);
      var kx :| x.group.prefix == GroupPrefix(kx);
      var ky :| y.group.prefix == GroupPrefix(ky);
      if LabelOf(x) == LabelOf(y) {
        LabelIsInjective(kx, x.group.bucket, ky, y.group.bucket);
      }
      LexIsOrder();
    }
  }

  /** And an open-hour merge is never tried after a closed-hour one. */
  lemma OpenHoursFirst(plans: seq<MergePlan>, i: nat, j: nat)
    requires i < j < |plans| && IsOpen(Sort(PlanLess, plans)[j])
    ensures IsOpen(Sort(PlanLess, plans)[i])
  {
    PlanLessIsOrder();
    SortAscends(PlanLess, plans);
  }

  lemma DebtCompares(a: MergePlan, b: MergePlan)
    ensures var x, y := if a.bytes < 1 then 1 else a.bytes, if b.bytes < 1 then 1 else b.bytes;
            Debt(a) >= Debt(b) <==> (|a.plan.files| - 1) * y >= (|b.plan.files| - 1) * x
  {
    var x, y := if a.bytes < 1 then 1 else a.bytes, if b.bytes < 1 then 1 else b.bytes;
    CrossCompares(|a.plan.files| - 1, x, |b.plan.files| - 1, y);
  }

  lemma CrossCompares(n: int, x: int, m: int, y: int)
    requires x > 0 && y > 0
    ensures n as real / x as real >= m as real / y as real <==> n * y >= m * x
  {
    var a, b := n as real / x as real, m as real / y as real;
    assert a * x as real == n as real && b * y as real == m as real;
    Scaled(a, b, x as real * y as real);
    assert a * (x as real * y as real) == (n * y) as real;
    assert b * (x as real * y as real) == (m * x) as real;
  }

  lemma Scaled(a: real, b: real, c: real)
    requires c > 0.0
    ensures a >= b <==> a * c >= b * c
  {}

  /** The order merges are tried in: those an open hour's count asked for first; of equal
      priority, none removes more files per byte rewritten than an earlier one; and of those
      that remove as many, none is of an older hour. */
  lemma TriedInOrder(plans: seq<MergePlan>, i: nat, j: nat)
    requires i < j < |plans|
    ensures var a, b := Sort(PlanLess, plans)[i], Sort(PlanLess, plans)[j];
            var x, y := if a.bytes < 1 then 1 else a.bytes, if b.bytes < 1 then 1 else b.bytes;
            var openA, openB := a.plan.reason == L0Count || a.plan.reason == L1Count, b.plan.reason == L0Count || b.plan.reason == L1Count;
            && (openB ==> openA)
            && (openA == openB ==> (|a.plan.files| - 1) * y >= (|b.plan.files| - 1) * x)
            && (openA == openB && (|a.plan.files| - 1) * y == (|b.plan.files| - 1) * x ==> a.time <= b.time)
  {
    PlanLessIsOrder();
    SortAscends(PlanLess, plans);
    var a, b := Sort(PlanLess, plans)[i], Sort(PlanLess, plans)[j];
    DebtCompares(a, b);
    DebtCompares(b, a);
  }
}
