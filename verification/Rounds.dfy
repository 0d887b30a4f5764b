/** The rounds of one pick (internal/compaction/fair_share.go): nested loops that shrink
    the tenants' buckets, against the plain round robin. */
module Rounds {
  import opened Ordering
  import opened Cyclic
  import opened RoundRobin
  import opened TenantLists

  /** The buckets as one pick visits them. */
  function Buckets<T>(byTenant: map<string, seq<T>>, names: seq<string>): (b: seq<seq<T>>)
    requires forall t | t in names :: t in byTenant
    ensures |b| == |names| && forall i | 0 <= i < |b| :: b[i] == byTenant[names[i]]
  {
    seq(|names|, i requires 0 <= i < |names| => assert names[i] in names; byTenant[names[i]])
  }

  ghost predicate AllEmpty<T>(b: seq<seq<T>>) {
    forall i | 0 <= i < |b| :: b[i] == []
  }

  lemma RowGrows<T>(b: seq<seq<T>>, q: nat, i: nat)
    requires i < |b|
    ensures Row(b[..i + 1], q) == Row(b[..i], q) + Head(b[i], q)
    ensures Row(b[..i + 1], q) <= Row(b, q)
  {
    assert b[..i + 1] == b[..i] + [b[i]];
    RowAppend(b[..i], b[i], q);
    RowSplit(b, i + 1, q);
  }

  /** The loop over the tenants of a round: `taken` is a prefix of the round and, as
      long as slots remain, all of it up to tenant `i`; the later buckets are untouched. */
  ghost predicate RoundState<T>(
    b: seq<seq<T>>, now: seq<seq<T>>, taken: seq<T>, remaining: nat, drained: bool, q: nat, i: nat)
  {
    && i <= |b| && |now| == |b| && now[i..] == b[i..] && taken <= Row(b, q)
    && (remaining > 0 ==>
        && taken == Row(b[..i], q) && now[..i] == RestOf(b[..i], q) && (drained <==> AllEmpty(now[..i])))
  }

  lemma RoundStep<T>(
    b: seq<seq<T>>, now: seq<seq<T>>, taken: seq<T>, remaining: nat, drained: bool, q: nat, i: nat,
    take: nat)
    requires i < |b| && RoundState(b, now, taken, remaining, drained, q, i) && remaining > 0
    requires take == if |b[i]| <= q then (if |b[i]| <= remaining then |b[i]| else remaining)
                     else if q <= remaining then q else remaining
    ensures take <= |b[i]| && now[i] == b[i]
    ensures RoundState(b, now[i := b[i][take..]], taken + b[i][..take], remaining - take, drained && |b[i]| == take, q, i + 1)
  {
    TakenStep(b, taken, remaining, q, i, take);
    LeftStep(b, now, i, b[i][take..]);
    if take < remaining {
      assert b[i][take..] == Rest(b[i], q);
      LeftRests(b, now, q, i);
    }
  }

  lemma TakenStep<T>(b: seq<seq<T>>, taken: seq<T>, remaining: nat, q: nat, i: nat, take: nat)
    requires i < |b| && taken == Row(b[..i], q)
    requires take == if |b[i]| <= q then (if |b[i]| <= remaining then |b[i]| else remaining)
                     else if q <= remaining then q else remaining
    ensures taken + b[i][..take] <= Row(b, q)
    ensures take < remaining ==> taken + b[i][..take] == Row(b[..i + 1], q)
  {
    RowGrows(b, q, i);
    assert b[i][..take] <= Head(b[i], q);
    if take < remaining { assert b[i][..take] == Head(b[i], q); }
  }

  lemma LeftStep<T>(b: seq<seq<T>>, now: seq<seq<T>>, i: nat, x: seq<T>)
    requires i < |b| == |now| && now[i..] == b[i..]
    ensures now[i] == b[i] && now[i := x][i + 1..] == b[i + 1..]
    ensures AllEmpty(now[i := x][..i + 1]) <==> AllEmpty(now[..i]) && x == []
  {
    assert now[i] == now[i..][0] && b[i] == b[i..][0];
    assert now[i := x][i + 1..] == now[i..][1..] && b[i + 1..] == b[i..][1..];
    assert now[i := x][..i + 1] == now[..i] + [x];
    assert (now[..i] + [x])[i] == x && forall k | 0 <= k < i :: (now[..i] + [x])[k] == now[..i][k];
  }

  lemma LeftRests<T>(b: seq<seq<T>>, now: seq<seq<T>>, q: nat, i: nat)
    requires i < |b| == |now| && now[..i] == RestOf(b[..i], q)
    ensures now[i := Rest(b[i], q)][..i + 1] == RestOf(b[..i + 1], q)
  {
    assert now[i := Rest(b[i], q)][..i + 1] == now[..i] + [Rest(b[i], q)];
    assert b[..i + 1] == b[..i] + [b[i]];
  }

  lemma BucketsUpdate<T>(byTenant: map<string, seq<T>>, names: seq<string>, i: nat, x: seq<T>)
    requires i < |names| && NoneTwice(names) && forall t | t in names :: t in byTenant
    ensures Buckets(byTenant[names[i] := x], names) == Buckets(byTenant, names)[i := x]
  {}

  /** One tenant's turn: at most `q` plans, its bucket and the slots. */
  method TakeTurn<T>(bucket: seq<T>, q: nat, slots: nat) returns (take: nat)
    ensures take == if |bucket| <= q then (if |bucket| <= slots then |bucket| else slots)
                    else if q <= slots then q else slots
  {
    take := q;
    if take > |bucket| { take := |bucket|; }
    if take > slots { take := slots; }
  }

  /** One round over the tenants, stopping when the slots are used up. */
  method TakeTurns<T>(
    byTenant: map<string, seq<T>>, tenants: seq<string>, cursor: nat, q: nat, slots: nat, ghost names: seq<string>)
    returns (left: map<string, seq<T>>, taken: seq<T>, remaining: nat, drained: bool)
    requires tenants != [] && Visits(tenants, cursor, names)
    requires NoneTwice(names) && forall t | t in names :: t in byTenant
    ensures left.Keys == byTenant.Keys && |taken| + remaining == slots
    ensures exists i :: (remaining > 0 ==> i == |names|)
                        && RoundState(Buckets(byTenant, names), Buckets(left, names), taken, remaining, drained, q, i)
  {
    left, taken, remaining, drained := byTenant, [], slots, true;
    ghost var b := Buckets(byTenant, names);
    ghost var now := b;
    var i := 0;
    while i < |tenants| && remaining > 0
      invariant 0 <= i <= |tenants| && left.Keys == byTenant.Keys && |taken| + remaining == slots
      invariant now == Buckets(left, names) && RoundState(b, now, taken, remaining, drained, q, i)
    {
      var t := tenants[Slot(cursor, i, |tenants|)];
      assert t == names[i];
      var bucket := left[t];
      assert bucket == now[i] == now[i..][0] == b[i..][0] == b[i];
      var take := TakeTurn(bucket, q, remaining);
      RoundStep(b, now, taken, remaining, drained, q, i, take);
      BucketsUpdate(left, names, i, bucket[take..]);
      now := now[i := bucket[take..]];
      taken := taken + bucket[..take];
      left := left[t := bucket[take..]];
      remaining := remaining - take;
      drained := drained && |bucket| == take;
      i := i + 1;
    }
  }

  /** What a round takes of the fair order `whole`, and what it leaves to later rounds. */
  ghost predicate RoundTook<T>(whole: seq<T>, rest: seq<T>, taken: seq<T>, remaining: nat, drained: bool) {
    && taken <= whole
    && (remaining > 0 ==> whole == taken + rest && (if drained then rest == [] else taken != []))
  }

  lemma RoundDone<T>(b: seq<seq<T>>, now: seq<seq<T>>, taken: seq<T>, remaining: nat, drained: bool, q: nat, i: nat)
    requires q > 0 && RoundState(b, now, taken, remaining, drained, q, i) && (remaining > 0 ==> i == |b|)
    ensures RoundTook(FairOrder(b, q), FairOrder(now, q), taken, remaining, drained)
  {
    RoundTakes(b, q);
    if remaining > 0 {
      assert b[..|b|] == b && now[..|b|] == now;
      TotalZero(now);
      TotalZero(b);
    }
  }

  method TakeRound<T>(
    byTenant: map<string, seq<T>>, tenants: seq<string>, cursor: nat, q: nat, slots: nat, ghost names: seq<string>)
    returns (left: map<string, seq<T>>, taken: seq<T>, remaining: nat, drained: bool)
    requires tenants != [] && q > 0 && Visits(tenants, cursor, names)
    requires NoneTwice(names) && forall t | t in names :: t in byTenant
    ensures left.Keys == byTenant.Keys && |taken| + remaining == slots
    ensures RoundTook(FairOrder(Buckets(byTenant, names), q), FairOrder(Buckets(left, names), q), taken, remaining, drained)
  {
    left, taken, remaining, drained := TakeTurns(byTenant, tenants, cursor, q, slots, names);
    ghost var b, now := Buckets(byTenant, names), Buckets(left, names);
    ghost var i :| (remaining > 0 ==> i == |names|) && RoundState(b, now, taken, remaining, drained, q, i);
    RoundDone(b, now, taken, remaining, drained, q, i);
  }

  /** The prefix picked so far and, while slots remain, what the rounds still owe. */
  ghost predicate PickState<T>(order: seq<T>, picked: seq<T>, rest: seq<T>, remaining: nat, done: bool) {
    && picked <= order
    && (remaining > 0 ==> order == picked + rest && (done ==> rest == []))
  }

  lemma PickStep<T>(
    order: seq<T>, picked: seq<T>, whole: seq<T>, rest: seq<T>, taken: seq<T>,
    remaining: nat, remaining': nat, drained: bool)
    requires remaining > 0 && PickState(order, picked, whole, remaining, false)
    requires RoundTook(whole, rest, taken, remaining', drained)
    ensures PickState(order, picked + taken, rest, remaining', drained)
  {
    assert picked + taken <= picked + whole;
  }

  /** The rounds of one pick. */
  method PickRounds<T>(
    byTenant: map<string, seq<T>>, tenants: seq<string>, cursor: nat, q: nat, most: nat, ghost names: seq<string>)
    returns (picked: seq<T>)
    requires tenants != [] && q > 0 && Visits(tenants, cursor, names)
    requires NoneTwice(names) && forall t | t in names :: t in byTenant
    ensures picked == Head(FairOrder(Buckets(byTenant, names), q), most)
  {
    picked := [];
    var left, remaining: nat, done := byTenant, most, false;
    ghost var order := FairOrder(Buckets(byTenant, names), q);
    while remaining > 0 && !done
      invariant left.Keys == byTenant.Keys && |picked| + remaining == most
      invariant PickState(order, picked, FairOrder(Buckets(left, names), q), remaining, done)
      decreases remaining, !done
    {
      var left', taken, remaining', drained := TakeRound(left, tenants, cursor, q, remaining, names);
      PickStep(order, picked, FairOrder(Buckets(left, names), q), FairOrder(Buckets(left', names), q), taken, remaining, remaining', drained);
      left, picked, remaining, done := left', picked + taken, remaining', drained;
    }
  }
}
