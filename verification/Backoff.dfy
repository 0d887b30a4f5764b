/** Failed merges wait before they are tried again (internal/compaction/backoff.go). */
module Backoff {
  import opened Ordering
  import opened Files
  import opened Partition
  import opened PlanOrder
  import Keys

  const MINUTE: int := 60_000_000_000
  const MAX_WAIT: int := HOUR

  datatype Entry = Entry(failures: nat, until: int)

  type Memory = map<string, Entry>

  function Key(p: MergePlan): string {
    p.partition + "|" + LabelOf(p)
  }

  // ---- The specification --------------------------------------------------------------

  function Pow2(n: nat): (r: nat)
    ensures r >= 1
  {
    if n == 0 then 1 else 2 * Pow2(n - 1)
  }

  function Base(interval: int): (r: int)
    ensures r > 0
  {
    if interval <= 0 then MINUTE else interval
  }

  /** The interval doubled for every failure after the first, at most an hour. */
  function Wait(interval: int, failures: nat): int
    requires failures > 0
  {
    var full := Base(interval) * Pow2(failures - 1);
    if full < MAX_WAIT then full else MAX_WAIT
  }

  predicate Waiting(m: Memory, now: int, key: string) {
    key in m && now < m[key].until
  }

  function Ready(m: Memory, now: int): MergePlan -> bool {
    (p: MergePlan) => !Waiting(m, now, Key(p))
  }

  function KeysOf(plans: seq<MergePlan>): set<string> {
    set p | p in plans :: Key(p)
  }

  /** What a scan's filter remembers: the entries whose plan was offered again. */
  function Offered(m: Memory, plans: seq<MergePlan>): Memory {
    map k | k in m && k in KeysOf(plans) :: m[k]
  }

  function Failures(m: Memory, key: string): nat {
    if key in m then m[key].failures else 0
  }

  function Failed(m: Memory, key: string, now: int, interval: int): Memory {
    m[key := Entry(Failures(m, key) + 1, now + Wait(interval, Failures(m, key) + 1))]
  }

  function Succeeded(m: Memory, key: string): Memory {
    map k | k in m && k != key :: m[k]
  }

  // ---- The methods --------------------------------------------------------------------

  lemma PowGrows(a: nat, b: nat)
    requires a <= b
    ensures Pow2(a) <= Pow2(b)
  {}

  lemma ScaleGrows(base: nat, a: nat, b: nat)
    requires a <= b
    ensures base * a <= base * b
  {
    assert base * b == base * a + base * (b - a);
    assert base * (b - a) >= 0;
  }

  /** The doubling loop computes the closed form, and on the way never exceeds twice the
      cap, or the interval itself where that is longer. */
  method Double(interval: int, failures: nat) returns (wait: int, ghost highest: int)
    requires failures > 0
    ensures wait == Wait(interval, failures)
    ensures highest < 2 * MAX_WAIT || highest == Base(interval)
    ensures Base(interval) < 2 * MAX_WAIT ==> highest < 2 * MAX_WAIT
    ensures wait <= highest
  {
    wait := Base(interval);
    highest := wait;
    var i := 1;
    while i < failures && wait < MAX_WAIT
      invariant 1 <= i <= failures
      invariant wait == Base(interval) * Pow2(i - 1)
      invariant highest == wait && (wait == Base(interval) || wait < 2 * MAX_WAIT)
    {
      assert Base(interval) * Pow2(i) == 2 * (Base(interval) * Pow2(i - 1));
      wait := wait * 2;
      highest := wait;
      i := i + 1;
    }
    PowGrows(i - 1, failures - 1);
    ScaleGrows(Base(interval), Pow2(i - 1), Pow2(failures - 1));
    if wait > MAX_WAIT { wait := MAX_WAIT; }
  }

  /** The remembered keys that some plans offer again. */
  function Live(plans: seq<MergePlan>, m: Memory): set<string> {
    KeysOf(plans) * m.Keys
  }

  lemma LiveOneMore(plans: seq<MergePlan>, p: MergePlan, m: Memory)
    ensures Live(plans + [p], m) == if Key(p) in m then Live(plans, m) + {Key(p)} else Live(plans, m)
  {}

  lemma ReadyOneMore(all: seq<MergePlan>, i: nat, m: Memory, now: int)
    requires i < |all|
    ensures Filter(all[..i + 1], Ready(m, now))
            == Filter(all[..i], Ready(m, now)) + (if Waiting(m, now, Key(all[i])) then [] else [all[i]])
    ensures Live(all[..i + 1], m) == if Key(all[i]) in m then Live(all[..i], m) + {Key(all[i])} else Live(all[..i], m)
  {
    assert all[..i + 1] == all[..i] + [all[i]];
    FilterNext(all, i, Ready(m, now));
    LiveOneMore(all[..i], all[i], m);
  }

  /** The loop of filter: it writes the kept plans over the front of the caller's slice
      and notes which remembered keys were offered. */
  method KeepReady(plans: array<MergePlan>, m: Memory, now: int) returns (n: nat, live: set<string>)
    modifies plans
    ensures n <= plans.Length && plans[..n] == Filter(old(plans[..]), Ready(m, now))
    ensures live == Live(old(plans[..]), m)
  {
    ghost var all := plans[..];
    n, live := 0, {};
    for i := 0 to plans.Length
      invariant 0 <= n <= i && forall j | i <= j < plans.Length :: plans[j] == all[j]
      invariant plans[..n] == Filter(all[..i], Ready(m, now)) && live == Live(all[..i], m)
    {
      ReadyOneMore(all, i, m, now);
      var p := plans[i];
      if Key(p) in m { live := live + {Key(p)}; }
      if !Waiting(m, now, Key(p)) {
        ghost var front := plans[..n];
        plans[n] := p;
        n := n + 1;
        assert plans[..n] == front + [p];
      }
    }
    assert all[..plans.Length] == all;
  }

  class PlanBackoff {
    var state: Memory

    constructor ()
      ensures state == map[]
    {
      state := map[];
    }

    /** Drop the plans still waiting, reusing the caller's slice, and forget the
        entries whose plan is gone. */
    method FilterInPlace(plans: array<MergePlan>, now: int) returns (n: nat)
      modifies this, plans
      ensures n <= plans.Length
      ensures plans[..n] == Filter(old(plans[..]), Ready(old(state), now))
      ensures state == Offered(old(state), old(plans[..]))
    {
      if state == map[] {
        AllReady(plans[..], state, now);
        return plans.Length;
      }
      var live;
      n, live := KeepReady(plans, state, now);
      state := map k | k in state && k in live :: state[k];
    }

    method Fail(p: MergePlan, now: int, interval: int)
      modifies this
      ensures state == Failed(old(state), Key(p), now, interval)
    {
      var k := Key(p);
      var failures := (if k in state then state[k].failures else 0) + 1;
      var wait, _ := Double(interval, failures);
      state := state[k := Entry(failures, now + wait)];
    }

    method Succeed(p: MergePlan)
      modifies this
      ensures state == Succeeded(old(state), Key(p))
    {
      state := map k | k in state && k != Key(p) :: state[k];
    }
  }

  lemma {:induction false} AllReady(plans: seq<MergePlan>, m: Memory, now: int)
    requires m == map[]
    ensures Filter(plans, Ready(m, now)) == plans
  {
    if plans != [] { AllReady(plans[1..], m, now); }
  }

  // ---- Over every sequence of scans -----------------------------------------------------

  datatype Event =
    | ScanOf(plans: seq<MergePlan>, now: int)
    | FailedAt(key: string, now: int, interval: int)
    | SucceededAt(key: string)

  function Apply(m: Memory, e: Event): Memory {
    match e
    case ScanOf(plans, _) => Offered(m, plans)
    case FailedAt(key, now, interval) => Failed(m, key, now, interval)
    case SucceededAt(key) => Succeeded(m, key)
  }

  function Run(m: Memory, events: seq<Event>): Memory {
    if events == [] then m else Apply(Run(m, events[..|events| - 1]), events[|events| - 1])
  }

  /** The keys a run may still remember: those of the last scan's plans, and those
      that failed since. */
  function Recent(events: seq<Event>, start: set<string>): set<string> {
    if events == [] then start else
    var before := Recent(events[..|events| - 1], start);
    match events[|events| - 1]
    case ScanOf(plans, _) => KeysOf(plans)
    case FailedAt(key, _, _) => before + {key}
    case SucceededAt(_) => before
  }

  /** The memory is bounded by the plans last offered and the failures since. */
  lemma {:induction false} MemoryIsBounded(m: Memory, events: seq<Event>)
    ensures Run(m, events).Keys <= Recent(events, m.Keys)
  {
    if events != [] { MemoryIsBounded(m, events[..|events| - 1]); }
  }

  /** Nothing of the run ends the wait of `key`: it is offered in every scan, and it
      neither fails again nor succeeds. */
  ghost predicate Undisturbed(events: seq<Event>, key: string) {
    forall e | e in events :: Leaves(e, key)
  }

  predicate Leaves(e: Event, key: string) {
    match e
    case ScanOf(plans, _) => key in KeysOf(plans)
    case FailedAt(k, _, _) => k != key
    case SucceededAt(k) => k != key
  }

  lemma {:induction false} EntryKept(m: Memory, events: seq<Event>, key: string)
    requires key in m && Undisturbed(events, key)
    ensures key in Run(m, events) && Run(m, events)[key] == m[key]
  {
    if events != [] {
      var last := events[|events| - 1];
      assert last in events && forall e | e in events[..|events| - 1] :: e in events;
      EntryKept(m, events[..|events| - 1], key);
    }
  }

  /** After its failure a plan that every scan offers is withheld exactly until its
      wait has passed: at most an hour, doubled with every failure in a row. */
  lemma RetriedExactlyAfterWait(m: Memory, p: MergePlan, failedAt: int, interval: int, between: seq<Event>, now: int)
    requires Undisturbed(between, Key(p))
    ensures var before := Run(Failed(m, Key(p), failedAt, interval), between);
            Ready(before, now)(p) <==> now >= failedAt + Wait(interval, Failures(m, Key(p)) + 1)
  {
    EntryKept(Failed(m, Key(p), failedAt, interval), between, Key(p));
  }

  /** The failures in a row of one key. */
  ghost predicate FailsInARow(events: seq<Event>, key: string, n: nat) {
    if events == [] then n == 0 else
    var before := events[..|events| - 1];
    match events[|events| - 1]
    case ScanOf(plans, _) => if key in KeysOf(plans) then FailsInARow(before, key, n) else n == 0
    case FailedAt(k, _, _) => if k == key then n > 0 && FailsInARow(before, key, n - 1) else FailsInARow(before, key, n)
    case SucceededAt(k) => if k == key then n == 0 else FailsInARow(before, key, n)
  }

  /** The remembered count is the number of failures since the last success or the
      last scan without the plan. */
  lemma {:induction false} CountsFailuresInARow(events: seq<Event>, key: string, n: nat)
    requires FailsInARow(events, key, n)
    ensures Failures(Run(map[], events), key) == n
  {
    if events != [] {
      var before := events[..|events| - 1];
      match events[|events| - 1]
      case ScanOf(plans, _) => if key in KeysOf(plans) { CountsFailuresInARow(before, key, n); }
      case FailedAt(k, _, _) => CountsFailuresInARow(before, key, if k == key then n - 1 else n);
      case SucceededAt(k) => if k != key { CountsFailuresInARow(before, key, n); }
    }
  }

  // ---- What the key and the wait mean ------------------------------------------------------

  /** Two plans share a memory entry, if and only if they are of one group of one partition. */
  lemma KeyIsOwn(p: MergePlan, q: MergePlan, kp: string, kq: string)
    requires '|' !in p.partition && '|' !in q.partition
    requires p.group.prefix == Keys.GroupPrefix(kp) && q.group.prefix == Keys.GroupPrefix(kq)
    ensures Key(p) == Key(q) <==> p.partition == q.partition && p.group == q.group
  {
    if Key(p) == Key(q) {
      SplitsOnce(p.partition, '|', LabelOf(p), q.partition, LabelOf(q));
      Keys.LabelIsInjective(kp, p.group.bucket, kq, q.group.bucket);
    }
  }

  /** The first wait is the interval, a minute unless configured; every further failure
      doubles it, up to an hour. */
  lemma WaitDoubles(interval: int, failures: nat)
    requires failures > 0
    ensures var first := if interval <= 0 then 60_000_000_000 else interval;
            Wait(interval, 1) == if first < 3_600_000_000_000 then first else 3_600_000_000_000
    ensures var twice := 2 * Wait(interval, failures);
            Wait(interval, failures + 1) == if twice < 3_600_000_000_000 then twice else 3_600_000_000_000
  {
    assert Pow2(0) == 1;
    assert Base(interval) * Pow2(failures) == 2 * (Base(interval) * Pow2(failures - 1));
  }
}
