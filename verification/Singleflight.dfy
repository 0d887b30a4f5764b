/** Concurrent calls for one key share one run (internal/cache/coalesce.go): every
    interleaving of callers, context cancellations and panics, one locked section or
    channel operation at a time. */
module Singleflight {
  import opened Files

  type Key = string
  type Bytes = seq<int>

  datatype Error = Canceled | DeadlineExceeded | Panicked | Wrapped(inner: Error) | Other(code: int)

  /** errors.Is against the two context errors. */
  predicate IsContextError(e: Error) {
    e == Canceled || e == DeadlineExceeded || (e.Wrapped? && IsContextError(e.inner))
  }

  /** What fn may do: return bytes and perhaps an error, or panic. */
  datatype Outcome = Returned(val: Bytes, err: Option<Error>) | Panics

  /** What a call holds for those who joined it. */
  function Recorded(o: Outcome): (r: (Bytes, Option<Error>)) {
    match o
    case Returned(val, err) => (val, err)
    case Panics => ([], Some(Panicked))
  }

  /** One call: its key, the caller that leads it, what it recorded, its waiters, and
      whether its done channel is closed. */
  datatype Call = Call(key: Key, leader: nat, result: Option<(Bytes, Option<Error>)>, waiters: int, closed: bool)

  /** Where a caller of DoCtx is. `tried` are the calls it joined and was sent back from. */
  datatype Caller =
    | Starting(key: Key, tried: set<nat>)
    | Leading(key: Key, call: nat)
    | Finishing(key: Key, call: nat, outcome: Outcome)
    | Closing(key: Key, call: nat, outcome: Outcome)
    | Waiting(key: Key, call: nat, tried: set<nat>)
    | Led(key: Key, call: nat, outcome: Outcome)
    | Shared(key: Key, call: nat, val: Bytes, err: Option<Error>)
    | GaveUp(key: Key, own: Error)

  /** The group's map, all calls ever made, the callers, and the contexts that are done. */
  datatype State = State(
    calls: map<Key, nat>, made: map<nat, Call>, callers: map<nat, Caller>, done: map<nat, Error>)

  datatype Action =
    | Arrive(t: nat, key: Key)
    | Cancel(t: nat, err: Error)
    | Lead(t: nat, c: nat)
    | Join(t: nat)
    | Run(t: nat, outcome: Outcome)
    | Remove(t: nat)
    | Close(t: nat)
    | Wake(t: nat)
    | GiveUp(t: nat)

  ghost predicate Enabled(s: State, a: Action) {
    match a
    case Arrive(t, _) => t !in s.callers
    case Cancel(t, err) => t in s.callers && t !in s.done && (err == Canceled || err == DeadlineExceeded)
    case Lead(t, c) => t in s.callers && s.callers[t].Starting? && s.callers[t].key !in s.calls && c !in s.made
    case Join(t) => t in s.callers && s.callers[t].Starting? && s.callers[t].key in s.calls && s.calls[s.callers[t].key] in s.made
    case Run(t, _) => t in s.callers && s.callers[t].Leading? && s.callers[t].call in s.made
    case Remove(t) => t in s.callers && s.callers[t].Finishing?
    case Close(t) => t in s.callers && s.callers[t].Closing? && s.callers[t].call in s.made
    case Wake(t) =>
      && t in s.callers && s.callers[t].Waiting? && s.callers[t].call in s.made
      && s.made[s.callers[t].call].closed && s.made[s.callers[t].call].result.Some?
    case GiveUp(t) => t in s.callers && s.callers[t].Waiting? && s.callers[t].call in s.made && t in s.done
  }

  function Move(s: State, t: nat, to: Caller): State {
    s.(callers := s.callers[t := to])
  }

  function AddWaiters(s: State, c: nat, n: int): State
    requires c in s.made
  {
    s.(made := s.made[c := s.made[c].(waiters := s.made[c].waiters + n)])
  }

  /** Where a caller goes once the call it waited for is closed. */
  function Awake(s: State, t: nat, w: Caller, result: (Bytes, Option<Error>)): Caller
    requires w.Waiting?
  {
    if result.1.Some? && IsContextError(result.1.value) then
      if t in s.done then GaveUp(w.key, s.done[t]) else Starting(w.key, w.tried + {w.call})
    else
      Shared(w.key, w.call, result.0, result.1)
  }

  ghost function Step(s: State, a: Action): State
    requires Enabled(s, a)
  {
    match a
    case Arrive(t, key) => Move(s, t, Starting(key, {}))
    case Cancel(t, err) => s.(done := s.done[t := err])
    case Lead(t, c) =>
      var key := s.callers[t].key;
      Move(s.(calls := s.calls[key := c], made := s.made[c := Call(key, t, None, 0, false)]), t, Leading(key, c))
    case Join(t) =>
      var key := s.callers[t].key;
      Move(AddWaiters(s, s.calls[key], 1), t, Waiting(key, s.calls[key], s.callers[t].tried))
    case Run(t, outcome) =>
      var l := s.callers[t];
      Move(s.(made := s.made[l.call := s.made[l.call].(result := Some(Recorded(outcome)))]), t, Finishing(l.key, l.call, outcome))
    case Remove(t) =>
      var l := s.callers[t];
      Move(s.(calls := s.calls - {l.key}), t, Closing(l.key, l.call, l.outcome))
    case Close(t) =>
      var l := s.callers[t];
      Move(s.(made := s.made[l.call := s.made[l.call].(closed := true)]), t, Led(l.key, l.call, l.outcome))
    case Wake(t) =>
      var w := s.callers[t];
      Move(AddWaiters(s, w.call, -1), t, Awake(s, t, w, s.made[w.call].result.value))
    case GiveUp(t) =>
      var w := s.callers[t];
      Move(AddWaiters(s, w.call, -1), t, GaveUp(w.key, s.done[t]))
  }

  // ---- The invariant --------------------------------------------------------------------

  /** A call in the map is in flight: its leader runs fn or has yet to take it out. */
  ghost predicate InFlight(s: State, key: Key) {
    && key in s.calls && s.calls[key] in s.made
    && var c := s.made[s.calls[key]];
       c.key == key && !c.closed && c.leader in s.callers
       && (s.callers[c.leader] == Leading(key, s.calls[key])
           || (s.callers[c.leader].Finishing? && s.callers[c.leader].call == s.calls[key] && s.callers[c.leader].key == key))
  }

  /** The call recorded an error of its leader's context. */
  predicate Failed(call: Call) {
    call.result.Some? && call.result.value.1.Some? && IsContextError(call.result.value.1.value)
  }

  /** What is known of a caller where it stands. */
  ghost predicate CallerOk(s: State, t: nat, at: Caller) {
    match at
    case Starting(_, tried) => forall c | c in tried :: c in s.made && s.made[c].closed && Failed(s.made[c])
    case Leading(key, c) => key in s.calls && s.calls[key] == c && c in s.made && s.made[c].leader == t
    case Finishing(key, c, o) =>
      key in s.calls && s.calls[key] == c && c in s.made && s.made[c].leader == t && s.made[c].result == Some(Recorded(o))
    case Closing(key, c, o) =>
      && c in s.made && s.made[c].key == key && s.made[c].leader == t && s.made[c].result == Some(Recorded(o))
      && !s.made[c].closed && (key in s.calls ==> s.calls[key] != c)
    case Waiting(key, c, tried) =>
      && c in s.made && s.made[c].key == key && c !in tried
      && forall d | d in tried :: d in s.made && s.made[d].closed && Failed(s.made[d])
    case Led(_, c, o) => c in s.made && s.made[c].closed && s.made[c].leader == t && s.made[c].result == Some(Recorded(o))
    case Shared(key, c, val, err) =>
      && c in s.made && s.made[c].key == key && s.made[c].closed && s.made[c].result == Some((val, err))
      && (err.Some? ==> !IsContextError(err.value))
    case GaveUp(_, own) => t in s.done && s.done[t] == own
  }

  /** A call is closed only after it left the map with its result, and until then its
      leader is on the way to close it. */
  ghost predicate CallOk(s: State, c: nat)
    requires c in s.made
  {
    var call := s.made[c];
    && (call.closed ==> call.result.Some? && (call.key in s.calls ==> s.calls[call.key] != c))
    && (!call.closed ==> call.leader in s.callers && Leads(s.callers[call.leader], c))
  }

  predicate Leads(at: Caller, c: nat) {
    match at
    case Leading(_, d) => c == d
    case Finishing(_, d, _) => c == d
    case Closing(_, d, _) => c == d
    case _ => false
  }

  ghost function WaitersOf(s: State, c: nat): set<nat> {
    set t | t in s.callers && s.callers[t].Waiting? && s.callers[t].call == c
  }

  ghost predicate Inv(s: State) {
    && (forall key | key in s.calls :: InFlight(s, key))
    && (forall t | t in s.callers :: CallerOk(s, t, s.callers[t]))
    && (forall c | c in s.made :: CallOk(s, c))
    && (forall t | t in s.done :: s.done[t] == Canceled || s.done[t] == DeadlineExceeded)
  }

  /** The waiters counter of every call counts its waiting callers. */
  ghost predicate Counted(s: State) {
    forall c | c in s.made :: s.made[c].waiters == |WaitersOf(s, c)|
  }

  // ---- Every step keeps it ----------------------------------------------------------------

  lemma ArriveKeeps(s: State, t: nat, key: Key)
    requires Inv(s) && Enabled(s, Arrive(t, key))
    ensures Inv(Step(s, Arrive(t, key)))
  {}

  lemma CancelKeeps(s: State, t: nat, err: Error)
    requires Inv(s) && Enabled(s, Cancel(t, err))
    ensures Inv(Step(s, Cancel(t, err)))
  {}

  lemma LeadKeeps(s: State, t: nat, c: nat)
    requires Inv(s) && Enabled(s, Lead(t, c))
    ensures Inv(Step(s, Lead(t, c)))
  {
    var s' := Step(s, Lead(t, c));
    forall u | u in s'.callers ensures CallerOk(s', u, s'.callers[u]) { assert u == t || CallerOk(s, u, s.callers[u]); }
    forall key | key in s'.calls ensures InFlight(s', key) { assert s.callers[t].key == key || InFlight(s, key); }
    forall d | d in s'.made ensures CallOk(s', d) { assert d == c || CallOk(s, d); }
  }

  lemma JoinKeeps(s: State, t: nat)
    requires Inv(s) && Enabled(s, Join(t))
    ensures Inv(Step(s, Join(t)))
  {
    var s' := Step(s, Join(t));
    assert CallerOk(s, t, s.callers[t]);
    forall u | u in s'.callers ensures CallerOk(s', u, s'.callers[u]) { assert CallerOk(s, u, s.callers[u]); }
    forall key | key in s'.calls ensures InFlight(s', key) { assert InFlight(s, key); }
    forall c | c in s'.made ensures CallOk(s', c) { assert CallOk(s, c); }
  }

  lemma RunKeeps(s: State, t: nat, outcome: Outcome)
    requires Inv(s) && Enabled(s, Run(t, outcome))
    ensures Inv(Step(s, Run(t, outcome)))
  {
    var s' := Step(s, Run(t, outcome));
    assert CallerOk(s, t, s.callers[t]);
    forall u | u in s'.callers ensures CallerOk(s', u, s'.callers[u]) { assert CallerOk(s, u, s.callers[u]); }
    forall key | key in s'.calls ensures InFlight(s', key) { assert InFlight(s, key); }
    forall c | c in s'.made ensures CallOk(s', c) { assert CallOk(s, c); }
  }

  lemma RemoveKeeps(s: State, t: nat)
    requires Inv(s) && Enabled(s, Remove(t))
    ensures Inv(Step(s, Remove(t)))
  {
    var s' := Step(s, Remove(t));
    assert CallerOk(s, t, s.callers[t]);
    forall u | u in s'.callers ensures CallerOk(s', u, s'.callers[u]) { assert CallerOk(s, u, s.callers[u]); }
    forall key | key in s'.calls ensures InFlight(s', key) { assert InFlight(s, key); }
    forall c | c in s'.made ensures CallOk(s', c) { assert CallOk(s, c); }
  }

  lemma CloseKeeps(s: State, t: nat)
    requires Inv(s) && Enabled(s, Close(t))
    ensures Inv(Step(s, Close(t)))
  {
    var s' := Step(s, Close(t));
    assert CallerOk(s, t, s.callers[t]);
    forall u | u in s'.callers ensures CallerOk(s', u, s'.callers[u]) { assert CallerOk(s, u, s.callers[u]); }
    forall key | key in s'.calls ensures InFlight(s', key) { assert InFlight(s, key); }
    forall c | c in s'.made ensures CallOk(s', c) { assert CallOk(s, c); }
  }

  /** Two states that differ in waiter counters only agree on every caller. */
  lemma SameButCounters(s: State, s': State, t: nat, at: Caller)
    requires s'.calls == s.calls && s'.done == s.done && s'.made.Keys == s.made.Keys
    requires forall c | c in s.made :: s'.made[c] == s.made[c].(waiters := s'.made[c].waiters)
    ensures CallerOk(s', t, at) <==> CallerOk(s, t, at)
  {}

  /** A waiting caller leaves its call for a place that is fine for it. */
  lemma LeaveKeeps(s: State, t: nat, to: Caller)
    requires Inv(s) && t in s.callers && s.callers[t].Waiting? && s.callers[t].call in s.made
    requires CallerOk(s, t, to)
    ensures Inv(Move(AddWaiters(s, s.callers[t].call, -1), t, to))
  {
    var s' := Move(AddWaiters(s, s.callers[t].call, -1), t, to);
    forall u | u in s'.callers ensures CallerOk(s', u, s'.callers[u]) {
      SameButCounters(s, s', u, s'.callers[u]);
    }
    forall key | key in s'.calls ensures InFlight(s', key) { assert InFlight(s, key); }
    forall c | c in s'.made ensures CallOk(s', c) { assert CallOk(s, c); }
  }

  lemma WakeKeeps(s: State, t: nat)
    requires Inv(s) && Enabled(s, Wake(t))
    ensures Inv(Step(s, Wake(t)))
  {
    assert CallerOk(s, t, s.callers[t]);
    LeaveKeeps(s, t, Awake(s, t, s.callers[t], s.made[s.callers[t].call].result.value));
  }

  lemma GiveUpKeeps(s: State, t: nat)
    requires Inv(s) && Enabled(s, GiveUp(t))
    ensures Inv(Step(s, GiveUp(t)))
  {
    LeaveKeeps(s, t, GaveUp(s.callers[t].key, s.done[t]));
  }

  // ---- The counters -----------------------------------------------------------------------

  lemma OneElement(a: set<nat>, b: set<nat>, t: nat)
    requires a - {t} == b - {t}
    ensures |b| == |a| - (if t in a then 1 else 0) + (if t in b then 1 else 0)
  {
    assert (if t in a then a == (a - {t}) + {t} else a == a - {t});
    assert (if t in b then b == (a - {t}) + {t} else b == a - {t});
  }

  predicate WaitsOn(at: Caller, c: nat) {
    at.Waiting? && at.call == c
  }

  lemma OthersStay(s: State, a: Action, c: nat)
    requires Enabled(s, a)
    ensures WaitersOf(s, c) - {a.t} == WaitersOf(Step(s, a), c) - {a.t}
  {}

  /** A step moves a call's counter exactly as its own caller joins or leaves it. */
  lemma CounterMoves(s: State, a: Action, c: nat)
    requires Inv(s) && Enabled(s, a) && c in s.made
    ensures c in Step(s, a).made
    ensures Step(s, a).made[c].waiters
            == s.made[c].waiters - (if a.t in WaitersOf(s, c) then 1 else 0) + (if a.t in WaitersOf(Step(s, a), c) then 1 else 0)
  {}

  lemma StepCounts(s: State, a: Action)
    requires Inv(s) && Counted(s) && Enabled(s, a)
    ensures Counted(Step(s, a))
  {
    var s' := Step(s, a);
    forall c | c in s'.made ensures s'.made[c].waiters == |WaitersOf(s', c)| {
      if c in s.made {
        OthersStay(s, a, c);
        CounterMoves(s, a, c);
        OneElement(WaitersOf(s, c), WaitersOf(s', c), a.t);
      } else {
        NewCallHasNoWaiters(s, a, c);
      }
    }
  }

  lemma NewCallHasNoWaiters(s: State, a: Action, c: nat)
    requires Inv(s) && Enabled(s, a) && c !in s.made && c in Step(s, a).made
    ensures Step(s, a).made[c].waiters == 0 && WaitersOf(Step(s, a), c) == {}
  {
    forall t | t in s.callers ensures !WaitsOn(s.callers[t], c) { assert CallerOk(s, t, s.callers[t]); }
  }

  lemma StepKeeps(s: State, a: Action)
    requires Inv(s) && Enabled(s, a)
    ensures Inv(Step(s, a))
  {
    match a
    case Arrive(t, key) => ArriveKeeps(s, t, key);
    case Cancel(t, err) => CancelKeeps(s, t, err);
    case Lead(t, c) => LeadKeeps(s, t, c);
    case Join(t) => JoinKeeps(s, t);
    case Run(t, outcome) => RunKeeps(s, t, outcome);
    case Remove(t) => RemoveKeeps(s, t);
    case Close(t) => CloseKeeps(s, t);
    case Wake(t) => WakeKeeps(s, t);
    case GiveUp(t) => GiveUpKeeps(s, t);
  }

  // ---- Over every interleaving -----------------------------------------------------------------

  ghost predicate Legal(s: State, acts: seq<Action>)
    decreases |acts|
  {
    acts != [] ==> Enabled(s, acts[0]) && Legal(Step(s, acts[0]), acts[1..])
  }

  ghost function Exec(s: State, acts: seq<Action>): State
    requires Legal(s, acts)
    decreases |acts|
  {
    if acts == [] then s else Exec(Step(s, acts[0]), acts[1..])
  }

  ghost predicate Reached(s: State) {
    exists acts :: Legal(State(map[], map[], map[], map[]), acts) && Exec(State(map[], map[], map[], map[]), acts) == s
  }

  lemma {:induction false} ExecKeeps(s: State, acts: seq<Action>)
    requires Inv(s) && Counted(s) && Legal(s, acts)
    ensures Inv(Exec(s, acts)) && Counted(Exec(s, acts))
    decreases |acts|
  {
    if acts != [] {
      StepKeeps(s, acts[0]);
      StepCounts(s, acts[0]);
      ExecKeeps(Step(s, acts[0]), acts[1..]);
    }
  }

  lemma ReachedInv(s: State)
    requires Reached(s)
    ensures Inv(s) && Counted(s)
  {
    var start := State(map[], map[], map[], map[]);
    var acts :| Legal(start, acts) && Exec(start, acts) == s;
    ExecKeeps(start, acts);
  }

  /** At most one run of fn per key is in flight. */
  lemma OneRunPerKey(s: State, t: nat, u: nat)
    requires Reached(s) && t in s.callers && u in s.callers
    requires s.callers[t].Leading? && s.callers[u].Leading? && s.callers[t].key == s.callers[u].key
    ensures t == u
  {
    ReachedInv(s);
    assert CallerOk(s, t, s.callers[t]) && CallerOk(s, u, s.callers[u]);
  }

  /** What a caller gets with shared=true: the result of the call it joined, or its own
      context's error; a context error is always its own, and the leader's is its own run's. */
  lemma SharedResults(s: State, t: nat)
    requires Reached(s) && t in s.callers
    ensures s.callers[t].Shared? ==>
              var r := s.callers[t];
              && r.call in s.made && s.made[r.call].key == r.key && s.made[r.call].result == Some((r.val, r.err))
              && (r.err.Some? ==> !IsContextError(r.err.value))
    ensures s.callers[t].GaveUp? ==> t in s.done && s.callers[t].own == s.done[t] && IsContextError(s.done[t])
    ensures s.callers[t].Led? ==>
              var r := s.callers[t];
              r.call in s.made && s.made[r.call].leader == t && s.made[r.call].result == Some(Recorded(r.outcome))
  {
    ReachedInv(s);
    assert CallerOk(s, t, s.callers[t]);
  }

  /** A caller whose call ended with a result, or with an error that is no context error,
      gets just that when it wakes; a waiting caller always ends or starts over then. */
  lemma WakeShares(s: State, t: nat)
    requires Reached(s) && Enabled(s, Wake(t))
    ensures var w := s.callers[t];
            var result := s.made[w.call].result.value;
            var to := Step(s, Wake(t)).callers[t];
            if result.1.None? || !IsContextError(result.1.value) then to == Shared(w.key, w.call, result.0, result.1)
            else if t in s.done then to == GaveUp(w.key, s.done[t])
            else to == Starting(w.key, w.tried + {w.call})
  {}

  /** A caller is sent back from calls only that recorded a context error. */
  lemma TriedCallsFailed(s: State, t: nat, c: nat)
    requires Reached(s) && t in s.callers && (s.callers[t].Starting? || s.callers[t].Waiting?) && c in s.callers[t].tried
    ensures c in s.made && s.made[c].result.Some? && s.made[c].result.value.1.Some?
    ensures IsContextError(s.made[c].result.value.1.value)
  {
    ReachedInv(s);
    assert CallerOk(s, t, s.callers[t]);
  }

  /** Those who joined a run that panics get an error, and it is no context error, so they
      do not run the call again; those who joined one that returns get what it returned. */
  lemma RunRecords(s: State, t: nat, outcome: Outcome)
    requires Reached(s) && Enabled(s, Run(t, outcome))
    ensures var c := s.callers[t].call;
            var made := Step(s, Run(t, outcome)).made;
            c in made && made[c].result.Some? &&
            match outcome
            case Returned(val, err) => made[c].result.value == (val, err)
            case Panics => made[c].result.value == ([], Some(Panicked)) && !IsContextError(Panicked)
  {}

  /** A call leaves the map before its waiters wake, after a panic too, so a caller that
      runs the call again never rejoins one it was sent back from. */
  lemma NeverRejoins(s: State, t: nat)
    requires Reached(s) && t in s.callers && s.callers[t].Waiting?
    ensures s.callers[t].call !in s.callers[t].tried
    ensures forall key | key in s.calls :: s.calls[key] in s.made && !s.made[s.calls[key]].closed
  {
    ReachedInv(s);
    assert CallerOk(s, t, s.callers[t]);
    forall key | key in s.calls ensures s.calls[key] in s.made && !s.made[s.calls[key]].closed { assert InFlight(s, key); }
  }

  /** No waiter is stranded: it can wake, or the leader of its call can take its next
      step, whatever fn does. */
  lemma WaiterProgresses(s: State, t: nat, outcome: Outcome)
    requires Reached(s) && t in s.callers && s.callers[t].Waiting?
    ensures s.callers[t].call in s.made
    ensures var leader := s.made[s.callers[t].call].leader;
            Enabled(s, Wake(t)) || Enabled(s, Run(leader, outcome)) || Enabled(s, Remove(leader)) || Enabled(s, Close(leader))
  {
    ReachedInv(s);
    assert CallerOk(s, t, s.callers[t]);
    var c := s.callers[t].call;
    assert CallOk(s, c);
    if !s.made[c].closed { LeaderCanStep(s, c, outcome); }
  }

  lemma LeaderCanStep(s: State, c: nat, outcome: Outcome)
    requires c in s.made && s.made[c].leader in s.callers && Leads(s.callers[s.made[c].leader], c)
    ensures var leader := s.made[c].leader;
            Enabled(s, Run(leader, outcome)) || Enabled(s, Remove(leader)) || Enabled(s, Close(leader))
  {}

  /** The waiters gauge is the number of callers waiting on the call. */
  lemma WaitersAreCounted(s: State, key: Key)
    requires Reached(s) && key in s.calls
    ensures s.calls[key] in s.made
    ensures s.made[s.calls[key]].waiters == |WaitersOf(s, s.calls[key])|
  {
    ReachedInv(s);
    assert InFlight(s, key);
  }
}
