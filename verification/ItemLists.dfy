/** Lists of encoded items, written one after the other and read back from a position. */
module ItemLists {
  import opened Files
  import opened Wire

  function PutAll<A>(put: A -> Bytes, items: seq<A>): Bytes {
    if items == [] then [] else put(items[0]) + PutAll(put, items[1..])
  }

  /** `count` items, one after the other, and the bytes left unread. */
  function GetAll<A>(get: Bytes -> Option<(A, Bytes)>, s: Bytes, count: nat): (r: Option<(seq<A>, Bytes)>)
    ensures r.Some? ==> |r.value.0| == count
    decreases count
  {
    if count == 0 then Some(([], s)) else
    match get(s)
    case None => None
    case Some((a, rest)) =>
      match GetAll(get, rest, count - 1)
      case None => None
      case Some((more, unread)) => Some(([a] + more, unread))
  }

  /** Items that are read back one by one are read back as a list. */
  lemma {:induction false} GetAllPutAll<A(!new)>(put: A -> Bytes, get: Bytes -> Option<(A, Bytes)>, items: seq<A>, post: Bytes)
    requires forall a, rest | a in items :: get(put(a) + rest) == Some((a, rest))
    ensures GetAll(get, PutAll(put, items) + post, |items|) == Some((items, post))
  {
    if items == [] {
      assert PutAll(put, items) + post == post;
    } else {
      assert items[0] in items && forall a | a in items[1..] :: a in items;
      assert PutAll(put, items) + post == put(items[0]) + (PutAll(put, items[1..]) + post);
      GetAllPutAll(put, get, items[1..], post);
      assert [items[0]] + items[1..] == items;
    }
  }

  lemma {:induction false} PutAllSize<A>(put: A -> Bytes, items: seq<A>, least: nat)
    requires forall a | a in items :: |put(a)| >= least
    ensures |PutAll(put, items)| >= least * |items|
  {
    if items != [] {
      assert items[0] in items && forall a | a in items[1..] :: a in items;
      PutAllSize(put, items[1..], least);
      Distributes(least, |items[1..]|);
    }
  }

  lemma Distributes(least: nat, n: nat)
    ensures least * (n + 1) == least + least * n
  {}

  lemma {:induction false} PutAllAppend<A>(put: A -> Bytes, items: seq<A>, a: A)
    ensures PutAll(put, items + [a]) == PutAll(put, items) + put(a)
  {
    if items == [] {
      assert [a][1..] == [] && items + [a] == [a] && PutAll(put, [a]) == put(a) + PutAll(put, [a][1..]);
    } else {
      assert (items + [a])[0] == items[0] && (items + [a])[1..] == items[1..] + [a];
      PutAllAppend(put, items[1..], a);
    }
  }

  /** What holds of every item that can be read holds of every item of a list. */
  lemma {:induction false} GetAllEach<A(!new)>(get: Bytes -> Option<(A, Bytes)>, ok: A -> bool, s: Bytes, count: nat)
    requires (forall u | get(u).Some? :: ok(get(u).value.0)) && GetAll(get, s, count).Some?
    ensures forall a | a in GetAll(get, s, count).value.0 :: ok(a)
    decreases count
  {
    if count > 0 { GetAllEach(get, ok, get(s).value.1, count - 1); }
  }

  // ---- Reading from a position --------------------------------------------------------

  /** What is left unread is the end of what there was. */
  predicate Leaves(s: Bytes, rest: Bytes) {
    |rest| <= |s| && rest == s[|s| - |rest|..]
  }

  ghost predicate ReadsOn<A(!new)>(get: Bytes -> Option<(A, Bytes)>) {
    forall s | get(s).Some? :: Leaves(s, get(s).value.1)
  }

  lemma LeavesTail(data: Bytes, pos: nat, rest: Bytes)
    requires pos <= |data| && Leaves(data[pos..], rest)
    ensures |rest| <= |data| && rest == data[|data| - |rest|..]
  {}

  lemma LeavesMore(s: Bytes, t: Bytes, u: Bytes)
    requires Leaves(s, t) && Leaves(t, u)
    ensures Leaves(s, u)
  {}

  lemma {:induction false} GetAllReadsOn<A(!new)>(get: Bytes -> Option<(A, Bytes)>, s: Bytes, count: nat)
    requires ReadsOn(get) && GetAll(get, s, count).Some?
    ensures Leaves(s, GetAll(get, s, count).value.1)
    decreases count
  {
    if count > 0 {
      GetAllReadsOn(get, get(s).value.1, count - 1);
      LeavesMore(s, get(s).value.1, GetAll(get, get(s).value.1, count - 1).value.1);
    }
  }

  /** A list read so far, with the rest of it still to come. */
  function After<A>(done: seq<A>, r: Option<(seq<A>, Bytes)>): Option<(seq<A>, Bytes)> {
    match r
    case None => None
    case Some((more, unread)) => Some((done + more, unread))
  }

  lemma AfterOne<A>(get: Bytes -> Option<(A, Bytes)>, s: Bytes, left: nat, done: seq<A>, a: A, rest: Bytes)
    requires left > 0 && get(s) == Some((a, rest))
    ensures After(done, GetAll(get, s, left)) == After(done + [a], GetAll(get, rest, left - 1))
  {
    var more := GetAll(get, rest, left - 1);
    if more.Some? { assert done + ([a] + more.value.0) == done + [a] + more.value.0; }
  }

  lemma AfterNone<A>(r: Option<(seq<A>, Bytes)>)
    ensures After([], r) == r
  {
    if r.Some? { assert [] + r.value.0 == r.value.0; }
  }

  /** The decoding loop: a position moves through the data, item by item, and the first
      item that cannot be read ends it. */
  method ReadEach<A(!new)>(get: Bytes -> Option<(A, Bytes)>, data: Bytes, start: nat, count: nat)
    returns (items: Option<seq<A>>, pos: nat)
    requires start <= |data| && ReadsOn(get)
    ensures pos <= |data|
    ensures GetAll(get, data[start..], count) == if items.None? then None else Some((items.value, data[pos..]))
  {
    var done: seq<A> := [];
    pos := start;
    AfterNone(GetAll(get, data[start..], count));
    for i := 0 to count
      invariant pos <= |data|
      invariant GetAll(get, data[start..], count) == After(done, GetAll(get, data[pos..], count - i))
    {
      match get(data[pos..])
      case None => return None, pos;
      case Some((a, rest)) =>
        LeavesTail(data, pos, rest);
        AfterOne(get, data[pos..], count - i, done, a, rest);
        done, pos := done + [a], |data| - |rest|;
    }
    assert done + [] == done;
    items := Some(done);
  }
}
