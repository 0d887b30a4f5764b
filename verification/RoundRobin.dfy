/** The plain round robin that the fair share is measured against: rounds over a row
    of buckets, up to `q` items of each bucket in a round. */
module RoundRobin {
  import opened Ordering

  function Head<T>(b: seq<T>, q: nat): seq<T> {
    if |b| <= q then b else b[..q]
  }

  function Rest<T>(b: seq<T>, q: nat): seq<T> {
    if |b| <= q then [] else b[q..]
  }

  /** One round. */
  function Row<T>(b: seq<seq<T>>, q: nat): seq<T> {
    if b == [] then [] else Head(b[0], q) + Row(b[1..], q)
  }

  function RestOf<T>(b: seq<seq<T>>, q: nat): (r: seq<seq<T>>)
    ensures |r| == |b| && forall i | 0 <= i < |b| :: r[i] == Rest(b[i], q)
  {
    seq(|b|, i requires 0 <= i < |b| => Rest(b[i], q))
  }

  function Total<T>(b: seq<seq<T>>): nat {
    if b == [] then 0 else |b[0]| + Total(b[1..])
  }

  lemma {:induction false} RoundTakes<T>(b: seq<seq<T>>, q: nat)
    ensures Total(RestOf(b, q)) + |Row(b, q)| == Total(b)
    ensures q > 0 && Total(b) > 0 ==> |Row(b, q)| > 0
  {
    if b != [] {
      RoundTakes(b[1..], q);
      assert RestOf(b, q)[1..] == RestOf(b[1..], q);
    }
  }

  /** Every item, in the order round after round reaches it. */
  function FairOrder<T>(b: seq<seq<T>>, q: nat): (r: seq<T>)
    requires q > 0
    ensures |r| == Total(b)
    decreases Total(b)
  {
    RoundTakes(b, q);
    if Total(b) == 0 then [] else Row(b, q) + FairOrder(RestOf(b, q), q)
  }

  lemma {:induction false} RowAppend<T>(b: seq<seq<T>>, x: seq<T>, q: nat)
    ensures Row(b + [x], q) == Row(b, q) + Head(x, q)
  {
    if b == [] {
      assert ([] + [x])[1..] == [] && b + [x] == [x];
      assert Row([x], q) == Head(x, q) + Row([x][1..], q);
    } else {
      assert (b + [x])[1..] == b[1..] + [x];
      RowAppend(b[1..], x, q);
    }
  }

  lemma {:induction false} RowSplit<T>(b: seq<seq<T>>, i: nat, q: nat)
    requires i <= |b|
    ensures Row(b, q) == Row(b[..i], q) + Row(b[i..], q)
  {
    if i == 0 {
      assert b[0..] == b;
    } else {
      RowSplit(b[1..], i - 1, q);
      assert b[..i][1..] == b[1..][..i - 1] && b[1..][i - 1..] == b[i..];
    }
  }

  lemma {:induction false} TotalZero<T>(b: seq<seq<T>>)
    ensures Total(b) == 0 <==> forall i | 0 <= i < |b| :: b[i] == []
  {
    if b != [] {
      TotalZero(b[1..]);
      assert forall i | 0 <= i < |b| - 1 :: b[1..][i] == b[i + 1];
      assert forall i | 1 <= i < |b| :: b[1..][i - 1] == b[i];
    }
  }

  // ---- What every prefix of the fair order gives each bucket -----------------------

  /** The items of bucket `i`, and of no other, are those `tag` gives the name `names[i]`. */
  ghost predicate Tagged<T(!new)>(b: seq<seq<T>>, names: seq<string>, tag: T -> string) {
    && |b| == |names|
    && (forall i, j | 0 <= i < j < |names| :: names[i] != names[j])
    && (forall i, x | 0 <= i < |b| && x in b[i] :: tag(x) == names[i])
  }

  function Of<T(!new)>(tag: T -> string, name: string): T -> bool {
    (x: T) => tag(x) == name
  }

  lemma {:induction false} AllOf<T(!new)>(s: seq<T>, tag: T -> string, name: string, other: string)
    requires forall x | x in s :: tag(x) == other
    ensures Filter(s, Of(tag, name)) == if name == other then s else []
  {
    if s != [] {
      assert s[0] in s;
      AllOf(s[1..], tag, name, other);
    }
  }

  lemma TaggedTail<T(!new)>(b: seq<seq<T>>, names: seq<string>, tag: T -> string)
    requires Tagged(b, names, tag) && b != []
    ensures Tagged(b[1..], names[1..], tag)
  {
    forall i, x | 0 <= i < |b[1..]| && x in b[1..][i] ensures tag(x) == names[1..][i] {
      assert b[1..][i] == b[i + 1];
    }
  }

  lemma TaggedRest<T(!new)>(b: seq<seq<T>>, names: seq<string>, tag: T -> string, q: nat)
    requires Tagged(b, names, tag)
    ensures Tagged(RestOf(b, q), names, tag)
  {
    forall i, x | 0 <= i < |b| && x in RestOf(b, q)[i] ensures tag(x) == names[i] {
      assert x in b[i];
    }
  }

  lemma {:induction false} NoneOfRow<T(!new)>(b: seq<seq<T>>, names: seq<string>, tag: T -> string, q: nat, name: string)
    requires Tagged(b, names, tag) && name !in names
    ensures Filter(Row(b, q), Of(tag, name)) == []
  {
    if b != [] {
      TaggedTail(b, names, tag);
      NoneOfRow(b[1..], names[1..], tag, q, name);
      AllOf(Head(b[0], q), tag, name, names[0]);
      FilterConcat(Head(b[0], q), Row(b[1..], q), Of(tag, name));
    }
  }

  /** A round gives a bucket its own first `q` items, in order. */
  lemma {:induction false} ShareOfRow<T(!new)>(b: seq<seq<T>>, names: seq<string>, tag: T -> string, q: nat, i: nat)
    requires Tagged(b, names, tag) && i < |b|
    ensures Filter(Row(b, q), Of(tag, names[i])) == Head(b[i], q)
  {
    TaggedTail(b, names, tag);
    AllOf(Head(b[0], q), tag, names[i], names[0]);
    var of := Of(tag, names[i]);
    if i == 0 {
      NoneOfRow(b[1..], names[1..], tag, q, names[0]);
      FilterParts(Head(b[0], q), Row(b[1..], q), of, Head(b[0], q), []);
    } else {
      assert names[1..][i - 1] == names[i] && b[1..][i - 1] == b[i];
      ShareOfRow(b[1..], names[1..], tag, q, i - 1);
      FilterParts(Head(b[0], q), Row(b[1..], q), of, [], Head(b[i], q));
    }
  }

  lemma FilterParts<T>(a: seq<T>, b: seq<T>, keep: T -> bool, x: seq<T>, y: seq<T>)
    requires Filter(a, keep) == x && Filter(b, keep) == y
    ensures Filter(a + b, keep) == x + y
  {
    FilterConcat(a, b, keep);
  }

  /** Over all rounds a bucket gets exactly its items, in order. */
  lemma {:induction false} ShareOfAll<T(!new)>(b: seq<seq<T>>, names: seq<string>, tag: T -> string, q: nat, i: nat)
    requires q > 0 && Tagged(b, names, tag) && i < |b|
    ensures Filter(FairOrder(b, q), Of(tag, names[i])) == b[i]
    decreases Total(b)
  {
    if Total(b) == 0 {
      TotalZero(b);
    } else {
      RoundTakes(b, q);
      TaggedRest(b, names, tag, q);
      ShareOfAll(RestOf(b, q), names, tag, q, i);
      ShareOfRow(b, names, tag, q, i);
      FilterParts(Row(b, q), FairOrder(RestOf(b, q), q), Of(tag, names[i]), Head(b[i], q), Rest(b[i], q));
    }
  }

  lemma {:induction false} NoneOfAll<T(!new)>(b: seq<seq<T>>, names: seq<string>, tag: T -> string, q: nat, name: string)
    requires q > 0 && Tagged(b, names, tag) && name !in names
    ensures Filter(FairOrder(b, q), Of(tag, name)) == []
    decreases Total(b)
  {
    if Total(b) > 0 {
      RoundTakes(b, q);
      TaggedRest(b, names, tag, q);
      NoneOfAll(RestOf(b, q), names, tag, q, name);
      NoneOfRow(b, names, tag, q, name);
      FilterParts(Row(b, q), FairOrder(RestOf(b, q), q), Of(tag, name), [], []);
    }
  }

  lemma FilterPrefix<T>(s: seq<T>, p: seq<T>, keep: T -> bool)
    requires p <= s
    ensures Filter(p, keep) <= Filter(s, keep)
  {
    assert s == p + s[|p|..];
    FilterConcat(p, s[|p|..], keep);
  }

  function Share<T(!new)>(b: seq<seq<T>>, q: nat, m: nat, tag: T -> string, name: string): nat
    requires q > 0 && m <= Total(b)
  {
    |Filter(FairOrder(b, q)[..m], Of(tag, name))|
  }

  /** What the first `m` items give a bucket, one round at a time. */
  lemma ShareSplit<T(!new)>(b: seq<seq<T>>, names: seq<string>, tag: T -> string, q: nat, i: nat, m: nat)
    requires q > 0 && Tagged(b, names, tag) && i < |b| && |Row(b, q)| <= m <= Total(b)
    ensures m - |Row(b, q)| <= Total(RestOf(b, q))
    ensures Share(b, q, m, tag, names[i])
            == |Head(b[i], q)| + Share(RestOf(b, q), q, m - |Row(b, q)|, tag, names[i])
  {
    RoundTakes(b, q);
    ShareOfRow(b, names, tag, q, i);
    OrderSplit(b, q, m);
    FilterConcat(Row(b, q), FairOrder(RestOf(b, q), q)[..m - |Row(b, q)|], Of(tag, names[i]));
  }

  lemma OrderSplit<T>(b: seq<seq<T>>, q: nat, m: nat)
    requires q > 0 && |Row(b, q)| <= m <= Total(b)
    ensures m - |Row(b, q)| <= Total(RestOf(b, q))
    ensures FairOrder(b, q)[..m] == Row(b, q) + FairOrder(RestOf(b, q), q)[..m - |Row(b, q)|]
  {
    RoundTakes(b, q);
  }

  /** Cut anywhere, the fair order is fair: while a bucket has items left, no other
      bucket has had more than `q` items more. */
  lemma {:induction false} CutIsFair<T(!new)>(
    b: seq<seq<T>>, names: seq<string>, tag: T -> string, q: nat, m: nat, i: nat, j: nat)
    requires q > 0 && Tagged(b, names, tag) && i < |b| && j < |b| && m <= Total(b)
    requires Share(b, q, m, tag, names[i]) < |b[i]|
    ensures Share(b, q, m, tag, names[j]) <= Share(b, q, m, tag, names[i]) + q
    decreases Total(b)
  {
    RoundTakes(b, q);
    if m < |Row(b, q)| {
      assert FairOrder(b, q)[..m] == Row(b, q)[..m];
      FilterPrefix(Row(b, q), Row(b, q)[..m], Of(tag, names[j]));
      ShareOfRow(b, names, tag, q, j);
    } else {
      ShareSplit(b, names, tag, q, i, m);
      ShareSplit(b, names, tag, q, j, m);
      TaggedRest(b, names, tag, q);
      if |b[i]| > q {
        CutIsFair(RestOf(b, q), names, tag, q, m - |Row(b, q)|, i, j);
      }
    }
  }

  lemma PrefixShare<T(!new)>(b: seq<seq<T>>, names: seq<string>, tag: T -> string, q: nat, picked: seq<T>, i: nat)
    requires q > 0 && Tagged(b, names, tag) && picked <= FairOrder(b, q) && i < |b|
    ensures Filter(picked, Of(tag, names[i])) <= b[i]
  {
    FilterPrefix(FairOrder(b, q), picked, Of(tag, names[i]));
    ShareOfAll(b, names, tag, q, i);
  }

  lemma PrefixNone<T(!new)>(b: seq<seq<T>>, names: seq<string>, tag: T -> string, q: nat, picked: seq<T>, name: string)
    requires q > 0 && Tagged(b, names, tag) && picked <= FairOrder(b, q) && name !in names
    ensures Filter(picked, Of(tag, name)) == []
  {
    FilterPrefix(FairOrder(b, q), picked, Of(tag, name));
    NoneOfAll(b, names, tag, q, name);
  }

  lemma PrefixIsFair<T(!new)>(b: seq<seq<T>>, names: seq<string>, tag: T -> string, q: nat, picked: seq<T>, i: nat, j: nat)
    requires q > 0 && Tagged(b, names, tag) && picked <= FairOrder(b, q) && i < |b| && j < |b|
    requires |Filter(picked, Of(tag, names[i]))| < |b[i]|
    ensures |Filter(picked, Of(tag, names[j]))| <= |Filter(picked, Of(tag, names[i]))| + q
  {
    assert picked == FairOrder(b, q)[..|picked|];
    CutIsFair(b, names, tag, q, |picked|, i, j);
  }

  /** One at a time over non-empty buckets: the first round is one item of each. */
  lemma {:induction false} FirstRound<T(!new)>(b: seq<seq<T>>, names: seq<string>, tag: T -> string)
    requires Tagged(b, names, tag) && forall i | 0 <= i < |b| :: b[i] != []
    ensures |Row(b, 1)| == |b| && forall i | 0 <= i < |b| :: tag(Row(b, 1)[i]) == names[i]
  {
    if b != [] {
      TaggedTail(b, names, tag);
      FirstRound(b[1..], names[1..], tag);
      assert b[0][0] in b[0];
      forall i | 0 <= i < |b| ensures tag(Row(b, 1)[i]) == names[i] {
        if i > 0 { assert Row(b, 1)[i] == Row(b[1..], 1)[i - 1]; }
      }
    }
  }

  lemma FirstOfOrder<T(!new)>(b: seq<seq<T>>, names: seq<string>, tag: T -> string)
    requires Tagged(b, names, tag) && forall i | 0 <= i < |b| :: b[i] != []
    ensures Total(b) >= |b| && forall i | 0 <= i < |b| :: tag(FairOrder(b, 1)[i]) == names[i]
  {
    FirstRound(b, names, tag);
    RoundTakes(b, 1);
    if b != [] {
      forall i | 0 <= i < |b| ensures tag(FairOrder(b, 1)[i]) == names[i] {
        assert FairOrder(b, 1)[i] == Row(b, 1)[i];
      }
    }
  }
}
