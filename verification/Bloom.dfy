/** Bloom filters at the bit level (internal/bloomindex/bloomindex.go): a value's
    positions by double hashing in 32-bit arithmetic, set and tested in place, and the
    in-place union. The string hash is any function to 64-bit numbers. */
module Bloom {
  import opened Cyclic

  type Hash = string -> nat

  const TWO32: nat := 0x1_0000_0000

  datatype Filter = Filter(bits: seq<bv8>, hashes: nat) {
    /** Every filter the package builds or decodes has at least one byte. */
    predicate Valid() { |bits| >= 1 && hashes < 256 }
  }

  /** `1 << k`. */
  function Mask(k: nat): bv8
    requires k < 8
  {
    match k
    case 0 => 1 case 1 => 2 case 2 => 4 case 3 => 8
    case 4 => 16 case 5 => 32 case 6 => 64 case 7 => 128
  }

  /** The bits a filter can reach: its bit count narrowed to 32 bits, and the first bit
      alone when that leaves nothing. */
  function Range(bytes: nat): (m: nat)
    requires bytes >= 1
    ensures 1 <= m <= 8 * bytes && m < TWO32
  {
    if 8 * bytes % TWO32 == 0 then 1 else 8 * bytes % TWO32
  }

  /** bloomHash. */
  function Position(h: nat, i: nat, bytes: nat): (p: nat)
    requires bytes >= 1
    ensures p < Range(bytes)
  {
    Probe(h % TWO32, h / TWO32, i, Range(bytes))
  }

  /** Double hashing in 32 bits, folded onto `m` bits. */
  function Probe(h1: nat, h2: nat, i: nat, m: nat): (p: nat)
    requires m > 0
    ensures p < m
  {
    (h1 + i * h2) % TWO32 % m
  }

  predicate Bit(bits: seq<bv8>, p: nat)
    requires p < 8 * |bits|
  {
    Has(bits[p / 8], p % 8)
  }

  predicate Has(b: bv8, k: nat)
    requires k < 8
  {
    b & Mask(k) != 0
  }

  /** All of the value's bits are set. */
  predicate Accepts(fnv: Hash, f: Filter, value: string)
    requires f.Valid()
  {
    forall i | 0 <= i < f.hashes :: Bit(f.bits, Position(fnv(value), i, |f.bits|))
  }

  function SetBit(bits: seq<bv8>, p: nat): (r: seq<bv8>)
    requires p < 8 * |bits|
    ensures |r| == |bits|
  {
    bits[p / 8 := bits[p / 8] | Mask(p % 8)]
  }

  function SetUpTo(h: nat, bits: seq<bv8>, k: nat): (r: seq<bv8>)
    requires |bits| >= 1
    ensures |r| == |bits|
  {
    if k == 0 then bits else SetBit(SetUpTo(h, bits, k - 1), Position(h, k - 1, |bits|))
  }

  /** The filter with one more value. */
  function With(fnv: Hash, f: Filter, value: string): (r: Filter)
    requires f.Valid()
    ensures r.Valid() && |r.bits| == |f.bits| && r.hashes == f.hashes
  {
    Filter(SetUpTo(fnv(value), f.bits, f.hashes), f.hashes)
  }

  /** MergeFrom: the other filter's bytes OR-ed over the overlapping prefix. */
  function Union(f: Filter, g: Filter): (r: Filter)
    ensures |r.bits| == |f.bits| && r.hashes == f.hashes
  {
    Filter(seq(|f.bits|, i requires 0 <= i < |f.bits| => if i < |g.bits| then f.bits[i] | g.bits[i] else f.bits[i]), f.hashes)
  }

  // ---- Bits ------------------------------------------------------------------------

  lemma OrBit(a: bv8, b: bv8, k: nat)
    requires k < 8
    ensures Has(a | b, k) <==> Has(a, k) || Has(b, k)
  {
    OrMask(a, b, Mask(k));
  }

  lemma OrMask(a: bv8, b: bv8, m: bv8)
    requires m == 1 || m == 2 || m == 4 || m == 8 || m == 16 || m == 32 || m == 64 || m == 128
    ensures (a | b) & m != 0 <==> a & m != 0 || b & m != 0
  {
    assert (a | b) & m == (a & m) | (b & m);
  }

  lemma MaskBits(j: nat, k: nat)
    requires j < 8 && k < 8
    ensures Mask(j) & Mask(k) != 0 <==> j == k
  {}

  lemma SetBitSets(bits: seq<bv8>, p: nat, q: nat)
    requires p < 8 * |bits| && q < 8 * |bits|
    ensures Bit(SetBit(bits, p), q) <==> q == p || Bit(bits, q)
  {
    if q / 8 == p / 8 {
      OrBit(bits[p / 8], Mask(p % 8), q % 8);
      MaskBits(p % 8, q % 8);
    }
  }

  /** Adding sets exactly the value's positions. */
  lemma {:induction false} SetUpToSets(h: nat, bits: seq<bv8>, k: nat, q: nat)
    requires |bits| >= 1 && q < 8 * |bits|
    ensures Bit(SetUpTo(h, bits, k), q) <==> Bit(bits, q) || exists i | 0 <= i < k :: Position(h, i, |bits|) == q
  {
    if k > 0 {
      SetUpToSets(h, bits, k - 1, q);
      SetBitSets(SetUpTo(h, bits, k - 1), Position(h, k - 1, |bits|), q);
    }
  }

  lemma UnionBits(f: Filter, g: Filter, q: nat)
    requires q < 8 * |f.bits|
    ensures Bit(Union(f, g).bits, q) <==> Bit(f.bits, q) || (q < 8 * |g.bits| && Bit(g.bits, q))
  {
    UnionByte(f, g, q / 8, q % 8);
  }

  lemma UnionByte(f: Filter, g: Filter, k: nat, j: nat)
    requires k < |f.bits| && j < 8
    ensures Has(Union(f, g).bits[k], j) <==> Has(f.bits[k], j) || (k < |g.bits| && Has(g.bits[k], j))
  {
    if k < |g.bits| { OrBit(f.bits[k], g.bits[k], j); }
  }

  // ---- No false negatives -------------------------------------------------------------

  /** `g` accepts whatever `f` accepts: the same shape and no bit lost. */
  ghost predicate Grows(f: Filter, g: Filter) {
    |f.bits| == |g.bits| && f.hashes == g.hashes && forall q | 0 <= q < 8 * |f.bits| && Bit(f.bits, q) :: Bit(g.bits, q)
  }

  lemma GrowsAccepts(fnv: Hash, f: Filter, g: Filter, value: string)
    requires f.Valid() && Grows(f, g) && Accepts(fnv, f, value)
    ensures Accepts(fnv, g, value)
  {}

  lemma AddedIsAccepted(fnv: Hash, f: Filter, value: string)
    requires f.Valid()
    ensures Accepts(fnv, With(fnv, f, value), value) && Grows(f, With(fnv, f, value))
  {
    var h := fnv(value);
    forall i | 0 <= i < f.hashes ensures Bit(With(fnv, f, value).bits, Position(h, i, |f.bits|)) {
      SetUpToSets(h, f.bits, f.hashes, Position(h, i, |f.bits|));
    }
    forall q | 0 <= q < 8 * |f.bits| && Bit(f.bits, q) ensures Bit(With(fnv, f, value).bits, q) {
      SetUpToSets(h, f.bits, f.hashes, q);
    }
  }

  /** The union keeps every value of the filter it is written into. */
  lemma UnionKeepsOwn(f: Filter, g: Filter)
    ensures Grows(f, Union(f, g))
  {
    forall q | 0 <= q < 8 * |f.bits| && Bit(f.bits, q) ensures Bit(Union(f, g).bits, q) { UnionBits(f, g, q); }
  }

  /** Every position of the one shape is a position of the other, for the same hash. */
  ghost predicate Probes(bytes1: nat, hashes1: nat, bytes2: nat, hashes2: nat)
    requires 1 <= bytes1 && 1 <= bytes2
  {
    forall h: nat, i: nat | i < hashes1 :: Probed(h, Position(h, i, bytes1), bytes2, hashes2)
  }

  ghost predicate Probed(h: nat, p: nat, bytes: nat, hashes: nat)
    requires 1 <= bytes
  {
    exists j: nat | j < hashes :: Position(h, j, bytes) == p
  }

  /** Then the union keeps every value of the other filter too. */
  lemma UnionKeepsOther(fnv: Hash, f: Filter, g: Filter, value: string)
    requires f.Valid() && g.Valid() && Probes(|f.bits|, f.hashes, |g.bits|, g.hashes) && Accepts(fnv, g, value)
    ensures Accepts(fnv, Union(f, g), value)
  {
    forall i | 0 <= i < f.hashes ensures Bit(Union(f, g).bits, Position(fnv(value), i, |f.bits|)) {
      assert Probed(fnv(value), Position(fnv(value), i, |f.bits|), |g.bits|, g.hashes);
      var j: nat :| j < g.hashes && Position(fnv(value), j, |g.bits|) == Position(fnv(value), i, |f.bits|);
      UnionBits(f, g, Position(fnv(value), i, |f.bits|));
    }
  }

  // ---- When the union keeps every value of both ------------------------------------------

  function Empty(bytes: nat, hashes: nat): Filter {
    Filter(seq(bytes, _ => 0), hashes)
  }

  lemma EmptyBits(bytes: nat, hashes: nat, q: nat)
    requires q < 8 * bytes
    ensures !Bit(Empty(bytes, hashes).bits, q)
  {}

  function Always(h: nat): Hash {
    (s: string) => h
  }

  /** The one value of a new filter, merged into another new filter, is lost as soon as
      one of its positions there is not one of its positions here. */
  lemma LostPosition(h: nat, bytes1: nat, hashes1: nat, bytes2: nat, hashes2: nat, i: nat)
    requires 1 <= bytes1 && 1 <= bytes2 && hashes1 < 256 && hashes2 < 256 && i < hashes1
    requires forall j | 0 <= j < hashes2 :: Position(h, j, bytes2) != Position(h, i, bytes1)
    ensures !Accepts(Always(h), Union(Empty(bytes1, hashes1), With(Always(h), Empty(bytes2, hashes2), "")), "")
  {
    var f, g, q := Empty(bytes1, hashes1), With(Always(h), Empty(bytes2, hashes2), ""), Position(h, i, bytes1);
    UnionBits(f, g, q);
    EmptyBits(bytes1, hashes1, q);
    if q < 8 * bytes2 {
      SetUpToSets(h, Empty(bytes2, hashes2).bits, hashes2, q);
      EmptyBits(bytes2, hashes2, q);
    }
  }

  lemma ProbeSum(h1: nat, h2: nat, i: nat, m: nat, sum: nat)
    requires m > 0 && h1 + i * h2 == sum <= m < TWO32
    ensures Probe(h1, h2, i, m) == if sum < m then sum else 0
  {
    ModIsRemainder(sum, m);
  }

  lemma PositionOfFirst(h: nat, j: nat, bytes: nat)
    requires 1 <= bytes && h <= Range(bytes)
    ensures Position(h, j, bytes) == if h < Range(bytes) then h else 0
  {
    assert j * 0 == 0;
    ProbeSum(h, 0, j, Range(bytes), h);
  }

  lemma PositionOfStep(j: nat, bytes: nat)
    requires 1 <= bytes && j < Range(bytes)
    ensures Position(TWO32, j, bytes) == j
  {
    ProbeSum(0, 1, j, Range(bytes), j);
  }

  /** A hash whose first probes lie a whole turn apart and whose last wraps past 32 bits. */
  function Wrapping(m: nat, hashes: nat): nat
    requires m * hashes < TWO32
  {
    TWO32 - m * hashes + m * TWO32
  }

  lemma WrappingParts(m: nat, hashes: nat)
    requires 0 < m * hashes < TWO32
    ensures Wrapping(m, hashes) % TWO32 == TWO32 - m * hashes && Wrapping(m, hashes) / TWO32 == m
  {}

  lemma WrappingProbe(m: nat, hashes: nat, j: nat)
    requires 0 < m && 0 < m * hashes < TWO32 && j <= hashes
    ensures Probe(TWO32 - m * hashes, m, j, m) == if j < hashes then TWO32 % m else 0
  {
    var d := hashes - j;
    Shares(j, d, m);
    if j < hashes {
      PlusRings(d, TWO32 - d * m, m);
      ProbeBelow(TWO32 - m * hashes, m, j, m, TWO32 - d * m);
    }
  }

  lemma Shares(j: nat, d: nat, m: nat)
    requires m > 0
    ensures j * m + d * m == m * (j + d) && 0 <= d * m <= m * (j + d) && (d > 0 ==> d * m > 0)
  {
    assert j * m >= 0;
    if d > 0 { MulAtLeast(d, m); }
  }

  lemma ProbeBelow(h1: nat, h2: nat, i: nat, m: nat, sum: nat)
    requires m > 0 && h1 + i * h2 == sum < TWO32
    ensures Probe(h1, h2, i, m) == sum % m
  {}

  lemma PositionOfWrap(m: nat, hashes: nat, j: nat, bytes: nat)
    requires 1 <= bytes && m == Range(bytes) && 0 < m * hashes < TWO32 && j <= hashes
    ensures Position(Wrapping(m, hashes), j, bytes) == if j < hashes then TWO32 % m else 0
  {
    WrappingParts(m, hashes);
    WrappingProbe(m, hashes, j);
  }

  /** A range that divides 2^32 repeats its probes after one turn. */
  lemma ProbeRepeats(h1: nat, h2: nat, i: nat, m: nat)
    requires 0 < m < TWO32 && TWO32 % m == 0
    ensures Probe(h1, h2, i, m) == Probe(h1, h2, i % m, m)
  {
    FoldTwice(h1 + i * h2, TWO32, m);
    FoldTwice(h1 + (i % m) * h2, TWO32, m);
    TurnOff(h1, h2, i, m);
  }

  /** When the union keeps the values of both, whatever the hash: the filters reach the
      same bits, and the target probes none that the other does not. */
  predicate Compatible(bytes1: nat, hashes1: nat, bytes2: nat, hashes2: nat)
    requires 1 <= bytes1 && 1 <= bytes2
  {
    var m := Range(bytes1);
    hashes1 == 0 || (m == Range(bytes2) && (hashes1 <= hashes2 || (m <= hashes2 && TWO32 % m == 0)))
  }

  lemma CompatibleProbes(bytes1: nat, hashes1: nat, bytes2: nat, hashes2: nat)
    requires 1 <= bytes1 && 1 <= bytes2 && Compatible(bytes1, hashes1, bytes2, hashes2)
    ensures Probes(bytes1, hashes1, bytes2, hashes2)
  {
    forall h: nat, i: nat | i < hashes1 ensures Probed(h, Position(h, i, bytes1), bytes2, hashes2) {
      var j := ProbeFound(h, i, bytes1, hashes1, bytes2, hashes2);
    }
  }

  lemma ProbeFound(h: nat, i: nat, bytes1: nat, hashes1: nat, bytes2: nat, hashes2: nat) returns (j: nat)
    requires 1 <= bytes1 && 1 <= bytes2 && Compatible(bytes1, hashes1, bytes2, hashes2) && i < hashes1
    ensures j < hashes2 && Position(h, j, bytes2) == Position(h, i, bytes1)
  {
    if i < hashes2 {
      j := i;
    } else {
      j := i % Range(bytes1);
      ProbeRepeats(h % TWO32, h / TWO32, i, Range(bytes1));
    }
  }

  /** Otherwise some value of the other filter is lost, and its file wrongly skipped. */
  lemma UnionLosesValue(bytes1: nat, hashes1: nat, bytes2: nat, hashes2: nat) returns (h: nat)
    requires 1 <= bytes1 && 1 <= bytes2 && hashes1 < 256 && hashes2 < 256
    requires !Compatible(bytes1, hashes1, bytes2, hashes2)
    ensures !Accepts(Always(h), Union(Empty(bytes1, hashes1), With(Always(h), Empty(bytes2, hashes2), "")), "")
  {
    var m1, m2 := Range(bytes1), Range(bytes2);
    if m1 != m2 {
      h := if m1 < m2 then m1 else m2;
      PositionOfFirst(h, 0, bytes1);
      forall j | 0 <= j < hashes2 ensures Position(h, j, bytes2) != Position(h, 0, bytes1) { PositionOfFirst(h, j, bytes2); }
      LostPosition(h, bytes1, hashes1, bytes2, hashes2, 0);
    } else if hashes2 < m1 {
      h := TWO32;
      PositionOfStep(hashes2, bytes1);
      forall j | 0 <= j < hashes2 ensures Position(h, j, bytes2) != Position(h, hashes2, bytes1) { PositionOfStep(j, bytes2); }
      LostPosition(h, bytes1, hashes1, bytes2, hashes2, hashes2);
    } else {
      h := LosingWrap(bytes1, hashes1, bytes2, hashes2);
    }
  }

  lemma LosingWrap(bytes1: nat, hashes1: nat, bytes2: nat, hashes2: nat) returns (h: nat)
    requires 1 <= bytes1 && 1 <= bytes2 && Range(bytes1) == Range(bytes2)
    requires Range(bytes1) <= hashes2 < hashes1 < 256 && TWO32 % Range(bytes1) != 0
    ensures !Accepts(Always(h), Union(Empty(bytes1, hashes1), With(Always(h), Empty(bytes2, hashes2), "")), "")
  {
    var m := Range(bytes1);
    SmallProduct(m, hashes2);
    h := Wrapping(m, hashes2);
    PositionOfWrap(m, hashes2, hashes2, bytes1);
    forall j | 0 <= j < hashes2 ensures Position(h, j, bytes2) != Position(h, hashes2, bytes1) {
      PositionOfWrap(m, hashes2, j, bytes2);
    }
    LostPosition(h, bytes1, hashes1, bytes2, hashes2, hashes2);
  }

  lemma SmallProduct(a: nat, b: nat)
    requires 0 < a < 256 && 0 < b < 256
    ensures 0 < a * b < TWO32
  {
    MulAtLeast(a, b);
    assert a * b <= 256 * b;
  }

  /** A union of two filters keeps every value of both, whatever the hash and the
      values. */
  ghost predicate UnionIsSafe(bytes1: nat, hashes1: nat, bytes2: nat, hashes2: nat)
    requires 1 <= bytes1 && 1 <= bytes2 && hashes1 < 256 && hashes2 < 256
  {
    forall fnv: Hash, f: Filter, g: Filter, value: string |
      |f.bits| == bytes1 && f.hashes == hashes1 && |g.bits| == bytes2 && g.hashes == hashes2 ::
        Accepts(fnv, f, value) || Accepts(fnv, g, value) ==> Accepts(fnv, Union(f, g), value)
  }

  /** Exactly for compatible shapes, for every pair of shapes a filter can have. For the
      shapes of filters sized by their number of values (fewer hashes than bits, less
      than half a gigabyte) that is: equal lengths, and no more hashes in the target. */
  lemma UnionIsSafeIff(bytes1: nat, hashes1: nat, bytes2: nat, hashes2: nat)
    requires 1 <= bytes1 && 1 <= bytes2 && hashes1 < 256 && hashes2 < 256
    ensures UnionIsSafe(bytes1, hashes1, bytes2, hashes2) <==> Compatible(bytes1, hashes1, bytes2, hashes2)
    ensures 8 * bytes1 < TWO32 && 8 * bytes2 < TWO32 && 0 < hashes1 && hashes2 < 8 * bytes2 ==>
              (UnionIsSafe(bytes1, hashes1, bytes2, hashes2) <==> bytes1 == bytes2 && hashes1 <= hashes2)
  {
    SizedShapes(bytes1, hashes1, bytes2, hashes2);
    if Compatible(bytes1, hashes1, bytes2, hashes2) {
      CompatibleProbes(bytes1, hashes1, bytes2, hashes2);
      ProbesAreSafe(bytes1, hashes1, bytes2, hashes2);
    } else {
      var h := UnionLosesValue(bytes1, hashes1, bytes2, hashes2);
      AddedIsAccepted(Always(h), Empty(bytes2, hashes2), "");
    }
  }

  lemma SizedShapes(bytes1: nat, hashes1: nat, bytes2: nat, hashes2: nat)
    requires 1 <= bytes1 && 1 <= bytes2
    ensures 8 * bytes1 < TWO32 && 8 * bytes2 < TWO32 && 0 < hashes1 && hashes2 < 8 * bytes2 ==>
              (Compatible(bytes1, hashes1, bytes2, hashes2) <==> bytes1 == bytes2 && hashes1 <= hashes2)
  {}

  lemma ProbesAreSafe(bytes1: nat, hashes1: nat, bytes2: nat, hashes2: nat)
    requires 1 <= bytes1 && 1 <= bytes2 && hashes1 < 256 && hashes2 < 256 && Probes(bytes1, hashes1, bytes2, hashes2)
    ensures UnionIsSafe(bytes1, hashes1, bytes2, hashes2)
  {
    forall fnv: Hash, f: Filter, g: Filter, value: string |
      |f.bits| == bytes1 && f.hashes == hashes1 && |g.bits| == bytes2 && g.hashes == hashes2
      ensures Accepts(fnv, f, value) || Accepts(fnv, g, value) ==> Accepts(fnv, Union(f, g), value)
    {
      UnionKeepsOwn(f, g);
      if Accepts(fnv, f, value) { GrowsAccepts(fnv, f, Union(f, g), value); }
      if Accepts(fnv, g, value) { UnionKeepsOther(fnv, f, g, value); }
    }
  }

  // ---- In place ------------------------------------------------------------------------

  class BloomFilter {
    const bits: array<bv8>
    const hashes: nat

    ghost predicate Valid()
      reads this, bits
    {
      bits.Length >= 1 && hashes < 256
    }

    function Value(): Filter
      reads this, bits
    {
      Filter(bits[..], hashes)
    }

    constructor (bytes: nat, hashes: nat)
      requires 1 <= bytes && hashes < 256
      ensures Valid() && fresh(bits) && Value() == Empty(bytes, hashes)
    {
      this.bits := new bv8[bytes](_ => 0);
      this.hashes := hashes;
      new;
      assert this.bits[..] == Empty(bytes, hashes).bits;
    }

    method Add(fnv: Hash, value: string)
      requires Valid()
      modifies bits
      ensures Valid() && Value() == With(fnv, old(Value()), value)
    {
      var h := fnv(value);
      ghost var before := bits[..];
      for i := 0 to hashes
        invariant bits[..] == SetUpTo(h, before, i)
      {
        var p := Position(h, i, bits.Length);
        bits[p / 8] := bits[p / 8] | Mask(p % 8);
      }
    }

    method MayContain(fnv: Hash, value: string) returns (may: bool)
      requires Valid()
      ensures may == Accepts(fnv, Value(), value)
    {
      var h := fnv(value);
      for i := 0 to hashes
        invariant forall j | 0 <= j < i :: Bit(bits[..], Position(h, j, bits.Length))
      {
        var p := Position(h, i, bits.Length);
        assert Bit(bits[..], p) == Has(bits[p / 8], p % 8);
        if bits[p / 8] & Mask(p % 8) == 0 { return false; }
      }
      return true;
    }

    /** Every alias of this filter sees the union: it loses no value. */
    method MergeFrom(other: BloomFilter)
      requires Valid() && other.Valid()
      modifies bits
      ensures Valid() && Value() == Union(old(Value()), old(other.Value()))
    {
      ghost var mine, theirs := bits[..], other.bits[..];
      var n := bits.Length;
      if other.bits.Length < n { n := other.bits.Length; }
      for i := 0 to n
        invariant forall k | 0 <= k < bits.Length ::
            bits[k] == if k < i then mine[k] | theirs[k] else mine[k]
        invariant forall k | i <= k < other.bits.Length :: other.bits[k] == theirs[k]
      {
        bits[i] := bits[i] | other.bits[i];
      }
      assert bits[..] == Union(Filter(mine, hashes), Filter(theirs, other.hashes)).bits;
    }
  }
}
