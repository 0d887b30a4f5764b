/** Little-endian integers and byte strings as encoding/binary writes them. */
module Wire {
  /** A byte of the encoded form, as a number. */
  newtype Octet = x: int | 0 <= x < 256

  type Bytes = seq<Octet>

  /** The low eight bits, as a conversion to a byte keeps them. */
  function Byte(n: nat): Octet {
    (n % 256) as Octet
  }

  function Value(b: Octet): (n: nat)
    ensures n < 256
  {
    b as int
  }

  /** AppendUint16: the low 16 bits. */
  function Put16(n: nat): (r: Bytes)
    ensures |r| == 2
  {
    [Byte(n), Byte(n / 256)]
  }

  function Get16(s: Bytes): (n: nat)
    requires |s| >= 2
    ensures n < 0x1_0000
  {
    Value(s[0]) + 256 * Value(s[1])
  }

  /** AppendUint32: the low 32 bits. */
  function Put32(n: nat): (r: Bytes)
    ensures |r| == 4
  {
    Put16(n % 0x1_0000) + Put16(n / 0x1_0000)
  }

  function Get32(s: Bytes): (n: nat)
    requires |s| >= 4
    ensures n < 0x1_0000_0000
  {
    Get16(s) + 0x1_0000 * Get16(s[2..])
  }

  /** The low byte comes first. */
  lemma LittleEndian(a: Octet, b: Octet, c: Octet, d: Octet, post: Bytes)
    ensures Get16([a, b] + post) == a as int + 0x100 * b as int
    ensures Get32([a, b, c, d] + post) == a as int + 0x100 * b as int + 0x1_0000 * c as int + 0x100_0000 * d as int
  {
    var s := [a, b, c, d] + post;
    assert s[2..][0] == c && s[2..][1] == d;
  }

  lemma Get16Put16(n: nat, post: Bytes)
    requires n < 0x1_0000
    ensures Get16(Put16(n) + post) == n && (Put16(n) + post)[2..] == post
  {
    var s := Put16(n) + post;
    assert s[0] == Byte(n) && s[1] == Byte(n / 256) && s[2..] == post;
  }

  lemma Get32Put32(n: nat, post: Bytes)
    requires n < 0x1_0000_0000
    ensures Get32(Put32(n) + post) == n && (Put32(n) + post)[4..] == post
  {
    var lo, hi := n % 0x1_0000, n / 0x1_0000;
    assert Put32(n) + post == Put16(lo) + (Put16(hi) + post);
    Get16Put16(lo, Put16(hi) + post);
    Get16Put16(hi, post);
  }

  /** A Go string is a sequence of bytes: one byte per character here. */
  ghost predicate IsBytes(s: string) {
    forall c | c in s :: c as int < 256
  }

  function ToBytes(s: string): (r: Bytes)
    ensures |r| == |s|
  {
    seq(|s|, i requires 0 <= i < |s| => Byte(s[i] as int))
  }

  function FromBytes(b: Bytes): (s: string)
    ensures |s| == |b|
  {
    seq(|b|, i requires 0 <= i < |b| => Value(b[i]) as char)
  }

  lemma StringRoundTrip(s: string)
    requires IsBytes(s)
    ensures FromBytes(ToBytes(s)) == s
  {
    forall i | 0 <= i < |s| ensures FromBytes(ToBytes(s))[i] == s[i] {
      assert s[i] in s;
    }
  }

  lemma FromBytesIsBytes(b: Bytes)
    ensures IsBytes(FromBytes(b))
  {}

  /** A filter's bit bytes in the encoded form, and back. */
  function FromBits(bits: seq<bv8>): (r: Bytes)
    ensures |r| == |bits|
  {
    seq(|bits|, i requires 0 <= i < |bits| => (bits[i] as int) as Octet)
  }

  function ToBits(b: Bytes): (r: seq<bv8>)
    ensures |r| == |b|
  {
    seq(|b|, i requires 0 <= i < |b| => (b[i] as int) as bv8)
  }

  lemma CastBack(b: bv8)
    ensures (b as int) as bv8 == b
  {}

  lemma BitsRoundTrip(bits: seq<bv8>)
    ensures ToBits(FromBits(bits)) == bits
  {
    forall i | 0 <= i < |bits| ensures ToBits(FromBits(bits))[i] == bits[i] { CastBack(bits[i]); }
  }
}
