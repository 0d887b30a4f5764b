/** Row-group keys of the hot tier (internal/bloomindex/tiering.go, PerRGKey and
    ParseRGKey) with strconv's integer forms. */
module RowGroupKeys {
  import opened Files
  import opened Keys

  const MIN_INT: int := -0x8000_0000_0000_0000
  const MAX_INT: int := 0x7fff_ffff_ffff_ffff

  function Digits(n: nat): (s: string)
    ensures s != [] && forall c | c in s :: Digit(c)
  {
    var last := ('0' as int + n % 10) as char;
    if n < 10 then [last] else Digits(n / 10) + [last]
  }

  lemma {:induction false} DigitsDecimal(n: nat)
    ensures Decimal(Digits(n)) == n
  {
    var s, last := Digits(n), ('0' as int + n % 10) as char;
    assert DigitValue(last) == n % 10;
    if n < 10 {
      assert s[..0] == [] && Decimal(s[..|s| - 1]) == 0;
    } else {
      DigitsDecimal(n / 10);
      assert s[..|s| - 1] == Digits(n / 10);
    }
  }

  /** strconv.Itoa. */
  function Itoa(i: int): string {
    if i < 0 then "-" + Digits(-i) else Digits(i)
  }

  function Unsigned(s: string): Option<nat> {
    if s != [] && (forall c | c in s :: Digit(c)) then Some(Decimal(s)) else None
  }

  /** strconv.Atoi: an optional sign, then decimal digits, in 64 bits. */
  function Atoi(s: string): Option<int> {
    var negative := s != [] && s[0] == '-';
    var body := if s != [] && (s[0] == '-' || s[0] == '+') then s[1..] else s;
    match Unsigned(body)
    case None => None
    case Some(n) =>
      var i := if negative then 0 - n as int else n as int;
      if MIN_INT <= i <= MAX_INT then Some(i) else None
  }

  lemma AtoiOfItoa(i: int)
    requires MIN_INT <= i <= MAX_INT
    ensures Atoi(Itoa(i)) == Some(i) && '#' !in Itoa(i)
  {
    var n: nat := if i < 0 then -i else i;
    DigitsDecimal(n);
    assert Digit(Digits(n)[0]) by { assert Digits(n)[0] in Digits(n); }
    assert ("-" + Digits(n))[1..] == Digits(n);
  }

  function PerRGKey(file: string, index: int): string {
    file + "#" + Itoa(index)
  }

  /** A string split at its last '#', as strings.LastIndex finds it. */
  function CutLast(s: string): Option<(string, string)> {
    if s == [] then None
    else if s[|s| - 1] == '#' then Some((s[..|s| - 1], []))
    else
      match CutLast(s[..|s| - 1])
      case None => None
      case Some((a, b)) => Some((a, b + [s[|s| - 1]]))
  }

  lemma {:induction false} CutLastJoin(a: string, b: string)
    requires '#' !in b
    ensures CutLast(a + "#" + b) == Some((a, b))
  {
    var s := a + "#" + b;
    if b == [] {
      assert s[..|s| - 1] == a;
    } else {
      var n := |b| - 1;
      assert b[n] in b && s[|s| - 1] == b[n] && s[..|s| - 1] == a + "#" + b[..n];
      assert forall c | c in b[..n] :: c in b;
      CutLastJoin(a, b[..n]);
      assert b[..n] + [b[n]] == b;
    }
  }

  function ParseRGKey(key: string): Option<(string, int)> {
    match CutLast(key)
    case None => None
    case Some((file, suffix)) =>
      match Atoi(suffix)
      case None => None
      case Some(index) => Some((file, index))
  }

  /** Every row-group key parses back, whatever the file name and the index. */
  lemma RowGroupKeyRoundTrip(file: string, index: int)
    requires MIN_INT <= index <= MAX_INT
    ensures ParseRGKey(PerRGKey(file, index)) == Some((file, index))
  {
    AtoiOfItoa(index);
    CutLastJoin(file, Itoa(index));
  }

  /** The file a per-file index lists a key under. */
  function FileOf(key: string): string {
    match ParseRGKey(key)
    case None => key
    case Some((file, _)) => file
  }

  /** Downgrading groups the row groups of a file under the file. */
  lemma RowGroupsOfOneFile(file: string, index: int)
    requires MIN_INT <= index <= MAX_INT
    ensures FileOf(PerRGKey(file, index)) == file
  {
    RowGroupKeyRoundTrip(file, index);
  }

  /** What a row-group key looks like, and a key without a '#' is a file's own. */
  lemma RowGroupKeyShape(key: string)
    ensures PerRGKey("f", 3) == "f#3"
    ensures '#' !in key ==> ParseRGKey(key).None? && FileOf(key) == key
    ensures ParseRGKey(key).Some? ==>
              exists suffix :: '#' !in suffix && key == ParseRGKey(key).value.0 + "#" + suffix && Atoi(suffix) == Some(ParseRGKey(key).value.1)
  {
    assert Itoa(3) == "3";
    CutLastParts(key);
  }

  lemma {:induction false} CutLastParts(s: string)
    ensures CutLast(s).None? <==> '#' !in s
    ensures CutLast(s).Some? ==> s == CutLast(s).value.0 + "#" + CutLast(s).value.1 && '#' !in CutLast(s).value.1
  {
    if s != [] {
      var front := s[..|s| - 1];
      assert s == front + [s[|s| - 1]];
      CutLastParts(front);
    }
  }
}
