/** Object keys: the tenant group prefix the compactor writes one output for
    (internal/manifest/compaction_candidates.go) and the tenant the lifecycle
    detector reads from a key (internal/delete/storageclass.go). */
module Keys {
  import opened Files

  /** A string split at its first '/', as strings.IndexByte finds it. */
  function Cut(s: string): (r: Option<(string, string)>)
    ensures r.Some? ==> s == r.value.0 + "/" + r.value.1 && '/' !in r.value.0
    ensures r.None? ==> '/' !in s
  {
    if s == [] then None
    else if s[0] == '/' then Some(([], s[1..]))
    else
      assert s == [s[0]] + s[1..];
      match Cut(s[1..])
      case None => None
      case Some((a, b)) =>
        assert s == [s[0]] + a + "/" + b;
        Some(([s[0]] + a, b))
  }

  lemma {:induction false} CutJoin(a: string, rest: string)
    requires '/' !in a
    ensures Cut(a + "/" + rest) == Some((a, rest))
  {
    var s := a + "/" + rest;
    if a == [] {
      assert s[1..] == rest;
    } else {
      assert s[1..] == a[1..] + "/" + rest;
      CutJoin(a[1..], rest);
      assert [s[0]] + a[1..] == a;
    }
  }

  predicate Digit(c: char) {
    '0' <= c <= '9'
  }

  function DigitValue(c: char): nat
    requires Digit(c)
  {
    c as int - '0' as int
  }

  function Decimal(s: string): nat
    requires forall c | c in s :: Digit(c)
  {
    if s == [] then 0 else Decimal(s[..|s| - 1]) * 10 + DigitValue(s[|s| - 1])
  }

  /** strconv.ParseUint(s, 10, 32). */
  function ParseUint32(s: string): Option<nat> {
    if s != [] && (forall c | c in s :: Digit(c)) && Decimal(s) < 0x1_0000_0000 then Some(Decimal(s)) else None
  }

  /** isUint32: as ParseUint32, but at most ten digits. */
  predicate IsUint32(s: string) {
    |s| <= 10 && ParseUint32(s).Some?
  }

  function Prefix(account: string, project: string, mode: string): string {
    account + "/" + (project + "/" + (mode + "/" + ""))
  }

  /** CompactionGroupPrefix: "<account>/<project>/<mode>/" when something follows it,
      or "" for a key of any other shape. */
  function GroupPrefix(key: string): string {
    match Cut(key)
    case None => ""
    case Some((account, rest)) =>
      match Cut(rest)
      case None => ""
      case Some((project, rest')) =>
        match Cut(rest')
        case None => ""
        case Some((mode, tail)) =>
          if account != "" && project != "" && mode != "" && tail != "" && IsUint32(account) && IsUint32(project)
          then Prefix(account, project, mode) else ""
  }

  /** parseTenantFromKey. */
  function ParseTenant(key: string): Option<(nat, nat)> {
    match Cut(key)
    case None => None
    case Some((account, rest)) =>
      match Cut(rest)
      case None => None
      case Some((project, _)) =>
        match (ParseUint32(account), ParseUint32(project))
        case (Some(a), Some(p)) => Some((a, p))
        case _ => None
  }

  lemma CutPrefix(account: string, project: string, mode: string, tail: string)
    requires '/' !in account && '/' !in project && '/' !in mode
    ensures var s := Prefix(account, project, mode) + tail;
            Cut(s) == Some((account, project + "/" + (mode + "/" + tail)))
    ensures Cut(project + "/" + (mode + "/" + tail)) == Some((project, mode + "/" + tail))
    ensures Cut(mode + "/" + tail) == Some((mode, tail))
  {
    PrefixTail(account, project, mode, tail);
    CutJoin(account, project + "/" + (mode + "/" + tail));
    CutJoin(project, mode + "/" + tail);
    CutJoin(mode, tail);
  }

  lemma PrefixTail(account: string, project: string, mode: string, tail: string)
    ensures Prefix(account, project, mode) + tail == account + "/" + (project + "/" + (mode + "/" + tail))
  {
    JoinTail(mode, "", tail, tail);
    JoinTail(project, mode + "/" + "", tail, mode + "/" + tail);
    JoinTail(account, project + "/" + (mode + "/" + ""), tail, project + "/" + (mode + "/" + tail));
  }

  lemma JoinTail(a: string, rest: string, tail: string, joined: string)
    requires rest + tail == joined
    ensures a + "/" + rest + tail == a + "/" + joined
  {
    assert a + "/" + rest + tail == (a + "/") + (rest + tail);
  }

  /** The segments behind a non-empty group prefix. */
  lemma PrefixParts(key: string) returns (account: string, project: string, mode: string)
    requires GroupPrefix(key) != ""
    ensures GroupPrefix(key) == Prefix(account, project, mode)
    ensures account != "" && Digit(account[0])
    ensures '/' !in account && '/' !in project && '/' !in mode
    ensures ParseUint32(account).Some? && ParseUint32(project).Some?
    ensures ParseTenant(key) == Some((ParseUint32(account).value, ParseUint32(project).value))
  {
    var c1 := Cut(key).value;
    var c2 := Cut(c1.1).value;
    var c3 := Cut(c2.1).value;
    account, project, mode := c1.0, c2.0, c3.0;
    assert account[0] in account;
  }

  /** The group prefix names the same tenant as the key it came from. */
  lemma PrefixKeepsTenant(key: string)
    requires GroupPrefix(key) != ""
    ensures ParseTenant(GroupPrefix(key)) == ParseTenant(key) && ParseTenant(key).Some?
  {
    var account, project, mode := PrefixParts(key);
    CutPrefix(account, project, mode, "");
    assert Prefix(account, project, mode) + "" == Prefix(account, project, mode);
  }

  /** The group label used for backoff and ordering: prefix, '|', bucket. */
  function Label(prefix: string, bucket: string): string {
    prefix + ("|" + bucket)
  }

  /** Only a group without a tenant prefix has a label that starts with '|'. */
  lemma LabelHead(key: string, bucket: string)
    ensures Label(GroupPrefix(key), bucket)[0] == '|' <==> GroupPrefix(key) == ""
  {
    if GroupPrefix(key) != "" {
      var account, _, _ := PrefixParts(key);
      assert Label(GroupPrefix(key), bucket)[0] == account[0];
    }
  }

  /** Labels of tenant groups do not collide. */
  lemma LabelIsInjective(k1: string, b1: string, k2: string, b2: string)
    requires Label(GroupPrefix(k1), b1) == Label(GroupPrefix(k2), b2)
    ensures GroupPrefix(k1) == GroupPrefix(k2) && b1 == b2
  {
    var g1, g2 := GroupPrefix(k1), GroupPrefix(k2);
    LabelHead(k1, b1);
    LabelHead(k2, b2);
    assert (g1 == "") == (g2 == "");
    if g1 != "" {
      var x1, y1, z1 := PrefixParts(k1);
      var x2, y2, z2 := PrefixParts(k2);
      CutPrefix(x1, y1, z1, "|" + b1);
      CutPrefix(x2, y2, z2, "|" + b2);
      assert ("|" + b1)[1..] == b1 && ("|" + b2)[1..] == b2;
    } else {
      assert b1 == Label(g1, b1)[1..] == Label(g2, b2)[1..] == b2;
    }
  }

  // ---- What the shapes mean ------------------------------------------------------------

  /** At most ten decimal digits, below 2^32. */
  predicate Is32(s: string) {
    s != "" && (forall c | c in s :: '0' <= c <= '9') && Decimal(s) < 4_294_967_296 && |s| <= 10
  }

  /** A key of three segments and something behind them has a group prefix, if its first two
      are numbers and its third is not empty. */
  lemma GroupPrefixOf(account: string, project: string, mode: string, tail: string)
    requires '/' !in account && '/' !in project && '/' !in mode
    ensures GroupPrefix(account + "/" + (project + "/" + (mode + "/" + tail)))
            == if Is32(account) && Is32(project) && mode != "" && tail != ""
               then account + "/" + (project + "/" + (mode + "/" + "")) else ""
  {
    PrefixTail(account, project, mode, tail);
    CutPrefix(account, project, mode, tail);
  }

  /** No other key has one. */
  lemma GroupPrefixNeeds(key: string) returns (account: string, project: string, mode: string, tail: string)
    requires GroupPrefix(key) != ""
    ensures '/' !in account && '/' !in project && '/' !in mode
    ensures key == account + "/" + (project + "/" + (mode + "/" + tail))
    ensures Is32(account) && Is32(project) && mode != "" && tail != ""
  {
    var c1 := Cut(key).value;
    var c2 := Cut(c1.1).value;
    var c3 := Cut(c2.1).value;
    account, project, mode, tail := c1.0, c2.0, c3.0, c3.1;
    Joined(key, account, c1.1);
    Joined(c1.1, project, c2.1);
    Joined(c2.1, mode, tail);
  }

  lemma Joined(s: string, a: string, b: string)
    requires Cut(s) == Some((a, b))
    ensures s == a + "/" + b
  {}

  /** A key names the tenant of its first two segments, if both are numbers below 2^32. */
  lemma ParseTenantOf(account: string, project: string, rest: string)
    requires '/' !in account && '/' !in project
    ensures ParseTenant(account + "/" + (project + "/" + rest))
            == if account != "" && project != "" && (forall c | c in account :: '0' <= c <= '9')
                  && (forall c | c in project :: '0' <= c <= '9') && Decimal(account) < 4_294_967_296 && Decimal(project) < 4_294_967_296
               then Some((Decimal(account), Decimal(project))) else None
  {
    CutJoin(account, project + "/" + rest);
    CutJoin(project, rest);
  }
}
