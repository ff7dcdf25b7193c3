/**
 * Which Host API versions may carry Key streams (proxy/key_backend_capability.go:144-153):
 * decimal parsing with 64-bit overflow rejection, decimal printing, and the canonical form.
 */
module HostVersion {
  import opened Prelude

  const UINT64_LIMIT := 0x1_0000_0000_0000_0000

  const FAMILY := "0.38."

  predicate IsDigit(c: char) {
    '0' <= c <= '9'
  }

  function DigitValue(c: char): (d: nat)
    requires IsDigit(c)
    ensures d < 10
  {
    c as int - '0' as int
  }

  function DigitChar(d: nat): (c: char)
    requires d < 10
    ensures IsDigit(c) && DigitValue(c) == d
  {
    ('0' as int + d) as char
  }

  /** Digits read from the left after the value `n`; a stray character or a value past 64 bits fails. */
  function ParseFrom(n: nat, s: string): Option<nat>
    decreases |s|
  {
    if s == "" then Some(n)
    else if !IsDigit(s[0]) then None
    else
      var n' := 10 * n + DigitValue(s[0]);
      if n' >= UINT64_LIMIT then None else ParseFrom(n', s[1..])
  }

  /** `strconv.ParseUint(s, 10, 64)`. */
  function ParseUint(s: string): Option<nat> {
    if s == "" then None else ParseFrom(0, s)
  }

  /** `strconv.FormatUint(n, 10)`. */
  function FormatUint(n: nat): (s: string)
    ensures |s| > 0 && forall i :: 0 <= i < |s| ==> IsDigit(s[i])
  {
    if n < 10 then [DigitChar(n)] else FormatUint(n / 10) + [DigitChar(n % 10)]
  }

  function CutPrefix(s: string, prefix: string): Option<string> {
    if prefix <= s then Some(s[|prefix|..]) else None
  }

  predicate CompatibleKeyBackendVersion(version: string) {
    match CutPrefix(version, FAMILY)
    case None => false
    case Some(patch) =>
      match ParseUint(patch)
      case None => false
      case Some(number) => number >= 5 && FormatUint(number) == patch
  }

  lemma {:induction false} ParseFromAppend(n: nat, s: string, t: string)
    ensures ParseFrom(n, s + t) == (match ParseFrom(n, s) case None => None case Some(m) => ParseFrom(m, t))
    decreases |s|
  {
    if s == "" {
      assert s + t == t;
    } else {
      assert (s + t)[1..] == s[1..] + t;
      if IsDigit(s[0]) && 10 * n + DigitValue(s[0]) < UINT64_LIMIT {
        ParseFromAppend(10 * n + DigitValue(s[0]), s[1..], t);
      }
    }
  }

  /** Parsing inverts printing, and overflow is what decides which values come back. */
  lemma {:induction false} ParseInvertsFormat(n: nat)
    ensures ParseUint(FormatUint(n)) == if n < UINT64_LIMIT then Some(n) else None
    decreases n
  {
    if n < 10 {
      assert FormatUint(n)[1..] == "" && ParseFrom(n, "") == Some(n);
    } else {
      ParseInvertsFormat(n / 10);
      ParseFromAppend(0, FormatUint(n / 10), [DigitChar(n % 10)]);
      if n / 10 < UINT64_LIMIT {
        assert [DigitChar(n % 10)][1..] == "" && ParseFrom(n, "") == Some(n);
        assert 10 * (n / 10) + n % 10 == n;
      }
    }
  }

  /** No two numbers print alike. */
  lemma {:induction false} FormatInjective(a: nat, b: nat)
    requires FormatUint(a) == FormatUint(b)
    ensures a == b
    decreases a
  {
    var s, t := FormatUint(a), FormatUint(b);
    assert s[|s| - 1] == DigitChar(a % 10) && t[|t| - 1] == DigitChar(b % 10);
    assert DigitValue(s[|s| - 1]) == a % 10 == b % 10;
    if a >= 10 && b >= 10 {
      assert FormatUint(a / 10) == s[..|s| - 1] == t[..|t| - 1] == FormatUint(b / 10);
      FormatInjective(a / 10, b / 10);
    }
  }

  /** The value of a printed canonical patch number. */
  ghost predicate CanonicalPatch(version: string, n: nat) {
    5 <= n < 0x1_0000_0000_0000_0000 && version == "0.38." + FormatUint(n)
  }

  /** Exactly the canonical `0.38.n` with 5 <= n < 2^64 are compatible, each for one n only. */
  lemma CompatibleExactly(version: string)
    ensures CompatibleKeyBackendVersion(version) <==> exists n :: CanonicalPatch(version, n)
    ensures forall m, n :: CanonicalPatch(version, m) && CanonicalPatch(version, n) ==> m == n
  {
    if CompatibleKeyBackendVersion(version) {
      var patch := version[|FAMILY|..];
      var n := ParseUint(patch).value;
      ParseInvertsFormat(n);
      assert version == FAMILY + patch;
      assert CanonicalPatch(version, n);
    }
    forall n | CanonicalPatch(version, n) ensures CompatibleKeyBackendVersion(version) {
      ParseInvertsFormat(n);
      assert version[|FAMILY|..] == FormatUint(n);
    }
    forall m, n | CanonicalPatch(version, m) && CanonicalPatch(version, n) ensures m == n {
      assert FormatUint(m) == version[|FAMILY|..] == FormatUint(n);
      FormatInjective(m, n);
    }
  }

  /** Patch 5 is the first that is compatible, and digits count from the right. */
  lemma FirstCompatible()
    ensures !CompatibleKeyBackendVersion("0.38.4") && CompatibleKeyBackendVersion("0.38.5")
    ensures FormatUint(12) == "12" && CompatibleKeyBackendVersion("0.38.12")
  {
    assert FormatUint(12) == FormatUint(1) + [DigitChar(2)] == "12";
    assert "0.38.4"[5..] == "4" && "0.38.5"[5..] == "5" && "0.38.12"[5..] == "12";
    assert "4"[1..] == "" && "5"[1..] == "" && "12"[1..] == "2" && "2"[1..] == "";
    assert ParseFrom(0, "4") == ParseFrom(4, "") == Some(4);
    assert ParseFrom(0, "5") == ParseFrom(5, "") == Some(5);
    assert ParseFrom(0, "12") == ParseFrom(1, "2") == ParseFrom(12, "") == Some(12);
  }

  /** A leading zero, a prerelease or another family is not compatible, whatever the digits after it. */
  lemma NonCanonicalRefused(rest: string)
    ensures rest != "" ==> !CompatibleKeyBackendVersion(FAMILY + "0" + rest)
    ensures !CompatibleKeyBackendVersion(FAMILY + rest + "-rc1")
  {
    var zero := FAMILY + "0" + rest;
    CompatibleExactly(zero);
    if rest != "" && CompatibleKeyBackendVersion(zero) {
      var n :| CanonicalPatch(zero, n);
      assert FormatUint(n) == zero[|FAMILY|..] == "0" + rest;
      NoLeadingZero(n);
      assert false;
    }
    var pre, patch := FAMILY + rest + "-rc1", rest + "-rc1";
    assert pre[|FAMILY|..] == patch && patch[|rest|] == '-';
  }

  lemma {:induction false} NoLeadingZero(n: nat)
    ensures n > 0 ==> FormatUint(n)[0] != '0'
    decreases n
  {
    if n >= 10 {
      NoLeadingZero(n / 10);
    } else if n > 0 {
      assert DigitValue(FormatUint(n)[0]) == n;
    }
  }
}
