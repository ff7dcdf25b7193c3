/**
 * Version 4 UUIDs (common/random_id.go; section 4.4 of RFC 4122), the source of message keys,
 * backend session ids and audit attempt ids. The entropy is a parameter.
 */
module RandomId {
  import opened Envelope

  type Byte = x: int | 0 <= x < 256

  /** Sixteen random bytes. */
  type Entropy = v: seq<Byte> | |v| == 16 witness seq(16, _ => 0)

  const HEX_DIGITS := "0123456789abcdef"

  predicate IsHex(c: char) {
    '0' <= c <= '9' || 'a' <= c <= 'f'
  }

  function HexDigit(n: int): (c: char)
    requires 0 <= n < 16
    ensures IsHex(c)
    ensures forall m :: 0 <= m < 16 && HEX_DIGITS[m] == c ==> m == n
  {
    HEX_DIGITS[n]
  }

  /** `hex.EncodeToString`: the high digit of each byte, then the low one. */
  function Hex(v: seq<Byte>): (s: string)
    ensures |s| == 2 * |v|
    ensures forall i :: 0 <= i < |s| ==> IsHex(s[i])
  {
    seq(2 * |v|, i requires 0 <= i < 2 * |v| =>
      HexDigit(if i % 2 == 0 then v[i / 2] / 16 else v[i / 2] % 16))
  }

  /** The version and variant bits: `(b & 0x0f) | 0x40` at 6 and `(b & 0x3f) | 0x80` at 8. */
  function Stamp(v: Entropy): Entropy {
    v[6 := v[6] % 16 + 0x40][8 := v[8] % 64 + 0x80]
  }

  function UuidText(v: Entropy): string {
    var w := Stamp(v);
    Hex(w[0..4]) + "-" + Hex(w[4..6]) + "-" + Hex(w[6..8]) + "-" + Hex(w[8..10]) + "-" + Hex(w[10..16])
  }

  /** The layout the failure reporter checks with a regular expression (delegation/failure.go:39). */
  predicate IsVersion4(s: string) {
    && |s| == 36
    && s[8] == '-' && s[13] == '-' && s[18] == '-' && s[23] == '-'
    && s[14] == '4' && s[19] in "89ab"
    && forall i :: 0 <= i < 36 && i != 8 && i != 13 && i != 18 && i != 23 ==> IsHex(s[i])
  }

  lemma UuidIsVersion4(v: Entropy)
    ensures IsVersion4(UuidText(v))
  {
    var w := Stamp(v);
    var s := UuidText(v);
    assert s[14] == Hex(w[6..8])[0] == HexDigit(w[6] / 16);
    assert w[6] / 16 == 4;
    assert s[19] == Hex(w[8..10])[0] == HexDigit(w[8] / 16);
    assert 8 <= w[8] / 16 <= 11;
  }

  /** A generated key always survives the envelope. */
  lemma UuidIsCleanKey(v: Entropy)
    ensures CleanKey(UuidText(v))
  {
    UuidIsVersion4(v);
    var s := UuidText(v);
    forall i: nat ensures !SeparatorAt(s, i) {
      if i + 1 < 36 {
        assert IsHex(s[i]) || s[i] == '-';
      }
    }
  }

  function DigitValue(c: char): int {
    if '0' <= c <= '9' then c as int - '0' as int else 10 + (c as int - 'a' as int)
  }

  /** Read back two digits at a time, high digit first, the text gives the bytes. */
  lemma HexDecodes(v: seq<Byte>, i: nat)
    requires i < |v|
    ensures 16 * DigitValue(Hex(v)[2 * i]) + DigitValue(Hex(v)[2 * i + 1]) == v[i]
  {
    var high, low := 2 * i, 2 * i + 1;
    assert Hex(v)[high] == HexDigit(v[i] / 16) && Hex(v)[low] == HexDigit(v[i] % 16);
    assert forall n :: 0 <= n < 16 ==> DigitValue(HexDigit(n)) == n;
  }

  lemma HexInjective(a: seq<Byte>, b: seq<Byte>)
    requires Hex(a) == Hex(b)
    ensures a == b
  {
    forall i | 0 <= i < |a| ensures a[i] == b[i] {
      HexDecodes(a, i);
      HexDecodes(b, i);
    }
  }

  /** The 122 bits that are not stamped over. */
  predicate SameRandomBits(a: Entropy, b: Entropy) {
    && (forall i :: 0 <= i < 16 && i != 6 && i != 8 ==> a[i] == b[i])
    && a[6] % 16 == b[6] % 16 && a[8] % 64 == b[8] % 64
  }

  /** Stamping fixes the version and the variant and keeps all other bits. */
  lemma StampKeeps(v: Entropy)
    ensures SameRandomBits(v, Stamp(v)) && Stamp(v)[6] / 16 == 4 && Stamp(v)[8] / 64 == 2
  {
  }

  /** Where each group of digits stands. */
  lemma UuidGroups(v: Entropy)
    ensures var s, w := UuidText(v), Stamp(v);
      && |s| == 36
      && s[0..8] == Hex(w[0..4]) && s[9..13] == Hex(w[4..6]) && s[14..18] == Hex(w[6..8])
      && s[19..23] == Hex(w[8..10]) && s[24..36] == Hex(w[10..16])
  {
  }

  lemma SameBitsExactly(a: Entropy, b: Entropy)
    ensures Stamp(a) == Stamp(b) <==> SameRandomBits(a, b)
  {
    var x, y := Stamp(a), Stamp(b);
    assert forall i :: 0 <= i < 16 && i != 6 && i != 8 ==> x[i] == a[i] && y[i] == b[i];
    assert x[6] == a[6] % 16 + 0x40 && y[6] == b[6] % 16 + 0x40;
    assert x[8] == a[8] % 64 + 0x80 && y[8] == b[8] % 64 + 0x80;
    if SameRandomBits(a, b) {
      assert forall i :: 0 <= i < 16 ==> x[i] == y[i];
    }
  }

  /** Two ids collide exactly when all 122 random bits agree. */
  lemma UuidInjective(a: Entropy, b: Entropy)
    ensures UuidText(a) == UuidText(b) <==> SameRandomBits(a, b)
  {
    SameBitsExactly(a, b);
    if UuidText(a) == UuidText(b) {
      StampedAlike(a, b);
    }
  }

  lemma StampedAlike(a: Entropy, b: Entropy)
    requires UuidText(a) == UuidText(b)
    ensures Stamp(a) == Stamp(b)
  {
    UuidGroups(a);
    UuidGroups(b);
    var x, y := Stamp(a), Stamp(b);
    HexInjective(x[0..4], y[0..4]);
    HexInjective(x[4..6], y[4..6]);
    HexInjective(x[6..8], y[6..8]);
    HexInjective(x[8..10], y[8..10]);
    HexInjective(x[10..16], y[10..16]);
    assert x == x[0..4] + x[4..6] + x[6..8] + x[8..10] + x[10..16];
    assert y == y[0..4] + y[4..6] + y[6..8] + y[8..10] + y[10..16];
  }

  /** `hex.Encode(dst[at:at+2*len(src)], src)`, the characters before `at` being filled already. */
  method EncodeInto(dst: array<char>, at: nat, src: seq<Byte>)
    requires at + 2 * |src| <= dst.Length
    modifies dst
    ensures dst[..at + 2 * |src|] == old(dst[..at]) + Hex(src)
  {
    var i := 0;
    while i < |src|
      invariant 0 <= i <= |src|
      invariant forall j :: 0 <= j < 2 * i ==> dst[at + j] == Hex(src)[j]
      invariant dst[..at] == old(dst[..at])
    {
      dst[at + 2 * i] := HexDigit(src[i] / 16);
      dst[at + 2 * i + 1] := HexDigit(src[i] % 16);
      i := i + 1;
    }
  }

  method Dash(dst: array<char>, at: nat)
    requires at < dst.Length
    modifies dst
    ensures dst[..at + 1] == old(dst[..at]) + "-"
  {
    dst[at] := '-';
  }

  /** The 36 characters of an id, group by group. */
  method FillUuid(w: seq<Byte>) returns (id: string)
    requires |w| == 16
    ensures id == Hex(w[0..4]) + "-" + Hex(w[4..6]) + "-" + Hex(w[6..8]) + "-" + Hex(w[8..10]) + "-" + Hex(w[10..16])
  {
    var encoded := new char[36];
    EncodeInto(encoded, 0, w[0..4]);
    Dash(encoded, 8);
    EncodeInto(encoded, 9, w[4..6]);
    Dash(encoded, 13);
    EncodeInto(encoded, 14, w[6..8]);
    Dash(encoded, 18);
    EncodeInto(encoded, 19, w[8..10]);
    Dash(encoded, 23);
    EncodeInto(encoded, 24, w[10..16]);
    id := encoded[..36];
    assert encoded[..36] == encoded[..];
  }

  /** Masks `value` in place and spells it out. */
  method NewRandomUUID(value: array<Byte>) returns (id: string)
    requires value.Length == 16
    modifies value
    ensures id == UuidText(old(value[..]))
    ensures value[..] == Stamp(old(value[..]))
  {
    value[6] := value[6] % 16 + 0x40;
    value[8] := value[8] % 64 + 0x80;
    assert value[..] == Stamp(old(value[..]));
    id := FillUuid(value[..]);
  }
}
