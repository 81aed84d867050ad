/**
 The textual forms frame headers carry: lower-case hex node keys, decimal numbers, and base64 as in
 section 4 of RFC 4648. Each writer has a reader that undoes it.
 */
module Text {
  import opened Common

  const KEY_PREFIX := "nodekey:"

  // ---- digits --------------------------------------------------------------------------

  function Digit(n: nat): (c: char)
    requires n < 36
  {
    if n < 10 then '0' + n as char else 'a' + (n - 10) as char
  }

  lemma DigitIs(n: nat)
    requires n < 36
    ensures Digit(n) == "0123456789abcdefghijklmnopqrstuvwxyz"[n]
  {
  }

  /** The value of a digit or letter, either case. */
  function DigitValue(c: char): Option<nat> {
    if '0' <= c <= '9' then Some((c - '0') as nat)
    else if 'a' <= c <= 'z' then Some((c - 'a') as nat + 10)
    else if 'A' <= c <= 'Z' then Some((c - 'A') as nat + 10)
    else None
  }

  lemma DigitReads(n: nat)
    requires n < 36
    ensures DigitValue(Digit(n)) == Some(n)
  {
  }

  /** The number a run of digits spells; None on a character that is no digit of the base. */
  function Number(s: string, base: nat): Option<nat>
    requires 2 <= base <= 36
  {
    if s == "" then Some(0)
    else
      var high, d := Number(s[..|s| - 1], base), DigitValue(s[|s| - 1]);
      if high.None? || d.None? || d.value >= base then None else Some(high.value * base + d.value)
  }

  /** strconv.FormatUint and strconv.Itoa in base ten: no leading zeros. */
  function Decimal(n: nat): (s: string)
    ensures s != "" && forall c :: c in s ==> DigitValue(c).Some?
  {
    if n < 10 then [Digit(n)] else Decimal(n / 10) + [Digit(n % 10)]
  }

  lemma {:induction false} DecimalReads(n: nat)
    ensures Number(Decimal(n), 10) == Some(n)
  {
    var s := Decimal(n);
    if n < 10 {
      assert s[..0] == "";
    } else {
      DecimalReads(n / 10);
      assert s[..|s| - 1] == Decimal(n / 10);
    }
  }

  // ---- numbers as Go reads them ------------------------------------------------------------

  const MAX_UINT32 := 0xFFFF_FFFF
  const MAX_INT := 0x7FFF_FFFF_FFFF_FFFF

  function Min(a: int, b: int): int { if a < b then a else b }

  /** strconv.ParseUint(s, 10, 32) with its error dropped: 0 on bad syntax, the largest value when out of range. */
  function ParseUint32(s: string): (n: nat)
    ensures n <= MAX_UINT32
  {
    var n := if s == "" then None else Number(s, 10);
    if n.None? then 0 else Min(n.value, MAX_UINT32)
  }

  /** strconv.Atoi with its error dropped: an optional sign, then digits. */
  function Atoi(s: string): int {
    if s == "" then 0
    else
      var signed := s[0] == '-' || s[0] == '+';
      var digits := if signed then s[1..] else s;
      var n := if digits == "" then None else Number(digits, 10);
      if n.None? then 0 else if s[0] == '-' then -Min(n.value, MAX_INT + 1) else Min(n.value, MAX_INT)
  }

  /** A printed number reads back, the largest 32-bit number standing for any larger one. */
  lemma ParseUint32Undoes(n: nat)
    ensures ParseUint32(Decimal(n)) == if n <= 0xFFFF_FFFF then n else 0xFFFF_FFFF
  {
    DecimalReads(n);
  }

  /** A printed number reads back, with or without its sign, cut to 64 bits. */
  lemma AtoiUndoes(n: nat)
    ensures Atoi(Decimal(n)) == Atoi("+" + Decimal(n)) ==
        if n <= 0x7FFF_FFFF_FFFF_FFFF then n else 0x7FFF_FFFF_FFFF_FFFF
    ensures Atoi("-" + Decimal(n)) == 0 - if n <= 0x8000_0000_0000_0000 then n else 0x8000_0000_0000_0000
  {
    DecimalReads(n);
    assert DigitValue(Decimal(n)[0]).Some?;
    assert ("+" + Decimal(n))[1..] == Decimal(n) == ("-" + Decimal(n))[1..];
  }

  /** Text that is not a number reads as zero. */
  lemma BadIsZero(s: string, i: nat)
    requires i < |s| && (DigitValue(s[i]).None? || DigitValue(s[i]).value >= 10)
    ensures ParseUint32(s) == 0 && (i > 0 || (s[0] != '-' && s[0] != '+') ==> Atoi(s) == 0)
    ensures ParseUint32("") == 0 && Atoi("") == 0
  {
    NotANumber(s, i);
    if i > 0 { NotANumber(s[1..], i - 1); }
  }

  lemma {:induction false} NotANumber(s: string, i: nat)
    requires i < |s| && (DigitValue(s[i]).None? || DigitValue(s[i]).value >= 10)
    ensures Number(s, 10).None?
    decreases |s|
  {
    if i < |s| - 1 { NotANumber(s[..|s| - 1], i); }
  }

  /** strconv.ParseUint(s, 0, 8): the prefix picks the base. */
  function ParseByte(s: string): Option<Byte> {
    if s == "" then None
    else
      var n := if s[0] != '0' then Number(s, 10)
               else if |s| >= 3 && s[1] in "xX" then Number(s[2..], 16)
               else if |s| >= 3 && s[1] in "bB" then Number(s[2..], 2)
               else if |s| >= 3 && s[1] in "oO" then Number(s[2..], 8)
               else Number(s[1..], 8);
      if n.Some? && n.value < 256 then Some(n.value) else None
  }

  /** A byte in decimal reads back: only zero begins with a zero. */
  lemma DecimalIsByte(n: Byte)
    ensures ParseByte(Decimal(n)) == Some(n) && DigitValue(Decimal(n)[0]).Some? && DigitValue(Decimal(n)[0]).value < 10
  {
    DecimalReads(n);
    FirstDigit(n);
  }

  lemma {:induction false} FirstDigit(n: nat)
    ensures DigitValue(Decimal(n)[0]).Some? && DigitValue(Decimal(n)[0]).value < 10
    ensures Decimal(n)[0] == '0' <==> n == 0
    ensures n == 0 ==> Decimal(n) == "0"
  {
    if n >= 10 { FirstDigit(n / 10); }
  }

  /** fmt's %02x. */
  function Hex2(b: Byte): (s: string)
    ensures |s| == 2
  {
    [Digit(b / 16), Digit(b % 16)]
  }

  lemma Hex2Reads(b: Byte)
    ensures Number(Hex2(b), 16) == Some(b as nat) && ParseByte("0x" + Hex2(b)) == Some(b)
  {
    var n: nat := b;
    var s := Hex2(b);
    DigitReads(n / 16);
    DigitReads(n % 16);
    assert s[..1][..0] == "" && s[..1][0] == Digit(n / 16);
    assert Number(s[..1], 16) == Some(n / 16);
    assert ("0x" + s)[2..] == s;
  }

  // ---- node keys ------------------------------------------------------------------------------

  function Hex(b: Bytes): (s: string)
    ensures |s| == 2 * |b|
  {
    if b == [] then "" else Hex2(b[0]) + Hex(b[1..])
  }

  function Unhex(s: string): Option<Bytes> {
    if s == "" then Some([])
    else if |s| < 2 then None
    else
      var n, rest := Number(s[..2], 16), Unhex(s[2..]);
      if n.Some? && n.value < 256 && rest.Some? then Some([n.value as Byte] + rest.value) else None
  }

  lemma {:induction false} UnhexUndoes(b: Bytes)
    ensures Unhex(Hex(b)) == Some(b)
  {
    if b != [] {
      var s := Hex(b);
      Hex2Reads(b[0]);
      UnhexUndoes(b[1..]);
      assert s[..2] == Hex2(b[0]) && s[2..] == Hex(b[1..]);
      assert [b[0]] + b[1..] == b;
    }
  }

  /** NodePublic.String. */
  function KeyText(k: Bytes): string {
    KEY_PREFIX + Hex(k)
  }

  /** A key is shown as "nodekey:" and its bytes in order, each as two lower-case hex digits, high one first. */
  lemma {:induction false} KeyIsShown(k: Bytes, i: nat)
    requires i < |k|
    ensures var text := KeyText(k); var hex := "0123456789abcdef";
      && |text| == 8 + 2 * |k| && text[..8] == "nodekey:"
      && text[8 + 2 * i] == hex[k[i] / 16] && text[9 + 2 * i] == hex[k[i] % 16]
  {
    HexAt(k, i);
  }

  lemma {:induction false} HexAt(b: Bytes, i: nat)
    requires i < |b|
    ensures Hex(b)[2 * i] == "0123456789abcdef"[b[i] / 16] && Hex(b)[2 * i + 1] == "0123456789abcdef"[b[i] % 16]
  {
    if i > 0 {
      HexAt(b[1..], i - 1);
      assert Hex(b)[2..] == Hex(b[1..]);
    }
  }

  /** NodePublic.UnmarshalText over a zero key, its error dropped. */
  function ParseKey(s: string): (k: Bytes)
    ensures |k| == KEY_LEN
  {
    var b := if KEY_PREFIX <= s then Unhex(s[|KEY_PREFIX|..]) else None;
    if b.Some? && |b.value| == KEY_LEN then b.value else seq(KEY_LEN, i => 0)
  }

  lemma ParseKeyUndoes(k: Bytes)
    requires |k| == KEY_LEN
    ensures KeyText(k) != "" && ParseKey(KeyText(k)) == k
  {
    UnhexUndoes(k);
    assert KeyText(k)[|KEY_PREFIX|..] == Hex(k);
  }

  // ---- base64 ---------------------------------------------------------------------------------

  const PAD := '='

  function Char64(n: nat): (c: char)
    requires n < 64
    ensures c != PAD
  {
    if n < 26 then 'A' + n as char
    else if n < 52 then 'a' + (n - 26) as char
    else if n < 62 then '0' + (n - 52) as char
    else if n == 62 then '+' else '/'
  }

  function Value64(c: char): (n: Option<nat>)
    ensures n.Some? ==> n.value < 64
  {
    if 'A' <= c <= 'Z' then Some((c - 'A') as nat)
    else if 'a' <= c <= 'z' then Some((c - 'a') as nat + 26)
    else if '0' <= c <= '9' then Some((c - '0') as nat + 52)
    else if c == '+' then Some(62)
    else if c == '/' then Some(63)
    else None
  }

  lemma Char64Reads(n: nat)
    requires n < 64
    ensures Value64(Char64(n)) == Some(n)
  {
  }

  function Encode64(b: Bytes): string {
    if |b| == 0 then ""
    else if |b| == 1 then [Char64(b[0] / 4), Char64(b[0] % 4 * 16), PAD, PAD]
    else if |b| == 2 then [Char64(b[0] / 4), Char64(b[0] % 4 * 16 + b[1] / 16), Char64(b[1] % 16 * 4), PAD]
    else Group64(b[0], b[1], b[2]) + Encode64(b[3..])
  }

  function Group64(b0: Byte, b1: Byte, b2: Byte): (s: string)
    ensures |s| == 4
  {
    [Char64(b0 / 4), Char64(b0 % 4 * 16 + b1 / 16), Char64(b1 % 16 * 4 + b2 / 64), Char64(b2 % 64)]
  }

  /** The alphabet of section 4 of RFC 4648. */
  const ALPHABET := "ABCDEFGHIJKLMNOPQRSTUVWXYZ" + "abcdefghijklmnopqrstuvwxyz" + "0123456789+/"

  /** Four characters are three bytes read as one 24-bit number, cut into sextets, the most significant first. */
  lemma GroupIs(b0: Byte, b1: Byte, b2: Byte, v0: nat, v1: nat, v2: nat, v3: nat)
    requires v0 < 64 && v1 < 64 && v2 < 64 && v3 < 64
    requires var d: seq<int> := [b0, b1, b2];
      v0 * 0x4_0000 + v1 * 0x1000 + v2 * 0x40 + v3 == d[0] * 0x1_0000 + d[1] * 0x100 + d[2]
    ensures Group64(b0, b1, b2) == [ALPHABET[v0], ALPHABET[v1], ALPHABET[v2], ALPHABET[v3]]
  {
    hide Char64;
    var w0: nat, w1: nat, w2: nat, w3: nat := b0 / 4, b0 % 4 * 16 + b1 / 16, b1 % 16 * 4 + b2 / 64, b2 % 64;
    LastSextet(v0 * 0x1000 + v1 * 0x40 + v2, v3, w0 * 0x1000 + w1 * 0x40 + w2, w3);
    LastSextet(v0 * 0x40 + v1, v2, w0 * 0x40 + w1, w2);
    LastSextet(v0, v1, w0, w1);
    Char64Is(v0);
    Char64Is(v1);
    Char64Is(v2);
    Char64Is(v3);
  }

  lemma LastSextet(a: nat, v: nat, b: nat, w: nat)
    requires a * 0x40 + v == b * 0x40 + w && v < 64 && w < 64
    ensures a == b && v == w
  {
  }

  lemma Char64Is(n: nat)
    requires n < 64
    ensures Char64(n) == ALPHABET[n]
  {
    if n < 26 { UpperIs(n); } else if n < 52 { LowerIs(n - 26); } else { RestIs(n - 52); }
  }

  lemma UpperIs(n: nat)
    requires n < 26
    ensures 'A' + n as char == "ABCDEFGHIJKLMNOPQRSTUVWXYZ"[n]
  {
  }

  lemma LowerIs(n: nat)
    requires n < 26
    ensures 'a' + n as char == "abcdefghijklmnopqrstuvwxyz"[n]
  {
  }

  lemma RestIs(n: nat)
    requires n < 12
    ensures Char64(n + 52) == "0123456789+/"[n]
  {
  }

  /** A text is whole groups, then at most one padded: zero bits fill its last sextet and pads its last places. */
  lemma GroupsAre(b: Bytes)
    requires b != []
    ensures Encode64(b) == (
      if |b| == 1 then Group64(b[0], 0, 0)[..2] + "=="
      else if |b| == 2 then Group64(b[0], b[1], 0)[..3] + "="
      else Group64(b[0], b[1], b[2]) + Encode64(b[3..]))
  {
  }

  /** The first n bytes that four characters carry. */
  function Ungroup64(s: string, n: nat): Option<Bytes>
    requires |s| == 4 && 1 <= n <= 3
  {
    var v0, v1 := Value64(s[0]), Value64(s[1]);
    var v2 := if n >= 2 then Value64(s[2]) else Some(0);
    var v3 := if n == 3 then Value64(s[3]) else Some(0);
    if v0.None? || v1.None? || v2.None? || v3.None? then None
    else
      var all: Bytes := [v0.value * 4 + v1.value / 16, v1.value % 16 * 16 + v2.value / 4, v2.value % 4 * 64 + v3.value];
      Some(all[..n])
  }

  /** base64.StdEncoding.DecodeString; None where it reports an error. */
  function Decode64(s: string): Option<Bytes> {
    if s == "" then Some([])
    else if |s| < 4 then None
    else if |s| == 4 && s[3] == PAD then Ungroup64(s, if s[2] == PAD then 1 else 2)
    else
      var b, rest := Ungroup64(s[..4], 3), Decode64(s[4..]);
      if b.Some? && rest.Some? then Some(b.value + rest.value) else None
  }

  lemma Sextets(b0: Byte, b1: Byte)
    ensures var n: nat := b0 % 4 * 16 + b1 / 16; n < 64 && b0 / 4 * 4 + n / 16 == b0 && n % 16 == b1 / 16
    ensures b1 / 16 * 16 + b1 % 16 * 4 / 4 == b1
  {
    var n: nat := b0 % 4 * 16 + b1 / 16;
    assert n / 16 == b0 % 4;
  }

  lemma Group64Reads(b0: Byte, b1: Byte, b2: Byte)
    ensures Ungroup64(Group64(b0, b1, b2), 3) == Some([b0, b1, b2])
  {
    hide Char64, Value64;
    Sextets(b0, b1);
    var n1: nat, n2: nat := b0 % 4 * 16 + b1 / 16, b1 % 16 * 4 + b2 / 64;
    assert n2 / 4 == b1 % 16 && n2 % 4 == b2 / 64;
    Char64Reads(b0 / 4);
    Char64Reads(n1);
    Char64Reads(n2);
    Char64Reads(b2 % 64);
    assert n1 % 16 * 16 + n2 / 4 == b1 && n2 % 4 * 64 + b2 % 64 == b2;
    var all: Bytes := [b0, b1, b2];
    assert all[..3] == all;
  }

  /** The two padded tails. */
  lemma Tail64Reads(b: Bytes)
    requires 1 <= |b| <= 2
    ensures |Encode64(b)| == 4 && Encode64(b)[3] == PAD && (Encode64(b)[2] == PAD <==> |b| == 1)
    ensures Ungroup64(Encode64(b), |b|) == Some(b)
  {
    hide Char64, Value64;
    Char64Reads(b[0] / 4);
    if |b| == 1 {
      Sextets(b[0], 0);
      Char64Reads(b[0] % 4 * 16);
      assert Ungroup64(Encode64(b), 1).value == b;
    } else {
      Sextets(b[0], b[1]);
      Char64Reads(b[0] % 4 * 16 + b[1] / 16);
      Char64Reads(b[1] % 16 * 4);
      var n2: nat := b[1] % 16 * 4;
      assert n2 / 4 == b[1] % 16;
      assert Ungroup64(Encode64(b), 2).value == b;
    }
  }

  lemma {:induction false} Decode64Undoes(b: Bytes)
    ensures Decode64(Encode64(b)) == Some(b)
  {
    hide Char64, Value64, Ungroup64;
    if 1 <= |b| <= 2 {
      Tail64Reads(b);
    } else if |b| > 2 {
      var s := Encode64(b);
      Group64Reads(b[0], b[1], b[2]);
      Decode64Undoes(b[3..]);
      assert s[..4] == Group64(b[0], b[1], b[2]) && s[4..] == Encode64(b[3..]);
      assert s[3] == Char64(b[2] % 64);
      assert b == [b[0], b[1], b[2]] + b[3..];
    }
  }
}
