/** Octet sequences and the fixed-width encodings every wire format is built from. */
module Octets {

  datatype Option<+T> = None | Some(value: T)

  /** A fallible result.  The source reports errors as text; only the fact of failure is modelled. */
  datatype Result<+T> = Err | Ok(value: T) {
    predicate IsFailure() { Err? }
    function PropagateFailure<U>(): Result<U>
      requires Err?
    {
      Err
    }
    function Extract(): T
      requires Ok?
    {
      value
    }
  }

  type byte = x: int | 0 <= x < 256
  type u16 = x: int | 0 <= x < 0x1_0000
  type u64 = x: int | 0 <= x < 0x1_0000_0000_0000_0000
  type Bytes = seq<byte>
  type Bytes32 = b: Bytes | |b| == 32 witness seq(32, _ => 0)
  type Bytes64 = b: Bytes | |b| == 64 witness seq(64, _ => 0)

  const U16_MAX: nat := 0xFFFF
  const U64_MAX: nat := 0xFFFF_FFFF_FFFF_FFFF

  function SaturatingAdd(a: u64, b: u64): u64 {
    if a + b > U64_MAX then U64_MAX else a + b
  }

  function SaturatingSub(a: u64, b: u64): u64 {
    if a < b then 0 else a - b
  }

  // ---- Text ----

  /** The octets of an ASCII literal. */
  function Ascii(s: string): Bytes {
    seq(|s|, i requires 0 <= i < |s| => if s[i] as int < 128 then s[i] as int else 0)
  }

  predicate Continuation(b: byte) {
    0x80 <= b < 0xC0
  }

  /** Well-formed UTF-8 (Unicode table 3-7): exactly what a Rust `String` may hold. */
  predicate Utf8(b: Bytes) {
    if |b| == 0 then true
    else if b[0] < 0x80 then Utf8(b[1..])
    else if 0xC2 <= b[0] <= 0xDF then |b| >= 2 && Continuation(b[1]) && Utf8(b[2..])
    else if 0xE0 <= b[0] <= 0xEF then
      |b| >= 3 && Continuation(b[1]) && Continuation(b[2])
      && (b[0] == 0xE0 ==> 0xA0 <= b[1]) && (b[0] == 0xED ==> b[1] < 0xA0)
      && Utf8(b[3..])
    else if 0xF0 <= b[0] <= 0xF4 then
      |b| >= 4 && Continuation(b[1]) && Continuation(b[2]) && Continuation(b[3])
      && (b[0] == 0xF0 ==> 0x90 <= b[1]) && (b[0] == 0xF4 ==> b[1] < 0x90)
      && Utf8(b[4..])
    else false
  }

  type Text = b: Bytes | Utf8(b) witness []

  lemma {:induction false} SevenBitIsUtf8(b: Bytes)
    requires forall i :: 0 <= i < |b| ==> b[i] < 0x80
    ensures Utf8(b)
  {
    if |b| > 0 {
      SevenBitIsUtf8(b[1..]);
    }
  }

  predicate LowerHexDigit(c: byte) {
    48 <= c <= 57 || 97 <= c <= 102
  }

  /** `len() == 32`, all hex digits, none of them upper case: a DeviceID or a PairID. */
  predicate LowerHex32(b: Bytes) {
    |b| == 32 && forall i :: 0 <= i < |b| ==> LowerHexDigit(b[i])
  }

  lemma LowerHexIsUtf8(b: Bytes)
    requires LowerHex32(b)
    ensures Utf8(b)
  {
    SevenBitIsUtf8(b);
  }

  function HexDigit(n: nat): byte
    requires n < 16
  {
    if n < 10 then 48 + n else 87 + n
  }

  function Hex(b: Bytes): Bytes {
    seq(2 * |b|, i requires 0 <= i < 2 * |b| => HexDigit(if i % 2 == 0 then b[i / 2] / 16 else b[i / 2] % 16))
  }

  lemma HexDecodes(b: Bytes, c: Bytes)
    requires Hex(b) == Hex(c)
    ensures b == c
  {
    assert |Hex(b)| == 2 * |b| && |Hex(c)| == 2 * |c|;
    forall k | 0 <= k < |b|
      ensures b[k] == c[k]
    {
      assert Hex(b)[2 * k] == Hex(c)[2 * k];
      assert Hex(b)[2 * k + 1] == Hex(c)[2 * k + 1];
    }
  }

  // ---- Big-endian integers ----

  function Pow256(k: nat): nat {
    if k == 0 then 1 else 256 * Pow256(k - 1)
  }

  /** `to_be_bytes` at a width of k octets. */
  function BE(n: nat, k: nat): (b: Bytes)
    requires n < Pow256(k)
    ensures |b| == k
  {
    if k == 0 then [] else BE(n / 256, k - 1) + [n % 256]
  }

  /** `from_be_bytes`. */
  function FromBE(b: Bytes): (n: nat)
    ensures n < Pow256(|b|)
  {
    if |b| == 0 then 0 else FromBE(b[..|b| - 1]) * 256 + b[|b| - 1]
  }

  lemma {:induction false} FromBEInvertsBE(n: nat, k: nat)
    requires n < Pow256(k)
    ensures FromBE(BE(n, k)) == n
  {
    if k > 0 {
      FromBEInvertsBE(n / 256, k - 1);
      assert BE(n, k)[..k - 1] == BE(n / 256, k - 1);
    }
  }

  lemma DigitOf(high: nat, low: byte)
    ensures (high * 256 + low) / 256 == high && (high * 256 + low) % 256 == low
  {
  }

  lemma {:induction false} BEInvertsFromBE(b: Bytes)
    ensures BE(FromBE(b), |b|) == b
  {
    if |b| > 0 {
      var high, low := b[..|b| - 1], b[|b| - 1];
      BEInvertsFromBE(high);
      DigitOf(FromBE(high), low);
      assert b == high + [low];
    }
  }

  lemma Widths()
    ensures Pow256(2) == 0x1_0000
    ensures Pow256(8) == 0x1_0000_0000_0000_0000
  {
  }

  function BE16(n: u16): (b: Bytes)
    ensures |b| == 2
  {
    Widths();
    BE(n, 2)
  }

  function BE64(n: u64): (b: Bytes)
    ensures |b| == 8
  {
    Widths();
    BE(n, 8)
  }

  function FromBE16(b: Bytes): u16
    requires |b| == 2
  {
    Widths();
    FromBE(b)
  }

  function FromBE64(b: Bytes): u64
    requires |b| == 8
  {
    Widths();
    FromBE(b)
  }

  lemma BE16Inverse(n: u16)
    ensures FromBE16(BE16(n)) == n
  {
    Widths();
    FromBEInvertsBE(n, 2);
  }

  lemma BE64Inverse(n: u64)
    ensures FromBE64(BE64(n)) == n
  {
    Widths();
    FromBEInvertsBE(n, 8);
  }
}
