/** The bilateral pairing record: canonical signed bytes, shape, role signatures and serialized size. */
module Records {
  import opened Octets
  import opened Cursors
  import opened Cryptography
  import Certificates

  const RECORD_MAGIC: Bytes := Ascii("OMARCHY-SYNC-V3-PAIRING-RECORD")
  const RECORD_SCHEMA: byte := 1
  const DOMAIN: Bytes := Ascii("omarchy-sync/pairing/v3")
  const MAX_DOMAIN_BYTES: nat := 64
  const MAX_MARKER_BYTES: nat := 128
  const MAX_RECORD_BYTES: nat := 4096
  const ROLE_INITIATOR: byte := 1
  const ROLE_RESPONDER: byte := 2

  datatype PairingRecord = PairingRecord(
    protocolVersion: byte,
    domain: Text,
    pairId: Text,
    initiatorDeviceId: Text,
    responderDeviceId: Text,
    initiatorPublicKey: Bytes32,
    responderPublicKey: Bytes32,
    initiatorCertificate: Bytes,
    responderCertificate: Bytes,
    sessionBinding: Bytes32,
    authorizingDeviceId: Text,
    userPresence: Text,
    authorizedAt: u64,
    initiatorSignature: Option<Bytes>,
    responderSignature: Option<Bytes>)
  {
    predicate IsComplete() {
      initiatorSignature.Some? && responderSignature.Some?
    }
  }

  predicate ValidateShape(r: PairingRecord) {
    && LowerHex32(r.pairId)
    && LowerHex32(r.initiatorDeviceId) && LowerHex32(r.responderDeviceId)
    && Bounded(r.domain, MAX_DOMAIN_BYTES)
    && LowerHex32(r.authorizingDeviceId)
    && Bounded(r.userPresence, MAX_MARKER_BYTES)
    && r.authorizedAt != 0
    && |r.initiatorCertificate| > 0 && |r.responderCertificate| > 0
  }

  // ---- Canonical bytes ----

  predicate Printable(r: PairingRecord) {
    && ValidateShape(r)
    && |r.initiatorCertificate| <= Certificates.MAX_CERTIFICATE_BYTES
    && |r.responderCertificate| <= Certificates.MAX_CERTIFICATE_BYTES
  }

  function AuthorizationLayout(r: PairingRecord): (b: Bytes)
    requires Printable(r)
    ensures |b| <= 202
  {
    r.sessionBinding + (r.authorizingDeviceId + (Field(r.userPresence) + BE64(r.authorizedAt)))
  }

  function IdentityLayout(r: PairingRecord, tail: Bytes): (b: Bytes)
    requires Printable(r)
    ensures |b| <= 1156 + |tail|
  {
    r.initiatorDeviceId + (r.responderDeviceId + (r.initiatorPublicKey + (r.responderPublicKey
    + (Field(r.initiatorCertificate) + (Field(r.responderCertificate) + tail)))))
  }

  function HeaderLayout(r: PairingRecord, tail: Bytes): (b: Bytes)
    requires Printable(r)
    ensures |b| <= 132 + |tail|
  {
    RECORD_MAGIC + ([RECORD_SCHEMA] + ([r.protocolVersion] + (Field(r.domain) + (Field(r.pairId) + tail))))
  }

  function Layout(r: PairingRecord): (b: Bytes)
    requires Printable(r)
    ensures |b| <= MAX_RECORD_BYTES
  {
    HeaderLayout(r, IdentityLayout(r, AuthorizationLayout(r)))
  }

  function SigningBytes(r: PairingRecord): (b: Result<Bytes>) {
    if Printable(r) then Ok(Layout(r)) else Err
  }

  /** The record with both signatures removed. */
  function Unsigned(r: PairingRecord): PairingRecord {
    r.(initiatorSignature := None, responderSignature := None)
  }

  /** Equal canonical bytes determine every field except the signatures. */
  lemma SigningBytesDetermineRecord(a: PairingRecord, b: PairingRecord)
    requires SigningBytes(a).Ok? && SigningBytes(a) == SigningBytes(b)
    ensures Unsigned(a) == Unsigned(b)
  {
    var ta, tb := IdentityLayout(a, AuthorizationLayout(a)), IdentityLayout(b, AuthorizationLayout(b));
    PeelHeader(a, ta, b, tb);
    PeelIdentity(a, AuthorizationLayout(a), b, AuthorizationLayout(b));
    PeelAuthorization(a, b);
  }

  lemma PeelHeader(a: PairingRecord, x: Bytes, b: PairingRecord, y: Bytes)
    requires Printable(a) && Printable(b) && HeaderLayout(a, x) == HeaderLayout(b, y)
    ensures a.protocolVersion == b.protocolVersion && a.domain == b.domain && a.pairId == b.pairId && x == y
  {
    var a1, b1 := Field(a.pairId) + x, Field(b.pairId) + y;
    var a2, b2 := Field(a.domain) + a1, Field(b.domain) + b1;
    var a3, b3 := [a.protocolVersion] + a2, [b.protocolVersion] + b2;
    PeelFixed(RECORD_MAGIC, [RECORD_SCHEMA] + a3, RECORD_MAGIC, [RECORD_SCHEMA] + b3);
    PeelFixed([RECORD_SCHEMA], a3, [RECORD_SCHEMA], b3);
    PeelFixed([a.protocolVersion], a2, [b.protocolVersion], b2);
    PeelField(a.domain, a1, b.domain, b1);
    PeelField(a.pairId, x, b.pairId, y);
  }

  lemma PeelIdentity(a: PairingRecord, x: Bytes, b: PairingRecord, y: Bytes)
    requires Printable(a) && Printable(b) && IdentityLayout(a, x) == IdentityLayout(b, y)
    ensures a.initiatorDeviceId == b.initiatorDeviceId && a.responderDeviceId == b.responderDeviceId
    ensures a.initiatorPublicKey == b.initiatorPublicKey && a.responderPublicKey == b.responderPublicKey
    ensures a.initiatorCertificate == b.initiatorCertificate && a.responderCertificate == b.responderCertificate
    ensures x == y
  {
    var a5, b5 := Field(a.responderCertificate) + x, Field(b.responderCertificate) + y;
    var a4, b4 := Field(a.initiatorCertificate) + a5, Field(b.initiatorCertificate) + b5;
    var a3, b3 := a.responderPublicKey + a4, b.responderPublicKey + b4;
    var a2, b2 := a.initiatorPublicKey + a3, b.initiatorPublicKey + b3;
    var a1, b1 := a.responderDeviceId + a2, b.responderDeviceId + b2;
    PeelFixed(a.initiatorDeviceId, a1, b.initiatorDeviceId, b1);
    PeelFixed(a.responderDeviceId, a2, b.responderDeviceId, b2);
    PeelFixed(a.initiatorPublicKey, a3, b.initiatorPublicKey, b3);
    PeelFixed(a.responderPublicKey, a4, b.responderPublicKey, b4);
    PeelField(a.initiatorCertificate, a5, b.initiatorCertificate, b5);
    PeelField(a.responderCertificate, x, b.responderCertificate, y);
  }

  lemma PeelAuthorization(a: PairingRecord, b: PairingRecord)
    requires Printable(a) && Printable(b) && AuthorizationLayout(a) == AuthorizationLayout(b)
    ensures a.sessionBinding == b.sessionBinding && a.authorizingDeviceId == b.authorizingDeviceId
    ensures a.userPresence == b.userPresence && a.authorizedAt == b.authorizedAt
  {
    var a2, b2 := Field(a.userPresence) + BE64(a.authorizedAt), Field(b.userPresence) + BE64(b.authorizedAt);
    PeelFixed(a.sessionBinding, a.authorizingDeviceId + a2, b.sessionBinding, b.authorizingDeviceId + b2);
    PeelFixed(a.authorizingDeviceId, a2, b.authorizingDeviceId, b2);
    PeelField(a.userPresence, BE64(a.authorizedAt), b.userPresence, BE64(b.authorizedAt));
    BE64Inverse(a.authorizedAt);
    BE64Inverse(b.authorizedAt);
  }

  /** The printer appends to one buffer; a failed field check abandons it. */
  method PrintSigningBytes(r: PairingRecord) returns (out: Result<Bytes>)
    ensures out == SigningBytes(r)
  {
    if !ValidateShape(r) {
      return Err;
    }
    if |r.initiatorCertificate| > 512 || |r.responderCertificate| > 512 {
      return Err;
    }
    ghost var tail := IdentityLayout(r, AuthorizationLayout(r));
    var buffer := new ByteBuffer();
    PrintHeader(r, buffer, tail);
    PrintIdentity(r, buffer, AuthorizationLayout(r));
    PrintAuthorization(r, buffer);
    assert [] + Layout(r) == Layout(r);
    return if |buffer.out| > MAX_RECORD_BYTES then Err else Ok(buffer.out);
  }

  method PrintHeader(r: PairingRecord, buffer: ByteBuffer, ghost tail: Bytes)
    requires Printable(r)
    modifies buffer
    ensures buffer.out + tail == old(buffer.out) + HeaderLayout(r, tail)
  {
    ghost var s2 := Field(r.pairId) + tail;
    ghost var s1 := Field(r.domain) + s2;
    buffer.Extend(RECORD_MAGIC, [RECORD_SCHEMA] + ([r.protocolVersion] + s1));
    buffer.Push(RECORD_SCHEMA, [r.protocolVersion] + s1);
    buffer.Push(r.protocolVersion, s1);
    var d := buffer.PutBytes(r.domain, MAX_DOMAIN_BYTES, s2);
    var p := buffer.PutBytes(r.pairId, 32, tail);
  }

  method PrintIdentity(r: PairingRecord, buffer: ByteBuffer, ghost tail: Bytes)
    requires Printable(r)
    modifies buffer
    ensures buffer.out + tail == old(buffer.out) + IdentityLayout(r, tail)
  {
    ghost var s5 := Field(r.responderCertificate) + tail;
    ghost var s4 := Field(r.initiatorCertificate) + s5;
    ghost var s3 := r.responderPublicKey + s4;
    ghost var s2 := r.initiatorPublicKey + s3;
    buffer.Extend(r.initiatorDeviceId, r.responderDeviceId + s2);
    buffer.Extend(r.responderDeviceId, s2);
    buffer.Extend(r.initiatorPublicKey, s3);
    buffer.Extend(r.responderPublicKey, s4);
    var i := buffer.PutBytes(r.initiatorCertificate, 512, s5);
    var p := buffer.PutBytes(r.responderCertificate, 512, tail);
  }

  method PrintAuthorization(r: PairingRecord, buffer: ByteBuffer)
    requires Printable(r)
    modifies buffer
    ensures buffer.out == old(buffer.out) + AuthorizationLayout(r)
  {
    ghost var s2 := Field(r.userPresence) + BE64(r.authorizedAt);
    buffer.Extend(r.sessionBinding, r.authorizingDeviceId + s2);
    buffer.Extend(r.authorizingDeviceId, s2);
    var m := buffer.PutBytes(r.userPresence, MAX_MARKER_BYTES, BE64(r.authorizedAt));
    buffer.Extend(BE64(r.authorizedAt), []);
  }

  // ---- Role signatures ----

  function RoleKey(r: PairingRecord, role: byte): Bytes32 {
    if role == ROLE_INITIATOR then r.initiatorPublicKey else r.responderPublicKey
  }

  function SignatureFor(r: PairingRecord, role: byte): Option<Bytes> {
    if role == ROLE_INITIATOR then r.initiatorSignature else r.responderSignature
  }

  function SetSignature(r: PairingRecord, role: byte, signature: Bytes64): PairingRecord {
    if role == ROLE_INITIATOR then r.(initiatorSignature := Some(signature))
    else r.(responderSignature := Some(signature))
  }

  /** The message an identity signs in a role: the canonical bytes, then the role. */
  function RoleMessage(r: PairingRecord, role: byte): Result<Bytes> {
    var body :- SigningBytes(r);
    Ok(body + [role])
  }

  function SignRecord(cr: Crypto, identity: DeviceIdentity, r: PairingRecord, role: byte): Result<Bytes64> {
    var message :- RoleMessage(r, role);
    Ok(identity.Sign(cr, message))
  }

  predicate VerifyRecordSignature(cr: Crypto, r: PairingRecord, role: byte, signature: Bytes) {
    && |signature| == 64
    && (role == ROLE_INITIATOR || role == ROLE_RESPONDER)
    && RoleMessage(r, role).Ok?
    && cr.verify(RoleKey(r, role), RoleMessage(r, role).value, signature)
  }

  predicate PresentSignaturesValid(cr: Crypto, r: PairingRecord) {
    && (r.initiatorSignature.Some? ==> VerifyRecordSignature(cr, r, ROLE_INITIATOR, r.initiatorSignature.value))
    && (r.responderSignature.Some? ==> VerifyRecordSignature(cr, r, ROLE_RESPONDER, r.responderSignature.value))
  }

  /** `ensure_same_binding`. */
  predicate EnsureSameBinding(older: PairingRecord, newer: PairingRecord) {
    && older.pairId == newer.pairId
    && older.initiatorDeviceId == newer.initiatorDeviceId
    && older.responderDeviceId == newer.responderDeviceId
    && older.sessionBinding == newer.sessionBinding
    && SigningBytes(older).Ok? && SigningBytes(newer).Ok?
    && SigningBytes(older) == SigningBytes(newer)
  }

  /** The comparison is exactly equality up to signatures, on records that can be signed at all. */
  lemma SameBindingIsEqualityModuloSignatures(a: PairingRecord, b: PairingRecord)
    requires Printable(a) && Printable(b)
    ensures EnsureSameBinding(a, b) <==> Unsigned(a) == Unsigned(b)
  {
    if EnsureSameBinding(a, b) {
      SigningBytesDetermineRecord(a, b);
    }
    if Unsigned(a) == Unsigned(b) {
      assert SigningBytes(a) == SigningBytes(Unsigned(a)) && SigningBytes(b) == SigningBytes(Unsigned(b));
    }
  }

  /** A signature in one role is never a signature in the other, and it fixes the record it was made for. */
  lemma RoleMessagesDisjoint(a: PairingRecord, roleA: byte, b: PairingRecord, roleB: byte)
    requires RoleMessage(a, roleA).Ok? && RoleMessage(a, roleA) == RoleMessage(b, roleB)
    ensures roleA == roleB && Unsigned(a) == Unsigned(b)
  {
    var la, lb := Layout(a), Layout(b);
    assert (la + [roleA])[|la|] == roleA && (lb + [roleB])[|lb|] == roleB;
    assert |la| == |lb|;
    PeelFixed(la, [roleA], lb, [roleB]);
    SigningBytesDetermineRecord(a, b);
  }

  // ---- Serialized size ----

  /** Decimal digits of a natural number. */
  function Digits(n: nat): nat {
    if n < 10 then 1 else 1 + Digits(n / 10)
  }

  /** Octets serde_json spends on one octet of a string. */
  function Escaped(b: byte): nat {
    if b == 34 || b == 92 then 2
    else if b == 8 || b == 9 || b == 10 || b == 12 || b == 13 then 2
    else if b < 32 then 6
    else 1
  }

  function EscapedSize(b: Bytes): nat {
    if |b| == 0 then 0 else Escaped(b[0]) + EscapedSize(b[1..])
  }

  function StringSize(b: Bytes): nat {
    2 + EscapedSize(b)
  }

  function NumbersSize(b: Bytes): nat {
    if |b| == 0 then 0 else Digits(b[0]) + 1 + NumbersSize(b[1..])
  }

  /** An octet array is printed as a JSON array of numbers. */
  function ArraySize(b: Bytes): nat {
    if |b| == 0 then 2 else 1 + NumbersSize(b)
  }

  function OptionalSize(s: Option<Bytes>): nat {
    match s
    case None => 4
    case Some(b) => ArraySize(b)
  }

  /** Fifteen field names (249 octets) with quotes and colon each, fourteen commas and two braces. */
  const JSON_FRAME: nat := 249 + 15 * 3 + 14 + 2

  const FIELD_COUNT: nat := 15

  /** Octets of the i-th serialized value, in declaration order. */
  function ValueSize(r: PairingRecord, i: nat): nat {
    match i
    case 0 => Digits(r.protocolVersion)
    case 1 => StringSize(r.domain)
    case 2 => StringSize(r.pairId)
    case 3 => StringSize(r.initiatorDeviceId)
    case 4 => StringSize(r.responderDeviceId)
    case 5 => ArraySize(r.initiatorPublicKey)
    case 6 => ArraySize(r.responderPublicKey)
    case 7 => ArraySize(r.initiatorCertificate)
    case 8 => ArraySize(r.responderCertificate)
    case 9 => ArraySize(r.sessionBinding)
    case 10 => StringSize(r.authorizingDeviceId)
    case 11 => StringSize(r.userPresence)
    case 12 => Digits(r.authorizedAt)
    case 13 => OptionalSize(r.initiatorSignature)
    case 14 => OptionalSize(r.responderSignature)
    case _ => 0
  }

  function SizeOfFirst(r: PairingRecord, n: nat): nat {
    if n == 0 then JSON_FRAME else SizeOfFirst(r, n - 1) + ValueSize(r, n - 1)
  }

  /** Octets in the record's JSON serialization. */
  function RecordSize(r: PairingRecord): nat {
    SizeOfFirst(r, FIELD_COUNT)
  }

  /** `to_bytes` and `from_bytes` refuse anything longer. */
  predicate Fits(r: PairingRecord) {
    RecordSize(r) <= MAX_RECORD_BYTES
  }

  lemma OctetDigits(b: byte)
    ensures Digits(b) <= 3
  {
    assert Pow10(3) == 1000;
    DigitsBound(b, 3);
  }

  lemma TimestampDigits(n: u64)
    ensures Digits(n) <= 20
  {
    assert Pow10(5) == 100_000;
    assert Pow10(10) == 10_000_000_000;
    assert Pow10(15) == 1_000_000_000_000_000;
    assert Pow10(20) == 100_000_000_000_000_000_000;
    DigitsBound(n, 20);
  }

  lemma {:induction false} NumbersSizeBound(b: Bytes)
    ensures NumbersSize(b) <= 4 * |b|
  {
    if |b| > 0 {
      OctetDigits(b[0]);
      NumbersSizeBound(b[1..]);
    }
  }

  lemma {:induction false} EscapedSizeBound(b: Bytes, each: nat)
    requires forall i :: 0 <= i < |b| ==> Escaped(b[i]) <= each
    ensures EscapedSize(b) <= each * |b|
  {
    if |b| > 0 {
      EscapedSizeBound(b[1..], each);
    }
  }

  lemma HexStringSize(b: Bytes)
    requires LowerHex32(b)
    ensures StringSize(b) <= 34
  {
    EscapedSizeBound(b, 1);
  }

  lemma {:induction false} DigitsBound(n: nat, k: nat)
    requires n < Pow10(k) && k >= 1
    ensures Digits(n) <= k
  {
    if n >= 10 {
      DigitsBound(n / 10, k - 1);
    }
  }

  function Pow10(k: nat): nat {
    if k == 0 then 1 else 10 * Pow10(k - 1)
  }

  /** No control characters: at most two octets per marker octet. */
  predicate PlainMarker(marker: Bytes) {
    forall i :: 0 <= i < |marker| ==> marker[i] >= 32
  }

  /** What each value takes at most, in a record with plain text and serialized certificates. */
  function ValueBound(i: nat): nat {
    match i
    case 0 => 3
    case 1 => 25
    case 5 => 130
    case 6 => 130
    case 7 => 2 + 4 * Certificates.LONGEST_CERTIFICATE
    case 8 => 2 + 4 * Certificates.LONGEST_CERTIFICATE
    case 9 => 130
    case 11 => 258
    case 12 => 20
    case 13 => 258
    case 14 => 258
    case _ => 34
  }

  function BoundOfFirst(n: nat): nat {
    if n == 0 then JSON_FRAME else BoundOfFirst(n - 1) + ValueBound(n - 1)
  }

  lemma {:induction false} SizeWithinBounds(r: PairingRecord, n: nat)
    requires forall i: nat :: i < n ==> ValueSize(r, i) <= ValueBound(i)
    ensures SizeOfFirst(r, n) <= BoundOfFirst(n)
  {
    if n > 0 {
      SizeWithinBounds(r, n - 1);
    }
  }

  /** Sixty-four octet signatures, text without control characters, the protocol's domain. */
  predicate Plain(r: PairingRecord) {
    && ValidateShape(r) && r.domain == DOMAIN && PlainMarker(r.userPresence)
    && |r.initiatorCertificate| <= Certificates.LONGEST_CERTIFICATE
    && |r.responderCertificate| <= Certificates.LONGEST_CERTIFICATE
    && (r.initiatorSignature.Some? ==> |r.initiatorSignature.value| == 64)
    && (r.responderSignature.Some? ==> |r.responderSignature.value| == 64)
  }

  /** Every plain record serializes within the limit. */
  lemma PlainRecordFits(r: PairingRecord)
    requires Plain(r)
    ensures Fits(r)
  {
    forall i: nat | i < FIELD_COUNT
      ensures ValueSize(r, i) <= ValueBound(i)
    {
      if i == 0 {
        OctetDigits(r.protocolVersion);
      } else if i == 12 {
        TimestampDigits(r.authorizedAt);
      } else if i in {1, 2, 3, 4, 10, 11} {
        TextSizeBounds(r);
      } else {
        ArraySizeBounds(r);
      }
    }
    SizeWithinBounds(r, FIELD_COUNT);
    assert BoundOfFirst(5) == JSON_FRAME + 130;
    assert BoundOfFirst(10) == BoundOfFirst(5) + 2730;
    assert BoundOfFirst(15) == BoundOfFirst(10) + 828;
  }

  lemma TextSizeBounds(r: PairingRecord)
    requires Plain(r)
    ensures forall i: nat :: i in {1, 2, 3, 4, 10, 11} ==> ValueSize(r, i) <= ValueBound(i)
  {
    HexStringSize(r.pairId);
    HexStringSize(r.initiatorDeviceId);
    HexStringSize(r.responderDeviceId);
    HexStringSize(r.authorizingDeviceId);
    DomainIsPlain();
    EscapedSizeBound(DOMAIN, 1);
    EscapedSizeBound(r.userPresence, 2);
  }

  lemma DomainIsPlain()
    ensures |DOMAIN| == 23
    ensures forall i :: 0 <= i < |DOMAIN| ==> 45 <= DOMAIN[i] <= 121 && DOMAIN[i] != 92
  {
    var text := "omarchy-sync/pairing/v3";
    forall i | 0 <= i < |text|
      ensures 45 <= text[i] as int <= 121 && text[i] as int != 92
    {
    }
  }

  lemma ArraySizeBounds(r: PairingRecord)
    requires Plain(r)
    ensures forall i: nat :: i in {5, 6, 7, 8, 9, 13, 14} ==> ValueSize(r, i) <= ValueBound(i)
  {
    NumbersSizeBound(r.initiatorPublicKey);
    NumbersSizeBound(r.responderPublicKey);
    NumbersSizeBound(r.sessionBinding);
    NumbersSizeBound(r.initiatorCertificate);
    NumbersSizeBound(r.responderCertificate);
    if r.initiatorSignature.Some? {
      NumbersSizeBound(r.initiatorSignature.value);
    }
    if r.responderSignature.Some? {
      NumbersSizeBound(r.responderSignature.value);
    }
  }
}
