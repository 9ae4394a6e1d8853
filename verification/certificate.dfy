/** Device certificates: canonical bytes, the cursor parser, and verification against the pinned root. */
module Certificates {
  import opened Octets
  import opened Cursors
  import opened Cryptography

  const PROTOCOL_VERSION: byte := 3
  const MAX_CERTIFICATE_BYTES: nat := 512
  const MAX_DEVICE_NAME_BYTES: nat := 64
  const MAX_ISSUER_KEY_ID_BYTES: nat := 64
  const CERT_MAGIC: Bytes := Ascii("OMARCHY-CERT-V3")
  const CERT_SCHEMA: byte := 1

  /** Longest serialization of a shape-valid certificate. */
  const LONGEST_CERTIFICATE: nat := 292

  datatype DeviceCertificate = DeviceCertificate(
    deviceId: Text,
    publicKey: Bytes32,
    deviceName: Text,
    notBefore: u64,
    notAfter: u64,
    issuerKeyId: Text,
    signature: Bytes64)

  datatype PinnedRoot = PinnedRoot(publicKey: Bytes32, keyId: Bytes)

  predicate IssuerCharacter(c: byte) {
    48 <= c <= 57 || 65 <= c <= 90 || 97 <= c <= 122 || c == 45 || c == 95
  }

  predicate ShapeValid(c: DeviceCertificate) {
    && LowerHex32(c.deviceId)
    && Bounded(c.deviceName, MAX_DEVICE_NAME_BYTES)
    && c.notBefore < c.notAfter
    && Bounded(c.issuerKeyId, MAX_ISSUER_KEY_ID_BYTES)
    && forall i :: 0 <= i < |c.issuerKeyId| ==> IssuerCharacter(c.issuerKeyId[i])
  }

  /** Magic, schema and the subject's identity, with whatever follows. */
  function SubjectLayout(deviceId: Bytes, publicKey: Bytes32, tail: Bytes): Bytes {
    CERT_MAGIC + ([CERT_SCHEMA] + (deviceId + (publicKey + tail)))
  }

  /** The certified terms, with whatever follows. */
  function TermsLayout(name: Bytes, notBefore: u64, notAfter: u64, issuer: Bytes, tail: Bytes): Bytes
    requires Bounded(name, MAX_DEVICE_NAME_BYTES) && Bounded(issuer, MAX_ISSUER_KEY_ID_BYTES)
  {
    Field(name) + (BE64(notBefore) + (BE64(notAfter) + (Field(issuer) + tail)))
  }

  /** The certificate's canonical layout with whatever follows it. */
  function Layout(c: DeviceCertificate, tail: Bytes): (b: Bytes)
    requires ShapeValid(c)
    ensures |b| == 100 + |c.deviceName| + |c.issuerKeyId| + |tail|
  {
    SubjectLayout(c.deviceId, c.publicKey,
                  TermsLayout(c.deviceName, c.notBefore, c.notAfter, c.issuerKeyId, tail))
  }

  lemma LayoutAppend(c: DeviceCertificate, tail: Bytes, more: Bytes)
    requires ShapeValid(c)
    ensures Layout(c, tail) + more == Layout(c, tail + more)
  {
  }

  function SigningBytes(c: DeviceCertificate): (r: Result<Bytes>) {
    if ShapeValid(c) then Ok(Layout(c, [])) else Err
  }

  function ToBytes(c: DeviceCertificate): (r: Result<Bytes>)
    ensures r.Ok? <==> ShapeValid(c)
    ensures r.Ok? ==> 1 <= |r.value| <= LONGEST_CERTIFICATE
  {
    if ShapeValid(c) then
      var out := Layout(c, c.signature);
      if |out| > MAX_CERTIFICATE_BYTES then Err else Ok(out)
    else Err
  }

  datatype Subject = Subject(deviceId: Text, publicKey: Bytes32)
  datatype Terms = Terms(deviceName: Text, notBefore: u64, notAfter: u64, issuerKeyId: Text)

  function SplitSubject(b: Bytes): (r: Result<(Subject, Bytes)>)
    ensures r.Ok? ==> SubjectLayout(r.value.0.deviceId, r.value.0.publicKey, r.value.1) == b
  {
    var (magic, b1) :- Split(b, |CERT_MAGIC|);
    if magic != CERT_MAGIC then Err
    else
      var (schema, b2) :- Split(b1, 1);
      if schema[0] != CERT_SCHEMA then Err
      else
        var (deviceId, b3) :- Split(b2, 32);
        if !Utf8(deviceId) then Err
        else
          var (publicKey, b4) :- Split(b3, 32);
          Ok((Subject(deviceId, publicKey), b4))
  }

  function SplitTerms(b: Bytes): (r: Result<(Terms, Bytes)>)
    ensures r.Ok? ==>
              var t := r.value.0;
              && Bounded(t.deviceName, MAX_DEVICE_NAME_BYTES)
              && Bounded(t.issuerKeyId, MAX_ISSUER_KEY_ID_BYTES)
              && TermsLayout(t.deviceName, t.notBefore, t.notAfter, t.issuerKeyId, r.value.1) == b
  {
    var (deviceName, b1) :- SplitField(b, MAX_DEVICE_NAME_BYTES);
    if !Utf8(deviceName) then Err
    else
      var (notBefore, b2) :- SplitU64(b1);
      var (notAfter, b3) :- SplitU64(b2);
      var (issuerKeyId, b4) :- SplitField(b3, MAX_ISSUER_KEY_ID_BYTES);
      if !Utf8(issuerKeyId) then Err
      else Ok((Terms(deviceName, notBefore, notAfter, issuerKeyId), b4))
  }

  function FromBytes(b: Bytes): (r: Result<DeviceCertificate>)
    ensures r.Ok? ==> ShapeValid(r.value)
  {
    if |b| > MAX_CERTIFICATE_BYTES then Err
    else
      var (subject, b1) :- SplitSubject(b);
      var (terms, b2) :- SplitTerms(b1);
      var (signature, b3) :- Split(b2, 64);
      var c := DeviceCertificate(subject.deviceId, subject.publicKey, terms.deviceName,
                                 terms.notBefore, terms.notAfter, terms.issuerKeyId, signature);
      if b3 == [] && ShapeValid(c) then Ok(c) else Err
  }

  // ---- Exact inverses ----

  lemma SplitSubjectPrinted(deviceId: Text, publicKey: Bytes32, tail: Bytes)
    requires |deviceId| == 32
    ensures SplitSubject(SubjectLayout(deviceId, publicKey, tail)) == Ok((Subject(deviceId, publicKey), tail))
  {
    SplitPrinted(CERT_MAGIC, [CERT_SCHEMA] + (deviceId + (publicKey + tail)));
    SplitPrinted([CERT_SCHEMA], deviceId + (publicKey + tail));
    SplitPrinted(deviceId, publicKey + tail);
    SplitPrinted(publicKey, tail);
  }

  lemma SplitTermsPrinted(t: Terms, tail: Bytes)
    requires Bounded(t.deviceName, MAX_DEVICE_NAME_BYTES) && Bounded(t.issuerKeyId, MAX_ISSUER_KEY_ID_BYTES)
    ensures SplitTerms(TermsLayout(t.deviceName, t.notBefore, t.notAfter, t.issuerKeyId, tail)) == Ok((t, tail))
  {
    var s3 := Field(t.issuerKeyId) + tail;
    var s2 := BE64(t.notAfter) + s3;
    var s1 := BE64(t.notBefore) + s2;
    SplitFieldPrinted(t.deviceName, s1, MAX_DEVICE_NAME_BYTES);
    SplitU64Printed(t.notBefore, s2);
    SplitU64Printed(t.notAfter, s3);
    SplitFieldPrinted(t.issuerKeyId, tail, MAX_ISSUER_KEY_ID_BYTES);
  }

  lemma ParsePrinted(c: DeviceCertificate)
    requires ShapeValid(c)
    ensures FromBytes(ToBytes(c).value) == Ok(c)
  {
    var terms := Terms(c.deviceName, c.notBefore, c.notAfter, c.issuerKeyId);
    SplitSubjectPrinted(c.deviceId, c.publicKey,
                        TermsLayout(c.deviceName, c.notBefore, c.notAfter, c.issuerKeyId, c.signature));
    SplitTermsPrinted(terms, c.signature);
    SplitPrinted(c.signature, []);
    assert c.signature + [] == c.signature;
  }

  lemma PrintParsed(b: Bytes)
    requires FromBytes(b).Ok?
    ensures ToBytes(FromBytes(b).value) == Ok(b)
  {
    var (subject, b1) := SplitSubject(b).value;
    var (terms, b2) := SplitTerms(b1).value;
    var (signature, b3) := Split(b2, 64).value;
    assert signature + [] == signature;
  }

  /** Equal serializations come from equal certificates. */
  lemma PrintInjective(c: DeviceCertificate, d: DeviceCertificate)
    requires ToBytes(c).Ok? && ToBytes(c) == ToBytes(d)
    ensures c == d
  {
    ParsePrinted(c);
    ParsePrinted(d);
  }

  // ---- Verification ----

  /** Everything `verify` checks except the validity window. */
  predicate RootCertified(cr: Crypto, c: DeviceCertificate, root: PinnedRoot) {
    && ShapeValid(c)
    && cr.verify(root.publicKey, Layout(c, []), c.signature)
    && c.issuerKeyId == root.keyId
    && c.deviceId == DeviceIdOf(cr, c.publicKey)
  }

  predicate InWindow(c: DeviceCertificate, now: u64) {
    c.notBefore <= now < c.notAfter
  }

  predicate Verify(cr: Crypto, c: DeviceCertificate, root: PinnedRoot, now: u64) {
    RootCertified(cr, c, root) && InWindow(c, now)
  }

  // ---- The mutable printer and parser ----

  method PrintSigningBytes(c: DeviceCertificate) returns (r: Result<Bytes>)
    ensures r == SigningBytes(c)
  {
    if !ShapeValid(c) {
      return Err;
    }
    ghost var s4 := Field(c.issuerKeyId) + [];
    ghost var s3 := BE64(c.notAfter) + s4;
    ghost var s2 := BE64(c.notBefore) + s3;
    ghost var s1 := Field(c.deviceName) + s2;
    var buffer := new ByteBuffer();
    buffer.Extend(CERT_MAGIC, [CERT_SCHEMA] + (c.deviceId + (c.publicKey + s1)));
    buffer.Push(CERT_SCHEMA, c.deviceId + (c.publicKey + s1));
    buffer.Extend(c.deviceId, c.publicKey + s1);
    buffer.Extend(c.publicKey, s1);
    var named := buffer.PutBytes(c.deviceName, MAX_DEVICE_NAME_BYTES, s2);
    buffer.Extend(BE64(c.notBefore), s3);
    buffer.Extend(BE64(c.notAfter), s4);
    var issued := buffer.PutBytes(c.issuerKeyId, MAX_ISSUER_KEY_ID_BYTES, []);
    assert [] + Layout(c, []) == Layout(c, []) && buffer.out + [] == buffer.out;
    return Ok(buffer.out);
  }

  method PrintCertificate(c: DeviceCertificate) returns (r: Result<Bytes>)
    ensures r == ToBytes(c)
  {
    var out := PrintSigningBytes(c);
    if out.Err? {
      return Err;
    }
    LayoutAppend(c, [], c.signature);
    assert [] + c.signature == c.signature;
    var bytes := out.value + c.signature;
    return if |bytes| > MAX_CERTIFICATE_BYTES then Err else Ok(bytes);
  }

  method ParseSubject(c: Cursor) returns (r: Result<Subject>)
    requires c.Valid()
    modifies c
    ensures c.Valid()
    ensures match SplitSubject(old(c.Rest()))
            case Ok(split) => r == Ok(split.0) && c.Rest() == split.1
            case Err => r.Err?
  {
    var magic :- c.Take(|CERT_MAGIC|);
    if magic != CERT_MAGIC {
      return Err;
    }
    var schema :- c.U8();
    if schema != CERT_SCHEMA {
      return Err;
    }
    var deviceId :- c.Take(32);
    if !Utf8(deviceId) {
      return Err;
    }
    var publicKey :- c.Take(32);
    return Ok(Subject(deviceId, publicKey));
  }

  method ParseTerms(c: Cursor) returns (r: Result<Terms>)
    requires c.Valid()
    modifies c
    ensures c.Valid()
    ensures match SplitTerms(old(c.Rest()))
            case Ok(split) => r == Ok(split.0) && c.Rest() == split.1
            case Err => r.Err?
  {
    var deviceName :- c.Bytes(MAX_DEVICE_NAME_BYTES);
    if !Utf8(deviceName) {
      return Err;
    }
    var notBefore :- c.U64();
    var notAfter :- c.U64();
    var issuerKeyId :- c.Bytes(MAX_ISSUER_KEY_ID_BYTES);
    if !Utf8(issuerKeyId) {
      return Err;
    }
    return Ok(Terms(deviceName, notBefore, notAfter, issuerKeyId));
  }

  method ParseCertificate(b: Bytes) returns (r: Result<DeviceCertificate>)
    ensures r == FromBytes(b)
  {
    if |b| > MAX_CERTIFICATE_BYTES {
      return Err;
    }
    var c := new Cursor(b);
    var subject :- ParseSubject(c);
    var terms :- ParseTerms(c);
    var signature :- c.Take(64);
    if c.position != |b| {
      return Err;
    }
    var cert := DeviceCertificate(subject.deviceId, subject.publicKey, terms.deviceName,
                                  terms.notBefore, terms.notAfter, terms.issuerKeyId, signature);
    return if ShapeValid(cert) then Ok(cert) else Err;
  }
}
