/** The signed handshake transcript and the authentication payloads. */
module AuthMessages {
  import opened Octets
  import opened Cursors
  import opened Cryptography
  import opened Certificates
  import opened Records
  import opened Frames

  const TRANSCRIPT_MAGIC: Bytes := Ascii("OMARCHY-SYNC-V3-PAIRING-TRANSCRIPT")
  const SIGNATURE_MAGIC: Bytes := Ascii("OMARCHY-SYNC-V3-PAIRING-SIGNATURE")
  const AUTH_MAGIC: Bytes := Ascii("OMARCHY-AUTH-V3")
  const ACK_MAGIC: Bytes := Ascii("OMARCHY-AUTH-ACK-V3")

  // ---- Transcript ----

  /** One endpoint's view of a handshake, in initiator/responder order. */
  datatype View = View(
    hash: Bytes32,
    mode: byte,
    pairId: Text,
    initiatorCertificate: DeviceCertificate,
    responderCertificate: DeviceCertificate,
    initiatorStatic: Bytes32,
    responderStatic: Bytes32)

  predicate Transcribable(v: View) {
    Bounded(v.pairId, 32) && ShapeValid(v.initiatorCertificate) && ShapeValid(v.responderCertificate)
  }

  function PartiesLayout(v: View): Bytes
    requires Transcribable(v)
  {
    v.initiatorCertificate.deviceId + (v.responderCertificate.deviceId
    + (Field(Certificates.ToBytes(v.initiatorCertificate).value)
       + (Field(Certificates.ToBytes(v.responderCertificate).value)
          + (v.initiatorStatic + v.responderStatic))))
  }

  function ChannelLayout(v: View, tail: Bytes): Bytes
    requires Transcribable(v)
  {
    TRANSCRIPT_MAGIC + ([PROTOCOL_VERSION] + ([v.mode] + (Field(v.pairId) + (Field(v.hash)
    + ([ROLE_INITIATOR] + ([ROLE_RESPONDER] + tail))))))
  }

  /** `make_transcript`. */
  function MakeTranscript(v: View): Result<Bytes> {
    if Transcribable(v) then Ok(ChannelLayout(v, PartiesLayout(v))) else Err
  }

  /**
   Equal transcripts come from equal views, although the DeviceIDs carry no length prefix:
   a certificate only serializes when its DeviceID is exactly 32 octets.
   */
  lemma TranscriptDeterminesView(v: View, w: View)
    requires MakeTranscript(v).Ok? && MakeTranscript(v) == MakeTranscript(w)
    ensures v == w
  {
    PeelChannel(v, PartiesLayout(v), w, PartiesLayout(w));
    PeelParties(v, w);
  }

  lemma PeelChannel(v: View, x: Bytes, w: View, y: Bytes)
    requires Transcribable(v) && Transcribable(w) && ChannelLayout(v, x) == ChannelLayout(w, y)
    ensures v.mode == w.mode && v.pairId == w.pairId && v.hash == w.hash && x == y
  {
    var v4, w4 := [ROLE_INITIATOR] + ([ROLE_RESPONDER] + x), [ROLE_INITIATOR] + ([ROLE_RESPONDER] + y);
    var v3, w3 := Field(v.hash) + v4, Field(w.hash) + w4;
    var v2, w2 := Field(v.pairId) + v3, Field(w.pairId) + w3;
    var v1, w1 := [v.mode] + v2, [w.mode] + w2;
    PeelFixed(TRANSCRIPT_MAGIC, [PROTOCOL_VERSION] + v1, TRANSCRIPT_MAGIC, [PROTOCOL_VERSION] + w1);
    PeelFixed([PROTOCOL_VERSION], v1, [PROTOCOL_VERSION], w1);
    PeelFixed([v.mode], v2, [w.mode], w2);
    PeelField(v.pairId, v3, w.pairId, w3);
    PeelField(v.hash, v4, w.hash, w4);
    PeelFixed([ROLE_INITIATOR], [ROLE_RESPONDER] + x, [ROLE_INITIATOR], [ROLE_RESPONDER] + y);
    PeelFixed([ROLE_RESPONDER], x, [ROLE_RESPONDER], y);
  }

  lemma PeelParties(v: View, w: View)
    requires Transcribable(v) && Transcribable(w) && PartiesLayout(v) == PartiesLayout(w)
    ensures v.initiatorCertificate == w.initiatorCertificate && v.responderCertificate == w.responderCertificate
    ensures v.initiatorStatic == w.initiatorStatic && v.responderStatic == w.responderStatic
  {
    var vi, vr := Certificates.ToBytes(v.initiatorCertificate).value, Certificates.ToBytes(v.responderCertificate).value;
    var wi, wr := Certificates.ToBytes(w.initiatorCertificate).value, Certificates.ToBytes(w.responderCertificate).value;
    var v3, w3 := Field(vr) + (v.initiatorStatic + v.responderStatic), Field(wr) + (w.initiatorStatic + w.responderStatic);
    var v2, w2 := Field(vi) + v3, Field(wi) + w3;
    PeelFixed(v.initiatorCertificate.deviceId, v.responderCertificate.deviceId + v2,
              w.initiatorCertificate.deviceId, w.responderCertificate.deviceId + w2);
    PeelFixed(v.responderCertificate.deviceId, v2, w.responderCertificate.deviceId, w2);
    PeelField(vi, v3, wi, w3);
    PeelField(vr, v.initiatorStatic + v.responderStatic, wr, w.initiatorStatic + w.responderStatic);
    PeelFixed(v.initiatorStatic, v.responderStatic, w.initiatorStatic, w.responderStatic);
    Certificates.PrintInjective(v.initiatorCertificate, w.initiatorCertificate);
    Certificates.PrintInjective(v.responderCertificate, w.responderCertificate);
  }

  method PrintTranscript(v: View) returns (r: Result<Bytes>)
    ensures r == MakeTranscript(v)
  {
    var initiator :- PrintCertificate(v.initiatorCertificate);
    var responder :- PrintCertificate(v.responderCertificate);
    ghost var parties := v.initiatorCertificate.deviceId + (v.responderCertificate.deviceId
      + (Field(initiator) + (Field(responder) + (v.initiatorStatic + v.responderStatic))));
    ghost var s3 := [ROLE_INITIATOR] + ([ROLE_RESPONDER] + parties);
    ghost var s2 := Field(v.hash) + s3;
    var buffer := new ByteBuffer();
    ghost var s1 := if Bounded(v.pairId, 32) then Field(v.pairId) + s2 else [];
    buffer.Extend(TRANSCRIPT_MAGIC, [PROTOCOL_VERSION] + ([v.mode] + s1));
    buffer.Push(PROTOCOL_VERSION, [v.mode] + s1);
    buffer.Push(v.mode, s1);
    var ok := buffer.PutBytes(v.pairId, 32, s2);
    if !ok {
      return Err;
    }
    assert [] + ChannelLayout(v, parties) == ChannelLayout(v, parties);
    ok := buffer.PutBytes(v.hash, 32, s3);
    buffer.Push(ROLE_INITIATOR, [ROLE_RESPONDER] + parties);
    buffer.Push(ROLE_RESPONDER, parties);
    PrintParties(v, initiator, responder, buffer);
    return Ok(buffer.out);
  }

  method PrintParties(v: View, initiator: Bytes, responder: Bytes, buffer: ByteBuffer)
    requires Transcribable(v) && Certificates.ToBytes(v.initiatorCertificate) == Ok(initiator)
    requires Certificates.ToBytes(v.responderCertificate) == Ok(responder)
    modifies buffer
    ensures buffer.out == old(buffer.out) + PartiesLayout(v)
  {
    ghost var s4 := v.initiatorStatic + v.responderStatic;
    ghost var s3 := Field(responder) + s4;
    ghost var s2 := Field(initiator) + s3;
    buffer.Extend(v.initiatorCertificate.deviceId, v.responderCertificate.deviceId + s2);
    buffer.Extend(v.responderCertificate.deviceId, s2);
    var i := buffer.PutBytes(initiator, MAX_CERTIFICATE_BYTES, s3);
    var r := buffer.PutBytes(responder, MAX_CERTIFICATE_BYTES, s4);
    buffer.Extend(v.initiatorStatic, v.responderStatic);
    buffer.Extend(v.responderStatic, []);
  }

  // ---- Transcript signatures ----

  /** The message an identity signs over a transcript in a role. */
  function TranscriptMessage(transcript: Bytes, role: byte): Bytes {
    SIGNATURE_MAGIC + (transcript + [role])
  }

  lemma TranscriptMessageInjective(t: Bytes, role: byte, u: Bytes, other: byte)
    requires TranscriptMessage(t, role) == TranscriptMessage(u, other)
    ensures t == u && role == other
  {
    PeelFixed(SIGNATURE_MAGIC, t + [role], SIGNATURE_MAGIC, u + [other]);
    assert (t + [role])[|t|] == role && (u + [other])[|u|] == other;
    PeelFixed(t, [role], u, [other]);
  }

  // ---- Authentication payloads ----

  datatype Auth = Auth(certificate: DeviceCertificate, publicKey: Bytes32, deviceId: Text, signature: Option<Bytes64>)

  function AuthLayout(deviceId: Bytes, publicKey: Bytes32, cert: Bytes, tail: Bytes): (b: Bytes)
    requires Bounded(cert, MAX_CERTIFICATE_BYTES)
    ensures |b| == 50 + |deviceId| + |cert| + |tail|
  {
    AUTH_MAGIC + ([PROTOCOL_VERSION] + (deviceId + (publicKey + (Field(cert) + tail))))
  }

  /** `auth_hello`. */
  function AuthHello(c: DeviceCertificate): (r: Result<Bytes>)
    ensures r.Ok? <==> ShapeValid(c)
    ensures r.Ok? ==> |r.value| <= 374
  {
    var cert :- Certificates.ToBytes(c);
    Ok(AuthLayout(c.deviceId, c.publicKey, cert, []))
  }

  /** `auth_proof`: the hello followed by the transcript signature. */
  function AuthProof(cr: Crypto, c: DeviceCertificate, identity: DeviceIdentity, transcript: Bytes, role: byte):
    (r: Result<Bytes>)
    ensures r.Ok? ==> |r.value| <= 438
  {
    var hello :- AuthHello(c);
    Ok(hello + identity.Sign(cr, TranscriptMessage(transcript, role)))
  }

  /** Magic, version, DeviceID, key and certificate octets. */
  function SplitAuth(b: Bytes): (r: Result<(Bytes, Bytes32, Bytes, Bytes)>)
    ensures r.Ok? ==> |r.value.0| == 32 && Bounded(r.value.2, MAX_CERTIFICATE_BYTES)
                      && AuthLayout(r.value.0, r.value.1, r.value.2, r.value.3) == b
  {
    var (magic, b1) :- Split(b, |AUTH_MAGIC|);
    if magic != AUTH_MAGIC then Err
    else
      var (version, b2) :- Split(b1, 1);
      if version[0] != PROTOCOL_VERSION then Err
      else
        var (deviceId, b3) :- Split(b2, 32);
        var (publicKey, b4) :- Split(b3, 32);
        var (cert, b5) :- SplitField(b4, MAX_CERTIFICATE_BYTES);
        assert version == [PROTOCOL_VERSION];
        Ok((deviceId, publicKey, cert, b5))
  }

  /** `parse_auth`: a 64-octet remainder is a signature, an empty one is none, anything else is refused. */
  function ParseAuth(b: Bytes): (r: Result<Auth>)
    ensures r.Ok? ==> ShapeValid(r.value.certificate)
  {
    var (deviceId, publicKey, cert, rest) :- SplitAuth(b);
    if !Utf8(deviceId) then Err
    else
      var certificate :- Certificates.FromBytes(cert);
      if |rest| == 64 then Ok(Auth(certificate, publicKey, deviceId, Some(rest)))
      else if rest == [] then Ok(Auth(certificate, publicKey, deviceId, None))
      else Err
  }

  lemma SplitAuthPrinted(deviceId: Bytes, publicKey: Bytes32, cert: Bytes, tail: Bytes)
    requires |deviceId| == 32 && Bounded(cert, MAX_CERTIFICATE_BYTES)
    ensures SplitAuth(AuthLayout(deviceId, publicKey, cert, tail)) == Ok((deviceId, publicKey, cert, tail))
  {
    var s3 := Field(cert) + tail;
    var s2 := publicKey + s3;
    var s1 := deviceId + s2;
    SplitPrinted(AUTH_MAGIC, [PROTOCOL_VERSION] + s1);
    SplitPrinted([PROTOCOL_VERSION], s1);
    SplitPrinted(deviceId, s2);
    SplitPrinted(publicKey, s3);
    SplitFieldPrinted(cert, tail, MAX_CERTIFICATE_BYTES);
  }

  /** A hello always parses back to its certificate's identity, unsigned. */
  lemma HelloParsesUnsigned(c: DeviceCertificate)
    requires ShapeValid(c)
    ensures ParseAuth(AuthHello(c).value) == Ok(Auth(c, c.publicKey, c.deviceId, None))
  {
    var cert := Certificates.ToBytes(c).value;
    SplitAuthPrinted(c.deviceId, c.publicKey, cert, []);
    Certificates.ParsePrinted(c);
  }

  /** A proof always parses back to its certificate's identity with exactly the signature it carries. */
  lemma ProofParsesSigned(cr: Crypto, c: DeviceCertificate, identity: DeviceIdentity, transcript: Bytes, role: byte)
    requires ShapeValid(c)
    ensures ParseAuth(AuthProof(cr, c, identity, transcript, role).value)
         == Ok(Auth(c, c.publicKey, c.deviceId, Some(identity.Sign(cr, TranscriptMessage(transcript, role)))))
  {
    var cert := Certificates.ToBytes(c).value;
    var signature := identity.Sign(cr, TranscriptMessage(transcript, role));
    assert AuthLayout(c.deviceId, c.publicKey, cert, []) + signature
        == AuthLayout(c.deviceId, c.publicKey, cert, signature);
    SplitAuthPrinted(c.deviceId, c.publicKey, cert, signature);
    Certificates.ParsePrinted(c);
  }

  /** Whatever parses is exactly its identity fields, its certificate's serialization and its signature. */
  lemma ParsedAuthReprints(b: Bytes)
    requires ParseAuth(b).Ok?
    ensures var a := ParseAuth(b).value;
            b == AuthLayout(a.deviceId, a.publicKey, Certificates.ToBytes(a.certificate).value,
                            if a.signature.Some? then a.signature.value else [])
  {
    var (deviceId, publicKey, cert, rest) := SplitAuth(b).value;
    Certificates.PrintParsed(cert);
  }

  method ParseAuthPayload(b: Bytes) returns (r: Result<Auth>)
    ensures r == ParseAuth(b)
  {
    var c := new Cursor(b);
    var fields :- ParseAuthFields(c);
    if !Utf8(fields.0) {
      return Err;
    }
    var certificate :- ParseCertificate(fields.2);
    var signature :- ParseOptionalSignature(c);
    return Ok(Auth(certificate, fields.1, fields.0, signature));
  }

  /** A signature when exactly 64 octets remain; then nothing may be left. */
  method ParseOptionalSignature(c: Cursor) returns (r: Result<Option<Bytes64>>)
    requires c.Valid()
    modifies c
    ensures c.Valid()
    ensures var rest := old(c.Rest());
            r == if |rest| == 64 then Ok(Some(rest)) else if rest == [] then Ok(None) else Err
  {
    ghost var rest := c.Rest();
    var signature: Option<Bytes64> := None;
    var remaining := c.Remaining();
    if remaining == 64 {
      var s := c.Take(64);
      assert s.Ok? && s.value == rest;
      signature := Some(s.value);
    }
    return if c.position != |c.bytes| then Err else Ok(signature);
  }

  method ParseAuthFields(c: Cursor) returns (r: Result<(Bytes, Bytes32, Bytes)>)
    requires c.Valid()
    modifies c
    ensures c.Valid()
    ensures match SplitAuth(old(c.Rest()))
            case Ok(split) => r == Ok((split.0, split.1, split.2)) && c.Rest() == split.3
            case Err => r.Err?
  {
    var magic :- c.Take(|AUTH_MAGIC|);
    if magic != AUTH_MAGIC {
      return Err;
    }
    var version :- c.U8();
    if version != PROTOCOL_VERSION {
      return Err;
    }
    var deviceId :- c.Take(32);
    var publicKey :- c.Take(32);
    var cert :- c.Bytes(MAX_CERTIFICATE_BYTES);
    return Ok((deviceId, publicKey, cert));
  }

  // ---- Frame limits ----

  /** Longest Noise XX handshake message: an ephemeral key, a sealed static key and an empty sealed payload. */
  const LONGEST_NOISE_MESSAGE: nat := 96

  /** No honest handshake frame, start frame or authentication frame runs into its limit. */
  lemma HonestFramesFit(message: Bytes, mode: byte, pairId: Bytes, role: byte, sequence: byte, sealed: Bytes)
    requires |message| <= LONGEST_NOISE_MESSAGE && LowerHex32(pairId) && ValidMode(mode)
    requires |sealed| <= 438 + TAG
    ensures EncodeFrame(Frame(KIND_HANDSHAKE, role, 0, message), MAX_HANDSHAKE_FRAME).Ok?
    ensures EncodeStart(Start(mode, pairId, message), MAX_HANDSHAKE_FRAME).Ok?
    ensures 438 <= MAX_AUTH_PLAINTEXT && EncodeFrame(Frame(KIND_AUTH, role, sequence, sealed), MAX_AUTH_FRAME).Ok?
  {
    assert |[mode] + (pairId + message)| <= 129;
  }
}
