/** The two handshake endpoints: what each message makes of an endpoint's state, and the objects themselves. */
module Endpoints {
  import opened Octets
  import opened Cryptography
  import opened Certificates
  import opened Records
  import opened Sessions
  import opened Frames
  import opened AuthMessages
  import opened HandshakeOrder

  /** How the peer's certificate is judged: against the root now, or against an existing pairing's pins. */
  datatype PeerValidation = Current(root: PinnedRoot, now: u64) | Paired(context: PairedIdentityContext)

  datatype PeerAuth = PeerAuth(
    deviceId: Text, publicKey: Bytes32, certificate: DeviceCertificate, signature: Option<Bytes64>)

  datatype Endpoint = Endpoint(
    role: byte,
    identity: DeviceIdentity,
    pairId: Option<Text>,
    certificate: DeviceCertificate,
    expectedPeer: Bytes,
    validation: PeerValidation,
    localStatic: Option<Bytes32>,
    info: Option<HandshakeInfo>,
    transcript: Option<Bytes>,
    peer: Option<PeerAuth>,
    sentAuth: bool)
  {
    function Mode(): byte {
      if validation.Current? then MODE_FIRST_CONTACT else MODE_RECONNECT
    }
  }

  // ---- Opening ----

  predicate ValidateLocal(cr: Crypto, identity: DeviceIdentity, c: DeviceCertificate, root: PinnedRoot, now: u64) {
    c.deviceId == identity.DeviceId(cr) && c.publicKey == identity.PublicKey(cr) && Verify(cr, c, root, now)
  }

  function NewInitiator(cr: Crypto, identity: DeviceIdentity, c: DeviceCertificate, expected: Bytes,
                        root: PinnedRoot, now: u64, pairId: Text, staticKey: Bytes32): Result<Endpoint>
  {
    if !ValidateLocal(cr, identity, c, root, now) then Err
    else if !LowerHex32(expected) || expected == c.deviceId || !LowerHex32(pairId) then Err
    else Ok(Endpoint(ROLE_INITIATOR, identity, Some(pairId), c, expected, Current(root, now),
                     Some(staticKey), None, None, None, false))
  }

  function NewReconnectInitiator(cr: Crypto, identity: DeviceIdentity, context: PairedIdentityContext, staticKey: Bytes32):
    Result<Endpoint>
  {
    var role :- context.RoleFor(cr, identity);
    if role != ROLE_INITIATOR || !LowerHex32(context.pairId) then Err
    else Ok(Endpoint(ROLE_INITIATOR, identity, Some(context.pairId), context.CertificateOf(role),
                     context.DeviceIdOfRole(ROLE_RESPONDER), Paired(context), Some(staticKey), None, None, None, false))
  }

  function NewResponder(cr: Crypto, identity: DeviceIdentity, c: DeviceCertificate, expected: Bytes,
                        root: PinnedRoot, now: u64): Result<Endpoint>
  {
    if !ValidateLocal(cr, identity, c, root, now) then Err
    else if !LowerHex32(expected) || expected == c.deviceId then Err
    else Ok(Endpoint(ROLE_RESPONDER, identity, None, c, expected, Current(root, now), None, None, None, None, false))
  }

  function NewReconnectResponder(cr: Crypto, identity: DeviceIdentity, context: PairedIdentityContext): Result<Endpoint> {
    var role :- context.RoleFor(cr, identity);
    if role != ROLE_RESPONDER then Err
    else Ok(Endpoint(ROLE_RESPONDER, identity, Some(context.pairId), context.CertificateOf(role),
                     context.DeviceIdOfRole(ROLE_INITIATOR), Paired(context), None, None, None, None, false))
  }

  // ---- Messages ----

  /** The start frame reaches the responder: same mode, and the same PairID where one is pinned. */
  function ReceiveStart(e: Endpoint, s: Start, staticKey: Bytes32): Result<Endpoint> {
    if s.mode != e.Mode() || !Utf8(s.pairId) || !LowerHex32(s.pairId) then Err
    else if e.pairId.Some? && e.pairId.value != s.pairId then Err
    else Ok(e.(pairId := Some(s.pairId), localStatic := Some(staticKey)))
  }

  /** Parse and judge the peer's authentication payload. */
  function JudgePeer(cr: Crypto, e: Endpoint, payload: Bytes, wantSignature: bool): (r: Result<PeerAuth>)
    ensures r.Ok? ==> ShapeValid(r.value.certificate)
  {
    var a :- ParseAuth(payload);
    var peer := PeerAuth(a.deviceId, a.publicKey, a.certificate, a.signature);
    if a.signature.Some? != wantSignature then Err
    else
      match e.validation
      case Current(root, now) =>
        if !Verify(cr, a.certificate, root, now) then Err
        else if a.certificate.deviceId != a.deviceId || a.certificate.publicKey != a.publicKey then Err
        else Ok(peer)
      case Paired(context) =>
        var role := if e.role == ROLE_INITIATOR then ROLE_RESPONDER else ROLE_INITIATOR;
        if || a.deviceId != context.DeviceIdOfRole(role)
           || a.publicKey != context.PublicKeyOf(role)
           || a.certificate != context.CertificateOf(role)
        then Err
        else Ok(peer)
  }

  /** The endpoint's own view of the handshake, in initiator/responder order. */
  function ViewOf(e: Endpoint, peer: PeerAuth): View
    requires e.info.Some? && e.pairId.Some? && e.localStatic.Some?
  {
    if e.role == ROLE_INITIATOR then
      View(e.info.value.hash, e.Mode(), e.pairId.value, e.certificate, peer.certificate,
           e.localStatic.value, e.info.value.remoteStatic)
    else
      View(e.info.value.hash, e.Mode(), e.pairId.value, peer.certificate, e.certificate,
           e.info.value.remoteStatic, e.localStatic.value)
  }

  function BuildTranscript(e: Endpoint, peer: PeerAuth): Result<Bytes> {
    if e.info.None? || e.pairId.None? || e.localStatic.None? then Err else MakeTranscript(ViewOf(e, peer))
  }

  predicate VerifyTranscript(cr: Crypto, peer: PeerAuth, transcript: Bytes, role: byte, signature: Bytes64) {
    cr.verify(peer.publicKey, TranscriptMessage(transcript, role), signature)
  }

  /** `receive_responder_handshake`: Noise is finished; the hello goes out. */
  function ReceiveHandshake(e: Endpoint, info: HandshakeInfo): Result<(Endpoint, Bytes)> {
    if e.info.Some? then Err
    else
      var hello :- AuthHello(e.certificate);
      Ok((e.(info := Some(info), sentAuth := true), hello))
  }

  /** The judged responder must be the expected one and have signed our transcript; then we sign it. */
  function AttestPeer(cr: Crypto, e: Endpoint, peer: PeerAuth): Result<(Endpoint, Bytes64)> {
    if peer.deviceId == e.certificate.deviceId || peer.deviceId != e.expectedPeer then Err
    else
      var transcript :- BuildTranscript(e, peer);
      if peer.signature.None? || !VerifyTranscript(cr, peer, transcript, ROLE_RESPONDER, peer.signature.value) then Err
      else Ok((e.(transcript := Some(transcript), peer := Some(peer)),
               e.identity.Sign(cr, TranscriptMessage(transcript, ROLE_INITIATOR))))
  }

  /** `receive_responder_auth`: judge the responder, verify its signature on our transcript, then sign it. */
  function ReceiveProof(cr: Crypto, e: Endpoint, payload: Bytes): Result<(Endpoint, Bytes64)> {
    if !e.sentAuth then Err
    else
      var peer :- JudgePeer(cr, e, payload, true);
      AttestPeer(cr, e, peer)
  }

  /** `receive_responder_ack`: the session, once the responder has acknowledged. */
  function ReceiveAck(cr: Crypto, e: Endpoint, payload: Bytes): Result<(Endpoint, Session)> {
    if payload != ACK_MAGIC || e.peer.None? || e.transcript.None? || e.pairId.None? then Err
    else Ok((e.(peer := None), SessionOf(cr, e, e.pairId.value, e.peer.value, e.transcript.value)))
  }

  function SessionOf(cr: Crypto, e: Endpoint, pairId: Text, peer: PeerAuth, transcript: Bytes): Session {
    Session(pairId, e.certificate.deviceId, peer.deviceId, e.certificate, peer.certificate,
            cr.digest(transcript), peer.publicKey, e.role)
  }

  /** The judged initiator must be the expected one; then we sign the transcript and prove ourselves. */
  function ProvePeer(cr: Crypto, e: Endpoint, peer: PeerAuth): Result<(Endpoint, Bytes)> {
    var transcript :- BuildTranscript(e, peer);
    if peer.deviceId == e.certificate.deviceId || peer.deviceId != e.expectedPeer then Err
    else
      var proof :- AuthProof(cr, e.certificate, e.identity, transcript, ROLE_RESPONDER);
      Ok((e.(transcript := Some(transcript), peer := Some(peer), sentAuth := true), proof))
  }

  /** `receive_initiator_finish`: judge the initiator's hello, then sign the transcript. */
  function ReceiveHello(cr: Crypto, e: Endpoint, info: HandshakeInfo, payload: Bytes): Result<(Endpoint, Bytes)> {
    if e.info.Some? || e.localStatic.None? then Err
    else
      var heard := e.(info := Some(info));
      var peer :- JudgePeer(cr, heard, payload, false);
      ProvePeer(cr, heard, peer)
  }

  /** `receive_initiator_auth`: verify the initiator's signature, acknowledge, and open the session. */
  function ReceiveSignature(cr: Crypto, e: Endpoint, payload: Bytes): Result<(Bytes, Session)> {
    if !e.sentAuth || e.peer.None? || e.transcript.None? || e.pairId.None? then Err
    else if |payload| != 64 || !VerifyTranscript(cr, e.peer.value, e.transcript.value, ROLE_INITIATOR, payload) then Err
    else Ok((ACK_MAGIC, SessionOf(cr, e, e.pairId.value, e.peer.value, e.transcript.value)))
  }

  // ---- The objects ----

  /** The initiator object.  Noise results and decrypted payloads are parameters of its methods. */
  class PairingInitiator {
    const cr: Crypto
    const identity: DeviceIdentity
    const pairId: Text
    const certificate: DeviceCertificate
    const expectedPeer: Bytes
    const validation: PeerValidation
    const localStatic: Bytes32
    var info: Option<HandshakeInfo>
    var transcript: Option<Bytes>
    var peer: Option<PeerAuth>
    var sentAuth: bool

    function State(): Endpoint
      reads this
    {
      Endpoint(ROLE_INITIATOR, identity, Some(pairId), certificate, expectedPeer, validation,
               Some(localStatic), info, transcript, peer, sentAuth)
    }

    constructor (cr: Crypto, initial: Endpoint)
      requires initial.role == ROLE_INITIATOR && initial.pairId.Some? && initial.localStatic.Some?
      ensures State() == initial && this.cr == cr
    {
      this.cr, identity, pairId := cr, initial.identity, initial.pairId.value;
      certificate, expectedPeer, validation := initial.certificate, initial.expectedPeer, initial.validation;
      localStatic := initial.localStatic.value;
      info, transcript, peer, sentAuth := initial.info, initial.transcript, initial.peer, initial.sentAuth;
    }

    /** If only the hello cannot be made, the handshake is over all the same. */
    method ReceiveResponderHandshake(noise: HandshakeInfo) returns (r: Result<Bytes>)
      modifies this
      ensures match ReceiveHandshake(old(State()), noise)
              case Ok(after) => r == Ok(after.1) && State() == after.0
              case Err =>
                && r.Err?
                && State() == if old(info).Some? then old(State()) else old(State()).(info := Some(noise), sentAuth := true)
    {
      if info.Some? {
        return Err;
      }
      info := Some(noise);
      sentAuth := true;
      return AuthHello(certificate);
    }

    method OwnTranscript(judged: PeerAuth) returns (r: Result<Bytes>)
      ensures r == BuildTranscript(State(), judged)
    {
      if info.None? {
        return Err;
      }
      r := PrintTranscript(ViewOf(State(), judged));
    }

    method ReceiveResponderAuth(payload: Bytes) returns (r: Result<Bytes64>)
      modifies this
      ensures match ReceiveProof(cr, old(State()), payload)
              case Ok(after) => r == Ok(after.1) && State() == after.0
              case Err => r.Err? && State() == old(State())
    {
      if !sentAuth {
        return Err;
      }
      var judged :- JudgePeer(cr, State(), payload, true);
      if judged.deviceId == certificate.deviceId || judged.deviceId != expectedPeer {
        return Err;
      }
      var built :- OwnTranscript(judged);
      if judged.signature.None? || !VerifyTranscript(cr, judged, built, ROLE_RESPONDER, judged.signature.value) {
        return Err;
      }
      transcript := Some(built);
      peer := Some(judged);
      return Ok(identity.Sign(cr, TranscriptMessage(built, ROLE_INITIATOR)));
    }

    method ReceiveResponderAck(payload: Bytes) returns (r: Result<Session>)
      modifies this
      ensures match ReceiveAck(cr, old(State()), payload)
              case Ok(after) => r == Ok(after.1) && State() == after.0
              case Err => r.Err? && (payload != ACK_MAGIC ==> State() == old(State()))
    {
      if payload != ACK_MAGIC || peer.None? {
        return Err;
      }
      var taken := peer.value;
      peer := None;
      if transcript.None? {
        return Err;
      }
      return Ok(Session(pairId, certificate.deviceId, taken.deviceId, certificate, taken.certificate,
                        cr.digest(transcript.value), taken.publicKey, ROLE_INITIATOR));
    }
  }

  /** The responder object; its PairID and static key are fixed by the start frame. */
  class PairingResponder {
    const cr: Crypto
    const identity: DeviceIdentity
    const certificate: DeviceCertificate
    const expectedPeer: Bytes
    const validation: PeerValidation
    var pairId: Option<Text>
    var localStatic: Option<Bytes32>
    var info: Option<HandshakeInfo>
    var transcript: Option<Bytes>
    var peer: Option<PeerAuth>
    var sentAuth: bool

    function State(): Endpoint
      reads this
    {
      Endpoint(ROLE_RESPONDER, identity, pairId, certificate, expectedPeer, validation,
               localStatic, info, transcript, peer, sentAuth)
    }

    constructor (cr: Crypto, initial: Endpoint)
      requires initial.role == ROLE_RESPONDER
      ensures State() == initial && this.cr == cr
    {
      this.cr, identity, pairId := cr, initial.identity, initial.pairId;
      certificate, expectedPeer, validation := initial.certificate, initial.expectedPeer, initial.validation;
      localStatic, info, transcript := initial.localStatic, initial.info, initial.transcript;
      peer, sentAuth := initial.peer, initial.sentAuth;
    }

    method ReceiveInitiatorStart(s: Start, staticKey: Bytes32) returns (ok: bool)
      modifies this
      ensures match ReceiveStart(old(State()), s, staticKey)
              case Ok(after) => ok && State() == after
              case Err => !ok && State() == old(State())
    {
      if s.mode != State().Mode() || !Utf8(s.pairId) || !LowerHex32(s.pairId) {
        return false;
      }
      if pairId.Some? && pairId.value != s.pairId {
        return false;
      }
      pairId := Some(s.pairId);
      localStatic := Some(staticKey);
      return true;
    }

    method OwnTranscript(judged: PeerAuth) returns (r: Result<Bytes>)
      ensures r == BuildTranscript(State(), judged)
    {
      if info.None? || pairId.None? || localStatic.None? {
        return Err;
      }
      r := PrintTranscript(ViewOf(State(), judged));
    }

    method ReceiveInitiatorFinish(noise: HandshakeInfo, payload: Bytes) returns (r: Result<Bytes>)
      modifies this
      ensures match ReceiveHello(cr, old(State()), noise, payload)
              case Ok(after) => r == Ok(after.1) && State() == after.0
              case Err =>
                && r.Err?
                && State() == if old(info).Some? || localStatic.None? then old(State()) else old(State()).(info := Some(noise))
    {
      if info.Some? || localStatic.None? {
        return Err;
      }
      info := Some(noise);
      var judged :- JudgePeer(cr, State(), payload, false);
      r := ProveTo(judged);
    }

    method ProveTo(judged: PeerAuth) returns (r: Result<Bytes>)
      modifies this
      ensures match ProvePeer(cr, old(State()), judged)
              case Ok(after) => r == Ok(after.1) && State() == after.0
              case Err => r.Err? && State() == old(State())
    {
      var built :- OwnTranscript(judged);
      if judged.deviceId == certificate.deviceId || judged.deviceId != expectedPeer {
        return Err;
      }
      peer := Some(judged);
      sentAuth := true;
      r := AuthProof(cr, certificate, identity, built, ROLE_RESPONDER);
      transcript := Some(built);
    }

    method ReceiveInitiatorAuth(payload: Bytes) returns (r: Result<(Bytes, Session)>)
      ensures r == ReceiveSignature(cr, State(), payload)
    {
      if !sentAuth || peer.None? || transcript.None? || |payload| != 64 {
        return Err;
      }
      if !VerifyTranscript(cr, peer.value, transcript.value, ROLE_INITIATOR, payload) {
        return Err;
      }
      if pairId.None? {
        return Err;
      }
      return Ok((ACK_MAGIC, Session(pairId.value, certificate.deviceId, peer.value.deviceId, certificate,
                                    peer.value.certificate, cr.digest(transcript.value), peer.value.publicKey,
                                    ROLE_RESPONDER)));
    }
  }

  /** What the two endpoints saw of the handshake and of each other is the same, with the roles exchanged. */
  predicate ViewsMirror(i: Endpoint, judgedByI: PeerAuth, r: Endpoint, judgedByR: PeerAuth)
    requires i.info.Some? && i.localStatic.Some? && r.info.Some? && r.localStatic.Some?
  {
    && i.info.value.hash == r.info.value.hash && i.Mode() == r.Mode() && i.pairId == r.pairId
    && i.certificate == judgedByR.certificate && r.certificate == judgedByI.certificate
    && i.localStatic.value == r.info.value.remoteStatic && r.localStatic.value == i.info.value.remoteStatic
  }

  /** An initiator and a responder build equal transcripts exactly when their views mirror each other. */
  lemma TranscriptsEqualExactlyWhenMirrored(i: Endpoint, judgedByI: PeerAuth, r: Endpoint, judgedByR: PeerAuth)
    requires i.role == ROLE_INITIATOR && r.role == ROLE_RESPONDER
    requires BuildTranscript(i, judgedByI).Ok? && BuildTranscript(r, judgedByR).Ok?
    ensures BuildTranscript(i, judgedByI) == BuildTranscript(r, judgedByR) <==> ViewsMirror(i, judgedByI, r, judgedByR)
  {
    if BuildTranscript(i, judgedByI) == BuildTranscript(r, judgedByR) {
      TranscriptDeterminesView(ViewOf(i, judgedByI), ViewOf(r, judgedByR));
    }
  }

  // ---- An undisturbed handshake between honest endpoints ----

  /** The responder's judgement of the initiator, and the reverse, by identity alone. */
  predicate Approves(cr: Crypto, e: Endpoint, c: DeviceCertificate) {
    match e.validation
    case Current(root, now) => Verify(cr, c, root, now)
    case Paired(context) =>
      var role := if e.role == ROLE_INITIATOR then ROLE_RESPONDER else ROLE_INITIATOR;
      c == context.CertificateOf(role) && c.deviceId == context.DeviceIdOfRole(role)
      && c.publicKey == context.PublicKeyOf(role)
  }

  /** Both sides can meet: same mode, compatible PairIDs, and each approves and expects the other. */
  predicate CanMeet(cr: Crypto, i: Endpoint, r: Endpoint) {
    && i.Mode() == r.Mode()
    && i.pairId.Some? && LowerHex32(i.pairId.value)
    && (r.pairId.Some? ==> r.pairId == i.pairId)
    && Approves(cr, r, i.certificate) && Approves(cr, i, r.certificate)
    && i.certificate.deviceId == r.expectedPeer && r.certificate.deviceId == i.expectedPeer
    && i.certificate.deviceId != r.certificate.deviceId
  }

  predicate Opened(cr: Crypto, e: Endpoint) {
    && e.info.None? && e.transcript.None? && e.peer.None? && !e.sentAuth
    && ShapeValid(e.certificate) && e.certificate.publicKey == e.identity.PublicKey(cr)
  }

  /** The responder's session if every message arrives intact. */
  function MeetResponder(cr: Crypto, i: Endpoint, r: Endpoint, staticI: Bytes32, staticR: Bytes32, hash: Bytes32):
    Result<(Endpoint, Bytes)>
  {
    if i.pairId.None? then Err
    else
      var started :- ReceiveStart(r, Start(i.Mode(), i.pairId.value, []), staticR);
      var (heard, hello) :- ReceiveHandshake(i, HandshakeInfo(hash, staticR));
      ReceiveHello(cr, started, HandshakeInfo(hash, staticI), hello)
  }

  /** Both sessions if every message arrives intact. */
  function Meet(cr: Crypto, i: Endpoint, r: Endpoint, staticI: Bytes32, staticR: Bytes32, hash: Bytes32):
    Result<(Session, Session)>
  {
    var (heard, hello) :- ReceiveHandshake(i, HandshakeInfo(hash, staticR));
    var (proved, proof) :- MeetResponder(cr, i, r, staticI, staticR, hash);
    var (attested, signature) :- ReceiveProof(cr, heard, proof);
    var (ack, sessionR) :- ReceiveSignature(cr, proved, signature);
    var (done, sessionI) :- ReceiveAck(cr, attested, ack);
    Ok((sessionI, sessionR))
  }

  lemma JudgesHello(cr: Crypto, e: Endpoint, c: DeviceCertificate)
    requires ShapeValid(c)
    ensures var verdict := JudgePeer(cr, e, AuthHello(c).value, false);
            && (verdict.Ok? <==> Approves(cr, e, c))
            && (verdict.Ok? ==> verdict.value == PeerAuth(c.deviceId, c.publicKey, c, None))
  {
    HelloParsesUnsigned(c);
  }

  lemma JudgesProof(cr: Crypto, e: Endpoint, c: DeviceCertificate, identity: DeviceIdentity, t: Bytes, role: byte)
    requires ShapeValid(c)
    ensures var signature := identity.Sign(cr, TranscriptMessage(t, role));
            var verdict := JudgePeer(cr, e, AuthProof(cr, c, identity, t, role).value, true);
            && (verdict.Ok? <==> Approves(cr, e, c))
            && (verdict.Ok? ==> verdict.value == PeerAuth(c.deviceId, c.publicKey, c, Some(signature)))
  {
    ProofParsesSigned(cr, c, identity, t, role);
  }

  /** The view both endpoints share when nothing is altered on the way. */
  function SharedView(i: Endpoint, r: Endpoint, staticI: Bytes32, staticR: Bytes32, hash: Bytes32): View
    requires i.pairId.Some?
  {
    View(hash, i.Mode(), i.pairId.value, i.certificate, r.certificate, staticI, staticR)
  }

  predicate HonestPair(cr: Crypto, i: Endpoint, r: Endpoint, staticI: Bytes32) {
    && Opened(cr, i) && Opened(cr, r)
    && i.role == ROLE_INITIATOR && i.pairId.Some? && LowerHex32(i.pairId.value) && i.localStatic == Some(staticI)
    && r.role == ROLE_RESPONDER
  }

  /** A responder that has judged an honest initiator's hello proves itself over the shared view, if it expects it. */
  lemma ProvesToHonestPeer(cr: Crypto, i: Endpoint, r: Endpoint, staticI: Bytes32, staticR: Bytes32, hash: Bytes32)
    requires HonestPair(cr, i, r, staticI) && i.Mode() == r.Mode()
    ensures var heard := r.(pairId := i.pairId, localStatic := Some(staticR), info := Some(HandshakeInfo(hash, staticI)));
            var peer := PeerAuth(i.certificate.deviceId, i.certificate.publicKey, i.certificate, None);
            var t := MakeTranscript(SharedView(i, r, staticI, staticR, hash));
            && t.Ok?
            && ProvePeer(cr, heard, peer) ==
               if i.certificate.deviceId == r.certificate.deviceId || i.certificate.deviceId != r.expectedPeer then Err
               else Ok((heard.(transcript := Some(t.value), peer := Some(peer), sentAuth := true),
                        AuthProof(cr, r.certificate, r.identity, t.value, ROLE_RESPONDER).value))
  {
    var heard := r.(pairId := i.pairId, localStatic := Some(staticR), info := Some(HandshakeInfo(hash, staticI)));
    var peer := PeerAuth(i.certificate.deviceId, i.certificate.publicKey, i.certificate, None);
    assert ViewOf(heard, peer) == SharedView(i, r, staticI, staticR, hash);
  }

  lemma ResponderMeets(cr: Crypto, i: Endpoint, r: Endpoint, staticI: Bytes32, staticR: Bytes32, hash: Bytes32)
    requires HonestPair(cr, i, r, staticI)
    ensures var met := MeetResponder(cr, i, r, staticI, staticR, hash);
            var accepts := && i.Mode() == r.Mode() && (r.pairId.Some? ==> r.pairId == i.pairId)
                           && Approves(cr, r, i.certificate)
                           && i.certificate.deviceId == r.expectedPeer
                           && i.certificate.deviceId != r.certificate.deviceId;
            && (met.Ok? <==> accepts)
            && (met.Ok? ==>
                  var t := MakeTranscript(SharedView(i, r, staticI, staticR, hash));
                  && t.Ok?
                  && met.value.0.transcript == Some(t.value) && met.value.0.sentAuth
                  && met.value.0.pairId == i.pairId && met.value.0.role == ROLE_RESPONDER
                  && met.value.0.certificate == r.certificate
                  && met.value.0.peer == Some(PeerAuth(i.certificate.deviceId, i.certificate.publicKey, i.certificate, None))
                  && met.value.1 == AuthProof(cr, r.certificate, r.identity, t.value, ROLE_RESPONDER).value)
  {
    var started := ReceiveStart(r, Start(i.Mode(), i.pairId.value, []), staticR);
    if started.Ok? {
      JudgesHello(cr, started.value.(info := Some(HandshakeInfo(hash, staticI))), i.certificate);
      ProvesToHonestPeer(cr, i, r, staticI, staticR, hash);
    }
  }

  /** An initiator that has judged an honest responder over the shared view answers exactly if it expects it. */
  lemma AttestsHonestPeer(cr: Crypto, i: Endpoint, r: Endpoint, info: HandshakeInfo, t: Bytes, peer: PeerAuth)
    requires Sound(cr) && Opened(cr, r) && i.role == ROLE_INITIATOR
    requires i.pairId.Some? && i.localStatic.Some? && i.certificate.deviceId != r.certificate.deviceId
    requires MakeTranscript(SharedView(i, r, i.localStatic.value, info.remoteStatic, info.hash)) == Ok(t)
    requires peer == PeerAuth(r.certificate.deviceId, r.certificate.publicKey, r.certificate,
                              Some(r.identity.Sign(cr, TranscriptMessage(t, ROLE_RESPONDER))))
    ensures var heard := i.(info := Some(info), sentAuth := true);
            AttestPeer(cr, heard, peer) ==
            if r.certificate.deviceId == i.expectedPeer then
              Ok((heard.(transcript := Some(t), peer := Some(peer)),
                  i.identity.Sign(cr, TranscriptMessage(t, ROLE_INITIATOR))))
            else Err
  {
    var heard := i.(info := Some(info), sentAuth := true);
    assert ViewOf(heard, peer) == SharedView(i, r, i.localStatic.value, info.remoteStatic, info.hash);
  }

  /** The initiator's answer to an honest proof over the shared view. */
  lemma AnswersHonestProof(cr: Crypto, i: Endpoint, r: Endpoint, info: HandshakeInfo, t: Bytes)
    requires Sound(cr) && Opened(cr, r) && i.role == ROLE_INITIATOR
    requires i.pairId.Some? && i.localStatic.Some? && i.certificate.deviceId != r.certificate.deviceId
    requires MakeTranscript(SharedView(i, r, i.localStatic.value, info.remoteStatic, info.hash)) == Ok(t)
    ensures var heard := i.(info := Some(info), sentAuth := true);
            var signature := r.identity.Sign(cr, TranscriptMessage(t, ROLE_RESPONDER));
            var peer := PeerAuth(r.certificate.deviceId, r.certificate.publicKey, r.certificate, Some(signature));
            ReceiveProof(cr, heard, AuthProof(cr, r.certificate, r.identity, t, ROLE_RESPONDER).value) ==
            if Approves(cr, i, r.certificate) && r.certificate.deviceId == i.expectedPeer then
              Ok((heard.(transcript := Some(t), peer := Some(peer)),
                  i.identity.Sign(cr, TranscriptMessage(t, ROLE_INITIATOR))))
            else Err
  {
    var heard := i.(info := Some(info), sentAuth := true);
    var signature := r.identity.Sign(cr, TranscriptMessage(t, ROLE_RESPONDER));
    JudgesProof(cr, heard, r.certificate, r.identity, t, ROLE_RESPONDER);
    AttestsHonestPeer(cr, i, r, info, t,
                      PeerAuth(r.certificate.deviceId, r.certificate.publicKey, r.certificate, Some(signature)));
  }

  /** What follows the initiator's answer: the responder verifies it, acknowledges, and both open sessions. */
  lemma SessionsFollow(cr: Crypto, i: Endpoint, r: Endpoint, attested: Endpoint, proved: Endpoint, t: Bytes)
    requires Sound(cr) && Opened(cr, i)
    requires proved.sentAuth && proved.transcript == Some(t) && proved.pairId == i.pairId && i.pairId.Some?
    requires proved.role == ROLE_RESPONDER && proved.certificate == r.certificate
    requires proved.peer == Some(PeerAuth(i.certificate.deviceId, i.certificate.publicKey, i.certificate, None))
    requires attested.transcript == Some(t) && attested.pairId == i.pairId && attested.role == ROLE_INITIATOR
    requires attested.certificate == i.certificate && attested.peer.Some?
    requires attested.peer.value.certificate == r.certificate
    requires attested.peer.value.deviceId == r.certificate.deviceId
    requires attested.peer.value.publicKey == r.certificate.publicKey
    ensures var signature := i.identity.Sign(cr, TranscriptMessage(t, ROLE_INITIATOR));
            var accepted := ReceiveSignature(cr, proved, signature);
            var sessions := MirroredSessions(i.pairId.value, i.certificate, r.certificate, cr.digest(t));
            && accepted == Ok((ACK_MAGIC, sessions.1))
            && ReceiveAck(cr, attested, ACK_MAGIC) == Ok((attested.(peer := None), sessions.0))
  {
  }

  /**
   When every message arrives intact, two honest endpoints both obtain a session exactly when they can
   meet, and the two sessions mirror each other: same PairID and binding, swapped certificates, opposite roles.
   */
  lemma MeetExactlyWhenCompatible(cr: Crypto, i: Endpoint, r: Endpoint, staticI: Bytes32, staticR: Bytes32, hash: Bytes32)
    requires Sound(cr) && HonestPair(cr, i, r, staticI)
    ensures var met := Meet(cr, i, r, staticI, staticR, hash);
            && (met.Ok? <==> CanMeet(cr, i, r))
            && (met.Ok? ==>
                  var binding := cr.digest(MakeTranscript(SharedView(i, r, staticI, staticR, hash)).value);
                  met.value == MirroredSessions(i.pairId.value, i.certificate, r.certificate, binding))
  {
    ResponderMeets(cr, i, r, staticI, staticR, hash);
    var proved := MeetResponder(cr, i, r, staticI, staticR, hash);
    if proved.Ok? {
      var info := HandshakeInfo(hash, staticR);
      var t := MakeTranscript(SharedView(i, r, staticI, staticR, hash)).value;
      AnswersHonestProof(cr, i, r, info, t);
      var answer := ReceiveProof(cr, i.(info := Some(info), sentAuth := true), proved.value.1);
      if answer.Ok? {
        SessionsFollow(cr, i, r, answer.value.0, proved.value.0, t);
      }
    }
  }

  /** The initiator's and the responder's session over one view. */
  function MirroredSessions(pairId: Text, initiator: DeviceCertificate, responder: DeviceCertificate, binding: Bytes32):
    (Session, Session)
  {
    (Session(pairId, initiator.deviceId, responder.deviceId, initiator, responder, binding,
             responder.publicKey, ROLE_INITIATOR),
     Session(pairId, responder.deviceId, initiator.deviceId, responder, initiator, binding,
             initiator.publicKey, ROLE_RESPONDER))
  }
}
