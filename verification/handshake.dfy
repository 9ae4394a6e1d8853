/**
 Agreement of the authenticated handshake, over any interleaving of any number of sessions.  Payloads,
 handshake results and static keys that reach an endpoint are arbitrary; only two things are assumed:
 an honest key's signature verifies only on messages that key signed, and a Noise channel that ends at an
 honest endpoint carries only what that endpoint sealed.
 */
module Handshakes {
  import opened Octets
  import opened Cryptography
  import opened Certificates
  import opened Records
  import opened Sessions
  import opened Frames
  import opened AuthMessages
  import opened HandshakeOrder
  import opened Endpoints
  import opened DomainSeparation

  datatype World = World(
    endpoints: map<nat, Endpoint>,
    board: Board,
    sealed: set<(nat, Bytes)>,
    others: set<(Bytes32, Signed)>)

  const EMPTY_WORLD: World := World(map[], EMPTY_BOARD, {}, {})

  datatype Action =
    | OpenInitiator(n: nat, identity: DeviceIdentity, certificate: DeviceCertificate, expected: Bytes,
                    root: PinnedRoot, now: u64, pairId: Text, staticKey: Bytes32)
    | OpenReconnectInitiator(n: nat, identity: DeviceIdentity, context: PairedIdentityContext, staticKey: Bytes32)
    | OpenResponder(n: nat, identity: DeviceIdentity, certificate: DeviceCertificate, expected: Bytes,
                    root: PinnedRoot, now: u64)
    | OpenReconnectResponder(n: nat, identity: DeviceIdentity, context: PairedIdentityContext)
    | DeliverStart(n: nat, start: Start, staticKey: Bytes32)
    | DeliverHandshake(n: nat, info: HandshakeInfo)
    | DeliverHello(n: nat, info: HandshakeInfo, payload: Bytes)
    | DeliverProof(n: nat, payload: Bytes)
    | DeliverSignature(n: nat, payload: Bytes)
    | DeliverAck(n: nat, payload: Bytes)
    | SignElsewhere(identity: DeviceIdentity, statement: Signed)

  datatype Devices = Devices(cr: Crypto, identities: set<DeviceIdentity>) {
    function Keys(): set<Bytes32> {
      set identity | identity in identities :: identity.PublicKey(cr)
    }
  }

  /** The pins of a context built from a validated record name certificates for exactly those identities. */
  predicate WellPinned(context: PairedIdentityContext) {
    && context.initiatorCertificate.deviceId == context.initiatorDeviceId
    && context.responderCertificate.deviceId == context.responderDeviceId
    && context.initiatorCertificate.publicKey == context.initiatorPublicKey
    && context.responderCertificate.publicKey == context.responderPublicKey
  }

  function PartyOf(cr: Crypto, e: Endpoint, view: Option<View>): Party {
    Party(e.identity.PublicKey(cr), e.role, e.localStatic, e.info, view)
  }

  function Put(cr: Crypto, w: World, n: nat, e: Endpoint, view: Option<View>): World {
    w.(endpoints := w.endpoints[n := e],
       board := w.board.(parties := w.board.parties[n := PartyOf(cr, e, view)]))
  }

  function Log(w: World, x: Event): World {
    w.(board := w.board.(log := w.board.log + [x]))
  }

  function Swear(w: World, vow: Vow): World {
    w.(board := w.board.(vows := w.board.vows + {vow}))
  }

  function Seal(w: World, n: nat, payload: Bytes): World {
    w.(sealed := w.sealed + {(n, payload)})
  }

  /** The octets a vow's signature covers. */
  function VowMessage(vow: Vow): Result<Bytes> {
    var t :- MakeTranscript(vow.view);
    Ok(TranscriptMessage(t, vow.role))
  }

  /** No forgery: a signature that reaches an endpoint and verifies under an honest key was made by that key. */
  ghost predicate Unforged(d: Devices, w: World, key: Bytes32, message: Bytes, signature: Bytes64) {
    key in d.Keys() && d.cr.verify(key, message, signature) ==>
      || (exists vow :: vow in w.board.vows && vow.key == key && VowMessage(vow) == Ok(message))
      || (exists s :: (key, s) in w.others && MessageOf(s) == Ok(message))
  }

  /** Ideal channel: what opens here was sealed by whichever endpoint holds the other end, if one does. */
  predicate ChannelCarries(w: World, e: Endpoint, payload: Bytes) {
    e.info.Some? &&
    forall m :: m in w.endpoints
                && w.endpoints[m].localStatic == Some(e.info.value.remoteStatic)
                && w.endpoints[m].info.Some? && w.endpoints[m].info.value.hash == e.info.value.hash
                ==> (m, payload) in w.sealed
  }

  predicate Opens(d: Devices, w: World, after: World, n: nat, created: Result<Endpoint>) {
    && n !in w.endpoints && created.Ok? && created.value.identity in d.identities
    && (created.value.localStatic.Some? ==> FreshStatic(w.board, created.value.localStatic.value))
    && (created.value.validation.Paired? ==> WellPinned(created.value.validation.context))
    && after == Put(d.cr, w, n, created.value, None)
  }

  predicate HearsStart(d: Devices, w: World, after: World, n: nat, start: Start, s: Bytes32) {
    && n in w.endpoints && w.endpoints[n].localStatic.None? && FreshStatic(w.board, s)
    && ReceiveStart(w.endpoints[n], start, s).Ok?
    && after == Put(d.cr, w, n, ReceiveStart(w.endpoints[n], start, s).value, None)
  }

  predicate HearsHandshake(d: Devices, w: World, after: World, n: nat, info: HandshakeInfo) {
    && n in w.endpoints && w.endpoints[n].role == ROLE_INITIATOR
    && ReceiveHandshake(w.endpoints[n], info).Ok?
    && var (e, hello) := ReceiveHandshake(w.endpoints[n], info).value;
       after == Seal(Put(d.cr, w, n, e, None), n, hello)
  }

  predicate HearsHello(d: Devices, w: World, after: World, n: nat, info: HandshakeInfo, payload: Bytes) {
    n in w.endpoints && w.endpoints[n].role == ROLE_RESPONDER &&
    match ReceiveHello(d.cr, w.endpoints[n], info, payload)
    case Err => false
    case Ok((e, proof)) =>
      && e.peer.Some? && e.info.Some? && e.pairId.Some? && e.localStatic.Some?
      && var v := ViewOf(e, e.peer.value);
         var key := e.identity.PublicKey(d.cr);
         after == Seal(Log(Swear(Put(d.cr, w, n, e, Some(v)), Vow(key, v, ROLE_RESPONDER)), Proved(n, v, key)), n, proof)
  }

  ghost predicate HearsProof(d: Devices, w: World, after: World, n: nat, payload: Bytes) {
    n in w.endpoints && w.endpoints[n].role == ROLE_INITIATOR && w.endpoints[n].transcript.None? &&
    match ReceiveProof(d.cr, w.endpoints[n], payload)
    case Err => false
    case Ok((e, signature)) =>
      && e.peer.Some? && e.info.Some? && e.pairId.Some? && e.localStatic.Some? && e.transcript.Some?
      && var v := ViewOf(e, e.peer.value);
         var key := e.identity.PublicKey(d.cr);
         && (e.peer.value.signature.Some? ==>
               Unforged(d, w, e.peer.value.publicKey, TranscriptMessage(e.transcript.value, ROLE_RESPONDER),
                        e.peer.value.signature.value))
         && after == Seal(Log(Swear(Put(d.cr, w, n, e, Some(v)), Vow(key, v, ROLE_INITIATOR)),
                              Attested(n, v, key, e.peer.value.publicKey)), n, signature)
  }

  ghost predicate HearsSignature(d: Devices, w: World, after: World, n: nat, payload: Bytes) {
    n in w.endpoints && w.endpoints[n].role == ROLE_RESPONDER && n in w.board.parties && w.board.parties[n].view.Some? &&
    match ReceiveSignature(d.cr, w.endpoints[n], payload)
    case Err => false
    case Ok((ack, session)) =>
      var e := w.endpoints[n];
      && (|payload| == 64 ==>
            Unforged(d, w, session.peerPublicKey, TranscriptMessage(e.transcript.value, ROLE_INITIATOR), payload))
      && after == Seal(Log(w, Accepted(n, w.board.parties[n].view.value, e.identity.PublicKey(d.cr),
                                       session.peerPublicKey)), n, ack)
  }

  predicate HearsAck(d: Devices, w: World, after: World, n: nat, payload: Bytes) {
    n in w.endpoints && w.endpoints[n].role == ROLE_INITIATOR && n in w.board.parties && w.board.parties[n].view.Some? &&
    match ReceiveAck(d.cr, w.endpoints[n], payload)
    case Err => false
    case Ok((e, session)) =>
      && ChannelCarries(w, e, payload)
      && after == Log(Put(d.cr, w, n, e, w.board.parties[n].view),
                      Completed(n, w.board.parties[n].view.value, e.identity.PublicKey(d.cr), session.peerPublicKey))
  }

  /** One step of the world: an honest device acts on whatever reached it. */
  ghost predicate Acts(d: Devices, w: World, a: Action, after: World) {
    match a
    case OpenInitiator(n, identity, c, expected, root, now, pairId, s) =>
      Opens(d, w, after, n, NewInitiator(d.cr, identity, c, expected, root, now, pairId, s))
    case OpenReconnectInitiator(n, identity, context, s) =>
      Opens(d, w, after, n, NewReconnectInitiator(d.cr, identity, context, s))
    case OpenResponder(n, identity, c, expected, root, now) =>
      Opens(d, w, after, n, NewResponder(d.cr, identity, c, expected, root, now))
    case OpenReconnectResponder(n, identity, context) =>
      Opens(d, w, after, n, NewReconnectResponder(d.cr, identity, context))
    case DeliverStart(n, start, s) => HearsStart(d, w, after, n, start, s)
    case DeliverHandshake(n, info) => HearsHandshake(d, w, after, n, info)
    case DeliverHello(n, info, payload) => HearsHello(d, w, after, n, info, payload)
    case DeliverProof(n, payload) => HearsProof(d, w, after, n, payload)
    case DeliverSignature(n, payload) => HearsSignature(d, w, after, n, payload)
    case DeliverAck(n, payload) => HearsAck(d, w, after, n, payload)
    case SignElsewhere(identity, s) =>
      && identity in d.identities && !s.Transcript? && MessageOf(s).Ok?
      && after == w.(others := w.others + {(identity.PublicKey(d.cr), s)})
  }

  // ---- The endpoints and the board tell the same story ----

  predicate PeerKnown(e: Endpoint, v: View) {
    e.peer.Some? ==>
      && e.info.Some? && e.pairId.Some? && e.localStatic.Some?
      && v == ViewOf(e, e.peer.value)
      && e.peer.value.deviceId == e.peer.value.certificate.deviceId
      && e.peer.value.publicKey == e.peer.value.certificate.publicKey
  }

  predicate Linked(cr: Crypto, e: Endpoint, p: Party) {
    && p == PartyOf(cr, e, p.view)
    && (e.role == ROLE_RESPONDER || (e.role == ROLE_INITIATOR && e.localStatic.Some?))
    && (e.validation.Paired? ==> WellPinned(e.validation.context))
    && (e.localStatic.None? ==> e.info.None?)
    && (p.view.Some? <==> e.transcript.Some?)
    && (e.transcript.None? ==> e.peer.None?)
    && (p.view.Some? ==> p.info.Some? && PeerKnown(e, p.view.value))
    && (e.role == ROLE_RESPONDER && e.info.Some? ==> p.view.Some?)
  }

  /** The transcript an endpoint holds is that of its view. */
  predicate Transcribes(w: World, n: nat)
    requires n in w.endpoints && n in w.board.parties
  {
    var e, p := w.endpoints[n], w.board.parties[n];
    p.view.Some? && e.transcript.Some? ==> MakeTranscript(p.view.value) == Ok(e.transcript.value)
  }

  predicate AttestationLogged(log: seq<Event>, n: nat, e: Endpoint, p: Party) {
    e.role == ROLE_INITIATOR && e.peer.Some? && p.view.Some? ==>
      exists i :: 0 <= i < |log| && log[i] == Attested(n, p.view.value, p.key, e.peer.value.publicKey)
  }

  /** An initiator that holds a verified peer has logged its attestation of that peer. */
  predicate Remembers(w: World, n: nat)
    requires n in w.endpoints && n in w.board.parties
  {
    AttestationLogged(w.board.log, n, w.endpoints[n], w.board.parties[n])
  }

  ghost predicate WorldInv(d: Devices, w: World) {
    && Inv(d.Keys(), w.board)
    && w.endpoints.Keys == w.board.parties.Keys
    && (forall n :: n in w.endpoints ==> Linked(d.cr, w.endpoints[n], w.board.parties[n]))
    && (forall n :: n in w.endpoints ==> Transcribes(w, n) && Remembers(w, n))
    && (forall vow :: vow in w.board.vows ==> MakeTranscript(vow.view).Ok?)
    && (forall x :: x in w.others ==> !x.1.Transcript?)
    && (forall n :: (n, ACK_MAGIC) in w.sealed ==> HasAccepted(w.board, n))
  }

  // ---- What each message establishes about one endpoint ----

  predicate Unused(e: Endpoint) {
    && (e.role == ROLE_RESPONDER || (e.role == ROLE_INITIATOR && e.localStatic.Some?))
    && e.info.None? && e.transcript.None? && e.peer.None?
  }

  /** A judged peer's identity fields are those of its certificate. */
  lemma JudgedPeerIsItsCertificate(cr: Crypto, e: Endpoint, payload: Bytes, wantSignature: bool)
    requires JudgePeer(cr, e, payload, wantSignature).Ok?
    requires e.validation.Paired? ==> WellPinned(e.validation.context)
    ensures var peer := JudgePeer(cr, e, payload, wantSignature).value;
            peer.deviceId == peer.certificate.deviceId && peer.publicKey == peer.certificate.publicKey
  {
  }

  predicate Transcribed(e: Endpoint) {
    && e.peer.Some? && e.info.Some? && e.pairId.Some? && e.localStatic.Some? && e.transcript.Some?
    && MakeTranscript(ViewOf(e, e.peer.value)) == Ok(e.transcript.value)
    && PeerKnown(e, ViewOf(e, e.peer.value))
  }

  lemma HelloTranscribes(cr: Crypto, e: Endpoint, info: HandshakeInfo, payload: Bytes)
    requires ReceiveHello(cr, e, info, payload).Ok?
    requires e.validation.Paired? ==> WellPinned(e.validation.context)
    ensures var (after, proof) := ReceiveHello(cr, e, info, payload).value;
            && Transcribed(after)
            && after == e.(info := Some(info), transcript := after.transcript, peer := after.peer, sentAuth := true)
            && Ok(proof) == AuthProof(cr, e.certificate, e.identity, after.transcript.value, ROLE_RESPONDER)
            && |proof| != |ACK_MAGIC|
  {
    JudgedPeerIsItsCertificate(cr, e.(info := Some(info)), payload, false);
  }

  lemma ProofTranscribes(cr: Crypto, e: Endpoint, payload: Bytes)
    requires ReceiveProof(cr, e, payload).Ok?
    requires e.validation.Paired? ==> WellPinned(e.validation.context)
    ensures var (after, signature) := ReceiveProof(cr, e, payload).value;
            && Transcribed(after)
            && after == e.(transcript := after.transcript, peer := after.peer)
            && after.peer.value.signature.Some?
            && VerifyTranscript(cr, after.peer.value, after.transcript.value, ROLE_RESPONDER, after.peer.value.signature.value)
            && signature == e.identity.Sign(cr, TranscriptMessage(after.transcript.value, ROLE_INITIATOR))
            && |signature| != |ACK_MAGIC|
  {
    JudgedPeerIsItsCertificate(cr, e, payload, true);
  }

  /** An unforged signature over a transcript under an honest key is a vow on exactly that view and role. */
  lemma UnforgedIsVow(d: Devices, w: World, key: Bytes32, v: View, t: Bytes, role: byte, signature: Bytes64)
    requires WorldInv(d, w) && key in d.Keys() && MakeTranscript(v) == Ok(t)
    requires Unforged(d, w, key, TranscriptMessage(t, role), signature)
    requires d.cr.verify(key, TranscriptMessage(t, role), signature)
    ensures Vow(key, v, role) in w.board.vows
  {
    if vow :| vow in w.board.vows && vow.key == key && VowMessage(vow) == Ok(TranscriptMessage(t, role)) {
      TranscriptMessageInjective(MakeTranscript(vow.view).value, vow.role, t, role);
      TranscriptDeterminesView(vow.view, v);
      assert vow == Vow(key, v, role);
    } else {
      var s :| (key, s) in w.others && MessageOf(s) == Ok(TranscriptMessage(t, role));
      SignaturesNeverTransfer(s, Signed.Transcript(t, role));
    }
  }

  // ---- Every action keeps the invariant ----

  /** The step changed endpoint n alone, and left n telling the same story on both sides. */
  predicate Touches(d: Devices, w: World, after: World, n: nat) {
    && after.endpoints.Keys == after.board.parties.Keys == w.endpoints.Keys + {n}
    && Linked(d.cr, after.endpoints[n], after.board.parties[n]) && Transcribes(after, n) && Remembers(after, n)
    && (forall m :: m in w.endpoints && m != n ==> Same(w, after, m))
    && w.board.log <= after.board.log
    && after.others == w.others
  }

  predicate Same(w: World, after: World, m: nat) {
    && m in w.endpoints && m in after.endpoints && m in w.board.parties && m in after.board.parties
    && after.endpoints[m] == w.endpoints[m] && after.board.parties[m] == w.board.parties[m]
  }

  /** What a step must show: its board step, its own endpoint, its own vow and its own sealed payload. */
  lemma TouchingKeepsWorld(d: Devices, w: World, after: World, n: nat)
    requires WorldInv(d, w) && Next(d.Keys(), w.board, after.board)
    requires Touches(d, w, after, n)
    requires forall vow :: vow in after.board.vows && vow !in w.board.vows ==> MakeTranscript(vow.view).Ok?
    requires forall m :: (m, ACK_MAGIC) in after.sealed && (m, ACK_MAGIC) !in w.sealed ==> HasAccepted(after.board, m)
    ensures WorldInv(d, after)
  {
    NextKeeps(d.Keys(), w.board, after.board);
    LogKeepsAccepted(w.board, after.board);
    forall m | m in after.endpoints
      ensures Linked(d.cr, after.endpoints[m], after.board.parties[m]) && Transcribes(after, m) && Remembers(after, m)
    {
      if m != n {
        assert Same(w, after, m) && Transcribes(w, m) && Remembers(w, m);
        LogKeepsAttestation(w.board.log, after.board.log, m, w.endpoints[m], w.board.parties[m]);
      }
    }
  }

  /** The board only grows its log, so what was accepted stays accepted. */
  lemma LogKeepsAccepted(b: Board, c: Board)
    requires b.log <= c.log
    ensures forall n :: HasAccepted(b, n) ==> HasAccepted(c, n)
  {
    forall n | HasAccepted(b, n)
      ensures HasAccepted(c, n)
    {
      var i :| 0 <= i < |b.log| && b.log[i].Accepted? && b.log[i].n == n;
      assert c.log[i] == b.log[i];
    }
  }

  lemma LogKeepsAttestation(log: seq<Event>, longer: seq<Event>, n: nat, e: Endpoint, p: Party)
    requires log <= longer && AttestationLogged(log, n, e, p)
    ensures AttestationLogged(longer, n, e, p)
  {
    if e.role == ROLE_INITIATOR && e.peer.Some? && p.view.Some? {
      var i :| 0 <= i < |log| && log[i] == Attested(n, p.view.value, p.key, e.peer.value.publicKey);
      assert longer[i] == log[i];
    }
  }

  /** Putting a consistent endpoint and logging at most one event touches that endpoint alone. */
  lemma PuttingTouches(d: Devices, w: World, after: World, n: nat, e: Endpoint, v: View)
    requires w.endpoints.Keys == w.board.parties.Keys && n in w.endpoints
    requires after.endpoints == w.endpoints[n := e]
    requires after.board.parties == w.board.parties[n := PartyOf(d.cr, e, Some(v))]
    requires after.others == w.others && w.board.log <= after.board.log
    requires Linked(d.cr, e, PartyOf(d.cr, e, Some(v)))
    requires e.transcript.Some? && MakeTranscript(v) == Ok(e.transcript.value)
    requires AttestationLogged(after.board.log, n, e, PartyOf(d.cr, e, Some(v)))
    ensures Touches(d, w, after, n)
  {
  }

  lemma OpensKeepsWorld(d: Devices, w: World, after: World, n: nat, created: Result<Endpoint>)
    requires WorldInv(d, w) && Opens(d, w, after, n, created) && Unused(created.value)
    ensures WorldInv(d, after)
  {
    assert HandshakeOrder.Opens(w.board, after.board, n, PartyOf(d.cr, created.value, None));
    TouchingKeepsWorld(d, w, after, n);
  }

  lemma StartedKeepsWorld(d: Devices, w: World, after: World, n: nat, pairId: Text, s: Bytes32)
    requires WorldInv(d, w) && n in w.endpoints && w.endpoints[n].localStatic.None? && FreshStatic(w.board, s)
    requires after == Put(d.cr, w, n, w.endpoints[n].(pairId := Some(pairId), localStatic := Some(s)), None)
    ensures WorldInv(d, after)
  {
    assert Linked(d.cr, w.endpoints[n], w.board.parties[n]);
    assert TakesStatic(w.board, after.board, n, s);
    TouchingKeepsWorld(d, w, after, n);
  }

  lemma StartKeepsWorld(d: Devices, w: World, after: World, n: nat, start: Start, s: Bytes32)
    requires WorldInv(d, w) && HearsStart(d, w, after, n, start, s)
    ensures WorldInv(d, after)
  {
    StartedKeepsWorld(d, w, after, n, start.pairId, s);
  }

  lemma HandshakeKeepsWorld(d: Devices, w: World, after: World, n: nat, info: HandshakeInfo)
    requires WorldInv(d, w) && HearsHandshake(d, w, after, n, info)
    ensures WorldInv(d, after)
  {
    assert Linked(d.cr, w.endpoints[n], w.board.parties[n]);
    assert Hears(w.board, after.board, n, info);
    TouchingKeepsWorld(d, w, after, n);
  }

  lemma ProvesOnBoard(d: Devices, w: World, c: Board, n: nat, info: HandshakeInfo, e: Endpoint)
    requires WorldInv(d, w) && n in w.endpoints && w.endpoints[n].role == ROLE_RESPONDER
    requires w.endpoints[n].info.None? && w.endpoints[n].localStatic.Some? && Transcribed(e)
    requires e == w.endpoints[n].(info := Some(info), transcript := e.transcript, peer := e.peer, sentAuth := true)
    requires var v := ViewOf(e, e.peer.value);
             var key := e.identity.PublicKey(d.cr);
             c == Board(w.board.parties[n := PartyOf(d.cr, e, Some(v))], w.board.vows + {Vow(key, v, ROLE_RESPONDER)},
                        w.board.log + [Proved(n, v, key)])
    ensures Proves(w.board, c, n, info, ViewOf(e, e.peer.value))
  {
    assert Linked(d.cr, w.endpoints[n], w.board.parties[n]);
  }

  lemma ProvedKeepsWorld(d: Devices, w: World, after: World, n: nat, info: HandshakeInfo, e: Endpoint, proof: Bytes)
    requires WorldInv(d, w) && n in w.endpoints && w.endpoints[n].role == ROLE_RESPONDER
    requires w.endpoints[n].info.None? && w.endpoints[n].localStatic.Some?
    requires Transcribed(e)
    requires e == w.endpoints[n].(info := Some(info), transcript := e.transcript, peer := e.peer, sentAuth := true)
    requires |proof| != |ACK_MAGIC|
    requires var v := ViewOf(e, e.peer.value);
             var key := e.identity.PublicKey(d.cr);
             after == Seal(Log(Swear(Put(d.cr, w, n, e, Some(v)), Vow(key, v, ROLE_RESPONDER)), Proved(n, v, key)), n, proof)
    ensures WorldInv(d, after)
  {
    assert Linked(d.cr, w.endpoints[n], w.board.parties[n]);
    ProvesOnBoard(d, w, after.board, n, info, e);
    PuttingTouches(d, w, after, n, e, ViewOf(e, e.peer.value));
    TouchingKeepsWorld(d, w, after, n);
  }

  lemma HelloKeepsWorld(d: Devices, w: World, after: World, n: nat, info: HandshakeInfo, payload: Bytes)
    requires WorldInv(d, w) && HearsHello(d, w, after, n, info, payload)
    ensures WorldInv(d, after)
  {
    assert Linked(d.cr, w.endpoints[n], w.board.parties[n]);
    HelloTranscribes(d.cr, w.endpoints[n], info, payload);
    var (e, proof) := ReceiveHello(d.cr, w.endpoints[n], info, payload).value;
    ProvedKeepsWorld(d, w, after, n, info, e, proof);
  }

  /** The endpoint verified its peer's signature on the transcript it holds, and that signature is no forgery. */
  ghost predicate ProofVerified(d: Devices, w: World, e: Endpoint) {
    && e.peer.Some? && e.transcript.Some? && e.peer.value.signature.Some?
    && VerifyTranscript(d.cr, e.peer.value, e.transcript.value, ROLE_RESPONDER, e.peer.value.signature.value)
    && Unforged(d, w, e.peer.value.publicKey, TranscriptMessage(e.transcript.value, ROLE_RESPONDER),
                e.peer.value.signature.value)
  }

  lemma AttestsOnBoard(d: Devices, w: World, c: Board, n: nat, e: Endpoint)
    requires WorldInv(d, w) && n in w.endpoints && w.endpoints[n].role == ROLE_INITIATOR
    requires w.endpoints[n].transcript.None? && w.endpoints[n].info.Some? && Transcribed(e)
    requires e == w.endpoints[n].(transcript := e.transcript, peer := e.peer)
    requires ProofVerified(d, w, e)
    requires var v := ViewOf(e, e.peer.value);
             var key := e.identity.PublicKey(d.cr);
             c == Board(w.board.parties[n := PartyOf(d.cr, e, Some(v))], w.board.vows + {Vow(key, v, ROLE_INITIATOR)},
                        w.board.log + [Attested(n, v, key, e.peer.value.publicKey)])
    ensures Attests(d.Keys(), w.board, c, n, ViewOf(e, e.peer.value), e.peer.value.publicKey)
  {
    assert Linked(d.cr, w.endpoints[n], w.board.parties[n]);
    if e.peer.value.publicKey in d.Keys() {
      UnforgedIsVow(d, w, e.peer.value.publicKey, ViewOf(e, e.peer.value), e.transcript.value, ROLE_RESPONDER,
                    e.peer.value.signature.value);
    }
  }

  lemma AttestedKeepsWorld(d: Devices, w: World, after: World, n: nat, e: Endpoint, signature: Bytes)
    requires WorldInv(d, w) && n in w.endpoints && w.endpoints[n].role == ROLE_INITIATOR
    requires w.endpoints[n].transcript.None? && w.endpoints[n].info.Some?
    requires Transcribed(e)
    requires e == w.endpoints[n].(transcript := e.transcript, peer := e.peer)
    requires |signature| != |ACK_MAGIC|
    requires ProofVerified(d, w, e)
    requires var v := ViewOf(e, e.peer.value);
             var key := e.identity.PublicKey(d.cr);
             after == Seal(Log(Swear(Put(d.cr, w, n, e, Some(v)), Vow(key, v, ROLE_INITIATOR)),
                               Attested(n, v, key, e.peer.value.publicKey)), n, signature)
    ensures WorldInv(d, after)
  {
    assert Linked(d.cr, w.endpoints[n], w.board.parties[n]);
    var v, peerKey := ViewOf(e, e.peer.value), e.peer.value.publicKey;
    AttestsOnBoard(d, w, after.board, n, e);
    assert after.board.log[|w.board.log|] == Attested(n, v, w.board.parties[n].key, peerKey);
    PuttingTouches(d, w, after, n, e, v);
    TouchingKeepsWorld(d, w, after, n);
  }

  lemma ProofKeepsWorld(d: Devices, w: World, after: World, n: nat, payload: Bytes)
    requires WorldInv(d, w) && HearsProof(d, w, after, n, payload)
    ensures WorldInv(d, after)
  {
    assert Linked(d.cr, w.endpoints[n], w.board.parties[n]);
    ProofTranscribes(d.cr, w.endpoints[n], payload);
    var (e, signature) := ReceiveProof(d.cr, w.endpoints[n], payload).value;
    AttestedKeepsWorld(d, w, after, n, e, signature);
  }

  lemma AcceptedKeepsWorld(d: Devices, w: World, after: World, n: nat, peerKey: Bytes32, signature: Bytes64, ack: Bytes)
    requires WorldInv(d, w) && n in w.endpoints && n in w.board.parties && w.board.parties[n].view.Some?
    requires w.endpoints[n].role == ROLE_RESPONDER && w.endpoints[n].transcript.Some?
    requires d.cr.verify(peerKey, TranscriptMessage(w.endpoints[n].transcript.value, ROLE_INITIATOR), signature)
    requires Unforged(d, w, peerKey, TranscriptMessage(w.endpoints[n].transcript.value, ROLE_INITIATOR), signature)
    requires after == Seal(Log(w, Accepted(n, w.board.parties[n].view.value, w.endpoints[n].identity.PublicKey(d.cr),
                                           peerKey)), n, ack)
    ensures WorldInv(d, after)
  {
    var e, p := w.endpoints[n], w.board.parties[n];
    assert Linked(d.cr, e, p) && Transcribes(w, n);
    if peerKey in d.Keys() {
      UnforgedIsVow(d, w, peerKey, p.view.value, e.transcript.value, ROLE_INITIATOR, signature);
    }
    assert Accepts(d.Keys(), w.board, after.board, n, peerKey);
    assert after.board.log[|w.board.log|].Accepted?;
    assert HasAccepted(after.board, n);
    TouchingKeepsWorld(d, w, after, n);
  }

  lemma SignatureKeepsWorld(d: Devices, w: World, after: World, n: nat, payload: Bytes)
    requires WorldInv(d, w) && HearsSignature(d, w, after, n, payload)
    ensures WorldInv(d, after)
  {
    var (ack, session) := ReceiveSignature(d.cr, w.endpoints[n], payload).value;
    AcceptedKeepsWorld(d, w, after, n, session.peerPublicKey, payload, ack);
  }

  /** Whoever holds the other end of the channel an acknowledgement came through has accepted. */
  lemma AckMeansAccepted(d: Devices, w: World, n: nat, m: nat)
    requires WorldInv(d, w) && n in w.endpoints && n in w.board.parties && w.board.parties[n].view.Some?
    requires w.endpoints[n].role == ROLE_INITIATOR && ChannelCarries(w, w.endpoints[n], ACK_MAGIC)
    requires m in w.board.parties && w.board.parties[m].info.Some?
    requires w.board.parties[m].local == Some(w.board.parties[n].view.value.responderStatic)
    requires w.board.parties[m].info.value.hash == w.board.parties[n].view.value.hash
    ensures HasAccepted(w.board, m)
  {
    assert Linked(d.cr, w.endpoints[n], w.board.parties[n]);
    assert Linked(d.cr, w.endpoints[m], w.board.parties[m]);
    assert ViewsOwned(w.board);
    assert (m, ACK_MAGIC) in w.sealed;
  }

  lemma CompletesOnBoard(d: Devices, w: World, c: Board, n: nat, peerKey: Bytes32)
    requires WorldInv(d, w) && n in w.endpoints && n in w.board.parties && w.board.parties[n].view.Some?
    requires w.endpoints[n].role == ROLE_INITIATOR && w.endpoints[n].peer.Some?
    requires peerKey == w.endpoints[n].peer.value.publicKey
    requires ChannelCarries(w, w.endpoints[n], ACK_MAGIC)
    requires var p := w.board.parties[n];
             c == w.board.(log := w.board.log + [Completed(n, p.view.value, p.key, peerKey)])
    ensures Completes(w.board, c, n, peerKey)
  {
    assert Linked(d.cr, w.endpoints[n], w.board.parties[n]) && Remembers(w, n);
    forall m | m in w.board.parties && w.board.parties[m].local == Some(w.board.parties[n].view.value.responderStatic)
               && w.board.parties[m].info.Some?
               && w.board.parties[m].info.value.hash == w.board.parties[n].view.value.hash
      ensures HasAccepted(w.board, m)
    {
      AckMeansAccepted(d, w, n, m);
    }
  }

  /** What completing makes of the world: the peer is taken and the completion logged, nothing else. */
  function CompletedWorld(d: Devices, w: World, n: nat): World
    requires n in w.endpoints && n in w.board.parties && w.board.parties[n].view.Some? && w.endpoints[n].peer.Some?
  {
    var e, v := w.endpoints[n], w.board.parties[n].view.value;
    Log(Put(d.cr, w, n, e.(peer := None), Some(v)),
        Completed(n, v, e.identity.PublicKey(d.cr), e.peer.value.publicKey))
  }

  lemma CompletedTouches(d: Devices, w: World, n: nat)
    requires WorldInv(d, w) && n in w.endpoints && n in w.board.parties && w.board.parties[n].view.Some?
    requires w.endpoints[n].role == ROLE_INITIATOR && w.endpoints[n].peer.Some?
    ensures Touches(d, w, CompletedWorld(d, w, n), n)
    ensures CompletedWorld(d, w, n).board.parties == w.board.parties
    ensures w.board.parties[n].key == w.endpoints[n].identity.PublicKey(d.cr)
  {
    assert Linked(d.cr, w.endpoints[n], w.board.parties[n]) && Transcribes(w, n);
    PuttingTouches(d, w, CompletedWorld(d, w, n), n, w.endpoints[n].(peer := None), w.board.parties[n].view.value);
  }

  /** The peer an initiator attested is the one its acknowledged session names. */
  lemma CompletedKeepsWorld(d: Devices, w: World, n: nat)
    requires WorldInv(d, w) && n in w.endpoints && n in w.board.parties && w.board.parties[n].view.Some?
    requires w.endpoints[n].role == ROLE_INITIATOR && w.endpoints[n].peer.Some?
    requires ChannelCarries(w, w.endpoints[n], ACK_MAGIC)
    ensures WorldInv(d, CompletedWorld(d, w, n))
  {
    CompletedTouches(d, w, n);
    CompletesOnBoard(d, w, CompletedWorld(d, w, n).board, n, w.endpoints[n].peer.value.publicKey);
    TouchingKeepsWorld(d, w, CompletedWorld(d, w, n), n);
  }

  lemma AckKeepsWorld(d: Devices, w: World, after: World, n: nat, payload: Bytes)
    requires WorldInv(d, w) && HearsAck(d, w, after, n, payload)
    ensures WorldInv(d, after)
  {
    assert after == CompletedWorld(d, w, n);
    CompletedKeepsWorld(d, w, n);
  }
}
