/** Whole runs of any number of interleaved handshakes, and what a session says about its peer. */
module HandshakeRuns {
  import opened Octets
  import opened Cryptography
  import opened Records
  import opened AuthMessages
  import opened HandshakeOrder
  import opened Endpoints
  import opened DomainSeparation
  import opened Handshakes

  /** It starts with no endpoint and nothing signed; each world follows from the one before by its action. */
  ghost predicate Run(d: Devices, worlds: seq<World>, actions: seq<Action>) {
    && |worlds| == |actions| + 1
    && worlds[0] == EMPTY_WORLD
    && forall i :: 0 <= i < |actions| ==> Acts(d, worlds[i], actions[i], worlds[i + 1])
  }

  // ---- The invariant holds throughout ----

  lemma SignElsewhereKeepsWorld(d: Devices, w: World, after: World, identity: DeviceIdentity, s: Signed)
    requires WorldInv(d, w) && !s.Transcript?
    requires after == w.(others := w.others + {(identity.PublicKey(d.cr), s)})
    ensures WorldInv(d, after)
  {
    forall n | n in after.endpoints
      ensures Transcribes(after, n) && Remembers(after, n)
    {
      assert Transcribes(w, n) && Remembers(w, n);
    }
  }

  lemma ActsKeepsWorld(d: Devices, w: World, a: Action, after: World)
    requires WorldInv(d, w) && Acts(d, w, a, after)
    ensures WorldInv(d, after)
  {
    match a
    case OpenInitiator(n, identity, c, expected, root, now, pairId, s) =>
      OpensKeepsWorld(d, w, after, n, NewInitiator(d.cr, identity, c, expected, root, now, pairId, s));
    case OpenReconnectInitiator(n, identity, context, s) =>
      OpensKeepsWorld(d, w, after, n, NewReconnectInitiator(d.cr, identity, context, s));
    case OpenResponder(n, identity, c, expected, root, now) =>
      OpensKeepsWorld(d, w, after, n, NewResponder(d.cr, identity, c, expected, root, now));
    case OpenReconnectResponder(n, identity, context) =>
      OpensKeepsWorld(d, w, after, n, NewReconnectResponder(d.cr, identity, context));
    case DeliverStart(n, start, s) => StartKeepsWorld(d, w, after, n, start, s);
    case DeliverHandshake(n, info) => HandshakeKeepsWorld(d, w, after, n, info);
    case DeliverHello(n, info, payload) => HelloKeepsWorld(d, w, after, n, info, payload);
    case DeliverProof(n, payload) => ProofKeepsWorld(d, w, after, n, payload);
    case DeliverSignature(n, payload) => SignatureKeepsWorld(d, w, after, n, payload);
    case DeliverAck(n, payload) => AckKeepsWorld(d, w, after, n, payload);
    case SignElsewhere(identity, s) => SignElsewhereKeepsWorld(d, w, after, identity, s);
  }

  lemma {:induction false} RunKeepsWorld(d: Devices, worlds: seq<World>, actions: seq<Action>, i: nat)
    requires Run(d, worlds, actions) && i < |worlds|
    ensures WorldInv(d, worlds[i])
  {
    if i > 0 {
      RunKeepsWorld(d, worlds, actions, i - 1);
      ActsKeepsWorld(d, worlds[i - 1], actions[i - 1], worlds[i]);
    }
  }

  // ---- Which action logged an event ----

  /** The endpoint's own view, once it knows its peer. */
  predicate Sees(e: Endpoint, v: View) {
    && e.peer.Some? && e.info.Some? && e.pairId.Some? && e.localStatic.Some?
    && v == ViewOf(e, e.peer.value)
  }

  /** The initiator n verified the responder's proof and then signed the view. */
  predicate AttestsAt(cr: Crypto, w: World, a: Action, n: nat, v: View, key: Bytes32) {
    && a.DeliverProof? && a.n == n && n in w.endpoints
    && ReceiveProof(cr, w.endpoints[n], a.payload).Ok?
    && var e := ReceiveProof(cr, w.endpoints[n], a.payload).value.0;
       Sees(e, v) && e.role == ROLE_INITIATOR && e.identity.PublicKey(cr) == key
  }

  /** The responder n verified the initiator's signature over its view. */
  predicate AcceptsAt(cr: Crypto, w: World, a: Action, n: nat, v: View, key: Bytes32) {
    && a.DeliverSignature? && a.n == n && n in w.endpoints && n in w.board.parties
    && ReceiveSignature(cr, w.endpoints[n], a.payload).Ok?
    && w.endpoints[n].role == ROLE_RESPONDER
    && w.board.parties[n].view == Some(v) && w.endpoints[n].identity.PublicKey(cr) == key
  }

  predicate LoggedBy(cr: Crypto, w: World, a: Action, x: Event) {
    match x
    case Proved(_, _, _) => a.DeliverHello?
    case Attested(n, v, key, _) => AttestsAt(cr, w, a, n, v, key)
    case Accepted(n, v, key, _) => AcceptsAt(cr, w, a, n, v, key)
    case Completed(_, _, _, _) => a.DeliverAck?
  }

  /** An action logs at most one event, of its own kind. */
  ghost predicate Logs(cr: Crypto, w: World, a: Action, after: World) {
    || after.board.log == w.board.log
    || exists x :: after.board.log == w.board.log + [x] && LoggedBy(cr, w, a, x)
  }

  lemma ProofLogs(d: Devices, w: World, a: Action, after: World)
    requires a.DeliverProof? && HearsProof(d, w, after, a.n, a.payload)
    ensures Logs(d.cr, w, a, after)
  {
    var e := ReceiveProof(d.cr, w.endpoints[a.n], a.payload).value.0;
    var v := ViewOf(e, e.peer.value);
    var x := Attested(a.n, v, e.identity.PublicKey(d.cr), e.peer.value.publicKey);
    assert after.board.log == w.board.log + [x];
    assert LoggedBy(d.cr, w, a, x);
  }

  lemma SignatureLogs(d: Devices, w: World, a: Action, after: World)
    requires a.DeliverSignature? && HearsSignature(d, w, after, a.n, a.payload)
    ensures Logs(d.cr, w, a, after)
  {
    var session := ReceiveSignature(d.cr, w.endpoints[a.n], a.payload).value.1;
    var x := Accepted(a.n, w.board.parties[a.n].view.value, w.endpoints[a.n].identity.PublicKey(d.cr),
                      session.peerPublicKey);
    assert after.board.log == w.board.log + [x];
    assert LoggedBy(d.cr, w, a, x);
  }

  lemma HelloLogs(d: Devices, w: World, a: Action, after: World)
    requires a.DeliverHello? && HearsHello(d, w, after, a.n, a.info, a.payload)
    ensures Logs(d.cr, w, a, after)
  {
    var e := ReceiveHello(d.cr, w.endpoints[a.n], a.info, a.payload).value.0;
    var x := Proved(a.n, ViewOf(e, e.peer.value), e.identity.PublicKey(d.cr));
    assert after.board.log == w.board.log + [x];
    assert LoggedBy(d.cr, w, a, x);
  }

  lemma AckLogs(d: Devices, w: World, a: Action, after: World)
    requires a.DeliverAck? && HearsAck(d, w, after, a.n, a.payload)
    ensures Logs(d.cr, w, a, after)
  {
    var (e, session) := ReceiveAck(d.cr, w.endpoints[a.n], a.payload).value;
    var x := Completed(a.n, w.board.parties[a.n].view.value, e.identity.PublicKey(d.cr), session.peerPublicKey);
    assert after.board.log == w.board.log + [x];
    assert LoggedBy(d.cr, w, a, x);
  }

  lemma ActsLogs(d: Devices, w: World, a: Action, after: World)
    requires Acts(d, w, a, after)
    ensures Logs(d.cr, w, a, after)
  {
    match a
    case DeliverHello(_, _, _) => HelloLogs(d, w, a, after);
    case DeliverProof(_, _) => ProofLogs(d, w, a, after);
    case DeliverSignature(_, _) => SignatureLogs(d, w, a, after);
    case DeliverAck(_, _) => AckLogs(d, w, a, after);
    case _ =>
  }

  lemma NewEventHasAction(cr: Crypto, w: World, a: Action, after: World, x: Event)
    requires Logs(cr, w, a, after) && x in after.board.log && x !in w.board.log
    ensures LoggedBy(cr, w, a, x)
  {
    var y :| after.board.log == w.board.log + [y] && LoggedBy(cr, w, a, y);
    assert x == y;
  }

  lemma StepLogs(d: Devices, worlds: seq<World>, actions: seq<Action>, i: nat, x: Event)
    requires Run(d, worlds, actions) && i < |actions|
    requires x in worlds[i + 1].board.log && x !in worlds[i].board.log
    ensures LoggedBy(d.cr, worlds[i], actions[i], x)
  {
    ActsLogs(d, worlds[i], actions[i], worlds[i + 1]);
    NewEventHasAction(d.cr, worlds[i], actions[i], worlds[i + 1], x);
  }

  /** Every logged event was logged by an earlier action. */
  lemma {:induction false} EventHasAction(d: Devices, worlds: seq<World>, actions: seq<Action>, i: nat, x: Event)
    returns (j: nat)
    requires Run(d, worlds, actions) && i < |worlds| && x in worlds[i].board.log
    ensures j < i && LoggedBy(d.cr, worlds[j], actions[j], x)
  {
    if i == 0 {
      assert false;
    } else if x in worlds[i - 1].board.log {
      j := EventHasAction(d, worlds, actions, i - 1, x);
    } else {
      j := i - 1;
      StepLogs(d, worlds, actions, j, x);
    }
  }

  // ---- Agreement ----

  /** Both endpoints hold one transcript of one handshake, each naming the other, in opposite roles. */
  predicate Mirrors(i: Endpoint, r: Endpoint) {
    && i.role == ROLE_INITIATOR && r.role == ROLE_RESPONDER
    && i.transcript.Some? && i.transcript == r.transcript
    && i.pairId.Some? && i.pairId == r.pairId && i.Mode() == r.Mode()
    && i.peer.Some? && r.peer.Some?
    && i.peer.value.certificate == r.certificate && r.peer.value.certificate == i.certificate
    && i.info.Some? && r.info.Some? && i.info.value.hash == r.info.value.hash
    && i.localStatic == Some(r.info.value.remoteStatic) && r.localStatic == Some(i.info.value.remoteStatic)
  }

  lemma OneViewMirrors(i: Endpoint, r: Endpoint, v: View)
    requires i.role == ROLE_INITIATOR && r.role == ROLE_RESPONDER && Sees(i, v) && Sees(r, v)
    requires i.transcript.Some? && r.transcript.Some?
    requires MakeTranscript(v) == Ok(i.transcript.value) && MakeTranscript(v) == Ok(r.transcript.value)
    ensures Mirrors(i, r)
  {
  }

  predicate OpensResponderSession(d: Devices, w: World, a: Action) {
    && a.DeliverSignature? && a.n in w.endpoints
    && ReceiveSignature(d.cr, w.endpoints[a.n], a.payload).Ok?
    && ReceiveSignature(d.cr, w.endpoints[a.n], a.payload).value.1.peerPublicKey in d.Keys()
  }

  predicate OpensInitiatorSession(d: Devices, w: World, a: Action) {
    && a.DeliverAck? && a.n in w.endpoints
    && ReceiveAck(d.cr, w.endpoints[a.n], a.payload).Ok?
    && ReceiveAck(d.cr, w.endpoints[a.n], a.payload).value.1.peerPublicKey in d.Keys()
  }

  /** The endpoint as it stands once it has verified the proof. */
  function AfterProof(cr: Crypto, w: World, a: Action): Endpoint
    requires a.DeliverProof? && a.n in w.endpoints && ReceiveProof(cr, w.endpoints[a.n], a.payload).Ok?
  {
    ReceiveProof(cr, w.endpoints[a.n], a.payload).value.0
  }

  /** At this action an initiator under this key verifies the responder's proof, and then signs. */
  predicate AttestsHere(cr: Crypto, w: World, a: Action, key: Bytes32) {
    && a.DeliverProof? && a.n in w.endpoints
    && ReceiveProof(cr, w.endpoints[a.n], a.payload).Ok?
    && w.endpoints[a.n].identity.PublicKey(cr) == key
  }

  /** At this action a responder under this key verifies the initiator's signature. */
  predicate AcceptsHere(cr: Crypto, w: World, a: Action, key: Bytes32) {
    && a.DeliverSignature? && a.n in w.endpoints
    && ReceiveSignature(cr, w.endpoints[a.n], a.payload).Ok?
    && w.endpoints[a.n].identity.PublicKey(cr) == key
  }

  /** A responder that accepts sees, in its own state, the view its acceptance is logged with. */
  lemma AcceptorSeesItsView(d: Devices, w: World, n: nat, payload: Bytes)
    requires WorldInv(d, w) && n in w.endpoints && w.endpoints[n].role == ROLE_RESPONDER
    requires ReceiveSignature(d.cr, w.endpoints[n], payload).Ok?
    ensures n in w.board.parties && w.board.parties[n].view.Some?
    ensures var v := w.board.parties[n].view.value;
            && Sees(w.endpoints[n], v) && PeerKnown(w.endpoints[n], v)
            && MakeTranscript(v) == Ok(w.endpoints[n].transcript.value)
  {
    assert Linked(d.cr, w.endpoints[n], w.board.parties[n]) && Transcribes(w, n);
  }

  /** An initiator that attests holds the transcript of the view it attests. */
  lemma AttestorHoldsItsView(d: Devices, w: World, a: Action, v: View)
    requires WorldInv(d, w) && a.DeliverProof? && a.n in w.endpoints
    requires ReceiveProof(d.cr, w.endpoints[a.n], a.payload).Ok? && Sees(AfterProof(d.cr, w, a), v)
    ensures var e := AfterProof(d.cr, w, a);
            e.transcript.Some? && MakeTranscript(v) == Ok(e.transcript.value)
            && e.identity == w.endpoints[a.n].identity
  {
    assert Linked(d.cr, w.endpoints[a.n], w.board.parties[a.n]);
    ProofTranscribes(d.cr, w.endpoints[a.n], a.payload);
  }

  /**
   A responder's session with an honest peer key: earlier in the run an initiator under exactly that key
   verified the responder's signature over this very transcript and only then signed it, and the two
   agree on PairID, mode, certificates, static keys and handshake, in opposite roles.
   */
  lemma ResponderAgreement(d: Devices, worlds: seq<World>, actions: seq<Action>, i: nat)
    returns (j: nat)
    requires Run(d, worlds, actions) && i < |actions| && OpensResponderSession(d, worlds[i], actions[i])
    ensures j < i
    ensures var r := worlds[i].endpoints[actions[i].n];
            && AttestsHere(d.cr, worlds[j], actions[j], r.peer.value.publicKey)
            && Mirrors(AfterProof(d.cr, worlds[j], actions[j]), r)
  {
    var w, n := worlds[i], actions[i].n;
    RunKeepsWorld(d, worlds, actions, i);
    RunKeepsWorld(d, worlds, actions, i + 1);
    AcceptorSeesItsView(d, w, n, actions[i].payload);
    var r, v := w.endpoints[n], w.board.parties[n].view.value;
    var session := ReceiveSignature(d.cr, r, actions[i].payload).value.1;
    var x := Accepted(n, v, r.identity.PublicKey(d.cr), session.peerPublicKey);
    var y := LastEventRestsOnPeer(d.Keys(), w.board, worlds[i + 1].board, x);
    j := EventHasAction(d, worlds, actions, i, y);
    RunKeepsWorld(d, worlds, actions, j);
    AttestorHoldsItsView(d, worlds[j], actions[j], v);
    OneViewMirrors(AfterProof(d.cr, worlds[j], actions[j]), r, v);
  }

  /** The last event of a consistent board about an honest peer rests on that peer's own earlier event. */
  lemma LastEventRestsOnPeer(honest: set<Bytes32>, b: Board, c: Board, x: Event) returns (y: Event)
    requires Inv(honest, c) && c.log == b.log + [x]
    requires (x.Accepted? || x.Completed?) && x.peerKey in honest
    ensures y in b.log && y.view == x.view && y.key == x.peerKey
    ensures if x.Accepted? then y.Attested? else y.Accepted?
  {
    var k := |b.log|;
    assert c.log[k] == x && Justified(honest, c.log, k);
    var h :| 0 <= h < k && c.log[h].view == x.view && c.log[h].key == x.peerKey
             && KindOf(c.log[h]) == (if x.Accepted? then Attesting else Accepting);
    y := c.log[h];
    assert b.log[h] == y;
  }

  /** An initiator that completes sees the view its completion is logged with. */
  lemma CompleterSeesItsView(d: Devices, w: World, n: nat, payload: Bytes)
    requires WorldInv(d, w) && n in w.endpoints && w.endpoints[n].role == ROLE_INITIATOR
    requires ReceiveAck(d.cr, w.endpoints[n], payload).Ok?
    ensures n in w.board.parties && w.board.parties[n].view.Some?
    ensures var v := w.board.parties[n].view.value;
            && Sees(w.endpoints[n], v) && PeerKnown(w.endpoints[n], v)
            && MakeTranscript(v) == Ok(w.endpoints[n].transcript.value)
  {
    assert Linked(d.cr, w.endpoints[n], w.board.parties[n]) && Transcribes(w, n);
  }

  /**
   An initiator's session with an honest peer key: earlier in the run a responder under exactly that key
   verified the initiator's signature over this very transcript, and the two sessions mirror each other.
   */
  lemma InitiatorAgreement(d: Devices, worlds: seq<World>, actions: seq<Action>, i: nat)
    returns (j: nat)
    requires Run(d, worlds, actions) && i < |actions| && OpensInitiatorSession(d, worlds[i], actions[i])
    ensures j < i
    ensures var e := worlds[i].endpoints[actions[i].n];
            && AcceptsHere(d.cr, worlds[j], actions[j], e.peer.value.publicKey)
            && var r := worlds[j].endpoints[actions[j].n];
               && Mirrors(e, r)
               && (ReceiveAck(d.cr, e, actions[i].payload).value.1,
                   ReceiveSignature(d.cr, r, actions[j].payload).value.1)
                  == MirroredSessions(e.pairId.value, e.certificate, r.certificate, d.cr.digest(e.transcript.value))
  {
    var w, n := worlds[i], actions[i].n;
    RunKeepsWorld(d, worlds, actions, i);
    RunKeepsWorld(d, worlds, actions, i + 1);
    CompleterSeesItsView(d, w, n, actions[i].payload);
    var e, v := w.endpoints[n], w.board.parties[n].view.value;
    var session := ReceiveAck(d.cr, e, actions[i].payload).value.1;
    var x := Completed(n, v, e.identity.PublicKey(d.cr), session.peerPublicKey);
    var y := LastEventRestsOnPeer(d.Keys(), w.board, worlds[i + 1].board, x);
    j := EventHasAction(d, worlds, actions, i, y);
    RunKeepsWorld(d, worlds, actions, j);
    AcceptorSeesItsView(d, worlds[j], actions[j].n, actions[j].payload);
    OneViewMirrors(e, worlds[j].endpoints[actions[j].n], v);
    MirroredEndpointsOpenMirroredSessions(d.cr, e, worlds[j].endpoints[actions[j].n],
                                          actions[i].payload, actions[j].payload);
  }

  /** Mirrored endpoints open mirrored sessions: one binding, one PairID, exchanged certificates, opposite roles. */
  lemma MirroredEndpointsOpenMirroredSessions(cr: Crypto, i: Endpoint, r: Endpoint, ack: Bytes, signature: Bytes)
    requires Mirrors(i, r) && ReceiveAck(cr, i, ack).Ok? && ReceiveSignature(cr, r, signature).Ok?
    requires i.peer.value.deviceId == i.peer.value.certificate.deviceId
    requires i.peer.value.publicKey == i.peer.value.certificate.publicKey
    requires r.peer.value.deviceId == r.peer.value.certificate.deviceId
    requires r.peer.value.publicKey == r.peer.value.certificate.publicKey
    ensures (ReceiveAck(cr, i, ack).value.1, ReceiveSignature(cr, r, signature).value.1)
         == MirroredSessions(i.pairId.value, i.certificate, r.certificate, cr.digest(i.transcript.value))
  {
  }
}
