/** What an adversary on the network leaves of the exchange: the pair's own sessions, and messages in order. */
module ExchangeNetwork {
  import opened Octets
  import opened Frames
  import opened Records
  import opened Endpoints
  import opened Exchanges
  import opened ExchangeRecords
  import opened ExchangeRefinement
  import H = HandshakeRuns
  import W = Handshakes

  /** The endpoint was opened for this pair, and has judged the peer by the certificate the peer does use. */
  predicate OfPair(k: Peers, e: Endpoint) {
    e.certificate == k.initiatorCertificate && e.peer.Some? && e.peer.value.certificate == k.responderCertificate
  }

  /** The binding the exchange gives a session of this endpoint. */
  function BindingAt(k: Peers, e: Endpoint): Bytes32
    requires e.pairId.Some? && e.localStatic.Some? && e.info.Some?
  {
    BindingOf(k, e.Mode() == MODE_RECONNECT, e.pairId.value, e.localStatic.value, e.info.value.remoteStatic, e.info.value.hash)
  }

  /** The transcript an initiator completes with is the one the exchange takes its binding from. */
  lemma CompletedBinding(k: Peers, d: W.Devices, w: W.World, n: nat, payload: Bytes)
    requires W.WorldInv(d, w) && n in w.endpoints && w.endpoints[n].role == ROLE_INITIATOR
    requires ReceiveAck(d.cr, w.endpoints[n], payload).Ok? && OfPair(k, w.endpoints[n]) && d.cr == k.cr
    ensures var e := w.endpoints[n];
            && e.pairId.Some? && e.localStatic.Some? && e.info.Some? && e.transcript.Some?
            && d.cr.digest(e.transcript.value) == BindingAt(k, e)
  {
    H.CompleterSeesItsView(d, w, n, payload);
  }

  /**
   Among any number of interleaved handshakes with adversarial payloads: a session an initiator of this pair opens,
   and the one its responder had opened before, are exactly the two sessions the exchange gives them.
   */
  lemma SessionsAreThePairs(k: Peers, d: W.Devices, worlds: seq<W.World>, actions: seq<W.Action>, i: nat) returns (j: nat)
    requires H.Run(d, worlds, actions) && i < |actions| && H.OpensInitiatorSession(d, worlds[i], actions[i])
    requires OfPair(k, worlds[i].endpoints[actions[i].n]) && d.cr == k.cr
    ensures j < i
    ensures var e := worlds[i].endpoints[actions[i].n];
            && e.pairId.Some? && e.localStatic.Some? && e.info.Some?
            && H.AcceptsHere(d.cr, worlds[j], actions[j], k.responderCertificate.publicKey)
            && (ReceiveAck(d.cr, e, actions[i].payload).value.1,
                ReceiveSignature(d.cr, worlds[j].endpoints[actions[j].n], actions[j].payload).value.1)
               == SessionsOf(k, e.pairId.value, BindingAt(k, e))
  {
    H.RunKeepsWorld(d, worlds, actions, i);
    j := H.InitiatorAgreement(d, worlds, actions, i);
    CompletedBinding(k, d, worlds[i], actions[i].n, actions[i].payload);
  }
}
