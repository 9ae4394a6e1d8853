/** What an accepted announcement or an active record says about the keys that signed it. */
module Provenance {
  import opened Octets
  import opened Cryptography
  import opened Records
  import opened Stores
  import opened StoreRuns
  import opened ReplayWindow
  import opened DomainSeparation
  import Certificates
  import Discovery

  /** Everything each key has signed, of whatever kind. */
  type Testimony = set<(Bytes32, Signed)>

  /** No forgery: a signature that verifies under an honest key was made by that key over that message. */
  ghost predicate Unforged(cr: Crypto, honest: set<Bytes32>, signed: Testimony,
                           key: Bytes32, message: Bytes, signature: Bytes64)
  {
    key in honest && cr.verify(key, message, signature) ==>
      exists s :: (key, s) in signed && MessageOf(s) == Ok(message)
  }

  /**
   An accepted announcement: its certificate is valid under the pinned root, and if its key is honest, the
   owner of that key announced exactly this nonce, time and port.
   */
  lemma AnnouncementIsOwnersWord(p: Discovery.Policy, honest: set<Bytes32>, signed: Testimony, seen: Seen,
                                 packet: Discovery.Packet, a: Discovery.DiscoveryAnnouncement)
    returns (said: Discovery.DiscoveryAnnouncement)
    requires Discovery.Answer(p, seen, packet).Ok? && Discovery.FromBytes(packet.bytes) == Ok(a)
    requires a.certificate.publicKey in honest && Discovery.AnnouncementSigningBytes(a).Ok?
    requires Unforged(p.cr, honest, signed, a.certificate.publicKey,
                      Discovery.AnnouncementSigningBytes(a).value, a.signature)
    ensures Certificates.Verify(p.cr, a.certificate, p.root, packet.now)
    ensures (a.certificate.publicKey, Signed.Announcement(said)) in signed
    ensures said.certificate == a.certificate && said.nonce == a.nonce
    ensures Discovery.Answer(p, seen, packet).value
         == Discovery.VerifiedDiscovery(said.certificate.deviceId, said.certificate.deviceName,
                                        said.certificate.publicKey, said.timestamp, said.port)
  {
    var message := Discovery.AnnouncementSigningBytes(a).value;
    var s :| (a.certificate.publicKey, s) in signed && MessageOf(s) == Ok(message);
    SignaturesNeverTransfer(s, Signed.Announcement(a));
    said := s.announcement;
  }

  /** A valid role signature under an honest key: that key signed this very content in that very role. */
  lemma RecordIsOwnersWord(cr: Crypto, honest: set<Bytes32>, signed: Testimony, r: PairingRecord, role: byte)
    returns (said: PairingRecord)
    requires SignatureFor(r, role).Some? && VerifyRecordSignature(cr, r, role, SignatureFor(r, role).value)
    requires RoleKey(r, role) in honest
    requires Unforged(cr, honest, signed, RoleKey(r, role), RoleMessage(r, role).value, SignatureFor(r, role).value)
    ensures (RoleKey(r, role), Signed.PairingRecord(said, role)) in signed && Unsigned(said) == Unsigned(r)
  {
    var message := RoleMessage(r, role).value;
    var s :| (RoleKey(r, role), s) in signed && MessageOf(s) == Ok(message);
    SignaturesNeverTransfer(s, Signed.PairingRecord(r, role));
    said := s.record;
  }

  /** No signature the record carries is forged. */
  ghost predicate RecordUnforged(cr: Crypto, honest: set<Bytes32>, signed: Testimony, r: PairingRecord, role: byte) {
    RoleMessage(r, role).Ok? && SignatureFor(r, role).Some? && |SignatureFor(r, role).value| == 64 ==>
      Unforged(cr, honest, signed, RoleKey(r, role), RoleMessage(r, role).value, SignatureFor(r, role).value)
  }

  /**
   Bilateral consent: in every state of every history of a device's store, each honest participant of an
   active record has signed exactly that record's content, in its own role.
   */
  lemma ActiveRecordHasConsent(cr: Crypto, root: Certificates.PinnedRoot, identity: DeviceIdentity, h: seq<Store>,
                               i: nat, p: Bytes, honest: set<Bytes32>, signed: Testimony, role: byte)
    returns (said: PairingRecord)
    requires History(cr, root, identity, h) && i < |h| && p in h[i].active
    requires role == ROLE_INITIATOR || role == ROLE_RESPONDER
    requires RoleKey(h[i].active[p], role) in honest && RecordUnforged(cr, honest, signed, h[i].active[p], role)
    ensures (RoleKey(h[i].active[p], role), Signed.PairingRecord(said, role)) in signed
    ensures Unsigned(said) == Unsigned(h[i].active[p])
  {
    ActiveIsAlwaysBilateral(cr, root, identity, h, i, p);
    said := RecordIsOwnersWord(cr, honest, signed, h[i].active[p], role);
  }
}
