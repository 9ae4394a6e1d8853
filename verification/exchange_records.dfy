/** Every record two enrolled devices file for each other is determined by its PairID and issue. */
module ExchangeRecords {
  import opened Octets
  import opened Cursors
  import opened Cryptography
  import opened Records
  import opened Sessions
  import opened Stores
  import opened Endpoints
  import opened Exchanges
  import opened ExchangePlans
  import Certificates

  /** Both devices hold certificates under the pinned root for their own keys, and are two devices. */
  ghost predicate Enrolled(k: Peers) {
    && Sound(k.cr)
    && Certificates.RootCertified(k.cr, k.initiatorCertificate, k.root)
    && Certificates.RootCertified(k.cr, k.responderCertificate, k.root)
    && k.initiatorCertificate.publicKey == k.initiator.PublicKey(k.cr)
    && k.responderCertificate.publicKey == k.responder.PublicKey(k.cr)
    && k.initiatorCertificate.deviceId != k.responderCertificate.deviceId
  }

  /** Both certificates are in their validity window. */
  predicate InBoth(k: Peers, time: u64) {
    Certificates.InWindow(k.initiatorCertificate, time) && Certificates.InWindow(k.responderCertificate, time)
  }

  function AsText(id: Bytes): Text {
    if Utf8(id) then id else []
  }

  function Printed(c: Certificates.DeviceCertificate): Bytes {
    if Certificates.ToBytes(c).Ok? then Certificates.ToBytes(c).value else []
  }

  /** The record before anyone has signed it. */
  function Blank(k: Peers, id: Bytes, issue: Issue): PairingRecord {
    DomainIsText();
    PairingRecord(Certificates.PROTOCOL_VERSION, DOMAIN, AsText(id),
                  k.initiatorCertificate.deviceId, k.responderCertificate.deviceId,
                  k.initiatorCertificate.publicKey, k.responderCertificate.publicKey,
                  Printed(k.initiatorCertificate), Printed(k.responderCertificate),
                  issue.binding, k.responderCertificate.deviceId, issue.marker, issue.at, None, None)
  }

  function SignedBy(cr: Crypto, who: DeviceIdentity, r: PairingRecord, role: byte): PairingRecord {
    var signature := SignRecord(cr, who, r, role);
    if signature.Ok? then SetSignature(r, role, signature.value) else r
  }

  /** What the responder files as pending. */
  function Half(k: Peers, id: Bytes, issue: Issue): PairingRecord {
    SignedBy(k.cr, k.responder, Blank(k, id, issue), ROLE_RESPONDER)
  }

  /** What the initiator files as pending, and what either device activates. */
  function Full(k: Peers, id: Bytes, issue: Issue): PairingRecord {
    SignedBy(k.cr, k.initiator, Half(k, id, issue), ROLE_INITIATOR)
  }

  /** The issue can be printed: a proper PairID, a proper marker, a non-zero time. */
  predicate Proper(id: Bytes, issue: Issue) {
    LowerHex32(id) && Bounded(issue.marker, MAX_MARKER_BYTES) && issue.at != 0
  }

  lemma BlankIsProper(k: Peers, id: Bytes, issue: Issue)
    requires Enrolled(k)
    ensures ValidateShape(Blank(k, id, issue)) <==> Proper(id, issue)
    ensures ValidateShape(Blank(k, id, issue)) ==> Printable(Blank(k, id, issue))
  {
    if LowerHex32(id) {
      LowerHexIsUtf8(id);
    }
  }

  /** Signing never changes what is signed. */
  lemma SigningKeepsBody(cr: Crypto, who: DeviceIdentity, r: PairingRecord, role: byte)
    ensures Unsigned(SignedBy(cr, who, r, role)) == Unsigned(r)
    ensures SigningBytes(SignedBy(cr, who, r, role)) == SigningBytes(r)
    ensures ValidateShape(SignedBy(cr, who, r, role)) == ValidateShape(r)
  {
  }

  lemma FullIsSigned(k: Peers, id: Bytes, issue: Issue)
    requires Enrolled(k) && Proper(id, issue)
    ensures Half(k, id, issue).responderSignature.Some? && Half(k, id, issue).initiatorSignature.None?
    ensures Full(k, id, issue).IsComplete()
    ensures Unsigned(Half(k, id, issue)) == Unsigned(Full(k, id, issue)) == Blank(k, id, issue)
    ensures PresentSignaturesValid(k.cr, Half(k, id, issue)) && PresentSignaturesValid(k.cr, Full(k, id, issue))
  {
    var blank, half, full := Blank(k, id, issue), Half(k, id, issue), Full(k, id, issue);
    BlankIsProper(k, id, issue);
    SigningKeepsBody(k.cr, k.responder, blank, ROLE_RESPONDER);
    SigningKeepsBody(k.cr, k.initiator, half, ROLE_INITIATOR);
  }

  /** The embedded certificates parse back to the devices' own. */
  lemma RecordIsCertified(k: Peers, id: Bytes, issue: Issue, r: PairingRecord, time: u64)
    requires Enrolled(k) && Unsigned(r) == Blank(k, id, issue)
    ensures Certificates.FromBytes(r.initiatorCertificate) == Result.Ok(k.initiatorCertificate)
    ensures Certificates.FromBytes(r.responderCertificate) == Result.Ok(k.responderCertificate)
    ensures IdentitiesCertified(k.cr, k.root, r)
    ensures WindowsContain(r, time) <==> InBoth(k, time)
    ensures ProtocolAndDomain(r)
  {
    Certificates.ParsePrinted(k.initiatorCertificate);
    Certificates.ParsePrinted(k.responderCertificate);
  }

  /** A record of this pair, as filed by either device. */
  predicate IsPaper(k: Peers, id: Bytes, issue: Issue, r: PairingRecord) {
    r == Half(k, id, issue) || r == Full(k, id, issue)
  }

  lemma PaperValidates(k: Peers, id: Bytes, issue: Issue, r: PairingRecord, now: u64)
    requires Enrolled(k) && Proper(id, issue) && IsPaper(k, id, issue, r)
    ensures ValidateShape(r) && Unsigned(r) == Blank(k, id, issue)
    ensures r.IsComplete() <==> r == Full(k, id, issue)
    ensures ValidatePendingStored(k.At(now), r) <==> InBoth(k, issue.at)
    ensures ValidateStored(k.At(now), r) <==> r.IsComplete() && InBoth(k, issue.at)
    ensures Between(r, k.InitiatorId(), k.ResponderId())
  {
    BlankIsProper(k, id, issue);
    FullIsSigned(k, id, issue);
    SigningKeepsBody(k.cr, k.responder, Blank(k, id, issue), ROLE_RESPONDER);
    SigningKeepsBody(k.cr, k.initiator, Half(k, id, issue), ROLE_INITIATOR);
    RecordIsCertified(k, id, issue, r, issue.at);
  }

  /** Papers with a marker free of control characters can always be filed. */
  lemma PlainPaperFits(k: Peers, id: Bytes, issue: Issue)
    requires Enrolled(k) && Proper(id, issue) && PlainMarker(issue.marker)
    ensures Fits(Half(k, id, issue)) && Fits(Full(k, id, issue))
  {
    var half, full := Half(k, id, issue), Full(k, id, issue);
    PaperValidates(k, id, issue, half, 0);
    PaperValidates(k, id, issue, full, 0);
    FullIsSigned(k, id, issue);
    PlainRecordFits(half);
    PlainRecordFits(full);
  }

  function SessionsOf(k: Peers, id: Bytes, binding: Bytes32): (Session, Session) {
    MirroredSessions(AsText(id), k.initiatorCertificate, k.responderCertificate, binding)
  }

  function SessionOf(k: Peers, id: Bytes, binding: Bytes32, role: byte): Session {
    if role == ROLE_INITIATOR then SessionsOf(k, id, binding).0 else SessionsOf(k, id, binding).1
  }

  function Who(k: Peers, role: byte): DeviceIdentity {
    if role == ROLE_INITIATOR then k.initiator else k.responder
  }

  lemma SessionNamesPaper(k: Peers, id: Bytes, issue: Issue, r: PairingRecord, session: Bytes, binding: Bytes32, role: byte)
    requires Enrolled(k) && Unsigned(r) == Blank(k, id, issue)
    requires role == ROLE_INITIATOR || role == ROLE_RESPONDER
    ensures var s := SessionOf(k, session, binding, role);
            && ValidateSessionIdentity(k.cr, s, Who(k, role)) && NamesSession(r, s)
            && s.sessionBinding == binding && s.RecordRole() == role && s.pairId == AsText(session)
    ensures r.authorizingDeviceId == r.responderDeviceId == k.ResponderId() && r.sessionBinding == issue.binding
    ensures r.authorizedAt == issue.at
  {
  }

  /** All checks of `validate_record` that do not depend on the session's binding or on the time. */
  predicate Named(cr: Crypto, root: Certificates.PinnedRoot, r: PairingRecord, s: Session, who: DeviceIdentity) {
    && ValidateShape(r) && ProtocolAndDomain(r) && IdentitiesCertified(cr, root, r) && NamesSession(r, s)
    && (r.authorizingDeviceId == r.initiatorDeviceId || r.authorizingDeviceId == r.responderDeviceId)
    && who.DeviceId(cr) == s.localDeviceId && PresentSignaturesValid(cr, r)
  }

  lemma NamedValidates(env: Env, r: PairingRecord, s: Session, who: DeviceIdentity, complete: bool, bind: bool, stored: bool)
    requires Named(env.cr, env.root, r, s, who)
    ensures ValidateRecord(env, r, s, who, complete, bind, stored)
       <==> && (complete ==> r.IsComplete())
            && WindowsContain(r, if stored then r.authorizedAt else env.now)
            && (bind ==> s.sessionBinding == r.sessionBinding)
  {
  }

  lemma PaperIsNamed(k: Peers, id: Bytes, issue: Issue, r: PairingRecord, session: Bytes, binding: Bytes32, role: byte)
    requires Enrolled(k) && Proper(id, issue) && IsPaper(k, id, issue, r)
    requires role == ROLE_INITIATOR || role == ROLE_RESPONDER
    ensures Named(k.cr, k.root, r, SessionOf(k, session, binding, role), Who(k, role))
  {
    PaperValidates(k, id, issue, r, 0);
    RecordIsCertified(k, id, issue, r, 0);
    FullIsSigned(k, id, issue);
    SessionNamesPaper(k, id, issue, r, session, binding, role);
  }

  /** Which records validate in which session, whatever PairID the session was opened under. */
  lemma PaperValidatesInSession(k: Peers, id: Bytes, issue: Issue, r: PairingRecord, now: u64,
                                session: Bytes, binding: Bytes32, role: byte,
                                complete: bool, bind: bool, stored: bool)
    requires Enrolled(k) && Proper(id, issue) && IsPaper(k, id, issue, r)
    requires role == ROLE_INITIATOR || role == ROLE_RESPONDER
    ensures ValidateSessionIdentity(k.cr, SessionOf(k, session, binding, role), Who(k, role))
    ensures ValidateRecord(k.At(now), r, SessionOf(k, session, binding, role), Who(k, role), complete, bind, stored)
       <==> && (complete ==> r.IsComplete())
            && InBoth(k, if stored then issue.at else now)
            && (bind ==> binding == issue.binding)
  {
    PaperValidates(k, id, issue, r, now);
    SessionNamesPaper(k, id, issue, r, session, binding, role);
    PaperIsNamed(k, id, issue, r, session, binding, role);
    NamedValidates(k.At(now), r, SessionOf(k, session, binding, role), Who(k, role), complete, bind, stored);
    RecordIsCertified(k, id, issue, r, if stored then issue.at else now);
  }
}
