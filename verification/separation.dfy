/** No signature made for one kind of message is a signature for another. */
module DomainSeparation {
  import opened Octets
  import opened Cursors
  import opened Records
  import opened AuthMessages
  import Certificates
  import Discovery

  const ROUTE_MAGIC: Bytes := Ascii("OMARCHY-ROUTE-V3")

  /** The routing preface a connecting device signs. */
  function RouteMessage(deviceId: Bytes): Bytes {
    ROUTE_MAGIC + deviceId
  }

  /** Everything an Omarchy key ever signs. */
  datatype Signed =
    | PairingRecord(record: Records.PairingRecord, role: byte)
    | Transcript(transcript: Bytes, role: byte)
    | Announcement(announcement: Discovery.DiscoveryAnnouncement)
    | Route(deviceId: Bytes)
    | Certificate(certificate: Certificates.DeviceCertificate)

  function MessageOf(s: Signed): Result<Bytes> {
    match s
    case PairingRecord(r, role) => RoleMessage(r, role)
    case Transcript(t, role) => Ok(TranscriptMessage(t, role))
    case Announcement(a) => Discovery.AnnouncementSigningBytes(a)
    case Route(id) => Ok(RouteMessage(id))
    case Certificate(c) => Certificates.SigningBytes(c)
  }

  /** The octet that tells the kinds apart: index 8 of the prefix, then index 24 of the pairing prefixes. */
  function Discriminant(s: Signed): (int, int) {
    match s
    case PairingRecord(_, _) => (83, 82)
    case Transcript(_, _) => (83, 83)
    case Announcement(_) => (68, 0)
    case Route(_) => (82, 0)
    case Certificate(_) => (67, 0)
  }

  lemma PrefixKept(prefix: Bytes, tail: Bytes, i: nat)
    requires i < |prefix|
    ensures (prefix + tail)[i] == prefix[i]
  {
  }

  lemma RecordDiscriminant(r: Records.PairingRecord, role: byte)
    requires RoleMessage(r, role).Ok?
    ensures var m := RoleMessage(r, role).value; |m| > 24 && m[8] == 83 && m[24] == 82
  {
    var body := SigningBytes(r).value;
    PrefixKept(body, [role], 8);
    PrefixKept(body, [role], 24);
    assert RECORD_MAGIC[8] == 83 && RECORD_MAGIC[24] == 82;
  }

  lemma TranscriptDiscriminant(t: Bytes, role: byte)
    ensures var m := TranscriptMessage(t, role); |m| > 24 && m[8] == 83 && m[24] == 83
  {
    assert SIGNATURE_MAGIC[8] == 83 && SIGNATURE_MAGIC[24] == 83;
  }

  lemma AnnouncementDiscriminant(a: Discovery.DiscoveryAnnouncement)
    requires Discovery.AnnouncementSigningBytes(a).Ok?
    ensures var m := Discovery.AnnouncementSigningBytes(a).value; |m| > 8 && m[8] == 68
  {
    assert Discovery.DISCOVERY_MAGIC[8] == 68;
  }

  lemma RouteDiscriminant(id: Bytes)
    ensures |RouteMessage(id)| > 8 && RouteMessage(id)[8] == 82
  {
    assert ROUTE_MAGIC[8] == 82;
  }

  lemma CertificateDiscriminant(c: Certificates.DeviceCertificate)
    requires Certificates.SigningBytes(c).Ok?
    ensures var m := Certificates.SigningBytes(c).value; |m| > 8 && m[8] == 67
  {
    assert Certificates.CERT_MAGIC[8] == 67;
  }

  lemma MessageDiscriminant(s: Signed)
    requires MessageOf(s).Ok?
    ensures var m := MessageOf(s).value;
            && |m| > 8 && m[8] == Discriminant(s).0
            && (Discriminant(s).0 == 83 ==> |m| > 24 && m[24] == Discriminant(s).1)
  {
    match s
    case PairingRecord(r, role) => RecordDiscriminant(r, role);
    case Transcript(t, role) => TranscriptDiscriminant(t, role);
    case Announcement(a) => AnnouncementDiscriminant(a);
    case Route(id) => RouteDiscriminant(id);
    case Certificate(c) => CertificateDiscriminant(c);
  }

  /** Announcements with the same signed bytes differ at most in their own signature. */
  lemma AnnouncementDetermined(a: Discovery.DiscoveryAnnouncement, b: Discovery.DiscoveryAnnouncement)
    requires Discovery.AnnouncementSigningBytes(a).Ok?
    requires Discovery.AnnouncementSigningBytes(a) == Discovery.AnnouncementSigningBytes(b)
    ensures a.(signature := b.signature) == b
  {
    var ca, cb := Certificates.ToBytes(a.certificate).value, Certificates.ToBytes(b.certificate).value;
    var a4, b4 := BE16(a.port) + [], BE16(b.port) + [];
    var a3, b3 := BE64(a.timestamp) + a4, BE64(b.timestamp) + b4;
    var a2, b2 := a.nonce + a3, b.nonce + b3;
    var a1, b1 := Field(ca) + a2, Field(cb) + b2;
    PeelFixed(Discovery.DISCOVERY_MAGIC, [a.protocolVersion] + a1, Discovery.DISCOVERY_MAGIC, [b.protocolVersion] + b1);
    PeelFixed([a.protocolVersion], a1, [b.protocolVersion], b1);
    PeelField(ca, a2, cb, b2);
    PeelFixed(a.nonce, a3, b.nonce, b3);
    PeelU64(a.timestamp, a4, b.timestamp, b4);
    SplitU16Printed(a.port, []);
    SplitU16Printed(b.port, []);
    Certificates.PrintInjective(a.certificate, b.certificate);
  }

  lemma CertificateDetermined(c: Certificates.DeviceCertificate, d: Certificates.DeviceCertificate)
    requires Certificates.SigningBytes(c).Ok? && Certificates.SigningBytes(c) == Certificates.SigningBytes(d)
    ensures c.(signature := d.signature) == d
  {
    var e := c.(signature := d.signature);
    Certificates.LayoutAppend(c, [], d.signature);
    Certificates.LayoutAppend(d, [], d.signature);
    assert [] + d.signature == d.signature;
    assert Certificates.Layout(e, d.signature) == Certificates.Layout(c, d.signature);
    Certificates.PrintInjective(e, d);
  }

  /** What a signed message commits its signer to: everything except signatures stored beside the content. */
  predicate SameCommitment(s: Signed, t: Signed) {
    match (s, t)
    case (PairingRecord(r, a), PairingRecord(q, b)) => a == b && Unsigned(r) == Unsigned(q)
    case (Transcript(x, a), Transcript(y, b)) => a == b && x == y
    case (Announcement(x), Announcement(y)) => x.(signature := y.signature) == y
    case (Route(x), Route(y)) => x == y
    case (Certificate(x), Certificate(y)) => x.(signature := y.signature) == y
    case _ => false
  }

  /**
   Equal signed messages are of the same kind, in the same role, with the same content: no signature
   transfers between roles, between kinds of message, or between contents.
   */
  lemma SignaturesNeverTransfer(s: Signed, t: Signed)
    requires MessageOf(s).Ok? && MessageOf(s) == MessageOf(t)
    ensures SameCommitment(s, t)
  {
    MessageDiscriminant(s);
    MessageDiscriminant(t);
    match (s, t)
    case (PairingRecord(r, a), PairingRecord(q, b)) => RoleMessagesDisjoint(r, a, q, b);
    case (Transcript(x, a), Transcript(y, b)) => TranscriptMessageInjective(x, a, y, b);
    case (Announcement(x), Announcement(y)) => AnnouncementDetermined(x, y);
    case (Route(x), Route(y)) => PeelFixed(ROUTE_MAGIC, x, ROUTE_MAGIC, y);
    case (Certificate(x), Certificate(y)) => CertificateDetermined(x, y);
    case _ =>
  }
}
