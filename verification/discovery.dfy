/** Signed LAN announcements: their codec and the verifier's pruned replay window. */
module Discovery {
  import opened Octets
  import opened Cursors
  import opened Cryptography
  import opened Certificates
  import opened ReplayWindow

  const MAX_DISCOVERY_BYTES: nat := 2048
  const MAX_DISCOVERY_AGE_SECONDS: u64 := 90
  const MAX_DISCOVERY_FUTURE_SECONDS: u64 := 10
  const MAX_REPLAY_ENTRIES: nat := 4096
  const DISCOVERY_MAGIC: Bytes := Ascii("OMARCHY-DISCOVERY-V3")

  /** Longest serialization of a printable announcement. */
  const LONGEST_ANNOUNCEMENT: nat := 421

  datatype DiscoveryAnnouncement = DiscoveryAnnouncement(
    protocolVersion: byte,
    certificate: DeviceCertificate,
    nonce: Bytes32,
    timestamp: u64,
    port: u16,
    signature: Bytes64)

  datatype VerifiedDiscovery = VerifiedDiscovery(
    deviceId: Bytes, deviceName: Bytes, publicKey: Bytes32, timestamp: u64, port: u16)

  // ---- Codec ----

  function Layout(version: byte, cert: Bytes, nonce: Bytes32, timestamp: u64, port: u16, tail: Bytes): (b: Bytes)
    requires Bounded(cert, MAX_CERTIFICATE_BYTES)
    ensures |b| == 65 + |cert| + |tail|
  {
    DISCOVERY_MAGIC + ([version] + (Field(cert) + (nonce + (BE64(timestamp) + (BE16(port) + tail)))))
  }

  function AnnouncementSigningBytes(a: DiscoveryAnnouncement): (r: Result<Bytes>)
    ensures r.Ok? <==> a.protocolVersion == PROTOCOL_VERSION && ShapeValid(a.certificate)
  {
    if a.protocolVersion != PROTOCOL_VERSION then Err
    else
      var cert :- Certificates.ToBytes(a.certificate);
      Ok(Layout(a.protocolVersion, cert, a.nonce, a.timestamp, a.port, []))
  }

  function ToBytes(a: DiscoveryAnnouncement): (r: Result<Bytes>)
    ensures r.Ok? <==> a.protocolVersion == PROTOCOL_VERSION && ShapeValid(a.certificate)
    ensures r.Ok? ==> |r.value| <= LONGEST_ANNOUNCEMENT
  {
    var out :- AnnouncementSigningBytes(a);
    if |out + a.signature| > MAX_DISCOVERY_BYTES then Err else Ok(out + a.signature)
  }

  datatype Routing = Routing(nonce: Bytes32, timestamp: u64, port: u16)

  function RoutingLayout(r: Routing, tail: Bytes): Bytes {
    r.nonce + (BE64(r.timestamp) + (BE16(r.port) + tail))
  }

  /** Nonce, timestamp and a non-zero port. */
  function SplitRouting(b: Bytes): (r: Result<(Routing, Bytes)>)
    ensures r.Ok? ==> RoutingLayout(r.value.0, r.value.1) == b && r.value.0.port != 0
  {
    var (nonce, b1) :- Split(b, 32);
    var (timestamp, b2) :- SplitU64(b1);
    var (port, b3) :- SplitU16(b2);
    if port == 0 then Err else Ok((Routing(nonce, timestamp, port), b3))
  }

  /** Magic, version and the embedded certificate's octets. */
  function SplitHeader(b: Bytes): (r: Result<(byte, Bytes, Bytes)>)
    ensures r.Ok? ==> Bounded(r.value.1, MAX_CERTIFICATE_BYTES)
                      && DISCOVERY_MAGIC + ([r.value.0] + (Field(r.value.1) + r.value.2)) == b
  {
    var (magic, b1) :- Split(b, |DISCOVERY_MAGIC|);
    if magic != DISCOVERY_MAGIC then Err
    else
      var (version, b2) :- Split(b1, 1);
      var (cert, b3) :- SplitField(b2, MAX_CERTIFICATE_BYTES);
      assert version == [version[0]];
      Ok((version[0], cert, b3))
  }

  function FromBytes(b: Bytes): (r: Result<DiscoveryAnnouncement>)
    ensures r.Ok? ==> ShapeValid(r.value.certificate) && r.value.port != 0
  {
    if |b| > MAX_DISCOVERY_BYTES then Err
    else
      var (version, cert, b1) :- SplitHeader(b);
      var certificate :- Certificates.FromBytes(cert);
      var (routing, b2) :- SplitRouting(b1);
      var (signature, b3) :- Split(b2, 64);
      if b3 != [] then Err
      else Ok(DiscoveryAnnouncement(version, certificate, routing.nonce, routing.timestamp, routing.port, signature))
  }

  lemma LayoutAppend(version: byte, cert: Bytes, nonce: Bytes32, timestamp: u64, port: u16, tail: Bytes)
    requires Bounded(cert, MAX_CERTIFICATE_BYTES)
    ensures Layout(version, cert, nonce, timestamp, port, []) + tail
         == Layout(version, cert, nonce, timestamp, port, tail)
  {
    assert BE16(port) + [] == BE16(port);
  }

  lemma ParsePrinted(a: DiscoveryAnnouncement)
    requires a.protocolVersion == PROTOCOL_VERSION && ShapeValid(a.certificate) && a.port != 0
    ensures FromBytes(ToBytes(a).value) == Ok(a)
  {
    var cert := Certificates.ToBytes(a.certificate).value;
    Certificates.ParsePrinted(a.certificate);
    LayoutAppend(a.protocolVersion, cert, a.nonce, a.timestamp, a.port, a.signature);
    var routing := Routing(a.nonce, a.timestamp, a.port);
    var s1 := RoutingLayout(routing, a.signature);
    SplitPrinted(DISCOVERY_MAGIC, [a.protocolVersion] + (Field(cert) + s1));
    SplitPrinted([a.protocolVersion], Field(cert) + s1);
    SplitFieldPrinted(cert, s1, MAX_CERTIFICATE_BYTES);
    SplitRoutingPrinted(routing, a.signature);
    SplitPrinted(a.signature, []);
    assert a.signature + [] == a.signature;
  }

  lemma SplitRoutingPrinted(r: Routing, tail: Bytes)
    requires r.port != 0
    ensures SplitRouting(RoutingLayout(r, tail)) == Ok((r, tail))
  {
    SplitPrinted(r.nonce, BE64(r.timestamp) + (BE16(r.port) + tail));
    SplitU64Printed(r.timestamp, BE16(r.port) + tail);
    SplitU16Printed(r.port, tail);
  }

  lemma PrintParsed(b: Bytes)
    requires FromBytes(b).Ok? && FromBytes(b).value.protocolVersion == PROTOCOL_VERSION
    ensures ToBytes(FromBytes(b).value) == Ok(b)
  {
    var a := FromBytes(b).value;
    var (version, cert, b1) := SplitHeader(b).value;
    var (routing, b2) := SplitRouting(b1).value;
    Certificates.PrintParsed(cert);
    assert a.signature + [] == a.signature;
    assert b2 == a.signature;
    LayoutAppend(a.protocolVersion, cert, a.nonce, a.timestamp, a.port, a.signature);
  }

  method ParseHeader(c: Cursor) returns (r: Result<(byte, Bytes)>)
    requires c.Valid()
    modifies c
    ensures c.Valid()
    ensures match SplitHeader(old(c.Rest()))
            case Ok(split) => r == Ok((split.0, split.1)) && c.Rest() == split.2
            case Err => r.Err?
  {
    var magic :- c.Take(|DISCOVERY_MAGIC|);
    if magic != DISCOVERY_MAGIC {
      return Err;
    }
    var version :- c.U8();
    var cert :- c.Bytes(MAX_CERTIFICATE_BYTES);
    return Ok((version, cert));
  }

  method ParseRouting(c: Cursor) returns (r: Result<Routing>)
    requires c.Valid()
    modifies c
    ensures c.Valid()
    ensures match SplitRouting(old(c.Rest()))
            case Ok(split) => r == Ok(split.0) && c.Rest() == split.1
            case Err => r.Err?
  {
    var nonce :- c.Take(32);
    var timestamp :- c.U64();
    var port :- c.U16();
    return if port == 0 then Err else Ok(Routing(nonce, timestamp, port));
  }

  method ParseAnnouncement(b: Bytes) returns (r: Result<DiscoveryAnnouncement>)
    ensures r == FromBytes(b)
  {
    if |b| > MAX_DISCOVERY_BYTES {
      return Err;
    }
    var c := new Cursor(b);
    var header :- ParseHeader(c);
    var certificate :- ParseCertificate(header.1);
    var routing :- ParseRouting(c);
    var signature :- c.Take(64);
    if c.position != |b| {
      return Err;
    }
    return Ok(DiscoveryAnnouncement(header.0, certificate, routing.nonce, routing.timestamp, routing.port, signature));
  }

  method PrintAnnouncement(a: DiscoveryAnnouncement) returns (r: Result<Bytes>)
    ensures r == ToBytes(a)
  {
    if a.protocolVersion != PROTOCOL_VERSION {
      return Err;
    }
    var cert :- PrintCertificate(a.certificate);
    ghost var s4 := BE16(a.port) + [];
    ghost var s3 := BE64(a.timestamp) + s4;
    ghost var s2 := a.nonce + s3;
    var buffer := new ByteBuffer();
    buffer.Extend(DISCOVERY_MAGIC, [a.protocolVersion] + (Field(cert) + s2));
    buffer.Push(a.protocolVersion, Field(cert) + s2);
    var ok := buffer.PutBytes(cert, MAX_CERTIFICATE_BYTES, s2);
    buffer.Extend(a.nonce, s3);
    buffer.Extend(BE64(a.timestamp), s4);
    buffer.Extend(BE16(a.port), []);
    ghost var layout := Layout(a.protocolVersion, cert, a.nonce, a.timestamp, a.port, []);
    assert [] + layout == layout && buffer.out + [] == buffer.out;
    buffer.Extend(a.signature, []);
    return if |buffer.out| > MAX_DISCOVERY_BYTES then Err else Ok(buffer.out);
  }

  // ---- Acceptance ----

  datatype Policy = Policy(cr: Crypto, root: PinnedRoot, window: Window)

  /** Every check `verify` makes on a packet before it consults the replay cache. */
  function Authentic(p: Policy, bytes: Bytes, now: u64): (r: Result<DiscoveryAnnouncement>)
    ensures r.Ok? ==> Fresh(p.window, r.value.timestamp, now)
  {
    var a :- FromBytes(bytes);
    if a.protocolVersion != PROTOCOL_VERSION then Err
    else if !Verify(p.cr, a.certificate, p.root, now) then Err
    else if a.timestamp > SaturatingAdd(now, p.window.maxFuture) then Err
    else if SaturatingSub(now, a.timestamp) > p.window.maxAge then Err
    else
      var body := AnnouncementSigningBytes(a);
      if body.Ok? && p.cr.verify(a.certificate.publicKey, body.value, a.signature) then Ok(a) else Err
  }

  function KeyOf(a: DiscoveryAnnouncement): ReplayKey {
    (a.certificate.deviceId, a.nonce)
  }

  datatype Packet = Packet(bytes: Bytes, now: u64)

  function AttemptOf(p: Policy, packet: Packet): Attempt {
    match Authentic(p, packet.bytes, packet.now)
    case Err => Attempt(None, packet.now)
    case Ok(a) => Attempt(Some(Claim(KeyOf(a), a.timestamp)), packet.now)
  }

  /** What `verify` answers to a packet when its cache is `seen`. */
  function Answer(p: Policy, seen: Seen, packet: Packet): Result<VerifiedDiscovery> {
    match Authentic(p, packet.bytes, packet.now)
    case Err => Err
    case Ok(a) =>
      if Admits(p.window, seen, AttemptOf(p, packet)) then
        Ok(VerifiedDiscovery(a.certificate.deviceId, a.certificate.deviceName, a.certificate.publicKey,
                             a.timestamp, a.port))
      else Err
  }

  /** `DiscoveryAnnouncement::sign`. */
  function Sign(cr: Crypto, identity: DeviceIdentity, certificate: DeviceCertificate, nonce: Bytes32,
                timestamp: u64, port: u16): (r: Result<DiscoveryAnnouncement>)
  {
    if certificate.publicKey != identity.PublicKey(cr) || certificate.deviceId != identity.DeviceId(cr) then Err
    else if port == 0 then Err
    else
      var unsigned := DiscoveryAnnouncement(PROTOCOL_VERSION, certificate, nonce, timestamp, port, seq(64, _ => 0));
      var body :- AnnouncementSigningBytes(unsigned);
      Ok(unsigned.(signature := identity.Sign(cr, body)))
  }

  /** What a certified device signs, every verifier with the same root finds authentic while it is fresh. */
  lemma SignedIsAuthentic(p: Policy, identity: DeviceIdentity, certificate: DeviceCertificate, nonce: Bytes32,
                          timestamp: u64, port: u16, now: u64)
    requires Sound(p.cr)
    requires Sign(p.cr, identity, certificate, nonce, timestamp, port).Ok?
    requires Verify(p.cr, certificate, p.root, now) && Fresh(p.window, timestamp, now)
    ensures var a := Sign(p.cr, identity, certificate, nonce, timestamp, port).value;
            && ToBytes(a).Ok?
            && Authentic(p, ToBytes(a).value, now) == Ok(a)
            && a.certificate == certificate && a.nonce == nonce && a.timestamp == timestamp && a.port == port
  {
    var a := Sign(p.cr, identity, certificate, nonce, timestamp, port).value;
    ParsePrinted(a);
  }

  class DiscoveryVerifier {
    const policy: Policy
    var seen: Seen

    /** Any freshness window, the standard cache limit. */
    constructor WithWindow(cr: Crypto, root: PinnedRoot, maxAge: u64, maxFuture: u64)
      ensures policy == Policy(cr, root, Window(maxAge, maxFuture, MAX_REPLAY_ENTRIES)) && seen == map[]
    {
      policy := Policy(cr, root, Window(maxAge, maxFuture, MAX_REPLAY_ENTRIES));
      seen := map[];
    }

    constructor (cr: Crypto, root: PinnedRoot)
      ensures policy.window == Window(MAX_DISCOVERY_AGE_SECONDS, MAX_DISCOVERY_FUTURE_SECONDS, MAX_REPLAY_ENTRIES)
      ensures policy.cr == cr && policy.root == root && seen == map[]
    {
      policy := Policy(cr, root, Window(MAX_DISCOVERY_AGE_SECONDS, MAX_DISCOVERY_FUTURE_SECONDS, MAX_REPLAY_ENTRIES));
      seen := map[];
    }

    method PruneReplay(now: u64)
      modifies this
      ensures seen == Prune(policy.window, old(seen), now)
    {
      seen := map k | k in seen && Retained(policy.window, seen[k], now) :: seen[k];
    }

    method VerifyPacket(bytes: Bytes, now: u64) returns (r: Result<VerifiedDiscovery>)
      modifies this
      ensures seen == Update(policy.window, old(seen), AttemptOf(policy, Packet(bytes, now)))
      ensures r == Answer(policy, old(seen), Packet(bytes, now))
    {
      PruneReplay(now);
      var a :- ParseAnnouncement(bytes);
      if a.protocolVersion != PROTOCOL_VERSION {
        return Err;
      }
      if !Verify(policy.cr, a.certificate, policy.root, now) {
        return Err;
      }
      if a.timestamp > SaturatingAdd(now, policy.window.maxFuture) {
        return Err;
      }
      if SaturatingSub(now, a.timestamp) > policy.window.maxAge {
        return Err;
      }
      var body := AnnouncementSigningBytes(a);
      if body.Err? || !policy.cr.verify(a.certificate.publicKey, body.value, a.signature) {
        return Err;
      }
      var replayKey := (a.certificate.deviceId, a.nonce);
      if replayKey in seen {
        return Err;
      }
      if |seen| >= policy.window.limit {
        return Err;
      }
      seen := seen[replayKey := ReplayEntry(now, a.timestamp)];
      return Ok(VerifiedDiscovery(a.certificate.deviceId, a.certificate.deviceName,
                                  a.certificate.publicKey, a.timestamp, a.port));
    }
  }

  // ---- Whole runs of one verifier ----

  function Attempts(p: Policy, run: seq<Packet>): (attempts: seq<Attempt>)
    ensures |attempts| == |run|
  {
    seq(|run|, i requires 0 <= i < |run| => AttemptOf(p, run[i]))
  }

  /** The answer to packet i of a run that began with an empty cache. */
  function AnswerAt(p: Policy, run: seq<Packet>, i: nat): Result<VerifiedDiscovery>
    requires i < |run|
  {
    Answer(p, SeenAfter(p.window, Attempts(p, run[..i])), run[i])
  }

  predicate Monotone(run: seq<Packet>) {
    forall i, j :: 0 <= i < j < |run| ==> run[i].now <= run[j].now
  }

  lemma AnswerIsAcceptance(p: Policy, run: seq<Packet>, i: nat)
    requires i < |run|
    ensures AnswerAt(p, run, i).Ok? <==> Accepted(p.window, Attempts(p, run), i)
  {
    assert Attempts(p, run[..i]) == Attempts(p, run)[..i];
  }

  lemma AttemptIsTimed(p: Policy, packet: Packet)
    ensures var a := AttemptOf(p, packet);
            a.now == packet.now && (a.claim.Some? ==> Fresh(p.window, a.claim.value.timestamp, a.now))
  {
  }

  lemma AttemptsAreTimed(p: Policy, run: seq<Packet>)
    requires Monotone(run)
    ensures WellTimed(p.window, Attempts(p, run))
  {
    var attempts := Attempts(p, run);
    forall i | 0 <= i < |run|
      ensures attempts[i].now == run[i].now
      ensures attempts[i].claim.Some? ==> Fresh(p.window, attempts[i].claim.value.timestamp, attempts[i].now)
    {
      AttemptIsTimed(p, run[i]);
    }
  }

  /**
   While the clock never runs backwards, two accepted packets never carry the same DeviceID, nonce
   and timestamp, whatever octets arrive and however much of the cache was pruned in between.
   */
  lemma ReplayIsRejected(p: Policy, run: seq<Packet>, i: nat, j: nat)
    requires Monotone(run) && i < j < |run|
    requires AnswerAt(p, run, i).Ok? && AnswerAt(p, run, j).Ok?
    ensures Authentic(p, run[i].bytes, run[i].now).Ok? && Authentic(p, run[j].bytes, run[j].now).Ok?
    ensures var a, b := Authentic(p, run[i].bytes, run[i].now).value, Authentic(p, run[j].bytes, run[j].now).value;
            !(a.certificate.deviceId == b.certificate.deviceId && a.nonce == b.nonce && a.timestamp == b.timestamp)
  {
    AnswerIsAcceptance(p, run, i);
    AnswerIsAcceptance(p, run, j);
    AttemptsAreTimed(p, run);
    NeverAcceptedTwice(p.window, Attempts(p, run), i, j);
  }
}
