/**
 The durable pairing store: what each operation does to the pending, active and revoked directories.
 A directory is a map from PairID (the file name) to the record in that file; a file that cannot be
 read back is a record that fails `Readable`.
 */
module Stores {
  import opened Octets
  import opened Cursors
  import opened Cryptography
  import opened Records
  import opened Sessions
  import Certificates

  type Directory = map<Bytes, PairingRecord>

  datatype Store = Store(pending: Directory, active: Directory, revoked: Directory)

  const EMPTY_STORE: Store := Store(map[], map[], map[])

  /** What a store handle fixes when it is opened: the pinned root and the time. */
  datatype Env = Env(cr: Crypto, root: Certificates.PinnedRoot, now: u64)

  // ---- Pure checks ----

  predicate Readable(r: PairingRecord) {
    Fits(r) && ValidateShape(r)
  }

  predicate AllReadable(d: Directory) {
    forall p :: p in d ==> Readable(d[p])
  }

  /** Both embedded certificates parse, are root-certified, and carry the record's two distinct identities. */
  predicate IdentitiesCertified(cr: Crypto, root: Certificates.PinnedRoot, r: PairingRecord) {
    var initiator := Certificates.FromBytes(r.initiatorCertificate);
    var responder := Certificates.FromBytes(r.responderCertificate);
    && initiator.Ok? && responder.Ok?
    && Certificates.RootCertified(cr, initiator.value, root)
    && Certificates.RootCertified(cr, responder.value, root)
    && initiator.value.deviceId == r.initiatorDeviceId
    && initiator.value.publicKey == r.initiatorPublicKey
    && responder.value.deviceId == r.responderDeviceId
    && responder.value.publicKey == r.responderPublicKey
    && r.initiatorDeviceId != r.responderDeviceId
  }

  /** Both certificate windows contain the given time. */
  predicate WindowsContain(r: PairingRecord, time: u64) {
    var initiator := Certificates.FromBytes(r.initiatorCertificate);
    var responder := Certificates.FromBytes(r.responderCertificate);
    && initiator.Ok? && responder.Ok?
    && Certificates.InWindow(initiator.value, time)
    && Certificates.InWindow(responder.value, time)
  }

  predicate ProtocolAndDomain(r: PairingRecord) {
    r.protocolVersion == Certificates.PROTOCOL_VERSION && r.domain == DOMAIN
  }

  /** The record names the session's two devices, each under the key of its session certificate. */
  predicate NamesSession(r: PairingRecord, s: Session) {
    && s.localCertificate.deviceId == (if s.IsInitiator() then r.initiatorDeviceId else r.responderDeviceId)
    && s.peerCertificate.deviceId == (if s.IsInitiator() then r.responderDeviceId else r.initiatorDeviceId)
    && s.localCertificate.publicKey == (if s.IsInitiator() then r.initiatorPublicKey else r.responderPublicKey)
    && s.peerCertificate.publicKey == (if s.IsInitiator() then r.responderPublicKey else r.initiatorPublicKey)
  }

  predicate ValidateSessionIdentity(cr: Crypto, s: Session, identity: DeviceIdentity) {
    identity.DeviceId(cr) == s.localDeviceId && identity.PublicKey(cr) == s.localCertificate.publicKey
  }

  /** `validate_record`: certificates at the handle's time, or at `authorizedAt` when `storedTime`. */
  predicate ValidateRecord(env: Env, r: PairingRecord, s: Session, identity: DeviceIdentity,
                           requireComplete: bool, bindSession: bool, storedTime: bool)
  {
    && ValidateShape(r)
    && ProtocolAndDomain(r)
    && (requireComplete ==> r.IsComplete())
    && IdentitiesCertified(env.cr, env.root, r)
    && WindowsContain(r, if storedTime then r.authorizedAt else env.now)
    && (bindSession ==> s.sessionBinding == r.sessionBinding)
    && NamesSession(r, s)
    && (r.authorizingDeviceId == r.initiatorDeviceId || r.authorizingDeviceId == r.responderDeviceId)
    && identity.DeviceId(env.cr) == s.localDeviceId
    && PresentSignaturesValid(env.cr, r)
  }

  predicate ValidateStored(env: Env, r: PairingRecord) {
    && ValidateShape(r)
    && ProtocolAndDomain(r)
    && r.IsComplete()
    && IdentitiesCertified(env.cr, env.root, r)
    && WindowsContain(r, r.authorizedAt)
    && PresentSignaturesValid(env.cr, r)
  }

  predicate ValidatePendingStored(env: Env, r: PairingRecord) {
    && ValidateShape(r)
    && ProtocolAndDomain(r)
    && IdentitiesCertified(env.cr, env.root, r)
    && WindowsContain(r, r.authorizedAt)
    && (r.initiatorSignature.Some? || r.responderSignature.Some?)
    && PresentSignaturesValid(env.cr, r)
  }

  /** The record binds exactly these two devices, in either orientation. */
  predicate Between(r: PairingRecord, a: Bytes, b: Bytes) {
    || (r.initiatorDeviceId == a && r.responderDeviceId == b)
    || (r.initiatorDeviceId == b && r.responderDeviceId == a)
  }

  predicate SamePair(pending: PairingRecord, active: PairingRecord) {
    Between(pending, active.initiatorDeviceId, active.responderDeviceId)
  }

  // ---- Directory primitives ----

  function ReadRecord(d: Directory, p: Bytes): Result<Option<PairingRecord>> {
    if p !in d then Ok(None) else if Readable(d[p]) then Ok(Some(d[p])) else Err
  }

  /** Files are created only where none exists; an existing file is compared, never replaced. */
  function WritePending(st: Store, r: PairingRecord): Result<Store> {
    if !LowerHex32(r.pairId) then Err
    else if r.pairId in st.pending then
      var older := st.pending[r.pairId];
      if Readable(older) && EnsureSameBinding(older, r) && older.IsComplete() then Ok(st) else Err
    else if Fits(r) then Ok(st.(pending := st.pending[r.pairId := r]))
    else Err
  }

  function WithoutPair(pending: Directory, active: PairingRecord): Directory {
    map p | p in pending && !SamePair(pending[p], active) :: pending[p]
  }

  /** `persist_active` when every pending file can be read back. */
  function PersistActive(st: Store, r: PairingRecord): Result<Store> {
    if !LowerHex32(r.pairId) || r.pairId in st.revoked then Err
    else if r.pairId in st.active then
      if Readable(st.active[r.pairId]) && st.active[r.pairId] == r then
        Ok(st.(pending := WithoutPair(st.pending, r)))
      else Err
    else if Fits(r) then
      Ok(st.(active := st.active[r.pairId := r], pending := WithoutPair(st.pending, r)))
    else Err
  }

  /** What an interrupted or failed sweep of stale pending files may leave. */
  ghost predicate SweptPartly(before: Directory, after: Directory, active: PairingRecord) {
    && (forall p :: p in after ==> p in before && after[p] == before[p])
    && (forall p :: p in before && p !in after ==> SamePair(before[p], active))
  }

  // ---- Operations ----

  /** The unsigned record two session certificates and a marker determine. */
  function RecordFromSession(cr: Crypto, s: Session, marker: Text, identity: DeviceIdentity, at: u64):
    Result<PairingRecord>
  {
    var initiator := if s.IsInitiator() then s.localCertificate else s.peerCertificate;
    var responder := if s.IsInitiator() then s.peerCertificate else s.localCertificate;
    var initiatorBytes :- Certificates.ToBytes(initiator);
    var responderBytes :- Certificates.ToBytes(responder);
    LowerHexIsUtf8(identity.DeviceId(cr));
    DomainIsText();
    Ok(PairingRecord(Certificates.PROTOCOL_VERSION, DOMAIN, s.pairId, initiator.deviceId, responder.deviceId,
                     initiator.publicKey, responder.publicKey, initiatorBytes, responderBytes,
                     s.sessionBinding, identity.DeviceId(cr), marker, at, None, None))
  }

  lemma DomainIsText()
    ensures Utf8(DOMAIN)
  {
    SevenBitIsUtf8(DOMAIN);
  }

  /** Sign a session's record in the local role, check it, and file it as pending. */
  function SignAndFile(env: Env, st: Store, s: Session, identity: DeviceIdentity, unsigned: PairingRecord):
    Result<(Store, PairingRecord)>
  {
    var signature :- SignRecord(env.cr, identity, unsigned, s.RecordRole());
    var r := SetSignature(unsigned, s.RecordRole(), signature);
    if !ValidateRecord(env, r, s, identity, false, true, false) then Err
    else
      var after :- WritePending(st, r);
      Ok((after, r))
  }

  /** `prepare`, with the broker's answer: a user-presence marker, or a denial. */
  function Prepare(env: Env, st: Store, s: Session, identity: DeviceIdentity, answer: Option<Text>):
    Result<(Store, PairingRecord)>
  {
    if !ValidateSessionIdentity(env.cr, s, identity) || answer.None? then Err
    else if !Bounded(answer.value, MAX_MARKER_BYTES) then Err
    else
      var unsigned :- RecordFromSession(env.cr, s, answer.value, identity, env.now);
      SignAndFile(env, st, s, identity, unsigned)
  }

  /** `resume_prepare`: the old marker and time, this session's certificates and PairID. */
  function ResumePrepare(env: Env, st: Store, s: Session, identity: DeviceIdentity, pending: PairingRecord):
    Result<(Store, PairingRecord)>
  {
    if !ValidateSessionIdentity(env.cr, s, identity) || !ValidatePendingStored(env, pending) then Err
    else if pending.authorizingDeviceId != identity.DeviceId(env.cr) then Err
    else
      var unsigned :- RecordFromSession(env.cr, s, pending.userPresence, identity, pending.authorizedAt);
      SignAndFile(env, st, s, identity, unsigned)
  }

  /** `co_sign`. */
  function CoSign(env: Env, st: Store, s: Session, identity: DeviceIdentity, pending: PairingRecord):
    Result<(Store, PairingRecord)>
  {
    if !ValidateSessionIdentity(env.cr, s, identity) || pending.IsComplete() then Err
    else if !ValidateRecord(env, pending, s, identity, false, true, false) then Err
    else if SignatureFor(pending, s.RecordRole()).Some? then Err
    else
      var signature :- SignRecord(env.cr, identity, pending, s.RecordRole());
      var complete := SetSignature(pending, s.RecordRole(), signature);
      if !ValidateRecord(env, complete, s, identity, true, true, false) then Err
      else
        var after :- WritePending(st, complete);
        Ok((after, complete))
  }

  predicate FinalizeAccepts(env: Env, s: Session, identity: DeviceIdentity, r: PairingRecord) {
    ValidateSessionIdentity(env.cr, s, identity) && ValidateRecord(env, r, s, identity, true, true, false)
  }

  predicate ReconcileAccepts(env: Env, s: Session, identity: DeviceIdentity, r: PairingRecord) {
    ValidateSessionIdentity(env.cr, s, identity) && ValidateRecord(env, r, s, identity, true, false, true)
  }

  function Finalize(env: Env, st: Store, s: Session, identity: DeviceIdentity, r: PairingRecord): Result<Store> {
    if FinalizeAccepts(env, s, identity, r) then PersistActive(st, r) else Err
  }

  function Reconcile(env: Env, st: Store, s: Session, identity: DeviceIdentity, r: PairingRecord): Result<Store> {
    if ReconcileAccepts(env, s, identity, r) then PersistActive(st, r) else Err
  }

  function Load(env: Env, st: Store, p: Bytes): Result<Option<PairingRecord>> {
    if !LowerHex32(p) then Err
    else
      var found :- ReadRecord(st.active, p);
      if found.Some? && (found.value.pairId != p || !ValidateStored(env, found.value)) then Err
      else Ok(found)
  }

  function Revoke(env: Env, st: Store, p: Bytes): Result<Store> {
    if !LowerHex32(p) || p !in st.active || !Readable(st.active[p]) then Err
    else if !ValidateStored(env, st.active[p]) || p in st.revoked then Err
    else Ok(st.(active := st.active - {p}, revoked := st.revoked[p := st.active[p]]))
  }

  /** `reconnect_context`. */
  function ReconnectContext(env: Env, st: Store, identity: DeviceIdentity, p: Bytes): Result<PairedIdentityContext> {
    var found :- Load(env, st, p);
    if found.None? then Err
    else
      var r := found.value;
      var id, key := identity.DeviceId(env.cr), identity.PublicKey(env.cr);
      if (id != r.initiatorDeviceId || key != r.initiatorPublicKey)
         && (id != r.responderDeviceId || key != r.responderPublicKey)
      then Err
      else
        var initiator :- Certificates.FromBytes(r.initiatorCertificate);
        var responder :- Certificates.FromBytes(r.responderCertificate);
        FromValidatedRecord(r, initiator, responder)
  }

  /** `context_from_record`. */
  function ContextFromRecord(env: Env, r: PairingRecord, identity: DeviceIdentity): Result<PairedIdentityContext> {
    if !ValidatePendingStored(env, r) then Err
    else if identity.DeviceId(env.cr) != r.initiatorDeviceId && identity.DeviceId(env.cr) != r.responderDeviceId then Err
    else
      var initiator :- Certificates.FromBytes(r.initiatorCertificate);
      var responder :- Certificates.FromBytes(r.responderCertificate);
      FromValidatedRecord(r, initiator, responder)
  }

  // ---- Searches: directories are enumerated in an arbitrary order ----

  predicate GoodPending(env: Env, r: PairingRecord) {
    Readable(r) && ValidatePendingStored(env, r)
  }

  predicate GoodActive(env: Env, p: Bytes, r: PairingRecord) {
    LowerHex32(p) && Readable(r) && r.pairId == p && ValidateStored(env, r)
  }

  /** The results `pending_for_peer` may return, over every enumeration order. */
  ghost predicate MayFindPending(env: Env, st: Store, local: Bytes, peer: Bytes, r: Result<Option<PairingRecord>>) {
    match r
    case Err =>
      !LowerHex32(local) || !LowerHex32(peer) || exists p :: p in st.pending && !GoodPending(env, st.pending[p])
    case Ok(None) =>
      forall p :: p in st.pending ==> GoodPending(env, st.pending[p]) && !Between(st.pending[p], local, peer)
    case Ok(Some(found)) =>
      exists p :: p in st.pending && st.pending[p] == found && GoodPending(env, found) && Between(found, local, peer)
  }

  /** The results `active_pair_for_peer_at` may return. */
  ghost predicate MayFindActive(env: Env, st: Store, local: Bytes, peer: Bytes, r: Result<Option<Bytes>>) {
    match r
    case Err => exists p :: p in st.active && !GoodActive(env, p, st.active[p])
    case Ok(None) =>
      forall p :: p in st.active ==> GoodActive(env, p, st.active[p]) && !Between(st.active[p], local, peer)
    case Ok(Some(p)) => p in st.active && GoodActive(env, p, st.active[p]) && Between(st.active[p], local, peer)
  }

  /** The results `has_active_pairing` may report. */
  ghost predicate MayReportActive(env: Env, st: Store, local: Bytes, peer: Bytes, r: Result<bool>) {
    match r
    case Err =>
      || !LowerHex32(local) || !LowerHex32(peer)
      || exists p :: p in st.active && !(Readable(st.active[p]) && ValidateStored(env, st.active[p]))
    case Ok(false) =>
      forall p :: p in st.active ==>
        Readable(st.active[p]) && ValidateStored(env, st.active[p]) && !Between(st.active[p], local, peer)
    case Ok(true) =>
      exists p :: p in st.active && Readable(st.active[p]) && ValidateStored(env, st.active[p])
                  && Between(st.active[p], local, peer)
  }

  /** The results `recovery_context` may return: a pending record's pins, or else an active record's. */
  ghost predicate MayRecover(env: Env, st: Store, identity: DeviceIdentity, peer: Bytes,
                             r: Result<Option<PairedIdentityContext>>)
  {
    var local := identity.DeviceId(env.cr);
    || (MayFindPending(env, st, local, peer, Err) && r.Err?)
    || (exists found :: MayFindPending(env, st, local, peer, Ok(Some(found)))
                        && r == (match ContextFromRecord(env, found, identity)
                                 case Err => Err
                                 case Ok(context) => Ok(Some(context))))
    || (MayFindPending(env, st, local, peer, Ok(None))
        && ((MayFindActive(env, st, local, peer, Err) && r.Err?)
            || (MayFindActive(env, st, local, peer, Ok(None)) && r == Ok(None))
            || (exists p :: p in st.active && MayFindActive(env, st, local, peer, Ok(Some(p)))
                            && r == (match ContextFromRecord(env, st.active[p], identity)
                                     case Err => Err
                                     case Ok(context) => Ok(Some(context))))))
  }
}
