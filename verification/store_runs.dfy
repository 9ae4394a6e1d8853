/** The only four ways a store may change, over any notion of an acceptable pending and active record. */
module StoreChanges {
  import opened Octets
  import opened Records
  import opened Stores

  /** What may be filed under a PairID: as a pending record, and as an active or revoked one. */
  datatype Rules = Rules(
    pending: (Bytes, PairingRecord) -> bool,
    active: (Bytes, PairingRecord) -> bool)

  ghost predicate Inv(rules: Rules, st: Store) {
    && (forall p :: p in st.active ==> rules.active(p, st.active[p]))
    && (forall p :: p in st.revoked ==> rules.active(p, st.revoked[p]))
    && (forall p :: p in st.pending ==> rules.pending(p, st.pending[p]))
    && st.active.Keys !! st.revoked.Keys
  }

  ghost predicate Adds(rules: Rules, st: Store, after: Store, r: PairingRecord) {
    && r.pairId !in st.pending
    && after == st.(pending := st.pending[r.pairId := r])
    && rules.pending(r.pairId, r)
  }

  ghost predicate Activates(rules: Rules, st: Store, after: Store, r: PairingRecord) {
    && r.pairId !in st.revoked
    && (r.pairId in st.active ==> st.active[r.pairId] == r)
    && rules.active(r.pairId, r)
    && after.active == st.active[r.pairId := r]
    && after.revoked == st.revoked
    && SweptPartly(st.pending, after.pending, r)
  }

  ghost predicate Revokes(st: Store, after: Store, p: Bytes) {
    && p in st.active && p !in st.revoked
    && after == st.(active := st.active - {p}, revoked := st.revoked[p := st.active[p]])
  }

  ghost predicate Change(rules: Rules, st: Store, after: Store) {
    || after == st
    || (exists r :: Adds(rules, st, after, r))
    || (exists r :: Activates(rules, st, after, r))
    || (exists p :: Revokes(st, after, p))
  }

  lemma ChangeKeepsInv(rules: Rules, st: Store, after: Store)
    requires Inv(rules, st) && Change(rules, st, after)
    ensures Inv(rules, after)
  {
  }

  lemma ChangeKeepsRevoked(rules: Rules, st: Store, after: Store, p: Bytes)
    requires Change(rules, st, after) && p in st.revoked
    ensures p in after.revoked && after.revoked[p] == st.revoked[p]
  {
  }

  lemma ChangeKeepsActive(rules: Rules, st: Store, after: Store, p: Bytes)
    requires Change(rules, st, after) && p in st.active
    ensures || (p in after.active && after.active[p] == st.active[p])
            || (p in after.revoked && after.revoked[p] == st.active[p])
  {
  }

  /** A pending file stays as it is, or disappears because its pair now has an active record. */
  lemma ChangeKeepsPending(rules: Rules, st: Store, after: Store, p: Bytes)
    requires Change(rules, st, after) && p in st.pending
    ensures || (p in after.pending && after.pending[p] == st.pending[p])
            || (p !in after.pending
                && exists q :: q in after.active && SamePair(st.pending[p], after.active[q]))
  {
    if r :| Activates(rules, st, after, r) {
      assert r.pairId in after.active && after.active[r.pairId] == r;
    }
  }

  // ---- Histories ----

  /** It starts empty, and each state follows from the one before by one change. */
  ghost predicate ChangeHistory(rules: Rules, h: seq<Store>) {
    && |h| > 0
    && h[0] == EMPTY_STORE
    && forall i :: 0 < i < |h| ==> Change(rules, h[i - 1], h[i])
  }

  lemma {:induction false} HistoryKeepsInv(rules: Rules, h: seq<Store>, i: nat)
    requires ChangeHistory(rules, h) && i < |h|
    ensures Inv(rules, h[i])
  {
    if i > 0 {
      HistoryKeepsInv(rules, h, i - 1);
      ChangeKeepsInv(rules, h[i - 1], h[i]);
    }
  }

  lemma {:induction false} RevokedStays(rules: Rules, h: seq<Store>, i: nat, j: nat, p: Bytes)
    requires ChangeHistory(rules, h) && i <= j < |h| && p in h[i].revoked
    ensures p in h[j].revoked && h[j].revoked[p] == h[i].revoked[p]
  {
    if i < j {
      RevokedStays(rules, h, i, j - 1, p);
      ChangeKeepsRevoked(rules, h[j - 1], h[j], p);
    }
  }

  lemma {:induction false} ActiveStaysOrIsRevoked(rules: Rules, h: seq<Store>, i: nat, j: nat, p: Bytes)
    requires ChangeHistory(rules, h) && i <= j < |h| && p in h[i].active
    ensures || (p in h[j].active && h[j].active[p] == h[i].active[p])
            || (p in h[j].revoked && h[j].revoked[p] == h[i].active[p])
  {
    if i < j {
      ActiveStaysOrIsRevoked(rules, h, i, j - 1, p);
      if p in h[j - 1].revoked {
        ChangeKeepsRevoked(rules, h[j - 1], h[j], p);
      }
      if p in h[j - 1].active {
        ChangeKeepsActive(rules, h[j - 1], h[j], p);
      }
    }
  }

  /** The pending file was removed at state k, where a record of the same two devices is active. */
  ghost predicate SweptAt(h: seq<Store>, k: nat, p: Bytes, r: PairingRecord)
    requires k < |h|
  {
    p !in h[k].pending && exists q :: q in h[k].active && SamePair(r, h[k].active[q])
  }

  lemma {:induction false} PendingStaysOrIsSwept(rules: Rules, h: seq<Store>, i: nat, j: nat, p: Bytes)
    requires ChangeHistory(rules, h) && i <= j < |h| && p in h[i].pending
    ensures || (p in h[j].pending && h[j].pending[p] == h[i].pending[p])
            || (exists k: nat :: i < k <= j && SweptAt(h, k, p, h[i].pending[p]))
  {
    if i < j {
      PendingStaysOrIsSwept(rules, h, i, j - 1, p);
      if p in h[j - 1].pending && h[j - 1].pending[p] == h[i].pending[p] {
        ChangeKeepsPending(rules, h[j - 1], h[j], p);
        assert p in h[j].pending || SweptAt(h, j, p, h[i].pending[p]);
      }
    }
  }
}

/** What every sequence of store operations, failures and power cuts keeps, starting from empty directories. */
module StoreRuns {
  import opened Octets
  import opened Cryptography
  import opened Records
  import opened Sessions
  import opened Stores
  import opened StoreChanges
  import Certificates

  // ---- The invariant ----

  /** A record that can be filed at p: readable, of this protocol, certified, its signatures valid. */
  predicate WellFiled(cr: Crypto, root: Certificates.PinnedRoot, p: Bytes, r: PairingRecord) {
    && r.pairId == p
    && Readable(r)
    && ProtocolAndDomain(r)
    && IdentitiesCertified(cr, root, r)
    && PresentSignaturesValid(cr, r)
  }

  predicate Bilateral(cr: Crypto, root: Certificates.PinnedRoot, p: Bytes, r: PairingRecord) {
    WellFiled(cr, root, p, r) && r.IsComplete()
  }

  /** The identity holds this role in the record and made the signature it carries for it. */
  predicate SignedInRole(cr: Crypto, identity: DeviceIdentity, r: PairingRecord, role: byte) {
    && RoleKey(r, role) == identity.PublicKey(cr)
    && SignatureFor(r, role).Some?
    && SignRecord(cr, identity, r, role) == Ok(SignatureFor(r, role).value)
  }

  predicate SelfSigned(cr: Crypto, root: Certificates.PinnedRoot, identity: DeviceIdentity, p: Bytes, r: PairingRecord) {
    && WellFiled(cr, root, p, r)
    && (SignedInRole(cr, identity, r, ROLE_INITIATOR) || SignedInRole(cr, identity, r, ROLE_RESPONDER))
  }

  /** Active and revoked records are bilateral; pending ones carry the local device's own signature. */
  function StoreRules(cr: Crypto, root: Certificates.PinnedRoot, identity: DeviceIdentity): Rules {
    Rules((p, r) => SelfSigned(cr, root, identity, p, r), (p, r) => Bilateral(cr, root, p, r))
  }

  // ---- Events ----

  datatype Event =
    | Preparing(now: u64, session: Session, answer: Option<Text>)
    | Resuming(now: u64, session: Session, record: PairingRecord)
    | CoSigning(now: u64, session: Session, record: PairingRecord)
    | Finalizing(now: u64, session: Session, record: PairingRecord)
    | Reconciling(now: u64, session: Session, record: PairingRecord)
    | Revoking(now: u64, pairId: Bytes)
    | Interrupted(now: u64, session: Session, record: PairingRecord)

  function Filed(st: Store, r: Result<(Store, PairingRecord)>): Store {
    if r.Ok? then r.value.0 else st
  }

  function Kept(st: Store, r: Result<Store>): Store {
    if r.Ok? then r.value else st
  }

  /** The event takes the store of this identity from st to after. */
  ghost predicate Happens(cr: Crypto, root: Certificates.PinnedRoot, identity: DeviceIdentity,
                          st: Store, e: Event, after: Store)
  {
    var env := Env(cr, root, e.now);
    match e
    case Preparing(_, s, answer) => after == Filed(st, Prepare(env, st, s, identity, answer))
    case Resuming(_, s, r) => after == Filed(st, ResumePrepare(env, st, s, identity, r))
    case CoSigning(_, s, r) => after == Filed(st, CoSign(env, st, s, identity, r))
    case Finalizing(_, s, r) => after == Kept(st, Finalize(env, st, s, identity, r))
    case Reconciling(_, s, r) => after == Kept(st, Reconcile(env, st, s, identity, r))
    case Revoking(_, p) => after == Kept(st, Revoke(env, st, p))
    case Interrupted(_, s, r) =>
      // The sweep of stale pending files stopped somewhere: a power cut, or a file it could not read.
      && (FinalizeAccepts(env, s, identity, r) || ReconcileAccepts(env, s, identity, r))
      && PersistActive(st, r).Ok?
      && after.active == PersistActive(st, r).value.active
      && after.revoked == st.revoked
      && SweptPartly(st.pending, after.pending, r)
  }

  // ---- Every event is one of four changes ----

  lemma SignAndFileChanges(env: Env, st: Store, s: Session, identity: DeviceIdentity, unsigned: PairingRecord)
    requires ValidateSessionIdentity(env.cr, s, identity)
    ensures Change(StoreRules(env.cr, env.root, identity), st, Filed(st, SignAndFile(env, st, s, identity, unsigned)))
  {
    var filed := SignAndFile(env, st, s, identity, unsigned);
    if filed.Ok? {
      var (after, r) := filed.value;
      SignedRecordIsSelfSigned(env, s, identity, unsigned, r, false);
      if r.pairId !in st.pending {
        assert Adds(StoreRules(env.cr, env.root, identity), st, after, r);
      }
    }
  }

  /** A record signed in the session's role and then validated carries the local device's own signature. */
  lemma SignedRecordIsSelfSigned(env: Env, s: Session, identity: DeviceIdentity, unsigned: PairingRecord,
                                 r: PairingRecord, complete: bool)
    requires ValidateSessionIdentity(env.cr, s, identity)
    requires SignRecord(env.cr, identity, unsigned, s.RecordRole()).Ok?
    requires r == SetSignature(unsigned, s.RecordRole(), SignRecord(env.cr, identity, unsigned, s.RecordRole()).value)
    requires ValidateRecord(env, r, s, identity, complete, true, false)
    ensures SignedInRole(env.cr, identity, r, s.RecordRole())
    ensures Fits(r) ==> SelfSigned(env.cr, env.root, identity, r.pairId, r)
  {
    assert SigningBytes(r) == SigningBytes(unsigned);
  }

  lemma CoSignChanges(env: Env, st: Store, s: Session, identity: DeviceIdentity, partial: PairingRecord)
    ensures Change(StoreRules(env.cr, env.root, identity), st, Filed(st, CoSign(env, st, s, identity, partial)))
  {
    var filed := CoSign(env, st, s, identity, partial);
    if filed.Ok? {
      var (after, r) := filed.value;
      SignedRecordIsSelfSigned(env, s, identity, partial, r, true);
      if r.pairId !in st.pending {
        assert Adds(StoreRules(env.cr, env.root, identity), st, after, r);
      }
    }
  }

  lemma AcceptedIsBilateral(env: Env, s: Session, identity: DeviceIdentity, r: PairingRecord)
    requires FinalizeAccepts(env, s, identity, r) || ReconcileAccepts(env, s, identity, r)
    ensures Fits(r) ==> Bilateral(env.cr, env.root, r.pairId, r)
  {
  }

  lemma PersistChanges(env: Env, st: Store, s: Session, identity: DeviceIdentity, r: PairingRecord, after: Store)
    requires FinalizeAccepts(env, s, identity, r) || ReconcileAccepts(env, s, identity, r)
    requires PersistActive(st, r).Ok?
    requires after.active == PersistActive(st, r).value.active && after.revoked == st.revoked
    requires SweptPartly(st.pending, after.pending, r)
    ensures Change(StoreRules(env.cr, env.root, identity), st, after)
  {
    AcceptedIsBilateral(env, s, identity, r);
    assert st.active[r.pairId := r] == PersistActive(st, r).value.active;
    assert Activates(StoreRules(env.cr, env.root, identity), st, after, r);
  }

  lemma FinalizeChanges(env: Env, st: Store, s: Session, identity: DeviceIdentity, r: PairingRecord)
    ensures Change(StoreRules(env.cr, env.root, identity), st, Kept(st, Finalize(env, st, s, identity, r)))
  {
    if Finalize(env, st, s, identity, r).Ok? {
      PersistChanges(env, st, s, identity, r, PersistActive(st, r).value);
    }
  }

  lemma ReconcileChanges(env: Env, st: Store, s: Session, identity: DeviceIdentity, r: PairingRecord)
    ensures Change(StoreRules(env.cr, env.root, identity), st, Kept(st, Reconcile(env, st, s, identity, r)))
  {
    if Reconcile(env, st, s, identity, r).Ok? {
      PersistChanges(env, st, s, identity, r, PersistActive(st, r).value);
    }
  }

  lemma RevokeChanges(env: Env, st: Store, identity: DeviceIdentity, p: Bytes)
    ensures Change(StoreRules(env.cr, env.root, identity), st, Kept(st, Revoke(env, st, p)))
  {
    if Revoke(env, st, p).Ok? {
      assert Revokes(st, Revoke(env, st, p).value, p);
    }
  }

  lemma EventIsChange(cr: Crypto, root: Certificates.PinnedRoot, identity: DeviceIdentity,
                      st: Store, e: Event, after: Store)
    requires Happens(cr, root, identity, st, e, after)
    ensures Change(StoreRules(cr, root, identity), st, after)
  {
    var env := Env(cr, root, e.now);
    match e
    case Preparing(_, s, answer) =>
      if Prepare(env, st, s, identity, answer).Ok? {
        SignAndFileChanges(env, st, s, identity,
                           RecordFromSession(cr, s, answer.value, identity, env.now).value);
      }
    case Resuming(_, s, r) =>
      if ResumePrepare(env, st, s, identity, r).Ok? {
        SignAndFileChanges(env, st, s, identity,
                           RecordFromSession(cr, s, r.userPresence, identity, r.authorizedAt).value);
      }
    case CoSigning(_, s, r) => CoSignChanges(env, st, s, identity, r);
    case Finalizing(_, s, r) => FinalizeChanges(env, st, s, identity, r);
    case Reconciling(_, s, r) => ReconcileChanges(env, st, s, identity, r);
    case Revoking(_, p) => RevokeChanges(env, st, identity, p);
    case Interrupted(_, s, r) => PersistChanges(env, st, s, identity, r, after);
  }

  // ---- Whole runs ----

  ghost predicate Step(cr: Crypto, root: Certificates.PinnedRoot, identity: DeviceIdentity, st: Store, after: Store) {
    exists e :: Happens(cr, root, identity, st, e, after)
  }

  /** A history of one device's store: it starts empty and each state follows by some event. */
  ghost predicate History(cr: Crypto, root: Certificates.PinnedRoot, identity: DeviceIdentity, h: seq<Store>) {
    && |h| > 0
    && h[0] == EMPTY_STORE
    && forall i :: 0 < i < |h| ==> Step(cr, root, identity, h[i - 1], h[i])
  }

  lemma StepIsChange(cr: Crypto, root: Certificates.PinnedRoot, identity: DeviceIdentity, st: Store, after: Store)
    requires Step(cr, root, identity, st, after)
    ensures Change(StoreRules(cr, root, identity), st, after)
  {
    var e :| Happens(cr, root, identity, st, e, after);
    EventIsChange(cr, root, identity, st, e, after);
  }

  lemma HistoryIsChanges(cr: Crypto, root: Certificates.PinnedRoot, identity: DeviceIdentity, h: seq<Store>)
    requires History(cr, root, identity, h)
    ensures ChangeHistory(StoreRules(cr, root, identity), h)
  {
    forall i | 0 < i < |h|
      ensures Change(StoreRules(cr, root, identity), h[i - 1], h[i])
    {
      StepIsChange(cr, root, identity, h[i - 1], h[i]);
    }
  }

  /** In every state of every history: active and revoked records are bilateral under their own PairID. */
  lemma ActiveIsAlwaysBilateral(cr: Crypto, root: Certificates.PinnedRoot, identity: DeviceIdentity,
                                h: seq<Store>, i: nat, p: Bytes)
    requires History(cr, root, identity, h) && i < |h|
    ensures p in h[i].active ==> Bilateral(cr, root, p, h[i].active[p]) && p !in h[i].revoked
    ensures p in h[i].revoked ==> Bilateral(cr, root, p, h[i].revoked[p])
  {
    var rules := StoreRules(cr, root, identity);
    HistoryIsChanges(cr, root, identity, h);
    HistoryKeepsInv(rules, h, i);
    assert p in h[i].active ==> rules.active(p, h[i].active[p]);
    assert p in h[i].revoked ==> rules.active(p, h[i].revoked[p]);
  }

  /** In every state of every history: a pending record carries the local device's own valid role signature. */
  lemma PendingIsAlwaysSelfSigned(cr: Crypto, root: Certificates.PinnedRoot, identity: DeviceIdentity,
                                  h: seq<Store>, i: nat, p: Bytes)
    requires History(cr, root, identity, h) && i < |h| && p in h[i].pending
    ensures SelfSigned(cr, root, identity, p, h[i].pending[p])
  {
    HistoryIsChanges(cr, root, identity, h);
    HistoryKeepsInv(StoreRules(cr, root, identity), h, i);
    assert StoreRules(cr, root, identity).pending(p, h[i].pending[p]);
  }

  /** A revoked PairID keeps its record and is never active again. */
  lemma RevocationIsFinal(cr: Crypto, root: Certificates.PinnedRoot, identity: DeviceIdentity,
                          h: seq<Store>, i: nat, j: nat, p: Bytes)
    requires History(cr, root, identity, h) && i <= j < |h|
    requires p in h[i].revoked
    ensures p in h[j].revoked && h[j].revoked[p] == h[i].revoked[p] && p !in h[j].active
  {
    HistoryIsChanges(cr, root, identity, h);
    RevokedStays(StoreRules(cr, root, identity), h, i, j, p);
    HistoryKeepsInv(StoreRules(cr, root, identity), h, j);
  }

  /** A PairID's active record never changes: from then on it is active, or revoked, with that very record. */
  lemma ActiveRecordIsFixed(cr: Crypto, root: Certificates.PinnedRoot, identity: DeviceIdentity,
                            h: seq<Store>, i: nat, j: nat, p: Bytes)
    requires History(cr, root, identity, h) && i <= j < |h|
    requires p in h[i].active
    ensures || (p in h[j].active && h[j].active[p] == h[i].active[p])
            || (p in h[j].revoked && h[j].revoked[p] == h[i].active[p])
  {
    HistoryIsChanges(cr, root, identity, h);
    ActiveStaysOrIsRevoked(StoreRules(cr, root, identity), h, i, j, p);
  }

  /** Pending files are write-once: constant until removed, and removed only when their pair becomes active. */
  lemma PendingIsWriteOnce(cr: Crypto, root: Certificates.PinnedRoot, identity: DeviceIdentity,
                           h: seq<Store>, i: nat, j: nat, p: Bytes)
    requires History(cr, root, identity, h) && i <= j < |h|
    requires p in h[i].pending
    ensures || (p in h[j].pending && h[j].pending[p] == h[i].pending[p])
            || (exists k: nat :: i < k <= j && SweptAt(h, k, p, h[i].pending[p]))
  {
    HistoryIsChanges(cr, root, identity, h);
    PendingStaysOrIsSwept(StoreRules(cr, root, identity), h, i, j, p);
  }

  /** A completed activation sweeps exactly that pair's pending files, in either orientation. */
  lemma ActivationSweepsExactlyItsPair(env: Env, st: Store, s: Session, identity: DeviceIdentity, r: PairingRecord,
                                       after: Store)
    requires Finalize(env, st, s, identity, r) == Ok(after) || Reconcile(env, st, s, identity, r) == Ok(after)
    ensures forall p :: p in after.pending <==>
                        p in st.pending && !Between(st.pending[p], r.initiatorDeviceId, r.responderDeviceId)
    ensures forall p :: p in after.pending ==> after.pending[p] == st.pending[p]
    ensures r.pairId in after.active && after.active[r.pairId] == r
  {
  }
}
