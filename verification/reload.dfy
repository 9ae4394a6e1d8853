/** When an activated record can be loaded, reconnected with and revoked again, at any later time. */
module Reload {
  import opened Octets
  import opened Cryptography
  import opened Records
  import opened Sessions
  import opened Stores
  import opened StoreRuns
  import Certificates

  /** The same directories opened later. */
  function At(env: Env, later: u64): Env {
    env.(now := later)
  }

  predicate Participant(cr: Crypto, identity: DeviceIdentity, r: PairingRecord) {
    || (identity.DeviceId(cr) == r.initiatorDeviceId && identity.PublicKey(cr) == r.initiatorPublicKey)
    || (identity.DeviceId(cr) == r.responderDeviceId && identity.PublicKey(cr) == r.responderPublicKey)
  }

  /** The pins a reconnect must use: exactly the record's identities and embedded certificates. */
  predicate PinsOf(context: PairedIdentityContext, r: PairingRecord) {
    && context.pairId == r.pairId
    && context.initiatorDeviceId == r.initiatorDeviceId && context.responderDeviceId == r.responderDeviceId
    && context.initiatorPublicKey == r.initiatorPublicKey && context.responderPublicKey == r.responderPublicKey
    && Certificates.FromBytes(r.initiatorCertificate) == Result.Ok(context.initiatorCertificate)
    && Certificates.FromBytes(r.responderCertificate) == Result.Ok(context.responderCertificate)
  }

  lemma PersistFiles(st: Store, r: PairingRecord)
    requires PersistActive(st, r).Ok? && ValidateShape(r)
    ensures var after := PersistActive(st, r).value;
            r.pairId in after.active && after.active[r.pairId] == r && Readable(r) && r.pairId !in after.revoked
  {
  }

  /** Loading depends on the record alone: complete and certified, it loads iff its windows held at authorization. */
  lemma FiledRecordLoads(env: Env, st: Store, p: Bytes)
    requires p in st.active && Bilateral(env.cr, env.root, p, st.active[p])
    ensures Load(env, st, p) ==
            if WindowsContain(st.active[p], st.active[p].authorizedAt) then Result.Ok(Some(st.active[p])) else Err
  {
  }

  lemma FiledRecordReconnects(env: Env, st: Store, p: Bytes, identity: DeviceIdentity)
    requires p in st.active && Bilateral(env.cr, env.root, p, st.active[p])
    requires Participant(env.cr, identity, st.active[p])
    ensures var context := ReconnectContext(env, st, identity, p);
            && (context.Ok? <==> WindowsContain(st.active[p], st.active[p].authorizedAt))
            && (context.Ok? ==> PinsOf(context.value, st.active[p]))
  {
  }

  lemma FiledRecordRevokes(env: Env, st: Store, p: Bytes)
    requires p in st.active && Bilateral(env.cr, env.root, p, st.active[p]) && p !in st.revoked
    ensures Revoke(env, st, p).Ok? <==> WindowsContain(st.active[p], st.active[p].authorizedAt)
  {
  }

  /** After `reconcile`, the record loads and reconnects at every later time, however old its certificates. */
  lemma ReconciledAlwaysReloads(env: Env, st: Store, s: Session, identity: DeviceIdentity, r: PairingRecord, later: u64)
    requires Reconcile(env, st, s, identity, r).Ok?
    ensures var after := Reconcile(env, st, s, identity, r).value;
            && Load(At(env, later), after, r.pairId) == Result.Ok(Some(r))
            && ReconnectContext(At(env, later), after, identity, r.pairId).Ok?
            && PinsOf(ReconnectContext(At(env, later), after, identity, r.pairId).value, r)
            && Revoke(At(env, later), after, r.pairId).Ok?
  {
    var after := Reconcile(env, st, s, identity, r).value;
    PersistFiles(st, r);
    AcceptedIsBilateral(env, s, identity, r);
    AcceptedIsParticipant(env, s, identity, r);
    FiledRecordLoads(At(env, later), after, r.pairId);
    FiledRecordReconnects(At(env, later), after, r.pairId, identity);
    FiledRecordRevokes(At(env, later), after, r.pairId);
  }

  lemma AcceptedIsParticipant(env: Env, s: Session, identity: DeviceIdentity, r: PairingRecord)
    requires FinalizeAccepts(env, s, identity, r) || ReconcileAccepts(env, s, identity, r)
    ensures Participant(env.cr, identity, r)
  {
  }

  /**
   After `finalize`, the record loads, reconnects and can be revoked if and only if both embedded
   certificate windows contain its authorization time.  Otherwise it is active but unusable for good.
   */
  lemma FinalizedReloadsExactlyWhenTimely(env: Env, st: Store, s: Session, identity: DeviceIdentity,
                                          r: PairingRecord, later: u64)
    requires Finalize(env, st, s, identity, r).Ok?
    ensures var after := Finalize(env, st, s, identity, r).value;
            var timely := WindowsContain(r, r.authorizedAt);
            && Load(At(env, later), after, r.pairId) == (if timely then Result.Ok(Some(r)) else Err)
            && (ReconnectContext(At(env, later), after, identity, r.pairId).Ok? <==> timely)
            && (timely ==> PinsOf(ReconnectContext(At(env, later), after, identity, r.pairId).value, r))
            && (Revoke(At(env, later), after, r.pairId).Ok? <==> timely)
  {
    var after := Finalize(env, st, s, identity, r).value;
    PersistFiles(st, r);
    AcceptedIsBilateral(env, s, identity, r);
    AcceptedIsParticipant(env, s, identity, r);
    FiledRecordLoads(At(env, later), after, r.pairId);
    FiledRecordReconnects(At(env, later), after, r.pairId, identity);
    FiledRecordRevokes(At(env, later), after, r.pairId);
  }

  /** An untimely active record also hides every other pair: no search can answer "not paired" any more. */
  lemma UntimelyRecordPoisonsSearches(env: Env, st: Store, p: Bytes, local: Bytes, peer: Bytes)
    requires p in st.active && !WindowsContain(st.active[p], st.active[p].authorizedAt)
    ensures !MayReportActive(env, st, local, peer, Result.Ok(false))
    ensures !MayFindActive(env, st, local, peer, Result.Ok(None))
    ensures MayReportActive(env, st, local, peer, Err)
    ensures MayFindActive(env, st, local, peer, Err)
  {
    assert !ValidateStored(env, st.active[p]);
    assert !GoodActive(env, p, st.active[p]);
  }

  /** A filed record was checked at the handle's time and differs from the unsigned one only by a signature. */
  lemma FiledAsChecked(env: Env, st: Store, s: Session, identity: DeviceIdentity, unsigned: PairingRecord)
    requires SignAndFile(env, st, s, identity, unsigned).Ok?
    ensures var r := SignAndFile(env, st, s, identity, unsigned).value.1;
            && WindowsContain(r, env.now) && ValidateRecord(env, r, s, identity, false, true, false)
            && Unsigned(r) == Unsigned(unsigned)
            && (r.initiatorSignature.Some? || r.responderSignature.Some?)
  {
  }

  lemma SessionRecordFields(cr: Crypto, s: Session, marker: Text, identity: DeviceIdentity, at: u64)
    requires RecordFromSession(cr, s, marker, identity, at).Ok?
    ensures var r := RecordFromSession(cr, s, marker, identity, at).value;
            && r.userPresence == marker && r.authorizedAt == at && r.authorizingDeviceId == identity.DeviceId(cr)
            && r.pairId == s.pairId && r.sessionBinding == s.sessionBinding
  {
  }

  /** `prepare` establishes the condition: its authorization time is the time both windows were checked. */
  lemma PreparedIsTimely(env: Env, st: Store, s: Session, identity: DeviceIdentity, answer: Option<Text>)
    requires Prepare(env, st, s, identity, answer).Ok?
    ensures var r := Prepare(env, st, s, identity, answer).value.1;
            r.authorizedAt == env.now && WindowsContain(r, r.authorizedAt)
  {
    var unsigned := RecordFromSession(env.cr, s, answer.value, identity, env.now).value;
    SessionRecordFields(env.cr, s, answer.value, identity, env.now);
    FiledAsChecked(env, st, s, identity, unsigned);
    assert Unsigned(SignAndFile(env, st, s, identity, unsigned).value.1).authorizedAt == env.now;
  }

  /** Co-signing changes neither the embedded certificates nor the time, so it keeps a record timely. */
  lemma CoSignedIsAsTimely(env: Env, st: Store, s: Session, identity: DeviceIdentity, partial: PairingRecord)
    requires CoSign(env, st, s, identity, partial).Ok?
    ensures var r := CoSign(env, st, s, identity, partial).value.1;
            r.IsComplete() && Unsigned(r) == Unsigned(partial)
            && (WindowsContain(r, r.authorizedAt) <==> WindowsContain(partial, partial.authorizedAt))
  {
  }

  /** Resuming reuses the old marker and time; whether the new file can be searched depends on the new windows. */
  lemma ResumedKeepsGrant(env: Env, st: Store, s: Session, identity: DeviceIdentity, pending: PairingRecord)
    requires ResumePrepare(env, st, s, identity, pending).Ok?
    ensures var (after, r) := ResumePrepare(env, st, s, identity, pending).value;
            && r.userPresence == pending.userPresence && r.authorizedAt == pending.authorizedAt
            && r.authorizingDeviceId == pending.authorizingDeviceId == identity.DeviceId(env.cr)
            && r.pairId == s.pairId && r.sessionBinding == s.sessionBinding
            && (ValidatePendingStored(env, r) <==> WindowsContain(r, pending.authorizedAt))
  {
    var unsigned := RecordFromSession(env.cr, s, pending.userPresence, identity, pending.authorizedAt).value;
    SessionRecordFields(env.cr, s, pending.userPresence, identity, pending.authorizedAt);
    FiledAsChecked(env, st, s, identity, unsigned);
    var r := SignAndFile(env, st, s, identity, unsigned).value.1;
    assert Unsigned(r).userPresence == pending.userPresence && Unsigned(r).authorizedAt == pending.authorizedAt;
  }

  /** One untimely pending file makes "no pending record" unanswerable for every peer. */
  lemma UntimelyPendingPoisonsSearches(env: Env, st: Store, p: Bytes, local: Bytes, peer: Bytes)
    requires p in st.pending && !WindowsContain(st.pending[p], st.pending[p].authorizedAt)
    ensures !MayFindPending(env, st, local, peer, Result.Ok(None))
    ensures MayFindPending(env, st, local, peer, Err)
  {
    assert !GoodPending(env, st.pending[p]);
  }

  /** Over a device's whole history: a record that loads once loads until it is revoked. */
  lemma LoadsUntilRevoked(cr: Crypto, root: Certificates.PinnedRoot, identity: DeviceIdentity,
                          h: seq<Store>, i: nat, j: nat, p: Bytes, now: u64, later: u64)
    requires History(cr, root, identity, h) && i <= j < |h|
    requires Load(Env(cr, root, now), h[i], p).Ok? && Load(Env(cr, root, now), h[i], p).value.Some?
    ensures || p in h[j].revoked
            || Load(Env(cr, root, later), h[j], p) == Load(Env(cr, root, now), h[i], p)
  {
    ActiveRecordIsFixed(cr, root, identity, h, i, j, p);
    ActiveIsAlwaysBilateral(cr, root, identity, h, i, p);
    ActiveIsAlwaysBilateral(cr, root, identity, h, j, p);
    FiledRecordLoads(Env(cr, root, now), h[i], p);
    if p in h[j].active {
      FiledRecordLoads(Env(cr, root, later), h[j], p);
    }
  }

  // ---- Exactly when the searches can be relied on ----

  /** Every record could be loaded: its windows contain its authorization time. */
  predicate AllTimely(d: Directory) {
    forall p :: p in d ==> WindowsContain(d[p], d[p].authorizedAt)
  }

  lemma TimelyIsStored(env: Env, p: Bytes, r: PairingRecord)
    requires Bilateral(env.cr, env.root, p, r)
    ensures ValidateStored(env, r) <==> WindowsContain(r, r.authorizedAt)
    ensures GoodActive(env, p, r) <==> WindowsContain(r, r.authorizedAt)
    ensures Readable(r)
  {
  }

  lemma TimelyIsPending(env: Env, identity: DeviceIdentity, p: Bytes, r: PairingRecord)
    requires SelfSigned(env.cr, env.root, identity, p, r)
    ensures GoodPending(env, r) <==> WindowsContain(r, r.authorizedAt)
  {
  }

  /** A search for a peer's pending record is right: it finds one of that peer's, or there is none. */
  ghost predicate RightPending(st: Store, local: Bytes, peer: Bytes, answer: Result<Option<PairingRecord>>) {
    match answer
    case Err => false
    case Ok(None) => forall p :: p in st.pending ==> !Between(st.pending[p], local, peer)
    case Ok(Some(found)) => exists p :: p in st.pending && st.pending[p] == found && Between(found, local, peer)
  }

  /** A search for a peer's active record is right. */
  ghost predicate RightActive(st: Store, local: Bytes, peer: Bytes, answer: Result<Option<Bytes>>) {
    match answer
    case Err => false
    case Ok(None) => forall p :: p in st.active ==> !Between(st.active[p], local, peer)
    case Ok(Some(p)) => p in st.active && Between(st.active[p], local, peer)
  }

  lemma GoodPendingSearch(env: Env, st: Store, local: Bytes, peer: Bytes)
    requires LowerHex32(local) && LowerHex32(peer)
    requires forall p :: p in st.pending ==>
               (GoodPending(env, st.pending[p]) <==> WindowsContain(st.pending[p], st.pending[p].authorizedAt))
    ensures AllTimely(st.pending) <==>
            forall answer :: MayFindPending(env, st, local, peer, answer) ==> RightPending(st, local, peer, answer)
  {
    if p :| p in st.pending && !WindowsContain(st.pending[p], st.pending[p].authorizedAt) {
      UntimelyPendingPoisonsSearches(env, st, p, local, peer);
      assert !RightPending(st, local, peer, Err);
    }
  }

  lemma GoodActiveSearch(env: Env, st: Store, local: Bytes, peer: Bytes)
    requires forall p :: p in st.active ==>
               (GoodActive(env, p, st.active[p]) <==> WindowsContain(st.active[p], st.active[p].authorizedAt))
    ensures AllTimely(st.active) <==>
            forall answer :: MayFindActive(env, st, local, peer, answer) ==> RightActive(st, local, peer, answer)
  {
    if p :| p in st.active && !WindowsContain(st.active[p], st.active[p].authorizedAt) {
      UntimelyRecordPoisonsSearches(env, st, p, local, peer);
      assert !RightActive(st, local, peer, Err);
    }
  }

  /**
   In every state of every history, `pending_for_peer` gives the right answer for a peer, in whatever order the
   directory is listed, if and only if every pending file is timely; those of all other peers included.
   */
  lemma PendingSearchAgrees(cr: Crypto, root: Certificates.PinnedRoot, identity: DeviceIdentity, h: seq<Store>, i: nat,
                            now: u64, peer: Bytes)
    requires History(cr, root, identity, h) && i < |h| && LowerHex32(peer)
    ensures AllTimely(h[i].pending) <==>
            forall answer :: MayFindPending(Env(cr, root, now), h[i], identity.DeviceId(cr), peer, answer)
                             ==> RightPending(h[i], identity.DeviceId(cr), peer, answer)
  {
    var env, st := Env(cr, root, now), h[i];
    forall p | p in st.pending
      ensures GoodPending(env, st.pending[p]) <==> WindowsContain(st.pending[p], st.pending[p].authorizedAt)
    {
      PendingIsAlwaysSelfSigned(cr, root, identity, h, i, p);
      TimelyIsPending(env, identity, p, st.pending[p]);
    }
    GoodPendingSearch(env, st, identity.DeviceId(cr), peer);
  }

  /** The same of `active_pair_for_peer_at` and the active files. */
  lemma ActiveSearchAgrees(cr: Crypto, root: Certificates.PinnedRoot, identity: DeviceIdentity, h: seq<Store>, i: nat,
                           now: u64, peer: Bytes)
    requires History(cr, root, identity, h) && i < |h|
    ensures AllTimely(h[i].active) <==>
            forall answer :: MayFindActive(Env(cr, root, now), h[i], identity.DeviceId(cr), peer, answer)
                             ==> RightActive(h[i], identity.DeviceId(cr), peer, answer)
  {
    var env, st := Env(cr, root, now), h[i];
    forall p | p in st.active
      ensures GoodActive(env, p, st.active[p]) <==> WindowsContain(st.active[p], st.active[p].authorizedAt)
    {
      ActiveIsAlwaysBilateral(cr, root, identity, h, i, p);
      TimelyIsStored(env, p, st.active[p]);
    }
    GoodActiveSearch(env, st, identity.DeviceId(cr), peer);
  }
}
