/** The two devices' real stores and runs follow the plan, step for step. */
module ExchangeRefinement {
  import opened Octets
  import opened Records
  import opened Sessions
  import opened Frames
  import opened AuthMessages
  import opened Stores
  import opened Endpoints
  import opened Exchanges
  import opened ExchangeRecords
  import Certificates
  import P = ExchangePlans

  type Issued = map<Bytes, P.Issue>

  function Paper(k: Peers, id: Bytes, issue: P.Issue, full: bool): PairingRecord {
    if full then Full(k, id, issue) else Half(k, id, issue)
  }

  /** An issue made between enrolled devices: printable, and made while both certificates were valid. */
  predicate Sealed(k: Peers, id: Bytes, issue: P.Issue) {
    Proper(id, issue) && InBoth(k, issue.at)
  }

  // ---- The correspondence ----

  /** The record is this PairID's paper and can be written and read back. */
  predicate PaperMatches(k: Peers, issued: Issued, id: Bytes, full: bool, r: PairingRecord) {
    id in issued && r == Paper(k, id, issued[id], full) && Fits(r)
  }

  predicate Files(k: Peers, issued: Issued, ids: set<Bytes>, full: bool, d: Directory) {
    d.Keys == ids && forall p :: p in d ==> PaperMatches(k, issued, p, full, d[p])
  }

  predicate StoreMatches(k: Peers, issued: Issued, side: P.Side, full: bool, st: Store) {
    && Files(k, issued, side.pending, full, st.pending)
    && Files(k, issued, side.active, true, st.active)
    && Files(k, issued, side.revoked, true, st.revoked)
  }

  predicate NoteMatches(k: Peers, issued: Issued, note: P.Note, m: Message) {
    match note
    case Offer(id) => m.Prepared? && PaperMatches(k, issued, id, false, m.record)
    case Whole(id) => m.Complete? && PaperMatches(k, issued, id, true, m.record)
    case Done => m.Finalized?
  }

  predicate InboxMatches(k: Peers, issued: Issued, notes: seq<P.Note>, inbox: seq<Message>) {
    |notes| == |inbox| && forall j :: 0 <= j < |notes| ==> NoteMatches(k, issued, notes[j], inbox[j])
  }

  function ContextOf(k: Peers, id: Bytes): PairedIdentityContext {
    PairedIdentityContext(AsText(id), k.initiatorCertificate.deviceId, k.responderCertificate.deviceId,
                          k.initiatorCertificate.publicKey, k.responderCertificate.publicKey,
                          k.initiatorCertificate, k.responderCertificate)
  }

  function ValidationOf(k: Peers, now: u64, reconnect: bool, id: Bytes): PeerValidation {
    if reconnect then Paired(ContextOf(k, id)) else Current(k.root, now)
  }

  function InitiatorEndpoint(k: Peers, now: u64, reconnect: bool, id: Bytes, staticKey: Bytes32): Endpoint {
    Endpoint(ROLE_INITIATOR, k.initiator, Some(AsText(id)), k.initiatorCertificate, k.responderCertificate.deviceId,
             ValidationOf(k, now, reconnect, id), Some(staticKey), None, None, None, false)
  }

  function ResponderEndpoint(k: Peers, now: u64, reconnect: bool, id: Bytes): Endpoint {
    Endpoint(ROLE_RESPONDER, k.responder, if reconnect then Some(AsText(id)) else None, k.responderCertificate,
             k.initiatorCertificate.deviceId, ValidationOf(k, now, reconnect, id), None, None, None, None, false)
  }

  predicate InitiatorMatches(k: Peers, issued: Issued, plan: P.InitiatorRun, run: InitiatorRun) {
    match plan
    case Resting => run.Idle?
    case Started(now, reconnect, id, staticKey) =>
      run == Opening(now, reconnect, InitiatorEndpoint(k, now, reconnect, id, staticKey)) && LowerHex32(id)
    case Asking(now, reconnect, id, binding, notes) =>
      && run.Requesting? && run.now == now && run.reconnect == reconnect
      && run.session == SessionsOf(k, id, binding).0 && InboxMatches(k, issued, notes, run.inbox)
    case Waiting(now, id, binding, whole, notes) =>
      && run.Confirming? && run.now == now && run.session == SessionsOf(k, id, binding).0
      && PaperMatches(k, issued, whole, true, run.record) && InboxMatches(k, issued, notes, run.inbox)
  }

  predicate ResponderMatches(k: Peers, issued: Issued, plan: P.ResponderRun, run: ResponderRun) {
    match plan
    case Listening => run.Free?
    case Serving(now, reconnect, id, binding, active, pending) =>
      && run.Answering? && run.now == now && run.reconnect == reconnect && LowerHex32(id)
      && run.session == SessionsOf(k, id, binding).1 && run.active == active
      && (pending.None? <==> run.pending.None?)
      && (pending.Some? ==> PaperMatches(k, issued, pending.value, false, run.pending.value))
    case Expecting(now, id, binding, notes) =>
      && run.Awaiting? && run.now == now && run.session == SessionsOf(k, id, binding).1
      && InboxMatches(k, issued, notes, run.inbox)
  }

  predicate IssuesSealed(k: Peers, issued: Issued) {
    forall p :: p in issued ==> Sealed(k, p, issued[p])
  }

  predicate Matches(k: Peers, a: P.Plan, c: World) {
    && IssuesSealed(k, a.issued)
    && (forall p :: p in a.usedIds ==> LowerHex32(p))
    && StoreMatches(k, a.issued, a.i, true, c.i)
    && StoreMatches(k, a.issued, a.r, false, c.r)
    && InitiatorMatches(k, a.issued, a.irun, c.irun)
    && ResponderMatches(k, a.issued, a.rrun, c.rrun)
    && a.usedIds == c.usedIds && a.usedBindings == c.usedBindings && a.grants == c.grants
  }

  // ---- Searches ----

  lemma FiledPaper(k: Peers, issued: Issued, id: Bytes, full: bool, r: PairingRecord, now: u64)
    requires Enrolled(k) && IssuesSealed(k, issued) && PaperMatches(k, issued, id, full, r)
    ensures LowerHex32(id) && r.pairId == id && Readable(r) && (r.IsComplete() <==> full)
    ensures ValidatePendingStored(k.At(now), r)
    ensures full ==> ValidateStored(k.At(now), r)
    ensures Between(r, k.InitiatorId(), k.ResponderId())
  {
    assert Sealed(k, id, issued[id]);
    PaperValidates(k, id, issued[id], r, now);
    FullIsSigned(k, id, issued[id]);
    LowerHexIsUtf8(id);
  }

  lemma PaperNames(k: Peers, issued: Issued, id: Bytes, full: bool, r: PairingRecord)
    requires Enrolled(k) && IssuesSealed(k, issued) && PaperMatches(k, issued, id, full, r)
    ensures r.pairId == id && Readable(r) && (r.IsComplete() <==> full)
  {
    FiledPaper(k, issued, id, full, r, 0);
  }

  lemma ActiveSearch(k: Peers, issued: Issued, ids: set<Bytes>, st: Store, now: u64, file: Option<Bytes>)
    requires Enrolled(k) && IssuesSealed(k, issued) && Files(k, issued, ids, true, st.active)
    ensures MayBeActive(k, now, st, file) <==> P.MayFind(ids, file)
  {
    forall p | p in st.active
      ensures GoodActive(k.At(now), p, st.active[p]) && Between(st.active[p], k.InitiatorId(), k.ResponderId())
    {
      FiledPaper(k, issued, p, true, st.active[p], now);
    }
  }

  /** Where every file is good and of this pair, a search comes back with any file, or with none if there is none. */
  lemma GoodFilesAreFound(env: Env, st: Store, local: Bytes, peer: Bytes, file: Bytes)
    requires forall p :: p in st.pending ==> GoodPending(env, st.pending[p]) && Between(st.pending[p], local, peer)
    requires file in st.pending
    ensures MayFindPending(env, st, local, peer, Ok(Some(st.pending[file])))
  {
    assert GoodPending(env, st.pending[file]);
  }

  lemma FileForbidsNone(env: Env, st: Store, local: Bytes, peer: Bytes, file: Bytes)
    requires file in st.pending && Between(st.pending[file], local, peer)
    ensures !MayFindPending(env, st, local, peer, Ok(None))
  {
  }

  lemma EmptyFindsNone(env: Env, st: Store, local: Bytes, peer: Bytes)
    requires st.pending.Keys == {}
    ensures MayFindPending(env, st, local, peer, Ok(None))
  {
    assert forall p :: p in st.pending ==> p in st.pending.Keys;
  }

  lemma FilesAreGood(k: Peers, issued: Issued, ids: set<Bytes>, full: bool, d: Directory, now: u64)
    requires Enrolled(k) && IssuesSealed(k, issued) && Files(k, issued, ids, full, d)
    ensures forall p :: p in d ==> GoodPending(k.At(now), d[p]) && Between(d[p], k.InitiatorId(), k.ResponderId())
  {
    forall p | p in d
      ensures GoodPending(k.At(now), d[p]) && Between(d[p], k.InitiatorId(), k.ResponderId())
    {
      FiledPaper(k, issued, p, full, d[p], now);
    }
  }

  lemma PendingSearch(k: Peers, issued: Issued, ids: set<Bytes>, full: bool, st: Store, now: u64, file: Option<Bytes>)
    requires Enrolled(k) && IssuesSealed(k, issued) && Files(k, issued, ids, full, st.pending)
    ensures MayComeBack(k, now, st, file) <==> P.MayFind(ids, file)
  {
    FilesAreGood(k, issued, ids, full, st.pending, now);
    if file.None? {
      if p :| p in st.pending {
        FileForbidsNone(k.At(now), st, k.InitiatorId(), k.ResponderId(), p);
      } else {
        EmptyFindsNone(k.At(now), st, k.InitiatorId(), k.ResponderId());
      }
    } else if file.value in st.pending {
      GoodFilesAreFound(k.At(now), st, k.InitiatorId(), k.ResponderId(), file.value);
    }
  }

  // ---- Opening a session ----

  lemma IssuedIsHex(k: Peers, issued: Issued, id: Bytes)
    requires IssuesSealed(k, issued) && id in issued
    ensures LowerHex32(id)
  {
    assert Sealed(k, id, issued[id]);
  }

  lemma PaperContext(k: Peers, issued: Issued, id: Bytes, full: bool, r: PairingRecord, now: u64, role: byte)
    requires Enrolled(k) && IssuesSealed(k, issued) && PaperMatches(k, issued, id, full, r)
    requires role == ROLE_INITIATOR || role == ROLE_RESPONDER
    ensures ContextFromRecord(k.At(now), r, Who(k, role)) == Result.Ok(ContextOf(k, id))
  {
    FiledPaper(k, issued, id, full, r, now);
    FullIsSigned(k, id, issued[id]);
    RecordIsCertified(k, id, issued[id], r, now);
  }

  lemma ActiveContext(k: Peers, issued: Issued, id: Bytes, st: Store, now: u64, role: byte)
    requires Enrolled(k) && IssuesSealed(k, issued)
    requires id in st.active && PaperMatches(k, issued, id, true, st.active[id])
    requires role == ROLE_INITIATOR || role == ROLE_RESPONDER
    ensures ReconnectContext(k.At(now), st, Who(k, role), id) == Result.Ok(ContextOf(k, id))
    ensures Load(k.At(now), st, id) == Result.Ok(Some(st.active[id]))
  {
    var r := st.active[id];
    FiledPaper(k, issued, id, true, r, now);
    FullIsSigned(k, id, issued[id]);
    RecordIsCertified(k, id, issued[id], r, now);
  }

  lemma ReconnectEndpoints(k: Peers, id: Bytes, now: u64, staticKey: Bytes32)
    requires Enrolled(k) && LowerHex32(id)
    ensures NewReconnectInitiator(k.cr, k.initiator, ContextOf(k, id), staticKey)
         == Result.Ok(InitiatorEndpoint(k, now, true, id, staticKey))
    ensures NewReconnectResponder(k.cr, k.responder, ContextOf(k, id))
         == Result.Ok(ResponderEndpoint(k, now, true, id))
  {
    LowerHexIsUtf8(id);
  }

  lemma FirstContactEndpoints(k: Peers, id: Bytes, now: u64, staticKey: Bytes32)
    requires Enrolled(k) && LowerHex32(id)
    ensures Utf8(id)
    ensures NewInitiator(k.cr, k.initiator, k.initiatorCertificate, k.ResponderId(), k.root, now, AsText(id), staticKey)
         == if Certificates.InWindow(k.initiatorCertificate, now)
            then Result.Ok(InitiatorEndpoint(k, now, false, id, staticKey)) else Err
    ensures NewResponder(k.cr, k.responder, k.responderCertificate, k.InitiatorId(), k.root, now)
         == if Certificates.InWindow(k.responderCertificate, now)
            then Result.Ok(ResponderEndpoint(k, now, false, id)) else Err
  {
    LowerHexIsUtf8(id);
  }

  /** The endpoint the initiator opens, whatever file its searches picked. */
  lemma InitiatorOpens(k: Peers, issued: Issued, side: P.Side, st: Store, now: u64, active: Option<Bytes>,
                       pending: Option<Bytes>, recovery: Bytes, freshId: Bytes, staticKey: Bytes32)
    requires Enrolled(k) && IssuesSealed(k, issued) && StoreMatches(k, issued, side, true, st) && LowerHex32(freshId)
    requires P.MayFind(side.active, active) && P.MayFind(side.pending, pending)
    requires active.None? && pending.Some? ==> recovery in side.pending
    ensures var reconnect := active.Some? || pending.Some?;
            var id := if active.Some? then active.value else if pending.Some? then recovery else freshId;
            && LowerHex32(id)
            && OpenInitiator(k, now, st, active, pending, recovery, freshId, staticKey)
               == if reconnect || Certificates.InWindow(k.initiatorCertificate, now)
                  then Result.Ok(InitiatorEndpoint(k, now, reconnect, id, staticKey)) else Err
  {
    if active.Some? {
      ActiveContext(k, issued, active.value, st, now, ROLE_INITIATOR);
      IssuedIsHex(k, issued, active.value);
      ReconnectEndpoints(k, active.value, now, staticKey);
    } else if pending.Some? {
      PaperContext(k, issued, recovery, true, st.pending[recovery], now, ROLE_INITIATOR);
      IssuedIsHex(k, issued, recovery);
      ReconnectEndpoints(k, recovery, now, staticKey);
    } else {
      FirstContactEndpoints(k, freshId, now, staticKey);
    }
  }

  lemma ResponderRecovers(k: Peers, issued: Issued, st: Store, now: u64, pending: Option<Bytes>, recovery: Bytes)
    requires Enrolled(k) && IssuesSealed(k, issued) && pending.Some?
    requires recovery in st.pending && PaperMatches(k, issued, recovery, false, st.pending[recovery])
    ensures LowerHex32(recovery)
    ensures OpenResponder(k, now, st, None, pending, recovery, true)
         == Result.Ok(ResponderEndpoint(k, now, true, recovery))
  {
    PaperContext(k, issued, recovery, false, st.pending[recovery], now, ROLE_RESPONDER);
    IssuedIsHex(k, issued, recovery);
    ReconnectEndpoints(k, recovery, now, seq(32, _ => 0));
  }

  lemma ResponderReopens(k: Peers, issued: Issued, st: Store, now: u64, active: Bytes,
                         pending: Option<Bytes>, recovery: Bytes, reconnect: bool)
    requires Enrolled(k) && IssuesSealed(k, issued)
    requires active in st.active && PaperMatches(k, issued, active, true, st.active[active])
    ensures LowerHex32(active)
    ensures OpenResponder(k, now, st, Some(active), pending, recovery, reconnect)
         == Result.Ok(ResponderEndpoint(k, now, true, active))
  {
    ActiveContext(k, issued, active, st, now, ROLE_RESPONDER);
    IssuedIsHex(k, issued, active);
    ReconnectEndpoints(k, active, now, seq(32, _ => 0));
  }

  lemma ResponderOpens(k: Peers, issued: Issued, side: P.Side, st: Store, now: u64, active: Option<Bytes>,
                       pending: Option<Bytes>, recovery: Bytes, reconnect: bool, freshId: Bytes)
    requires Enrolled(k) && IssuesSealed(k, issued) && StoreMatches(k, issued, side, false, st) && LowerHex32(freshId)
    requires P.MayFind(side.active, active) && P.MayFind(side.pending, pending)
    requires active.None? && pending.Some? && reconnect ==> recovery in side.pending
    ensures var pinned := active.Some? || (pending.Some? && reconnect);
            var id := if active.Some? then active.value else if pinned then recovery else freshId;
            && LowerHex32(id)
            && OpenResponder(k, now, st, active, pending, recovery, reconnect)
               == if pinned || Certificates.InWindow(k.responderCertificate, now)
                  then Result.Ok(ResponderEndpoint(k, now, pinned, id)) else Err
  {
    if active.Some? {
      ResponderReopens(k, issued, st, now, active.value, pending, recovery, reconnect);
    } else if pending.Some? && reconnect {
      ResponderRecovers(k, issued, st, now, pending, recovery);
    } else {
      FirstContactEndpoints(k, freshId, now, seq(32, _ => 0));
    }
  }

  /** The digest of the transcript two enrolled devices share. */
  function BindingOf(k: Peers, reconnect: bool, id: Bytes, staticI: Bytes32, staticR: Bytes32, hash: Bytes32): Bytes32 {
    var mode := if reconnect then MODE_RECONNECT else MODE_FIRST_CONTACT;
    var t := MakeTranscript(View(hash, mode, AsText(id), k.initiatorCertificate, k.responderCertificate, staticI, staticR));
    k.cr.digest(if t.Ok? then t.value else [])
  }

  /** Which endpoints meet: the same mode, the same PairID where one is pinned, and on first contact valid certificates. */
  lemma EndpointsMeet(k: Peers, nowI: u64, reconnect: bool, id: Bytes, staticI: Bytes32,
                      nowR: u64, pinned: bool, pinnedId: Bytes, staticR: Bytes32, hash: Bytes32)
    requires Enrolled(k) && LowerHex32(id) && LowerHex32(pinnedId)
    ensures var met := Endpoints.Meet(k.cr, InitiatorEndpoint(k, nowI, reconnect, id, staticI),
                                      ResponderEndpoint(k, nowR, pinned, pinnedId), staticI, staticR, hash);
            var possible := && reconnect == pinned && (pinned ==> id == pinnedId)
                            && (!pinned ==> Certificates.InWindow(k.initiatorCertificate, nowR)
                                            && Certificates.InWindow(k.responderCertificate, nowI));
            && (met.Ok? <==> possible)
            && (met.Ok? ==> met.value == SessionsOf(k, id, BindingOf(k, reconnect, id, staticI, staticR, hash)))
  {
    var i, r := InitiatorEndpoint(k, nowI, reconnect, id, staticI), ResponderEndpoint(k, nowR, pinned, pinnedId);
    LowerHexIsUtf8(id);
    LowerHexIsUtf8(pinnedId);
    MeetExactlyWhenCompatible(k.cr, i, r, staticI, staticR, hash);
  }
}
