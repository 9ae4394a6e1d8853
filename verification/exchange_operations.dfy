/** What each store operation does with the papers of two enrolled devices. */
module ExchangeOperations {
  import opened Octets
  import opened Records
  import opened Stores
  import opened Exchanges
  import opened ExchangeRecords
  import opened ExchangeRefinement
  import P = ExchangePlans

  /** A store with one more pending paper. */
  function WithPending(st: Store, id: Bytes, r: PairingRecord): Store {
    st.(pending := st.pending[id := r])
  }

  /** The session certificates and the grant determine the unsigned paper. */
  lemma SessionYieldsBlank(k: Peers, id: Bytes, issue: P.Issue)
    requires Enrolled(k)
    ensures RecordFromSession(k.cr, SessionsOf(k, id, issue.binding).1, issue.marker, k.responder, issue.at)
         == Result.Ok(Blank(k, id, issue))
  {
  }

  lemma WritingPaper(st: Store, id: Bytes, r: PairingRecord)
    requires r.pairId == id && LowerHex32(id) && id !in st.pending
    ensures WritePending(st, r) == if Fits(r) then Result.Ok(WithPending(st, id, r)) else Err
  {
  }

  lemma SigningYieldsPaper(k: Peers, id: Bytes, issue: P.Issue)
    requires Enrolled(k) && Proper(id, issue)
    ensures var blank, half := Blank(k, id, issue), Half(k, id, issue);
            && SignRecord(k.cr, k.responder, blank, ROLE_RESPONDER).Ok?
            && half == SetSignature(blank, ROLE_RESPONDER, SignRecord(k.cr, k.responder, blank, ROLE_RESPONDER).value)
            && SignRecord(k.cr, k.initiator, half, ROLE_INITIATOR).Ok?
            && Full(k, id, issue)
               == SetSignature(half, ROLE_INITIATOR, SignRecord(k.cr, k.initiator, half, ROLE_INITIATOR).value)
    ensures Half(k, id, issue).pairId == id && Full(k, id, issue).pairId == id
  {
    BlankIsProper(k, id, issue);
    SigningKeepsBody(k.cr, k.responder, Blank(k, id, issue), ROLE_RESPONDER);
    LowerHexIsUtf8(id);
  }

  lemma FilingPaper(k: Peers, now: u64, st: Store, id: Bytes, issue: P.Issue)
    requires Enrolled(k) && LowerHex32(id) && id !in st.pending
    ensures SignAndFile(k.At(now), st, SessionsOf(k, id, issue.binding).1, k.responder, Blank(k, id, issue))
         == if Proper(id, issue) && InBoth(k, now) && Fits(Half(k, id, issue))
            then Result.Ok((WithPending(st, id, Half(k, id, issue)), Half(k, id, issue))) else Err
  {
    BlankIsProper(k, id, issue);
    if Proper(id, issue) {
      SigningYieldsPaper(k, id, issue);
      PaperValidatesInSession(k, id, issue, Half(k, id, issue), now, id, issue.binding, ROLE_RESPONDER, false, true, false);
      WritingPaper(st, id, Half(k, id, issue));
    }
  }

  lemma Preparing(k: Peers, now: u64, st: Store, id: Bytes, binding: Bytes32, answer: Option<Text>)
    requires Enrolled(k) && LowerHex32(id) && id !in st.pending
    ensures var prepared := Prepare(k.At(now), st, SessionsOf(k, id, binding).1, k.responder, answer);
            if answer.None? then prepared.Err?
            else
              var issue := P.Issue(binding, answer.value, now);
              prepared == if Proper(id, issue) && InBoth(k, now) && Fits(Half(k, id, issue))
                          then Result.Ok((WithPending(st, id, Half(k, id, issue)), Half(k, id, issue))) else Err
  {
    if answer.Some? {
      var issue := P.Issue(binding, answer.value, now);
      SessionYieldsBlank(k, id, issue);
      FilingPaper(k, now, st, id, issue);
    }
  }

  /** The same two devices under the same root, with other certificates. */
  ghost predicate SameDevices(k: Peers, m: Peers) {
    m.cr == k.cr && m.root == k.root && m.initiator == k.initiator && m.responder == k.responder
  }

  /** Resuming a paper issued under these certificates in a session under those: the old grant, the new certificates. */
  lemma Resuming(k: Peers, m: Peers, now: u64, st: Store, id: Bytes, binding: Bytes32, older: Bytes, issue: P.Issue)
    requires Enrolled(k) && Enrolled(m) && SameDevices(k, m)
    requires LowerHex32(id) && id !in st.pending && Sealed(k, older, issue)
    ensures var reissue := P.Issue(binding, issue.marker, issue.at);
            var resumed := ResumePrepare(m.At(now), st, SessionsOf(m, id, binding).1, m.responder, Half(k, older, issue));
            resumed == if InBoth(m, now) && Fits(Half(m, id, reissue))
                       then Result.Ok((WithPending(st, id, Half(m, id, reissue)), Half(m, id, reissue))) else Err
  {
    var reissue := P.Issue(binding, issue.marker, issue.at);
    PaperValidates(k, older, issue, Half(k, older, issue), now);
    FullIsSigned(k, older, issue);
    SessionNamesPaper(m, id, reissue, Blank(m, id, reissue), id, binding, ROLE_RESPONDER);
    assert Half(k, older, issue).authorizingDeviceId == m.ResponderId();
    SessionYieldsBlank(m, id, reissue);
    FilingPaper(m, now, st, id, reissue);
  }

  lemma CoSigning(k: Peers, now: u64, st: Store, session: Bytes, binding: Bytes32, id: Bytes, issue: P.Issue)
    requires Enrolled(k) && Proper(id, issue) && id !in st.pending
    ensures CoSign(k.At(now), st, SessionsOf(k, session, binding).0, k.initiator, Half(k, id, issue))
         == if binding == issue.binding && InBoth(k, now) && Fits(Full(k, id, issue))
            then Result.Ok((WithPending(st, id, Full(k, id, issue)), Full(k, id, issue))) else Err
  {
    var half, full := Half(k, id, issue), Full(k, id, issue);
    FullIsSigned(k, id, issue);
    PaperValidatesInSession(k, id, issue, half, now, session, binding, ROLE_INITIATOR, false, true, false);
    PaperValidatesInSession(k, id, issue, full, now, session, binding, ROLE_INITIATOR, true, true, false);
    SigningYieldsPaper(k, id, issue);
    WritingPaper(st, id, full);
  }

  /** Where every pending file is of the record's pair, activation leaves none. */
  lemma SweepingEverything(st: Store, r: PairingRecord)
    requires LowerHex32(r.pairId) && Readable(r)
    requires forall p :: p in st.pending ==> SamePair(st.pending[p], r)
    requires r.pairId in st.active ==> st.active[r.pairId] == r
    ensures PersistActive(st, r)
         == if r.pairId in st.revoked then Err
            else Result.Ok(st.(active := st.active[r.pairId := r], pending := map[]))
  {
    assert WithoutPair(st.pending, r) == map[];
    if r.pairId in st.active {
      assert st.active[r.pairId := r] == st.active;
    }
  }

  lemma PendingIsOfPair(k: Peers, issued: Issued, ids: set<Bytes>, full: bool, d: Directory, id: Bytes, r: PairingRecord)
    requires Enrolled(k) && IssuesSealed(k, issued) && Files(k, issued, ids, full, d)
    requires PaperMatches(k, issued, id, true, r)
    ensures AllReadable(d)
    ensures forall p :: p in d ==> SamePair(d[p], r)
  {
    forall p | p in d
      ensures SamePair(d[p], r) && Readable(d[p])
    {
      FiledPaper(k, issued, p, full, d[p], 0);
      PapersArePaired(k, issued, id, r, p, full, d[p]);
    }
  }

  /** Activating a paper: refused once revoked, otherwise it is active and nothing of the pair is pending. */
  lemma Persisting(k: Peers, issued: Issued, side: P.Side, full: bool, st: Store, id: Bytes, r: PairingRecord)
    requires Enrolled(k) && IssuesSealed(k, issued) && StoreMatches(k, issued, side, full, st)
    requires PaperMatches(k, issued, id, true, r)
    ensures PersistActive(st, r)
         == if id in side.revoked then Err
            else Result.Ok(st.(active := st.active[id := r], pending := map[]))
    ensures r.pairId == id && AllReadable(st.pending)
    ensures forall p :: p in st.pending ==> SamePair(st.pending[p], r)
  {
    FiledPaper(k, issued, id, true, r, 0);
    PendingIsOfPair(k, issued, side.pending, full, st.pending, id, r);
    assert id in st.active ==> PaperMatches(k, issued, id, true, st.active[id]);
    SweepingEverything(st, r);
  }

  lemma PapersArePaired(k: Peers, issued: Issued, id: Bytes, r: PairingRecord, other: Bytes, full: bool, s: PairingRecord)
    requires Enrolled(k) && IssuesSealed(k, issued)
    requires PaperMatches(k, issued, id, true, r) && PaperMatches(k, issued, other, full, s)
    ensures SamePair(s, r)
  {
    assert Sealed(k, id, issued[id]) && Sealed(k, other, issued[other]);
    FullIsSigned(k, id, issued[id]);
    FullIsSigned(k, other, issued[other]);
  }

  /** A record of this session is activated if the windows hold now, any other if they held when it was authorized. */
  lemma Settling(k: Peers, now: u64, st: Store, session: Bytes, binding: Bytes32, id: Bytes, issue: P.Issue)
    requires Enrolled(k) && Proper(id, issue)
    ensures Settled(k, now, st, SessionsOf(k, session, binding).1, Full(k, id, issue))
         == if InBoth(k, if binding == issue.binding then now else issue.at) then PersistActive(st, Full(k, id, issue)) else Err
  {
    var full := Full(k, id, issue);
    FullIsSigned(k, id, issue);
    SessionNamesPaper(k, id, issue, full, session, binding, ROLE_RESPONDER);
    if binding == issue.binding {
      PaperValidatesInSession(k, id, issue, full, now, session, binding, ROLE_RESPONDER, true, true, false);
    } else {
      PaperValidatesInSession(k, id, issue, full, now, session, binding, ROLE_RESPONDER, true, false, true);
    }
  }

  lemma Finishing(k: Peers, now: u64, st: Store, session: Bytes, binding: Bytes32, id: Bytes, issue: P.Issue)
    requires Enrolled(k) && Proper(id, issue)
    ensures Reconcile(k.At(now), st, SessionsOf(k, session, binding).0, k.initiator, Full(k, id, issue))
         == if InBoth(k, issue.at) then PersistActive(st, Full(k, id, issue)) else Err
  {
    var full := Full(k, id, issue);
    FullIsSigned(k, id, issue);
    PaperValidatesInSession(k, id, issue, full, now, session, binding, ROLE_INITIATOR, true, false, true);
  }

  lemma Revoking(k: Peers, issued: Issued, side: P.Side, full: bool, st: Store, now: u64, id: Bytes)
    requires Enrolled(k) && IssuesSealed(k, issued) && StoreMatches(k, issued, side, full, st)
    ensures Revoke(k.At(now), st, id)
         == if id in side.active && id !in side.revoked
            then Result.Ok(st.(active := st.active - {id}, revoked := st.revoked[id := st.active[id]])) else Err
  {
    if id in st.active {
      FiledPaper(k, issued, id, true, st.active[id], now);
    }
  }
}
