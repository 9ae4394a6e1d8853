/** Each step of the two devices is the plan's step; and exactly when the devices take a step the plan takes. */
module ExchangeSteps {
  import opened Octets
  import opened Records
  import opened Sessions
  import opened Stores
  import opened Exchanges
  import opened ExchangeRecords
  import opened ExchangeRefinement
  import opened ExchangeOperations
  import Certificates
  import P = ExchangePlans

  /** If the devices take the step, so does the plan, and they still correspond. */
  predicate Follows(k: Peers, planned: Result<P.Plan>, actual: Result<World>) {
    actual.Ok? ==> planned.Ok? && Matches(k, planned.value, actual.value)
  }

  /** The devices take the plan's step exactly when this is allowed besides, and they still correspond. */
  predicate FollowsWhen(k: Peers, planned: Result<P.Plan>, actual: Result<World>, allowed: bool) {
    (actual.Ok? <==> planned.Ok? && allowed) && Follows(k, planned, actual)
  }

  // ---- Correspondence survives what it does not mention ----

  lemma FilesSurvive(k: Peers, issued: Issued, more: Issued, ids: set<Bytes>, full: bool, d: Directory)
    requires Files(k, issued, ids, full, d)
    requires forall p :: p in issued ==> p in more && more[p] == issued[p]
    ensures Files(k, more, ids, full, d)
  {
    forall p | p in d
      ensures PaperMatches(k, more, p, full, d[p])
    {
      assert PaperMatches(k, issued, p, full, d[p]);
    }
  }

  lemma InboxSurvives(k: Peers, issued: Issued, more: Issued, notes: seq<P.Note>, inbox: seq<Message>)
    requires InboxMatches(k, issued, notes, inbox)
    requires forall p :: p in issued ==> p in more && more[p] == issued[p]
    ensures InboxMatches(k, more, notes, inbox)
  {
    forall j | 0 <= j < |notes|
      ensures NoteMatches(k, more, notes[j], inbox[j])
    {
      assert NoteMatches(k, issued, notes[j], inbox[j]);
    }
  }

  lemma StoreSurvives(k: Peers, issued: Issued, more: Issued, side: P.Side, full: bool, st: Store)
    requires StoreMatches(k, issued, side, full, st)
    requires forall p :: p in issued ==> p in more && more[p] == issued[p]
    ensures StoreMatches(k, more, side, full, st)
  {
    FilesSurvive(k, issued, more, side.pending, full, st.pending);
    FilesSurvive(k, issued, more, side.active, true, st.active);
    FilesSurvive(k, issued, more, side.revoked, true, st.revoked);
  }

  lemma InitiatorSurvives(k: Peers, issued: Issued, more: Issued, plan: P.InitiatorRun, run: InitiatorRun)
    requires InitiatorMatches(k, issued, plan, run)
    requires forall p :: p in issued ==> p in more && more[p] == issued[p]
    ensures InitiatorMatches(k, more, plan, run)
  {
    if plan.Asking? || plan.Waiting? {
      InboxSurvives(k, issued, more, plan.inbox, run.inbox);
    }
  }

  lemma InboxGrows(k: Peers, issued: Issued, notes: seq<P.Note>, inbox: seq<Message>,
                   more: seq<P.Note>, moreInbox: seq<Message>)
    requires InboxMatches(k, issued, notes, inbox) && InboxMatches(k, issued, more, moreInbox)
    ensures InboxMatches(k, issued, notes + more, inbox + moreInbox)
  {
  }

  /** Sending to the initiator keeps the correspondence, whether or not the message arrives. */
  lemma DeliveredToInitiator(k: Peers, issued: Issued, plan: P.InitiatorRun, run: InitiatorRun, id: Bytes,
                             binding: Bytes32, notes: seq<P.Note>, messages: seq<Message>)
    requires InitiatorMatches(k, issued, plan, run) && InboxMatches(k, issued, notes, messages)
    ensures InitiatorMatches(k, issued, P.ToInitiator(plan, binding, notes),
                             ToInitiator(run, SessionsOf(k, id, binding).1, messages))
  {
    if plan.Asking? || plan.Waiting? {
      InboxGrows(k, issued, plan.inbox, run.inbox, notes, messages);
    }
  }

  lemma DeliveredToResponder(k: Peers, issued: Issued, plan: P.ResponderRun, run: ResponderRun, id: Bytes,
                             binding: Bytes32, note: P.Note, message: Message)
    requires ResponderMatches(k, issued, plan, run) && NoteMatches(k, issued, note, message)
    ensures ResponderMatches(k, issued, P.ToResponder(plan, binding, note),
                             ToResponder(run, SessionsOf(k, id, binding).0, message))
  {
    if plan.Expecting? {
      InboxGrows(k, issued, plan.inbox, run.inbox, [note], [message]);
    }
  }

  // ---- Steps ----

  lemma StartResult(k: Peers, a: P.Plan, c: World, now: u64, active: Option<Bytes>, pending: Option<Bytes>,
                    recovery: Bytes, freshId: Bytes, staticKey: Bytes32)
    requires Enrolled(k) && Matches(k, a, c) && LowerHex32(freshId)
    requires P.MayFind(a.i.active, active) && P.MayFind(a.i.pending, pending)
    requires active.None? && pending.Some? ==> recovery in a.i.pending
    ensures var reconnect := active.Some? || pending.Some?;
            var id := if active.Some? then active.value else if pending.Some? then recovery else freshId;
            && LowerHex32(id)
            && StartRun(k, c, now, active, pending, recovery, freshId, staticKey)
               == if c.irun.Idle? && (reconnect || Certificates.InWindow(k.initiatorCertificate, now))
                  then Result.Ok(c.(irun := Opening(now, reconnect, InitiatorEndpoint(k, now, reconnect, id, staticKey)),
                                    usedIds := if reconnect then c.usedIds else c.usedIds + {freshId})) else Err
  {
    InitiatorOpens(k, a.issued, a.i, c.i, now, active, pending, recovery, freshId, staticKey);
  }

  lemma StartedMatches(k: Peers, a: P.Plan, c: World, now: u64, reconnect: bool, id: Bytes, staticKey: Bytes32)
    requires Matches(k, a, c) && LowerHex32(id)
    ensures Matches(k, a.(irun := P.Started(now, reconnect, id, staticKey),
                          usedIds := if reconnect then a.usedIds else a.usedIds + {id}),
                    c.(irun := Opening(now, reconnect, InitiatorEndpoint(k, now, reconnect, id, staticKey)),
                       usedIds := if reconnect then c.usedIds else c.usedIds + {id}))
  {
  }

  lemma StartFollows(k: Peers, a: P.Plan, c: World, now: u64, active: Option<Bytes>, pending: Option<Bytes>,
                     recovery: Bytes, freshId: Bytes, staticKey: Bytes32)
    requires Enrolled(k) && Matches(k, a, c) && LowerHex32(freshId)
    requires P.MayFind(a.i.active, active) && P.MayFind(a.i.pending, pending)
    requires active.None? && pending.Some? ==> recovery in a.i.pending
    ensures var planned := P.StartStep(a, now, active, pending, recovery, freshId, staticKey);
            var actual := StartRun(k, c, now, active, pending, recovery, freshId, staticKey);
            FollowsWhen(k, planned, actual,
                        active.Some? || pending.Some? || Certificates.InWindow(k.initiatorCertificate, now))
  {
    StartResult(k, a, c, now, active, pending, recovery, freshId, staticKey);
    var id := if active.Some? then active.value else if pending.Some? then recovery else freshId;
    StartedMatches(k, a, c, now, active.Some? || pending.Some?, id, staticKey);
  }

  /** Whether the two sides can meet, given what each opened. */
  predicate CanMeetNow(k: Peers, run: P.InitiatorRun, now: u64, pinned: bool, pinnedId: Bytes,
                       staticKey: Bytes32, hash: Bytes32, binding: Bytes32)
    requires run.Started?
  {
    && run.reconnect == pinned && (pinned ==> run.id == pinnedId)
    && (!pinned ==> InBoth(k, now) && Certificates.InWindow(k.responderCertificate, run.now))
    && binding == BindingOf(k, run.reconnect, run.id, run.staticKey, staticKey, hash)
  }

  /** What a meeting needs once both sides opened in the same mode: nothing of the certificates in a reconnect. */
  predicate MeetAllowed(k: Peers, run: P.InitiatorRun, now: u64, staticKey: Bytes32, hash: Bytes32, binding: Bytes32)
    requires run.Started?
  {
    && (!run.reconnect ==> InBoth(k, now) && Certificates.InWindow(k.responderCertificate, run.now))
    && binding == BindingOf(k, run.reconnect, run.id, run.staticKey, staticKey, hash)
  }

  /** The run's outcome, once it is known which endpoint the responder opened. */
  lemma MeetWith(k: Peers, run: P.InitiatorRun, c: World, now: u64, active: Option<Bytes>, pending: Option<Bytes>,
                 recovery: Bytes, pinned: bool, id: Bytes, staticKey: Bytes32, hash: Bytes32, binding: Bytes32)
    requires Enrolled(k) && run.Started? && LowerHex32(run.id) && LowerHex32(id)
    requires c.irun == Opening(run.now, run.reconnect, InitiatorEndpoint(k, run.now, run.reconnect, run.id, run.staticKey))
    requires OpenResponder(k, now, c.r, active, pending, recovery, run.reconnect)
          == Result.Ok(ResponderEndpoint(k, now, pinned, id))
    ensures MeetRun(k, c, now, active, pending, recovery, staticKey, hash, binding)
            == if && c.rrun.Free? && run.reconnect == pinned && (pinned ==> run.id == id)
                  && (!pinned ==> Certificates.InWindow(k.initiatorCertificate, now)
                                  && Certificates.InWindow(k.responderCertificate, run.now))
                  && binding == BindingOf(k, run.reconnect, run.id, run.staticKey, staticKey, hash)
               then Result.Ok(MetWorld(k, c, run.now, now, run.reconnect, run.id, active, pending, binding)) else Err
  {
    EndpointsMeet(k, run.now, run.reconnect, run.id, run.staticKey, now, pinned, id, staticKey, hash);
  }

  /** Meeting yields mirrored sessions under the binding of the shared transcript. */
  lemma MeetResult(k: Peers, issued: Issued, side: P.Side, run: P.InitiatorRun, c: World, now: u64,
                   active: Option<Bytes>, pending: Option<Bytes>,
                   recovery: Bytes, staticKey: Bytes32, hash: Bytes32, binding: Bytes32)
    requires Enrolled(k) && IssuesSealed(k, issued) && StoreMatches(k, issued, side, false, c.r)
    requires run.Started? && LowerHex32(run.id)
    requires c.irun == Opening(run.now, run.reconnect, InitiatorEndpoint(k, run.now, run.reconnect, run.id, run.staticKey))
    requires P.MayFind(side.active, active) && P.MayFind(side.pending, pending)
    requires active.None? && pending.Some? && run.reconnect ==> recovery in side.pending
    ensures var pinned := active.Some? || (pending.Some? && run.reconnect);
            var id := if active.Some? then active.value else recovery;
            MeetRun(k, c, now, active, pending, recovery, staticKey, hash, binding)
            == if c.rrun.Free? && CanMeetNow(k, run, now, pinned, id, staticKey, hash, binding)
               then Result.Ok(MetWorld(k, c, run.now, now, run.reconnect, run.id, active, pending, binding)) else Err
  {
    ResponderOpens(k, issued, side, c.r, now, active, pending, recovery, run.reconnect, run.id);
    var pinned := active.Some? || (pending.Some? && run.reconnect);
    var id := if active.Some? then active.value else if pinned then recovery else run.id;
    if pinned || Certificates.InWindow(k.responderCertificate, now) {
      MeetWith(k, run, c, now, active, pending, recovery, pinned, id, staticKey, hash, binding);
    }
  }

  function MetWorld(k: Peers, c: World, nowI: u64, nowR: u64, reconnect: bool, id: Bytes,
                    active: Option<Bytes>, pending: Option<Bytes>, binding: Bytes32): World
  {
    c.(irun := Requesting(nowI, reconnect, SessionsOf(k, id, binding).0, []),
       rrun := Answering(nowR, reconnect, SessionsOf(k, id, binding).1, active, Found(c.r.pending, pending)),
       usedBindings := c.usedBindings + {binding})
  }

  lemma MetMatches(k: Peers, a: P.Plan, c: World, nowI: u64, nowR: u64, reconnect: bool, id: Bytes,
                   active: Option<Bytes>, pending: Option<Bytes>, binding: Bytes32)
    requires Matches(k, a, c) && LowerHex32(id) && P.MayFind(a.r.pending, pending)
    ensures Matches(k, a.(irun := P.Asking(nowI, reconnect, id, binding, []),
                          rrun := P.Serving(nowR, reconnect, id, binding, active, pending),
                          usedBindings := a.usedBindings + {binding}),
                    MetWorld(k, c, nowI, nowR, reconnect, id, active, pending, binding))
  {
  }

  lemma MeetFollows(k: Peers, a: P.Plan, c: World, now: u64, active: Option<Bytes>, pending: Option<Bytes>,
                    recovery: Bytes, staticKey: Bytes32, hash: Bytes32, binding: Bytes32)
    requires Enrolled(k) && Matches(k, a, c) && a.irun.Started?
    requires P.MayFind(a.r.active, active) && P.MayFind(a.r.pending, pending)
    requires active.None? && pending.Some? && a.irun.reconnect ==> recovery in a.r.pending
    ensures var planned := P.MeetStep(a, now, active, pending, recovery, binding);
            var actual := MeetRun(k, c, now, active, pending, recovery, staticKey, hash, binding);
            FollowsWhen(k, planned, actual, MeetAllowed(k, a.irun, now, staticKey, hash, binding))
  {
    MeetResult(k, a.issued, a.r, a.irun, c, now, active, pending, recovery, staticKey, hash, binding);
    MetMatches(k, a, c, a.irun.now, now, a.irun.reconnect, a.irun.id, active, pending, binding);
  }

  // ---- Serving ----

  lemma ServeActiveResult(k: Peers, a: P.Plan, c: World, answer: Option<Text>)
    requires Enrolled(k) && IssuesSealed(k, a.issued) && StoreMatches(k, a.issued, a.r, false, c.r)
    requires c.rrun.Answering? && c.rrun.active.Some?
    ensures ServeRun(k, c, answer)
         == if c.rrun.active.value in a.r.active
            then Result.Ok(c.(rrun := Free, irun := ToInitiator(c.irun, c.rrun.session,
                                                                 [Complete(c.r.active[c.rrun.active.value]), Finalized])))
            else Err
  {
    var id := c.rrun.active.value;
    if id in a.r.active {
      assert PaperMatches(k, a.issued, id, true, c.r.active[id]);
      ActiveContext(k, a.issued, id, c.r, c.rrun.now, ROLE_RESPONDER);
    }
  }

  lemma ActiveNotesMatch(k: Peers, issued: Issued, id: Bytes, r: PairingRecord)
    requires PaperMatches(k, issued, id, true, r)
    ensures InboxMatches(k, issued, [P.Whole(id), P.Done], [Complete(r), Finalized])
  {
    var notes, messages := [P.Whole(id), P.Done], [Complete(r), Finalized];
    forall j | 0 <= j < |notes|
      ensures NoteMatches(k, issued, notes[j], messages[j])
    {
      if j == 0 {
        assert notes[j] == P.Whole(id) && messages[j] == Complete(r);
      } else {
        assert notes[j] == P.Done && messages[j] == Finalized;
      }
    }
  }

  lemma SentActiveMatches(k: Peers, a: P.Plan, c: World, id: Bytes)
    requires Matches(k, a, c) && a.rrun.Serving? && id in a.r.active
    ensures Matches(k, a.(rrun := P.Listening, irun := P.ToInitiator(a.irun, a.rrun.binding, [P.Whole(id), P.Done])),
                    c.(rrun := Free, irun := ToInitiator(c.irun, c.rrun.session, [Complete(c.r.active[id]), Finalized])))
  {
    var notes, messages := [P.Whole(id), P.Done], [Complete(c.r.active[id]), Finalized];
    ActiveNotesMatch(k, a.issued, id, c.r.active[id]);
    DeliveredToInitiator(k, a.issued, a.irun, c.irun, a.rrun.id, a.rrun.binding, notes, messages);
  }

  lemma ServeActiveFollows(k: Peers, a: P.Plan, c: World, answer: Option<Text>)
    requires Enrolled(k) && Matches(k, a, c) && a.rrun.Serving? && a.rrun.active.Some?
    ensures var planned, actual := P.ServeStep(a, answer), ServeRun(k, c, answer);
            FollowsWhen(k, planned, actual, true)
  {
    ServeActiveResult(k, a, c, answer);
    if a.rrun.active.value in a.r.active {
      SentActiveMatches(k, a, c, a.rrun.active.value);
    }
  }

  /** Nothing stands in the way of issuing: valid certificates, a printable marker, a record that can be filed. */
  predicate Issuable(k: Peers, now: u64, id: Bytes, issue: P.Issue) {
    InBoth(k, now) && Proper(id, issue) && Fits(Half(k, id, issue))
  }

  /** A record is only newly issued if there is none to send or to offer again. */
  predicate ServeAllowed(k: Peers, a: P.Plan, answer: Option<Text>)
    requires a.rrun.Serving?
  {
    var run := a.rrun;
    if run.active.Some? || (run.pending.Some? && run.reconnect) then true
    else if run.pending.None? then answer.Some? && Issuable(k, run.now, run.id, P.Issue(run.binding, answer.value, run.now))
    else
      run.pending.value in a.issued ==>
        var older := a.issued[run.pending.value];
        Issuable(k, run.now, run.id, P.Issue(run.binding, older.marker, older.at))
  }

  lemma OfferedMatches(k: Peers, a: P.Plan, c: World, id: Bytes, offer: PairingRecord)
    requires Matches(k, a, c) && a.rrun.Serving? && PaperMatches(k, a.issued, id, false, offer)
    ensures Matches(k, P.Offers(a, id),
                    c.(rrun := Awaiting(c.rrun.now, c.rrun.session, []),
                       irun := ToInitiator(c.irun, c.rrun.session, [Prepared(offer)])))
  {
    DeliveredToInitiator(k, a.issued, a.irun, c.irun, a.rrun.id, a.rrun.binding, [P.Offer(id)], [Prepared(offer)]);
  }

  /** One more issue, and its paper filed as pending at the responder. */
  lemma IssuedStore(k: Peers, issued: Issued, side: P.Side, st: Store, id: Bytes, issue: P.Issue)
    requires StoreMatches(k, issued, side, false, st) && id !in issued && Fits(Half(k, id, issue))
    ensures StoreMatches(k, issued[id := issue], side.(pending := side.pending + {id}), false,
                         WithPending(st, id, Half(k, id, issue)))
  {
    StoreSurvives(k, issued, issued[id := issue], side, false, st);
    FilesGrow(k, issued[id := issue], side.pending, false, st.pending, id, Half(k, id, issue));
  }

  /** One more issue changes nothing about the two runs and the initiator's files. */
  lemma OthersSurvive(k: Peers, a: P.Plan, c: World, more: Issued)
    requires Matches(k, a, c) && forall p :: p in a.issued ==> p in more && more[p] == a.issued[p]
    ensures StoreMatches(k, more, a.i, true, c.i)
    ensures InitiatorMatches(k, more, a.irun, c.irun) && ResponderMatches(k, more, a.rrun, c.rrun)
  {
    StoreSurvives(k, a.issued, more, a.i, true, c.i);
    InitiatorSurvives(k, a.issued, more, a.irun, c.irun);
    ResponderSurvives(k, a.issued, more, a.rrun, c.rrun);
  }

  lemma IssuedMatches(k: Peers, a: P.Plan, c: World, issue: P.Issue, grants: seq<P.Grant>)
    requires Matches(k, a, c) && a.rrun.Serving? && a.rrun.id !in a.issued
    requires Sealed(k, a.rrun.id, issue) && Fits(Half(k, a.rrun.id, issue))
    ensures Matches(k, P.Issues(a, issue).(grants := grants),
                    c.(r := WithPending(c.r, a.rrun.id, Half(k, a.rrun.id, issue)), grants := grants))
  {
    OthersSurvive(k, a, c, a.issued[a.rrun.id := issue]);
    IssuedStore(k, a.issued, a.r, c.r, a.rrun.id, issue);
  }

  lemma ResponderSurvives(k: Peers, issued: Issued, more: Issued, plan: P.ResponderRun, run: ResponderRun)
    requires ResponderMatches(k, issued, plan, run)
    requires forall p :: p in issued ==> p in more && more[p] == issued[p]
    ensures ResponderMatches(k, more, plan, run)
  {
    if plan.Expecting? {
      InboxSurvives(k, issued, more, plan.inbox, run.inbox);
    }
  }

  lemma ServePendingFollows(k: Peers, a: P.Plan, c: World, answer: Option<Text>)
    requires Enrolled(k) && Matches(k, a, c) && a.rrun.Serving? && a.rrun.active.None?
    requires a.rrun.pending.Some? && a.rrun.reconnect
    ensures var planned, actual := P.ServeStep(a, answer), ServeRun(k, c, answer);
            FollowsWhen(k, planned, actual, true)
  {
    OfferedMatches(k, a, c, a.rrun.pending.value, c.rrun.pending.value);
  }

  lemma ServeResumedFollows(k: Peers, a: P.Plan, c: World, answer: Option<Text>)
    requires Enrolled(k) && Matches(k, a, c) && a.rrun.Serving? && a.rrun.active.None?
    requires a.rrun.pending.Some? && !a.rrun.reconnect && a.rrun.id !in a.issued
    ensures var planned, actual := P.ServeStep(a, answer), ServeRun(k, c, answer);
            var older := a.issued[a.rrun.pending.value];
            var issue := P.Issue(a.rrun.binding, older.marker, older.at);
            FollowsWhen(k, planned, actual, Issuable(k, a.rrun.now, a.rrun.id, issue))
  {
    var run, older := a.rrun, a.rrun.pending.value;
    var issue := P.Issue(run.binding, a.issued[older].marker, a.issued[older].at);
    assert Sealed(k, older, a.issued[older]);
    Resuming(k, k, run.now, c.r, run.id, run.binding, older, a.issued[older]);
    if InBoth(k, run.now) && Fits(Half(k, run.id, issue)) {
      IssuedMatches(k, a, c, issue, a.grants);
      OfferedMatches(k, P.Issues(a, issue), c.(r := WithPending(c.r, run.id, Half(k, run.id, issue))),
                     run.id, Half(k, run.id, issue));
    }
  }

  lemma ServeGrantedFollows(k: Peers, a: P.Plan, c: World, answer: Option<Text>)
    requires Enrolled(k) && Matches(k, a, c) && a.rrun.Serving? && a.rrun.active.None?
    requires a.rrun.pending.None? && a.rrun.id !in a.issued
    ensures var planned, actual := P.ServeStep(a, answer), ServeRun(k, c, answer);
            FollowsWhen(k, planned, actual,
                        answer.Some? && Issuable(k, a.rrun.now, a.rrun.id, P.Issue(a.rrun.binding, answer.value, a.rrun.now)))
  {
    var run := a.rrun;
    Preparing(k, run.now, c.r, run.id, run.binding, answer);
    if answer.Some? {
      var issue := P.Issue(run.binding, answer.value, run.now);
      var half := Half(k, run.id, issue);
      if Proper(run.id, issue) && InBoth(k, run.now) && Fits(half) {
        var grants := a.grants + [P.Grant(answer.value, run.now)];
        assert half.userPresence == answer.value && half.authorizedAt == run.now;
        IssuedMatches(k, a, c, issue, grants);
        OfferedMatches(k, P.Issues(a, issue).(grants := grants),
                       c.(r := WithPending(c.r, run.id, half), grants := grants), run.id, half);
      }
    }
  }

  // ---- Receiving ----

  /** The initiator answers an offer without a record of its own. */
  predicate NeedsCoSignature(a: P.Plan, local: Option<Bytes>) {
    && a.irun.Asking? && a.irun.inbox != [] && a.irun.inbox[0].Offer? && a.irun.inbox[0].id in a.issued
    && local.None?
  }

  predicate ReceiveAllowed(k: Peers, a: P.Plan, local: Option<Bytes>) {
    NeedsCoSignature(a, local) ==>
      InBoth(k, a.irun.now) && Fits(Full(k, a.irun.inbox[0].id, a.issued[a.irun.inbox[0].id]))
  }

  lemma ReceivedWholeMatches(k: Peers, a: P.Plan, c: World)
    requires Matches(k, a, c) && a.irun.Asking? && a.irun.inbox != [] && a.irun.inbox[0].Whole?
    ensures c.irun.inbox[0].Complete?
    ensures var run := a.irun;
            Matches(k, a.(irun := P.Waiting(run.now, run.id, run.binding, run.inbox[0].id, run.inbox[1..])),
                    c.(irun := Confirming(c.irun.now, c.irun.session, c.irun.inbox[0].record, c.irun.inbox[1..])))
  {
    InboxShrinks(k, a.issued, a.irun.inbox, c.irun.inbox);
  }

  lemma ReceiveWholeResult(k: Peers, issued: Issued, c: World, local: Option<Bytes>, id: Bytes, r: PairingRecord)
    requires Enrolled(k) && IssuesSealed(k, issued) && PaperMatches(k, issued, id, true, r)
    requires c.irun.Requesting? && c.irun.inbox != [] && c.irun.inbox[0] == Complete(r)
    ensures ReceiveRun(k, c, local)
         == if c.irun.reconnect
            then Result.Ok(c.(irun := Confirming(c.irun.now, c.irun.session, r, c.irun.inbox[1..]))) else Err
  {
    FiledPaper(k, issued, id, true, r, 0);
  }

  lemma ReceiveWholeFollows(k: Peers, a: P.Plan, c: World, local: Option<Bytes>)
    requires Enrolled(k) && Matches(k, a, c) && a.irun.Asking? && a.irun.inbox != [] && a.irun.inbox[0].Whole?
    ensures var planned, actual := P.ReceiveStep(a, local), ReceiveRun(k, c, local);
            FollowsWhen(k, planned, actual, ReceiveAllowed(k, a, local))
  {
    InboxShrinks(k, a.issued, a.irun.inbox, c.irun.inbox);
    ReceiveWholeResult(k, a.issued, c, local, a.irun.inbox[0].id, c.irun.inbox[0].record);
    ReceivedWholeMatches(k, a, c);
  }

  lemma InboxShrinks(k: Peers, issued: Issued, notes: seq<P.Note>, inbox: seq<Message>)
    requires InboxMatches(k, issued, notes, inbox) && notes != []
    ensures InboxMatches(k, issued, notes[1..], inbox[1..])
    ensures NoteMatches(k, issued, notes[0], inbox[0])
  {
  }

  /** With a record of its own, the initiator answers with that, if it is for the same PairID. */
  lemma LocalAnswer(k: Peers, issued: Issued, st: Store, now: u64, s: Session, local: Bytes, id: Bytes, offer: PairingRecord)
    requires Enrolled(k) && IssuesSealed(k, issued) && PaperMatches(k, issued, id, false, offer)
    requires local in st.pending && PaperMatches(k, issued, local, true, st.pending[local])
    ensures AnswerOf(k, now, st, s, offer, Some(st.pending[local]))
         == if local == id then Result.Ok((st, st.pending[id])) else Err
  {
    PaperNames(k, issued, id, false, offer);
    PaperNames(k, issued, local, true, st.pending[local]);
  }

  /** With none, it co-signs the offer, if the offer was made in this session. */
  lemma CoSignedAnswer(k: Peers, issued: Issued, st: Store, now: u64, session: Bytes, binding: Bytes32, id: Bytes)
    requires Enrolled(k) && IssuesSealed(k, issued) && id in issued && id !in st.pending
    ensures var full := Full(k, id, issued[id]);
            AnswerOf(k, now, st, SessionsOf(k, session, binding).0, Half(k, id, issued[id]), None)
            == if issued[id].binding == binding && InBoth(k, now) && Fits(full)
               then Result.Ok((WithPending(st, id, full), full)) else Err
  {
    assert Sealed(k, id, issued[id]);
    OfferIsNotOurs(k, id, issued[id]);
    CoSigning(k, now, st, session, binding, id, issued[id]);
  }

  /** The responder's signature on an offer is not the initiator's own. */
  lemma OfferIsNotOurs(k: Peers, id: Bytes, issue: P.Issue)
    requires Enrolled(k) && Proper(id, issue)
    ensures var offer := Half(k, id, issue);
            offer.initiatorSignature.None? && k.InitiatorId() != offer.responderDeviceId
  {
    FullIsSigned(k, id, issue);
  }

  lemma AnsweredMatches(k: Peers, a: P.Plan, c: World, id: Bytes, side: P.Side, st: Store, complete: PairingRecord,
                        notes: seq<P.Note>, inbox: seq<Message>)
    requires Matches(k, a, c) && a.irun.Asking?
    requires StoreMatches(k, a.issued, side, true, st) && PaperMatches(k, a.issued, id, true, complete)
    requires InboxMatches(k, a.issued, notes, inbox)
    ensures var run := a.irun;
            Matches(k, a.(i := side, irun := P.Waiting(run.now, run.id, run.binding, id, notes),
                          rrun := P.ToResponder(a.rrun, run.binding, P.Whole(id))),
                    c.(i := st, irun := Confirming(c.irun.now, c.irun.session, complete, inbox),
                       rrun := ToResponder(c.rrun, c.irun.session, Complete(complete))))
  {
    DeliveredToResponder(k, a.issued, a.rrun, c.rrun, a.irun.id, a.irun.binding, P.Whole(id), Complete(complete));
  }

  /** The initiator's state once it has answered. */
  function AnsweredWorld(c: World, st: Store, complete: PairingRecord): World
    requires c.irun.Requesting? && c.irun.inbox != []
  {
    c.(i := st, irun := Confirming(c.irun.now, c.irun.session, complete, c.irun.inbox[1..]),
       rrun := ToResponder(c.rrun, c.irun.session, Complete(complete)))
  }

  lemma ReceiveLocalResult(k: Peers, issued: Issued, c: World, local: Bytes, id: Bytes, offer: PairingRecord)
    requires Enrolled(k) && IssuesSealed(k, issued) && PaperMatches(k, issued, id, false, offer)
    requires c.irun.Requesting? && c.irun.inbox != [] && c.irun.inbox[0] == Prepared(offer)
    requires local in c.i.pending && PaperMatches(k, issued, local, true, c.i.pending[local])
    ensures ReceiveRun(k, c, Some(local))
         == if local == id then Result.Ok(AnsweredWorld(c, c.i, c.i.pending[id])) else Err
  {
    PaperNames(k, issued, id, false, offer);
    LocalAnswer(k, issued, c.i, c.irun.now, c.irun.session, local, id, offer);
  }

  lemma ReceiveCoSignedResult(k: Peers, issued: Issued, c: World, session: Bytes, binding: Bytes32, id: Bytes)
    requires Enrolled(k) && IssuesSealed(k, issued)
    requires id in issued && PaperMatches(k, issued, id, false, Half(k, id, issued[id]))
    requires c.irun.Requesting? && c.irun.inbox != [] && c.irun.inbox[0] == Prepared(Half(k, id, issued[id]))
    requires c.irun.session == SessionsOf(k, session, binding).0 && id !in c.i.pending
    ensures var full := Full(k, id, issued[id]);
            ReceiveRun(k, c, None)
            == if issued[id].binding == binding && InBoth(k, c.irun.now) && Fits(full)
               then Result.Ok(AnsweredWorld(c, WithPending(c.i, id, full), full)) else Err
  {
    FiledPaper(k, issued, id, false, Half(k, id, issued[id]), 0);
    CoSignedAnswer(k, issued, c.i, c.irun.now, session, binding, id);
  }

  lemma ReceiveLocalFollows(k: Peers, a: P.Plan, c: World, local: Option<Bytes>)
    requires Enrolled(k) && Matches(k, a, c) && a.irun.Asking? && a.irun.inbox != [] && a.irun.inbox[0].Offer?
    requires local.Some? && local.value in a.i.pending
    ensures var planned, actual := P.ReceiveStep(a, local), ReceiveRun(k, c, local);
            FollowsWhen(k, planned, actual, ReceiveAllowed(k, a, local))
  {
    var run, id := a.irun, a.irun.inbox[0].id;
    var planned := P.ReceiveStep(a, local);
    assert planned == if local.value != id then Err
                      else Result.Ok(a.(irun := P.Waiting(run.now, run.id, run.binding, id, run.inbox[1..]),
                                        rrun := P.ToResponder(a.rrun, run.binding, P.Whole(id))));
    InboxShrinks(k, a.issued, a.irun.inbox, c.irun.inbox);
    ReceiveLocalResult(k, a.issued, c, local.value, id, c.irun.inbox[0].record);
    if local.value == id {
      LocalMatches(k, a, c, id);
    }
  }

  lemma LocalMatches(k: Peers, a: P.Plan, c: World, id: Bytes)
    requires Matches(k, a, c) && a.irun.Asking? && a.irun.inbox != [] && id in a.i.pending
    ensures var run := a.irun;
            Matches(k, a.(irun := P.Waiting(run.now, run.id, run.binding, id, run.inbox[1..]),
                          rrun := P.ToResponder(a.rrun, run.binding, P.Whole(id))),
                    AnsweredWorld(c, c.i, c.i.pending[id]))
  {
    InboxShrinks(k, a.issued, a.irun.inbox, c.irun.inbox);
    AnsweredMatches(k, a, c, id, a.i, c.i, c.i.pending[id], a.irun.inbox[1..], c.irun.inbox[1..]);
  }

  lemma ReceiveCoSignedFollows(k: Peers, a: P.Plan, c: World, local: Option<Bytes>)
    requires Enrolled(k) && Matches(k, a, c) && a.irun.Asking? && a.irun.inbox != [] && a.irun.inbox[0].Offer?
    requires local.None? && a.i.pending == {}
    ensures var planned, actual := P.ReceiveStep(a, local), ReceiveRun(k, c, local);
            FollowsWhen(k, planned, actual, ReceiveAllowed(k, a, local))
  {
    var run, id := a.irun, a.irun.inbox[0].id;
    InboxShrinks(k, a.issued, run.inbox, c.irun.inbox);
    var full := Full(k, id, a.issued[id]);
    ReceiveCoSignedResult(k, a.issued, c, run.id, run.binding, id);
    if a.issued[id].binding == run.binding && InBoth(k, run.now) && Fits(full) {
      CoSignedMatches(k, a, c, id, full);
    }
  }

  lemma CoSignedMatches(k: Peers, a: P.Plan, c: World, id: Bytes, full: PairingRecord)
    requires Matches(k, a, c) && a.irun.Asking? && a.irun.inbox != [] && PaperMatches(k, a.issued, id, true, full)
    ensures var run := a.irun;
            Matches(k, a.(i := a.i.(pending := a.i.pending + {id}),
                          irun := P.Waiting(run.now, run.id, run.binding, id, run.inbox[1..]),
                          rrun := P.ToResponder(a.rrun, run.binding, P.Whole(id))),
                    AnsweredWorld(c, WithPending(c.i, id, full), full))
  {
    var side, st := a.i.(pending := a.i.pending + {id}), WithPending(c.i, id, full);
    InboxShrinks(k, a.issued, a.irun.inbox, c.irun.inbox);
    FilesGrow(k, a.issued, a.i.pending, true, c.i.pending, id, full);
    AnsweredMatches(k, a, c, id, side, st, full, a.irun.inbox[1..], c.irun.inbox[1..]);
  }

  lemma FilesGrow(k: Peers, issued: Issued, ids: set<Bytes>, full: bool, d: Directory, id: Bytes, r: PairingRecord)
    requires Files(k, issued, ids, full, d) && PaperMatches(k, issued, id, full, r)
    ensures Files(k, issued, ids + {id}, full, d[id := r])
  {
  }

  // ---- Activating ----

  /** The record that came back was issued in this very session. */
  predicate SettlesOwn(a: P.Plan) {
    && a.rrun.Expecting? && a.rrun.inbox != [] && a.rrun.inbox[0].Whole? && a.rrun.inbox[0].id in a.issued
    && a.rrun.binding == a.issued[a.rrun.inbox[0].id].binding
  }

  predicate SettleAllowed(k: Peers, a: P.Plan) {
    SettlesOwn(a) ==> InBoth(k, a.rrun.now)
  }

  lemma SettleResult(k: Peers, issued: Issued, side: P.Side, c: World, session: Bytes, binding: Bytes32, id: Bytes,
                     r: PairingRecord)
    requires Enrolled(k) && IssuesSealed(k, issued) && StoreMatches(k, issued, side, false, c.r)
    requires c.rrun.Awaiting? && c.rrun.inbox != [] && c.rrun.inbox[0] == Complete(r)
    requires c.rrun.session == SessionsOf(k, session, binding).1 && PaperMatches(k, issued, id, true, r)
    ensures SettleRun(k, c)
         == if id !in side.revoked && (binding == issued[id].binding ==> InBoth(k, c.rrun.now))
            then Result.Ok(c.(r := c.r.(active := c.r.active[id := r], pending := map[]), rrun := Free,
                              irun := ToInitiator(c.irun, c.rrun.session, [Finalized]))) else Err
  {
    FiledPaper(k, issued, id, true, r, 0);
    assert Sealed(k, id, issued[id]);
    Settling(k, c.rrun.now, c.r, session, binding, id, issued[id]);
    Persisting(k, issued, side, false, c.r, id, r);
  }

  lemma ActivatedStore(k: Peers, issued: Issued, side: P.Side, full: bool, st: Store, id: Bytes, r: PairingRecord)
    requires StoreMatches(k, issued, side, full, st) && PaperMatches(k, issued, id, true, r)
    ensures StoreMatches(k, issued, side.(active := side.active + {id}, pending := {}), full,
                         st.(active := st.active[id := r], pending := map[]))
  {
    FilesGrow(k, issued, side.active, true, st.active, id, r);
  }

  lemma SettledMatches(k: Peers, a: P.Plan, c: World, id: Bytes, side: P.Side, st: Store)
    requires Matches(k, a, c) && a.rrun.Expecting? && StoreMatches(k, a.issued, side, false, st)
    ensures Matches(k, a.(r := side, rrun := P.Listening, irun := P.ToInitiator(a.irun, a.rrun.binding, [P.Done])),
                    c.(r := st, rrun := Free, irun := ToInitiator(c.irun, c.rrun.session, [Finalized])))
  {
    assert InboxMatches(k, a.issued, [P.Done], [Finalized]);
    DeliveredToInitiator(k, a.issued, a.irun, c.irun, a.rrun.id, a.rrun.binding, [P.Done], [Finalized]);
  }

  lemma SettleFollows(k: Peers, a: P.Plan, c: World)
    requires Enrolled(k) && Matches(k, a, c) && a.rrun.Expecting? && a.rrun.inbox != [] && a.rrun.inbox[0].Whole?
    ensures var planned, actual := P.SettleStep(a), SettleRun(k, c);
            FollowsWhen(k, planned, actual, SettleAllowed(k, a))
  {
    var id := a.rrun.inbox[0].id;
    InboxShrinks(k, a.issued, a.rrun.inbox, c.rrun.inbox);
    var r := c.rrun.inbox[0].record;
    SettleResult(k, a.issued, a.r, c, a.rrun.id, a.rrun.binding, id, r);
    ActivatedStore(k, a.issued, a.r, false, c.r, id, r);
    SettledMatches(k, a, c, id, a.r.(active := a.r.active + {id}, pending := {}),
                   c.r.(active := c.r.active[id := r], pending := map[]));
  }

  lemma FinishResult(k: Peers, issued: Issued, side: P.Side, c: World, session: Bytes, binding: Bytes32, id: Bytes)
    requires Enrolled(k) && IssuesSealed(k, issued) && StoreMatches(k, issued, side, true, c.i)
    requires c.irun.Confirming? && c.irun.inbox != [] && c.irun.inbox[0].Finalized?
    requires c.irun.session == SessionsOf(k, session, binding).0 && PaperMatches(k, issued, id, true, c.irun.record)
    ensures FinishRun(k, c)
         == if id !in side.revoked
            then Result.Ok(c.(i := c.i.(active := c.i.active[id := c.irun.record], pending := map[]), irun := Idle)) else Err
  {
    assert Sealed(k, id, issued[id]);
    Finishing(k, c.irun.now, c.i, session, binding, id, issued[id]);
    Persisting(k, issued, side, true, c.i, id, c.irun.record);
  }

  lemma FinishedMatches(k: Peers, a: P.Plan, c: World, side: P.Side, st: Store)
    requires Matches(k, a, c) && StoreMatches(k, a.issued, side, true, st)
    ensures Matches(k, a.(i := side, irun := P.Resting), c.(i := st, irun := Idle))
  {
  }

  lemma FinishFollows(k: Peers, a: P.Plan, c: World)
    requires Enrolled(k) && Matches(k, a, c) && a.irun.Waiting? && a.irun.inbox != [] && a.irun.inbox[0].Done?
    ensures var planned, actual := P.FinishStep(a, {}), FinishRun(k, c);
            FollowsWhen(k, planned, actual, true)
  {
    var id, r := a.irun.whole, c.irun.record;
    InboxShrinks(k, a.issued, a.irun.inbox, c.irun.inbox);
    FinishResult(k, a.issued, a.i, c, a.irun.id, a.irun.binding, id);
    ActivatedStore(k, a.issued, a.i, true, c.i, id, r);
    FinishedMatches(k, a, c, a.i.(active := a.i.active + {id}, pending := {}),
                    c.i.(active := c.i.active[id := r], pending := map[]));
  }

  // ---- Sweeps cut short ----

  lemma CutStore(k: Peers, issued: Issued, side: P.Side, full: bool, st: Store, id: Bytes, r: PairingRecord,
                 left: set<Bytes>)
    requires StoreMatches(k, issued, side, full, st) && PaperMatches(k, issued, id, true, r) && left <= side.pending
    ensures StoreMatches(k, issued, side.(active := side.active + {id}, pending := left), full,
                         st.(active := st.active[id := r], pending := Restrict(st.pending, left)))
  {
    FilesGrow(k, issued, side.active, true, st.active, id, r);
    assert Restrict(st.pending, left).Keys == left;
  }

  lemma CutSettleFollows(k: Peers, a: P.Plan, c: World, left: set<Bytes>)
    requires Enrolled(k) && Matches(k, a, c) && a.rrun.Expecting? && a.rrun.inbox != [] && a.rrun.inbox[0].Whole?
    requires left <= a.r.pending
    ensures Follows(k, P.CutSettleStep(a, left), CutSettleRun(k, c, left))
  {
    var id := a.rrun.inbox[0].id;
    InboxShrinks(k, a.issued, a.rrun.inbox, c.rrun.inbox);
    var r := c.rrun.inbox[0].record;
    assert Sealed(k, id, a.issued[id]);
    FiledPaper(k, a.issued, id, true, r, 0);
    Settling(k, c.rrun.now, c.r, a.rrun.id, a.rrun.binding, id, a.issued[id]);
    Persisting(k, a.issued, a.r, false, c.r, id, r);
    CutStore(k, a.issued, a.r, false, c.r, id, r, left);
  }

  lemma CutFinishFollows(k: Peers, a: P.Plan, c: World, left: set<Bytes>)
    requires Enrolled(k) && Matches(k, a, c) && a.irun.Waiting? && a.irun.inbox != [] && a.irun.inbox[0].Done?
    requires left <= a.i.pending
    ensures Follows(k, P.FinishStep(a, left), CutFinishRun(k, c, left))
  {
    var id, r := a.irun.whole, c.irun.record;
    assert Sealed(k, id, a.issued[id]);
    Finishing(k, c.irun.now, c.i, a.irun.id, a.irun.binding, id, a.issued[id]);
    Persisting(k, a.issued, a.i, true, c.i, id, r);
    CutStore(k, a.issued, a.i, true, c.i, id, r, left);
  }

  // ---- Revocation ----

  lemma RevokedStore(k: Peers, issued: Issued, side: P.Side, full: bool, st: Store, id: Bytes)
    requires StoreMatches(k, issued, side, full, st) && id in side.active
    ensures StoreMatches(k, issued, side.(active := side.active - {id}, revoked := side.revoked + {id}), full,
                         st.(active := st.active - {id}, revoked := st.revoked[id := st.active[id]]))
  {
    FilesGrow(k, issued, side.revoked, true, st.revoked, id, st.active[id]);
  }

  lemma RevokeFollows(k: Peers, issued: Issued, side: P.Side, full: bool, st: Store, now: u64, id: Bytes)
    requires Enrolled(k) && IssuesSealed(k, issued) && StoreMatches(k, issued, side, full, st)
    ensures var planned, actual := P.RevokeStep(side, id), Revoke(k.At(now), st, id);
            && planned.Ok? == actual.Ok?
            && (actual.Ok? ==> StoreMatches(k, issued, planned.value, full, actual.value))
  {
    Revoking(k, issued, side, full, st, now, id);
    if id in side.active {
      RevokedStore(k, issued, side, full, st, id);
    }
  }
}
