/** Exactly when one uninterrupted run completes the pairing, on the real stores. */
module ExchangeLiveness {
  import opened Octets
  import opened Cursors
  import opened Records
  import opened Stores
  import opened Exchanges
  import opened ExchangeRecords
  import opened ExchangeRefinement
  import opened ExchangeSteps
  import opened ExchangeRuns
  import Certificates
  import P = ExchangePlans
  import Q = PlanConvergence

  // ---- One uninterrupted run ----

  ghost function Uninterrupted(k: Peers, c: World, f: Q.Setting, o: Q.Outcome): Result<World> {
    var d :- Next(k, c, Q.StartOf(f, o));
    AfterStart(k, d, f, o)
  }

  ghost function AfterStart(k: Peers, c: World, f: Q.Setting, o: Q.Outcome): Result<World> {
    var d :- Next(k, c, Q.MeetOf(f, o));
    AfterMeet(k, d, f, o)
  }

  ghost function AfterMeet(k: Peers, c: World, f: Q.Setting, o: Q.Outcome): Result<World> {
    var d :- Next(k, c, P.Serve(f.answer));
    AfterServe(k, d, o)
  }

  ghost function AfterServe(k: Peers, c: World, o: Q.Outcome): Result<World> {
    var d :- Next(k, c, P.Receive(o.iLocal));
    AfterReceive(k, d)
  }

  ghost function AfterReceive(k: Peers, c: World): Result<World> {
    var d :- if c.rrun.Awaiting? then Next(k, c, P.Settle) else Ok(c);
    Next(k, d, P.Finish)
  }

  /** Both devices have the same record active, and nothing of the pair is pending on either. */
  predicate Converged(c: World) {
    && c.i.active.Keys != {} && c.i.active == c.r.active
    && c.i.pending.Keys == {} && c.r.pending.Keys == {}
  }

  predicate Quiet(c: World) {
    c.irun.Idle? && c.rrun.Free?
  }

  /** The condition, in terms of which files the two stores hold. */
  predicate Ready(c: World) {
    if c.r.active.Keys != {} then c.i.active.Keys + c.i.pending.Keys != {}
    else c.i.active.Keys == {} && (c.i.pending.Keys == {} || c.r.pending.Keys == c.i.pending.Keys)
  }

  /** The initiator has nothing to reconnect with. */
  predicate StartsAnew(c: World) {
    c.i.active.Keys == {} && c.i.pending.Keys == {}
  }

  /** What the searches of a run starting here may come back with; the binding is that of the session's transcript. */
  ghost predicate PermitsOutcome(k: Peers, c: World, f: Q.Setting, o: Q.Outcome) {
    && MayBeActive(k, f.nowI, c.i, o.iActive) && MayComeBack(k, f.nowI, c.i, o.iPending)
    && MayComeBack(k, f.nowI, c.i, o.iLocal)
    && (c.i.pending.Keys != {} ==> MayComeBack(k, f.nowI, c.i, Some(o.iRecovery)))
    && MayBeActive(k, f.nowR, c.r, o.rActive) && MayComeBack(k, f.nowR, c.r, o.rPending)
    && (c.r.pending.Keys != {} ==> MayComeBack(k, f.nowR, c.r, Some(o.rRecovery)))
    && o.binding == BindingFor(k, f, o)
  }

  function BindingFor(k: Peers, f: Q.Setting, o: Q.Outcome): Bytes32 {
    var reconnect := o.iActive.Some? || o.iPending.Some?;
    var id := if o.iActive.Some? then o.iActive.value else if o.iPending.Some? then o.iRecovery else f.freshId;
    BindingOf(k, reconnect, id, f.staticI, f.staticR, f.hash)
  }

  /** The PairID and the transcript this run will have are unused.  Clocks, certificates and the user are arbitrary. */
  ghost predicate Fresh(k: Peers, c: World, f: Q.Setting) {
    && LowerHex32(f.freshId) && f.freshId !in c.usedIds
    && forall reconnect, id :: BindingOf(k, reconnect, id, f.staticI, f.staticR, f.hash) !in c.usedBindings
  }

  // ---- What a first contact needs ----

  /** The record made of this issue can be printed, and filed by both devices. */
  predicate Fileable(k: Peers, id: Bytes, issue: P.Issue) {
    Proper(id, issue) && Fits(Half(k, id, issue)) && Fits(Full(k, id, issue))
  }

  function FirstBinding(k: Peers, f: Q.Setting): Bytes32 {
    BindingOf(k, false, f.freshId, f.staticI, f.staticR, f.hash)
  }

  /** The user agrees to a record that can be filed. */
  predicate Grantable(k: Peers, f: Q.Setting) {
    f.answer.Some? && Fileable(k, f.freshId, P.Issue(FirstBinding(k, f), f.answer.value, f.nowR))
  }

  /** A pending record's grant can be filed again under the fresh PairID. */
  predicate Refileable(k: Peers, f: Q.Setting, r: PairingRecord) {
    Fileable(k, f.freshId, P.Issue(FirstBinding(k, f), r.userPresence, r.authorizedAt))
  }

  /** Both certificates are valid at both clocks, and what the responder will issue can be filed, whichever it is. */
  predicate FirstContactPermitted(k: Peers, c: World, f: Q.Setting) {
    && InBoth(k, f.nowI) && InBoth(k, f.nowR)
    && if c.r.pending.Keys == {} then Grantable(k, f) else forall q :: q in c.r.pending ==> Refileable(k, f, c.r.pending[q])
  }

  // ---- Devices and plan, step by step to the end ----

  predicate RunAllowed(k: Peers, a: P.Plan, f: Q.Setting, o: Q.Outcome) {
    var b := P.Next(a, Q.StartOf(f, o));
    StepAllowed(k, a, Q.StartOf(f, o)) && (b.Ok? ==> AllowedAfterStart(k, b.value, f, o))
  }

  predicate AllowedAfterStart(k: Peers, a: P.Plan, f: Q.Setting, o: Q.Outcome) {
    var b := P.Next(a, Q.MeetOf(f, o));
    StepAllowed(k, a, Q.MeetOf(f, o)) && (b.Ok? ==> AllowedAfterMeet(k, b.value, f, o))
  }

  predicate AllowedAfterMeet(k: Peers, a: P.Plan, f: Q.Setting, o: Q.Outcome) {
    var b := P.Next(a, P.Serve(f.answer));
    StepAllowed(k, a, P.Serve(f.answer)) && (b.Ok? ==> AllowedAfterServe(k, b.value, o))
  }

  predicate AllowedAfterServe(k: Peers, a: P.Plan, o: Q.Outcome) {
    var b := P.Next(a, P.Receive(o.iLocal));
    StepAllowed(k, a, P.Receive(o.iLocal)) && (b.Ok? ==> AllowedAfterReceive(k, b.value))
  }

  predicate AllowedAfterReceive(k: Peers, a: P.Plan) {
    a.rrun.Expecting? ==> SettleAllowed(k, a)
  }

  /** The devices take a permitted step exactly when the plan does and it is allowed, and stay explained. */
  lemma ExplainedExactly(k: Peers, a: P.Plan, c: World, x: P.Action)
    requires Enrolled(k) && Explains(k, a, c, false) && P.Permits(a, x) && Q.Sweeps(x)
    requires x.Start? ==> LowerHex32(x.freshId)
    ensures Next(k, c, x).Ok? <==> P.Next(a, x).Ok? && StepAllowed(k, a, x)
    ensures Next(k, c, x).Ok? ==> Explains(k, P.Next(a, x).value, Next(k, c, x).value, false)
  {
    NextExactly(k, a, c, x);
    if Next(k, c, x).Ok? {
      P.NextKeepsInv(a, x, P.Next(a, x).value);
    }
  }

  lemma AfterReceiveExactly(k: Peers, a: P.Plan, c: World)
    requires Enrolled(k) && Explains(k, a, c, false)
    ensures FollowsWhen(k, Q.AfterReceive(a), AfterReceive(k, c), AllowedAfterReceive(k, a))
  {
    if a.rrun.Expecting? {
      ExplainedExactly(k, a, c, P.Settle);
      if Next(k, c, P.Settle).Ok? {
        ExplainedExactly(k, P.Next(a, P.Settle).value, Next(k, c, P.Settle).value, P.Finish);
      }
    } else {
      ExplainedExactly(k, a, c, P.Finish);
    }
  }

  lemma AfterServeExactly(k: Peers, a: P.Plan, c: World, o: Q.Outcome)
    requires Enrolled(k) && Explains(k, a, c, false) && P.MayFind(a.i.pending, o.iLocal)
    ensures FollowsWhen(k, Q.AfterServe(a, o), AfterServe(k, c, o), AllowedAfterServe(k, a, o))
  {
    ExplainedExactly(k, a, c, P.Receive(o.iLocal));
    if Next(k, c, P.Receive(o.iLocal)).Ok? {
      AfterReceiveExactly(k, P.Next(a, P.Receive(o.iLocal)).value, Next(k, c, P.Receive(o.iLocal)).value);
    }
  }

  lemma ServingKeepsInitiator(a: P.Plan, answer: Option<Text>)
    ensures P.ServeStep(a, answer).Ok? ==> P.ServeStep(a, answer).value.i == a.i
  {
  }

  lemma AfterMeetExactly(k: Peers, a: P.Plan, c: World, f: Q.Setting, o: Q.Outcome)
    requires Enrolled(k) && Explains(k, a, c, false) && P.MayFind(a.i.pending, o.iLocal)
    ensures FollowsWhen(k, Q.AfterMeet(a, f, o), AfterMeet(k, c, f, o), AllowedAfterMeet(k, a, f, o))
  {
    ServingKeepsInitiator(a, f.answer);
    ExplainedExactly(k, a, c, P.Serve(f.answer));
    if Next(k, c, P.Serve(f.answer)).Ok? {
      AfterServeExactly(k, P.Next(a, P.Serve(f.answer)).value, Next(k, c, P.Serve(f.answer)).value, o);
    }
  }

  lemma AfterStartExactly(k: Peers, a: P.Plan, c: World, f: Q.Setting, o: Q.Outcome)
    requires Enrolled(k) && Explains(k, a, c, false) && P.MayFind(a.i.pending, o.iLocal) && P.Permits(a, Q.MeetOf(f, o))
    ensures FollowsWhen(k, Q.AfterStart(a, f, o), AfterStart(k, c, f, o), AllowedAfterStart(k, a, f, o))
  {
    ExplainedExactly(k, a, c, Q.MeetOf(f, o));
    if Next(k, c, Q.MeetOf(f, o)).Ok? {
      AfterMeetExactly(k, P.Next(a, Q.MeetOf(f, o)).value, Next(k, c, Q.MeetOf(f, o)).value, f, o);
    }
  }

  lemma StartPermitted(a: P.Plan, f: Q.Setting, o: Q.Outcome)
    requires Q.PermitsOutcome(a, f, o)
    ensures P.Permits(a, Q.StartOf(f, o))
    ensures P.Next(a, Q.StartOf(f, o)).Ok? ==>
              var b := P.Next(a, Q.StartOf(f, o)).value;
              P.Permits(b, Q.MeetOf(f, o)) && P.MayFind(b.i.pending, o.iLocal)
  {
  }

  lemma StartedExactly(k: Peers, a: P.Plan, c: World, f: Q.Setting, o: Q.Outcome)
    requires Enrolled(k) && Explains(k, a, c, false) && Q.PermitsOutcome(a, f, o) && LowerHex32(f.freshId)
    ensures var b, d := P.Next(a, Q.StartOf(f, o)), Next(k, c, Q.StartOf(f, o));
            && (d.Ok? <==> b.Ok? && StepAllowed(k, a, Q.StartOf(f, o)))
            && (d.Ok? ==> FollowsWhen(k, Q.AfterStart(b.value, f, o), AfterStart(k, d.value, f, o),
                                      AllowedAfterStart(k, b.value, f, o)))
  {
    StartPermitted(a, f, o);
    ExplainedExactly(k, a, c, Q.StartOf(f, o));
    if Next(k, c, Q.StartOf(f, o)).Ok? {
      AfterStartExactly(k, P.Next(a, Q.StartOf(f, o)).value, Next(k, c, Q.StartOf(f, o)).value, f, o);
    }
  }

  /** The whole run, under any clocks and certificates: the devices complete it exactly if the plan does and every step is allowed. */
  lemma RunExactly(k: Peers, a: P.Plan, c: World, f: Q.Setting, o: Q.Outcome)
    requires Enrolled(k) && Explains(k, a, c, false) && Q.PermitsOutcome(a, f, o) && LowerHex32(f.freshId)
    ensures FollowsWhen(k, Q.Uninterrupted(a, f, o), Uninterrupted(k, c, f, o), RunAllowed(k, a, f, o))
  {
    StartedExactly(k, a, c, f, o);
  }

  // ---- Recoveries: nothing depends on the clocks, the certificates or the user ----

  lemma RepairAllowed(k: Peers, a: P.Plan, f: Q.Setting, o: Q.Outcome, id: Bytes)
    requires Q.Quiet(a) && Q.PermitsOutcome(a, f, o) && o.binding == BindingFor(k, f, o)
    requires a.r.active == {id} && a.r.pending == {} && id !in a.i.revoked
    requires a.i.active + a.i.pending == {id} && (a.i.active == {} || a.i.pending == {})
    ensures RunAllowed(k, a, f, o) && Q.Completes(Q.Uninterrupted(a, f, o))
  {
    var a1, a2, a3, a4 := Q.RepairConverges(a, f, o, id);
    assert o.iActive.Some? || o.iPending.Some?;
    assert o.binding == BindingOf(k, true, id, f.staticI, f.staticR, f.hash);
    assert StepAllowed(k, a1, Q.MeetOf(f, o)) && StepAllowed(k, a2, P.Serve(f.answer));
    assert StepAllowed(k, a3, P.Receive(o.iLocal));
  }

  /** The record that comes back was issued under another binding, so it is reconciled and not finalized. */
  lemma RetryAllowed(k: Peers, a: P.Plan, f: Q.Setting, o: Q.Outcome, id: Bytes)
    requires Q.Quiet(a) && Q.PermitsOutcome(a, f, o) && o.binding == BindingFor(k, f, o) && P.IssuesGranted(a)
    requires a.r.active == {} && a.i.active == {} && a.i.pending == {id} && a.r.pending == {id}
    requires id !in a.i.revoked && id !in a.r.revoked
    ensures RunAllowed(k, a, f, o) && Q.Completes(Q.Uninterrupted(a, f, o))
  {
    var a1, a2, a3, a4 := Q.RetryConverges(a, f, o, id);
    assert o.binding == BindingOf(k, true, id, f.staticI, f.staticR, f.hash);
    assert StepAllowed(k, a1, Q.MeetOf(f, o)) && StepAllowed(k, a2, P.Serve(f.answer));
    assert StepAllowed(k, a3, P.Receive(o.iLocal)) && !SettlesOwn(a4);
  }

  lemma RecoveryAllowed(k: Peers, a: P.Plan, f: Q.Setting, o: Q.Outcome)
    requires P.Inv(a) && Q.Clean(a) && Q.Quiet(a) && Q.Ready(a) && a.i.active + a.i.pending != {}
    requires Q.PermitsOutcome(a, f, o) && o.binding == BindingFor(k, f, o)
    ensures RunAllowed(k, a, f, o) && Q.Completes(Q.Uninterrupted(a, f, o))
  {
    var id := Q.ReadyShape(a);
    if a.r.active != {} {
      RepairAllowed(k, a, f, o, id);
    } else {
      RetryAllowed(k, a, f, o, id);
    }
  }

  // ---- First contacts ----

  /** Where the plan passes, the run is allowed exactly when each of its steps is. */
  lemma AllowedAlong(k: Peers, a: P.Plan, f: Q.Setting, o: Q.Outcome, a1: P.Plan, a2: P.Plan, a3: P.Plan, a4: P.Plan)
    requires Q.Passes(a, f, o, a1, a2, a3, a4)
    ensures RunAllowed(k, a, f, o)
       <==> && StepAllowed(k, a, Q.StartOf(f, o)) && StepAllowed(k, a1, Q.MeetOf(f, o))
            && StepAllowed(k, a2, P.Serve(f.answer)) && StepAllowed(k, a3, P.Receive(o.iLocal))
            && AllowedAfterReceive(k, a4)
  {
  }

  /** Both windows hold as a first contact opens. */
  lemma FirstOpeningAllowed(k: Peers, a: P.Plan, f: Q.Setting, o: Q.Outcome, a1: P.Plan)
    requires o.iActive.None? && o.iPending.None? && o.binding == BindingFor(k, f, o)
    requires a1.irun == P.Started(f.nowI, false, f.freshId, f.staticI)
    ensures StepAllowed(k, a, Q.StartOf(f, o)) <==> Certificates.InWindow(k.initiatorCertificate, f.nowI)
    ensures StepAllowed(k, a1, Q.MeetOf(f, o))
       <==> InBoth(k, f.nowR) && Certificates.InWindow(k.responderCertificate, f.nowI)
  {
  }

  lemma FirstServingAllowed(k: Peers, a: P.Plan, f: Q.Setting, o: Q.Outcome, a2: P.Plan)
    requires a2.rrun == P.Serving(f.nowR, false, f.freshId, o.binding, None, o.rPending) && a2.issued == a.issued
    requires if o.rPending.Some? then o.rPending.value in a.issued else f.answer.Some?
    ensures StepAllowed(k, a2, P.Serve(f.answer)) <==> Issuable(k, f.nowR, f.freshId, Q.NewIssue(a, f, o))
  {
  }

  lemma FirstAnswerAllowed(k: Peers, f: Q.Setting, o: Q.Outcome, issue: P.Issue, a3: P.Plan, a4: P.Plan)
    requires a3.irun == P.Asking(f.nowI, false, f.freshId, o.binding, [P.Offer(f.freshId)]) && o.iLocal.None?
    requires f.freshId in a3.issued && a3.issued[f.freshId] == issue && issue.binding == o.binding
    requires a4.rrun == P.Expecting(f.nowR, f.freshId, o.binding, [P.Whole(f.freshId)]) && a4.issued == a3.issued
    ensures StepAllowed(k, a3, P.Receive(o.iLocal)) <==> InBoth(k, f.nowI) && Fits(Full(k, f.freshId, issue))
    ensures AllowedAfterReceive(k, a4) <==> InBoth(k, f.nowR)
  {
  }

  lemma FirstContactAllowed(k: Peers, a: P.Plan, f: Q.Setting, o: Q.Outcome)
    requires P.StoresAgree(a) && Q.Quiet(a) && Q.PermitsOutcome(a, f, o) && o.binding == BindingFor(k, f, o)
    requires a.r.active == {} && a.i.active == {} && a.i.pending == {} && (a.r.pending == {} ==> f.answer.Some?)
    ensures RunAllowed(k, a, f, o)
       <==> InBoth(k, f.nowI) && InBoth(k, f.nowR) && Fileable(k, f.freshId, Q.NewIssue(a, f, o))
    ensures Q.Completes(Q.Uninterrupted(a, f, o))
  {
    var a1, a2, a3, a4 := Q.FirstContactConverges(a, f, o);
    AllowedAlong(k, a, f, o, a1, a2, a3, a4);
    FirstOpeningAllowed(k, a, f, o, a1);
    FirstServingAllowed(k, a, f, o, a2);
    FirstAnswerAllowed(k, f, o, Q.NewIssue(a, f, o), a3, a4);
  }

  // ---- The theorem ----

  lemma OutcomesAgree(k: Peers, a: P.Plan, c: World, f: Q.Setting, o: Q.Outcome)
    requires Enrolled(k) && Matches(k, a, c) && Fresh(k, c, f)
    ensures PermitsOutcome(k, c, f, o) <==> Q.PermitsOutcome(a, f, o) && o.binding == BindingFor(k, f, o)
  {
    ActiveSearch(k, a.issued, a.i.active, c.i, f.nowI, o.iActive);
    PendingSearch(k, a.issued, a.i.pending, true, c.i, f.nowI, o.iPending);
    PendingSearch(k, a.issued, a.i.pending, true, c.i, f.nowI, o.iLocal);
    PendingSearch(k, a.issued, a.i.pending, true, c.i, f.nowI, Some(o.iRecovery));
    ActiveSearch(k, a.issued, a.r.active, c.r, f.nowR, o.rActive);
    PendingSearch(k, a.issued, a.r.pending, false, c.r, f.nowR, o.rPending);
    PendingSearch(k, a.issued, a.r.pending, false, c.r, f.nowR, Some(o.rRecovery));
    assert BindingFor(k, f, o) !in c.usedBindings;
  }

  lemma SameFilesSameRecords(k: Peers, issued: Issued, ids: set<Bytes>, full: bool, d: Directory, e: Directory)
    requires Files(k, issued, ids, full, d) && Files(k, issued, ids, full, e)
    ensures d == e
  {
    forall p | p in d
      ensures d[p] == e[p]
    {
      assert PaperMatches(k, issued, p, full, d[p]) && PaperMatches(k, issued, p, full, e[p]);
    }
  }

  lemma ConvergedTogether(k: Peers, a: P.Plan, c: World)
    requires Matches(k, a, c) && Q.Converged(a)
    ensures Converged(c)
  {
    SameFilesSameRecords(k, a.issued, a.i.active, true, c.i.active, c.r.active);
  }

  lemma ReadyTogether(k: Peers, a: P.Plan, c: World)
    requires Matches(k, a, c)
    ensures Ready(c) <==> Q.Ready(a)
    ensures Quiet(c) <==> Q.Quiet(a)
    ensures StartsAnew(c) <==> a.i.active + a.i.pending == {}
  {
  }

  ghost predicate Completes(k: Peers, c: World, f: Q.Setting, o: Q.Outcome) {
    Uninterrupted(k, c, f, o).Ok? && Converged(Uninterrupted(k, c, f, o).value)
  }

  /** The devices complete the pairing exactly when the plan's run is allowed. */
  lemma CompletesExactly(k: Peers, a: P.Plan, c: World, f: Q.Setting, o: Q.Outcome)
    requires Enrolled(k) && Explains(k, a, c, false) && Q.PermitsOutcome(a, f, o) && LowerHex32(f.freshId)
    requires Q.Completes(Q.Uninterrupted(a, f, o))
    ensures Completes(k, c, f, o) <==> RunAllowed(k, a, f, o)
  {
    RunExactly(k, a, c, f, o);
    if RunAllowed(k, a, f, o) {
      ConvergedTogether(k, Q.Uninterrupted(a, f, o).value, Uninterrupted(k, c, f, o).value);
    }
  }

  /** A recovery is completed whatever the clocks and certificates say and whatever the user would answer. */
  lemma RecoveryRunConverges(k: Peers, a: P.Plan, c: World, f: Q.Setting, o: Q.Outcome)
    requires Enrolled(k) && Explains(k, a, c, true) && Quiet(c) && Ready(c) && !StartsAnew(c)
    requires Fresh(k, c, f) && PermitsOutcome(k, c, f, o)
    ensures Completes(k, c, f, o)
  {
    ReadyTogether(k, a, c);
    OutcomesAgree(k, a, c, f, o);
    RecoveryAllowed(k, a, f, o);
    CompletesExactly(k, a, c, f, o);
  }

  /** What the responder will issue, given the pending record its search found, can be filed. */
  predicate OutcomePermitted(k: Peers, c: World, f: Q.Setting, o: Q.Outcome) {
    && InBoth(k, f.nowI) && InBoth(k, f.nowR)
    && if o.rPending.Some? then o.rPending.value in c.r.pending && Refileable(k, f, c.r.pending[o.rPending.value])
       else Grantable(k, f)
  }

  lemma PaperCarriesIssue(k: Peers, issued: Issued, id: Bytes, full: bool, r: PairingRecord)
    requires Enrolled(k) && IssuesSealed(k, issued) && PaperMatches(k, issued, id, full, r)
    ensures r.userPresence == issued[id].marker && r.authorizedAt == issued[id].at
  {
    assert Sealed(k, id, issued[id]);
    FullIsSigned(k, id, issued[id]);
    assert Unsigned(r) == Blank(k, id, issued[id]);
  }

  lemma NewIssueFileable(k: Peers, a: P.Plan, c: World, f: Q.Setting, o: Q.Outcome)
    requires Enrolled(k) && IssuesSealed(k, a.issued) && Files(k, a.issued, a.r.pending, false, c.r.pending)
    requires P.MayFind(a.r.pending, o.rPending) && (a.r.pending == {} ==> f.answer.Some?)
    requires o.binding == FirstBinding(k, f)
    ensures a.r.pending <= a.issued.Keys
    ensures InBoth(k, f.nowI) && InBoth(k, f.nowR) && Fileable(k, f.freshId, Q.NewIssue(a, f, o))
       <==> OutcomePermitted(k, c, f, o)
  {
    assert forall p :: p in a.r.pending ==> PaperMatches(k, a.issued, p, false, c.r.pending[p]);
    if o.rPending.Some? {
      PaperCarriesIssue(k, a.issued, o.rPending.value, false, c.r.pending[o.rPending.value]);
    }
  }

  lemma FirstContactRunExactly(k: Peers, a: P.Plan, c: World, f: Q.Setting, o: Q.Outcome)
    requires Enrolled(k) && Explains(k, a, c, true) && Quiet(c) && Ready(c) && StartsAnew(c)
    requires Fresh(k, c, f) && PermitsOutcome(k, c, f, o)
    ensures Completes(k, c, f, o) <==> OutcomePermitted(k, c, f, o)
  {
    ReadyTogether(k, a, c);
    OutcomesAgree(k, a, c, f, o);
    if a.r.pending == {} && f.answer.None? {
      Q.RefusalFails(a, f, o);
      RunExactly(k, a, c, f, o);
    } else {
      NewIssueFileable(k, a, c, f, o);
      FirstContactAllowed(k, a, f, o);
      CompletesExactly(k, a, c, f, o);
    }
  }

  ghost predicate AlwaysConverges(k: Peers, c: World, f: Q.Setting) {
    forall o :: PermitsOutcome(k, c, f, o) ==> Completes(k, c, f, o)
  }

  /** If a first contact is not permitted, then it is not with some file the responder may find. */
  lemma UnpermittedFile(k: Peers, c: World, f: Q.Setting) returns (q: Bytes)
    requires !FirstContactPermitted(k, c, f)
    ensures c.r.pending.Keys != {} ==> q in c.r.pending
    ensures InBoth(k, f.nowI) && InBoth(k, f.nowR) && c.r.pending.Keys != {} ==> !Refileable(k, f, c.r.pending[q])
  {
    q := [];
    if c.r.pending.Keys != {} {
      q :| q in c.r.pending.Keys;
      if InBoth(k, f.nowI) && InBoth(k, f.nowR) {
        q :| q in c.r.pending && !Refileable(k, f, c.r.pending[q]);
      }
    }
  }

  /** An outcome of a first contact's searches: the responder finds this pending record, if it has any. */
  function FirstOutcome(k: Peers, c: World, f: Q.Setting, q: Bytes): Q.Outcome {
    Q.Outcome(None, None, [], None, None, Q.Pick(c.r.pending.Keys, q), q, FirstBinding(k, f))
  }

  lemma FirstOutcomePlanned(a: P.Plan, f: Q.Setting, o: Q.Outcome, q: Bytes)
    requires Q.Ready(a) && a.i.active + a.i.pending == {} && (a.r.pending != {} ==> q in a.r.pending)
    requires f.freshId !in a.usedIds && o.binding !in a.usedBindings
    requires o == Q.Outcome(None, None, [], None, None, Q.Pick(a.r.pending, q), q, o.binding)
    ensures Q.PermitsOutcome(a, f, o)
  {
    assert a.i.active == {} && a.i.pending == {};
  }

  lemma FirstOutcomePermitted(k: Peers, a: P.Plan, c: World, f: Q.Setting, q: Bytes)
    requires Enrolled(k) && Matches(k, a, c) && Ready(c) && StartsAnew(c) && Fresh(k, c, f)
    requires c.r.pending.Keys != {} ==> q in c.r.pending
    ensures PermitsOutcome(k, c, f, FirstOutcome(k, c, f, q))
  {
    var o := FirstOutcome(k, c, f, q);
    ReadyTogether(k, a, c);
    FirstOutcomePlanned(a, f, o, q);
    OutcomesAgree(k, a, c, f, o);
  }

  /** Permitted whichever file is found, if and only if permitted with each of them. */
  lemma PermittedWithEach(k: Peers, c: World, f: Q.Setting, o: Q.Outcome)
    requires FirstContactPermitted(k, c, f) && P.MayFind(c.r.pending.Keys, o.rPending)
    ensures OutcomePermitted(k, c, f, o)
  {
  }

  lemma PermittedFirstContactConverges(k: Peers, a: P.Plan, c: World, f: Q.Setting, o: Q.Outcome)
    requires Enrolled(k) && Explains(k, a, c, true) && Quiet(c) && Ready(c) && StartsAnew(c) && Fresh(k, c, f)
    requires FirstContactPermitted(k, c, f) && PermitsOutcome(k, c, f, o)
    ensures Completes(k, c, f, o)
  {
    PendingSearch(k, a.issued, a.r.pending, false, c.r, f.nowR, o.rPending);
    PermittedWithEach(k, c, f, o);
    FirstContactRunExactly(k, a, c, f, o);
  }

  lemma UnpermittedFirstContactMayFail(k: Peers, a: P.Plan, c: World, f: Q.Setting) returns (o: Q.Outcome)
    requires Enrolled(k) && Explains(k, a, c, true) && Quiet(c) && Ready(c) && StartsAnew(c) && Fresh(k, c, f)
    requires !FirstContactPermitted(k, c, f)
    ensures PermitsOutcome(k, c, f, o) && !Completes(k, c, f, o)
  {
    var q := UnpermittedFile(k, c, f);
    o := FirstOutcome(k, c, f, q);
    FirstOutcomePermitted(k, a, c, f, q);
    FirstContactRunExactly(k, a, c, f, o);
  }

  lemma FirstContactAlwaysExactly(k: Peers, a: P.Plan, c: World, f: Q.Setting)
    requires Enrolled(k) && Explains(k, a, c, true) && Quiet(c) && Ready(c) && StartsAnew(c) && Fresh(k, c, f)
    ensures AlwaysConverges(k, c, f) <==> FirstContactPermitted(k, c, f)
  {
    if FirstContactPermitted(k, c, f) {
      forall o | PermitsOutcome(k, c, f, o)
        ensures Completes(k, c, f, o)
      {
        PermittedFirstContactConverges(k, a, c, f, o);
      }
    } else {
      var o := UnpermittedFirstContactMayFail(k, a, c, f);
    }
  }

  lemma UnreadyMisses(k: Peers, a: P.Plan, c: World, f: Q.Setting) returns (o: Q.Outcome)
    requires P.Inv(a) && Q.Clean(a) && Q.Quiet(a) && !Q.Ready(a) && Fresh(k, c, f)
    requires a.usedIds == c.usedIds && a.usedBindings == c.usedBindings
    ensures Q.PermitsOutcome(a, f, o) && Q.Misses(a, o) && o.binding == BindingFor(k, f, o)
  {
    var p := Q.UnreadyMayMiss(a, f, FirstBinding(k, f));
    o := p.(binding := BindingFor(k, f, p));
    assert BindingFor(k, f, o) == BindingFor(k, f, p);
  }

  /** From a quiet state that is not ready, some order of listing the directories makes the run fail. */
  lemma UnreadyNotAlways(k: Peers, a: P.Plan, c: World, f: Q.Setting)
    requires Enrolled(k) && Explains(k, a, c, true) && Quiet(c) && !Ready(c) && Fresh(k, c, f)
    ensures !AlwaysConverges(k, c, f)
  {
    ReadyTogether(k, a, c);
    var o := UnreadyMisses(k, a, c, f);
    Q.MissingFails(a, f, o);
    OutcomesAgree(k, a, c, f, o);
    RunExactly(k, a, c, f, o);
    assert PermitsOutcome(k, c, f, o) && !Completes(k, c, f, o);
  }

  /** A quiet state some run reaches, in which every sweep so far has been completed; and a fresh setting. */
  ghost predicate Reached(k: Peers, worlds: seq<World>, actions: seq<P.Action>, i: nat, f: Q.Setting) {
    && Run(k, worlds, actions) && i < |worlds| && SweepsComplete(actions, i)
    && Quiet(worlds[i]) && Fresh(k, worlds[i], f)
  }

  /**
   Convergence.  From any quiet state reached by runs cut at any message boundary, one uninterrupted run completes
   the pairing whatever order the directories are listed in, if and only if the stores are ready and, when the
   initiator holds nothing, a first contact is permitted.
   */
  lemma ConvergesExactlyWhen(k: Peers, worlds: seq<World>, actions: seq<P.Action>, i: nat, f: Q.Setting)
    requires Reached(k, worlds, actions, i, f)
    ensures AlwaysConverges(k, worlds[i], f)
       <==> Ready(worlds[i]) && (StartsAnew(worlds[i]) ==> FirstContactPermitted(k, worlds[i], f))
  {
    var c := worlds[i];
    var a := RunIsExplained(k, worlds, actions, i);
    if !Ready(c) {
      UnreadyNotAlways(k, a, c, f);
    } else if StartsAnew(c) {
      FirstContactAlwaysExactly(k, a, c, f);
    } else {
      forall o | PermitsOutcome(k, c, f, o)
        ensures Completes(k, c, f, o)
      {
        RecoveryRunConverges(k, a, c, f, o);
      }
    }
  }

  /**
   Recovery.  While the initiator holds a record, only the files matter: certificates may have expired, and whatever
   the user would say now makes no difference.
   */
  lemma RecoveryConverges(k: Peers, worlds: seq<World>, actions: seq<P.Action>, i: nat, f: Q.Setting, g: Q.Setting)
    requires Reached(k, worlds, actions, i, f) && Reached(k, worlds, actions, i, g) && !StartsAnew(worlds[i])
    ensures AlwaysConverges(k, worlds[i], f) <==> AlwaysConverges(k, worlds[i], g)
    ensures AlwaysConverges(k, worlds[i], f) <==> Ready(worlds[i])
  {
    ConvergesExactlyWhen(k, worlds, actions, i, f);
    ConvergesExactlyWhen(k, worlds, actions, i, g);
  }

  // ---- Plain markers always fit ----

  /** The user agrees, with a marker that can be recorded at this time. */
  predicate Agrees(f: Q.Setting) {
    f.answer.Some? && Bounded(f.answer.value, MAX_MARKER_BYTES) && f.nowR != 0
  }

  predicate MarkersPlain(c: World, f: Q.Setting) {
    (forall g :: g in c.grants ==> PlainMarker(g.marker)) && (f.answer.Some? ==> PlainMarker(f.answer.value))
  }

  lemma PlainRefileable(k: Peers, a: P.Plan, c: World, f: Q.Setting, q: Bytes)
    requires Enrolled(k) && IssuesSealed(k, a.issued) && Files(k, a.issued, a.r.pending, false, c.r.pending)
    requires P.IssuesGranted(a) && a.grants == c.grants && MarkersPlain(c, f) && LowerHex32(f.freshId)
    requires q in c.r.pending
    ensures Refileable(k, f, c.r.pending[q])
  {
    var r := c.r.pending[q];
    assert PaperMatches(k, a.issued, q, false, r);
    PaperCarriesIssue(k, a.issued, q, false, r);
    assert Sealed(k, q, a.issued[q]) && P.Granted(a, a.issued[q]);
    PlainPaperFits(k, f.freshId, P.Issue(FirstBinding(k, f), r.userPresence, r.authorizedAt));
  }

  lemma PlainGrantable(k: Peers, f: Q.Setting)
    requires Enrolled(k) && LowerHex32(f.freshId) && (f.answer.Some? ==> PlainMarker(f.answer.value))
    ensures Grantable(k, f) <==> Agrees(f)
  {
    if Agrees(f) {
      PlainPaperFits(k, f.freshId, P.Issue(FirstBinding(k, f), f.answer.value, f.nowR));
    }
  }

  /**
   With markers free of control characters, a first contact needs just this: both certificates valid at both clocks,
   and the user's consent if the responder has no grant pending.
   */
  lemma PlainFirstContact(k: Peers, worlds: seq<World>, actions: seq<P.Action>, i: nat, f: Q.Setting)
    requires Reached(k, worlds, actions, i, f) && MarkersPlain(worlds[i], f)
    ensures FirstContactPermitted(k, worlds[i], f)
       <==> InBoth(k, f.nowI) && InBoth(k, f.nowR) && (worlds[i].r.pending.Keys == {} ==> Agrees(f))
  {
    var c := worlds[i];
    var a := RunIsExplained(k, worlds, actions, i);
    PlainGrantable(k, f);
    forall q | q in c.r.pending
      ensures Refileable(k, f, c.r.pending[q])
    {
      PlainRefileable(k, a, c, f, q);
    }
  }

  // ---- Before any revocation ----

  /** Before any revocation, being ready is: no pending record at the initiator, or at most one at the responder. */
  lemma ReadyBeforeRevocations(k: Peers, worlds: seq<World>, actions: seq<P.Action>, i: nat)
    requires Run(k, worlds, actions) && i < |worlds| && SweepsComplete(actions, i)
    requires worlds[i].i.revoked.Keys == {} && worlds[i].r.revoked.Keys == {}
    ensures Ready(worlds[i]) <==> worlds[i].i.pending.Keys == {} || |worlds[i].r.pending.Keys| <= 1
  {
    var a := RunIsExplained(k, worlds, actions, i);
    ReadyTogether(k, a, worlds[i]);
    Q.ReadyWithoutRevocations(a);
  }
}
