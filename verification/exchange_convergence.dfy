/** Phases never go back without a revocation, and exactly when one uninterrupted run completes the pairing. */
module PlanConvergence {
  import opened Octets
  import opened ExchangePlans

  // ---- Phases ----

  /** Nothing, issued, co-signed, active at the responder, active at both. */
  function Phase(a: Plan): nat {
    if a.r.active != {} && a.i.active != {} then 4
    else if a.r.active != {} then 3
    else if a.i.pending != {} then 2
    else if a.r.pending != {} then 1
    else 0
  }

  /** The responder activates: whatever was pending is swept, but the pair is now active there. */
  lemma SettlingAdvances(a: Plan, b: Plan)
    requires CanSettle(a) && b.i == a.i && b.r.active == a.r.active + {a.rrun.inbox[0].id}
    ensures Phase(a) <= Phase(b)
  {
    assert a.rrun.inbox[0].id in b.r.active;
  }

  /** The initiator activates what the responder has activated and not revoked since. */
  lemma FinishingAdvances(a: Plan, b: Plan)
    requires InitiatorRunOk(a) && CanFinish(a) && a.r.revoked == {}
    requires b.r == a.r && b.i.active == a.i.active + {a.irun.whole}
    ensures Phase(a) <= Phase(b)
  {
    assert a.irun.whole in b.i.active;
    assert a.irun.inbox == [Done] && a.irun.whole in b.r.active;
  }

  /** Nothing but an activation removes a file, and nothing but a revocation deactivates one. */
  lemma GrowingAdvances(a: Plan, b: Plan)
    requires a.i.active <= b.i.active && a.i.pending <= b.i.pending
    requires a.r.active <= b.r.active && a.r.pending <= b.r.pending
    ensures Phase(a) <= Phase(b)
  {
  }

  lemma StepGrows(a: Plan, x: Action, b: Plan)
    requires Next(a, x) == Ok(b)
    requires !x.Settle? && !x.CutSettle? && !x.Finish? && !x.CutFinish? && !x.RevokeAtInitiator? && !x.RevokeAtResponder?
    ensures a.i.active <= b.i.active && a.i.pending <= b.i.pending
    ensures a.r.active <= b.r.active && a.r.pending <= b.r.pending
  {
  }

  lemma RevocationIsRecorded(a: Plan, x: Action, b: Plan)
    requires Next(a, x) == Ok(b) && (x.RevokeAtInitiator? || x.RevokeAtResponder?)
    ensures b.i.revoked + b.r.revoked != {}
  {
    assert x.id in b.i.revoked + b.r.revoked;
  }

  /** Revoked files stay. */
  lemma NothingUnrevoked(a: Plan, x: Action, b: Plan)
    requires Next(a, x) == Ok(b)
    ensures a.i.revoked <= b.i.revoked && a.r.revoked <= b.r.revoked
  {
  }

  /** Cuts, losses and retries never take the pairing back, as long as nothing has been revoked. */
  lemma PhaseNeverRegresses(a: Plan, x: Action, b: Plan)
    requires Inv(a) && Permits(a, x) && Next(a, x) == Ok(b)
    requires b.i.revoked == {} && b.r.revoked == {}
    ensures Phase(a) <= Phase(b)
  {
    match x
    case Settle => SettlingAdvances(a, b);
    case CutSettle(_) => SettlingAdvances(a, b);
    case Finish => FinishingAdvances(a, b);
    case CutFinish(_) => FinishingAdvances(a, b);
    case RevokeAtInitiator(_, _) => RevocationIsRecorded(a, x, b);
    case RevokeAtResponder(_, _) => RevocationIsRecorded(a, x, b);
    case _ => StepGrows(a, x, b); GrowingAdvances(a, b);
  }

  // ---- Stores without leftovers ----

  /** What holds between runs when no sweep was cut short: an active pair has no pending files. */
  predicate Clean(a: Plan) {
    && (a.r.active != {} ==> a.r.pending == {})
    && (a.i.active != {} ==> a.i.pending == {})
    && a.i.pending !! a.i.revoked && a.r.pending !! a.r.revoked
  }

  /** The step finishes its sweep, if it starts one. */
  predicate Sweeps(x: Action) {
    !x.CutSettle? && !x.CutFinish?
  }

  lemma ServeKeepsClean(a: Plan, answer: Option<Text>, b: Plan)
    requires Clean(a) && ResponderRunOk(a) && ServeStep(a, answer) == Ok(b) && a.r.revoked <= a.issued.Keys
    ensures Clean(b)
  {
  }

  lemma ReceiveKeepsClean(a: Plan, local: Option<Bytes>, b: Plan)
    requires Clean(a) && InitiatorRunOk(a) && MayFind(a.i.pending, local) && ReceiveStep(a, local) == Ok(b)
    requires a.i.revoked <= a.r.active + a.r.revoked
    ensures Clean(b)
  {
  }

  lemma ActivationKeepsClean(a: Plan, x: Action, b: Plan)
    requires Clean(a) && Next(a, x) == Ok(b) && (x.Settle? || x.Finish?)
    ensures Clean(b)
  {
  }

  lemma RevocationKeepsClean(a: Plan, x: Action, b: Plan)
    requires Clean(a) && Next(a, x) == Ok(b) && (x.RevokeAtInitiator? || x.RevokeAtResponder?)
    ensures Clean(b)
  {
  }

  lemma NextKeepsClean(a: Plan, x: Action, b: Plan)
    requires Inv(a) && Clean(a) && Permits(a, x) && Next(a, x) == Ok(b) && Sweeps(x)
    ensures Clean(b)
  {
    match x
    case Serve(answer) => ServeKeepsClean(a, answer, b);
    case Receive(local) => ReceiveKeepsClean(a, local, b);
    case Settle => ActivationKeepsClean(a, x, b);
    case Finish => ActivationKeepsClean(a, x, b);
    case RevokeAtInitiator(_, _) => RevocationKeepsClean(a, x, b);
    case RevokeAtResponder(_, _) => RevocationKeepsClean(a, x, b);
    case _ =>
  }

  // ---- One uninterrupted run ----

  predicate Quiet(a: Plan) {
    a.irun.Resting? && a.rrun.Listening?
  }

  predicate Converged(a: Plan) {
    a.i.active != {} && a.i.active == a.r.active && a.i.pending == {} && a.r.pending == {}
  }

  /** What the outside world fixes for a run: both clocks, the fresh values and the broker's answer. */
  datatype Setting = Setting(nowI: u64, nowR: u64, freshId: Bytes, staticI: Bytes32, staticR: Bytes32, hash: Bytes32,
                             answer: Option<Text>)

  /** What the searches of a run come back with, and the binding of its session. */
  datatype Outcome = Outcome(
    iActive: Option<Bytes>, iPending: Option<Bytes>, iRecovery: Bytes, iLocal: Option<Bytes>,
    rActive: Option<Bytes>, rPending: Option<Bytes>, rRecovery: Bytes, binding: Bytes32)

  function StartOf(f: Setting, o: Outcome): Action {
    Start(f.nowI, o.iActive, o.iPending, o.iRecovery, f.freshId, f.staticI)
  }

  function MeetOf(f: Setting, o: Outcome): Action {
    Meet(f.nowR, o.rActive, o.rPending, o.rRecovery, f.staticR, f.hash, o.binding)
  }

  /** Every message arrives: the run's steps one after the other, until one side refuses. */
  function Uninterrupted(a: Plan, f: Setting, o: Outcome): Result<Plan> {
    var b :- Next(a, StartOf(f, o));
    AfterStart(b, f, o)
  }

  function AfterStart(a: Plan, f: Setting, o: Outcome): Result<Plan> {
    var b :- Next(a, MeetOf(f, o));
    AfterMeet(b, f, o)
  }

  function AfterMeet(a: Plan, f: Setting, o: Outcome): Result<Plan> {
    var b :- Next(a, Serve(f.answer));
    AfterServe(b, o)
  }

  function AfterServe(a: Plan, o: Outcome): Result<Plan> {
    var b :- Next(a, Receive(o.iLocal));
    AfterReceive(b)
  }

  /** The responder settles if it is waiting for an answer, and the initiator finishes. */
  function AfterReceive(a: Plan): Result<Plan> {
    var b :- if a.rrun.Expecting? then Next(a, Settle) else Ok(a);
    Next(b, Finish)
  }

  predicate PermitsOutcome(a: Plan, f: Setting, o: Outcome) {
    && MayFind(a.i.active, o.iActive) && MayFind(a.i.pending, o.iPending) && MayFind(a.i.pending, o.iLocal)
    && MayFind(a.r.active, o.rActive) && MayFind(a.r.pending, o.rPending)
    && (a.i.pending != {} ==> o.iRecovery in a.i.pending)
    && (a.r.pending != {} ==> o.rRecovery in a.r.pending)
    && f.freshId !in a.usedIds && o.binding !in a.usedBindings
  }

  /**
   The condition both devices could check beforehand.  If the responder is active, the initiator must still
   hold a record; if not, the initiator must not be active, and must hold nothing or the responder's only record.
   */
  predicate Ready(a: Plan) {
    if a.r.active != {} then a.i.active + a.i.pending != {}
    else a.i.active == {} && (a.i.pending == {} || a.r.pending == a.i.pending)
  }

  /** As long as nothing has been revoked, ready just means: one pending record at most where it matters. */
  lemma ReadyWithoutRevocations(a: Plan)
    requires Inv(a) && Clean(a) && a.i.revoked == {} && a.r.revoked == {}
    ensures Ready(a) <==> a.i.pending == {} || |a.r.pending| <= 1
  {
    var id :| Within(a, id);
    if a.r.active != {} {
      var p :| p in a.r.active;
      assert p in a.i.All();
    } else {
      assert a.i.active == {};
      if a.i.pending != {} {
        var p :| p in a.i.pending;
        assert a.i.pending == {p} && p in a.r.pending;
        if |a.r.pending| <= 1 {
          OnlyMember(a.r.pending, p);
        }
      }
    }
  }

  lemma OnlyMember(s: set<Bytes>, p: Bytes)
    requires p in s && |s| <= 1
    ensures s == {p}
  {
    assert |s - {p}| == |s| - 1;
  }

  // ---- Ready plans converge ----

  /** The states an uninterrupted run goes through up to the initiator's answer. */
  predicate Passes(a: Plan, f: Setting, o: Outcome, a1: Plan, a2: Plan, a3: Plan, a4: Plan) {
    && Next(a, StartOf(f, o)) == Ok(a1) && Next(a1, MeetOf(f, o)) == Ok(a2)
    && Next(a2, Serve(f.answer)) == Ok(a3) && Next(a3, Receive(o.iLocal)) == Ok(a4)
  }

  predicate Completes(result: Result<Plan>) {
    result.Ok? && Converged(result.value)
  }

  /** The responder is active: it sends the record, and the initiator repairs or keeps its own copy. */
  lemma RepairConverges(a: Plan, f: Setting, o: Outcome, id: Bytes) returns (a1: Plan, a2: Plan, a3: Plan, a4: Plan)
    requires Quiet(a) && PermitsOutcome(a, f, o)
    requires a.r.active == {id} && a.r.pending == {} && id !in a.i.revoked
    requires a.i.active + a.i.pending == {id} && (a.i.active == {} || a.i.pending == {})
    ensures Passes(a, f, o, a1, a2, a3, a4) && Completes(AfterReceive(a4))
    ensures a1.irun == Started(f.nowI, true, id, f.staticI)
    ensures a2.rrun == Serving(f.nowR, true, id, o.binding, o.rActive, o.rPending) && o.rActive.Some?
    ensures a3.irun == Asking(f.nowI, true, id, o.binding, [Whole(id), Done]) && !a4.rrun.Expecting?
  {
    a1 := a.(irun := Started(f.nowI, true, id, f.staticI));
    assert Next(a, StartOf(f, o)) == Ok(a1);
    a2 := a1.(irun := Asking(f.nowI, true, id, o.binding, []),
              rrun := Serving(f.nowR, true, id, o.binding, o.rActive, o.rPending),
              usedBindings := a.usedBindings + {o.binding});
    assert Next(a1, MeetOf(f, o)) == Ok(a2);
    a3 := a2.(irun := Asking(f.nowI, true, id, o.binding, [Whole(id), Done]), rrun := Listening);
    assert Next(a2, Serve(f.answer)) == Ok(a3) by {
      assert [] + [Whole(id), Done] == [Whole(id), Done];
    }
    a4 := a3.(irun := Waiting(f.nowI, id, o.binding, id, [Done]));
    assert Next(a3, Receive(o.iLocal)) == Ok(a4) by {
      assert [Whole(id), Done][1..] == [Done];
    }
    assert id in a.i.active + {id};
  }

  /** Once the responder has offered a record the initiator can answer, both sides activate it. */
  lemma AnsweredOfferConverges(o: Outcome, a3: Plan, offered: Bytes) returns (a4: Plan)
    requires a3.irun.Asking? && a3.rrun.Expecting? && a3.irun.binding == a3.rrun.binding
    requires a3.irun.inbox == [Offer(offered)] && a3.rrun.inbox == []
    requires a3.i.active == {} && a3.r.active == {} && offered !in a3.r.revoked && offered !in a3.i.revoked
    requires MayFind(a3.i.pending, o.iLocal)
    requires if a3.i.pending == {} then offered in a3.issued && a3.issued[offered].binding == a3.irun.binding
             else a3.i.pending == {offered}
    ensures Next(a3, Receive(o.iLocal)) == Ok(a4) && Completes(AfterReceive(a4))
    ensures a4.rrun == Expecting(a3.rrun.now, a3.rrun.id, a3.rrun.binding, [Whole(offered)]) && a4.issued == a3.issued
  {
    a4 := a3.(i := a3.i.(pending := {offered}),
              irun := Waiting(a3.irun.now, a3.irun.id, a3.irun.binding, offered, []),
              rrun := Expecting(a3.rrun.now, a3.rrun.id, a3.rrun.binding, [Whole(offered)]));
    assert Next(a3, Receive(o.iLocal)) == Ok(a4) by {
      assert [Offer(offered)][1..] == [] && [] + [Whole(offered)] == [Whole(offered)];
      assert a3.i.pending + {offered} == {offered};
    }
    var a5 := a4.(r := a4.r.(active := {offered}, pending := {}), rrun := Listening,
                  irun := Waiting(a3.irun.now, a3.irun.id, a3.irun.binding, offered, [Done]));
    assert Next(a4, Settle) == Ok(a5) by {
      assert [] + [Done] == [Done];
      assert a4.r.active + {offered} == {offered};
    }
    assert a5.i.active + {offered} == {offered};
    assert offered in {offered};
  }

  /** Both devices hold only the same pending record: it is offered and completed again, without a prompt. */
  lemma RetryConverges(a: Plan, f: Setting, o: Outcome, id: Bytes) returns (a1: Plan, a2: Plan, a3: Plan, a4: Plan)
    requires Quiet(a) && PermitsOutcome(a, f, o)
    requires a.r.active == {} && a.i.active == {} && a.i.pending == {id} && a.r.pending == {id}
    requires id !in a.i.revoked && id !in a.r.revoked
    ensures Passes(a, f, o, a1, a2, a3, a4) && Completes(AfterReceive(a4))
    ensures a1.irun == Started(f.nowI, true, id, f.staticI)
    ensures a2.rrun == Serving(f.nowR, true, id, o.binding, None, Some(id)) && o.iLocal.Some?
    ensures a4.rrun == Expecting(f.nowR, id, o.binding, [Whole(id)]) && a4.issued == a.issued
  {
    a1 := a.(irun := Started(f.nowI, true, id, f.staticI));
    assert Next(a, StartOf(f, o)) == Ok(a1);
    a2 := a1.(irun := Asking(f.nowI, true, id, o.binding, []),
              rrun := Serving(f.nowR, true, id, o.binding, None, Some(id)),
              usedBindings := a.usedBindings + {o.binding});
    assert Next(a1, MeetOf(f, o)) == Ok(a2);
    a3 := a2.(irun := Asking(f.nowI, true, id, o.binding, [Offer(id)]), rrun := Expecting(f.nowR, id, o.binding, []));
    assert Next(a2, Serve(f.answer)) == Ok(a3) by {
      assert [] + [Offer(id)] == [Offer(id)];
    }
    a4 := AnsweredOfferConverges(o, a3, id);
  }

  /** What a first contact issues: a grant resumed from the pending record the responder found, or a new one. */
  function NewIssue(a: Plan, f: Setting, o: Outcome): Issue
    requires if o.rPending.Some? then o.rPending.value in a.issued else f.answer.Some?
  {
    if o.rPending.Some? then Issue(o.binding, a.issued[o.rPending.value].marker, a.issued[o.rPending.value].at)
    else Issue(o.binding, f.answer.value, f.nowR)
  }

  /** The initiator holds nothing: a first contact, issuing anew or resuming any of the responder's grants. */
  lemma FirstContactConverges(a: Plan, f: Setting, o: Outcome) returns (a1: Plan, a2: Plan, a3: Plan, a4: Plan)
    requires Quiet(a) && PermitsOutcome(a, f, o) && (a.r.pending == {} ==> f.answer.Some?)
    requires a.r.active == {} && a.i.active == {} && a.i.pending == {}
    requires a.r.pending <= a.issued.Keys
    requires f.freshId !in a.i.revoked && f.freshId !in a.r.revoked && f.freshId !in a.r.pending
    ensures Passes(a, f, o, a1, a2, a3, a4) && Completes(AfterReceive(a4))
    ensures a1.irun == Started(f.nowI, false, f.freshId, f.staticI)
    ensures a2.rrun == Serving(f.nowR, false, f.freshId, o.binding, None, o.rPending) && a2.issued == a.issued
    ensures a3.irun == Asking(f.nowI, false, f.freshId, o.binding, [Offer(f.freshId)])
    ensures a3.issued == a.issued[f.freshId := NewIssue(a, f, o)] && a4.issued == a3.issued && o.iLocal.None?
    ensures a4.rrun == Expecting(f.nowR, f.freshId, o.binding, [Whole(f.freshId)])
  {
    var id := f.freshId;
    a1 := a.(irun := Started(f.nowI, false, id, f.staticI), usedIds := a.usedIds + {id});
    assert Next(a, StartOf(f, o)) == Ok(a1);
    a2 := a1.(irun := Asking(f.nowI, false, id, o.binding, []),
              rrun := Serving(f.nowR, false, id, o.binding, None, o.rPending),
              usedBindings := a.usedBindings + {o.binding});
    assert Next(a1, MeetOf(f, o)) == Ok(a2);
    assert [] + [Offer(id)] == [Offer(id)];
    a3 := Next(a2, Serve(f.answer)).value;
    a4 := AnsweredOfferConverges(o, a3, id);
  }

  /** With nothing at either device, a user who refuses ends the run. */
  lemma RefusalFails(a: Plan, f: Setting, o: Outcome)
    requires Quiet(a) && PermitsOutcome(a, f, o) && f.answer.None?
    requires a.r.active == {} && a.i.active + a.i.pending == {} && a.r.pending == {}
    ensures Uninterrupted(a, f, o).Err?
  {
    var a1 := a.(irun := Started(f.nowI, false, f.freshId, f.staticI), usedIds := a.usedIds + {f.freshId});
    assert a.i.active == {} && a.i.pending == {};
    assert Next(a, StartOf(f, o)) == Ok(a1);
  }

  /** The only PairIDs that can matter in a ready plan. */
  lemma ReadyShape(a: Plan) returns (id: Bytes)
    requires StoresAgree(a) && Clean(a) && Ready(a) && a.i.active + a.i.pending != {}
    ensures a.i.active + a.i.pending == {id} && (a.i.active == {} || a.i.pending == {})
    ensures if a.r.active != {} then a.r.active == {id} && a.r.pending == {} else a.i.pending == {id} == a.r.pending
    ensures id !in a.i.revoked
    ensures a.r.active == {} ==> id !in a.r.revoked
  {
    id :| Within(a, id);
    assert a.i.active + a.i.pending <= {id};
    var some :| some in a.i.active + a.i.pending;
    assert some == id;
    if a.r.active != {} {
      var other :| other in a.r.active;
      assert other == id;
    }
  }

  /** A first contact is completed unless the user is asked and refuses. */
  lemma FirstContactExactly(a: Plan, f: Setting, o: Outcome)
    requires StoresAgree(a) && Clean(a) && Quiet(a) && PermitsOutcome(a, f, o)
    requires a.i.active + a.i.pending == {} && a.r.active == {}
    ensures Completes(Uninterrupted(a, f, o)) <==> (a.r.pending == {} ==> f.answer.Some?)
  {
    if a.r.pending == {} && f.answer.None? {
      RefusalFails(a, f, o);
    } else {
      assert a.i.active == {} && a.i.pending == {};
      var a1, a2, a3, a4 := FirstContactConverges(a, f, o);
    }
  }

  /** Whatever the initiator holds, a ready plan is completed without asking anyone. */
  lemma RecoveryConverges(a: Plan, f: Setting, o: Outcome)
    requires StoresAgree(a) && Clean(a) && Quiet(a) && Ready(a) && PermitsOutcome(a, f, o)
    requires a.i.active + a.i.pending != {}
    ensures Completes(Uninterrupted(a, f, o))
  {
    var id := ReadyShape(a);
    if a.r.active != {} {
      var a1, a2, a3, a4 := RepairConverges(a, f, o, id);
    } else {
      var a1, a2, a3, a4 := RetryConverges(a, f, o, id);
    }
  }

  /** A ready plan is always completed, except that a user who is asked for a new grant may refuse. */
  lemma ReadyConverges(a: Plan, f: Setting, o: Outcome)
    requires Inv(a) && Clean(a) && Quiet(a) && Ready(a) && PermitsOutcome(a, f, o)
    ensures Completes(Uninterrupted(a, f, o))
       <==> (a.i.active + a.i.pending == {} && a.r.pending == {} ==> f.answer.Some?)
  {
    if a.i.active + a.i.pending == {} {
      FirstContactExactly(a, f, o);
    } else {
      RecoveryConverges(a, f, o);
    }
  }

  // ---- Unready plans may not ----

  /** The responder has forgotten or revoked what the initiator reconnects with: no session, or no record. */
  lemma OrphanedReconnectFails(a: Plan, f: Setting, o: Outcome)
    requires Quiet(a) && PermitsOutcome(a, f, o)
    requires a.i.active + a.i.pending != {} && a.r.active == {}
    requires o.rPending.Some? ==> o.rRecovery !in a.i.active + a.i.pending
    ensures Uninterrupted(a, f, o).Err?
  {
  }

  /** The responder is active with a pair the initiator no longer holds: no first contact is possible. */
  lemma ForgottenActiveFails(a: Plan, f: Setting, o: Outcome)
    requires Quiet(a) && PermitsOutcome(a, f, o)
    requires a.i.active + a.i.pending == {} && a.r.active != {}
    ensures Uninterrupted(a, f, o).Err?
  {
  }

  function Pick(s: set<Bytes>, found: Bytes): Option<Bytes> {
    if s == {} then None else Some(found)
  }

  /** A member of each non-empty set; one outside `avoid` when there is one. */
  lemma Member(s: set<Bytes>, avoid: set<Bytes>) returns (found: Bytes)
    ensures s != {} ==> found in s
    ensures !(s <= avoid) ==> found !in avoid
  {
    found := [];
    if !(s <= avoid) {
      found :| found in s && found !in avoid;
    } else if s != {} {
      found :| found in s;
    }
  }

  /** The two sides never get to the same pair: one reconnects with what the other does not offer. */
  predicate Misses(a: Plan, o: Outcome) {
    if a.r.active != {} then a.i.active + a.i.pending == {}
    else a.i.active + a.i.pending != {} && (o.rPending.Some? ==> o.rRecovery !in a.i.active + a.i.pending)
  }

  lemma MissingFails(a: Plan, f: Setting, o: Outcome)
    requires Quiet(a) && PermitsOutcome(a, f, o) && Misses(a, o)
    ensures Uninterrupted(a, f, o).Err?
  {
    if a.r.active != {} {
      ForgottenActiveFails(a, f, o);
    } else {
      OrphanedReconnectFails(a, f, o);
    }
  }

  /** Whenever the plan is not ready, some order in which directories are listed makes the two sides miss each other. */
  lemma UnreadyMayMiss(a: Plan, f: Setting, binding: Bytes32) returns (o: Outcome)
    requires Inv(a) && Clean(a) && Quiet(a) && !Ready(a)
    requires f.freshId !in a.usedIds && binding !in a.usedBindings
    ensures PermitsOutcome(a, f, o) && Misses(a, o)
  {
    var ia := Member(a.i.active, {});
    var ip := Member(a.i.pending, {});
    var ra := Member(a.r.active, {});
    var rp := Member(a.r.pending, a.i.active + a.i.pending);
    o := Outcome(Pick(a.i.active, ia), Pick(a.i.pending, ip), ip, Pick(a.i.pending, ip),
                 Pick(a.r.active, ra), Pick(a.r.pending, rp), rp, binding);
    if a.r.active == {} {
      UnreadyAvoids(a, rp);
    }
  }

  /** With no active pair at the responder, an unready initiator and some pending file there never match. */
  lemma UnreadyAvoids(a: Plan, rp: Bytes)
    requires StoresAgree(a) && Clean(a) && !Ready(a) && a.r.active == {}
    requires a.r.pending != {} ==> rp in a.r.pending
    requires !(a.r.pending <= a.i.active + a.i.pending) ==> rp !in a.i.active + a.i.pending
    ensures a.i.active + a.i.pending != {}
    ensures a.r.pending != {} ==> rp !in a.i.active + a.i.pending
  {
    assert a.i.active == {} ==> a.i.pending != {} && a.r.pending != a.i.pending;
    var id :| Within(a, id);
    assert a.i.active <= {id} && a.i.pending <= {id};
    if a.i.active != {} {
      assert a.i.active == {id};
      assert id in a.r.revoked;
      assert a.i.pending == {};
    } else {
      assert a.i.pending == {id};
      assert a.i.active + a.i.pending == {id};
    }
  }
}
