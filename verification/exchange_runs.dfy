/**
 Whole runs of two devices: every reachable state corresponds to a plan, so agreement, single approval,
 monotone phases and the exact condition for convergence hold of the real stores.
 */
module ExchangeRuns {
  import opened Octets
  import opened Exchanges
  import opened ExchangeRecords
  import opened ExchangeRefinement
  import opened ExchangeSteps
  import Certificates
  import P = ExchangePlans
  import Q = PlanConvergence

  // ---- When the devices take a step of the plan ----

  /**
   What a step needs besides the plan's own conditions.  Certificates matter to a first contact and to an issue,
   a co-signature or an activation made in the session at hand; nothing else looks at the clock.
   */
  predicate StepAllowed(k: Peers, a: P.Plan, x: P.Action) {
    match x
    case Start(now, active, pending, _, _, _) =>
      active.Some? || pending.Some? || Certificates.InWindow(k.initiatorCertificate, now)
    case Meet(now, _, _, _, staticKey, hash, binding) =>
      a.irun.Started? ==> MeetAllowed(k, a.irun, now, staticKey, hash, binding)
    case Serve(answer) => a.rrun.Serving? ==> ServeAllowed(k, a, answer)
    case Receive(local) => ReceiveAllowed(k, a, local)
    case Settle => SettleAllowed(k, a)
    case _ => true
  }

  // ---- Each permitted step follows the plan ----

  lemma PermitsFollow(k: Peers, a: P.Plan, c: World, x: P.Action)
    requires Enrolled(k) && Matches(k, a, c) && Permits(k, c, x)
    ensures P.Permits(a, x)
    ensures x.Start? ==> LowerHex32(x.freshId)
  {
    match x
    case Start(now, active, pending, recovery, _, _) =>
      ActiveSearch(k, a.issued, a.i.active, c.i, now, active);
      PendingSearch(k, a.issued, a.i.pending, true, c.i, now, pending);
      PendingSearch(k, a.issued, a.i.pending, true, c.i, now, Some(recovery));
    case Meet(now, active, pending, recovery, _, _, _) =>
      ActiveSearch(k, a.issued, a.r.active, c.r, now, active);
      PendingSearch(k, a.issued, a.r.pending, false, c.r, now, pending);
      PendingSearch(k, a.issued, a.r.pending, false, c.r, now, Some(recovery));
    case Receive(local) => PendingSearch(k, a.issued, a.i.pending, true, c.i, c.irun.now, local);
    case _ =>
  }

  lemma ServeFollows(k: Peers, a: P.Plan, c: World, answer: Option<Text>)
    requires Enrolled(k) && Matches(k, a, c) && P.ResponderRunOk(a)
    ensures FollowsWhen(k, P.ServeStep(a, answer), ServeRun(k, c, answer),
                        a.rrun.Serving? ==> ServeAllowed(k, a, answer))
  {
    if !a.rrun.Serving? {
      assert !c.rrun.Answering?;
    } else if a.rrun.active.Some? {
      ServeActiveFollows(k, a, c, answer);
    } else if a.rrun.pending.None? {
      ServeGrantedFollows(k, a, c, answer);
    } else if a.rrun.reconnect {
      ServePendingFollows(k, a, c, answer);
    } else {
      ServeResumedFollows(k, a, c, answer);
    }
  }

  /** There is nothing to receive, or only an acknowledgement that nothing was sent for. */
  lemma NothingReceived(k: Peers, a: P.Plan, c: World, local: Option<Bytes>)
    requires InitiatorMatches(k, a.issued, a.irun, c.irun)
    requires a.irun.Asking? && a.irun.inbox != [] ==> a.irun.inbox[0].Done?
    ensures P.ReceiveStep(a, local).Err? && ReceiveRun(k, c, local).Err?
  {
    if a.irun.Asking? && a.irun.inbox != [] {
      InboxShrinks(k, a.issued, a.irun.inbox, c.irun.inbox);
    }
  }

  lemma ReceiveOfferFollows(k: Peers, a: P.Plan, c: World, local: Option<Bytes>)
    requires Enrolled(k) && Matches(k, a, c) && P.MayFind(a.i.pending, local)
    requires a.irun.Asking? && a.irun.inbox != [] && a.irun.inbox[0].Offer?
    ensures FollowsWhen(k, P.ReceiveStep(a, local), ReceiveRun(k, c, local), ReceiveAllowed(k, a, local))
  {
    if local.Some? {
      ReceiveLocalFollows(k, a, c, local);
    } else {
      ReceiveCoSignedFollows(k, a, c, local);
    }
  }

  lemma ReceiveFollows(k: Peers, a: P.Plan, c: World, local: Option<Bytes>)
    requires Enrolled(k) && Matches(k, a, c) && P.MayFind(a.i.pending, local)
    ensures FollowsWhen(k, P.ReceiveStep(a, local), ReceiveRun(k, c, local), ReceiveAllowed(k, a, local))
  {
    if !a.irun.Asking? || a.irun.inbox == [] || a.irun.inbox[0].Done? {
      NothingReceived(k, a, c, local);
    } else if a.irun.inbox[0].Whole? {
      ReceiveWholeFollows(k, a, c, local);
    } else {
      ReceiveOfferFollows(k, a, c, local);
    }
  }

  /** The responder can only settle on a whole record. */
  lemma SettleNeedsWhole(k: Peers, issued: Issued, plan: P.ResponderRun, run: ResponderRun)
    requires ResponderMatches(k, issued, plan, run)
    requires run.Awaiting? && run.inbox != [] && run.inbox[0].Complete?
    ensures plan.Expecting? && plan.inbox != [] && plan.inbox[0].Whole?
  {
    InboxShrinks(k, issued, plan.inbox, run.inbox);
  }

  lemma FinishNeedsDone(k: Peers, issued: Issued, plan: P.InitiatorRun, run: InitiatorRun)
    requires InitiatorMatches(k, issued, plan, run)
    requires run.Confirming? && run.inbox != [] && run.inbox[0].Finalized?
    ensures plan.Waiting? && plan.inbox != [] && plan.inbox[0].Done?
  {
    InboxShrinks(k, issued, plan.inbox, run.inbox);
  }

  lemma NothingSettled(k: Peers, a: P.Plan, c: World)
    requires ResponderMatches(k, a.issued, a.rrun, c.rrun)
    requires !(a.rrun.Expecting? && a.rrun.inbox != [] && a.rrun.inbox[0].Whole?)
    ensures P.SettleStep(a).Err? && SettleRun(k, c).Err?
  {
    if c.rrun.Awaiting? && c.rrun.inbox != [] && c.rrun.inbox[0].Complete? {
      SettleNeedsWhole(k, a.issued, a.rrun, c.rrun);
    }
  }

  lemma SettlingFollows(k: Peers, a: P.Plan, c: World)
    requires Enrolled(k) && Matches(k, a, c)
    ensures FollowsWhen(k, P.SettleStep(a), SettleRun(k, c), SettleAllowed(k, a))
  {
    if a.rrun.Expecting? && a.rrun.inbox != [] && a.rrun.inbox[0].Whole? {
      SettleFollows(k, a, c);
    } else {
      NothingSettled(k, a, c);
    }
  }

  lemma NothingFinished(k: Peers, a: P.Plan, c: World)
    requires InitiatorMatches(k, a.issued, a.irun, c.irun)
    requires !(a.irun.Waiting? && a.irun.inbox != [] && a.irun.inbox[0].Done?)
    ensures P.FinishStep(a, {}).Err? && FinishRun(k, c).Err?
  {
    if c.irun.Confirming? && c.irun.inbox != [] && c.irun.inbox[0].Finalized? {
      FinishNeedsDone(k, a.issued, a.irun, c.irun);
    }
  }

  lemma FinishingFollows(k: Peers, a: P.Plan, c: World)
    requires Enrolled(k) && Matches(k, a, c)
    ensures FollowsWhen(k, P.FinishStep(a, {}), FinishRun(k, c), true)
  {
    if a.irun.Waiting? && a.irun.inbox != [] && a.irun.inbox[0].Done? {
      FinishFollows(k, a, c);
    } else {
      NothingFinished(k, a, c);
    }
  }

  /** A sweep cut short follows the plan's. */
  lemma CutFollows(k: Peers, a: P.Plan, c: World, x: P.Action)
    requires Enrolled(k) && Matches(k, a, c) && P.Permits(a, x) && !Q.Sweeps(x)
    ensures Follows(k, P.Next(a, x), Next(k, c, x))
  {
    if x.CutSettle? && c.rrun.Awaiting? && c.rrun.inbox != [] && c.rrun.inbox[0].Complete? {
      SettleNeedsWhole(k, a.issued, a.rrun, c.rrun);
      CutSettleFollows(k, a, c, x.left);
    }
    if x.CutFinish? && c.irun.Confirming? && c.irun.inbox != [] && c.irun.inbox[0].Finalized? {
      FinishNeedsDone(k, a.issued, a.irun, c.irun);
      CutFinishFollows(k, a, c, x.left);
    }
  }

  lemma OpeningFollows(k: Peers, a: P.Plan, c: World, x: P.Action)
    requires Enrolled(k) && Matches(k, a, c) && P.Permits(a, x) && (x.Start? || x.Meet?)
    requires x.Start? ==> LowerHex32(x.freshId)
    ensures FollowsWhen(k, P.Next(a, x), Next(k, c, x), StepAllowed(k, a, x))
  {
    match x
    case Start(now, active, pending, recovery, freshId, staticKey) =>
      StartFollows(k, a, c, now, active, pending, recovery, freshId, staticKey);
    case Meet(now, active, pending, recovery, staticKey, hash, binding) =>
      if a.irun.Started? {
        MeetFollows(k, a, c, now, active, pending, recovery, staticKey, hash, binding);
      }
  }

  lemma RevocationFollows(k: Peers, a: P.Plan, c: World, x: P.Action)
    requires Enrolled(k) && Matches(k, a, c) && (x.RevokeAtInitiator? || x.RevokeAtResponder?)
    ensures FollowsWhen(k, P.Next(a, x), Next(k, c, x), true)
  {
    match x
    case RevokeAtInitiator(now, id) => RevokeFollows(k, a.issued, a.i, true, c.i, now, id);
    case RevokeAtResponder(now, id) => RevokeFollows(k, a.issued, a.r, false, c.r, now, id);
  }

  /** The devices take a step if and only if the plan takes it and it is allowed, and they still correspond. */
  lemma NextExactly(k: Peers, a: P.Plan, c: World, x: P.Action)
    requires Enrolled(k) && Matches(k, a, c) && P.ResponderRunOk(a) && P.Permits(a, x) && Q.Sweeps(x)
    requires x.Start? ==> LowerHex32(x.freshId)
    ensures FollowsWhen(k, P.Next(a, x), Next(k, c, x), StepAllowed(k, a, x))
  {
    match x
    case Start(_, _, _, _, _, _) => OpeningFollows(k, a, c, x);
    case Meet(_, _, _, _, _, _, _) => OpeningFollows(k, a, c, x);
    case Serve(answer) => ServeFollows(k, a, c, answer);
    case Receive(local) => ReceiveFollows(k, a, c, local);
    case Settle => SettlingFollows(k, a, c);
    case Finish => FinishingFollows(k, a, c);
    case DropInitiator =>
    case DropResponder =>
    case RevokeAtInitiator(_, _) => RevocationFollows(k, a, c, x);
    case RevokeAtResponder(_, _) => RevocationFollows(k, a, c, x);
  }

  /** Every step of the devices is the plan's step. */
  lemma NextFollows(k: Peers, a: P.Plan, c: World, x: P.Action)
    requires Enrolled(k) && Matches(k, a, c) && P.ResponderRunOk(a) && P.Permits(a, x)
    requires x.Start? ==> LowerHex32(x.freshId)
    ensures Follows(k, P.Next(a, x), Next(k, c, x))
  {
    if Q.Sweeps(x) {
      NextExactly(k, a, c, x);
    } else {
      CutFollows(k, a, c, x);
    }
  }

  /** One permitted step of the devices, and the plan's. */
  ghost predicate Steps(k: Peers, c: World, x: P.Action, after: World) {
    Permits(k, c, x) && Next(k, c, x) == Ok(after)
  }

  lemma StepFollows(k: Peers, a: P.Plan, c: World, x: P.Action, after: World) returns (b: P.Plan)
    requires Enrolled(k) && P.ResponderRunOk(a) && Matches(k, a, c) && Steps(k, c, x, after)
    ensures P.Permits(a, x) && P.Next(a, x) == Ok(b) && Matches(k, b, after)
  {
    PermitsFollow(k, a, c, x);
    NextFollows(k, a, c, x);
    b := P.Next(a, x).value;
  }

  lemma PlanAdvances(a: P.Plan, x: P.Action, b: P.Plan)
    requires P.Inv(a) && P.Permits(a, x) && P.Next(a, x) == Ok(b)
    ensures P.Inv(b)
    ensures Q.Clean(a) && Q.Sweeps(x) ==> Q.Clean(b)
  {
    P.NextKeepsInv(a, x, b);
    if Q.Clean(a) && Q.Sweeps(x) {
      Q.NextKeepsClean(a, x, b);
    }
  }

  // ---- Runs ----

  ghost predicate Run(k: Peers, worlds: seq<World>, actions: seq<P.Action>) {
    && Enrolled(k)
    && |worlds| == |actions| + 1
    && worlds[0] == EMPTY_WORLD
    && forall j :: 0 <= j < |actions| ==> Steps(k, worlds[j], actions[j], worlds[j + 1])
  }

  /** Every sweep up to state i ran to its end. */
  predicate SweepsComplete(actions: seq<P.Action>, i: nat)
    requires i <= |actions|
  {
    forall j :: 0 <= j < i ==> Q.Sweeps(actions[j])
  }

  lemma EmptyMatches(k: Peers)
    ensures Matches(k, P.EMPTY_PLAN, EMPTY_WORLD)
  {
  }

  /** The world corresponds to a plan that keeps the invariant, and that has no leftovers if so claimed. */
  ghost predicate Explains(k: Peers, a: P.Plan, c: World, clean: bool) {
    P.Inv(a) && Matches(k, a, c) && (clean ==> Q.Clean(a))
  }

  lemma ExplainedStep(k: Peers, a: P.Plan, c: World, x: P.Action, after: World, clean: bool) returns (b: P.Plan)
    requires Enrolled(k) && Explains(k, a, c, clean) && Steps(k, c, x, after)
    ensures Explains(k, b, after, clean && Q.Sweeps(x))
    ensures P.Permits(a, x) && P.Next(a, x) == Ok(b)
  {
    b := StepFollows(k, a, c, x, after);
    PlanAdvances(a, x, b);
  }

  /** Every reachable state is explained by a plan. */
  lemma {:induction false} RunIsExplained(k: Peers, worlds: seq<World>, actions: seq<P.Action>, i: nat) returns (a: P.Plan)
    requires Run(k, worlds, actions) && i < |worlds|
    ensures Explains(k, a, worlds[i], SweepsComplete(actions, i))
  {
    if i == 0 {
      a := P.EMPTY_PLAN;
      P.EmptyPlanInv();
      EmptyMatches(k);
    } else {
      var clean := SweepsComplete(actions, i - 1);
      var before := RunIsExplained(k, worlds, actions, i - 1);
      a := ExplainedStep(k, before, worlds[i - 1], actions[i - 1], worlds[i], clean);
    }
  }
}
