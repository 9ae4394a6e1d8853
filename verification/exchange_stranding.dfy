/**
 A pairing that can never be completed again: the responder activates, the acknowledgement is lost, and the
 responder revokes.  The initiator's co-signed record then blocks every later attempt.
 */
module ExchangeStranding {
  import opened Octets
  import opened Cursors
  import opened Records
  import opened Stores
  import opened Exchanges
  import opened ExchangeRecords
  import opened ExchangeRefinement
  import opened ExchangeSteps
  import opened ExchangeRuns
  import opened ExchangeLiveness
  import P = ExchangePlans
  import Q = PlanConvergence

  /** The initiator holds a record the responder has revoked, and the responder holds nothing else. */
  predicate Stranded(c: World, id: Bytes) {
    && c.i.pending.Keys == {id} && c.r.pending.Keys == {} && c.r.active.Keys == {} && id in c.r.revoked
    && (c.irun.Idle? || (c.irun.Opening? && c.irun.reconnect)) && c.rrun.Free?
  }

  predicate StrandedPlan(a: P.Plan, id: Bytes) {
    && a.i.pending == {id} && a.r.pending == {} && a.r.active == {} && id in a.r.revoked
    && (a.irun.Resting? || (a.irun.Started? && a.irun.reconnect)) && a.rrun.Listening?
  }

  lemma NextKeepsStranded(a: P.Plan, x: P.Action, b: P.Plan, id: Bytes)
    requires P.Permits(a, x) && P.Next(a, x) == Ok(b) && StrandedPlan(a, id)
    ensures StrandedPlan(b, id)
  {
  }

  lemma SameKeys(k: Peers, a: P.Plan, c: World)
    requires Matches(k, a, c)
    ensures c.i.pending.Keys == a.i.pending && c.r.pending.Keys == a.r.pending
    ensures c.r.active.Keys == a.r.active && c.r.revoked.Keys == a.r.revoked
    ensures c.irun.Idle? <==> a.irun.Resting?
    ensures c.irun.Opening? <==> a.irun.Started?
    ensures c.irun.Opening? ==> c.irun.reconnect == a.irun.reconnect
    ensures c.rrun.Free? <==> a.rrun.Listening?
  {
  }

  lemma StrandedTogether(k: Peers, a: P.Plan, c: World, id: Bytes)
    requires Matches(k, a, c)
    ensures Stranded(c, id) <==> StrandedPlan(a, id)
  {
    SameKeys(k, a, c);
  }

  lemma StepKeepsStranded(k: Peers, a: P.Plan, c: World, x: P.Action, after: World, id: Bytes, clean: bool)
    requires Enrolled(k) && Explains(k, a, c, clean) && Steps(k, c, x, after) && Stranded(c, id)
    ensures Stranded(after, id)
  {
    var b := ExplainedStep(k, a, c, x, after, clean);
    StrandedTogether(k, a, c, id);
    StrandedTogether(k, b, after, id);
    NextKeepsStranded(a, x, b, id);
  }

  lemma StrandedStep(k: Peers, worlds: seq<World>, actions: seq<P.Action>, j: nat, id: Bytes)
    requires Run(k, worlds, actions) && j < |actions| && Stranded(worlds[j], id)
    ensures Stranded(worlds[j + 1], id)
  {
    var a := RunIsExplained(k, worlds, actions, j);
    StepKeepsStranded(k, a, worlds[j], actions[j], worlds[j + 1], id, SweepsComplete(actions, j));
  }

  lemma StrandedIsUnready(c: World, id: Bytes)
    requires Stranded(c, id)
    ensures !Ready(c) && !Converged(c)
  {
    assert id in c.i.pending.Keys;
  }

  /** Once stranded, always stranded: whatever is tried afterwards, the pairing is never completed. */
  lemma {:induction false} StrandedForever(k: Peers, worlds: seq<World>, actions: seq<P.Action>, i: nat, j: nat, id: Bytes)
    requires Run(k, worlds, actions) && i <= j < |worlds| && Stranded(worlds[i], id)
    ensures Stranded(worlds[j], id) && !Ready(worlds[j]) && !Converged(worlds[j])
  {
    if i < j {
      StrandedForever(k, worlds, actions, i, j - 1, id);
      StrandedStep(k, worlds, actions, j - 1, id);
    }
    StrandedIsUnready(worlds[j], id);
  }

  // ---- Such a state is reachable ----

  lemma PermitsBack(k: Peers, a: P.Plan, c: World, x: P.Action)
    requires Enrolled(k) && Matches(k, a, c) && P.Permits(a, x)
    requires x.Start? ==> LowerHex32(x.freshId)
    requires x.Meet? ==> x.pending.None?
    requires x.Receive? ==> a.irun.Asking?
    ensures Permits(k, c, x)
  {
    match x
    case Start(now, active, pending, recovery, _, _) =>
      ActiveSearch(k, a.issued, a.i.active, c.i, now, active);
      PendingSearch(k, a.issued, a.i.pending, true, c.i, now, pending);
      PendingSearch(k, a.issued, a.i.pending, true, c.i, now, Some(recovery));
    case Meet(now, active, pending, _, _, _, _) =>
      ActiveSearch(k, a.issued, a.r.active, c.r, now, active);
      PendingSearch(k, a.issued, a.r.pending, false, c.r, now, pending);
    case Receive(local) => PendingSearch(k, a.issued, a.i.pending, true, c.i, c.irun.now, local);
    case _ =>
  }

  /** A run and the plan that explains its last state. */
  ghost predicate Explained(k: Peers, worlds: seq<World>, actions: seq<P.Action>, a: P.Plan) {
    && Run(k, worlds, actions) && P.Inv(a) && Matches(k, a, worlds[|actions|])
  }

  /** A sequence of steps with one more at its end. */
  lemma AppendStep<W, A>(step: (W, A, W) -> bool, worlds: seq<W>, actions: seq<A>, x: A, after: W)
    requires |worlds| == |actions| + 1 && step(worlds[|actions|], x, after)
    requires forall j :: 0 <= j < |actions| ==> step(worlds[j], actions[j], worlds[j + 1])
    ensures var ws, xs := worlds + [after], actions + [x];
            |ws| == |xs| + 1 && ws[0] == worlds[0] && forall j :: 0 <= j < |xs| ==> step(ws[j], xs[j], ws[j + 1])
  {
    var ws, xs := worlds + [after], actions + [x];
    forall j | 0 <= j < |xs|
      ensures step(ws[j], xs[j], ws[j + 1])
    {
      if j < |actions| {
        assert ws[j] == worlds[j] && ws[j + 1] == worlds[j + 1] && xs[j] == actions[j];
      } else {
        assert ws[j] == worlds[|actions|] && ws[j + 1] == after && xs[j] == x;
      }
    }
  }

  lemma Appended(k: Peers, worlds: seq<World>, actions: seq<P.Action>, x: P.Action, after: World)
    requires Run(k, worlds, actions) && Steps(k, worlds[|actions|], x, after)
    ensures Run(k, worlds + [after], actions + [x])
  {
    var step := (c, y, d) => Steps(k, c, y, d);
    assert forall j :: 0 <= j < |actions| ==> step(worlds[j], actions[j], worlds[j + 1]);
    AppendStep(step, worlds, actions, x, after);
    var ws, xs := worlds + [after], actions + [x];
    forall j | 0 <= j < |xs|
      ensures Steps(k, ws[j], xs[j], ws[j + 1])
    {
      assert step(ws[j], xs[j], ws[j + 1]);
    }
  }

  lemma ExtendAllowed(k: Peers, worlds: seq<World>, actions: seq<P.Action>, a: P.Plan, x: P.Action, b: P.Plan)
    returns (ws: seq<World>, xs: seq<P.Action>)
    requires Explained(k, worlds, actions, a) && P.Permits(a, x) && P.Next(a, x) == Ok(b)
    requires StepAllowed(k, a, x) && Q.Sweeps(x) && (x.Start? ==> LowerHex32(x.freshId))
    requires x.Meet? ==> x.pending.None?
    requires x.Receive? ==> a.irun.Asking?
    ensures Explained(k, ws, xs, b) && |xs| == |actions| + 1
  {
    var c := worlds[|actions|];
    PermitsBack(k, a, c, x);
    NextExactly(k, a, c, x);
    var after := Next(k, c, x).value;
    P.NextKeepsInv(a, x, b);
    Appended(k, worlds, actions, x, after);
    ws, xs := worlds + [after], actions + [x];
  }

  lemma ExtendDrop(k: Peers, worlds: seq<World>, actions: seq<P.Action>, a: P.Plan)
    returns (ws: seq<World>, xs: seq<P.Action>)
    requires Explained(k, worlds, actions, a)
    ensures Explained(k, ws, xs, a.(irun := P.Resting)) && |xs| == |actions| + 1
  {
    var c := worlds[|actions|];
    var after := c.(irun := Idle);
    P.NextKeepsInv(a, P.DropInitiator, a.(irun := P.Resting));
    Appended(k, worlds, actions, P.DropInitiator, after);
    ws, xs := worlds + [after], actions + [P.DropInitiator];
  }

  lemma RevokedTogether(k: Peers, a: P.Plan, c: World, now: u64, id: Bytes)
    requires Enrolled(k) && Matches(k, a, c) && P.RevokeStep(a.r, id).Ok?
    ensures Revoke(k.At(now), c.r, id).Ok?
    ensures Matches(k, a.(r := P.RevokeStep(a.r, id).value), c.(r := Revoke(k.At(now), c.r, id).value))
  {
    RevokeFollows(k, a.issued, a.r, false, c.r, now, id);
  }

  lemma ExtendRevoke(k: Peers, worlds: seq<World>, actions: seq<P.Action>, a: P.Plan, now: u64, id: Bytes)
    returns (ws: seq<World>, xs: seq<P.Action>)
    requires Explained(k, worlds, actions, a) && P.RevokeStep(a.r, id).Ok?
    ensures Explained(k, ws, xs, a.(r := P.RevokeStep(a.r, id).value)) && |xs| == |actions| + 1
  {
    var c, x, b := worlds[|actions|], P.RevokeAtResponder(now, id), a.(r := P.RevokeStep(a.r, id).value);
    RevokedTogether(k, a, c, now, id);
    var after := c.(r := Revoke(k.At(now), c.r, id).value);
    assert P.Next(a, x) == Ok(b);
    P.NextKeepsInv(a, x, b);
    assert Steps(k, c, x, after);
    Appended(k, worlds, actions, x, after);
    ws, xs := worlds + [after], actions + [x];
  }

  /** Valid certificates and a user who agrees are all it takes. */
  predicate Possible(k: Peers, now: u64, id: Bytes, marker: Text) {
    InBoth(k, now) && now != 0 && LowerHex32(id) && Bounded(marker, MAX_MARKER_BYTES) && PlainMarker(marker)
  }

  // The plans of an undisturbed first contact, one after each step.

  function PlanOpened(now: u64, id: Bytes, s: Bytes32): P.Plan {
    P.EMPTY_PLAN.(irun := P.Started(now, false, id, s), usedIds := {id})
  }

  function PlanMet(now: u64, id: Bytes, b: Bytes32): P.Plan {
    P.Plan(P.EMPTY_SIDE, P.EMPTY_SIDE, P.Asking(now, false, id, b, []), P.Serving(now, false, id, b, None, None),
           map[], {id}, {b}, [])
  }

  function PlanOffered(now: u64, id: Bytes, marker: Text, b: Bytes32): P.Plan {
    P.Plan(P.EMPTY_SIDE, P.Side({id}, {}, {}),
           P.Asking(now, false, id, b, [P.Offer(id)]), P.Expecting(now, id, b, []),
           map[id := P.Issue(b, marker, now)], {id}, {b}, [P.Grant(marker, now)])
  }

  function PlanAnswered(now: u64, id: Bytes, marker: Text, b: Bytes32): P.Plan {
    P.Plan(P.Side({id}, {}, {}), P.Side({id}, {}, {}),
           P.Waiting(now, id, b, id, []), P.Expecting(now, id, b, [P.Whole(id)]),
           map[id := P.Issue(b, marker, now)], {id}, {b}, [P.Grant(marker, now)])
  }

  function PlanActivated(now: u64, id: Bytes, marker: Text, b: Bytes32): P.Plan {
    P.Plan(P.Side({id}, {}, {}), P.Side({}, {id}, {}),
           P.Waiting(now, id, b, id, [P.Done]), P.Listening,
           map[id := P.Issue(b, marker, now)], {id}, {b}, [P.Grant(marker, now)])
  }

  lemma FirstContactSteps(now: u64, id: Bytes, marker: Text, s: Bytes32, hash: Bytes32, b: Bytes32)
    ensures P.Next(P.EMPTY_PLAN, P.Start(now, None, None, [], id, s)) == Ok(PlanOpened(now, id, s))
    ensures P.Next(PlanOpened(now, id, s), P.Meet(now, None, None, [], s, hash, b)) == Ok(PlanMet(now, id, b))
    ensures P.Next(PlanMet(now, id, b), P.Serve(Some(marker))) == Ok(PlanOffered(now, id, marker, b))
    ensures P.Next(PlanOffered(now, id, marker, b), P.Receive(None)) == Ok(PlanAnswered(now, id, marker, b))
    ensures P.Next(PlanAnswered(now, id, marker, b), P.Settle) == Ok(PlanActivated(now, id, marker, b))
  {
    var none: set<Bytes>, nothing: set<Bytes32> := {}, {};
    var notes: seq<P.Note>, grants: seq<P.Grant>, blank: Issued := [], [], map[];
    assert none + {id} == {id} && nothing + {b} == {b};
    assert notes + [P.Offer(id)] == [P.Offer(id)] && notes + [P.Whole(id)] == [P.Whole(id)] && notes + [P.Done] == [P.Done];
    assert [P.Offer(id)][1..] == [];
    assert grants + [P.Grant(marker, now)] == [P.Grant(marker, now)];
    assert blank[id := P.Issue(b, marker, now)] == map[id := P.Issue(b, marker, now)];
  }

  lemma ReachMet(k: Peers, now: u64, id: Bytes, marker: Text, s: Bytes32, hash: Bytes32)
    returns (ws: seq<World>, xs: seq<P.Action>)
    requires Enrolled(k) && Possible(k, now, id, marker)
    ensures Explained(k, ws, xs, PlanMet(now, id, BindingOf(k, false, id, s, s, hash)))
  {
    var b := BindingOf(k, false, id, s, s, hash);
    FirstContactSteps(now, id, marker, s, hash, b);
    ws, xs := [EMPTY_WORLD], [];
    EmptyMatches(k);
    P.EmptyPlanInv();
    ws, xs := ExtendAllowed(k, ws, xs, P.EMPTY_PLAN, P.Start(now, None, None, [], id, s), PlanOpened(now, id, s));
    ws, xs := ExtendAllowed(k, ws, xs, PlanOpened(now, id, s), P.Meet(now, None, None, [], s, hash, b),
                             PlanMet(now, id, b));
  }

  lemma ReachAnswered(k: Peers, now: u64, id: Bytes, marker: Text, s: Bytes32, hash: Bytes32)
    returns (ws: seq<World>, xs: seq<P.Action>)
    requires Enrolled(k) && Possible(k, now, id, marker)
    ensures Explained(k, ws, xs, PlanAnswered(now, id, marker, BindingOf(k, false, id, s, s, hash)))
  {
    var b := BindingOf(k, false, id, s, s, hash);
    FirstContactSteps(now, id, marker, s, hash, b);
    PlainPaperFits(k, id, P.Issue(b, marker, now));
    ws, xs := ReachMet(k, now, id, marker, s, hash);
    ws, xs := ExtendAllowed(k, ws, xs, PlanMet(now, id, b), P.Serve(Some(marker)), PlanOffered(now, id, marker, b));
    ws, xs := ExtendAllowed(k, ws, xs, PlanOffered(now, id, marker, b), P.Receive(None), PlanAnswered(now, id, marker, b));
  }

  lemma ReachActivated(k: Peers, now: u64, id: Bytes, marker: Text, s: Bytes32, hash: Bytes32)
    returns (ws: seq<World>, xs: seq<P.Action>)
    requires Enrolled(k) && Possible(k, now, id, marker)
    ensures Explained(k, ws, xs, PlanActivated(now, id, marker, BindingOf(k, false, id, s, s, hash)))
  {
    var b := BindingOf(k, false, id, s, s, hash);
    FirstContactSteps(now, id, marker, s, hash, b);
    ws, xs := ReachAnswered(k, now, id, marker, s, hash);
    ws, xs := ExtendAllowed(k, ws, xs, PlanAnswered(now, id, marker, b), P.Settle, PlanActivated(now, id, marker, b));
  }

  /** For every enrolled pair whose certificates are ever valid together, there is a run that strands it. */
  lemma StrandingIsReachable(k: Peers, now: u64, id: Bytes, marker: Text, s: Bytes32, hash: Bytes32)
    returns (ws: seq<World>, xs: seq<P.Action>)
    requires Enrolled(k) && Possible(k, now, id, marker)
    ensures Run(k, ws, xs) && Stranded(ws[|xs|], id)
  {
    var b := BindingOf(k, false, id, s, s, hash);
    var a := PlanActivated(now, id, marker, b);
    ws, xs := ReachActivated(k, now, id, marker, s, hash);
    ws, xs := ExtendDrop(k, ws, xs, a);
    var dropped := a.(irun := P.Resting);
    ws, xs := ExtendRevoke(k, ws, xs, dropped, now, id);
    StrandedTogether(k, dropped.(r := P.RevokeStep(dropped.r, id).value), ws[|xs|], id);
  }
}
