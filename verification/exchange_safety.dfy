/** What holds of the two devices' stores in every state of every run. */
module ExchangeSafety {
  import opened Octets
  import opened Records
  import opened Stores
  import opened Exchanges
  import opened ExchangeRecords
  import opened ExchangeRefinement
  import opened ExchangeRuns
  import P = ExchangePlans
  import Q = PlanConvergence

  // ---- Agreement ----

  /** The record is filed as active or revoked, exactly as it is. */
  predicate HeldBy(st: Store, id: Bytes, r: PairingRecord) {
    (id in st.active && st.active[id] == r) || (id in st.revoked && st.revoked[id] == r)
  }

  /** Whatever the initiator has activated, the responder has activated too: the same record, both signatures included. */
  ghost predicate ActiveAgrees(c: World) {
    forall id :: id in c.i.active ==> HeldBy(c.r, id, c.i.active[id])
  }

  /** What the initiator is waiting to activate is complete, and is what the responder issued under that PairID. */
  ghost predicate PendingAgrees(c: World) {
    forall id :: id in c.i.pending ==>
      && c.i.pending[id].IsComplete()
      && ((id in c.r.pending && Unsigned(c.r.pending[id]) == Unsigned(c.i.pending[id]))
          || HeldBy(c.r, id, c.i.pending[id]))
  }

  lemma PapersAgree(k: Peers, issued: Issued, id: Bytes, half: PairingRecord, full: PairingRecord)
    requires Enrolled(k) && IssuesSealed(k, issued)
    requires PaperMatches(k, issued, id, false, half) && PaperMatches(k, issued, id, true, full)
    ensures Unsigned(half) == Unsigned(full) && full.IsComplete()
  {
    assert Sealed(k, id, issued[id]);
    FullIsSigned(k, id, issued[id]);
  }

  lemma PlanImpliesActiveAgrees(k: Peers, a: P.Plan, c: World)
    requires P.StoresAgree(a) && Matches(k, a, c)
    ensures ActiveAgrees(c)
  {
    forall id | id in c.i.active
      ensures HeldBy(c.r, id, c.i.active[id])
    {
      assert PaperMatches(k, a.issued, id, true, c.i.active[id]);
      assert id in a.i.active + a.i.revoked;
      assert id in a.r.active || id in a.r.revoked;
    }
  }

  lemma PlanImpliesPendingAgrees(k: Peers, a: P.Plan, c: World)
    requires Enrolled(k) && P.StoresAgree(a) && Matches(k, a, c)
    ensures PendingAgrees(c)
  {
    forall id | id in c.i.pending
      ensures c.i.pending[id].IsComplete()
      ensures || (id in c.r.pending && Unsigned(c.r.pending[id]) == Unsigned(c.i.pending[id]))
              || HeldBy(c.r, id, c.i.pending[id])
    {
      var full := c.i.pending[id];
      assert PaperMatches(k, a.issued, id, true, full);
      PaperNames(k, a.issued, id, true, full);
      assert id in a.r.All();
      if id in a.r.pending {
        PapersAgree(k, a.issued, id, c.r.pending[id], full);
      }
    }
  }

  /**
   Agreement: in every state of every run, with sessions cut anywhere, retried, crashed in mid-sweep and
   revoked at will, both claims hold.
   */
  lemma Agreement(k: Peers, worlds: seq<World>, actions: seq<P.Action>, i: nat)
    requires Run(k, worlds, actions) && i < |worlds|
    ensures ActiveAgrees(worlds[i]) && PendingAgrees(worlds[i])
  {
    var a := RunIsExplained(k, worlds, actions, i);
    PlanImpliesActiveAgrees(k, a, worlds[i]);
    PlanImpliesPendingAgrees(k, a, worlds[i]);
  }

  // ---- Single approval ----

  /** The user's decision a record rests on. */
  function GrantOf(r: PairingRecord): P.Grant {
    P.Grant(r.userPresence, r.authorizedAt)
  }

  predicate AllGranted(d: Directory, grants: seq<P.Grant>) {
    forall id :: id in d ==> GrantOf(d[id]) in grants
  }

  lemma PaperIsGranted(k: Peers, a: P.Plan, id: Bytes, full: bool, r: PairingRecord)
    requires Enrolled(k) && P.IssuesGranted(a) && IssuesSealed(k, a.issued) && PaperMatches(k, a.issued, id, full, r)
    ensures GrantOf(r) in a.grants
  {
    assert Sealed(k, id, a.issued[id]);
    FullIsSigned(k, id, a.issued[id]);
    assert Unsigned(r) == Blank(k, id, a.issued[id]);
    assert P.Granted(a, a.issued[id]);
  }

  lemma FilesAreGranted(k: Peers, a: P.Plan, ids: set<Bytes>, full: bool, d: Directory)
    requires Enrolled(k) && P.IssuesGranted(a) && IssuesSealed(k, a.issued) && Files(k, a.issued, ids, full, d)
    ensures AllGranted(d, a.grants)
  {
    forall id | id in d
      ensures GrantOf(d[id]) in a.grants
    {
      PaperIsGranted(k, a, id, full, d[id]);
    }
  }

  /**
   Single approval: the broker grants that ever reached a record number at most the responder's revocations,
   plus one while it holds a pending or active record; and every record on either device, through any chain
   of resumptions, carries the marker and the time of one of those grants.
   */
  lemma SingleApproval(k: Peers, worlds: seq<World>, actions: seq<P.Action>, i: nat)
    requires Run(k, worlds, actions) && i < |worlds|
    ensures var c := worlds[i];
            && |c.grants| <= |c.r.revoked.Keys| + (if c.r.pending.Keys + c.r.active.Keys != {} then 1 else 0)
            && AllGranted(c.i.pending, c.grants) && AllGranted(c.i.active, c.grants) && AllGranted(c.i.revoked, c.grants)
            && AllGranted(c.r.pending, c.grants) && AllGranted(c.r.active, c.grants) && AllGranted(c.r.revoked, c.grants)
  {
    var a := RunIsExplained(k, worlds, actions, i);
    var c := worlds[i];
    FilesAreGranted(k, a, a.i.pending, true, c.i.pending);
    FilesAreGranted(k, a, a.i.active, true, c.i.active);
    FilesAreGranted(k, a, a.i.revoked, true, c.i.revoked);
    FilesAreGranted(k, a, a.r.pending, false, c.r.pending);
    FilesAreGranted(k, a, a.r.active, true, c.r.active);
    FilesAreGranted(k, a, a.r.revoked, true, c.r.revoked);
  }

  // ---- Phases ----

  /** How far the pairing has come: nothing, pending, co-signed, active at the responder, active at both. */
  function Phase(c: World): nat {
    if c.r.active.Keys != {} && c.i.active.Keys != {} then 4
    else if c.r.active.Keys != {} then 3
    else if c.i.pending.Keys != {} then 2
    else if c.r.pending.Keys != {} then 1
    else 0
  }

  predicate NothingRevoked(c: World) {
    c.i.revoked.Keys == {} && c.r.revoked.Keys == {}
  }

  lemma PhaseOfPlan(k: Peers, a: P.Plan, c: World)
    requires Matches(k, a, c)
    ensures Phase(c) == Q.Phase(a)
    ensures NothingRevoked(c) <==> a.i.revoked == {} && a.r.revoked == {}
  {
  }

  lemma StepAdvances(k: Peers, a: P.Plan, c: World, x: P.Action, after: World, clean: bool)
    requires Enrolled(k) && Explains(k, a, c, clean) && Steps(k, c, x, after) && NothingRevoked(after)
    ensures Phase(c) <= Phase(after) && NothingRevoked(c)
  {
    var b := ExplainedStep(k, a, c, x, after, clean);
    PhaseOfPlan(k, a, c);
    PhaseOfPlan(k, b, after);
    Q.PhaseNeverRegresses(a, x, b);
    Q.NothingUnrevoked(a, x, b);
  }

  /** Phases never go back, however often runs are cut and retried, until something has been revoked. */
  lemma {:induction false} PhasesNeverRegress(k: Peers, worlds: seq<World>, actions: seq<P.Action>, i: nat, j: nat)
    requires Run(k, worlds, actions) && i <= j < |worlds| && NothingRevoked(worlds[j])
    ensures Phase(worlds[i]) <= Phase(worlds[j])
  {
    if i < j {
      var a := RunIsExplained(k, worlds, actions, j - 1);
      StepAdvances(k, a, worlds[j - 1], actions[j - 1], worlds[j], SweepsComplete(actions, j - 1));
      PhasesNeverRegress(k, worlds, actions, i, j - 1);
    }
  }
}
