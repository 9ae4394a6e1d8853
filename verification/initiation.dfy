/** Which device initiates, and when the daemon starts an attempt on its own. */
module Initiation {
  import opened Octets
  import opened Exchanges
  import opened ExchangeRefinement
  import opened ExchangeRuns
  import opened ExchangeLiveness
  import P = ExchangePlans
  import Q = PlanConvergence

  /** The byte-wise order of strings. */
  predicate Lower(a: Bytes, b: Bytes) {
    |b| > 0 && (|a| == 0 || a[0] < b[0] || (a[0] == b[0] && Lower(a[1..], b[1..])))
  }

  /** Of two different devices exactly one owns initiation, so they never race each other. */
  lemma {:induction false} ExactlyOneInitiates(a: Bytes, b: Bytes)
    requires a != b
    ensures Lower(a, b) <==> !Lower(b, a)
  {
    if |a| > 0 && |b| > 0 && a[0] == b[0] {
      assert a == [a[0]] + a[1..] && b == [b[0]] + b[1..];
      ExactlyOneInitiates(a[1..], b[1..]);
    }
  }

  /** A discovered peer triggers an attempt: not for a healthy active pair, and only at the lower DeviceID. */
  predicate Initiates(local: Bytes, peer: Bytes, active: Option<Bytes>, pending: Option<Bytes>) {
    !(active.Some? && pending.None?) && Lower(local, peer)
  }

  /**
   From a ready state the daemon keeps trying exactly until the pairing is complete.  From any state it stops
   trying once it is active itself, even if the other device has revoked.
   */
  lemma InitiatesUntilConverged(k: Peers, worlds: seq<World>, actions: seq<P.Action>, i: nat, now: u64,
                                active: Option<Bytes>, pending: Option<Bytes>)
    requires Run(k, worlds, actions) && i < |worlds| && SweepsComplete(actions, i)
    requires MayBeActive(k, now, worlds[i].i, active) && MayComeBack(k, now, worlds[i].i, pending)
    requires Lower(k.InitiatorId(), k.ResponderId())
    ensures Initiates(k.InitiatorId(), k.ResponderId(), active, pending) <==> worlds[i].i.active.Keys == {}
    ensures Ready(worlds[i]) ==>
              (Initiates(k.InitiatorId(), k.ResponderId(), active, pending) <==> !Converged(worlds[i]))
  {
    var c := worlds[i];
    var a := RunIsExplained(k, worlds, actions, i);
    ActiveSearch(k, a.issued, a.i.active, c.i, now, active);
    PendingSearch(k, a.issued, a.i.pending, true, c.i, now, pending);
    if c.i.active.Keys != {} && Ready(c) {
      ReadyTogether(k, a, c);
      ReadyActiveIsConverged(a);
      ConvergedTogether(k, a, c);
    }
  }

  lemma ReadyActiveIsConverged(a: P.Plan)
    requires P.StoresAgree(a) && Q.Clean(a) && Q.Ready(a) && a.i.active != {}
    ensures Q.Converged(a)
  {
    var id :| P.Within(a, id);
    var p :| p in a.i.active;
    var q :| q in a.r.active;
    assert p == id && q == id;
    assert a.i.active == {id} && a.r.active == {id};
  }
}
