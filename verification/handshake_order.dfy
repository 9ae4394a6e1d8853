/**
 Who has signed and accepted which handshake view, over any interleaving of any number of endpoints.
 An honest key only signs a view through one of these steps; everything else on the wire is arbitrary.
 */
module HandshakeOrder {
  import opened Octets
  import opened Records
  import opened AuthMessages

  datatype HandshakeInfo = HandshakeInfo(hash: Bytes32, remoteStatic: Bytes32)

  /** What matters of an endpoint: its key and role, its fresh static key, and what its Noise handshake gave. */
  datatype Party = Party(key: Bytes32, role: byte, local: Option<Bytes32>, info: Option<HandshakeInfo>, view: Option<View>)

  datatype Event =
    | Proved(n: nat, view: View, key: Bytes32)
    | Attested(n: nat, view: View, key: Bytes32, peerKey: Bytes32)
    | Accepted(n: nat, view: View, key: Bytes32, peerKey: Bytes32)
    | Completed(n: nat, view: View, key: Bytes32, peerKey: Bytes32)

  /** A key's signature over a view in a role. */
  datatype Vow = Vow(key: Bytes32, view: View, role: byte)

  datatype Board = Board(parties: map<nat, Party>, vows: set<Vow>, log: seq<Event>)

  predicate FreshStatic(b: Board, s: Bytes32) {
    forall n :: n in b.parties ==> b.parties[n].local != Some(s)
  }

  /** The view is the endpoint's own: its static key and what it saw of the peer's, in role order. */
  predicate OwnView(p: Party, info: HandshakeInfo, v: View) {
    && p.local.Some?
    && v.hash == info.hash
    && (p.role == ROLE_INITIATOR ==> v.initiatorStatic == p.local.value && v.responderStatic == info.remoteStatic)
    && (p.role == ROLE_RESPONDER ==> v.responderStatic == p.local.value && v.initiatorStatic == info.remoteStatic)
  }

  predicate HasAccepted(b: Board, n: nat) {
    exists i :: 0 <= i < |b.log| && b.log[i].Accepted? && b.log[i].n == n
  }

  // ---- Steps ----

  predicate Opens(b: Board, c: Board, n: nat, p: Party) {
    && n !in b.parties && p.info.None? && p.view.None?
    && (p.role == ROLE_INITIATOR || p.role == ROLE_RESPONDER)
    && (p.local.Some? ==> FreshStatic(b, p.local.value))
    && c == b.(parties := b.parties[n := p])
  }

  predicate TakesStatic(b: Board, c: Board, n: nat, s: Bytes32) {
    && n in b.parties && b.parties[n].local.None? && b.parties[n].info.None? && b.parties[n].view.None?
    && FreshStatic(b, s)
    && c == b.(parties := b.parties[n := b.parties[n].(local := Some(s))])
  }

  predicate Hears(b: Board, c: Board, n: nat, info: HandshakeInfo) {
    && n in b.parties && b.parties[n].info.None? && b.parties[n].view.None?
    && c == b.(parties := b.parties[n := b.parties[n].(info := Some(info))])
  }

  /** A responder finishes Noise and signs its view. */
  predicate Proves(b: Board, c: Board, n: nat, info: HandshakeInfo, v: View) {
    && n in b.parties
    && var p := b.parties[n];
       && p.role == ROLE_RESPONDER && p.info.None? && p.view.None? && OwnView(p, info, v)
       && c == Board(b.parties[n := p.(info := Some(info), view := Some(v))],
                     b.vows + {Vow(p.key, v, ROLE_RESPONDER)},
                     b.log + [Proved(n, v, p.key)])
  }

  /** An initiator verifies the peer's signature on its view, then signs it. */
  predicate Attests(honest: set<Bytes32>, b: Board, c: Board, n: nat, v: View, peerKey: Bytes32) {
    && n in b.parties
    && var p := b.parties[n];
       && p.role == ROLE_INITIATOR && p.info.Some? && p.view.None? && OwnView(p, p.info.value, v)
       && (peerKey in honest ==> Vow(peerKey, v, ROLE_RESPONDER) in b.vows)
       && c == Board(b.parties[n := p.(view := Some(v))],
                     b.vows + {Vow(p.key, v, ROLE_INITIATOR)},
                     b.log + [Attested(n, v, p.key, peerKey)])
  }

  /** A responder verifies the peer's signature on its view. */
  predicate Accepts(honest: set<Bytes32>, b: Board, c: Board, n: nat, peerKey: Bytes32) {
    && n in b.parties
    && var p := b.parties[n];
       && p.role == ROLE_RESPONDER && p.view.Some?
       && (peerKey in honest ==> Vow(peerKey, p.view.value, ROLE_INITIATOR) in b.vows)
       && c == b.(log := b.log + [Accepted(n, p.view.value, p.key, peerKey)])
  }

  /**
   An initiator opens an acknowledgement.  Ideal channel: if the remote static key of its handshake
   belongs to an endpoint that finished the same handshake, only that endpoint can have sealed it.
   */
  predicate Completes(b: Board, c: Board, n: nat, peerKey: Bytes32) {
    && n in b.parties
    && var p := b.parties[n];
       && p.role == ROLE_INITIATOR && p.view.Some?
       && (exists i :: 0 <= i < |b.log| && b.log[i] == Attested(n, p.view.value, p.key, peerKey))
       && (forall m :: m in b.parties && b.parties[m].local == Some(p.view.value.responderStatic)
                       && b.parties[m].info.Some? && b.parties[m].info.value.hash == p.view.value.hash
                       ==> HasAccepted(b, m))
       && c == b.(log := b.log + [Completed(n, p.view.value, p.key, peerKey)])
  }

  ghost predicate Next(honest: set<Bytes32>, b: Board, c: Board) {
    || b == c
    || (exists n, p :: Opens(b, c, n, p))
    || (exists n, s :: TakesStatic(b, c, n, s))
    || (exists n, info :: Hears(b, c, n, info))
    || (exists n, info, v :: Proves(b, c, n, info, v))
    || (exists n, v, peerKey :: Attests(honest, b, c, n, v, peerKey))
    || (exists n, peerKey :: Accepts(honest, b, c, n, peerKey))
    || (exists n, peerKey :: Completes(b, c, n, peerKey))
  }

  // ---- Invariant ----

  predicate StaticsUnique(b: Board) {
    forall n, m ::
      n in b.parties && m in b.parties && b.parties[n].local.Some? && b.parties[n].local == b.parties[m].local
      ==> n == m
  }

  /** A responder's view is its own, and it has signed it. */
  predicate ViewsOwned(b: Board) {
    forall n :: n in b.parties && b.parties[n].view.Some? ==>
      b.parties[n].info.Some? && OwnView(b.parties[n], b.parties[n].info.value, b.parties[n].view.value)
  }

  /** Every logged event is of an endpoint of the right role, about that endpoint's one view. */
  predicate EventOwned(b: Board, x: Event) {
    && x.n in b.parties
    && b.parties[x.n].view == Some(x.view)
    && b.parties[x.n].key == x.key
    && b.parties[x.n].role == (if x.Proved? || x.Accepted? then ROLE_RESPONDER else ROLE_INITIATOR)
  }

  predicate VowLogged(log: seq<Event>, vow: Vow) {
    exists i :: 0 <= i < |log| && log[i].view == vow.view && log[i].key == vow.key
                && KindOf(log[i]) == (if vow.role == ROLE_RESPONDER then Proving else Attesting)
  }

  datatype Kind = Proving | Attesting | Accepting | Completing

  function KindOf(x: Event): Kind {
    match x
    case Proved(_, _, _) => Proving
    case Attested(_, _, _, _) => Attesting
    case Accepted(_, _, _, _) => Accepting
    case Completed(_, _, _, _) => Completing
  }

  /** An event of this kind, by this key, about this view, is logged before index j. */
  predicate Before(log: seq<Event>, j: nat, kind: Kind, v: View, key: Bytes32)
    requires j <= |log|
  {
    exists i :: 0 <= i < j && KindOf(log[i]) == kind && log[i].view == v && log[i].key == key
  }

  lemma BeforeExtends(log: seq<Event>, j: nat, kind: Kind, v: View, key: Bytes32, x: Event)
    requires j <= |log| && Before(log, j, kind, v, key)
    ensures Before(log + [x], j, kind, v, key)
  {
    var i :| 0 <= i < j && KindOf(log[i]) == kind && log[i].view == v && log[i].key == key;
    assert (log + [x])[i] == log[i];
  }

  predicate Justified(honest: set<Bytes32>, log: seq<Event>, j: nat)
    requires j < |log|
  {
    match log[j]
    case Proved(_, _, _) => true
    case Attested(_, v, _, peer) => peer in honest ==> Before(log, j, Proving, v, peer)
    case Accepted(_, v, _, peer) => peer in honest ==> Before(log, j, Attesting, v, peer)
    case Completed(_, v, _, peer) => peer in honest ==> Before(log, j, Accepting, v, peer)
  }

  ghost predicate Inv(honest: set<Bytes32>, b: Board) {
    && StaticsUnique(b)
    && ViewsOwned(b)
    && (forall i :: 0 <= i < |b.log| ==> EventOwned(b, b.log[i]))
    && (forall vow :: vow in b.vows && vow.key in honest ==> VowLogged(b.log, vow))
    && (forall j :: 0 <= j < |b.log| ==> Justified(honest, b.log, j))
  }

  const EMPTY_BOARD: Board := Board(map[], {}, [])

  lemma AppendKeepsJustified(honest: set<Bytes32>, log: seq<Event>, x: Event)
    requires forall j :: 0 <= j < |log| ==> Justified(honest, log, j)
    requires Justified(honest, log + [x], |log|)
    ensures forall j :: 0 <= j < |log| + 1 ==> Justified(honest, log + [x], j)
  {
    var longer := log + [x];
    forall j | 0 <= j < |log|
      ensures Justified(honest, longer, j)
    {
      assert longer[j] == log[j] && Justified(honest, log, j);
      match log[j]
      case Proved(_, _, _) =>
      case Attested(_, v, _, peer) =>
        if peer in honest {
          BeforeExtends(log, j, Proving, v, peer, x);
        }
      case Accepted(_, v, _, peer) =>
        if peer in honest {
          BeforeExtends(log, j, Attesting, v, peer, x);
        }
      case Completed(_, v, _, peer) =>
        if peer in honest {
          BeforeExtends(log, j, Accepting, v, peer, x);
        }
    }
  }

  lemma AppendKeepsVows(log: seq<Event>, x: Event, vow: Vow)
    requires VowLogged(log, vow)
    ensures VowLogged(log + [x], vow)
  {
    var i :| 0 <= i < |log| && log[i].view == vow.view && log[i].key == vow.key
             && KindOf(log[i]) == (if vow.role == ROLE_RESPONDER then Proving else Attesting);
    assert (log + [x])[i] == log[i];
  }

  lemma ProvesKeeps(honest: set<Bytes32>, b: Board, c: Board, n: nat, info: HandshakeInfo, v: View)
    requires Inv(honest, b) && Proves(b, c, n, info, v)
    ensures Inv(honest, c)
  {
    var x := Proved(n, v, b.parties[n].key);
    assert c.log[|b.log|] == x;
    AppendKeepsJustified(honest, b.log, x);
    forall vow | vow in c.vows && vow.key in honest
      ensures VowLogged(c.log, vow)
    {
      if vow in b.vows {
        AppendKeepsVows(b.log, x, vow);
      }
    }
  }

  lemma AttestsKeeps(honest: set<Bytes32>, b: Board, c: Board, n: nat, v: View, peerKey: Bytes32)
    requires Inv(honest, b) && Attests(honest, b, c, n, v, peerKey)
    ensures Inv(honest, c)
  {
    var x := Attested(n, v, b.parties[n].key, peerKey);
    assert c.log[|b.log|] == x;
    if peerKey in honest {
      assert VowLogged(b.log, Vow(peerKey, v, ROLE_RESPONDER));
      var i :| 0 <= i < |b.log| && b.log[i].view == v && b.log[i].key == peerKey && b.log[i].Proved?;
      assert c.log[i] == b.log[i];
      assert Before(c.log, |b.log|, Proving, v, peerKey);
    }
    AppendKeepsJustified(honest, b.log, x);
    forall vow | vow in c.vows && vow.key in honest
      ensures VowLogged(c.log, vow)
    {
      if vow in b.vows {
        AppendKeepsVows(b.log, x, vow);
      }
    }
  }

  lemma AcceptsKeeps(honest: set<Bytes32>, b: Board, c: Board, n: nat, peerKey: Bytes32)
    requires Inv(honest, b) && Accepts(honest, b, c, n, peerKey)
    ensures Inv(honest, c)
  {
    var v := b.parties[n].view.value;
    var x := Accepted(n, v, b.parties[n].key, peerKey);
    assert c.log[|b.log|] == x;
    if peerKey in honest {
      assert VowLogged(b.log, Vow(peerKey, v, ROLE_INITIATOR));
      var i :| 0 <= i < |b.log| && b.log[i].view == v && b.log[i].key == peerKey && b.log[i].Attested?;
      assert c.log[i] == b.log[i];
      assert Before(c.log, |b.log|, Attesting, v, peerKey);
    }
    AppendKeepsJustified(honest, b.log, x);
    forall vow | vow in c.vows && vow.key in honest
      ensures VowLogged(c.log, vow)
    {
      AppendKeepsVows(b.log, x, vow);
    }
  }

  /** The endpoint that owns the remote static key of an attested view is the one that proved it. */
  lemma PeerOfAttested(honest: set<Bytes32>, b: Board, n: nat, v: View, key: Bytes32, peerKey: Bytes32, i: nat)
    returns (m: nat)
    requires Inv(honest, b) && i < |b.log| && b.log[i] == Attested(n, v, key, peerKey) && peerKey in honest
    ensures m in b.parties && b.parties[m].view == Some(v) && b.parties[m].key == peerKey
    ensures b.parties[m].role == ROLE_RESPONDER && b.parties[m].local == Some(v.responderStatic)
    ensures b.parties[m].info.Some? && b.parties[m].info.value.hash == v.hash
  {
    assert Justified(honest, b.log, i);
    var h :| 0 <= h < i && b.log[h].Proved? && b.log[h].view == v && b.log[h].key == peerKey;
    assert EventOwned(b, b.log[h]);
    m := b.log[h].n;
  }

  lemma CompletesKeeps(honest: set<Bytes32>, b: Board, c: Board, n: nat, peerKey: Bytes32)
    requires Inv(honest, b) && Completes(b, c, n, peerKey)
    ensures Inv(honest, c)
  {
    var p := b.parties[n];
    var v := p.view.value;
    var x := Completed(n, v, p.key, peerKey);
    assert c.log[|b.log|] == x;
    if peerKey in honest {
      var i :| 0 <= i < |b.log| && b.log[i] == Attested(n, v, p.key, peerKey);
      var m := PeerOfAttested(honest, b, n, v, p.key, peerKey, i);
      assert HasAccepted(b, m);
      var k :| 0 <= k < |b.log| && b.log[k].Accepted? && b.log[k].n == m;
      assert EventOwned(b, b.log[k]);
      assert c.log[k] == b.log[k];
      assert Before(c.log, |b.log|, Accepting, v, peerKey);
    }
    AppendKeepsJustified(honest, b.log, x);
    forall vow | vow in c.vows && vow.key in honest
      ensures VowLogged(c.log, vow)
    {
      AppendKeepsVows(b.log, x, vow);
    }
  }

  lemma OpensKeeps(honest: set<Bytes32>, b: Board, c: Board, n: nat, p: Party)
    requires Inv(honest, b) && Opens(b, c, n, p)
    ensures Inv(honest, c)
  {
  }

  lemma TakesStaticKeeps(honest: set<Bytes32>, b: Board, c: Board, n: nat, s: Bytes32)
    requires Inv(honest, b) && TakesStatic(b, c, n, s)
    ensures Inv(honest, c)
  {
  }

  lemma HearsKeeps(honest: set<Bytes32>, b: Board, c: Board, n: nat, info: HandshakeInfo)
    requires Inv(honest, b) && Hears(b, c, n, info)
    ensures Inv(honest, c)
  {
  }

  lemma NextKeeps(honest: set<Bytes32>, b: Board, c: Board)
    requires Inv(honest, b) && Next(honest, b, c)
    ensures Inv(honest, c)
  {
    if n, p :| Opens(b, c, n, p) {
      OpensKeeps(honest, b, c, n, p);
    } else if n, s :| TakesStatic(b, c, n, s) {
      TakesStaticKeeps(honest, b, c, n, s);
    } else if n, info :| Hears(b, c, n, info) {
      HearsKeeps(honest, b, c, n, info);
    } else if n, info, v :| Proves(b, c, n, info, v) {
      ProvesKeeps(honest, b, c, n, info, v);
    } else if n, v, peerKey :| Attests(honest, b, c, n, v, peerKey) {
      AttestsKeeps(honest, b, c, n, v, peerKey);
    } else if n, peerKey :| Accepts(honest, b, c, n, peerKey) {
      AcceptsKeeps(honest, b, c, n, peerKey);
    } else if n, peerKey :| Completes(b, c, n, peerKey) {
      CompletesKeeps(honest, b, c, n, peerKey);
    }
  }
}
