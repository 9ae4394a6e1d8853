/**
 A grant that outlives the certificates it was given under.  The responder grants and files a record; both devices
 then renew their certificates, and the pending record is resumed, co-signed and finalized under the new ones.
 */
module Renewals {
  import opened Octets
  import opened Cursors
  import opened Cryptography
  import opened Records
  import opened Stores
  import opened Exchanges
  import opened ExchangeRecords
  import opened ExchangeOperations
  import Certificates
  import Reload
  import Runs = StoreRuns
  import P = ExchangePlans

  /** The grant, and the two sessions: at t0 under the old certificates, at t1 under the new ones. */
  datatype Renewal = Renewal(
    initial: Peers,
    renewed: Peers,
    t0: u64,
    t1: u64,
    marker: Text,
    older: Bytes,
    newer: Bytes,
    b0: Bytes32,
    b1: Bytes32)
  {
    function Granted(): P.Issue { P.Issue(b0, marker, t0) }
    function Reissued(): P.Issue { P.Issue(b1, marker, t0) }
    function OldHalf(): PairingRecord { Half(initial, older, Granted()) }
    function NewHalf(): PairingRecord { Half(renewed, newer, Reissued()) }
    function NewFull(): PairingRecord { Full(renewed, newer, Reissued()) }

    /** The responder's store after granting, after resuming and after finalizing. */
    function History(): seq<Store> {
      [EMPTY_STORE,
       Store(map[older := OldHalf()], map[], map[]),
       Store(map[older := OldHalf(), newer := NewHalf()], map[], map[]),
       Store(map[], map[newer := NewFull()], map[])]
    }
  }

  /** Old certificates valid at t0, new ones for the same devices valid at t1, a plain marker, two PairIDs. */
  ghost predicate Possible(w: Renewal) {
    && Enrolled(w.initial) && Enrolled(w.renewed) && SameDevices(w.initial, w.renewed)
    && InBoth(w.initial, w.t0) && InBoth(w.renewed, w.t1) && w.t0 != 0
    && Bounded(w.marker, MAX_MARKER_BYTES) && PlainMarker(w.marker)
    && LowerHex32(w.older) && LowerHex32(w.newer) && w.older != w.newer
  }

  lemma Granting(w: Renewal)
    requires Possible(w)
    ensures Runs.Happens(w.initial.cr, w.initial.root, w.initial.responder, w.History()[0],
                         Runs.Preparing(w.t0, SessionsOf(w.initial, w.older, w.b0).1, Some(w.marker)), w.History()[1])
  {
    PlainPaperFits(w.initial, w.older, w.Granted());
    Preparing(w.initial, w.t0, EMPTY_STORE, w.older, w.b0, Some(w.marker));
    assert WithPending(EMPTY_STORE, w.older, w.OldHalf()) == w.History()[1];
  }

  lemma Regranting(w: Renewal)
    requires Possible(w)
    ensures Runs.Happens(w.initial.cr, w.initial.root, w.initial.responder, w.History()[1],
                         Runs.Resuming(w.t1, SessionsOf(w.renewed, w.newer, w.b1).1, w.OldHalf()), w.History()[2])
  {
    PlainPaperFits(w.renewed, w.newer, w.Reissued());
    Resuming(w.initial, w.renewed, w.t1, w.History()[1], w.newer, w.b1, w.older, w.Granted());
    assert WithPending(w.History()[1], w.newer, w.NewHalf()) == w.History()[2];
  }

  /** The initiator, whose own store is empty, completes what was resumed. */
  lemma Completing(w: Renewal)
    requires Possible(w)
    ensures CoSign(w.renewed.At(w.t1), EMPTY_STORE, SessionsOf(w.renewed, w.newer, w.b1).0, w.renewed.initiator, w.NewHalf())
         == Result.Ok((WithPending(EMPTY_STORE, w.newer, w.NewFull()), w.NewFull()))
  {
    PlainPaperFits(w.renewed, w.newer, w.Reissued());
    CoSigning(w.renewed, w.t1, EMPTY_STORE, w.newer, w.b1, w.newer, w.Reissued());
  }

  /** Everything pending is of the pair that is activated. */
  lemma SamePairThroughout(w: Renewal)
    requires Possible(w)
    ensures SamePair(w.OldHalf(), w.NewFull()) && SamePair(w.NewHalf(), w.NewFull())
    ensures Readable(w.NewFull()) && w.NewFull().pairId == w.newer
  {
    PlainPaperFits(w.renewed, w.newer, w.Reissued());
    PaperValidates(w.initial, w.older, w.Granted(), w.OldHalf(), 0);
    PaperValidates(w.renewed, w.newer, w.Reissued(), w.NewHalf(), 0);
    PaperValidates(w.renewed, w.newer, w.Reissued(), w.NewFull(), 0);
    SigningYieldsPaper(w.renewed, w.newer, w.Reissued());
  }

  lemma SweepingTwo(older: Bytes, a: PairingRecord, newer: Bytes, b: PairingRecord, r: PairingRecord)
    requires Readable(r) && SamePair(a, r) && SamePair(b, r)
    ensures PersistActive(Store(map[older := a, newer := b], map[], map[]), r)
         == Result.Ok(Store(map[], map[r.pairId := r], map[]))
  {
    var st := Store(map[older := a, newer := b], map[], map[]);
    SweepingEverything(st, r);
    assert st.active[r.pairId := r] == map[r.pairId := r];
  }

  lemma Sweeping(w: Renewal)
    requires Possible(w)
    ensures PersistActive(w.History()[2], w.NewFull()) == Result.Ok(w.History()[3])
  {
    SamePairThroughout(w);
    SweepingTwo(w.older, w.OldHalf(), w.newer, w.NewHalf(), w.NewFull());
  }

  lemma Finalizing(w: Renewal)
    requires Possible(w)
    ensures Runs.Happens(w.initial.cr, w.initial.root, w.initial.responder, w.History()[2],
                         Runs.Finalizing(w.t1, SessionsOf(w.renewed, w.newer, w.b1).1, w.NewFull()), w.History()[3])
  {
    FullIsSigned(w.renewed, w.newer, w.Reissued());
    SessionNamesPaper(w.renewed, w.newer, w.Reissued(), w.NewFull(), w.newer, w.b1, ROLE_RESPONDER);
    Settling(w.renewed, w.t1, w.History()[2], w.newer, w.b1, w.newer, w.Reissued());
    Sweeping(w);
  }

  lemma ThreeSteps(cr: Crypto, root: Certificates.PinnedRoot, identity: DeviceIdentity, h: seq<Store>)
    requires |h| == 4 && h[0] == EMPTY_STORE
    requires Runs.Step(cr, root, identity, h[0], h[1]) && Runs.Step(cr, root, identity, h[1], h[2])
    requires Runs.Step(cr, root, identity, h[2], h[3])
    ensures Runs.History(cr, root, identity, h)
  {
  }

  lemma RenewalIsHistory(w: Renewal)
    requires Possible(w)
    ensures Runs.History(w.initial.cr, w.initial.root, w.initial.responder, w.History())
  {
    Granting(w);
    Regranting(w);
    Finalizing(w);
    ThreeSteps(w.initial.cr, w.initial.root, w.initial.responder, w.History());
  }

  /** The resumed record keeps the old time and carries the new windows. */
  lemma TimelyWhenOverlapping(w: Renewal, r: PairingRecord)
    requires Possible(w) && (r == w.NewHalf() || r == w.NewFull())
    ensures WindowsContain(r, r.authorizedAt) <==> InBoth(w.renewed, w.t0)
  {
    FullIsSigned(w.renewed, w.newer, w.Reissued());
    RecordIsCertified(w.renewed, w.newer, w.Reissued(), r, w.t0);
  }

  lemma GrantIsTimely(w: Renewal)
    requires Possible(w)
    ensures WindowsContain(w.OldHalf(), w.OldHalf().authorizedAt)
  {
    FullIsSigned(w.initial, w.older, w.Granted());
    RecordIsCertified(w.initial, w.older, w.Granted(), w.OldHalf(), w.t0);
  }

  lemma TimelyFiles(w: Renewal)
    requires Possible(w)
    ensures Reload.AllTimely(w.History()[3].active) <==> InBoth(w.renewed, w.t0)
    ensures Reload.AllTimely(w.History()[2].pending) <==> InBoth(w.renewed, w.t0)
  {
    GrantIsTimely(w);
    TimelyWhenOverlapping(w, w.NewHalf());
    TimelyWhenOverlapping(w, w.NewFull());
    TimelyPair(w.older, w.OldHalf(), w.newer, w.NewHalf());
    assert w.newer in w.History()[3].active;
  }

  lemma TimelyPair(older: Bytes, a: PairingRecord, newer: Bytes, b: PairingRecord)
    requires older != newer && WindowsContain(a, a.authorizedAt)
    ensures Reload.AllTimely(map[older := a, newer := b]) <==> WindowsContain(b, b.authorizedAt)
  {
    assert map[older := a, newer := b][newer] == b;
  }

  lemma LoadsWhenTimely(cr: Crypto, root: Certificates.PinnedRoot, identity: DeviceIdentity, h: seq<Store>, i: nat,
                        p: Bytes, later: u64)
    requires Runs.History(cr, root, identity, h) && i < |h| && p in h[i].active
    ensures var r := h[i].active[p];
            Load(Env(cr, root, later), h[i], p) == if WindowsContain(r, r.authorizedAt) then Result.Ok(Some(r)) else Err
  {
    Runs.ActiveIsAlwaysBilateral(cr, root, identity, h, i, p);
    Reload.FiledRecordLoads(Env(cr, root, later), h[i], p);
  }

  /**
   Every step succeeds, on both devices, whatever the new windows are.  But only if they reach back to the old grant
   can the record that is now active ever be loaded, or could the pending files be searched before it was.
   */
  lemma RenewedRecordLoadsExactlyWhenOverlapping(w: Renewal, later: u64)
    requires Possible(w)
    ensures Runs.History(w.initial.cr, w.initial.root, w.initial.responder, w.History())
    ensures w.newer in w.History()[3].active
    ensures CoSign(w.renewed.At(w.t1), EMPTY_STORE, SessionsOf(w.renewed, w.newer, w.b1).0, w.renewed.initiator,
                   w.NewHalf())
         == Result.Ok((WithPending(EMPTY_STORE, w.newer, w.NewFull()), w.NewFull()))
    ensures Load(w.renewed.At(later), w.History()[3], w.newer)
         == if InBoth(w.renewed, w.t0) then Result.Ok(Some(w.NewFull())) else Err
    ensures Reload.AllTimely(w.History()[3].active) <==> InBoth(w.renewed, w.t0)
    ensures Reload.AllTimely(w.History()[2].pending) <==> InBoth(w.renewed, w.t0)
  {
    RenewalIsHistory(w);
    Completing(w);
    TimelyFiles(w);
    TimelyWhenOverlapping(w, w.NewFull());
    LoadsWhenTimely(w.initial.cr, w.initial.root, w.initial.responder, w.History(), 3, w.newer, later);
  }

  // ---- Such devices exist ----

  function Fill(b: byte): Bytes32 {
    seq(32, _ => b)
  }

  function Twice(key: Bytes32): Bytes64 {
    key + key
  }

  /** A toy instance of the primitives: a signature is the key itself, the digest of a key is that key. */
  function Toy(): Crypto {
    Crypto((key: Bytes32, message: Bytes, signature: Bytes64) => signature == Twice(key),
           (secret: Bytes32, message: Bytes) => Twice(secret),
           (secret: Bytes32) => secret,
           (message: Bytes) => if |message| == 32 then message else Fill(0))
  }

  function ToyCertificate(key: byte, notBefore: u64, notAfter: u64): Certificates.DeviceCertificate {
    var id := DeviceIdOf(Toy(), Fill(key));
    LowerHexIsUtf8(id);
    Certificates.DeviceCertificate(id, Fill(key), [97], notBefore, notAfter, [97], Twice(Fill(0)))
  }

  function ToyPeers(notBefore: u64, notAfter: u64): Peers {
    Peers(Toy(), Certificates.PinnedRoot(Fill(0), [97]), DeviceIdentity(Fill(1)), DeviceIdentity(Fill(2)),
          ToyCertificate(1, notBefore, notAfter), ToyCertificate(2, notBefore, notAfter))
  }

  lemma ToyEnrolled(notBefore: u64, notAfter: u64)
    requires notBefore < notAfter
    ensures Enrolled(ToyPeers(notBefore, notAfter))
    ensures forall t: u64 :: InBoth(ToyPeers(notBefore, notAfter), t) <==> notBefore <= t < notAfter
  {
    var one, two := DeviceIdOf(Toy(), Fill(1)), DeviceIdOf(Toy(), Fill(2));
    assert one[1] == 49 && two[1] == 50;
  }

  /** Certificates renewed at 10 after a grant at 5. */
  function ToyRenewal(): Renewal {
    Renewal(ToyPeers(1, 10), ToyPeers(10, 20), 5, 15, [97], seq(32, _ => 48), seq(32, _ => 49), Fill(3), Fill(4))
  }

  lemma ToyRenewalPossible()
    ensures Possible(ToyRenewal()) && !InBoth(ToyRenewal().renewed, ToyRenewal().t0)
  {
    assert ToyRenewal().older[0] == 48 && ToyRenewal().newer[0] == 49;
    ToyEnrolled(1, 10);
    ToyEnrolled(10, 20);
  }

  /** An active record that no later call can ever load, and pending files that no search could get past. */
  lemma UntimelyRecordIsReachable() returns (w: Renewal)
    ensures Possible(w) && Runs.History(w.initial.cr, w.initial.root, w.initial.responder, w.History())
    ensures w.newer in w.History()[3].active
    ensures forall later: u64 :: Load(w.renewed.At(later), w.History()[3], w.newer).Err?
    ensures !Reload.AllTimely(w.History()[3].active) && !Reload.AllTimely(w.History()[2].pending)
  {
    w := ToyRenewal();
    ToyRenewalPossible();
    RenewedRecordLoadsExactlyWhenOverlapping(w, 0);
    forall later: u64
      ensures Load(w.renewed.At(later), w.History()[3], w.newer).Err?
    {
      RenewedRecordLoadsExactlyWhenOverlapping(w, later);
    }
  }
}
