/**
 The record exchange of two devices over an authenticated session, on their real stores.  A run may be
 cut at any message boundary and tried again; either device may revoke at any time.  The device with
 the lower DeviceID always initiates, so the two roles are fixed.
 */
module Exchanges {
  import opened Octets
  import opened Cryptography
  import opened Records
  import opened Sessions
  import opened Stores
  import opened Endpoints
  import Certificates
  import Plans = ExchangePlans

  /** The two devices: their identities, their certificates and the root both have pinned. */
  datatype Peers = Peers(
    cr: Crypto,
    root: Certificates.PinnedRoot,
    initiator: DeviceIdentity,
    responder: DeviceIdentity,
    initiatorCertificate: Certificates.DeviceCertificate,
    responderCertificate: Certificates.DeviceCertificate)
  {
    function InitiatorId(): Bytes { initiator.DeviceId(cr) }
    function ResponderId(): Bytes { responder.DeviceId(cr) }
    function At(now: u64): Env { Env(cr, root, now) }
  }

  /** Application messages that carry or acknowledge a record. */
  datatype Message = Prepared(record: PairingRecord) | Complete(record: PairingRecord) | Finalized

  /** Where `run_initiator` stands. */
  datatype InitiatorRun =
    | Idle
    | Opening(now: u64, reconnect: bool, endpoint: Endpoint)
    | Requesting(now: u64, reconnect: bool, session: Session, inbox: seq<Message>)
    | Confirming(now: u64, session: Session, record: PairingRecord, inbox: seq<Message>)

  /** Where `run_responder_with_start` stands. */
  datatype ResponderRun =
    | Free
    | Answering(now: u64, reconnect: bool, session: Session, active: Option<Bytes>, pending: Option<PairingRecord>)
    | Awaiting(now: u64, session: Session, inbox: seq<Message>)

  /** Both devices, and what has been used: PairIDs, session bindings and broker grants that were filed. */
  datatype World = World(
    i: Store,
    r: Store,
    irun: InitiatorRun,
    rrun: ResponderRun,
    usedIds: set<Bytes>,
    usedBindings: set<Bytes32>,
    grants: seq<Plans.Grant>)

  const EMPTY_WORLD := World(EMPTY_STORE, EMPTY_STORE, Idle, Free, {}, {}, [])

  // ---- Searches ----

  function Found(d: Directory, file: Option<Bytes>): Option<PairingRecord> {
    if file.Some? && file.value in d then Some(d[file.value]) else None
  }

  /** A pending search of this device may come back with this file, or with none. */
  ghost predicate MayComeBack(k: Peers, now: u64, st: Store, file: Option<Bytes>) {
    && (file.Some? ==> file.value in st.pending)
    && MayFindPending(k.At(now), st, k.InitiatorId(), k.ResponderId(), Ok(Found(st.pending, file)))
  }

  ghost predicate MayBeActive(k: Peers, now: u64, st: Store, file: Option<Bytes>) {
    MayFindActive(k.At(now), st, k.InitiatorId(), k.ResponderId(), Ok(file))
  }

  ghost predicate Permits(k: Peers, c: World, x: Plans.Action) {
    match x
    case Start(now, active, pending, recovery, freshId, _) =>
      && MayBeActive(k, now, c.i, active) && MayComeBack(k, now, c.i, pending)
      && (active.None? && pending.Some? ==> MayComeBack(k, now, c.i, Some(recovery)))
      && freshId !in c.usedIds && LowerHex32(freshId)
    case Meet(now, active, pending, recovery, _, _, binding) =>
      && MayBeActive(k, now, c.r, active) && MayComeBack(k, now, c.r, pending)
      && (active.None? && pending.Some? ==> MayComeBack(k, now, c.r, Some(recovery)))
      && binding !in c.usedBindings
    case Receive(local) => c.irun.Requesting? && MayComeBack(k, c.irun.now, c.i, local)
    case CutSettle(left) => left <= c.r.pending.Keys
    case CutFinish(left) => left <= c.i.pending.Keys
    case _ => true
  }

  // ---- Opening a session ----

  /** An active pair, else a pending record's pins, else a first contact under a fresh PairID. */
  function OpenInitiator(k: Peers, now: u64, st: Store, active: Option<Bytes>, pending: Option<Bytes>, recovery: Bytes,
                         freshId: Bytes, staticKey: Bytes32): Result<Endpoint>
  {
    if active.Some? then
      var context :- ReconnectContext(k.At(now), st, k.initiator, active.value);
      NewReconnectInitiator(k.cr, k.initiator, context, staticKey)
    else if pending.Some? then
      if recovery !in st.pending then Err
      else
        var context :- ContextFromRecord(k.At(now), st.pending[recovery], k.initiator);
        NewReconnectInitiator(k.cr, k.initiator, context, staticKey)
    else if !Utf8(freshId) then Err
    else NewInitiator(k.cr, k.initiator, k.initiatorCertificate, k.ResponderId(), k.root, now, freshId, staticKey)
  }

  /** An active pair, or a pending record when the initiator also reconnects, else a first contact. */
  function OpenResponder(k: Peers, now: u64, st: Store, active: Option<Bytes>, pending: Option<Bytes>, recovery: Bytes,
                         reconnect: bool): Result<Endpoint>
  {
    if active.Some? then
      var context :- ReconnectContext(k.At(now), st, k.responder, active.value);
      NewReconnectResponder(k.cr, k.responder, context)
    else if pending.Some? && reconnect then
      if recovery !in st.pending then Err
      else
        var context :- ContextFromRecord(k.At(now), st.pending[recovery], k.responder);
        NewReconnectResponder(k.cr, k.responder, context)
    else NewResponder(k.cr, k.responder, k.responderCertificate, k.InitiatorId(), k.root, now)
  }

  function StartRun(k: Peers, c: World, now: u64, active: Option<Bytes>, pending: Option<Bytes>, recovery: Bytes,
                    freshId: Bytes, staticKey: Bytes32): Result<World>
  {
    if !c.irun.Idle? then Err
    else
      var reconnect := active.Some? || pending.Some?;
      var endpoint :- OpenInitiator(k, now, c.i, active, pending, recovery, freshId, staticKey);
      Ok(c.(irun := Opening(now, reconnect, endpoint),
            usedIds := if reconnect then c.usedIds else c.usedIds + {freshId}))
  }

  /** The responder accepts the start frame and the handshake runs to its end on both sides. */
  function MeetRun(k: Peers, c: World, now: u64, active: Option<Bytes>, pending: Option<Bytes>, recovery: Bytes,
                   staticKey: Bytes32, hash: Bytes32, binding: Bytes32): Result<World>
  {
    if !c.rrun.Free? || !c.irun.Opening? || c.irun.endpoint.localStatic.None? then Err
    else
      var run := c.irun;
      var responder :- OpenResponder(k, now, c.r, active, pending, recovery, run.reconnect);
      var (mine, theirs) :- Endpoints.Meet(k.cr, run.endpoint, responder, run.endpoint.localStatic.value, staticKey, hash);
      if mine.sessionBinding != binding then Err
      else Ok(c.(irun := Requesting(run.now, run.reconnect, mine, []),
                 rrun := Answering(now, run.reconnect, theirs, active, Found(c.r.pending, pending)),
                 usedBindings := c.usedBindings + {binding}))
  }

  // ---- The exchange ----

  /** A message arrives only while its receiver is still in the sender's session. */
  function ToInitiator(run: InitiatorRun, s: Session, messages: seq<Message>): InitiatorRun {
    if (run.Requesting? || run.Confirming?) && run.session.sessionBinding == s.sessionBinding then
      run.(inbox := run.inbox + messages)
    else run
  }

  function ToResponder(run: ResponderRun, s: Session, message: Message): ResponderRun {
    if run.Awaiting? && run.session.sessionBinding == s.sessionBinding then run.(inbox := run.inbox + [message]) else run
  }

  /** The record the responder offers: the pending one, one resumed from it, or a newly granted one. */
  function OfferOf(k: Peers, now: u64, st: Store, s: Session, reconnect: bool, pending: Option<PairingRecord>,
                   answer: Option<Text>): Result<(Store, PairingRecord)>
  {
    if pending.Some? then
      if reconnect then Ok((st, pending.value)) else ResumePrepare(k.At(now), st, s, k.responder, pending.value)
    else Prepare(k.At(now), st, s, k.responder, answer)
  }

  /** The responder answers the request: an active record with its acknowledgement, or an offer. */
  function ServeRun(k: Peers, c: World, answer: Option<Text>): Result<World> {
    if !c.rrun.Answering? then Err
    else
      var run := c.rrun;
      if run.active.Some? then
        var loaded :- Load(k.At(run.now), c.r, run.active.value);
        if loaded.None? || !Fits(loaded.value) then Err
        else Ok(c.(rrun := Free, irun := ToInitiator(c.irun, run.session, [Complete(loaded.value), Finalized])))
      else
        var (after, offer) :- OfferOf(k, run.now, c.r, run.session, run.reconnect, run.pending, answer);
        if !Fits(offer) then Err
        else Ok(c.(r := after,
                   rrun := Awaiting(run.now, run.session, []),
                   irun := ToInitiator(c.irun, run.session, [Prepared(offer)]),
                   grants := if run.pending.Some? then c.grants
                             else c.grants + [Plans.Grant(offer.userPresence, offer.authorizedAt)]))
  }

  /** The complete record the initiator answers an offer with. */
  function AnswerOf(k: Peers, now: u64, st: Store, s: Session, offer: PairingRecord, local: Option<PairingRecord>):
    Result<(Store, PairingRecord)>
  {
    if local.Some? && local.value.IsComplete() then
      if local.value.pairId != offer.pairId then Err else Ok((st, local.value))
    else if || (offer.initiatorSignature.Some? && k.InitiatorId() == offer.initiatorDeviceId)
            || (offer.responderSignature.Some? && k.InitiatorId() == offer.responderDeviceId)
    then Ok((st, offer))
    else CoSign(k.At(now), st, s, k.initiator, offer)
  }

  function ReceiveRun(k: Peers, c: World, local: Option<Bytes>): Result<World> {
    if !c.irun.Requesting? || c.irun.inbox == [] then Err
    else
      var run, rest := c.irun, c.irun.inbox[1..];
      match run.inbox[0]
      case Complete(record) =>
        if !run.reconnect || !Readable(record) then Err
        else Ok(c.(irun := Confirming(run.now, run.session, record, rest)))
      case Prepared(offer) =>
        if !Readable(offer) then Err
        else
          var (after, complete) :- AnswerOf(k, run.now, c.i, run.session, offer, Found(c.i.pending, local));
          if !Fits(complete) then Err
          else Ok(c.(i := after,
                     irun := Confirming(run.now, run.session, complete, rest),
                     rrun := ToResponder(c.rrun, run.session, Complete(complete))))
      case Finalized => Err
  }

  /** The responder activates what came back: bound to this session, or repaired from an earlier one. */
  function Settled(k: Peers, now: u64, st: Store, s: Session, record: PairingRecord): Result<Store> {
    if !record.IsComplete() then Ok(st)
    else if record.sessionBinding == s.sessionBinding then Finalize(k.At(now), st, s, k.responder, record)
    else Reconcile(k.At(now), st, s, k.responder, record)
  }

  function SettleRun(k: Peers, c: World): Result<World> {
    if !c.rrun.Awaiting? || c.rrun.inbox == [] || !c.rrun.inbox[0].Complete? then Err
    else
      var record := c.rrun.inbox[0].record;
      if !Readable(record) || (record.IsComplete() && !AllReadable(c.r.pending)) then Err
      else
        var after :- Settled(k, c.rrun.now, c.r, c.rrun.session, record);
        Ok(c.(r := after, rrun := Free, irun := ToInitiator(c.irun, c.rrun.session, [Finalized])))
  }

  function FinishRun(k: Peers, c: World): Result<World> {
    if !c.irun.Confirming? || c.irun.inbox == [] || !c.irun.inbox[0].Finalized? || !AllReadable(c.i.pending) then Err
    else
      var after :- Reconcile(k.At(c.irun.now), c.i, c.irun.session, k.initiator, c.irun.record);
      Ok(c.(i := after, irun := Idle))
  }

  // ---- A sweep of stale pending files that stops midway ----

  function Restrict(d: Directory, keep: set<Bytes>): Directory {
    map p | p in d && p in keep :: d[p]
  }

  ghost predicate CutShort(before: Store, after: Store, left: set<Bytes>, record: PairingRecord) {
    && after.active == before.active[record.pairId := record]
    && SweptPartly(before.pending, Restrict(before.pending, left), record)
  }

  ghost function CutSettleRun(k: Peers, c: World, left: set<Bytes>): Result<World> {
    if !c.rrun.Awaiting? || c.rrun.inbox == [] || !c.rrun.inbox[0].Complete? then Err
    else
      var record := c.rrun.inbox[0].record;
      if !Readable(record) || !record.IsComplete() then Err
      else
        var after :- Settled(k, c.rrun.now, c.r, c.rrun.session, record);
        if !CutShort(c.r, after, left, record) then Err
        else Ok(c.(r := after.(pending := Restrict(c.r.pending, left)), rrun := Free))
  }

  ghost function CutFinishRun(k: Peers, c: World, left: set<Bytes>): Result<World> {
    if !c.irun.Confirming? || c.irun.inbox == [] || !c.irun.inbox[0].Finalized? then Err
    else
      var after :- Reconcile(k.At(c.irun.now), c.i, c.irun.session, k.initiator, c.irun.record);
      if !CutShort(c.i, after, left, c.irun.record) then Err
      else Ok(c.(i := after.(pending := Restrict(c.i.pending, left)), irun := Idle))
  }

  // ---- All steps ----

  ghost function Next(k: Peers, c: World, x: Plans.Action): Result<World> {
    match x
    case Start(now, active, pending, recovery, freshId, staticKey) =>
      StartRun(k, c, now, active, pending, recovery, freshId, staticKey)
    case Meet(now, active, pending, recovery, staticKey, hash, binding) =>
      MeetRun(k, c, now, active, pending, recovery, staticKey, hash, binding)
    case Serve(answer) => ServeRun(k, c, answer)
    case Receive(local) => ReceiveRun(k, c, local)
    case Settle => SettleRun(k, c)
    case Finish => FinishRun(k, c)
    case DropInitiator => Ok(c.(irun := Idle))
    case DropResponder => Ok(c.(rrun := Free))
    case RevokeAtInitiator(now, id) =>
      var after :- Revoke(k.At(now), c.i, id);
      Ok(c.(i := after))
    case RevokeAtResponder(now, id) =>
      var after :- Revoke(k.At(now), c.r, id);
      Ok(c.(r := after))
    case CutSettle(left) => CutSettleRun(k, c, left)
    case CutFinish(left) => CutFinishRun(k, c, left)
  }
}
