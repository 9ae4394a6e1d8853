/** The daemon's side of an exchange, step by step on its own store object, against the exchange's functions. */
module Runtimes {
  import opened Octets
  import opened Cryptography
  import opened Records
  import opened Sessions
  import opened Stores
  import opened Endpoints
  import opened PairingStores
  import opened Exchanges

  /** Some search of this store may come back with an error. */
  ghost predicate SearchMayFail(env: Env, st: Store, local: Bytes, peer: Bytes) {
    MayFindPending(env, st, local, peer, Err) || MayFindActive(env, st, local, peer, Err)
  }

  // ---- What the searches picked ----

  /** A search for the pair finds the same whichever of the two devices makes it. */
  lemma SearchesAreSymmetric(env: Env, st: Store, a: Bytes, b: Bytes,
                             r: Result<Option<PairingRecord>>, q: Result<Option<Bytes>>)
    ensures MayFindPending(env, st, a, b, r) <==> MayFindPending(env, st, b, a, r)
    ensures MayFindActive(env, st, a, b, q) <==> MayFindActive(env, st, b, a, q)
  {
    assert forall x: PairingRecord :: Between(x, a, b) <==> Between(x, b, a);
  }

  /** The file a pending search picked. */
  lemma FilePicked(env: Env, st: Store, a: Bytes, b: Bytes, found: Option<PairingRecord>) returns (file: Option<Bytes>)
    requires MayFindPending(env, st, a, b, Ok(found))
    ensures file.Some? ==> file.value in st.pending
    ensures Found(st.pending, file) == found
  {
    file := None;
    if found.Some? {
      var p :| p in st.pending && st.pending[p] == found.value;
      file := Some(p);
    }
  }

  /** Once a pending record is known, a recovery context is some matching pending record's. */
  lemma RecoveryPicked(env: Env, st: Store, who: DeviceIdentity, peer: Bytes, known: PairingRecord,
                       recovered: Result<Option<PairedIdentityContext>>) returns (file: Option<Bytes>)
    requires MayFindPending(env, st, who.DeviceId(env.cr), peer, Ok(Some(known)))
    requires MayRecover(env, st, who, peer, recovered)
    ensures file.None? ==> recovered.Err? && MayFindPending(env, st, who.DeviceId(env.cr), peer, Err)
    ensures file.Some? ==>
              && file.value in st.pending
              && MayFindPending(env, st, who.DeviceId(env.cr), peer, Ok(Some(st.pending[file.value])))
              && var context := ContextFromRecord(env, st.pending[file.value], who);
                 if context.Ok? then recovered == Ok(Some(context.value)) else recovered.Err?
  {
    var local := who.DeviceId(env.cr);
    file := None;
    if picked :| MayFindPending(env, st, local, peer, Ok(Some(picked)))
                 && recovered == (match ContextFromRecord(env, picked, who)
                                  case Err => Err
                                  case Ok(context) => Ok(Some(context)))
    {
      file := FilePicked(env, st, local, peer, Some(picked));
    } else {
      assert !MayFindPending(env, st, local, peer, Ok(None));
    }
  }

  /** The initiator's daemon. */
  class InitiatorRuntime {
    const k: Peers
    const now: u64
    const store: PairingStore

    ghost predicate Valid()
      reads this
    {
      store.env == k.At(now)
    }

    constructor (k: Peers, now: u64, store: PairingStore)
      requires store.env == k.At(now)
      ensures Valid() && this.k == k && this.now == now && this.store == store
    {
      this.k, this.now, this.store := k, now, store;
    }

    /** Which pair to reconnect with, if any; the second pending search may pick another file. */
    method OpenEndpoint(freshId: Bytes, staticKey: Bytes32)
      returns (r: Result<Endpoint>, ghost active: Option<Bytes>, ghost pending: Option<Bytes>, ghost recovery: Bytes)
      requires Valid()
      ensures || (r.Err? && SearchMayFail(store.env, store.View(), k.InitiatorId(), k.ResponderId()))
              || (&& MayBeActive(k, now, store.View(), active) && MayComeBack(k, now, store.View(), pending)
                  && (active.None? && pending.Some? ==> MayComeBack(k, now, store.View(), Some(recovery)))
                  && r == OpenInitiator(k, now, store.View(), active, pending, recovery, freshId, staticKey))
    {
      var peer := k.ResponderId();
      active, pending, recovery := None, None, [];
      var pair := store.ActivePairForPeer(k.InitiatorId(), peer);
      if pair.Err? {
        return Err, active, pending, recovery;
      }
      active := pair.value;
      var found := store.PendingForPeer(k.InitiatorId(), peer);
      if found.Err? {
        return Err, active, pending, recovery;
      }
      pending := FilePicked(store.env, store.View(), k.InitiatorId(), peer, found.value);
      if pair.value.Some? {
        var context := ReconnectContext(store.env, store.View(), k.initiator, pair.value.value);
        r := if context.Err? then Err else NewReconnectInitiator(k.cr, k.initiator, context.value, staticKey);
      } else if found.value.Some? {
        var recovered := store.RecoveryContext(k.initiator, peer);
        ghost var file := RecoveryPicked(store.env, store.View(), k.initiator, peer, found.value.value, recovered);
        if file.Some? {
          recovery := file.value;
        }
        r := if recovered.Err? || recovered.value.None? then Err
             else NewReconnectInitiator(k.cr, k.initiator, recovered.value.value, staticKey);
      } else if !Utf8(freshId) {
        r := Err;
      } else {
        r := NewInitiator(k.cr, k.initiator, k.initiatorCertificate, peer, k.root, now, freshId, staticKey);
      }
    }

    /** Answer an offer with the own complete record, or by co-signing it. */
    method AnswerOffer(s: Session, offer: PairingRecord)
      returns (r: Result<PairingRecord>, ghost local: Option<Bytes>)
      requires Valid()
      modifies store`pending
      ensures || (r.Err? && store.View() == old(store.View())
                  && SearchMayFail(store.env, store.View(), k.InitiatorId(), s.peerDeviceId))
              || (&& (local.Some? ==> local.value in old(store.pending))
                  && MayFindPending(store.env, old(store.View()), k.InitiatorId(), s.peerDeviceId,
                                    Ok(Found(old(store.pending), local)))
                  && match AnswerOf(k, now, old(store.View()), s, offer, Found(old(store.pending), local))
                     case Ok(answer) => r == Ok(answer.1) && store.View() == answer.0
                     case Err => r.Err? && store.View() == old(store.View()))
    {
      local := None;
      var found := store.PendingForPeer(k.InitiatorId(), s.peerDeviceId);
      if found.Err? {
        return Err, local;
      }
      local := FilePicked(store.env, store.View(), k.InitiatorId(), s.peerDeviceId, found.value);
      if found.value.Some? && found.value.value.IsComplete() {
        r := if found.value.value.pairId != offer.pairId then Err else Ok(found.value.value);
      } else if || (offer.initiatorSignature.Some? && k.InitiatorId() == offer.initiatorDeviceId)
                || (offer.responderSignature.Some? && k.InitiatorId() == offer.responderDeviceId) {
        r := Ok(offer);
      } else {
        r := store.CoSignRecord(s, k.initiator, offer);
      }
    }

    /** The acknowledgement has arrived: activate what was sent. */
    method Finish(s: Session, record: PairingRecord) returns (ok: bool)
      requires Valid()
      modifies store`pending, store`active
      ensures var after := Reconcile(k.At(now), old(store.View()), s, k.initiator, record);
              && ok == (after.Ok? && AllReadable(old(store.pending)))
              && (ok ==> store.View() == after.value)
              && (after.Err? ==> store.View() == old(store.View()))
              && (after.Ok? ==> store.active == after.value.active
                                && SweptPartly(old(store.pending), store.pending, record))
    {
      ok := store.ReconcileRecord(s, k.initiator, record);
    }
  }

  /** The responder's daemon. */
  class ResponderRuntime {
    const k: Peers
    const now: u64
    const store: PairingStore

    ghost predicate Valid()
      reads this
    {
      store.env == k.At(now)
    }

    constructor (k: Peers, now: u64, store: PairingStore)
      requires store.env == k.At(now)
      ensures Valid() && this.k == k && this.now == now && this.store == store
    {
      this.k, this.now, this.store := k, now, store;
    }

    /** Which endpoint answers a start frame, and the records its searches found. */
    method OpenEndpoint(reconnectStart: bool)
      returns (r: Result<Endpoint>, foundActive: Option<Bytes>, foundPending: Option<PairingRecord>,
               ghost pending: Option<Bytes>, ghost recovery: Bytes)
      requires Valid()
      ensures || (r.Err? && SearchMayFail(store.env, store.View(), k.ResponderId(), k.InitiatorId()))
              || (&& MayBeActive(k, now, store.View(), foundActive) && MayComeBack(k, now, store.View(), pending)
                  && foundPending == Found(store.pending, pending)
                  && (foundActive.None? && pending.Some? && reconnectStart ==>
                        MayComeBack(k, now, store.View(), Some(recovery)))
                  && r == OpenResponder(k, now, store.View(), foundActive, pending, recovery, reconnectStart))
    {
      var peer := k.InitiatorId();
      foundActive, foundPending, pending, recovery := None, None, None, [];
      var pair := store.ActivePairForPeer(k.ResponderId(), peer);
      if pair.Err? {
        return Err, foundActive, foundPending, pending, recovery;
      }
      foundActive := pair.value;
      var found := store.PendingForPeer(k.ResponderId(), peer);
      if found.Err? {
        return Err, foundActive, foundPending, pending, recovery;
      }
      foundPending := found.value;
      pending := FilePicked(store.env, store.View(), k.ResponderId(), peer, found.value);
      SearchesAreSymmetric(store.env, store.View(), k.ResponderId(), peer, found, pair);
      if foundActive.Some? {
        var context := ReconnectContext(store.env, store.View(), k.responder, foundActive.value);
        r := if context.Err? then Err else NewReconnectResponder(k.cr, k.responder, context.value);
      } else if foundPending.Some? && reconnectStart {
        r, recovery := Recover(foundPending.value);
      } else {
        r := NewResponder(k.cr, k.responder, k.responderCertificate, peer, k.root, now);
      }
    }

    method Recover(known: PairingRecord) returns (r: Result<Endpoint>, ghost recovery: Bytes)
      requires Valid() && MayFindPending(store.env, store.View(), k.ResponderId(), k.InitiatorId(), Ok(Some(known)))
      ensures || (r.Err? && SearchMayFail(store.env, store.View(), k.ResponderId(), k.InitiatorId()))
              || (MayComeBack(k, now, store.View(), Some(recovery))
                  && r == var context := ContextFromRecord(k.At(now), store.pending[recovery], k.responder);
                          if context.Err? then Err else NewReconnectResponder(k.cr, k.responder, context.value))
    {
      recovery := [];
      var recovered := store.RecoveryContext(k.responder, k.InitiatorId());
      ghost var file := RecoveryPicked(store.env, store.View(), k.responder, k.InitiatorId(), known, recovered);
      if file.Some? {
        recovery := file.value;
        SearchesAreSymmetric(store.env, store.View(), k.ResponderId(), k.InitiatorId(),
                             Ok(Some(store.pending[recovery])), Err);
      }
      r := if recovered.Err? || recovered.value.None? then Err
           else NewReconnectResponder(k.cr, k.responder, recovered.value.value);
    }

    /** The record offered when no pair is active. */
    method Offer(s: Session, reconnectStart: bool, pending: Option<PairingRecord>, answer: Option<Text>)
      returns (r: Result<PairingRecord>)
      requires Valid()
      modifies store`pending
      ensures match OfferOf(k, now, old(store.View()), s, reconnectStart, pending, answer)
              case Ok(offer) => r == Ok(offer.1) && store.View() == offer.0
              case Err => r.Err? && store.View() == old(store.View())
    {
      if pending.Some? {
        if reconnectStart {
          return Ok(pending.value);
        }
        r := store.ResumeRecord(s, k.responder, pending.value);
      } else {
        r := store.PrepareRecord(s, k.responder, answer);
      }
    }

    /** Activate the completed record: finalize if it is bound to this session, reconcile if to an earlier one. */
    method Settle(s: Session, record: PairingRecord) returns (ok: bool)
      requires Valid()
      modifies store`pending, store`active
      ensures var after := Settled(k, now, old(store.View()), s, record);
              && ok == (after.Ok? && (record.IsComplete() ==> AllReadable(old(store.pending))))
              && (ok ==> store.View() == after.value)
              && (after.Err? ==> store.View() == old(store.View()))
              && (after.Ok? ==> store.active == after.value.active
                                && SweptPartly(old(store.pending), store.pending, record))
    {
      if !record.IsComplete() {
        return true;
      }
      if record.sessionBinding == s.sessionBinding {
        ok := store.FinalizeRecord(s, k.responder, record);
      } else {
        ok := store.ReconcileRecord(s, k.responder, record);
      }
    }

    /** A failed attempt is cooled down exactly when neither search then finds state to recover with. */
    method RetryLater(failed: bool)
      returns (later: bool, ghost active: Result<Option<Bytes>>, ghost pending: Result<Option<PairingRecord>>)
      requires Valid()
      ensures failed ==> MayFindActive(store.env, store.View(), k.ResponderId(), k.InitiatorId(), active)
                         && MayFindPending(store.env, store.View(), k.ResponderId(), k.InitiatorId(), pending)
      ensures later <==> failed && !(active.Ok? && active.value.Some?) && !(pending.Ok? && pending.value.Some?)
    {
      active, pending := Err, Err;
      if !failed {
        return false, active, pending;
      }
      var pair := store.ActivePairForPeer(k.ResponderId(), k.InitiatorId());
      var found := store.PendingForPeer(k.ResponderId(), k.InitiatorId());
      active, pending := pair, found;
      return !(pair.Ok? && pair.value.Some?) && !(found.Ok? && found.value.Some?), active, pending;
    }
  }
}
