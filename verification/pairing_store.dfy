/** The store handle: every operation in place on its directories, against its specification function. */
module PairingStores {
  import opened Octets
  import opened Cursors
  import opened Cryptography
  import opened Records
  import opened Sessions
  import opened Stores
  import Certificates

  // ---- A sweep in progress ----

  /** What is left of the pending files once all but these have been looked at. */
  function Remaining(before: Directory, todo: set<Bytes>, r: PairingRecord): Directory {
    map p | p in before && (p in todo || !SamePair(before[p], r)) :: before[p]
  }

  predicate ReadableOutside(before: Directory, todo: set<Bytes>) {
    forall p :: p in before && p !in todo ==> Readable(before[p])
  }

  lemma SweepBegins(before: Directory, r: PairingRecord)
    ensures Remaining(before, before.Keys, r) == before && ReadableOutside(before, before.Keys)
  {
  }

  lemma SweepContinues(before: Directory, todo: set<Bytes>, p: Bytes, r: PairingRecord)
    requires p in todo && todo <= before.Keys
    ensures Remaining(before, todo - {p}, r)
         == if SamePair(before[p], r) then Remaining(before, todo, r) - {p} else Remaining(before, todo, r)
  {
  }

  lemma SweepIsPartial(before: Directory, todo: set<Bytes>, r: PairingRecord)
    ensures SweptPartly(before, Remaining(before, todo, r), r)
    ensures Remaining(before, {}, r) == WithoutPair(before, r)
  {
  }

  class PairingStore {
    const env: Env
    var pending: Directory
    var active: Directory
    var revoked: Directory

    function View(): Store
      reads this
    {
      Store(pending, active, revoked)
    }

    constructor Open(cr: Crypto, root: Certificates.PinnedRoot, now: u64, files: Store)
      ensures env == Env(cr, root, now) && View() == files
    {
      env := Env(cr, root, now);
      pending, active, revoked := files.pending, files.active, files.revoked;
    }

    // ---- Searches ----

    method PendingForPeer(local: Bytes, peer: Bytes) returns (r: Result<Option<PairingRecord>>)
      ensures MayFindPending(env, View(), local, peer, r)
    {
      if !LowerHex32(local) || !LowerHex32(peer) {
        return Err;
      }
      var todo := pending.Keys;
      while todo != {}
        invariant todo <= pending.Keys
        invariant forall p :: p in pending && p !in todo ==>
                    GoodPending(env, pending[p]) && !Between(pending[p], local, peer)
      {
        var p :| p in todo;
        todo := todo - {p};
        var record := pending[p];
        if !GoodPending(env, record) {
          return Err;
        }
        if Between(record, local, peer) {
          return Ok(Some(record));
        }
      }
      return Ok(None);
    }

    method ActivePairForPeer(local: Bytes, peer: Bytes) returns (r: Result<Option<Bytes>>)
      ensures MayFindActive(env, View(), local, peer, r)
    {
      var todo := active.Keys;
      while todo != {}
        invariant todo <= active.Keys
        invariant forall p :: p in active && p !in todo ==>
                    GoodActive(env, p, active[p]) && !Between(active[p], local, peer)
      {
        var p :| p in todo;
        todo := todo - {p};
        var loaded := Load(env, View(), p);
        if loaded.Err? {
          return Err;
        }
        if Between(active[p], local, peer) {
          return Ok(Some(p));
        }
      }
      return Ok(None);
    }

    method HasActivePairing(local: Bytes, peer: Bytes) returns (r: Result<bool>)
      ensures MayReportActive(env, View(), local, peer, r)
    {
      if !LowerHex32(local) || !LowerHex32(peer) {
        return Err;
      }
      var todo := active.Keys;
      while todo != {}
        invariant todo <= active.Keys
        invariant forall p :: p in active && p !in todo ==>
                    Readable(active[p]) && ValidateStored(env, active[p]) && !Between(active[p], local, peer)
      {
        var p :| p in todo;
        todo := todo - {p};
        if !Readable(active[p]) || !ValidateStored(env, active[p]) {
          return Err;
        }
        if Between(active[p], local, peer) {
          return Ok(true);
        }
      }
      return Ok(false);
    }

    method RecoveryContext(identity: DeviceIdentity, peer: Bytes) returns (r: Result<Option<PairedIdentityContext>>)
      ensures MayRecover(env, View(), identity, peer, r)
    {
      var local := identity.DeviceId(env.cr);
      var found := PendingForPeer(local, peer);
      if found.Err? {
        return Err;
      }
      if found.value.Some? {
        var context := ContextFromRecord(env, found.value.value, identity);
        return if context.Err? then Err else Ok(Some(context.value));
      }
      var pair := ActivePairForPeer(local, peer);
      if pair.Err? {
        return Err;
      }
      if pair.value.Some? {
        var context := ContextFromRecord(env, active[pair.value.value], identity);
        return if context.Err? then Err else Ok(Some(context.value));
      }
      return Ok(None);
    }

    // ---- Writes ----

    method FilePending(record: PairingRecord) returns (ok: bool)
      modifies this`pending
      ensures var after := WritePending(old(View()), record);
              ok == after.Ok? && View() == if ok then after.value else old(View())
    {
      if !LowerHex32(record.pairId) {
        return false;
      }
      if record.pairId in pending {
        var older := pending[record.pairId];
        return Readable(older) && EnsureSameBinding(older, record) && older.IsComplete();
      }
      if !Fits(record) {
        return false;
      }
      pending := pending[record.pairId := record];
      return true;
    }

    /** Delete every pending file of the active record's pair; stops at a file that cannot be read. */
    method RemoveStalePending(record: PairingRecord) returns (ok: bool)
      modifies this`pending
      ensures ok == AllReadable(old(pending))
      ensures ok ==> pending == WithoutPair(old(pending), record)
      ensures SweptPartly(old(pending), pending, record)
    {
      ghost var before := pending;
      var todo := pending.Keys;
      SweepBegins(before, record);
      while todo != {}
        invariant todo <= before.Keys && ReadableOutside(before, todo)
        invariant pending == Remaining(before, todo, record)
      {
        var p :| p in todo;
        SweepContinues(before, todo, p, record);
        SweepIsPartial(before, todo, record);
        todo := todo - {p};
        var stale := pending[p];
        if !Readable(stale) {
          return false;
        }
        if SamePair(stale, record) {
          pending := pending - {p};
        }
      }
      SweepIsPartial(before, todo, record);
      return true;
    }

    /** Activate; when a pending file is unreadable the record is active but the sweep is cut short. */
    method Persist(record: PairingRecord) returns (ok: bool)
      modifies this`pending, this`active
      ensures var after := PersistActive(old(View()), record);
              && ok == (after.Ok? && AllReadable(old(pending)))
              && (ok ==> View() == after.value)
              && (after.Err? ==> View() == old(View()))
              && (after.Ok? ==> active == after.value.active && SweptPartly(old(pending), pending, record))
    {
      if !LowerHex32(record.pairId) || record.pairId in revoked {
        return false;
      }
      if record.pairId in active {
        var existing := active[record.pairId];
        if !Readable(existing) || existing != record {
          return false;
        }
        ok := RemoveStalePending(record);
        return;
      }
      if !Fits(record) {
        return false;
      }
      active := active[record.pairId := record];
      ok := RemoveStalePending(record);
    }

    // ---- Operations ----

    method PrepareRecord(s: Session, identity: DeviceIdentity, answer: Option<Text>) returns (r: Result<PairingRecord>)
      modifies this`pending
      ensures match Prepare(env, old(View()), s, identity, answer)
              case Ok(after) => r == Ok(after.1) && View() == after.0
              case Err => r.Err? && View() == old(View())
    {
      if !ValidateSessionIdentity(env.cr, s, identity) {
        return Err;
      }
      if answer.None? || !Bounded(answer.value, MAX_MARKER_BYTES) {
        return Err;
      }
      var unsigned :- RecordFromSession(env.cr, s, answer.value, identity, env.now);
      var signature :- SignRecord(env.cr, identity, unsigned, s.RecordRole());
      var record := SetSignature(unsigned, s.RecordRole(), signature);
      if !ValidateRecord(env, record, s, identity, false, true, false) {
        return Err;
      }
      var filed := FilePending(record);
      return if filed then Ok(record) else Err;
    }

    method ResumeRecord(s: Session, identity: DeviceIdentity, earlier: PairingRecord) returns (r: Result<PairingRecord>)
      modifies this`pending
      ensures match ResumePrepare(env, old(View()), s, identity, earlier)
              case Ok(after) => r == Ok(after.1) && View() == after.0
              case Err => r.Err? && View() == old(View())
    {
      if !ValidateSessionIdentity(env.cr, s, identity) || !ValidatePendingStored(env, earlier) {
        return Err;
      }
      if earlier.authorizingDeviceId != identity.DeviceId(env.cr) {
        return Err;
      }
      var unsigned :- RecordFromSession(env.cr, s, earlier.userPresence, identity, earlier.authorizedAt);
      var signature :- SignRecord(env.cr, identity, unsigned, s.RecordRole());
      var record := SetSignature(unsigned, s.RecordRole(), signature);
      if !ValidateRecord(env, record, s, identity, false, true, false) {
        return Err;
      }
      var filed := FilePending(record);
      return if filed then Ok(record) else Err;
    }

    method CoSignRecord(s: Session, identity: DeviceIdentity, partial: PairingRecord) returns (r: Result<PairingRecord>)
      modifies this`pending
      ensures match CoSign(env, old(View()), s, identity, partial)
              case Ok(after) => r == Ok(after.1) && View() == after.0
              case Err => r.Err? && View() == old(View())
    {
      if !ValidateSessionIdentity(env.cr, s, identity) || partial.IsComplete() {
        return Err;
      }
      if !ValidateRecord(env, partial, s, identity, false, true, false) {
        return Err;
      }
      if SignatureFor(partial, s.RecordRole()).Some? {
        return Err;
      }
      var signature :- SignRecord(env.cr, identity, partial, s.RecordRole());
      var complete := SetSignature(partial, s.RecordRole(), signature);
      if !ValidateRecord(env, complete, s, identity, true, true, false) {
        return Err;
      }
      var filed := FilePending(complete);
      return if filed then Ok(complete) else Err;
    }

    method FinalizeRecord(s: Session, identity: DeviceIdentity, record: PairingRecord) returns (ok: bool)
      modifies this`pending, this`active
      ensures var after := Finalize(env, old(View()), s, identity, record);
              && ok == (after.Ok? && AllReadable(old(pending)))
              && (ok ==> View() == after.value)
              && (after.Err? ==> View() == old(View()))
              && (after.Ok? ==> active == after.value.active && SweptPartly(old(pending), pending, record))
    {
      if !ValidateSessionIdentity(env.cr, s, identity) || !ValidateRecord(env, record, s, identity, true, true, false) {
        return false;
      }
      ok := Persist(record);
    }

    method ReconcileRecord(s: Session, identity: DeviceIdentity, record: PairingRecord) returns (ok: bool)
      modifies this`pending, this`active
      ensures var after := Reconcile(env, old(View()), s, identity, record);
              && ok == (after.Ok? && AllReadable(old(pending)))
              && (ok ==> View() == after.value)
              && (after.Err? ==> View() == old(View()))
              && (after.Ok? ==> active == after.value.active && SweptPartly(old(pending), pending, record))
    {
      if !ValidateSessionIdentity(env.cr, s, identity) || !ValidateRecord(env, record, s, identity, true, false, true) {
        return false;
      }
      ok := Persist(record);
    }

    method RevokeRecord(p: Bytes) returns (ok: bool)
      modifies this`active, this`revoked
      ensures var after := Revoke(env, old(View()), p);
              ok == after.Ok? && View() == if ok then after.value else old(View())
    {
      if !LowerHex32(p) || p !in active || !Readable(active[p]) {
        return false;
      }
      var record := active[p];
      if !ValidateStored(env, record) || p in revoked {
        return false;
      }
      active, revoked := active - {p}, revoked[p := record];
      return true;
    }
  }
}
