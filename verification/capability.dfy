/** Capability grants: kept apart from pairing, and only ever given to a device with an active pairing. */
module Capabilities {
  import opened Octets
  import opened Cryptography
  import opened Records
  import opened Stores
  import opened StoreRuns
  import opened Reload
  import opened PairingStores
  import Changes = StoreChanges
  import Certificates

  const MAX_CAPABILITY_BYTES: nat := 64

  datatype CapabilityRecord = CapabilityRecord(deviceId: Bytes, capabilities: set<Bytes>)

  /** The capability directory: one file per DeviceID. */
  type Files = map<Bytes, CapabilityRecord>

  predicate HexDigitAnyCase(c: byte) {
    LowerHexDigit(c) || 65 <= c <= 70
  }

  /** `path_for`: unlike the pairing store, either case is accepted. */
  predicate HasPath(id: Bytes) {
    |id| == 32 && forall i :: 0 <= i < |id| ==> HexDigitAnyCase(id[i])
  }

  predicate CapabilityCharacter(c: byte) {
    48 <= c <= 57 || 65 <= c <= 90 || 97 <= c <= 122 || c == 46 || c == 45 || c == 95
  }

  predicate ValidCapability(c: Bytes) {
    1 <= |c| <= MAX_CAPABILITY_BYTES && forall i :: 0 <= i < |c| ==> CapabilityCharacter(c[i])
  }

  function LoadCapabilities(files: Files, id: Bytes): Result<Option<set<Bytes>>> {
    if !HasPath(id) then Err
    else if id !in files then Ok(None)
    else if files[id].deviceId != id then Err
    else Ok(Some(files[id].capabilities))
  }

  /** `grant_capability`, given the answer of the pairing lookup. */
  function GrantOf(files: Files, answer: Result<bool>, peer: Bytes, capability: Bytes): Result<(Files, set<Bytes>)> {
    if answer.Err? || !answer.value || !ValidCapability(capability) then Err
    else
      var loaded :- LoadCapabilities(files, peer);
      var capabilities := (if loaded.Some? then loaded.value else {}) + {capability};
      Ok((files[peer := CapabilityRecord(peer, capabilities)], capabilities))
  }

  class CapabilityStore {
    var files: Files

    constructor (initial: Files)
      ensures files == initial
    {
      files := initial;
    }

    method Load(id: Bytes) returns (r: Result<Option<set<Bytes>>>)
      ensures r == LoadCapabilities(files, id)
    {
      if !HasPath(id) {
        return Err;
      }
      if id !in files {
        return Ok(None);
      }
      var record := files[id];
      return if record.deviceId != id then Err else Ok(Some(record.capabilities));
    }

    method GrantCapability(pairings: PairingStore, local: Bytes, peer: Bytes, capability: Bytes)
      returns (r: Result<set<Bytes>>, ghost answer: Result<bool>)
      modifies this
      ensures MayReportActive(pairings.env, pairings.View(), local, peer, answer)
      ensures match GrantOf(old(files), answer, peer, capability)
              case Ok(granted) => r == Ok(granted.1) && files == granted.0
              case Err => r.Err? && files == old(files)
    {
      var paired := pairings.HasActivePairing(local, peer);
      answer := paired;
      if paired.Err? || !paired.value || !ValidCapability(capability) {
        return Err, answer;
      }
      var loaded := Load(peer);
      if loaded.Err? {
        return Err, answer;
      }
      var capabilities := if loaded.value.Some? then loaded.value.value else {};
      capabilities := capabilities + {capability};
      files := files[peer := CapabilityRecord(peer, capabilities)];
      return Ok(capabilities), answer;
    }
  }

  // ---- Runs of one device: pairing events and grants, in any order ----

  datatype Device = Device(store: Store, files: Files)

  datatype Act = Pairing(event: Event) | Granting(now: u64, peer: Bytes, capability: Bytes, answer: Result<bool>)

  const EMPTY_DEVICE := Device(EMPTY_STORE, map[])

  ghost predicate Does(cr: Crypto, root: Certificates.PinnedRoot, identity: DeviceIdentity,
                       d: Device, x: Act, after: Device)
  {
    match x
    case Pairing(e) => Happens(cr, root, identity, d.store, e, after.store) && after.files == d.files
    case Granting(now, peer, capability, answer) =>
      && MayReportActive(Env(cr, root, now), d.store, identity.DeviceId(cr), peer, answer)
      && var granted := GrantOf(d.files, answer, peer, capability);
         after == if granted.Ok? then d.(files := granted.value.0) else d
  }

  ghost predicate DeviceRun(cr: Crypto, root: Certificates.PinnedRoot, identity: DeviceIdentity,
                            ds: seq<Device>, acts: seq<Act>)
  {
    && |ds| == |acts| + 1
    && ds[0] == EMPTY_DEVICE
    && forall i :: 0 <= i < |acts| ==> Does(cr, root, identity, ds[i], acts[i], ds[i + 1])
  }

  /** A complete record of the two devices is filed as active or revoked. */
  ghost predicate Backed(st: Store, local: Bytes, peer: Bytes) {
    || (exists p :: p in st.active && Between(st.active[p], local, peer))
    || (exists p :: p in st.revoked && Between(st.revoked[p], local, peer))
  }

  ghost predicate Gated(rules: Changes.Rules, d: Device, local: Bytes) {
    && Changes.Inv(rules, d.store)
    && forall peer :: peer in d.files ==> d.files[peer].deviceId == peer && Backed(d.store, local, peer)
  }

  lemma ChangeKeepsBacked(rules: Changes.Rules, st: Store, after: Store, local: Bytes, peer: Bytes)
    requires Changes.Change(rules, st, after) && Backed(st, local, peer)
    ensures Backed(after, local, peer)
  {
    if p :| p in st.active && Between(st.active[p], local, peer) {
      Changes.ChangeKeepsActive(rules, st, after, p);
      assert (p in after.active && Between(after.active[p], local, peer))
          || (p in after.revoked && Between(after.revoked[p], local, peer));
    } else {
      var p :| p in st.revoked && Between(st.revoked[p], local, peer);
      Changes.ChangeKeepsRevoked(rules, st, after, p);
      assert p in after.revoked && Between(after.revoked[p], local, peer);
    }
  }

  lemma ReportIsBacked(env: Env, st: Store, local: Bytes, peer: Bytes)
    requires MayReportActive(env, st, local, peer, Ok(true))
    ensures Backed(st, local, peer)
  {
  }

  lemma PairingKeepsGated(rules: Changes.Rules, d: Device, after: Device, local: Bytes)
    requires Gated(rules, d, local) && Changes.Change(rules, d.store, after.store) && after.files == d.files
    ensures Gated(rules, after, local)
  {
    Changes.ChangeKeepsInv(rules, d.store, after.store);
    forall peer | peer in after.files
      ensures Backed(after.store, local, peer)
    {
      ChangeKeepsBacked(rules, d.store, after.store, local, peer);
    }
  }

  lemma GrantKeepsGated(rules: Changes.Rules, env: Env, d: Device, after: Device, local: Bytes,
                        peer: Bytes, capability: Bytes, answer: Result<bool>)
    requires Gated(rules, d, local) && MayReportActive(env, d.store, local, peer, answer)
    requires var granted := GrantOf(d.files, answer, peer, capability);
             after == if granted.Ok? then d.(files := granted.value.0) else d
    ensures Gated(rules, after, local)
  {
    if GrantOf(d.files, answer, peer, capability).Ok? {
      ReportIsBacked(env, d.store, local, peer);
    }
  }

  lemma DoesKeepsGated(cr: Crypto, root: Certificates.PinnedRoot, identity: DeviceIdentity, d: Device, x: Act, after: Device)
    requires Gated(StoreRules(cr, root, identity), d, identity.DeviceId(cr)) && Does(cr, root, identity, d, x, after)
    ensures Gated(StoreRules(cr, root, identity), after, identity.DeviceId(cr))
  {
    var rules, local := StoreRules(cr, root, identity), identity.DeviceId(cr);
    match x
    case Pairing(e) =>
      EventIsChange(cr, root, identity, d.store, e, after.store);
      PairingKeepsGated(rules, d, after, local);
    case Granting(now, peer, capability, answer) =>
      GrantKeepsGated(rules, Env(cr, root, now), d, after, local, peer, capability, answer);
  }

  lemma {:induction false} RunKeepsGated(cr: Crypto, root: Certificates.PinnedRoot, identity: DeviceIdentity,
                                         ds: seq<Device>, acts: seq<Act>, i: nat)
    requires DeviceRun(cr, root, identity, ds, acts) && i < |ds|
    ensures Gated(StoreRules(cr, root, identity), ds[i], identity.DeviceId(cr))
  {
    if i > 0 {
      RunKeepsGated(cr, root, identity, ds, acts, i - 1);
      DoesKeepsGated(cr, root, identity, ds[i - 1], acts[i - 1], ds[i]);
    }
  }

  /**
   The capability gate: in every state of every run, a peer with a capability record has a complete record
   with this device, both signatures valid over certified identities, filed as active or revoked.
   */
  lemma CapabilityImpliesPairing(cr: Crypto, root: Certificates.PinnedRoot, identity: DeviceIdentity,
                                 ds: seq<Device>, acts: seq<Act>, i: nat, peer: Bytes) returns (p: Bytes, r: PairingRecord)
    requires DeviceRun(cr, root, identity, ds, acts) && i < |ds| && peer in ds[i].files
    ensures || (p in ds[i].store.active && ds[i].store.active[p] == r)
            || (p in ds[i].store.revoked && ds[i].store.revoked[p] == r)
    ensures Bilateral(cr, root, p, r) && Between(r, identity.DeviceId(cr), peer)
  {
    RunKeepsGated(cr, root, identity, ds, acts, i);
    var st, local := ds[i].store, identity.DeviceId(cr);
    var rules := StoreRules(cr, root, identity);
    if exists q :: q in st.active && Between(st.active[q], local, peer) {
      p :| p in st.active && Between(st.active[p], local, peer);
      r := st.active[p];
      assert rules.active(p, r);
    } else {
      p :| p in st.revoked && Between(st.revoked[p], local, peer);
      r := st.revoked[p];
      assert rules.active(p, r);
    }
  }

  /** Capabilities are only ever added, and only by a grant: pairing, repair and revocation leave them alone. */
  lemma {:induction false} CapabilitiesOnlyGrow(cr: Crypto, root: Certificates.PinnedRoot, identity: DeviceIdentity,
                                                ds: seq<Device>, acts: seq<Act>, i: nat, j: nat, peer: Bytes)
    requires DeviceRun(cr, root, identity, ds, acts) && i <= j < |ds| && peer in ds[i].files
    ensures peer in ds[j].files && ds[i].files[peer].capabilities <= ds[j].files[peer].capabilities
    ensures (forall k :: i <= k < j ==> acts[k].Pairing?) ==> ds[j].files == ds[i].files
  {
    if i < j {
      CapabilitiesOnlyGrow(cr, root, identity, ds, acts, i, j - 1, peer);
      assert Does(cr, root, identity, ds[j - 1], acts[j - 1], ds[j]);
    }
  }

  // ---- The lookup ----

  predicate HasRecord(st: Store, local: Bytes, peer: Bytes) {
    exists p :: p in st.active && Between(st.active[p], local, peer)
  }

  /**
   In every state of every history, `has_active_pairing` answers exactly whether a matching active record
   exists if and only if every active record is timely; an untimely one can make it fail for every peer.
   */
  lemma LookupAgrees(cr: Crypto, root: Certificates.PinnedRoot, identity: DeviceIdentity, h: seq<Store>, i: nat,
                     now: u64, peer: Bytes)
    requires History(cr, root, identity, h) && i < |h| && LowerHex32(peer)
    ensures AllTimely(h[i].active) <==>
            forall answer :: MayReportActive(Env(cr, root, now), h[i], identity.DeviceId(cr), peer, answer)
                             ==> answer == Ok(HasRecord(h[i], identity.DeviceId(cr), peer))
  {
    var env, st, local := Env(cr, root, now), h[i], identity.DeviceId(cr);
    forall p | p in st.active
      ensures Readable(st.active[p])
      ensures ValidateStored(env, st.active[p]) <==> WindowsContain(st.active[p], st.active[p].authorizedAt)
    {
      ActiveIsAlwaysBilateral(cr, root, identity, h, i, p);
      TimelyIsStored(env, p, st.active[p]);
    }
    if !AllTimely(st.active) {
      assert MayReportActive(env, st, local, peer, Err);
    }
  }
}
