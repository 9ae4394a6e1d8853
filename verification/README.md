# Pairing two certified devices: a verified model

OmarchySync pairs two machines whose device certificates come from one pinned root.  A pairing is a
record both devices sign and both keep on disk; it is built up over an authenticated session that may
be cut at any message, tried again, or revoked on either side.  This project models the daemon's
pairing logic in Dafny and proves what holds of it over whole runs.

The model has six layers.

* **Octets and codecs** (`octets`, `cursor`, `certificate`, `discovery`, `frames`, `auth`, `record`).
  Printers append to a buffer and parsers advance a cursor, as in the source; each is proved against
  a layout function, and the layouts are proved to be exact inverses, injective and within their limits.
  `channel` states what one direction of an encrypted session delivers, over a perfect link and over any other.
  `separation` shows that no signature made for one purpose is a signature for another, and `provenance`
  what an accepted announcement or an active record therefore says about its signers.
* **Bounded caches and the gate** (`replay_window`, `discovery`, `peer_cache`, `coordinator`).  The
  discovery verifier, the peer cache and the pair coordinator are classes; their histories refine
  unbounded ones, and the coordinator is also a machine of threads at the granularity of its locks.
* **The record store** (`store`, `pairing_store`, `store_runs`, `reload`, `renewal`, `capability`).  `store`
  states what each operation does to the three directories; the class `PairingStore` does it in place,
  with directories listed in any order.  `store_runs` carries the store's invariants through every
  sequence of operations, failures and power cuts; `reload` says which records can be read again and when the
  searches can be relied on; `renewal` follows one grant across a change of certificates.
* **The handshake** (`endpoint`, `handshake_order`, `handshake`, `handshake_runs`).  The two endpoint
  objects are classes; any number of them run interleaved with payloads chosen by an adversary, and
  agreement follows from who verified and signed what, in which order.
* **The exchange** (`exchange`, `exchange_plan`, `exchange_convergence`, `exchange_records`,
  `exchange_refinement`, `exchange_operations`, `exchange_steps`, `exchange_runs`).  `exchange` steps
  two real stores through the daemon's runs: sessions open, records are offered, answered and activated,
  messages are lost, sweeps are interrupted, pairs are revoked.  A plan keeps only which PairIDs are
  filed where, since every record of a pair is determined by its PairID and the one issue made under
  it; each step of the devices is proved to be the plan's step, and exactly when the devices take it.
* **The results over two devices** (`exchange_safety`, `exchange_liveness`, `exchange_stranding`,
  `exchange_network`, `initiation`, `runtime`).

## Assumptions

* Ed25519 (RFC 8032, section 5.1), SHA-256 and the Noise cipher are parameters.  `Cryptography.Sound` says
  signatures verify; `Handshakes.Unforged` and `Provenance.Unforged` say that a signature which reaches a
  device and verifies under an honest key was made by that key; `Frames.Ideal` says a ciphertext opens
  exactly at its nonce; `Handshakes.ChannelCarries` and `Channels.Authentic` say that what opens on a channel
  ending at an honest endpoint was sent by that endpoint (Noise Protocol Framework, revision 34, section 7.5).  No collision
  freedom of the digest is assumed, except that a new session's binding is a fresh one.
* Static Noise keys are fresh per endpoint, as is the PairID of a first contact.  Each endpoint is driven
  once through its messages, as the two run functions do.
* In the exchange the network may delay, lose and cut, but not alter.  Under the assumptions above this is
  what an adversary is left with: the sessions it lets an initiator open are the exchange's own
  (`ExchangeNetwork.SessionsAreThePairs`), and in each direction the receiver reads a prefix of what was sent
  (`Channels.ReadsPrefix`).  The handshake is one step there, since it writes nothing; a message that is lost
  is one its receiver never comes to read.
* Clocks, random values, the broker's answer and the results of directory searches are inputs of the steps.
* JSON is an exact serializer; only its length is modelled.

## What the code does and its documentation does not say

* `docs/PROTOCOL_V3.md:129-130` bounds transport plaintext to 48 KiB.  Frames carry 21 octets of header
  but the frame limit leaves 8, so `encrypt` fails from 49,140 octets on (`EncryptSucceedsExactlyUpToBound`);
  between there and 49,152 it has already spent a nonce, and from then on nothing that is sent is ever
  decrypted again (`DeliveredExactlyWithoutGap`).  No record comes near that size (`EveryMessageIsTransportable`).
* An empty payload can be framed but is never accepted (`EmptyFrameIsRefused`).
* `finalize` checks certificates now and not at the authorization time, and `resume_prepare` keeps the old
  time under the new certificates.  So a grant resumed after a renewal can be filed, co-signed and activated,
  but if the new windows start after it, the active record can never be loaded, reconnected with or revoked
  (`RenewedRecordLoadsExactlyWhenOverlapping`, with an instance in `UntimelyRecordIsReachable`;
  `FinalizedReloadsExactlyWhenTimely`).  Each of the three searches gives right answers, for any peer, if and
  only if every file of its directory is timely (`PendingSearchAgrees`, `ActiveSearchAgrees`, `LookupAgrees`).
* `leave` lowers the flag and records the cooldown in two locked sections; the same peer can be admitted in
  between (`SamePeerAdmittedInTheGap`).
* If the responder activates, the acknowledgement is lost, and the responder then revokes, the initiator's
  co-signed record blocks the pair for good (`StrandingIsReachable`, `StrandedForever`).  An initiator that
  is active stops trying even if the responder has revoked (`InitiatesUntilConverged`).

## Model

| member | source | states |
|---|---|---|
| Octets.FromBEInvertsBE | src/protocol_v3.rs:606-611 | reading a big-endian integer of any width gives back the integer that was printed |
| Octets.BEInvertsFromBE | src/protocol_v3.rs:219-220 | printing the integer read from any octets gives back those octets |
| Octets.HexDecodes | src/identity.rs:84-90 | the hexadecimal form of a DeviceID determines the digest prefix it was made from |
| Cryptography.DeviceIdOf | src/identity.rs:84-90 | every derived DeviceID is 32 lower-case hexadecimal characters |
| Cursors.ByteBuffer.PutBytes | src/protocol_v3.rs:574-581 | succeeds exactly for a non-empty field within its limit and appends its length and octets; otherwise nothing is appended |
| Cursors.Cursor.Take | src/protocol_v3.rs:591-602 | yields the next octets and advances past them, or fails and stays |
| Cursors.Cursor.Bytes | src/protocol_v3.rs:612-618 | reads exactly the fields a bounded split of the rest gives, and leaves the rest after them |
| Cursors.SplitFieldPrinted | src/protocol_v3.rs:612-618 | a printed field with anything after it splits back into the field and what follows |
| Cursors.PeelField | src/protocol_v3.rs:574-581 | equal concatenations that start with length-prefixed fields have equal fields and equal rests |
| Certificates.ParsePrinted | src/protocol_v3.rs:211-267 | parsing a printed shape-valid certificate gives it back, for every certificate |
| Certificates.PrintParsed | src/protocol_v3.rs:211-267 | printing what was parsed gives back exactly the accepted octets |
| Certificates.PrintInjective | src/protocol_v3.rs:225-232 | different certificates never print alike |
| Certificates.ToBytes | src/protocol_v3.rs:225-232 | printing succeeds exactly for shape-valid certificates and stays within 292 octets, below the 512 limit |
| Certificates.PrintCertificate | src/protocol_v3.rs:211-232 | the appending printer produces the canonical layout, or fails on an invalid shape |
| Certificates.ParseCertificate | src/protocol_v3.rs:234-267 | the cursor parser accepts exactly what the specified parser accepts, with the same result |
| Discovery.ParsePrinted | src/protocol_v3.rs:353-405 | parsing a printed version-3 announcement with a non-zero port gives it back |
| Discovery.PrintParsed | src/protocol_v3.rs:353-405 | printing an accepted version-3 announcement gives back its octets |
| Discovery.PrintAnnouncement | src/protocol_v3.rs:353-375 | the appending printer produces the announcement's layout with the device signature at its end |
| Discovery.ParseAnnouncement | src/protocol_v3.rs:377-405 | the cursor parser accepts exactly what the specified parser accepts, with the same result |
| Discovery.SignedIsAuthentic | src/protocol_v3.rs:323-351 | an announcement a certified device signs passes every check of a verifier whose clock is in the window |
| Discovery.DiscoveryVerifier.VerifyPacket | src/protocol_v3.rs:473-514 | the verifier answers and updates its cache as the replay window prescribes, also when a check fails after pruning |
| Discovery.DiscoveryVerifier.PruneReplay | src/protocol_v3.rs:516-523 | keeps exactly the entries inside both retention bounds under saturating arithmetic |
| Discovery.ReplayIsRejected | src/protocol_v3.rs:473-514 | over any sequence of packets with a clock that never goes back, no packet's DeviceID, nonce and timestamp are accepted twice |
| ReplayWindow.DroppedIsStale | src/protocol_v3.rs:516-523 | whatever pruning drops already fails the freshness test, for all u64 values |
| ReplayWindow.CacheRefinesUnboundedLog | src/protocol_v3.rs:490-506 | the pruned cache holds exactly the keys an unbounded log of acceptances would still hold live |
| ReplayWindow.NeverAcceptedTwice | src/protocol_v3.rs:473-523 | two accepted attempts with the same key carry different timestamps |
| ReplayWindow.CacheIsBounded | src/protocol_v3.rs:497-499 | the cache never exceeds its limit in any run |
| PeerCaches.PeerCache.Put | src/runtime_v3.rs:157-179 | drops stale entries, then evicts some oldest entry if the cache is full of others, then inserts |
| PeerCaches.PeerCache.FindOldest | src/runtime_v3.rs:162-169 | the chosen entry is no newer than any other, whatever order the entries come in |
| PeerCaches.PeerCache.ById | src/runtime_v3.rs:181-187 | drops stale entries and looks the DeviceID up in what is left |
| PeerCaches.VictimHasRivals | src/runtime_v3.rs:162-178 | whoever is evicted has at least 128 other devices announced no earlier |
| PeerCaches.CacheRefinesLastAnnouncements | src/runtime_v3.rs:157-187 | in every state of every history the cache refines the unbounded map of last announcements |
| PeerCaches.LookupIsLatestOrExcused | src/runtime_v3.rs:181-187 | a lookup returns the latest announcement, at most 90 seconds old; it is missing only if aged out or 128 others came no earlier; never more than 128 entries |
| Coordinators.PairCoordinator.Enter | src/runtime_v3.rs:205-218 | admits exactly when nothing is in flight and the peer has no unexpired cooldown; expired cooldowns are dropped either way |
| Coordinators.PairCoordinator.Leave | src/runtime_v3.rs:220-227 | lowers the flag, and for a retry sets that peer's deadline and no other |
| Coordinators.SingleFlight | src/runtime_v3.rs:205-227 | over all interleavings the flag is up exactly while one thread is between a successful enter and the first section of its leave |
| Coordinators.NeverDeadlocks | src/runtime_v3.rs:205-227 | whenever a thread is inside enter or leave, some such thread can take its next lock step |
| Coordinators.RefusedUntilDeadline | src/runtime_v3.rs:212-226 | once a failed attempt's cooldown is recorded, every attempt with that peer is refused until its deadline |
| Coordinators.AdmittedExactlyWhenFree | src/runtime_v3.rs:213-217 | over all interleavings, an attempt is admitted if and only if no thread is in flight and no unexpired cooldown is recorded |
| Coordinators.SamePeerAdmittedInTheGap | src/runtime_v3.rs:220-227 | a legal interleaving in which the peer of a failed attempt is admitted again before its cooldown is recorded |
| Records.SigningBytesDetermineRecord | src/trust.rs:82-106 | records with equal signed bytes agree on every field except the signatures |
| Records.SameBindingIsEqualityModuloSignatures | src/trust.rs:797-807 | two records have the same binding if and only if they are equal up to signatures |
| Records.RoleMessagesDisjoint | src/trust.rs:710-733 | a signature made in one role is none in the other, and fixes the record it was made for |
| Records.PrintSigningBytes | src/trust.rs:82-106 | the appending printer produces the canonical bytes, and fails exactly on unprintable records |
| Records.PlainRecordFits | src/trust.rs:108-124 | every record with 64-octet signatures, printed certificates and a marker without control characters serializes within 4,096 octets |
| DomainSeparation.SignaturesNeverTransfer | src/runtime_v3.rs:276-283 | equal signed messages are of the same kind, in the same role, with the same content, over records, transcripts, announcements, routes and certificates |
| Provenance.AnnouncementIsOwnersWord | src/protocol_v3.rs:473-514 | an accepted announcement has a certificate valid under the root, and the owner of an honest key announced exactly that nonce, time and port |
| Provenance.RecordIsOwnersWord | src/trust.rs:716-733 | a valid role signature under an honest key means that key signed this very content in that very role |
| Provenance.ActiveRecordHasConsent | src/trust.rs:234-257 | in every state of every history each honest participant of an active record has signed exactly its content, in its own role |
| Frames.DecodeEncoded | src/pairing.rs:1082-1132 | a non-empty frame with a valid role decodes back to itself |
| Frames.EncodeDecoded | src/pairing.rs:1082-1132 | an accepted frame re-encodes to exactly its octets |
| Frames.EmptyFrameIsRefused | src/pairing.rs:1085-1132 | an empty payload can be encoded but no decoder accepts it |
| Frames.DecodeEncodedStart | src/pairing.rs:1049-1080 | an encoded start frame decodes back to its mode, PairID and message |
| Frames.EncodeDecodedStart | src/pairing.rs:1049-1080 | an accepted start frame with a valid mode re-encodes to exactly its octets |
| Frames.ParseFrame | src/pairing.rs:1108-1132 | the cursor parser accepts exactly what the specified decoder accepts |
| Frames.PrintFrame | src/pairing.rs:1082-1107 | the appending encoder produces the frame layout or fails on its limits |
| Frames.Transport.Encrypt | src/pairing.rs:192-208 | the nonce advances exactly when the plaintext passes the first check, even if framing then fails |
| Frames.Transport.Decrypt | src/pairing.rs:211-223 | the nonce advances exactly when a frame of the right kind and role opens |
| Frames.EncryptSucceedsExactlyUpToBound | src/pairing.rs:192-208 | encryption succeeds if and only if the plaintext has at most 49,139 octets |
| Frames.DecryptsExactlyInStep | src/pairing.rs:192-223 | what one end encrypts at a nonce the other end decrypts at that nonce and at no other |
| Frames.OwnFramesAreRefused | src/pairing.rs:211-215 | no end accepts a frame of its own role, whatever keys and nonces: nothing can be reflected to its sender |
| Channels.DeliveredExactlyWithoutGap | src/pairing.rs:192-223 | over a perfect link a plaintext arrives as sent if and only if it has at most 49,139 octets and no earlier one had 49,140 to 49,152; after one such attempt every later frame is refused |
| Channels.ReadsPrefix | src/pairing.rs:192-223 | whatever is done to the frames of a direction, as long as none is forged, the receiver reads a prefix of what was sent before the first such attempt: nothing altered, repeated, reordered or skipped |
| Channels.ReadsAllUndisturbed | src/pairing.rs:192-223 | undisturbed, it reads all of that and nothing more |
| Frames.EveryMessageIsTransportable | src/runtime_v3.rs:239-262 | every pairing message with a record of at most 4,096 octets passes encoding, encryption, framing and the wire limit, and is decrypted exactly |
| AuthMessages.TranscriptDeterminesView | src/pairing.rs:839-865 | equal transcripts come from equal mode, PairID, handshake hash, certificates and static keys, although DeviceIDs are not length-prefixed |
| AuthMessages.PrintTranscript | src/pairing.rs:839-865 | the appending printer produces the transcript of the view, or fails where a certificate does not print |
| AuthMessages.TranscriptMessageInjective | src/pairing.rs:894-900 | the signed message determines transcript and role |
| AuthMessages.HelloParsesUnsigned | src/pairing.rs:871-881 | a hello always parses back to its certificate's identity, without a signature |
| AuthMessages.ProofParsesSigned | src/pairing.rs:883-892 | a proof always parses back to its certificate's identity with exactly the signature it carries |
| AuthMessages.ParsedAuthReprints | src/pairing.rs:963-981 | whatever parses is exactly its identity fields, its certificate's serialization and its signature |
| AuthMessages.ParseAuthPayload | src/pairing.rs:963-981 | the cursor parser accepts exactly what the specified parser accepts |
| AuthMessages.HonestFramesFit | src/pairing.rs:1014-1066 | no honest handshake, start or authentication message exceeds its frame limit |
| Endpoints.PairingInitiator.ReceiveResponderHandshake | src/pairing.rs:354-392 | the hello goes out once and the handshake result is kept, also when the hello cannot be made; a second handshake changes nothing |
| Endpoints.PairingInitiator.ReceiveResponderAuth | src/pairing.rs:396-428 | signs only a transcript on which the expected peer's signature verified; on any failure nothing changes |
| Endpoints.PairingInitiator.ReceiveResponderAck | src/pairing.rs:432-461 | only the acknowledgement opens a session, once, with the verified peer |
| Endpoints.PairingResponder.ReceiveInitiatorStart | src/pairing.rs:542-576 | accepts only its own mode and a pinned PairID, and fixes the PairID otherwise; a refused start changes nothing |
| Endpoints.PairingResponder.ReceiveInitiatorFinish | src/pairing.rs:580-625 | proves itself only to the expected peer with an acceptable certificate; to any other it keeps the finished handshake and nothing else |
| Endpoints.PairingResponder.ReceiveInitiatorAuth | src/pairing.rs:629-669 | opens a session only on a valid initiator signature over its transcript |
| Endpoints.TranscriptsEqualExactlyWhenMirrored | src/pairing.rs:688-722 | an initiator and a responder build equal transcripts if and only if their views mirror each other |
| Endpoints.MeetExactlyWhenCompatible | src/pairing.rs:271-686 | with every message intact, two honest endpoints obtain sessions if and only if mode, PairID, expectations and certificates agree, and the sessions mirror each other |
| HandshakeOrder.NextKeeps | src/pairing.rs:396-461 | every interleaved step keeps: an honest key's signature in a role was preceded by the event that justifies it |
| HandshakeOrder.CompletesKeeps | src/pairing.rs:432-461 | an acknowledgement on an ideal channel implies that the endpoint at its other end has accepted the same view |
| Handshakes.UnforgedIsVow | src/pairing.rs:983-1012 | an unforged signature under an honest key is a signature by that key on exactly that view in that role |
| HandshakeRuns.ActsKeepsWorld | src/pairing.rs:271-686 | every action on any endpoint, with arbitrary payloads, keeps endpoints and the order of signatures consistent |
| HandshakeRuns.ResponderAgreement | src/pairing.rs:580-669 | a responder's session with an honest peer key implies that an initiator under that key earlier verified the responder's signature on the same transcript and then signed it; both agree on everything, in opposite roles |
| HandshakeRuns.InitiatorAgreement | src/pairing.rs:396-461 | an initiator's session with an honest peer key implies that the responder under that key verified the same transcript first, and the two sessions are mirror images |
| PairingStores.PairingStore.PendingForPeer | src/trust.rs:279-301 | returns some matching valid record, none only if every file is valid and none matches, and fails only over an invalid file or identifier |
| PairingStores.PairingStore.ActivePairForPeer | src/runtime_v3.rs:315-340 | returns some matching loadable record's PairID, under any listing order, or fails on a record that does not load |
| PairingStores.PairingStore.HasActivePairing | src/trust.rs:381-399 | answers yes only with a matching valid active record and no only if all are valid and none matches |
| PairingStores.PairingStore.RecoveryContext | src/trust.rs:306-331 | gives the pins of some matching pending record, else of some matching active one |
| PairingStores.PairingStore.FilePending | src/trust.rs:584-594 | creates the file only if absent; an existing one is never replaced, and accepted only if complete and equally bound |
| PairingStores.PairingStore.RemoveStalePending | src/trust.rs:616-636 | removes exactly the pair's pending files, in any listing order; on an unreadable file it stops with part of them removed |
| PairingStores.PairingStore.Persist | src/trust.rs:596-611 | activates unless revoked or in conflict, then sweeps; on failure of the sweep the record is active |
| PairingStores.PairingStore.PrepareRecord | src/trust.rs:157-178 | files the granted record with the local signature only if everything validates; otherwise the store is unchanged |
| PairingStores.PairingStore.ResumeRecord | src/trust.rs:209-230 | files a new record with the old marker and time and this session's certificates; otherwise the store is unchanged |
| PairingStores.PairingStore.CoSignRecord | src/trust.rs:182-203 | files the record with both signatures only if it was made in this session and not yet signed here |
| PairingStores.PairingStore.FinalizeRecord | src/trust.rs:234-243 | activates a complete record bound to this session whose certificates are valid now |
| PairingStores.PairingStore.ReconcileRecord | src/trust.rs:248-257 | activates a complete record of these identities whose certificates were valid when authorized |
| PairingStores.PairingStore.RevokeRecord | src/trust.rs:365-377 | moves a loadable active record to the revoked files, once |
| StoreRuns.EventIsChange | src/trust.rs:157-257 | every operation, failure or interruption adds a self-signed pending file, activates a bilateral record, revokes one, or changes nothing |
| StoreRuns.ActiveIsAlwaysBilateral | src/trust.rs:234-257 | in every state of every history, active and revoked records are complete, under their own PairID, of two distinct certified devices, with both signatures valid; no PairID is both |
| StoreRuns.PendingIsAlwaysSelfSigned | src/trust.rs:182-230 | in every state of every history a pending record carries the local device's own valid role signature |
| StoreRuns.RevocationIsFinal | src/trust.rs:365-377 | a revoked PairID keeps its record and is never active again |
| StoreRuns.ActiveRecordIsFixed | src/trust.rs:596-611 | a PairID's active record never changes: later it is active or revoked with that very record |
| StoreRuns.PendingIsWriteOnce | src/trust.rs:584-636 | a pending file is constant until removed, and is removed only when a record of the same two devices is active |
| StoreRuns.ActivationSweepsExactlyItsPair | src/trust.rs:616-636 | a completed activation leaves exactly the pending files of other pairs, in either orientation |
| Reload.ReconciledAlwaysReloads | src/trust.rs:248-269 | after `reconcile`, the record loads, reconnects with exactly its pins and can be revoked at every later time |
| Reload.FinalizedReloadsExactlyWhenTimely | src/trust.rs:234-269 | after `finalize`, loading, reconnecting and revoking succeed if and only if both windows contain the authorization time |
| Reload.ActiveSearchAgrees | src/runtime_v3.rs:315-340 | in every state of every history the search for an active pair is right under every listing order if and only if every active record is timely, those of other peers included |
| Reload.PreparedIsTimely | src/trust.rs:157-178 | `prepare` establishes that condition |
| Reload.CoSignedIsAsTimely | src/trust.rs:182-203 | co-signing completes the record without changing its content, so it keeps that condition |
| Reload.ResumedKeepsGrant | src/trust.rs:209-230 | resuming keeps marker, time and authorizing device, and the new file can be searched if and only if the new windows contain the old time |
| Reload.PendingSearchAgrees | src/trust.rs:279-301 | in every state of every history the search for a pending record is right under every listing order if and only if every pending file is timely |
| Renewals.RenewedRecordLoadsExactlyWhenOverlapping | src/trust.rs:209-269 | for every grant resumed, co-signed and finalized under renewed certificates: all steps succeed, and the active record loads at any later time, as the pending file could be searched, if and only if the new windows contain the old time |
| Renewals.UntimelyRecordIsReachable | src/trust.rs:209-269 | two devices, their certificates and a history whose active record never loads and whose pending files defeat every search |
| Reload.LoadsUntilRevoked | src/trust.rs:259-269 | over a device's whole history, a record that loads once loads the same until it is revoked |
| Capabilities.CapabilityStore.GrantCapability | src/identity.rs:121-145 | adds the capability to the peer's file only on a positive lookup and a valid name; otherwise no file changes |
| Capabilities.CapabilityStore.Load | src/identity.rs:147-163 | returns the file's set, none if absent, and fails on an invalid identifier or a file for another device |
| Capabilities.CapabilityImpliesPairing | src/identity.rs:121-163 | in every state of every run each peer with a capability file has a complete, certified, doubly signed record with this device in active or revoked |
| Capabilities.CapabilitiesOnlyGrow | src/identity.rs:121-145 | capabilities are only added, and pairing, repair and revocation never change them |
| Capabilities.LookupAgrees | src/trust.rs:381-399 | the lookup always answers whether a matching active record exists if and only if every active record is timely |
| ExchangePlans.NextKeepsInv | src/runtime_v3.rs:342-544 | every step of two interleaved runs, losses, cuts and revocations included, keeps agreement, uniqueness and single approval |
| PlanConvergence.PhaseNeverRegresses | src/runtime_v3.rs:342-544 | no step but a revocation takes the pairing to an earlier phase while nothing is revoked |
| PlanConvergence.ReadyConverges | src/runtime_v3.rs:342-544 | from a ready plan every outcome of the searches leads an uninterrupted run to the completed pairing, except that with nothing filed at either device the user may refuse |
| PlanConvergence.UnreadyMayMiss | src/runtime_v3.rs:456-479 | from any other plan some listing order makes the two sides miss each other |
| ExchangeRecords.PaperValidatesInSession | src/trust.rs:401-489 | exactly when the records of an enrolled pair validate in a session, by completeness, window and binding |
| ExchangeRefinement.EndpointsMeet | src/runtime_v3.rs:357-386 | the endpoints the two runs open meet if and only if mode and pinned PairID agree and first-contact certificates are valid, and both sessions carry the shared transcript's digest |
| ExchangeOperations.Preparing | src/trust.rs:157-178 | the exact outcome of `prepare` for an enrolled pair |
| ExchangeOperations.Resuming | src/trust.rs:209-230 | the exact outcome of `resume_prepare` for an enrolled pair, also under other certificates than the grant was filed with |
| ExchangeOperations.CoSigning | src/trust.rs:182-203 | `co_sign` succeeds if and only if the offer was issued in this session, the windows hold and the result fits |
| ExchangeOperations.Settling | src/runtime_v3.rs:529-535 | the responder's choice between finalizing and reconciling accepts if and only if the windows hold now for a record of this session, or held when authorized for any other |
| ExchangeRuns.NextFollows | src/runtime_v3.rs:342-544 | every step of the two daemons on their real stores is the plan's step |
| ExchangeRuns.NextExactly | src/runtime_v3.rs:342-544 | every step but a sweep cut short is taken if and only if the plan takes it and the certificates, clock and record size it depends on allow it |
| ExchangeRuns.RunIsExplained | src/runtime_v3.rs:342-544 | every reachable state of the two daemons corresponds to a plan that satisfies the invariant |
| ExchangeSafety.Agreement | src/runtime_v3.rs:394-541 | in every reachable state the initiator's active records are the responder's, active or revoked, signatures included; its pending ones are complete with the responder's signed content |
| ExchangeSafety.SingleApproval | src/runtime_v3.rs:494-516 | grants that reached a record number at most the responder's revocations plus one while a pair is in progress; every record carries the marker and time of such a grant, through any chain of resumptions |
| ExchangeSafety.PhasesNeverRegress | src/runtime_v3.rs:342-544 | over any run without revocations the phase never decreases |
| ExchangeLiveness.ConvergesExactlyWhen | src/runtime_v3.rs:342-544 | from any quiet reachable state with complete sweeps, under any clocks, certificates and answer, an uninterrupted run completes the pairing under every listing order if and only if the stores are ready and, when the initiator holds nothing, a first contact is permitted |
| ExchangeLiveness.RecoveryConverges | src/runtime_v3.rs:355-377 | while the initiator holds a record, only readiness of the files decides: the same under any other clocks and answer |
| ExchangeLiveness.PlainFirstContact | src/runtime_v3.rs:367-375 | with markers free of control characters a first contact is permitted if and only if both certificates are valid at both clocks and, with no grant pending, the user agrees |
| ExchangeLiveness.ReadyBeforeRevocations | src/runtime_v3.rs:461-516 | before any revocation, ready means: no pending record at the initiator, or at most one at the responder |
| ExchangeLiveness.RunExactly | src/runtime_v3.rs:342-544 | the devices complete an uninterrupted run if and only if the plan does and each of its steps is allowed, and then still correspond to it |
| ExchangeStranding.StrandingIsReachable | src/runtime_v3.rs:364-377 | for every enrolled pair whose certificates are ever valid together there is a run that strands it |
| ExchangeStranding.StrandedForever | src/runtime_v3.rs:355-366 | once stranded, no later step ever completes the pairing |
| ExchangeNetwork.SessionsAreThePairs | src/pairing.rs:396-461 | among interleaved handshakes with adversarial payloads, a session an initiator of the pair opens and the one its responder opened are exactly those the exchange steps give them |
| Initiation.ExactlyOneInitiates | src/runtime_v3.rs:799-802 | of two different DeviceIDs exactly one owns initiation |
| Initiation.InitiatesUntilConverged | src/runtime_v3.rs:781-802 | the daemon starts an attempt exactly while it has no active record, which from a ready state is exactly until the pairing is complete |
| Runtimes.InitiatorRuntime.OpenEndpoint | src/runtime_v3.rs:342-375 | the endpoint is that of an active pair, else of some pending record, else a first contact; otherwise a search failed |
| Runtimes.InitiatorRuntime.AnswerOffer | src/runtime_v3.rs:402-425 | answers with the own complete record for the same PairID, the offer itself if already signed here, or a co-signature |
| Runtimes.InitiatorRuntime.Finish | src/runtime_v3.rs:432-437 | activates what was sent once it is acknowledged |
| Runtimes.ResponderRuntime.OpenEndpoint | src/runtime_v3.rs:454-479 | the endpoint is that of an active pair, else of some pending record if the initiator reconnects, else a first contact; otherwise a search failed |
| Runtimes.ResponderRuntime.Offer | src/runtime_v3.rs:508-516 | offers the pending record, one resumed from it, or a newly granted one |
| Runtimes.ResponderRuntime.RetryLater | src/runtime_v3.rs:557-580 | a failed attempt is cooled down exactly when neither search then finds an active or pending record to recover with |
| Runtimes.ResponderRuntime.Settle | src/runtime_v3.rs:528-535 | finalizes a record of this session, reconciles one of an earlier session, and activates nothing incomplete |

## Left out

- Third devices in the two-device exchange: each store there holds files of one pair only; the single-store results cover any number of peers.
- Convergence after a sweep cut short: only the safety results cover those runs.
- Certificates that change during a two-device run: `renewal` follows such a change on each store by itself.
- That a run only starts with a peer whose announcement was verified shortly before: the exchange starts runs at any time.
- Frame headers of handshake messages inside the endpoints (kind, role, sequence): covered by the codec and channel results, not by the endpoint steps.
- The second call of a message on an endpoint that has already processed it: each endpoint is driven once.
- Noise handshake patterns, X25519 and ChaChaPoly: an arbitrary handshake result and an ideal channel stand for them.
- Exhaustion of the 64-bit transport nonce.
- JSON text, other than its length.
- Sockets, timeouts, UDP broadcast, the listener's accept loop and the address check of the routing preface.
- File permissions, fsync, temporary file names, symbolic links and the directory-level failures of the operating system; a file write either happens whole or not at all.
- Loading and hex-decoding the pinned root key, and the ownership policy of its path.
- Mutex poisoning, and the thread scheduling of anything but the coordinator.
- The desktop prompt and polkit: the broker's answer is an arbitrary grant or denial.
- Which attempts of the coordinator's machine are retried later: there every attempt may choose either.
- Error texts: only whether an operation fails is modelled.
- Clearing secrets, fingerprints for diagnostics, packaging and service files.
