/** What one direction of an encrypted session delivers: over a perfect link, and over one an adversary controls. */
module Channels {
  import opened Octets
  import opened Frames

  /** Admitted by the first check of `encrypt`, but too long to be framed: the nonce is spent on nothing. */
  predicate Gap(m: Bytes) {
    LONGEST_TRANSPORTABLE < |m| <= MAX_TRANSPORT_PLAINTEXT
  }

  predicate NoGap(ms: seq<Bytes>) {
    forall i :: 0 <= i < |ms| ==> !Gap(ms[i])
  }

  predicate Ends(role: byte, peerRole: byte) {
    ValidRole(role) && ValidRole(peerRole) && role != peerRole
  }

  // ---- A perfect link ----

  /** What becomes of a plaintext: `encrypt` fails, or its frame is delivered at once and `decrypt` says this. */
  datatype Fate = Unframed | Framed(frame: Bytes, result: Result<Bytes>)

  function FateOf(a: Aead, role: byte, peerRole: byte, sent: nat, received: nat, m: Bytes): Fate {
    var frame := Encrypted(a, role, sent, m);
    if frame.Err? then Unframed else Framed(frame.value, Decrypted(a, peerRole, received, frame.value))
  }

  /** The receiver's nonce afterwards. */
  function NonceAfter(received: nat, fate: Fate): nat {
    if fate.Framed? then ReceivedAfter(received, fate.result) else received
  }

  /** The two ends, message by message, with the nonces they have come to. */
  function Link(a: Aead, role: byte, peerRole: byte, sent: nat, received: nat, ms: seq<Bytes>): (fates: seq<Fate>)
    ensures |fates| == |ms|
    decreases ms
  {
    if ms == [] then []
    else
      var fate := FateOf(a, role, peerRole, sent, received, ms[0]);
      [fate] + Link(a, role, peerRole, SentAfter(sent, ms[0]), NonceAfter(received, fate), ms[1..])
  }

  lemma FateExactly(a: Aead, role: byte, peerRole: byte, sent: nat, received: nat, m: Bytes)
    requires Ideal(a) && Ends(role, peerRole) && received <= sent <= U64_MAX
    ensures var fate := FateOf(a, role, peerRole, sent, received, m);
            if |m| > LONGEST_TRANSPORTABLE then fate.Unframed?
            else fate.Framed? && fate.result == if sent == received then Ok(m) else Err
  {
    EncryptSucceedsExactlyUpToBound(a, role, sent, m);
    if Encrypted(a, role, sent, m).Ok? {
      DecryptsExactlyInStep(a, role, peerRole, sent, received, m);
    }
  }

  lemma {:induction false} LinkFrom(a: Aead, role: byte, peerRole: byte, sent: nat, received: nat, ms: seq<Bytes>, i: nat)
    requires Ideal(a) && Ends(role, peerRole) && received <= sent && sent + |ms| <= U64_MAX && i < |ms|
    ensures var fate := Link(a, role, peerRole, sent, received, ms)[i];
            if |ms[i]| > LONGEST_TRANSPORTABLE then fate.Unframed?
            else fate.Framed? && fate.result == if sent == received && NoGap(ms[..i]) then Ok(ms[i]) else Err
    decreases ms
  {
    var fate := FateOf(a, role, peerRole, sent, received, ms[0]);
    FateExactly(a, role, peerRole, sent, received, ms[0]);
    if i > 0 {
      LinkFrom(a, role, peerRole, SentAfter(sent, ms[0]), NonceAfter(received, fate), ms[1..], i - 1);
      NoGapSplits(ms[..i]);
      assert ms[..i][1..] == ms[1..][..i - 1];
    }
  }

  lemma NoGapSplits(ms: seq<Bytes>)
    requires ms != []
    ensures NoGap(ms) <==> !Gap(ms[0]) && NoGap(ms[1..])
  {
    if !Gap(ms[0]) && NoGap(ms[1..]) {
      forall i | 0 <= i < |ms|
        ensures !Gap(ms[i])
      {
        assert i > 0 ==> ms[i] == ms[1..][i - 1];
      }
    }
  }

  /**
   Over a perfect link a plaintext is delivered as it was sent if and only if it has at most 49,139 octets and no
   earlier one had between 49,140 and 49,152.  After one such attempt every later frame is refused, for good.
   */
  lemma DeliveredExactlyWithoutGap(a: Aead, role: byte, peerRole: byte, ms: seq<Bytes>, i: nat)
    requires Ideal(a) && Ends(role, peerRole) && |ms| <= U64_MAX && i < |ms|
    ensures var fate := Link(a, role, peerRole, 0, 0, ms)[i];
            && (fate.Unframed? <==> |ms[i]| > LONGEST_TRANSPORTABLE)
            && (fate.Framed? && NoGap(ms[..i]) ==> fate.result == Ok(ms[i]))
            && (fate.Framed? && !NoGap(ms[..i]) ==> fate.result == Err)
  {
    LinkFrom(a, role, peerRole, 0, 0, ms, i);
  }

  // ---- Any link ----

  /** What `encrypt` returns for each plaintext. */
  function Sent(a: Aead, role: byte, sent: nat, ms: seq<Bytes>): seq<Result<Bytes>>
    decreases ms
  {
    if ms == [] then []
    else [Encrypted(a, role, sent, ms[0])] + Sent(a, role, SentAfter(sent, ms[0]), ms[1..])
  }

  /** What the receiver gets to read from a sequence of frames. */
  function Read(a: Aead, peerRole: byte, received: nat, fs: seq<Bytes>): seq<Bytes>
    decreases fs
  {
    if fs == [] then []
    else
      var result := Decrypted(a, peerRole, received, fs[0]);
      (if result.Ok? then [result.value] else []) + Read(a, peerRole, ReceivedAfter(received, result), fs[1..])
  }

  /** Frames may be lost, delayed, repeated, reordered and made up; but one that opens is one the peer sent. */
  ghost predicate Authentic(a: Aead, role: byte, peerRole: byte, ms: seq<Bytes>, fs: seq<Bytes>) {
    forall f, n: u64 :: f in fs && Decrypted(a, peerRole, n, f).Ok? ==> Ok(f) in Sent(a, role, 0, ms)
  }

  /** The plaintexts up to the first in the gap, without those refused outright. */
  function Deliverable(ms: seq<Bytes>): seq<Bytes> {
    if ms == [] || Gap(ms[0]) then []
    else if |ms[0]| > MAX_TRANSPORT_PLAINTEXT then Deliverable(ms[1..])
    else [ms[0]] + Deliverable(ms[1..])
  }

  /** The plaintext each nonce was spent on. */
  function Spent(ms: seq<Bytes>): (ss: seq<Bytes>)
    ensures |ss| <= |ms|
  {
    if ms == [] then []
    else (if |ms[0]| <= MAX_TRANSPORT_PLAINTEXT then [ms[0]] else []) + Spent(ms[1..])
  }

  lemma {:induction false} DeliverableStopsAtGap(ms: seq<Bytes>)
    ensures Deliverable(ms) <= Spent(ms)
    ensures |Deliverable(ms)| < |Spent(ms)| ==> Gap(Spent(ms)[|Deliverable(ms)|])
  {
    if ms != [] && !Gap(ms[0]) {
      DeliverableStopsAtGap(ms[1..]);
    }
  }

  /** A frame that was sent was sealed at some nonce, with that nonce's plaintext. */
  lemma {:induction false} SentAtNonce(a: Aead, role: byte, sent: nat, ms: seq<Bytes>, f: Bytes)
    returns (n: nat, m: Bytes)
    requires Ok(f) in Sent(a, role, sent, ms)
    ensures sent <= n < sent + |Spent(ms)| && m == Spent(ms)[n - sent] && Encrypted(a, role, n, m) == Ok(f)
    decreases ms
  {
    if Encrypted(a, role, sent, ms[0]) == Ok(f) {
      n, m := sent, ms[0];
    } else {
      n, m := SentAtNonce(a, role, SentAfter(sent, ms[0]), ms[1..], f);
    }
  }

  /** A frame sealed at a nonce opens at that nonce only, as what was sealed. */
  lemma OpensAtItsNonce(a: Aead, role: byte, peerRole: byte, nonce: u64, received: u64, m: Bytes, f: Bytes)
    requires Ideal(a) && Ends(role, peerRole) && Encrypted(a, role, nonce, m) == Ok(f)
    ensures !Gap(m) && Decrypted(a, peerRole, received, f) == if received == nonce then Ok(m) else Err
  {
    EncryptSucceedsExactlyUpToBound(a, role, nonce, m);
    DecryptsExactlyInStep(a, role, peerRole, nonce, received, m);
  }

  /** Whatever opens at a nonce is the plaintext that nonce was spent on. */
  lemma OpensAsSent(a: Aead, role: byte, peerRole: byte, ms: seq<Bytes>, received: nat, f: Bytes)
    requires Ideal(a) && Ends(role, peerRole) && |ms| <= U64_MAX && received <= U64_MAX
    requires Ok(f) in Sent(a, role, 0, ms) && Decrypted(a, peerRole, received, f).Ok?
    ensures received < |Spent(ms)| && Decrypted(a, peerRole, received, f).value == Spent(ms)[received]
    ensures !Gap(Spent(ms)[received])
  {
    var n, m := SentAtNonce(a, role, 0, ms, f);
    OpensAtItsNonce(a, role, peerRole, n, received, m, f);
    assert n == received;
  }

  lemma OpensAsDeliverable(a: Aead, role: byte, peerRole: byte, ms: seq<Bytes>, received: nat, f: Bytes)
    requires Ideal(a) && Ends(role, peerRole) && |ms| <= U64_MAX && received <= |Deliverable(ms)|
    requires Ok(f) in Sent(a, role, 0, ms) && Decrypted(a, peerRole, received, f).Ok?
    ensures received < |Deliverable(ms)| && Decrypted(a, peerRole, received, f).value == Deliverable(ms)[received]
  {
    DeliverableStopsAtGap(ms);
    OpensAsSent(a, role, peerRole, ms, received, f);
  }

  lemma {:induction false} ReadsFrom(a: Aead, role: byte, peerRole: byte, ms: seq<Bytes>, received: nat, fs: seq<Bytes>)
    requires Ideal(a) && Ends(role, peerRole) && |ms| <= U64_MAX && Authentic(a, role, peerRole, ms, fs)
    requires received <= |Deliverable(ms)|
    ensures Read(a, peerRole, received, fs) <= Deliverable(ms)[received..]
    decreases fs
  {
    if fs != [] {
      var result := Decrypted(a, peerRole, received, fs[0]);
      DeliverableStopsAtGap(ms);
      if result.Ok? {
        OpensAsDeliverable(a, role, peerRole, ms, received, fs[0]);
      }
      ReadsFrom(a, role, peerRole, ms, ReceivedAfter(received, result), fs[1..]);
    }
  }

  /**
   Whatever an adversary does to the frames of one direction, the receiver reads a prefix of what the sender wanted
   to say: nothing altered, repeated, reordered or left out, and nothing from the first attempt in the gap on.
   */
  lemma ReadsPrefix(a: Aead, role: byte, peerRole: byte, ms: seq<Bytes>, fs: seq<Bytes>)
    requires Ideal(a) && Ends(role, peerRole) && |ms| <= U64_MAX && Authentic(a, role, peerRole, ms, fs)
    ensures Read(a, peerRole, 0, fs) <= Deliverable(ms)
  {
    ReadsFrom(a, role, peerRole, ms, 0, fs);
  }

  /** The frames among the results, in order. */
  function Produced(results: seq<Result<Bytes>>): seq<Bytes> {
    if results == [] then [] else (if results[0].Ok? then [results[0].value] else []) + Produced(results[1..])
  }

  lemma ProducedFirst(result: Result<Bytes>, rest: seq<Result<Bytes>>)
    ensures Produced([result] + rest) == if result.Ok? then [result.value] + Produced(rest) else Produced(rest)
  {
    assert ([result] + rest)[1..] == rest;
  }

  lemma ReadFirst(a: Aead, peerRole: byte, received: nat, f: Bytes, rest: seq<Bytes>)
    ensures var result := Decrypted(a, peerRole, received, f);
            Read(a, peerRole, received, [f] + rest)
            == (if result.Ok? then [result.value] else []) + Read(a, peerRole, ReceivedAfter(received, result), rest)
  {
    assert ([f] + rest)[1..] == rest;
  }

  /** Out of step, nothing is read any more. */
  lemma {:induction false} NothingReadBehind(a: Aead, role: byte, peerRole: byte, sent: nat, received: nat, ms: seq<Bytes>)
    requires Ideal(a) && Ends(role, peerRole) && received < sent && sent + |ms| <= U64_MAX
    ensures Read(a, peerRole, received, Produced(Sent(a, role, sent, ms))) == []
    decreases ms
  {
    if ms != [] {
      var frame, rest := Encrypted(a, role, sent, ms[0]), Sent(a, role, SentAfter(sent, ms[0]), ms[1..]);
      ProducedFirst(frame, rest);
      NothingReadBehind(a, role, peerRole, SentAfter(sent, ms[0]), received, ms[1..]);
      if frame.Ok? {
        ReadFirst(a, peerRole, received, frame.value, Produced(rest));
        DecryptsExactlyInStep(a, role, peerRole, sent, received, ms[0]);
      }
    }
  }

  /** And no less than that prefix either: undisturbed, the receiver reads all of it. */
  lemma {:induction false} ReadsAllUndisturbed(a: Aead, role: byte, peerRole: byte, nonce: nat, ms: seq<Bytes>)
    requires Ideal(a) && Ends(role, peerRole) && nonce + |ms| <= U64_MAX
    ensures Read(a, peerRole, nonce, Produced(Sent(a, role, nonce, ms))) == Deliverable(ms)
    decreases ms
  {
    if ms != [] {
      var frame, rest := Encrypted(a, role, nonce, ms[0]), Sent(a, role, SentAfter(nonce, ms[0]), ms[1..]);
      ProducedFirst(frame, rest);
      EncryptSucceedsExactlyUpToBound(a, role, nonce, ms[0]);
      if frame.Ok? {
        ReadFirst(a, peerRole, nonce, frame.value, Produced(rest));
        DecryptsExactlyInStep(a, role, peerRole, nonce, nonce, ms[0]);
        ReadsAllUndisturbed(a, role, peerRole, nonce + 1, ms[1..]);
      } else if Gap(ms[0]) {
        NothingReadBehind(a, role, peerRole, nonce + 1, nonce, ms[1..]);
      } else {
        ReadsAllUndisturbed(a, role, peerRole, nonce, ms[1..]);
      }
    }
  }
}
