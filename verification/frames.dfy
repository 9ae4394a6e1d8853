/** Protocol frames: their codec, and the transport bound that the frame overhead imposes. */
module Frames {
  import opened Octets
  import opened Cursors
  import opened Records

  const FRAME_MAGIC: Bytes := Ascii("OMARCHY-PAIR-V3")
  const FRAME_VERSION: byte := 3
  const MODE_FIRST_CONTACT: byte := 1
  const MODE_RECONNECT: byte := 2
  const KIND_HANDSHAKE: byte := 1
  const KIND_AUTH: byte := 2
  const KIND_TRANSPORT: byte := 3
  const MAX_HANDSHAKE_FRAME: nat := 2048
  const MAX_AUTH_FRAME: nat := 4096
  const MAX_AUTH_PLAINTEXT: nat := 2048
  const MAX_TRANSPORT_PLAINTEXT: nat := 48 * 1024
  const MAX_TRANSPORT_FRAME: nat := MAX_TRANSPORT_PLAINTEXT + 16 + 8
  const TAG: nat := 16

  /** Octets a frame adds to its payload. */
  const OVERHEAD: nat := 21

  /** The longest plaintext `encrypt` can frame: less than `MAX_TRANSPORT_PLAINTEXT`. */
  const LONGEST_TRANSPORTABLE: nat := 49139

  datatype Frame = Frame(kind: byte, role: byte, sequence: byte, payload: Bytes)

  predicate ValidRole(role: byte) {
    role == ROLE_INITIATOR || role == ROLE_RESPONDER
  }

  function FrameLayout(f: Frame): (b: Bytes)
    requires |f.payload| <= U16_MAX
    ensures |b| == OVERHEAD + |f.payload|
  {
    FRAME_MAGIC + ([FRAME_VERSION] + ([f.kind] + ([f.role] + ([f.sequence] + (BE16(|f.payload|) + f.payload)))))
  }

  /** `encode_frame_with_sequence`. */
  function EncodeFrame(f: Frame, max: nat): Result<Bytes> {
    if |f.payload| > U16_MAX then Err
    else if |FrameLayout(f)| > max then Err
    else Ok(FrameLayout(f))
  }

  /** Kind, role and sequence octets. */
  function SplitHeader(b: Bytes): (r: Result<(Frame, Bytes)>)
    ensures r.Ok? ==>
              var f := r.value.0;
              FRAME_MAGIC + ([FRAME_VERSION] + ([f.kind] + ([f.role] + ([f.sequence] + r.value.1)))) == b
  {
    var (magic, b1) :- Split(b, |FRAME_MAGIC|);
    if magic != FRAME_MAGIC then Err
    else
      var (version, b2) :- Split(b1, 1);
      if version[0] != FRAME_VERSION then Err
      else
        var (kind, b3) :- Split(b2, 1);
        var (role, b4) :- Split(b3, 1);
        var (sequence, b5) :- Split(b4, 1);
        assert version == [version[0]] && kind == [kind[0]] && role == [role[0]] && sequence == [sequence[0]];
        Ok((Frame(kind[0], role[0], sequence[0], []), b5))
  }

  /** `decode_frame_with_sequence`. */
  function DecodeFrame(b: Bytes, max: nat): (r: Result<Frame>)
    ensures r.Ok? ==> ValidRole(r.value.role) && 1 <= |r.value.payload| <= U16_MAX
  {
    if |b| > max then Err
    else
      var (header, b1) :- SplitHeader(b);
      var (payload, b2) :- SplitField(b1, U16_MAX);
      if b2 != [] || !ValidRole(header.role) then Err
      else Ok(header.(payload := payload))
  }

  lemma SplitHeaderPrinted(f: Frame, tail: Bytes)
    ensures SplitHeader(FRAME_MAGIC + ([FRAME_VERSION] + ([f.kind] + ([f.role] + ([f.sequence] + tail)))))
         == Ok((f.(payload := []), tail))
  {
    var s3 := [f.sequence] + tail;
    var s2 := [f.role] + s3;
    var s1 := [f.kind] + s2;
    SplitPrinted(FRAME_MAGIC, [FRAME_VERSION] + s1);
    SplitPrinted([FRAME_VERSION], s1);
    SplitPrinted([f.kind], s2);
    SplitPrinted([f.role], s3);
    SplitPrinted([f.sequence], tail);
  }

  /** Every frame that encodes, with a payload and a valid role, decodes to itself. */
  lemma DecodeEncoded(f: Frame, max: nat)
    requires EncodeFrame(f, max).Ok? && |f.payload| > 0 && ValidRole(f.role)
    ensures DecodeFrame(EncodeFrame(f, max).value, max) == Ok(f)
  {
    assert BE16(|f.payload|) + f.payload == Field(f.payload) + [];
    SplitHeaderPrinted(f, Field(f.payload) + []);
    SplitFieldPrinted(f.payload, [], U16_MAX);
  }

  /** Every accepted octet string is the encoding of what it decodes to. */
  lemma EncodeDecoded(b: Bytes, max: nat)
    requires DecodeFrame(b, max).Ok?
    ensures EncodeFrame(DecodeFrame(b, max).value, max) == Ok(b)
  {
    var f := DecodeFrame(b, max).value;
    assert BE16(|f.payload|) + f.payload == Field(f.payload) + [];
  }

  /** A frame with an empty payload can be encoded but is never accepted. */
  lemma EmptyFrameIsRefused(f: Frame, max: nat)
    requires EncodeFrame(f, max).Ok? && f.payload == []
    ensures DecodeFrame(EncodeFrame(f, max).value, max).Err?
  {
    SplitHeaderPrinted(f, BE16(0) + []);
    SplitU16Printed(0, []);
  }

  // ---- Start frames ----

  datatype Start = Start(mode: byte, pairId: Bytes, message: Bytes)

  predicate ValidMode(mode: byte) {
    mode == MODE_FIRST_CONTACT || mode == MODE_RECONNECT
  }

  function EncodeStart(s: Start, max: nat): Result<Bytes> {
    if !LowerHex32(s.pairId) || !ValidMode(s.mode) then Err
    else EncodeFrame(Frame(KIND_HANDSHAKE, ROLE_INITIATOR, 0, [s.mode] + (s.pairId + s.message)), max)
  }

  function DecodeStart(b: Bytes, max: nat): Result<Start> {
    var f :- DecodeFrame(b, max);
    if f.sequence != 0 || f.kind != KIND_HANDSHAKE || f.role != ROLE_INITIATOR || |f.payload| < 33 then Err
    else
      var pairId := f.payload[1..33];
      if !Utf8(pairId) || !LowerHex32(pairId) then Err
      else Ok(Start(f.payload[0], pairId, f.payload[33..]))
  }

  /** The pieces of a start payload. */
  lemma StartPieces(s: Start)
    requires |s.pairId| == 32
    ensures var payload := [s.mode] + (s.pairId + s.message);
            |payload| >= 33 && payload[0] == s.mode && payload[1..33] == s.pairId && payload[33..] == s.message
  {
    var payload := [s.mode] + (s.pairId + s.message);
    assert payload[1..] == s.pairId + s.message;
    assert payload[1..33] == payload[1..][..32] && payload[33..] == payload[1..][32..];
  }

  lemma DecodeEncodedStart(s: Start, max: nat)
    requires EncodeStart(s, max).Ok?
    ensures DecodeStart(EncodeStart(s, max).value, max) == Ok(s)
  {
    var payload := [s.mode] + (s.pairId + s.message);
    DecodeEncoded(Frame(KIND_HANDSHAKE, ROLE_INITIATOR, 0, payload), max);
    LowerHexIsUtf8(s.pairId);
    StartPieces(s);
  }

  lemma EncodeDecodedStart(b: Bytes, max: nat)
    requires DecodeStart(b, max).Ok? && ValidMode(DecodeStart(b, max).value.mode)
    ensures EncodeStart(DecodeStart(b, max).value, max) == Ok(b)
  {
    EncodeDecoded(b, max);
    var f := DecodeFrame(b, max).value;
    var s := DecodeStart(b, max).value;
    assert f.payload == [f.payload[0]] + (f.payload[1..33] + f.payload[33..]);
    assert f == Frame(KIND_HANDSHAKE, ROLE_INITIATOR, 0, [s.mode] + (s.pairId + s.message));
  }

  // ---- The imperative forms ----

  method PrintFrame(f: Frame, max: nat) returns (r: Result<Bytes>)
    ensures r == EncodeFrame(f, max)
  {
    if |f.payload| > U16_MAX {
      return Err;
    }
    ghost var s4 := BE16(|f.payload|) + f.payload;
    ghost var s3 := [f.sequence] + s4;
    ghost var s2 := [f.role] + s3;
    ghost var s1 := [f.kind] + s2;
    var buffer := new ByteBuffer();
    buffer.Extend(FRAME_MAGIC, [FRAME_VERSION] + s1);
    buffer.Push(FRAME_VERSION, s1);
    buffer.Push(f.kind, s2);
    buffer.Push(f.role, s3);
    buffer.Push(f.sequence, s4);
    buffer.Extend(BE16(|f.payload|), f.payload);
    buffer.Extend(f.payload, []);
    assert [] + FrameLayout(f) == FrameLayout(f);
    return if |buffer.out| > max then Err else Ok(buffer.out);
  }

  method ParseFrame(b: Bytes, max: nat) returns (r: Result<Frame>)
    ensures r == DecodeFrame(b, max)
  {
    if |b| > max {
      return Err;
    }
    var c := new Cursor(b);
    var header :- ParseHeader(c);
    var payload :- c.Bytes(U16_MAX);
    if c.position != |b| {
      return Err;
    }
    if header.role != ROLE_INITIATOR && header.role != ROLE_RESPONDER {
      return Err;
    }
    return Ok(header.(payload := payload));
  }

  method ParseHeader(c: Cursor) returns (r: Result<Frame>)
    requires c.Valid()
    modifies c
    ensures c.Valid()
    ensures match SplitHeader(old(c.Rest()))
            case Ok(split) => r == Ok(split.0) && c.Rest() == split.1
            case Err => r.Err?
  {
    var magic :- c.Take(|FRAME_MAGIC|);
    if magic != FRAME_MAGIC {
      return Err;
    }
    var version :- c.U8();
    if version != FRAME_VERSION {
      return Err;
    }
    var kind :- c.U8();
    var role :- c.U8();
    var sequence :- c.U8();
    return Ok(Frame(kind, role, sequence, []));
  }

  // ---- Encrypted transport ----

  /** One direction of a Noise transport: the ciphertext of the n-th message, and its inverse. */
  datatype Aead = Aead(seal: (nat, Bytes) -> Bytes, open: (nat, Bytes) -> Option<Bytes>)

  /** Sixteen octets of tag, exact opening, and nothing opens under another of the 2^64 nonces. */
  ghost predicate Ideal(a: Aead) {
    && (forall n: u64, m: Bytes :: |a.seal(n, m)| == |m| + TAG && a.open(n, a.seal(n, m)) == Some(m))
    && (forall n: u64, k: u64, m: Bytes :: n != k ==> a.open(k, a.seal(n, m)) == None)
  }

  /** One end of an authenticated session: it seals in one direction and opens in the other. */
  class Transport {
    const outgoing: Aead
    const incoming: Aead
    const localRole: byte
    var sent: nat
    var received: nat

    constructor (outgoing: Aead, incoming: Aead, localRole: byte)
      ensures this.outgoing == outgoing && this.incoming == incoming && this.localRole == localRole
      ensures sent == 0 && received == 0
    {
      this.outgoing, this.incoming, this.localRole := outgoing, incoming, localRole;
      sent, received := 0, 0;
    }

    /** The nonce is spent as soon as the cipher has run, even when the frame then proves too long. */
    method Encrypt(plaintext: Bytes) returns (r: Result<Bytes>)
      modifies this`sent
      ensures r == Encrypted(outgoing, localRole, old(sent), plaintext)
      ensures sent == SentAfter(old(sent), plaintext)
    {
      if |plaintext| > MAX_TRANSPORT_PLAINTEXT {
        return Err;
      }
      var ciphertext := outgoing.seal(sent, plaintext);
      sent := sent + 1;
      r := PrintFrame(Frame(KIND_TRANSPORT, localRole, 0, ciphertext), MAX_TRANSPORT_FRAME);
    }

    method Decrypt(frame: Bytes) returns (r: Result<Bytes>)
      modifies this`received
      ensures r == Decrypted(incoming, localRole, old(received), frame)
      ensures received == ReceivedAfter(old(received), r)
    {
      var f :- ParseFrame(frame, MAX_TRANSPORT_FRAME);
      if f.sequence != 0 || f.kind != KIND_TRANSPORT || f.role == localRole {
        return Err;
      }
      var plaintext := incoming.open(received, f.payload);
      if plaintext.None? || |plaintext.value| > MAX_TRANSPORT_PLAINTEXT {
        return Err;
      }
      received := received + 1;
      return Ok(plaintext.value);
    }
  }

  /** The sender's nonce after it tried to encrypt a plaintext. */
  function SentAfter(sent: nat, plaintext: Bytes): nat {
    if |plaintext| <= MAX_TRANSPORT_PLAINTEXT then sent + 1 else sent
  }

  /** The receiver's nonce after a frame. */
  function ReceivedAfter(received: nat, result: Result<Bytes>): nat {
    if result.Ok? then received + 1 else received
  }

  function Encrypted(a: Aead, role: byte, nonce: nat, plaintext: Bytes): Result<Bytes> {
    if |plaintext| > MAX_TRANSPORT_PLAINTEXT then Err
    else EncodeFrame(Frame(KIND_TRANSPORT, role, 0, a.seal(nonce, plaintext)), MAX_TRANSPORT_FRAME)
  }

  function Decrypted(a: Aead, localRole: byte, nonce: nat, frame: Bytes): Result<Bytes> {
    var f :- DecodeFrame(frame, MAX_TRANSPORT_FRAME);
    if f.sequence != 0 || f.kind != KIND_TRANSPORT || f.role == localRole then Err
    else
      match a.open(nonce, f.payload)
      case None => Err
      case Some(plaintext) => if |plaintext| > MAX_TRANSPORT_PLAINTEXT then Err else Ok(plaintext)
  }

  /** `encrypt` succeeds exactly up to 49,139 octets, short of the 49,152 its own check allows. */
  lemma EncryptSucceedsExactlyUpToBound(a: Aead, role: byte, nonce: u64, plaintext: Bytes)
    requires Ideal(a)
    ensures Encrypted(a, role, nonce, plaintext).Ok? <==> |plaintext| <= LONGEST_TRANSPORTABLE
  {
    assert |a.seal(nonce, plaintext)| == |plaintext| + TAG;
  }

  /** What one end encrypts at a nonce, the other end decrypts at that nonce and at no other. */
  lemma DecryptsExactlyInStep(a: Aead, role: byte, peerRole: byte, nonce: u64, other: u64, plaintext: Bytes)
    requires Ideal(a) && ValidRole(role) && ValidRole(peerRole) && role != peerRole
    requires Encrypted(a, role, nonce, plaintext).Ok?
    ensures Decrypted(a, peerRole, other, Encrypted(a, role, nonce, plaintext).value)
         == if other == nonce then Ok(plaintext) else Err
  {
    var sealed := a.seal(nonce, plaintext);
    assert |sealed| == |plaintext| + TAG && a.open(nonce, sealed) == Some(plaintext);
    DecodeEncoded(Frame(KIND_TRANSPORT, role, 0, sealed), MAX_TRANSPORT_FRAME);
  }

  /** No end accepts a frame of its own role, at any nonce and under any keys: nothing can be reflected to its sender. */
  lemma OwnFramesAreRefused(a: Aead, b: Aead, role: byte, nonce: nat, other: nat, plaintext: Bytes)
    requires ValidRole(role) && Encrypted(a, role, nonce, plaintext).Ok?
    ensures Decrypted(b, role, other, Encrypted(a, role, nonce, plaintext).value).Err?
  {
    var sealed := a.seal(nonce, plaintext);
    if sealed != [] {
      DecodeEncoded(Frame(KIND_TRANSPORT, role, 0, sealed), MAX_TRANSPORT_FRAME);
    } else {
      EmptyFrameIsRefused(Frame(KIND_TRANSPORT, role, 0, []), MAX_TRANSPORT_FRAME);
    }
  }

  // ---- Application messages ----

  const APP_MAGIC: Bytes := Ascii("OMARCHY-PAIR-RECORD-V3")
  const APP_FRAME_LIMIT: nat := 48 * 1024
  const MAX_WIRE_FRAME: nat := 64 * 1024

  datatype PairMessage = Request | Prepared(record: Bytes) | Complete(record: Bytes) | Finalized

  /** Octets of the message's JSON text: a tag, and for a record its octets as a number array. */
  function MessageSize(m: PairMessage): nat {
    match m
    case Request => |"{\"type\":\"request\"}"|
    case Finalized => |"{\"type\":\"finalized\"}"|
    case Prepared(record) => |"{\"type\":\"prepared\",\"record\":}"| + ArraySize(record)
    case Complete(record) => |"{\"type\":\"complete\",\"record\":}"| + ArraySize(record)
  }

  /** `encode_app` succeeds. */
  predicate EncodesApp(m: PairMessage) {
    |APP_MAGIC| + MessageSize(m) <= APP_FRAME_LIMIT
  }

  /** `write_wire` accepts. */
  predicate WritesWire(frame: Bytes) {
    1 <= |frame| <= MAX_WIRE_FRAME
  }

  /** Every message around a serialized record passes each size limit on its way to the peer. */
  lemma EveryMessageIsTransportable(m: PairMessage, payload: Bytes, a: Aead, role: byte, peerRole: byte, nonce: u64)
    requires (m.Prepared? || m.Complete?) ==> |m.record| <= MAX_RECORD_BYTES
    requires |payload| == |APP_MAGIC| + MessageSize(m)
    requires Ideal(a) && ValidRole(role) && ValidRole(peerRole) && role != peerRole
    ensures EncodesApp(m)
    ensures Encrypted(a, role, nonce, payload).Ok?
    ensures WritesWire(Encrypted(a, role, nonce, payload).value)
    ensures Decrypted(a, peerRole, nonce, Encrypted(a, role, nonce, payload).value) == Ok(payload)
  {
    if m.Prepared? || m.Complete? {
      NumbersSizeBound(m.record);
    }
    EncryptSucceedsExactlyUpToBound(a, role, nonce, payload);
    DecryptsExactlyInStep(a, role, peerRole, nonce, nonce, payload);
  }
}
