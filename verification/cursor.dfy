/** Bounded length-prefixed fields: the appending printer and the cursor every parser reads through. */
module Cursors {
  import opened Octets

  /** A u16 length followed by that many octets (`put_bytes`). */
  function Field(value: Bytes): (b: Bytes)
    requires 1 <= |value| <= U16_MAX
    ensures |b| == |value| + 2
  {
    BE16(|value|) + value
  }

  predicate Bounded(value: Bytes, max: nat) {
    1 <= |value| <= max && |value| <= U16_MAX
  }

  /** Split off the next n octets. */
  function Split(b: Bytes, n: nat): (r: Result<(Bytes, Bytes)>)
    ensures r.Ok? <==> n <= |b|
    ensures r.Ok? ==> |r.value.0| == n && r.value.0 + r.value.1 == b
  {
    if n <= |b| then Ok((b[..n], b[n..])) else Err
  }

  function SplitU16(b: Bytes): (r: Result<(u16, Bytes)>)
    ensures r.Ok? ==> BE16(r.value.0) + r.value.1 == b
  {
    var (head, rest) :- Split(b, 2);
    BEInvertsFromBE(head);
    Widths();
    Ok((FromBE16(head), rest))
  }

  function SplitU64(b: Bytes): (r: Result<(u64, Bytes)>)
    ensures r.Ok? ==> BE64(r.value.0) + r.value.1 == b
  {
    var (head, rest) :- Split(b, 8);
    BEInvertsFromBE(head);
    Widths();
    Ok((FromBE64(head), rest))
  }

  /** `Cursor::bytes(max)`: a length prefix, refused when zero or above max, then the octets. */
  function SplitField(b: Bytes, max: nat): (r: Result<(Bytes, Bytes)>)
    ensures r.Ok? ==> Bounded(r.value.0, max) && Field(r.value.0) + r.value.1 == b
  {
    var (n, rest) :- SplitU16(b);
    if n == 0 || n > max then Err
    else
      var (value, tail) :- Split(rest, n);
      assert BE16(n) + (value + tail) == (BE16(n) + value) + tail;
      Ok((value, tail))
  }

  // ---- Each splitter undoes its printer ----

  lemma SplitPrinted(value: Bytes, tail: Bytes)
    ensures Split(value + tail, |value|) == Ok((value, tail))
  {
    assert (value + tail)[..|value|] == value;
    assert (value + tail)[|value|..] == tail;
  }

  lemma SplitU16Printed(n: u16, tail: Bytes)
    ensures SplitU16(BE16(n) + tail) == Ok((n, tail))
  {
    SplitPrinted(BE16(n), tail);
    BE16Inverse(n);
  }

  lemma SplitU64Printed(n: u64, tail: Bytes)
    ensures SplitU64(BE64(n) + tail) == Ok((n, tail))
  {
    SplitPrinted(BE64(n), tail);
    BE64Inverse(n);
  }

  lemma SplitFieldPrinted(value: Bytes, tail: Bytes, max: nat)
    requires Bounded(value, max)
    ensures SplitField(Field(value) + tail, max) == Ok((value, tail))
  {
    assert Field(value) + tail == BE16(|value|) + (value + tail);
    SplitU16Printed(|value|, value + tail);
    SplitPrinted(value, tail);
  }

  // ---- Peeling equal concatenations ----

  lemma PeelFixed(a: Bytes, x: Bytes, b: Bytes, y: Bytes)
    requires |a| == |b|
    requires a + x == b + y
    ensures a == b && x == y
  {
    SplitPrinted(a, x);
    SplitPrinted(b, y);
  }

  lemma PeelField(a: Bytes, x: Bytes, b: Bytes, y: Bytes)
    requires 1 <= |a| <= U16_MAX && 1 <= |b| <= U16_MAX
    requires Field(a) + x == Field(b) + y
    ensures a == b && x == y
  {
    SplitFieldPrinted(a, x, U16_MAX);
    SplitFieldPrinted(b, y, U16_MAX);
  }

  lemma PeelU64(a: u64, x: Bytes, b: u64, y: Bytes)
    requires BE64(a) + x == BE64(b) + y
    ensures a == b && x == y
  {
    SplitU64Printed(a, x);
    SplitU64Printed(b, y);
  }

  // ---- The mutable forms ----

  /**
   The growing `Vec<u8>` a printer appends to.  The ghost `tail` is what the layout still expects:
   appending moves a field from the front of the expected tail to the end of the buffer.
   */
  class ByteBuffer {
    var out: Bytes

    constructor ()
      ensures out == []
    {
      out := [];
    }

    method Push(b: byte, ghost tail: Bytes)
      modifies this
      ensures out == old(out) + [b]
      ensures out + tail == old(out) + ([b] + tail)
    {
      out := out + [b];
    }

    method Extend(bytes: Bytes, ghost tail: Bytes)
      modifies this
      ensures out == old(out) + bytes
      ensures out + tail == old(out) + (bytes + tail)
    {
      out := out + bytes;
    }

    method PutBytes(value: Bytes, max: nat, ghost tail: Bytes) returns (ok: bool)
      modifies this
      ensures ok == Bounded(value, max)
      ensures ok ==> out == old(out) + Field(value) && out + tail == old(out) + (Field(value) + tail)
      ensures !ok ==> out == old(out)
    {
      if |value| == 0 || |value| > max || |value| > U16_MAX {
        return false;
      }
      out := out + BE16(|value|);
      out := out + value;
      return true;
    }
  }

  /** A read position over a byte slice. */
  class Cursor {
    const bytes: Bytes
    var position: nat

    ghost predicate Valid()
      reads this
    {
      position <= |bytes|
    }

    function Rest(): Bytes
      requires Valid()
      reads this
    {
      bytes[position..]
    }

    constructor (bytes: Bytes)
      ensures Valid() && this.bytes == bytes && Rest() == bytes
    {
      this.bytes := bytes;
      position := 0;
    }

    method Remaining() returns (n: nat)
      requires Valid()
      ensures n == |Rest()|
    {
      return |bytes| - position;
    }

    method Take(n: nat) returns (r: Result<Bytes>)
      requires Valid()
      modifies this
      ensures Valid()
      ensures match Split(old(Rest()), n)
              case Ok(split) => r == Ok(split.0) && Rest() == split.1
              case Err => r.Err? && Rest() == old(Rest())
    {
      if position + n > |bytes| {
        return Err;
      }
      var value := bytes[position..position + n];
      assert value == Rest()[..n];
      assert bytes[position + n..] == Rest()[n..];
      position := position + n;
      return Ok(value);
    }

    method U8() returns (r: Result<byte>)
      requires Valid()
      modifies this
      ensures Valid()
      ensures match Split(old(Rest()), 1)
              case Ok(split) => r == Ok(split.0[0]) && Rest() == split.1
              case Err => r.Err?
    {
      var head := Take(1);
      return if head.Ok? then Ok(head.value[0]) else Err;
    }

    method U16() returns (r: Result<u16>)
      requires Valid()
      modifies this
      ensures Valid()
      ensures match SplitU16(old(Rest()))
              case Ok(split) => r == Ok(split.0) && Rest() == split.1
              case Err => r.Err?
    {
      var head := Take(2);
      return if head.Ok? then Ok(FromBE16(head.value)) else Err;
    }

    method U64() returns (r: Result<u64>)
      requires Valid()
      modifies this
      ensures Valid()
      ensures match SplitU64(old(Rest()))
              case Ok(split) => r == Ok(split.0) && Rest() == split.1
              case Err => r.Err?
    {
      var head := Take(8);
      return if head.Ok? then Ok(FromBE64(head.value)) else Err;
    }

    method Bytes(max: nat) returns (r: Result<Octets.Bytes>)
      requires Valid()
      modifies this
      ensures Valid()
      ensures match SplitField(old(Rest()), max)
              case Ok(split) => r == Ok(split.0) && Rest() == split.1
              case Err => r.Err?
    {
      var n := U16();
      if n.Err? || n.value == 0 || n.value > max {
        return Err;
      }
      r := Take(n.value);
    }
  }
}
