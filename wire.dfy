/** Optional values, used wherever a read can fail. */
module Wrappers {
  datatype Option<+T> = None | Some(value: T)
}

/**
  The big-endian primitives of java.io.DataInput that the listener uses on its
  message buffer: readUnsignedShort (the length prefix of readUTF), the raw
  payload of readUTF, and readFloat taken as its 32-bit pattern.

  Every reader takes the whole buffer and a cursor position and returns the
  value together with the position just past it, or None where the Java
  reader throws because the buffer ends too early. Beside each reader sits the
  encoder a sender (DataOutput.writeShort / writeUTF / writeFloat) would use,
  and the lemmas that tie the two together in both directions.
*/
module Wire {
  import opened Wrappers

  /** One octet of the buffer, as its unsigned bit pattern. */
  type byte = x: int | 0 <= x < 0x100

  /** The IEEE 754 binary32 bit pattern of a Java float (Float.floatToRawIntBits, unsigned). */
  type Bits32 = x: nat | x < 0x1_0000_0000

  /** readUTF's length prefix is an unsigned 16-bit count of payload bytes. */
  const MaxUtfLength: nat := 0xFFFF

  /** A value read at some position, with the position just past it. */
  datatype Read<+T> = Read(value: T, next: nat)

  lemma DivModByte(hi: nat, lo: byte)
    ensures (hi * 0x100 + lo) / 0x100 == hi
    ensures (hi * 0x100 + lo) % 0x100 == lo
  {
  }

  /** DataOutput.writeShort for a count that fits in 16 bits. */
  function EncodeUnsignedShort(n: nat): (r: seq<byte>)
    requires n <= MaxUtfLength
    ensures |r| == 2
  {
    [n / 0x100, n % 0x100]
  }

  /** DataOutput.writeUTF, given the already-encoded payload bytes. */
  function EncodeUtf(payload: seq<byte>): (r: seq<byte>)
    requires |payload| <= MaxUtfLength
    ensures |r| == 2 + |payload|
    ensures r[2..] == payload
  {
    EncodeUnsignedShort(|payload|) + payload
  }

  /** DataOutput.writeFloat, given the float's bit pattern: most significant byte first. */
  function EncodeFloatBits(bits: Bits32): (r: seq<byte>)
    ensures |r| == 4
  {
    var b1 := bits / 0x100;
    var b2 := b1 / 0x100;
    [b2 / 0x100, b2 % 0x100, b1 % 0x100, bits % 0x100]
  }

  /** readUnsignedShort: two bytes, high byte first. */
  function UnsignedShortAt(data: seq<byte>, pos: nat): (r: Option<Read<nat>>)
    ensures r.Some? <==> pos + 2 <= |data|
    ensures r.Some? ==> r.value.next == pos + 2 && r.value.value <= MaxUtfLength
    ensures r.Some? ==> EncodeUnsignedShort(r.value.value) == data[pos..pos + 2]
  {
    if pos + 2 <= |data| then
      DivModByte(data[pos], data[pos + 1]);
      Some(Read(data[pos] as int * 0x100 + data[pos + 1], pos + 2))
    else
      None
  }

  /**
    The byte-level part of readUTF: the length prefix, then exactly that many
    payload bytes. Turning the payload into characters is the caller's step.
  */
  function UtfBytesAt(data: seq<byte>, pos: nat): (r: Option<Read<seq<byte>>>)
    ensures r.None? <==>
      pos + 2 > |data| || pos + 2 + UnsignedShortAt(data, pos).value.value > |data|
    ensures r.Some? ==>
      && pos + 2 + |r.value.value| == r.value.next <= |data|
      && |r.value.value| <= MaxUtfLength
      && data[pos..r.value.next] == EncodeUtf(r.value.value)
  {
    match UnsignedShortAt(data, pos)
    case None => None
    case Some(Read(len, start)) =>
      if start + len <= |data| then
        var payload := data[start..start + len];
        assert data[pos..start + len] == data[pos..start] + payload;
        Some(Read(payload, start + len))
      else
        None
  }

  /** readFloat, kept as the float's 32-bit pattern (readInt, high byte first). */
  function FloatBitsAt(data: seq<byte>, pos: nat): (r: Option<Read<Bits32>>)
    ensures r.Some? <==> pos + 4 <= |data|
    ensures r.Some? ==> r.value.next == pos + 4 && EncodeFloatBits(r.value.value) == data[pos..pos + 4]
  {
    if pos + 4 <= |data| then
      var hi: nat := data[pos] as int * 0x100 + data[pos + 1];
      var mid: nat := hi * 0x100 + data[pos + 2];
      DivModByte(mid, data[pos + 3]);
      DivModByte(hi, data[pos + 2]);
      DivModByte(data[pos], data[pos + 1]);
      Some(Read(mid * 0x100 + data[pos + 3], pos + 4))
    else
      None
  }

  /** Writing a count and reading it back at the same place gives the count. */
  lemma {:induction false} UnsignedShortRoundTrip(before: seq<byte>, n: nat, after: seq<byte>)
    requires n <= MaxUtfLength
    ensures UnsignedShortAt(before + EncodeUnsignedShort(n) + after, |before|) == Some(Read(n, |before| + 2))
  {
    var data := before + EncodeUnsignedShort(n) + after;
    assert data[|before|] == n / 0x100 && data[|before| + 1] == n % 0x100;
  }

  /**
    writeUTF then readUTF at the same place returns exactly the payload,
    whatever precedes it and whatever follows it.
  */
  lemma {:induction false} UtfRoundTrip(before: seq<byte>, payload: seq<byte>, after: seq<byte>)
    requires |payload| <= MaxUtfLength
    ensures UtfBytesAt(before + EncodeUtf(payload) + after, |before|)
            == Some(Read(payload, |before| + 2 + |payload|))
  {
    var data := before + EncodeUtf(payload) + after;
    assert data == before + EncodeUnsignedShort(|payload|) + (payload + after);
    UnsignedShortRoundTrip(before, |payload|, payload + after);
    var start := |before| + 2;
    assert data[start..start + |payload|] == payload;
  }

  /** writeFloat then readFloat at the same place returns the same bit pattern. */
  lemma {:induction false} FloatBitsRoundTrip(before: seq<byte>, bits: Bits32, after: seq<byte>)
    ensures FloatBitsAt(before + EncodeFloatBits(bits) + after, |before|) == Some(Read(bits, |before| + 4))
  {
    var data := before + EncodeFloatBits(bits) + after;
    var p := |before|;
    assert data[p..p + 4] == EncodeFloatBits(bits);
    var b1 := bits / 0x100;
    var b2 := b1 / 0x100;
    assert data[p] == b2 / 0x100 && data[p + 1] == b2 % 0x100;
    assert data[p + 2] == b1 % 0x100 && data[p + 3] == bits % 0x100;
  }

  /** readUTF at any position holding a written payload returns that payload. */
  lemma {:induction false} UtfBytesAtEncoded(data: seq<byte>, pos: nat, payload: seq<byte>)
    requires |payload| <= MaxUtfLength && pos + 2 + |payload| <= |data|
    requires data[pos..pos + 2 + |payload|] == EncodeUtf(payload)
    ensures UtfBytesAt(data, pos) == Some(Read(payload, pos + 2 + |payload|))
  {
    UtfRoundTrip(data[..pos], payload, data[pos + 2 + |payload|..]);
    assert data == data[..pos] + EncodeUtf(payload) + data[pos + 2 + |payload|..];
  }

  /** readFloat at any position holding a written bit pattern returns that pattern. */
  lemma {:induction false} FloatBitsAtEncoded(data: seq<byte>, pos: nat, bits: Bits32)
    requires pos + 4 <= |data|
    requires data[pos..pos + 4] == EncodeFloatBits(bits)
    ensures FloatBitsAt(data, pos) == Some(Read(bits, pos + 4))
  {
    FloatBitsRoundTrip(data[..pos], bits, data[pos + 4..]);
    assert data == data[..pos] + EncodeFloatBits(bits) + data[pos + 4..];
  }

  /**
    A read looks at nothing past the bytes it consumes: on a buffer cut at
    `k` it gives the same answer as on the whole buffer when it ends by `k`,
    and fails otherwise.
  */
  lemma {:induction false} UtfBytesAtPrefix(data: seq<byte>, pos: nat, k: nat)
    requires pos <= k <= |data|
    ensures UtfBytesAt(data[..k], pos) ==
      if UtfBytesAt(data, pos).Some? && UtfBytesAt(data, pos).value.next <= k
      then UtfBytesAt(data, pos) else None
  {
    if pos + 2 <= k {
      assert data[..k][pos] == data[pos] && data[..k][pos + 1] == data[pos + 1];
      var r := UtfBytesAt(data, pos);
      if r.Some? && r.value.next <= k {
        assert data[..k][pos + 2..r.value.next] == data[pos + 2..r.value.next];
      }
    }
  }

  /** The same for readFloat. */
  lemma {:induction false} FloatBitsAtPrefix(data: seq<byte>, pos: nat, k: nat)
    requires pos <= k <= |data|
    ensures FloatBitsAt(data[..k], pos) ==
      if pos + 4 <= k then FloatBitsAt(data, pos) else None
  {
    if pos + 4 <= k {
      assert data[..k][pos..pos + 4] == data[pos..pos + 4];
      assert data[..k][pos] == data[pos] && data[..k][pos + 1] == data[pos + 1];
      assert data[..k][pos + 2] == data[pos + 2] && data[..k][pos + 3] == data[pos + 3];
    }
  }
}
