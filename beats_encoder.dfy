/**
 * The Beats (Lumberjack) frame encoder: a frame is written as its version
 * byte, its frame-type byte and then its payload bytes, unchanged.
 */
module Beats {
  import opened Wrappers

  /** A Java `byte`, held as its unsigned bit pattern (`(byte) 0x41` is 0x41, `(byte) -1` is 0xFF). */
  newtype byte = b: int | 0 <= b < 256

  /** A Java `int`. */
  newtype int32 = x: int | -0x8000_0000 <= x < 0x8000_0000

  datatype BeatsFrame = BeatsFrame(version: byte, frameType: byte, payload: seq<byte>)

  /** `BeatsEncoder.encode`: version, frame type, then the payload. */
  function Encode(frame: BeatsFrame): (r: seq<byte>)
    ensures |r| == 2 + |frame.payload|
    ensures r[0] == frame.version && r[1] == frame.frameType
    ensures r[2..] == frame.payload
  {
    [frame.version, frame.frameType] + frame.payload
  }

  /** Reads a frame back: anything of two bytes or more is a frame, shorter input is not. */
  function Decode(bytes: seq<byte>): (r: Option<BeatsFrame>)
    ensures r.None? <==> |bytes| < 2
  {
    if |bytes| < 2 then None else Some(BeatsFrame(bytes[0], bytes[1], bytes[2..]))
  }

  /** Decoding undoes encoding. */
  lemma DecodeEncode(frame: BeatsFrame)
    ensures Decode(Encode(frame)) == Some(frame)
  {
  }

  /** Encoding undoes decoding: every byte string of length two or more is the encoding of exactly one frame. */
  lemma EncodeDecode(bytes: seq<byte>, frame: BeatsFrame)
    ensures Decode(bytes) == Some(frame) <==> Encode(frame) == bytes
  {
    if Encode(frame) == bytes {
      assert bytes[2..] == frame.payload;
    }
  }

  /** Distinct frames have distinct encodings. */
  lemma EncodeInjective(f: BeatsFrame, g: BeatsFrame)
    requires Encode(f) == Encode(g)
    ensures f == g
  {
    DecodeEncode(f);
    DecodeEncode(g);
  }

  // `ByteBuffer.putInt`: four bytes, most significant first, two's complement.

  const TWO_32: int := 0x1_0000_0000

  /** The four bytes of `v`, big-endian. */
  function IntBytes(v: int32): (r: seq<byte>)
    ensures |r| == 4
  {
    var u := v as int % TWO_32;
    [(u / 0x100_0000) as byte, (u / 0x1_0000 % 0x100) as byte, (u / 0x100 % 0x100) as byte, (u % 0x100) as byte]
  }

  /** `ByteBuffer.wrap(b).getInt()`: reads four big-endian bytes as a signed int. */
  function BytesInt(b: seq<byte>): (v: int32)
    requires |b| == 4
    ensures (v as int - Unsigned(b)) % TWO_32 == 0
  {
    var u := Unsigned(b);
    if u < 0x8000_0000 then u as int32 else (u - TWO_32) as int32
  }

  /** The four bytes read as an unsigned number. */
  function Unsigned(b: seq<byte>): (u: int)
    requires |b| == 4
    ensures 0 <= u < TWO_32
  {
    b[0] as int * 0x100_0000 + b[1] as int * 0x1_0000 + b[2] as int * 0x100 + b[3] as int
  }

  /** Splitting a number below 2^32 into bytes and summing them back gives the number. */
  lemma UnsignedIntBytes(v: int32)
    ensures Unsigned(IntBytes(v)) == v as int % TWO_32
  {
    var u := v as int % TWO_32;
    var b := IntBytes(v);
    assert u == u / 0x100_0000 * 0x100_0000 + u % 0x100_0000;
    assert u % 0x100_0000 == u / 0x1_0000 % 0x100 * 0x1_0000 + u % 0x1_0000;
    assert u % 0x1_0000 == u / 0x100 % 0x100 * 0x100 + u % 0x100;
  }

  /** Reading back what `putInt` wrote gives the same int. */
  lemma BytesIntIntBytes(v: int32)
    ensures BytesInt(IntBytes(v)) == v
  {
    UnsignedIntBytes(v);
  }

  /** Division by one of the byte weights recovers the quotient and remainder `u` was built from. */
  lemma DivModUnique(u: int, d: int, q: int, r: int)
    requires d == 0x100 || d == 0x1_0000 || d == 0x100_0000 || d == TWO_32
    requires 0 <= r < d && u == q * d + r
    ensures u / d == q && u % d == r
  {
    if d == 0x100 {
      assert u == q * 0x100 + r;
    } else if d == 0x1_0000 {
      assert u == q * 0x1_0000 + r;
    } else if d == 0x100_0000 {
      assert u == q * 0x100_0000 + r;
    } else {
      assert u == q * 0x1_0000_0000 + r;
    }
  }

  /** Writing what is read from four bytes gives the same bytes. */
  lemma IntBytesBytesInt(b: seq<byte>)
    requires |b| == 4
    ensures IntBytes(BytesInt(b)) == b
  {
    var v := BytesInt(b);
    var u := Unsigned(b);
    var b0, b1, b2, b3 := b[0] as int, b[1] as int, b[2] as int, b[3] as int;
    assert v as int % TWO_32 == u by { DivModUnique(v as int, TWO_32, (v as int - u) / TWO_32, u); }
    DivModUnique(u, 0x100_0000, b0, b1 * 0x1_0000 + b2 * 0x100 + b3);
    DivModUnique(u, 0x1_0000, b0 * 0x100 + b1, b2 * 0x100 + b3);
    DivModUnique(b0 * 0x100 + b1, 0x100, b0, b1);
    DivModUnique(u, 0x100, b0 * 0x1_0000 + b1 * 0x100 + b2, b3);
    DivModUnique(b0 * 0x1_0000 + b1 * 0x100 + b2, 0x100, b0 * 0x100 + b1, b2);
  }

  /** `ByteBuffer.allocate(4).putInt(value).array()`: a new four-byte array holding `value`. */
  method AllocatePutInt(value: int32) returns (a: array<byte>)
    ensures fresh(a)
    ensures a[..] == IntBytes(value)
  {
    a := new byte[4];
    var bytes := IntBytes(value);
    a[0], a[1], a[2], a[3] := bytes[0], bytes[1], bytes[2], bytes[3];
  }

  /** The frame of the encoder test: version 0x31, type 0x41 and the int 123 as payload. */
  lemma EncodeExample()
    ensures IntBytes(123) == [0x00, 0x00, 0x00, 0x7B]
    ensures Encode(BeatsFrame(0x31, 0x41, IntBytes(123))) == [0x31, 0x41, 0x00, 0x00, 0x00, 0x7B]
  {
  }

  /** The encoder test, with the payload built the way the test builds it. */
  method EncodeTestFrame() returns (encoded: seq<byte>)
    ensures encoded == [0x31, 0x41, 0x00, 0x00, 0x00, 0x7B]
  {
    var payload := AllocatePutInt(123);
    encoded := Encode(BeatsFrame(0x31, 0x41, payload[..]));
    EncodeExample();
  }
}
