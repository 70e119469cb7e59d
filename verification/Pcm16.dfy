/** Signed 16-bit samples as little-endian bytes. */
module Pcm16 {

  type Byte = n: int | 0 <= n < 256
  type Int16 = n: int | -32768 <= n < 32768

  function Low(n: Int16): Byte {
    (if n < 0 then n + 65536 else n) % 256
  }

  function High(n: Int16): Byte {
    (if n < 0 then n + 65536 else n) / 256
  }

  function Decode(low: Byte, high: Byte): Int16 {
    var u := low + 256 * high;
    if u < 32768 then u else u - 65536
  }

  lemma EncodeDecode(n: Int16)
    ensures Decode(Low(n), High(n)) == n
  {
  }

  lemma DecodeEncode(low: Byte, high: Byte)
    ensures Low(Decode(low, high)) == low && High(Decode(low, high)) == high
  {
  }

  /** The low byte comes first: a sample is the low byte plus 256 times the high one, in two's complement. */
  lemma LittleEndian(n: Int16)
    ensures Low(n) + 256 * High(n) == if n >= 0 then n else 65536 + n
  {
  }

  /** The samples of a byte string of even length. */
  function Samples(bytes: seq<Byte>): (s: seq<Int16>)
    requires |bytes| % 2 == 0
    ensures |s| == |bytes| / 2
  {
    seq(|bytes| / 2, i requires 0 <= i < |bytes| / 2 => Decode(bytes[2 * i], bytes[2 * i + 1]))
  }

  function ByteOf(n: Int16, odd: bool): Byte {
    if odd then High(n) else Low(n)
  }

  function Bytes(samples: seq<Int16>): (b: seq<Byte>)
    ensures |b| == 2 * |samples|
    ensures forall i :: 0 <= i < |b| ==> b[i] == ByteOf(samples[i / 2], i % 2 == 1)
  {
    seq(2 * |samples|, i requires 0 <= i < 2 * |samples| => ByteOf(samples[i / 2], i % 2 == 1))
  }

  /** Decoding undoes encoding. */
  lemma DecodeAfterEncode(samples: seq<Int16>)
    ensures Samples(Bytes(samples)) == samples
  {
    hide Low, High, Decode;
    var b := Bytes(samples);
    forall i | 0 <= i < |samples|
      ensures Samples(b)[i] == samples[i]
    {
      assert (2 * i) / 2 == i && (2 * i) % 2 == 0 && (2 * i + 1) / 2 == i && (2 * i + 1) % 2 == 1;
      EncodeDecode(samples[i]);
    }
  }

  /** Encoding undoes decoding, on every even byte string. */
  lemma EncodeAfterDecode(bytes: seq<Byte>)
    requires |bytes| % 2 == 0
    ensures Bytes(Samples(bytes)) == bytes
  {
    hide Low, High, Decode;
    var s := Samples(bytes);
    forall i | 0 <= i < |bytes|
      ensures Bytes(s)[i] == bytes[i]
    {
      var k := i / 2;
      assert i == 2 * k || i == 2 * k + 1;
      assert s[k] == Decode(bytes[2 * k], bytes[2 * k + 1]);
      DecodeEncode(bytes[2 * k], bytes[2 * k + 1]);
    }
  }
}
