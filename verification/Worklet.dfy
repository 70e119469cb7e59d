/** Chunking of captured audio: frontend/worklet.js, with samples as exact reals. */
module Worklet {
  import opened Pcm16

  const CHUNK_SIZE: nat := 320

  datatype Message = Message(chunkId: nat, data: seq<Byte>)

  /** Clamps to [-1, 1] and scales to the 16-bit range. */
  function Scale(x: real): (y: real)
    ensures -32768.0 <= y <= 32767.0
  {
    var s := if x < -1.0 then -1.0 else if x > 1.0 then 1.0 else x;
    if s < 0.0 then s * 32768.0 else s * 32767.0
  }

  /** What an Int16Array keeps of a number in range: the part before the point. */
  function ToInt16(y: real): Int16
    requires -32768.0 <= y <= 32767.0
  {
    if y >= 0.0 then y.Floor else -((-y).Floor)
  }

  predicate InRange(buffer: seq<real>) {
    forall i :: 0 <= i < |buffer| ==> -32768.0 <= buffer[i] <= 32767.0
  }

  function Converted(block: seq<real>): (c: seq<real>)
    ensures |c| == |block| && InRange(c)
  {
    seq(|block|, i requires 0 <= i < |block| => Scale(block[i]))
  }

  function Quantised(buffer: seq<real>): (q: seq<Int16>)
    requires InRange(buffer)
    ensures |q| == |buffer|
  {
    seq(|buffer|, i requires 0 <= i < |buffer| => ToInt16(buffer[i]))
  }

  /** The messages a whole stream is worth: full chunks only, numbered from zero. */
  function MessagesOf(stream: seq<real>): (ms: seq<Message>)
    requires InRange(stream)
    ensures |ms| == |stream| / CHUNK_SIZE
  {
    seq(|stream| / CHUNK_SIZE, k requires 0 <= k < |stream| / CHUNK_SIZE =>
      Message(k, Bytes(Quantised(stream[k * CHUNK_SIZE..(k + 1) * CHUNK_SIZE]))))
  }

  class PCM16Processor {
    var chunkCount: nat
    var buffer: seq<real>
    var posted: seq<Message>
    /** Everything ever captured. */
    ghost var captured: seq<real>

    /** What is posted and what is kept is a function of the captured samples alone, however they were
        cut into blocks. */
    ghost predicate Valid()
      reads this
    {
      && chunkCount == |posted|
      && posted == MessagesOf(Converted(captured))
      && buffer == Converted(captured)[|posted| * CHUNK_SIZE..]
    }

    constructor ()
      ensures Valid() && captured == [] && posted == []
    {
      chunkCount, buffer, posted, captured := 0, [], [], [];
    }

    method Process(input: seq<seq<real>>)
      requires Valid()
      modifies this
      ensures Valid()
      ensures captured == old(captured) + if input == [] then [] else input[0]
    {
      if |input| == 0 {
        return;
      }
      hide MessagesOf, Scale;
      ConvertedJoin(captured, input[0]);
      MessagesGrow(Converted(captured), Converted(input[0]));
      ConvertBlock(input[0]);
      captured := captured + input[0];
      SendFullChunks(Converted(captured));
    }

    /** The first loop: scales the block into the buffer. */
    method ConvertBlock(channel: seq<real>)
      modifies this`buffer
      ensures buffer == old(buffer) + Converted(channel)
    {
      for i := 0 to |channel|
        invariant buffer == old(buffer) + Converted(channel)[..i]
      {
        buffer := buffer + [Scale(channel[i])];
      }
    }

    /** The second loop: cuts full chunks off the front of the buffer. */
    method SendFullChunks(ghost stream: seq<real>)
      requires InRange(stream) && chunkCount == |posted| && |posted| * CHUNK_SIZE <= |stream|
      requires posted <= MessagesOf(stream) && buffer == stream[|posted| * CHUNK_SIZE..]
      modifies this`chunkCount, this`buffer, this`posted
      ensures chunkCount == |posted| && posted == MessagesOf(stream) && buffer == stream[|posted| * CHUNK_SIZE..]
    {
      hide Quantised, Bytes, MessagesOf;
      ghost var all := MessagesOf(stream);
      while |buffer| >= CHUNK_SIZE
        invariant chunkCount == |posted| && posted <= all
        invariant |posted| * CHUNK_SIZE <= |stream| && buffer == stream[|posted| * CHUNK_SIZE..]
      {
        var chunk := buffer[..CHUNK_SIZE];
        NextMessage(stream, |posted|);
        buffer := buffer[CHUNK_SIZE..];
        posted := posted + [Message(chunkCount, Bytes(Quantised(chunk)))];
        chunkCount := chunkCount + 1;
      }
    }
  }

  /** The front of what is left after `k` chunks is the next message. */
  lemma NextMessage(stream: seq<real>, k: nat)
    requires InRange(stream) && (k + 1) * CHUNK_SIZE <= |stream|
    ensures k < |MessagesOf(stream)|
    ensures var rest := stream[k * CHUNK_SIZE..];
            && rest[CHUNK_SIZE..] == stream[(k + 1) * CHUNK_SIZE..]
            && InRange(rest[..CHUNK_SIZE])
            && MessagesOf(stream)[k] == Message(k, Bytes(Quantised(rest[..CHUNK_SIZE])))
  {
    hide Quantised, Bytes;
    assert stream[k * CHUNK_SIZE..][..CHUNK_SIZE] == stream[k * CHUNK_SIZE..(k + 1) * CHUNK_SIZE];
  }

  lemma ConvertedJoin(a: seq<real>, b: seq<real>)
    ensures Converted(a + b) == Converted(a) + Converted(b)
  {
  }

  lemma MessagesGrow(stream: seq<real>, more: seq<real>)
    requires InRange(stream) && InRange(more)
    ensures InRange(stream + more)
    ensures MessagesOf(stream) <= MessagesOf(stream + more)
  {
    var all := stream + more;
    forall k | 0 <= k < |MessagesOf(stream)|
      ensures MessagesOf(stream)[k] == MessagesOf(all)[k]
    {
      assert stream[k * CHUNK_SIZE..(k + 1) * CHUNK_SIZE] == all[k * CHUNK_SIZE..(k + 1) * CHUNK_SIZE];
    }
  }

  // ----- Conservation -----

  function Payload(ms: seq<Message>): seq<Byte> {
    if ms == [] then [] else Payload(ms[..|ms| - 1]) + ms[|ms| - 1].data
  }

  lemma {:induction false} PayloadOfPrefix(stream: seq<real>, n: nat)
    requires InRange(stream) && n <= |stream| / CHUNK_SIZE
    ensures n * CHUNK_SIZE <= |stream|
    ensures Payload(MessagesOf(stream)[..n]) == Bytes(Quantised(stream[..n * CHUNK_SIZE]))
  {
    if n > 0 {
      PayloadOfPrefix(stream, n - 1);
      var m := (n - 1) * CHUNK_SIZE;
      var ms := MessagesOf(stream);
      assert ms[..n][..n - 1] == ms[..n - 1];
      assert stream[..n * CHUNK_SIZE] == stream[..m] + stream[m..n * CHUNK_SIZE];
      BytesOfJoin(stream[..m], stream[m..n * CHUNK_SIZE]);
    }
  }

  lemma QuantisedJoin(a: seq<real>, b: seq<real>)
    requires InRange(a) && InRange(b)
    ensures InRange(a + b) && Quantised(a + b) == Quantised(a) + Quantised(b)
  {
  }

  lemma BytesOfJoin(a: seq<real>, b: seq<real>)
    requires InRange(a) && InRange(b)
    ensures InRange(a + b) && Bytes(Quantised(a + b)) == Bytes(Quantised(a)) + Bytes(Quantised(b))
  {
  }

  /** No sample is lost, duplicated or reordered: the payloads decode to the quantised stream up to the
      leftover, which is shorter than a chunk; every payload is 640 bytes, and ids count from zero. */
  lemma {:induction false} ChunksConserveTheStream(stream: seq<real>)
    requires InRange(stream)
    ensures var ms := MessagesOf(stream);
            var cut := |ms| * CHUNK_SIZE;
            && cut <= |stream| < cut + CHUNK_SIZE
            && |Payload(ms)| == 2 * cut
            && Samples(Payload(ms)) + Quantised(stream[cut..]) == Quantised(stream)
            && (forall k :: 0 <= k < |ms| ==> ms[k].chunkId == k && |ms[k].data| == 2 * CHUNK_SIZE)
  {
    hide Quantised, Bytes, Samples, Payload;
    var ms := MessagesOf(stream);
    PayloadOfPrefix(stream, |ms|);
    assert ms[..|ms|] == ms;
    DecodeAfterEncode(Quantised(stream[..|ms| * CHUNK_SIZE]));
    assert stream == stream[..|ms| * CHUNK_SIZE] + stream[|ms| * CHUNK_SIZE..];
    QuantisedJoin(stream[..|ms| * CHUNK_SIZE], stream[|ms| * CHUNK_SIZE..]);
  }

  /** A stored sample is within one step of the scaled input, never farther from zero, and of the same sign. */
  lemma QuantisationError(x: real)
    ensures var y := Scale(x);
            var q := ToInt16(y) as real;
            && -1.0 < y - q < 1.0
            && (x >= 0.0 ==> 0.0 <= q <= y) && (x <= 0.0 ==> y <= q <= 0.0)
  {
  }

  /** Samples are scaled by 32767 above zero and by 32768 below, and cut off at full scale. */
  lemma ScaleIsClampedLinear(x: real)
    ensures x >= 1.0 ==> Scale(x) == 32767.0
    ensures 0.0 <= x <= 1.0 ==> Scale(x) == 32767.0 * x
    ensures -1.0 <= x <= 0.0 ==> Scale(x) == 32768.0 * x
    ensures x <= -1.0 ==> Scale(x) == -32768.0
  {
  }

  /** `q` is what is left of the captured sample `x`: its scaled value without the fraction. */
  predicate IsSampleOf(q: Int16, x: real) {
    var y :=
      if x >= 1.0 then 32767.0
      else if x >= 0.0 then 32767.0 * x
      else if x >= -1.0 then 32768.0 * x
      else -32768.0;
    if x >= 0.0 then q as real <= y < q as real + 1.0 else q as real - 1.0 < y <= q as real
  }

  /** From microphone to message: sample `i` of the payloads is what is left of the `i`-th sample captured. */
  lemma {:induction false} CapturedSamplesArrive(captured: seq<real>, i: nat)
    ensures |Payload(MessagesOf(Converted(captured)))| % 2 == 0
    ensures |Samples(Payload(MessagesOf(Converted(captured))))| == |captured| / CHUNK_SIZE * CHUNK_SIZE
    ensures i < |captured| / CHUNK_SIZE * CHUNK_SIZE ==>
              IsSampleOf(Samples(Payload(MessagesOf(Converted(captured))))[i], captured[i])
  {
    hide Bytes, Samples, Payload, MessagesOf;
    var stream := Converted(captured);
    ChunksConserveTheStream(stream);
    var samples, rest := Samples(Payload(MessagesOf(stream))), Quantised(stream[|MessagesOf(stream)| * CHUNK_SIZE..]);
    if i < |samples| {
      assert samples[i] == (samples + rest)[i] == Quantised(stream)[i];
      QuantisationError(captured[i]);
      ScaleIsClampedLinear(captured[i]);
    }
  }
}
