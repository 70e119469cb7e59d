/** Interleaving of the two recorded channels: `_build_stereo_wav` in server/audio_recorder.py. */
module StereoRecorder {
  import opened Wrappers
  import opened Pcm16

  function Joined(chunks: seq<seq<Byte>>): seq<Byte> {
    if chunks == [] then [] else Joined(chunks[..|chunks| - 1]) + chunks[|chunks| - 1]
  }

  /** The agent side at 16 kHz: what the resampler returned, or nothing if nothing was recorded. */
  function AgentPcm(agentChunks: seq<seq<Byte>>, resampled: seq<Byte>): seq<Byte> {
    if Joined(agentChunks) != [] then resampled else []
  }

  function Max(a: nat, b: nat): nat {
    if a < b then b else a
  }

  function Silence(n: nat): seq<Int16> {
    seq(n, i => 0)
  }

  /** A channel followed by silence up to `n` samples. */
  function Padded(s: seq<Int16>, n: nat): seq<Int16> {
    if |s| <= n then s + Silence(n - |s|) else s
  }

  /** One channel of an interleaved stereo buffer: 0 is left, 1 is right. */
  function Channel(stereo: seq<Byte>, c: nat): (s: seq<Int16>)
    requires |stereo| % 4 == 0 && c < 2
    ensures |s| == |stereo| / 4
  {
    seq(|stereo| / 4, i requires 0 <= i < |stereo| / 4 => Decode(stereo[4 * i + 2 * c], stereo[4 * i + 2 * c + 1]))
  }

  /** The frames of the stereo file, or `None` where unpacking raises because a channel has half a sample. */
  method BuildStereo(callerChunks: seq<seq<Byte>>, agentChunks: seq<seq<Byte>>, resampled: seq<Byte>)
    returns (frames: Option<seq<Byte>>)
    ensures var caller, agent := Joined(callerChunks), if |Joined(agentChunks)| > 0 then resampled else [];
            && (frames.None? <==> |caller| % 2 == 1 || |agent| % 2 == 1)
            && (frames.Some? ==>
                  var n := Max(|caller| / 2, |agent| / 2);
                  && |frames.value| == 4 * n
                  && Channel(frames.value, 0) == Padded(Samples(caller), n)
                  && Channel(frames.value, 1) == Padded(Samples(agent), n))
  {
    hide Decode, Joined;
    var callerPcm := Joined(callerChunks);
    var agentPcm := AgentPcm(agentChunks, resampled);
    var callerN, agentN := |callerPcm| / 2, |agentPcm| / 2;
    var maxN := Max(callerN, agentN);
    if |callerPcm| % 2 == 1 || |agentPcm| % 2 == 1 {
      return None;
    }
    var left := Padded(Samples(callerPcm), maxN);
    var right := Padded(Samples(agentPcm), maxN);
    var stereo := new Byte[maxN * 4](_ => 0);
    Interleave(stereo, left, right);
    return Some(stereo[..]);
  }

  /** The packing loop, in place. */
  method Interleave(stereo: array<Byte>, left: seq<Int16>, right: seq<Int16>)
    requires |left| == |right| && stereo.Length == 4 * |left|
    modifies stereo
    ensures Channel(stereo[..], 0) == left && Channel(stereo[..], 1) == right
  {
    hide Low, High;
    for i := 0 to |left|
      invariant forall k :: 0 <= k < i ==> FrameAt(stereo[..], k, left[k], right[k])
    {
      stereo[4 * i], stereo[4 * i + 1] := Low(left[i]), High(left[i]);
      stereo[4 * i + 2], stereo[4 * i + 3] := Low(right[i]), High(right[i]);
    }
    FramesDecode(stereo[..], left, right);
  }

  /** Chunks are put together in their order, whole. */
  lemma {:induction false} ChunksAreJoined(a: seq<seq<Byte>>, b: seq<seq<Byte>>)
    ensures Joined(a + b) == Joined(a) + Joined(b)
    ensures |a| == 1 ==> Joined(a) == a[0]
  {
    if |a| == 1 {
      assert a[..0] == [];
    }
    if b == [] {
      assert a + b == a;
    } else {
      ChunksAreJoined(a, b[..|b| - 1]);
      assert (a + b)[..|a + b| - 1] == a + b[..|b| - 1];
    }
  }

  /** Frame `k` of the buffer packs this pair. */
  predicate FrameAt(stereo: seq<Byte>, k: nat, l: Int16, r: Int16) {
    && 4 * k + 3 < |stereo|
    && stereo[4 * k] == Low(l) && stereo[4 * k + 1] == High(l)
    && stereo[4 * k + 2] == Low(r) && stereo[4 * k + 3] == High(r)
  }

  lemma FramesDecode(stereo: seq<Byte>, left: seq<Int16>, right: seq<Int16>)
    requires |left| == |right| && |stereo| == 4 * |left|
    requires forall k :: 0 <= k < |left| ==> FrameAt(stereo, k, left[k], right[k])
    ensures Channel(stereo, 0) == left && Channel(stereo, 1) == right
  {
    forall k | 0 <= k < |left|
      ensures Channel(stereo, 0)[k] == left[k] && Channel(stereo, 1)[k] == right[k]
    {
      assert FrameAt(stereo, k, left[k], right[k]);
      EncodeDecode(left[k]);
      EncodeDecode(right[k]);
    }
  }

  lemma ZeroBytes()
    ensures Low(0) == 0 && High(0) == 0
  {
  }

  /** From a buffer with these channels both recordings come back byte for byte, followed by zero bytes only. */
  lemma RecordingsComeBack(stereo: seq<Byte>, pcm: seq<Byte>, c: nat)
    requires |stereo| % 4 == 0 && c < 2 && |pcm| % 2 == 0 && |pcm| / 2 <= |stereo| / 4
    requires Channel(stereo, c) == Padded(Samples(pcm), |stereo| / 4)
    ensures var back := Bytes(Channel(stereo, c));
            back[..|pcm|] == pcm && forall i :: |pcm| <= i < |back| ==> back[i] == 0
  {
    hide Low, High, Decode, Channel;
    var back, samples := Bytes(Channel(stereo, c)), Samples(pcm);
    EncodeAfterDecode(pcm);
    assert back[..|pcm|] == Bytes(samples);
    ZeroBytes();
    forall i | |pcm| <= i < |back|
      ensures back[i] == 0
    {
      assert Channel(stereo, c)[i / 2] == 0;
    }
  }

  /** Interleaving is injective: two recordings with the same frames are the same up to trailing silence. */
  lemma SameFramesSameRecordings(stereo: seq<Byte>, a: seq<Byte>, b: seq<Byte>, c: nat)
    requires |stereo| % 4 == 0 && c < 2 && |a| % 2 == 0 && |b| % 2 == 0 && |a| <= |b| && |b| / 2 <= |stereo| / 4
    requires Channel(stereo, c) == Padded(Samples(a), |stereo| / 4) == Padded(Samples(b), |stereo| / 4)
    ensures b[..|a|] == a && forall i :: |a| <= i < |b| ==> b[i] == 0
  {
    RecordingsComeBack(stereo, a, c);
    RecordingsComeBack(stereo, b, c);
    assert Bytes(Channel(stereo, c))[..|b|][..|a|] == a;
    forall i | |a| <= i < |b|
      ensures b[i] == 0
    {
      assert b[i] == Bytes(Channel(stereo, c))[..|b|][i];
    }
  }
}
