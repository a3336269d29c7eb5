/**
 * The byte loops around the browser's base64 primitives, and the channel
 * de-interleaving of decoded 16-bit PCM. Both screens carry identical copies.
 */
module AudioCodec {

  type Byte = b: int | 0 <= b < 256

  /** A "binary string": one code point below 256 per byte, as `btoa` expects. */
  predicate IsBinaryString(s: string) {
    forall i :: 0 <= i < |s| ==> (s[i] as int) < 256
  }

  /** `String.fromCharCode(b)` for each byte, concatenated. */
  function BinaryString(bytes: seq<Byte>): (s: string)
    ensures |s| == |bytes| && IsBinaryString(s)
  {
    seq(|bytes|, i requires 0 <= i < |bytes| => bytes[i] as char)
  }

  /** `charCodeAt(i)` stored into a `Uint8Array`, which keeps the low eight bits. */
  function ByteValues(s: string): (bytes: seq<Byte>)
    ensures |bytes| == |s|
  {
    seq(|s|, i requires 0 <= i < |s| => (s[i] as int) % 256)
  }

  /** The loop of `encode`, before the result is handed to `btoa`. */
  method EncodeLoop(bytes: array<Byte>) returns (binary: string)
    ensures binary == BinaryString(bytes[..])
  {
    binary := "";
    var i := 0;
    while i < bytes.Length
      invariant 0 <= i <= bytes.Length
      invariant binary == BinaryString(bytes[..i])
    {
      binary := binary + [bytes[i] as char];
      i := i + 1;
    }
    assert bytes[..bytes.Length] == bytes[..];
  }

  /** The loop of `decode`, after `atob` has produced the binary string. */
  method DecodeLoop(binary: string) returns (bytes: array<Byte>)
    ensures fresh(bytes)
    ensures bytes[..] == ByteValues(binary)
  {
    bytes := new Byte[|binary|];
    for i := 0 to |binary|
      invariant forall k :: 0 <= k < i ==> bytes[k] == (binary[k] as int) % 256
    {
      bytes[i] := (binary[i] as int) % 256;
    }
  }

  /** The byte loops invert each other: every byte comes back unchanged. */
  lemma {:induction false} BinaryStringRoundTrip(bytes: seq<Byte>)
    ensures ByteValues(BinaryString(bytes)) == bytes
  {
    var s := BinaryString(bytes);
    forall i | 0 <= i < |bytes| ensures ByteValues(s)[i] == bytes[i] {
      assert s[i] == bytes[i] as char;
    }
  }

  /** `decode(encode(b)) == b`, given only that `atob` undoes `btoa` on binary strings, as
      base64 (section 4 of RFC 4648) guarantees; both primitives are the browser's and are
      passed in. */
  lemma AudioPayloadRoundTrip(bytes: seq<Byte>, btoa: string -> string, atob: string -> string)
    requires forall s :: IsBinaryString(s) ==> atob(btoa(s)) == s
    ensures ByteValues(atob(btoa(BinaryString(bytes)))) == bytes
  {
    BinaryStringRoundTrip(bytes);
  }

  /** Frames per channel: the float `length / numChannels` truncated, as `createBuffer` truncates
      its length argument; writes past the buffer's end are ignored by the typed array. */
  function FrameCount(sampleCount: nat, numChannels: nat): nat
    requires numChannels > 0
  {
    sampleCount / numChannels
  }

  /** The interleaved index read for frame `i` of `channel` stays inside the sample array. */
  lemma {:induction false} InterleavedIndexInBounds(sampleCount: nat, numChannels: nat, channel: nat, i: nat)
    requires numChannels > 0 && channel < numChannels && i < FrameCount(sampleCount, numChannels)
    ensures i * numChannels + channel < sampleCount
  {
    var f := FrameCount(sampleCount, numChannels);
    assert i + 1 <= f;
    assert (i + 1) * numChannels <= f * numChannels by {
      MultiplyMonotone(i + 1, f, numChannels);
    }
    assert f * numChannels <= sampleCount;
    assert i * numChannels + channel < (i + 1) * numChannels;
  }

  lemma MultiplyMonotone(a: nat, b: nat, n: nat)
    requires a <= b
    ensures a * n <= b * n
  {
  }

  /** Samples of one channel, in frame order. */
  function Channel(samples: seq<int>, numChannels: nat, channel: nat): (r: seq<int>)
    requires numChannels > 0 && channel < numChannels
    ensures |r| == FrameCount(|samples|, numChannels)
  {
    seq(FrameCount(|samples|, numChannels), i requires 0 <= i < FrameCount(|samples|, numChannels) =>
      InterleavedIndexInBounds(|samples|, numChannels, channel, i);
      samples[i * numChannels + channel])
  }

  /** The de-interleaving loops of `decodeAudioData`, with the samples left as 16-bit integers. */
  method Deinterleave(samples: array<int>, numChannels: nat) returns (channels: seq<seq<int>>)
    requires numChannels > 0
    ensures |channels| == numChannels
    ensures forall c :: 0 <= c < numChannels ==> channels[c] == Channel(samples[..], numChannels, c)
  {
    var frameCount := samples.Length / numChannels;
    ghost var all := samples[..];
    channels := [];
    for channel := 0 to numChannels
      invariant |channels| == channel
      invariant forall c :: 0 <= c < channel ==> channels[c] == Channel(all, numChannels, c)
    {
      ghost var wanted := Channel(all, numChannels, channel);
      var channelData := new int[frameCount];
      for i := 0 to frameCount
        invariant forall k :: 0 <= k < i ==> channelData[k] == wanted[k]
      {
        InterleavedIndexInBounds(samples.Length, numChannels, channel, i);
        channelData[i] := samples[i * numChannels + channel];
      }
      assert channelData[..] == wanted;
      channels := channels + [channelData[..]];
    }
  }

  /** De-interleaving loses nothing: sample `k` of a whole number of frames is frame `k / n` of channel `k % n`. */
  lemma DeinterleaveRecovers(samples: seq<int>, numChannels: nat, k: nat)
    requires numChannels > 0 && k < FrameCount(|samples|, numChannels) * numChannels
    ensures k / numChannels < FrameCount(|samples|, numChannels)
    ensures Channel(samples, numChannels, k % numChannels)[k / numChannels] == samples[k]
  {
    var n := numChannels;
    assert k == (k / n) * n + k % n;
    DivBelow(k, FrameCount(|samples|, n), n);
  }

  lemma DivBelow(k: nat, f: nat, n: nat)
    requires n > 0 && k < f * n
    ensures k / n < f
  {
    if k / n >= f {
      MultiplyMonotone(f, k / n, n);
    }
  }
}
