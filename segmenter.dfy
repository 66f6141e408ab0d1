/** Cutting a decoded buffer into one-second segments: `segmentAudio` (50 % overlapping batch
    segments) and the single trailing segment of `processLiveAudio`
    (js/audio-processor.js:47-61, 206-218). */
module Segmenter {
  import opened DspMath
  import opened Strides

  /** `segmentDuration`: one second. */
  const SegmentDuration: real := 1.0

  /** `Math.floor(sampleRate * segmentDuration)`: samples per segment at the context's rate. */
  function SegmentLength(sampleRate: real): int {
    (sampleRate * SegmentDuration).Floor
  }

  /** The segment length is the whole number of samples in one second: the floor of the rate. */
  lemma SegmentLengthIsFloor(sampleRate: real)
    ensures var L := SegmentLength(sampleRate);
      L as real <= sampleRate < L as real + 1.0 && (sampleRate >= 0.0 ==> L >= 0)
  {
  }

  /** Segment k of the batch path: the L samples from offset k · L/2. */
  function SegmentAt(data: seq<real>, segmentLength: nat, k: nat): (segment: seq<real>)
    requires segmentLength % 2 == 0
    requires k * (segmentLength / 2) + segmentLength <= |data|
    ensures |segment| == segmentLength
  {
    data[k * (segmentLength / 2)..k * (segmentLength / 2) + segmentLength]
  }

  /** `segmentAudio`: one length-L segment at every offset 0, L/2, L, … whose end is within the
      buffer (a partial tail is dropped; a buffer shorter than L gives none). segment[j] is
      `channelData[offset + j]`. An even, positive L is required: for odd L the JavaScript loop
      steps by a fractional L/2, and for L = 0 it never ends. */
  method SegmentAudio(channelData: seq<real>, segmentLength: nat) returns (segments: seq<seq<real>>)
    requires segmentLength > 0 && segmentLength % 2 == 0
    ensures |channelData| < segmentLength ==> segments == []
    ensures |segments| == WindowCount(|channelData|, segmentLength, segmentLength / 2)
    ensures forall k | 0 <= k < |segments| ::
      k * (segmentLength / 2) + segmentLength <= |channelData| &&
      segments[k] == SegmentAt(channelData, segmentLength, k)
  {
    var n, len, hop := |channelData|, segmentLength, segmentLength / 2;
    segments := [];
    var i := 0;
    while i + len <= n
      invariant i == |segments| * hop
      invariant |segments| <= WindowCount(n, len, hop)
      invariant forall k | 0 <= k < |segments| ::
        k * hop + len <= n && segments[k] == SegmentAt(channelData, len, k)
      decreases n - i
    {
      var segment := new real[len](_ => 0.0);
      var j := 0;
      while j < len
        invariant 0 <= j <= len
        invariant forall x | 0 <= x < j :: segment[x] == channelData[i + x]
      {
        segment[j] := channelData[i + j];
        j := j + 1;
      }
      WindowCountExact(n, len, hop, |segments|);
      assert segment[..] == SegmentAt(channelData, len, |segments|);
      segments := segments + [segment[..]];
      i := i + hop;
    }
    WindowCountExact(n, len, hop, |segments|);
  }

  /** A buffer of exactly one segment length gives one segment: the buffer itself. */
  lemma OneSegmentOfExactBuffer(data: seq<real>, segmentLength: nat)
    requires segmentLength > 0 && segmentLength % 2 == 0 && |data| == segmentLength
    ensures WindowCount(|data|, segmentLength, segmentLength / 2) == 1
    ensures SegmentAt(data, segmentLength, 0) == data
  {
  }

  /** A buffer of two segment lengths gives three segments, at 0, L/2 and L. */
  lemma ThreeSegmentsOfDoubleBuffer(n: nat, segmentLength: nat)
    requires segmentLength > 0 && segmentLength % 2 == 0 && n == 2 * segmentLength
    ensures WindowCount(n, segmentLength, segmentLength / 2) == 3
  {
    var h := segmentLength / 2;
    assert n - segmentLength == 2 * h;
  }

  /** The live segment as a value: zero-padded on the right, or the last L samples, or (for
      L = 0) the whole buffer. */
  function LiveWindow(channelData: seq<real>, segmentLength: nat): (segment: seq<real>)
    ensures segmentLength > 0 ==> |segment| == segmentLength
  {
    var n := |channelData|;
    if n < segmentLength then channelData + Zeros(segmentLength - n)
    else if segmentLength == 0 then channelData
    else channelData[n - segmentLength..]
  }

  /** `processLiveAudio`'s segment: a buffer shorter than L is copied into L zeros (`set`), so
      the input comes first and zeros follow; otherwise it is `slice(-L)`, the last L samples.
      `slice(-0)` is the whole buffer, so for L = 0 the buffer is returned unchanged. */
  method LiveSegment(channelData: seq<real>, segmentLength: nat) returns (segment: seq<real>)
    ensures |channelData| < segmentLength ==> segment == channelData + Zeros(segmentLength - |channelData|)
    ensures 0 < segmentLength <= |channelData| ==> segment == channelData[|channelData| - segmentLength..]
    ensures segmentLength == 0 ==> segment == channelData
    ensures segmentLength > 0 ==> |segment| == segmentLength
    ensures segment == LiveWindow(channelData, segmentLength)
  {
    var n := |channelData|;
    if n < segmentLength {
      var padded := new real[segmentLength](_ => 0.0);
      var j := 0;
      while j < n
        invariant 0 <= j <= n
        invariant forall x | 0 <= x < j :: padded[x] == channelData[x]
        invariant forall x | j <= x < segmentLength :: padded[x] == 0.0
      {
        padded[j] := channelData[j];
        j := j + 1;
      }
      segment := padded[..];
      assert segment == channelData + Zeros(segmentLength - n);
    } else {
      var start := if segmentLength == 0 then 0 else n - segmentLength;
      segment := channelData[start..];
    }
  }
}
