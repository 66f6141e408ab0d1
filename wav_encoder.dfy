/** `AudioRecorder.audioBufferToWav` (js/audio-recorder.js:104-138): a 44-byte canonical PCM
    header of the RIFF WAVE form ('RIFF' chunk, 'WAVE' form type, 16-byte 'fmt ' chunk, 'data'
    chunk) followed by the first channel as little-endian signed 16-bit samples. */
module WavEncoder {
  import opened AudioTypes

  /** Bytes before the first sample. */
  const HeaderSize: nat := 44
  /** The sample-rate field, written whatever the buffer's own rate is. */
  const WavSampleRate: nat := 44100
  /** `0x7FFF`: the scale from [−1, 1] to 16-bit values. */
  const PcmScale: real := 32767.0

  /** `writeString`'s bytes: `setUint8` keeps the low 8 bits of each `charCodeAt`. */
  function Ascii(s: string): (r: seq<byte>)
    ensures |r| == |s|
  {
    seq(|s|, i requires 0 <= i < |s| => (s[i] as int % 256) as byte)
  }

  /** `setUint16(offset, v, true)`: v modulo 2^16, low byte first. Also the bytes `setInt16`
      writes, since the two's-complement pattern of v is v modulo 2^16. */
  function U16LE(v: int): (r: seq<byte>)
    ensures |r| == 2
  {
    var u := v % 0x1_0000;
    [(u % 256) as byte, (u / 256) as byte]
  }

  /** `setUint32(offset, v, true)`: v modulo 2^32, low byte first. */
  function U32LE(v: int): (r: seq<byte>)
    ensures |r| == 4
  {
    var u := v % 0x1_0000_0000;
    [(u % 256) as byte, (u / 0x100 % 256) as byte, (u / 0x1_0000 % 256) as byte, (u / 0x100_0000) as byte]
  }

  /** Byte k of the header for an n-sample buffer, field by field. */
  function HeaderByte(n: nat, k: nat): byte
    requires k < HeaderSize
  {
    if k < 4 then Ascii("RIFF")[k]                        // chunk id
    else if k < 8 then U32LE(36 + n * 2)[k - 4]           // chunk size
    else if k < 12 then Ascii("WAVE")[k - 8]              // form type
    else if k < 16 then Ascii("fmt ")[k - 12]             // format chunk id
    else if k < 20 then U32LE(16)[k - 16]                 // format chunk size
    else if k < 22 then U16LE(1)[k - 20]                  // PCM
    else if k < 24 then U16LE(1)[k - 22]                  // one channel
    else if k < 28 then U32LE(WavSampleRate)[k - 24]      // sample rate
    else if k < 32 then U32LE(WavSampleRate * 2)[k - 28]  // byte rate
    else if k < 34 then U16LE(2)[k - 32]                  // block align
    else if k < 36 then U16LE(16)[k - 34]                 // bits per sample
    else if k < 40 then Ascii("data")[k - 36]             // data chunk id
    else U32LE(n * 2)[k - 40]                             // data size
  }

  /** The header written for an n-sample buffer. */
  function WavHeader(n: nat): (h: seq<byte>)
    ensures |h| == HeaderSize
  {
    seq(HeaderSize, k requires 0 <= k < HeaderSize => HeaderByte(n, k))
  }

  /** `Math.max(-1, Math.min(1, x))`. */
  function Clamp(x: real): (r: real)
    ensures -1.0 <= r <= 1.0
  {
    if x > 1.0 then 1.0 else if x < -1.0 then -1.0 else x
  }

  /** ECMAScript ToIntegerOrInfinity on a finite value: truncation toward zero. */
  function Trunc(x: real): (t: int)
    ensures x >= 0.0 ==> 0 <= t && t as real <= x < t as real + 1.0
    ensures x < 0.0 ==> t <= 0 && t as real - 1.0 < x <= t as real
  {
    if x >= 0.0 then x.Floor else -((-x).Floor)
  }

  /** Truncation is odd: it commutes with negation. */
  lemma TruncIsOdd(x: real)
    ensures Trunc(-x) == -Trunc(x)
  {
    if x == 0.0 {
      assert -x == 0.0;
    }
  }

  /** The integer `setInt16` stores for a sample: trunc(clamp(x) · 32767), in [−32767, 32767]. */
  function PcmValue(x: real): (v: int)
    ensures -32767 <= v <= 32767
  {
    var y := Clamp(x) * PcmScale;
    assert -PcmScale <= y <= PcmScale;
    Trunc(y)
  }

  /** The sample bytes: two per sample, in order. */
  function PcmBytes(channelData: seq<real>): (r: seq<byte>)
    ensures |r| == 2 * |channelData|
  {
    seq(2 * |channelData|, j requires 0 <= j < 2 * |channelData| => U16LE(PcmValue(channelData[j / 2]))[j % 2])
  }

  /** The whole file. */
  function WavBytes(channelData: seq<real>): (r: seq<byte>)
    ensures |r| == HeaderSize + 2 * |channelData|
  {
    WavHeader(|channelData|) + PcmBytes(channelData)
  }

  /** `new DataView(new ArrayBuffer(44 + length * 2))`, filled by `writeString`, `setUint32`,
      `setUint16` and the `setInt16` loop with `offset += 2`. */
  method AudioBufferToWav(channelData: seq<real>) returns (wav: seq<byte>)
    ensures wav == WavBytes(channelData)
  {
    var length := |channelData|;
    var view := new byte[HeaderSize + length * 2](_ => 0);
    WriteHeader(view, length);
    var offset := HeaderSize;
    var i := 0;
    while i < length
      invariant 0 <= i <= length && offset == HeaderSize + 2 * i
      invariant forall k | 0 <= k < HeaderSize :: view[k] == HeaderByte(length, k)
      invariant forall k | HeaderSize <= k < offset :: view[k] == PcmBytes(channelData)[k - HeaderSize]
    {
      var sample := Clamp(channelData[i]);
      SetBytes(view, offset, U16LE(Trunc(sample * PcmScale)));
      offset := offset + 2;
      i := i + 1;
    }
    wav := view[..];
    ghost var spec := WavBytes(channelData);
    forall k | 0 <= k < |wav|
      ensures wav[k] == spec[k]
    {
      if k < HeaderSize {
        assert spec[k] == WavHeader(length)[k];
      } else {
        assert spec[k] == PcmBytes(channelData)[k - HeaderSize];
      }
    }
  }

  /** The header writes, in the order the source makes them; the sample area stays as it was. */
  method WriteHeader(view: array<byte>, n: nat)
    requires view.Length == HeaderSize + n * 2
    modifies view
    ensures forall k | 0 <= k < HeaderSize :: view[k] == HeaderByte(n, k)
    ensures forall k | HeaderSize <= k < view.Length :: view[k] == old(view[k])
  {
    SetBytes(view, 0, Ascii("RIFF"));
    SetBytes(view, 4, U32LE(36 + n * 2));
    SetBytes(view, 8, Ascii("WAVE"));
    SetBytes(view, 12, Ascii("fmt "));
    SetBytes(view, 16, U32LE(16));
    SetBytes(view, 20, U16LE(1));
    SetBytes(view, 22, U16LE(1));
    SetBytes(view, 24, U32LE(WavSampleRate));
    SetBytes(view, 28, U32LE(WavSampleRate * 2));
    SetBytes(view, 32, U16LE(2));
    SetBytes(view, 34, U16LE(16));
    SetBytes(view, 36, Ascii("data"));
    SetBytes(view, 40, U32LE(n * 2));
  }

  /** `setUint8` of each byte from `offset` on: the `writeString` loop, and what the `DataView`
      setters do with the bytes of their value. Nothing outside the written range changes. */
  method SetBytes(view: array<byte>, offset: nat, bytes: seq<byte>)
    requires offset + |bytes| <= view.Length
    modifies view
    ensures forall k | 0 <= k < view.Length ::
      view[k] == if offset <= k < offset + |bytes| then bytes[k - offset] else old(view[k])
  {
    var i := 0;
    while i < |bytes|
      invariant 0 <= i <= |bytes|
      invariant forall k | 0 <= k < view.Length ::
        view[k] == if offset <= k < offset + i then bytes[k - offset] else old(view[k])
    {
      view[offset + i] := bytes[i];
      i := i + 1;
    }
  }

  /** A reader for the little-endian 16-bit field at `offset`. */
  function ReadU16(b: seq<byte>, offset: nat): int
    requires offset + 2 <= |b|
  {
    b[offset] as int + 256 * b[offset + 1] as int
  }

  /** A reader for the little-endian 32-bit field at `offset`. */
  function ReadU32(b: seq<byte>, offset: nat): int
    requires offset + 4 <= |b|
  {
    ReadU16(b, offset) + 0x1_0000 * ReadU16(b, offset + 2)
  }

  /** A reader for the signed 16-bit sample at `offset`. */
  function ReadI16(b: seq<byte>, offset: nat): int
    requires offset + 2 <= |b|
  {
    var u := ReadU16(b, offset);
    if u >= 0x8000 then u - 0x1_0000 else u
  }

  /** The 16-bit bytes read back as v modulo 2^16. */
  lemma U16RoundTrip(v: int)
    ensures ReadU16(U16LE(v), 0) == v % 0x1_0000
  {
  }

  /** The 32-bit bytes read back as v modulo 2^32. */
  lemma U32RoundTrip(v: int)
    ensures ReadU32(U32LE(v), 0) == v % 0x1_0000_0000
  {
    var u := v % 0x1_0000_0000;
    var lo, hi := u % 0x1_0000, u / 0x1_0000;
    assert u / 0x100 % 256 == lo / 256;
    assert u / 0x1_0000 % 256 == hi % 256;
    assert u / 0x100_0000 == hi / 256;
  }

  /** Every 16-bit signed value reads back unchanged from its two's-complement bytes. */
  lemma I16RoundTrip(v: int)
    requires -0x8000 <= v < 0x8000
    ensures ReadI16(U16LE(v), 0) == v
  {
    U16RoundTrip(v);
  }

  /** Reading a field of a concatenation reads the part it falls in. */
  lemma ReadU32Slice(b: seq<byte>, offset: nat, field: seq<byte>)
    requires offset + 4 <= |b| && b[offset..offset + 4] == field
    ensures ReadU32(b, offset) == ReadU32(field, 0)
  {
    assert b[offset] == field[0] && b[offset + 1] == field[1];
    assert b[offset + 2] == field[2] && b[offset + 3] == field[3];
  }

  lemma ReadU16Slice(b: seq<byte>, offset: nat, field: seq<byte>)
    requires offset + 2 <= |b| && b[offset..offset + 2] == field
    ensures ReadU16(b, offset) == ReadU16(field, 0)
  {
    assert b[offset] == field[0] && b[offset + 1] == field[1];
  }

  /** The header of every file: 'RIFF', the 36 + 2n chunk size, 'WAVE', 'fmt ', a 16-byte
      format chunk of PCM (1), one channel, 44100 Hz, 88200 bytes per second, block align 2 and
      16 bits per sample, then 'data' and the 2n data size (sizes modulo 2^32). */
  lemma WavHeaderLayout(channelData: seq<real>)
    ensures var wav, n := WavBytes(channelData), |channelData|;
      wav[0..4] == Ascii("RIFF") && ReadU32(wav, 4) == (36 + 2 * n) % 0x1_0000_0000 &&
      wav[8..12] == Ascii("WAVE") && wav[12..16] == Ascii("fmt ") &&
      ReadU32(wav, 16) == 16 && ReadU16(wav, 20) == 1 && ReadU16(wav, 22) == 1 &&
      ReadU32(wav, 24) == 44100 && ReadU32(wav, 28) == 88200 &&
      ReadU16(wav, 32) == 2 && ReadU16(wav, 34) == 16 &&
      wav[36..40] == Ascii("data") && ReadU32(wav, 40) == (2 * n) % 0x1_0000_0000
  {
    var wav, n := WavBytes(channelData), |channelData|;
    assert wav[..HeaderSize] == WavHeader(n);
    HeaderTags(n, wav);
    HeaderSizes(n, wav);
    HeaderFormat(n, wav);
    HeaderRates(n, wav);
    HeaderBlock(n, wav);
  }

  lemma HeaderTags(n: nat, wav: seq<byte>)
    requires |wav| >= HeaderSize && wav[..HeaderSize] == WavHeader(n)
    ensures wav[0..4] == Ascii("RIFF") && wav[8..12] == Ascii("WAVE")
    ensures wav[12..16] == Ascii("fmt ") && wav[36..40] == Ascii("data")
  {
    HeaderField(n, wav, 0, Ascii("RIFF"));
    HeaderField(n, wav, 8, Ascii("WAVE"));
    HeaderField(n, wav, 12, Ascii("fmt "));
    HeaderField(n, wav, 36, Ascii("data"));
  }

  lemma HeaderSizes(n: nat, wav: seq<byte>)
    requires |wav| >= HeaderSize && wav[..HeaderSize] == WavHeader(n)
    ensures ReadU32(wav, 4) == (36 + 2 * n) % 0x1_0000_0000
    ensures ReadU32(wav, 40) == (2 * n) % 0x1_0000_0000
  {
    HeaderField(n, wav, 4, U32LE(36 + n * 2));
    ReadU32Slice(wav, 4, U32LE(36 + n * 2));
    U32RoundTrip(36 + n * 2);
    HeaderField(n, wav, 40, U32LE(n * 2));
    ReadU32Slice(wav, 40, U32LE(n * 2));
    U32RoundTrip(n * 2);
  }

  lemma HeaderFormat(n: nat, wav: seq<byte>)
    requires |wav| >= HeaderSize && wav[..HeaderSize] == WavHeader(n)
    ensures ReadU32(wav, 16) == 16 && ReadU16(wav, 20) == 1 && ReadU16(wav, 22) == 1
  {
    HeaderField(n, wav, 16, U32LE(16));
    ReadU32Slice(wav, 16, U32LE(16));
    HeaderField(n, wav, 20, U16LE(1));
    ReadU16Slice(wav, 20, U16LE(1));
    HeaderField(n, wav, 22, U16LE(1));
    ReadU16Slice(wav, 22, U16LE(1));
  }

  lemma HeaderRates(n: nat, wav: seq<byte>)
    requires |wav| >= HeaderSize && wav[..HeaderSize] == WavHeader(n)
    ensures ReadU32(wav, 24) == 44100 && ReadU32(wav, 28) == 88200
  {
    HeaderSampleRate(n, wav);
    HeaderByteRate(n, wav);
  }

  lemma HeaderSampleRate(n: nat, wav: seq<byte>)
    requires |wav| >= HeaderSize && wav[..HeaderSize] == WavHeader(n)
    ensures ReadU32(wav, 24) == 44100
  {
    HeaderField(n, wav, 24, U32LE(WavSampleRate));
    ReadU32Slice(wav, 24, U32LE(WavSampleRate));
  }

  lemma HeaderByteRate(n: nat, wav: seq<byte>)
    requires |wav| >= HeaderSize && wav[..HeaderSize] == WavHeader(n)
    ensures ReadU32(wav, 28) == 88200
  {
    HeaderField(n, wav, 28, U32LE(WavSampleRate * 2));
    ReadU32Slice(wav, 28, U32LE(WavSampleRate * 2));
  }

  lemma HeaderBlock(n: nat, wav: seq<byte>)
    requires |wav| >= HeaderSize && wav[..HeaderSize] == WavHeader(n)
    ensures ReadU16(wav, 32) == 2 && ReadU16(wav, 34) == 16
  {
    HeaderField(n, wav, 32, U16LE(2));
    ReadU16Slice(wav, 32, U16LE(2));
    HeaderField(n, wav, 34, U16LE(16));
    ReadU16Slice(wav, 34, U16LE(16));
  }

  /** The header field written at `offset` is found there in the file. */
  lemma HeaderField(n: nat, wav: seq<byte>, offset: nat, field: seq<byte>)
    requires |wav| >= HeaderSize && wav[..HeaderSize] == WavHeader(n)
    requires offset + |field| <= HeaderSize
    requires forall k | offset <= k < offset + |field| :: HeaderByte(n, k) == field[k - offset]
    ensures wav[offset..offset + |field|] == field
  {
    forall k | 0 <= k < |field|
      ensures wav[offset + k] == field[k]
    {
      assert wav[offset + k] == WavHeader(n)[offset + k];
    }
  }

  /** Sample i is the signed 16-bit little-endian value trunc(clamp(x) · 32767) at 44 + 2i. */
  lemma WavSampleLayout(channelData: seq<real>, i: nat)
    requires i < |channelData|
    ensures ReadI16(WavBytes(channelData), HeaderSize + 2 * i) == PcmValue(channelData[i])
  {
    var wav, pcm := WavBytes(channelData), PcmBytes(channelData);
    var field := U16LE(PcmValue(channelData[i]));
    assert wav[HeaderSize + 2 * i] == pcm[2 * i] == field[0];
    assert wav[HeaderSize + 2 * i + 1] == pcm[2 * i + 1] == field[1];
    I16RoundTrip(PcmValue(channelData[i]));
  }

  /** Full-scale and out-of-range samples saturate at ±32767: clipping, not wrap-around. */
  lemma PcmSaturates(x: real)
    ensures x >= 1.0 ==> PcmValue(x) == 32767
    ensures x <= -1.0 ==> PcmValue(x) == -32767
  {
  }
}
