/** The WAV decoder of the avatar controller (`ToAudioClip`): the canonical 44-byte RIFF/WAVE
    header, 16-bit little-endian PCM samples scaled by 1/32767. */
module Wav {
  import opened Base

  newtype Int16 = x: int | -0x8000 <= x < 0x8000

  const HeaderSize := 44
  const ChannelsOffset := 22
  const SampleRateOffset := 24
  const BitsPerSampleOffset := 34
  /** `short.MaxValue`, the divisor that scales a sample into [-1, 1]. */
  const MaxSample: real := 32767.0

  /** `BitConverter.ToInt16` on a little-endian machine. */
  function Int16At(b: seq<Byte>, k: nat): (v: Int16)
    requires k + 1 < |b|
  {
    var u := b[k] as int + 256 * b[k + 1] as int;
    (if u >= 0x8000 then u - 0x1_0000 else u) as Int16
  }

  /** `BitConverter.ToInt32` on a little-endian machine. */
  function Int32At(b: seq<Byte>, k: nat): (v: Int32)
    requires k + 3 < |b|
  {
    var u := b[k] as int + 256 * b[k + 1] as int + 65536 * b[k + 2] as int + 16777216 * b[k + 3] as int;
    Wrap32(u)
  }

  datatype DecodeError =
    | TooShort                          // null, or fewer bytes than the header
    | UnsupportedBitDepth(bits: Int16)  // anything but 16 bits per sample
    | DivideByZero                      // a header announcing zero channels

  /** The arguments `ToAudioClip` hands to `AudioClip.Create` and `SetData`. */
  datatype ClipData = ClipData(lengthSamples: int, channels: Int16, frequency: Int32, data: seq<real>)

  datatype Decoded = Clip(clip: ClipData) | Failed(error: DecodeError)

  /** The scaled value of sample `i`: the int16 at byte 44 + 2i divided by 32767. */
  function SampleAt(b: seq<Byte>, i: nat): real
    requires HeaderSize + 2 * i + 1 < |b|
  {
    Int16At(b, HeaderSize + 2 * i) as real / MaxSample
  }

  /** The decoder as a function of the bytes; `ToAudioClip` computes it with a loop. */
  function DecodeWav(wav: Option<seq<Byte>>): Decoded
  {
    if wav.None? || |wav.value| < HeaderSize then Failed(TooShort)
    else
      var b := wav.value;
      var channels := Int16At(b, ChannelsOffset);
      var bitDepth := Int16At(b, BitsPerSampleOffset);
      if bitDepth != 16 then Failed(UnsupportedBitDepth(bitDepth))
      else if channels == 0 then Failed(DivideByZero)
      else
        var total := (|b| - HeaderSize) / 2;
        Clip(ClipData(TruncDiv(total, channels as int), channels, Int32At(b, SampleRateOffset),
                      seq(total, i requires 0 <= i < total => SampleAt(b, i))))
  }

  /** `ToAudioClip`: reads the header, rejects what it cannot play, and fills the sample
      buffer two bytes at a time. A zero channel count makes the final division throw, which
      the method catches, so no clip is returned. */
  method ToAudioClip(wav: Option<seq<Byte>>) returns (r: Decoded)
    ensures r == DecodeWav(wav)
  {
    if wav.None? || |wav.value| < HeaderSize {
      return Failed(TooShort);
    }
    var b := wav.value;
    var channels := Int16At(b, ChannelsOffset);
    var frequency := Int32At(b, SampleRateOffset);
    var bitDepth := Int16At(b, BitsPerSampleOffset);
    if bitDepth != 16 {
      return Failed(UnsupportedBitDepth(bitDepth));
    }
    var pcmDataSizeBytes := |b| - HeaderSize;
    var bytesPerSample := bitDepth as int / 8;
    var totalSampleCount := pcmDataSizeBytes / bytesPerSample;
    var floatData := new real[totalSampleCount];
    var byteIndex := HeaderSize;
    for i := 0 to totalSampleCount
      invariant byteIndex == HeaderSize + 2 * i
      invariant forall k :: 0 <= k < i ==> floatData[k] == SampleAt(b, k)
    {
      floatData[i] := Int16At(b, byteIndex) as real / MaxSample;
      byteIndex := byteIndex + bytesPerSample;
    }
    if channels == 0 {
      return Failed(DivideByZero);
    }
    var lengthSamples := TruncDiv(totalSampleCount, channels as int);
    r := Clip(ClipData(lengthSamples, channels, frequency, floatData[..]));
  }

  // ---------------------------------------------------------------------------------------
  // Properties of the decoder

  /** Decoding succeeds exactly for a non-null input of at least 44 bytes announcing 16 bits
      per sample and a non-zero channel count; the clip then holds one value per complete
      sample pair after the header (a trailing odd byte is ignored), each the int16 at byte
      44 + 2i over 32767, so within [-32768/32767, 1], and the channel count and sample rate
      are the header's. */
  lemma DecodeOutcomes(wav: Option<seq<Byte>>)
    ensures DecodeWav(wav).Clip? <==>
              wav.Some? && |wav.value| >= HeaderSize
              && Int16At(wav.value, BitsPerSampleOffset) == 16 && Int16At(wav.value, ChannelsOffset) != 0
    ensures wav.None? || |wav.value| < HeaderSize ==> DecodeWav(wav) == Failed(TooShort)
    ensures DecodeWav(wav).Clip? ==>
              var b, c := wav.value, DecodeWav(wav).clip;
              |c.data| == (|b| - HeaderSize) / 2
              && c.channels == Int16At(b, ChannelsOffset)
              && c.frequency == Int32At(b, SampleRateOffset)
              && c.lengthSamples == TruncDiv(|c.data|, c.channels as int)
              && (forall i :: 0 <= i < |c.data| ==> c.data[i] == SampleAt(b, i))
              && (forall i :: 0 <= i < |c.data| ==> -32768.0 / MaxSample <= c.data[i] <= 1.0)
  {
  }

  /** The little-endian bytes of a 16-bit value, signed or not. */
  function Le16(v: int): (r: seq<Byte>)
    requires -0x8000 <= v < 0x1_0000
    ensures |r| == 2
  {
    var u := if v < 0 then v + 0x1_0000 else v;
    [(u % 256) as Byte, (u / 256) as Byte]
  }

  /** The little-endian bytes of a 32-bit value, wrapped modulo 2^32. */
  function Le32(v: int): (r: seq<Byte>)
    ensures |r| == 4
  {
    var u := v % 0x1_0000_0000;
    [(u % 256) as Byte, (u / 256 % 256) as Byte, (u / 65536 % 256) as Byte, (u / 16777216) as Byte]
  }

  /** The canonical 44-byte header of a 16-bit PCM WAVE file. */
  function CanonicalHeader(channels: Int16, rate: Int32, dataBytes: nat): (h: seq<Byte>)
    requires channels > 0 && rate >= 0
    ensures |h| == HeaderSize
  {
    [82, 73, 70, 70] + Le32(36 + dataBytes) + [87, 65, 86, 69]            // "RIFF" size "WAVE"
    + [102, 109, 116, 32] + Le32(16) + Le16(1) + Le16(channels as int)     // "fmt " 16 PCM channels
    + Le32(rate as int) + Le32(rate as int * channels as int * 2)          // sample rate, byte rate
    + Le16(channels as int * 2) + Le16(16)                                 // block align, bits
    + [100, 97, 116, 97] + Le32(dataBytes)                                 // "data" size
  }

  /** Samples as consecutive little-endian int16 pairs. */
  function Pcm(samples: seq<Int16>): (r: seq<Byte>)
    ensures |r| == 2 * |samples|
  {
    if samples == [] then [] else Le16(samples[0] as int) + Pcm(samples[1..])
  }

  function EncodeWav(channels: Int16, rate: Int32, samples: seq<Int16>): seq<Byte>
    requires channels > 0 && rate >= 0
  {
    CanonicalHeader(channels, rate, 2 * |samples|) + Pcm(samples)
  }

  /** Reading back the bytes of a 16-bit value gives the value. */
  lemma Int16RoundTrip(b: seq<Byte>, k: nat, v: Int16)
    requires k + 1 < |b| && b[k..k + 2] == Le16(v as int)
    ensures Int16At(b, k) == v
  {
    assert b[k] == b[k..k + 2][0] && b[k + 1] == b[k..k + 2][1];
  }

  /** Reading back the bytes of a 32-bit value gives the value. */
  lemma Int32RoundTrip(b: seq<Byte>, k: nat, v: Int32)
    requires k + 3 < |b| && b[k..k + 4] == Le32(v as int)
    ensures Int32At(b, k) == v
  {
    var u := v as int % 0x1_0000_0000;
    assert u == if v < 0 then v as int + 0x1_0000_0000 else v as int;
    var bytes := Le32(v as int);
    assert b[k] == bytes[0] && b[k + 1] == bytes[1] && b[k + 2] == bytes[2] && b[k + 3] == bytes[3];
    assert b[k] as int == u % 256 && b[k + 1] as int == u / 256 % 256;
    assert b[k + 2] as int == u / 65536 % 256 && b[k + 3] as int == u / 16777216;
    Bytes32(u);
    assert u % 0x1_0000_0000 == u;
  }

  /** The four base-256 digits of a 32-bit value add back up to it. */
  lemma Bytes32(u: int)
    requires 0 <= u < 0x1_0000_0000
    ensures u % 256 + 256 * (u / 256 % 256) + 65536 * (u / 65536 % 256) + 16777216 * (u / 16777216) == u
  {
    var q1 := u / 256;
    var q2 := q1 / 256;
    var q3 := q2 / 256;
    assert u == 256 * q1 + u % 256;
    assert q1 == 256 * q2 + q1 % 256;
    assert q2 == 256 * q3 + q2 % 256;
    assert q2 == u / 65536;
    assert q3 == u / 16777216;
  }

  /** Sample `i` of an encoding sits at bytes 2i and 2i + 1. */
  lemma {:induction false} PcmAt(samples: seq<Int16>, i: nat)
    requires i < |samples|
    ensures Pcm(samples)[2 * i..2 * i + 2] == Le16(samples[i] as int)
  {
    if i > 0 {
      PcmAt(samples[1..], i - 1);
      assert Pcm(samples)[2 * i..2 * i + 2] == Pcm(samples[1..])[2 * (i - 1)..2 * (i - 1) + 2];
    }
  }

  /** The fields the decoder reads from a canonical header. */
  lemma HeaderReads(b: seq<Byte>, channels: Int16, rate: Int32, dataBytes: nat)
    requires channels > 0 && rate >= 0
    requires |b| >= HeaderSize && b[..HeaderSize] == CanonicalHeader(channels, rate, dataBytes)
    ensures Int16At(b, ChannelsOffset) == channels
    ensures Int32At(b, SampleRateOffset) == rate
    ensures Int16At(b, BitsPerSampleOffset) == 16
  {
    var h := CanonicalHeader(channels, rate, dataBytes);
    assert b[22..24] == h[22..24] == Le16(channels as int);
    assert b[24..28] == h[24..28] == Le32(rate as int);
    assert b[34..36] == h[34..36] == Le16(16);
    Int16RoundTrip(b, 22, channels);
    Int32RoundTrip(b, 24, rate);
    Int16RoundTrip(b, 34, 16);
  }

  /** The samples the decoder reads from the data chunk of an encoding. */
  lemma SamplesRead(b: seq<Byte>, samples: seq<Int16>)
    requires |b| == HeaderSize + 2 * |samples| && b[HeaderSize..] == Pcm(samples)
    ensures forall i :: 0 <= i < |samples| ==> SampleAt(b, i) == samples[i] as real / MaxSample
  {
    forall i | 0 <= i < |samples|
      ensures SampleAt(b, i) == samples[i] as real / MaxSample
    {
      SampleRead(b, samples, i);
    }
  }

  lemma SampleRead(b: seq<Byte>, samples: seq<Int16>, i: nat)
    requires |b| == HeaderSize + 2 * |samples| && b[HeaderSize..] == Pcm(samples) && i < |samples|
    ensures Int16At(b, HeaderSize + 2 * i) == samples[i]
  {
    var pcm := Pcm(samples);
    PcmRead(samples, i);
    assert b[HeaderSize + 2 * i] == pcm[2 * i] && b[HeaderSize + 2 * i + 1] == pcm[2 * i + 1];
  }

  lemma PcmRead(samples: seq<Int16>, i: nat)
    requires i < |samples|
    ensures Int16At(Pcm(samples), 2 * i) == samples[i]
  {
    PcmAt(samples, i);
    Int16RoundTrip(Pcm(samples), 2 * i, samples[i]);
  }

  /** Round trip: decoding a canonical 16-bit file gives back its channel count and sample
      rate, and every sample divided by 32767, split into `n / channels` frames. */
  lemma DecodeEncode(channels: Int16, rate: Int32, samples: seq<Int16>)
    requires channels > 0 && rate >= 0
    ensures DecodeWav(Some(EncodeWav(channels, rate, samples)))
            == Clip(ClipData(|samples| / channels as int, channels, rate,
                             seq(|samples|, i requires 0 <= i < |samples| => samples[i] as real / MaxSample)))
  {
    var b := EncodeWav(channels, rate, samples);
    assert b[..HeaderSize] == CanonicalHeader(channels, rate, 2 * |samples|);
    assert b[HeaderSize..] == Pcm(samples);
    HeaderReads(b, channels, rate, 2 * |samples|);
    SamplesRead(b, samples);
  }
}
