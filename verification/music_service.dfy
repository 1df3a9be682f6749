/** The music service: the prompt it would send, the result record it returns,
    and the demo WAV it writes: 96 kHz, two channels, 24-bit signed
    little-endian samples, each mono sample written to both channels. The
    sine-wave synthesis itself is floating point and enters as a sequence of
    integer samples. */
module MusicService {

  import opened Common
  import Decimal

  const SampleRate: nat := 96000
  const Channels: nat := 2
  const SampleWidth: nat := 3

  /** Bytes per stereo frame. */
  const FrameSize: nat := 6

  /** Largest and smallest value a signed 24-bit sample can hold. */
  const MaxSample: int := 0x7F_FFFF
  const MinSample: int := -0x80_0000

  const Span24: int := 0x100_0000

  // ---------------------------------------------------------------------------
  // prompt and result record

  const GenreLabel := ". Genre: "
  const DurationLabel := ". Duration: approximately "
  const SecondsSuffix := " seconds."

  /** `f"{prompt}. Genre: {genre}. Duration: approximately {duration} seconds."` */
  function EnhancedPrompt(prompt: string, genre: string, duration: int): (s: string)
    ensures var g := |prompt| + |GenreLabel|;
            var d := g + |genre| + |DurationLabel|;
            var n := d + |Decimal.IntToString(duration)|;
            && |s| == n + |SecondsSuffix|
            && s[..|prompt|] == prompt && s[|prompt|..g] == GenreLabel
            && s[g..g + |genre|] == genre && s[g + |genre|..d] == DurationLabel
            && s[d..n] == Decimal.IntToString(duration) && s[n..] == SecondsSuffix
  {
    prompt + GenreLabel + genre + DurationLabel + Decimal.IntToString(duration) + SecondsSuffix
  }

  predicate IsNumberChar(c: char) { Decimal.IsDigit(c) || c == '-' }

  /** Length of the longest suffix made of digits and minus signs. */
  function TrailingNumber(s: string): (k: nat)
    ensures k <= |s|
    ensures forall i :: |s| - k <= i < |s| ==> IsNumberChar(s[i])
    ensures k < |s| ==> !IsNumberChar(s[|s| - k - 1])
    decreases |s|
  {
    if s == [] || !IsNumberChar(s[|s| - 1]) then 0 else 1 + TrailingNumber(s[..|s| - 1])
  }

  /** The duration a prompt states: the number just before its closing
      " seconds.", read back. */
  function StatedDuration(s: string): Option<int>
  {
    if |s| < |SecondsSuffix| || s[|s| - |SecondsSuffix|..] != SecondsSuffix then None
    else
      var t := s[..|s| - |SecondsSuffix|];
      var k := TrailingNumber(t);
      match Decimal.ParseInt(t[|t| - k..])
      case Some(n) => Some(n)
      case None => None
  }

  lemma TrailingNumberOf(head: string, number: string)
    requires head == [] || !IsNumberChar(head[|head| - 1])
    requires forall i :: 0 <= i < |number| ==> IsNumberChar(number[i])
    ensures TrailingNumber(head + number) == |number|
  {
    var s := head + number;
    var k := TrailingNumber(s);
    assert forall i :: 0 <= i < |number| ==> s[|head| + i] == number[i];
    assert |head| > 0 ==> s[|head| - 1] == head[|head| - 1];
  }

  /** The enhanced prompt states exactly the requested duration: reading the
      number back from its end gives `duration`. */
  lemma EnhancedPromptStatesDuration(prompt: string, genre: string, duration: int)
    ensures StatedDuration(EnhancedPrompt(prompt, genre, duration)) == Some(duration)
  {
    var digits := Decimal.IntToString(duration);
    var head := prompt + GenreLabel + genre + DurationLabel;
    var s := EnhancedPrompt(prompt, genre, duration);
    assert s == head + digits + SecondsSuffix;
    assert s[|s| - |SecondsSuffix|..] == SecondsSuffix;
    var t := s[..|s| - |SecondsSuffix|];
    assert t == head + digits;
    assert head[|head| - 1] == ' ';
    assert forall i :: 0 <= i < |digits| ==> IsNumberChar(digits[i]) by {
      if duration < 0 {
        assert digits == "-" + Decimal.NatToString(-duration);
        assert forall i :: 1 <= i < |digits| ==> digits[i] == Decimal.NatToString(-duration)[i - 1];
      }
    }
    TrailingNumberOf(head, digits);
    assert t[|t| - |digits|..] == digits;
    Decimal.IntRoundTrip(duration);
  }

  datatype MusicResult = MusicResult(
    url: string,
    filename: string,
    duration: int,
    format: string,
    sampleRate: string,
    bitDepth: string)

  /** `int(sample_rate * duration)`. */
  function NumSamples(duration: int): (n: int)
    ensures n == SampleRate * duration
    ensures duration >= 0 <==> n >= 0
  {
    SampleRate * duration
  }

  /** `MusicService.generate`: writes the demo WAV under `filename` and
      describes it. A negative duration makes the sample grid raise before
      anything is written; `written` is the outcome of opening the file and
      writing its frames, whose failure `generate` does not catch. */
  function Generate(prompt: string, genre: string, duration: int, filename: string,
                    written: Call<()>): (r: Call<MusicResult>)
    ensures r.Returned? <==> duration >= 0 && written.Returned?
    ensures duration < 0 ==>
              r == Raised("Number of samples, " + Decimal.IntToString(NumSamples(duration))
                          + ", must be non-negative.")
    ensures duration >= 0 && written.Raised? ==> r == Raised(written.message)
    ensures r.Returned? ==>
              r.value.url == "/api/outputs/music/" + filename && r.value.filename == filename
              && r.value.duration == duration && r.value.format == "WAV"
              && r.value.sampleRate == "96kHz" && r.value.bitDepth == "24-bit"
  {
    var n := NumSamples(duration);
    if n < 0 then
      Raised("Number of samples, " + Decimal.IntToString(n) + ", must be non-negative.")
    else if written.Raised? then Raised(written.message)
    else
      Returned(MusicResult("/api/outputs/music/" + filename, filename, duration,
                           "WAV", "96kHz", "24-bit"))
  }

  // ---------------------------------------------------------------------------
  // 24-bit PCM

  predicate Fits24(s: int) { MinSample <= s <= MaxSample }

  predicate AllFit(samples: seq<int>) { forall i :: 0 <= i < |samples| ==> Fits24(samples[i]) }

  /** `s.to_bytes(3, 'little', signed=True)` for a value that fits: the
      two's-complement value, least significant byte first. */
  function Sample24(s: int): (b: seq<Byte>)
    requires Fits24(s)
    ensures |b| == SampleWidth
  {
    var u := if s < 0 then s + Span24 else s;
    [u % 256, (u / 256) % 256, u / 0x1_0000]
  }

  /** `int.from_bytes(b, 'little', signed=True)` for three bytes. */
  function Decode24(b: seq<Byte>): (s: int)
    requires |b| == SampleWidth
    ensures Fits24(s)
  {
    var u: int := b[0] as int + 256 * b[1] as int + 0x1_0000 * b[2] as int;
    if u > MaxSample then u - Span24 else u
  }

  lemma DivMod256(u: int)
    requires 0 <= u < Span24
    ensures u == u % 256 + 256 * ((u / 256) % 256) + 0x1_0000 * (u / 0x1_0000)
    ensures 0 <= u / 0x1_0000 < 256
  {
    var q := u / 256;
    assert u == 256 * q + u % 256;
    assert q == 256 * (q / 256) + q % 256;
    assert q / 256 == u / 0x1_0000;
  }

  /** Decoding an encoded sample gives the sample back. */
  lemma DecodeEncode24(s: int)
    requires Fits24(s)
    ensures Decode24(Sample24(s)) == s
  {
    var u := if s < 0 then s + Span24 else s;
    DivMod256(u);
  }

  /** Encoding a decoded triple gives the bytes back: the encoding is a
      bijection between 24-bit values and byte triples. */
  lemma EncodeDecode24(b: seq<Byte>)
    requires |b| == SampleWidth
    ensures Sample24(Decode24(b)) == b
  {
    var u: int := b[0] as int + 256 * b[1] as int + 0x1_0000 * b[2] as int;
    var b0, b1, b2 := b[0] as int, b[1] as int, b[2] as int;
    assert u == b0 + 256 * (b1 + 256 * b2);
    assert u % 256 == b0 && u / 256 == b1 + 256 * b2;
    assert (u / 256) % 256 == b1 && (u / 256) / 256 == b2;
    assert u / 0x1_0000 == (u / 256) / 256;
  }

  /** Python's `to_bytes` on any integer: raises for a value outside 24 bits. */
  function ToBytes3(s: int): (r: Call<seq<Byte>>)
    ensures r.Returned? <==> Fits24(s)
    ensures r.Returned? ==> |r.value| == SampleWidth && Decode24(r.value) == s
  {
    if Fits24(s) then
      DecodeEncode24(s);
      Returned(Sample24(s))
    else Raised("int too big to convert")
  }

  /** One stereo frame: `sample_bytes * num_channels`. */
  function Frame(s: int): (f: seq<Byte>)
    requires Fits24(s)
    ensures |f| == FrameSize
    ensures f[..SampleWidth] == Sample24(s) && f[SampleWidth..] == Sample24(s)
  {
    Sample24(s) + Sample24(s)
  }

  /** The frame data of the demo WAV, one frame per sample, in order. */
  function Frames(samples: seq<int>): (data: seq<Byte>)
    requires AllFit(samples)
    ensures |data| == FrameSize * |samples|
    decreases |samples|
  {
    if samples == [] then [] else Frame(samples[0]) + Frames(samples[1..])
  }

  lemma {:induction false} FramesAt(samples: seq<int>, i: nat)
    requires AllFit(samples) && i < |samples|
    ensures Frames(samples)[FrameSize * i..FrameSize * i + FrameSize] == Frame(samples[i])
    decreases i
  {
    var data := Frames(samples);
    var rest := Frames(samples[1..]);
    assert data == Frame(samples[0]) + rest;
    if i > 0 {
      FramesAt(samples[1..], i - 1);
      assert data[FrameSize * i..FrameSize * i + FrameSize]
          == rest[FrameSize * (i - 1)..FrameSize * (i - 1) + FrameSize];
    }
  }

  /** The frame data as `_create_demo_wav` writes it, one frame per loop
      iteration. */
  method WriteFrames(samples: seq<int>) returns (data: seq<Byte>)
    requires AllFit(samples)
    ensures |data| == FrameSize * |samples|
    ensures forall i :: 0 <= i < |samples| ==>
              data[FrameSize * i..FrameSize * i + FrameSize] == Frame(samples[i])
  {
    data := [];
    var k := 0;
    while k < |samples|
      invariant 0 <= k <= |samples|
      invariant |data| == FrameSize * k
      invariant forall i :: 0 <= i < k ==>
                  data[FrameSize * i..FrameSize * i + FrameSize] == Frame(samples[i])
    {
      var old_data := data;
      data := data + Frame(samples[k]);
      assert forall i :: 0 <= i < k ==>
               data[FrameSize * i..FrameSize * i + FrameSize]
               == old_data[FrameSize * i..FrameSize * i + FrameSize];
      assert data[FrameSize * k..FrameSize * k + FrameSize] == Frame(samples[k]);
      k := k + 1;
    }
  }

  datatype StereoSample = StereoSample(left: int, right: int)

  /** Reads frame data back into (left, right) sample pairs. */
  function DecodeFrames(data: seq<Byte>): (pairs: seq<StereoSample>)
    requires |data| % FrameSize == 0
    ensures |pairs| == |data| / FrameSize
    decreases |data|
  {
    if data == [] then []
    else [StereoSample(Decode24(data[..3]), Decode24(data[3..6]))] + DecodeFrames(data[6..])
  }

  /** Reading the demo frames back gives every sample on both channels. */
  lemma {:induction false} DecodeFramesRoundTrip(samples: seq<int>)
    requires AllFit(samples)
    ensures |Frames(samples)| % FrameSize == 0
    ensures var pairs := DecodeFrames(Frames(samples));
            |pairs| == |samples|
            && forall i :: 0 <= i < |samples| ==> pairs[i] == StereoSample(samples[i], samples[i])
    decreases |samples|
  {
    if samples != [] {
      var data := Frames(samples);
      var f := Frame(samples[0]);
      assert data == f + Frames(samples[1..]);
      assert data[..3] == f[..3] && data[3..6] == f[3..] && data[6..] == Frames(samples[1..]);
      DecodeEncode24(samples[0]);
      DecodeFramesRoundTrip(samples[1..]);
    }
  }

  /** The demo WAV's frame data: the frames of `samples`, or the overflow the
      first sample outside 24 bits raises. */
  function DemoWavData(samples: seq<int>): (r: Call<seq<Byte>>)
    ensures r.Returned? <==> AllFit(samples)
    ensures r.Returned? ==> |r.value| == FrameSize * |samples|
  {
    if AllFit(samples) then Returned(Frames(samples)) else Raised("int too big to convert")
  }

  /** The synthesised tone is scaled by 0.3 of full scale, so every sample fits
      and the demo WAV always has six bytes per sample. */
  lemma DemoWavLength(duration: nat, samples: seq<int>)
    requires |samples| == NumSamples(duration)
    requires forall i :: 0 <= i < |samples| ==> -MaxSample <= samples[i] <= MaxSample
    ensures DemoWavData(samples).Returned?
    ensures |DemoWavData(samples).value| == FrameSize * SampleRate * duration
  {
  }
}
