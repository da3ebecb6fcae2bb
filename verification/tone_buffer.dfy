/** The sample payload of `make_tone_wav_bytes`: `int(sample_rate*ms/1000)`
    frames, an amplitude of `int(32767*clamp(volume, 0, 1))`, and each frame
    holding the same little-endian signed 16-bit sample twice (left, right).

    The sine itself is floating-point work: the caller supplies `sine(i)`,
    standing for `math.sin(2*pi*freq_hz*i/sample_rate)`, as a real in [-1, 1]. */
module ToneBuffer {

  newtype byte = x: int | 0 <= x < 256

  const MAX_AMPLITUDE := 32767

  /** Python's `int(x)`: truncation toward zero. */
  function Truncate(x: real): (i: int)
    ensures x >= 0.0 ==> 0 <= i && i as real <= x < i as real + 1.0
    ensures x < 0.0 ==> i <= 0 && i as real - 1.0 < x <= i as real
  {
    if x >= 0.0 then x.Floor else -((-x).Floor)
  }

  /** `int(sample_rate * ms / 1000.0)`: the product divided by 1000, truncated
      toward zero. */
  function FrameCount(sampleRate: int, ms: int): (n: int)
    ensures sampleRate * ms >= 0 ==> 0 <= n && 1000 * n <= sampleRate * ms < 1000 * n + 1000
    ensures sampleRate * ms < 0 ==> n <= 0 && 1000 * n - 1000 < sampleRate * ms <= 1000 * n
  {
    var p := sampleRate * ms;
    if p >= 0 then p / 1000 else -((-p) / 1000)
  }

  /** `max(0.0, min(1.0, volume))`. */
  function Clamp01(volume: real): (v: real)
    ensures 0.0 <= v <= 1.0
    ensures 0.0 <= volume <= 1.0 ==> v == volume
    ensures volume < 0.0 ==> v == 0.0
    ensures volume > 1.0 ==> v == 1.0
  {
    if volume < 0.0 then 0.0 else if volume > 1.0 then 1.0 else volume
  }

  /** `amp = int(32767 * clamp(volume))`: never above 32767, so no sample can
      leave the signed 16-bit range. */
  function Amplitude(volume: real): (amp: int)
    ensures 0 <= amp <= MAX_AMPLITUDE
    ensures volume <= 0.0 ==> amp == 0
    ensures volume >= 1.0 ==> amp == MAX_AMPLITUDE
    ensures 0.0 <= volume <= 1.0 ==> amp as real <= 32767.0 * volume < amp as real + 1.0
  {
    Truncate(MAX_AMPLITUDE as real * Clamp01(volume))
  }

  lemma NonNegativeProduct(a: real, b: real)
    requires a >= 0.0 && b >= 0.0
    ensures a * b >= 0.0
  {
  }

  /** `int(amp * sine)`: bounded by the amplitude on both sides. */
  function Sample(amp: int, sine: real): (s: int)
    requires 0 <= amp <= MAX_AMPLITUDE
    requires -1.0 <= sine <= 1.0
    ensures -amp <= s <= amp
  {
    var a := amp as real;
    var x := a * sine;
    assert -a <= x <= a by {
      NonNegativeProduct(a, 1.0 - sine);
      NonNegativeProduct(a, 1.0 + sine);
      assert a * (1.0 + sine) == a + x;
      assert a * (1.0 - sine) == a - x;
    }
    Truncate(x)
  }

  /** `struct.pack('<h', s)`: the two's complement of `s`, low byte first. */
  function Pack16(s: int): (b: seq<byte>)
    requires -32768 <= s <= 32767
    ensures |b| == 2
  {
    var u := if s < 0 then s + 65536 else s;
    [(u % 256) as byte, (u / 256) as byte]
  }

  /** Reading two little-endian bytes back as a signed 16-bit value. */
  function Unpack16(lo: byte, hi: byte): (s: int)
    ensures -32768 <= s <= 32767
  {
    var u := lo as int + 256 * hi as int;
    if u >= 32768 then u - 65536 else u
  }

  /** Packing loses nothing: the bytes read back as the sample ... */
  lemma Pack16RoundTrip(s: int)
    requires -32768 <= s <= 32767
    ensures Unpack16(Pack16(s)[0], Pack16(s)[1]) == s
  {
  }

  /** ... and every pair of bytes is the packing of the value it reads as. */
  lemma Unpack16RoundTrip(lo: byte, hi: byte)
    ensures Pack16(Unpack16(lo, hi)) == [lo, hi]
  {
  }

  /** `struct.pack('<h', s) * 2`: one stereo frame, left and right alike. */
  function StereoFrame(s: int): (f: seq<byte>)
    requires -32768 <= s <= 32767
    ensures |f| == 4 && f[..2] == f[2..] == Pack16(s)
  {
    Pack16(s) + Pack16(s)
  }

  /** The sine values the caller supplies all lie in [-1, 1]. */
  ghost predicate SineBounded(sine: int -> real) {
    forall i :: -1.0 <= sine(i) <= 1.0
  }

  /** The bytes of the first `n` frames, four bytes per frame. */
  function Payload(amp: int, sine: int -> real, n: nat): (p: seq<byte>)
    requires 0 <= amp <= MAX_AMPLITUDE
    requires SineBounded(sine)
    ensures |p| == 4 * n
  {
    if n == 0 then []
    else Payload(amp, sine, n - 1) + StereoFrame(Sample(amp, sine(n - 1)))
  }

  /** The four bytes of frame `k` are the stereo frame of sample `k`. */
  lemma {:induction false} PayloadFrameBytes(amp: int, sine: int -> real, n: nat, k: nat)
    requires 0 <= amp <= MAX_AMPLITUDE
    requires SineBounded(sine)
    requires k < n
    ensures Payload(amp, sine, n)[4 * k .. 4 * k + 4] == StereoFrame(Sample(amp, sine(k)))
  {
    var prefix := Payload(amp, sine, n - 1);
    if k < n - 1 {
      PayloadFrameBytes(amp, sine, n - 1, k);
      assert Payload(amp, sine, n)[4 * k .. 4 * k + 4] == prefix[4 * k .. 4 * k + 4];
    }
  }

  /** Frame `k` of the payload carries sample `k` in both channels, and that
      sample is within the amplitude. */
  lemma PayloadFrame(amp: int, sine: int -> real, n: nat, k: nat)
    requires 0 <= amp <= MAX_AMPLITUDE
    requires SineBounded(sine)
    requires k < n
    ensures |Payload(amp, sine, n)| == 4 * n
    ensures Payload(amp, sine, n)[4 * k .. 4 * k + 4] == StereoFrame(Sample(amp, sine(k)))
    ensures -amp <= Unpack16(Payload(amp, sine, n)[4 * k], Payload(amp, sine, n)[4 * k + 1]) <= amp
    ensures Payload(amp, sine, n)[4 * k .. 4 * k + 2] == Payload(amp, sine, n)[4 * k + 2 .. 4 * k + 4]
  {
    PayloadFrameBytes(amp, sine, n, k);
    var bytes := Payload(amp, sine, n);
    var s := Sample(amp, sine(k));
    var f := bytes[4 * k .. 4 * k + 4];
    assert bytes[4 * k] == f[0] && bytes[4 * k + 1] == f[1];
    assert bytes[4 * k .. 4 * k + 2] == f[..2] && bytes[4 * k + 2 .. 4 * k + 4] == f[2..];
    Pack16RoundTrip(s);
  }

  /** The frame loop of `make_tone_wav_bytes`: `for i in range(n)` appends one
      stereo frame per sample. A non-positive `n` writes nothing. */
  method MakeToneFrames(ms: int, volume: real, sampleRate: int, sine: int -> real) returns (frames: seq<byte>)
    requires SineBounded(sine)
    ensures var n := FrameCount(sampleRate, ms);
      frames == Payload(Amplitude(volume), sine, if n > 0 then n else 0)
  {
    var n := FrameCount(sampleRate, ms);
    var count := if n > 0 then n else 0;
    var amp := Amplitude(volume);
    frames := [];
    for i := 0 to count
      invariant frames == Payload(amp, sine, i)
    {
      var s := Sample(amp, sine(i));
      frames := frames + StereoFrame(s);
    }
  }
}
