/**
 The audio engine's format arithmetic (demos/neet/src/audio.rs): a sample rate
 and a channel count, and the conversion of a duration in whole milliseconds
 into a number of blocks (one sample per channel) and of interleaved samples.
 */
module Audio {
  import opened Ints

  const NANOS_PER_SEC: nat := 1_000_000_000
  const NANOS_PER_MILLI: nat := 1_000_000
  const MILLIS_PER_SEC: nat := 1_000

  /** The sub-second part of a `std::time::Duration`. */
  type SubsecNanos = n: int | 0 <= n < 1_000_000_000

  /** `std::time::Duration`: whole seconds plus a sub-second nanosecond count. */
  datatype Duration = Duration(secs: U64, nanos: SubsecNanos)

  /** The whole length of a duration in nanoseconds. */
  function AsNanos(d: Duration): (n: nat)
    ensures n / NANOS_PER_SEC == d.secs && n % NANOS_PER_SEC == d.nanos
  {
    ModUnique(d.secs * NANOS_PER_SEC + d.nanos, d.secs, d.nanos, NANOS_PER_SEC);
    d.secs * NANOS_PER_SEC + d.nanos
  }

  /** `Duration::as_millis`: whole milliseconds, the sub-millisecond rest dropped. */
  function AsMillis(d: Duration): (ms: nat)
    ensures ms * NANOS_PER_MILLI <= AsNanos(d) < (ms + 1) * NANOS_PER_MILLI
  {
    d.secs * MILLIS_PER_SEC + d.nanos / NANOS_PER_MILLI
  }

  /** A duration that is a whole number of milliseconds. */
  predicate WholeMillis(d: Duration) {
    d.nanos % NANOS_PER_MILLI == 0
  }

  /** `Duration::from_millis`. */
  function FromMillis(ms: U64): (d: Duration)
    ensures AsMillis(d) == ms && AsNanos(d) == ms * NANOS_PER_MILLI
    ensures WholeMillis(d)
  {
    Duration(ms / MILLIS_PER_SEC, (ms % MILLIS_PER_SEC) * NANOS_PER_MILLI)
  }

  /** `Duration + Duration`, which panics when the seconds overflow `u64`. */
  function Add(a: Duration, b: Duration): (r: Duration)
    requires a.secs + b.secs + (a.nanos + b.nanos) / NANOS_PER_SEC < U64_MODULUS
    ensures AsNanos(r) == AsNanos(a) + AsNanos(b)
  {
    var n := a.nanos + b.nanos;
    Duration(a.secs + b.secs + n / NANOS_PER_SEC, n % NANOS_PER_SEC)
  }

  /** `cpal::SampleRate`: samples per second on each channel. */
  datatype SampleRate = SampleRate(hz: U32)

  /** `cpal::ChannelCount`. */
  type ChannelCount = U16

  /** `AudioFormat`: a sample rate and a channel count. */
  datatype AudioFormat = AudioFormat(sampleRate: SampleRate, channelCount: ChannelCount)

  /** `AudioFormat::new`. */
  function New(sampleRate: SampleRate, channelCount: ChannelCount): (f: AudioFormat)
    ensures f.sampleRate == sampleRate && f.channelCount == channelCount
  {
    AudioFormat(sampleRate, channelCount)
  }

  /** `AudioFormat::new2`, taking the rate as a bare `u32`. */
  function New2(sampleRate: U32, channelCount: U16): (f: AudioFormat)
    ensures f.sampleRate.hz == sampleRate && f.channelCount == channelCount
  {
    AudioFormat(SampleRate(sampleRate), channelCount)
  }

  const SAMPLE_RATE: SampleRate := SampleRate(48_000)
  const ENGINE_FORMAT: AudioFormat := New(SAMPLE_RATE, 2)
  const DURATION_10MS: Duration := FromMillis(10)
  const DURATION_20MS: Duration := FromMillis(20)

  /** Blocks per millisecond: the sample rate divided by 1000, rounded down. */
  function BlocksPerMilli(f: AudioFormat): (n: nat)
    ensures n * 1000 <= f.sampleRate.hz < (n + 1) * 1000
  {
    f.sampleRate.hz / 1000
  }

  /**
   `AudioFormat::block_count`: the rate's blocks per millisecond times the
   duration's whole milliseconds, both cast to `usize`, multiplied as a
   release build does (modulo 2^64).
   */
  function BlockCount(f: AudioFormat, duration: Duration): (blocks: Usize)
    ensures blocks == (BlocksPerMilli(f) * AsMillis(duration)) % USIZE_MODULUS
  {
    MulModRight(BlocksPerMilli(f), AsMillis(duration), USIZE_MODULUS);
    WrappingMul(BlocksPerMilli(f), AsUsize(AsMillis(duration)))
  }

  /**
   `AudioFormat::sample_count`: the block count times the channel count, again
   multiplied modulo 2^64, which gives the exact three-way product modulo 2^64.
   */
  function SampleCount(f: AudioFormat, duration: Duration): (samples: Usize)
    ensures samples == (BlocksPerMilli(f) * AsMillis(duration) * f.channelCount) % USIZE_MODULUS
  {
    var x, c := BlocksPerMilli(f) * AsMillis(duration), f.channelCount;
    var blocks := BlockCount(f, duration);
    assert blocks == x % USIZE_MODULUS;
    MulModRight(c, x, USIZE_MODULUS);
    assert blocks * c == c * (x % USIZE_MODULUS) && x * c == c * x;
    WrappingMul(blocks, c)
  }

  /** The block count of `duration` is representable in a `usize`. */
  predicate BlockCountFits(f: AudioFormat, duration: Duration) {
    BlocksPerMilli(f) * AsMillis(duration) < USIZE_MODULUS
  }

  /** The sample count of `duration` is representable in a `usize`. */
  predicate SampleCountFits(f: AudioFormat, duration: Duration) {
    BlocksPerMilli(f) * AsMillis(duration) * f.channelCount < USIZE_MODULUS
  }

  /** Without overflow, the block count is exactly blocks-per-millisecond times whole milliseconds. */
  lemma BlockCountExact(f: AudioFormat, d: Duration)
    requires BlockCountFits(f, d)
    ensures BlockCount(f, d) == BlocksPerMilli(f) * AsMillis(d)
  {
    ModBelow(BlocksPerMilli(f) * AsMillis(d), USIZE_MODULUS);
  }

  /**
   Without overflow, the sample count is the block count times the channel
   count, so it is always a whole number of blocks.
   */
  lemma SampleCountExact(f: AudioFormat, d: Duration)
    requires SampleCountFits(f, d)
    ensures SampleCount(f, d) == BlockCount(f, d) * f.channelCount
    ensures SampleCount(f, d) == BlocksPerMilli(f) * AsMillis(d) * f.channelCount
    ensures f.channelCount > 0 ==> SampleCount(f, d) % f.channelCount == 0
  {
    var blocks, c := BlocksPerMilli(f) * AsMillis(d), f.channelCount;
    if c > 0 {
      MulLeftMonotone(blocks, 1, c);
      BlockCountExact(f, d);
      assert SampleCount(f, d) == blocks * c;
      MultipleMod(blocks, c);
    } else {
      assert SampleCount(f, d) == WrappingMul(BlockCount(f, d), 0) == 0;
    }
  }

  /** The engine format at 48 kHz stereo: 10 ms is 480 blocks, 20 ms is 960 blocks or 1920 samples. */
  lemma EngineFormatCounts()
    ensures BlockCount(ENGINE_FORMAT, DURATION_10MS) == 480
    ensures BlockCount(ENGINE_FORMAT, DURATION_20MS) == 960
    ensures SampleCount(ENGINE_FORMAT, DURATION_10MS) == 960
    ensures SampleCount(ENGINE_FORMAT, DURATION_20MS) == 1920
  {
    SampleCountExact(ENGINE_FORMAT, DURATION_10MS);
    SampleCountExact(ENGINE_FORMAT, DURATION_20MS);
  }

  /** A longer duration never gives fewer blocks, as long as the longer one fits. */
  lemma BlockCountMonotone(f: AudioFormat, a: Duration, b: Duration)
    requires AsMillis(a) <= AsMillis(b)
    requires BlockCountFits(f, b)
    ensures BlockCount(f, a) <= BlockCount(f, b)
  {
    MulLeftMonotone(BlocksPerMilli(f), AsMillis(a), AsMillis(b));
    BlockCountExact(f, a);
    BlockCountExact(f, b);
  }

  /** Adding two whole-millisecond durations adds their whole milliseconds. */
  lemma AddWholeMillis(a: Duration, b: Duration)
    requires WholeMillis(a) && WholeMillis(b)
    requires a.secs + b.secs + (a.nanos + b.nanos) / NANOS_PER_SEC < U64_MODULUS
    ensures AsMillis(Add(a, b)) == AsMillis(a) + AsMillis(b)
  {
    var ms := AsMillis(a) + AsMillis(b);
    assert AsNanos(a) == AsMillis(a) * NANOS_PER_MILLI;
    assert AsNanos(b) == AsMillis(b) * NANOS_PER_MILLI;
    assert AsNanos(Add(a, b)) == ms * NANOS_PER_MILLI;
  }

  /** The block count is additive over whole-millisecond durations whose sum fits. */
  lemma BlockCountAdditive(f: AudioFormat, a: Duration, b: Duration)
    requires WholeMillis(a) && WholeMillis(b)
    requires a.secs + b.secs + (a.nanos + b.nanos) / NANOS_PER_SEC < U64_MODULUS
    requires BlockCountFits(f, Add(a, b))
    ensures BlockCount(f, Add(a, b)) == BlockCount(f, a) + BlockCount(f, b)
  {
    var s := Add(a, b);
    var p, ma, mb := BlocksPerMilli(f), AsMillis(a), AsMillis(b);
    AddWholeMillis(a, b);
    assert AsMillis(s) == ma + mb;
    MulAddDistrib(p, ma, mb);
    MulLeftMonotone(p, ma, ma + mb);
    MulLeftMonotone(p, mb, ma + mb);
    BlockCountExact(f, a);
    BlockCountExact(f, b);
    BlockCountExact(f, s);
  }

  /**
   The whole-millisecond condition is needed: two half milliseconds count as
   nothing each, yet add up to one millisecond of the engine format, 48 blocks.
   */
  lemma SubMillisecondPartsAreDropped()
    ensures BlockCount(ENGINE_FORMAT, Duration(0, 500_000)) == 0
    ensures BlockCount(ENGINE_FORMAT, Add(Duration(0, 500_000), Duration(0, 500_000))) == 48
  {
  }

  /** A sample rate below 1000 Hz has no whole block per millisecond, so every count is zero. */
  lemma LowRateCountsNothing(f: AudioFormat, d: Duration)
    requires f.sampleRate.hz < 1000
    ensures BlockCount(f, d) == 0 && SampleCount(f, d) == 0
  {
    assert BlocksPerMilli(f) == 0;
    assert WrappingMul(0, AsUsize(AsMillis(d))) == 0;
  }

  /** `new2` builds the same format as `new` on the wrapped rate, storing both fields unchanged. */
  lemma New2IsNew(rate: U32, channels: U16)
    ensures New2(rate, channels) == New(SampleRate(rate), channels)
    ensures New2(rate, channels).sampleRate.hz == rate
    ensures New2(rate, channels).channelCount == channels
  {
  }
}
