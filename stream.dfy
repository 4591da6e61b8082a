/** Opening an output stream (src/stream.rs): the builder and its
    configuration, the buffer-size clamp, the fallback list of configurations,
    the fallback search over configurations and devices, and the callback
    that fills each device buffer. The audio host is a record of functions
    standing for its device calls; the mixer is the sequence of samples it
    still yields. */
module Stream {
  import opened Common

  /** `cpal::FrameCount`, a 32-bit unsigned count of frames. */
  type FrameCount = x: nat | x < 0x1_0000_0000

  /** The preferred fixed buffer size, in frames. */
  const PREFERRED_BUFFER_SIZE: FrameCount := 512

  /** The rate tried between a configuration's maximum and minimum rate. */
  const HZ_44100: SampleRate := 44100

  /** Sample formats; `OtherFormat` stands for any format added to the host
      library later, which the stream cannot produce. */
  datatype SampleFormat = I8 | I16 | I32 | I64 | U8 | U16 | U32 | U64 | F32 | F64 | OtherFormat(tag: nat)

  datatype BufferSize = DefaultBufferSize | Fixed(frames: FrameCount)

  datatype BufferSizeRange = Range(min: FrameCount, max: FrameCount) | Unknown

  /** The buffer sizes a device supports; a range is never empty. */
  type SupportedBufferSize = b: BufferSizeRange | b.Unknown? || b.min <= b.max witness Unknown

  /** What the device is asked for: the configuration without its format. */
  datatype StreamConfig = StreamConfig(channels: ChannelCount, sampleRate: SampleRate, bufferSize: BufferSize)

  /** One configuration a device supports. */
  datatype SupportedStreamConfig =
    SupportedStreamConfig(channels: ChannelCount, sampleRate: SampleRate, bufferSize: SupportedBufferSize,
                          sampleFormat: SampleFormat)

  /** A family of supported configurations differing only in sample rate. */
  datatype ConfigRange =
    ConfigRange(channels: ChannelCount, minRate: SampleRate, maxRate: SampleRate, bufferSize: SupportedBufferSize,
                sampleFormat: SampleFormat)
  {
    /** The configuration of this family at its highest rate. */
    function WithMaxSampleRate(): (c: SupportedStreamConfig)
      ensures c.sampleRate == maxRate
      ensures c.channels == channels && c.bufferSize == bufferSize && c.sampleFormat == sampleFormat
    {
      SupportedStreamConfig(channels, maxRate, bufferSize, sampleFormat)
    }

    /** The configuration of this family at `rate`, which must lie in the
        family's rate range. */
    function WithSampleRate(rate: SampleRate): (c: SupportedStreamConfig)
      requires minRate <= rate <= maxRate
      ensures c.sampleRate == rate
      ensures c.channels == channels && c.bufferSize == bufferSize && c.sampleFormat == sampleFormat
    {
      SupportedStreamConfig(channels, rate, bufferSize, sampleFormat)
    }
  }

  /** The rate ranges a device reports are never empty. */
  type SupportedStreamConfigRange = r: ConfigRange | r.minRate <= r.maxRate witness ConfigRange(1, 0, 0, Unknown, F32)

  /** The configuration the builder opens the stream with. */
  datatype OutputStreamConfig =
    OutputStreamConfig(channelCount: ChannelCount, sampleRate: SampleRate, bufferSize: BufferSize,
                       sampleFormat: SampleFormat)

  /** A device of the host, by identity. */
  datatype Device = Device(id: nat)

  /** A playing stream of the host, by identity. */
  type StreamId = nat

  /** An open stream and the mixer feeding it, which mixes at the stream's
      channel count and rate. */
  datatype OutputStream = OutputStream(stream: StreamId, mixerChannels: ChannelCount, mixerRate: SampleRate)

  /** Why the host could not build a stream; other reasons are the host's. */
  datatype BuildError = StreamConfigNotSupported | OtherBuildError(code: nat)

  datatype StreamError =
    | PlayStreamError(code: nat)
    | DefaultStreamConfigError(code: nat)
    | BuildStreamError(build: BuildError)
    | SupportedStreamConfigsError(code: nat)
    | NoDevice

  /** The audio host's answers: its default output device, its list of
      output devices, each device's default and supported configurations
      (already in the host's order of preference), building a stream for a
      configuration and sample format, and starting it. */
  datatype Host = Host(
    defaultOutputDevice: Option<Device>,
    outputDevices: Result<seq<Device>, nat>,
    defaultOutputConfig: Device -> Result<SupportedStreamConfig, nat>,
    supportedOutputConfigs: Device -> Result<seq<SupportedStreamConfigRange>, nat>,
    buildOutputStream: (Device, StreamConfig, SampleFormat) -> Result<StreamId, BuildError>,
    play: StreamId -> Result<(), nat>)

  /** A call that either returns or panics with a message. */
  datatype Outcome<+T> = Returned(value: T) | Panicked(message: string)

  // ---------------------------------------------------------------------
  // The builder
  // ---------------------------------------------------------------------

  datatype OutputStreamBuilder = OutputStreamBuilder(device: Option<Device>, config: OutputStreamConfig)

  /** The default configuration: stereo, 44100 Hz, the host's buffer size,
      8-bit signed samples. */
  function DefaultConfig(): (c: OutputStreamConfig)
    ensures c.channelCount == 2 && c.sampleRate == 44100
    ensures c.bufferSize == DefaultBufferSize && c.sampleFormat == I8
  {
    OutputStreamConfig(2, HZ_44100, DefaultBufferSize, I8)
  }

  /** The default builder: no device, the default configuration. */
  function DefaultBuilder(): (b: OutputStreamBuilder)
    ensures b.device.None? && b.config == DefaultConfig()
  {
    OutputStreamBuilder(None, DefaultConfig())
  }

  /** Sets the device; the configuration is kept. */
  function WithDevice(b: OutputStreamBuilder, device: Device): (r: OutputStreamBuilder)
    ensures r.device == Some(device) && r.config == b.config
  {
    b.(device := Some(device))
  }

  /** Sets the channel count, which must be positive; nothing else
      changes. */
  function WithChannels(b: OutputStreamBuilder, channels: ChannelCount): (r: OutputStreamBuilder)
    requires channels > 0
    ensures r.config.channelCount == channels
    ensures r.device == b.device && r.config.(channelCount := b.config.channelCount) == b.config
  {
    b.(config := b.config.(channelCount := channels))
  }

  /** Sets the sample rate; nothing else changes. */
  function WithSampleRate(b: OutputStreamBuilder, rate: SampleRate): (r: OutputStreamBuilder)
    ensures r.config.sampleRate == rate
    ensures r.device == b.device && r.config.(sampleRate := b.config.sampleRate) == b.config
  {
    b.(config := b.config.(sampleRate := rate))
  }

  /** Sets the buffer size; nothing else changes. */
  function WithBufferSize(b: OutputStreamBuilder, size: BufferSize): (r: OutputStreamBuilder)
    ensures r.config.bufferSize == size
    ensures r.device == b.device && r.config.(bufferSize := b.config.bufferSize) == b.config
  {
    b.(config := b.config.(bufferSize := size))
  }

  /** Sets the sample format; nothing else changes. */
  function WithSampleFormat(b: OutputStreamBuilder, format: SampleFormat): (r: OutputStreamBuilder)
    ensures r.config.sampleFormat == format
    ensures r.device == b.device && r.config.(sampleFormat := b.config.sampleFormat) == b.config
  {
    b.(config := b.config.(sampleFormat := format))
  }

  /** Adopts a supported configuration: its channels, rate and format, and a
      fixed buffer size as close to 512 frames as the device allows. */
  function WithSupportedConfig(b: OutputStreamBuilder, c: SupportedStreamConfig): (r: OutputStreamBuilder)
    ensures r.device == b.device
    ensures r.config.channelCount == c.channels && r.config.sampleRate == c.sampleRate
    ensures r.config.sampleFormat == c.sampleFormat
    ensures r.config.bufferSize.Fixed? && InRange(r.config.bufferSize.frames, c.bufferSize)
    ensures r.config.bufferSize == ClampSupportedBufferSize(c.bufferSize, PREFERRED_BUFFER_SIZE)
    ensures InRange(PREFERRED_BUFFER_SIZE, c.bufferSize) ==> r.config.bufferSize == Fixed(PREFERRED_BUFFER_SIZE)
  {
    b.(config := OutputStreamConfig(c.channels, c.sampleRate,
                                    ClampSupportedBufferSize(c.bufferSize, PREFERRED_BUFFER_SIZE), c.sampleFormat))
  }

  /** Adopts a stream configuration; the sample format is kept. */
  function WithConfig(b: OutputStreamBuilder, c: StreamConfig): (r: OutputStreamBuilder)
    ensures r.device == b.device && r.config.sampleFormat == b.config.sampleFormat
    ensures ToStreamConfig(r.config) == c
  {
    b.(config := b.config.(channelCount := c.channels, sampleRate := c.sampleRate, bufferSize := c.bufferSize))
  }

  /** The stream configuration asked of the device: the sample format is
      not part of it. */
  function ToStreamConfig(c: OutputStreamConfig): StreamConfig
  {
    StreamConfig(c.channelCount, c.sampleRate, c.bufferSize)
  }

  /** Each setter changes its own field and nothing else, so setters of
      different fields commute, and a second call of the same setter wins. */
  lemma SettersCommute(b: OutputStreamBuilder, d: Device, ch: ChannelCount, ch': ChannelCount,
                       rate: SampleRate, rate': SampleRate, size: BufferSize, size': BufferSize,
                       format: SampleFormat, format': SampleFormat)
    requires ch > 0 && ch' > 0
    ensures WithSampleRate(WithChannels(b, ch), rate) == WithChannels(WithSampleRate(b, rate), ch)
    ensures WithBufferSize(WithSampleRate(b, rate), size) == WithSampleRate(WithBufferSize(b, size), rate)
    ensures WithSampleFormat(WithBufferSize(b, size), format) == WithBufferSize(WithSampleFormat(b, format), size)
    ensures WithDevice(WithSampleFormat(b, format), d) == WithSampleFormat(WithDevice(b, d), format)
    ensures WithChannels(WithChannels(b, ch), ch') == WithChannels(b, ch')
    ensures WithSampleRate(WithSampleRate(b, rate), rate') == WithSampleRate(b, rate')
    ensures WithBufferSize(WithBufferSize(b, size), size') == WithBufferSize(b, size')
    ensures WithSampleFormat(WithSampleFormat(b, format), format') == WithSampleFormat(b, format')
  {
  }

  /** A stream configuration survives adoption by a builder, and a builder
      that adopts its own stream configuration is unchanged; the format is
      the only part not carried. */
  lemma ConfigRoundTrip(b: OutputStreamBuilder, c: StreamConfig)
    ensures ToStreamConfig(WithConfig(b, c).config) == c
    ensures WithConfig(b, ToStreamConfig(b.config)) == b
    ensures WithConfig(b, c).config.sampleFormat == b.config.sampleFormat
    ensures WithConfig(b, c).device == b.device
  {
  }

  // ---------------------------------------------------------------------
  // The buffer-size clamp
  // ---------------------------------------------------------------------

  /** Whether `frames` is a size the device supports. */
  predicate InRange(frames: FrameCount, bs: SupportedBufferSize)
  {
    bs.Unknown? || bs.min <= frames <= bs.max
  }

  /** `Ord::clamp`: `x` brought into `[lo, hi]`. */
  function Clamp(x: FrameCount, lo: FrameCount, hi: FrameCount): FrameCount
    requires lo <= hi
  {
    if x < lo then lo else if x > hi then hi else x
  }

  /** Distance between two frame counts. */
  function Dist(x: nat, y: nat): nat
  {
    if x < y then y - x else x - y
  }

  /** A fixed buffer size: the preferred one clamped to the supported range,
      or the preferred one itself when the range is unknown. */
  function ClampSupportedBufferSize(bs: SupportedBufferSize, preferred: FrameCount): (r: BufferSize)
    ensures r.Fixed? && InRange(r.frames, bs)
    ensures InRange(preferred, bs) ==> r.frames == preferred
  {
    Fixed(match bs
          case Range(lo, hi) => Clamp(preferred, lo, hi)
          case Unknown => preferred)
  }

  /** The clamped size is the supported size nearest the preferred one. */
  lemma ClampIsNearest(bs: SupportedBufferSize, preferred: FrameCount, other: FrameCount)
    requires InRange(other, bs)
    ensures Dist(ClampSupportedBufferSize(bs, preferred).frames, preferred) <= Dist(other, preferred)
    ensures Dist(ClampSupportedBufferSize(bs, preferred).frames, preferred) == Dist(other, preferred) ==>
      ClampSupportedBufferSize(bs, preferred).frames == other
  {
  }

  // ---------------------------------------------------------------------
  // The fallback configurations of a device
  // ---------------------------------------------------------------------

  /** The configurations tried for one family: its highest rate, then 44100
      Hz when that lies strictly inside the family's range, then its lowest
      rate. */
  function Candidates(r: SupportedStreamConfigRange): seq<SupportedStreamConfig>
  {
    [r.WithMaxSampleRate()] +
    (if HZ_44100 < r.maxRate && HZ_44100 > r.minRate then [r.WithSampleRate(HZ_44100)] else []) +
    [r.WithSampleRate(r.minRate)]
  }

  /** All configurations tried, family by family in the host's order. */
  function CandidateList(rs: seq<SupportedStreamConfigRange>): seq<SupportedStreamConfig>
  {
    if rs == [] then [] else Candidates(rs[0]) + CandidateList(rs[1..])
  }

  /** Each family yields two or three configurations of its own channels,
      buffer sizes and format: the highest rate first, the lowest last, and
      44100 Hz in between exactly when it lies strictly inside the range. */
  lemma CandidatesShape(r: SupportedStreamConfigRange)
    ensures var cs := Candidates(r);
      (|cs| == 3 <==> r.minRate < HZ_44100 < r.maxRate) && 2 <= |cs| <= 3 &&
      cs[0].sampleRate == r.maxRate && cs[|cs| - 1].sampleRate == r.minRate &&
      (|cs| == 3 ==> cs[1].sampleRate == HZ_44100) &&
      forall c :: c in cs ==>
        c.channels == r.channels && c.bufferSize == r.bufferSize && c.sampleFormat == r.sampleFormat &&
        r.minRate <= c.sampleRate <= r.maxRate
  {
  }

  /** The list of families splits into the lists of its parts, so every
      configuration of an earlier family is tried before any of a later one. */
  lemma {:induction false} CandidateListAppend(rs: seq<SupportedStreamConfigRange>, ss: seq<SupportedStreamConfigRange>)
    ensures CandidateList(rs + ss) == CandidateList(rs) + CandidateList(ss)
  {
    if rs == [] {
      assert rs + ss == ss;
    } else {
      assert (rs + ss)[1..] == rs[1..] + ss;
      CandidateListAppend(rs[1..], ss);
      AppendAssoc(Candidates(rs[0]), CandidateList(rs[1..]), CandidateList(ss));
    }
  }

  /** Extending the list of families by one adds that family's
      configurations at the end. */
  lemma CandidateListSnoc(rs: seq<SupportedStreamConfigRange>, i: nat)
    requires i < |rs|
    ensures CandidateList(rs[..i + 1]) == CandidateList(rs[..i]) + Candidates(rs[i])
  {
    CandidateListAppend(rs[..i], [rs[i]]);
    assert rs[..i + 1] == rs[..i] + [rs[i]];
    assert CandidateList([rs[i]]) == Candidates(rs[i]) + CandidateList([]);
  }

  /** The device's families (already in the host's order) expanded into
      their fallback configurations, or the error of asking for them. */
  function FallbackConfigs(host: Host, device: Device): Result<seq<SupportedStreamConfig>, StreamError>
  {
    match host.supportedOutputConfigs(device)
    case Err(e) => Err(SupportedStreamConfigsError(e))
    case Ok(rs) => Ok(CandidateList(rs))
  }

  /** `supported_output_configs`, collecting the fallback configurations
      family by family. */
  method SupportedOutputConfigs(host: Host, device: Device) returns (r: Result<seq<SupportedStreamConfig>, StreamError>)
    ensures r == FallbackConfigs(host, device)
  {
    var families := host.supportedOutputConfigs(device);
    if families.Err? {
      return Err(SupportedStreamConfigsError(families.error));
    }
    var rs := families.value;
    var formats: seq<SupportedStreamConfig> := [];
    var i := 0;
    while i < |rs|
      invariant 0 <= i <= |rs|
      invariant formats == CandidateList(rs[..i])
    {
      var sf := rs[i];
      var family := [sf.WithMaxSampleRate()];
      if HZ_44100 < sf.maxRate && HZ_44100 > sf.minRate {
        family := family + [sf.WithSampleRate(HZ_44100)];
      }
      family := family + [sf.WithSampleRate(sf.minRate)];
      CandidateListSnoc(rs, i);
      formats := formats + family;
      i := i + 1;
    }
    assert rs[..i] == rs;
    r := Ok(formats);
  }

  // ---------------------------------------------------------------------
  // Building and opening a stream
  // ---------------------------------------------------------------------

  /** The value a buffer slot gets once the mixer has nothing more: zero for
      signed and floating-point formats, the midpoint `MAX / 2` for unsigned
      ones. Other formats have none: the stream cannot be built. */
  function SilenceOf(format: SampleFormat): (r: Option<int>)
    ensures r.None? <==> format.OtherFormat?
  {
    match format
    case F32 => Some(0)
    case F64 => Some(0)
    case I8 => Some(0)
    case I16 => Some(0)
    case I32 => Some(0)
    case I64 => Some(0)
    case U8 => Some(0xFF / 2)
    case U16 => Some(0xFFFF / 2)
    case U32 => Some(0xFFFF_FFFF / 2)
    case U64 => Some(0xFFFF_FFFF_FFFF_FFFF / 2)
    case OtherFormat(_) => None
  }

  /** The largest value of an unsigned format. */
  function UnsignedMax(format: SampleFormat): nat
    requires format.U8? || format.U16? || format.U32? || format.U64?
  {
    match format
    case U8 => 0xFF
    case U16 => 0xFFFF
    case U32 => 0xFFFF_FFFF
    case U64 => 0xFFFF_FFFF_FFFF_FFFF
  }

  /** Silence of an unsigned format is half its maximum, rounded down: the
      middle of its range. Silence of a signed or floating-point format is 0.
      Every format the stream can produce has a silence value. */
  lemma SilenceIsCentre(format: SampleFormat)
    ensures SilenceOf(format).Some? <==> !format.OtherFormat?
    ensures format.U8? || format.U16? || format.U32? || format.U64? ==>
      SilenceOf(format) == Some(UnsignedMax(format) / 2)
    ensures !(format.U8? || format.U16? || format.U32? || format.U64?) && !format.OtherFormat? ==>
      SilenceOf(format) == Some(0)
  {
  }

  /** `init_stream`: build a stream of the configuration's format; a format
      the stream cannot produce fails before the device is asked. */
  function InitStream(host: Host, device: Device, config: OutputStreamConfig): (r: Result<StreamId, BuildError>)
    ensures SilenceOf(config.sampleFormat).None? ==> r == Err(StreamConfigNotSupported)
    ensures SilenceOf(config.sampleFormat).Some? ==>
      r == host.buildOutputStream(device, ToStreamConfig(config), config.sampleFormat)
  {
    if SilenceOf(config.sampleFormat).None? then Err(StreamConfigNotSupported)
    else host.buildOutputStream(device, ToStreamConfig(config), config.sampleFormat)
  }

  /** `OutputStream::open`: build the stream, start it, and attach a mixer of
      the configuration's channel count and rate. */
  function Open(host: Host, device: Device, config: OutputStreamConfig): (r: Result<OutputStream, StreamError>)
    ensures r.Ok? <==> InitStream(host, device, config).Ok? && host.play(InitStream(host, device, config).value).Ok?
    ensures r.Ok? ==>
      r.value == OutputStream(InitStream(host, device, config).value, config.channelCount, config.sampleRate)
    ensures InitStream(host, device, config).Err? ==> r == Err(BuildStreamError(InitStream(host, device, config).error))
    ensures InitStream(host, device, config).Ok? && host.play(InitStream(host, device, config).value).Err? ==>
      r == Err(PlayStreamError(host.play(InitStream(host, device, config).value).error))
  {
    match InitStream(host, device, config)
    case Err(e) => Err(BuildStreamError(e))
    case Ok(stream) =>
      match host.play(stream)
      case Err(e) => Err(PlayStreamError(e))
      case Ok(_) => Ok(OutputStream(stream, config.channelCount, config.sampleRate))
  }

  /** `open_stream`: opens on the builder's device, and panics when the
      builder has none. */
  function OpenStream(host: Host, b: OutputStreamBuilder): (r: Outcome<Result<OutputStream, StreamError>>)
    ensures r.Panicked? <==> b.device.None?
    ensures r.Returned? ==> r.value == Open(host, b.device.value, b.config)
  {
    if b.device.None? then Panicked("output device specified")
    else Returned(Open(host, b.device.value, b.config))
  }

  /** `from_device`: a builder for the device in its default configuration. */
  function FromDevice(host: Host, device: Device): (r: Result<OutputStreamBuilder, StreamError>)
    ensures host.defaultOutputConfig(device).Err? ==>
      r == Err(DefaultStreamConfigError(host.defaultOutputConfig(device).error))
    ensures host.defaultOutputConfig(device).Ok? ==>
      r.Ok? && r.value.device == Some(device) &&
      r.value == WithSupportedConfig(WithDevice(DefaultBuilder(), device), host.defaultOutputConfig(device).value)
  {
    match host.defaultOutputConfig(device)
    case Err(e) => Err(DefaultStreamConfigError(e))
    case Ok(c) => Ok(WithSupportedConfig(WithDevice(DefaultBuilder(), device), c))
  }

  /** `from_default_device`: as `from_device` for the host's default output
      device, or `NoDevice` when it has none. */
  function FromDefaultDevice(host: Host): (r: Result<OutputStreamBuilder, StreamError>)
    ensures host.defaultOutputDevice.None? ==> r == Err(NoDevice)
    ensures host.defaultOutputDevice.Some? ==> r == FromDevice(host, host.defaultOutputDevice.value)
    ensures r.Ok? ==> r.value.device == host.defaultOutputDevice
  {
    match host.defaultOutputDevice
    case None => Err(NoDevice)
    case Some(d) => FromDevice(host, d)
  }

  // ---------------------------------------------------------------------
  // Falling back over configurations
  // ---------------------------------------------------------------------

  /** The builder a fallback configuration is opened with: the device kept,
      everything else from the configuration. */
  function CandidateBuilder(device: Device, c: SupportedStreamConfig): (b: OutputStreamBuilder)
    ensures b.device == Some(device) && b.config == AsWrittenCandidateBuilder(c).config
  {
    WithSupportedConfig(WithDevice(DefaultBuilder(), device), c)
  }

  /** The stream of the first configuration of `cs` that opens on `device`. */
  function FirstCandidate(host: Host, device: Device, cs: seq<SupportedStreamConfig>): Option<OutputStream>
  {
    if cs == [] then None
    else match Open(host, device, CandidateBuilder(device, cs[0]).config)
      case Ok(s) => Some(s)
      case Err(_) => FirstCandidate(host, device, cs[1..])
  }

  /** Whether configuration `c` fails to open on `device`. */
  predicate CandidateFails(host: Host, device: Device, c: SupportedStreamConfig)
  {
    Open(host, device, CandidateBuilder(device, c).config).Err?
  }

  /** The first `k` configurations of `cs` all fail to open on `device`. */
  predicate FailBefore(host: Host, device: Device, cs: seq<SupportedStreamConfig>, k: nat)
    requires k <= |cs|
  {
    forall j :: 0 <= j < k ==> CandidateFails(host, device, cs[j])
  }

  /** The search finds a stream exactly when some configuration opens, and
      then it is the stream of the first one that does: every earlier one
      failed. */
  lemma {:induction false} FirstCandidateIsFirst(host: Host, device: Device, cs: seq<SupportedStreamConfig>)
    ensures FirstCandidate(host, device, cs).None? <==> FailBefore(host, device, cs, |cs|)
    ensures FirstCandidate(host, device, cs).Some? ==>
      exists k :: 0 <= k < |cs| && FailBefore(host, device, cs, k) &&
        Open(host, device, CandidateBuilder(device, cs[k]).config) == Ok(FirstCandidate(host, device, cs).value)
  {
    if cs != [] {
      var tail := cs[1..];
      FirstCandidateIsFirst(host, device, tail);
      if CandidateFails(host, device, cs[0]) {
        assert FirstCandidate(host, device, cs) == FirstCandidate(host, device, tail);
        if FirstCandidate(host, device, cs).Some? {
          var k :| 0 <= k < |tail| && FailBefore(host, device, tail, k) &&
            Open(host, device, CandidateBuilder(device, tail[k]).config) == Ok(FirstCandidate(host, device, cs).value);
          forall j | 0 <= j < k + 1 ensures CandidateFails(host, device, cs[j]) {
            if j > 0 { assert cs[j] == tail[j - 1]; }
          }
          assert cs[k + 1] == tail[k];
        } else {
          forall j | 0 <= j < |cs| ensures CandidateFails(host, device, cs[j]) {
            if j > 0 { assert cs[j] == tail[j - 1]; }
          }
        }
      } else {
        assert FailBefore(host, device, cs, 0);
      }
    }
  }

  /** `try_open_stream`, with every fallback opened on the builder's own
      device: the builder's configuration if it opens; otherwise the first
      fallback configuration that opens; otherwise the error of the first
      attempt. Failing to list the configurations ends the search with that
      error. Panics when the builder has no device. */
  function TryOpenStreamResult(host: Host, b: OutputStreamBuilder): (r: Outcome<Result<OutputStream, StreamError>>)
    ensures r.Panicked? <==> b.device.None?
    ensures b.device.Some? && Open(host, b.device.value, b.config).Ok? ==> r == Returned(Open(host, b.device.value, b.config))
    ensures b.device.Some? && Open(host, b.device.value, b.config).Err? && FallbackConfigs(host, b.device.value).Err? ==>
      r == Returned(Err(FallbackConfigs(host, b.device.value).error))
  {
    if b.device.None? then Panicked("output device specified")
    else
      var d := b.device.value;
      match Open(host, d, b.config)
      case Ok(s) => Returned(Ok(s))
      case Err(err) =>
        match FallbackConfigs(host, d)
        case Err(e) => Returned(Err(e))
        case Ok(cs) =>
          match FirstCandidate(host, d, cs)
          case Some(s) => Returned(Ok(s))
          case None => Returned(Err(err))
  }

  /** When every fallback configuration fails, `try_open_stream` returns
      the error of its first attempt. */
  lemma TryOpenStreamAllFail(host: Host, b: OutputStreamBuilder)
    requires b.device.Some? && Open(host, b.device.value, b.config).Err?
    requires FallbackConfigs(host, b.device.value).Ok?
    requires var cs := FallbackConfigs(host, b.device.value).value;
      FailBefore(host, b.device.value, cs, |cs|)
    ensures TryOpenStreamResult(host, b) == Returned(Open(host, b.device.value, b.config))
  {
    var d := b.device.value;
    var cs := FallbackConfigs(host, d).value;
    FirstCandidateIsFirst(host, d, cs);
    assert FirstCandidate(host, d, cs).None?;
    var err := Open(host, d, b.config).error;
    assert TryOpenStreamResult(host, b) == Returned(Err(err));
  }

  /** When the first attempt fails and `try_open_stream` still returns a
      stream, it is that of the first fallback configuration that opens. */
  lemma TryOpenStreamFirstSuccess(host: Host, b: OutputStreamBuilder)
    requires b.device.Some? && Open(host, b.device.value, b.config).Err?
    requires TryOpenStreamResult(host, b).value.Ok?
    ensures var d := b.device.value;
      FallbackConfigs(host, d).Ok? &&
      var cs := FallbackConfigs(host, d).value;
      exists k :: 0 <= k < |cs| && FailBefore(host, d, cs, k) &&
        Open(host, d, CandidateBuilder(d, cs[k]).config) == TryOpenStreamResult(host, b).value
  {
    var d := b.device.value;
    var cs := FallbackConfigs(host, d).value;
    FirstCandidateIsFirst(host, d, cs);
    assert TryOpenStreamResult(host, b).value == Ok(FirstCandidate(host, d, cs).value);
    var k :| 0 <= k < |cs| && FailBefore(host, d, cs, k) &&
      Open(host, d, CandidateBuilder(d, cs[k]).config) == Ok(FirstCandidate(host, d, cs).value);
  }

  /** When the first attempt fails and some fallback configuration opens on
      the device, `try_open_stream` returns a stream. */
  lemma TryOpenStreamSomeOpens(host: Host, b: OutputStreamBuilder, k: nat)
    requires b.device.Some? && Open(host, b.device.value, b.config).Err?
    requires FallbackConfigs(host, b.device.value).Ok? && k < |FallbackConfigs(host, b.device.value).value|
    requires !CandidateFails(host, b.device.value, FallbackConfigs(host, b.device.value).value[k])
    ensures TryOpenStreamResult(host, b).value.Ok?
  {
    FirstCandidateIsFirst(host, b.device.value, FallbackConfigs(host, b.device.value).value);
  }

  /** `try_open_stream`, the search over configurations stopping at the
      first one that opens. */
  method TryOpenStream(host: Host, b: OutputStreamBuilder) returns (r: Outcome<Result<OutputStream, StreamError>>)
    ensures r == TryOpenStreamResult(host, b)
  {
    if b.device.None? {
      return Panicked("output device specified");
    }
    var device := b.device.value;
    var first := Open(host, device, b.config);
    if first.Ok? {
      return Returned(first);
    }
    var supported := SupportedOutputConfigs(host, device);
    if supported.Err? {
      return Returned(Err(supported.error));
    }
    var cs := supported.value;
    var i := 0;
    while i < |cs|
      invariant 0 <= i <= |cs|
      invariant FirstCandidate(host, device, cs) == FirstCandidate(host, device, cs[i..])
    {
      assert cs[i..][1..] == cs[i + 1..];
      var handle := OpenStream(host, CandidateBuilder(device, cs[i]));
      if handle.value.Ok? {
        return Returned(handle.value);
      }
      i := i + 1;
    }
    return Returned(first);
  }

  /** The fallback as the code builds it: each configuration goes into a
      builder made from scratch, which has no device, so opening it panics. */
  function AsWrittenCandidateBuilder(c: SupportedStreamConfig): (b: OutputStreamBuilder)
    ensures b.device.None?
  {
    WithSupportedConfig(DefaultBuilder(), c)
  }

  /** The builders the code opens, one per fallback configuration. */
  function AsWrittenBuilders(cs: seq<SupportedStreamConfig>): (bs: seq<OutputStreamBuilder>)
    ensures |bs| == |cs|
    ensures forall k :: 0 <= k < |cs| ==> bs[k] == AsWrittenCandidateBuilder(cs[k])
  {
    if cs == [] then [] else [AsWrittenCandidateBuilder(cs[0])] + AsWrittenBuilders(cs[1..])
  }

  /** `open_stream` on each builder in turn, up to the first that opens (or
      panics). */
  function FirstOpened(host: Host, bs: seq<OutputStreamBuilder>): Outcome<Option<OutputStream>>
  {
    if bs == [] then Returned(None)
    else match OpenStream(host, bs[0])
      case Panicked(m) => Panicked(m)
      case Returned(Ok(s)) => Returned(Some(s))
      case Returned(Err(_)) => FirstOpened(host, bs[1..])
  }

  /** `try_open_stream` as written. */
  function TryOpenStreamAsWritten(host: Host, b: OutputStreamBuilder): Outcome<Result<OutputStream, StreamError>>
  {
    if b.device.None? then Panicked("output device specified")
    else
      var d := b.device.value;
      match Open(host, d, b.config)
      case Ok(s) => Returned(Ok(s))
      case Err(err) =>
        match FallbackConfigs(host, d)
        case Err(e) => Returned(Err(e))
        case Ok(cs) =>
          match FirstOpened(host, AsWrittenBuilders(cs))
          case Panicked(m) => Panicked(m)
          case Returned(Some(s)) => Returned(Ok(s))
          case Returned(None) => Returned(Err(err))
  }

  /** As written, the fallback never opens anything: as soon as the first
      attempt fails on a device that lists any configuration, the call
      panics, where the corrected search returns a result. */
  lemma AsWrittenFallbackPanics(host: Host, b: OutputStreamBuilder)
    requires b.device.Some? && Open(host, b.device.value, b.config).Err?
    requires host.supportedOutputConfigs(b.device.value).Ok? && host.supportedOutputConfigs(b.device.value).value != []
    ensures TryOpenStreamAsWritten(host, b).Panicked?
    ensures TryOpenStreamResult(host, b).Returned?
  {
    var rs := host.supportedOutputConfigs(b.device.value).value;
    assert CandidateList(rs) == Candidates(rs[0]) + CandidateList(rs[1..]);
    var bs := AsWrittenBuilders(CandidateList(rs));
    assert OpenStream(host, bs[0]).Panicked?;
  }

  /** A host whose device 0 takes only 32-bit float samples at 48000 Hz. */
  function FloatOnlyHost(): Host
  {
    Host(
      Some(Device(0)),
      Ok([Device(0)]),
      d => Ok(SupportedStreamConfig(2, 48000, Unknown, F32)),
      d => Ok([ConfigRange(2, 48000, 48000, Unknown, F32)]),
      (d: Device, c: StreamConfig, f: SampleFormat) => if f == F32 && c.sampleRate == 48000 then Ok(7) else Err(StreamConfigNotSupported),
      s => Ok(()))
  }

  /** On that host a builder asking for the default configuration (8-bit at
      44100 Hz) fails its first attempt; the code as written then panics,
      while the corrected search opens the device's float configuration. */
  lemma FloatOnlyHostShowsPanic()
    ensures var b := WithDevice(DefaultBuilder(), Device(0));
      TryOpenStreamAsWritten(FloatOnlyHost(), b).Panicked? &&
      TryOpenStreamResult(FloatOnlyHost(), b) == Returned(Ok(OutputStream(7, 2, 48000)))
  {
    var host := FloatOnlyHost();
    var b := WithDevice(DefaultBuilder(), Device(0));
    var r := ConfigRange(2, 48000, 48000, Unknown, F32);
    assert Open(host, Device(0), b.config).Err?;
    assert Candidates(r) == [SupportedStreamConfig(2, 48000, Unknown, F32), SupportedStreamConfig(2, 48000, Unknown, F32)];
    assert CandidateList([r]) == Candidates(r) + CandidateList([]);
    assert Open(host, Device(0), CandidateBuilder(Device(0), Candidates(r)[0]).config) == Ok(OutputStream(7, 2, 48000));
  }

  // ---------------------------------------------------------------------
  // Falling back over devices
  // ---------------------------------------------------------------------

  /** The stream of the first device of `ds` whose default configuration can
      be read and whose `try_open_stream` succeeds. */
  function FirstDevice(host: Host, ds: seq<Device>): Option<OutputStream>
  {
    if ds == [] then None
    else match FromDevice(host, ds[0])
      case Ok(b) =>
        (match TryOpenStreamResult(host, b)
         case Returned(Ok(s)) => Some(s)
         case _ => FirstDevice(host, ds[1..]))
      case Err(_) => FirstDevice(host, ds[1..])
  }

  /** Whether device `d` yields a stream in the device search. */
  function DeviceStream(host: Host, d: Device): Option<OutputStream>
  {
    match FromDevice(host, d)
    case Ok(b) => (if TryOpenStreamResult(host, b).value.Ok? then Some(TryOpenStreamResult(host, b).value.value) else None)
    case Err(_) => None
  }

  /** The first `k` devices of `ds` all yield no stream. */
  predicate DevicesFailBefore(host: Host, ds: seq<Device>, k: nat)
    requires k <= |ds|
  {
    forall j :: 0 <= j < k ==> DeviceStream(host, ds[j]).None?
  }

  /** The device search finds a stream exactly when some device yields one,
      and then it is the first such device's. */
  lemma {:induction false} FirstDeviceIsFirst(host: Host, ds: seq<Device>)
    ensures FirstDevice(host, ds).None? <==> DevicesFailBefore(host, ds, |ds|)
    ensures FirstDevice(host, ds).Some? ==>
      exists k :: 0 <= k < |ds| && DevicesFailBefore(host, ds, k) && DeviceStream(host, ds[k]) == FirstDevice(host, ds)
  {
    if ds != [] {
      var tail := ds[1..];
      FirstDeviceIsFirst(host, tail);
      assert FirstDevice(host, ds) == if DeviceStream(host, ds[0]).Some? then DeviceStream(host, ds[0]) else FirstDevice(host, tail);
      if DeviceStream(host, ds[0]).None? {
        if FirstDevice(host, ds).Some? {
          var k :| 0 <= k < |tail| && DevicesFailBefore(host, tail, k) && DeviceStream(host, tail[k]) == FirstDevice(host, ds);
          forall j | 0 <= j < k + 1 ensures DeviceStream(host, ds[j]).None? {
            if j > 0 { assert ds[j] == tail[j - 1]; }
          }
          assert ds[k + 1] == tail[k];
        } else {
          forall j | 0 <= j < |ds| ensures DeviceStream(host, ds[j]).None? {
            if j > 0 { assert ds[j] == tail[j - 1]; }
          }
        }
      } else {
        assert DevicesFailBefore(host, ds, 0);
      }
    }
  }

  /** The first attempt of `try_default_stream`: the default device in its
      default configuration. */
  function DefaultAttempt(host: Host): (r: Result<OutputStream, StreamError>)
    ensures host.defaultOutputDevice.None? ==> r == Err(NoDevice)
    ensures host.defaultOutputDevice.Some? && host.defaultOutputConfig(host.defaultOutputDevice.value).Err? ==>
      r == Err(DefaultStreamConfigError(host.defaultOutputConfig(host.defaultOutputDevice.value).error))
    ensures r.Ok? ==> FromDefaultDevice(host).Ok?
    ensures FromDefaultDevice(host).Ok? ==>
      r == Open(host, host.defaultOutputDevice.value, FromDefaultDevice(host).value.config)
  {
    match FromDefaultDevice(host)
    case Err(e) => Err(e)
    case Ok(b) => OpenStream(host, b).value
  }

  /** `try_default_stream`: the default device's stream when it opens;
      otherwise the first listed output device (the default one included)
      that yields a stream; otherwise, and also when the devices cannot be
      listed, the error of the first attempt. */
  function TryDefaultStreamResult(host: Host): (r: Result<OutputStream, StreamError>)
    ensures DefaultAttempt(host).Ok? ==> r == DefaultAttempt(host)
    ensures DefaultAttempt(host).Err? && host.outputDevices.Err? ==> r == DefaultAttempt(host)
    ensures r.Err? ==> r == DefaultAttempt(host)
  {
    var first := DefaultAttempt(host);
    if first.Ok? then first
    else match host.outputDevices
      case Err(_) => Err(first.error)
      case Ok(ds) =>
        match FirstDevice(host, ds)
        case Some(s) => Ok(s)
        case None => Err(first.error)
  }

  /** When the first attempt and every listed device fail, the error of the
      first attempt is returned. */
  lemma TryDefaultStreamAllFail(host: Host)
    requires DefaultAttempt(host).Err? && host.outputDevices.Ok?
    requires DevicesFailBefore(host, host.outputDevices.value, |host.outputDevices.value|)
    ensures TryDefaultStreamResult(host) == DefaultAttempt(host)
  {
    FirstDeviceIsFirst(host, host.outputDevices.value);
  }

  /** When the first attempt fails and a stream is still returned, it is
      that of the first listed device that yields one. */
  lemma TryDefaultStreamFirstSuccess(host: Host)
    requires DefaultAttempt(host).Err? && TryDefaultStreamResult(host).Ok?
    ensures host.outputDevices.Ok? &&
      var ds := host.outputDevices.value;
      exists k :: 0 <= k < |ds| && DevicesFailBefore(host, ds, k) &&
        DeviceStream(host, ds[k]) == Some(TryDefaultStreamResult(host).value)
  {
    var ds := host.outputDevices.value;
    FirstDeviceIsFirst(host, ds);
    assert TryDefaultStreamResult(host) == Ok(FirstDevice(host, ds).value);
    var k :| 0 <= k < |ds| && DevicesFailBefore(host, ds, k) && DeviceStream(host, ds[k]) == FirstDevice(host, ds);
  }

  /** When the first attempt fails and some listed device yields a stream,
      `try_default_stream` returns a stream. */
  lemma TryDefaultStreamSomeYields(host: Host, k: nat)
    requires DefaultAttempt(host).Err? && host.outputDevices.Ok? && k < |host.outputDevices.value|
    requires DeviceStream(host, host.outputDevices.value[k]).Some?
    ensures TryDefaultStreamResult(host).Ok?
  {
    FirstDeviceIsFirst(host, host.outputDevices.value);
  }

  /** `try_default_stream`, the search over devices stopping at the first
      one that yields a stream. */
  method TryDefaultStream(host: Host) returns (r: Result<OutputStream, StreamError>)
    ensures r == TryDefaultStreamResult(host)
  {
    var originalErr: StreamError;
    var builder := FromDefaultDevice(host);
    if builder.Ok? {
      var attempt := OpenStream(host, builder.value);
      if attempt.value.Ok? {
        return attempt.value;
      }
      originalErr := attempt.value.error;
    } else {
      originalErr := builder.error;
    }
    if host.outputDevices.Err? {
      return Err(originalErr);
    }
    var ds := host.outputDevices.value;
    var i := 0;
    while i < |ds|
      invariant 0 <= i <= |ds|
      invariant FirstDevice(host, ds) == FirstDevice(host, ds[i..])
    {
      assert ds[i..][1..] == ds[i + 1..];
      var b := FromDevice(host, ds[i]);
      if b.Ok? {
        var t := TryOpenStream(host, b.value);
        if t.value.Ok? {
          return t.value;
        }
      }
      i := i + 1;
    }
    return Err(originalErr);
  }

  /** The device search as written: each device's `try_open_stream` is the
      code's, so a panic in it ends the whole search. */
  function FirstDeviceAsWritten(host: Host, ds: seq<Device>): Outcome<Option<OutputStream>>
  {
    if ds == [] then Returned(None)
    else match FromDevice(host, ds[0])
      case Ok(b) =>
        (match TryOpenStreamAsWritten(host, b)
         case Panicked(m) => Panicked(m)
         case Returned(Ok(s)) => Returned(Some(s))
         case Returned(Err(_)) => FirstDeviceAsWritten(host, ds[1..]))
      case Err(_) => FirstDeviceAsWritten(host, ds[1..])
  }

  /** `try_default_stream` as written, on top of `try_open_stream` as
      written. */
  function TryDefaultStreamAsWritten(host: Host): Outcome<Result<OutputStream, StreamError>>
  {
    var first := DefaultAttempt(host);
    if first.Ok? then Returned(first)
    else match host.outputDevices
      case Err(_) => Returned(Err(first.error))
      case Ok(ds) =>
        match FirstDeviceAsWritten(host, ds)
        case Panicked(m) => Panicked(m)
        case Returned(Some(s)) => Returned(Ok(s))
        case Returned(None) => Returned(Err(first.error))
  }

  /** As written, `try_default_stream` panics as soon as the default device
      fails to open and the first listed device reads its default
      configuration, fails to open in it, and lists any configuration. */
  lemma DefaultStreamAsWrittenPanics(host: Host)
    requires DefaultAttempt(host).Err? && host.outputDevices.Ok? && host.outputDevices.value != []
    requires var d := host.outputDevices.value[0];
      FromDevice(host, d).Ok? && Open(host, d, FromDevice(host, d).value.config).Err? &&
      host.supportedOutputConfigs(d).Ok? && host.supportedOutputConfigs(d).value != []
    ensures TryDefaultStreamAsWritten(host).Panicked?
  {
    var ds := host.outputDevices.value;
    AsWrittenFallbackPanics(host, FromDevice(host, ds[0]).value);
  }

  /** A host whose device 0 reports 8-bit samples at 44100 Hz as its default
      configuration but only takes 32-bit float samples at 48000 Hz. */
  function MisreportingHost(): Host
  {
    FloatOnlyHost().(defaultOutputConfig := d => Ok(SupportedStreamConfig(2, 44100, Unknown, I8)))
  }

  /** On that host `try_default_stream` as written panics, while with the
      corrected `try_open_stream` it opens the device's float configuration. */
  lemma MisreportingHostShowsPanic()
    ensures TryDefaultStreamAsWritten(MisreportingHost()).Panicked?
    ensures TryDefaultStreamResult(MisreportingHost()) == Ok(OutputStream(7, 2, 48000))
  {
    var host := MisreportingHost();
    var b := FromDevice(host, Device(0)).value;
    assert b == WithDevice(DefaultBuilder(), Device(0)).(config := OutputStreamConfig(2, 44100, Fixed(512), I8));
    assert Open(host, Device(0), b.config).Err?;
    DefaultStreamAsWrittenPanics(host);
    var r := ConfigRange(2, 48000, 48000, Unknown, F32);
    assert Candidates(r) == [SupportedStreamConfig(2, 48000, Unknown, F32), SupportedStreamConfig(2, 48000, Unknown, F32)];
    assert CandidateList([r]) == Candidates(r) + CandidateList([]);
    assert Open(host, Device(0), CandidateBuilder(Device(0), Candidates(r)[0]).config) == Ok(OutputStream(7, 2, 48000));
    assert TryOpenStreamResult(host, b) == Returned(Ok(OutputStream(7, 2, 48000)));
    assert FirstDevice(host, [Device(0)]) == Some(OutputStream(7, 2, 48000));
  }

  // ---------------------------------------------------------------------
  // The data callback
  // ---------------------------------------------------------------------

  /** The value the next slot receives: the mixer's next sample converted to
      the format, or the format's silence when the mixer has nothing more. */
  function FirstSlot(format: SampleFormat, samples: seq<Sample>, fromSample: (SampleFormat, Sample) -> int): int
    requires SilenceOf(format).Some?
  {
    if samples == [] then SilenceOf(format).value else fromSample(format, samples[0])
  }

  /** The mixer samples left after one slot. */
  function Rest(samples: seq<Sample>): seq<Sample>
  {
    if samples == [] then [] else samples[1..]
  }

  /** What `n` buffer slots receive from the mixer's `samples`: each sample
      converted to the format, then the format's silence once the mixer has
      nothing more. */
  function Fill(format: SampleFormat, n: nat, samples: seq<Sample>, fromSample: (SampleFormat, Sample) -> int): (r: seq<int>)
    requires SilenceOf(format).Some?
    ensures |r| == n
    decreases n
  {
    if n == 0 then []
    else [FirstSlot(format, samples, fromSample)] + Fill(format, n - 1, Rest(samples), fromSample)
  }

  /** The mixer samples left after filling `n` slots. */
  function Drop(samples: seq<Sample>, n: nat): seq<Sample>
  {
    if n <= |samples| then samples[n..] else []
  }

  /** Taking one slot and then `n - 1` leaves what taking `n` leaves. */
  lemma DropRest(samples: seq<Sample>, n: nat)
    requires n > 0
    ensures Drop(Rest(samples), n - 1) == Drop(samples, n)
  {
    if samples != [] && n <= |samples| {
      assert samples[1..][n - 1..] == samples[n..];
    }
  }

  /** Slot `i` of a fill holds the `i`-th sample, converted, or silence past
      the end of the samples. */
  lemma {:induction false} FillAt(format: SampleFormat, n: nat, samples: seq<Sample>, fromSample: (SampleFormat, Sample) -> int, i: nat)
    requires SilenceOf(format).Some? && i < n
    ensures Fill(format, n, samples, fromSample)[i] ==
      if i < |samples| then fromSample(format, samples[i]) else SilenceOf(format).value
    decreases n
  {
    var f := Fill(format, n, samples, fromSample);
    assert f == [FirstSlot(format, samples, fromSample)] + Fill(format, n - 1, Rest(samples), fromSample);
    if i > 0 {
      FillAt(format, n - 1, Rest(samples), fromSample, i - 1);
      assert f[i] == Fill(format, n - 1, Rest(samples), fromSample)[i - 1];
      if samples != [] && i < |samples| {
        assert Rest(samples)[i - 1] == samples[i];
      }
    }
  }

  /** Filling one buffer of `n + m` slots gives what filling a buffer of `n`
      and then one of `m` from the remaining samples gives: how the mixer's
      output is cut into device buffers does not change the stream. */
  lemma {:induction false} FillSplit(format: SampleFormat, n: nat, m: nat, samples: seq<Sample>, fromSample: (SampleFormat, Sample) -> int)
    requires SilenceOf(format).Some?
    ensures Fill(format, n + m, samples, fromSample) ==
      Fill(format, n, samples, fromSample) + Fill(format, m, Drop(samples, n), fromSample)
    decreases n
  {
    if n == 0 {
      assert Drop(samples, 0) == samples;
    } else {
      var head, rest := [FirstSlot(format, samples, fromSample)], Rest(samples);
      var front, back := Fill(format, n - 1, rest, fromSample), Fill(format, m, Drop(samples, n), fromSample);
      FillSplit(format, n - 1, m, rest, fromSample);
      DropRest(samples, n);
      assert Fill(format, n + m, samples, fromSample) == head + (front + back);
      AppendAssoc(head, front, back);
    }
  }

  /** The data callback: overwrites every slot of the device buffer, in
      order, and returns the mixer samples it did not take. */
  method FillBuffer(format: SampleFormat, data: array<int>, samples: seq<Sample>, fromSample: (SampleFormat, Sample) -> int)
    returns (rest: seq<Sample>)
    requires SilenceOf(format).Some?
    modifies data
    ensures forall i :: 0 <= i < data.Length ==>
      data[i] == if i < |samples| then fromSample(format, samples[i]) else SilenceOf(format).value
    ensures data[..] == Fill(format, data.Length, samples, fromSample)
    ensures rest == Drop(samples, data.Length)
  {
    var silence := SilenceOf(format).value;
    rest := samples;
    var i := 0;
    while i < data.Length
      invariant 0 <= i <= data.Length
      invariant rest == Drop(samples, i)
      invariant forall k :: 0 <= k < i ==>
        data[k] == if k < |samples| then fromSample(format, samples[k]) else silence
    {
      if rest == [] {
        data[i] := silence;
      } else {
        data[i] := fromSample(format, rest[0]);
        rest := rest[1..];
      }
      i := i + 1;
    }
    forall i | 0 <= i < data.Length
      ensures data[..][i] == Fill(format, data.Length, samples, fromSample)[i]
    {
      FillAt(format, data.Length, samples, fromSample, i);
    }
  }
}
