/** The owned encoder/decoder context (src/codec_context.rs): the send/receive
    protocol's status handling, the open/copy checks, and the field setters and
    getters with their integer conversions and rational reductions. */
module CodecContexts {
  import opened Ints
  import opened Errors
  import opened Wrappers
  import opened RationalBridge
  import opened Codecs
  import opened Frames
  import opened Packets

  /** Whether a receive call handed over an output (Some) or not (None). */
  datatype Delivery = Delivered | NotDelivered

  /** How `receive_frame` and `receive_packet` read the native status
      (src/codec_context.rs:92-112): 0 hands over the output; end of stream and
      "try again" give no output; anything else, a positive status included, is an
      error. */
  function ClassifyReceive(status: i32): (r: Result<Delivery>)
    ensures r == Ok(Delivered) <==> status == 0
    ensures r == Ok(NotDelivered) <==> status == AVERROR_EOF || status == AvError(EAGAIN)
    ensures r.Err? ==> r.error == FromCode(status)
  {
    if status == 0 then Ok(Delivered)
    else if status == AVERROR_EOF || status == AvError(EAGAIN) then Ok(NotDelivered)
    else Err(FromCode(status))
  }

  /** A positive receive status is not success: it is reported as Unknown(status). */
  lemma PositiveReceiveIsError(status: i32)
    requires status > 0
    ensures ClassifyReceive(status) == Err(Unknown(status))
  {
    NonNegativeIsUnknown(status);
  }

  class CodecContext {
    var bitRate: i64
    var channelLayout: u64
    var channels: i32
    var codec: Ptr<AVCodec>
    var colorPrimaries: i32
    var colorRange: i32
    var colorSpace: i32
    var colorTrc: i32
    var flags: i32
    var framerate: AVRational
    var gopSize: i32
    var height: i32
    var maxBFrames: i32
    var pixFmt: i32
    var profile: i32
    var sampleAspectRatio: AVRational
    var sampleFmt: i32
    var sampleRate: i32
    var strictStdCompliance: i32
    var ticksPerFrame: i32
    var timeBase: AVRational
    var width: i32

    /** `CodecContext::alloc` (src/codec_context.rs:13-20); a null allocation panics
        and is not modelled. The context refers to the given codec and its three
        rationals start at 0/1; the other fields are left unconstrained. */
    constructor Alloc(c: Codec)
      ensures codec == NonNull(c.raw)
      ensures timeBase == AVRational(0, 1) && framerate == AVRational(0, 1)
      ensures sampleAspectRatio == AVRational(0, 1)
    {
      codec := NonNull(c.raw);
      framerate, sampleAspectRatio, timeBase := AVRational(0, 1), AVRational(0, 1), AVRational(0, 1);
    }

    /** `receive_frame` (src/codec_context.rs:92-101). `frame` is the frame the
        wrapper allocated and the native decoder wrote into; `status` is what
        `avcodec_receive_frame` returned. Without an output the frame is dropped. */
    method ReceiveFrame(frame: Frame, status: i32) returns (r: Result<Option<Frame>>)
      requires !frame.released
      modifies frame`released
      ensures ClassifyReceive(status) == Ok(Delivered) ==> r == Ok(Some(frame)) && !frame.released
      ensures ClassifyReceive(status) == Ok(NotDelivered) ==> r == Ok(None) && frame.released
      ensures ClassifyReceive(status).Err? ==> r == Err(FromCode(status)) && frame.released
    {
      var outcome := ClassifyReceive(status);
      match outcome {
        case Ok(Delivered) =>
          r := Ok(Some(frame));
        case Ok(NotDelivered) =>
          frame.Release();
          r := Ok(None);
        case Err(e) =>
          frame.Release();
          r := Err(e);
      }
    }

    /** `receive_packet` (src/codec_context.rs:103-112), like ReceiveFrame: the
        allocated packet is handed over on 0 and torn down otherwise. */
    method ReceivePacket(packet: Packet, status: i32) returns (r: Result<Option<Packet>>)
      requires packet.Live()
      modifies packet`teardown
      ensures ClassifyReceive(status) == Ok(Delivered) ==> r == Ok(Some(packet)) && packet.Live()
      ensures ClassifyReceive(status) == Ok(NotDelivered) ==> r == Ok(None) && packet.teardown == [PacketUnref, PacketFree]
      ensures ClassifyReceive(status).Err? ==> r == Err(FromCode(status)) && packet.teardown == [PacketUnref, PacketFree]
    {
      var outcome := ClassifyReceive(status);
      match outcome {
        case Ok(Delivered) =>
          r := Ok(Some(packet));
        case Ok(NotDelivered) =>
          packet.Drop();
          r := Ok(None);
        case Err(e) =>
          packet.Drop();
          r := Err(e);
      }
    }

    /** `send_frame` (src/codec_context.rs:126-133): only status 0 is success. */
    function SendFrame(frame: Frame, status: i32): (r: Result<()>)
      ensures r.Ok? <==> status == 0
      ensures r.Err? ==> r.error == FromCode(status)
    {
      CheckZero(status)
    }

    /** `send_null_frame` (src/codec_context.rs:135-142), the flush request: only
        status 0 is success. */
    function SendNullFrame(status: i32): (r: Result<()>)
      ensures r.Ok? <==> status == 0
      ensures r.Err? ==> r.error == FromCode(status)
    {
      CheckZero(status)
    }

    /** `send_packet` (src/codec_context.rs:144-151): any non-negative status is
        success. The packet is taken by value, so it is torn down either way. */
    method SendPacket(packet: Packet, status: i32) returns (r: Result<()>)
      requires packet.Live()
      modifies packet`teardown
      ensures r.Ok? <==> status >= 0
      ensures r.Err? ==> r.error == FromCode(status)
      ensures packet.teardown == [PacketUnref, PacketFree]
    {
      r := CheckNonNegative(status);
      packet.Drop();
    }

    /** `open` (src/codec_context.rs:61-66): only status 0 from `avcodec_open2` is
        success. */
    function Open(c: Codec, status: i32): (r: Result<()>)
      ensures r.Ok? <==> status == 0
      ensures r.Err? ==> r.error == FromCode(status)
    {
      CheckZero(status)
    }

    /** `copy_params` (src/codec_context.rs:52-59): any non-negative status from
        `avcodec_parameters_to_context` is success. */
    function CopyParams(status: i32): (r: Result<()>)
      ensures r.Ok? <==> status >= 0
      ensures r.Err? ==> r.error == FromCode(status)
    {
      CheckNonNegative(status)
    }

    /** `codec()` (src/codec_context.rs:40-44): goes through `Codec::from`, which
        panics on a null codec pointer. */
    function Codec(): (c: Codec)
      requires codec.NonNull?
      reads this
      ensures NonNull(c.raw) == codec
    {
      CodecFrom(codec)
    }

    /** `bit_rate()`: the i64 field read as usize. */
    function BitRate(): (r: usize)
      reads this
      ensures bitRate >= 0 ==> r == bitRate
      ensures bitRate < 0 ==> r == bitRate + TWO_64
    {
      AsUsize(bitRate)
    }

    /** `channel_layout()`, `color_space()`, `pixel_format()`, `sample_format()`: the
        fields, with no conversion. */
    function ChannelLayout(): (r: u64) reads this ensures r == channelLayout { channelLayout }
    function ColorSpace(): (r: i32) reads this ensures r == colorSpace { colorSpace }
    function PixelFormat(): (r: i32) reads this ensures r == pixFmt { pixFmt }
    function SampleFormat(): (r: i32) reads this ensures r == sampleFmt { sampleFmt }

    function Channels(): (r: usize)
      reads this
      ensures channels >= 0 ==> r == channels
      ensures channels < 0 ==> r == channels + TWO_64
    {
      AsUsize(channels)
    }

    /** `flags()`: the i32 field read as u32, keeping every bit. */
    function Flags(): (r: u32)
      reads this
      ensures flags >= 0 ==> r == flags
      ensures flags < 0 ==> r == flags + TWO_32
    {
      AsU32(flags)
    }

    function Height(): (r: usize)
      reads this
      ensures height >= 0 ==> r == height
      ensures height < 0 ==> r == height + TWO_64
    {
      AsUsize(height)
    }

    function SampleRate(): (r: usize)
      reads this
      ensures sampleRate >= 0 ==> r == sampleRate
      ensures sampleRate < 0 ==> r == sampleRate + TWO_64
    {
      AsUsize(sampleRate)
    }

    function TicksPerFrame(): (r: usize)
      reads this
      ensures ticksPerFrame >= 0 ==> r == ticksPerFrame
      ensures ticksPerFrame < 0 ==> r == ticksPerFrame + TWO_64
    {
      AsUsize(ticksPerFrame)
    }

    function Width(): (r: usize)
      reads this
      ensures width >= 0 ==> r == width
      ensures width < 0 ==> r == width + TWO_64
    {
      AsUsize(width)
    }

    /** `time_base()` (src/codec_context.rs:286-290): the stored pair as a canonical
        rational; a zero denominator panics in `BigRational::new`. */
    function TimeBase(): (r: Result<Rational>)
      requires timeBase.den != 0
      reads this
      ensures r.Ok? && IsNormalized(r.value)
      ensures r.value.num * timeBase.den == timeBase.num * r.value.den
    {
      BigRationalFromAvRational(timeBase)
    }

    /** `set_bit_rate`: `value as i64`, which `bit_rate()` always undoes. */
    method SetBitRate(value: usize)
      modifies this`bitRate
      ensures bitRate == AsI64(value)
      ensures BitRate() == value
    {
      bitRate := AsI64(value);
      UsizeThroughI64(value);
    }

    method SetChannelLayout(value: u64)
      modifies this`channelLayout
      ensures ChannelLayout() == value
    {
      channelLayout := value;
    }

    method SetChannels(value: usize)
      modifies this`channels
      ensures channels == AsI32(value)
      ensures Channels() == value <==> SurvivesI32(value)
    {
      channels := AsI32(value);
      UsizeThroughI32(value);
    }

    method SetColorPrimaries(value: i32)
      modifies this`colorPrimaries
      ensures colorPrimaries == value
    {
      colorPrimaries := value;
    }

    method SetColorRange(value: i32)
      modifies this`colorRange
      ensures colorRange == value
    {
      colorRange := value;
    }

    method SetColorSpace(value: i32)
      modifies this`colorSpace
      ensures ColorSpace() == value
    {
      colorSpace := value;
    }

    method SetColorTrc(value: i32)
      modifies this`colorTrc
      ensures colorTrc == value
    {
      colorTrc := value;
    }

    /** `set_flags`: `value as i32`, which `flags()` always undoes. */
    method SetFlags(value: u32)
      modifies this`flags
      ensures flags == AsI32(value)
      ensures Flags() == value
    {
      flags := AsI32(value);
      U32ThroughI32(value);
    }

    method SetGopSize(value: usize)
      modifies this`gopSize
      ensures gopSize == AsI32(value)
    {
      gopSize := AsI32(value);
    }

    method SetHeight(value: usize)
      modifies this`height
      ensures height == AsI32(value)
      ensures Height() == value <==> SurvivesI32(value)
    {
      height := AsI32(value);
      UsizeThroughI32(value);
    }

    method SetMaxBFrames(value: usize)
      modifies this`maxBFrames
      ensures maxBFrames == AsI32(value)
    {
      maxBFrames := AsI32(value);
    }

    method SetPixelFormat(value: i32)
      modifies this`pixFmt
      ensures PixelFormat() == value
    {
      pixFmt := value;
    }

    method SetProfile(value: i32)
      modifies this`profile
      ensures profile == value
    {
      profile := value;
    }

    method SetSampleFormat(value: i32)
      modifies this`sampleFmt
      ensures SampleFormat() == value
    {
      sampleFmt := value;
    }

    method SetSampleRate(value: usize)
      modifies this`sampleRate
      ensures sampleRate == AsI32(value)
      ensures SampleRate() == value <==> SurvivesI32(value)
    {
      sampleRate := AsI32(value);
      UsizeThroughI32(value);
    }

    method SetStdCompliance(value: i32)
      modifies this`strictStdCompliance
      ensures strictStdCompliance == value
    {
      strictStdCompliance := value;
    }

    method SetTicksPerFrame(value: usize)
      modifies this`ticksPerFrame
      ensures ticksPerFrame == AsI32(value)
      ensures TicksPerFrame() == value <==> SurvivesI32(value)
    {
      ticksPerFrame := AsI32(value);
      UsizeThroughI32(value);
    }

    method SetWidth(value: usize)
      modifies this`width
      ensures width == AsI32(value)
      ensures Width() == value <==> SurvivesI32(value)
    {
      width := AsI32(value);
      UsizeThroughI32(value);
    }

    /** `set_framerate` (src/codec_context.rs:201-206): stores the reduced value;
        on a conversion error (which cannot occur) the field would be kept. A value
        whose reduction panics is excluded. */
    method SetFramerate(value: BigRational) returns (r: Result<()>)
      requires ReductionOf(value).Reduced?
      modifies this`framerate
      ensures r.Ok?
      ensures framerate.num == ReductionOf(value).value.num
      ensures framerate.den == ReductionOf(value).value.den
      ensures r.Err? ==> framerate == old(framerate)
    {
      var converted := AvRationalFromBigRational(value);
      if converted.Err? {
        return Err(InvalidData);
      }
      framerate := converted.value;
      return Ok(());
    }

    /** `set_sample_aspect_ratio` (src/codec_context.rs:238-242), like SetFramerate. */
    method SetSampleAspectRatio(value: BigRational) returns (r: Result<()>)
      requires ReductionOf(value).Reduced?
      modifies this`sampleAspectRatio
      ensures r.Ok?
      ensures sampleAspectRatio.num == ReductionOf(value).value.num
      ensures sampleAspectRatio.den == ReductionOf(value).value.den
      ensures r.Err? ==> sampleAspectRatio == old(sampleAspectRatio)
    {
      var converted := AvRationalFromBigRational(value);
      if converted.Err? {
        return Err(InvalidData);
      }
      sampleAspectRatio := converted.value;
      return Ok(());
    }

    /** `set_time_base` (src/codec_context.rs:268-272), like SetFramerate; reading
        the time base back gives the reduced value. */
    method SetTimeBase(value: BigRational) returns (r: Result<()>)
      requires ReductionOf(value).Reduced?
      modifies this`timeBase
      ensures r.Ok?
      ensures timeBase.num == ReductionOf(value).value.num
      ensures timeBase.den == ReductionOf(value).value.den
      ensures timeBase.den != 0 && TimeBase() == Ok(ReductionOf(value).value)
      ensures r.Err? ==> timeBase == old(timeBase)
    {
      var converted := AvRationalFromBigRational(value);
      if converted.Err? {
        return Err(InvalidData);
      }
      timeBase := converted.value;
      StoredReadsBackReduced(value);
      return Ok(());
    }
  }

  /** A stored time base that already fits in i32 reads back as the value itself. */
  lemma TimeBaseRoundTrip(c: CodecContext, value: BigRational)
    requires FitsBoth(value)
    requires c.timeBase == AvRationalFromBigRational(value).value
    ensures c.timeBase.den != 0 && c.TimeBase() == Ok(value)
  {
    RoundTrip(value);
  }
}
