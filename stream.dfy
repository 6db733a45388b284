/** A stream of a format context (src/stream.rs): its rational fields pass through
    the rational bridge, and the codec tag lives in the legacy codec struct, apart
    from the codec parameters. */
module Streams {
  import opened Ints
  import opened Errors
  import opened RationalBridge

  /** The stream's codec parameter block; this layer never looks inside it. */
  datatype CodecParameters = CodecParameters(contents: seq<int>)

  class Stream {
    var timeBase: AVRational
    var avgFrameRate: AVRational
    var index: i32
    /** `codec_tag` of the legacy `codec` struct the stream points to. */
    var codecTag: u32
    var codecpar: CodecParameters

    /** `Stream::from(ptr)` (src/stream.rs:55-59): wraps the native stream as it is. */
    constructor From(timeBase: AVRational, avgFrameRate: AVRational, index: i32, codecTag: u32, codecpar: CodecParameters)
      ensures this.timeBase == timeBase && this.avgFrameRate == avgFrameRate && this.index == index
      ensures this.codecTag == codecTag && this.codecpar == codecpar
    {
      this.timeBase := timeBase;
      this.avgFrameRate := avgFrameRate;
      this.index := index;
      this.codecTag := codecTag;
      this.codecpar := codecpar;
    }

    /** `avg_frame_rate()` (src/stream.rs:9-13): the stored pair as a canonical
        rational; a zero denominator panics in `BigRational::new`. */
    function AvgFrameRate(): (r: Result<Rational>)
      requires avgFrameRate.den != 0
      reads this
      ensures r.Ok? && IsNormalized(r.value)
      ensures r.value.num * avgFrameRate.den == avgFrameRate.num * r.value.den
    {
      BigRationalFromAvRational(avgFrameRate)
    }

    /** `time_base()` (src/stream.rs:48-52), like AvgFrameRate. */
    function TimeBase(): (r: Result<Rational>)
      requires timeBase.den != 0
      reads this
      ensures r.Ok? && IsNormalized(r.value)
      ensures r.value.num * timeBase.den == timeBase.num * r.value.den
    {
      BigRationalFromAvRational(timeBase)
    }

    /** `codec_params()` (src/stream.rs:15-19): a copy of the stream's parameters.
        `copyStatus` is what `avcodec_parameters_copy` returned inside
        `CodecParams::from`, which panics on a negative status (excluded here). */
    function CodecParams(copyStatus: i32): (r: Result<CodecParameters>)
      requires copyStatus >= 0
      reads this
      ensures r.Ok? && r.value == codecpar
    {
      Ok(codecpar)
    }

    /** `index()`. */
    function Index(): (r: usize)
      reads this
      ensures index >= 0 ==> r == index
      ensures index < 0 ==> r == index + TWO_64
    {
      AsUsize(index)
    }

    /** `copy_codec_params` (src/stream.rs:21-28); `status` is what
        `avcodec_parameters_copy` returned. Any non-negative status is success. */
    method CopyCodecParams(params: CodecParameters, status: i32) returns (r: Result<()>)
      modifies this`codecpar
      ensures r.Ok? <==> status >= 0
      ensures r.Err? ==> r.error == FromCode(status)
      ensures r.Ok? ==> codecpar == params
      ensures r.Err? ==> codecpar == old(codecpar)
    {
      r := CheckNonNegative(status);
      if r.Ok? {
        codecpar := params;
      }
    }

    /** `set_codec_tag` (src/stream.rs:36-40): touches the legacy codec struct only,
        never codecpar. */
    method SetCodecTag(value: u32)
      modifies this`codecTag
      ensures codecTag == value
      ensures codecpar == old(codecpar)
    {
      codecTag := value;
    }

    /** `set_time_base` (src/stream.rs:42-46): stores the reduced form of the value.
        The conversion cannot fail; if it did, its only error (InvalidData) would be
        returned and the field kept, as the conversion runs before the store. A
        value whose reduction panics is excluded. */
    method SetTimeBase(value: BigRational) returns (r: Result<()>)
      requires ReductionOf(value).Reduced?
      modifies this`timeBase
      ensures r.Ok?
      ensures timeBase.num == ReductionOf(value).value.num
      ensures timeBase.den == ReductionOf(value).value.den
      ensures timeBase.den != 0 && TimeBase() == Ok(ReductionOf(value).value)
      ensures r.Err? ==> timeBase == old(timeBase)
    {
      var converted := AvRationalFromBigRational(value);
      if converted.Err? {
        return Err(InvalidData);
      }
      timeBase := converted.value;
      StoredReadsBackReduced(value);
      return Ok(());
    }
  }

  /** A time base that already fits in i32 reads back unchanged after set_time_base. */
  lemma TimeBaseRoundTrip(s: Stream, value: BigRational)
    requires FitsBoth(value)
    requires s.timeBase == AvRationalFromBigRational(value).value
    ensures s.timeBase.den != 0 && s.TimeBase() == Ok(value)
  {
    RoundTrip(value);
  }
}
