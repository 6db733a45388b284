/** The owned decoded-frame handle (src/frame.rs): field accessors with the
    usize/i32/i64 conversions of the wrapper, the derived `data` length, `pts` and
    `duration`, and the two buffer calls. */
module Frames {
  import opened Ints
  import opened Errors
  import opened Wrappers

  /** Number of planes of an AVFrame (`data` and `linesize` are arrays of this size). */
  const AV_NUM_DATA_POINTERS: nat := 8

  function Max(a: int, b: int): int {
    if a < b then b else a
  }

  /** The fields of the native AVFrame this layer reads or writes. */
  class Frame {
    var bestEffortTimestamp: i64
    var channels: i32
    var channelLayout: u64
    var colorSpace: i32
    /** Pixel format for video, sample format for audio: one field for both. */
    var format: i32
    var height: i32
    var width: i32
    var lineSize: seq<i32>
    var nbSamples: i32
    var pktDuration: i64
    var pts: i64
    var sampleRate: i32
    /** Set once `Drop` has freed the native frame. */
    ghost var released: bool

    ghost predicate Valid()
      reads this
    {
      |lineSize| == AV_NUM_DATA_POINTERS
    }

    /** `Frame::alloc` (src/frame.rs:11-18); a null allocation panics and is not
        modelled. The field values `av_frame_alloc` chooses are the native library's
        and are left unconstrained. */
    constructor Alloc()
      ensures Valid() && !released
    {
      lineSize := seq(AV_NUM_DATA_POINTERS, _ => 0);
      released := false;
    }

    /** `best_effort_timestamp()`: a negative value wraps to the top of the usize range. */
    function BestEffortTimestamp(): (r: usize)
      reads this
      ensures bestEffortTimestamp >= 0 ==> r == bestEffortTimestamp
      ensures bestEffortTimestamp < 0 ==> r == bestEffortTimestamp + TWO_64
    {
      AsUsize(bestEffortTimestamp)
    }

    /** `channels()`. */
    function Channels(): (r: usize)
      reads this
      ensures channels >= 0 ==> r == channels
      ensures channels < 0 ==> r == channels + TWO_64
    {
      AsUsize(channels)
    }

    /** `channel_layout()`. */
    function ChannelLayout(): (r: u64)
      reads this
      ensures r == channelLayout
    {
      channelLayout
    }

    /** `color_space()`. */
    function ColorSpace(): (r: i32)
      reads this
      ensures r == colorSpace
    {
      colorSpace
    }

    /** `height()`. */
    function Height(): (r: usize)
      reads this
      ensures height >= 0 ==> r == height
      ensures height < 0 ==> r == height + TWO_64
    {
      AsUsize(height)
    }

    /** `width()`. */
    function Width(): (r: usize)
      reads this
      ensures width >= 0 ==> r == width
      ensures width < 0 ==> r == width + TWO_64
    {
      AsUsize(width)
    }

    /** `samples()`. */
    function Samples(): (r: usize)
      reads this
      ensures nbSamples >= 0 ==> r == nbSamples
      ensures nbSamples < 0 ==> r == nbSamples + TWO_64
    {
      AsUsize(nbSamples)
    }

    /** `sample_rate()`, read through `av_frame_get_sample_rate`. */
    function SampleRate(): (r: usize)
      reads this
      ensures sampleRate >= 0 ==> r == sampleRate
      ensures sampleRate < 0 ==> r == sampleRate + TWO_64
    {
      AsUsize(sampleRate)
    }

    /** `line_size(index)`: the index must name one of the planes (the array index
        panics otherwise). */
    function LineSize(index: usize): (r: usize)
      requires Valid() && index < AV_NUM_DATA_POINTERS
      reads this
      ensures lineSize[index] >= 0 ==> r == lineSize[index]
      ensures lineSize[index] < 0 ==> r == lineSize[index] + TWO_64
    {
      AsUsize(lineSize[index])
    }

    /** Length of the `data(index)` / `data_mut(index)` view
        (src/frame.rs:44-54): the larger of the sample count and height times line
        size. The product is a usize product, which wraps modulo 2^64 in a release
        build. */
    function DataLen(index: usize): (len: usize)
      requires Valid() && index < AV_NUM_DATA_POINTERS
      reads this
      ensures len >= Samples() && len >= (Height() * LineSize(index)) % TWO_64
      ensures len == Samples() || len == (Height() * LineSize(index)) % TWO_64
    {
      Max(Samples(), (Height() * LineSize(index)) % TWO_64)
    }

    /** `duration()`: present exactly when pkt_duration is positive. */
    function Duration(): (r: Option<usize>)
      reads this
      ensures r.Some? <==> pktDuration > 0
      ensures r.Some? ==> r.value == pktDuration
    {
      if 0 < pktDuration then Some(AsUsize(pktDuration)) else None
    }

    /** `pts()`: absent exactly when pts is negative, so 0 gives Some(0). */
    function Pts(): (r: Option<usize>)
      reads this
      ensures r.None? <==> pts < 0
      ensures r.Some? ==> r.value == pts
    {
      if 0 > pts then None else Some(AsUsize(pts))
    }

    /** `pixel_format()`: the shared format field. */
    function PixelFormat(): (r: i32)
      reads this
      ensures r == SampleFormat()
    {
      format
    }

    /** `sample_format()`: the same shared format field. */
    function SampleFormat(): (r: i32)
      reads this
      ensures r == format
    {
      format
    }

    /** `get_buffer()` (src/frame.rs:67-74); `status` is what `av_frame_get_buffer`
        returned. Only 0 is success. */
    function GetBuffer(status: i32): (r: Result<()>)
      ensures r.Ok? <==> status == 0
      ensures r.Err? ==> r.error == FromCode(status)
    {
      CheckZero(status)
    }

    /** `make_writable()` (src/frame.rs:88-95); `status` is what
        `av_frame_make_writable` returned. Only 0 is success. */
    function MakeWritable(status: i32): (r: Result<()>)
      ensures r.Ok? <==> status == 0
      ensures r.Err? ==> r.error == FromCode(status)
    {
      CheckZero(status)
    }

    method SetChannels(value: usize)
      modifies this`channels
      ensures channels == AsI32(value)
      ensures Channels() == value <==> SurvivesI32(value)
    {
      channels := AsI32(value);
      UsizeThroughI32(value);
    }

    method SetChannelLayout(value: u64)
      modifies this`channelLayout
      ensures ChannelLayout() == value
    {
      channelLayout := value;
    }

    method SetColorSpace(value: i32)
      modifies this`colorSpace
      ensures ColorSpace() == value
    {
      colorSpace := value;
    }

    method SetHeight(value: usize)
      modifies this`height
      ensures height == AsI32(value)
      ensures Height() == value <==> SurvivesI32(value)
    {
      height := AsI32(value);
      UsizeThroughI32(value);
    }

    method SetWidth(value: usize)
      modifies this`width
      ensures width == AsI32(value)
      ensures Width() == value <==> SurvivesI32(value)
    {
      width := AsI32(value);
      UsizeThroughI32(value);
    }

    method SetSamples(value: usize)
      modifies this`nbSamples
      ensures nbSamples == AsI32(value)
      ensures Samples() == value <==> SurvivesI32(value)
    {
      nbSamples := AsI32(value);
      UsizeThroughI32(value);
    }

    /** `set_sample_rate`, written through `av_frame_set_sample_rate`. */
    method SetSampleRate(value: usize)
      modifies this`sampleRate
      ensures sampleRate == AsI32(value)
      ensures SampleRate() == value <==> SurvivesI32(value)
    {
      sampleRate := AsI32(value);
      UsizeThroughI32(value);
    }

    /** `set_pts`: reads back as Some(value) below 2^63 and as None above, where
        the i64 turns negative. */
    method SetPts(value: usize)
      modifies this`pts
      ensures pts == AsI64(value)
      ensures Pts() == if value < TWO_63 then Some(value) else None
    {
      pts := AsI64(value);
      UsizeAsI64Sign(value);
    }

    /** `set_pixel_format`: writes the shared format field, so the sample format
        reads the same value. */
    method SetPixelFormat(value: i32)
      modifies this`format
      ensures format == value
      ensures PixelFormat() == value && SampleFormat() == value
    {
      format := value;
    }

    /** `set_sample_format`: writes the same shared format field. */
    method SetSampleFormat(value: i32)
      modifies this`format
      ensures format == value
      ensures PixelFormat() == value && SampleFormat() == value
    {
      format := value;
    }

    /** `Drop` (src/frame.rs:217-224): `av_frame_free`, once. */
    method Release()
      requires !released
      modifies this`released
      ensures released
    {
      released := true;
    }
  }

  /** When the fields are non-negative and the product does not overflow, the view's
      length is exactly max(nb_samples, height * linesize[index]). */
  lemma DataLenExact(f: Frame, index: usize)
    requires f.Valid() && index < AV_NUM_DATA_POINTERS
    requires f.nbSamples >= 0 && f.height >= 0 && f.lineSize[index] >= 0
    requires f.height * f.lineSize[index] < TWO_64
    ensures f.DataLen(index) == Max(f.nbSamples, f.height * f.lineSize[index])
  {
  }

  /** A stored pts comes back as Some exactly when it was below 2^63. */
  lemma PtsRoundTrip(f: Frame, v: usize)
    requires f.pts == AsI64(v)
    ensures f.Pts().Some? <==> v < TWO_63
    ensures v < TWO_63 ==> f.Pts() == Some(v)
  {
    UsizeAsI64Sign(v);
  }
}
