/** The image scaler handle (src/sws_context.rs): the validation chain of `new`, the
    row-count check of `scale`, and `is_src_range_mpeg`. */
module SwsContexts {
  import opened Ints
  import opened Errors
  import opened Wrappers
  import opened Frames

  /** `SWS_BICUBIC`, the scaling algorithm `new` always asks for. */
  const SWS_BICUBIC: int := 4

  /** The arguments `new` hands to `sws_getContext`: the dimensions narrowed to
      i32, the two formats, and the bicubic flag. */
  datatype ScaleRequest = ScaleRequest(
    srcWidth: i32, srcHeight: i32, srcFormat: i32,
    dstWidth: i32, dstHeight: i32, dstFormat: i32,
    flags: int)

  /** The wrapper around a non-null native scaler, with the request that built it. */
  datatype SwsContext = SwsContext(request: ScaleRequest)

  /** `SwsContext::new` (src/sws_context.rs:9-34). `srcSupported` and
      `dstSupported` are the answers of `sws_isSupportedInput` and
      `sws_isSupportedOutput`; `contextNull` says whether `sws_getContext` returned
      null. The source is checked first, then the destination, then the context. */
  function New(srcWidth: usize, srcHeight: usize, srcFormat: i32,
               dstWidth: usize, dstHeight: usize, dstFormat: i32,
               srcSupported: bool, dstSupported: bool, contextNull: bool): (r: Result<SwsContext>)
    ensures !srcSupported ==> r == Err(DecoderNotFound)
    ensures srcSupported && !dstSupported ==> r == Err(EncoderNotFound)
    ensures srcSupported && dstSupported && contextNull ==> r == Err(FilterNotFound)
    ensures r.Ok? <==> srcSupported && dstSupported && !contextNull
    ensures r.Ok? ==> r.value.request == ScaleRequest(
      AsI32(srcWidth), AsI32(srcHeight), srcFormat,
      AsI32(dstWidth), AsI32(dstHeight), dstFormat, SWS_BICUBIC)
  {
    if !srcSupported then Err(DecoderNotFound)
    else if !dstSupported then Err(EncoderNotFound)
    else
      var request := ScaleRequest(
        AsI32(srcWidth), AsI32(srcHeight), srcFormat,
        AsI32(dstWidth), AsI32(dstHeight), dstFormat, SWS_BICUBIC);
      if contextNull then Err(FilterNotFound) else Ok(SwsContext(request))
  }

  /** Dimensions below 2^31 reach the native scaler unchanged. */
  lemma NewPassesSmallDimensions(srcWidth: usize, srcHeight: usize, dstWidth: usize, dstHeight: usize)
    requires srcWidth < TWO_31 && srcHeight < TWO_31 && dstWidth < TWO_31 && dstHeight < TWO_31
    ensures var r := New(srcWidth, srcHeight, 0, dstWidth, dstHeight, 0, true, true, false);
      r.Ok? && r.value.request.srcWidth == srcWidth && r.value.request.srcHeight == srcHeight
      && r.value.request.dstWidth == dstWidth && r.value.request.dstHeight == dstHeight
  {
  }

  /** `is_src_range_mpeg` (src/sws_context.rs:36-48). `status` is what
      `sws_getColorspaceDetails` returned and `srcRange` what it wrote: -1 is
      InvalidData, anything else reports whether the source range is 0 (MPEG). */
  function IsSrcRangeMpeg(context: SwsContext, status: i32, srcRange: i32): (r: Result<bool>)
    ensures r.Err? <==> status == -1
    ensures r.Err? ==> r.error == InvalidData
    ensures r.Ok? ==> (r.value <==> srcRange == 0)
  {
    if status == -1 then Err(InvalidData) else Ok(0 == srcRange)
  }

  /** `scale` (src/sws_context.rs:99-112). `sliceHeight` is what `sws_scale`
      returned; the call succeeds exactly when it equals the destination height, as
      the wrapper compares it with `dst.height() as i32`, which is the i32 field. */
  function Scale(context: SwsContext, src: Frame, dst: Frame, sliceHeight: i32): (r: Result<()>)
    reads dst
    ensures r.Ok? <==> sliceHeight == dst.height
    ensures r.Err? ==> r.error == InvalidData
  {
    I32ThroughUsize(dst.height);
    if sliceHeight == AsI32(dst.Height()) then Ok(()) else Err(InvalidData)
  }

  /** The number of source rows handed to `sws_scale` is `src.height() as i32`: the
      i32 field itself. */
  function SourceSliceHeight(src: Frame): (h: i32)
    reads src
    ensures h == src.height
  {
    I32ThroughUsize(src.height);
    AsI32(src.Height())
  }
}
