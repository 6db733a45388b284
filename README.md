# libffmpeg safety layer, modelled in Dafny

This project models the core of `libffmpeg`, a thin safe wrapper over FFmpeg's C
API. The model covers:

- **The rational bridge.** It converts arbitrary-precision rationals to the native 32-bit
  `AVRational` and back. It includes the truncate-by-ten reduction loop and its panic when
  a denominator drops to zero.
- **The error taxonomy.** This is the total translation of a native status code into
  `FFmpegError`. Each `AVERROR_*` value is written out: the 23 that FFmpeg builds with
  FFERRTAG as tag codes, and the other three as FFmpeg's literal values.
- **Path conversion.** A path must be UTF-8 without NUL bytes.
- **The codec descriptor and its three sentinel-terminated iterators.** They list channel
  layouts, sample formats and sample rates.
- **How each wrapper classifies the status its native call returns.** This covers the
  codec context's send/receive drain protocol, the format context's open, read, seek,
  write and close calls, and the frame and scaler checks.
- **The field records of the frame, packet, stream and codec-context handles.** The
  setters and getters carry the wrapper's usize↔i32/i64 conversions, and the packet has
  its two-step teardown.

The native library is an oracle. Each wrapper takes as parameters the status code,
pointer or output values the native call produced. The model then states what the
wrapper does with them.

How the model is built:

- **Modules.** Each core source file is one module: `RationalBridge`, `Errors` and
  `Paths` (all from `src/lib.rs`), `Codecs`, `CodecContexts`, `FormatContexts`,
  `Frames`, `Packets`, `Streams` and `SwsContexts`. Three helper modules support them:
  - `Ints` holds Rust's `as` casts on a 64-bit target, written out as two's-complement
    wrap-around.
  - `Gcds` holds Euclid's algorithm and the facts that normalising a rational needs.
  - `Wrappers` holds `Option` and nullable pointers.
- **Classes and functions.** A handle whose fields the wrapper writes is a class. Its
  setters are methods that modify exactly one field, and its getters are functions. The
  pure classifications are functions.
- **The mode of a container session.** The code does not record whether a
  `FormatContext` was opened for reading or writing. Its doc comments say which calls
  belong to which mode, so the model keeps the mode as a ghost field that the
  mode-specific operations require.
- **Behaviour of the code worth knowing:**
  - `avrational_from_bigrational`'s `InvalidData` branch cannot be reached. A reduction
    step that truncates the denominator to 0 panics inside `BigRational::from` first.
  - Every receive status other than 0, EOF and AVERROR(EAGAIN) is an error, positive
    statuses included.

The setters that narrow a usize into an i32 field state the exact condition
(`SurvivesI32`) under which the getter gives the value back. The condition covers
values below 2^31, and also values within 2^31 of 2^64: those wrap to a negative i32
and widen back to themselves.

## Model

| member | source | states |
|---|---|---|
| Ints.UsizeThroughI32 | src/codec_context.rs:274-296 | a usize stored in an i32 field reads back unchanged iff it is below 2^31 or within 2^31 of 2^64 |
| Ints.I32ThroughUsize | src/sws_context.rs:105-107 | reading an i32 field as usize and casting back to i32 gives the field itself |
| Ints.UsizeThroughI64 | src/codec_context.rs:153-157 | a usize stored in an i64 field always reads back unchanged |
| Ints.UsizeAsI64Sign | src/frame.rs:162-166 | a usize stored in an i64 is non-negative iff it is below 2^63, and is then unchanged |
| Ints.U32ThroughI32 | src/codec_context.rs:195-199 | a u32 stored in an i32 field always reads back unchanged |
| RationalBridge.Normalize | src/lib.rs:69 | `BigRational::from((n, d))` for d ≠ 0: canonical (positive denominator, coprime), the same value (cross-multiplication), no larger in magnitude, the identity on canonical input |
| RationalBridge.TruncDiv10 | src/lib.rs:69 | `BigInt / 10` truncates toward zero: the magnitude is \|x\|/10, strictly smaller for x ≠ 0 |
| RationalBridge.ReductionOf | src/lib.rs:64-73 | a result without a panic fits i32 in numerator and denominator, and is canonical when the input was |
| RationalBridge.ReduceBigRationalToI32 | src/lib.rs:64-73 | the while loop computes exactly ReductionOf(value), including the panic outcome |
| RationalBridge.ReductionKeepsFitting | src/lib.rs:68 | a value that already fits is returned unchanged |
| RationalBridge.ReductionPanicExample | src/lib.rs:69 | 3000000001/3 is canonical and its first step divides the denominator to 0, a panic rather than an error |
| RationalBridge.FittingNumeratorNeverPanics | src/lib.rs:64-73 | a value whose numerator fits in i32 and whose denominator is positive always reduces without a panic |
| RationalBridge.ToI32 | src/lib.rs:40-41 | `to_i32` is Some exactly for values in the i32 range, and then the value itself |
| RationalBridge.AvRationalFromBigRational | src/lib.rs:38-51 | always Ok, with num/den equal to the reduced numerator/denominator; the InvalidData branch is unreachable |
| RationalBridge.BigRationalFromAvRational | src/lib.rs:53-62 | for den ≠ 0 always Ok, canonical, and equal in value to num/den |
| RationalBridge.RoundTrip | src/lib.rs:38-62 | a canonical rational that fits in i32 survives the native round trip unchanged |
| RationalBridge.StoredReadsBackReduced | src/lib.rs:38-62 | storing a canonical rational and reading it back gives its reduced form |
| RationalBridge.NativeRoundTrip | src/lib.rs:38-62 | a native pair with positive, coprime parts survives reading and storing back |
| Errors.TagsAreFfErrTags | src/lib.rs:138-164 | each of the 23 codes FFmpeg builds with FFERRTAG equals FfErrTag of its four tag bytes; the other three (EXPERIMENTAL, INPUT_CHANGED, OUTPUT_CHANGED) are FFmpeg's literal values |
| Errors.FromCode | src/lib.rs:135-168 | total translation; the code is recoverable from the kind, except AVERROR_UNKNOWN, which becomes Unknown(0) |
| Errors.FromCodeOfToCode | src/lib.rs:138-165 | each named code, -ENOENT included, translates to its own kind, so the named codes are pairwise distinct |
| Errors.UnnamedCodeIsUnknown | src/lib.rs:166 | any code no kind names is preserved as Unknown(code) |
| Errors.NonNegativeIsUnknown | src/lib.rs:166 | every non-negative status translates to Unknown(status) |
| Errors.CheckZero | src/codec_context.rs:126-133 | Ok iff the status is 0, otherwise the translated error |
| Errors.CheckNonNegative | src/format_context.rs:123-128 | Ok iff the status is non-negative, otherwise the translated error |
| Errors.ChecksDisagreeOnPositive | src/codec_context.rs:126-151 | the two checks agree on non-positive statuses; on a positive one the first reports Unknown(status) and the second succeeds |
| Paths.FirstCharWidth | src/lib.rs:76 | the width of the leading well-formed UTF-8 sequence (Unicode table 3-7), at most 4 and within the input; ASCII has width 1 |
| Paths.CStringNew | src/lib.rs:78 | `CString::new` fails exactly on an interior NUL byte |
| Paths.CStringFromPath | src/lib.rs:75-85 | InvalidData exactly when the path is not UTF-8 or holds a NUL byte; otherwise the same bytes |
| Paths.AsciiIsUtf8 | src/lib.rs:76 | every ASCII byte string is UTF-8 |
| Paths.AsciiPathConverts | src/lib.rs:75-85 | every NUL-free ASCII path converts to itself |
| Paths.ConversionExamples | src/lib.rs:75-85 | a stray continuation byte, an overlong form, a surrogate and an embedded NUL are refused; a two-byte character is accepted |
| Codecs.SentinelIndex | src/codec.rs:82-83 | the position of the first sentinel: every earlier element differs from it, and it is within the array when the sentinel occurs |
| Codecs.Elements | src/codec.rs:71-135 | what a full pass yields: nothing for a null pointer, otherwise the prefix before the first sentinel, never the sentinel itself |
| Codecs.SentinelIter.constructor | src/codec.rs:71 | a fresh iterator has yielded nothing and will yield exactly Elements |
| Codecs.SentinelIter.Remaining | src/codec.rs:71-135 | what was yielded plus what remains is always Elements |
| Codecs.SentinelIter.Next | src/codec.rs:76-90 | on a null pointer or at the sentinel: None, without moving, so every later call is None too; otherwise the current element, and the cursor moves by exactly one (the same for all three iterators, at src/codec.rs:98-112 and 120-134) |
| Codecs.Exhaust | src/codec.rs:71-135 | calling next until None collects exactly the remaining elements, in order, and leaves nothing remaining |
| Codecs.ChannelLayouts | src/codec.rs:28-32 | an iterator over the channel layouts, stopping at 0 |
| Codecs.SampleFormats | src/codec.rs:40-44 | an iterator over the sample formats, stopping at AV_SAMPLE_FMT_NONE |
| Codecs.SupportedSampleRates | src/codec.rs:46-50 | an iterator over the sample rates, stopping at 0 |
| Codecs.CodecFrom | src/codec.rs:61-69 | null panics (excluded); otherwise the codec wraps exactly that pointer |
| Codecs.CodecFromLookup | src/codec.rs:11-14 | a null lookup result is None; otherwise Some of that codec |
| Codecs.FindEncoder | src/codec.rs:9-16 | Some iff the native lookup is non-null, wrapping that descriptor |
| Codecs.FindEncoderByName | src/codec.rs:18-26 | Some iff the native lookup is non-null; a name with a NUL character panics (excluded) |
| Frames.Frame.Alloc | src/frame.rs:11-18 | a fresh, live frame with all eight line sizes |
| Frames.Frame.BestEffortTimestamp | src/frame.rs:20-24 | the field read as usize: unchanged when non-negative, wrapped by 2^64 when negative |
| Frames.Frame.Channels | src/frame.rs:26-30 | likewise for channels |
| Frames.Frame.Height | src/frame.rs:76-80 | likewise for height |
| Frames.Frame.Width | src/frame.rs:192-196 | likewise for width |
| Frames.Frame.Samples | src/frame.rs:114-118 | likewise for nb_samples |
| Frames.Frame.SampleRate | src/frame.rs:126-130 | likewise for the sample rate |
| Frames.Frame.LineSize | src/frame.rs:82-86 | likewise for linesize[index], for one of the eight planes |
| Frames.Frame.DataLen | src/frame.rs:44-54 | the view length is the larger of the sample count and height × line size (usize product modulo 2^64) |
| Frames.DataLenExact | src/frame.rs:48-49 | with non-negative fields and no overflow, the length is exactly max(nb_samples, height × linesize[index]) |
| Frames.Frame.Duration | src/frame.rs:56-65 | Some iff pkt_duration > 0, and then that value |
| Frames.Frame.Pts | src/frame.rs:103-112 | None iff pts < 0, so pts 0 gives Some(0); otherwise that value |
| Frames.Frame.PixelFormat | src/frame.rs:97-101 | pixel and sample format read the same field |
| Frames.Frame.SampleFormat | src/frame.rs:120-124 | the shared format field, unconverted |
| Frames.Frame.ChannelLayout | src/frame.rs:32-36 | the u64 channel layout, unconverted |
| Frames.Frame.ColorSpace | src/frame.rs:38-42 | the colour space, unconverted |
| Frames.Frame.GetBuffer | src/frame.rs:67-74 | Ok iff the status is 0, otherwise the translated error |
| Frames.Frame.MakeWritable | src/frame.rs:88-95 | Ok iff the status is 0, otherwise the translated error |
| Frames.Frame.SetChannels | src/frame.rs:132-136 | changes only channels; reads back iff SurvivesI32 |
| Frames.Frame.SetChannelLayout | src/frame.rs:138-142 | changes only the layout, stored exactly |
| Frames.Frame.SetColorSpace | src/frame.rs:144-148 | changes only the colour space, stored exactly |
| Frames.Frame.SetHeight | src/frame.rs:150-154 | changes only height; reads back iff SurvivesI32 |
| Frames.Frame.SetWidth | src/frame.rs:186-190 | changes only width; reads back iff SurvivesI32 |
| Frames.Frame.SetSamples | src/frame.rs:180-184 | changes only nb_samples; reads back iff SurvivesI32 |
| Frames.Frame.SetSampleRate | src/frame.rs:174-178 | changes only the sample rate; reads back iff SurvivesI32 |
| Frames.Frame.SetPts | src/frame.rs:162-166 | changes only pts; pts() then gives Some(value) below 2^63 and None above |
| Frames.PtsRoundTrip | src/frame.rs:103-112 | a stored pts reads back as Some exactly when it was below 2^63 |
| Frames.Frame.SetPixelFormat | src/frame.rs:156-160 | writes the shared format field, so both getters then return the value |
| Frames.Frame.SetSampleFormat | src/frame.rs:168-172 | writes the same shared field, overriding an earlier pixel format |
| Frames.Frame.Release | src/frame.rs:217-224 | the frame is freed once |
| Packets.Packet.Alloc | src/packet.rs:8-15 | a fresh packet with no teardown yet |
| Packets.Packet.Dts | src/packet.rs:17-21 | the i64 dts, unconverted |
| Packets.Packet.Duration | src/packet.rs:23-27 | the i64 duration, unconverted |
| Packets.Packet.Pos | src/packet.rs:29-33 | the i64 byte position, unconverted |
| Packets.Packet.Pts | src/packet.rs:35-39 | the i64 pts, unconverted |
| Packets.Packet.StreamIndex | src/packet.rs:71-75 | the i32 field read as usize: unchanged when non-negative, wrapped by 2^64 when negative |
| Packets.Packet.SetDts | src/packet.rs:41-45 | changes only dts; reads back exactly |
| Packets.Packet.SetDuration | src/packet.rs:47-51 | changes only the duration; reads back exactly |
| Packets.Packet.SetPos | src/packet.rs:53-57 | changes only pos; reads back exactly |
| Packets.Packet.SetPts | src/packet.rs:59-63 | changes only pts; reads back exactly |
| Packets.Packet.SetStreamIndex | src/packet.rs:65-69 | changes only the stream index; reads back iff SurvivesI32 |
| Packets.StreamIndexNarrowing | src/packet.rs:65-75 | 2^31 does not survive: it reads back as 2^64 − 2^31 |
| Packets.Packet.Drop | src/packet.rs:96-102 | unreference, then free, each exactly once |
| Streams.Stream.From | src/stream.rs:55-59 | wraps the native stream's fields as they are |
| Streams.Stream.AvgFrameRate | src/stream.rs:9-13 | for den ≠ 0: Ok, canonical, equal in value to the stored pair |
| Streams.Stream.TimeBase | src/stream.rs:48-52 | for den ≠ 0: Ok, canonical, equal in value to the stored pair |
| Streams.Stream.CodecParams | src/stream.rs:15-19 | when the copy inside `CodecParams::from` succeeds (a failed copy panics, excluded): Ok, holding exactly the stream's parameters |
| Streams.Stream.Index | src/stream.rs:30-34 | the i32 index read as usize: unchanged when non-negative, wrapped when negative |
| Streams.Stream.CopyCodecParams | src/stream.rs:21-28 | Ok iff the status is non-negative, with the parameters then stored; error otherwise |
| Streams.Stream.SetCodecTag | src/stream.rs:36-40 | writes the legacy codec's tag and leaves codecpar untouched |
| Streams.Stream.SetTimeBase | src/stream.rs:42-46 | always Ok; stores the reduced pair, which time_base() then returns as the reduced value |
| Streams.TimeBaseRoundTrip | src/stream.rs:42-52 | a time base that fits in i32 reads back as itself |
| CodecContexts.ClassifyReceive | src/codec_context.rs:92-112 | 0 means an output; EOF and AVERROR(EAGAIN) mean none; anything else is the translated error |
| CodecContexts.PositiveReceiveIsError | src/codec_context.rs:97-98 | a positive receive status is an error, Unknown(status) |
| CodecContexts.CodecContext.Alloc | src/codec_context.rs:13-20 | a fresh context bound to the codec, with rationals 0/1 |
| CodecContexts.CodecContext.ReceiveFrame | src/codec_context.rs:92-101 | Some(frame) on 0; otherwise Ok(None) or the error, with the allocated frame freed |
| CodecContexts.CodecContext.ReceivePacket | src/codec_context.rs:103-112 | Some(packet) on 0; otherwise Ok(None) or the error, with the allocated packet torn down |
| CodecContexts.CodecContext.SendFrame | src/codec_context.rs:126-133 | Ok iff the status is 0 |
| CodecContexts.CodecContext.SendNullFrame | src/codec_context.rs:135-142 | Ok iff the status is 0 |
| CodecContexts.CodecContext.SendPacket | src/codec_context.rs:144-151 | Ok iff the status is non-negative; the consumed packet is torn down either way |
| CodecContexts.CodecContext.Open | src/codec_context.rs:61-66 | Ok iff the status is 0, otherwise the translated error |
| CodecContexts.CodecContext.CopyParams | src/codec_context.rs:52-59 | Ok iff the status is non-negative |
| CodecContexts.CodecContext.Codec | src/codec_context.rs:40-44 | the context's codec pointer, wrapped; null panics (excluded) |
| CodecContexts.CodecContext.ChannelLayout | src/codec_context.rs:28-32 | the u64 channel layout, unconverted |
| CodecContexts.CodecContext.ColorSpace | src/codec_context.rs:46-50 | the colour space, unconverted |
| CodecContexts.CodecContext.PixelFormat | src/codec_context.rs:86-90 | the pixel format, unconverted |
| CodecContexts.CodecContext.SampleFormat | src/codec_context.rs:114-118 | the sample format, unconverted |
| CodecContexts.CodecContext.BitRate | src/codec_context.rs:22-26 | the i64 field read as usize: unchanged when non-negative, wrapped when negative |
| CodecContexts.CodecContext.Channels | src/codec_context.rs:34-38 | likewise for channels |
| CodecContexts.CodecContext.Flags | src/codec_context.rs:68-72 | the i32 flags read as u32, keeping every bit |
| CodecContexts.CodecContext.Height | src/codec_context.rs:80-84 | likewise for height |
| CodecContexts.CodecContext.SampleRate | src/codec_context.rs:120-124 | likewise for the sample rate |
| CodecContexts.CodecContext.TicksPerFrame | src/codec_context.rs:280-284 | likewise for ticks per frame |
| CodecContexts.CodecContext.Width | src/codec_context.rs:292-296 | likewise for width |
| CodecContexts.CodecContext.TimeBase | src/codec_context.rs:286-290 | for den ≠ 0: Ok, canonical, equal in value to the stored pair |
| CodecContexts.CodecContext.SetBitRate | src/codec_context.rs:153-157 | changes only the bit rate; always reads back |
| CodecContexts.CodecContext.SetChannelLayout | src/codec_context.rs:159-163 | changes only the layout; reads back exactly |
| CodecContexts.CodecContext.SetChannels | src/codec_context.rs:165-169 | changes only channels; reads back iff SurvivesI32 |
| CodecContexts.CodecContext.SetColorPrimaries | src/codec_context.rs:171-175 | changes only the colour primaries |
| CodecContexts.CodecContext.SetColorRange | src/codec_context.rs:177-181 | changes only the colour range |
| CodecContexts.CodecContext.SetColorSpace | src/codec_context.rs:183-187 | changes only the colour space; reads back exactly |
| CodecContexts.CodecContext.SetColorTrc | src/codec_context.rs:189-193 | changes only the transfer characteristic |
| CodecContexts.CodecContext.SetFlags | src/codec_context.rs:195-199 | changes only the flags; always reads back |
| CodecContexts.CodecContext.SetGopSize | src/codec_context.rs:208-212 | changes only the GOP size, narrowed to i32 |
| CodecContexts.CodecContext.SetHeight | src/codec_context.rs:214-218 | changes only height; reads back iff SurvivesI32 |
| CodecContexts.CodecContext.SetMaxBFrames | src/codec_context.rs:220-224 | changes only max_b_frames, narrowed to i32 |
| CodecContexts.CodecContext.SetPixelFormat | src/codec_context.rs:226-230 | changes only the pixel format; reads back exactly |
| CodecContexts.CodecContext.SetProfile | src/codec_context.rs:232-236 | changes only the profile |
| CodecContexts.CodecContext.SetSampleFormat | src/codec_context.rs:244-248 | changes only the sample format; reads back exactly |
| CodecContexts.CodecContext.SetSampleRate | src/codec_context.rs:250-254 | changes only the sample rate; reads back iff SurvivesI32 |
| CodecContexts.CodecContext.SetStdCompliance | src/codec_context.rs:256-260 | changes only the compliance level |
| CodecContexts.CodecContext.SetTicksPerFrame | src/codec_context.rs:262-266 | changes only ticks per frame; reads back iff SurvivesI32 |
| CodecContexts.CodecContext.SetWidth | src/codec_context.rs:274-278 | changes only width; reads back iff SurvivesI32 |
| CodecContexts.CodecContext.SetFramerate | src/codec_context.rs:201-206 | always Ok; stores the reduced pair; the old value would be kept on a conversion error |
| CodecContexts.CodecContext.SetSampleAspectRatio | src/codec_context.rs:238-242 | always Ok; stores the reduced pair; the old value would be kept on a conversion error |
| CodecContexts.CodecContext.SetTimeBase | src/codec_context.rs:268-272 | always Ok; stores the reduced pair, which time_base() then returns as the reduced value |
| CodecContexts.TimeBaseRoundTrip | src/codec_context.rs:268-290 | a time base that fits in i32 reads back as itself |
| FormatContexts.OpenReadStepsAsWritten | src/format_context.rs:15-34 | the code as written: a failed probe returns an error while the opened context stays allocated |
| FormatContexts.OpenReadSteps | src/format_context.rs:15-34 | path, then open (only 0), then probe (non-negative) in order, each failure with its own error; a context survives iff the result is Ok |
| FormatContexts.OpenReadLeaksOnProbeFailure | src/format_context.rs:30-33 | a concrete input on which the code as written returns an error and leaks the context |
| FormatContexts.OpenReadCorrectionKeepsResult | src/format_context.rs:15-34 | the corrected steps give the same result as the code as written, after the same calls |
| FormatContexts.OpenWriteStepsAsWritten | src/format_context.rs:42-61 | the code as written: a failed avio_open returns an error while the allocated context stays allocated |
| FormatContexts.OpenWriteSteps | src/format_context.rs:42-61 | path, then allocation (negative or null fails), then avio_open (non-negative) in order; a context survives iff the result is Ok |
| FormatContexts.OpenWriteLeaksOnAvioFailure | src/format_context.rs:56-60 | a concrete input on which the code as written returns an error and leaks the context |
| FormatContexts.OpenWriteCorrectionKeepsResult | src/format_context.rs:42-61 | the corrected steps give the same result as the code as written, after the same calls |
| FormatContexts.NullOutputContextIsUnknown | src/format_context.rs:47-49 | a null context with a non-negative status is still an error, Unknown(status) |
| FormatContexts.ClassifyRead | src/format_context.rs:113-120 | EOF means no packet; any other negative status is an error; a non-negative status delivers the packet |
| FormatContexts.ClassifyBestStream | src/format_context.rs:76-85 | a hit iff the index is non-negative and the decoder non-null; Ok(None) iff STREAM_NOT_FOUND; otherwise the translated error |
| FormatContexts.BestStreamWithoutDecoder | src/format_context.rs:80-82 | an index without a decoder is an error, Unknown(index) |
| FormatContexts.FormatContext.constructor | src/format_context.rs:6 | a session in the given mode, open, with the given streams |
| FormatContexts.FormatContext.OpenReadAs | src/format_context.rs:15-34 | Ok iff the corrected read steps succeed, giving a fresh, open, read-mode context with the probed streams; otherwise their error |
| FormatContexts.FormatContext.OpenRead | src/format_context.rs:10-12 | as OpenReadAs, with no forced format |
| FormatContexts.FormatContext.OpenWriteAs | src/format_context.rs:42-61 | Ok iff the corrected write steps succeed, giving a fresh, open, write-mode context with no streams; otherwise their error |
| FormatContexts.FormatContext.OpenWrite | src/format_context.rs:37-39 | as OpenWriteAs, with no forced format |
| FormatContexts.FormatContext.CloseInput | src/format_context.rs:63-66 | read mode only; the session is closed |
| FormatContexts.FormatContext.CloseOutput | src/format_context.rs:68-74 | write mode only; Ok iff the status is 0; the output is closed |
| FormatContexts.FormatContext.Flags | src/format_context.rs:87-91 | the container flags, unconverted |
| FormatContexts.FormatContext.FindBestStream | src/format_context.rs:76-85 | exactly ClassifyBestStream: a hit carries the returned decoder and the index as usize; STREAM_NOT_FOUND is Ok(None); anything else is the translated error |
| FormatContexts.FormatContext.NewStream | src/format_context.rs:93-100 | write mode only; null gives InvalidData with the streams unchanged; otherwise that stream, appended |
| FormatContexts.FormatContext.ReadFrame | src/format_context.rs:111-120 | read mode only; Some(packet) on a non-negative status; otherwise Ok(None) on EOF or the error, with the packet torn down |
| FormatContexts.FormatContext.SeekByte | src/format_context.rs:122-128 | read mode only; Err exactly on a negative status |
| FormatContexts.FormatContext.SeekFrame | src/format_context.rs:130-136 | read mode only; Err exactly on a negative status |
| FormatContexts.FormatContext.Stream | src/format_context.rs:138-144 | for an index below the stream count: always Ok(Some(that stream)) |
| FormatContexts.FormatContext.WriteHeader | src/format_context.rs:146-152 | write mode only; Err exactly on a negative status |
| FormatContexts.FormatContext.WriteInterleaved | src/format_context.rs:154-160 | write mode only; Err exactly on a negative status |
| FormatContexts.FormatContext.WriteTrailer | src/format_context.rs:162-168 | write mode only; Err exactly on a negative status |
| SwsContexts.New | src/sws_context.rs:9-34 | an unsupported source gives DecoderNotFound whatever the destination; then an unsupported destination gives EncoderNotFound; then a null context gives FilterNotFound; otherwise Ok, with the dimensions narrowed to i32 and bicubic scaling |
| SwsContexts.NewPassesSmallDimensions | src/sws_context.rs:21-26 | dimensions below 2^31 reach the native scaler unchanged |
| SwsContexts.IsSrcRangeMpeg | src/sws_context.rs:36-48 | native -1 gives InvalidData; otherwise Ok(source range == 0) |
| SwsContexts.Scale | src/sws_context.rs:99-112 | Ok iff the produced row count equals the destination's height field; InvalidData otherwise |
| SwsContexts.SourceSliceHeight | src/sws_context.rs:102 | the row count handed to the native scaler is the source's height field |

## Left out

- Native behaviour is not modelled. That covers decoding, encoding, demuxing, muxing,
  probing and scaling arithmetic. Each native call is an oracle, given as the status,
  pointer or output values it returned.
- Allocation failures are not modelled. `Frame::alloc`, `Packet::alloc` and
  `CodecContext::alloc` panic when the native returns null; the model's allocators
  always succeed. The field values the native allocators choose are left unconstrained,
  except the codec context's three rationals, which start at 0/1.
- Panics from debug-build integer overflow are not modelled:
  - the usize product in `data_mut` (the model wraps it modulo 2^64, as a release build
    does);
  - AVUNERROR of i32::MIN in the error translation (the model negates without overflow).
- RationalBridge.ReductionOf: states termination, the i32 bounds and canonical form.
  It does not state how closely the reduced value approximates the input.
- `src/input_format.rs`, `src/output_format.rs` and `src/codec_params.rs` are not part of
  this model. They walk the native registry or make single native calls.
- `init`, `str_from_utf8_cstr_unchecked` and `Codec::name` are left out: they only read
  native text or register the native library.
- `CodecContext::flush_buffers` is left out: it has no local logic.
- The `Drop` implementations of `CodecContext`, `FormatContext` and `SwsContext` are left
  out: each makes a single native free call.
- The debug `println!` blocks, the `Deref`/`DerefMut` exposure of the raw structs and the
  commented-out code are left out.
- The lifetime of a `Stream` against its parent and the aliasing of the `data_mut` view
  are memory-safety concerns, not behaviour; they are left out.
- Codecs.SentinelIter.constructor: requires a non-null array to hold its sentinel.
  Reading past an unterminated native array is undefined behaviour.
- Streams.Stream.CopyCodecParams: a failed copy keeps the old parameters. The native
  layer may already have overwritten part of them.
- CodecContexts.CodecContext.CopyParams and CodecContexts.CodecContext.Open: the fields
  the native call writes into the context are not modelled.
- FormatContexts.FormatContext.SeekByte and FormatContexts.FormatContext.SeekFrame: the
  `stream_index as i32` passed to the native call is not stated.
- FormatContexts.OpenReadSteps: the null-context test after the probe is omitted. A
  successful open never leaves the context null.
- SwsContexts.Scale: its effect on the destination pixels is not modelled.
- Errors.FromCode: ENOENT and EAGAIN take their Linux values, 2 and 11. Other platforms
  number them differently (EAGAIN is 35 on macOS), so there `AVERROR(ENOENT)` and the
  receive classification match other codes.
- Paths.CStringFromPath: paths are modelled as byte strings, as on Unix. A platform path
  that is not a byte string is not modelled.

## Findings

| source | as written | input that shows it | evidently intended | confidence | as-written member | corrected member |
|---|---|---|---|---|---|---|
| src/format_context.rs:30-33 | when `avformat_find_stream_info` fails, the error is returned but the context opened by `avformat_open_input` is never closed or freed | path "a", open status 0, probe status AVERROR_INVALIDDATA (FormatContexts.OpenReadLeaksOnProbeFailure) | close the input before returning the probe error | medium, not executed | FormatContexts.OpenReadStepsAsWritten | FormatContexts.OpenReadSteps |
| src/format_context.rs:56-60 | when `avio_open` fails, the error is returned but the context allocated by `avformat_alloc_output_context2` is never freed | path "a", allocation status 0 with a non-null context, avio status AVERROR(ENOENT) (FormatContexts.OpenWriteLeaksOnAvioFailure) | free the output context before returning the avio error | medium, not executed | FormatContexts.OpenWriteStepsAsWritten | FormatContexts.OpenWriteSteps |
