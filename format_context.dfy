/** A container session (src/format_context.rs): opening for reading or writing,
    reading packets, picking the best stream, adding streams, seeking, writing and
    closing. Each native call is an oracle: the model takes the status (or pointer)
    it returned and states what the wrapper does with it. */
module FormatContexts {
  import opened Ints
  import opened Errors
  import opened Wrappers
  import opened Paths
  import opened Codecs
  import opened Packets
  import opened Streams
  import opened CodecContexts

  /** The mode a context was opened in. The code does not record it; the doc
      comments demand it, so the model keeps it as ghost state. */
  datatype Mode = Reading | Writing

  /** The native calls an open makes, in order. */
  datatype NativeCall = OpenInput | FindStreamInfo | CloseInput | AllocOutputContext | AvioOpen | FreeContext

  /** What an open attempt amounts to: the result, the native calls it made, and
      whether a native context is still allocated when it returns. */
  datatype Attempt = Attempt(result: Result<()>, calls: seq<NativeCall>, holdsContext: bool)

  /** `open_read_as` as written (src/format_context.rs:15-34). A failed
      `avformat_open_input` frees its own context; a failed probe returns the error
      but leaves the opened context allocated, and nothing frees it. */
  function OpenReadStepsAsWritten(path: seq<u8>, openStatus: i32, probeStatus: i32): (a: Attempt)
    ensures a.result.Err? && probeStatus < 0 && CStringFromPath(path).Ok? && openStatus == 0 ==> a.holdsContext
  {
    if CStringFromPath(path).Err? then Attempt(Err(InvalidData), [], false)
    else if openStatus != 0 then Attempt(Err(FromCode(openStatus)), [OpenInput], false)
    else if 0 > probeStatus then Attempt(Err(FromCode(probeStatus)), [OpenInput, FindStreamInfo], true)
    else Attempt(Ok(()), [OpenInput, FindStreamInfo], true)
  }

  /** `open_read_as` with the failed probe followed by `avformat_close_input`. Its
      stages run in order: path conversion, open (only 0 passes), probe (any
      non-negative status passes); a context survives exactly when the open
      succeeds. */
  function OpenReadSteps(path: seq<u8>, openStatus: i32, probeStatus: i32): (a: Attempt)
    ensures a.result.Ok? <==> IsUtf8(path) && 0 !in path && openStatus == 0 && probeStatus >= 0
    ensures CStringFromPath(path).Err? ==> a.result == Err(InvalidData) && a.calls == []
    ensures CStringFromPath(path).Ok? && openStatus != 0 ==>
      a.result == Err(FromCode(openStatus)) && a.calls == [OpenInput]
    ensures CStringFromPath(path).Ok? && openStatus == 0 && probeStatus < 0 ==>
      a.result == Err(FromCode(probeStatus)) && a.calls == [OpenInput, FindStreamInfo, CloseInput]
    ensures a.result.Ok? ==> a.calls == [OpenInput, FindStreamInfo]
    ensures a.holdsContext <==> a.result.Ok?
  {
    if CStringFromPath(path).Err? then Attempt(Err(InvalidData), [], false)
    else if openStatus != 0 then Attempt(Err(FromCode(openStatus)), [OpenInput], false)
    else if 0 > probeStatus then Attempt(Err(FromCode(probeStatus)), [OpenInput, FindStreamInfo, CloseInput], false)
    else Attempt(Ok(()), [OpenInput, FindStreamInfo], true)
  }

  /** The read-side leak: an ASCII path, a successful open and a failed probe give
      an error while the context stays allocated. */
  lemma OpenReadLeaksOnProbeFailure()
    ensures OpenReadStepsAsWritten([0x61], 0, AVERROR_INVALIDDATA).result == Err(InvalidData)
    ensures OpenReadStepsAsWritten([0x61], 0, AVERROR_INVALIDDATA).holdsContext
  {
    AsciiPathConverts([0x61]);
  }

  /** The corrected open reports the same result as the code as written, after the
      same calls; it only adds the release on the failed-probe path. */
  lemma OpenReadCorrectionKeepsResult(path: seq<u8>, openStatus: i32, probeStatus: i32)
    ensures OpenReadSteps(path, openStatus, probeStatus).result == OpenReadStepsAsWritten(path, openStatus, probeStatus).result
    ensures OpenReadStepsAsWritten(path, openStatus, probeStatus).calls <= OpenReadSteps(path, openStatus, probeStatus).calls
  {
  }

  /** `open_write_as` as written (src/format_context.rs:42-61). A failed or null
      allocation leaves nothing allocated; a failed `avio_open` returns the error
      but leaves the allocated context behind. */
  function OpenWriteStepsAsWritten(path: seq<u8>, allocStatus: i32, allocNull: bool, avioStatus: i32): (a: Attempt)
    ensures a.result.Err? && avioStatus < 0 && CStringFromPath(path).Ok? && allocStatus >= 0 && !allocNull ==> a.holdsContext
  {
    if CStringFromPath(path).Err? then Attempt(Err(InvalidData), [], false)
    else if 0 > allocStatus || allocNull then Attempt(Err(FromCode(allocStatus)), [AllocOutputContext], false)
    else if 0 > avioStatus then Attempt(Err(FromCode(avioStatus)), [AllocOutputContext, AvioOpen], true)
    else Attempt(Ok(()), [AllocOutputContext, AvioOpen], true)
  }

  /** `open_write_as` with the failed `avio_open` followed by
      `avformat_free_context`. Stages in order: path conversion, allocation (a
      negative status or a null context fails), `avio_open` (any non-negative status
      passes); a context survives exactly when the open succeeds. */
  function OpenWriteSteps(path: seq<u8>, allocStatus: i32, allocNull: bool, avioStatus: i32): (a: Attempt)
    ensures a.result.Ok? <==> IsUtf8(path) && 0 !in path && allocStatus >= 0 && !allocNull && avioStatus >= 0
    ensures CStringFromPath(path).Err? ==> a.result == Err(InvalidData) && a.calls == []
    ensures CStringFromPath(path).Ok? && (allocStatus < 0 || allocNull) ==>
      a.result == Err(FromCode(allocStatus)) && a.calls == [AllocOutputContext]
    ensures CStringFromPath(path).Ok? && allocStatus >= 0 && !allocNull && avioStatus < 0 ==>
      a.result == Err(FromCode(avioStatus)) && a.calls == [AllocOutputContext, AvioOpen, FreeContext]
    ensures a.result.Ok? ==> a.calls == [AllocOutputContext, AvioOpen]
    ensures a.holdsContext <==> a.result.Ok?
  {
    if CStringFromPath(path).Err? then Attempt(Err(InvalidData), [], false)
    else if 0 > allocStatus || allocNull then Attempt(Err(FromCode(allocStatus)), [AllocOutputContext], false)
    else if 0 > avioStatus then Attempt(Err(FromCode(avioStatus)), [AllocOutputContext, AvioOpen, FreeContext], false)
    else Attempt(Ok(()), [AllocOutputContext, AvioOpen], true)
  }

  /** The write-side leak: an ASCII path, a successful allocation and a failed
      `avio_open` give an error while the context stays allocated. */
  lemma OpenWriteLeaksOnAvioFailure()
    ensures OpenWriteStepsAsWritten([0x61], 0, false, AvError(ENOENT)).result == Err(NoEntry)
    ensures OpenWriteStepsAsWritten([0x61], 0, false, AvError(ENOENT)).holdsContext
  {
    AsciiPathConverts([0x61]);
  }

  /** The corrected open reports the same result as the code as written, after the
      same calls; it only adds the release on the failed-`avio_open` path. */
  lemma OpenWriteCorrectionKeepsResult(path: seq<u8>, allocStatus: i32, allocNull: bool, avioStatus: i32)
    ensures OpenWriteSteps(path, allocStatus, allocNull, avioStatus).result
         == OpenWriteStepsAsWritten(path, allocStatus, allocNull, avioStatus).result
    ensures OpenWriteStepsAsWritten(path, allocStatus, allocNull, avioStatus).calls
         <= OpenWriteSteps(path, allocStatus, allocNull, avioStatus).calls
  {
  }

  /** A null output context with a non-negative allocation status is still an
      error, reported as Unknown(status). */
  lemma NullOutputContextIsUnknown(path: seq<u8>, allocStatus: i32, avioStatus: i32)
    requires CStringFromPath(path).Ok? && allocStatus >= 0
    ensures OpenWriteSteps(path, allocStatus, true, avioStatus).result == Err(Unknown(allocStatus))
  {
    NonNegativeIsUnknown(allocStatus);
  }

  /** How `read_frame` reads the native status (src/format_context.rs:113-120): end
      of file gives no packet, any other negative status is an error, and every
      non-negative status hands the packet over. */
  function ClassifyRead(status: i32): (r: Result<Delivery>)
    ensures r == Ok(NotDelivered) <==> status == AVERROR_EOF
    ensures r == Ok(Delivered) <==> status >= 0
    ensures r.Err? <==> status < 0 && status != AVERROR_EOF
    ensures r.Err? ==> r.error == FromCode(status)
  {
    if status == AVERROR_EOF then Ok(NotDelivered)
    else if 0 > status then Err(FromCode(status))
    else Ok(Delivered)
  }

  /** How `find_best_stream` reads the native result (src/format_context.rs:76-85): a
      stream index with a decoder is a hit; "stream not found" is no hit; anything
      else is an error. The decoder goes through `Codec::from`. */
  function ClassifyBestStream(index: i32, decoder: Ptr<AVCodec>): (r: Result<Option<(Codec, usize)>>)
    ensures (r.Ok? && r.value.Some?) <==> index >= 0 && decoder.NonNull?
    ensures r.Ok? && r.value.Some? ==> NonNull(r.value.value.0.raw) == decoder && r.value.value.1 == index
    ensures r == Ok(None) <==> index == AVERROR_STREAM_NOT_FOUND
    ensures r.Err? ==> r.error == FromCode(index)
  {
    if -1 < index && decoder.NonNull? then Ok(Some((CodecFrom(decoder), AsUsize(index))))
    else if index == AVERROR_STREAM_NOT_FOUND then Ok(None)
    else Err(FromCode(index))
  }

  /** A stream index without a decoder is not a hit: it is an error carrying the
      index itself as an unknown code. */
  lemma BestStreamWithoutDecoder(index: i32)
    requires index >= 0
    ensures ClassifyBestStream(index, Null) == Err(Unknown(index))
  {
    NonNegativeIsUnknown(index);
  }

  class FormatContext {
    ghost const mode: Mode
    /** The file or output has not been closed yet. */
    ghost var open: bool
    /** The streams of the context, as `stream(index)` offers them. */
    var streams: seq<Stream>
    var flags: i32

    constructor (mode: Mode, streams: seq<Stream>, flags: i32)
      ensures this.mode == mode && open && this.streams == streams && this.flags == flags
    {
      this.mode := mode;
      open := true;
      this.streams := streams;
      this.flags := flags;
    }

    /** `open_read_as` (src/format_context.rs:15-34), using the corrected steps.
        `streams` is what the probe found. */
    static method OpenReadAs(path: seq<u8>, openStatus: i32, probeStatus: i32, streams: seq<Stream>)
      returns (r: Result<FormatContext>)
      ensures r.Ok? <==> OpenReadSteps(path, openStatus, probeStatus).result.Ok?
      ensures r.Err? ==> r.error == OpenReadSteps(path, openStatus, probeStatus).result.error
      ensures r.Ok? ==> fresh(r.value) && r.value.mode == Reading && r.value.open && r.value.streams == streams
    {
      var attempt := OpenReadSteps(path, openStatus, probeStatus);
      if attempt.result.Err? {
        return Err(attempt.result.error);
      }
      var context := new FormatContext(Reading, streams, 0);
      return Ok(context);
    }

    /** `open_read` (src/format_context.rs:10-12): `open_read_as` with no forced
        input format. */
    static method OpenRead(path: seq<u8>, openStatus: i32, probeStatus: i32, streams: seq<Stream>)
      returns (r: Result<FormatContext>)
      ensures r.Ok? <==> OpenReadSteps(path, openStatus, probeStatus).result.Ok?
      ensures r.Err? ==> r.error == OpenReadSteps(path, openStatus, probeStatus).result.error
      ensures r.Ok? ==> fresh(r.value) && r.value.mode == Reading && r.value.open && r.value.streams == streams
    {
      r := OpenReadAs(path, openStatus, probeStatus, streams);
    }

    /** `open_write_as` (src/format_context.rs:42-61), using the corrected steps. A
        new output context has no streams. */
    static method OpenWriteAs(path: seq<u8>, allocStatus: i32, allocNull: bool, avioStatus: i32)
      returns (r: Result<FormatContext>)
      ensures r.Ok? <==> OpenWriteSteps(path, allocStatus, allocNull, avioStatus).result.Ok?
      ensures r.Err? ==> r.error == OpenWriteSteps(path, allocStatus, allocNull, avioStatus).result.error
      ensures r.Ok? ==> fresh(r.value) && r.value.mode == Writing && r.value.open && r.value.streams == []
    {
      var attempt := OpenWriteSteps(path, allocStatus, allocNull, avioStatus);
      if attempt.result.Err? {
        return Err(attempt.result.error);
      }
      var context := new FormatContext(Writing, [], 0);
      return Ok(context);
    }

    /** `open_write` (src/format_context.rs:37-39): `open_write_as` with no forced
        output format. */
    static method OpenWrite(path: seq<u8>, allocStatus: i32, allocNull: bool, avioStatus: i32)
      returns (r: Result<FormatContext>)
      ensures r.Ok? <==> OpenWriteSteps(path, allocStatus, allocNull, avioStatus).result.Ok?
      ensures r.Err? ==> r.error == OpenWriteSteps(path, allocStatus, allocNull, avioStatus).result.error
      ensures r.Ok? ==> fresh(r.value) && r.value.mode == Writing && r.value.open && r.value.streams == []
    {
      r := OpenWriteAs(path, allocStatus, allocNull, avioStatus);
    }

    /** `close_input` (src/format_context.rs:63-66): read mode only. */
    method CloseInput()
      requires mode == Reading && open
      modifies this`open
      ensures !open
    {
      open := false;
    }

    /** `close_output` (src/format_context.rs:68-74): write mode only; only status 0
        from `avio_close` is success, and the output is closed either way. */
    method CloseOutput(status: i32) returns (r: Result<()>)
      requires mode == Writing && open
      modifies this`open
      ensures r.Ok? <==> status == 0
      ensures r.Err? ==> r.error == FromCode(status)
      ensures !open
    {
      r := CheckZero(status);
      open := false;
    }

    /** `find_best_stream` (src/format_context.rs:76-85); `index` and `decoder` are
        what `av_find_best_stream` returned. */
    function FindBestStream(index: i32, decoder: Ptr<AVCodec>): (r: Result<Option<(Codec, usize)>>)
      ensures r == ClassifyBestStream(index, decoder)
      ensures (r.Ok? && r.value.Some?) <==> index >= 0 && decoder.NonNull?
      ensures r.Ok? && r.value.Some? ==> NonNull(r.value.value.0.raw) == decoder && r.value.value.1 == index
      ensures r == Ok(None) <==> index == AVERROR_STREAM_NOT_FOUND
      ensures r.Err? ==> r.error == FromCode(index)
    {
      ClassifyBestStream(index, decoder)
    }

    function Flags(): (r: i32) reads this ensures r == flags { flags }

    /** `new_stream` (src/format_context.rs:93-100): write mode only; `created` is
        what `avformat_new_stream` returned. Null is InvalidData; otherwise the new
        stream is appended to the context's streams. */
    method NewStream(created: Ptr<Stream>) returns (r: Result<Stream>)
      requires mode == Writing && open
      modifies this`streams
      ensures r.Ok? <==> created.NonNull?
      ensures r.Err? ==> r.error == InvalidData && streams == old(streams)
      ensures r.Ok? ==> r.value == created.target && streams == old(streams) + [r.value]
    {
      if created.Null? {
        return Err(InvalidData);
      }
      streams := streams + [created.target];
      return Ok(created.target);
    }

    /** `read_frame` (src/format_context.rs:111-120): read mode only. `packet` is the
        packet the wrapper allocated and the demuxer wrote into; without a packet to
        hand over it is torn down. */
    method ReadFrame(packet: Packet, status: i32) returns (r: Result<Option<Packet>>)
      requires mode == Reading && open && packet.Live()
      modifies packet`teardown
      ensures ClassifyRead(status) == Ok(Delivered) ==> r == Ok(Some(packet)) && packet.Live()
      ensures ClassifyRead(status) == Ok(NotDelivered) ==> r == Ok(None) && packet.teardown == [PacketUnref, PacketFree]
      ensures ClassifyRead(status).Err? ==> r == Err(FromCode(status)) && packet.teardown == [PacketUnref, PacketFree]
    {
      var outcome := ClassifyRead(status);
      match outcome {
        case Ok(Delivered) =>
          r := Ok(Some(packet));
        case Ok(NotDelivered) =>
          packet.Drop();
          r := Ok(None);
        case Err(e) =>
          packet.Drop();
          r := Err(e);
      }
    }

    /** `seek_byte` (src/format_context.rs:122-128): read mode only; fails exactly on
        a negative status from `av_seek_frame`. */
    function SeekByte(streamIndex: usize, byte: i64, status: i32): (r: Result<()>)
      requires mode == Reading
      reads this
      requires open
      ensures r.Ok? <==> status >= 0
      ensures r.Err? ==> r.error == FromCode(status)
    {
      CheckNonNegative(status)
    }

    /** `seek_frame` (src/format_context.rs:130-136): as SeekByte. */
    function SeekFrame(streamIndex: usize, ts: i64, status: i32): (r: Result<()>)
      requires mode == Reading
      reads this
      requires open
      ensures r.Ok? <==> status >= 0
      ensures r.Err? ==> r.error == FromCode(status)
    {
      CheckNonNegative(status)
    }

    /** `stream(index)` (src/format_context.rs:138-144): the index must be below the
        stream count (an assertion); the result is then always Ok(Some(_)). */
    function Stream(index: usize): (r: Result<Option<Stream>>)
      requires index < |streams|
      reads this
      ensures r.Ok? && r.value.Some? && r.value.value == streams[index]
    {
      Ok(Some(streams[index]))
    }

    /** `write_header` (src/format_context.rs:146-152): write mode only; fails
        exactly on a negative status. */
    function WriteHeader(status: i32): (r: Result<()>)
      requires mode == Writing
      reads this
      requires open
      ensures r.Ok? <==> status >= 0
      ensures r.Err? ==> r.error == FromCode(status)
    {
      CheckNonNegative(status)
    }

    /** `write_interleaved` (src/format_context.rs:154-160): as WriteHeader; the
        packet stays with the caller. */
    function WriteInterleaved(packet: Packet, status: i32): (r: Result<()>)
      requires mode == Writing
      reads this
      requires open
      ensures r.Ok? <==> status >= 0
      ensures r.Err? ==> r.error == FromCode(status)
    {
      CheckNonNegative(status)
    }

    /** `write_trailer` (src/format_context.rs:162-168): as WriteHeader. */
    function WriteTrailer(status: i32): (r: Result<()>)
      requires mode == Writing
      reads this
      requires open
      ensures r.Ok? <==> status >= 0
      ensures r.Err? ==> r.error == FromCode(status)
    {
      CheckNonNegative(status)
    }
  }
}
