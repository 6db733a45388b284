/** The native layer's signed status codes and the closed error taxonomy they are
    translated into (src/lib.rs, `FFmpegError` and `From<i32> for FFmpegError`). */
module Errors {
  import opened Ints

  /** Host error numbers of the C library (Linux values). */
  const ENOENT: int := 2
  const EAGAIN: int := 11

  /** MKTAG: four bytes packed little-endian into one integer. */
  function MkTag(a: char, b: char, c: char, d: char): int {
    a as int + b as int * 0x100 + c as int * 0x1_0000 + d as int * 0x100_0000
  }

  /** FFERRTAG: the negated tag, the shape of every FFmpeg-specific error code. */
  function FfErrTag(a: char, b: char, c: char, d: char): int {
    -MkTag(a, b, c, d)
  }

  /** AVERROR and AVUNERROR: a POSIX error number and its negated status code. */
  function AvError(e: int): int { -e }
  function AvUnError(e: int): int { -e }

  const AVERROR_BSF_NOT_FOUND: i32      := -0x465342f8  // FFERRTAG(0xF8, 'B', 'S', 'F')
  const AVERROR_BUG: i32                := -0x21475542  // FFERRTAG('B', 'U', 'G', '!')
  const AVERROR_BUFFER_TOO_SMALL: i32   := -0x53465542  // FFERRTAG('B', 'U', 'F', 'S')
  const AVERROR_DECODER_NOT_FOUND: i32  := -0x434544f8  // FFERRTAG(0xF8, 'D', 'E', 'C')
  const AVERROR_DEMUXER_NOT_FOUND: i32  := -0x4d4544f8  // FFERRTAG(0xF8, 'D', 'E', 'M')
  const AVERROR_ENCODER_NOT_FOUND: i32  := -0x434e45f8  // FFERRTAG(0xF8, 'E', 'N', 'C')
  const AVERROR_EOF: i32                := -0x20464f45  // FFERRTAG('E', 'O', 'F', ' ')
  const AVERROR_EXIT: i32               := -0x54495845  // FFERRTAG('E', 'X', 'I', 'T')
  const AVERROR_EXTERNAL: i32           := -0x20545845  // FFERRTAG('E', 'X', 'T', ' ')
  const AVERROR_FILTER_NOT_FOUND: i32   := -0x4c4946f8  // FFERRTAG(0xF8, 'F', 'I', 'L')
  const AVERROR_INVALIDDATA: i32        := -0x41444e49  // FFERRTAG('I', 'N', 'D', 'A')
  const AVERROR_MUXER_NOT_FOUND: i32    := -0x58554df8  // FFERRTAG(0xF8, 'M', 'U', 'X')
  const AVERROR_OPTION_NOT_FOUND: i32   := -0x54504ff8  // FFERRTAG(0xF8, 'O', 'P', 'T')
  const AVERROR_PATCHWELCOME: i32       := -0x45574150  // FFERRTAG('P', 'A', 'W', 'E')
  const AVERROR_PROTOCOL_NOT_FOUND: i32 := -0x4f5250f8  // FFERRTAG(0xF8, 'P', 'R', 'O')
  const AVERROR_STREAM_NOT_FOUND: i32   := -0x525453f8  // FFERRTAG(0xF8, 'S', 'T', 'R')
  const AVERROR_BUG2: i32               := -0x20475542  // FFERRTAG('B', 'U', 'G', ' ')
  const AVERROR_UNKNOWN: i32            := -0x4e4b4e55  // FFERRTAG('U', 'N', 'K', 'N')
  const AVERROR_EXPERIMENTAL: i32       := -0x2bb2afa8
  const AVERROR_INPUT_CHANGED: i32      := -0x636e6701
  const AVERROR_OUTPUT_CHANGED: i32     := -0x636e6702
  const AVERROR_HTTP_BAD_REQUEST: i32   := -0x303034f8  // FFERRTAG(0xF8, '4', '0', '0')
  const AVERROR_HTTP_UNAUTHORIZED: i32  := -0x313034f8  // FFERRTAG(0xF8, '4', '0', '1')
  const AVERROR_HTTP_FORBIDDEN: i32     := -0x333034f8  // FFERRTAG(0xF8, '4', '0', '3')
  const AVERROR_HTTP_NOT_FOUND: i32     := -0x343034f8  // FFERRTAG(0xF8, '4', '0', '4')
  const AVERROR_HTTP_OTHER_4XX: i32     := -0x585834f8  // FFERRTAG(0xF8, '4', 'X', 'X')
  const AVERROR_HTTP_SERVER_ERROR: i32  := -0x585835f8  // FFERRTAG(0xF8, '5', 'X', 'X')

  /** The literal codes above are the FFERRTAG values they are named after. */
  lemma TagsAreFfErrTags()
    ensures AVERROR_BSF_NOT_FOUND == FfErrTag(0xF8 as char, 'B', 'S', 'F')
    ensures AVERROR_BUG == FfErrTag('B', 'U', 'G', '!')
    ensures AVERROR_BUFFER_TOO_SMALL == FfErrTag('B', 'U', 'F', 'S')
    ensures AVERROR_DECODER_NOT_FOUND == FfErrTag(0xF8 as char, 'D', 'E', 'C')
    ensures AVERROR_DEMUXER_NOT_FOUND == FfErrTag(0xF8 as char, 'D', 'E', 'M')
    ensures AVERROR_ENCODER_NOT_FOUND == FfErrTag(0xF8 as char, 'E', 'N', 'C')
    ensures AVERROR_EOF == FfErrTag('E', 'O', 'F', ' ')
    ensures AVERROR_EXIT == FfErrTag('E', 'X', 'I', 'T')
    ensures AVERROR_EXTERNAL == FfErrTag('E', 'X', 'T', ' ')
    ensures AVERROR_FILTER_NOT_FOUND == FfErrTag(0xF8 as char, 'F', 'I', 'L')
    ensures AVERROR_INVALIDDATA == FfErrTag('I', 'N', 'D', 'A')
    ensures AVERROR_MUXER_NOT_FOUND == FfErrTag(0xF8 as char, 'M', 'U', 'X')
    ensures AVERROR_OPTION_NOT_FOUND == FfErrTag(0xF8 as char, 'O', 'P', 'T')
    ensures AVERROR_PATCHWELCOME == FfErrTag('P', 'A', 'W', 'E')
    ensures AVERROR_PROTOCOL_NOT_FOUND == FfErrTag(0xF8 as char, 'P', 'R', 'O')
    ensures AVERROR_STREAM_NOT_FOUND == FfErrTag(0xF8 as char, 'S', 'T', 'R')
    ensures AVERROR_BUG2 == FfErrTag('B', 'U', 'G', ' ')
    ensures AVERROR_UNKNOWN == FfErrTag('U', 'N', 'K', 'N')
    ensures AVERROR_HTTP_BAD_REQUEST == FfErrTag(0xF8 as char, '4', '0', '0')
    ensures AVERROR_HTTP_UNAUTHORIZED == FfErrTag(0xF8 as char, '4', '0', '1')
    ensures AVERROR_HTTP_FORBIDDEN == FfErrTag(0xF8 as char, '4', '0', '3')
    ensures AVERROR_HTTP_NOT_FOUND == FfErrTag(0xF8 as char, '4', '0', '4')
    ensures AVERROR_HTTP_OTHER_4XX == FfErrTag(0xF8 as char, '4', 'X', 'X')
    ensures AVERROR_HTTP_SERVER_ERROR == FfErrTag(0xF8 as char, '5', 'X', 'X')
  {
  }

  datatype FFmpegError =
    | BitStreamFilterNotFound
    | BufferTooSmall
    | Bug
    | Bug2
    | DecoderNotFound
    | DemuxerNotFound
    | EncoderNotFound
    | EOF
    | Exit
    | Experimental
    | External
    | FilterNotFound
    | HttpBadRequest
    | HttpForbidden
    | HttpNotFound
    | HttpOther4xx
    | HttpServerError
    | HttpUnauthorized
    | InputChanged
    | InvalidData
    | MuxerNotFound
    | OptionNotFound
    | OutputChanged
    | PatchWelcome
    | ProtocolNotFound
    | StreamNotFound
    | NoEntry          // the host's "no such file or directory"
    | Unknown(code: i32)

  datatype Result<+T> = Ok(value: T) | Err(error: FFmpegError)

  /** The status code each kind stands for; Unknown carries its own. This is the
      reference against which the translation below is checked. */
  function ToCode(e: FFmpegError): i32 {
    match e
    case BitStreamFilterNotFound => AVERROR_BSF_NOT_FOUND
    case BufferTooSmall => AVERROR_BUFFER_TOO_SMALL
    case Bug => AVERROR_BUG
    case Bug2 => AVERROR_BUG2
    case DecoderNotFound => AVERROR_DECODER_NOT_FOUND
    case DemuxerNotFound => AVERROR_DEMUXER_NOT_FOUND
    case EncoderNotFound => AVERROR_ENCODER_NOT_FOUND
    case EOF => AVERROR_EOF
    case Exit => AVERROR_EXIT
    case Experimental => AVERROR_EXPERIMENTAL
    case External => AVERROR_EXTERNAL
    case FilterNotFound => AVERROR_FILTER_NOT_FOUND
    case HttpBadRequest => AVERROR_HTTP_BAD_REQUEST
    case HttpForbidden => AVERROR_HTTP_FORBIDDEN
    case HttpNotFound => AVERROR_HTTP_NOT_FOUND
    case HttpOther4xx => AVERROR_HTTP_OTHER_4XX
    case HttpServerError => AVERROR_HTTP_SERVER_ERROR
    case HttpUnauthorized => AVERROR_HTTP_UNAUTHORIZED
    case InputChanged => AVERROR_INPUT_CHANGED
    case InvalidData => AVERROR_INVALIDDATA
    case MuxerNotFound => AVERROR_MUXER_NOT_FOUND
    case OptionNotFound => AVERROR_OPTION_NOT_FOUND
    case OutputChanged => AVERROR_OUTPUT_CHANGED
    case PatchWelcome => AVERROR_PATCHWELCOME
    case ProtocolNotFound => AVERROR_PROTOCOL_NOT_FOUND
    case StreamNotFound => AVERROR_STREAM_NOT_FOUND
    case NoEntry => AvError(ENOENT)
    case Unknown(c) => c
  }

  /** The translation of a native status into a kind. Total: every code gives exactly
      one kind, and the code can be read back from the kind except for
      AVERROR_UNKNOWN, which becomes Unknown(0). */
  function FromCode(err: i32): (e: FFmpegError)
    ensures ToCode(e) == if err == AVERROR_UNKNOWN then 0 else err
  {
    if err == AVERROR_BSF_NOT_FOUND then BitStreamFilterNotFound
    else if err == AVERROR_BUG then Bug
    else if err == AVERROR_BUG2 then Bug2
    else if err == AVERROR_BUFFER_TOO_SMALL then BufferTooSmall
    else if err == AVERROR_DECODER_NOT_FOUND then DecoderNotFound
    else if err == AVERROR_DEMUXER_NOT_FOUND then DemuxerNotFound
    else if err == AVERROR_ENCODER_NOT_FOUND then EncoderNotFound
    else if err == AVERROR_EOF then EOF
    else if err == AVERROR_EXIT then Exit
    else if err == AVERROR_EXPERIMENTAL then Experimental
    else if err == AVERROR_EXTERNAL then External
    else if err == AVERROR_FILTER_NOT_FOUND then FilterNotFound
    else if err == AVERROR_HTTP_BAD_REQUEST then HttpBadRequest
    else if err == AVERROR_HTTP_FORBIDDEN then HttpForbidden
    else if err == AVERROR_HTTP_NOT_FOUND then HttpNotFound
    else if err == AVERROR_HTTP_OTHER_4XX then HttpOther4xx
    else if err == AVERROR_HTTP_SERVER_ERROR then HttpServerError
    else if err == AVERROR_HTTP_UNAUTHORIZED then HttpUnauthorized
    else if err == AVERROR_INPUT_CHANGED then InputChanged
    else if err == AVERROR_INVALIDDATA then InvalidData
    else if err == AVERROR_MUXER_NOT_FOUND then MuxerNotFound
    else if err == AVERROR_OPTION_NOT_FOUND then OptionNotFound
    else if err == AVERROR_OUTPUT_CHANGED then OutputChanged
    else if err == AVERROR_PATCHWELCOME then PatchWelcome
    else if err == AVERROR_PROTOCOL_NOT_FOUND then ProtocolNotFound
    else if err == AVERROR_STREAM_NOT_FOUND then StreamNotFound
    else if err == AVERROR_UNKNOWN then Unknown(0)
    else if ENOENT == AvUnError(err) then NoEntry
    else Unknown(err)
  }

  /** Every named kind is what its own code translates to; hence the codes are
      pairwise distinct. */
  lemma FromCodeOfToCode(e: FFmpegError)
    requires !e.Unknown?
    ensures FromCode(ToCode(e)) == e
  {
  }

  /** A code that no named kind stands for, AVERROR_UNKNOWN aside, is kept as
      Unknown(code). */
  lemma UnnamedCodeIsUnknown(err: i32)
    requires err != AVERROR_UNKNOWN
    requires forall e: FFmpegError :: !e.Unknown? ==> ToCode(e) != err
    ensures FromCode(err) == Unknown(err)
  {
    var e := FromCode(err);
    assert ToCode(e) == err;
  }

  /** Every named code is negative, so a non-negative status is always Unknown(status). */
  lemma NonNegativeIsUnknown(err: i32)
    requires err >= 0
    ensures FromCode(err) == Unknown(err)
  {
  }

  /** The status check of wrappers that accept only exactly 0. */
  function CheckZero(status: i32): (r: Result<()>)
    ensures r.Ok? <==> status == 0
    ensures r.Err? ==> r.error == FromCode(status)
  {
    if status == 0 then Ok(()) else Err(FromCode(status))
  }

  /** The status check of wrappers that accept any non-negative status. */
  function CheckNonNegative(status: i32): (r: Result<()>)
    ensures r.Ok? <==> status >= 0
    ensures r.Err? ==> r.error == FromCode(status)
  {
    if 0 > status then Err(FromCode(status)) else Ok(())
  }

  /** The two checks agree except on positive statuses, which the first reports as
      Unknown(status) and the second accepts. */
  lemma ChecksDisagreeOnPositive(status: i32)
    ensures status <= 0 ==> CheckZero(status) == CheckNonNegative(status)
    ensures status > 0 ==> CheckZero(status) == Err(Unknown(status)) && CheckNonNegative(status) == Ok(())
  {
    if status > 0 {
      NonNegativeIsUnknown(status);
    }
  }
}
