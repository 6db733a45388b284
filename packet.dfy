/** The owned compressed-packet handle (src/packet.rs): exact i64 timing fields, the
    stream index narrowed to i32, and the two-step teardown. */
module Packets {
  import opened Ints

  /** The native calls that release a packet. */
  datatype TeardownCall = PacketUnref | PacketFree

  class Packet {
    var dts: i64
    var duration: i64
    var pos: i64
    var pts: i64
    var streamIndex: i32
    /** The teardown calls made on this packet so far, in order. */
    ghost var teardown: seq<TeardownCall>

    /** `Packet::alloc` (src/packet.rs:8-15); a null allocation panics and is not
        modelled. The field values `av_packet_alloc` chooses are the native library's
        and are left unconstrained. */
    constructor Alloc()
      ensures teardown == []
    {
      teardown := [];
    }

    /** Not yet dropped. */
    ghost predicate Live()
      reads this
    {
      teardown == []
    }

    /** `dts()`, `duration()`, `pos()`, `pts()`: the i64 fields, with no conversion. */
    function Dts(): (r: i64) reads this ensures r == dts { dts }
    function Duration(): (r: i64) reads this ensures r == duration { duration }
    function Pos(): (r: i64) reads this ensures r == pos { pos }
    function Pts(): (r: i64) reads this ensures r == pts { pts }

    /** `stream_index()`: the i32 field read as usize. */
    function StreamIndex(): (r: usize)
      reads this
      ensures streamIndex >= 0 ==> r == streamIndex
      ensures streamIndex < 0 ==> r == streamIndex + TWO_64
    {
      AsUsize(streamIndex)
    }

    method SetDts(value: i64)
      modifies this`dts
      ensures Dts() == value
    {
      dts := value;
    }

    method SetDuration(value: i64)
      modifies this`duration
      ensures Duration() == value
    {
      duration := value;
    }

    method SetPos(value: i64)
      modifies this`pos
      ensures Pos() == value
    {
      pos := value;
    }

    method SetPts(value: i64)
      modifies this`pts
      ensures Pts() == value
    {
      pts := value;
    }

    /** `set_stream_index`: `value as i32`, so the getter gives the value back only
        when it lies below 2^31 (or within 2^31 of the top of the usize range). */
    method SetStreamIndex(value: usize)
      modifies this`streamIndex
      ensures streamIndex == AsI32(value)
      ensures StreamIndex() == value <==> SurvivesI32(value)
    {
      streamIndex := AsI32(value);
      UsizeThroughI32(value);
    }

    /** `Drop` (src/packet.rs:96-102): unreference the buffer, then free the packet. */
    method Drop()
      requires Live()
      modifies this`teardown
      ensures teardown == [PacketUnref, PacketFree]
    {
      teardown := teardown + [PacketUnref];
      teardown := teardown + [PacketFree];
    }
  }

  /** A stream index below 2^31 survives the i32 field; 2^31 itself comes back as
      the top of the usize range minus 2^31. */
  lemma StreamIndexNarrowing(p: Packet)
    requires p.streamIndex == AsI32(TWO_31)
    ensures p.StreamIndex() == TWO_64 - TWO_31
  {
  }
}
