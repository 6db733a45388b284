/** Codec descriptors and the three sentinel-terminated iterators over their
    capability arrays (src/codec.rs). */
module Codecs {
  import opened Ints
  import opened Wrappers

  /** `AVSampleFormat` is a C enum; its values are plain ints, -1 meaning "none". */
  type SampleFormat = i32
  const AV_SAMPLE_FMT_NONE: SampleFormat := -1

  /** The native codec descriptor, as far as this layer reads it. Each capability
      array is a possibly-null pointer to a sentinel-terminated array. */
  datatype AVCodec = AVCodec(
    name: string,
    channelLayouts: Ptr<seq<u64>>,
    sampleFormats: Ptr<seq<SampleFormat>>,
    supportedSampleRates: Ptr<seq<i32>>)

  /** The wrapper holds a non-null pointer to a descriptor. */
  datatype Codec = Codec(raw: AVCodec)

  /** Position of the first sentinel in a, or |a| when there is none. */
  function SentinelIndex<T(==)>(a: seq<T>, sentinel: T): (k: nat)
    ensures k <= |a|
    ensures forall i :: 0 <= i < k ==> a[i] != sentinel
    ensures k < |a| ==> a[k] == sentinel
    ensures sentinel in a ==> k < |a|
  {
    if |a| == 0 then 0
    else if a[0] == sentinel then 0
    else 1 + SentinelIndex(a[1..], sentinel)
  }

  /** What a full pass of an iterator yields: nothing for a null pointer, otherwise
      the elements before the first sentinel. */
  function Elements<T(==)>(base: Ptr<seq<T>>, sentinel: T): (r: seq<T>)
    ensures base.Null? ==> r == []
    ensures base.NonNull? ==> r <= base.target
    ensures forall i :: 0 <= i < |r| ==> r[i] != sentinel
    ensures Terminated(base, sentinel) && base.NonNull? ==> base.target[|r|] == sentinel
  {
    if base.Null? then [] else base.target[..SentinelIndex(base.target, sentinel)]
  }

  /** A well-formed native array: null, or holding its sentinel. */
  predicate Terminated<T(==)>(base: Ptr<seq<T>>, sentinel: T) {
    base.NonNull? ==> SentinelIndex(base.target, sentinel) < |base.target|
  }

  /** `ChannelLayoutIter`, `SampleFormatIter` and `SupportedSampleRateIter`
      (src/codec.rs:71-135): a cursor into a possibly-null array that stops at the
      sentinel. The three differ only in element type and sentinel. */
  class SentinelIter<T(==)> {
    const base: Ptr<seq<T>>
    const sentinel: T
    /** Offset of the cursor from the start of the array (`self.0`). */
    var cursor: nat
    /** Everything returned so far. */
    ghost var yielded: seq<T>

    ghost predicate Valid()
      reads this
    {
      && Terminated(base, sentinel)
      && (base.Null? ==> cursor == 0)
      && (base.NonNull? ==> cursor <= SentinelIndex(base.target, sentinel))
      && yielded == Elements(base, sentinel)[..cursor]
    }

    /** What later calls of Next will return. */
    function Remaining(): (r: seq<T>)
      requires Valid()
      reads this
      ensures yielded + r == Elements(base, sentinel)
    {
      Elements(base, sentinel)[cursor..]
    }

    constructor (base: Ptr<seq<T>>, sentinel: T)
      requires Terminated(base, sentinel)
      ensures Valid()
      ensures this.base == base && this.sentinel == sentinel
      ensures yielded == [] && Remaining() == Elements(base, sentinel)
    {
      this.base := base;
      this.sentinel := sentinel;
      cursor := 0;
      yielded := [];
    }

    /** `next`: None on a null pointer or at the sentinel, without moving; otherwise
        the current element, moving forward by exactly one. */
    method Next() returns (item: Option<T>)
      requires Valid()
      modifies this`cursor, this`yielded
      ensures Valid()
      ensures old(Remaining()) == [] ==> item == None && cursor == old(cursor) && yielded == old(yielded)
      ensures old(Remaining()) != [] ==>
        && item == Some(old(Remaining())[0])
        && item.value != sentinel
        && cursor == old(cursor) + 1
        && yielded == old(yielded) + [item.value]
        && Remaining() == old(Remaining())[1..]
    {
      if base.Null? {
        return None;
      }
      var current := base.target[cursor];
      if current == sentinel {
        return None;
      }
      ghost var elems := Elements(base, sentinel);
      assert elems[..cursor + 1] == elems[..cursor] + [current];
      cursor := cursor + 1;
      yielded := yielded + [current];
      return Some(current);
    }
  }

  /** How callers consume an iterator (a `for` loop): call `next` until the first
      None. What it collects is exactly what was still to come, so a fresh iterator
      yields the prefix before the first sentinel. */
  method Exhaust<T(==)>(it: SentinelIter<T>) returns (items: seq<T>)
    requires it.Valid()
    modifies it`cursor, it`yielded
    ensures it.Valid() && it.Remaining() == []
    ensures items == old(it.Remaining())
    ensures it.yielded == Elements(it.base, it.sentinel)
  {
    ghost var start := it.Remaining();
    items := [];
    var done := false;
    while !done
      invariant it.Valid()
      invariant items + it.Remaining() == start
      invariant done ==> it.Remaining() == []
      decreases !done, |it.Remaining()|
    {
      var item := it.Next();
      if item.None? {
        done := true;
      } else {
        items := items + [item.value];
      }
    }
    assert items == start;
  }

  /** `codec.channel_layouts()` (src/codec.rs:28-32): stops at layout 0. */
  method ChannelLayouts(codec: Codec) returns (it: SentinelIter<u64>)
    requires Terminated(codec.raw.channelLayouts, 0)
    ensures fresh(it) && it.Valid()
    ensures it.Remaining() == Elements(codec.raw.channelLayouts, 0)
  {
    it := new SentinelIter(codec.raw.channelLayouts, 0);
  }

  /** `codec.sample_formats()` (src/codec.rs:40-44): stops at AV_SAMPLE_FMT_NONE. */
  method SampleFormats(codec: Codec) returns (it: SentinelIter<SampleFormat>)
    requires Terminated(codec.raw.sampleFormats, AV_SAMPLE_FMT_NONE)
    ensures fresh(it) && it.Valid()
    ensures it.Remaining() == Elements(codec.raw.sampleFormats, AV_SAMPLE_FMT_NONE)
  {
    it := new SentinelIter(codec.raw.sampleFormats, AV_SAMPLE_FMT_NONE);
  }

  /** `codec.supported_sample_rates()` (src/codec.rs:46-50): stops at rate 0. */
  method SupportedSampleRates(codec: Codec) returns (it: SentinelIter<i32>)
    requires Terminated(codec.raw.supportedSampleRates, 0)
    ensures fresh(it) && it.Valid()
    ensures it.Remaining() == Elements(codec.raw.supportedSampleRates, 0)
  {
    it := new SentinelIter(codec.raw.supportedSampleRates, 0);
  }

  /** `Codec::from` (src/codec.rs:61-69): a null pointer panics, so callers must not
      pass one; a non-null pointer is wrapped as it is. */
  function CodecFrom(ptr: Ptr<AVCodec>): (c: Codec)
    requires ptr.NonNull?
    ensures NonNull(c.raw) == ptr
  {
    Codec(ptr.target)
  }

  /** Maps the native lookup's pointer to an optional codec: null becomes None. */
  function CodecFromLookup(found: Ptr<AVCodec>): (r: Option<Codec>)
    ensures r.Some? <==> found.NonNull?
    ensures r.Some? ==> NonNull(r.value.raw) == found
  {
    match found
    case Null => None
    case NonNull(codec) => Some(Codec(codec))
  }

  /** `find_encoder` (src/codec.rs:9-16); `found` is what `avcodec_find_encoder`
      returned for the codec id. */
  function FindEncoder(found: Ptr<AVCodec>): (r: Option<Codec>)
    ensures r.Some? <==> found.NonNull?
    ensures r.Some? ==> NonNull(r.value.raw) == found
  {
    CodecFromLookup(found)
  }

  /** `find_encoder_by_name` (src/codec.rs:18-26): the name must hold no NUL
      character, as `CString::new(name).unwrap()` panics on one; `found` is what
      `avcodec_find_encoder_by_name` returned for it. */
  function FindEncoderByName(name: string, found: Ptr<AVCodec>): (r: Option<Codec>)
    requires '\0' !in name
    ensures r.Some? <==> found.NonNull?
    ensures r.Some? ==> NonNull(r.value.raw) == found
  {
    CodecFromLookup(found)
  }
}
