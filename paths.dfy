/** Converting a host path into the null-terminated text the native layer expects
    (src/lib.rs:75-85). A path is a byte string; it must be UTF-8 (as
    `OsStr::to_str` demands) and must hold no NUL byte (as `CString::new` demands). */
module Paths {
  import opened Ints
  import opened Errors

  predicate IsContinuation(b: u8) {
    0x80 <= b <= 0xBF
  }

  /** Length of the well-formed UTF-8 sequence that starts s, or 0 if s does not start
      with one (table 3-7 of the Unicode Standard, chapter 3: no overlong forms, no
      surrogates, nothing above U+10FFFF). */
  function FirstCharWidth(s: seq<u8>): (w: nat)
    ensures w <= |s| && w <= 4
    ensures |s| > 0 && s[0] < 0x80 ==> w == 1
    ensures w == 1 ==> s[0] < 0x80
  {
    if |s| == 0 then 0
    else
      var b0 := s[0];
      if b0 <= 0x7F then 1
      else if 0xC2 <= b0 <= 0xDF then
        if |s| >= 2 && IsContinuation(s[1]) then 2 else 0
      else if b0 == 0xE0 then
        if |s| >= 3 && 0xA0 <= s[1] <= 0xBF && IsContinuation(s[2]) then 3 else 0
      else if 0xE1 <= b0 <= 0xEC || 0xEE <= b0 <= 0xEF then
        if |s| >= 3 && IsContinuation(s[1]) && IsContinuation(s[2]) then 3 else 0
      else if b0 == 0xED then
        if |s| >= 3 && 0x80 <= s[1] <= 0x9F && IsContinuation(s[2]) then 3 else 0
      else if b0 == 0xF0 then
        if |s| >= 4 && 0x90 <= s[1] <= 0xBF && IsContinuation(s[2]) && IsContinuation(s[3]) then 4 else 0
      else if 0xF1 <= b0 <= 0xF3 then
        if |s| >= 4 && IsContinuation(s[1]) && IsContinuation(s[2]) && IsContinuation(s[3]) then 4 else 0
      else if b0 == 0xF4 then
        if |s| >= 4 && 0x80 <= s[1] <= 0x8F && IsContinuation(s[2]) && IsContinuation(s[3]) then 4 else 0
      else 0
  }

  /** s is a concatenation of well-formed UTF-8 sequences. */
  predicate IsUtf8(s: seq<u8>)
    decreases |s|
  {
    s == [] || (FirstCharWidth(s) > 0 && IsUtf8(s[FirstCharWidth(s)..]))
  }

  /** `CString::new`: fails on an interior NUL byte, otherwise keeps the bytes. */
  function CStringNew(bytes: seq<u8>): (r: Result<seq<u8>>)
    ensures r.Ok? <==> 0 !in bytes
  {
    if 0 in bytes then Err(InvalidData) else Ok(bytes)
  }

  /** `cstring_from_path`: InvalidData exactly when the path is not UTF-8 or holds a
      NUL byte; otherwise the same bytes. */
  function CStringFromPath(path: seq<u8>): (r: Result<seq<u8>>)
    ensures r.Ok? <==> IsUtf8(path) && 0 !in path
    ensures r.Ok? ==> r.value == path
    ensures r.Err? ==> r.error == InvalidData
  {
    if IsUtf8(path) then
      var cstr := CStringNew(path);
      if cstr.Ok? then Ok(cstr.value) else Err(InvalidData)
    else Err(InvalidData)
  }

  /** Plain ASCII text is UTF-8. */
  lemma {:induction false} AsciiIsUtf8(s: seq<u8>)
    requires forall i :: 0 <= i < |s| ==> s[i] < 0x80
    ensures IsUtf8(s)
    decreases |s|
  {
    if s != [] {
      assert FirstCharWidth(s) == 1;
      AsciiIsUtf8(s[1..]);
    }
  }

  /** Every ASCII path without a NUL byte converts to itself. */
  lemma AsciiPathConverts(path: seq<u8>)
    requires forall i :: 0 <= i < |path| ==> 0 < path[i] < 0x80
    ensures CStringFromPath(path) == Ok(path)
  {
    AsciiIsUtf8(path);
  }

  /** Paths the conversion refuses: a stray continuation byte, an overlong encoding
      of '/', an encoded surrogate half, and an embedded NUL. The two-byte "é" is
      accepted. */
  lemma ConversionExamples()
    ensures CStringFromPath([0x61, 0x80]) == Err(InvalidData)
    ensures CStringFromPath([0xC0, 0xAF]) == Err(InvalidData)
    ensures CStringFromPath([0xED, 0xA0, 0x80]) == Err(InvalidData)
    ensures CStringFromPath([0x61, 0x00, 0x62]) == Err(InvalidData)
    ensures CStringFromPath([0xC3, 0xA9]) == Ok([0xC3, 0xA9])
  {
    assert [0x61, 0x80][1..] == [0x80];
    assert !IsUtf8([0x80]);
    assert [0x61, 0x00, 0x62][1] == 0;
    assert [0xC3, 0xA9][2..] == [];
  }
}
