/**
 * JavaScript strings are sequences of UTF-16 code units. `length` counts
 * units and `slice` cuts between units. A character outside the Basic
 * Multilingual Plane, such as an emoji, takes two units (a surrogate pair),
 * so a slice can cut it in half and leave a lone surrogate behind.
 */
module JsString {
  import opened ScanTypes

  /** One UTF-16 code unit. */
  type CodeUnit = u: int | 0 <= u < 0x1_0000

  predicate IsHighSurrogate(u: int) { 0xD800 <= u < 0xDC00 }

  predicate IsLowSurrogate(u: int) { 0xDC00 <= u < 0xE000 }

  /** A character that needs a surrogate pair. */
  predicate IsAstral(c: char) { c as int >= 0x1_0000 }

  /** The number of characters in `s` that need a surrogate pair. */
  function AstralCount(s: string): nat
  {
    if s == [] then 0 else (if IsAstral(s[0]) then 1 else 0) + AstralCount(s[1..])
  }

  /** The code units of one character: the character itself, or a high then a low surrogate. */
  function EncodeChar(c: char): (u: seq<CodeUnit>)
    ensures |u| == if IsAstral(c) then 2 else 1
    ensures IsAstral(c) ==> IsHighSurrogate(u[0]) && IsLowSurrogate(u[1])
  {
    if !IsAstral(c) then [c as int]
    else
      var v := c as int - 0x1_0000;
      [0xD800 + v / 0x400, 0xDC00 + v % 0x400]
  }

  /** A string as JavaScript stores it: one unit per character, two per astral one. */
  function Utf16(s: string): (u: seq<CodeUnit>)
    ensures |u| == |s| + AstralCount(s)
  {
    if s == [] then [] else EncodeChar(s[0]) + Utf16(s[1..])
  }

  /** The character a high and a low surrogate stand for together. */
  function PairValue(high: int, low: int): int
  {
    0x1_0000 + (high - 0xD800) * 0x400 + (low - 0xDC00)
  }

  /**
   * Reads code units back as characters. A surrogate that is not part of a
   * high-then-low pair is not a character, so such input gives None.
   */
  function Decode(u: seq<CodeUnit>): (r: Option<string>)
    decreases |u|
  {
    if u == [] then Some([])
    else if |u| >= 2 && IsHighSurrogate(u[0]) && IsLowSurrogate(u[1]) then
      var c := PairValue(u[0], u[1]);
      match Decode(u[2..])
      case None => None
      case Some(rest) => Some([c as char] + rest)
    else if IsHighSurrogate(u[0]) || IsLowSurrogate(u[0]) then None
    else
      match Decode(u[1..])
      case None => None
      case Some(rest) => Some([u[0] as char] + rest)
  }

  /** The surrogate pair of an astral character decodes back to that character. */
  lemma PairDecodes(c: char)
    requires IsAstral(c)
    ensures PairValue(EncodeChar(c)[0], EncodeChar(c)[1]) == c as int
  {
    var v := c as int - 0x1_0000;
    assert (v / 0x400) * 0x400 + v % 0x400 == v;
  }

  /** Decoding the code units of any string gives that string back. */
  lemma {:induction false} DecodeUtf16(s: string)
    ensures Decode(Utf16(s)) == Some(s)
  {
    if s != [] {
      var head, tail := EncodeChar(s[0]), Utf16(s[1..]);
      var u := head + tail;
      assert Utf16(s) == u;
      DecodeUtf16(s[1..]);
      if IsAstral(s[0]) {
        PairDecodes(s[0]);
        assert u[2..] == tail;
        assert Decode(u) == Some([s[0]] + s[1..]);
      } else {
        assert u[1..] == tail;
        assert Decode(u) == Some([s[0]] + s[1..]);
      }
      assert [s[0]] + s[1..] == s;
    }
  }

  /** A string without astral characters has exactly one code unit per character. */
  lemma {:induction false} BmpLength(s: string)
    requires forall i :: 0 <= i < |s| ==> !IsAstral(s[i])
    ensures |Utf16(s)| == |s|
  {
    if s != [] {
      BmpLength(s[1..]);
    }
  }
}
