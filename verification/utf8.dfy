/**
 * The text path's decoding: `utf8_to_codepoint`, the codepoint-to-atlas-slot
 * mapping of the font atlas (Basic Latin from 32, then the Cyrillic block
 * U+0400..U+04FF), and the text walk shared by DrawText and GetTextSize.
 */
module Utf8 {
  import opened Wrappers

  /** An unsigned char. Bit masks on a byte are written as range tests and remainders. */
  type Byte = b: int | 0 <= b < 256

  /** Bytes the decoder consumes for a lead byte; anything unrecognised consumes one. */
  function SequenceLength(lead: Byte): (n: nat)
    ensures 1 <= n <= 4
    ensures lead < 0x80 ==> n == 1
    ensures 0x80 <= lead < 0xC0 ==> n == 1
  {
    if lead < 0x80 then 1             // 0xxxxxxx
    else if 0xC0 <= lead < 0xE0 then 2  // (lead & 0xE0) == 0xC0
    else if 0xE0 <= lead < 0xF0 then 3  // (lead & 0xF0) == 0xE0
    else if 0xF0 <= lead < 0xF8 then 4  // (lead & 0xF8) == 0xF0
    else 1
  }

  datatype Decoded = Decoded(cp: nat, next: nat)

  const Replacement: nat := 0x3F  // '?'

  /** The low six bits of a byte, `b & 0x3F`. */
  function Low6(b: Byte): nat
  {
    b % 64
  }

  /**
   * Decodes the sequence starting at `i`. The low six bits of each
   * continuation byte are joined without checking that the byte really is a
   * continuation byte. The caller must supply every byte the lead byte
   * announces: the source reads them unconditionally.
   */
  function Utf8ToCodepoint(s: seq<Byte>, i: nat): (d: Decoded)
    requires i < |s| && i + SequenceLength(s[i]) <= |s|
    ensures d.next == i + SequenceLength(s[i])
    ensures d.cp < 0x20_0000
    ensures s[i] < 0x80 ==> d.cp == s[i]
  {
    var b0 := s[i];
    if b0 < 0x80 then
      Decoded(b0, i + 1)
    else if 0xC0 <= b0 < 0xE0 then
      Decoded((b0 % 32) * 64 + Low6(s[i + 1]), i + 2)
    else if 0xE0 <= b0 < 0xF0 then
      Decoded((b0 % 16) * 4096 + Low6(s[i + 1]) * 64 + Low6(s[i + 2]), i + 3)
    else if 0xF0 <= b0 < 0xF8 then
      Decoded((b0 % 8) * 262144 + Low6(s[i + 1]) * 4096 + Low6(s[i + 2]) * 64 + Low6(s[i + 3]), i + 4)
    else
      Decoded(Replacement, i + 1)
  }

  /** The standard UTF-8 encoding (section 3 of RFC 3629), the decoder's reference partner. */
  function Encode(cp: nat): (s: seq<Byte>)
    requires cp <= 0x10FFFF
    ensures 1 <= |s| <= 4
  {
    var q1, b3 := cp / 64, cp % 64;
    var q2, b2 := q1 / 64, q1 % 64;
    var q3, b1 := q2 / 64, q2 % 64;
    if cp < 0x80 then
      [cp]
    else if cp < 0x800 then
      [0xC0 + q1, 0x80 + b3]
    else if cp < 0x1_0000 then
      [0xE0 + q2, 0x80 + b2, 0x80 + b3]
    else
      [0xF0 + q3, 0x80 + b1, 0x80 + b2, 0x80 + b3]
  }

  /** Every well-formed sequence decodes back to its codepoint and is consumed whole. */
  lemma DecodeEncode(cp: nat)
    requires cp <= 0x10FFFF
    ensures SequenceLength(Encode(cp)[0]) == |Encode(cp)|
    ensures Utf8ToCodepoint(Encode(cp), 0) == Decoded(cp, |Encode(cp)|)
  {
    var q1, b3 := cp / 64, cp % 64;
    var q2, b2 := q1 / 64, q1 % 64;
    var q3, b1 := q2 / 64, q2 % 64;
    assert cp == q1 * 64 + b3 && q1 == q2 * 64 + b2 && q2 == q3 * 64 + b1;
    if cp < 0x80 {
    } else if cp < 0x800 {
      DecodeEncode2(q1, b3);
    } else if cp < 0x1_0000 {
      DecodeEncode3(q2, b2, b3);
    } else {
      DecodeEncode4(q3, b1, b2, b3);
    }
  }

  lemma DecodeEncode2(hi: nat, lo: nat)
    requires 2 <= hi < 32 && lo < 64
    ensures Utf8ToCodepoint([0xC0 + hi, 0x80 + lo], 0) == Decoded(hi * 64 + lo, 2)
  {
    assert (0xC0 + hi) % 32 == hi;
    assert Low6(0x80 + lo) == lo;
  }

  lemma DecodeEncode3(hi: nat, mid: nat, lo: nat)
    requires hi < 16 && mid < 64 && lo < 64
    ensures Utf8ToCodepoint([0xE0 + hi, 0x80 + mid, 0x80 + lo], 0) == Decoded(hi * 4096 + mid * 64 + lo, 3)
  {
    assert (0xE0 + hi) % 16 == hi;
    assert Low6(0x80 + mid) == mid;
    assert Low6(0x80 + lo) == lo;
  }

  lemma DecodeEncode4(top: nat, hi: nat, mid: nat, lo: nat)
    requires top < 8 && hi < 64 && mid < 64 && lo < 64
    ensures Utf8ToCodepoint([0xF0 + top, 0x80 + hi, 0x80 + mid, 0x80 + lo], 0)
         == Decoded(top * 262144 + hi * 4096 + mid * 64 + lo, 4)
  {
    assert (0xF0 + top) % 8 == top;
    assert Low6(0x80 + hi) == hi;
    assert Low6(0x80 + mid) == mid;
    assert Low6(0x80 + lo) == lo;
  }

  /** A lead byte followed by a non-continuation byte is still joined (0x41 is 'A'). */
  lemma ContinuationBytesNotValidated()
    ensures Utf8ToCodepoint([0xC3, 0x41], 0) == Decoded(0xC1, 2)
  {
  }

  /** The overlong two-byte form of NUL, forbidden by RFC 3629, decodes to 0. */
  lemma OverlongFormAccepted()
    ensures Utf8ToCodepoint([0xC0, 0x80], 0) == Decoded(0, 2)
  {
  }

  /** A stray continuation byte or a 0xF8..0xFF lead gives '?' and advances one byte. */
  lemma InvalidLeadGivesReplacement(b: Byte)
    requires 0x80 <= b < 0xC0 || b >= 0xF8
    ensures Utf8ToCodepoint([b], 0) == Decoded(Replacement, 1)
  {
  }

  /** Number of glyphs in a font's `char_data` table: 96 Basic Latin + 256 Cyrillic. */
  const GlyphSlots: nat := 96 + 256

  /** The atlas slot of a codepoint, or None when the font has no glyph for it. */
  function GlyphIndex(cp: nat): (r: Option<nat>)
    ensures r.Some? <==> (32 <= cp < 128 || 0x400 <= cp <= 0x4FF)
    ensures r.Some? ==> r.value < GlyphSlots
  {
    if 32 <= cp < 128 then Some(cp - 32)
    else if 0x400 <= cp <= 0x4FF then Some(96 + (cp - 0x400))
    else None
  }

  /** The codepoint stored in atlas slot `k`. */
  function CodepointOfSlot(k: nat): (cp: nat)
    requires k < GlyphSlots
  {
    if k < 96 then k + 32 else k - 96 + 0x400
  }

  /** Every slot of the table is reachable, from exactly the codepoint stored there. */
  lemma GlyphIndexOnto(k: nat)
    requires k < GlyphSlots
    ensures GlyphIndex(CodepointOfSlot(k)) == Some(k)
  {
  }

  /** Distinct codepoints never share a slot. */
  lemma GlyphIndexInjective(a: nat, b: nat)
    requires GlyphIndex(a).Some? && GlyphIndex(a) == GlyphIndex(b)
    ensures a == b
  {
  }

  /**
   * The bytes from `i` on split into complete sequences. The source's text
   * loop stops only on the terminating NUL, so a sequence that runs into the
   * terminator moves the cursor past it and the loop reads beyond the string.
   */
  predicate Framed(text: seq<Byte>, i: nat)
    requires i <= |text|
    decreases |text| - i
  {
    i == |text| ||
    (i + SequenceLength(text[i]) <= |text| && Framed(text, i + SequenceLength(text[i])))
  }

  /**
   * A sequence cut short by the end of the string is not framed, and the
   * decoder, reading the terminator and the memory after it as continuation
   * bytes, moves the walk's cursor past the terminator at `|text|`: the next
   * test of the text loop reads beyond the string. For example the string
   * E2 82 followed by NUL: the cursor goes from 0 to 3.
   */
  lemma TruncatedSequenceOverruns(text: seq<Byte>, i: nat, after: seq<Byte>)
    requires i < |text| && |text| < i + SequenceLength(text[i])
    requires i + SequenceLength(text[i]) <= |text| + 1 + |after|
    ensures !Framed(text, i)
    ensures Utf8ToCodepoint(text + [0] + after, i).next > |text|
  {
    assert (text + [0] + after)[i] == text[i];
  }

  /** The atlas slots of the glyphs the text yields from byte `i` on, in order. */
  function GlyphIndicesFrom(text: seq<Byte>, i: nat): (r: seq<nat>)
    requires i <= |text| && Framed(text, i)
    ensures |r| <= |text| - i
    ensures forall j :: 0 <= j < |r| ==> r[j] < GlyphSlots
    decreases |text| - i
  {
    if i == |text| then []
    else
      var d := Utf8ToCodepoint(text, i);
      var rest := GlyphIndicesFrom(text, d.next);
      match GlyphIndex(d.cp)
      case Some(k) => [k] + rest
      case None => rest
  }

  /**
   * The walk of DrawText and GetTextSize over a NUL-terminated string (the
   * bytes before the terminator), collecting the slot of every glyph found.
   */
  method DecodeGlyphIndices(text: seq<Byte>) returns (indices: seq<nat>)
    requires forall j :: 0 <= j < |text| ==> text[j] != 0
    requires Framed(text, 0)
    ensures indices == GlyphIndicesFrom(text, 0)
    ensures forall j :: 0 <= j < |indices| ==> indices[j] < GlyphSlots
  {
    indices := [];
    var p := 0;
    while p < |text|
      invariant p <= |text| && Framed(text, p)
      invariant indices + GlyphIndicesFrom(text, p) == GlyphIndicesFrom(text, 0)
      decreases |text| - p
    {
      var d := Utf8ToCodepoint(text, p);
      var index := GlyphIndex(d.cp);
      if index.Some? {
        indices := indices + [index.value];
      }
      p := d.next;
    }
  }

  /** Printable ASCII text maps byte for byte onto slots `b - 32`. */
  lemma {:induction false} AsciiTextSlots(text: seq<Byte>, i: nat)
    requires i <= |text|
    requires forall j :: 0 <= j < |text| ==> 32 <= text[j] < 128
    ensures Framed(text, i)
    ensures GlyphIndicesFrom(text, i) == seq(|text| - i, j requires 0 <= j < |text| - i => text[i + j] - 32)
    decreases |text| - i
  {
    if i < |text| {
      AsciiTextSlots(text, i + 1);
    }
  }
}
