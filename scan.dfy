/** The byte-level view of a line used by main.cpp: bytes, the character scanner and the
    one step the folder takes over an SGR escape or an overstrike prefix. */
module Scan {
  import opened Wrappers

  newtype Byte = b: int | 0 <= b < 256

  const ESC: Byte := 0x1b
  const BS: Byte := 0x08
  const SPACE: Byte := 0x20
  const UNDERSCORE: Byte := 0x5f
  const LETTER_M: Byte := 0x6d

  /** size_t arithmetic is modulo 2^64; no string is longer than that. */
  const W64: nat := 0x1_0000_0000_0000_0000

  /** What utf8CharLen reports for the character at an offset: its byte length and its column width. */
  datatype Glyph = Glyph(len: nat, width: nat)

  /** The UTF-8 scanner of utf8.h, which is not part of this model: any function that, at an
      offset inside the buffer, reports a character of at least one byte that ends inside the
      buffer and is at most two columns wide. */
  type Scanner = f: (seq<Byte>, nat) -> Glyph
    | forall line: seq<Byte>, pos: nat :: pos < |line| ==>
        1 <= f(line, pos).len && pos + f(line, pos).len <= |line| && f(line, pos).width <= 2
    witness (line: seq<Byte>, pos: nat) => Glyph(1, 1)

  /** The scanner as the model calls it: at or past the end of the buffer it yields an empty,
      zero-width glyph (what utf8.h does there is not part of this model). */
  function Decode(sc: Scanner, line: seq<Byte>, pos: nat): (g: Glyph)
    ensures pos < |line| ==> 1 <= g.len && pos + g.len <= |line| && g.width <= 2
    ensures pos >= |line| ==> g.len == 0 && g.width == 0
  {
    if pos < |line| then sc(line, pos) else Glyph(0, 0)
  }

  /** The SGR scan after an ESC: glyphs are skipped up to and including the first one whose
      first byte is 'm'; the result is the offset just past it, or None if the line ends first. */
  function EscapeEnd(sc: Scanner, line: seq<Byte>, pos: nat): (r: Option<nat>)
    ensures r.Some? ==> pos < r.value <= |line| && exists k :: pos <= k < r.value && line[k] == LETTER_M
    decreases |line| - pos
  {
    if pos >= |line| then None
    else if line[pos] == LETTER_M then Some(pos + Decode(sc, line, pos).len)
    else EscapeEnd(sc, line, pos + Decode(sc, line, pos).len)
  }

  /** Where the SGR run that starts at an ESC ends: just past its 'm', or the end of the line. */
  function EscapeSkip(sc: Scanner, line: seq<Byte>, pos: nat): (r: nat)
    requires pos <= |line|
    ensures pos <= r <= |line|
  {
    match EscapeEnd(sc, line, pos)
    case Some(q) => q
    case None => |line|
  }

  /** The glyph the folder measures when it stands at `pos`: `at` is where it starts, after
      skipping an ESC...m run or the first glyph and BS of an overstrike pair. */
  datatype Probe = Probe(at: nat, len: nat, width: nat)

  function Step(sc: Scanner, line: seq<Byte>, pos: nat): (p: Probe)
    requires pos < |line|
    ensures pos <= p.at && p.at + p.len <= |line| && pos < p.at + p.len
    ensures p.at < |line| ==> 1 <= p.len && p.width <= 2
    ensures p.at == |line| ==> p.len == 0 && p.width == 0
    ensures p.at > pos ==> line[pos] == ESC || line[p.at - 1] == BS
  {
    var g := Decode(sc, line, pos);
    if line[pos] == ESC then
      var at := EscapeSkip(sc, line, pos + g.len);
      var g2 := Decode(sc, line, at);
      Probe(at, g2.len, g2.width)
    else if pos + g.len < |line| && line[pos + g.len] == BS then
      var at := pos + g.len + 1;
      var g2 := Decode(sc, line, at);
      Probe(at, g2.len, g2.width)
    else
      Probe(pos, g.len, g.width)
  }

  /** Stepping again from where the step at p lands measures the same glyph: the glyph
      reached after an SGR run or an overstrike prefix is an ordinary one. */
  ghost predicate TameAt(sc: Scanner, line: seq<Byte>, p: nat)
    requires p < |line|
  {
    Step(sc, line, p).at < |line| ==> Step(sc, line, Step(sc, line, p).at) == Step(sc, line, p)
  }

  /** A line on which every step is tame. Every line without ESC and BS bytes is tame
      (`PlainIsTame`). */
  ghost predicate Tame(sc: Scanner, line: seq<Byte>)
  {
    forall p :: 0 <= p < |line| ==> TameAt(sc, line, p)
  }

  /** No ESC and no BS byte. */
  ghost predicate Plain(line: seq<Byte>)
  {
    forall k :: 0 <= k < |line| ==> line[k] != ESC && line[k] != BS
  }

  lemma PlainIsTame(sc: Scanner, line: seq<Byte>)
    requires Plain(line)
    ensures Tame(sc, line)
    ensures forall p :: 0 <= p < |line| ==> Step(sc, line, p).at == p
  {
    forall p | 0 <= p < |line| ensures Step(sc, line, p).at == p {
      var g := Decode(sc, line, p);
      assert line[p] != ESC;
      assert p + g.len < |line| ==> line[p + g.len] != BS;
    }
    forall p | 0 <= p < |line| ensures TameAt(sc, line, p) {
      assert Step(sc, line, p).at == p;
    }
  }

  /** The UTF-8 encodings of the ten characters that may not open a folded line:
      . , ; ? ! and U+3002, U+FF0C, U+FF1F, U+FF01, U+FF65. */
  const CLOSING: set<seq<Byte>> :=
    {[0x2e], [0x2c], [0x3b], [0x3f], [0x21],
     [0xe3, 0x80, 0x82], [0xef, 0xbc, 0x8c], [0xef, 0xbc, 0x9f], [0xef, 0xbc, 0x81], [0xef, 0xbd, 0xa5]}

  /** is_invalid_start_char: whether the character's bytes are one of the ten encodings,
      compared byte by byte. */
  function IsInvalidStartChar(ch: seq<Byte>): (r: bool)
    ensures r ==> (|ch| == 1 || |ch| == 3) && ch[0] != SPACE
  {
    (|ch| == 1 && (ch[0] == 0x2e || ch[0] == 0x2c || ch[0] == 0x3b || ch[0] == 0x3f || ch[0] == 0x21)) ||
    (|ch| == 3 && ch[0] == 0xe3 && ch[1] == 0x80 && ch[2] == 0x82) ||
    (|ch| == 3 && ch[0] == 0xef && ch[1] == 0xbc && (ch[2] == 0x8c || ch[2] == 0x9f || ch[2] == 0x81)) ||
    (|ch| == 3 && ch[0] == 0xef && ch[1] == 0xbd && ch[2] == 0xa5)
  }

  /** Exactly the ten closing characters may not open a line. */
  lemma InvalidStartIsClosing(ch: seq<Byte>)
    ensures IsInvalidStartChar(ch) <==> ch in CLOSING
  {
    if |ch| == 1 {
      assert ch == [ch[0]];
    } else if |ch| == 3 {
      assert ch == [ch[0], ch[1], ch[2]];
    }
  }
}
