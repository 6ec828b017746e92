/** Worked examples of to_attributed_line (main.cpp:190-259) on a one-byte, one-column scanner. */
module AttrExamples {
  import opened Scan
  import opened Wrappers
  import opened Attr
  import opened FoldExamples

  /** ESC "[1;31m" "RED" */
  const BOLD_RED: seq<Byte> := [0x1b, 0x5b, 0x31, 0x3b, 0x33, 0x31, 0x6d, 0x52, 0x45, 0x44]

  /** The parameter text of BOLD_RED, "1;31". */
  const BOLD_RED_PARAMS: seq<Byte> := [0x31, 0x3b, 0x33, 0x31]

  /** A byte other than 'm' inside an SGR run is skipped. */
  lemma EscapeSkipsByte(sc: Scanner, line: seq<Byte>, pos: nat)
    requires Ascii(sc) && pos < |line| && line[pos] != LETTER_M
    ensures EscapeEnd(sc, line, pos) == EscapeEnd(sc, line, pos + 1)
  {
    assert Decode(sc, line, pos) == Glyph(1, 1);
  }

  /** The SGR run of BOLD_RED ends after its 'm' at offset 7. */
  lemma BoldRedRunEnd(sc: Scanner)
    requires Ascii(sc)
    ensures EscapeEnd(sc, BOLD_RED, 1) == Some(7)
  {
    var line := BOLD_RED;
    assert |line| == 10 && line[1] == 0x5b && line[2] == 0x31 && line[3] == 0x3b && line[4] == 0x33 && line[5] == 0x31 && line[6] == LETTER_M;
    assert Decode(sc, line, 6) == Glyph(1, 1);
    assert EscapeEnd(sc, line, 6) == Some(7);
    EscapeSkipsByte(sc, line, 5);
    EscapeSkipsByte(sc, line, 4);
    EscapeSkipsByte(sc, line, 3);
    EscapeSkipsByte(sc, line, 2);
    EscapeSkipsByte(sc, line, 1);
  }

  /** The run "\x1b[1;31m" leaves bold in colour pair 31. */
  lemma BoldRedRunStyle(parse: seq<Byte> -> seq<int>)
    requires parse(BOLD_RED_PARAMS) == [1, 31]
    ensures SgrStyleAt(parse, BOLD_RED, 0, 7) == Style(true, false, {31})
  {
    assert BOLD_RED[2..6] == BOLD_RED_PARAMS;
    assert SgrApply(NORMAL, [1, 31]) == SgrApply(BOLD, [31]);
  }

  lemma DSpan(sc: Scanner, parse: seq<Byte> -> seq<int>, st: Style)
    requires Ascii(sc)
    ensures AttrFrom(sc, parse, BOLD_RED, 9, st) == [Span([0x44], st)]
  {
    assert sc(BOLD_RED, 9) == Glyph(1, 1);
    PlainGlyphSpan(sc, parse, BOLD_RED, 9, st);
    assert BOLD_RED[9..10] == [0x44];
  }

  lemma EdSpans(sc: Scanner, parse: seq<Byte> -> seq<int>, st: Style)
    requires Ascii(sc)
    ensures AttrFrom(sc, parse, BOLD_RED, 8, st) == [Span([0x45], st), Span([0x44], st)]
  {
    assert sc(BOLD_RED, 8) == Glyph(1, 1);
    PlainGlyphSpan(sc, parse, BOLD_RED, 8, st);
    assert BOLD_RED[8..9] == [0x45];
    DSpan(sc, parse, st);
  }

  /** "RED" after the escape is three one-letter spans in one style. */
  lemma RedSpans(sc: Scanner, parse: seq<Byte> -> seq<int>, st: Style)
    requires Ascii(sc)
    ensures AttrFrom(sc, parse, BOLD_RED, 7, st) == [Span([0x52], st), Span([0x45], st), Span([0x44], st)]
  {
    assert sc(BOLD_RED, 7) == Glyph(1, 1);
    PlainGlyphSpan(sc, parse, BOLD_RED, 7, st);
    assert BOLD_RED[7..8] == [0x52];
    EdSpans(sc, parse, st);
  }

  /** "ESC[1;31mRED" is the three letters R, E, D, each bold in colour pair 31, and the
      escape itself draws nothing. */
  lemma BoldRedSpans(sc: Scanner, parse: seq<Byte> -> seq<int>)
    requires Ascii(sc) && parse(BOLD_RED_PARAMS) == [1, 31]
    ensures var st := Style(true, false, {31});
      AttributedLine(sc, parse, BOLD_RED) == [Span([0x52], st), Span([0x45], st), Span([0x44], st)]
  {
    BoldRedRunEnd(sc);
    BoldRedRunStyle(parse);
    assert Decode(sc, BOLD_RED, 0) == Glyph(1, 1);
    SgrRunNoSpan(sc, parse, BOLD_RED, 0, NORMAL);
    RedSpans(sc, parse, Style(true, false, {31}));
  }

  /** "_" BS "X" is one underlined X. */
  lemma UnderlinedXSpan(sc: Scanner, parse: seq<Byte> -> seq<int>)
    requires Ascii(sc)
    ensures AttributedLine(sc, parse, [0x5f, 0x08, 0x58]) == [Span([0x58], UNDERLINE)]
  {
    var line: seq<Byte> := [0x5f, 0x08, 0x58];
    assert sc(line, 0) == Glyph(1, 1) && sc(line, 2) == Glyph(1, 1);
    OverstrikeStep(sc, parse, line, 0, NORMAL);
    assert line[0..1] == [UNDERSCORE] && line[2..3] == [0x58];
  }
}
