/** Worked examples of columns (main.cpp:36-70) on a one-byte, one-column scanner, next to the
    width the folder measures for the same line. */
module ColumnsExamples {
  import opened Scan
  import opened FoldWidth
  import opened Columns
  import opened FoldExamples
  import opened Wrappers

  /** "_", BS, "X": an underlined X. */
  const UNDERLINED_X: seq<Byte> := [0x5f, 0x08, 0x58]

  /** ESC "[1m" "A": a bold A. */
  const BOLD_A: seq<Byte> := [0x1b, 0x5b, 0x31, 0x6d, 0x41]

  /** columns counts the glyph after an overstrike BS twice: once as the glyph measured
      after the pair and once more when the next turn starts on it. The folder sees one
      column. */
  lemma ColumnsOverstrikeTwice(sc: Scanner)
    requires Ascii(sc)
    ensures ColumnsFrom(sc, UNDERLINED_X, 0) == 2
    ensures Width(Stepper(sc, UNDERLINED_X), 0, 3) == 1
  {
    var line := UNDERLINED_X;
    assert sc(line, 0) == Glyph(1, 1) && sc(line, 2) == Glyph(1, 1);
    assert ColumnsTurn(sc, line, 0) == Count(2, 1);
    assert ColumnsTurn(sc, line, 2) == Count(3, 1);
    assert ColumnsFrom(sc, line, 2) == 1;
    var st := Stepper(sc, line);
    assert st(0) == Step(sc, line, 0) == Probe(2, 1, 1);
    assert Width(st, 3, 3) == 0;
  }

  /** After an SGR run columns steps over the glyph that follows the 'm' without counting
      it, so a bold A has no columns. The folder sees one column. */
  lemma ColumnsSgrSkipsGlyph(sc: Scanner)
    requires Ascii(sc)
    ensures ColumnsFrom(sc, BOLD_A, 0) == 0
    ensures Width(Stepper(sc, BOLD_A), 0, 5) == 1
  {
    var line := BOLD_A;
    assert sc(line, 0) == Glyph(1, 1) && sc(line, 1) == Glyph(1, 1) && sc(line, 2) == Glyph(1, 1);
    assert sc(line, 3) == Glyph(1, 1) && sc(line, 4) == Glyph(1, 1);
    assert EscapeEnd(sc, line, 3) == Some(4);
    assert EscapeEnd(sc, line, 1) == Some(4);
    assert ColumnsTurn(sc, line, 0) == Count(5, 0);
    var st := Stepper(sc, line);
    assert st(0) == Step(sc, line, 0) == Probe(4, 1, 1);
    assert Width(st, 5, 5) == 0;
  }
}
