/** columns and max_colums of main.cpp: the column count used to size the window. Unlike the
    folder, columns does not step past the glyph it measures after an SGR run or an overstrike
    pair, so it counts some glyphs twice and skips others (see ColumnsOverstrikeTwice). */
module Columns {
  import opened Scan
  import opened FoldWidth

  /** What one turn of the columns loop does: where the next turn starts and what it adds. */
  datatype Count = Count(next: nat, width: nat)

  /** One turn of the columns loop (main.cpp:39-67). After an ESC the loop skips to just
      past the 'm', steps over the glyph there and counts the glyph after it; after a glyph
      and a BS it counts the glyph after the BS; otherwise it counts and steps over the glyph. */
  function ColumnsTurn(sc: Scanner, line: seq<Byte>, pos: nat): (c: Count)
    requires pos < |line|
    ensures pos < c.next <= |line|
  {
    var g := Decode(sc, line, pos);
    if line[pos] == ESC then
      var q := EscapeSkip(sc, line, pos + g.len);
      var after := q + Decode(sc, line, q).len;
      Count(after, Decode(sc, line, after).width)
    else if pos + g.len < |line| && line[pos + g.len] == BS then
      var at := pos + g.len + 1;
      Count(at, Decode(sc, line, at).width)
    else
      Count(pos + g.len, g.width)
  }

  /** The columns the loop counts from `pos` to the end of the line. */
  function ColumnsFrom(sc: Scanner, line: seq<Byte>, pos: nat): nat
    requires pos <= |line|
    decreases |line| - pos
  {
    if pos == |line| then 0
    else
      var c := ColumnsTurn(sc, line, pos);
      c.width + ColumnsFrom(sc, line, c.next)
  }

  /** The SGR skip of the columns loop (main.cpp:46-58): from the byte after the ESC, the
      offset just past the glyph that follows the 'm', or the end of the line. */
  method SkipEscape(sc: Scanner, line: seq<Byte>, pos0: nat) returns (pos: nat)
    requires pos0 <= |line|
    ensures pos == EscapeSkip(sc, line, pos0) + Decode(sc, line, EscapeSkip(sc, line, pos0)).len
  {
    pos := pos0;
    while pos < |line|
      invariant pos0 <= pos <= |line|
      invariant EscapeSkip(sc, line, pos) == EscapeSkip(sc, line, pos0)
      decreases |line| - pos
    {
      var g2 := Decode(sc, line, pos);
      var ch2 := line[pos..pos + g2.len];
      pos := pos + g2.len;
      if ch2[0] == LETTER_M {
        var g := Decode(sc, line, pos);
        pos := pos + g.len;
        return;
      }
    }
  }

  /** The body of the columns loop (main.cpp:39-67). */
  method ColumnsStep(sc: Scanner, line: seq<Byte>, pos0: nat) returns (pos: nat, colLen: nat)
    requires pos0 < |line|
    ensures Count(pos, colLen) == ColumnsTurn(sc, line, pos0)
  {
    pos := pos0;
    var g := Decode(sc, line, pos);
    colLen := g.width;
    if line[pos] == ESC {
      pos := SkipEscape(sc, line, pos + g.len);
      colLen := Decode(sc, line, pos).width;
    } else if pos + g.len < |line| && line[pos + g.len] == BS {
      pos := pos + g.len + 1;
      colLen := Decode(sc, line, pos).width;
    } else {
      pos := pos + g.len;
    }
  }

  /** columns (main.cpp:36-70). */
  method Columns(sc: Scanner, line: seq<Byte>) returns (cols: nat)
    ensures cols == ColumnsFrom(sc, line, 0)
  {
    cols := 0;
    var pos: nat := 0;
    while pos < |line|
      invariant pos <= |line|
      invariant cols + ColumnsFrom(sc, line, pos) == ColumnsFrom(sc, line, 0)
      decreases |line| - pos
    {
      var colLen;
      pos, colLen := ColumnsStep(sc, line, pos);
      cols := cols + colLen;
    }
  }

  /** On a line without ESC and BS bytes, columns is the width the folder measures: the sum
      of the widths of its characters. */
  lemma {:induction false} ColumnsPlain(sc: Scanner, line: seq<Byte>, pos: nat)
    requires Plain(line) && pos <= |line|
    ensures ColumnsFrom(sc, line, pos) == Width(Stepper(sc, line), pos, |line|)
    decreases |line| - pos
  {
    if pos < |line| {
      var g := Decode(sc, line, pos);
      assert line[pos] != ESC;
      assert pos + g.len < |line| ==> line[pos + g.len] != BS;
      var st := Stepper(sc, line);
      assert st(pos) == Step(sc, line, pos) == Probe(pos, g.len, g.width);
      ColumnsPlain(sc, line, pos + g.len);
    }
  }

  /** max_colums (main.cpp:265-271). */
  method MaxColumns(sc: Scanner, lines: seq<seq<Byte>>) returns (cols: nat)
    ensures forall i :: 0 <= i < |lines| ==> ColumnsFrom(sc, lines[i], 0) <= cols
    ensures |lines| == 0 ==> cols == 0
    ensures |lines| > 0 ==> exists i :: 0 <= i < |lines| && cols == ColumnsFrom(sc, lines[i], 0)
  {
    cols := 0;
    ghost var w := 0;
    for k := 0 to |lines|
      invariant forall i :: 0 <= i < k ==> ColumnsFrom(sc, lines[i], 0) <= cols
      invariant k == 0 ==> cols == 0
      invariant w <= k && (k > 0 ==> w < k && cols == ColumnsFrom(sc, lines[w], 0))
    {
      var c := Columns(sc, lines[k]);
      if c > cols {
        cols, w := c, k;
      }
    }
  }
}
