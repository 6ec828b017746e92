/** fold_line of main.cpp: one raw line of bytes cut into display segments of at most `cols`
    columns, with the closing-punctuation, space, word-wrap and hard-break rules. */
module Fold {
  import opened Scan
  import opened Wrappers
  import opened Segments

  /** The last character of the segment is one of the closing punctuation characters. */
  ghost predicate EndsInClosing(line: seq<Byte>, c: Cut)
    requires c.lo <= c.hi <= |line|
  {
    || (c.hi - c.lo >= 1 && IsInvalidStartChar(line[c.hi - 1..c.hi]))
    || (c.hi - c.lo >= 3 && IsInvalidStartChar(line[c.hi - 3..c.hi]))
  }

  /** A gap wider than one space only ever follows a segment that ends in closing punctuation. */
  ghost predicate GapOk(line: seq<Byte>, c: Cut, next: nat)
    requires c.lo <= c.hi <= next <= |line|
  {
    next - c.hi <= 1 || EndsInClosing(line, c)
  }

  /** The cuts tile line[from..] with only spaces left over, each gap being one space except
      the run of spaces skipped after closing punctuation. */
  ghost predicate Folded(line: seq<Byte>, cuts: seq<Cut>, from: nat)
    decreases |cuts|
  {
    && Tiling(line, cuts, from, SPACE)
    && (cuts != [] ==>
          GapOk(line, cuts[0], Next(line, cuts)) && Folded(line, cuts[1..], Next(line, cuts)))
  }

  lemma FoldedCons(line: seq<Byte>, c: Cut, next: nat, rest: seq<Cut>)
    requires c.lo <= c.hi <= next <= |line|
    requires Blank(line, c.hi, next, SPACE) && GapOk(line, c, next)
    requires Folded(line, rest, next)
    ensures Folded(line, [c] + rest, c.lo)
  {
    var cuts := [c] + rest;
    assert cuts[1..] == rest;
    assert rest != [] ==> cuts[1] == rest[0] && rest[0].lo == next;
    assert Next(line, cuts) == next;
  }

  /** The run of spaces after closing punctuation (main.cpp:125-130): the first offset at or
      after `pos` that does not hold a space, or the end of the line. */
  function SkipSpaces(line: seq<Byte>, pos: nat): (r: nat)
    requires pos <= |line|
    ensures pos <= r <= |line| && Blank(line, pos, r, SPACE)
    ensures r < |line| ==> line[r] != SPACE
    decreases |line| - pos
  {
    if pos < |line| && line[pos] == SPACE then SkipSpaces(line, pos + 1) else pos
  }

  /** The word-wrap scan with signed indices: the nearest space in line[start..pos2], or
      start - 1 when that stretch holds none. Only offsets in [start, pos2] are read. */
  function ScanBack(line: seq<Byte>, start: nat, pos2: int): (r: int)
    requires start - 1 <= pos2 < |line|
    ensures start - 1 <= r <= pos2
    ensures r >= start ==> line[r] == SPACE
    ensures forall k :: r < k <= pos2 ==> line[k] != SPACE
    decreases pos2 + 1
  {
    if pos2 < start then pos2
    else if line[pos2] == SPACE then pos2
    else ScanBack(line, start, pos2 - 1)
  }

  /** The variables of the fold loop: `pos` scans the line, `start` opens the current
      segment and `col` is the width counted into it so far. */
  datatype State = State(pos: nat, start: nat, col: nat)

  /** One turn of the loop: the segment it pushes (if any) and the state it leaves. */
  datatype Move = Move(emit: Option<Cut>, next: State)

  /** What a turn of the loop knows about the glyph it measures: it starts at or after the
      loop position and ends after it, inside the line. */
  ghost predicate Measures(line: seq<Byte>, pos: nat, g: Probe)
  {
    pos <= g.at && g.at + g.len <= |line| && pos < g.at + g.len
  }

  /** One turn of the fold loop at main.cpp:91-166, given the glyph `g` measured at the loop
      position: accept it, or break after closing punctuation, at a space, at the last space
      of the segment (word wrap) or hard before the glyph. */
  function Advance(line: seq<Byte>, cols: nat, wordWrap: bool, s: State, g: Probe): (m: Move)
    requires s.start <= s.pos < |line| && Measures(line, s.pos, g)
    ensures s.start <= m.next.start <= m.next.pos <= |line|
    ensures m.next.start > s.start || (m.next.start == s.start && m.next.pos > s.pos)
    ensures m.emit.None? ==> m.next.start == s.start && m.next.col <= cols
  {
    var ch := line[g.at..g.at + g.len];
    if s.col + g.width <= cols then
      Move(None, State(g.at + g.len, s.start, s.col + g.width))
    else if IsInvalidStartChar(ch) then
      var p := g.at + g.len;
      var q := SkipSpaces(line, p);
      Move(Some(Cut(s.start, p)), State(q, q, 0))
    else if ch == [SPACE] then
      Move(Some(Cut(s.start, g.at)), State(g.at + g.len, g.at + g.len, 0))
    else if wordWrap && ScanBack(line, s.start, g.at - 1) >= s.start then
      var p2 := ScanBack(line, s.start, g.at - 1);
      Move(Some(Cut(s.start, p2)), State(p2 + 1, p2 + 1, 0))
    else
      Move(Some(Cut(s.start, g.at)), State(g.at + g.len, g.at, g.width))
  }

  /** The turn the fold takes at `s`, on the glyph the scanner measures there. */
  function Turn(sc: Scanner, line: seq<Byte>, cols: nat, wordWrap: bool, s: State): Move
    requires s.start <= s.pos < |line|
  {
    Advance(line, cols, wordWrap, s, Step(sc, line, s.pos))
  }

  /** The glyph fits: it is accepted. */
  lemma AdvanceAccept(line: seq<Byte>, cols: nat, wordWrap: bool, s: State, g: Probe)
    requires s.start <= s.pos < |line| && Measures(line, s.pos, g)
    requires s.col + g.width <= cols
    ensures Advance(line, cols, wordWrap, s, g) == Move(None, State(g.at + g.len, s.start, s.col + g.width))
  {
  }

  /** Closing punctuation that does not fit ends the segment, and the spaces after it are skipped. */
  lemma AdvanceClosing(line: seq<Byte>, cols: nat, wordWrap: bool, s: State, g: Probe)
    requires s.start <= s.pos < |line| && Measures(line, s.pos, g)
    requires s.col + g.width > cols && IsInvalidStartChar(line[g.at..g.at + g.len])
    ensures var q := SkipSpaces(line, g.at + g.len);
      Advance(line, cols, wordWrap, s, g) == Move(Some(Cut(s.start, g.at + g.len)), State(q, q, 0))
  {
  }

  /** A space that does not fit ends the segment and is dropped. */
  lemma AdvanceSpace(line: seq<Byte>, cols: nat, wordWrap: bool, s: State, g: Probe)
    requires s.start <= s.pos < |line| && Measures(line, s.pos, g)
    requires var ch := line[g.at..g.at + g.len];
      s.col + g.width > cols && !IsInvalidStartChar(ch) && ch == [SPACE]
    ensures var e := g.at + g.len;
      Advance(line, cols, wordWrap, s, g) == Move(Some(Cut(s.start, g.at)), State(e, e, 0))
  {
  }

  /** With word wrap, any other glyph that does not fit sends the segment back to its last
      space, which is dropped. */
  lemma AdvanceWrap(line: seq<Byte>, cols: nat, wordWrap: bool, s: State, g: Probe)
    requires s.start <= s.pos < |line| && Measures(line, s.pos, g)
    requires var ch := line[g.at..g.at + g.len];
      && s.col + g.width > cols && !IsInvalidStartChar(ch) && ch != [SPACE]
      && wordWrap && ScanBack(line, s.start, g.at - 1) >= s.start
    ensures var p2 := ScanBack(line, s.start, g.at - 1);
      Advance(line, cols, wordWrap, s, g) == Move(Some(Cut(s.start, p2)), State(p2 + 1, p2 + 1, 0))
  {
  }

  /** Otherwise the segment is cut just before the glyph, which opens the next one. */
  lemma AdvanceHard(line: seq<Byte>, cols: nat, wordWrap: bool, s: State, g: Probe)
    requires s.start <= s.pos < |line| && Measures(line, s.pos, g)
    requires var ch := line[g.at..g.at + g.len];
      && s.col + g.width > cols && !IsInvalidStartChar(ch) && ch != [SPACE]
      && !(wordWrap && ScanBack(line, s.start, g.at - 1) >= s.start)
    ensures Advance(line, cols, wordWrap, s, g) == Move(Some(Cut(s.start, g.at)), State(g.at + g.len, g.at, g.width))
  {
  }

  /** Closing punctuation ends the segment it closes, and the run of spaces after it is a
      permitted gap. */
  lemma ClosingGap(line: seq<Byte>, lo: nat, at: nat, e: nat)
    requires lo <= at <= e <= |line| && IsInvalidStartChar(line[at..e])
    ensures Blank(line, e, SkipSpaces(line, e), SPACE)
    ensures GapOk(line, Cut(lo, e), SkipSpaces(line, e))
  {
    var ch := line[at..e];
    assert line[e - |ch|..e] == ch;
  }

  /** A single space between two segments is a permitted gap. */
  lemma SpaceGap(line: seq<Byte>, lo: nat, at: nat)
    requires lo <= at < |line| && line[at..at + 1] == [SPACE]
    ensures Blank(line, at, at + 1, SPACE) && GapOk(line, Cut(lo, at), at + 1)
  {
    assert line[at] == line[at..at + 1][0];
  }

  /** A segment a turn pushes opens at the segment start and leaves before the next one only
      spaces, and more than one space only after closing punctuation. */
  lemma AdvanceCut(line: seq<Byte>, cols: nat, wordWrap: bool, s: State, g: Probe)
    requires s.start <= s.pos < |line| && Measures(line, s.pos, g)
    ensures var m := Advance(line, cols, wordWrap, s, g);
      m.emit.Some? ==>
      var c := m.emit.value;
      && c.lo == s.start <= c.hi <= m.next.start
      && Blank(line, c.hi, m.next.start, SPACE) && GapOk(line, c, m.next.start)
  {
    var e := g.at + g.len;
    var ch := line[g.at..e];
    if s.col + g.width <= cols {
      AdvanceAccept(line, cols, wordWrap, s, g);
    } else if IsInvalidStartChar(ch) {
      AdvanceClosing(line, cols, wordWrap, s, g);
      ClosingGap(line, s.start, g.at, e);
    } else if ch == [SPACE] {
      AdvanceSpace(line, cols, wordWrap, s, g);
      SpaceGap(line, s.start, g.at);
    } else if wordWrap && ScanBack(line, s.start, g.at - 1) >= s.start {
      AdvanceWrap(line, cols, wordWrap, s, g);
    } else {
      AdvanceHard(line, cols, wordWrap, s, g);
    }
  }

  /** The cut a turn pushes, as a list. */
  function Emitted(cut: Option<Cut>): seq<Cut>
  {
    if cut.Some? then [cut.value] else []
  }

  /** The segments fold_line still emits from a loop state, the trailing one included. */
  function FoldFrom(sc: Scanner, line: seq<Byte>, cols: nat, wordWrap: bool, s: State): seq<Cut>
    requires s.start <= s.pos <= |line|
    decreases |line| - s.start, |line| - s.pos
  {
    if s.pos >= |line| then
      if s.start < s.pos then [Cut(s.start, s.pos)] else []
    else
      var m := Turn(sc, line, cols, wordWrap, s);
      Emitted(m.emit) + FoldFrom(sc, line, cols, wordWrap, m.next)
  }

  /** Whatever the loop state, the segments still to come tile the rest of the line from the
      current segment's start, leaving out only spaces. */
  lemma {:induction false} FoldFromFolded(sc: Scanner, line: seq<Byte>, cols: nat, wordWrap: bool, s: State)
    requires s.start <= s.pos <= |line|
    ensures Folded(line, FoldFrom(sc, line, cols, wordWrap, s), s.start)
    decreases |line| - s.start, |line| - s.pos
  {
    if s.pos < |line| {
      var m := Turn(sc, line, cols, wordWrap, s);
      var rest := FoldFrom(sc, line, cols, wordWrap, m.next);
      FoldFromFolded(sc, line, cols, wordWrap, m.next);
      AdvanceCut(line, cols, wordWrap, s, Step(sc, line, s.pos));
      if m.emit.Some? {
        FoldedCons(line, m.emit.value, m.next.start, rest);
      } else {
        assert FoldFrom(sc, line, cols, wordWrap, s) == rest;
      }
    }
  }

  /** fold_line: an empty line gives one empty segment, any other line the segments of the loop. */
  function FoldCuts(sc: Scanner, line: seq<Byte>, cols: nat, wordWrap: bool): (r: seq<Cut>)
    ensures Folded(line, r, 0) && InRange(line, r)
    ensures |line| == 0 ==> r == [Cut(0, 0)]
    ensures |line| > 0 ==> r != []
  {
    if |line| == 0 then [Cut(0, 0)]
    else
      var r := FoldFrom(sc, line, cols, wordWrap, State(0, 0, 0));
      FoldFromFolded(sc, line, cols, wordWrap, State(0, 0, 0));
      TilingInRange(line, r, 0, SPACE);
      r
  }

  /** The head of the fold loop (main.cpp:92-115): the glyph to measure at `pos`, after an
      ESC...m run or the first glyph and BS of an overstrike pair. */
  method MeasureAt(sc: Scanner, line: seq<Byte>, pos0: nat) returns (pos: nat, charLen: nat, colLen: nat)
    requires pos0 < |line|
    ensures Step(sc, line, pos0) == Probe(pos, charLen, colLen)
  {
    pos := pos0;
    var g := Decode(sc, line, pos);
    charLen, colLen := g.len, g.width;
    if line[pos] == ESC {
      pos := pos + charLen;
      ghost var esc := EscapeEnd(sc, line, pos);
      while pos < |line|
        invariant pos0 < pos <= |line|
        invariant EscapeEnd(sc, line, pos) == esc
        decreases |line| - pos
      {
        var g2 := Decode(sc, line, pos);
        var ch2 := line[pos..pos + g2.len];
        pos := pos + g2.len;
        if ch2[0] == LETTER_M {
          break;
        }
      }
      g := Decode(sc, line, pos);
      charLen, colLen := g.len, g.width;
    } else if pos + charLen < |line| && line[pos + charLen] == BS {
      pos := pos + charLen + 1;
      g := Decode(sc, line, pos);
      charLen, colLen := g.len, g.width;
    }
  }

  /** The run of spaces skipped after closing punctuation (main.cpp:125-130). */
  method SkipSpaceRun(line: seq<Byte>, pos0: nat) returns (pos: nat)
    requires pos0 <= |line|
    ensures pos == SkipSpaces(line, pos0)
  {
    pos := pos0;
    while pos < |line|
      invariant pos0 <= pos <= |line|
      invariant SkipSpaces(line, pos) == SkipSpaces(line, pos0)
      decreases |line| - pos
    {
      if line[pos] != SPACE {
        break;
      }
      pos := pos + 1;
    }
  }

  /** The backward word-wrap scan (main.cpp:140-146), with signed indices. */
  method FindWrapSpace(line: seq<Byte>, start: nat, pos: nat) returns (pos2: int)
    requires start <= pos <= |line|
    ensures pos2 == ScanBack(line, start, pos - 1)
  {
    pos2 := pos - 1;
    while start <= pos2
      invariant start - 1 <= pos2 < pos
      invariant ScanBack(line, start, pos2) == ScanBack(line, start, pos - 1)
      decreases pos2 + 1
    {
      if line[pos2] == SPACE {
        break;
      }
      pos2 := pos2 - 1;
    }
  }

  /** The decision half of a turn (main.cpp:116-165), on the glyph measured at `at`. */
  method Decide(line: seq<Byte>, cols: nat, wordWrap: bool, ghost pos0: nat, start0: nat, col0: nat,
                at: nat, charLen: nat, colLen: nat)
    returns (cut: Option<Cut>, pos: nat, start: nat, col: nat)
    requires start0 <= pos0 < |line| && Measures(line, pos0, Probe(at, charLen, colLen))
    ensures Move(cut, State(pos, start, col))
         == Advance(line, cols, wordWrap, State(pos0, start0, col0), Probe(at, charLen, colLen))
  {
    start, col, pos := start0, col0, at;
    if col + colLen <= cols {
      col := col + colLen;
      pos := pos + charLen;
      cut := None;
    } else {
      var ch := line[pos..pos + charLen];
      if IsInvalidStartChar(ch) {
        pos := pos + charLen;
        cut := Some(Cut(start, pos));
        pos := SkipSpaceRun(line, pos);
        start := pos;
        col := 0;
      } else if ch == [SPACE] {
        cut := Some(Cut(start, pos));
        pos := pos + charLen;
        start := pos;
        col := 0;
      } else if wordWrap {
        var pos2 := FindWrapSpace(line, start, pos);
        if pos2 < start {
          cut := Some(Cut(start, pos));
          start := pos;
          col := colLen;
          pos := pos + charLen;
        } else {
          cut := Some(Cut(start, pos2));
          start := pos2 + 1;
          col := 0;
          pos := pos2 + 1;
        }
      } else {
        cut := Some(Cut(start, pos));
        start := pos;
        col := colLen;
        pos := pos + charLen;
      }
    }
  }

  /** One turn of the fold loop (main.cpp:92-165), returning the segment it pushes. */
  method FoldTurn(sc: Scanner, line: seq<Byte>, cols: nat, wordWrap: bool, pos0: nat, start0: nat, col0: nat)
    returns (cut: Option<Cut>, pos: nat, start: nat, col: nat)
    requires start0 <= pos0 < |line|
    ensures Move(cut, State(pos, start, col)) == Turn(sc, line, cols, wordWrap, State(pos0, start0, col0))
  {
    var at, charLen, colLen := MeasureAt(sc, line, pos0);
    cut, pos, start, col := Decide(line, cols, wordWrap, pos0, start0, col0, at, charLen, colLen);
  }

  /** A turn of the loop moves the cut it pushes from the segments still to come to the
      segments done. */
  lemma PendingTurn(sc: Scanner, line: seq<Byte>, cols: nat, wordWrap: bool, s: State, cut: Option<Cut>, n: State, done: seq<Cut>, all: seq<Cut>)
    requires s.start <= s.pos < |line|
    requires Move(cut, n) == Turn(sc, line, cols, wordWrap, s)
    requires done + FoldFrom(sc, line, cols, wordWrap, s) == all && InRange(line, all)
    ensures cut.None? ==> done + FoldFrom(sc, line, cols, wordWrap, n) == all
    ensures cut.Some? ==> done + [cut.value] + FoldFrom(sc, line, cols, wordWrap, n) == all
    ensures cut.Some? ==> cut.value.lo <= cut.value.hi <= |line|
  {
    var rest := FoldFrom(sc, line, cols, wordWrap, s);
    var tail := FoldFrom(sc, line, cols, wordWrap, n);
    if cut.Some? {
      assert rest == [cut.value] + tail;
      SeqAssoc(done, [cut.value], tail);
      InRangePrefix(line, done, rest);
      assert rest[0] == cut.value;
    } else {
      assert rest == tail;
    }
  }

  /** fold_line as the loop main.cpp:78-173 runs it. */
  method FoldLine(sc: Scanner, line: seq<Byte>, cols: nat, wordWrap: bool) returns (lines: seq<seq<Byte>>)
    ensures lines == Slices(line, FoldCuts(sc, line, cols, wordWrap))
  {
    if |line| == 0 {
      return [[]];
    }
    var pos: nat, start: nat, col: nat := 0, 0, 0;
    lines := [];
    ghost var all := FoldCuts(sc, line, cols, wordWrap);
    ghost var done: seq<Cut> := [];
    assert all == FoldFrom(sc, line, cols, wordWrap, State(0, 0, 0));
    while pos < |line|
      invariant start <= pos <= |line|
      invariant done + FoldFrom(sc, line, cols, wordWrap, State(pos, start, col)) == all
      invariant InRange(line, done) && lines == Slices(line, done)
      decreases |line| - start, |line| - pos
    {
      ghost var s := State(pos, start, col);
      var cut;
      cut, pos, start, col := FoldTurn(sc, line, cols, wordWrap, pos, start, col);
      PendingTurn(sc, line, cols, wordWrap, s, cut, State(pos, start, col), done, all);
      if cut.Some? {
        SlicesAppend(line, done, cut.value);
        lines := lines + [line[cut.value.lo..cut.value.hi]];
        done := done + [cut.value];
      }
    }
    if start < pos {
      SlicesAppend(line, done, Cut(start, pos));
      lines := lines + [line[start..pos]];
      done := done + [Cut(start, pos)];
    }
  }
}
