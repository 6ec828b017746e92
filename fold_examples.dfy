/** The worked examples of fold_line (main.cpp:117-163), on a one-byte, one-column scanner. */
module FoldExamples {
  import opened Scan
  import opened Segments
  import opened Fold
  import opened Wrappers

  /** A scanner for ASCII text: every byte is one character one column wide. */
  ghost predicate Ascii(sc: Scanner)
  {
    forall line: seq<Byte>, pos: nat :: sc(line, pos) == Glyph(1, 1)
  }

  /** "helloworld12345" */
  const HELLO_WORLD_12345: seq<Byte> :=
    [0x68, 0x65, 0x6c, 0x6c, 0x6f, 0x77, 0x6f, 0x72, 0x6c, 0x64, 0x31, 0x32, 0x33, 0x34, 0x35]

  /** "hello world foo" */
  const HELLO_WORLD_FOO: seq<Byte> :=
    [0x68, 0x65, 0x6c, 0x6c, 0x6f, 0x20, 0x77, 0x6f, 0x72, 0x6c, 0x64, 0x20, 0x66, 0x6f, 0x6f]

  /** "end." */
  const END_DOT: seq<Byte> := [0x65, 0x6e, 0x64, 0x2e]

  lemma AsciiStep(sc: Scanner, line: seq<Byte>, p: nat)
    requires Ascii(sc) && Plain(line) && p < |line|
    ensures Step(sc, line, p) == Probe(p, 1, 1)
  {
    assert line[p] != ESC;
    assert p + 1 < |line| ==> line[p + 1] != BS;
    assert sc(line, p) == Glyph(1, 1);
    assert Decode(sc, line, p) == Glyph(1, 1);
  }

  /** "_", backspace, "X", backspace, "X": a bold underlined X. */
  const UNDERLINED_BOLD_X: seq<Byte> := [0x5f, BS, 0x58, BS, 0x58]

  /** An overstrike pair whose second character opens another pair is not tame: the step at
      0 lands on the first "X", and stepping again from there lands on the second. */
  lemma UnderlinedBoldNotTame(sc: Scanner)
    requires Ascii(sc)
    ensures !Tame(sc, UNDERLINED_BOLD_X)
  {
    var line := UNDERLINED_BOLD_X;
    assert sc(line, 0) == Glyph(1, 1) && sc(line, 2) == Glyph(1, 1) && sc(line, 4) == Glyph(1, 1);
    assert Step(sc, line, 0) == Probe(2, 1, 1);
    assert Step(sc, line, 2) == Probe(4, 1, 1);
    assert !TameAt(sc, line, 0);
  }

  /** The glyph at p is the single byte at p, one column wide. */
  ghost predicate Unit(sc: Scanner, line: seq<Byte>, p: nat)
  {
    p < |line| && Step(sc, line, p) == Probe(p, 1, 1)
  }

  /** The k glyphs from pos on are each one byte, one column wide. */
  ghost predicate Units(sc: Scanner, line: seq<Byte>, pos: nat, k: nat)
  {
    pos + k <= |line| && forall i :: pos <= i < pos + k ==> Step(sc, line, i) == Probe(i, 1, 1)
  }

  lemma PlainUnits(sc: Scanner, line: seq<Byte>, pos: nat, k: nat)
    requires Ascii(sc) && Plain(line) && pos + k <= |line|
    ensures Units(sc, line, pos, k)
  {
    forall i | pos <= i < pos + k
      ensures Step(sc, line, i) == Probe(i, 1, 1)
    {
      AsciiStep(sc, line, i);
    }
  }

  /** A glyph that is one byte and one column wide, and still fits, is accepted. */
  lemma AcceptOne(sc: Scanner, line: seq<Byte>, cols: nat, wordWrap: bool, pos: nat, start: nat, col: nat)
    requires start <= pos < |line| && col + 1 <= cols
    requires Unit(sc, line, pos)
    ensures FoldFrom(sc, line, cols, wordWrap, State(pos, start, col))
         == FoldFrom(sc, line, cols, wordWrap, State(pos + 1, start, col + 1))
  {
    var s := State(pos, start, col);
    var n := State(pos + 1, start, col + 1);
    assert Turn(sc, line, cols, wordWrap, s) == Move(None, n);
    assert FoldFrom(sc, line, cols, wordWrap, s) == [] + FoldFrom(sc, line, cols, wordWrap, n);
  }

  /** Where every byte is a one-column glyph of its own, k glyphs that fit are accepted one
      after the other, reaching the state e. */
  lemma {:induction false} AcceptRun(sc: Scanner, line: seq<Byte>, cols: nat, wordWrap: bool, pos: nat, start: nat, col: nat, k: nat, e: State)
    requires start <= pos && pos + k <= |line| && col + k <= cols
    requires Units(sc, line, pos, k)
    requires e == State(pos + k, start, col + k)
    ensures FoldFrom(sc, line, cols, wordWrap, State(pos, start, col)) == FoldFrom(sc, line, cols, wordWrap, e)
    decreases k
  {
    if k == 0 {
      assert State(pos, start, col) == e;
    } else {
      assert Unit(sc, line, pos);
      AcceptOne(sc, line, cols, wordWrap, pos, start, col);
      AcceptRun(sc, line, cols, wordWrap, pos + 1, start, col + 1, k - 1, e);
    }
  }

  /** A fold that has reached the end of the line pushes what is left of it. */
  lemma FoldFromEnd(sc: Scanner, line: seq<Byte>, cols: nat, wordWrap: bool, start: nat, col: nat)
    requires start < |line|
    ensures FoldFrom(sc, line, cols, wordWrap, State(|line|, start, col)) == [Cut(start, |line|)]
  {
  }

  /** A non-empty line is folded from the very first byte. */
  lemma FoldCutsStart(sc: Scanner, line: seq<Byte>, cols: nat, wordWrap: bool)
    requires |line| > 0
    ensures FoldCuts(sc, line, cols, wordWrap) == FoldFrom(sc, line, cols, wordWrap, State(0, 0, 0))
  {
  }

  lemma HelloWorld12345Plain()
    ensures Plain(HELLO_WORLD_12345)
  {
  }

  lemma HelloWorldFooPlain()
    ensures Plain(HELLO_WORLD_FOO)
  {
  }

  lemma EndDotPlain()
    ensures Plain(END_DOT)
  {
  }

  /** At column ten the '1' does not fit; the word has no space to go back to, so with or
      without word wrap the line is cut before it. */
  lemma HardBreakTurn(sc: Scanner, wordWrap: bool)
    requires Ascii(sc)
    ensures FoldFrom(sc, HELLO_WORLD_12345, 10, wordWrap, State(10, 0, 10))
         == [Cut(0, 10)] + FoldFrom(sc, HELLO_WORLD_12345, 10, wordWrap, State(11, 10, 1))
  {
    var line := HELLO_WORLD_12345;
    HelloWorld12345Plain();
    AsciiStep(sc, line, 10);
    assert line[10..11] == [0x31];
    assert ScanBack(line, 0, 9) == -1 by {
      assert forall k :: 0 <= k < 10 ==> line[k] != SPACE;
    }
    assert Turn(sc, line, 10, wordWrap, State(10, 0, 10)) == Move(Some(Cut(0, 10)), State(11, 10, 1));
  }

  /** At column ten the 'd' does not fit and word wrap goes back to the space at 5. */
  lemma WordWrapTurn(sc: Scanner)
    requires Ascii(sc)
    ensures FoldFrom(sc, HELLO_WORLD_FOO, 10, true, State(10, 0, 10))
         == [Cut(0, 5)] + FoldFrom(sc, HELLO_WORLD_FOO, 10, true, State(6, 6, 0))
  {
    var line := HELLO_WORLD_FOO;
    HelloWorldFooPlain();
    AsciiStep(sc, line, 10);
    assert line[10..11] == [0x64];
    assert ScanBack(line, 0, 9) == 5 by {
      assert line[9] != SPACE && line[8] != SPACE && line[7] != SPACE && line[6] != SPACE;
      assert line[5] == SPACE;
    }
    assert Turn(sc, line, 10, true, State(10, 0, 10)) == Move(Some(Cut(0, 5)), State(6, 6, 0));
  }

  /** At column three the '.' does not fit, but it may not open a line, so it is kept. */
  lemma ClosingTurn(sc: Scanner)
    requires Ascii(sc)
    ensures FoldFrom(sc, END_DOT, 3, false, State(3, 0, 3))
         == [Cut(0, 4)] + FoldFrom(sc, END_DOT, 3, false, State(4, 4, 0))
  {
    var line := END_DOT;
    EndDotPlain();
    AsciiStep(sc, line, 3);
    assert line[3..4] == [0x2e];
    assert SkipSpaces(line, 4) == 4;
    assert Turn(sc, line, 3, false, State(3, 0, 3)) == Move(Some(Cut(0, 4)), State(4, 4, 0));
  }

  lemma HardBreakHead(sc: Scanner, wordWrap: bool)
    requires Ascii(sc)
    ensures FoldFrom(sc, HELLO_WORLD_12345, 10, wordWrap, State(0, 0, 0))
         == FoldFrom(sc, HELLO_WORLD_12345, 10, wordWrap, State(10, 0, 10))
  {
    HelloWorld12345Plain();
    PlainUnits(sc, HELLO_WORLD_12345, 0, 10);
    AcceptRun(sc, HELLO_WORLD_12345, 10, wordWrap, 0, 0, 0, 10, State(10, 0, 10));
  }

  lemma HardBreakTail(sc: Scanner, wordWrap: bool)
    requires Ascii(sc)
    ensures FoldFrom(sc, HELLO_WORLD_12345, 10, wordWrap, State(11, 10, 1)) == [Cut(10, 15)]
  {
    HelloWorld12345Plain();
    PlainUnits(sc, HELLO_WORLD_12345, 11, 4);
    AcceptRun(sc, HELLO_WORLD_12345, 10, wordWrap, 11, 10, 1, 4, State(15, 10, 5));
    FoldFromEnd(sc, HELLO_WORLD_12345, 10, wordWrap, 10, 5);
  }

  lemma WordWrapHead(sc: Scanner)
    requires Ascii(sc)
    ensures FoldFrom(sc, HELLO_WORLD_FOO, 10, true, State(0, 0, 0))
         == FoldFrom(sc, HELLO_WORLD_FOO, 10, true, State(10, 0, 10))
  {
    HelloWorldFooPlain();
    PlainUnits(sc, HELLO_WORLD_FOO, 0, 10);
    AcceptRun(sc, HELLO_WORLD_FOO, 10, true, 0, 0, 0, 10, State(10, 0, 10));
  }

  lemma WordWrapTail(sc: Scanner)
    requires Ascii(sc)
    ensures FoldFrom(sc, HELLO_WORLD_FOO, 10, true, State(6, 6, 0)) == [Cut(6, 15)]
  {
    HelloWorldFooPlain();
    PlainUnits(sc, HELLO_WORLD_FOO, 6, 9);
    AcceptRun(sc, HELLO_WORLD_FOO, 10, true, 6, 6, 0, 9, State(15, 6, 9));
    FoldFromEnd(sc, HELLO_WORLD_FOO, 10, true, 6, 9);
  }

  lemma ClosingHead(sc: Scanner)
    requires Ascii(sc)
    ensures FoldFrom(sc, END_DOT, 3, false, State(0, 0, 0))
         == FoldFrom(sc, END_DOT, 3, false, State(3, 0, 3))
  {
    EndDotPlain();
    PlainUnits(sc, END_DOT, 0, 3);
    AcceptRun(sc, END_DOT, 3, false, 0, 0, 0, 3, State(3, 0, 3));
  }

  /** A long word is cut hard at the width: "helloworld12345" at ten columns gives
      "helloworld" and "12345", with word wrap (no space to go back to) or without. */
  lemma NoWrapHardBreak(sc: Scanner, wordWrap: bool)
    requires Ascii(sc)
    ensures FoldCuts(sc, HELLO_WORLD_12345, 10, wordWrap) == [Cut(0, 10), Cut(10, 15)]
  {
    FoldCutsStart(sc, HELLO_WORLD_12345, 10, wordWrap);
    HardBreakHead(sc, wordWrap);
    HardBreakTurn(sc, wordWrap);
    HardBreakTail(sc, wordWrap);
  }

  /** With word wrap, the line breaks at the last space that fits and the space is dropped:
      "hello world foo" at ten columns gives "hello" and "world foo". */
  lemma WordWrapAtSpace(sc: Scanner)
    requires Ascii(sc)
    ensures FoldCuts(sc, HELLO_WORLD_FOO, 10, true) == [Cut(0, 5), Cut(6, 15)]
  {
    FoldCutsStart(sc, HELLO_WORLD_FOO, 10, true);
    WordWrapHead(sc);
    WordWrapTurn(sc);
    WordWrapTail(sc);
  }

  /** Closing punctuation that does not fit stays on the line it closes: "end." at three
      columns stays whole. */
  lemma ClosingPunctuationStays(sc: Scanner)
    requires Ascii(sc)
    ensures FoldCuts(sc, END_DOT, 3, false) == [Cut(0, 4)]
  {
    FoldCutsStart(sc, END_DOT, 3, false);
    ClosingHead(sc);
    ClosingTurn(sc);
    assert FoldFrom(sc, END_DOT, 3, false, State(4, 4, 0)) == [];
  }

  /** The folded lines of "helloworld12345": "helloworld" and "12345". */
  lemma NoWrapLines(sc: Scanner, wordWrap: bool)
    requires Ascii(sc)
    ensures Slices(HELLO_WORLD_12345, FoldCuts(sc, HELLO_WORLD_12345, 10, wordWrap))
         == [HELLO_WORLD_12345[..10], HELLO_WORLD_12345[10..]]
  {
    NoWrapHardBreak(sc, wordWrap);
    var r := Slices(HELLO_WORLD_12345, [Cut(0, 10), Cut(10, 15)]);
    assert |r| == 2 && r[0] == HELLO_WORLD_12345[..10] && r[1] == HELLO_WORLD_12345[10..];
  }

  /** The folded lines of "hello world foo" with word wrap: "hello" and "world foo". */
  lemma WordWrapLines(sc: Scanner)
    requires Ascii(sc)
    ensures Slices(HELLO_WORLD_FOO, FoldCuts(sc, HELLO_WORLD_FOO, 10, true))
         == [HELLO_WORLD_FOO[..5], HELLO_WORLD_FOO[6..]]
  {
    WordWrapAtSpace(sc);
    var r := Slices(HELLO_WORLD_FOO, [Cut(0, 5), Cut(6, 15)]);
    assert |r| == 2 && r[0] == HELLO_WORLD_FOO[..5] && r[1] == HELLO_WORLD_FOO[6..];
  }

  /** The folded lines of "end." at three columns: the line itself. */
  lemma ClosingLines(sc: Scanner)
    requires Ascii(sc)
    ensures Slices(END_DOT, FoldCuts(sc, END_DOT, 3, false)) == [END_DOT]
  {
    ClosingPunctuationStays(sc);
    var r := Slices(END_DOT, [Cut(0, 4)]);
    assert |r| == 1 && r[0] == END_DOT;
  }
}
