/** The width bound of fold_line (main.cpp:96-163): every segment fits in `cols` columns,
    except that it may end in an overflowing closing-punctuation character, or hold a single
    glyph that is by itself wider than `cols`. */
module FoldWidth {
  import opened Scan
  import opened Segments
  import opened Fold
  import opened Wrappers

  /** The glyph the folder measures at each offset of a line (past the end, nothing). */
  ghost function Stepper(sc: Scanner, line: seq<Byte>): nat -> Probe
  {
    (p: nat) => if p < |line| then Step(sc, line, p) else Probe(p, 0, 0)
  }

  /** What the width argument needs of a stepper over a line of n bytes: every step moves
      forward and stays in the line, and only a step that reaches the end may be empty. */
  ghost predicate Steps(st: nat -> Probe, n: nat)
  {
    forall p: nat :: p < n ==>
      && p <= st(p).at && p < st(p).at + st(p).len <= n
      && (st(p).at < n ==> 1 <= st(p).len)
      && (st(p).at == n ==> st(p).width == 0)
  }

  lemma StepperSteps(sc: Scanner, line: seq<Byte>)
    ensures Steps(Stepper(sc, line), |line|)
  {
    var st := Stepper(sc, line);
    forall p: nat | p < |line|
      ensures && p <= st(p).at && p < st(p).at + st(p).len <= |line|
              && (st(p).at < |line| ==> 1 <= st(p).len)
              && (st(p).at == |line| ==> st(p).width == 0)
    {
      assert st(p) == Step(sc, line, p);
    }
  }

  /** Where the glyph measured at p ends. */
  ghost function End(st: nat -> Probe, p: nat): nat
  {
    st(p).at + st(p).len
  }

  /** The columns of line[lo..hi) as the folder counts them: stepping from lo, the widths of
      the glyphs that end by hi (ESC...m runs and the first glyph and BS of an overstrike pair
      count nothing). */
  ghost function Width(st: nat -> Probe, lo: nat, hi: nat): nat
    decreases hi - lo
  {
    if lo >= hi || End(st, lo) > hi || End(st, lo) <= lo then 0
    else st(lo).width + Width(st, End(st, lo), hi)
  }

  /** Stepping glyph by glyph from lo lands exactly on hi. */
  ghost predicate Reach(st: nat -> Probe, lo: nat, hi: nat)
    decreases hi - lo
  {
    lo == hi || (lo < End(st, lo) <= hi && Reach(st, End(st, lo), hi))
  }

  lemma {:induction false} WidthExtend(st: nat -> Probe, n: nat, lo: nat, m: nat)
    requires Steps(st, n) && m < n && Reach(st, lo, m)
    ensures Reach(st, lo, End(st, m))
    ensures Width(st, lo, End(st, m)) == Width(st, lo, m) + st(m).width
    decreases m - lo
  {
    var e := End(st, m);
    if lo == m {
      assert Width(st, e, e) == 0;
      assert Reach(st, e, e);
    } else {
      var k := End(st, lo);
      WidthExtend(st, n, k, m);
      assert Width(st, lo, e) == st(lo).width + Width(st, k, e);
      assert Width(st, lo, m) == st(lo).width + Width(st, k, m);
    }
  }

  /** Going further than a reached offset, but not past the start of the next glyph, adds nothing. */
  lemma {:induction false} WidthFlat(st: nat -> Probe, n: nat, lo: nat, m: nat, h: nat)
    requires Steps(st, n) && m <= h <= n && Reach(st, lo, m)
    requires m < n ==> h <= st(m).at
    ensures Width(st, lo, h) == Width(st, lo, m)
    decreases m - lo
  {
    if lo == m {
      if m < h && End(st, m) <= h {
        assert Width(st, lo, h) == st(m).width + Width(st, End(st, m), h);
      }
    } else {
      WidthFlat(st, n, End(st, lo), m, h);
    }
  }

  lemma {:induction false} WidthMono(st: nat -> Probe, lo: nat, h1: nat, h2: nat)
    requires h1 <= h2
    ensures Width(st, lo, h1) <= Width(st, lo, h2)
    decreases h2 - lo
  {
    if lo < h1 && lo < End(st, lo) <= h1 {
      WidthMono(st, End(st, lo), h1, h2);
    }
  }

  /** line[lo..hi) fits in `cols` columns, or all of its width is in its first glyph. */
  ghost predicate Narrow(st: nat -> Probe, n: nat, cols: nat, lo: nat, hi: nat)
  {
    || Width(st, lo, hi) <= cols
    || (lo < n && Width(st, End(st, lo), hi) == 0)
  }

  /** The width rule of a folded segment: narrow, or narrow once its final closing
      punctuation character (one or three bytes) is taken off. */
  ghost predicate WithinWidth(st: nat -> Probe, line: seq<Byte>, cols: nat, c: Cut)
    requires c.lo <= c.hi <= |line|
  {
    || Narrow(st, |line|, cols, c.lo, c.hi)
    || (c.hi - c.lo >= 1 && IsInvalidStartChar(line[c.hi - 1..c.hi]) && Narrow(st, |line|, cols, c.lo, c.hi - 1))
    || (c.hi - c.lo >= 3 && IsInvalidStartChar(line[c.hi - 3..c.hi]) && Narrow(st, |line|, cols, c.lo, c.hi - 3))
  }

  /** Every cut lies in the line and obeys the width rule. */
  ghost predicate AllWithin(st: nat -> Probe, line: seq<Byte>, cols: nat, cuts: seq<Cut>)
  {
    forall i :: 0 <= i < |cuts| ==> cuts[i].lo <= cuts[i].hi <= |line| && WithinWidth(st, line, cols, cuts[i])
  }

  lemma AllWithinAppend(st: nat -> Probe, line: seq<Byte>, cols: nat, a: seq<Cut>, b: seq<Cut>)
    requires AllWithin(st, line, cols, a) && AllWithin(st, line, cols, b)
    ensures AllWithin(st, line, cols, a + b)
  {
    forall i | 0 <= i < |a + b|
      ensures (a + b)[i].lo <= (a + b)[i].hi <= |line| && WithinWidth(st, line, cols, (a + b)[i])
    {
      if i >= |a| { assert (a + b)[i] == b[i - |a|]; }
    }
  }

  /** What the fold loop knows about `col`: it is the width of the current segment, and it
      exceeds `cols` only right after a lone over-wide glyph opened the segment. */
  ghost predicate Measured(st: nat -> Probe, n: nat, cols: nat, s: State)
  {
    && s.start <= s.pos <= n
    && Reach(st, s.start, s.pos)
    && s.col == Width(st, s.start, s.pos)
    && (s.col <= cols || (s.start < n && s.pos == End(st, s.start)))
  }

  /** Cutting at an offset h between the loop position and the glyph being measured gives a
      narrow segment. */
  lemma CutNarrow(st: nat -> Probe, n: nat, cols: nat, s: State, h: nat)
    requires Steps(st, n) && Measured(st, n, cols, s) && s.pos < n
    requires s.start <= h <= st(s.pos).at
    ensures Narrow(st, n, cols, s.start, h)
  {
    var at := st(s.pos).at;
    WidthFlat(st, n, s.start, s.pos, at);
    WidthMono(st, s.start, h, at);
    if s.col > cols {
      assert Reach(st, s.pos, s.pos);
      WidthFlat(st, n, s.pos, s.pos, at);
      WidthMono(st, s.pos, h, at);
    }
  }

  /** Accepting a glyph adds its width to `col`. */
  lemma AcceptMeasured(st: nat -> Probe, n: nat, cols: nat, s: State)
    requires Steps(st, n) && Measured(st, n, cols, s) && s.pos < n
    requires s.col + st(s.pos).width <= cols
    ensures Measured(st, n, cols, State(End(st, s.pos), s.start, s.col + st(s.pos).width))
  {
    WidthExtend(st, n, s.start, s.pos);
  }

  /** Breaking hard before a glyph opens the next segment with that glyph alone. */
  lemma HardBreakMeasured(st: nat -> Probe, n: nat, cols: nat, s: State)
    requires Steps(st, n) && s.pos < n
    requires st(s.pos).at < n ==> st(st(s.pos).at) == st(s.pos)
    ensures Measured(st, n, cols, State(End(st, s.pos), st(s.pos).at, st(s.pos).width))
  {
    var g := st(s.pos);
    var e := End(st, s.pos);
    assert Reach(st, e, e) && Width(st, e, e) == 0;
    if g.at < n {
      assert End(st, g.at) == e;
      assert Reach(st, g.at, e) && Width(st, g.at, e) == g.width;
    }
  }

  /** A fresh segment has width 0. */
  lemma FreshMeasured(st: nat -> Probe, n: nat, cols: nat, q: nat)
    requires q <= n
    ensures Measured(st, n, cols, State(q, q, 0))
  {
    assert Reach(st, q, q) && Width(st, q, q) == 0;
  }

  /** The loop's knowledge about `col` survives a turn on the glyph `g`. */
  lemma AdvanceMeasuredAt(st: nat -> Probe, line: seq<Byte>, cols: nat, wordWrap: bool, s: State, g: Probe)
    requires Steps(st, |line|) && Measured(st, |line|, cols, s) && s.pos < |line|
    requires st(s.pos) == g && Measures(line, s.pos, g)
    requires g.at < |line| ==> st(g.at) == g
    ensures Measured(st, |line|, cols, Advance(line, cols, wordWrap, s, g).next)
  {
    var m := Advance(line, cols, wordWrap, s, g);
    var ch := line[g.at..g.at + g.len];
    if s.col + g.width <= cols {
      AdvanceAccept(line, cols, wordWrap, s, g);
      AcceptMeasured(st, |line|, cols, s);
    } else if IsInvalidStartChar(ch) {
      AdvanceClosing(line, cols, wordWrap, s, g);
      FreshMeasured(st, |line|, cols, m.next.pos);
    } else if ch == [SPACE] {
      AdvanceSpace(line, cols, wordWrap, s, g);
      FreshMeasured(st, |line|, cols, m.next.pos);
    } else if wordWrap && ScanBack(line, s.start, g.at - 1) >= s.start {
      AdvanceWrap(line, cols, wordWrap, s, g);
      FreshMeasured(st, |line|, cols, m.next.pos);
    } else {
      AdvanceHard(line, cols, wordWrap, s, g);
      HardBreakMeasured(st, |line|, cols, s);
    }
  }

  /** The loop's knowledge about `col` survives every turn. */
  lemma AdvanceMeasured(sc: Scanner, line: seq<Byte>, cols: nat, wordWrap: bool, s: State)
    requires Measured(Stepper(sc, line), |line|, cols, s) && s.pos < |line| && TameAt(sc, line, s.pos)
    ensures Measured(Stepper(sc, line), |line|, cols, Turn(sc, line, cols, wordWrap, s).next)
  {
    var st := Stepper(sc, line);
    StepperSteps(sc, line);
    var g := Step(sc, line, s.pos);
    assert st(s.pos) == g;
    if g.at < |line| {
      assert st(g.at) == Step(sc, line, g.at);
    }
    AdvanceMeasuredAt(st, line, cols, wordWrap, s, g);
  }

  /** The four outcomes of a turn for the segment it pushes: nothing, up to and including
      closing punctuation, up to the glyph, or up to the last space (word wrap). */
  lemma AdvanceEmit(line: seq<Byte>, cols: nat, wordWrap: bool, s: State, g: Probe)
    requires s.start <= s.pos < |line| && Measures(line, s.pos, g)
    ensures var e := g.at + g.len;
      var m := Advance(line, cols, wordWrap, s, g);
      || m.emit.None?
      || (IsInvalidStartChar(line[g.at..e]) && m.emit == Some(Cut(s.start, e)))
      || (s.col + g.width > cols && m.emit == Some(Cut(s.start, g.at)))
      || (s.col + g.width > cols && s.start <= ScanBack(line, s.start, g.at - 1)
          && m.emit == Some(Cut(s.start, ScanBack(line, s.start, g.at - 1))))
  {
    var ch := line[g.at..g.at + g.len];
    if s.col + g.width <= cols {
      AdvanceAccept(line, cols, wordWrap, s, g);
    } else if IsInvalidStartChar(ch) {
      AdvanceClosing(line, cols, wordWrap, s, g);
    } else if ch == [SPACE] {
      AdvanceSpace(line, cols, wordWrap, s, g);
    } else if wordWrap && ScanBack(line, s.start, g.at - 1) >= s.start {
      AdvanceWrap(line, cols, wordWrap, s, g);
    } else {
      AdvanceHard(line, cols, wordWrap, s, g);
    }
  }

  /** A narrow segment obeys the width rule. */
  lemma NarrowWithin(st: nat -> Probe, line: seq<Byte>, cols: nat, c: Cut)
    requires c.lo <= c.hi <= |line| && Narrow(st, |line|, cols, c.lo, c.hi)
    ensures WithinWidth(st, line, cols, c)
  {
  }

  /** A narrow segment followed by closing punctuation obeys the width rule. */
  lemma ClosingWithin(st: nat -> Probe, line: seq<Byte>, cols: nat, lo: nat, at: nat, e: nat)
    requires lo <= at <= e <= |line| && IsInvalidStartChar(line[at..e]) && Narrow(st, |line|, cols, lo, at)
    ensures WithinWidth(st, line, cols, Cut(lo, e))
  {
    assert line[e - (e - at)..e] == line[at..e];
  }

  /** Every segment a turn on the glyph `g` pushes obeys the width rule. */
  lemma AdvanceWithinAt(st: nat -> Probe, line: seq<Byte>, cols: nat, wordWrap: bool, s: State, g: Probe)
    requires Steps(st, |line|) && Measured(st, |line|, cols, s) && s.pos < |line|
    requires st(s.pos) == g && Measures(line, s.pos, g)
    ensures var m := Advance(line, cols, wordWrap, s, g);
      m.emit.Some? ==> m.emit.value.lo <= m.emit.value.hi <= |line| && WithinWidth(st, line, cols, m.emit.value)
  {
    var e := g.at + g.len;
    var m := Advance(line, cols, wordWrap, s, g);
    AdvanceEmit(line, cols, wordWrap, s, g);
    if m.emit.None? {
    } else if IsInvalidStartChar(line[g.at..e]) && m.emit == Some(Cut(s.start, e)) {
      CutNarrow(st, |line|, cols, s, g.at);
      ClosingWithin(st, line, cols, s.start, g.at, e);
    } else if m.emit == Some(Cut(s.start, g.at)) {
      CutNarrow(st, |line|, cols, s, g.at);
      NarrowWithin(st, line, cols, Cut(s.start, g.at));
    } else {
      var p2 := ScanBack(line, s.start, g.at - 1);
      assert m.emit == Some(Cut(s.start, p2));
      CutNarrow(st, |line|, cols, s, p2);
      NarrowWithin(st, line, cols, Cut(s.start, p2));
    }
  }

  /** Every segment a turn pushes obeys the width rule. */
  lemma AdvanceWithin(sc: Scanner, line: seq<Byte>, cols: nat, wordWrap: bool, s: State)
    requires Measured(Stepper(sc, line), |line|, cols, s) && s.pos < |line|
    ensures var m := Turn(sc, line, cols, wordWrap, s);
      m.emit.Some? ==>
      m.emit.value.lo <= m.emit.value.hi <= |line| && WithinWidth(Stepper(sc, line), line, cols, m.emit.value)
  {
    var st := Stepper(sc, line);
    StepperSteps(sc, line);
    var g := Step(sc, line, s.pos);
    assert st(s.pos) == g;
    AdvanceWithinAt(st, line, cols, wordWrap, s, g);
  }

  lemma {:induction false} FoldFromWithinWidth(sc: Scanner, line: seq<Byte>, cols: nat, wordWrap: bool, s: State)
    requires Tame(sc, line) && Measured(Stepper(sc, line), |line|, cols, s)
    ensures AllWithin(Stepper(sc, line), line, cols, FoldFrom(sc, line, cols, wordWrap, s))
    decreases |line| - s.start, |line| - s.pos
  {
    if s.pos < |line| {
      var st := Stepper(sc, line);
      var m := Turn(sc, line, cols, wordWrap, s);
      assert TameAt(sc, line, s.pos);
      AdvanceMeasured(sc, line, cols, wordWrap, s);
      AdvanceWithin(sc, line, cols, wordWrap, s);
      FoldFromWithinWidth(sc, line, cols, wordWrap, m.next);
      var head := Emitted(m.emit);
      var rest := FoldFrom(sc, line, cols, wordWrap, m.next);
      assert FoldFrom(sc, line, cols, wordWrap, s) == head + rest;
      assert AllWithin(st, line, cols, head);
      AllWithinAppend(st, line, cols, head, rest);
    }
  }

  /** On a tame line (in particular on any line without ESC and BS bytes), every segment
      fold_line produces obeys the width rule. */
  lemma FoldWithinWidth(sc: Scanner, line: seq<Byte>, cols: nat, wordWrap: bool)
    requires Tame(sc, line)
    ensures AllWithin(Stepper(sc, line), line, cols, FoldCuts(sc, line, cols, wordWrap))
  {
    var st := Stepper(sc, line);
    if |line| > 0 {
      FreshMeasured(st, |line|, cols, 0);
      FoldFromWithinWidth(sc, line, cols, wordWrap, State(0, 0, 0));
      assert FoldCuts(sc, line, cols, wordWrap) == FoldFrom(sc, line, cols, wordWrap, State(0, 0, 0));
    } else {
      assert Narrow(st, |line|, cols, 0, 0);
    }
  }
}
