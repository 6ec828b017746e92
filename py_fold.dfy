/** fold_line of immersion.py (immersion.py:45-109): a line of code points cut into display
    segments of at most `cols` columns, with the closing-punctuation, space, word-wrap and
    hard-break rules, and the IndexError an overstrike pair at the very end raises. */
module PyFold {
  import opened Wrappers
  import opened Segments
  import opened PyText

  /** The variables of the fold loop. */
  datatype Cursor = Cursor(pos: nat, start: nat, col: nat)

  /** One turn of the loop: the segment it appends, if any, and the variables it leaves. */
  datatype Turn = Turn(emit: Option<Cut>, next: Cursor)

  /** Every kept character of a segment is in it; leftovers are spaces, a run of several
      only after a segment that ends in closing punctuation. */
  ghost predicate PyFolded(line: seq<char>, cuts: seq<Cut>, from: nat)
    decreases |cuts|
  {
    && Tiling(line, cuts, from, ' ')
    && (cuts != [] ==>
          && (Next(line, cuts) - cuts[0].hi <= 1
              || (cuts[0].lo < cuts[0].hi && IsInvalidStartChar(line[cuts[0].hi - 1])))
          && PyFolded(line, cuts[1..], Next(line, cuts)))
  }

  lemma PyFoldedCons(line: seq<char>, c: Cut, next: nat, rest: seq<Cut>)
    requires c.lo <= c.hi <= next <= |line|
    requires Blank(line, c.hi, next, ' ')
    requires next - c.hi <= 1 || (c.lo < c.hi && IsInvalidStartChar(line[c.hi - 1]))
    requires PyFolded(line, rest, next)
    ensures PyFolded(line, [c] + rest, c.lo)
  {
    var cuts := [c] + rest;
    assert cuts[1..] == rest;
    assert rest != [] ==> cuts[1] == rest[0];
  }

  /** The run of spaces after closing punctuation (immersion.py:72-75). */
  function SkipSpaces(line: seq<char>, pos: nat): (r: nat)
    requires pos <= |line|
    ensures pos <= r <= |line| && Blank(line, pos, r, ' ')
    ensures r < |line| ==> line[r] != ' '
    decreases |line| - pos
  {
    if pos < |line| && line[pos] == ' ' then SkipSpaces(line, pos + 1) else pos
  }

  /** The backward word-wrap scan (immersion.py:85-89) with Python's signed indices: the
      nearest space in line[start..pos2], or start - 1 when there is none. It reads only
      offsets in [start, pos2]. */
  function ScanBack(line: seq<char>, start: nat, pos2: int): (r: int)
    requires start - 1 <= pos2 < |line|
    ensures start - 1 <= r <= pos2
    ensures r >= start ==> line[r] == ' '
    ensures forall k :: r < k <= pos2 ==> line[k] != ' '
    decreases pos2 + 1
  {
    if pos2 < start then pos2
    else if line[pos2] == ' ' then pos2
    else ScanBack(line, start, pos2 - 1)
  }

  /** Whether the character at `pos` opens an overstrike pair. */
  predicate PairAt(line: seq<char>, pos: nat)
  {
    pos + 1 < |line| && line[pos + 1] == BACKSPACE
  }

  /** Where the character the turn measures sits: after the pair's first character and
      backspace, or at `pos`. */
  function MeasuredAt(line: seq<char>, pos: nat): nat
  {
    if PairAt(line, pos) then pos + 2 else pos
  }

  /** The break rules (immersion.py:65-104), once the character at `at` has been measured
      `w` columns wide. */
  function Decide(line: seq<char>, cols: int, wordWrap: bool, s: Cursor, at: nat, w: nat): Turn
    requires s.start <= s.pos <= at < |line|
  {
    var c := line[at];
    if s.col + w <= cols then Turn(None, Cursor(at + 1, s.start, s.col + w))
    else if IsInvalidStartChar(c) then
      var e := SkipSpaces(line, at + 1);
      Turn(Some(Cut(s.start, at + 1)), Cursor(e, e, 0))
    else if c == ' ' then Turn(Some(Cut(s.start, at)), Cursor(at + 1, at + 1, 0))
    else if wordWrap then
      var pos2 := ScanBack(line, s.start, at - 1);
      if pos2 < s.start then Turn(Some(Cut(s.start, at)), Cursor(at + 1, at, w))
      else Turn(Some(Cut(s.start, pos2)), Cursor(pos2 + 1, pos2 + 1, 0))
    else Turn(Some(Cut(s.start, at)), Cursor(at + 1, at, w))
  }

  /** What happens to a character that does not fit (immersion.py:68-104). Closing
      punctuation stays in the segment and the spaces after it are skipped. A space ends the
      segment and is dropped. With word wrap the segment ends before the nearest space
      since its start, which is dropped and folding resumes after it; without one, or
      without word wrap, the segment ends before the character, which opens the next
      segment with its own width counted. */
  lemma OverflowRules(line: seq<char>, cols: int, wordWrap: bool, s: Cursor, at: nat, w: nat)
    requires s.start <= s.pos <= at < |line| && s.col + w > cols
    ensures var t := Decide(line, cols, wordWrap, s, at, w);
      && (IsInvalidStartChar(line[at]) ==>
            && t.emit == Some(Cut(s.start, at + 1)) && t.next.pos == t.next.start && t.next.col == 0
            && at + 1 <= t.next.start <= |line| && Blank(line, at + 1, t.next.start, ' ')
            && (t.next.start < |line| ==> line[t.next.start] != ' '))
      && (line[at] == ' ' ==> t == Turn(Some(Cut(s.start, at)), Cursor(at + 1, at + 1, 0)))
      && (!IsInvalidStartChar(line[at]) && line[at] != ' ' && wordWrap ==>
            && t.emit.Some? && t.emit.value.lo == s.start
            && (t.emit.value.hi < at ==>
                  && s.start <= t.emit.value.hi && line[t.emit.value.hi] == ' '
                  && (forall k :: t.emit.value.hi < k < at ==> line[k] != ' ')
                  && t.next == Cursor(t.emit.value.hi + 1, t.emit.value.hi + 1, 0))
            && (t.emit.value.hi >= at ==>
                  && t.emit.value.hi == at
                  && (forall k :: s.start <= k < at ==> line[k] != ' ')
                  && t.next == Cursor(at + 1, at, w)))
      && (!IsInvalidStartChar(line[at]) && line[at] != ' ' && !wordWrap ==>
            t == Turn(Some(Cut(s.start, at)), Cursor(at + 1, at, w)))
  {
  }

  /** One turn of the loop (immersion.py:58-104). An overstrike pair that ends the line
      leaves `pos` at the end, and `line[pos]` raises IndexError. */
  function FoldTurn(wide: char -> bool, line: seq<char>, cols: int, wordWrap: bool, s: Cursor): (r: Raised<Turn>)
    requires s.start <= s.pos < |line|
    ensures r.IndexError? <==> PairAt(line, s.pos) && s.pos + 2 == |line|
  {
    var at := MeasuredAt(line, s.pos);
    if at >= |line| then IndexError else Returned(Decide(line, cols, wordWrap, s, at, ColumnLen(wide, line[at])))
  }

  /** Whatever the break rule, the turn keeps start <= pos <= |line| and makes progress. */
  lemma DecideFacts(line: seq<char>, cols: int, wordWrap: bool, s: Cursor, at: nat, w: nat)
    requires s.start <= s.pos <= at < |line|
    ensures var t := Decide(line, cols, wordWrap, s, at, w);
      && t.next.start <= t.next.pos <= |line|
      && (s.start < t.next.start || (s.start == t.next.start && s.pos < t.next.pos))
      && (t.emit.None? ==> t.next.start == s.start)
      && (t.emit.Some? ==>
            && t.emit.value.lo == s.start <= t.emit.value.hi <= t.next.start
            && Blank(line, t.emit.value.hi, t.next.start, ' ')
            && (t.next.start - t.emit.value.hi <= 1
                || (t.emit.value.lo < t.emit.value.hi && IsInvalidStartChar(line[t.emit.value.hi - 1]))))
  {
  }

  /** A turn keeps start <= pos <= |line| and makes progress: the segment start moves on, or
      it stays and pos moves on. The segment it appends begins at the old start, and what it
      leaves out before the new start is spaces, more than one only after closing
      punctuation. */
  lemma TurnFacts(wide: char -> bool, line: seq<char>, cols: int, wordWrap: bool, s: Cursor)
    requires s.start <= s.pos < |line|
    requires FoldTurn(wide, line, cols, wordWrap, s).Returned?
    ensures var t := FoldTurn(wide, line, cols, wordWrap, s).value;
      && t.next.start <= t.next.pos <= |line|
      && (s.start < t.next.start || (s.start == t.next.start && s.pos < t.next.pos))
      && (t.emit.None? ==> t.next.start == s.start)
      && (t.emit.Some? ==>
            && t.emit.value.lo == s.start <= t.emit.value.hi <= t.next.start
            && Blank(line, t.emit.value.hi, t.next.start, ' ')
            && (t.next.start - t.emit.value.hi <= 1
                || (t.emit.value.lo < t.emit.value.hi && IsInvalidStartChar(line[t.emit.value.hi - 1]))))
  {
    var at := MeasuredAt(line, s.pos);
    DecideFacts(line, cols, wordWrap, s, at, ColumnLen(wide, line[at]));
  }

  /** The segments the loop still appends from a state, the trailing one included, or
      IndexError when a later turn raises. */
  function FoldFrom(wide: char -> bool, line: seq<char>, cols: int, wordWrap: bool, s: Cursor): Raised<seq<Cut>>
    requires s.start <= s.pos <= |line|
    decreases |line| - s.start, |line| - s.pos
  {
    if s.pos >= |line| then Returned(if s.start < s.pos then [Cut(s.start, s.pos)] else [])
    else
      match FoldTurn(wide, line, cols, wordWrap, s)
      case IndexError => IndexError
      case Returned(t) =>
        TurnFacts(wide, line, cols, wordWrap, s);
        match FoldFrom(wide, line, cols, wordWrap, t.next)
        case IndexError => IndexError
        case Returned(rest) => Returned(Emitted(t.emit) + rest)
  }

  /** The cut a turn appends, as a list. */
  function Emitted(cut: Option<Cut>): seq<Cut>
  {
    if cut.Some? then [cut.value] else []
  }

  /** The segments still to come tile the rest of the line from the current start. */
  lemma {:induction false} FoldFromFolded(wide: char -> bool, line: seq<char>, cols: int, wordWrap: bool, s: Cursor)
    requires s.start <= s.pos <= |line|
    requires FoldFrom(wide, line, cols, wordWrap, s).Returned?
    ensures PyFolded(line, FoldFrom(wide, line, cols, wordWrap, s).value, s.start)
    decreases |line| - s.start, |line| - s.pos
  {
    if s.pos < |line| {
      var t := FoldTurn(wide, line, cols, wordWrap, s).value;
      TurnFacts(wide, line, cols, wordWrap, s);
      var rest := FoldFrom(wide, line, cols, wordWrap, t.next).value;
      FoldFromFolded(wide, line, cols, wordWrap, t.next);
      if t.emit.Some? {
        assert FoldFrom(wide, line, cols, wordWrap, s).value == [t.emit.value] + rest;
        PyFoldedCons(line, t.emit.value, t.next.start, rest);
      } else {
        assert FoldFrom(wide, line, cols, wordWrap, s).value == rest;
      }
    } else if s.start < s.pos {
      PyFoldedCons(line, Cut(s.start, s.pos), |line|, []);
    }
  }

  /** The loop raises exactly when a turn reaches an overstrike pair that ends the line. */
  lemma {:induction false} FoldFromRaises(wide: char -> bool, line: seq<char>, cols: int, wordWrap: bool, s: Cursor)
    requires s.start <= s.pos <= |line|
    requires |line| < 2 || line[|line| - 1] != BACKSPACE
    ensures FoldFrom(wide, line, cols, wordWrap, s).Returned?
    decreases |line| - s.start, |line| - s.pos
  {
    if s.pos < |line| {
      TurnFacts(wide, line, cols, wordWrap, s);
      FoldFromRaises(wide, line, cols, wordWrap, FoldTurn(wide, line, cols, wordWrap, s).value.next);
    }
  }

  /** fold_line: [""] for an empty line, otherwise the segments of the loop. */
  function FoldCuts(wide: char -> bool, line: seq<char>, cols: int, wordWrap: bool): (r: Raised<seq<Cut>>)
    ensures r.Returned? ==> PyFolded(line, r.value, 0) && InRange(line, r.value)
    ensures |line| == 0 ==> r == Returned([Cut(0, 0)])
  {
    if |line| == 0 then Returned([Cut(0, 0)])
    else
      var r := FoldFrom(wide, line, cols, wordWrap, Cursor(0, 0, 0));
      if r.Returned? then
        FoldFromFolded(wide, line, cols, wordWrap, Cursor(0, 0, 0));
        TilingInRange(line, r.value, 0, ' ');
        r
      else r
  }

  /** A line that does not end in a backspace folds without raising. */
  lemma FoldCutsReturns(wide: char -> bool, line: seq<char>, cols: int, wordWrap: bool)
    requires |line| == 0 || line[|line| - 1] != BACKSPACE
    ensures FoldCuts(wide, line, cols, wordWrap).Returned?
  {
    if |line| > 0 {
      FoldFromRaises(wide, line, cols, wordWrap, Cursor(0, 0, 0));
    }
  }

  /** What fold_line returns: the text of each segment, or the IndexError it raises. */
  function FoldedText(line: seq<char>, r: Raised<seq<Cut>>): Raised<seq<seq<char>>>
    requires r.Returned? ==> InRange(line, r.value)
  {
    if r.IndexError? then IndexError else Returned(Slices(line, r.value))
  }

  /** The head of a turn (immersion.py:58-63): the character to measure, after the first
      character and backspace of an overstrike pair; `raised` when that reads past the end. */
  method Measure(wide: char -> bool, line: seq<char>, pos0: nat) returns (raised: bool, pos: nat, colLen: nat)
    requires pos0 < |line|
    ensures raised <==> MeasuredAt(line, pos0) >= |line|
    ensures !raised ==> pos == MeasuredAt(line, pos0) && colLen == ColumnLen(wide, line[pos])
  {
    pos := pos0;
    var c := line[pos];
    colLen := ColumnLen(wide, c);
    if pos + 1 < |line| && line[pos + 1] == BACKSPACE {
      pos := pos + 2;
      if pos >= |line| {
        return true, pos, colLen;
      }
      c := line[pos];
      colLen := ColumnLen(wide, c);
    }
    raised := false;
  }

  /** The break rules as immersion.py:65-104 run them. */
  method DecideStep(line: seq<char>, cols: int, wordWrap: bool, ghost pos0: nat, start0: nat, col0: nat, at: nat, colLen: nat)
    returns (cut: Option<Cut>, pos: nat, start: nat, col: nat)
    requires start0 <= pos0 <= at < |line|
    ensures Turn(cut, Cursor(pos, start, col)) == Decide(line, cols, wordWrap, Cursor(pos0, start0, col0), at, colLen)
  {
    pos, start, col, cut := at, start0, col0, None;
    var c := line[pos];
    if col + colLen <= cols {
      col := col + colLen;
      pos := pos + 1;
    } else if IsInvalidStartChar(c) {
      pos := pos + 1;
      cut := Some(Cut(start, pos));
      while pos < |line|
        invariant at < pos <= |line|
        invariant SkipSpaces(line, at + 1) == SkipSpaces(line, pos)
        decreases |line| - pos
      {
        if line[pos] != ' ' {
          break;
        }
        pos := pos + 1;
      }
      start := pos;
      col := 0;
    } else if c == ' ' {
      cut := Some(Cut(start, pos));
      pos := pos + 1;
      start := pos;
      col := 0;
    } else if wordWrap {
      var pos2: int := pos - 1;
      while start <= pos2
        invariant start - 1 <= pos2 < pos
        invariant ScanBack(line, start, pos2) == ScanBack(line, start, pos - 1)
        decreases pos2 + 1
      {
        if line[pos2] == ' ' {
          break;
        }
        pos2 := pos2 - 1;
      }
      if pos2 < start {
        cut := Some(Cut(start, pos));
        start := pos;
        col := colLen;
        pos := pos + 1;
      } else {
        cut := Some(Cut(start, pos2));
        start := pos2 + 1;
        col := 0;
        pos := pos2 + 1;
      }
    } else {
      cut := Some(Cut(start, pos));
      start := pos;
      col := colLen;
      pos := pos + 1;
    }
  }

  /** The segments a turn appends ahead of those that follow, or IndexError when those raise. */
  function Then(emit: Option<Cut>, r: Raised<seq<Cut>>): Raised<seq<Cut>>
  {
    if r.IndexError? then IndexError else Returned(Emitted(emit) + r.value)
  }

  /** A turn that does not raise hands the rest of the fold to the state it leaves. */
  lemma FoldFromTurn(wide: char -> bool, line: seq<char>, cols: int, wordWrap: bool, s: Cursor)
    requires s.start <= s.pos < |line|
    requires FoldTurn(wide, line, cols, wordWrap, s).Returned?
    ensures var t := FoldTurn(wide, line, cols, wordWrap, s).value;
      && t.next.start <= t.next.pos <= |line|
      && FoldFrom(wide, line, cols, wordWrap, s) == Then(t.emit, FoldFrom(wide, line, cols, wordWrap, t.next))
  {
    TurnFacts(wide, line, cols, wordWrap, s);
  }

  /** The segments done followed by those to come, or IndexError when those raise. */
  function Prepend(done: seq<Cut>, r: Raised<seq<Cut>>): Raised<seq<Cut>>
  {
    if r.IndexError? then IndexError else Returned(done + r.value)
  }

  lemma PrependThen(done: seq<Cut>, emit: Option<Cut>, r: Raised<seq<Cut>>)
    ensures Prepend(done, Then(emit, r)) == Prepend(done + Emitted(emit), r)
  {
    if r.Returned? {
      SeqAssoc(done, Emitted(emit), r.value);
    }
  }

  /** `rest` gives, for every loop state, the segments the loop still appends. */
  ghost predicate RestIsFold(wide: char -> bool, line: seq<char>, cols: int, wordWrap: bool, rest: Cursor -> Raised<seq<Cut>>)
  {
    forall c: Cursor {:trigger FoldFrom(wide, line, cols, wordWrap, c)} ::
      c.start <= c.pos <= |line| ==> rest(c) == FoldFrom(wide, line, cols, wordWrap, c)
  }

  /** One turn of the loop (immersion.py:58-104), stated over any `rest` that agrees with
      FoldFrom: a turn that raises raises the whole fold, any other one keeps
      start <= pos <= |line|, makes progress and moves its cut from the segments to come to
      the segments done. */
  method FoldStep(wide: char -> bool, line: seq<char>, cols: int, wordWrap: bool, pos0: nat, start0: nat, col0: nat,
                  ghost rest: Cursor -> Raised<seq<Cut>>)
    returns (raised: bool, cut: Option<Cut>, pos: nat, start: nat, col: nat)
    requires start0 <= pos0 < |line|
    requires RestIsFold(wide, line, cols, wordWrap, rest)
    ensures raised ==> rest(Cursor(pos0, start0, col0)) == IndexError
    ensures !raised ==> && start <= pos <= |line|
                        && (start0 < start || (start0 == start && pos0 < pos))
                        && (cut.Some? ==> cut.value.lo <= cut.value.hi <= |line|)
                        && rest(Cursor(pos0, start0, col0)) == Then(cut, rest(Cursor(pos, start, col)))
  {
    ghost var s := Cursor(pos0, start0, col0);
    var at, colLen;
    raised, at, colLen := Measure(wide, line, pos0);
    if raised {
      assert FoldFrom(wide, line, cols, wordWrap, s) == IndexError;
      return true, None, pos0, start0, col0;
    }
    cut, pos, start, col := DecideStep(line, cols, wordWrap, pos0, start0, col0, at, colLen);
    TurnFacts(wide, line, cols, wordWrap, s);
    FoldFromTurn(wide, line, cols, wordWrap, s);
  }

  /** The loop of fold_line (immersion.py:52-107) for a non-empty line. */
  method FoldLoop(wide: char -> bool, line: seq<char>, cols: int, wordWrap: bool, ghost rest: Cursor -> Raised<seq<Cut>>)
    returns (r: Raised<seq<seq<char>>>)
    requires RestIsFold(wide, line, cols, wordWrap, rest)
    ensures var cuts := rest(Cursor(0, 0, 0));
      && (cuts.Returned? ==> InRange(line, cuts.value))
      && r == FoldedText(line, cuts)
  {
    var pos: nat, start: nat, col: nat := 0, 0, 0;
    var lines: seq<seq<char>> := [];
    ghost var done: seq<Cut> := [];
    ghost var all := rest(Cursor(0, 0, 0));
    assert all.Returned? ==> done + all.value == all.value;
    while pos < |line|
      invariant start <= pos <= |line|
      invariant InRange(line, done) && lines == Slices(line, done)
      invariant all == Prepend(done, rest(Cursor(pos, start, col)))
      decreases |line| - start, |line| - pos
    {
      var raised, cut;
      raised, cut, pos, start, col := FoldStep(wide, line, cols, wordWrap, pos, start, col, rest);
      if raised {
        return IndexError;
      }
      PrependThen(done, cut, rest(Cursor(pos, start, col)));
      if cut.Some? {
        SlicesAppend(line, done, cut.value);
        lines := lines + [line[cut.value.lo..cut.value.hi]];
        done := done + [cut.value];
      } else {
        assert done + Emitted(cut) == done;
      }
    }
    assert FoldFrom(wide, line, cols, wordWrap, Cursor(pos, start, col)) == Returned(if start < pos then [Cut(start, pos)] else []);
    if start < pos {
      SlicesAppend(line, done, Cut(start, pos));
      lines := lines + [line[start..pos]];
      done := done + [Cut(start, pos)];
    } else {
      assert done + [] == done;
    }
    return Returned(lines);
  }

  /** An overstrike pair at the very end of the line: fold_line raises IndexError. */
  lemma TrailingPairRaises(wide: char -> bool, cols: int, wordWrap: bool)
    ensures FoldCuts(wide, ['a', BACKSPACE], cols, wordWrap) == IndexError
  {
    var line := ['a', BACKSPACE];
    assert PairAt(line, 0);
    assert FoldFrom(wide, line, cols, wordWrap, Cursor(0, 0, 0)) == IndexError;
  }

  /** fold_line (immersion.py:45-109). */
  method FoldLine(wide: char -> bool, line: seq<char>, cols: int, wordWrap: bool) returns (r: Raised<seq<seq<char>>>)
    ensures r == FoldedText(line, FoldCuts(wide, line, cols, wordWrap))
  {
    if |line| == 0 {
      assert Slices(line, [Cut(0, 0)]) == [line];
      return Returned([""]);
    }
    r := FoldLoop(wide, line, cols, wordWrap,
                  (c: Cursor) => if c.start <= c.pos <= |line| then FoldFrom(wide, line, cols, wordWrap, c) else IndexError);
  }
}
