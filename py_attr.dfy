/** to_attributed_line of immersion.py (immersion.py:111-128): a folded segment turned into
    one (character, curses attribute) pair per character, with the backspace overstrike
    rules; a pair at the very end raises IndexError. */
module PyAttr {
  import opened PyText

  /** curses.A_NORMAL, A_UNDERLINE and A_BOLD. */
  datatype CursesAttr = Normal | Underline | Bold

  /** One (character, attribute) pair of the result. */
  datatype Cell = Cell(ch: char, attr: CursesAttr)

  /** What an overstrike pair c, backspace, c2 gives (immersion.py:120-123): an underlined c2
      after '_', a bold c2 when c2 repeats c, both for '_', backspace, '_'. */
  function OverstrikeCells(c: char, c2: char): seq<Cell>
  {
    (if c == '_' then [Cell(c2, Underline)] else []) + (if c == c2 then [Cell(c2, Bold)] else [])
  }

  /** The four overstrike cases. */
  lemma OverstrikeRules(c: char, c2: char)
    ensures c == '_' && c2 != '_' ==> OverstrikeCells(c, c2) == [Cell(c2, Underline)]
    ensures c != '_' && c == c2 ==> OverstrikeCells(c, c2) == [Cell(c2, Bold)]
    ensures c == '_' && c2 == '_' ==> OverstrikeCells(c, c2) == [Cell('_', Underline), Cell('_', Bold)]
    ensures c != '_' && c != c2 ==> OverstrikeCells(c, c2) == []
  {
  }

  /** The cells the loop still appends from `pos`, or IndexError. */
  function CellsFrom(line: seq<char>, pos: nat): Raised<seq<Cell>>
    requires pos <= |line|
    decreases |line| - pos
  {
    if pos >= |line| then Returned([])
    else if pos + 1 < |line| && line[pos + 1] == BACKSPACE then
      if pos + 2 >= |line| then IndexError
      else Ahead(OverstrikeCells(line[pos], line[pos + 2]), CellsFrom(line, pos + 3))
    else Ahead([Cell(line[pos], Normal)], CellsFrom(line, pos + 1))
  }

  /** The cells `head` ahead of those in `r`, or IndexError when `r` is one. */
  function Ahead(head: seq<Cell>, r: Raised<seq<Cell>>): Raised<seq<Cell>>
  {
    if r.IndexError? then IndexError else Returned(head + r.value)
  }

  /** to_attributed_line. */
  function AttributedLine(line: seq<char>): Raised<seq<Cell>>
  {
    CellsFrom(line, 0)
  }

  /** At most one cell per character: each ordinary character gives one, an overstrike pair
      of three characters at most two. */
  lemma {:induction false} CellsFromBound(line: seq<char>, pos: nat)
    requires pos <= |line| && CellsFrom(line, pos).Returned?
    ensures |CellsFrom(line, pos).value| <= |line| - pos
    decreases |line| - pos
  {
    if pos < |line| {
      if pos + 1 < |line| && line[pos + 1] == BACKSPACE {
        CellsFromBound(line, pos + 3);
      } else {
        CellsFromBound(line, pos + 1);
      }
    }
  }

  /** A line without backspaces gives each of its characters with A_NORMAL. */
  lemma {:induction false} PlainCells(line: seq<char>, pos: nat)
    requires pos <= |line|
    requires forall k :: pos <= k < |line| ==> line[k] != BACKSPACE
    ensures CellsFrom(line, pos).Returned?
    ensures |CellsFrom(line, pos).value| == |line| - pos
    ensures forall i :: 0 <= i < |line| - pos ==> CellsFrom(line, pos).value[i] == Cell(line[pos + i], Normal)
    decreases |line| - pos
  {
    if pos < |line| {
      PlainCells(line, pos + 1);
    }
  }

  /** A line that does not end in a backspace never raises. */
  lemma {:induction false} CellsFromReturns(line: seq<char>, pos: nat)
    requires pos <= |line|
    requires |line| == 0 || line[|line| - 1] != BACKSPACE
    ensures CellsFrom(line, pos).Returned?
    decreases |line| - pos
  {
    if pos < |line| {
      if pos + 1 < |line| && line[pos + 1] == BACKSPACE {
        CellsFromReturns(line, pos + 3);
      } else {
        CellsFromReturns(line, pos + 1);
      }
    }
  }

  /** A character and backspace that end the line: line[pos] is read past the end. */
  lemma TrailingPairRaises()
    ensures AttributedLine(['x', BACKSPACE]) == IndexError
  {
  }

  lemma AheadAppend(done: seq<Cell>, head: seq<Cell>, r: Raised<seq<Cell>>)
    ensures Ahead(done, Ahead(head, r)) == Ahead(done + head, r)
  {
    if r.Returned? {
      assert done + (head + r.value) == (done + head) + r.value;
    }
  }

  /** to_attributed_line (immersion.py:111-128). */
  method ToAttributedLine(line: seq<char>) returns (r: Raised<seq<Cell>>)
    ensures r == AttributedLine(line)
  {
    var result: seq<Cell> := [];
    var pos: nat := 0;
    ghost var all := CellsFrom(line, 0);
    assert all.Returned? ==> result + all.value == all.value;
    while pos < |line|
      invariant pos <= |line|
      invariant Ahead(result, CellsFrom(line, pos)) == AttributedLine(line)
      decreases |line| - pos
    {
      ghost var p0 := pos;
      var c := line[pos];
      if pos + 1 < |line| && line[pos + 1] == BACKSPACE {
        pos := pos + 2;
        if pos >= |line| {
          return IndexError;
        }
        var c2 := line[pos];
        pos := pos + 1;
        assert CellsFrom(line, p0) == Ahead(OverstrikeCells(c, c2), CellsFrom(line, pos));
        AheadAppend(result, OverstrikeCells(c, c2), CellsFrom(line, pos));
        ghost var want := result + OverstrikeCells(c, c2);
        if c == '_' {
          result := result + [Cell(c2, Underline)];
        }
        if c == c2 {
          result := result + [Cell(c2, Bold)];
        }
        assert result == want;
      } else {
        pos := pos + 1;
        assert CellsFrom(line, p0) == Ahead([Cell(c, Normal)], CellsFrom(line, pos));
        AheadAppend(result, [Cell(c, Normal)], CellsFrom(line, pos));
        result := result + [Cell(c, Normal)];
      }
    }
    assert result + [] == result;
    return Returned(result);
  }
}
