/** fold_lines of immersion.py (immersion.py:130-141): every input line folded to the window
    width and each segment turned into (character, attribute) cells; with line spacing one
    empty row separates consecutive input lines. Its filter tests the length of the whole
    list, so unlike main.cpp it keeps the empty lines. A line that raises IndexError in
    fold_line or to_attributed_line makes the whole call raise. */
module PyReflow {
  import opened Wrappers
  import opened Segments
  import opened PyText
  import opened PyFold
  import opened PyAttr
  import Reflow

  /** One display row. */
  type Row = seq<Cell>

  /** `f` applied to each element in order, or IndexError when any application raises, as a
      loop that appends each result and lets the exception escape. */
  function AllOf<A, B>(f: A -> Raised<B>, xs: seq<A>): Raised<seq<B>>
  {
    if xs == [] then Returned([])
    else
      match AllOf(f, xs[..|xs| - 1])
      case IndexError => IndexError
      case Returned(done) =>
        match f(xs[|xs| - 1])
        case IndexError => IndexError
        case Returned(last) => Returned(done + [last])
  }

  /** A loop that has come through all the elements returns one result per element, each
      what `f` returned for it. */
  lemma {:induction false} AllOfReturned<A, B>(f: A -> Raised<B>, xs: seq<A>)
    requires AllOf(f, xs).Returned?
    ensures |AllOf(f, xs).value| == |xs|
    ensures forall i :: 0 <= i < |xs| ==> f(xs[i]).Returned? && AllOf(f, xs).value[i] == f(xs[i]).value
  {
    if xs != [] {
      var init := xs[..|xs| - 1];
      AllOfReturned(f, init);
      forall i | 0 <= i < |xs|
        ensures f(xs[i]).Returned? && AllOf(f, xs).value[i] == f(xs[i]).value
      {
        if i < |init| {
          assert xs[i] == init[i];
        }
      }
    }
  }

  /** The loop raises exactly when one of the elements makes `f` raise. */
  lemma {:induction false} AllOfRaises<A, B>(f: A -> Raised<B>, xs: seq<A>)
    ensures AllOf(f, xs).IndexError? <==> exists i :: 0 <= i < |xs| && f(xs[i]).IndexError?
  {
    if xs != [] {
      var init := xs[..|xs| - 1];
      AllOfRaises(f, init);
      if exists i :: 0 <= i < |init| && f(init[i]).IndexError? {
        var i :| 0 <= i < |init| && f(init[i]).IndexError?;
        assert xs[i] == init[i];
      }
      if exists i :: 0 <= i < |xs| && f(xs[i]).IndexError? {
        var i :| 0 <= i < |xs| && f(xs[i]).IndexError?;
        if i < |init| {
          assert xs[i] == init[i];
        }
      }
    }
  }

  /** One more element: the loop's result after it, from the result before it. */
  lemma AllOfStep<A, B>(f: A -> Raised<B>, xs: seq<A>, i: nat)
    requires i < |xs|
    ensures AllOf(f, xs[..i + 1]) ==
      match AllOf(f, xs[..i])
      case IndexError => IndexError
      case Returned(done) => if f(xs[i]).IndexError? then IndexError else Returned(done + [f(xs[i]).value])
  {
    assert xs[..i + 1][..i] == xs[..i];
  }

  /** Once the loop has raised on a prefix, it raises on the whole list. */
  lemma AllOfRaisedPrefix<A, B>(f: A -> Raised<B>, xs: seq<A>, i: nat)
    requires i <= |xs| && AllOf(f, xs[..i]).IndexError?
    ensures AllOf(f, xs).IndexError?
  {
    AllOfRaises(f, xs[..i]);
    var k :| 0 <= k < i && f(xs[..i][k]).IndexError?;
    AllOfRaises(f, xs);
  }

  /** The list comprehension of fold_lines (immersion.py:131), over the elements of `rest`
      from the whole list `all`: an element stays unless line spacing is on and `all` is
      empty. */
  function FilterFrom(all: seq<seq<char>>, rest: seq<seq<char>>, linespace: bool): seq<seq<char>>
  {
    if rest == [] then []
    else (if linespace == false || |all| > 0 then [rest[0]] else []) + FilterFrom(all, rest[1..], linespace)
  }

  /** What the comprehension leaves of `lines`. */
  function Filtered(lines: seq<seq<char>>, linespace: bool): seq<seq<char>>
  {
    FilterFrom(lines, lines, linespace)
  }

  lemma {:induction false} FilterFromKeeps(all: seq<seq<char>>, rest: seq<seq<char>>, linespace: bool)
    requires |rest| <= |all|
    ensures FilterFrom(all, rest, linespace) == rest
    decreases |rest|
  {
    if rest != [] {
      FilterFromKeeps(all, rest[1..], linespace);
    }
  }

  /** The filter keeps every line, the empty ones included, with or without line spacing:
      its test is on the length of the list, which is positive whenever there is a line to
      test. */
  lemma FilterKeepsEveryLine(lines: seq<seq<char>>, linespace: bool)
    ensures Filtered(lines, linespace) == lines
  {
    FilterFromKeeps(lines, lines, linespace);
  }

  /** The rows of the segments fold_line returned, each through to_attributed_line, or the
      IndexError fold_line raised. */
  function SegmentRows(segments: Raised<seq<seq<char>>>): Raised<seq<Row>>
  {
    match segments
    case IndexError => IndexError
    case Returned(texts) => AllOf(AttributedLine, texts)
  }

  /** The rows of one input line. */
  function LineRows(wide: char -> bool, line: seq<char>, cols: int, wordWrap: bool): Raised<seq<Row>>
  {
    SegmentRows(FoldedText(line, FoldCuts(wide, line, cols, wordWrap)))
  }

  /** The rows pushed between two input lines: to_attributed_line('') when line spacing is
      on, nothing otherwise. */
  function Separator(linespace: bool): seq<Row>
  {
    if linespace then [[]] else []
  }

  /** What fold_lines returns when each kept line becomes the rows `rows` gives it. */
  function FoldLinesWith(rows: seq<char> -> Raised<seq<Row>>, lines: seq<seq<char>>, linespace: bool): Raised<seq<Row>>
  {
    match AllOf(rows, Filtered(lines, linespace))
    case IndexError => IndexError
    case Returned(groups) => Returned(Reflow.Joined(groups, Separator(linespace)))
  }

  /** What fold_lines returns. */
  function Reflowed(wide: char -> bool, lines: seq<seq<char>>, cols: int, linespace: bool, wordWrap: bool): Raised<seq<Row>>
  {
    FoldLinesWith(line => LineRows(wide, line, cols, wordWrap), lines, linespace)
  }

  /** The separator row is what to_attributed_line makes of the empty string. */
  lemma SeparatorIsEmptyLine()
    ensures AttributedLine("") == Returned([])
    ensures Separator(true) == [AttributedLine("").value]
  {
  }

  /** fold_lines raises exactly when one of the input lines does. */
  lemma FoldLinesRaises(rows: seq<char> -> Raised<seq<Row>>, lines: seq<seq<char>>, linespace: bool)
    ensures FoldLinesWith(rows, lines, linespace).IndexError? <==>
      exists i :: 0 <= i < |lines| && rows(lines[i]).IndexError?
  {
    FilterKeepsEveryLine(lines, linespace);
    AllOfRaises(rows, lines);
  }

  /** Without line spacing the result is each line's rows one after the other, in order. */
  lemma NoLinespaceIsConcat(rows: seq<char> -> Raised<seq<Row>>, lines: seq<seq<char>>)
    requires FoldLinesWith(rows, lines, false).Returned?
    ensures AllOf(rows, lines).Returned?
    ensures FoldLinesWith(rows, lines, false).value == Reflow.Concat(AllOf(rows, lines).value)
  {
    FilterKeepsEveryLine(lines, false);
    Reflow.JoinedNoSeparator(AllOf(rows, lines).value);
  }

  /** With line spacing the result holds every line's rows, in order, and exactly
      |lines| - 1 separator rows: one between each two lines, empty ones included. */
  lemma LinespaceKeepsEveryLine(rows: seq<char> -> Raised<seq<Row>>, lines: seq<seq<char>>)
    requires FoldLinesWith(rows, lines, true).Returned?
    ensures AllOf(rows, lines).Returned?
    ensures var groups := AllOf(rows, lines).value;
      && |groups| == |lines|
      && (forall i :: 0 <= i < |lines| ==> rows(lines[i]).Returned? && groups[i] == rows(lines[i]).value)
      && FoldLinesWith(rows, lines, true).value == Reflow.Joined(groups, [[]])
      && |FoldLinesWith(rows, lines, true).value| == Reflow.TotalLength(groups) + (if lines == [] then 0 else |lines| - 1)
  {
    FilterKeepsEveryLine(lines, true);
    var groups := AllOf(rows, lines).value;
    AllOfReturned(rows, lines);
    Reflow.JoinedLength(groups, [[]]);
  }

  /** Every segment fold_line returns ends up as exactly one row, the one to_attributed_line
      makes of it. */
  lemma SegmentRowsPerSegment(segments: Raised<seq<seq<char>>>)
    requires SegmentRows(segments).Returned?
    ensures segments.Returned?
    ensures |SegmentRows(segments).value| == |segments.value|
    ensures forall i :: 0 <= i < |segments.value| ==>
      AttributedLine(segments.value[i]).Returned? && SegmentRows(segments).value[i] == AttributedLine(segments.value[i]).value
  {
    AllOfReturned(AttributedLine, segments.value);
  }

  /** fold_line gives every line at least one segment: the empty line its single empty
      segment, any other the segments that cover it. */
  lemma FoldCutsNonEmpty(wide: char -> bool, line: seq<char>, cols: int, wordWrap: bool)
    requires FoldCuts(wide, line, cols, wordWrap).Returned?
    ensures |FoldCuts(wide, line, cols, wordWrap).value| >= 1
  {
  }

  /** Every input line that does not raise gives at least one row. */
  lemma LineRowsNonEmpty(wide: char -> bool, line: seq<char>, cols: int, wordWrap: bool)
    requires LineRows(wide, line, cols, wordWrap).Returned?
    ensures |LineRows(wide, line, cols, wordWrap).value| >= 1
  {
    var cuts := FoldCuts(wide, line, cols, wordWrap);
    SegmentRowsPerSegment(FoldedText(line, cuts));
    FoldCutsNonEmpty(wide, line, cols, wordWrap);
  }

  /** fold_lines returns at least one row per input line, and with line spacing a separator
      row between each two of them on top. */
  lemma ReflowedRowCount(wide: char -> bool, lines: seq<seq<char>>, cols: int, linespace: bool, wordWrap: bool)
    requires Reflowed(wide, lines, cols, linespace, wordWrap).Returned?
    ensures |Reflowed(wide, lines, cols, linespace, wordWrap).value| >=
      |lines| + (if linespace && lines != [] then |lines| - 1 else 0)
  {
    var rows := line => LineRows(wide, line, cols, wordWrap);
    FilterKeepsEveryLine(lines, linespace);
    var groups := AllOf(rows, lines).value;
    AllOfReturned(rows, lines);
    forall i | 0 <= i < |groups| ensures |groups[i]| >= 1 {
      LineRowsNonEmpty(wide, lines[i], cols, wordWrap);
    }
    TotalAtLeast(groups);
    Reflow.JoinedLength(groups, Separator(linespace));
  }

  lemma {:induction false} TotalAtLeast(groups: seq<seq<Row>>)
    requires forall i :: 0 <= i < |groups| ==> |groups[i]| >= 1
    ensures Reflow.TotalLength(groups) >= |groups|
  {
    if groups != [] {
      assert forall i :: 0 <= i < |groups[1..]| ==> groups[1..][i] == groups[i + 1];
      TotalAtLeast(groups[1..]);
    }
  }

  /** A line without backspaces never raises: fold_line returns, and so does
      to_attributed_line on each of its segments. */
  lemma PlainLineReturns(wide: char -> bool, line: seq<char>, cols: int, wordWrap: bool)
    requires forall k :: 0 <= k < |line| ==> line[k] != BACKSPACE
    ensures LineRows(wide, line, cols, wordWrap).Returned?
  {
    FoldCutsReturns(wide, line, cols, wordWrap);
    var cuts := FoldCuts(wide, line, cols, wordWrap).value;
    var segments := Slices(line, cuts);
    forall i | 0 <= i < |segments| ensures AttributedLine(segments[i]).Returned? {
      assert forall k :: 0 <= k < |segments[i]| ==> segments[i][k] == line[cuts[i].lo + k];
      PlainCells(segments[i], 0);
    }
    AllOfRaises(AttributedLine, segments);
  }

  /** fold_lines of lines without backspaces never raises. */
  lemma PlainLinesReturn(wide: char -> bool, lines: seq<seq<char>>, cols: int, linespace: bool, wordWrap: bool)
    requires forall i, k :: 0 <= i < |lines| && 0 <= k < |lines[i]| ==> lines[i][k] != BACKSPACE
    ensures Reflowed(wide, lines, cols, linespace, wordWrap).Returned?
  {
    var rows := line => LineRows(wide, line, cols, wordWrap);
    forall i | 0 <= i < |lines| ensures rows(lines[i]).Returned? {
      PlainLineReturns(wide, lines[i], cols, wordWrap);
    }
    FoldLinesRaises(rows, lines, linespace);
  }

  /** The rows one line gives: its segments from fold_line, each through to_attributed_line
      (immersion.py:139-140). */
  method RenderLine(wide: char -> bool, line: seq<char>, cols: int, wordWrap: bool) returns (r: Raised<seq<Row>>)
    ensures r == LineRows(wide, line, cols, wordWrap)
  {
    var segments := FoldLine(wide, line, cols, wordWrap);
    if segments.IndexError? {
      return IndexError;
    }
    var texts := segments.value;
    var out: seq<Row> := [];
    for j := 0 to |texts|
      invariant AllOf(AttributedLine, texts[..j]) == Returned(out)
    {
      var row := ToAttributedLine(texts[j]);
      AllOfStep(AttributedLine, texts, j);
      if row.IndexError? {
        AllOfRaisedPrefix(AttributedLine, texts, j + 1);
        return IndexError;
      }
      out := out + [row.value];
    }
    assert texts[..|texts|] == texts;
    return Returned(out);
  }

  /** The loop of fold_lines (immersion.py:132-141), proved over any `rows` that agrees with
      LineRows. */
  method FoldLinesLoop(wide: char -> bool, lines: seq<seq<char>>, cols: int, linespace: bool, wordWrap: bool,
                       ghost rows: seq<char> -> Raised<seq<Row>>)
      returns (r: Raised<seq<Row>>)
    requires forall line {:trigger LineRows(wide, line, cols, wordWrap)} :: rows(line) == LineRows(wide, line, cols, wordWrap)
    ensures r == FoldLinesWith(rows, lines, linespace)
  {
    var filtered := Filtered(lines, linespace);
    var out: seq<Row> := [];
    var init := true;
    ghost var groups: seq<seq<Row>> := [];
    for i := 0 to |filtered|
      invariant AllOf(rows, filtered[..i]) == Returned(groups)
      invariant out == Reflow.Joined(groups, Separator(linespace))
      invariant init <==> i == 0
      invariant |groups| == i
    {
      var sep: seq<Row> := [];
      if init {
        init := false;
      } else if linespace {
        var empty := ToAttributedLine("");
        sep := [empty.value];
      }
      assert sep == if i == 0 then [] else Separator(linespace);
      var lineRows := RenderLine(wide, filtered[i], cols, wordWrap);
      AllOfStep(rows, filtered, i);
      if lineRows.IndexError? {
        AllOfRaisedPrefix(rows, filtered, i + 1);
        return IndexError;
      }
      Reflow.JoinedAppend(groups, lineRows.value, Separator(linespace));
      out := out + sep + lineRows.value;
      groups := groups + [lineRows.value];
    }
    assert filtered[..|filtered|] == filtered;
    return Returned(out);
  }

  /** fold_lines (immersion.py:130-141). */
  method FoldLines(wide: char -> bool, lines: seq<seq<char>>, cols: int, linespace: bool, wordWrap: bool)
      returns (r: Raised<seq<Row>>)
    ensures r == Reflowed(wide, lines, cols, linespace, wordWrap)
  {
    r := FoldLinesLoop(wide, lines, cols, linespace, wordWrap, line => LineRows(wide, line, cols, wordWrap));
  }

  /** A hard break just after an overstrike pair cuts the pair between its backspace and
      its second character: at one column "ab", backspace, "b" folds to "ab", backspace and
      "b", and to_attributed_line raises IndexError on the first of them. */
  lemma PairAtBreakRaises(wide: char -> bool)
    requires !wide('a') && !wide('b')
    ensures var line := ['a', 'b', BACKSPACE, 'b'];
      && FoldedText(line, FoldCuts(wide, line, 1, false)) == Returned([['a', 'b', BACKSPACE], ['b']])
      && LineRows(wide, line, 1, false) == IndexError
  {
    var line := ['a', 'b', BACKSPACE, 'b'];
    assert FoldTurn(wide, line, 1, false, Cursor(0, 0, 0)) == Returned(Turn(None, Cursor(1, 0, 1)));
    assert FoldTurn(wide, line, 1, false, Cursor(1, 0, 1)) == Returned(Turn(Some(Cut(0, 3)), Cursor(4, 3, 1)));
    assert FoldFrom(wide, line, 1, false, Cursor(4, 3, 1)) == Returned([Cut(3, 4)]);
    assert Emitted(Some(Cut(0, 3))) + [Cut(3, 4)] == [Cut(0, 3), Cut(3, 4)];
    assert FoldFrom(wide, line, 1, false, Cursor(1, 0, 1)) == Returned([Cut(0, 3), Cut(3, 4)]);
    assert Emitted(None) + [Cut(0, 3), Cut(3, 4)] == [Cut(0, 3), Cut(3, 4)];
    assert FoldFrom(wide, line, 1, false, Cursor(0, 0, 0)) == Returned([Cut(0, 3), Cut(3, 4)]);
    var segments := [['a', 'b', BACKSPACE], ['b']];
    assert line[0..3] == segments[0] && line[3..4] == segments[1];
    assert Slices(line, [Cut(0, 3), Cut(3, 4)]) == segments;
    assert CellsFrom(segments[0], 1) == IndexError;
    assert AttributedLine(segments[0]) == IndexError;
    AllOfRaises(AttributedLine, segments);
  }
}
