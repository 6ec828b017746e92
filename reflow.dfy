/** fold_lines of main.cpp (main.cpp:273-291): every input line folded to the window width
    and each segment turned into spans; with line spacing, empty input lines are dropped and
    one empty display row separates consecutive input lines. The shape of the result is
    stated for any per-line rendering `grp` (ReflowWith) and then for the real one, Group. */
module Reflow {
  import opened Scan
  import opened Segments
  import opened Fold
  import opened Attr

  /** One display row. */
  type Row = seq<Span>

  /** The filter of fold_lines (main.cpp:20-25, 275-276): with line spacing the empty lines go,
      otherwise every line stays; the order is kept. */
  function Kept(lines: seq<seq<Byte>>, linespace: bool): (r: seq<seq<Byte>>)
    ensures |r| <= |lines|
    ensures !linespace ==> r == lines
  {
    if lines == [] then []
    else if linespace && lines[0] == [] then Kept(lines[1..], linespace)
    else [lines[0]] + Kept(lines[1..], linespace)
  }

  /** A line is kept exactly when it is an input line and either line spacing is off or the
      line is not empty. */
  lemma {:induction false} KeptMembers(lines: seq<seq<Byte>>, linespace: bool)
    ensures forall x :: x in Kept(lines, linespace) <==> x in lines && (!linespace || x != [])
  {
    if lines != [] {
      KeptMembers(lines[1..], linespace);
      assert lines == [lines[0]] + lines[1..];
    }
  }

  /** Kept lines are input lines, so a bound on every input line holds for every kept line. */
  lemma {:induction false} KeptBounded(lines: seq<seq<Byte>>, linespace: bool, n: nat)
    requires forall k :: 0 <= k < |lines| ==> |lines[k]| < n
    ensures forall k :: 0 <= k < |Kept(lines, linespace)| ==> |Kept(lines, linespace)[k]| < n
  {
    if lines != [] {
      KeptBounded(lines[1..], linespace, n);
    }
  }

  /** `f` applied to every element, in order. */
  function Each<A, B>(f: A -> B, xs: seq<A>): (r: seq<B>)
    ensures |r| == |xs|
    ensures forall i :: 0 <= i < |xs| ==> r[i] == f(xs[i])
  {
    if xs == [] then [] else [f(xs[0])] + Each(f, xs[1..])
  }

  lemma EachAppend<A, B>(f: A -> B, xs: seq<A>, j: nat)
    requires j < |xs|
    ensures Each(f, xs[..j + 1]) == Each(f, xs[..j]) + [f(xs[j])]
  {
    var a := Each(f, xs[..j + 1]);
    var b := Each(f, xs[..j]) + [f(xs[j])];
    assert |a| == |b|;
    forall i | 0 <= i < |a| ensures a[i] == b[i] {
      assert xs[..j + 1][i] == xs[i];
    }
  }

  /** The groups one after the other, with `sep` between each two neighbours. */
  function Joined<T>(gs: seq<seq<T>>, sep: seq<T>): seq<T>
  {
    if gs == [] then []
    else if |gs| == 1 then gs[0]
    else gs[0] + sep + Joined(gs[1..], sep)
  }

  /** All groups one after the other. */
  function Concat<T>(gs: seq<seq<T>>): seq<T>
  {
    if gs == [] then [] else gs[0] + Concat(gs[1..])
  }

  /** The sum of the group sizes. */
  function TotalLength<T>(gs: seq<seq<T>>): nat
  {
    if gs == [] then 0 else |gs[0]| + TotalLength(gs[1..])
  }

  lemma {:induction false} JoinedAppend<T>(gs: seq<seq<T>>, g: seq<T>, sep: seq<T>)
    ensures Joined(gs + [g], sep) == Joined(gs, sep) + (if gs == [] then [] else sep) + g
    decreases |gs|
  {
    if |gs| == 1 {
      assert gs + [g] == [gs[0], g];
      assert ([gs[0], g])[1..] == [g];
    } else if |gs| > 1 {
      assert (gs + [g])[1..] == gs[1..] + [g];
      JoinedAppend(gs[1..], g, sep);
    }
  }

  /** One more group joined on at the end. */
  lemma JoinedStep<T>(gs: seq<seq<T>>, i: nat, sep: seq<T>)
    requires i < |gs|
    ensures Joined(gs[..i + 1], sep) == Joined(gs[..i], sep) + (if i == 0 then [] else sep) + gs[i]
  {
    assert gs[..i + 1] == gs[..i] + [gs[i]];
    JoinedAppend(gs[..i], gs[i], sep);
  }

  lemma {:induction false} JoinedNoSeparator<T>(gs: seq<seq<T>>)
    ensures Joined(gs, []) == Concat(gs)
    decreases |gs|
  {
    if |gs| == 1 {
      assert Concat(gs[1..]) == [];
    } else if |gs| > 1 {
      JoinedNoSeparator(gs[1..]);
    }
  }

  lemma {:induction false} JoinedLength<T>(gs: seq<seq<T>>, sep: seq<T>)
    ensures |Joined(gs, sep)| == TotalLength(gs) + (if gs == [] then 0 else (|gs| - 1) * |sep|)
    decreases |gs|
  {
    if |gs| == 1 {
      assert TotalLength(gs[1..]) == 0;
    } else if |gs| > 1 {
      JoinedLength(gs[1..], sep);
    }
  }

  /** The separator rows pushed between two input lines: the row to_attributed_line makes of
      the empty string when line spacing is on, nothing otherwise. */
  function Separator(linespace: bool): seq<Row>
  {
    if linespace then [[]] else []
  }

  /** What fold_lines returns when each kept line becomes the rows `grp` gives it. */
  function ReflowWith(grp: seq<Byte> -> seq<Row>, lines: seq<seq<Byte>>, linespace: bool): seq<Row>
  {
    Joined(Each(grp, Kept(lines, linespace)), Separator(linespace))
  }

  /** Without line spacing every input line is kept and the output is each line's rows one
      after the other, with no separator rows. */
  lemma NoLinespaceIsConcat(grp: seq<Byte> -> seq<Row>, lines: seq<seq<Byte>>)
    ensures ReflowWith(grp, lines, false) == Concat(Each(grp, lines))
  {
    JoinedNoSeparator(Each(grp, lines));
  }

  /** With line spacing the output holds the rows of every non-empty input line plus one
      empty separator row between each two of them. */
  lemma LinespaceRowCount(grp: seq<Byte> -> seq<Row>, lines: seq<seq<Byte>>)
    ensures var gs := Each(grp, Kept(lines, true));
      |ReflowWith(grp, lines, true)| == TotalLength(gs) + (if gs == [] then 0 else |gs| - 1)
  {
    JoinedLength(Each(grp, Kept(lines, true)), Separator(true));
  }

  /** When every line gives at least one row, the rows are at least as many as the lines. */
  lemma {:induction false} EachTotal(grp: seq<Byte> -> seq<Row>, lines: seq<seq<Byte>>)
    requires forall line :: |grp(line)| >= 1
    ensures TotalLength(Each(grp, lines)) >= |lines|
    decreases |lines|
  {
    if lines != [] {
      var gs := Each(grp, lines);
      assert gs[1..] == Each(grp, lines[1..]);
      EachTotal(grp, lines[1..]);
    }
  }

  /** A segment turned into its row of spans. */
  function RowOf(sc: Scanner, parse: seq<Byte> -> seq<int>): seq<Byte> -> Row
  {
    p => AttributedLine(sc, parse, p)
  }

  /** The rows of one input line: its folded segments, each turned into spans. */
  function Group(sc: Scanner, parse: seq<Byte> -> seq<int>, line: seq<Byte>, cols: nat, wordWrap: bool): seq<Row>
  {
    Each(RowOf(sc, parse), Slices(line, FoldCuts(sc, line, cols, wordWrap)))
  }

  /** Group as a function of the line. */
  function GroupOf(sc: Scanner, parse: seq<Byte> -> seq<int>, cols: nat, wordWrap: bool): seq<Byte> -> seq<Row>
  {
    line => Group(sc, parse, line, cols, wordWrap)
  }

  /** Each input line gives at least one row: an empty line gives one empty row. */
  lemma GroupNonEmpty(sc: Scanner, parse: seq<Byte> -> seq<int>, cols: nat, wordWrap: bool)
    ensures forall line :: |GroupOf(sc, parse, cols, wordWrap)(line)| >= 1
    ensures GroupOf(sc, parse, cols, wordWrap)([]) == [[]]
  {
    var empty: seq<Byte> := [];
    assert Slices(empty, [Cut(0, 0)]) == [empty];
  }

  /** What fold_lines returns. */
  function Reflowed(sc: Scanner, parse: seq<Byte> -> seq<int>, lines: seq<seq<Byte>>, cols: nat, linespace: bool, wordWrap: bool): seq<Row>
  {
    ReflowWith(GroupOf(sc, parse, cols, wordWrap), lines, linespace)
  }

  /** The output has at least one row per input line that is kept. */
  lemma ReflowedRows(sc: Scanner, parse: seq<Byte> -> seq<int>, lines: seq<seq<Byte>>, cols: nat, linespace: bool, wordWrap: bool)
    ensures |Reflowed(sc, parse, lines, cols, linespace, wordWrap)| >= |Kept(lines, linespace)|
  {
    var grp := GroupOf(sc, parse, cols, wordWrap);
    var gs := Each(grp, Kept(lines, linespace));
    GroupNonEmpty(sc, parse, cols, wordWrap);
    EachTotal(grp, Kept(lines, linespace));
    JoinedLength(gs, Separator(linespace));
  }

  /** The separator pushed by fold_lines is the row to_attributed_line makes of "". */
  lemma EmptyLineRow(sc: Scanner, parse: seq<Byte> -> seq<int>)
    ensures AttributedLine(sc, parse, []) == []
  {
  }

  /** The inner loop of fold_lines (main.cpp:286-288): the line folded, each segment
      turned into spans. */
  method GroupRows(sc: Scanner, parse: seq<Byte> -> seq<int>, line: seq<Byte>, cols: nat, wordWrap: bool)
    returns (rows: seq<Row>)
    requires |line| < W64
    ensures rows == Group(sc, parse, line, cols, wordWrap)
  {
    var pieces := FoldLine(sc, line, cols, wordWrap);
    ghost var cuts := FoldCuts(sc, line, cols, wordWrap);
    rows := [];
    var j := 0;
    while j < |pieces|
      invariant 0 <= j <= |pieces|
      invariant rows == Each(RowOf(sc, parse), pieces[..j])
    {
      assert pieces[j] == line[cuts[j].lo..cuts[j].hi];
      var row := ToAttributedLine(sc, parse, pieces[j]);
      EachAppend(RowOf(sc, parse), pieces, j);
      rows := rows + [row];
      j := j + 1;
    }
    assert pieces[..j] == pieces;
  }

  /** What fold_lines pushes before a line (main.cpp:281-285): nothing before the first
      line, otherwise the row of the empty string when line spacing is on. */
  method Gap(sc: Scanner, parse: seq<Byte> -> seq<int>, init: bool, linespace: bool) returns (gap: seq<Row>)
    ensures gap == if init then [] else Separator(linespace)
  {
    gap := [];
    if init {
    } else if linespace {
      var blank := ToAttributedLine(sc, parse, []);
      EmptyLineRow(sc, parse);
      gap := [blank];
    }
  }

  /** The loop of fold_lines (main.cpp:277-290), proved for any per-line rendering `grp`
      that agrees with Group; FoldLines instantiates it with Group itself. */
  method FoldKept(sc: Scanner, parse: seq<Byte> -> seq<int>, lines: seq<seq<Byte>>, cols: nat, linespace: bool, wordWrap: bool,
                  ghost grp: seq<Byte> -> seq<Row>)
    returns (out: seq<Row>)
    requires forall k :: 0 <= k < |lines| ==> |lines[k]| < W64
    requires forall line {:trigger Group(sc, parse, line, cols, wordWrap)} :: grp(line) == Group(sc, parse, line, cols, wordWrap)
    ensures out == ReflowWith(grp, lines, linespace)
  {
    var filtered := Kept(lines, linespace);
    KeptBounded(lines, linespace, W64);
    ghost var sep := Separator(linespace);
    ghost var gs := Each(grp, filtered);
    out := [];
    var init := true;
    var i := 0;
    while i < |filtered|
      invariant 0 <= i <= |filtered|
      invariant init <==> i == 0
      invariant out == Joined(gs[..i], sep)
    {
      var line := filtered[i];
      var gap := Gap(sc, parse, init, linespace);
      init := false;
      out := out + gap;
      var rows := GroupRows(sc, parse, line, cols, wordWrap);
      out := out + rows;
      JoinedStep(gs, i, sep);
      i := i + 1;
    }
    assert gs[..i] == gs;
  }

  /** fold_lines (main.cpp:273-291). */
  method FoldLines(sc: Scanner, parse: seq<Byte> -> seq<int>, lines: seq<seq<Byte>>, cols: nat, linespace: bool, wordWrap: bool)
    returns (out: seq<Row>)
    requires forall k :: 0 <= k < |lines| ==> |lines[k]| < W64
    ensures out == Reflowed(sc, parse, lines, cols, linespace, wordWrap)
  {
    out := FoldKept(sc, parse, lines, cols, linespace, wordWrap, GroupOf(sc, parse, cols, wordWrap));
  }
}
