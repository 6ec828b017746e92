/** The key loop of pager in immersion.py (immersion.py:174-237): the layout and scroll
    state, how each key changes it, and the invariant 0 <= current line <= bottom line.
    Unlike main.cpp the terminal size (ROWS, COLS) is state, read once at the start and again
    only on KEY_RESIZE, and every quantity is an unbounded Python integer. A relayout calls
    fold_lines, which may raise IndexError; the exception ends the pager. */
module PyViewer {
  import Geometry
  import opened PyText
  import opened PyGeometry
  import opened PyReflow
  import Viewer

  /** What stdscr.getmaxyx() returns: the terminal's height and width. */
  datatype Size = Size(rows: int, cols: int)

  /** What stays fixed while the pager runs: east_asian_width, the input lines, the minimum
      margin, word wrapping, the widest input line, and `reflow`, fold_lines of the input at a
      given width and line spacing. */
  datatype Config = Config(wide: char -> bool, lines: seq<seq<char>>, minMargin: int, wordWrap: bool,
                           maxCols: nat, reflow: (int, bool) -> Raised<seq<Row>>)

  /** `reflow` is fold_lines of the input lines. */
  ghost predicate Fits(cfg: Config)
  {
    forall cols, linespace {:trigger Reflowed(cfg.wide, cfg.lines, cols, linespace, cfg.wordWrap)} ::
      cfg.reflow(cols, linespace) == Reflowed(cfg.wide, cfg.lines, cols, linespace, cfg.wordWrap)
  }

  /** The variables of the key loop, ROWS and COLS first. */
  datatype View = View(termRows: int, termCols: int, linespace: bool, cols: int, rows: int,
                       display: seq<Row>, displayCols: int, margin: int, page: int, bottom: nat, current: int)

  /** The display lines are fold_lines of the input at the current width, the rows are what
      the margins leave of the terminal, the page and bottom line are calc_page_lines of the
      display lines, and the current line lies between 0 and the bottom line. */
  ghost predicate Valid(cfg: Config, v: View)
  {
    && cfg.reflow(v.cols, v.linespace) == Returned(v.display)
    && v.rows == v.termRows - v.margin * 2
    && (v.page, v.bottom) == CalcPageLines(|v.display|, v.rows)
    && 0 <= v.current <= v.bottom
  }

  /** The relayout after a key (immersion.py:226-233), once fold_lines has returned the
      display lines `display`: the margin from the requested rows, the rows the margin leaves,
      the page, and the current line clamped to the new bottom line. */
  function Rescale(cfg: Config, v: View, display: seq<Row>): View
  {
    var margin := CalcMargin(v.rows, cfg.minMargin, |display|, v.termRows);
    var rows := v.termRows - margin * 2;
    var p := CalcPageLines(|display|, rows);
    v.(display := display, displayCols := Geometry.Min(cfg.maxCols, Geometry.Min(v.cols, v.termCols)), margin := margin,
       rows := rows, page := p.0, bottom := p.1, current := if v.current > p.1 then p.1 else v.current)
  }

  /** The relayout, or the IndexError fold_lines raises. */
  function Layout(cfg: Config, v: View): Raised<View>
  {
    match cfg.reflow(v.cols, v.linespace)
    case IndexError => IndexError
    case Returned(display) => Returned(Rescale(cfg, v, display))
  }

  /** A relayout that returns establishes the invariant from any state with a current line
      of at least 0, keeps the current line when it is still on or above the new bottom line
      and clamps it otherwise, keeps the terminal size, width and line spacing, and leaves a
      margin of at least the minimum margin. */
  lemma LayoutValid(cfg: Config, v: View)
    requires v.current >= 0 && Layout(cfg, v).Returned?
    ensures Valid(cfg, Layout(cfg, v).value)
    ensures var r := Layout(cfg, v).value;
      && r.termRows == v.termRows && r.termCols == v.termCols
      && r.cols == v.cols && r.linespace == v.linespace
      && (v.current <= r.bottom ==> r.current == v.current)
      && (v.current > r.bottom ==> r.current == r.bottom)
      && r.margin >= cfg.minMargin
  {
  }

  /** A relayout raises exactly when fold_lines does. */
  lemma LayoutRaises(cfg: Config, v: View)
    ensures Layout(cfg, v).IndexError? <==> cfg.reflow(v.cols, v.linespace).IndexError?
  {
  }

  /** What the if-chain of the key loop does (immersion.py:197-224): the new variables and
      whether a relayout follows. */
  datatype Effect = Effect(view: View, layout: bool)

  function KeyEffect(cfg: Config, v: View, key: int, size: Size): Effect
  {
    var mm := cfg.minMargin * 2;
    if key == Viewer.KEY_S then Effect(v.(linespace := !v.linespace), true)
    else if key == Viewer.KEY_I then
      if v.cols < v.termCols - mm then Effect(v.(cols := v.cols + 1), true) else Effect(v, false)
    else if key == Viewer.KEY_O then
      if v.cols > mm then Effect(v.(cols := v.cols - 2), true) else Effect(v, false)
    else if key == Viewer.KEY_TALLER then
      if v.rows < v.termRows - mm then Effect(v.(rows := v.rows + 2), true) else Effect(v, false)
    else if key == Viewer.KEY_SHORTER then
      if v.rows > mm then Effect(v.(rows := v.rows - 2), true) else Effect(v, false)
    else if key == Viewer.KEY_J then
      Effect(if v.current < v.bottom then v.(current := v.current + 1) else v, false)
    else if key == Viewer.KEY_K then
      Effect(if v.current > 0 then v.(current := v.current - 1) else v, false)
    else if key == Viewer.KEY_RESIZE then Effect(v.(termRows := size.rows, termCols := size.cols), true)
    else Effect(v, false)
  }

  /** The state after one key other than q, or the IndexError its relayout raises; `size`
      is what getmaxyx would return, read only for KEY_RESIZE. */
  function Next(cfg: Config, v: View, key: int, size: Size): Raised<View>
  {
    var e := KeyEffect(cfg, v, key, size);
    if e.layout then Layout(cfg, e.view) else Returned(e.view)
  }

  /** A key that does not relayout changes only the current line, and keeps it between 0
      and the same bottom line. */
  lemma ScrollKeysKeepLayout(cfg: Config, v: View, key: int, size: Size)
    requires Valid(cfg, v)
    ensures var e := KeyEffect(cfg, v, key, size);
      !e.layout ==> e.view == v.(current := e.view.current) && 0 <= e.view.current <= v.bottom
  {
  }

  /** Every key whose relayout returns keeps the invariant (immersion.py:216-233). */
  lemma NextValid(cfg: Config, v: View, key: int, size: Size)
    requires Valid(cfg, v) && Next(cfg, v, key, size).Returned?
    ensures Valid(cfg, Next(cfg, v, key, size).value)
  {
    var e := KeyEffect(cfg, v, key, size);
    if e.layout {
      LayoutValid(cfg, e.view);
    } else {
      ScrollKeysKeepLayout(cfg, v, key, size);
    }
  }

  /** A key raises exactly when it relayouts and fold_lines raises at the new width and
      line spacing. */
  lemma NextRaises(cfg: Config, v: View, key: int, size: Size)
    ensures var e := KeyEffect(cfg, v, key, size);
      Next(cfg, v, key, size).IndexError? <==> e.layout && cfg.reflow(e.view.cols, e.view.linespace).IndexError?
  {
  }

  /** Input without backspaces never makes a key raise. */
  lemma PlainInputNeverRaises(cfg: Config, v: View, key: int, size: Size)
    requires Fits(cfg)
    requires forall i, k :: 0 <= i < |cfg.lines| && 0 <= k < |cfg.lines[i]| ==> cfg.lines[i][k] != BACKSPACE
    ensures Next(cfg, v, key, size).Returned?
  {
    var e := KeyEffect(cfg, v, key, size);
    PlainLinesReturn(cfg.wide, cfg.lines, e.view.cols, e.view.linespace, cfg.wordWrap);
  }

  /** Under the invariant a page starting at the current line ends within the display
      lines, and so does the window draw fills with display lines when they do not all fit
      (immersion.py:154-157): it reads lines[current_line + i] for i below ROWS - 2 * margin,
      which is `rows`. */
  lemma PageInside(cfg: Config, v: View)
    requires Valid(cfg, v)
    ensures v.current + v.page <= |v.display|
    ensures !(|v.display| < v.termRows - v.margin * 2) ==> v.current + v.rows <= |v.display|
  {
    PageLinesSplit(|v.display|, v.rows);
  }

  /** j moves one line down exactly when the current line is above the bottom line, k one
      line up exactly when it is below the top (immersion.py:216-221). */
  lemma LineKeys(cfg: Config, v: View, size: Size)
    requires Valid(cfg, v)
    ensures Next(cfg, v, Viewer.KEY_J, size) == Returned(if v.current < v.bottom then v.(current := v.current + 1) else v)
    ensures Next(cfg, v, Viewer.KEY_K, size) == Returned(if v.current > 0 then v.(current := v.current - 1) else v)
  {
  }

  /** KEY_RESIZE is the only key that reads the terminal size (immersion.py:222-224); every
      other key leaves ROWS and COLS as they were. */
  lemma ResizeKey(cfg: Config, v: View, key: int, size: Size)
    requires Next(cfg, v, key, size).Returned?
    ensures key == Viewer.KEY_RESIZE ==>
      Next(cfg, v, key, size).value.termRows == size.rows && Next(cfg, v, key, size).value.termCols == size.cols
    ensures key != Viewer.KEY_RESIZE ==>
      Next(cfg, v, key, size).value.termRows == v.termRows && Next(cfg, v, key, size).value.termCols == v.termCols
  {
  }

  /** Keys outside s, i, o, I, O, j, k and KEY_RESIZE change nothing; among them the f, b,
      d, u, g and G that the usage text lists (immersion.py:256-261). */
  lemma OtherKeysIgnored(cfg: Config, v: View, key: int, size: Size)
    requires key !in {Viewer.KEY_S, Viewer.KEY_I, Viewer.KEY_O, Viewer.KEY_TALLER, Viewer.KEY_SHORTER,
                      Viewer.KEY_J, Viewer.KEY_K, Viewer.KEY_RESIZE}
    ensures Next(cfg, v, key, size) == Returned(v)
  {
  }

  /** The width before the first key (immersion.py:178): the width asked for, or the widest
      line within the terminal less both margins. */
  function InitialCols(cfg: Config, size: Size, optCols: int): int
  {
    if optCols > 0 then optCols else Geometry.Min(cfg.maxCols, size.cols - cfg.minMargin * 2)
  }

  /** The state before the first key (immersion.py:174-186): a layout from line 0 with the
      rows asked for. */
  function Initial(cfg: Config, size: Size, linespace: bool, optCols: int, optRows: int): Raised<View>
  {
    Layout(cfg, View(size.rows, size.cols, linespace, InitialCols(cfg, size, optCols), optRows, [], 0, 0, 0, 0, 0))
  }

  /** The pager starts valid, on its first line, unless the first fold_lines raises. */
  lemma InitialValid(cfg: Config, size: Size, linespace: bool, optCols: int, optRows: int)
    requires Initial(cfg, size, linespace, optCols, optRows).Returned?
    ensures Valid(cfg, Initial(cfg, size, linespace, optCols, optRows).value)
    ensures Initial(cfg, size, linespace, optCols, optRows).value.current == 0
  {
    LayoutValid(cfg, View(size.rows, size.cols, linespace, InitialCols(cfg, size, optCols), optRows, [], 0, 0, 0, 0, 0));
  }

  /** fold_lines of the input lines (immersion.py:181, 227). */
  method Redisplay(cfg: Config, cols: int, linespace: bool) returns (display: Raised<seq<Row>>)
    requires Fits(cfg)
    ensures display == cfg.reflow(cols, linespace)
  {
    display := FoldLines(cfg.wide, cfg.lines, cols, linespace, cfg.wordWrap);
  }

  /** The variables of pager, updated in place; `crashed` once fold_lines has raised. */
  class PyPager {
    const cfg: Config
    var termRows: int
    var termCols: int
    var linespace: bool
    var cols: int
    var rows: int
    var display: seq<Row>
    var displayCols: int
    var margin: int
    var page: int
    var bottom: nat
    var current: int
    var crashed: bool

    function State(): View
      reads this
    {
      View(termRows, termCols, linespace, cols, rows, display, displayCols, margin, page, bottom, current)
    }

    /** Unless the pager has crashed, the variables satisfy the invariant. */
    ghost predicate Inv()
      reads this
    {
      Fits(cfg) && (!crashed ==> Valid(cfg, State()))
    }

    /** The set-up before the loop (immersion.py:174-186). */
    constructor (wide: char -> bool, lines: seq<seq<char>>, minMargin: int, wordWrap: bool,
                 optLinespace: bool, optCols: int, optRows: int, size: Size)
      ensures cfg.wide == wide && cfg.lines == lines && cfg.minMargin == minMargin && cfg.wordWrap == wordWrap
      ensures forall i :: 0 <= i < |lines| ==> VisibleColumns(wide, lines[i]) <= cfg.maxCols
      ensures |lines| == 0 ==> cfg.maxCols == 0
      ensures |lines| > 0 ==> exists i :: 0 <= i < |lines| && cfg.maxCols == VisibleColumns(wide, lines[i])
      ensures crashed <==> Initial(cfg, size, optLinespace, optCols, optRows).IndexError?
      ensures !crashed ==> State() == Initial(cfg, size, optLinespace, optCols, optRows).value && current == 0
      ensures Inv()
    {
      var maxCols := MaxColumns(wide, lines);
      cfg := Config(wide, lines, minMargin, wordWrap, maxCols,
                    (c: int, ls: bool) => Reflowed(wide, lines, c, ls, wordWrap));
      termRows, termCols := size.rows, size.cols;
      linespace := optLinespace;
      cols := if optCols > 0 then optCols else Geometry.Min(maxCols, size.cols - minMargin * 2);
      rows := optRows;
      display, displayCols, margin, page, bottom, current := [], 0, 0, 0, 0, 0;
      crashed := false;
      new;
      ghost var v := View(size.rows, size.cols, optLinespace, InitialCols(cfg, size, optCols), optRows, [], 0, 0, 0, 0, 0);
      assert State() == v;
      var raised := Relayout();
      crashed := raised;
      if !raised {
        InitialValid(cfg, size, optLinespace, optCols, optRows);
      }
    }

    /** The relayout block (immersion.py:226-233); when fold_lines raises nothing changes. */
    method Relayout() returns (raised: bool)
      requires Fits(cfg)
      modifies this
      ensures raised <==> Layout(cfg, old(State())).IndexError?
      ensures raised ==> State() == old(State())
      ensures !raised ==> State() == Layout(cfg, old(State())).value
      ensures crashed == old(crashed)
    {
      var r := Redisplay(cfg, cols, linespace);
      if r.IndexError? {
        return true;
      }
      raised := false;
      Refit(r.value);
    }

    /** The relayout block after fold_lines has returned `lines` (immersion.py:227-233). */
    method Refit(lines: seq<Row>)
      modifies this
      ensures State() == Rescale(cfg, old(State()), lines)
      ensures crashed == old(crashed)
    {
      ghost var v := State();
      var m := CalcMargin(rows, cfg.minMargin, |lines|, termRows);
      var r := termRows - m * 2;
      var p := CalcPageLines(|lines|, r);
      var c := if current > p.1 then p.1 else current;
      var dc := Geometry.Min(cfg.maxCols, Geometry.Min(cols, termCols));
      assert Rescale(cfg, v, lines) == View(termRows, termCols, linespace, cols, r, lines, dc, m, p.0, p.1, c);
      display, displayCols, margin, rows, page, bottom, current := lines, dc, m, r, p.0, p.1, c;
    }

    /** One pass of the key loop: q quits and changes nothing, any other key moves to Next,
        or crashes the pager when its relayout raises. */
    method Press(key: int, size: Size) returns (quit: bool)
      requires Inv() && !crashed
      modifies this
      ensures quit <==> key == Viewer.KEY_Q
      ensures quit ==> State() == old(State()) && !crashed
      ensures !quit ==> (crashed <==> Next(cfg, old(State()), key, size).IndexError?)
      ensures !quit && !crashed ==> State() == Next(cfg, old(State()), key, size).value
      ensures !quit && crashed ==> State() == KeyEffect(cfg, old(State()), key, size).view
      ensures Inv()
    {
      if key == Viewer.KEY_Q {
        return true;
      }
      quit := false;
      ghost var v := State();
      var layout := Apply(key, size);
      if layout {
        var raised := Relayout();
        crashed := raised;
        if !raised {
          LayoutValid(cfg, KeyEffect(cfg, v, key, size).view);
        }
      } else {
        ScrollKeysKeepLayout(cfg, v, key, size);
      }
    }

    /** The if-chain of the key loop (immersion.py:195-224): the key's change to the
        variables, and whether a relayout follows. */
    method Apply(key: int, size: Size) returns (layout: bool)
      modifies this
      ensures Effect(State(), layout) == KeyEffect(cfg, old(State()), key, size)
      ensures crashed == old(crashed)
    {
      var mm := cfg.minMargin * 2;
      layout := false;
      if key == Viewer.KEY_S {
        linespace := !linespace;
        layout := true;
      } else if key == Viewer.KEY_I {
        if cols < termCols - mm {
          cols := cols + 1;
          layout := true;
        }
      } else if key == Viewer.KEY_O {
        if cols > mm {
          cols := cols - 2;
          layout := true;
        }
      } else if key == Viewer.KEY_TALLER {
        if rows < termRows - mm {
          rows := rows + 2;
          layout := true;
        }
      } else if key == Viewer.KEY_SHORTER {
        if rows > mm {
          rows := rows - 2;
          layout := true;
        }
      } else if key == Viewer.KEY_J {
        if current < bottom {
          current := current + 1;
        }
      } else if key == Viewer.KEY_K {
        if current > 0 {
          current := current - 1;
        }
      } else if key == Viewer.KEY_RESIZE {
        termRows, termCols := size.rows, size.cols;
        layout := true;
      }
    }
  }
}
