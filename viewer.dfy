/** The key loop of main (main.cpp:440-569): the pager's layout and scroll state, how each
    key changes it, and the invariant 0 <= current line <= bottom line that keeps every page
    inside the display lines. The terminal size (LINES, COLS) is read afresh by every
    relayout, so it is a parameter of each step. */
module Viewer {
  import opened Scan
  import opened Attr
  import opened Reflow
  import opened Geometry
  import Columns

  /** The terminal's current height and width. */
  datatype Term = Term(rows: U64, cols: U64)

  /** What stays fixed while the pager runs: the scanner and SGR parameter parser, the
      input lines, the minimum margin, word wrapping, the widest input line, and `reflow`,
      the display lines fold_lines makes of the input at a given width and line spacing. */
  datatype Config = Config(sc: Scanner, parse: seq<Byte> -> seq<int>, lines: seq<seq<Byte>>,
                           minMargin: U64, wordWrap: bool, maxCols: nat,
                           reflow: (nat, bool) -> seq<Row>)

  /** Every input line is a string, so its length is a size_t, and `reflow` is fold_lines
      of the input lines. */
  ghost predicate Fits(cfg: Config)
  {
    && (forall k :: 0 <= k < |cfg.lines| ==> |cfg.lines[k]| < W64)
    && (forall cols, linespace {:trigger Reflowed(cfg.sc, cfg.parse, cfg.lines, cols, linespace, cfg.wordWrap)} ::
          cfg.reflow(cols, linespace) == Reflowed(cfg.sc, cfg.parse, cfg.lines, cols, linespace, cfg.wordWrap))
  }

  /** The variables of the key loop. */
  datatype View = View(linespace: bool, cols: U64, rows: U64, display: seq<Row>, displayCols: U64,
                       margin: U64, page: nat, bottom: nat, current: nat)

  /** The display lines are the input reflowed at the current width, the page and bottom
      line are calc_page_lines of them, and the current line lies between 0 and the bottom. */
  ghost predicate Valid(cfg: Config, v: View)
  {
    && v.display == cfg.reflow(v.cols, v.linespace)
    && Page(v.page, v.bottom) == PageLines(|v.display|, v.rows)
    && v.current <= v.bottom
  }

  /** The relayout after a key (main.cpp:560-569): reflow, recompute the margin from the
      requested rows, take the rows the margin leaves, recompute the page, clamp the
      current line. */
  function Layout(cfg: Config, v: View, term: Term): (r: View)
  {
    Rescale(cfg, v.(display := cfg.reflow(v.cols, v.linespace)), term)
  }

  /** The part of the relayout after the reflow (main.cpp:562-568). */
  function Rescale(cfg: Config, v: View, term: Term): (r: View)
  {
    var margin := CalcMargin(term.rows, v.rows, cfg.minMargin, |v.display|);
    var rows := Sub64(term.rows, Twice(margin));
    var p := PageLines(|v.display|, rows);
    View(v.linespace, v.cols, rows, v.display, Min(cfg.maxCols, Min(v.cols, term.cols)), margin,
         p.lines, p.bottom, if v.current > p.bottom then p.bottom else v.current)
  }

  /** A relayout establishes the invariant from any state, keeps the current line when it
      is still on or above the new bottom line, and keeps the width and line spacing. */
  lemma LayoutValid(cfg: Config, v: View, term: Term)
    ensures Valid(cfg, Layout(cfg, v, term))
    ensures var r := Layout(cfg, v, term);
      && r.cols == v.cols && r.linespace == v.linespace
      && (v.current <= r.bottom ==> r.current == v.current)
      && (v.current > r.bottom ==> r.current == r.bottom)
      && r.margin >= cfg.minMargin
  {
  }

  /** The net effect of scroll_forward (main.cpp:469-473) on the current line: n lines
      down, but not past the bottom line. */
  function Forward(v: View, n: nat): (r: View)
    requires v.current <= v.bottom
    ensures r == v.(current := r.current)
    ensures v.current <= r.current <= v.bottom
    ensures v.current + n <= v.bottom ==> r.current == v.current + n
    ensures v.current + n > v.bottom ==> r.current == v.bottom
  {
    var n' := if v.current + n > v.bottom then v.bottom - v.current else n;
    v.(current := v.current + n')
  }

  /** The net effect of scroll_backword (main.cpp:475-478): n lines up, but not above the
      first line. */
  function Backward(v: View, n: nat): (r: View)
    ensures r == v.(current := r.current)
    ensures r.current <= v.current
    ensures n <= v.current ==> r.current == v.current - n
    ensures n > v.current ==> r.current == 0
  {
    var n' := if v.current - n < 0 then v.current else n;
    v.(current := v.current - n')
  }

  /** Scrolling down a page and then up a page returns to the same line when the page
      down was not clamped at the bottom. */
  lemma PageDownUp(v: View)
    requires v.current + v.page <= v.bottom
    ensures Backward(Forward(v, v.page), v.page) == v
  {
  }

  const KEY_Q: int := 'q' as int
  const KEY_S: int := 's' as int
  const KEY_I: int := 'i' as int
  const KEY_O: int := 'o' as int
  const KEY_TALLER: int := 'I' as int
  const KEY_SHORTER: int := 'O' as int
  const KEY_J: int := 'j' as int
  const KEY_K: int := 'k' as int
  const KEY_G: int := 'g' as int
  const KEY_BOTTOM: int := 'G' as int
  const KEY_F: int := 'f' as int
  const KEY_SPACE: int := ' ' as int
  const KEY_B: int := 'b' as int
  const KEY_D: int := 'd' as int
  const KEY_U: int := 'u' as int
  /** ncurses' KEY_RESIZE (octal 0632). */
  const KEY_RESIZE: int := 410

  /** What the switch of the key loop does (main.cpp:482-558): the new variables and
      whether a relayout follows. */
  datatype Effect = Effect(view: View, layout: bool)

  function KeyEffect(cfg: Config, v: View, key: int, term: Term): Effect
    requires v.current <= v.bottom
  {
    var mm := Twice(cfg.minMargin);
    if key == KEY_S then Effect(v.(linespace := !v.linespace), true)
    else if key == KEY_I then
      if v.cols < Sub64(term.cols, mm) then Effect(v.(cols := v.cols + 1), true) else Effect(v, false)
    else if key == KEY_O then
      if v.cols > mm then Effect(v.(cols := Sub64(v.cols, 2)), true) else Effect(v, false)
    else if key == KEY_TALLER then
      if v.rows < Sub64(term.rows, mm) then Effect(v.(rows := Add64(v.rows, 2)), true) else Effect(v, false)
    else if key == KEY_SHORTER then
      if v.rows > mm then Effect(v.(rows := Sub64(v.rows, 2)), true) else Effect(v, false)
    else if key == KEY_J then
      Effect(if v.current < v.bottom then v.(current := v.current + 1) else v, false)
    else if key == KEY_K then
      Effect(if v.current > 0 then v.(current := v.current - 1) else v, false)
    else if key == KEY_G then Effect(v.(current := 0), true)
    else if key == KEY_BOTTOM then Effect(v.(current := v.bottom), true)
    else if key == KEY_F || key == KEY_SPACE then Effect(Forward(v, v.page), false)
    else if key == KEY_B then Effect(Backward(v, v.page), false)
    else if key == KEY_D then Effect(Forward(v, v.page / 2), false)
    else if key == KEY_U then Effect(Backward(v, v.page / 2), false)
    else Effect(v, key == KEY_RESIZE)
  }

  /** The state after one key other than q. */
  function Next(cfg: Config, v: View, key: int, term: Term): View
    requires v.current <= v.bottom
  {
    var e := KeyEffect(cfg, v, key, term);
    if e.layout then Layout(cfg, e.view, term) else e.view
  }

  /** A key that does not relayout changes only the current line, and keeps it between 0
      and the same bottom line. */
  lemma ScrollKeysKeepLayout(cfg: Config, v: View, key: int, term: Term)
    requires Valid(cfg, v)
    ensures var e := KeyEffect(cfg, v, key, term);
      !e.layout ==> e.view == v.(current := e.view.current) && e.view.current <= v.bottom
  {
  }

  /** Every key keeps the invariant (main.cpp:516-568). */
  lemma NextValid(cfg: Config, v: View, key: int, term: Term)
    requires Valid(cfg, v)
    ensures Valid(cfg, Next(cfg, v, key, term))
  {
    var e := KeyEffect(cfg, v, key, term);
    if e.layout {
      LayoutValid(cfg, e.view, term);
    } else {
      ScrollKeysKeepLayout(cfg, v, key, term);
    }
  }

  /** Under the invariant a page starting at the current line ends within the display
      lines; and when there are at least `rows` display lines, so do the `rows` lines that
      draw shows from the current line (main.cpp:309-312), as long as the terminal is as
      high as at the last relayout. */
  lemma PageInside(cfg: Config, v: View)
    requires Valid(cfg, v)
    ensures v.current + v.page <= |v.display|
    ensures !(|v.display| < v.rows) ==> v.current + v.rows <= |v.display|
  {
    PageLinesSplit(|v.display|, v.rows);
  }

  /** j moves one line down exactly when the current line is above the bottom line, k one
      line up exactly when it is below the top (main.cpp:516-526). */
  lemma LineKeys(cfg: Config, v: View, term: Term)
    requires Valid(cfg, v)
    ensures Next(cfg, v, KEY_J, term).current == if v.current < v.bottom then v.current + 1 else v.current
    ensures Next(cfg, v, KEY_K, term).current == if v.current > 0 then v.current - 1 else 0
  {
  }

  /** g goes to the first line and G to the bottom line; both relayout, so the line they
      reach is that of the new layout (main.cpp:528-536). */
  lemma TopBottomKeys(cfg: Config, v: View, term: Term)
    requires Valid(cfg, v)
    ensures Next(cfg, v, KEY_G, term).current == 0
    ensures var r := Next(cfg, v, KEY_BOTTOM, term);
      r.current == Min(v.bottom, r.bottom)
  {
  }

  /** The state before the first key (main.cpp:440-451): the width asked for, or the
      widest line within the terminal less both margins, then a layout from line 0 with the
      rows asked for. */
  function Initial(cfg: Config, linespace: bool, optCols: U64, optRows: U64, term: Term): View
  {
    var cols: U64 := if optCols > 0 then optCols else Min(cfg.maxCols, Sub64(term.cols, Twice(cfg.minMargin)));
    Layout(cfg, View(linespace, cols, optRows, [], 0, 0, 0, 0, 0), term)
  }

  /** The pager starts valid, on its first line. */
  lemma InitialValid(cfg: Config, linespace: bool, optCols: U64, optRows: U64, term: Term)
    ensures Valid(cfg, Initial(cfg, linespace, optCols, optRows, term))
    ensures Initial(cfg, linespace, optCols, optRows, term).current == 0
  {
    LayoutValid(cfg, View(linespace, if optCols > 0 then optCols else Min(cfg.maxCols, Sub64(term.cols, Twice(cfg.minMargin))),
                          optRows, [], 0, 0, 0, 0, 0), term);
  }

  /** fold_lines of the input lines (main.cpp:560). */
  method Redisplay(cfg: Config, cols: nat, linespace: bool) returns (display: seq<Row>)
    requires Fits(cfg)
    ensures display == cfg.reflow(cols, linespace)
  {
    display := FoldLines(cfg.sc, cfg.parse, cfg.lines, cols, linespace, cfg.wordWrap);
  }

  /** The key loop's variables, updated in place. */
  class Pager {
    const cfg: Config
    var linespace: bool
    var cols: U64
    var rows: U64
    var display: seq<Row>
    var displayCols: U64
    var margin: U64
    var page: nat
    var bottom: nat
    var current: nat

    function State(): View
      reads this
    {
      View(linespace, cols, rows, display, displayCols, margin, page, bottom, current)
    }

    /** The variables satisfy the invariant. */
    ghost predicate Inv()
      reads this
    {
      Fits(cfg) && Valid(cfg, State())
    }

    /** The set-up before the loop (main.cpp:440-451). */
    constructor (sc: Scanner, parse: seq<Byte> -> seq<int>, lines: seq<seq<Byte>>, minMargin: U64, wordWrap: bool,
                 optLinespace: bool, optCols: U64, optRows: U64, term: Term)
      requires forall k :: 0 <= k < |lines| ==> |lines[k]| < W64
      ensures cfg.sc == sc && cfg.parse == parse && cfg.lines == lines
      ensures cfg.minMargin == minMargin && cfg.wordWrap == wordWrap
      ensures forall i :: 0 <= i < |lines| ==> Columns.ColumnsFrom(sc, lines[i], 0) <= cfg.maxCols
      ensures |lines| == 0 ==> cfg.maxCols == 0
      ensures |lines| > 0 ==> exists i :: 0 <= i < |lines| && cfg.maxCols == Columns.ColumnsFrom(sc, lines[i], 0)
      ensures State() == Initial(cfg, optLinespace, optCols, optRows, term)
      ensures Inv() && current == 0
    {
      var maxCols := Columns.MaxColumns(sc, lines);
      cfg := Config(sc, parse, lines, minMargin, wordWrap, maxCols,
                    (c: nat, ls: bool) => Reflowed(sc, parse, lines, c, ls, wordWrap));
      linespace := optLinespace;
      cols := if optCols > 0 then optCols else Min(maxCols, Sub64(term.cols, Twice(minMargin)));
      rows := optRows;
      current := 0;
      new;
      Relayout(term);
      InitialValid(cfg, optLinespace, optCols, optRows, term);
    }

    /** The relayout block (main.cpp:560-569). */
    method Relayout(term: Term)
      requires Fits(cfg)
      modifies this
      ensures State() == Layout(cfg, old(State()), term)
    {
      display := Redisplay(cfg, cols, linespace);
      Refit(term);
    }

    /** The relayout block after the reflow (main.cpp:562-568). */
    method Refit(term: Term)
      modifies this
      ensures State() == Rescale(cfg, old(State()), term)
    {
      displayCols := Min(cfg.maxCols, Min(cols, term.cols));
      margin := CalcMargin(term.rows, rows, cfg.minMargin, |display|);
      rows := Sub64(term.rows, Twice(margin));
      page, bottom := CalcPageLines(|display|, rows);
      if current > bottom {
        current := bottom;
      }
    }

    /** One pass of the key loop: q quits and changes nothing, any other key moves to Next. */
    method Press(key: int, term: Term) returns (quit: bool)
      requires Inv()
      modifies this
      ensures quit <==> key == KEY_Q
      ensures quit ==> State() == old(State())
      ensures !quit ==> State() == Next(cfg, old(State()), key, term)
      ensures Inv()
    {
      if key == KEY_Q {
        return true;
      }
      quit := false;
      ghost var v := State();
      var layout := Apply(key, term);
      if layout {
        Relayout(term);
        LayoutValid(cfg, KeyEffect(cfg, v, key, term).view, term);
      } else {
        ScrollKeysKeepLayout(cfg, v, key, term);
      }
    }

    /** The switch of the key loop (main.cpp:482-558): the key's change to the variables,
        and whether a relayout follows. */
    method Apply(key: int, term: Term) returns (layout: bool)
      requires current <= bottom
      modifies this
      ensures Effect(State(), layout) == KeyEffect(cfg, old(State()), key, term)
    {
      var mm := Twice(cfg.minMargin);
      layout := false;
      if key == KEY_S {
        linespace := !linespace;
        layout := true;
      } else if key == KEY_I {
        if cols < Sub64(term.cols, mm) {
          cols := cols + 1;
          layout := true;
        }
      } else if key == KEY_O {
        if cols > mm {
          cols := Sub64(cols, 2);
          layout := true;
        }
      } else if key == KEY_TALLER {
        if rows < Sub64(term.rows, mm) {
          rows := Add64(rows, 2);
          layout := true;
        }
      } else if key == KEY_SHORTER {
        if rows > mm {
          rows := Sub64(rows, 2);
          layout := true;
        }
      } else if key == KEY_J {
        if current < bottom {
          current := current + 1;
        }
      } else if key == KEY_K {
        if current > 0 {
          current := current - 1;
        }
      } else if key == KEY_G {
        current := 0;
        layout := true;
      } else if key == KEY_BOTTOM {
        current := bottom;
        layout := true;
      } else if key == KEY_F || key == KEY_SPACE {
        ScrollForward(page);
      } else if key == KEY_B {
        ScrollBackward(page);
      } else if key == KEY_D {
        ScrollForward(page / 2);
      } else if key == KEY_U {
        ScrollBackward(page / 2);
      } else if key == KEY_RESIZE {
        layout := true;
      }
    }

    /** scroll_forward (main.cpp:469-473) with scroll_core's line-by-line steps
        (main.cpp:460-467) reduced to their net change. */
    method ScrollForward(n: nat)
      requires current <= bottom
      modifies this
      ensures State() == Forward(old(State()), n)
    {
      var steps := if current + n > bottom then bottom - current else n;
      current := current + steps;
    }

    /** scroll_backword (main.cpp:475-478). */
    method ScrollBackward(n: nat)
      modifies this
      ensures State() == Backward(old(State()), n)
    {
      var steps := if current - n < 0 then current else n;
      current := current - steps;
    }
  }
}
