/** to_attributed_line of main.cpp (main.cpp:190-259): a folded segment turned into one span
    per visible glyph, each with the attributes it is drawn in. An ESC...m run sets the
    attributes of the glyphs after it; a glyph, a BS and a glyph is an overstrike pair. */
module Attr {
  import opened Scan
  import opened Wrappers

  /** The attributes of a span: the ncurses A_BOLD and A_UNDERLINE bits and the colour codes
      ORed into the colour-pair field (a single code c selects colour pair c). */
  datatype Style = Style(bold: bool, underline: bool, colours: set<int>)

  const NORMAL: Style := Style(false, false, {})
  const BOLD: Style := Style(true, false, {})
  const UNDERLINE: Style := Style(false, true, {})

  /** One glyph's bytes and its attributes. */
  datatype Span = Span(text: seq<Byte>, style: Style)

  /** One SGR parameter ORed into the attributes (main.cpp:217-236): 1 is bold, 4 is
      underline, 30 to 37 select that colour pair, anything else is ignored. */
  function SgrCode(st: Style, v: int): Style
  {
    if v == 1 then st.(bold := true)
    else if v == 4 then st.(underline := true)
    else if 30 <= v <= 37 then st.(colours := st.colours + {v})
    else st
  }

  /** The parameters of one SGR run applied left to right. */
  function SgrApply(st: Style, vals: seq<int>): Style
    decreases |vals|
  {
    if vals == [] then st else SgrApply(SgrCode(st, vals[0]), vals[1..])
  }

  /** The colour codes among the parameters of an SGR run. */
  function ColourCodes(vals: seq<int>): set<int>
  {
    set v | v in vals && 30 <= v <= 37
  }

  /** What an SGR run does to the attributes: bold if some parameter is 1, underline if some
      parameter is 4, and every colour parameter ORed into the colour pair. */
  lemma {:induction false} SgrApplyFacts(st: Style, vals: seq<int>)
    ensures SgrApply(st, vals).bold <==> st.bold || 1 in vals
    ensures SgrApply(st, vals).underline <==> st.underline || 4 in vals
    ensures SgrApply(st, vals).colours == st.colours + ColourCodes(vals)
    decreases |vals|
  {
    if vals != [] {
      var st1 := SgrCode(st, vals[0]);
      SgrApplyFacts(st1, vals[1..]);
      assert SgrApply(st, vals) == SgrApply(st1, vals[1..]);
      assert vals == [vals[0]] + vals[1..];
      assert forall v :: v in vals <==> v == vals[0] || v in vals[1..];
      assert ColourCodes(vals) == ColourCodes([vals[0]]) + ColourCodes(vals[1..]);
    } else {
      assert ColourCodes(vals) == {};
    }
  }

  /** A run with a single colour code among its parameters selects that colour pair. */
  lemma SgrSingleColour(vals: seq<int>, c: int)
    requires 30 <= c <= 37 && c in vals && forall v :: v in vals && 30 <= v <= 37 ==> v == c
    ensures SgrApply(NORMAL, vals).colours == {c}
  {
    SgrApplyFacts(NORMAL, vals);
    assert ColourCodes(vals) == {c};
  }

  /** What the attributes become after an SGR run whose ESC is at `e` and whose 'm' ends
      just before `q` (main.cpp:211-238). The parameters are the bytes from e + 2 up to the
      'm'; their length is computed in size_t as q - (e + 2) - 1, which is 0 for an empty
      parameter list and wraps around to 2^64 - 1 when the 'm' directly follows a one-byte
      ESC, so that the parameters are then the rest of the line. `parse` is split(s, ';'). */
  function SgrStyleAt(parse: seq<Byte> -> seq<int>, line: seq<Byte>, e: nat, q: nat): Style
    requires e + 2 <= q <= |line|
  {
    if q == e + 3 then NORMAL
    else if q > e + 3 then SgrApply(NORMAL, parse(line[e + 2..q - 1]))
    else SgrApply(NORMAL, parse(line[e + 2..]))
  }

  /** What one turn of the loop does: where the next turn starts, the attributes it leaves
      and the spans it pushes. */
  datatype AttrMove = AttrMove(next: nat, style: Style, spans: seq<Span>)

  /** The spans of an overstrike pair (main.cpp:242-255): "_" BS X is X underlined, X BS X
      is X bold, so "_" BS "_" gives both; any other pair gives nothing. */
  function OverstrikeSpans(ch: seq<Byte>, ch2: seq<Byte>): seq<Span>
  {
    (if ch == [UNDERSCORE] then [Span(ch2, UNDERLINE)] else []) +
    (if ch == ch2 then [Span(ch2, BOLD)] else [])
  }

  /** One turn of the loop (main.cpp:195-257). */
  function AttrTurn(sc: Scanner, parse: seq<Byte> -> seq<int>, line: seq<Byte>, pos: nat, style: Style): (m: AttrMove)
    requires pos < |line|
    ensures pos < m.next <= |line|
  {
    var g := Decode(sc, line, pos);
    var ch := line[pos..pos + g.len];
    if ch[0] == ESC then
      match EscapeEnd(sc, line, pos + g.len)
      case None => AttrMove(|line|, style, [])
      case Some(q) => AttrMove(q, SgrStyleAt(parse, line, pos, q), [])
    else if pos + g.len < |line| && line[pos + g.len] == BS then
      var at := pos + g.len + 1;
      var g2 := Decode(sc, line, at);
      AttrMove(at + g2.len, style, OverstrikeSpans(ch, line[at..at + g2.len]))
    else
      AttrMove(pos + g.len, style, [Span(ch, style)])
  }

  /** The spans of line[pos..] when the attributes in force are `style`. */
  function AttrFrom(sc: Scanner, parse: seq<Byte> -> seq<int>, line: seq<Byte>, pos: nat, style: Style): seq<Span>
    requires pos <= |line|
    decreases |line| - pos
  {
    if pos == |line| then []
    else
      var m := AttrTurn(sc, parse, line, pos, style);
      m.spans + AttrFrom(sc, parse, line, m.next, m.style)
  }

  /** to_attributed_line: the spans of the whole line, starting from normal attributes. */
  function AttributedLine(sc: Scanner, parse: seq<Byte> -> seq<int>, line: seq<Byte>): seq<Span>
  {
    AttrFrom(sc, parse, line, 0, NORMAL)
  }

  /** No more spans than bytes: every span but the second of an "_" BS "_" pair uses up at
      least one byte of its own. */
  lemma {:induction false} AttrFromBound(sc: Scanner, parse: seq<Byte> -> seq<int>, line: seq<Byte>, pos: nat, style: Style)
    requires pos <= |line|
    ensures |AttrFrom(sc, parse, line, pos, style)| <= |line| - pos
    decreases |line| - pos
  {
    if pos < |line| {
      var m := AttrTurn(sc, parse, line, pos, style);
      AttrFromBound(sc, parse, line, m.next, m.style);
      var g := Decode(sc, line, pos);
      if line[pos] != ESC && pos + g.len < |line| && line[pos + g.len] == BS {
        var at := pos + g.len + 1;
        var ch2 := line[at..at + Decode(sc, line, at).len];
        if line[pos..pos + g.len] == [UNDERSCORE] && line[pos..pos + g.len] == ch2 {
          assert |ch2| == 1;
        }
      }
    }
  }

  /** An ESC...m run pushes no span and replaces the attributes wholesale: what was in force
      before it does not matter. */
  lemma SgrRunNoSpan(sc: Scanner, parse: seq<Byte> -> seq<int>, line: seq<Byte>, pos: nat, style: Style)
    requires pos < |line| && line[pos] == ESC
    requires EscapeEnd(sc, line, pos + Decode(sc, line, pos).len).Some?
    ensures var q := EscapeEnd(sc, line, pos + Decode(sc, line, pos).len).value;
      pos + 2 <= q &&
      AttrFrom(sc, parse, line, pos, style) == AttrFrom(sc, parse, line, q, SgrStyleAt(parse, line, pos, q))
  {
    var g := Decode(sc, line, pos);
    var m := AttrTurn(sc, parse, line, pos, style);
    assert line[pos..pos + g.len][0] == ESC;
    assert m.spans == [];
  }

  /** An ESC with no 'm' after it swallows the rest of the line: no span at all. */
  lemma UnterminatedEscape(sc: Scanner, parse: seq<Byte> -> seq<int>, line: seq<Byte>, pos: nat, style: Style)
    requires pos < |line| && line[pos] == ESC
    requires EscapeEnd(sc, line, pos + Decode(sc, line, pos).len).None?
    ensures AttrFrom(sc, parse, line, pos, style) == []
  {
    var g := Decode(sc, line, pos);
    assert line[pos..pos + g.len][0] == ESC;
    assert AttrTurn(sc, parse, line, pos, style) == AttrMove(|line|, style, []);
  }

  lemma PlainGlyphTurn(sc: Scanner, parse: seq<Byte> -> seq<int>, line: seq<Byte>, pos: nat, style: Style)
    requires pos < |line| && line[pos] != ESC
    requires var e := pos + Decode(sc, line, pos).len; !(e < |line| && line[e] == BS)
    ensures var e := pos + Decode(sc, line, pos).len;
      AttrTurn(sc, parse, line, pos, style) == AttrMove(e, style, [Span(line[pos..e], style)])
  {
    var g := Decode(sc, line, pos);
    assert line[pos..pos + g.len][0] == line[pos];
  }

  /** A glyph that opens neither an SGR run nor an overstrike pair is one span in the
      attributes in force. */
  lemma PlainGlyphSpan(sc: Scanner, parse: seq<Byte> -> seq<int>, line: seq<Byte>, pos: nat, style: Style)
    requires pos < |line| && line[pos] != ESC
    requires var e := pos + Decode(sc, line, pos).len; !(e < |line| && line[e] == BS)
    ensures var e := pos + Decode(sc, line, pos).len;
      AttrFrom(sc, parse, line, pos, style) == [Span(line[pos..e], style)] + AttrFrom(sc, parse, line, e, style)
  {
    PlainGlyphTurn(sc, parse, line, pos, style);
  }

  lemma OverstrikeTurn(sc: Scanner, parse: seq<Byte> -> seq<int>, line: seq<Byte>, pos: nat, style: Style)
    requires pos < |line| && line[pos] != ESC
    requires var e := pos + Decode(sc, line, pos).len; e < |line| && line[e] == BS
    ensures var e := pos + Decode(sc, line, pos).len;
      var e2 := e + 1 + Decode(sc, line, e + 1).len;
      AttrTurn(sc, parse, line, pos, style) == AttrMove(e2, style, OverstrikeSpans(line[pos..e], line[e + 1..e2]))
  {
    var g := Decode(sc, line, pos);
    assert line[pos..pos + g.len][0] == line[pos];
  }

  /** An overstrike pair ch BS ch2 pushes its spans in fixed attributes, whatever the SGR
      attributes in force, and leaves those attributes as they were. */
  lemma OverstrikeStep(sc: Scanner, parse: seq<Byte> -> seq<int>, line: seq<Byte>, pos: nat, style: Style)
    requires pos < |line| && line[pos] != ESC
    requires var e := pos + Decode(sc, line, pos).len; e < |line| && line[e] == BS
    ensures var e := pos + Decode(sc, line, pos).len;
      var e2 := e + 1 + Decode(sc, line, e + 1).len;
      AttrFrom(sc, parse, line, pos, style) == OverstrikeSpans(line[pos..e], line[e + 1..e2]) + AttrFrom(sc, parse, line, e2, style)
  {
    OverstrikeTurn(sc, parse, line, pos, style);
  }

  /** "_" BS X gives X underlined, X BS X gives X bold, "_" BS "_" gives both, in that
      order, and any other pair gives nothing. */
  lemma OverstrikeRules(ch: seq<Byte>, ch2: seq<Byte>)
    ensures ch == [UNDERSCORE] && ch2 != [UNDERSCORE] ==> OverstrikeSpans(ch, ch2) == [Span(ch2, UNDERLINE)]
    ensures ch != [UNDERSCORE] && ch == ch2 ==> OverstrikeSpans(ch, ch2) == [Span(ch2, BOLD)]
    ensures ch == [UNDERSCORE] && ch2 == [UNDERSCORE] ==> OverstrikeSpans(ch, ch2) == [Span(ch2, UNDERLINE), Span(ch2, BOLD)]
    ensures ch != [UNDERSCORE] && ch != ch2 ==> OverstrikeSpans(ch, ch2) == []
  {
  }

  /** The parameter loop of an SGR run (main.cpp:216-237), from normal attributes. */
  method ApplySgr(vals: seq<int>) returns (style: Style)
    ensures style == SgrApply(NORMAL, vals)
  {
    style := NORMAL;
    for i := 0 to |vals|
      invariant SgrApply(style, vals[i..]) == SgrApply(NORMAL, vals)
    {
      assert vals[i..][1..] == vals[i + 1..];
      var v := vals[i];
      if v == 1 {
        style := style.(bold := true);
      } else if v == 4 {
        style := style.(underline := true);
      } else if 30 <= v <= 37 {
        style := style.(colours := style.colours + {v});
      }
    }
  }

  /** The SGR scan (main.cpp:204-240): from the byte after the ESC, the offset just past the
      first glyph starting with 'm', or None when the line ends first. */
  method ScanEscape(sc: Scanner, line: seq<Byte>, pos0: nat) returns (r: Option<nat>)
    requires pos0 <= |line|
    ensures r == EscapeEnd(sc, line, pos0)
  {
    var pos := pos0;
    while pos < |line|
      invariant pos0 <= pos <= |line|
      invariant EscapeEnd(sc, line, pos) == EscapeEnd(sc, line, pos0)
      decreases |line| - pos
    {
      var g2 := Decode(sc, line, pos);
      var ch2 := line[pos..pos + g2.len];
      pos := pos + g2.len;
      if ch2[0] == LETTER_M {
        return Some(pos);
      }
    }
    return None;
  }

  /** The attributes an SGR run leaves (main.cpp:211-238), with the size_t length of its
      parameter text. */
  method SgrRun(parse: seq<Byte> -> seq<int>, line: seq<Byte>, escStart0: nat, pos: nat) returns (style: Style)
    requires escStart0 + 2 <= pos <= |line| < W64
    ensures style == SgrStyleAt(parse, line, escStart0, pos)
  {
    style := NORMAL;
    var escStart := escStart0 + 2;
    var escLen: nat := (pos - escStart - 1) % W64;
    if escLen > 0 {
      var escValues := line[escStart..if escStart + escLen <= |line| then escStart + escLen else |line|];
      assert escValues == if pos > escStart then line[escStart..pos - 1] else line[escStart..];
      style := ApplySgr(parse(escValues));
    }
  }

  /** One turn of the loop (main.cpp:195-257). */
  method AttrStep(sc: Scanner, parse: seq<Byte> -> seq<int>, line: seq<Byte>, pos0: nat, style0: Style)
    returns (pos: nat, style: Style, spans: seq<Span>)
    requires pos0 < |line| < W64
    ensures AttrMove(pos, style, spans) == AttrTurn(sc, parse, line, pos0, style0)
  {
    pos, style, spans := pos0, style0, [];
    var g := Decode(sc, line, pos);
    var ch := line[pos..pos + g.len];
    if ch[0] == ESC {
      var escStartPos := pos;
      pos := pos + g.len;
      var q := ScanEscape(sc, line, pos);
      match q
      case None =>
        pos := |line|;
      case Some(p) =>
        pos := p;
        style := SgrRun(parse, line, escStartPos, pos);
    } else if pos + g.len < |line| && line[pos + g.len] == BS {
      pos := pos + g.len + 1;
      var g2 := Decode(sc, line, pos);
      var ch2 := line[pos..pos + g2.len];
      pos := pos + g2.len;
      if ch == [UNDERSCORE] {
        spans := spans + [Span(ch2, UNDERLINE)];
      }
      if ch == ch2 {
        spans := spans + [Span(ch2, BOLD)];
      }
    } else {
      pos := pos + g.len;
      spans := spans + [Span(ch, style)];
    }
  }

  /** to_attributed_line (main.cpp:190-259). */
  method ToAttributedLine(sc: Scanner, parse: seq<Byte> -> seq<int>, line: seq<Byte>) returns (result: seq<Span>)
    requires |line| < W64
    ensures result == AttributedLine(sc, parse, line)
  {
    result := [];
    var style := NORMAL;
    var pos: nat := 0;
    while pos < |line|
      invariant pos <= |line|
      invariant result + AttrFrom(sc, parse, line, pos, style) == AttributedLine(sc, parse, line)
      decreases |line| - pos
    {
      var spans;
      ghost var p0, s0 := pos, style;
      pos, style, spans := AttrStep(sc, parse, line, pos, style);
      assert AttrFrom(sc, parse, line, p0, s0) == spans + AttrFrom(sc, parse, line, pos, style);
      result := result + spans;
    }
  }
}
