# immersion: a verified model of the pager's core

immersion is a terminal pager for reading. It shows a text centred on the screen, with
margins around it. It folds long lines to a chosen width, either hard at the width or at a
word boundary. It turns man-page overstrike (`_` BS `x` underline, `x` BS `x` bold) and SGR
escape runs (`ESC[...m`) into curses attributes. It scrolls with a small set of keys.

The repository holds two implementations of the same pager:

- `main.cpp` works on the raw UTF-8 bytes of each line and `size_t` arithmetic;
- `immersion.py` works on code points and Python integers, and knows nothing of SGR escapes.

This project models both, module by module:

| module | models |
|---|---|
| `Scan`, `Segments` | the byte view of a line used by `main.cpp`: the UTF-8 scanner as an abstract `Scanner`, the one step over an SGR run or an overstrike prefix, closing punctuation, and segments as cuts of a line |
| `Columns` | `columns` and `max_colums` of `main.cpp` |
| `Fold`, `FoldWidth` | `fold_line` of `main.cpp`: the segments tile the line with only spaces left out, and on tame lines (every line without ESC and BS bytes among them) every segment fits the width |
| `Attr` | `to_attributed_line` of `main.cpp`: SGR parameters, overstrike pairs, spans in their attributes |
| `Reflow` | `filter` and `fold_lines` of `main.cpp` |
| `Geometry` | `calc_margin` and `calc_page_lines` of `main.cpp`, with 64-bit wrap-around written out |
| `Viewer` | the key loop of `main`: a `Pager` class whose fields are the loop's variables, and the invariant `0 <= current line <= bottom line` that every key keeps |
| `PyText`, `PyFold`, `PyAttr`, `PyReflow`, `PyGeometry`, `PyViewer` | the same operations in `immersion.py`, including the `IndexError` several of them raise |
| `WrapFinding`, `ColumnsExamples`, `FoldExamples`, `AttrExamples` | the findings below, and concrete inputs worked through the specification functions |

Each loop of the source is a Dafny `method` with a `while` loop. It is proved equal to a
recursive specification function on the same inputs. The properties are then lemmas about
that function.

The Python code raises `IndexError` in two places:

- `fold_line` and `to_attributed_line` read `line[pos]` right after an overstrike prefix
  that ends the line;
- `fold_line` can cut a segment right after the backspace of an overstrike pair, before
  the pair's second character (at one column "ab", backspace, "b" folds to "ab", backspace
  and "b"), and then `to_attributed_line` reads past the end of the first segment.

Both are modelled as the result `IndexError` of type `Raised`; there is no precondition.
The Python pager records the crash in a `crashed` field.

Two behaviours of the Python code are modelled as written, without a correction:

- The comprehension in `fold_lines` tests `len(lines) > 0`, not `len(line) > 0`. So it
  keeps every line, empty ones included, even under line spacing (`PyReflow.FilterKeepsEveryLine`).
  `main.cpp` drops empty lines there.
- The Python key loop handles only `s i o I O j k` and `KEY_RESIZE`
  (`PyViewer.OtherKeysIgnored`). The usage text also lists `f b d u g G`.

## Model

| member | source | states |
|---|---|---|
| Scan.Decode | main.cpp:93 | inside the line, utf8CharLen reports a character of at least one byte that ends inside the line and is at most two columns wide; past the end, an empty glyph |
| Scan.EscapeEnd | main.cpp:99-110 | the scan of an SGR run stops just after a byte that is an 'm', inside the line, or finds none |
| Scan.EscapeSkip | main.cpp:96-111 | the offset after an ESC...m run lies between the start and the end of the line |
| Scan.Step | main.cpp:92-115 | the glyph the folder measures lies at or after the turn's offset and inside the line; it moved only past an ESC run or an overstrike prefix; it is at most two columns wide, and empty only at the end of the line |
| Scan.PlainIsTame | main.cpp:92-115 | in a line without ESC and BS every glyph is measured where it starts |
| Scan.IsInvalidStartChar | main.cpp:72-76 | closing punctuation is one ASCII byte or one three-byte character, never a space |
| Scan.InvalidStartIsClosing | main.cpp:72-76 | is_invalid_start_char holds exactly for the ten listed characters |
| Columns.ColumnsTurn | main.cpp:40-67 | one turn of columns moves forward, and stays within the line |
| Columns.SkipEscape | main.cpp:43-59 | the loop over an ESC run ends after the 'm' and after the glyph that follows it |
| Columns.ColumnsStep | main.cpp:40-66 | one loop turn of columns equals the specification's turn |
| Columns.Columns | main.cpp:36-70 | columns returns the specification's column count of the line |
| Columns.ColumnsPlain | main.cpp:36-70 | for a line without ESC and BS, columns is the sum of the glyph widths the folder measures |
| Columns.MaxColumns | main.cpp:265-271 | max_colums is at least the columns of every line, 0 for no lines, and equal to the columns of some line |
| ColumnsExamples.ColumnsOverstrikeTwice | main.cpp:60-67 | `_` BS `X` counts two columns in columns, one in the folder |
| ColumnsExamples.ColumnsSgrSkipsGlyph | main.cpp:53-59 | in `ESC[1mA` columns skips the glyph after the 'm' and counts 0; the folder counts 1 |
| Attr.SgrApplyFacts | main.cpp:212-237 | after the SGR parameters, bold is on exactly when 1 is among them, underline exactly when 4 is, and the colours are those ORed in from 30-37 |
| Attr.SgrSingleColour | main.cpp:226-234 | one colour code c among otherwise ignored parameters selects colour pair c alone |
| Attr.AttrTurn | main.cpp:195-259 | one turn of to_attributed_line moves forward and stays within the line |
| Attr.AttrFromBound | main.cpp:190-263 | no more spans than bytes |
| Attr.SgrRunNoSpan | main.cpp:200-241 | an ESC...m run pushes no span and replaces the attributes wholesale |
| Attr.UnterminatedEscape | main.cpp:204-241 | an ESC with no 'm' after it swallows the rest of the line |
| Attr.PlainGlyphSpan | main.cpp:256-259 | a plain glyph is one span in the attributes in force |
| Attr.OverstrikeStep | main.cpp:242-255 | an overstrike pair pushes its spans in fixed attributes and leaves the SGR attributes as they were |
| Attr.OverstrikeRules | main.cpp:250-255 | `_` BS x gives x underlined, x BS x gives x bold, `_` BS `_` gives both in that order, any other pair nothing |
| Attr.ApplySgr | main.cpp:212-237 | the switch over the SGR values computes the attributes the specification gives |
| Attr.ScanEscape | main.cpp:204-241 | the loop over an ESC run ends where the specification's scan ends |
| Attr.SgrRun | main.cpp:211-238 | the parameter slice between `ESC[` and `m` is parsed into the specification's attributes |
| Attr.AttrStep | main.cpp:195-259 | one loop turn equals the specification's turn |
| Attr.ToAttributedLine | main.cpp:190-263 | to_attributed_line returns the specification's spans |
| AttrExamples.EscapeSkipsByte | main.cpp:204-210 | the ESC scan passes over a byte that is not 'm' |
| AttrExamples.BoldRedRunEnd | main.cpp:204-211 | in `ESC[1;31mRED` the run ends after the 'm' at offset 6 |
| AttrExamples.BoldRedRunStyle | main.cpp:212-237 | `1;31` gives bold and colour pair 31 |
| AttrExamples.RedSpans | main.cpp:256-259 | R, E and D are three spans in the attributes in force |
| AttrExamples.BoldRedSpans | main.cpp:190-263 | `ESC[1;31mRED` gives R, E and D, each bold and in colour pair 31 |
| AttrExamples.UnderlinedXSpan | main.cpp:242-255 | `_` BS `X` gives one underlined X |
| Fold.SkipSpaces | main.cpp:125-130 | the skip after closing punctuation passes only spaces and stops at a non-space or the end |
| Fold.ScanBack | main.cpp:140-146 | the signed backward scan returns the nearest space at or after the segment start, or start - 1 when there is none, and reads only inside the segment |
| Fold.Advance | main.cpp:117-165 | a turn keeps start <= pos <= end and makes progress; without a cut the column stays within the width |
| Fold.AdvanceAccept | main.cpp:117-119 | a glyph that fits is added to the segment |
| Fold.AdvanceClosing | main.cpp:121-132 | closing punctuation that overflows stays in the segment, and the spaces after it are skipped |
| Fold.AdvanceSpace | main.cpp:134-138 | a space that overflows ends the segment and is dropped |
| Fold.AdvanceWrap | main.cpp:139-157 | with word wrap the segment ends before the nearest space, and a segment without a space breaks hard |
| Fold.AdvanceHard | main.cpp:158-163 | without word wrap the segment ends before the glyph, which opens the next segment with its width |
| Fold.ClosingGap | main.cpp:121-132 | the gap after closing punctuation is spaces only |
| Fold.SpaceGap | main.cpp:134-138 | the gap at a dropped space is that one space |
| Fold.AdvanceCut | main.cpp:117-165 | a cut starts at the segment start, ends by the next start, and leaves out only spaces, more than one only after closing punctuation |
| Fold.FoldFromFolded | main.cpp:91-170 | the segments still to come tile the rest of the line |
| Fold.FoldCuts | main.cpp:78-173 | the segments tile the line with only spaces left out; an empty line gives one empty segment; a non-empty line gives at least one |
| Fold.MeasureAt | main.cpp:92-115 | the measuring code at the head of the loop finds the glyph the specification measures |
| Fold.SkipSpaceRun | main.cpp:125-130 | the space-skipping loop stops where SkipSpaces does |
| Fold.FindWrapSpace | main.cpp:140-146 | the backward scan, with signed indices, returns what ScanBack does |
| Fold.Decide | main.cpp:117-165 | the break rules of the loop body compute the specification's move |
| Fold.FoldTurn | main.cpp:91-166 | one loop turn equals the specification's turn |
| Fold.PendingTurn | main.cpp:91-170 | a turn moves its cut from the pending segments to the finished ones |
| Fold.FoldLine | main.cpp:78-173 | fold_line returns the slices of the line at the specification's cuts |
| FoldExamples.NoWrapHardBreak | main.cpp:158-163 | "helloworld12345" at 10 columns folds to "helloworld" and "12345", with or without word wrap |
| FoldExamples.WordWrapAtSpace | main.cpp:139-157 | "hello world foo" at 10 columns with word wrap folds at the space to "hello" and "world foo" |
| FoldExamples.ClosingPunctuationStays | main.cpp:121-132 | "end." at 3 columns stays one segment: the overflowing '.' is kept |
| FoldExamples.UnderlinedBoldNotTame | main.cpp:112-115 | "_", backspace, "X", backspace, "X" is not tame: the glyph the overstrike step at 0 reaches opens another pair |
| FoldExamples.NoWrapLines | main.cpp:78-173 | the texts of the hard-break example |
| FoldExamples.WordWrapLines | main.cpp:78-173 | the texts of the word-wrap example |
| FoldExamples.ClosingLines | main.cpp:78-173 | the text of the closing-punctuation example |
| FoldExamples.HardBreakTurn | main.cpp:158-163 | the overflowing turn of the hard-break example |
| FoldExamples.WordWrapTurn | main.cpp:139-157 | the overflowing turn of the word-wrap example |
| FoldExamples.ClosingTurn | main.cpp:121-132 | the overflowing turn of the closing-punctuation example |
| FoldWidth.FoldWithinWidth | main.cpp:78-173 | on tame lines, every segment fold_line makes is at most `cols` columns wide, or all its width is in its first glyph, or it is so once its final closing punctuation is taken off |
| FoldWidth.FoldFromWithinWidth | main.cpp:91-170 | on tame lines, the same for the segments still to come |
| FoldWidth.AdvanceWithin | main.cpp:117-165 | a cut a turn makes is within the width |
| FoldWidth.AdvanceMeasured | main.cpp:117-165 | at a tame position, the column counter equals the width of the open segment so far |
| Geometry.Sub64 | main.cpp:325-326 | size_t subtraction: the difference, or the difference plus 2^64 when it would be negative |
| Geometry.Add64 | main.cpp:504 | size_t addition wraps modulo 2^64 |
| Geometry.Twice | main.cpp:325 | `min_margin * 2` wraps modulo 2^64 |
| Geometry.CalcMargin | main.cpp:324-327 | the margin is at least the minimum margin; when the shown lines fit, the margins and the shown lines fill the terminal to within one row, and do not exceed it when the margin is above the minimum |
| Geometry.OversizedRowsWrap | main.cpp:324-327 | when the shown lines exceed the terminal, the unsigned subtraction wraps and the margins are huge |
| Geometry.PageLinesSplit | main.cpp:329-337 | page plus bottom line is the line count; one page holds everything when it fits, else a page is `rows` lines |
| Geometry.HundredInTwenty | main.cpp:329-337 | 100 lines in 20 rows give pages of 20 and bottom line 80 |
| Geometry.CalcPageLines | main.cpp:329-337 | calc_page_lines returns the page and bottom line of PageLines; they add up to the line count |
| Reflow.Kept | main.cpp:275-276 | the filter keeps at most every line, and every line without line spacing |
| Reflow.KeptMembers | main.cpp:275-276 | with line spacing exactly the non-empty lines are kept |
| Reflow.KeptBounded | main.cpp:275-276 | kept lines keep their length bound |
| Reflow.JoinedLength | main.cpp:280-289 | rows joined with separators: their total plus one separator per gap |
| Reflow.NoLinespaceIsConcat | main.cpp:280-289 | without line spacing the output is each line's rows in order |
| Reflow.LinespaceRowCount | main.cpp:280-289 | with line spacing the output is the rows of every non-empty line plus one separator row between each two |
| Reflow.EachTotal | main.cpp:286-288 | when every line gives a row, the rows are at least as many as the lines |
| Reflow.GroupNonEmpty | main.cpp:81-84 | every line gives at least one row, and an empty line gives one empty row |
| Reflow.ReflowedRows | main.cpp:273-291 | fold_lines gives at least one row per kept line |
| Reflow.EmptyLineRow | main.cpp:284 | the separator row is to_attributed_line of "" |
| Reflow.GroupRows | main.cpp:286-288 | the inner loop returns the rows of the folded segments |
| Reflow.Gap | main.cpp:281-285 | nothing before the first kept line, then a separator row under line spacing |
| Reflow.FoldKept | main.cpp:277-290 | the loop of fold_lines returns the kept lines' rows joined by the separator |
| Reflow.FoldLines | main.cpp:273-291 | fold_lines returns the specification's rows |
| Viewer.LayoutValid | main.cpp:560-569 | a relayout establishes the invariant from any state, keeps the width and line spacing, keeps the current line or clamps it to the new bottom line, and keeps the margin at least the minimum |
| Viewer.Forward | main.cpp:469-473 | scroll_forward moves n lines down, but not past the bottom line, and changes nothing else |
| Viewer.Backward | main.cpp:475-478 | scroll_backword moves n lines up, but not above the first line, and changes nothing else |
| Viewer.PageDownUp | main.cpp:538-545 | a page down that was not clamped, then a page up, returns to the same line |
| Viewer.ScrollKeysKeepLayout | main.cpp:516-553 | a key that does not relayout changes only the current line and keeps it within the bottom line |
| Viewer.NextValid | main.cpp:482-569 | every key keeps the invariant |
| Viewer.PageInside | main.cpp:309-312 | under the invariant a page from the current line ends within the display lines, and so do the `rows` lines draw shows when there are at least that many |
| Viewer.LineKeys | main.cpp:516-526 | j moves one line down exactly when above the bottom line; k one up exactly when below the top |
| Viewer.TopBottomKeys | main.cpp:528-536 | g goes to line 0; G goes to the old bottom line, clamped to the new one |
| Viewer.InitialValid | main.cpp:440-452 | the pager starts valid, on line 0 |
| Viewer.Redisplay | main.cpp:446 | the display lines are fold_lines of the input |
| Viewer.Pager.constructor | main.cpp:440-452 | the set-up takes max_colums of the lines (at least the columns of every line, 0 for no lines, equal to the columns of some line), then the initial state, which satisfies the invariant |
| Viewer.Pager.Relayout | main.cpp:560-569 | the relayout block moves the fields to Layout of the old state |
| Viewer.Pager.Refit | main.cpp:562-568 | the part after fold_lines moves the fields to Rescale of the old state |
| Viewer.Pager.Press | main.cpp:456-569 | q quits and changes nothing; any other key moves the fields to Next; the invariant holds after each key |
| Viewer.Pager.Apply | main.cpp:482-558 | the switch changes the fields as KeyEffect says, and reports whether a relayout follows |
| Viewer.Pager.ScrollForward | main.cpp:460-473 | scroll_forward via scroll_core moves the current line as Forward does |
| Viewer.Pager.ScrollBackward | main.cpp:460-478 | scroll_backword via scroll_core moves the current line as Backward does |
| WrapFinding.ScanBackUnsignedVsSigned | main.cpp:140-146 | the unsigned scan as written agrees with the signed one, except that in a segment starting at 0 with no space it reads offset 2^64 - 1 |
| WrapFinding.HelloWorldScanOutOfBounds | main.cpp:140-146 | on "helloworld12345" the scan as written reads offset 2^64 - 1 |
| WrapFinding.HelloWorldReachesScan | main.cpp:117-139 | with word wrap at 10 columns that line reaches the scan with start 0 |
| PyText.ColumnLen | immersion.py:38-40 | column_len is 2 exactly for wide (W, F, A) characters, else 1 |
| PyText.IsInvalidStartChar | immersion.py:42-43 | closing punctuation is never a space |
| PyText.InvalidStartIsClosing | immersion.py:42-43 | is_invalid_start_char holds exactly for the ten listed characters |
| PyText.VisibleColumns | immersion.py:10-18 | the width of a line by east_asian_width lies between its length and twice its length |
| PyText.Columns | immersion.py:10-18 | columns as written returns LetterColumns, which tests the character and not its width class |
| PyText.LetterColumnsCount | immersion.py:10-18 | columns as written is the length plus the number of 'A', 'F' and 'W' letters |
| PyText.LetterColumnsAsWidth | immersion.py:10-18 | columns as written is the width of a line where exactly 'A', 'F' and 'W' are wide |
| PyText.ColumnsMisreadsWidth | immersion.py:13-14 | "あ" counts 1 column instead of 2, and "A" 2 instead of 1 |
| PyText.VisibleWidth | immersion.py:10-18 | the loop summing column_len returns VisibleColumns |
| PyText.MaxColumns | immersion.py:20-24 | max_colums is at least the width of every line, 0 for no lines, and equal to the width of some line |
| PyFold.SkipSpaces | immersion.py:72-75 | the skip after closing punctuation passes only spaces and stops at a non-space or the end |
| PyFold.ScanBack | immersion.py:85-89 | the backward scan returns the nearest space at or after the segment start, or start - 1, reading only inside the segment |
| PyFold.OverflowRules | immersion.py:65-104 | for a character that overflows: closing punctuation stays and the spaces after it are skipped; a space is dropped; word wrap ends before the nearest space or breaks hard; without word wrap the break is hard |
| PyFold.FoldTurn | immersion.py:58-104 | a turn raises exactly at an overstrike prefix whose backspace is the last character of the line |
| PyFold.DecideFacts | immersion.py:65-104 | a turn keeps start <= pos <= end and makes progress; a cut starts at the segment start and leaves out only spaces, more than one only after closing punctuation |
| PyFold.TurnFacts | immersion.py:57-104 | the same for a turn that does not raise |
| PyFold.FoldFromFolded | immersion.py:57-107 | the segments still to come tile the rest of the line |
| PyFold.FoldFromRaises | immersion.py:60-62 | a line whose last character is not a backspace never raises |
| PyFold.FoldCuts | immersion.py:45-109 | the segments tile the line with only spaces left out; an empty line gives one empty segment |
| PyFold.FoldCutsReturns | immersion.py:45-109 | fold_line returns for every line that does not end in a backspace |
| PyFold.Measure | immersion.py:58-63 | the measuring code finds the character the specification measures, or raises past the end |
| PyFold.DecideStep | immersion.py:65-104 | the break rules of the loop body compute the specification's turn |
| PyFold.FoldStep | immersion.py:57-104 | one loop turn raises when the specification does, else moves its cut to the finished segments |
| PyFold.FoldLoop | immersion.py:52-107 | the loop returns the slices at the specification's cuts, or raises |
| PyFold.TrailingPairRaises | immersion.py:60-62 | fold_line of "a" BS raises IndexError |
| PyFold.FoldLine | immersion.py:45-109 | fold_line returns the texts at the specification's cuts, or IndexError |
| PyAttr.OverstrikeRules | immersion.py:120-123 | `_` BS c gives c underlined, c BS c gives c bold, `_` BS `_` gives both, any other pair nothing |
| PyAttr.CellsFromBound | immersion.py:111-128 | no more cells than characters |
| PyAttr.PlainCells | immersion.py:124-126 | a line without backspaces gives each character with A_NORMAL |
| PyAttr.CellsFromReturns | immersion.py:114-119 | a line that does not end in a backspace never raises |
| PyAttr.TrailingPairRaises | immersion.py:116-118 | "x" BS raises IndexError |
| PyAttr.ToAttributedLine | immersion.py:111-128 | to_attributed_line returns the specification's cells or IndexError |
| PyReflow.AllOfReturned | immersion.py:139-140 | when no element raises, the results are one per element, in order |
| PyReflow.AllOfRaises | immersion.py:139-140 | the loop raises exactly when one of its elements does |
| PyReflow.FilterFromKeeps | immersion.py:131 | the comprehension keeps every element it visits |
| PyReflow.FilterKeepsEveryLine | immersion.py:131 | the comprehension keeps every line, empty ones included, with or without line spacing |
| PyReflow.SeparatorIsEmptyLine | immersion.py:137-138 | the separator is to_attributed_line(''), an empty row |
| PyReflow.FoldLinesRaises | immersion.py:130-141 | fold_lines raises exactly when one input line does |
| PyReflow.NoLinespaceIsConcat | immersion.py:134-140 | without line spacing the output is each line's rows in order |
| PyReflow.LinespaceKeepsEveryLine | immersion.py:134-140 | with line spacing each line's rows appear in order, joined by one empty row, and the count is their total plus the gaps |
| PyReflow.SegmentRowsPerSegment | immersion.py:139-140 | each segment gives exactly one row, its to_attributed_line |
| PyReflow.FoldCutsNonEmpty | immersion.py:48-50 | fold_line gives every line at least one segment |
| PyReflow.LineRowsNonEmpty | immersion.py:139-140 | every input line that does not raise gives at least one row |
| PyReflow.ReflowedRowCount | immersion.py:130-141 | at least one row per input line, plus the separators under line spacing |
| PyReflow.TotalAtLeast | immersion.py:139-140 | non-empty groups hold at least as many rows as there are groups |
| PyReflow.PlainLineReturns | immersion.py:139-140 | a line without backspaces never raises |
| PyReflow.PlainLinesReturn | immersion.py:130-141 | fold_lines of lines without backspaces never raises |
| PyReflow.PairAtBreakRaises | immersion.py:60-62 | at 1 column "ab" BS "b" folds into "ab" BS and "b", and to_attributed_line of the first raises |
| PyReflow.RenderLine | immersion.py:139-140 | the inner loop returns the line's rows or raises |
| PyReflow.FoldLinesLoop | immersion.py:132-141 | the loop of fold_lines returns the lines' rows joined by the separator, or raises |
| PyReflow.FoldLines | immersion.py:130-141 | fold_lines returns the specification's rows or IndexError |
| PyGeometry.TruncHalf | immersion.py:28 | `int(x / 2)` halves toward zero |
| PyGeometry.CalcMargin | immersion.py:26-28 | the margin is at least the minimum; above it, the margins and the shown lines fill the terminal to within one row |
| PyGeometry.OversizedRowsMinMargin | immersion.py:28 | when the shown lines fill the terminal, the margin is the minimum margin |
| PyGeometry.TenInTwentyFour | immersion.py:26-28 | 10 rows of 100 lines in a 24-row terminal give margins of 7 |
| PyGeometry.CalcPageLines | immersion.py:30-36 | page plus bottom line is the line count, and the bottom line is 0 when the lines fit |
| PyGeometry.PageLinesSplit | immersion.py:30-36 | everything on one page when it fits, else a page is `rows` lines |
| PyGeometry.HundredInTwenty | immersion.py:30-36 | 100 lines in 20 rows give pages of 20 and bottom line 80 |
| PyGeometry.NegativeRowsPage | immersion.py:30-36 | negative rows give a negative page, and the bottom line lies past the last line |
| PyViewer.LayoutValid | immersion.py:226-233 | a relayout that returns establishes the invariant, keeps the terminal size, width and line spacing, and keeps or clamps the current line |
| PyViewer.LayoutRaises | immersion.py:227 | a relayout raises exactly when fold_lines does |
| PyViewer.ScrollKeysKeepLayout | immersion.py:216-221 | a key that does not relayout changes only the current line and keeps it between 0 and the bottom line |
| PyViewer.NextValid | immersion.py:197-233 | every key whose relayout returns keeps the invariant |
| PyViewer.NextRaises | immersion.py:226-227 | a key raises exactly when it relayouts and fold_lines raises |
| PyViewer.PlainInputNeverRaises | immersion.py:197-233 | input without backspaces never makes a key raise |
| PyViewer.PageInside | immersion.py:154-157 | under the invariant a page from the current line, and the window draw fills when the lines do not all fit, end within the display lines |
| PyViewer.LineKeys | immersion.py:216-221 | j moves one line down exactly when above the bottom line; k one up exactly when below the top |
| PyViewer.ResizeKey | immersion.py:222-224 | only KEY_RESIZE reads the terminal size |
| PyViewer.OtherKeysIgnored | immersion.py:197-224 | every other key changes nothing |
| PyViewer.InitialValid | immersion.py:176-186 | the pager starts valid, on line 0, unless the first fold_lines raises |
| PyViewer.Redisplay | immersion.py:181 | the display lines are fold_lines of the input |
| PyViewer.PyPager.constructor | immersion.py:174-186 | the set-up takes the widest line (at least the width of every line, 0 for no lines, equal to the width of some line) and the initial state, or records the crash |
| PyViewer.PyPager.Relayout | immersion.py:226-233 | the relayout block moves the fields to Layout of the old state, or raises and changes nothing |
| PyViewer.PyPager.Refit | immersion.py:228-233 | the part after fold_lines moves the fields to Rescale of the old state |
| PyViewer.PyPager.Press | immersion.py:190-233 | q quits; any other key moves the fields to Next or crashes exactly when Next raises; the invariant holds |
| PyViewer.PyPager.Apply | immersion.py:195-224 | the if-chain changes the fields as KeyEffect says and reports whether a relayout follows |

## Left out

- Terminal I/O is left out: curses and ncurses set-up, `draw`, `getch`, `erase`, `refresh` and `endwin`. The display lines are state; only the bounds of the lines that `draw` reads are proved (`Viewer.PageInside`, `PyViewer.PageInside`). The key is a parameter of each step.
- Command-line parsing (`getopt`, `argparse`), `read_lines`, the signal handler and the locale set-up are left out. Their results are the constructor's parameters.
- The UTF-8 decoder of `utf8.h` is not part of this model. It is the abstract `Scan.Scanner`: a character of at least one byte that ends inside the line and is at most two columns wide. What it does at or past the end of the line is not part of this model; `Scan.Decode` returns an empty glyph there.
- `unicodedata.east_asian_width` is the parameter `wide`, true for the W, F and A classes.
- `split` and `std::stoi` of the SGR parameters are the parameter `parse`. `stoi` throws on an empty parameter and that is not modelled.
- Scan.Decode: does not model what utf8CharLen reads at or past the end of the buffer, because utf8.h is not part of this model.
- Viewer.Pager.ScrollForward: models the net change of the current line, not the repaint `scroll_core` does after each step.
- Viewer.Pager.ScrollBackward: the same; the `int` casts in `scroll_backword` are read as exact, because the current line and the page never exceed the number of display lines.
- Viewer: `current_line` is an `int` in `main.cpp` and a `nat` in the model. Under the invariant it lies between 0 and the bottom line; the model does not bound the bottom line by 2^31.
- Attr: the colour-pair field is a set of the codes ORed into it. ORing two different colour codes gives some other pair number in ncurses; the model keeps the set.
- PyGeometry.TruncHalf: `int(x / 2)` divides as a float; the model is exact, which matches Python only below 2^53.
- PyViewer.PyPager: after fold_lines raises, the Python pager stops with the exception. The model records this in `crashed`, and `Press` requires a pager that has not crashed.
- PyText.MaxColumns: uses the corrected column count (see Findings), not the `columns` as written.
- PyViewer.PyPager.constructor: the initial `max_cols`, and the `cols` and `display_cols` computed from it (immersion.py:177-182), follow the corrected width `PyText.VisibleColumns`, not `max_colums` as written, which counts letters as two columns and wide characters as one; for the single line "あいう" on an 80-column terminal with margin 2 the program starts at 3 columns and the model at 6.
- FoldWidth.FoldWithinWidth: the width bound (and with it FoldWidth.FoldFromWithinWidth and FoldWidth.AdvanceMeasured) is proved only for tame lines (`Scan.Tame`): stepping again from the glyph a step reached gives the same glyph. Every line without ESC and BS bytes is tame; an SGR run followed directly by another ESC or by an overstrike prefix, or an overstrike pair whose second character opens another pair (`FoldExamples.UnderlinedBoldNotTame`), is not. After a hard break `fold_line` restarts at the glyph it reached past the prefix and measures it as a plain character, while the width the bound is stated in steps again from that position, and on such lines the two can differ.
- The `f b d u g G` keys listed in the Python usage text are not handled by the Python loop, and the model follows the loop (`PyViewer.OtherKeysIgnored`).

## Findings

| source | as written | input that shows it | evidently intended | confidence | as-written member | corrected member |
|---|---|---|---|---|---|---|
| main.cpp:140-146 | `pos2` is a `size_t`; when the segment starts at 0 and holds no space, `pos2--` wraps from 0 to 2^64 - 1, `start <= pos2` still holds, and `line[pos2]` is read out of bounds | "helloworld12345", 10 columns, word wrap on | stop below the segment start and break hard, as immersion.py:85-90 does with signed indices | not executed | WrapFinding.ScanBackUnsignedVsSigned, WrapFinding.HelloWorldScanOutOfBounds | Fold.ScanBack, FoldExamples.NoWrapHardBreak |
| immersion.py:13-14 | `columns` computes `w = east_asian_width(c)` but then tests `c == 'A' or c == 'F' or c == 'W'`, so it counts letters, not wide characters | "あ" counts 1 column, "A" counts 2 | 2 columns for the W, F and A width classes, as `column_len` (immersion.py:38-40) does | not executed | PyText.Columns, PyText.ColumnsMisreadsWidth | PyText.VisibleColumns, PyText.MaxColumns |
