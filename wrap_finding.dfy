/** The backward word-wrap scan of main.cpp:140-146 as written, with `pos2` an unsigned
    64-bit size_t. When the segment starts at offset 0 and holds no space, `pos2--` wraps
    from 0 to 2^64 - 1, the loop guard `start <= pos2` still holds and line[pos2] is read far
    outside the line. The rest of the model uses the signed scan Fold.ScanBack instead, which
    is what immersion.py:85-90 does. */
module WrapFinding {
  import opened Scan
  import opened Fold
  import opened FoldExamples

  /** How the unsigned scan ends: at a space, below `start`, or reading past the line. */
  datatype Read = FoundSpace(at: nat) | Below(at: nat) | OutOfBounds(at: nat)

  /** The scan as written: from `pos2` down while `start <= pos2`, with 64-bit wrap-around
      on the decrement; a read at or past the end of the line is an error. */
  function ScanBackUnsigned(line: seq<Byte>, start: nat, pos2: nat): (r: Read)
    requires pos2 < W64 && |line| < W64
    decreases if pos2 < |line| then pos2 + 1 else 0
  {
    if start <= pos2 then
      if pos2 >= |line| then OutOfBounds(pos2)
      else if line[pos2] == SPACE then FoundSpace(pos2)
      else ScanBackUnsigned(line, start, (pos2 - 1) % W64)
    else Below(pos2)
  }

  /** The unsigned scan agrees with the signed one, except that where the signed scan finds
      no space in a segment that starts at 0, the unsigned one reads offset 2^64 - 1. */
  lemma {:induction false} ScanBackUnsignedVsSigned(line: seq<Byte>, start: nat, pos2: nat)
    requires |line| < W64 && start <= pos2 + 1 && pos2 < |line|
    ensures var r := ScanBack(line, start, pos2);
      && (r >= start ==> ScanBackUnsigned(line, start, pos2) == FoundSpace(r))
      && (r < start && start > 0 ==> ScanBackUnsigned(line, start, pos2) == Below(start - 1))
      && (r < start && start == 0 ==> ScanBackUnsigned(line, start, pos2) == OutOfBounds(W64 - 1))
    decreases pos2
  {
    if start <= pos2 && line[pos2] != SPACE {
      if pos2 > 0 {
        ScanBackUnsignedVsSigned(line, start, pos2 - 1);
      } else {
        assert (pos2 - 1) % W64 == W64 - 1;
      }
    }
  }

  /** "helloworld" holds no space, so the scan as written, started at offset 9 of
      "helloworld12345" with the segment starting at 0, reads offset 2^64 - 1. */
  lemma HelloWorldScanOutOfBounds()
    ensures ScanBackUnsigned(HELLO_WORLD_12345, 0, 9) == OutOfBounds(W64 - 1)
  {
    var line := HELLO_WORLD_12345;
    assert forall k :: 0 <= k < 10 ==> line[k] != SPACE;
    assert ScanBack(line, 0, 9) == -1;
    ScanBackUnsignedVsSigned(line, 0, 9);
  }

  /** With word wrap on, "helloworld12345" at ten columns reaches the scan with start = 0
      and pos = 10 (FoldExamples.HardBreakHead): there the '1' does not fit and is neither
      closing punctuation nor a space, so the turn goes to the backward scan. */
  lemma HelloWorldReachesScan(sc: Scanner)
    requires Ascii(sc)
    ensures var g := Step(sc, HELLO_WORLD_12345, 10);
      && g == Probe(10, 1, 1) && 10 + g.width > 10
      && !IsInvalidStartChar(HELLO_WORLD_12345[10..11]) && HELLO_WORLD_12345[10..11] != [SPACE]
  {
    HelloWorld12345Plain();
    AsciiStep(sc, HELLO_WORLD_12345, 10);
    var one := HELLO_WORLD_12345[10..11];
    assert |one| == 1 && one[0] == 0x31;
  }
}
