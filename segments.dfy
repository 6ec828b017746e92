/** Segments of a line: a segment is the slice line[lo..hi) of the line it was cut from. */
module Segments {

  datatype Cut = Cut(lo: nat, hi: nat)

  /** Every element of line[a..b) is the space value. */
  ghost predicate Blank<T>(line: seq<T>, a: nat, b: nat, space: T)
    requires a <= b <= |line|
  {
    forall k :: a <= k < b ==> line[k] == space
  }

  /** Every cut lies inside the line. */
  ghost predicate InRange<T>(line: seq<T>, cuts: seq<Cut>)
  {
    forall i :: 0 <= i < |cuts| ==> cuts[i].lo <= cuts[i].hi <= |line|
  }

  /** Where the gap after the first cut ends: at the next cut, or at the end of the line. */
  function Next<T>(line: seq<T>, cuts: seq<Cut>): nat
    requires cuts != []
  {
    if |cuts| == 1 then |line| else cuts[1].lo
  }

  /** The cuts cover line[from..] left to right, in order and without overlap; the elements
      that fall in no cut (between two cuts, or after the last) are all `space`. No cut at all
      means nothing is left to cover. */
  ghost predicate Tiling<T>(line: seq<T>, cuts: seq<Cut>, from: nat, space: T)
    decreases |cuts|
  {
    if cuts == [] then from == |line|
    else
      && cuts[0].lo == from
      && cuts[0].lo <= cuts[0].hi <= Next(line, cuts) <= |line|
      && Blank(line, cuts[0].hi, Next(line, cuts), space)
      && Tiling(line, cuts[1..], Next(line, cuts), space)
  }

  lemma {:induction false} TilingInRange<T>(line: seq<T>, cuts: seq<Cut>, from: nat, space: T)
    requires Tiling(line, cuts, from, space)
    ensures InRange(line, cuts)
    ensures from <= |line|
    ensures forall i :: 0 <= i < |cuts| ==> from <= cuts[i].lo
    decreases |cuts|
  {
    if cuts != [] {
      TilingInRange(line, cuts[1..], Next(line, cuts), space);
      forall i | 0 <= i < |cuts| ensures from <= cuts[i].lo <= cuts[i].hi <= |line| {
        if i > 0 { assert cuts[i] == cuts[1..][i - 1]; }
      }
    }
  }

  /** The text of every cut, in order. */
  function Slices<T>(line: seq<T>, cuts: seq<Cut>): (r: seq<seq<T>>)
    requires InRange(line, cuts)
    ensures |r| == |cuts|
    ensures forall i :: 0 <= i < |cuts| ==> r[i] == line[cuts[i].lo..cuts[i].hi]
  {
    if cuts == [] then [] else [line[cuts[0].lo..cuts[0].hi]] + Slices(line, cuts[1..])
  }

  lemma SlicesAppend<T>(line: seq<T>, cuts: seq<Cut>, c: Cut)
    requires InRange(line, cuts) && c.lo <= c.hi <= |line|
    ensures InRange(line, cuts + [c])
    ensures Slices(line, cuts + [c]) == Slices(line, cuts) + [line[c.lo..c.hi]]
  {
    var all := cuts + [c];
    assert forall i :: 0 <= i < |cuts| ==> all[i] == cuts[i];
  }

  lemma InRangePrefix<T>(line: seq<T>, cuts: seq<Cut>, rest: seq<Cut>)
    requires InRange(line, cuts + rest)
    ensures InRange(line, cuts) && InRange(line, rest)
  {
    var all := cuts + rest;
    assert forall i :: 0 <= i < |cuts| ==> all[i] == cuts[i];
    assert forall i :: 0 <= i < |rest| ==> all[|cuts| + i] == rest[i];
  }

  lemma SeqAssoc<T>(a: seq<T>, b: seq<T>, c: seq<T>)
    ensures a + (b + c) == (a + b) + c
  {
  }
}
