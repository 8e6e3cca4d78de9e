/** Replacing a header and the lines below it. */
module BlockPasses {
  import opened GoStrings
  import opened LinePasses

  /** Which lines are headers, which lines belong to a block of a given depth, and how a line is indented. */
  datatype Shape = Shape(head: string -> bool, below: (string, nat) -> bool, indent: string -> string)

  /** How many lines from the start belong to a block of this depth. */
  function BlockLen(shape: Shape, ls: seq<string>, base: nat): (n: nat)
    ensures n <= |ls|
    ensures forall k :: 0 <= k < n ==> shape.below(ls[k], base)
    ensures n < |ls| ==> !shape.below(ls[n], base)
  {
    if ls != [] && shape.below(ls[0], base) then 1 + BlockLen(shape, ls[1..], base) else 0
  }

  /** What follows the block of the header on the first line. */
  function AfterBlock(shape: Shape, ls: seq<string>): (rest: seq<string>)
    requires ls != []
    ensures |rest| < |ls| && forall l :: l in rest ==> l in ls
    ensures rest != [] ==> !shape.below(rest[0], |shape.indent(ls[0])| + 2)
  {
    var n := BlockLen(shape, ls[1..], |shape.indent(ls[0])| + 2);
    assert 1 + n < |ls| ==> ls[1..][n] == ls[1 + n];
    ls[1 + n..]
  }

  /** Replaces each header and its block by the lines made from the header's indentation. */
  function ReplaceBlocks(shape: Shape, block: Step, ls: seq<string>): seq<string>
    decreases |ls|
  {
    if ls == [] then []
    else if shape.head(ls[0]) then
      block(shape.indent(ls[0])) + ReplaceBlocks(shape, block, AfterBlock(shape, ls))
    else [ls[0]] + ReplaceBlocks(shape, block, ls[1..])
  }

  lemma {:induction false} BlockOfAll(shape: Shape, a: seq<string>, b: seq<string>, base: nat)
    requires forall x :: x in a ==> shape.below(x, base)
    ensures BlockLen(shape, a + b, base) == |a| + BlockLen(shape, b, base)
  {
    if a == [] {
      assert a + b == b;
    } else {
      assert a[0] in a && (a + b)[1..] == a[1..] + b;
      BlockOfAll(shape, a[1..], b, base);
    }
  }

  lemma {:induction false} NoHeadersPassThrough(shape: Shape, block: Step, a: seq<string>, b: seq<string>)
    requires forall x :: x in a ==> !shape.head(x)
    ensures ReplaceBlocks(shape, block, a + b) == a + ReplaceBlocks(shape, block, b)
  {
    if a == [] {
      assert a + b == b;
    } else {
      assert a[0] in a && (a + b)[1..] == a[1..] + b;
      NoHeadersPassThrough(shape, block, a[1..], b);
    }
  }

  lemma {:induction false} BlocksKeepLines(shape: Shape, block: Step, ls: seq<string>)
    requires AllOneLine(ls) && forall l :: AllOneLine(block(shape.indent(l)))
    ensures AllOneLine(ReplaceBlocks(shape, block, ls))
    decreases |ls|
  {
    if ls != [] {
      assert ls[0] in ls;
      if shape.head(ls[0]) {
        BlocksKeepLines(shape, block, AfterBlock(shape, ls));
      } else {
        assert forall l :: l in ls[1..] ==> l in ls;
        BlocksKeepLines(shape, block, ls[1..]);
      }
    }
  }

  lemma AtHeader(shape: Shape, block: Step, ls: seq<string>, i: nat, next: nat)
    requires i < |ls| && shape.head(ls[i]) && next == i + 1 + BlockLen(shape, ls[i + 1..], |shape.indent(ls[i])| + 2)
    ensures next <= |ls|
    ensures ReplaceBlocks(shape, block, ls[i..]) == block(shape.indent(ls[i])) + ReplaceBlocks(shape, block, ls[next..])
  {
    var all := ls[i..];
    assert all[0] == ls[i] && all[1..] == ls[i + 1..];
    assert AfterBlock(shape, all) == ls[next..];
  }

  lemma AtOtherLine(shape: Shape, block: Step, ls: seq<string>, i: nat)
    requires i < |ls| && !shape.head(ls[i])
    ensures ReplaceBlocks(shape, block, ls[i..]) == [ls[i]] + ReplaceBlocks(shape, block, ls[i + 1..])
  {
    assert ls[i..][1..] == ls[i + 1..];
  }

  // ----- the loops -----

  /** The inner loop: skips the lines of a block. */
  method SkipBlock(shape: Shape, lines: seq<string>, start: nat, base: nat) returns (i: nat)
    requires start <= |lines|
    ensures i == start + BlockLen(shape, lines[start..], base)
  {
    i := start;
    while i < |lines| && shape.below(lines[i], base)
      invariant start <= i <= |lines|
      invariant i - start + BlockLen(shape, lines[i..], base) == BlockLen(shape, lines[start..], base)
    {
      assert lines[i..][1..] == lines[i + 1..];
      i := i + 1;
    }
  }

  /** One round of the outer loop: the lines it appends and where it goes on. */
  method NextPiece(shape: Shape, block: Step, lines: seq<string>, i: nat) returns (piece: seq<string>, next: nat)
    requires i < |lines|
    ensures i < next <= |lines|
    ensures ReplaceBlocks(shape, block, lines[i..]) == piece + ReplaceBlocks(shape, block, lines[next..])
  {
    var line := lines[i];
    if shape.head(line) {
      piece := block(shape.indent(line));
      next := SkipBlock(shape, lines, i + 1, |shape.indent(line)| + 2);
      AtHeader(shape, block, lines, i, next);
    } else {
      AtOtherLine(shape, block, lines, i);
      piece := [line];
      next := i + 1;
    }
  }

  /** The outer loop, for any lines that replace a block. */
  method ReplaceEachBlock(shape: Shape, block: Step, lines: seq<string>) returns (result: seq<string>)
    ensures result == ReplaceBlocks(shape, block, lines)
  {
    result := [];
    var i := 0;
    ghost var whole := ReplaceBlocks(shape, block, lines);
    assert lines[0..] == lines;
    while i < |lines|
      invariant 0 <= i <= |lines| && result + ReplaceBlocks(shape, block, lines[i..]) == whole
    {
      var piece, next := NextPiece(shape, block, lines, i);
      Regroup(result, piece, ReplaceBlocks(shape, block, lines[next..]));
      result, i := result + piece, next;
    }
    assert lines[i..] == [];
  }
}
