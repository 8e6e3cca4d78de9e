/** Steps before and after a block replacement, fused with it into one pass. */
module BlockFusion {
  import opened GoStrings
  import opened LinePasses
  import opened BlockPasses

  /** A line that goes with the block above it: part of the block, or dropped anyway. */
  predicate Skipped(shape: Shape, dropped: string -> bool, l: string, base: nat) {
    shape.below(l, base) || dropped(l)
  }

  function SkipLen(shape: Shape, dropped: string -> bool, ls: seq<string>, base: nat): (n: nat)
    ensures n <= |ls|
  {
    if ls != [] && Skipped(shape, dropped, ls[0], base) then 1 + SkipLen(shape, dropped, ls[1..], base) else 0
  }

  /** The fused pass: headers take their block with them, other lines are rewritten alone. */
  function FusedLines(shape: Shape, emit: Step, block: Step, dropped: string -> bool, ls: seq<string>): seq<string>
    decreases |ls|
  {
    if ls == [] then []
    else if shape.head(ls[0]) then
      var n := SkipLen(shape, dropped, ls[1..], |shape.indent(ls[0])| + 2);
      block(shape.indent(ls[0])) + FusedLines(shape, emit, block, dropped, ls[1 + n..])
    else emit(ls[0]) + FusedLines(shape, emit, block, dropped, ls[1..])
  }

  /** Lines that the search for blocks cannot tell apart. */
  ghost predicate Alike(shape: Shape, x: string, l: string) {
    (shape.head(x) <==> shape.head(l)) && forall base: nat :: shape.below(x, base) <==> shape.below(l, base)
  }

  /** A step that drops some lines and leaves lines like the others in their places. */
  ghost predicate KeepsShape(shape: Shape, pre: Step, dropped: string -> bool) {
    forall l ::
      && (pre(l) == [] <==> dropped(l))
      && (shape.head(l) ==> pre(l) == [l])
      && (forall x :: x in pre(l) ==> Alike(shape, x, l))
  }

  /** The block found after a step is what became of the lines the fused pass skips. */
  lemma {:induction false} BlocksCorrespond(shape: Shape, pre: Step, dropped: string -> bool, ls: seq<string>,
                                            base: nat)
    requires KeepsShape(shape, pre, dropped)
    ensures
      var after := FlatMap(pre, ls);
      after[BlockLen(shape, after, base)..] == FlatMap(pre, ls[SkipLen(shape, dropped, ls, base)..])
  {
    if ls != [] {
      var l, rest := ls[0], ls[1..];
      var after := FlatMap(pre, ls);
      if Skipped(shape, dropped, l, base) {
        BlockOfAll(shape, pre(l), FlatMap(pre, rest), base);
        BlocksCorrespond(shape, pre, dropped, rest, base);
        assert ls[SkipLen(shape, dropped, ls, base)..] == rest[SkipLen(shape, dropped, rest, base)..];
        assert after[BlockLen(shape, after, base)..] == FlatMap(pre, rest)[BlockLen(shape, FlatMap(pre, rest), base)..];
      } else {
        assert after[0] == pre(l)[0] && pre(l)[0] in pre(l);
        assert !shape.below(after[0], base);
      }
    }
  }

  lemma HeaderFirst(shape: Shape, block: Step, l: string, ls: seq<string>)
    requires shape.head(l)
    ensures ReplaceBlocks(shape, block, [l] + ls)
      == block(shape.indent(l)) + ReplaceBlocks(shape, block, ls[BlockLen(shape, ls, |shape.indent(l)| + 2)..])
  {
    var all := [l] + ls;
    var n := BlockLen(shape, ls, |shape.indent(l)| + 2);
    assert all[1..] == ls && all[1 + n..] == ls[n..];
  }

  /** What a step that keeps the shape of lines leaves of a header and what follows. */
  lemma HeaderStays(shape: Shape, pre: Step, dropped: string -> bool, ls: seq<string>)
    requires KeepsShape(shape, pre, dropped) && ls != [] && shape.head(ls[0])
    ensures
      var after := FlatMap(pre, ls[1..]);
      var base := |shape.indent(ls[0])| + 2;
      && FlatMap(pre, ls) == [ls[0]] + after
      && after[BlockLen(shape, after, base)..] == FlatMap(pre, ls[1 + SkipLen(shape, dropped, ls[1..], base)..])
  {
    var rest := ls[1..];
    var base := |shape.indent(ls[0])| + 2;
    BlocksCorrespond(shape, pre, dropped, rest, base);
    assert rest[SkipLen(shape, dropped, rest, base)..] == ls[1 + SkipLen(shape, dropped, rest, base)..];
  }

  lemma HeaderFuses(shape: Shape, pre: Step, post: Step, block: Step, dropped: string -> bool, ls: seq<string>)
    requires KeepsShape(shape, pre, dropped) && ls != [] && shape.head(ls[0])
    requires FlatMap(post, block(shape.indent(ls[0]))) == block(shape.indent(ls[0]))
    ensures
      var n := SkipLen(shape, dropped, ls[1..], |shape.indent(ls[0])| + 2);
      FlatMap(post, ReplaceBlocks(shape, block, FlatMap(pre, ls)))
        == block(shape.indent(ls[0])) + FlatMap(post, ReplaceBlocks(shape, block, FlatMap(pre, ls[1 + n..])))
  {
    var after := FlatMap(pre, ls[1..]);
    var tail := ReplaceBlocks(shape, block, after[BlockLen(shape, after, |shape.indent(ls[0])| + 2)..]);
    HeaderStays(shape, pre, dropped, ls);
    HeaderFirst(shape, block, ls[0], after);
    FlatMapConcat(post, block(shape.indent(ls[0])), tail);
  }

  /** Steps before and after the blocks are replaced fuse with the replacement into one pass. */
  lemma {:induction false} LinesFuse(shape: Shape, pre: Step, post: Step, emit: Step, block: Step,
                                     dropped: string -> bool, ls: seq<string>)
    requires KeepsShape(shape, pre, dropped)
    requires forall l :: !shape.head(l) ==> emit(l) == FlatMap(post, pre(l))
    requires forall l :: FlatMap(post, block(shape.indent(l))) == block(shape.indent(l))
    ensures FlatMap(post, ReplaceBlocks(shape, block, FlatMap(pre, ls))) == FusedLines(shape, emit, block, dropped, ls)
    decreases |ls|
  {
    if ls != [] {
      var l, rest := ls[0], ls[1..];
      if shape.head(l) {
        HeaderFuses(shape, pre, post, block, dropped, ls);
        var n := SkipLen(shape, dropped, rest, |shape.indent(l)| + 2);
        LinesFuse(shape, pre, post, emit, block, dropped, ls[1 + n..]);
      } else {
        var after := FlatMap(pre, rest);
        NoHeadersPassThrough(shape, block, pre(l), after);
        FlatMapConcat(post, pre(l), ReplaceBlocks(shape, block, after));
        LinesFuse(shape, pre, post, emit, block, dropped, rest);
      }
    }
  }

  lemma {:induction false} FusedKeepsLines(shape: Shape, emit: Step, block: Step, dropped: string -> bool,
                                           ls: seq<string>)
    requires AllOneLine(ls) && KeepsLines(emit)
    requires forall l :: AllOneLine(block(shape.indent(l)))
    ensures AllOneLine(FusedLines(shape, emit, block, dropped, ls))
    decreases |ls|
  {
    if ls != [] {
      assert ls[0] in ls;
      if shape.head(ls[0]) {
        var n := SkipLen(shape, dropped, ls[1..], |shape.indent(ls[0])| + 2);
        assert forall l :: l in ls[1 + n..] ==> l in ls;
        FusedKeepsLines(shape, emit, block, dropped, ls[1 + n..]);
      } else {
        assert forall l :: l in ls[1..] ==> l in ls;
        FusedKeepsLines(shape, emit, block, dropped, ls[1..]);
      }
    }
  }

  /** Six single steps around the replacement are two. */
  lemma StepsCompose(shape: Shape, a: Step, b: Step, c: Step, pre: Step, x: Step, y: Step, z: Step, post: Step,
                     block: Step, ls: seq<string>)
    requires forall l :: pre(l) == FlatMap(c, FlatMap(b, a(l)))
    requires forall l :: post(l) == FlatMap(z, FlatMap(y, x(l)))
    ensures
      FlatMap(z, FlatMap(y, FlatMap(x, ReplaceBlocks(shape, block, FlatMap(c, FlatMap(b, FlatMap(a, ls)))))))
      == FlatMap(post, ReplaceBlocks(shape, block, FlatMap(pre, ls)))
  {
    ThreeSteps(a, b, c, pre, ls);
    ThreeSteps(x, y, z, post, ReplaceBlocks(shape, block, FlatMap(pre, ls)));
  }

  /** Seven passes that split and join each time give the seventh line list. */
  lemma {:induction false} TextsCompose(shape: Shape, a: Step, b: Step, c: Step, block: Step, x: Step, y: Step,
                                        z: Step, raw: string)
    requires KeepsLines(a) && KeepsLines(b) && KeepsLines(c) && KeepsLines(x) && KeepsLines(y)
    requires b("") == c("") == x("") == y("") == z("") == [""] && !shape.head("")
    requires forall l :: AllOneLine(block(shape.indent(l)))
    ensures
      Rewritten(z, Rewritten(y, Rewritten(x,
        Join(ReplaceBlocks(shape, block, Split(Rewritten(c, Rewritten(b, Rewritten(a, raw)))))))))
      == Join(FlatMap(z, FlatMap(y, FlatMap(x,
           ReplaceBlocks(shape, block, FlatMap(c, FlatMap(b, FlatMap(a, Split(raw)))))))))
  {
    var l0 := Split(raw);
    var l1 := FlatMap(a, l0);
    FlatMapKeepsLines(a, l0);
    RewrittenAfter(b, l1);
    var l2 := FlatMap(b, l1);
    FlatMapKeepsLines(b, l1);
    RewrittenAfter(c, l2);
    var l3 := FlatMap(c, l2);
    FlatMapKeepsLines(c, l2);
    var p: seq<string> -> seq<string> := ls => ReplaceBlocks(shape, block, ls);
    SplitBetweenPasses(p, l3);
    var l4 := ReplaceBlocks(shape, block, l3);
    BlocksKeepLines(shape, block, l3);
    RewrittenAfter(x, l4);
    var l5 := FlatMap(x, l4);
    FlatMapKeepsLines(x, l4);
    RewrittenAfter(y, l5);
    FlatMapKeepsLines(y, l5);
    RewrittenAfter(z, FlatMap(y, l5));
  }

  predicate Never(l: string) {
    false
  }

  /** Where a block ends at the first line, it would end at the second. */
  ghost predicate EndsToo(shape: Shape, l: string, next: string) {
    forall base: nat :: !shape.below(l, base) ==> !shape.below(next, base)
  }

  /** A block that has ended at a dropped line would also have ended at the line after it. */
  ghost predicate DroppedAtEdge(shape: Shape, dropped: string -> bool, ls: seq<string>) {
    forall j, k :: 0 <= j < k < |ls| && k == j + 1 && dropped(ls[j]) ==> EndsToo(shape, ls[j], ls[k])
  }

  /** Below a block that has ended, only dropped lines are skipped. */
  lemma {:induction false} SkippingDroppedLines(shape: Shape, emit: Step, block: Step, dropped: string -> bool,
                                                ls: seq<string>, base: nat)
    requires DroppedAtEdge(shape, dropped, ls) && (ls != [] ==> !shape.below(ls[0], base))
    requires forall l :: dropped(l) ==> emit(l) == [] && !shape.head(l)
    ensures
      FusedLines(shape, emit, block, dropped, ls[SkipLen(shape, dropped, ls, base)..])
        == FusedLines(shape, emit, block, dropped, ls)
  {
    if ls != [] && dropped(ls[0]) {
      var rest := ls[1..];
      if rest != [] { assert EndsToo(shape, ls[0], ls[1]); }
      TailAtEdge(shape, dropped, ls, 1);
      SkippingDroppedLines(shape, emit, block, dropped, rest, base);
      assert ls[SkipLen(shape, dropped, ls, base)..] == rest[SkipLen(shape, dropped, rest, base)..];
    }
  }

  lemma TailAtEdge(shape: Shape, dropped: string -> bool, ls: seq<string>, m: nat)
    requires DroppedAtEdge(shape, dropped, ls) && m <= |ls|
    ensures DroppedAtEdge(shape, dropped, ls[m..])
  {
    var rest := ls[m..];
    forall j, k | 0 <= j < k < |rest| && k == j + 1 && dropped(rest[j])
      ensures EndsToo(shape, rest[j], rest[k])
    {
      assert rest[j] == ls[m + j] && rest[k] == ls[m + k];
    }
  }

  lemma AfterTheBlock(shape: Shape, emit: Step, block: Step, dropped: string -> bool, ls: seq<string>, base: nat)
    requires DroppedAtEdge(shape, dropped, ls)
    requires forall l :: dropped(l) ==> emit(l) == [] && !shape.head(l)
    ensures
      FusedLines(shape, emit, block, dropped, ls[SkipLen(shape, dropped, ls, base)..])
        == FusedLines(shape, emit, block, dropped, ls[SkipLen(shape, Never, ls, base)..])
  {
    var n := SkipLen(shape, Never, ls, base);
    SkipsSplit(shape, dropped, ls, base);
    TailAtEdge(shape, dropped, ls, n);
    var rest := ls[n..];
    assert ls[SkipLen(shape, dropped, ls, base)..] == rest[SkipLen(shape, dropped, rest, base)..];
    assert rest != [] ==> rest[0] == ls[n];
    SkippingDroppedLines(shape, emit, block, dropped, rest, base);
  }

  lemma FusedHeader(shape: Shape, emit: Step, block: Step, dropped: string -> bool, ls: seq<string>)
    requires ls != [] && shape.head(ls[0])
    ensures
      var rest := ls[1..];
      FusedLines(shape, emit, block, dropped, ls)
        == block(shape.indent(ls[0]))
           + FusedLines(shape, emit, block, dropped, rest[SkipLen(shape, dropped, rest, |shape.indent(ls[0])| + 2)..])
  {
    var n := SkipLen(shape, dropped, ls[1..], |shape.indent(ls[0])| + 2);
    assert ls[1..][n..] == ls[1 + n..];
  }

  /** On such texts a block may just as well end at a dropped line. */
  lemma {:induction false} PlainBlocksSuffice(shape: Shape, emit: Step, block: Step, dropped: string -> bool,
                                              ls: seq<string>)
    requires DroppedAtEdge(shape, dropped, ls)
    requires forall l :: dropped(l) ==> emit(l) == [] && !shape.head(l)
    ensures FusedLines(shape, emit, block, dropped, ls) == FusedLines(shape, emit, block, Never, ls)
    decreases |ls|
  {
    if ls != [] {
      var rest := ls[1..];
      TailAtEdge(shape, dropped, ls, 1);
      if shape.head(ls[0]) {
        var base := |shape.indent(ls[0])| + 2;
        var n := SkipLen(shape, Never, rest, base);
        FusedHeader(shape, emit, block, dropped, ls);
        FusedHeader(shape, emit, block, Never, ls);
        AfterTheBlock(shape, emit, block, dropped, rest, base);
        TailAtEdge(shape, dropped, rest, n);
        PlainBlocksSuffice(shape, emit, block, dropped, rest[n..]);
      } else {
        PlainBlocksSuffice(shape, emit, block, dropped, rest);
      }
    }
  }

  lemma {:induction false} SkipsSplit(shape: Shape, dropped: string -> bool, ls: seq<string>, base: nat)
    ensures
      var n := SkipLen(shape, Never, ls, base);
      && SkipLen(shape, dropped, ls, base) == n + SkipLen(shape, dropped, ls[n..], base)
      && (n < |ls| ==> !shape.below(ls[n], base))
  {
    if ls != [] && shape.below(ls[0], base) {
      SkipsSplit(shape, dropped, ls[1..], base);
      var n := SkipLen(shape, Never, ls[1..], base);
      assert ls[1..][n..] == ls[1 + n..];
    }
  }
}
