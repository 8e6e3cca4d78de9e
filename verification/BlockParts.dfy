/** A text as other lines and blocks, and what replacing the blocks keeps. */
module BlockParts {
  import opened LinePasses
  import opened BlockPasses

  datatype Part = Line(text: string) | Block(header: string, body: seq<string>)

  /** The lines of a part. */
  function LinesOf(part: Part): seq<string> {
    match part
    case Line(l) => [l]
    case Block(header, body) => [header] + body
  }

  function Flatten(parts: seq<Part>): seq<string> {
    if parts == [] then [] else LinesOf(parts[0]) + Flatten(parts[1..])
  }

  /** A line that is no header, or a header with lines below it. */
  predicate IsPart(shape: Shape, part: Part) {
    match part
    case Line(l) => !shape.head(l)
    case Block(header, body) =>
      shape.head(header) && forall l :: l in body ==> shape.below(l, |shape.indent(header)| + 2)
  }

  /** Every header starts a block, and every block reaches to the first line that is not below its header. */
  predicate IsPartition(shape: Shape, parts: seq<Part>) {
    parts != [] ==>
      && IsPart(shape, parts[0])
      && (parts[0].Block? && |parts| > 1 ==> !shape.below(LinesOf(parts[1])[0], |shape.indent(parts[0].header)| + 2))
      && IsPartition(shape, parts[1..])
  }

  function Parts(shape: Shape, ls: seq<string>): seq<Part>
    decreases |ls|
  {
    if ls == [] then []
    else if shape.head(ls[0]) then
      var rest := AfterBlock(shape, ls);
      [Block(ls[0], ls[1..|ls| - |rest|])] + Parts(shape, rest)
    else [Line(ls[0])] + Parts(shape, ls[1..])
  }

  lemma FlattenFirst(part: Part, rest: seq<Part>)
    ensures Flatten([part] + rest) == LinesOf(part) + Flatten(rest)
  {
    assert ([part] + rest)[1..] == rest;
  }

  lemma FlattenStarts(parts: seq<Part>)
    requires parts != []
    ensures Flatten(parts) != [] && Flatten(parts)[0] == LinesOf(parts[0])[0]
  {
  }

  lemma BlockSplits(shape: Shape, ls: seq<string>)
    requires ls != []
    ensures
      var rest := AfterBlock(shape, ls);
      var body := ls[1..|ls| - |rest|];
      ls == [ls[0]] + body + rest && forall l :: l in body ==> shape.below(l, |shape.indent(ls[0])| + 2)
  {
    var n := BlockLen(shape, ls[1..], |shape.indent(ls[0])| + 2);
    assert |ls| - |AfterBlock(shape, ls)| == 1 + n;
    assert ls[1..1 + n] == ls[1..][..n];
  }

  /** The parts of a text are its lines, in order. */
  lemma {:induction false} PartsFlatten(shape: Shape, ls: seq<string>)
    ensures Flatten(Parts(shape, ls)) == ls
    decreases |ls|
  {
    if ls != [] {
      if shape.head(ls[0]) {
        var rest := AfterBlock(shape, ls);
        BlockSplits(shape, ls);
        PartsFlatten(shape, rest);
        FlattenFirst(Block(ls[0], ls[1..|ls| - |rest|]), Parts(shape, rest));
      } else {
        PartsFlatten(shape, ls[1..]);
        FlattenFirst(Line(ls[0]), Parts(shape, ls[1..]));
        assert ls == [ls[0]] + ls[1..];
      }
    }
  }

  lemma PartitionFirst(shape: Shape, part: Part, rest: seq<Part>)
    requires IsPart(shape, part) && IsPartition(shape, rest)
    requires part.Block? && rest != [] ==> !shape.below(LinesOf(rest[0])[0], |shape.indent(part.header)| + 2)
    ensures IsPartition(shape, [part] + rest)
  {
    var all := [part] + rest;
    assert all[1..] == rest && (rest != [] ==> all[1] == rest[0]);
  }

  /** Its blocks are the headers with all that hangs below them. */
  lemma {:induction false} PartsArePartition(shape: Shape, ls: seq<string>)
    ensures IsPartition(shape, Parts(shape, ls))
    decreases |ls|
  {
    if ls != [] {
      if shape.head(ls[0]) {
        var rest := AfterBlock(shape, ls);
        var parts := Parts(shape, rest);
        BlockSplits(shape, ls);
        PartsArePartition(shape, rest);
        PartsFlatten(shape, rest);
        if parts != [] { FlattenStarts(parts); }
        PartitionFirst(shape, Block(ls[0], ls[1..|ls| - |rest|]), parts);
      } else {
        PartsArePartition(shape, ls[1..]);
        PartitionFirst(shape, Line(ls[0]), Parts(shape, ls[1..]));
      }
    }
  }

  /** What a partition says of each of its parts. */
  lemma {:induction false} PartitionAt(shape: Shape, parts: seq<Part>, i: nat)
    requires IsPartition(shape, parts) && i < |parts|
    ensures IsPart(shape, parts[i])
    ensures parts[i].Block? && i + 1 < |parts| ==>
      !shape.below(LinesOf(parts[i + 1])[0], |shape.indent(parts[i].header)| + 2)
  {
    if i > 0 { PartitionAt(shape, parts[1..], i - 1); }
  }

  lemma PartsOfLine(shape: Shape, l: string, rest: seq<string>)
    requires !shape.head(l)
    ensures Parts(shape, [l] + rest) == [Line(l)] + Parts(shape, rest)
  {
    assert ([l] + rest)[1..] == rest;
  }

  lemma PartsOfBlock(shape: Shape, header: string, body: seq<string>, rest: seq<string>)
    requires IsPart(shape, Block(header, body)) && (rest != [] ==> !shape.below(rest[0], |shape.indent(header)| + 2))
    ensures Parts(shape, [header] + body + rest) == [Block(header, body)] + Parts(shape, rest)
  {
    var all := [header] + body + rest;
    var base := |shape.indent(header)| + 2;
    assert all[1..] == body + rest;
    BlockOfAll(shape, body, rest, base);
    assert BlockLen(shape, rest, base) == 0;
    assert all[1 + |body|..] == rest && AfterBlock(shape, all) == rest;
    assert all[1..|all| - |rest|] == body;
  }

  /** A partition is the only one of its text. */
  lemma {:induction false} PartitionIsUnique(shape: Shape, parts: seq<Part>)
    requires IsPartition(shape, parts)
    ensures Parts(shape, Flatten(parts)) == parts
  {
    if parts != [] {
      var rest := Flatten(parts[1..]);
      PartitionIsUnique(shape, parts[1..]);
      if |parts| > 1 { FlattenStarts(parts[1..]); }
      assert parts == [parts[0]] + parts[1..];
      match parts[0]
      case Line(l) =>
        PartsOfLine(shape, l, rest);
      case Block(header, body) =>
        PartsOfBlock(shape, header, body, rest);
    }
  }

  // ----- replacing the blocks -----

  function Rendered(shape: Shape, block: Step, part: Part): seq<string> {
    match part
    case Line(l) => [l]
    case Block(header, _) => block(shape.indent(header))
  }

  function Render(shape: Shape, block: Step, parts: seq<Part>): seq<string> {
    if parts == [] then [] else Rendered(shape, block, parts[0]) + Render(shape, block, parts[1..])
  }

  lemma RenderFirst(shape: Shape, block: Step, part: Part, rest: seq<Part>)
    ensures Render(shape, block, [part] + rest) == Rendered(shape, block, part) + Render(shape, block, rest)
  {
    assert ([part] + rest)[1..] == rest;
  }

  /** Replacing the blocks of a text keeps every other line and the order, and puts the new lines for each block. */
  lemma {:induction false} ReplacingRendersParts(shape: Shape, block: Step, ls: seq<string>)
    ensures ReplaceBlocks(shape, block, ls) == Render(shape, block, Parts(shape, ls))
    decreases |ls|
  {
    if ls != [] {
      if shape.head(ls[0]) {
        var rest := AfterBlock(shape, ls);
        ReplacingRendersParts(shape, block, rest);
        RenderFirst(shape, block, Block(ls[0], ls[1..|ls| - |rest|]), Parts(shape, rest));
      } else {
        ReplacingRendersParts(shape, block, ls[1..]);
        RenderFirst(shape, block, Line(ls[0]), Parts(shape, ls[1..]));
      }
    }
  }

  /** What replaces a block is a header that stands where the old one stood, and one line below it. */
  ghost predicate MakesBlocks(shape: Shape, block: Step) {
    forall l :: shape.head(l) ==> IsBlock(shape, l, block(shape.indent(l)))
  }

  ghost predicate IsBlock(shape: Shape, header: string, b: seq<string>) {
    && |b| == 2 && shape.head(b[0]) && shape.indent(b[0]) == shape.indent(header)
    && (forall base: nat :: shape.below(b[0], base) <==> shape.below(header, base))
    && shape.below(b[1], |shape.indent(header)| + 2)
  }

  /** The parts with new blocks in the places of the old ones. */
  function Replaced(shape: Shape, block: Step, parts: seq<Part>): seq<Part> {
    if parts == [] then []
    else
      var lines := Rendered(shape, block, parts[0]);
      [if parts[0].Line? || lines == [] then parts[0] else Block(lines[0], lines[1..])]
      + Replaced(shape, block, parts[1..])
  }

  lemma OnePartReplaced(shape: Shape, block: Step, part: Part)
    requires MakesBlocks(shape, block) && IsPart(shape, part)
    ensures
      var lines := Rendered(shape, block, part);
      var new' := if part.Line? then part else Block(lines[0], lines[1..]);
      && IsPart(shape, new') && LinesOf(new') == lines && Rendered(shape, block, new') == lines
      && (forall base: nat :: shape.below(LinesOf(new')[0], base) <==> shape.below(LinesOf(part)[0], base))
      && (part.Block? ==> shape.indent(new'.header) == shape.indent(part.header))
  {
    if part.Block? {
      var lines := Rendered(shape, block, part);
      assert IsBlock(shape, part.header, lines);
      assert lines[1..] == [lines[1]];
    }
  }

  lemma {:induction false} ReplacedIsPartition(shape: Shape, block: Step, parts: seq<Part>)
    requires MakesBlocks(shape, block) && IsPartition(shape, parts)
    ensures IsPartition(shape, Replaced(shape, block, parts))
    ensures Flatten(Replaced(shape, block, parts)) == Render(shape, block, parts)
    ensures Render(shape, block, Replaced(shape, block, parts)) == Render(shape, block, parts)
  {
    if parts != [] {
      var rest := Replaced(shape, block, parts[1..]);
      var first := Replaced(shape, block, parts)[0];
      ReplacedIsPartition(shape, block, parts[1..]);
      OnePartReplaced(shape, block, parts[0]);
      if |parts| > 1 { OnePartReplaced(shape, block, parts[1]); }
      PartitionFirst(shape, first, rest);
      FlattenFirst(first, rest);
      RenderFirst(shape, block, first, rest);
    }
  }

  /**
    Afterwards the text has the same lines with the new blocks between them, and a second replacement
    changes nothing.
   */
  lemma ReplacingReplacesParts(shape: Shape, block: Step, ls: seq<string>)
    requires MakesBlocks(shape, block)
    ensures Parts(shape, ReplaceBlocks(shape, block, ls)) == Replaced(shape, block, Parts(shape, ls))
    ensures ReplaceBlocks(shape, block, ReplaceBlocks(shape, block, ls)) == ReplaceBlocks(shape, block, ls)
  {
    var parts := Parts(shape, ls);
    PartsArePartition(shape, ls);
    ReplacingRendersParts(shape, block, ls);
    ReplacedIsPartition(shape, block, parts);
    PartitionIsUnique(shape, Replaced(shape, block, parts));
    ReplacingRendersParts(shape, block, ReplaceBlocks(shape, block, ls));
  }
}
