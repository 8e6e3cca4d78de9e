/** Template actions that open and close blocks, each on a line of its own. */
module Nesting {
  import opened Wrappers
  import opened GoStrings
  import opened LinePasses
  import opened BlockPasses
  import opened BlockFusion
  import opened SectionPasses

  /** The first word of the action a line starts with. */
  function Word(l: string): string {
    var t := TrimSpace(l);
    if !HasPrefix(t, "{{") then ""
    else
      var u := if HasPrefix(t, "{{-") then t[3..] else t[2..];
      u[IndentLen(u)..]
  }

  predicate Opens(l: string) {
    var a := Word(l);
    HasPrefix(a, "if ") || HasPrefix(a, "with ") || HasPrefix(a, "range ")
  }

  predicate Closes(l: string) {
    var a := Word(l);
    HasPrefix(a, "end ") || HasPrefix(a, "end}")
  }

  /** The number of blocks open after these lines, unless one was closed that was not open. */
  function Depth(ls: seq<string>, open: nat): Option<nat> {
    if ls == [] then Some(open)
    else if Opens(ls[0]) then Depth(ls[1..], open + 1)
    else if Closes(ls[0]) then (if open == 0 then None else Depth(ls[1..], open - 1))
    else Depth(ls[1..], open)
  }

  predicate WellNested(ls: seq<string>) {
    Depth(ls, 0) == Some(0)
  }

  ghost predicate Neutral(ls: seq<string>) {
    forall open: nat :: Depth(ls, open) == Some(open)
  }

  lemma {:induction false} NeutralFirst(a: seq<string>, b: seq<string>, open: nat)
    ensures Depth(a + b, open) == (match Depth(a, open) case None => None case Some(n) => Depth(b, n))
  {
    if a == [] {
      assert a + b == b;
    } else {
      assert (a + b)[1..] == a[1..] + b;
      if Opens(a[0]) { NeutralFirst(a[1..], b, open + 1); }
      else if Closes(a[0]) { if open > 0 { NeutralFirst(a[1..], b, open - 1); } }
      else { NeutralFirst(a[1..], b, open); }
    }
  }

  lemma NeutralConcat(a: seq<string>, b: seq<string>)
    requires Neutral(a) && Neutral(b)
    ensures Neutral(a + b)
  {
    forall open: nat
      ensures Depth(a + b, open) == Some(open)
    {
      NeutralFirst(a, b, open);
    }
  }

  lemma OneNeutral(l: string)
    requires !Opens(l) && !Closes(l)
    ensures Neutral([l])
  {
    assert [l][1..] == [];
  }

  /** A block around neutral lines is neutral. */
  lemma BlockNeutral(open: string, body: seq<string>, close: string)
    requires Opens(open) && Closes(close) && !Opens(close) && Neutral(body)
    ensures Neutral([open] + body + [close])
  {
    forall n: nat
      ensures Depth([open] + body + [close], n) == Some(n)
    {
      assert [close][1..] == [] && [open][1..] == [];
      NeutralFirst([open] + body, [close], n);
      NeutralFirst([open], body, n);
    }
  }

  // ----- directive-free input -----

  predicate Free(s: string) {
    !Contains(s, "{{")
  }

  lemma {:induction false} TrimStartContains(s: string, sub: string)
    requires Contains(TrimStart(s), sub)
    ensures Contains(s, sub)
  {
    if s != [] && IsSpace(s[0]) { TrimStartContains(s[1..], sub); }
  }

  lemma {:induction false} ContainsEarlier(s: string, after: string, sub: string)
    requires Contains(s, sub)
    ensures Contains(s + after, sub)
  {
    if !(sub <= s) {
      assert (s + after)[1..] == s[1..] + after;
      ContainsEarlier(s[1..], after, sub);
    }
  }

  lemma {:induction false} TrimEndContains(s: string, sub: string)
    requires Contains(TrimEnd(s), sub)
    ensures Contains(s, sub)
  {
    if s != [] && IsSpace(s[|s| - 1]) {
      TrimEndContains(s[..|s| - 1], sub);
      ContainsEarlier(s[..|s| - 1], s[|s| - 1..], sub);
      assert s[..|s| - 1] + s[|s| - 1..] == s;
    }
  }

  lemma FreeLineIsPlain(l: string)
    requires Free(l)
    ensures !Opens(l) && !Closes(l) && Free(TrimSpace(l))
  {
    if Contains(TrimSpace(l), "{{") {
      TrimEndContains(TrimStart(l), "{{");
      TrimStartContains(l, "{{");
    }
  }

  lemma {:induction false} LinesOfFreeText(s: string)
    requires Free(s)
    ensures forall l :: l in Split(s) ==> Free(l)
  {
    if s != [] {
      LinesOfFreeText(s[1..]);
      var rest := Split(s[1..]);
      if s[0] != '\n' {
        assert rest[0] in rest;
        FirstLineStaysFree(s);
        assert Split(s) == [[s[0]] + rest[0]] + rest[1..];
      }
    }
  }

  lemma {:induction false} FirstLineIsPrefix(s: string)
    ensures Split(s)[0] <= s
  {
    if s != [] && s[0] != '\n' { FirstLineIsPrefix(s[1..]); }
  }

  lemma FirstLineStaysFree(s: string)
    requires Free(s)
    ensures Free(Split(s)[0])
  {
    FirstLineIsPrefix(s);
    var l := Split(s)[0];
    var after := s[|l|..];
    assert l + after == s;
    if Contains(l, "{{") {
      ContainsEarlier(l, after, "{{");
    }
  }

  // ----- passes -----

  lemma {:induction false} FusedNeutral(shape: Shape, emit: Step, block: Step, dropped: string -> bool, ls: seq<string>)
    requires forall l :: l in ls ==> Neutral(emit(l))
    requires forall l :: Neutral(block(shape.indent(l)))
    ensures Neutral(FusedLines(shape, emit, block, dropped, ls))
    decreases |ls|
  {
    if ls != [] {
      assert ls[0] in ls;
      if shape.head(ls[0]) {
        var n := SkipLen(shape, dropped, ls[1..], |shape.indent(ls[0])| + 2);
        assert forall l :: l in ls[1 + n..] ==> l in ls;
        FusedNeutral(shape, emit, block, dropped, ls[1 + n..]);
        FusedHeader(shape, emit, block, dropped, ls);
        assert ls[1..][n..] == ls[1 + n..];
        NeutralConcat(block(shape.indent(ls[0])), FusedLines(shape, emit, block, dropped, ls[1 + n..]));
      } else {
        assert forall l :: l in ls[1..] ==> l in ls;
        FusedNeutral(shape, emit, block, dropped, ls[1..]);
        NeutralConcat(emit(ls[0]), FusedLines(shape, emit, block, dropped, ls[1..]));
      }
    }
  }

  lemma {:induction false} SinglesNeutral(ls: seq<string>)
    requires forall l :: l in ls ==> Inert(l)
    ensures Neutral(ls)
  {
    if ls != [] {
      assert ls[0] in ls;
      OneNeutral(ls[0]);
      SinglesNeutral(ls[1..]);
      NeutralConcat([ls[0]], ls[1..]);
      assert ls == [ls[0]] + ls[1..];
    }
  }

  lemma NestedText(ls: seq<string>)
    requires AllOneLine(ls) && Neutral(ls)
    ensures WellNested(Split(Join(ls)))
  {
    if ls == [] {
      assert Split("") == [""];
      OneNeutral("");
    } else {
      SplitOfJoin(ls);
    }
  }

  predicate Inert(l: string) {
    !Opens(l) && !Closes(l)
  }

  ghost predicate NeutralBlock(block: Step) {
    forall indent :: AllSpaces(indent) ==> Neutral(block(indent)) && AllOneLine(block(indent))
  }

  lemma {:induction false} NamesNeutral(block: Step, ls: seq<string>, name: string, inside: bool)
    requires NeutralBlock(block) && AllOneLine(ls) && forall l :: l in ls ==> Inert(l)
    ensures Neutral(ReplaceNames(block, ls, name, inside)) && AllOneLine(ReplaceNames(block, ls, name, inside))
  {
    if ls != [] {
      var l := ls[0];
      assert l in ls && AllSpaces(Indent(l));
      var now := Metadata(l, inside);
      NamesNeutral(block, ls[1..], name, now);
      OneNeutral(l);
      var piece := if now && IsAccountName(l, name) then block(Indent(l)) else [l];
      NeutralConcat(piece, ReplaceNames(block, ls[1..], name, now));
    }
  }

  lemma {:induction false} DataNeutral(block: Step, ls: seq<string>, inside: bool)
    requires NeutralBlock(block) && AllOneLine(ls) && forall l :: l in ls ==> Inert(l)
    ensures Neutral(ReplaceData(block, ls, inside)) && AllOneLine(ReplaceData(block, ls, inside))
  {
    if ls != [] {
      var l := ls[0];
      assert l in ls && AllSpaces(Indent(l));
      if IsData(l) {
        DataNeutral(block, ls[1..], true);
        NeutralConcat(block(Indent(l)), ReplaceData(block, ls[1..], true));
      } else if inside && !EndsData(l) {
        DataNeutral(block, ls[1..], true);
      } else {
        OneNeutral(l);
        DataNeutral(block, ls[1..], false);
        NeutralConcat([l], ReplaceData(block, ls[1..], false));
      }
    }
  }

  lemma InjectedNeutral(block: Step, ls: seq<string>)
    requires NeutralBlock(block) && AllOneLine(ls) && forall l :: l in ls ==> Inert(l)
    ensures Neutral(InjectData(block, ls)) && AllOneLine(InjectData(block, ls))
  {
    DataNeutral(block, ls, false);
    assert AllSpaces("");
    var r := ReplaceData(block, ls, false);
    NeutralConcat(r, block(""));
    assert r + [] == r;
  }
}
