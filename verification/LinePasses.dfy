/**
  Passes that rewrite a text line by line, whatever each line is rewritten to.
*/
module LinePasses {
  import opened GoStrings

  type Step = string -> seq<string>

  function FlatMap(f: Step, ls: seq<string>): seq<string> {
    if ls == [] then [] else f(ls[0]) + FlatMap(f, ls[1..])
  }

  lemma {:induction false} FlatMapConcat(f: Step, a: seq<string>, b: seq<string>)
    ensures FlatMap(f, a + b) == FlatMap(f, a) + FlatMap(f, b)
  {
    if a == [] {
      assert a + b == b;
    } else {
      assert (a + b)[1..] == a[1..] + b;
      FlatMapConcat(f, a[1..], b);
    }
  }

  lemma Regroup(a: seq<string>, b: seq<string>, c: seq<string>)
    ensures a + b + c == a + (b + c)
  {
  }

  lemma FlatMapOne(f: Step, l: string)
    ensures FlatMap(f, [l]) == f(l)
  {
    assert FlatMap(f, [l][1..]) == [];
  }

  lemma {:induction false} FlatMapCompose(f: Step, g: Step, h: Step, ls: seq<string>)
    requires forall l :: h(l) == FlatMap(g, f(l))
    ensures FlatMap(g, FlatMap(f, ls)) == FlatMap(h, ls)
  {
    if ls != [] {
      FlatMapConcat(g, f(ls[0]), FlatMap(f, ls[1..]));
      FlatMapCompose(f, g, h, ls[1..]);
    }
  }

  /** Three steps one after the other are one. */
  lemma ThreeSteps(x: Step, y: Step, z: Step, whole: Step, ls: seq<string>)
    requires forall l :: whole(l) == FlatMap(z, FlatMap(y, x(l)))
    ensures FlatMap(z, FlatMap(y, FlatMap(x, ls))) == FlatMap(whole, ls)
  {
    var xy: Step := l => FlatMap(y, x(l));
    FlatMapCompose(x, y, xy, ls);
    FlatMapCompose(xy, z, whole, ls);
  }

  lemma FlatMapTwo(f: Step, a: string, b: string)
    ensures FlatMap(f, [a, b]) == f(a) + f(b)
  {
    assert [a, b][1..] == [b];
    FlatMapOne(f, b);
  }

  lemma {:induction false} FlatMapKeepsAll(f: Step, ls: seq<string>)
    requires forall i :: 0 <= i < |ls| ==> f(ls[i]) == [ls[i]]
    ensures FlatMap(f, ls) == ls
  {
    if ls != [] {
      FlatMapKeepsAll(f, ls[1..]);
      assert ls == [ls[0]] + ls[1..];
    }
  }

  // ----- splitting what was joined -----

  /** A pass that gives nothing for no lines and keeps the blank line. */
  ghost predicate KeepsBlank(p: seq<string> -> seq<string>) {
    p([]) == [] && p([""]) == [""]
  }

  /** Splitting between two passes is superfluous, even after a pass that dropped every line. */
  lemma SplitBetweenPasses(p: seq<string> -> seq<string>, ls: seq<string>)
    requires AllOneLine(ls) && KeepsBlank(p)
    ensures Join(p(Split(Join(ls)))) == Join(p(ls))
  {
    if ls == [] {
      assert Split("") == [""];
    } else {
      SplitOfJoin(ls);
    }
  }

  ghost predicate KeepsLines(f: Step) {
    forall l :: OneLine(l) ==> AllOneLine(f(l))
  }

  lemma {:induction false} FlatMapKeepsLines(f: Step, ls: seq<string>)
    requires KeepsLines(f) && AllOneLine(ls)
    ensures AllOneLine(FlatMap(f, ls))
  {
    if ls != [] {
      assert ls[0] in ls && forall l :: l in ls[1..] ==> l in ls;
      FlatMapKeepsLines(f, ls[1..]);
    }
  }

  lemma FlatMapKeepsBlank(f: Step)
    requires f("") == [""]
    ensures KeepsBlank((ls: seq<string>) => FlatMap(f, ls))
  {
    FlatMapOne(f, "");
  }

  lemma RewrittenAfter(f: Step, ls: seq<string>)
    requires AllOneLine(ls) && f("") == [""]
    ensures Rewritten(f, Join(ls)) == Join(FlatMap(f, ls))
  {
    FlatMapKeepsBlank(f);
    SplitBetweenPasses((xs: seq<string>) => FlatMap(f, xs), ls);
  }

  // ----- whole texts -----

  function Rewritten(f: Step, raw: string): string {
    Join(FlatMap(f, Split(raw)))
  }

  lemma {:induction false} FlatMapOfSingles(f: Step, g: string -> string, ls: seq<string>)
    requires forall l :: f(l) == [g(l)]
    ensures |FlatMap(f, ls)| == |ls| && forall i :: 0 <= i < |ls| ==> FlatMap(f, ls)[i] == g(ls[i])
  {
    if ls != [] {
      FlatMapOfSingles(f, g, ls[1..]);
    }
  }
}
