/** The flag of a loop over lines that is set by some lines and cleared by others. */
module Sections {
  import opened SectionPasses

  /** The flag after line `i`. */
  predicate FlagAt(open: string -> bool, close: string -> bool, ls: seq<string>, i: nat, inside: bool)
    requires i < |ls|
  {
    var now := open(ls[0]) || (inside && !close(ls[0]));
    if i == 0 then now else FlagAt(open, close, ls[1..], i - 1, now)
  }

  /** No line from `j` to `i` clears the flag. */
  ghost predicate NoneCloses(open: string -> bool, close: string -> bool, ls: seq<string>, j: nat, i: nat)
    requires i < |ls|
  {
    forall k :: j <= k <= i ==> open(ls[k]) || !close(ls[k])
  }

  ghost predicate Opened(open: string -> bool, close: string -> bool, ls: seq<string>, i: nat)
    requires i < |ls|
  {
    exists j :: 0 <= j <= i && open(ls[j]) && NoneCloses(open, close, ls, j, i)
  }

  /** The flag is set when a line has set it and none since has cleared it. */
  lemma {:induction false} FlagMeans(open: string -> bool, close: string -> bool, ls: seq<string>, i: nat, inside: bool)
    requires i < |ls|
    ensures FlagAt(open, close, ls, i, inside)
      <==> Opened(open, close, ls, i) || (inside && NoneCloses(open, close, ls, 0, i))
  {
    var now := open(ls[0]) || (inside && !close(ls[0]));
    if i == 0 {
      if open(ls[0]) { assert NoneCloses(open, close, ls, 0, 0); }
    } else {
      var rest := ls[1..];
      FlagMeans(open, close, rest, i - 1, now);
      if j :| 0 <= j <= i - 1 && open(rest[j]) && NoneCloses(open, close, rest, j, i - 1) {
        Shifted(open, close, ls, j, i);
        assert open(ls[j + 1]);
      }
      if j :| 0 < j <= i && open(ls[j]) && NoneCloses(open, close, ls, j, i) {
        Shifted(open, close, ls, j - 1, i);
        assert open(rest[j - 1]);
      }
      Shifted(open, close, ls, 0, i);
      FirstOpens(open, close, ls, i);
    }
  }

  lemma Shifted(open: string -> bool, close: string -> bool, ls: seq<string>, j: nat, i: nat)
    requires 0 < i < |ls|
    ensures NoneCloses(open, close, ls[1..], j, i - 1) <==> NoneCloses(open, close, ls, j + 1, i)
  {
    forall k | j + 1 <= k <= i
      ensures ls[k] == ls[1..][k - 1]
    {
    }
    if NoneCloses(open, close, ls, j + 1, i) {
      forall k | j <= k <= i - 1
        ensures open(ls[1..][k]) || !close(ls[1..][k])
      {
        assert ls[1..][k] == ls[k + 1];
      }
    }
  }

  lemma FirstOpens(open: string -> bool, close: string -> bool, ls: seq<string>, i: nat)
    requires i < |ls|
    ensures open(ls[0]) && NoneCloses(open, close, ls, 1, i) ==> Opened(open, close, ls, i)
    ensures NoneCloses(open, close, ls, 0, i) <==> (open(ls[0]) || !close(ls[0])) && NoneCloses(open, close, ls, 1, i)
  {
    if open(ls[0]) && NoneCloses(open, close, ls, 1, i) { assert NoneCloses(open, close, ls, 0, i); }
  }

  // ----- the three sections -----

  lemma {:induction false} WithinIsFlag(ls: seq<string>, i: nat, inside: bool)
    requires i < |ls|
    ensures Within(ls, i, inside) <==> FlagAt(IsSubjects, EndsSubjects, ls, i, inside)
  {
    if i > 0 { WithinIsFlag(ls[1..], i - 1, Subjects(ls[0], inside)); }
  }

  function Concat(pieces: seq<seq<string>>): seq<string> {
    if pieces == [] then [] else pieces[0] + Concat(pieces[1..])
  }

  lemma ConcatFirst(piece: seq<string>, rest: seq<seq<string>>)
    ensures Concat([piece] + rest) == piece + Concat(rest)
  {
    assert ([piece] + rest)[1..] == rest;
  }
}
