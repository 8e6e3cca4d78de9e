/** Rewriting lines inside a section, and replacing a section. */
module SectionPasses {
  import opened GoStrings
  import opened LinePasses

  // ----- the subjects -----

  predicate EndsSubjects(l: string) {
    !HasPrefix(l, " ") && !HasPrefix(l, "\t") && !HasPrefix(TrimSpace(l), "-") && TrimSpace(l) != ""
  }

  predicate IsSubjects(l: string) {
    TrimSpace(l) == "subjects:"
  }

  /** The section flag once a line has been looked at. */
  predicate Subjects(l: string, inside: bool) {
    IsSubjects(l) || (inside && !EndsSubjects(l))
  }

  /** A pass that rewrites lines inside the subjects section only. */
  function SubjectsPass(f: string -> string, ls: seq<string>, inside: bool): (r: seq<string>)
    ensures |r| == |ls|
  {
    if ls == [] then []
    else
      var now := Subjects(ls[0], inside);
      [if now && !IsSubjects(ls[0]) then f(ls[0]) else ls[0]] + SubjectsPass(f, ls[1..], now)
  }

  /** Whether line `i` lies in the subjects section. */
  predicate Within(ls: seq<string>, i: nat, inside: bool)
    requires i < |ls|
  {
    var now := Subjects(ls[0], inside);
    if i == 0 then now else Within(ls[1..], i - 1, now)
  }

  lemma {:induction false} SubjectsPassAt(f: string -> string, ls: seq<string>, inside: bool, i: nat)
    requires i < |ls|
    ensures SubjectsPass(f, ls, inside)[i] == if Within(ls, i, inside) && !IsSubjects(ls[i]) then f(ls[i]) else ls[i]
  {
    if i > 0 {
      SubjectsPassAt(f, ls[1..], Subjects(ls[0], inside), i - 1);
    }
  }

  /** A rewritten line that opens no section and closes one if the original did. */
  predicate Shadows(l: string, m: string) {
    m == l || (!IsSubjects(l) && !IsSubjects(m) && (EndsSubjects(l) ==> EndsSubjects(m)))
  }

  /** Sections of the rewritten text lie within sections of the original. */
  lemma {:induction false} WithinShadow(ls: seq<string>, ms: seq<string>, i: nat, inside: bool, shadow: bool)
    requires |ls| == |ms| && i < |ls| && (shadow ==> inside)
    requires forall k :: 0 <= k < |ls| ==> Shadows(ls[k], ms[k])
    ensures Within(ms, i, shadow) ==> Within(ls, i, inside)
  {
    assert Shadows(ls[0], ms[0]);
    if i > 0 {
      WithinShadow(ls[1..], ms[1..], i - 1, Subjects(ls[0], inside), Subjects(ms[0], shadow));
    }
  }

  predicate EndsMetadata(l: string) {
    !HasPrefix(l, " ") && !HasPrefix(l, "\t") && TrimSpace(l) != ""
  }

  predicate Metadata(l: string, inside: bool) {
    TrimSpace(l) == "metadata:" || (inside && !EndsMetadata(l))
  }

  predicate IsAccountName(l: string, name: string) {
    HasPrefix(TrimSpace(l), "name:") && Contains(TrimSpace(l), name)
  }

  /** Replaces the lines that name the account in a metadata section. */
  function ReplaceNames(block: Step, ls: seq<string>, name: string, inside: bool): seq<string> {
    if ls == [] then []
    else
      var now := Metadata(ls[0], inside);
      (if now && IsAccountName(ls[0], name) then block(Indent(ls[0])) else [ls[0]])
      + ReplaceNames(block, ls[1..], name, now)
  }

  lemma NamesStep(block: Step, ls: seq<string>, name: string, i: nat, inside: bool)
    requires i < |ls|
    ensures
      var now := Metadata(ls[i], inside);
      var piece := if now && IsAccountName(ls[i], name) then block(Indent(ls[i])) else [ls[i]];
      ReplaceNames(block, ls[i..], name, inside) == piece + ReplaceNames(block, ls[i + 1..], name, now)
  {
    assert ls[i..][1..] == ls[i + 1..];
  }

  predicate IsData(l: string) {
    TrimSpace(l) == "data:"
  }

  /** A line that closes the data section. */
  predicate EndsData(l: string) {
    TrimSpace(l) != "" && !HasPrefix(l, "  ")
  }

  /** Replaces every data section by the block. */
  function ReplaceData(block: Step, ls: seq<string>, inside: bool): seq<string> {
    if ls == [] then []
    else if IsData(ls[0]) then block(Indent(ls[0])) + ReplaceData(block, ls[1..], true)
    else if inside && !EndsData(ls[0]) then ReplaceData(block, ls[1..], true)
    else [ls[0]] + ReplaceData(block, ls[1..], false)
  }

  predicate HasData(ls: seq<string>) {
    exists l :: l in ls && IsData(l)
  }

  lemma HasDataSnoc(ls: seq<string>, l: string)
    ensures HasData(ls + [l]) <==> HasData(ls) || IsData(l)
  {
    assert forall x :: x in ls + [l] <==> x in ls || x == l;
    assert l in ls + [l];
  }

  /** A text without a data section gets the block at its end. */
  function InjectData(block: Step, ls: seq<string>): seq<string> {
    ReplaceData(block, ls, false) + if HasData(ls) then [] else block("")
  }

  lemma DataStep(block: Step, ls: seq<string>, i: nat, inside: bool, done: seq<string>)
    requires i < |ls|
    ensures
      var l := ls[i];
      done + ReplaceData(block, ls[i..], inside) ==
        if IsData(l) then done + block(Indent(l)) + ReplaceData(block, ls[i + 1..], true)
        else if inside && !EndsData(l) then done + ReplaceData(block, ls[i + 1..], true)
        else done + [l] + ReplaceData(block, ls[i + 1..], false)
  {
    assert ls[i..][1..] == ls[i + 1..];
  }

  // ----- the loops -----

  lemma SubjectsPassStep(f: string -> string, ls: seq<string>, i: nat, inside: bool, done: seq<string>)
    requires i < |ls|
    ensures
      var now := Subjects(ls[i], inside);
      var l := if now && !IsSubjects(ls[i]) then f(ls[i]) else ls[i];
      done + SubjectsPass(f, ls[i..], inside) == done + [l] + SubjectsPass(f, ls[i + 1..], now)
  {
    assert ls[i..][1..] == ls[i + 1..];
  }

  /**
    The loop of `replaceSubjectsNamespace` and `replaceSubjectsServiceAccount`, which overwrites lines
    where they are.
   */
  method RewriteSubjects(f: string -> string, raw: seq<string>) returns (lines: seq<string>)
    ensures lines == SubjectsPass(f, raw, false)
  {
    lines := raw;
    ghost var whole := SubjectsPass(f, raw, false);
    var inSubjects := false;
    assert raw[0..] == raw;
    for i := 0 to |lines|
      invariant |lines| == |raw| && lines[i..] == raw[i..]
      invariant lines[..i] + SubjectsPass(f, raw[i..], inSubjects) == whole
    {
      var line := lines[i];
      assert line == raw[i..][0];
      SubjectsPassStep(f, raw, i, inSubjects, lines[..i]);
      var trimmed := TrimSpace(line);
      if trimmed == "subjects:" {
        inSubjects := true;
        assert lines[..i + 1] == lines[..i] + [line];
        continue;
      }
      if inSubjects && !HasPrefix(line, " ") && !HasPrefix(line, "\t") && !HasPrefix(trimmed, "-") && trimmed != "" {
        inSubjects := false;
      }
      if inSubjects {
        ghost var before := lines;
        lines := lines[i := f(line)];
        assert lines[..i + 1] == before[..i] + [f(line)];
      } else {
        assert lines[..i + 1] == lines[..i] + [line];
      }
    }
    assert lines[..|lines|] == lines && raw[|lines|..] == [];
  }

  /** The loop of `replaceServiceAccountMetadata`, for any lines that replace a name. */
  method ReplaceEachName(block: Step, lines: seq<string>, originalName: string) returns (result: seq<string>)
    ensures result == ReplaceNames(block, lines, originalName, false)
  {
    result := [];
    var inMetadata := false;
    ghost var whole := ReplaceNames(block, lines, originalName, false);
    assert lines[0..] == lines;
    for i := 0 to |lines|
      invariant result + ReplaceNames(block, lines[i..], originalName, inMetadata) == whole
    {
      var line := lines[i];
      NamesStep(block, lines, originalName, i, inMetadata);
      var trimmed := TrimSpace(line);
      if trimmed == "metadata:" {
        inMetadata := true;
      } else if !HasPrefix(line, " ") && !HasPrefix(line, "\t") && trimmed != "" {
        inMetadata := false;
      }
      if inMetadata && HasPrefix(trimmed, "name:") && Contains(trimmed, originalName) {
        Regroup(result, block(Indent(line)), ReplaceNames(block, lines[i + 1..], originalName, inMetadata));
        result := result + block(Indent(line));
        continue;
      }
      Regroup(result, [line], ReplaceNames(block, lines[i + 1..], originalName, inMetadata));
      result := result + [line];
    }
    assert lines[|lines|..] == [];
  }

  /** The loop of `injectConfigMapValues`, for any lines that replace a data section. */
  method InjectBlock(block: Step, lines: seq<string>) returns (result: seq<string>)
    ensures result == InjectData(block, lines)
  {
    result := [];
    var inData, hasData := false, false;
    ghost var whole := ReplaceData(block, lines, false);
    assert lines[0..] == lines;
    for i := 0 to |lines|
      invariant result + ReplaceData(block, lines[i..], inData) == whole
      invariant hasData <==> HasData(lines[..i])
    {
      var line := lines[i];
      DataStep(block, lines, i, inData, result);
      HasDataSnoc(lines[..i], line);
      assert lines[..i + 1] == lines[..i] + [line];
      var trimmed := TrimSpace(line);
      if trimmed == "data:" {
        inData := true;
        hasData := true;
        result := result + block(Indent(line));
        continue;
      }
      if inData {
        if |trimmed| > 0 && !HasPrefix(line, "  ") {
          inData := false;
        } else {
          continue;
        }
      }
      result := result + [line];
    }
    assert lines[|lines|..] == [] && lines[..|lines|] == lines;
    if !hasData {
      result := result + block("");
    }
  }
}
