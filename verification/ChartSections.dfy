/**
  What the section rewriters make of each line of a text: which lines lie in a section is told from the
  lines alone, by the line that opens it and those that follow.
*/
module ChartSections {
  import opened GoStrings
  import opened LinePasses
  import opened SectionPasses
  import opened Sections
  import opened ChartLines
  import opened ChartFusion
  import opened ChartRoleBinding

  /** A field of this name that no template action has replaced. */
  predicate IsField(l: string, field: string) {
    field <= TrimSpace(l) && !Contains(TrimSpace(l), "{{")
  }

  // ----- the RoleBinding -----

  /**
    A line that does not end a list of subjects: blank, indented, or a list item.  A tab counts as an
    indentation, unless the line is a namespace field, which loses its tab.
   */
  predicate ContinuesSubjects(l: string) {
    || TrimSpace(l) == "subjects:" || TrimSpace(l) == ""
    || " " <= l || ("\t" <= l && !IsField(l, "namespace:"))
    || "-" <= TrimSpace(l)
  }

  ghost predicate InSubjects(ls: seq<string>, i: nat)
    requires i < |ls|
  {
    exists j :: 0 <= j <= i && TrimSpace(ls[j]) == "subjects:" && forall k :: j < k <= i ==> ContinuesSubjects(ls[k])
  }

  lemma NamespaceLineContinues(l: string)
    requires IsField(l, "namespace:")
    ensures
      var n := SubjectNamespace(l);
      !IsSubjects(n) && !IsSubjects(l) && (!EndsSubjects(n) <==> ContinuesSubjects(l))
  {
    var n := SubjectNamespace(l);
    NamespaceTemplate(l);
    NamespaceText();
    assert TrimSpace(l)[0] == 'n' && "subjects:"[0] == 's' && "-"[0] == '-';
    if " " <= l {
      assert Indent(l)[0] == ' ' && n[0] == ' ';
    } else {
      NoIndent(l);
      assert n == TPL_NAMESPACE;
    }
  }

  lemma LineContinues(l: string)
    ensures
      var n := SubjectNamespace(l);
      (IsSubjects(n) <==> TrimSpace(l) == "subjects:") && (IsSubjects(n) || !EndsSubjects(n) <==> ContinuesSubjects(l))
  {
    if IsField(l, "namespace:") { NamespaceLineContinues(l); }
  }

  lemma SubjectsAreOpened(ls: seq<string>, ns: seq<string>, i: nat)
    requires |ns| == |ls| && i < |ls| && forall k :: 0 <= k < |ls| ==> ns[k] == SubjectNamespace(ls[k])
    ensures Within(ns, i, false) <==> InSubjects(ls, i)
  {
    forall k | 0 <= k < |ls|
      ensures IsSubjects(ns[k]) <==> TrimSpace(ls[k]) == "subjects:"
      ensures IsSubjects(ns[k]) || !EndsSubjects(ns[k]) <==> ContinuesSubjects(ls[k])
    {
      LineContinues(ls[k]);
    }
    WithinIsFlag(ns, i, false);
    FlagMeans(IsSubjects, EndsSubjects, ns, i, false);
    if j :| 0 <= j <= i && TrimSpace(ls[j]) == "subjects:" && forall k :: j < k <= i ==> ContinuesSubjects(ls[k]) {
      assert IsSubjects(ns[j]) && NoneCloses(IsSubjects, EndsSubjects, ns, j, i);
    }
    if j :| 0 <= j <= i && IsSubjects(ns[j]) && NoneCloses(IsSubjects, EndsSubjects, ns, j, i) {
      assert TrimSpace(ls[j]) == "subjects:";
    }
  }

  /**
    What the RoleBinding pipeline makes of each line: an untemplated namespace field gets the release
    namespace wherever it stands, an untemplated name field in a list of subjects gets the account's
    name, each with its own indentation, and every other line is kept.
   */
  lemma RoleBindingLine(raw: string, i: nat)
    requires i < |Split(raw)|
    ensures |Split(RoleBindingTemplate(raw))| == |Split(raw)|
    ensures
      var l := Split(raw)[i];
      Split(RoleBindingTemplate(raw))[i] ==
        if IsField(l, "namespace:") then Indent(l) + TPL_NAMESPACE
        else if InSubjects(Split(raw), i) && IsField(l, "name:") then Indent(l) + NAME_LINE
        else l
  {
    var ls := Split(raw);
    RoleBindingText(raw);
    RoleBindingLineAt(ls, i);
    NamespacedAt(ls);
    SubjectsAreOpened(ls, Namespaced(ls), i);
    if IsField(ls[i], "namespace:") {
      NamespaceTemplate(ls[i]);
      NamespaceText();
      TemplatedLine(ls[i], TPL_NAMESPACE);
      assert TrimSpace(SubjectNamespace(ls[i]))[4] == TPL_NAMESPACE[4];
    }
  }

  /**
    A namespace field indented by a tab ends the list of subjects, though an indented line should not:
    until the next subjects line every line after it keeps its text, names included.
   */
  lemma TabbedNamespaceEndsSubjects(raw: string, i: nat, k: nat)
    requires i < k < |Split(raw)| && "\t" <= Split(raw)[i] && IsField(Split(raw)[i], "namespace:")
    requires forall m :: i < m <= k ==> TrimSpace(Split(raw)[m]) != "subjects:"
    requires !IsField(Split(raw)[k], "namespace:")
    ensures |Split(RoleBindingTemplate(raw))| == |Split(raw)|
    ensures Split(RoleBindingTemplate(raw))[k] == Split(raw)[k]
  {
    var ls := Split(raw);
    assert ls[i][0] == '\t' && TrimSpace(ls[i])[0] == 'n' && "subjects:"[0] == 's';
    assert !ContinuesSubjects(ls[i]);
    RoleBindingLine(raw, k);
  }

  // ----- the ServiceAccount -----

  predicate IsMetadata(l: string) {
    TrimSpace(l) == "metadata:"
  }

  /** A line that does not end a metadata section. */
  predicate ContinuesMetadata(l: string) {
    TrimSpace(l) == "metadata:" || TrimSpace(l) == "" || " " <= l || "\t" <= l
  }

  ghost predicate InMetadata(ls: seq<string>, i: nat)
    requires i < |ls|
  {
    exists j :: 0 <= j <= i && TrimSpace(ls[j]) == "metadata:" && forall k :: j < k <= i ==> ContinuesMetadata(ls[k])
  }

  lemma MetadataIsOpened(ls: seq<string>, i: nat)
    requires i < |ls|
    ensures FlagAt(IsMetadata, EndsMetadata, ls, i, false) <==> InMetadata(ls, i)
  {
    FlagMeans(IsMetadata, EndsMetadata, ls, i, false);
    if j :| 0 <= j <= i && TrimSpace(ls[j]) == "metadata:" && forall k :: j < k <= i ==> ContinuesMetadata(ls[k]) {
      assert IsMetadata(ls[j]) && NoneCloses(IsMetadata, EndsMetadata, ls, j, i);
    }
    if j :| 0 <= j <= i && IsMetadata(ls[j]) && NoneCloses(IsMetadata, EndsMetadata, ls, j, i) {
      assert TrimSpace(ls[j]) == "metadata:";
    }
  }

  lemma {:induction false} NamePieces(block: Step, ls: seq<string>, name: string, inside: bool)
    returns (pieces: seq<seq<string>>)
    ensures |pieces| == |ls| && Concat(pieces) == ReplaceNames(block, ls, name, inside)
    ensures forall i :: 0 <= i < |ls| ==>
      pieces[i] ==
        if FlagAt(IsMetadata, EndsMetadata, ls, i, inside) && IsAccountName(ls[i], name) then block(Indent(ls[i]))
        else [ls[i]]
  {
    if ls == [] {
      pieces := [];
    } else {
      var now := Metadata(ls[0], inside);
      var rest := NamePieces(block, ls[1..], name, now);
      var first := if now && IsAccountName(ls[0], name) then block(Indent(ls[0])) else [ls[0]];
      ConcatFirst(first, rest);
      pieces := [first] + rest;
    }
  }

  /**
    What the ServiceAccount pipeline makes of the lines, after the namespace pass: a line of a metadata
    section that names the account becomes the templated name and the annotations, with its own
    indentation, and every other line is kept in its place.
   */
  lemma ServiceAccountLines(raw: string, name: string) returns (pieces: seq<seq<string>>)
    ensures |pieces| == |Namespaced(Split(raw))| && ServiceAccountTemplate(raw, name) == Join(Concat(pieces))
    ensures forall i :: 0 <= i < |pieces| ==>
      var l := Namespaced(Split(raw))[i];
      var names := InMetadata(Namespaced(Split(raw)), i) && "name:" <= TrimSpace(l) && Contains(TrimSpace(l), name);
      pieces[i] == if names then [Indent(l) + NAME_LINE] + Annotations(Indent(l)) else [l]
  {
    var ls := Namespaced(Split(raw));
    NamespacedSplits(raw);
    pieces := NamePieces(AccountMetadata, ls, name, false);
    forall i | 0 <= i < |ls|
      ensures FlagAt(IsMetadata, EndsMetadata, ls, i, false) <==> InMetadata(ls, i)
    {
      MetadataIsOpened(ls, i);
    }
  }

  lemma NamespacedSplits(raw: string)
    ensures Split(Rewritten(NamespaceStep, raw)) == Namespaced(Split(raw))
  {
    LinesStayLines(Split(raw));
    NamespacedAt(Split(raw));
    SplitOfJoin(Namespaced(Split(raw)));
  }

  // ----- the ConfigMap -----

  /** A line that does not end a data section. */
  predicate ContinuesData(l: string) {
    TrimSpace(l) == "data:" || TrimSpace(l) == "" || "  " <= l
  }

  /** A line of a data section: some line before it says data, and since then all were blank or deeper. */
  ghost predicate InData(ls: seq<string>, i: nat)
    requires i < |ls|
  {
    exists j :: 0 <= j <= i && TrimSpace(ls[j]) == "data:" && forall k :: j < k <= i ==> ContinuesData(ls[k])
  }

  lemma DataIsOpened(ls: seq<string>, i: nat)
    requires i < |ls|
    ensures FlagAt(IsData, EndsData, ls, i, false) <==> InData(ls, i)
  {
    FlagMeans(IsData, EndsData, ls, i, false);
    if j :| 0 <= j <= i && TrimSpace(ls[j]) == "data:" && forall k :: j < k <= i ==> ContinuesData(ls[k]) {
      assert IsData(ls[j]) && NoneCloses(IsData, EndsData, ls, j, i);
    }
    if j :| 0 <= j <= i && IsData(ls[j]) && NoneCloses(IsData, EndsData, ls, j, i) {
      assert TrimSpace(ls[j]) == "data:";
    }
  }

  lemma {:induction false} DataPieces(block: Step, ls: seq<string>, inside: bool) returns (pieces: seq<seq<string>>)
    ensures |pieces| == |ls| && Concat(pieces) == ReplaceData(block, ls, inside)
    ensures forall i :: 0 <= i < |ls| ==>
      pieces[i] ==
        if IsData(ls[i]) then block(Indent(ls[i])) else if FlagAt(IsData, EndsData, ls, i, inside) then [] else [ls[i]]
  {
    if ls == [] {
      pieces := [];
    } else {
      var now := IsData(ls[0]) || (inside && !EndsData(ls[0]));
      var rest := DataPieces(block, ls[1..], now);
      var first := if IsData(ls[0]) then block(Indent(ls[0])) else if now then [] else [ls[0]];
      ConcatFirst(first, rest);
      pieces := [first] + rest;
    }
  }

  /**
    What the ConfigMap pipeline makes of the lines, after the namespace pass: a line that says data
    becomes the directives, with its own indentation, the other lines of its section are dropped, and
    every line outside is kept in its place; when no line says data the directives come at the end.
   */
  lemma ConfigMapLines(raw: string) returns (pieces: seq<seq<string>>, last: seq<string>)
    ensures |pieces| == |Namespaced(Split(raw))| && ConfigMapTemplate(raw) == Join(Concat(pieces) + last)
    ensures forall i :: 0 <= i < |pieces| ==>
      var l := Namespaced(Split(raw))[i];
      pieces[i] ==
        if TrimSpace(l) == "data:" then DataDirectives(Indent(l))
        else if InData(Namespaced(Split(raw)), i) then []
        else [l]
    ensures last ==
      if exists l :: l in Namespaced(Split(raw)) && TrimSpace(l) == "data:" then [] else DataDirectives("")
  {
    var ls := Namespaced(Split(raw));
    NamespacedSplits(raw);
    pieces := DataPieces(DataDirectives, ls, false);
    last := if HasData(ls) then [] else DataDirectives("");
    forall i | 0 <= i < |ls|
      ensures FlagAt(IsData, EndsData, ls, i, false) <==> InData(ls, i)
    {
      DataIsOpened(ls, i);
    }
  }
}
