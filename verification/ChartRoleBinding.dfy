/** What the three passes over a RoleBinding change, and that they change it once. */
module ChartRoleBinding {
  import opened GoStrings
  import opened LinePasses
  import opened SectionPasses
  import opened ChartLines
  import opened ChartFusion

  lemma AccountText()
    ensures Contains(TPL_ACCOUNT, "{{") && TPL_ACCOUNT != [] && !IsSpace(TPL_ACCOUNT[|TPL_ACCOUNT| - 1])
  {
  }

  lemma NameText()
    ensures Tidy(NAME_LINE) && HasPrefix(NAME_LINE, "name: ") && Contains(NAME_LINE, "{{") && OneLine(NAME_LINE)
  {
    AccountText();
    AccountLineIsOneLine();
    ContainsLater("name: ", TPL_ACCOUNT, "{{");
    assert OneLine("name: ");
    OneLineConcat("name: ", TPL_ACCOUNT);
  }

  lemma NameTemplate(l: string)
    ensures
      var n := Indent(l) + NAME_LINE;
      && HasPrefix(TrimSpace(n), "name: ") && Contains(TrimSpace(n), "{{") && (Indent(l) == "" ==> n[0] == 'n')
      && !Plain(n, "namespace:") && !IsSubjects(n)
  {
    NameText();
    TemplatedLine(l, NAME_LINE);
    assert TrimSpace(Indent(l) + NAME_LINE)[4] == ':' && "namespace:"[4] == 's' && "subjects:"[0] == 's';
  }

  lemma NoIndent(l: string)
    requires !HasPrefix(l, " ")
    ensures Indent(l) == ""
  {
    if l != [] { assert l[..1] == [l[0]]; }
  }

  // ----- single lines -----

  lemma NamespaceOnce(l: string)
    ensures SubjectNamespace(SubjectNamespace(l)) == SubjectNamespace(l)
    ensures Shadows(l, SubjectNamespace(l))
  {
    if Plain(l, "namespace:") {
      NamespaceTemplate(l);
      var n := SubjectNamespace(l);
      assert TrimSpace(l)[0] == 'n' && "subjects:"[0] == 's';
      if EndsSubjects(l) {
        NoIndent(l);
        assert n == TPL_NAMESPACE;
        NamespaceText();
      }
    }
  }

  lemma NameOnce(l: string)
    ensures SubjectName(SubjectName(l)) == SubjectName(l)
    ensures Shadows(l, SubjectName(l))
    ensures SubjectNamespace(l) == l ==> SubjectNamespace(SubjectName(l)) == SubjectName(l)
  {
    if Plain(l, "name:") {
      NameTemplate(l);
      assert TrimSpace(l)[0] == 'n' && "subjects:"[0] == 's';
      if EndsSubjects(l) {
        NoIndent(l);
        assert SubjectName(l) == NAME_LINE;
        NameText();
      }
    }
  }

  // ----- line lists -----

  function Namespaced(ls: seq<string>): seq<string> {
    FlatMap(NamespaceStep, ls)
  }

  function RoleBindingLines(ls: seq<string>): seq<string> {
    SubjectsPass(SubjectName, SubjectsPass(SubjectNamespace, Namespaced(ls), false), false)
  }

  lemma NamespacedAt(ls: seq<string>)
    ensures |Namespaced(ls)| == |ls| && forall i :: 0 <= i < |ls| ==> Namespaced(ls)[i] == SubjectNamespace(ls[i])
  {
    forall l: string
      ensures NamespaceStep(l) == [SubjectNamespace(l)]
    {
    }
    FlatMapOfSingles(NamespaceStep, SubjectNamespace, ls);
  }

  /** A second pass for the namespaces of the subjects finds nothing left to do. */
  lemma SubjectsNamespaceIsSuperfluous(ls: seq<string>)
    ensures SubjectsPass(SubjectNamespace, Namespaced(ls), false) == Namespaced(ls)
  {
    NamespacedAt(ls);
    forall i | 0 <= i < |ls|
      ensures SubjectsPass(SubjectNamespace, Namespaced(ls), false)[i] == Namespaced(ls)[i]
    {
      SubjectsPassAt(SubjectNamespace, Namespaced(ls), false, i);
      NamespaceOnce(ls[i]);
    }
  }

  /** What becomes of each line. */
  lemma RoleBindingLineAt(ls: seq<string>, i: nat)
    requires i < |ls|
    ensures |RoleBindingLines(ls)| == |ls|
    ensures
      var n := SubjectNamespace(ls[i]);
      RoleBindingLines(ls)[i] ==
        if |Namespaced(ls)| == |ls| && Within(Namespaced(ls), i, false) then SubjectName(n) else n
  {
    NamespacedAt(ls);
    SubjectsNamespaceIsSuperfluous(ls);
    SubjectsPassAt(SubjectName, Namespaced(ls), false, i);
    var n := SubjectNamespace(ls[i]);
    if IsSubjects(n) {
      assert TrimSpace(n)[0] == 's';
      assert SubjectName(n) == n;
    }
  }

  lemma OnlyMarkedLinesChange(ls: seq<string>, i: nat)
    requires i < |ls| && |RoleBindingLines(ls)| == |ls| && RoleBindingLines(ls)[i] != ls[i]
    ensures Plain(ls[i], "namespace:") || (Within(ls, i, false) && Plain(ls[i], "name:"))
  {
    RoleBindingLineAt(ls, i);
    NamespacedAt(ls);
    if !Plain(ls[i], "namespace:") {
      forall k | 0 <= k < |ls|
        ensures Shadows(ls[k], Namespaced(ls)[k])
      {
        NamespaceOnce(ls[k]);
      }
      WithinShadow(ls, Namespaced(ls), i, false, false);
    }
  }

  lemma RoleBindingOnce(ls: seq<string>)
    ensures RoleBindingLines(RoleBindingLines(ls)) == RoleBindingLines(ls)
  {
    var ns, ms := Namespaced(ls), RoleBindingLines(ls);
    NamespacedAt(ls);
    NamespacedAt(ms);
    forall i | 0 <= i < |ls|
      ensures Shadows(ns[i], ms[i]) && SubjectNamespace(ms[i]) == ms[i]
    {
      RoleBindingLineAt(ls, i);
      NamespaceOnce(ls[i]);
      NameOnce(ns[i]);
    }
    assert Namespaced(ms) == ms;
    forall i | 0 <= i < |ls|
      ensures RoleBindingLines(ms)[i] == ms[i]
    {
      RoleBindingLineAt(ms, i);
      RoleBindingLineAt(ls, i);
      WithinShadow(ns, ms, i, false, false);
      NameOnce(ns[i]);
    }
    if ls != [] { RoleBindingLineAt(ms, 0); }
  }

  // ----- texts -----

  lemma LinesStayLines(ls: seq<string>)
    requires AllOneLine(ls)
    ensures AllOneLine(Namespaced(ls)) && AllOneLine(RoleBindingLines(ls))
  {
    NamespacedAt(ls);
    NamespaceKeepsLines();
    FlatMapKeepsLines(NamespaceStep, ls);
    forall i | 0 <= i < |ls|
      ensures OneLine(RoleBindingLines(ls)[i])
    {
      RoleBindingLineAt(ls, i);
      assert Namespaced(ls)[i] in Namespaced(ls);
      NameText();
      IndentedIsOneLine(Indent(Namespaced(ls)[i]), NAME_LINE);
    }
    if ls != [] { RoleBindingLineAt(ls, 0); }
  }

  lemma RoleBindingText(raw: string)
    ensures RoleBindingTemplate(raw) == Join(RoleBindingLines(Split(raw)))
    ensures Split(RoleBindingTemplate(raw)) == RoleBindingLines(Split(raw))
  {
    var ls := Split(raw);
    LinesStayLines(ls);
    NamespacedAt(ls);
    SubjectsNamespaceIsSuperfluous(ls);
    SplitOfJoin(Namespaced(ls));
    RoleBindingLineAt(ls, 0);
    SplitOfJoin(RoleBindingLines(ls));
  }

  /** `replaceSubjectsNamespace` after `replaceNamespace` changes nothing, for any text. */
  lemma SubjectsNamespaceAddsNothing(raw: string)
    ensures
      var text := Rewritten(NamespaceStep, raw);
      Join(SubjectsPass(SubjectNamespace, Split(text), false)) == text
  {
    var ls := Split(raw);
    LinesStayLines(ls);
    NamespacedAt(ls);
    SplitOfJoin(Namespaced(ls));
    SubjectsNamespaceIsSuperfluous(ls);
  }

  /** The whole pipeline is idempotent. */
  lemma {:induction false} RoleBindingIsIdempotent(raw: string)
    ensures RoleBindingTemplate(RoleBindingTemplate(raw)) == RoleBindingTemplate(raw)
  {
    RoleBindingText(raw);
    RoleBindingText(RoleBindingTemplate(raw));
    RoleBindingOnce(Split(raw));
  }

  /**
    The pipeline keeps the number of lines, and changes a line only if it is an untemplated namespace
    field, or an untemplated name field inside the subjects section: the name of the role referred to
    survives.
   */
  lemma {:induction false} OnlySubjectsAndNamespacesChange(raw: string, i: nat)
    requires i < |Split(raw)|
    ensures |Split(RoleBindingTemplate(raw))| == |Split(raw)|
    ensures Split(RoleBindingTemplate(raw))[i] != Split(raw)[i] ==>
      Plain(Split(raw)[i], "namespace:") || (Within(Split(raw), i, false) && Plain(Split(raw)[i], "name:"))
  {
    RoleBindingText(raw);
    RoleBindingLineAt(Split(raw), i);
    if RoleBindingLines(Split(raw))[i] != Split(raw)[i] { OnlyMarkedLinesChange(Split(raw), i); }
  }

  lemma StillPlain(l: string)
    ensures Plain(l, "namespace:") ==> SubjectNamespace(l) != l
    ensures Plain(l, "name:") ==> SubjectName(l) != l
  {
    NamespaceTemplate(l);
    NameTemplate(l);
  }

  /** Afterwards no namespace field and, in the subjects section, no name field is left untemplated. */
  lemma {:induction false} NothingIsLeftPlain(raw: string, i: nat)
    requires i < |Split(RoleBindingTemplate(raw))|
    ensures !Plain(Split(RoleBindingTemplate(raw))[i], "namespace:")
    ensures Within(Split(RoleBindingTemplate(raw)), i, false) ==> !Plain(Split(RoleBindingTemplate(raw))[i], "name:")
  {
    var ls := Split(raw);
    var ns, ms := Namespaced(ls), RoleBindingLines(ls);
    RoleBindingText(raw);
    NamespacedAt(ls);
    RoleBindingLineAt(ls, 0);
    forall k | 0 <= k < |ls|
      ensures Shadows(ns[k], ms[k]) && SubjectNamespace(ms[k]) == ms[k]
    {
      RoleBindingLineAt(ls, k);
      NamespaceOnce(ls[k]);
      NameOnce(ns[k]);
    }
    RoleBindingLineAt(ls, i);
    WithinShadow(ns, ms, i, false, false);
    NameOnce(ns[i]);
    StillPlain(ms[i]);
  }
}
