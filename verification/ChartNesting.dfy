/**
  Block actions (`if`, `with`, `range` … `end`) that stand on lines of their own are well nested in
  the generated templates.
 */
module ChartNesting {
  import opened GoStrings
  import opened LinePasses
  import opened BlockFusion
  import opened SectionPasses
  import opened Nesting
  import opened ChartLines
  import opened ChartFusion
  import opened ChartRoleBinding

  // ----- the inserted lines -----

  lemma NoActionNeutral(l: string)
    requires TrimSpace(l) != "" && TrimSpace(l)[0] != '{'
    ensures Neutral([l])
  {
    assert Word(l) == "";
    OneNeutral(l);
  }

  /** A line that does not start with an action. */
  lemma TextLine(indent: string, t: string)
    requires AllSpaces(indent) && Tidy(t) && t[0] != '{'
    ensures Neutral([indent + t])
  {
    IndentedText(indent, t);
    NoActionNeutral(indent + t);
  }

  lemma TagWord(indent: string, action: string)
    requires AllSpaces(indent) && Tidy(action)
    ensures Word(indent + Tag(action)) == action + " }}"
  {
    var t := Tag(action);
    TagText(action);
    IndentedText(indent, t);
    var u := " " + (action + " }}");
    assert t[3..] == u;
    assert Tidy(action + " }}");
    IndentedText(" ", action + " }}");
    assert u[1..] == action + " }}";
  }

  lemma OpenTag(indent: string, action: string)
    requires AllSpaces(indent) && IsBlockAction(action)
    ensures Opens(indent + Tag(action))
  {
    TagWord(indent, action);
  }

  lemma EndTag(indent: string)
    requires AllSpaces(indent)
    ensures Closes(indent + Tag("end")) && !Opens(indent + Tag("end"))
  {
    TagWord(indent, "end");
  }

  lemma OtherTag(indent: string, action: string)
    requires AllSpaces(indent) && Tidy(action) && HasPrefix(action, "toYaml ")
    ensures Neutral([indent + Tag(action)])
  {
    TagWord(indent, action);
    assert action[0] == 't';
    OneNeutral(indent + Tag(action));
  }

  lemma TwoTexts(a: string, b: string)
    requires Neutral([a]) && Neutral([b])
    ensures Neutral([a, b])
  {
    NeutralConcat([a], [b]);
    assert [a] + [b] == [a, b];
  }

  /** The action of a block. */
  predicate IsBlockAction(action: string) {
    Tidy(action) && (HasPrefix(action, "if ") || HasPrefix(action, "with ") || HasPrefix(action, "range "))
  }

  lemma BlockAction(keyword: string, rest: string)
    requires keyword in {"if ", "with ", "range "} && rest != [] && !IsSpace(rest[|rest| - 1])
    ensures IsBlockAction(keyword + rest)
  {
    var action := keyword + rest;
    assert action[|action| - 1] == rest[|rest| - 1];
  }

  lemma WrappedNeutral(indent: string, action: string, body: seq<string>)
    requires AllSpaces(indent) && IsBlockAction(action) && Neutral(body)
    ensures Neutral(Wrapped(indent, action, body))
  {
    OpenTag(indent, action);
    EndTag(indent);
    BlockNeutral(indent + Tag(action), body, indent + Tag("end"));
  }

  lemma PullSecretsNeutral(indent: string)
    requires AllSpaces(indent)
    ensures Neutral(PullSecrets(indent))
  {
    var a, b := indent + "imagePullSecrets:", indent + "  " + "- name: {{ . }}";
    TextLine(indent, "imagePullSecrets:");
    TextLine(indent + "  ", "- name: {{ . }}");
    TwoTexts(a, b);
    BlockAction("with ", ".Values.imagePullSecret");
    WrappedNeutral(indent, "with " + ".Values.imagePullSecret", [a, b]);
  }

  lemma ExtraEnvsNeutral(indent: string)
    requires AllSpaces(indent)
    ensures Neutral(ExtraEnvs(indent))
  {
    var a, b := indent + "- name: {{ $key | quote }}", indent + "  " + "value: {{ $val | quote }}";
    TextLine(indent, "- name: {{ $key | quote }}");
    TextLine(indent + "  ", "value: {{ $val | quote }}");
    TwoTexts(a, b);
    BlockAction("range ", "$key, $val := .Values.extraEnvs");
    WrappedNeutral(indent, "range " + "$key, $val := .Values.extraEnvs", [a, b]);
  }

  lemma ToYamlTidy(start: string, n: nat)
    requires start != [] && !IsSpace(start[0])
    ensures Tidy(start + Decimal(n))
  {
    var t, d := start + Decimal(n), Decimal(n);
    assert t[|t| - 1] == d[|d| - 1];
  }

  lemma ResourceLinesNeutral(indent: string)
    requires AllSpaces(indent)
    ensures Neutral(ResourceLines(indent))
  {
    TextLine(indent, "resources:");
    ToYamlTidy(TO_YAML, |indent| + 2);
    OtherTag(indent + "  ", TO_YAML + Decimal(|indent| + 2));
    TwoTexts(indent + "resources:", indent + "  " + Nindent(|indent| + 2));
  }

  // ----- the Deployment -----

  lemma EmitNeutral(l: string)
    requires Free(l)
    ensures Neutral(Emit(l))
  {
    FreeLineIsPlain(l);
    OneNeutral(l);
    if Plain(l, "namespace:") {
      NamespaceTemplate(l);
      NoActionNeutral(Indent(l) + TPL_NAMESPACE);
    } else if Plain(l, "image:") {
      ImageTemplate(l);
      PullTemplate(l);
      NoActionNeutral(Indent(l) + IMAGE_LINE);
      NoActionNeutral(Indent(l) + PULL_LINE);
      NeutralConcat([Indent(l) + IMAGE_LINE], [Indent(l) + PULL_LINE]);
      assert Emit(l) == [Indent(l) + IMAGE_LINE] + [Indent(l) + PULL_LINE];
    } else if !IsPullPolicy(l) {
      EmitOtherNeutral(l);
    }
  }

  lemma EmitOtherNeutral(l: string)
    requires Free(l) && !Plain(l, "namespace:") && !Plain(l, "image:") && !IsPullPolicy(l)
    ensures Neutral(Emit(l))
  {
    FreeLineIsPlain(l);
    OneNeutral(l);
    if Plain(l, "replicas:") {
      ReplicasTemplate(l);
      NoActionNeutral(Indent(l) + REPLICAS_LINE);
    } else if HasPrefix(TrimSpace(l), "serviceAccountName:") {
      AccountTemplate(l);
      assert TrimSpace(Indent(l) + ACCOUNT_LINE)[0] == 's';
      NoActionNeutral(Indent(l) + ACCOUNT_LINE);
      PullSecretsNeutral(Indent(l));
      NeutralConcat([Indent(l) + ACCOUNT_LINE], PullSecrets(Indent(l)));
    } else if TrimSpace(l) == "env:" {
      ExtraEnvsNeutral(Indent(l));
      NeutralConcat([l], ExtraEnvs(Indent(l)));
    }
  }

  /** A Deployment template made from a text without actions is well nested. */
  lemma {:induction false} DeploymentIsNested(raw: string)
    requires Free(raw)
    ensures WellNested(Split(DeploymentTemplate(raw)))
  {
    var ls := Split(raw);
    LinesOfFreeText(raw);
    DeploymentPassesFuse(raw);
    forall l | l in ls
      ensures Neutral(Emit(l))
    {
      EmitNeutral(l);
    }
    forall l: string
      ensures Neutral(ResourceLines(RESOURCES.indent(l)))
    {
      ResourceLinesNeutral(Indent(l));
    }
    FusedNeutral(RESOURCES, Emit, ResourceLines, IsPullPolicy, ls);
    FusedAreLines(ls);
    NestedText(FusedLines(RESOURCES, Emit, ResourceLines, IsPullPolicy, ls));
  }

  // ----- lines after the namespace pass -----

  lemma TextInert(l: string)
    requires TrimSpace(l) != "" && TrimSpace(l)[0] != '{'
    ensures Inert(l)
  {
    assert Word(l) == "";
  }

  lemma NamespacedInert(raw: string)
    requires Free(raw)
    ensures forall l :: l in Namespaced(Split(raw)) ==> Inert(l)
  {
    var ls := Split(raw);
    NamespacedAt(ls);
    LinesOfFreeText(raw);
    forall i | 0 <= i < |ls|
      ensures Inert(Namespaced(ls)[i])
    {
      assert ls[i] in ls;
      FreeLineIsPlain(ls[i]);
      if Plain(ls[i], "namespace:") {
        NamespaceTemplate(ls[i]);
        TextInert(SubjectNamespace(ls[i]));
      }
    }
  }

  lemma NamespacedText(raw: string)
    ensures AllOneLine(Namespaced(Split(raw)))
    ensures Split(Rewritten(NamespaceStep, raw)) == Namespaced(Split(raw))
  {
    LinesStayLines(Split(raw));
    NamespacedAt(Split(raw));
    SplitOfJoin(Namespaced(Split(raw)));
  }

  // ----- the RoleBinding -----

  /** A RoleBinding template made from a text without actions has no blocks. */
  lemma {:induction false} RoleBindingIsNested(raw: string)
    requires Free(raw)
    ensures WellNested(Split(RoleBindingTemplate(raw)))
  {
    var ls := Split(raw);
    RoleBindingText(raw);
    NamespacedInert(raw);
    NamespacedAt(ls);
    forall i | 0 <= i < |ls|
      ensures |RoleBindingLines(ls)| == |ls| && Inert(RoleBindingLines(ls)[i])
    {
      RoleBindingLineAt(ls, i);
      var n := SubjectNamespace(ls[i]);
      assert n == Namespaced(ls)[i] && n in Namespaced(ls);
      if SubjectName(n) != n {
        NameTemplate(n);
        assert TrimSpace(SubjectName(n))[0] == 'n';
        TextInert(SubjectName(n));
      }
    }
    RoleBindingLineAt(ls, 0);
    SinglesNeutral(RoleBindingLines(ls));
  }

  // ----- the ServiceAccount -----

  lemma DotYamlText(n: nat)
    ensures Tidy(DOT_TO_YAML + Decimal(n)) && OneLine(DOT_TO_YAML + Decimal(n))
  {
    ToYamlTidy(DOT_TO_YAML, n);
    assert OneLine(Decimal(n)) && OneLine(DOT_TO_YAML);
    OneLineConcat(DOT_TO_YAML, Decimal(n));
  }

  lemma AnnotationsNeutral(indent: string)
    requires AllSpaces(indent)
    ensures Neutral(Annotations(indent))
  {
    var yaml := DOT_TO_YAML + Decimal(|indent| + 2);
    var a, b := indent + "annotations:", indent + "  " + Tag(yaml);
    TextLine(indent, "annotations:");
    DotYamlText(|indent| + 2);
    OtherTag(indent + "  ", yaml);
    TwoTexts(a, b);
    BlockAction("with ", ".Values.serviceAccount.annotations");
    WrappedNeutral(indent, "with " + ".Values.serviceAccount.annotations", [a, b]);
  }

  lemma AnnotationsAreLines(indent: string)
    requires AllSpaces(indent)
    ensures AllOneLine(Annotations(indent))
  {
    var yaml := DOT_TO_YAML + Decimal(|indent| + 2);
    IndentedIsOneLine(indent, "annotations:");
    DotYamlText(|indent| + 2);
    TagIsOneLine(indent + "  ", yaml);
    WrappedLines(indent, "with " + ".Values.serviceAccount.annotations",
      [indent + "annotations:", indent + "  " + Tag(yaml)]);
  }

  lemma AccountMetadataNeutral(indent: string)
    requires AllSpaces(indent)
    ensures Neutral(AccountMetadata(indent)) && AllOneLine(AccountMetadata(indent))
  {
    NameText();
    TextLine(indent, NAME_LINE);
    IndentedIsOneLine(indent, NAME_LINE);
    AnnotationsNeutral(indent);
    AnnotationsAreLines(indent);
    NeutralConcat([indent + NAME_LINE], Annotations(indent));
  }

  /** A ServiceAccount template made from a text without actions is well nested. */
  lemma ServiceAccountIsNested(raw: string, name: string)
    requires Free(raw)
    ensures WellNested(Split(ServiceAccountTemplate(raw, name)))
  {
    NamespacedText(raw);
    NamespacedInert(raw);
    forall indent | AllSpaces(indent)
      ensures Neutral(AccountMetadata(indent)) && AllOneLine(AccountMetadata(indent))
    {
      AccountMetadataNeutral(indent);
    }
    NamesNeutral(AccountMetadata, Namespaced(Split(raw)), name, false);
    NestedText(ReplaceNames(AccountMetadata, Namespaced(Split(raw)), name, false));
  }

  // ----- the ConfigMap -----

  lemma ActionWord(indent: string, t: string)
    requires AllSpaces(indent) && Tidy(t)
    ensures Word(indent + ("{{ " + t)) == t
  {
    var whole := "{{ " + t;
    IndentedText(indent, whole);
    assert whole[2..] == " " + t;
    IndentedText(" ", t);
    assert (" " + t)[1..] == t;
  }

  lemma PairWord(indent: string)
    requires AllSpaces(indent)
    ensures Inert(indent + PAIR_LINE)
  {
    assert PAIR[0] == '$';
    ActionWord(indent, PAIR);
  }

  lemma SecretDataNeutral(indent: string)
    requires AllSpaces(indent)
    ensures Neutral(SecretData(indent)) && AllOneLine(SecretData(indent))
  {
    TextLine(indent, "imagePullSecret: {{ . }}");
    IndentedIsOneLine(indent, "imagePullSecret: {{ . }}");
    BlockAction("with ", ".Values.imagePullSecret");
    WrappedNeutral(indent, "with " + ".Values.imagePullSecret", [indent + "imagePullSecret: {{ . }}"]);
    WrappedLines(indent, "with " + ".Values.imagePullSecret", [indent + "imagePullSecret: {{ . }}"]);
  }

  lemma ConfigDataNeutral(indent: string)
    requires AllSpaces(indent)
    ensures Neutral(ConfigData(indent)) && AllOneLine(ConfigData(indent))
  {
    PairWord(indent);
    OneNeutral(indent + PAIR_LINE);
    IndentedIsOneLine(indent, PAIR_LINE);
    BlockAction("range ", "$key, $val := .Values.config");
    WrappedNeutral(indent, "range " + "$key, $val := .Values.config", [indent + PAIR_LINE]);
    WrappedLines(indent, "range " + "$key, $val := .Values.config", [indent + PAIR_LINE]);
  }

  lemma DataBodyNeutral(indent: string)
    requires AllSpaces(indent)
    ensures Neutral(DataBody(indent)) && AllOneLine(DataBody(indent))
  {
    var deep := indent + "  ";
    SecretDataNeutral(deep);
    ConfigDataNeutral(deep);
    TextLine(indent, "data:");
    IndentedIsOneLine(indent, "data:");
    NeutralConcat(SecretData(deep), ConfigData(deep));
    NeutralConcat([indent + "data:"], SecretData(deep) + ConfigData(deep));
  }

  /** One block that holds two others. */
  lemma DataDirectivesNeutral(indent: string)
    requires AllSpaces(indent)
    ensures Neutral(DataDirectives(indent)) && AllOneLine(DataDirectives(indent))
  {
    DataBodyNeutral(indent);
    BlockAction("if ", "or .Values.imagePullSecret .Values.config");
    WrappedNeutral(indent, "if " + "or .Values.imagePullSecret .Values.config", DataBody(indent));
    WrappedLines(indent, "if " + "or .Values.imagePullSecret .Values.config", DataBody(indent));
  }

  /** A ConfigMap template made from a text without actions is well nested, with or without a data section. */
  lemma ConfigMapIsNested(raw: string)
    requires Free(raw)
    ensures WellNested(Split(ConfigMapTemplate(raw)))
  {
    var ls := Namespaced(Split(raw));
    NamespacedText(raw);
    NamespacedInert(raw);
    forall indent | AllSpaces(indent)
      ensures Neutral(DataDirectives(indent)) && AllOneLine(DataDirectives(indent))
    {
      DataDirectivesNeutral(indent);
    }
    InjectedNeutral(DataDirectives, ls);
    NestedText(InjectData(DataDirectives, ls));
  }
}
