/**
  The seven passes over a Deployment, each of which splits the text, rewrites the lines and joins
  them again, come to one pass over the lines of the original text.
*/
module ChartFusion {
  import opened GoStrings
  import opened LinePasses
  import opened BlockParts
  import opened BlockFusion
  import opened ChartLines

  // ----- what the templates look like -----

  lemma TemplatedLine(l: string, t: string)
    requires Tidy(t)
    ensures TrimSpace(Indent(l) + t) == t
    ensures IndentLen(Indent(l) + t) == IndentLen(l) && Indent(Indent(l) + t) == Indent(l)
  {
    IndentedText(Indent(l), t);
  }

  lemma ReleaseText()
    ensures Tidy(TPL_RELEASE) && Contains(TPL_RELEASE, "{{") && OneLine(TPL_RELEASE)
  {
    var a, b := "{{ default .Release.Namespace", " .Values.namespace }}";
    assert OneLine(a) && OneLine(b) && TPL_RELEASE == a + b;
    OneLineConcat(a, b);
  }

  lemma NamespaceText()
    ensures Tidy(TPL_NAMESPACE) && HasPrefix(TPL_NAMESPACE, "namespace:") && TPL_NAMESPACE[0] == 'n'
    ensures Contains(TPL_NAMESPACE, "{{") && OneLine(TPL_NAMESPACE)
  {
    ReleaseText();
    ContainsLater("namespace: ", TPL_RELEASE, "{{");
    assert OneLine("namespace: ");
    OneLineConcat("namespace: ", TPL_RELEASE);
  }

  lemma NamespaceTemplate(l: string)
    ensures
      var n := Indent(l) + TPL_NAMESPACE;
      && HasPrefix(TrimSpace(n), "namespace:") && TrimSpace(n)[0] == 'n' && Contains(TrimSpace(n), "{{")
      && IndentLen(n) == IndentLen(l)
  {
    NamespaceText();
    TemplatedLine(l, TPL_NAMESPACE);
  }

  lemma ImageTemplate(l: string)
    ensures var n := Indent(l) + IMAGE_LINE;
      TrimSpace(n) == IMAGE_LINE && IMAGE_LINE[0] == 'i' && IndentLen(n) == IndentLen(l)
  {
    TemplatedLine(l, IMAGE_LINE);
  }

  lemma PullTemplate(l: string)
    ensures var n := Indent(l) + PULL_LINE;
      TrimSpace(n) == PULL_LINE && PULL_LINE[0] == 'i' && IndentLen(n) == IndentLen(l)
  {
    TemplatedLine(l, PULL_LINE);
  }

  lemma ReplicasText()
    ensures Tidy(REPLICAS_LINE) && REPLICAS_LINE[0] == 'r' && REPLICAS_LINE[2] == 'p'
  {
    assert REPLICAS_LINE[|REPLICAS_LINE| - 1] == '}';
  }

  lemma ReplicasTemplate(l: string)
    ensures
      var n := Indent(l) + REPLICAS_LINE;
      TrimSpace(n) == REPLICAS_LINE && REPLICAS_LINE[0] == 'r' && REPLICAS_LINE[2] == 'p'
      && IndentLen(n) == IndentLen(l)
  {
    ReplicasText();
    TemplatedLine(l, REPLICAS_LINE);
  }

  lemma AccountTemplate(l: string)
    ensures
      var n := Indent(l) + ACCOUNT_LINE;
      HasPrefix(TrimSpace(n), "serviceAccountName:") && Indent(n) == Indent(l)
  {
    TemplatedLine(l, ACCOUNT_LINE);
  }

  // ----- the passes before and after the resources block, line by line -----

  function PreStep(l: string): seq<string> {
    FlatMap(ReplicasStep, FlatMap(ImageStep, NamespaceStep(l)))
  }

  function PostStep(l: string): seq<string> {
    FlatMap(EnvStep, FlatMap(SecretsStep, AccountStep(l)))
  }

  /** The first letter tells the fields of the early passes apart. */
  lemma EarlyStepsKeep(l: string)
    requires TrimSpace(l) == "" || (TrimSpace(l)[0] != 'r' && TrimSpace(l)[0] != 'i')
    ensures ImageStep(l) == [l] && ReplicasStep(l) == [l]
  {
  }

  lemma ReplicasStepKeeps(l: string)
    requires TrimSpace(l) != "" && TrimSpace(l)[0] == 'i'
    ensures ReplicasStep(l) == [l]
  {
  }

  lemma PreOfNamespace(l: string)
    requires Plain(l, "namespace:")
    ensures PreStep(l) == [Indent(l) + TPL_NAMESPACE] && TrimSpace(l)[0] == 'n'
  {
    var n := Indent(l) + TPL_NAMESPACE;
    NamespaceTemplate(l);
    EarlyStepsKeep(n);
    FlatMapOne(ImageStep, n);
    FlatMapOne(ReplicasStep, n);
  }

  lemma PreOfImage(l: string)
    requires Plain(l, "image:")
    ensures PreStep(l) == [Indent(l) + IMAGE_LINE, Indent(l) + PULL_LINE] && TrimSpace(l)[0] == 'i' && !IsPullPolicy(l)
  {
    assert TrimSpace(l)[5] == ':' && "imagePullPolicy:"[5] == 'P';
    FlatMapOne(ImageStep, l);
    ImageTemplate(l);
    PullTemplate(l);
    ReplicasStepKeeps(Indent(l) + IMAGE_LINE);
    ReplicasStepKeeps(Indent(l) + PULL_LINE);
    FlatMapTwo(ReplicasStep, Indent(l) + IMAGE_LINE, Indent(l) + PULL_LINE);
  }

  lemma PreOfOther(l: string)
    requires !Plain(l, "namespace:") && !Plain(l, "image:")
    ensures PreStep(l) ==
      if IsPullPolicy(l) then []
      else if Plain(l, "replicas:") then [Indent(l) + REPLICAS_LINE]
      else [l]
  {
    FlatMapOne(ImageStep, l);
    FlatMapOne(ReplicasStep, l);
  }

  lemma AccountStepKeeps(l: string)
    requires !HasPrefix(TrimSpace(l), "serviceAccountName:") && TrimSpace(l) != "env:"
    ensures PostStep(l) == [l]
  {
    FlatMapOne(SecretsStep, l);
    FlatMapOne(EnvStep, l);
  }

  lemma PostOfEnv(l: string)
    requires TrimSpace(l) == "env:"
    ensures PostStep(l) == [l] + ExtraEnvs(Indent(l))
  {
    FlatMapOne(SecretsStep, l);
    FlatMapOne(EnvStep, l);
  }

  lemma PostOfAccount(l: string)
    requires HasPrefix(TrimSpace(l), "serviceAccountName:")
    ensures PostStep(l)
      == [if Contains(TrimSpace(l), "{{") then l else Indent(l) + ACCOUNT_LINE] + PullSecrets(Indent(l))
  {
    var a := if Contains(TrimSpace(l), "{{") then l else Indent(l) + ACCOUNT_LINE;
    assert AccountStep(l) == [a];
    AccountTemplate(l);
    FlatMapOne(SecretsStep, a);
    FlatMapConcat(EnvStep, [a], PullSecrets(Indent(l)));
    FlatMapOne(EnvStep, a);
    PullSecretsAreFinal(Indent(l));
  }

  lemma TagText(action: string)
    ensures Tidy(Tag(action)) && Tag(action)[0] == '{' && (OneLine(action) ==> OneLine(Tag(action)))
  {
    var t := Tag(action);
    assert t[|t| - 1] == '}' && t[0] == '{';
    OneLineConcat("{{- ", action);
    OneLineConcat("{{- " + action, " }}");
  }

  lemma NotEnv(indent: string, t: string)
    requires AllSpaces(indent) && Tidy(t) && t[0] != 'e'
    ensures EnvStep(indent + t) == [indent + t]
  {
    IndentedText(indent, t);
  }

  lemma PullSecretsAreFinal(indent: string)
    requires AllSpaces(indent)
    ensures FlatMap(EnvStep, PullSecrets(indent)) == PullSecrets(indent)
  {
    TagText("with " + ".Values.imagePullSecret");
    TagText("end");
    NotEnv(indent, Tag("with " + ".Values.imagePullSecret"));
    NotEnv(indent, "imagePullSecrets:");
    NotEnv(indent + "  ", "- name: {{ . }}");
    NotEnv(indent, Tag("end"));
    FlatMapKeepsAll(EnvStep, PullSecrets(indent));
  }

  // ----- the fused pass -----

  /** What one line outside a resources block becomes. */
  function Emit(l: string): seq<string> {
    var t, indent := TrimSpace(l), Indent(l);
    if Plain(l, "namespace:") then [indent + TPL_NAMESPACE]
    else if Plain(l, "image:") then [indent + IMAGE_LINE, indent + PULL_LINE]
    else if IsPullPolicy(l) then []
    else if Plain(l, "replicas:") then [indent + REPLICAS_LINE]
    else if HasPrefix(t, "serviceAccountName:") then
      [if Contains(t, "{{") then l else indent + ACCOUNT_LINE] + PullSecrets(indent)
    else if t == "env:" then [l] + ExtraEnvs(indent)
    else [l]
  }

  function FusedDeployment(ls: seq<string>): seq<string> {
    FusedLines(RESOURCES, Emit, ResourceLines, IsPullPolicy, ls)
  }

  /** The early passes keep indentation, blank lines and headers. */
  lemma PreKeepsShapeOf(l: string)
    ensures PreStep(l) == [] <==> IsPullPolicy(l)
    ensures IsHeader(l) ==> PreStep(l) == [l]
    ensures forall x :: x in PreStep(l) ==>
      IndentLen(x) == IndentLen(l) && (TrimSpace(x) == "" <==> TrimSpace(l) == "") && (IsHeader(x) <==> IsHeader(l))
  {
    if Plain(l, "namespace:") {
      PreOfNamespace(l);
      NamespaceTemplate(l);
    } else if Plain(l, "image:") {
      PreOfImage(l);
      ImageTemplate(l);
      PullTemplate(l);
    } else {
      PreOfOther(l);
      if Plain(l, "replicas:") { ReplicasKeepShape(l); }
    }
  }

  lemma ReplicasKeepShape(l: string)
    requires Plain(l, "replicas:")
    ensures
      var x := Indent(l) + REPLICAS_LINE;
      IndentLen(x) == IndentLen(l) && TrimSpace(x) != "" && TrimSpace(l) != "" && !IsHeader(x) && !IsHeader(l)
  {
    ReplicasTemplate(l);
    assert "replicas:"[2] == 'p' && "resources:"[2] == 's';
    assert TrimSpace(l)[2] == "replicas:"[2];
  }

  lemma PreKeepsShape()
    ensures KeepsShape(RESOURCES, PreStep, IsPullPolicy)
  {
    forall l: string
      ensures PreStep(l) == [] <==> IsPullPolicy(l)
      ensures RESOURCES.head(l) ==> PreStep(l) == [l]
      ensures forall x :: x in PreStep(l) ==> Alike(RESOURCES, x, l)
    {
      PreKeepsShapeOf(l);
    }
  }

  lemma EmitIsPrePost(l: string)
    requires !IsHeader(l)
    ensures Emit(l) == FlatMap(PostStep, PreStep(l))
  {
    if Plain(l, "namespace:") {
      PreOfNamespace(l);
      NamespaceTemplate(l);
      FlatMapOne(PostStep, Indent(l) + TPL_NAMESPACE);
      AccountStepKeeps(Indent(l) + TPL_NAMESPACE);
    } else if Plain(l, "image:") {
      PreOfImage(l);
      ImageTemplate(l);
      PullTemplate(l);
      FlatMapTwo(PostStep, Indent(l) + IMAGE_LINE, Indent(l) + PULL_LINE);
      AccountStepKeeps(Indent(l) + IMAGE_LINE);
      AccountStepKeeps(Indent(l) + PULL_LINE);
    } else {
      PreOfOther(l);
      if Plain(l, "replicas:") {
        ReplicasTemplate(l);
        FlatMapOne(PostStep, Indent(l) + REPLICAS_LINE);
        AccountStepKeeps(Indent(l) + REPLICAS_LINE);
      } else {
        FlatMapOne(PostStep, l);
        PostOf(l);
      }
    }
  }

  lemma PostOf(l: string)
    ensures PostStep(l) ==
      if HasPrefix(TrimSpace(l), "serviceAccountName:") then
        [if Contains(TrimSpace(l), "{{") then l else Indent(l) + ACCOUNT_LINE] + PullSecrets(Indent(l))
      else if TrimSpace(l) == "env:" then [l] + ExtraEnvs(Indent(l))
      else [l]
  {
    if HasPrefix(TrimSpace(l), "serviceAccountName:") { PostOfAccount(l); }
    else if TrimSpace(l) == "env:" { PostOfEnv(l); }
    else { AccountStepKeeps(l); }
  }

  lemma NindentText(n: nat)
    ensures Tidy(Nindent(n)) && Nindent(n)[0] == '{' && OneLine(Nindent(n))
  {
    assert OneLine(Decimal(n)) && OneLine(TO_YAML);
    OneLineConcat(TO_YAML, Decimal(n));
    TagText(TO_YAML + Decimal(n));
  }

  lemma ResourceLinesShape(indent: string)
    requires AllSpaces(indent)
    ensures
      var b := ResourceLines(indent);
      && TrimSpace(b[0]) == "resources:" && IndentLen(b[0]) == |indent| && Indent(b[0]) == indent
      && IndentLen(b[1]) == |indent| + 2 && TrimSpace(b[1]) == Nindent(|indent| + 2)
  {
    IndentedText(indent, "resources:");
    NindentText(|indent| + 2);
    IndentedText(indent + "  ", Nindent(|indent| + 2));
  }

  lemma ResourceLinesAreFinal(indent: string)
    requires AllSpaces(indent)
    ensures FlatMap(PostStep, ResourceLines(indent)) == ResourceLines(indent)
  {
    var b := ResourceLines(indent);
    ResourceLinesShape(indent);
    NindentText(|indent| + 2);
    assert TrimSpace(b[0])[0] == 'r' && TrimSpace(b[1])[0] == '{';
    FlatMapTwo(PostStep, b[0], b[1]);
    AccountStepKeeps(b[0]);
    AccountStepKeeps(b[1]);
  }

  // ----- texts -----

  lemma SpacesAreOneLine(indent: string)
    requires AllSpaces(indent)
    ensures OneLine(indent)
  {
  }

  lemma IndentedIsOneLine(indent: string, t: string)
    requires AllSpaces(indent) && OneLine(t)
    ensures OneLine(indent + t)
  {
    SpacesAreOneLine(indent);
    OneLineConcat(indent, t);
  }

  lemma NamespaceKeepsLines()
    ensures KeepsLines(NamespaceStep)
  {
    forall l: string | OneLine(l)
      ensures AllOneLine(NamespaceStep(l))
    {
      NamespaceText();
      IndentedIsOneLine(Indent(l), TPL_NAMESPACE);
    }
  }

  lemma ImageKeepsLines()
    ensures KeepsLines(ImageStep)
  {
    forall l: string | OneLine(l)
      ensures AllOneLine(ImageStep(l))
    {
      IndentedIsOneLine(Indent(l), IMAGE_LINE);
      IndentedIsOneLine(Indent(l), PULL_LINE);
    }
  }

  lemma ReplicasKeepsLines()
    ensures KeepsLines(ReplicasStep)
  {
    forall l: string | OneLine(l)
      ensures AllOneLine(ReplicasStep(l))
    {
      IndentedIsOneLine(Indent(l), REPLICAS_LINE);
    }
  }

  lemma AccountKeepsLines()
    ensures KeepsLines(AccountStep)
  {
    forall l: string | OneLine(l)
      ensures AllOneLine(AccountStep(l))
    {
      AccountLineIsOneLine();
      IndentedIsOneLine(Indent(l), ACCOUNT_LINE);
    }
  }

  lemma AccountLineIsOneLine()
    ensures OneLine(TPL_ACCOUNT) && OneLine(ACCOUNT_LINE)
  {
    var a, b := "{{ default (include \"chart.fullname\" .)", " .Values.serviceAccount.name }}";
    assert OneLine(a) && OneLine(b) && TPL_ACCOUNT == a + b;
    OneLineConcat(a, b);
    assert OneLine("serviceAccountName: ");
    OneLineConcat("serviceAccountName: ", TPL_ACCOUNT);
  }

  lemma TagIsOneLine(indent: string, action: string)
    requires AllSpaces(indent) && OneLine(action)
    ensures OneLine(indent + Tag(action))
  {
    TagText(action);
    IndentedIsOneLine(indent, Tag(action));
  }

  lemma WrappedLines(indent: string, action: string, body: seq<string>)
    requires AllSpaces(indent) && OneLine(action) && AllOneLine(body)
    ensures AllOneLine(Wrapped(indent, action, body))
  {
    TagIsOneLine(indent, action);
    TagIsOneLine(indent, "end");
  }

  lemma PullSecretsAreLines(indent: string)
    requires AllSpaces(indent)
    ensures AllOneLine(PullSecrets(indent))
  {
    var a, b := indent + "imagePullSecrets:", indent + "  " + "- name: {{ . }}";
    IndentedIsOneLine(indent, "imagePullSecrets:");
    IndentedIsOneLine(indent + "  ", "- name: {{ . }}");
    WrappedLines(indent, "with " + ".Values.imagePullSecret", [a, b]);
  }

  lemma SecretsKeepLines()
    ensures KeepsLines(SecretsStep)
  {
    forall l: string | OneLine(l)
      ensures AllOneLine(SecretsStep(l))
    {
      PullSecretsAreLines(Indent(l));
    }
  }

  lemma ResourceLinesAreLines(indent: string)
    requires AllSpaces(indent)
    ensures AllOneLine(ResourceLines(indent))
  {
    NindentText(|indent| + 2);
    IndentedIsOneLine(indent, "resources:");
    IndentedIsOneLine(indent + "  ", Nindent(|indent| + 2));
  }

  lemma BlankIsKept()
    ensures ImageStep("") == ReplicasStep("") == AccountStep("") == SecretsStep("") == EnvStep("") == [""]
  {
  }

  /**
    For every text, the seven passes of `transformDeployment` give what one pass over its lines gives.
    The one pass must let a resources block run on over imagePullPolicy lines, which the second of
    the seven passes has dropped before the fourth looks for the block.
   */
  lemma {:induction false} DeploymentPassesFuse(raw: string)
    ensures DeploymentTemplate(raw) == Join(FusedDeployment(Split(raw)))
  {
    NamespaceKeepsLines();
    ImageKeepsLines();
    ReplicasKeepsLines();
    AccountKeepsLines();
    SecretsKeepLines();
    BlankIsKept();
    forall l: string
      ensures AllOneLine(ResourceLines(RESOURCES.indent(l)))
      ensures FlatMap(PostStep, ResourceLines(RESOURCES.indent(l))) == ResourceLines(RESOURCES.indent(l))
    {
      ResourceLinesAreLines(Indent(l));
      ResourceLinesAreFinal(Indent(l));
    }
    TextsCompose(RESOURCES, NamespaceStep, ImageStep, ReplicasStep, ResourceLines, AccountStep, SecretsStep,
                 EnvStep, raw);
    var ls := Split(raw);
    StepsCompose(RESOURCES, NamespaceStep, ImageStep, ReplicasStep, PreStep, AccountStep, SecretsStep, EnvStep,
                 PostStep, ResourceLines, ls);
    PreKeepsShape();
    forall l | !RESOURCES.head(l)
      ensures Emit(l) == FlatMap(PostStep, PreStep(l))
    {
      EmitIsPrePost(l);
    }
    LinesFuse(RESOURCES, PreStep, PostStep, Emit, ResourceLines, IsPullPolicy, ls);
  }

  /** Every imagePullPolicy line is followed by nothing, or by a non-blank line that is not deeper. */
  ghost predicate PolicyAtEdge(ls: seq<string>) {
    forall j, k :: 0 <= j < k < |ls| && k == j + 1 && IsPullPolicy(ls[j]) ==>
      TrimSpace(ls[k]) != "" && IndentLen(ls[k]) <= IndentLen(ls[j])
  }

  lemma PolicyEndsBlocks(ls: seq<string>)
    requires PolicyAtEdge(ls)
    ensures DroppedAtEdge(RESOURCES, IsPullPolicy, ls)
  {
    forall j, k | 0 <= j < k < |ls| && k == j + 1 && IsPullPolicy(ls[j])
      ensures EndsToo(RESOURCES, ls[j], ls[k])
    {
      forall base: nat | !RESOURCES.below(ls[j], base)
        ensures !RESOURCES.below(ls[k], base)
      {
        assert !InBlock(ls[j], base);
      }
    }
  }

  lemma PolicyIsDropped(l: string)
    requires IsPullPolicy(l)
    ensures Emit(l) == [] && !IsHeader(l)
  {
    assert TrimSpace(l)[0] == 'i';
    if Plain(l, "image:") { PreOfImage(l); }
  }

  /** On texts whose imagePullPolicy lines stand at the end of their block, the plain one-pass rewriting is enough. */
  lemma {:induction false} DeploymentPassesFusePlainly(raw: string)
    requires PolicyAtEdge(Split(raw))
    ensures DeploymentTemplate(raw) == Join(FusedLines(RESOURCES, Emit, ResourceLines, Never, Split(raw)))
  {
    DeploymentPassesFuse(raw);
    PolicyEndsBlocks(Split(raw));
    forall l | IsPullPolicy(l)
      ensures Emit(l) == [] && !RESOURCES.head(l)
    {
      PolicyIsDropped(l);
    }
    PlainBlocksSuffice(RESOURCES, Emit, ResourceLines, IsPullPolicy, Split(raw));
  }

  lemma EmitKeepsLines(l: string)
    requires OneLine(l)
    ensures AllOneLine(Emit(l))
  {
    var indent := Indent(l);
    NamespaceText();
    AccountLineIsOneLine();
    IndentedIsOneLine(indent, TPL_NAMESPACE);
    IndentedIsOneLine(indent, IMAGE_LINE);
    IndentedIsOneLine(indent, PULL_LINE);
    IndentedIsOneLine(indent, REPLICAS_LINE);
    IndentedIsOneLine(indent, ACCOUNT_LINE);
    PullSecretsAreLines(indent);
    ExtraEnvsAreLines(indent);
  }

  lemma ExtraEnvsAreLines(indent: string)
    requires AllSpaces(indent)
    ensures AllOneLine(ExtraEnvs(indent))
  {
    var a, b := indent + "- name: {{ $key | quote }}", indent + "  " + "value: {{ $val | quote }}";
    IndentedIsOneLine(indent, "- name: {{ $key | quote }}");
    IndentedIsOneLine(indent + "  ", "value: {{ $val | quote }}");
    WrappedLines(indent, "range " + "$key, $val := .Values.extraEnvs", [a, b]);
  }

  lemma FusedAreLines(ls: seq<string>)
    requires AllOneLine(ls)
    ensures AllOneLine(FusedDeployment(ls))
  {
    forall l | OneLine(l)
      ensures AllOneLine(Emit(l))
    {
      EmitKeepsLines(l);
    }
    forall l: string
      ensures AllOneLine(ResourceLines(RESOURCES.indent(l)))
    {
      ResourceLinesAreLines(Indent(l));
    }
    FusedKeepsLines(RESOURCES, Emit, ResourceLines, IsPullPolicy, ls);
  }

  // ----- the resources block -----

  lemma ResourceLinesMakeBlocks()
    ensures MakesBlocks(RESOURCES, ResourceLines)
  {
    forall l | RESOURCES.head(l)
      ensures IsBlock(RESOURCES, l, ResourceLines(RESOURCES.indent(l)))
    {
      ResourceLinesShape(Indent(l));
    }
  }

  /**
    `replaceResources` takes a text apart into other lines and blocks, each a resources header with
    all the deeper or blank lines after it, keeps the other lines in order, and writes for each block
    a header of the same indentation and one line whose nindent number is its own indentation; these
    are the blocks of the new text, and a second run changes nothing.
   */
  lemma {:induction false} ResourcesAreReplaced(ls: seq<string>)
    ensures
      var parts := Parts(RESOURCES, ls);
      && Flatten(parts) == ls && IsPartition(RESOURCES, parts)
      && ReplaceResources(ls) == Render(RESOURCES, ResourceLines, parts)
      && Parts(RESOURCES, ReplaceResources(ls)) == Replaced(RESOURCES, ResourceLines, parts)
    ensures ReplaceResources(ReplaceResources(ls)) == ReplaceResources(ls)
    ensures forall l :: var b := ResourceLines(Indent(l));
      && TrimSpace(b[0]) == "resources:" && IndentLen(b[0]) == IndentLen(l)
      && TrimSpace(b[1]) == Nindent(IndentLen(b[1])) && IndentLen(b[1]) == IndentLen(l) + 2
  {
    ResourceLinesMakeBlocks();
    PartsFlatten(RESOURCES, ls);
    PartsArePartition(RESOURCES, ls);
    ReplacingRendersParts(RESOURCES, ResourceLines, ls);
    ReplacingReplacesParts(RESOURCES, ResourceLines, ls);
    forall l: string
      ensures var b := ResourceLines(Indent(l));
        && TrimSpace(b[0]) == "resources:" && IndentLen(b[0]) == IndentLen(l)
        && TrimSpace(b[1]) == Nindent(IndentLen(b[1])) && IndentLen(b[1]) == IndentLen(l) + 2
    {
      ResourceLinesShape(Indent(l));
    }
  }
}
