/** What the Deployment pipeline makes of the lines of a text. */
module ChartDeployment {
  import opened GoStrings
  import opened LinePasses
  import opened BlockParts
  import opened BlockFusion
  import opened Sections
  import opened ChartLines
  import opened ChartFusion

  // ----- the resources blocks -----

  /** What a part of the text is, and where it ends. */
  ghost predicate IsResourcePart(parts: seq<Part>, i: nat)
    requires i < |parts|
  {
    match parts[i]
    case Line(l) => TrimSpace(l) != "resources:"
    case Block(header, body) =>
      && TrimSpace(header) == "resources:"
      && (forall l :: l in body ==> TrimSpace(l) == "" || IndentLen(l) >= IndentLen(header) + 2)
      && (i + 1 < |parts| ==>
            var next := LinesOf(parts[i + 1])[0];
            TrimSpace(next) != "" && IndentLen(next) < IndentLen(header) + 2)
  }

  /** The lines that stand for a part afterwards. */
  function NewLines(part: Part): seq<string> {
    match part
    case Line(l) => [l]
    case Block(header, _) =>
      [Indent(header) + "resources:",
       Indent(header) + "  " + "{{- " + "toYaml .Values.resources | nindent " + Decimal(IndentLen(header) + 2) + " }}"]
  }

  lemma ResourceTexts(indent: string)
    ensures ResourceLines(indent) ==
      [indent + "resources:",
       indent + "  " + "{{- " + "toYaml .Values.resources | nindent " + Decimal(|indent| + 2) + " }}"]
  {
    TagAtEnd(indent + "  ", TO_YAML, Decimal(|indent| + 2));
  }

  lemma TagAtEnd(before: string, action: string, number: string)
    ensures before + Tag(action + number) == before + "{{- " + action + number + " }}"
  {
  }

  lemma {:induction false} RenderedPieces(parts: seq<Part>) returns (pieces: seq<seq<string>>)
    ensures |pieces| == |parts| && Concat(pieces) == Render(RESOURCES, ResourceLines, parts)
    ensures forall i :: 0 <= i < |parts| ==> pieces[i] == NewLines(parts[i])
  {
    if parts == [] {
      pieces := [];
    } else {
      var rest := RenderedPieces(parts[1..]);
      if parts[0].Block? { ResourceTexts(Indent(parts[0].header)); }
      ConcatFirst(NewLines(parts[0]), rest);
      pieces := [NewLines(parts[0])] + rest;
    }
  }

  /**
    `replaceResources`, told from the lines alone: a text falls apart into resources headers with the
    blank lines and the lines at least two deeper that follow them, up to the first line that is neither,
    and other lines, none of which is a resources header; the other lines are kept, and each header with
    its lines becomes two lines.
   */
  lemma ResourcesOfText(ls: seq<string>) returns (parts: seq<Part>, pieces: seq<seq<string>>)
    ensures Flatten(parts) == ls && forall i :: 0 <= i < |parts| ==> IsResourcePart(parts, i)
    ensures |pieces| == |parts| && Concat(pieces) == ReplaceResources(ls)
    ensures forall i :: 0 <= i < |parts| ==> pieces[i] == NewLines(parts[i])
  {
    parts := Parts(RESOURCES, ls);
    PartsFlatten(RESOURCES, ls);
    PartsArePartition(RESOURCES, ls);
    ReplacingRendersParts(RESOURCES, ResourceLines, ls);
    pieces := RenderedPieces(parts);
    forall i | 0 <= i < |parts|
      ensures IsResourcePart(parts, i)
    {
      PartitionAt(RESOURCES, parts, i);
      PartSays(parts, i);
    }
  }

  lemma PartSays(parts: seq<Part>, i: nat)
    requires i < |parts| && IsPart(RESOURCES, parts[i])
    requires parts[i].Block? && i + 1 < |parts| ==>
      !RESOURCES.below(LinesOf(parts[i + 1])[0], |RESOURCES.indent(parts[i].header)| + 2)
    ensures IsResourcePart(parts, i)
  {
    match parts[i]
    case Line(l) => assert !IsHeader(l);
    case Block(header, body) =>
      forall l | l in body
        ensures TrimSpace(l) == "" || IndentLen(l) >= IndentLen(header) + 2
      {
        assert RESOURCES.below(l, |RESOURCES.indent(header)| + 2);
      }
  }

  // ----- the other lines -----

  /** What the six passes that look at single lines make of one line. */
  function ThroughPasses(l: string): seq<string> {
    FlatMap(EnvStep, FlatMap(SecretsStep, FlatMap(AccountStep,
      FlatMap(ReplicasStep, FlatMap(ImageStep, FlatMap(NamespaceStep, [l]))))))
  }

  lemma PassesAreEmit(l: string)
    requires TrimSpace(l) != "resources:"
    ensures ThroughPasses(l) == Emit(l)
  {
    FlatMapOne(NamespaceStep, l);
    ThreeSteps(AccountStep, SecretsStep, EnvStep, PostStep, PreStep(l));
    EmitIsPrePost(l);
  }

  /** A field that the value of the chart has not replaced. */
  predicate IsOpen(t: string, field: string) {
    field <= t && !Contains(t, "{{")
  }

  /**
    What the passes make of a line that is no resources header: fields get their templates with the
    indentation they had, pull policies go and one stands below each image, account lines are followed
    by the pull secret, environments by the extra variables, and any other line is kept.
   */
  lemma LineThroughPasses(l: string)
    requires TrimSpace(l) != "resources:"
    ensures
      var t, indent := TrimSpace(l), Indent(l);
      ThroughPasses(l) ==
        if IsOpen(t, "namespace:") then [indent + TPL_NAMESPACE]
        else if IsOpen(t, "image:") then [indent + IMAGE_LINE, indent + "imagePullPolicy: Always"]
        else if "imagePullPolicy:" <= t then []
        else if IsOpen(t, "replicas:") then [indent + REPLICAS_LINE]
        else if IsOpen(t, "serviceAccountName:") then [indent + ACCOUNT_LINE] + PullSecrets(indent)
        else if "serviceAccountName:" <= t then [l] + PullSecrets(indent)
        else if t == "env:" then [l] + ExtraEnvs(indent)
        else [l]
  {
    PassesAreEmit(l);
  }

  // ----- nothing is left -----

  /** No field is left for the chart to replace, and pull policies say Always. */
  predicate IsDone(x: string) {
    var t := TrimSpace(x);
    && !IsOpen(t, "namespace:") && !IsOpen(t, "image:") && !IsOpen(t, "replicas:") && !IsOpen(t, "serviceAccountName:")
    && ("imagePullPolicy:" <= t ==> t == "imagePullPolicy: Always")
  }

  lemma DoneByFirst(x: string)
    requires TrimSpace(x) == "" || TrimSpace(x)[0] !in {'n', 'i', 'r', 's'}
    ensures IsDone(x)
  {
  }

  lemma DoneText(indent: string, t: string)
    requires AllSpaces(indent) && Tidy(t) && t[0] !in {'n', 'i', 'r', 's'}
    ensures IsDone(indent + t)
  {
    IndentedText(indent, t);
    DoneByFirst(indent + t);
  }

  lemma ImageText()
    ensures Contains(IMAGE_LINE, "{{") && IMAGE_LINE[5] == ':'
  {
    ContainsLater("image: \"", TPL_IMAGE, "{{");
  }

  lemma ReplicasContains()
    ensures Contains(REPLICAS_LINE, "{{")
  {
    ContainsLater("replicas: ", TPL_REPLICAS, "{{");
  }

  lemma ImageIsDone(l: string)
    ensures IsDone(Indent(l) + IMAGE_LINE)
  {
    ImageText();
    ImageTemplate(l);
    assert "imagePullPolicy:"[5] == 'P';
  }

  lemma PullIsDone(l: string)
    ensures IsDone(Indent(l) + PULL_LINE)
  {
    PullTemplate(l);
    assert PULL_LINE[5] == 'P' && "image:"[5] == ':';
  }

  lemma ReplicasIsDone(l: string)
    ensures IsDone(Indent(l) + REPLICAS_LINE)
  {
    ReplicasContains();
    ReplicasTemplate(l);
  }

  lemma AccountIsDone(l: string)
    ensures IsDone(Indent(l) + ACCOUNT_LINE)
  {
    ContainsLater("serviceAccountName: ", TPL_ACCOUNT, "{{");
    AccountTemplate(l);
    TemplatedLine(l, ACCOUNT_LINE);
    assert ACCOUNT_LINE[0] == 's';
  }

  lemma NamespaceIsDone(l: string)
    ensures IsDone(Indent(l) + TPL_NAMESPACE)
  {
    NamespaceTemplate(l);
  }

  ghost predicate AllDone(ls: seq<string>) {
    forall x :: x in ls ==> IsDone(x)
  }

  lemma SecretsFieldIsDone(indent: string)
    requires AllSpaces(indent)
    ensures IsDone(indent + "imagePullSecrets:")
  {
    var t := "imagePullSecrets:";
    IndentedText(indent, t);
    assert t[5] == 'P' && "image:"[5] == ':';
    assert t[9] == 'S' && "imagePullPolicy:"[9] == 'P';
  }

  lemma TagIsDone(indent: string, action: string)
    requires AllSpaces(indent)
    ensures IsDone(indent + Tag(action))
  {
    TagText(action);
    DoneText(indent, Tag(action));
  }

  lemma SecretsAreDone(indent: string)
    requires AllSpaces(indent)
    ensures AllDone(PullSecrets(indent))
  {
    TagIsDone(indent, "with " + ".Values.imagePullSecret");
    SecretsFieldIsDone(indent);
    DoneText(indent + "  ", "- name: {{ . }}");
    TagIsDone(indent, "end");
  }

  lemma EnvsAreDone(indent: string)
    requires AllSpaces(indent)
    ensures AllDone(ExtraEnvs(indent))
  {
    TagIsDone(indent, "range " + "$key, $val := .Values.extraEnvs");
    DoneText(indent, "- name: {{ $key | quote }}");
    DoneText(indent + "  ", "value: {{ $val | quote }}");
    TagIsDone(indent, "end");
  }

  lemma ResourcesAreDone(indent: string)
    requires AllSpaces(indent)
    ensures AllDone(ResourceLines(indent))
  {
    ResourceLinesShape(indent);
    NindentText(|indent| + 2);
    assert "resources:"[2] == 's' && "replicas:"[2] == 'p' && "resources:"[0] == 'r';
    DoneByFirst(ResourceLines(indent)[1]);
  }

  lemma FieldsAreDone(l: string)
    requires Plain(l, "namespace:") || Plain(l, "image:") || IsPullPolicy(l) || Plain(l, "replicas:")
    ensures AllDone(Emit(l))
  {
    NamespaceIsDone(l);
    ImageIsDone(l);
    PullIsDone(l);
    ReplicasIsDone(l);
  }

  lemma EmitIsDone(l: string)
    ensures AllDone(Emit(l))
  {
    if Plain(l, "namespace:") || Plain(l, "image:") || IsPullPolicy(l) || Plain(l, "replicas:") {
      FieldsAreDone(l);
    } else if HasPrefix(TrimSpace(l), "serviceAccountName:") {
      AccountIsDone(l);
      SecretsAreDone(Indent(l));
    } else if TrimSpace(l) == "env:" {
      EnvsAreDone(Indent(l));
    }
  }

  lemma {:induction false} FusedAreDone(ls: seq<string>)
    ensures AllDone(FusedLines(RESOURCES, Emit, ResourceLines, IsPullPolicy, ls))
    decreases |ls|
  {
    if ls != [] {
      if RESOURCES.head(ls[0]) {
        var rest := ls[1..];
        FusedHeader(RESOURCES, Emit, ResourceLines, IsPullPolicy, ls);
        ResourcesAreDone(Indent(ls[0]));
        FusedAreDone(rest[SkipLen(RESOURCES, IsPullPolicy, rest, |RESOURCES.indent(ls[0])| + 2)..]);
      } else {
        EmitIsDone(ls[0]);
        FusedAreDone(ls[1..]);
      }
    }
  }

  /** A Deployment template holds no namespace, image, replicas or account of the original, and pulls always. */
  lemma {:induction false} NothingIsLeft(raw: string)
    ensures AllDone(Split(DeploymentTemplate(raw)))
  {
    var ls := FusedDeployment(Split(raw));
    DeploymentPassesFuse(raw);
    FusedAreDone(Split(raw));
    FusedAreLines(Split(raw));
    if ls == [] {
      assert Split("") == [""];
      DoneByFirst("");
    } else {
      SplitOfJoin(ls);
    }
  }
}
