/** The rewriters as the loops of `chart.go`, each proved to compute its function of the lines. */
module ChartPasses {
  import opened GoStrings
  import opened LinePasses
  import opened BlockPasses
  import opened SectionPasses
  import opened ChartLines

  lemma Appended(f: Step, ls: seq<string>, done: nat)
    requires done < |ls|
    ensures FlatMap(f, ls[..done]) + f(ls[done]) == FlatMap(f, ls[..done + 1])
  {
    assert ls[..done + 1] == ls[..done] + [ls[done]];
    FlatMapConcat(f, ls[..done], [ls[done]]);
    FlatMapOne(f, ls[done]);
  }

  /** One step of a loop that overwrites lines where they are. */
  lemma Overwritten(f: Step, was: seq<string>, lines: seq<string>, i: nat, line: string)
    requires |lines| == |was| && i < |was| && lines[i..] == was[i..] && lines[..i] == FlatMap(f, was[..i])
    requires f(was[i]) == [line]
    ensures lines[i] == was[i]
    ensures
      var now := lines[i := line];
      now[i + 1..] == was[i + 1..] && now[..i + 1] == FlatMap(f, was[..i + 1])
  {
    assert lines[i] == lines[i..][0] == was[i..][0];
    Appended(f, was, i);
    var now := lines[i := line];
    assert now[..i + 1] == lines[..i] + [line];
    forall k | i < k < |was|
      ensures now[k] == was[k]
    {
      assert lines[k] == lines[i..][k - i] == was[i..][k - i];
    }
  }

  method ReplaceNamespace(raw: string) returns (out: string)
    ensures out == Rewritten(NamespaceStep, raw)
  {
    var lines := Split(raw);
    ghost var was := lines;
    for i := 0 to |lines|
      invariant |lines| == |was| && lines[i..] == was[i..] && lines[..i] == FlatMap(NamespaceStep, was[..i])
    {
      var line := lines[i];
      assert line == lines[i..][0] == was[i..][0];
      ghost var before := lines;
      var trimmed := TrimSpace(line);
      if HasPrefix(trimmed, "namespace:") && !Contains(trimmed, "{{") {
        lines := lines[i := Indent(line) + TPL_NAMESPACE];
      }
      assert lines == before[i := lines[i]];
      Overwritten(NamespaceStep, was, before, i, lines[i]);
    }
    assert lines[..|lines|] == lines && was[..|lines|] == was;
    out := Join(lines);
  }

  method ReplaceReplicas(raw: string) returns (out: string)
    ensures out == Rewritten(ReplicasStep, raw)
  {
    var lines := Split(raw);
    ghost var was := lines;
    for i := 0 to |lines|
      invariant |lines| == |was| && lines[i..] == was[i..] && lines[..i] == FlatMap(ReplicasStep, was[..i])
    {
      var line := lines[i];
      assert line == lines[i..][0] == was[i..][0];
      ghost var before := lines;
      var trimmed := TrimSpace(line);
      if HasPrefix(trimmed, "replicas:") && !Contains(trimmed, "{{") {
        lines := lines[i := Indent(line) + REPLICAS_LINE];
      }
      assert lines == before[i := lines[i]];
      Overwritten(ReplicasStep, was, before, i, lines[i]);
    }
    assert lines[..|lines|] == lines && was[..|lines|] == was;
    out := Join(lines);
  }

  method ReplaceServiceAccountName(raw: string) returns (out: string)
    ensures out == Rewritten(AccountStep, raw)
  {
    var lines := Split(raw);
    ghost var was := lines;
    for i := 0 to |lines|
      invariant |lines| == |was| && lines[i..] == was[i..] && lines[..i] == FlatMap(AccountStep, was[..i])
    {
      var line := lines[i];
      assert line == lines[i..][0] == was[i..][0];
      ghost var before := lines;
      var trimmed := TrimSpace(line);
      if HasPrefix(trimmed, "serviceAccountName:") && !Contains(trimmed, "{{") {
        lines := lines[i := Indent(line) + ACCOUNT_LINE];
      }
      assert lines == before[i := lines[i]];
      Overwritten(AccountStep, was, before, i, lines[i]);
    }
    assert lines[..|lines|] == lines && was[..|lines|] == was;
    out := Join(lines);
  }

  method ReplaceImageField(raw: string) returns (out: string)
    ensures out == Rewritten(ImageStep, raw)
  {
    var lines := Split(raw);
    var result: seq<string> := [];
    for i := 0 to |lines|
      invariant result == FlatMap(ImageStep, lines[..i])
    {
      Appended(ImageStep, lines, i);
      var line := lines[i];
      var trimmed := TrimSpace(line);
      if HasPrefix(trimmed, "image:") && !Contains(trimmed, "{{") {
        var indent := Indent(line);
        result := result + [indent + IMAGE_LINE];
        result := result + [indent + PULL_LINE];
      } else if HasPrefix(trimmed, "imagePullPolicy:") {
      } else {
        result := result + [line];
      }
    }
    assert lines[..|lines|] == lines;
    out := Join(result);
  }

  method AddImagePullSecrets(raw: string) returns (out: string)
    ensures out == Rewritten(SecretsStep, raw)
  {
    var lines := Split(raw);
    var result: seq<string> := [];
    for i := 0 to |lines|
      invariant result == FlatMap(SecretsStep, lines[..i])
    {
      Appended(SecretsStep, lines, i);
      var line := lines[i];
      ghost var was := result;
      result := result + [line];
      if HasPrefix(TrimSpace(line), "serviceAccountName:") {
        result := result + PullSecrets(Indent(line));
        assert result == was + ([line] + PullSecrets(Indent(line)));
      }
    }
    assert lines[..|lines|] == lines;
    out := Join(result);
  }

  method InjectExtraEnvs(raw: string) returns (out: string)
    ensures out == Rewritten(EnvStep, raw)
  {
    var lines := Split(raw);
    var result: seq<string> := [];
    for i := 0 to |lines|
      invariant result == FlatMap(EnvStep, lines[..i])
    {
      Appended(EnvStep, lines, i);
      var line := lines[i];
      ghost var was := result;
      result := result + [line];
      if TrimSpace(line) != "env:" { continue; }
      result := result + ExtraEnvs(Indent(line));
      assert result == was + ([line] + ExtraEnvs(Indent(line)));
    }
    assert lines[..|lines|] == lines;
    out := Join(result);
  }

  method ReplaceResourcesBlock(raw: string) returns (out: string)
    ensures out == Join(ReplaceResources(Split(raw)))
  {
    var result := ReplaceEachBlock(RESOURCES, ResourceLines, Split(raw));
    out := Join(result);
  }

  method ReplaceSubjectsNamespace(raw: string) returns (out: string)
    ensures out == Join(SubjectsPass(SubjectNamespace, Split(raw), false))
  {
    var lines := RewriteSubjects(SubjectNamespace, Split(raw));
    out := Join(lines);
  }

  method ReplaceSubjectsServiceAccount(raw: string) returns (out: string)
    ensures out == Join(SubjectsPass(SubjectName, Split(raw), false))
  {
    var lines := RewriteSubjects(SubjectName, Split(raw));
    out := Join(lines);
  }

  method ReplaceServiceAccountMetadata(raw: string, originalName: string) returns (out: string)
    ensures out == Join(ReplaceNames(AccountMetadata, Split(raw), originalName, false))
  {
    var result := ReplaceEachName(AccountMetadata, Split(raw), originalName);
    out := Join(result);
  }

  method InjectConfigMapValues(raw: string) returns (out: string)
    ensures out == Join(InjectData(DataDirectives, Split(raw)))
  {
    var result := InjectBlock(DataDirectives, Split(raw));
    out := Join(result);
  }

  method TransformDeployment(marshalled: string) returns (raw: string)
    ensures raw == DeploymentTemplate(marshalled)
  {
    raw := ReplaceNamespace(marshalled);
    raw := ReplaceImageField(raw);
    raw := ReplaceReplicas(raw);
    raw := ReplaceResourcesBlock(raw);
    raw := ReplaceServiceAccountName(raw);
    raw := AddImagePullSecrets(raw);
    raw := InjectExtraEnvs(raw);
  }

  method TransformServiceAccount(marshalled: string, name: string) returns (raw: string)
    ensures raw == ServiceAccountTemplate(marshalled, name)
  {
    raw := ReplaceNamespace(marshalled);
    raw := ReplaceServiceAccountMetadata(raw, name);
  }

  method TransformConfigMap(marshalled: string) returns (raw: string)
    ensures raw == ConfigMapTemplate(marshalled)
  {
    raw := ReplaceNamespace(marshalled);
    raw := InjectConfigMapValues(raw);
  }

  method TransformRoleBinding(marshalled: string) returns (raw: string)
    ensures raw == RoleBindingTemplate(marshalled)
  {
    raw := ReplaceNamespace(marshalled);
    raw := ReplaceSubjectsNamespace(raw);
    raw := ReplaceSubjectsServiceAccount(raw);
  }
}
