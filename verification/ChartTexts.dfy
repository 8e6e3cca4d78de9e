/** The inserted blocks, line by line as they stand in the templates. */
module ChartTexts {
  import opened GoStrings
  import opened ChartLines

  /** A block around two lines. */
  lemma TwoWrapped(indent: string, action: string, a: string, b: string)
    ensures Wrapped(indent, action, [a, b]) == [indent + ("{{- " + action + " }}"), a, b, indent + "{{- end }}"]
  {
    assert "{{- " + "end" + " }}" == "{{- end }}";
  }

  /** A block around one line. */
  lemma OneWrapped(indent: string, action: string, a: string)
    ensures Wrapped(indent, action, [a]) == [indent + ("{{- " + action + " }}"), a, indent + "{{- end }}"]
  {
    assert "{{- " + "end" + " }}" == "{{- end }}";
  }

  lemma PullSecretsText(indent: string)
    ensures PullSecrets(indent) ==
      [indent + ("{{- " + ("with " + ".Values.imagePullSecret") + " }}"),
       indent + "imagePullSecrets:",
       indent + "  " + "- name: {{ . }}",
       indent + "{{- end }}"]
  {
    var a, b := indent + "imagePullSecrets:", indent + "  " + "- name: {{ . }}";
    TwoWrapped(indent, "with " + ".Values.imagePullSecret", a, b);
  }

  lemma ExtraEnvsText(indent: string)
    ensures ExtraEnvs(indent) ==
      [indent + ("{{- " + ("range " + "$key, $val := .Values.extraEnvs") + " }}"),
       indent + "- name: {{ $key | quote }}",
       indent + "  " + "value: {{ $val | quote }}",
       indent + "{{- end }}"]
  {
    var a, b := indent + "- name: {{ $key | quote }}", indent + "  " + "value: {{ $val | quote }}";
    TwoWrapped(indent, "range " + "$key, $val := .Values.extraEnvs", a, b);
  }

  lemma AnnotationsText(indent: string)
    ensures Annotations(indent) ==
      [indent + ("{{- " + ("with " + ".Values.serviceAccount.annotations") + " }}"),
       indent + "annotations:",
       indent + "  " + Tag(DOT_TO_YAML + Decimal(|indent| + 2)),
       indent + "{{- end }}"]
  {
    var a, b := indent + "annotations:", indent + "  " + Tag(DOT_TO_YAML + Decimal(|indent| + 2));
    TwoWrapped(indent, "with " + ".Values.serviceAccount.annotations", a, b);
  }

  lemma DataBlocksText(indent: string)
    ensures SecretData(indent) ==
      [indent + ("{{- " + ("with " + ".Values.imagePullSecret") + " }}"),
       indent + "imagePullSecret: {{ . }}",
       indent + "{{- end }}"]
    ensures ConfigData(indent) ==
      [indent + ("{{- " + ("range " + "$key, $val := .Values.config") + " }}"),
       indent + PAIR_LINE,
       indent + "{{- end }}"]
  {
    OneWrapped(indent, "with " + ".Values.imagePullSecret", indent + "imagePullSecret: {{ . }}");
    OneWrapped(indent, "range " + "$key, $val := .Values.config", indent + PAIR_LINE);
  }

  /** The directives of the ConfigMap: the data header and two blocks two columns deeper, inside a block. */
  lemma DataDirectivesText(indent: string)
    ensures DataDirectives(indent) ==
      [indent + ("{{- " + ("if " + "or .Values.imagePullSecret .Values.config") + " }}"), indent + "data:"]
      + SecretData(indent + "  ") + ConfigData(indent + "  ")
      + [indent + "{{- end }}"]
  {
    assert "{{- " + "end" + " }}" == "{{- end }}";
  }
}
