/** The line rewriters of the chart generator as functions on the lines of a text. */
module ChartLines {
  import opened GoStrings
  import opened LinePasses
  import opened BlockPasses
  import opened SectionPasses

  const TPL_RELEASE := "{{ default .Release.Namespace" + " .Values.namespace }}"
  const TPL_NAMESPACE := "namespace: " + TPL_RELEASE
  const TPL_ACCOUNT := "{{ default (include \"chart.fullname\" .)" + " .Values.serviceAccount.name }}"
  const TPL_IMAGE := "{{ include \"chart.imageRef\" . }}\""
  const IMAGE_LINE := "image: \"" + TPL_IMAGE
  const PULL_LINE := "imagePullPolicy: Always"
  const TPL_REPLICAS := "{{ .Values.replicas }}"
  const REPLICAS_LINE := "replicas: " + TPL_REPLICAS

  /** A template action that trims the white space before it. */
  function Tag(action: string): string {
    "{{- " + action + " }}"
  }

  /** Lines inside a block action. */
  function Wrapped(indent: string, action: string, body: seq<string>): seq<string> {
    [indent + Tag(action)] + body + [indent + Tag("end")]
  }

  /** A field that has not been templated yet. */
  predicate Plain(l: string, field: string) {
    HasPrefix(TrimSpace(l), field) && !Contains(TrimSpace(l), "{{")
  }

  function NamespaceStep(l: string): seq<string> {
    if Plain(l, "namespace:") then [Indent(l) + TPL_NAMESPACE] else [l]
  }

  predicate IsPullPolicy(l: string) {
    HasPrefix(TrimSpace(l), "imagePullPolicy:")
  }

  function ImageStep(l: string): seq<string> {
    if Plain(l, "image:") then [Indent(l) + IMAGE_LINE, Indent(l) + PULL_LINE]
    else if IsPullPolicy(l) then []
    else [l]
  }

  function ReplicasStep(l: string): seq<string> {
    if Plain(l, "replicas:") then [Indent(l) + REPLICAS_LINE] else [l]
  }

  const ACCOUNT_LINE := "serviceAccountName: " + TPL_ACCOUNT

  function AccountStep(l: string): seq<string> {
    if Plain(l, "serviceAccountName:") then [Indent(l) + ACCOUNT_LINE] else [l]
  }

  function PullSecrets(indent: string): seq<string> {
    Wrapped(indent, "with " + ".Values.imagePullSecret",
      [indent + "imagePullSecrets:", indent + "  " + "- name: {{ . }}"])
  }

  function SecretsStep(l: string): seq<string> {
    if HasPrefix(TrimSpace(l), "serviceAccountName:") then [l] + PullSecrets(Indent(l)) else [l]
  }

  function ExtraEnvs(indent: string): seq<string> {
    Wrapped(indent, "range " + "$key, $val := .Values.extraEnvs",
      [indent + "- name: {{ $key | quote }}", indent + "  " + "value: {{ $val | quote }}"])
  }

  function EnvStep(l: string): seq<string> {
    if TrimSpace(l) == "env:" then [l] + ExtraEnvs(Indent(l)) else [l]
  }

  const TO_YAML := "toYaml .Values.resources | nindent "

  /** The action that renders the resources with `n` spaces before each line. */
  function Nindent(n: nat): string {
    Tag(TO_YAML + Decimal(n))
  }

  function ResourceLines(indent: string): seq<string> {
    [indent + "resources:", indent + "  " + Nindent(|indent| + 2)]
  }

  predicate IsHeader(l: string) {
    TrimSpace(l) == "resources:"
  }

  predicate InBlock(l: string, base: nat) {
    TrimSpace(l) == "" || IndentLen(l) >= base
  }

  const RESOURCES := Shape(IsHeader, InBlock, (l: string) => Indent(l))

  function ReplaceResources(ls: seq<string>): seq<string> {
    ReplaceBlocks(RESOURCES, ResourceLines, ls)
  }

  // ----- sections -----

  function SubjectNamespace(l: string): string {
    if Plain(l, "namespace:") then Indent(l) + TPL_NAMESPACE else l
  }

  const NAME_LINE := "name: " + TPL_ACCOUNT

  function SubjectName(l: string): string {
    if Plain(l, "name:") then Indent(l) + NAME_LINE else l
  }

  const DOT_TO_YAML := "toYaml . | nindent "

  function Annotations(indent: string): seq<string> {
    Wrapped(indent, "with " + ".Values.serviceAccount.annotations",
      [indent + "annotations:", indent + "  " + Tag(DOT_TO_YAML + Decimal(|indent| + 2))])
  }

  function AccountMetadata(indent: string): seq<string> {
    [indent + NAME_LINE] + Annotations(indent)
  }

  const PAIR_LINE := "{{ " + PAIR

  const PAIR := "$key }}: {{ $val | quote }}"

  function SecretData(indent: string): seq<string> {
    Wrapped(indent, "with " + ".Values.imagePullSecret", [indent + "imagePullSecret: {{ . }}"])
  }

  function ConfigData(indent: string): seq<string> {
    Wrapped(indent, "range " + "$key, $val := .Values.config", [indent + PAIR_LINE])
  }

  function DataBody(indent: string): seq<string> {
    [indent + "data:"] + (SecretData(indent + "  ") + ConfigData(indent + "  "))
  }

  function DataDirectives(indent: string): seq<string> {
    Wrapped(indent, "if " + "or .Values.imagePullSecret .Values.config", DataBody(indent))
  }

  // ----- whole texts -----

  function DeploymentTemplate(raw: string): string {
    var a := Rewritten(ImageStep, Rewritten(NamespaceStep, raw));
    var b := Join(ReplaceResources(Split(Rewritten(ReplicasStep, a))));
    Rewritten(EnvStep, Rewritten(SecretsStep, Rewritten(AccountStep, b)))
  }

  function RoleBindingTemplate(raw: string): string {
    var a := Join(SubjectsPass(SubjectNamespace, Split(Rewritten(NamespaceStep, raw)), false));
    Join(SubjectsPass(SubjectName, Split(a), false))
  }

  function ServiceAccountTemplate(raw: string, name: string): string {
    Join(ReplaceNames(AccountMetadata, Split(Rewritten(NamespaceStep, raw)), name, false))
  }

  function ConfigMapTemplate(raw: string): string {
    Join(InjectData(DataDirectives, Split(Rewritten(NamespaceStep, raw))))
  }
}
