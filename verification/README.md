# Feast module operator: a verified model

This project models, in Dafny, the parts of the Feast module operator repository whose correctness is
hardest to see from the code, and proves what they are for. `dafny verify dfyconfig.toml` checks all of it.

**The capability hand-over.** The module and the feast operator share a ConfigMap with two finalizers.
In normal life the module keeps the ConfigMap, the label of the Data Registry namespace and a hash on the
feast operator's Deployment in step with the custom resource. When that resource is deleted, the module's
finalizer switches both capabilities off, records a start time, rolls the Deployment, deletes the
ConfigMap, waits at most five minutes for the feast operator to drop its finalizer, drops its own and
deletes the cluster RBAC objects.

- `Cluster.dfy` is the world: the ConfigMap, the Deployment, the namespace, the RBAC objects, the clock;
  the API server's rules (an update with an outdated version is refused, deleting an object with
  finalizers only marks it, a marked object accepts no new finalizer and vanishes with its last one);
  and everything others may do.
- `Protocol.dfy` is the step machine: one step per API call, others act between any two calls, every call
  can be refused or lose its reply, and a failed flow starts again from the top.
- `Module.dfy` is the class with the controller's Go functions as methods. What others do before each
  call, and whether the call is served, is a script that the methods cannot change. `Valid()` says that the
  log of everything that happened is that script played out, and a run of the step machine which ends in the
  present state; so what is proved of all runs holds of the methods. Each method's `ensures` says how far it
  got and, in terms of `Effects.dfy`, what it does to a cluster that nobody disturbs; a whole flow that nobody
  disturbs is the uninterrupted attempt of `Convergence.dfy`.
- `Teardown.dfy` proves safety over all runs of the uninstall, `Waiting.dfy` that the wait is bounded and
  that waiting attempts write nothing, `Convergence.dfy` and `Handshake.dfy` that interrupted and repeated
  attempts end where one attempt would, `Uninstalled.dfy` what that end is, `Reconciling.dfy` what a reconcile
  establishes, `AllRuns.dfy` what no flow of the module ever touches, and `Wakeup.dfy`
  that no change of the ConfigMap that needs work is missed (`Orphan.dfy` shows why that takes a ConfigMap
  the module owns).

What the others are relied on for is stated where it is used. During an uninstall (`Teardown.Polite`)
nobody else creates the ConfigMap or the Deployment, rewrites the flags or the start annotation, or
changes the hash annotation; they may delete anything, add and drop finalizers, including the module's,
change labels, and create and delete RBAC objects and namespaces. Convergence is stated for the module and
the feast operator, with time passing. In normal life the ConfigMap stays owned: nobody takes the owner
away or creates one without it (`Wakeup.KeepsOwner`). Where the order of label and ConfigMap is concerned
nobody else touches the label or deletes the namespace (`Reconciling.KeepsNamespace`).

**The chart rewriters.** The chart generator turns YAML text into Helm templates by passes that split the
text, scan its lines with flags or an index, and join them again. `LinePasses.dfy`, `BlockPasses.dfy`,
`BlockParts.dfy`, `BlockFusion.dfy` and `SectionPasses.dfy` hold the passes for any replacement, `ChartLines.dfy` the
templates, `ChartPasses.dfy` the loops, each proved to compute its function of the lines, and `ChartTexts.dfy`
the inserted blocks as they stand. What becomes of each line is told from the lines alone in
`ChartDeployment.dfy` and `ChartSections.dfy`.
`ChartFusion.dfy` proves that the seven passes over a Deployment are one pass, `ChartRoleBinding.dfy` what
the RoleBinding pipeline changes and that it changes it once, `Nesting.dfy` and `ChartNesting.dfy` that
the block actions of the templates are well nested.

**Smaller pieces.** `HashText.dfy` (the text that is hashed), `RbacCheck.dfy` (the RBAC coverage check and
its report), `RbacCoverage.dfy` (what passing it means), `RbacOutcome.dfy` (when it fails and what it reports),
`ChartFiles.dfy` (grouping, file names, writing), `ImageTag.dfy` (image references).
`GoStrings.dfy` and `Ordering.dfy` hold the string and sorting functions of Go's library that these use,
`GoStringLaws.dfy` what they mean.

## Where the code and its documentation differ

- The comment at `hack/verify-rbac/main.go:81-83` says that resourceNames may be ignored because the
  module's access is broader. The check ignores them in the module's and the chart's rules too. What success
  says then is coverage up to the name of the object (`RbacCoverage.SuccessIsSound`); with the name the
  requests are covered exactly when the names are too, a condition on the rules that
  `RbacCoverage.CoverageIsDecided` gives. It holds for rules without names and for a role that has every
  rule of the other (`RbacCoverage.MoreRulesCover`), and a role can pass without it
  (`RbacCoverage.NamedRulesPassUncovered`).
- The wait is documented as bounded by five minutes (`feastoperator_capabilities.go:63-66`). A start
  annotation that is not a time is never replaced, and while it stands the wait has no bound
  (`Teardown.InvalidStartNeverTimesOut`); a start in the future prolongs the wait by as much
  (`Convergence.AttemptIsDecided`).
- The file name is documented as unambiguous (`cmd/chartgen/chartgen.go:213-215`). When groups and
  versions hold no `_` it is, up to case and the spelling of the core group (`ChartFiles.PathTells`); with a
  `_` different kinds can share a file (`ChartFiles.BarsCollide`).
- The report of missing permissions joins group and resource with `/`. A permission is left out of it exactly
  when two resources are joined to the same text (`RbacCheck.AllReportedIffUnambiguous`,
  `RbacCheck.SlashesHideAPermission`), which takes a `/` in a group.
- The hash is documented as one of the data. The text that is hashed is also that of another map when a
  value holds a newline and what looks like a later entry (`HashText.NewlinesCollide`); the module's own values hold none.

## Model

| member | source | states |
|---|---|---|
| FeastModule.Module.Do | internal/controller/feastoperator/feastoperator_capabilities.go:246-258 | one API call: others act first, then the call is served, refused, or served with its reply lost, as the script has it; the flow goes on from the reply or gives up, one more moment of the script is spent, and once the script is over the world and the reply are what the server makes of the call |
| FeastModule.Module.LogGrows | internal/controller/feastoperator/feastoperator_controller.go:197-266 | the log of a flow is only ever added to |
| FeastModule.QuietFlowIsAttempt | internal/controller/feastoperator/feastoperator_controller.go:197-266 | a flow whose calls are all served while nobody else acts ends as the uninterrupted attempt does |
| FeastModule.Module.ReconcileDataRegistryNamespace | internal/controller/feastoperator/feastoperator_namespace.go:46-82 | its part of the flow to the end or to an error; undisturbed, the namespace is there and labelled when the registry is enabled, unlabelled otherwise, and nothing else has changed |
| FeastModule.Module.RemoveDataRegistryLabel | internal/controller/feastoperator/feastoperator_namespace.go:87-113 | its part of the flow; undisturbed, the label is gone if it said "true", and the namespace and its other labels stay |
| FeastModule.Module.ReconcileCapabilitiesConfigMap | internal/controller/feastoperator/feastoperator_capabilities.go:91-150 | its part of the flow; undisturbed, the ConfigMap is created, updated, let go if terminating, or left with an error if another controller owns it; `ReconcileKeeps`, `ReconcileCreates` and `ReconcileLetsGo` say how |
| FeastModule.Module.TriggerCapabilityRolloutIfNeeded | internal/controller/feastoperator/feastoperator_capabilities.go:172-198 | its part of the flow; undisturbed, the Deployment carries the hash of the ConfigMap's data beside its other annotations |
| FeastModule.Module.AnnotateDeployment | internal/controller/feastoperator/feastoperator_capabilities.go:189-223 | the Deployment carries this hash, and is written only when it did not |
| FeastModule.Module.GetCapabilitiesConfigMap | internal/controller/feastoperator/feastoperator_capabilities.go:246-258 | a missing ConfigMap is not an error |
| FeastModule.Module.MarkCapabilitiesDisabled | internal/controller/feastoperator/feastoperator_capabilities.go:266-296 | its part of the flow; undisturbed, both flags are off and the start is the one that was there or the time in whole seconds, and nothing is written when all three were there |
| FeastModule.Module.DeleteCapabilitiesConfigMap | internal/controller/feastoperator/feastoperator_capabilities.go:301-313 | its part of the flow; undisturbed, the ConfigMap is marked, its finalizers unchanged, or gone if it had none, and one that was marked is left alone |
| FeastModule.Module.WaitForFeastOperatorRelease | internal/controller/feastoperator/feastoperator_capabilities.go:323-371 | its part of the flow; undisturbed, which of the reasons to wait holds, if any, and that at most a warning is recorded |
| FeastModule.Module.ReleaseCapabilitiesConfigMap | internal/controller/feastoperator/feastoperator_capabilities.go:376-389 | its part of the flow; undisturbed, the module's finalizer is gone, and with it the ConfigMap if it was the last one |
| FeastModule.Module.DeleteClusterRoleBindings | internal/controller/feastoperator/feastoperator_controller.go:242-251 | its part of the flow; undisturbed, exactly the bindings without the label are left |
| FeastModule.Module.DeleteClusterRoles | internal/controller/feastoperator/feastoperator_controller.go:253-263 | its part of the flow, with which it succeeds; undisturbed, exactly the roles without the label are left |
| FeastModule.Module.FinalizeSteps | internal/controller/feastoperator/feastoperator_controller.go:213-266 | the steps in order, the first error ending the attempt |
| FeastModule.Module.CleanupClusterResources | internal/controller/feastoperator/feastoperator_controller.go:197-266 | an attempt is one flow of the machine, the uninterrupted attempt when nothing interferes; when all others were polite, success means intent written, ConfigMap going, and feast operator out of the way or overdue |
| FeastModule.Module.ReconcileOnce | internal/controller/feastoperator/feastoperator_controller.go:133-147 | the modelled actions in the order of the action list; when nothing interferes, the uninterrupted reconcile whose effect `ReconcileIsDecided` gives |
| Teardown.PoliteActs | internal/controller/feastoperator/feastoperator_capabilities.go:56-71 | what any permitted act of others can change of the hand-over |
| Teardown.RunKeepsInv | internal/controller/feastoperator/feastoperator_controller.go:213-263 | the invariant of every run: at each point of the flow the facts established so far hold of the actual cluster, not of the snapshot |
| Teardown.UninstallIsSafe | internal/controller/feastoperator/feastoperator_controller.go:229-263 | in every run no module step removes a finalizer but its own, and none removes its own or an RBAC object unless the ConfigMap is gone, released by the feast operator, or 300 s have passed since the recorded start |
| Teardown.IntentBeforeDelete | internal/controller/feastoperator/feastoperator_controller.go:229-237 | when the delete is issued both flags are off, a start is recorded and the Deployment carries the hash of that data, then and through every later retry |
| Teardown.HandOverStaysInRuns | internal/controller/feastoperator/feastoperator_controller.go:229-241 | a completed hand-over is never undone by any run |
| Teardown.StartIsWrittenOnce | internal/controller/feastoperator/feastoperator_capabilities.go:271-291 | a recorded start, valid or not, is never changed by any run |
| Teardown.StampIsWrittenByMarking | internal/controller/feastoperator/feastoperator_capabilities.go:286-293 | only the marking step writes a start, only where there was none, and together with both flags |
| Teardown.WaitPassesIffFree | internal/controller/feastoperator/feastoperator_capabilities.go:323-371 | the wait passes exactly when the ConfigMap is gone, released or overdue, and otherwise tells waiting from an unreadable start |
| Teardown.BlocksOnlyInTime | internal/controller/feastoperator/feastoperator_capabilities.go:345-355 | with a valid start no run ever blocks once 300 s have passed since it |
| Teardown.LetsGoOnlyOverdue | internal/controller/feastoperator/feastoperator_capabilities.go:333-355 | while the feast finalizer is held nothing is let go earlier than 300 s after the start |
| Teardown.InvalidStartNeverTimesOut | internal/controller/feastoperator/feastoperator_capabilities.go:345-348 | with an unreadable start nothing is ever let go while the feast finalizer is held |
| Waiting.StampIsARoundedReading | internal/controller/feastoperator/feastoperator_capabilities.go:289-291 | a new start is a reading of the clock made earlier in the run, rounded down to a second |
| Waiting.StartsAreReadings | internal/controller/feastoperator/feastoperator_capabilities.go:271-293 | where no start was recorded at the beginning, every start that is recorded, read or about to be written is a rounded reading of the clock at some point of the run |
| Waiting.WaitEnds | internal/controller/feastoperator/feastoperator_capabilities.go:66-66 | in every run of an uninstall that found no start, when the wait blocks it does so for a start that was made from a reading of the clock less than 300 s ago in that run, and for no other reason |
| Waiting.WaitLasts | internal/controller/feastoperator/feastoperator_capabilities.go:350-355 | in such runs, when something is let go while the feast finalizer is held, the recorded start was made from a reading of the clock more than 299 s ago |
| Waiting.OneReadingBoundsWait | internal/controller/feastoperator/feastoperator_capabilities.go:271-355 | in such runs, once a start is recorded, one reading of the clock made it, and that reading bounds the wait of every later run from both sides |
| Waiting.RecordedReadingBoundsWait | internal/controller/feastoperator/feastoperator_capabilities.go:66-66 | the same two bounds for a start recorded before the run |
| Waiting.WaitingRunsWriteNothing | internal/controller/feastoperator/feastoperator_capabilities.go:204-308 | once handed over, whatever others politely do to both objects and however many attempts fail, no step of the module changes the ConfigMap or the Deployment, versions included, while the feast operator holds the ConfigMap in time |
| Waiting.UndisturbedRetriesChangeNothing | internal/controller/feastoperator/feastoperator_capabilities.go:204-308 | when others leave both alone, they are exactly as at the beginning |
| Convergence.CrashesConverge | internal/controller/feastoperator/feastoperator_controller.go:197-266 | when only the module acts, any run of interrupted and repeated attempts that ends in success leaves exactly what the cluster at its beginning prescribes: no labelled RBAC object, every unlabelled one, the finalizers of others |
| Handshake.FeastRunsConverge | internal/controller/feastoperator/feastoperator_controller.go:216-266 | when the feast operator claims and releases the ConfigMap at any time, every successful run leaves what its beginning prescribes, with the feast finalizer as the end has it, exactly when there is no terminating ConfigMap held by at most the feast operator beside a Deployment without the final hash |
| Handshake.FeastRunLeaves | internal/controller/feastoperator/feastoperator_controller.go:216-266 | from every beginning a successful run leaves the prescribed ConfigMap, namespace and RBAC objects, and from those beginnings the prescribed Deployment too |
| Handshake.RunKeeps | internal/controller/feastoperator/feastoperator_controller.go:197-266 | from every beginning, no step of either party changes what the uninstall will leave; the Deployment's final hash, once certain, stays certain |
| Handshake.ReleasedMeansGone | internal/controller/feastoperator/feastoperator_capabilities.go:373-389 | from every beginning, when the feast operator has released and nobody else holds the ConfigMap, nothing of it is left |
| Handshake.UnanchoredMapsSkipTheRollout | internal/controller/feastoperator/feastoperator_capabilities.go:174-183 | from every other beginning the feast operator's release before the attempt leaves the Deployment without the final hash |
| Convergence.RunConserves | internal/controller/feastoperator/feastoperator_controller.go:242-263 | no step, in the middle of a deletion loop or elsewhere, changes what the uninstall will leave |
| Convergence.FinishIsARun | internal/controller/feastoperator/feastoperator_controller.go:197-266 | an uninterrupted attempt ends, and is a run of the machine |
| Convergence.AttemptIsDecided | internal/controller/feastoperator/feastoperator_controller.go:229-266 | an uninterrupted attempt succeeds exactly when the feast operator is out of the way or overdue, and fails with the right reason otherwise |
| Convergence.RetryAfterCrashes | internal/controller/feastoperator/feastoperator_controller.go:216-228 | one attempt after any crashes reaches the state of one uninterrupted run |
| Convergence.WaitingShortensTheWait | internal/controller/feastoperator/feastoperator_capabilities.go:350-355 | after any attempt that found no unreadable start, the remaining wait is zero exactly on success and decreases with time |
| Reconciling.ReconcileIsDecided | internal/controller/feastoperator/feastoperator_capabilities.go:91-223 | the complete effect of an undisturbed reconcile on every cluster, a ConfigMap of another controller included |
| Reconciling.ReconcileAgrees | internal/controller/feastoperator/feastoperator_capabilities.go:99-128 | flag, namespace key, namespace label and the state that the resource gives, or the configuration if it gives none, agree, for the feature store too; other labels survive, the namespace stays, the Deployment carries the hash |
| Reconciling.ReconcileKeeps | internal/controller/feastoperator/feastoperator_capabilities.go:108-129 | of a live ConfigMap a reconcile keeps every finalizer beside the module's, every label beside the component's, the start and the identity; the data are both flags and, with the registry, its namespace; nothing is written when all was so |
| Reconciling.ReconcileCreates | internal/controller/feastoperator/feastoperator_capabilities.go:101-129 | what the ConfigMap looks like that a reconcile makes |
| Reconciling.ReconcileLetsGo | internal/controller/feastoperator/feastoperator_capabilities.go:109-114 | a terminating ConfigMap loses the module's finalizer and nothing else, one of another controller is left alone with an error |
| Reconciling.ReconcileLabels | internal/controller/feastoperator/feastoperator_namespace.go:46-113 | the namespace is made or labelled exactly with the registry, loses a label that says "true" without it, and keeps all else |
| AllRuns.OnlyOwnFinalizerEver | internal/controller/feastoperator/feastoperator_capabilities.go:108-389 | in every run of reconciles and attempts in any order, whatever the others do, no step of the module removes a finalizer but its own |
| AllRuns.UninstallOnlySwitchesOff | internal/controller/feastoperator/feastoperator_capabilities.go:266-296 | in every run of the uninstall no step changes another key of the data, a label, the owner or the identity, and a flag only to off |
| Uninstalled.RbacIsGone | internal/controller/feastoperator/feastoperator_controller.go:242-263 | of the RBAC objects exactly those without the component label are left, as they were |
| Uninstalled.ConfigMapIsOff | internal/controller/feastoperator/feastoperator_capabilities.go:266-389 | the ConfigMap is gone unless others hold it, and then terminating, theirs alone, with both flags off and all else as it was |
| Uninstalled.DeploymentIsRolled | internal/controller/feastoperator/feastoperator_capabilities.go:172-223 | the Deployment carries the hash of the data with both flags off, beside its other annotations |
| Uninstalled.NamespaceIsKept | internal/controller/feastoperator/feastoperator_namespace.go:87-113 | the namespace stays and is not advertised, its other labels as they were |
| Uninstalled.AttemptWarnsOnce | internal/controller/feastoperator/feastoperator_capabilities.go:356-369 | an uninterrupted attempt records a warning exactly when it goes on without an overdue feast operator |
| Reconciling.OneReconcileRestores | internal/controller/feastoperator/feastoperator_capabilities.go:101-129 | one reconcile restores a live or missing ConfigMap and finishes off a going one that nobody else holds |
| Reconciling.TwoReconcilesRestore | internal/controller/feastoperator/feastoperator_capabilities.go:108-139 | with no finalizer of others two reconciles restore the ConfigMap, as a new object if the old one was gone or going |
| Reconciling.NeverEnabledBeforeLabelled | internal/controller/feastoperator/feastoperator_controller.go:133-134 | in every run of reconciles the registry is switched on in the ConfigMap only while the namespace is labelled |
| Wakeup.NoLostWakeUp | internal/controller/feastoperator/feastoperator_controller.go:170-186 | in every reachable state in which the ConfigMap is absent or waits to be let go, a reconcile is queued, on its way, or running and not yet past the ConfigMap |
| Wakeup.ChangesAreReported | internal/controller/feastoperator/feastoperator_controller.go:166-186 | the update that starts a deletion and the deletion itself pass the predicate, whatever the default predicate says of updates |
| Wakeup.DeliveryWakes | internal/controller/feastoperator/feastoperator_controller.go:170-186 | creations and deletions of what the resource owns wake the controller, and of the updates those the default predicate passes or that start a deletion, and no others |
| Orphan.AnOrphanIsLost | internal/controller/feastoperator/feastoperator_controller.go:106-106 | one act that takes the controller reference away leads, by turns that are allowed otherwise, from a queued reconcile to a missing ConfigMap that nobody will notice |
| HashText.CapabilitiesDataHash | internal/controller/feastoperator/feastoperator_capabilities.go:227-242 | collecting in any order, sorting and writing gives a text that depends on the map alone |
| HashText.SerializeAppends | internal/controller/feastoperator/feastoperator_capabilities.go:228-240 | the text is built key by key in ascending order, one entry behind the other |
| HashText.ParseInvertsSerialize | internal/controller/feastoperator/feastoperator_capabilities.go:235-240 | the text can be read back exactly when keys hold no `=` and values no newline |
| HashText.SerializeIsInjective | internal/controller/feastoperator/feastoperator_capabilities.go:235-240 | such maps give the same text only if they are equal |
| HashText.NewlinesCollide | internal/controller/feastoperator/feastoperator_capabilities.go:235-240 | a newline in a value, followed by what looks like a later entry, gives the text of the map with that entry |
| GoStrings.JoinOfSplit | cmd/chartgen/chart.go:299-309 | joining the lines of a text gives the text |
| GoStrings.SplitOfJoin | cmd/chartgen/chart.go:315-333 | splitting joined lines gives the lines |
| GoStringLaws.TrimSpaceIs | cmd/chartgen/chart.go:302-302 | trimming takes white space off both ends and leaves none there |
| GoStringLaws.StrLeqIsLexicographic | hack/verify-rbac/main.go:183-191 | strings are ordered by the first character that differs |
| ChartPasses.ReplaceNamespace | cmd/chartgen/chart.go:298-310 | the overwriting loop rewrites each line on its own |
| ChartPasses.ReplaceImageField | cmd/chartgen/chart.go:314-334 | image lines become two lines, pull policies are dropped |
| ChartPasses.ReplaceReplicas | cmd/chartgen/chart.go:337-349 | likewise for the replicas |
| BlockPasses.SkipBlock | cmd/chartgen/chart.go:368-375 | the inner loop stops after the longest block of deeper or blank lines |
| BlockPasses.ReplaceEachBlock | cmd/chartgen/chart.go:352-384 | the index loop ends and replaces every header with its block |
| ChartPasses.ReplaceResourcesBlock | cmd/chartgen/chart.go:352-384 | the resources blocks of the text are replaced; `ResourcesOfText` says which lines they are |
| ChartPasses.ReplaceServiceAccountName | cmd/chartgen/chart.go:388-400 | likewise for the account name |
| ChartPasses.AddImagePullSecrets | cmd/chartgen/chart.go:404-423 | four lines after every account line |
| ChartPasses.ReplaceServiceAccountMetadata | cmd/chartgen/chart.go:427-461 | name lines in a metadata section become the name and an annotations block |
| SectionPasses.RewriteSubjects | cmd/chartgen/chart.go:465-521 | the loop computes the section function; `RoleBindingLine` says which lines are in a section |
| ChartPasses.ReplaceSubjectsNamespace | cmd/chartgen/chart.go:465-491 | namespace fields of subjects are rewritten |
| ChartPasses.ReplaceSubjectsServiceAccount | cmd/chartgen/chart.go:495-521 | name fields of subjects are rewritten |
| ChartPasses.InjectExtraEnvs | cmd/chartgen/chart.go:556-577 | four lines after every env line |
| ChartPasses.InjectConfigMapValues | cmd/chartgen/chart.go:586-633 | each data section is replaced by the directives, which are appended when there is none |
| ChartPasses.TransformDeployment | cmd/chartgen/chart.go:118-145 | the seven passes in order |
| ChartPasses.TransformServiceAccount | cmd/chartgen/chart.go:149-159 | the two passes in order |
| ChartPasses.TransformConfigMap | cmd/chartgen/chart.go:163-173 | the two passes in order |
| ChartPasses.TransformRoleBinding | cmd/chartgen/chart.go:177-188 | the three passes in order |
| BlockFusion.LinesFuse | cmd/chartgen/chart.go:118-145 | steps before and after a block replacement fuse with it into one pass, for any steps that keep the shape of lines |
| BlockFusion.TextsCompose | cmd/chartgen/chart.go:118-145 | splitting and joining between the passes is superfluous |
| ChartFusion.DeploymentPassesFuse | cmd/chartgen/chart.go:118-145 | the seven passes equal one pass that splits once, for every text, if the one pass lets a block run over pull policies |
| ChartFusion.DeploymentPassesFusePlainly | cmd/chartgen/chart.go:118-145 | the plain one-pass rewriting suffices when every pull policy line is followed by nothing or by a non-blank line that is not deeper |
| ChartDeployment.ResourcesOfText | cmd/chartgen/chart.go:352-384 | told from the lines alone: a resources header takes the blank lines and the lines at least two deeper with it, up to the first that is neither, and becomes two lines; every other line is kept |
| ChartDeployment.LineThroughPasses | cmd/chartgen/chart.go:298-423 | what the six other passes make of any line that is no resources header |
| ChartDeployment.NothingIsLeft | cmd/chartgen/chart.go:118-145 | afterwards no namespace, image, replicas or account is untemplated and every pull policy says Always |
| ChartTexts.PullSecretsText | cmd/chartgen/chart.go:411-418 | the four lines as they stand |
| ChartTexts.ExtraEnvsText | cmd/chartgen/chart.go:567-574 | the four lines as they stand |
| ChartTexts.DataDirectivesText | cmd/chartgen/chart.go:586-633 | the header and two blocks inside a block |
| ChartFusion.ResourcesAreReplaced | cmd/chartgen/chart.go:352-384 | the text is taken apart into other lines and blocks, each a header with all deeper or blank lines after it; the other lines are kept in order, each block becomes two lines whose nindent number is their own indentation, these are the blocks of the new text, and a second run changes nothing |
| BlockParts.PartsFlatten | cmd/chartgen/chart.go:353-383 | the lines of the parts, in order, are the text |
| BlockParts.PartsArePartition | cmd/chartgen/chart.go:358-378 | every header starts a block, every line of a block is deeper or blank, and a line that is neither follows it |
| BlockParts.PartitionIsUnique | cmd/chartgen/chart.go:358-378 | no other way of taking the text apart has these properties |
| BlockParts.ReplacingReplacesParts | cmd/chartgen/chart.go:352-384 | replacing the blocks replaces exactly the blocks among the parts, for any lines that make a block again |
| ChartRoleBinding.SubjectsNamespaceAddsNothing | cmd/chartgen/chart.go:177-185 | the second pass changes nothing after the first |
| ChartRoleBinding.RoleBindingIsIdempotent | cmd/chartgen/chart.go:177-188 | the whole pipeline is idempotent |
| ChartRoleBinding.OnlySubjectsAndNamespacesChange | cmd/chartgen/chart.go:465-521 | outside a subjects section only untemplated namespace lines change, so the role's name survives |
| ChartRoleBinding.NothingIsLeftPlain | cmd/chartgen/chart.go:298-310 | afterwards every namespace field and every name in a subjects section is templated; `RoleBindingLine` says which lines are in one |
| ChartSections.RoleBindingLine | cmd/chartgen/chart.go:465-521 | what becomes of each line: namespace fields get the release namespace, name fields get the account's name if a subjects line stands before them and since then all lines are blank, indented or list items, and every other line is kept |
| ChartSections.TabbedNamespaceEndsSubjects | cmd/chartgen/chart.go:301-306 | a namespace field indented by a tab ends the list of subjects, because the first pass drops its tab: until the next subjects line all that follows but namespace fields is kept, names included |
| ChartSections.ServiceAccountLines | cmd/chartgen/chart.go:427-461 | which lines become the name and the annotations, and that every other line is kept in its place |
| ChartSections.ConfigMapLines | cmd/chartgen/chart.go:586-633 | a data line becomes the directives, the lines of its section go, every other line is kept in its place, and the directives come at the end when no line says data |
| ChartNesting.DeploymentIsNested | cmd/chartgen/chart.go:404-423 | the block actions of a Deployment template are well nested for every text without actions |
| ChartNesting.ServiceAccountIsNested | cmd/chartgen/chart.go:427-461 | the same for a ServiceAccount |
| ChartNesting.ConfigMapIsNested | cmd/chartgen/chart.go:586-633 | the same for a ConfigMap, whose block holds two others |
| ChartNesting.RoleBindingIsNested | cmd/chartgen/chart.go:177-188 | the same for a RoleBinding |
| RbacCheck.ExtractPermissions | hack/verify-rbac/main.go:84-96 | the nested loops give exactly the triples some rule lists |
| RbacCheck.VerifyRbac | hack/verify-rbac/main.go:98-180 | the outcome for every number of arguments and every result of loading the roles; `OutcomeIsDecided` says when which occurs, and the next three what the reports say |
| RbacOutcome.OutcomeIsDecided | hack/verify-rbac/main.go:98-180 | which outcome occurs when, in terms of what the rules list |
| RbacOutcome.ModuleReportSays | hack/verify-rbac/main.go:136-149 | the report on the module says exactly what some operand rule lists and no module rule does |
| RbacOutcome.ChartReportSays | hack/verify-rbac/main.go:165-175 | the report on the chart says exactly what some module rule lists and no rule of the chart does |
| RbacOutcome.NamespaceReportSays | hack/verify-rbac/main.go:124-134 | the report on namespaces says exactly which of creating and patching no operand rule lists |
| RbacCoverage.CoverageIsDecided | hack/verify-rbac/main.go:81-96 | rules allow all that other rules allow exactly when each listed permission of the others is subsumed, for an unnamed rule by an unnamed rule, for a named rule and each of its names by an unnamed rule or one with that name |
| RbacCoverage.MoreRulesCover | hack/verify-rbac/main.go:152-170 | a role that has every rule of another, names included, covers it |
| RbacCoverage.SuccessCoversNamespaces | hack/verify-rbac/main.go:121-134 | on success the module may create and patch namespaces of some name, and of every name exactly when an unnamed rule says so |
| RbacCoverage.SuccessIsSound | hack/verify-rbac/main.go:136-170 | success means, for roles with wildcards and resourceNames, that the module's rules allow every request of the operand up to its name, and with its name exactly when the names are covered; the same for the chart's rules when they were checked; rules without names cover everything |
| RbacCoverage.CheckIsExact | hack/verify-rbac/main.go:136-141 | when no permission above holds a wildcard, the requests are covered exactly when the check passes and the names are covered, whatever names either role holds |
| RbacCoverage.RejectsOnlyUncoveredIffLiteral | hack/verify-rbac/main.go:136-141 | the check rejects no covered role, whatever the operand's, exactly when no permission of the module's holds a wildcard |
| RbacCoverage.NamedRulesPassUncovered | hack/verify-rbac/main.go:81-83 | a module whose rule names resources passes the check without covering the operand; `CoverageIsDecided` tells exactly when |
| RbacCoverage.WildcardsAreReported | hack/verify-rbac/main.go:136-141 | an input of that kind: a wildcard that covers everything is reported as missing permissions |
| RbacCheck.Grouped | hack/verify-rbac/main.go:195-202 | the first loop collects the verbs of each key in order |
| RbacCheck.PrintGroups | hack/verify-rbac/main.go:204-215 | the second loop prints each key once, deleting it |
| RbacCheck.PrintMissing | hack/verify-rbac/main.go:182-216 | the report depends on the set of missing permissions alone, not on the order it was visited in |
| RbacCheck.ReportIsExact | hack/verify-rbac/main.go:195-215 | each missing permission stands on exactly one line, and nothing else is reported |
| RbacCheck.ReportIsOrdered | hack/verify-rbac/main.go:183-191 | one line for each group and resource, ascending, its verbs ascending |
| RbacCheck.AllReportedIffUnambiguous | hack/verify-rbac/main.go:197-205 | every missing permission is reported exactly when no two resources share a key |
| RbacCheck.SlashesHideAPermission | hack/verify-rbac/main.go:197-205 | two permissions of which one is not reported |
| RbacCheck.SlashFreeIsUnambiguous | hack/verify-rbac/main.go:197-197 | keys are unambiguous when API groups hold no `/` |
| ChartFiles.GroupByGvk | cmd/chartgen/chartgen.go:192-207 | each kind gets its resources in input order, Namespaces none |
| ChartFiles.PathTells | cmd/chartgen/chartgen.go:209-227 | without `_` in group and version, two kinds share a path exactly when they are equal up to case and the spelling of the core group, and in the same directory |
| ChartFiles.BarsCollide | cmd/chartgen/chartgen.go:216-227 | with a `_` different kinds share a file |
| ChartFiles.CoreCollides | cmd/chartgen/chartgen.go:217-220 | a group named core shares its files with the core group |
| ChartFiles.DefinitionsGoApart | cmd/chartgen/chartgen.go:125-131 | exactly the definitions of custom resources go to the directory of their own |
| ChartFiles.PathOfLowerCase | cmd/chartgen/chartgen.go:216-227 | the path of a kind in lower case, spelled out |
| ChartFiles.PlacedHolds | cmd/chartgen/chartgen.go:125-148 | a file holds every resource of its path as often as the input, and no other |
| ChartFiles.PlacedSnoc | cmd/chartgen/chartgen.go:195-204 | what comes last in the input comes last in its file, and Namespaces are in none |
| ChartFiles.ContentGrows | cmd/chartgen/chart.go:56-66 | a file is its resources' texts in order with a separator between two |
| ChartFiles.ConservedIffSeparate | cmd/chartgen/chartgen.go:125-148 | every group is the whole of its file exactly when no two kinds share a path |
| ChartFiles.SeparateWhenDistinct | cmd/chartgen/chartgen.go:211-227 | what a caller can check for that |
| ChartFiles.WriteGroups | cmd/chartgen/chartgen.go:125-148 | whatever the order of the groups, each path holds one of its groups and everything else is untouched; an error stops the loop |
| ChartFiles.WriteChart | cmd/chartgen/chartgen.go:87-148 | succeeds exactly when every resource but Namespaces can be rendered, and then, with separate paths, every file holds all its resources in input order and no other file is touched |
| ChartFiles.NoClashWithHelpers | cmd/chartgen/chartgen.go:110-112 | no resource file overwrites the helpers |
| ChartFiles.RenderGroup | cmd/chartgen/chart.go:51-67 | the parts in order, or the first error |
| ImageTag.SplitImageTag | cmd/chartgen/values.go:195-209 | the backward scan with its early exits |
| ImageTag.RenderOfSplit | cmd/chartgen/values.go:195-209 | rendering the parts gives the image exactly when it has two characters and a `:` after its last `/`, and otherwise the image with the default tag |
| ImageTag.SplitOfRender | cmd/chartgen/helpers.go:59-65 | splitting a rendered reference gives it back exactly when its tag holds no `:` and no `/` and it is not empty |

## Left out

- SHA-256 and the cut to sixteen digits: a function parameter on the serialised text, with no claim about collisions.
- Caches and stale reads, leader election, several concurrent reconciles: a read returns what the server holds, and one flow runs at a time.
- Watch events that an informer merges: every change of the ConfigMap is reported by its own note, and `DefaultPredicate` is assumed to pass creations and deletions.
- A clock that goes backwards.
- The text form of RFC 3339 times: the annotation is absent or empty, an instant, or other text.
- Merge-patch documents: the two patches set or remove one key.
- The order and repetition of finalizers: they are a set. RBAC objects with finalizers of their own are not part of this model.
- The actions of a reconcile other than namespace, ConfigMap and rollout, and what they do to the Deployment in between.
- Errors of the event recorder: the original ignores them; in the model the warning may fail like a call, which ends an attempt as a crash would.
- The resource's own finalizer and the requests other watches queue: a reconcile may be queued at any time.
- Teardown.UninstallIsSafe: relies on `Polite`, because nothing the module does can hold if others rewrite the flags or the start behind its back.
- Convergence.CrashesConverge: up to the recorded start, versions, events and time, which differ between runs.
- The webhook and certificate rewriters, labels stripped before rendering, the choice of pipeline by kind, YAML marshalling.
- Actions in the input text, and actions that do not start their line: nesting is proved for block actions on lines of their own in texts without `{{`.
- Lower: lower-cases ASCII letters only.
- Loading and parsing roles, the padding of report lines and the quotes for an empty group, exit codes: an outcome value stands for them.
- The first Deployment's image, replicas and resources being copied into the values, quantity formatting, the JSON schema, Chart.yaml.
- Configuration, schemes, the platform version, upgrade hooks, commands and logging.
