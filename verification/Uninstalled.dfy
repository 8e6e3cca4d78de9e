/** What a completed uninstall means, key by key and object by object, and when it records a warning. */
module Uninstalled {
  import opened Cluster
  import opened Protocol
  import opened Teardown
  import opened Convergence

  predicate IsMarkedOurs(labels: Table) {
    COMPONENT_LABEL in labels && labels[COMPONENT_LABEL] == "true"
  }

  /** Exactly the objects without the component label are left, as they were. */
  ghost predicate OursAreGone(was: map<string, Table>, now: map<string, Table>) {
    forall n :: n in was || n in now ==>
      (n in now <==> n in was && !IsMarkedOurs(was[n])) && (n in now && n in was ==> now[n] == was[n])
  }

  /** The same entries but for these keys. */
  predicate SameBut(was: Table, now: Table, keys: set<string>) {
    forall k | k in was.Keys + now.Keys && k !in keys :: k in was && k in now && was[k] == now[k]
  }

  lemma RbacIsGone(cfg: Cfg, w: World)
    ensures OursAreGone(w.bindings, Final(cfg, w).bindings) && OursAreGone(w.roles, Final(cfg, w).roles)
  {
  }

  /** The ConfigMap: gone unless others hold it, then terminating, with their finalizers, and switched off. */
  lemma ConfigMapIsOff(cfg: Cfg, w: World)
    ensures
      var f := Final(cfg, w).cm;
      && (f.None? <==> w.cm.None? || forall x :: x in w.cm.value.finalizers ==> x == MODULE_FINALIZER)
      && (f.Some? ==>
            var c, d := w.cm.value, f.value;
            && d.terminating && d.labels == c.labels && d.controller == c.controller
            && MODULE_FINALIZER !in d.finalizers
            && d.finalizers + {MODULE_FINALIZER} == c.finalizers + {MODULE_FINALIZER}
            && d.data.Keys == c.data.Keys + {KEY_FEATURE_STORE, KEY_DATA_REGISTRY}
            && d.data[KEY_FEATURE_STORE] == d.data[KEY_DATA_REGISTRY] == "false"
            && SameBut(c.data, d.data, {KEY_FEATURE_STORE, KEY_DATA_REGISTRY}))
  {
  }

  /** The Deployment: the hash of the data that was left, beside its other annotations. */
  lemma DeploymentIsRolled(cfg: Cfg, w: World)
    ensures
      var f := Final(cfg, w).podAnnotations;
      && (f.Some? <==> w.deploy.Some?)
      && (f.Some? ==>
            && SameBut(w.deploy.value.podAnnotations, f.value, {HASH_ANNOTATION})
            && (w.cm.None? ==> f.value == w.deploy.value.podAnnotations)
            && (w.cm.Some? ==>
                  var off := w.cm.value.data[KEY_FEATURE_STORE := "false"][KEY_DATA_REGISTRY := "false"];
                  Lookup(f.value, HASH_ANNOTATION) == cfg.hash(off)))
  {
  }

  /** The namespace: still there, not advertised, its other labels as they were. */
  lemma NamespaceIsKept(cfg: Cfg, w: World)
    ensures
      var f := Final(cfg, w).nsLabels;
      && (f.Some? <==> w.ns.Some?)
      && (f.Some? ==> Lookup(f.value, ENABLED_LABEL) != "true" && SameBut(w.ns.value.labels, f.value, {ENABLED_LABEL}))
  {
  }

  // ----- the warning -----

  /** The feast operator holds the ConfigMap and its time is up. */
  predicate Overdue(w: World) {
    w.cm.Some? && FEAST_FINALIZER in w.cm.value.finalizers && TimedOut(w, w.cm.value.start)
  }

  function WarningsOf(cfg: Cfg, w: World): nat {
    if cfg.recorder && Overdue(w) then 1 else 0
  }

  predicate BeforeWarning(pc: Pc) {
    || pc.UnlabelGet? || pc.UnlabelPatch? || pc.MarkGet? || pc.MarkClock? || pc.MarkUpdate?
    || pc.RollGetCm? || pc.RollGetDeploy? || pc.RollPatch? || pc.DelGet? || pc.DelCall? || pc.WaitGet? || pc.WaitClock?
  }

  /** What has been recorded, and what will be. */
  predicate Warned(cfg: Cfg, warnings: nat, expected: nat, s: Sys) {
    if BeforeWarning(s.pc) then s.w.warnings == warnings && WarningsOf(cfg, s.w) == expected
    else if s.pc.WaitWarn? then s.w.warnings == warnings && expected == 1
    else s.w.warnings == warnings + expected
  }

  lemma EarlyCallsWarn(cfg: Cfg, warnings: nat, expected: nat, s: Sys, verdict: Outcome)
    requires OnCourse(cfg, s, verdict) && Warned(cfg, warnings, expected, s)
    requires s.pc.UnlabelGet? || s.pc.UnlabelPatch? || s.pc.MarkGet? || s.pc.MarkClock? || s.pc.MarkUpdate?
    ensures Warned(cfg, warnings, expected, Advance(cfg, s))
  {
    EarlyCallsKeepCourse(cfg, s, verdict);
  }

  lemma MiddleCallsWarn(cfg: Cfg, warnings: nat, expected: nat, s: Sys, verdict: Outcome)
    requires OnCourse(cfg, s, verdict) && Warned(cfg, warnings, expected, s)
    requires s.pc.RollGetCm? || s.pc.RollGetDeploy? || s.pc.RollPatch? || s.pc.DelGet? || s.pc.DelCall?
    ensures Warned(cfg, warnings, expected, Advance(cfg, s))
  {
  }

  lemma WaitWarns(cfg: Cfg, warnings: nat, expected: nat, s: Sys, verdict: Outcome)
    requires OnCourse(cfg, s, verdict) && Warned(cfg, warnings, expected, s)
    requires s.pc.WaitGet? || s.pc.WaitClock? || s.pc.WaitWarn?
    ensures Warned(cfg, warnings, expected, Advance(cfg, s))
  {
  }

  lemma LateCallsWarn(cfg: Cfg, warnings: nat, expected: nat, s: Sys, verdict: Outcome)
    requires OnCourse(cfg, s, verdict) && Warned(cfg, warnings, expected, s)
    requires !s.pc.Rest? && !BeforeWarning(s.pc) && !s.pc.WaitWarn?
    ensures Warned(cfg, warnings, expected, Advance(cfg, s))
  {
  }

  lemma CallsWarn(cfg: Cfg, warnings: nat, expected: nat, s: Sys, verdict: Outcome)
    requires OnCourse(cfg, s, verdict) && Warned(cfg, warnings, expected, s) && !s.pc.Rest?
    ensures Warned(cfg, warnings, expected, Advance(cfg, s))
  {
    match s.pc
    case UnlabelGet(_) => EarlyCallsWarn(cfg, warnings, expected, s, verdict);
    case UnlabelPatch(_) => EarlyCallsWarn(cfg, warnings, expected, s, verdict);
    case MarkGet => EarlyCallsWarn(cfg, warnings, expected, s, verdict);
    case MarkClock(_) => EarlyCallsWarn(cfg, warnings, expected, s, verdict);
    case MarkUpdate(_, _) => EarlyCallsWarn(cfg, warnings, expected, s, verdict);
    case RollGetCm(_) => MiddleCallsWarn(cfg, warnings, expected, s, verdict);
    case RollGetDeploy(_, _) => MiddleCallsWarn(cfg, warnings, expected, s, verdict);
    case RollPatch(_, _) => MiddleCallsWarn(cfg, warnings, expected, s, verdict);
    case DelGet => MiddleCallsWarn(cfg, warnings, expected, s, verdict);
    case DelCall => MiddleCallsWarn(cfg, warnings, expected, s, verdict);
    case WaitGet => WaitWarns(cfg, warnings, expected, s, verdict);
    case WaitClock(_) => WaitWarns(cfg, warnings, expected, s, verdict);
    case WaitWarn => WaitWarns(cfg, warnings, expected, s, verdict);
    case _ => LateCallsWarn(cfg, warnings, expected, s, verdict);
  }

  lemma {:induction false} FinishWarns(cfg: Cfg, warnings: nat, expected: nat, s: Sys, verdict: Outcome)
    requires OnCourse(cfg, s, verdict) && Warned(cfg, warnings, expected, s)
    ensures Finish(cfg, s).w.warnings == warnings + expected
    decreases Phase(s.pc), Left(s.pc)
  {
    if !s.pc.Rest? {
      AdvanceDescends(cfg, s);
      CourseIsKept(cfg, s, verdict);
      CallsWarn(cfg, warnings, expected, s, verdict);
      FinishWarns(cfg, warnings, expected, Advance(cfg, s), verdict);
    }
  }

  /**
    An uninterrupted attempt records one warning when it goes on without an overdue feast operator,
    and none otherwise.
   */
  lemma AttemptWarnsOnce(cfg: Cfg, w: World)
    requires WellFormed(w)
    ensures Attempt(cfg, w, Finalize).w.warnings == w.warnings + if cfg.recorder && Overdue(w) then 1 else 0
  {
    FinishWarns(cfg, w.warnings, WarningsOf(cfg, w), Sys(w, Entry(cfg, Finalize)), Verdict(w));
  }
}
