/**
  Normal life: what one reconcile makes of the namespace, the ConfigMap and the Deployment, and that
  the ConfigMap is never switched on before the namespace is labelled.
*/
module Reconciling {
  import opened Wrappers
  import opened Cluster
  import opened Protocol
  import opened Teardown
  import opened Convergence

  /** The namespace labels a reconcile leaves. */
  predicate NsResult(flow: Flow, w: World, v: World)
    requires flow.Live?
  {
    if flow.dr then
      v.ns.Some? && v.ns.value.labels == (if w.ns.Some? then w.ns.value.labels else map[])[ENABLED_LABEL := "true"]
    else
      (v.ns.Some? <==> w.ns.Some?) && (w.ns.Some? ==> v.ns.value.labels == WithoutEnabled(w.ns.value.labels))
  }

  predicate SameCm(c: ConfigMap, d: ConfigMap) {
    c.(version := 0) == d.(version := 0)
  }

  /** The ConfigMap a reconcile leaves: a new one, an updated one, or a terminating one let go. */
  predicate CmResult(flow: Flow, w: World, v: World)
    requires flow.Live?
  {
    match w.cm
    case None => v.cm.Some? && v.cm.value.uid > w.rev && SameCm(v.cm.value, MadeCm(flow).(uid := v.cm.value.uid))
    case Some(c) =>
      if Desired(flow, c) == c then v.cm == w.cm
      else if Settle(Desired(flow, c)).None? then v.cm.None?
      else v.cm.Some? && SameCm(v.cm.value, Desired(flow, c))
  }

  /** Only a live ConfigMap that somebody else controls stops a reconcile. */
  predicate Adoptable(w: World) {
    w.cm.Some? ==> w.cm.value.terminating || w.cm.value.controller != SomebodyElse
  }

  predicate AtNs(pc: Pc) {
    pc.NsGet? || pc.NsCreate? || pc.NsUpdate? || pc.UnlabelGet? || pc.UnlabelPatch?
  }

  predicate AtCm(pc: Pc) {
    pc.CmGet? || pc.CmCreate? || pc.CmUpdate?
  }

  predicate AtRoll(pc: Pc) {
    pc.RollGetCm? || pc.RollGetDeploy? || pc.RollPatch?
  }

  /** Where an undisturbed reconcile of cluster `w` stands. */
  predicate OnReconcile(cfg: Cfg, flow: Flow, w: World, s: Sys)
    requires flow.Live?
  {
    var v := s.w;
    && v.rev >= w.rev && WellFormed(v)
    && (AtNs(s.pc) || AtCm(s.pc) || AtRoll(s.pc) ==> s.pc.flow == flow)
    && (v.deploy.Some? <==> w.deploy.Some?)
    && match s.pc
       case NsGet(_) => flow.dr && v.ns == w.ns && v.cm == w.cm
       case NsCreate(_) => flow.dr && v.ns == w.ns == None && v.cm == w.cm
       case NsUpdate(_, ns) => flow.dr && v.ns == w.ns == Some(ns) && v.cm == w.cm
       case UnlabelGet(_) => !flow.dr && v.ns == w.ns && v.cm == w.cm
       case UnlabelPatch(_) =>
         !flow.dr && v.ns == w.ns && v.cm == w.cm && w.ns.Some? && Lookup(w.ns.value.labels, ENABLED_LABEL) == "true"
       case CmGet(_) => NsResult(flow, w, v) && v.cm == w.cm
       case CmCreate(_) => NsResult(flow, w, v) && v.cm == w.cm == None
       case CmUpdate(_, read) =>
         NsResult(flow, w, v) && v.cm == w.cm == Some(read) && Adoptable(w) && Desired(flow, read) != read
       case RollGetCm(_) => NsResult(flow, w, v) && CmResult(flow, w, v) && Adoptable(w)
       case RollGetDeploy(_, hash) =>
         NsResult(flow, w, v) && CmResult(flow, w, v) && Adoptable(w) && v.cm.Some? && hash == cfg.hash(v.cm.value.data)
       case RollPatch(_, hash) =>
         && NsResult(flow, w, v) && CmResult(flow, w, v) && Adoptable(w)
         && v.cm.Some? && hash == cfg.hash(v.cm.value.data)
         && v.deploy.Some?
       case Rest(outcome) =>
         && NsResult(flow, w, v)
         && outcome == (if Adoptable(w) then Succeeded else Failed(ForeignController))
         && (Adoptable(w) ==> CmResult(flow, w, v) && (v.cm.Some? ==> HashIs(v, cfg.hash(v.cm.value.data))))
         && (!Adoptable(w) ==> v.cm == w.cm)
       case _ => false
  }

  lemma NsCallsStayOn(cfg: Cfg, flow: Flow, w: World, s: Sys)
    requires flow.Live? && OnReconcile(cfg, flow, w, s) && AtNs(s.pc)
    ensures OnReconcile(cfg, flow, w, Advance(cfg, s))
  {
  }

  lemma CmCallsStayOn(cfg: Cfg, flow: Flow, w: World, s: Sys)
    requires flow.Live? && OnReconcile(cfg, flow, w, s) && AtCm(s.pc)
    ensures OnReconcile(cfg, flow, w, Advance(cfg, s))
  {
  }

  lemma RollCallsStayOn(cfg: Cfg, flow: Flow, w: World, s: Sys)
    requires flow.Live? && OnReconcile(cfg, flow, w, s) && AtRoll(s.pc)
    ensures OnReconcile(cfg, flow, w, Advance(cfg, s))
  {
  }

  lemma {:induction false} FinishStaysOn(cfg: Cfg, flow: Flow, w: World, s: Sys)
    requires flow.Live? && OnReconcile(cfg, flow, w, s)
    ensures OnReconcile(cfg, flow, w, Finish(cfg, s))
    decreases Phase(s.pc), Left(s.pc)
  {
    if !s.pc.Rest? {
      AdvanceDescends(cfg, s);
      if AtNs(s.pc) { NsCallsStayOn(cfg, flow, w, s); }
      else if AtCm(s.pc) { CmCallsStayOn(cfg, flow, w, s); }
      else { RollCallsStayOn(cfg, flow, w, s); }
      FinishStaysOn(cfg, flow, w, Advance(cfg, s));
    }
  }

  function FlowOf(cfg: Cfg, spec: Option<Capabilities>): Flow {
    var (fs, dr) := ResolveCapabilities(cfg, spec);
    Live(fs, dr)
  }

  /** The complete effect of an undisturbed reconcile on any cluster. */
  lemma ReconcileIsDecided(cfg: Cfg, w: World, spec: Option<Capabilities>)
    requires WellFormed(w)
    ensures OnReconcile(cfg, FlowOf(cfg, spec), w, Attempt(cfg, w, Reconcile(spec)))
    ensures Attempt(cfg, w, Reconcile(spec)).pc.Rest?
  {
    FinishStaysOn(cfg, FlowOf(cfg, spec), w, Sys(w, Entry(cfg, Reconcile(spec))));
  }

  predicate NsEnabled(w: World) {
    w.ns.Some? && Lookup(w.ns.value.labels, ENABLED_LABEL) == "true"
  }

  function OtherLabels(labels: Table): Table {
    labels - {ENABLED_LABEL}
  }

  /**
    After a reconcile with a live ConfigMap, from any earlier state, these four agree: the Data Registry
    state that the resource gives, or the configuration if it gives none, the flag, the namespace key,
    and the namespace label; the feature store's flag says the same of the feature store.  The other
    labels are those of before, and a namespace that was there still is.
   */
  lemma ReconcileAgrees(cfg: Cfg, w: World, spec: Option<Capabilities>)
    requires WellFormed(w) && Adoptable(w) && (w.cm.Some? ==> !w.cm.value.terminating)
    ensures
      var fs := if spec.Some? then spec.value.featureStore == Managed else cfg.featureStoreDefault;
      var dr := if spec.Some? then spec.value.dataRegistry == Managed else cfg.dataRegistryDefault;
      var t := Attempt(cfg, w, Reconcile(spec));
      && t.pc == Rest(Succeeded) && t.w.cm.Some?
      && (Lookup(t.w.cm.value.data, KEY_DATA_REGISTRY) == "true" <==> dr)
      && (KEY_NAMESPACE in t.w.cm.value.data <==> dr)
      && (NsEnabled(t.w) <==> dr)
      && (Lookup(t.w.cm.value.data, KEY_FEATURE_STORE) == "true" <==> fs)
      && (w.ns.Some? ==> t.w.ns.Some? && OtherLabels(t.w.ns.value.labels) == OtherLabels(w.ns.value.labels))
      && HashIs(t.w, cfg.hash(t.w.cm.value.data))
  {
    ReconcileIsDecided(cfg, w, spec);
  }

  function Flag(on: bool): string {
    if on then "true" else "false"
  }

  /**
    The data that the resource, or else the configuration, asks for: both flags, and the namespace
    with the registry.
   */
  predicate IsDataFor(cfg: Cfg, spec: Option<Capabilities>, data: Table) {
    var fs := if spec.Some? then spec.value.featureStore == Managed else cfg.featureStoreDefault;
    var dr := if spec.Some? then spec.value.dataRegistry == Managed else cfg.dataRegistryDefault;
    && data.Keys == {KEY_FEATURE_STORE, KEY_DATA_REGISTRY} + (if dr then {KEY_NAMESPACE} else {})
    && data[KEY_FEATURE_STORE] == Flag(fs) && data[KEY_DATA_REGISTRY] == Flag(dr)
    && (dr ==> data[KEY_NAMESPACE] == DATA_REGISTRY_NAMESPACE)
  }

  lemma KeysDiffer()
    ensures KEY_FEATURE_STORE != KEY_DATA_REGISTRY
    ensures KEY_NAMESPACE != KEY_FEATURE_STORE && KEY_NAMESPACE != KEY_DATA_REGISTRY
  {
    assert |KEY_FEATURE_STORE| != |KEY_NAMESPACE|;
    assert KEY_FEATURE_STORE[0] == 'f' && KEY_DATA_REGISTRY[0] == 'd';
    assert KEY_NAMESPACE[12] == 'N' && KEY_DATA_REGISTRY[12] == 'E';
  }

  lemma ResolvedDataIsRight(cfg: Cfg, spec: Option<Capabilities>)
    ensures var (fs, dr) := ResolveCapabilities(cfg, spec); IsDataFor(cfg, spec, ResolvedData(fs, dr))
  {
    KeysDiffer();
  }

  /**
    What a reconcile changes of a live ConfigMap, and what it leaves: the module's finalizer is there
    beside all the others, the component label beside all the others, and the start and the identity
    are the old ones; when all was as it should be, nothing is written.
   */
  lemma ReconcileKeeps(cfg: Cfg, w: World, spec: Option<Capabilities>)
    requires WellFormed(w) && Adoptable(w) && w.cm.Some? && !w.cm.value.terminating
    ensures
      var c := w.cm.value;
      var t := Attempt(cfg, w, Reconcile(spec)).w;
      && t.cm.Some?
      && t.cm.value.finalizers == c.finalizers + {MODULE_FINALIZER}
      && t.cm.value.labels == c.labels[COMPONENT_LABEL := "true"]
      && IsDataFor(cfg, spec, t.cm.value.data)
      && t.cm.value.start == c.start && t.cm.value.uid == c.uid
      && !t.cm.value.terminating && t.cm.value.controller == Feast
      && (t.cm.value.(version := c.version) == c ==> t.cm.value == c)
  {
    ReconcileIsDecided(cfg, w, spec);
    ResolvedDataIsRight(cfg, spec);
  }

  /** The ConfigMap a reconcile makes where there was none. */
  lemma ReconcileCreates(cfg: Cfg, w: World, spec: Option<Capabilities>)
    requires WellFormed(w) && w.cm.None?
    ensures
      var t := Attempt(cfg, w, Reconcile(spec)).w;
      && t.cm.Some? && IsDataFor(cfg, spec, t.cm.value.data)
      && t.cm.value.finalizers == {MODULE_FINALIZER} && t.cm.value.labels == map[COMPONENT_LABEL := "true"]
      && t.cm.value.start == NoStamp && t.cm.value.controller == Feast && !t.cm.value.terminating
  {
    ReconcileIsDecided(cfg, w, spec);
    ResolvedDataIsRight(cfg, spec);
  }

  /** A terminating ConfigMap loses the module's finalizer and nothing else; a foreign one is left alone. */
  lemma ReconcileLetsGo(cfg: Cfg, w: World, spec: Option<Capabilities>)
    requires WellFormed(w) && w.cm.Some?
    ensures
      var c := w.cm.value;
      var t := Attempt(cfg, w, Reconcile(spec));
      if c.terminating then
        && t.pc == Rest(Succeeded)
        && (t.w.cm.None? <==> c.finalizers <= {MODULE_FINALIZER})
        && (t.w.cm.Some? ==> t.w.cm.value.(version := c.version) == c.(finalizers := c.finalizers - {MODULE_FINALIZER}))
      else c.controller == SomebodyElse ==> t.pc == Rest(Failed(ForeignController)) && t.w.cm == w.cm
  {
    ReconcileIsDecided(cfg, w, spec);
    if w.cm.value.finalizers - {MODULE_FINALIZER} == {} { assert w.cm.value.finalizers <= {MODULE_FINALIZER}; }
    if w.cm.value.finalizers <= {MODULE_FINALIZER} { assert w.cm.value.finalizers - {MODULE_FINALIZER} == {}; }
  }

  /** What a reconcile leaves of the namespace, and that it writes the label only where it said otherwise. */
  lemma ReconcileLabels(cfg: Cfg, w: World, spec: Option<Capabilities>)
    requires WellFormed(w)
    ensures
      var dr := if spec.Some? then spec.value.dataRegistry == Managed else cfg.dataRegistryDefault;
      var t := Attempt(cfg, w, Reconcile(spec)).w;
      var was := if w.ns.Some? then w.ns.value.labels else map[];
      var unlabelled := if Lookup(was, ENABLED_LABEL) == "true" then was - {ENABLED_LABEL} else was;
      && (t.ns.Some? <==> w.ns.Some? || dr)
      && (t.ns.Some? ==> t.ns.value.labels == if dr then was[ENABLED_LABEL := "true"] else unlabelled)
  {
    ReconcileIsDecided(cfg, w, spec);
  }

  /** The ConfigMap as a reconcile wants it. */
  predicate Restored(cfg: Cfg, spec: Option<Capabilities>, w: World) {
    && w.cm.Some? && !w.cm.value.terminating && w.cm.value.controller == Feast
    && IsDataFor(cfg, spec, w.cm.value.data)
    && MODULE_FINALIZER in w.cm.value.finalizers && Labelled(w.cm.value.labels)
  }

  /** One reconcile restores a live or missing ConfigMap, and finishes off a going one that nobody else holds. */
  lemma OneReconcileRestores(cfg: Cfg, w: World, spec: Option<Capabilities>)
    requires WellFormed(w) && Adoptable(w)
    ensures
      var t := Attempt(cfg, w, Reconcile(spec));
      && t.pc == Rest(Succeeded) && WellFormed(t.w) && t.w.rev >= w.rev
      && (w.cm.None? ==> Restored(cfg, spec, t.w) && t.w.cm.value.uid > w.rev)
      && (w.cm.Some? && !w.cm.value.terminating ==>
            Restored(cfg, spec, t.w) && t.w.cm.value.uid == w.cm.value.uid)
      && (w.cm.Some? && w.cm.value.terminating && w.cm.value.finalizers <= {MODULE_FINALIZER} ==> t.w.cm.None?)
  {
    ReconcileIsDecided(cfg, w, spec);
    ResolvedDataIsRight(cfg, spec);
  }

  /**
    With no finalizer of others on a terminating ConfigMap, two reconciles restore it: a new object
    if the old one was gone or going, the same object otherwise.
   */
  lemma TwoReconcilesRestore(cfg: Cfg, w: World, spec: Option<Capabilities>)
    requires WellFormed(w) && Adoptable(w)
    requires w.cm.Some? && w.cm.value.terminating ==> w.cm.value.finalizers <= {MODULE_FINALIZER}
    ensures
      var t := Attempt(cfg, w, Reconcile(spec));
      var u := Attempt(cfg, t.w, Reconcile(spec));
      && t.pc == u.pc == Rest(Succeeded) && Restored(cfg, spec, u.w)
      && (if w.cm.None? || w.cm.value.terminating then u.w.cm.value.uid > w.rev else u.w.cm.value.uid == w.cm.value.uid)
  {
    OneReconcileRestores(cfg, w, spec);
    OneReconcileRestores(cfg, Attempt(cfg, w, Reconcile(spec)).w, spec);
  }

  // ----- never enabled before the namespace is labelled -----

  /** Others leave the enabled label alone and do not delete the namespace. */
  predicate KeepsNamespace(a: Act) {
    && !a.DeleteNs?
    && (a.DropNsLabel? ==> a.key != ENABLED_LABEL)
    && (a.LabelNs? ==> a.key != ENABLED_LABEL)
  }

  predicate Reconciles(e: Event) {
    && (e.Env? ==> KeepsNamespace(e.act))
    && (e.Begin? ==> e.job.Reconcile?)
  }

  predicate LabelFirst(s: Sys) {
    && WellFormed(s.w) && (s.pc.CmUpdate? ==> Saw(s.w, s.pc.read))
    && (AtNs(s.pc) ==> s.pc.flow.Live? && (s.pc.flow.dr <==> s.pc.NsGet? || s.pc.NsCreate? || s.pc.NsUpdate?))
    && (AtCm(s.pc) ==> s.pc.flow.Live? && (s.pc.flow.dr ==> NsEnabled(s.w)))
    && (AtRoll(s.pc) ==> s.pc.flow.Live?)
    && (AtNs(s.pc) || AtCm(s.pc) || AtRoll(s.pc) || s.pc.Rest?)
  }

  lemma ActsKeepLabel(w: World, a: Act)
    requires KeepsNamespace(a)
    ensures NsEnabled(w) ==> NsEnabled(Apply(w, a))
  {
  }

  /** Whoever changes the ConfigMap gives it a new version. */
  lemma ActsBumpVersions(w: World, a: Act)
    requires WellFormed(w)
    ensures var v := Apply(w, a);
      WellFormed(v) && v.rev >= w.rev && (v.cm.Some? ==> v.cm == w.cm || v.cm.value.version > w.rev)
  {
  }

  lemma LabelFirstCall(cfg: Cfg, s: Sys)
    requires LabelFirst(s)
    ensures LabelFirst(Advance(cfg, s))
  {
  }

  lemma LabelFirstStep(cfg: Cfg, s: Sys, e: Event)
    requires LabelFirst(s) && Reconciles(e)
    ensures LabelFirst(Next(cfg, s, e))
  {
    match e
    case Env(a) => ActsKeepLabel(s.w, a); ActsBumpVersions(s.w, a);
    case _ => LabelFirstCall(cfg, s);
  }

  lemma EnabledIsWrittenByFlow(cfg: Cfg, s: Sys)
    requires LabelFirst(s)
    requires EnabledCm(Advance(cfg, s).w) && (s.w.cm.None? || s.w.cm.value.data != Advance(cfg, s).w.cm.value.data)
    ensures AtCm(s.pc) && s.pc.flow.dr
  {
  }

  lemma {:induction false} LabelFirstInRuns(cfg: Cfg, s: Sys, es: seq<Event>)
    requires WellFormed(s.w) && s.pc.Rest? && forall e :: e in es ==> Reconciles(e)
    ensures LabelFirst(Run(cfg, s, es))
  {
    if es != [] {
      var n := |es| - 1;
      LabelFirstInRuns(cfg, s, es[..n]);
      assert es[n] in es;
      LabelFirstStep(cfg, Run(cfg, s, es[..n]), es[n]);
    }
  }

  predicate EnabledCm(w: World) {
    w.cm.Some? && Lookup(w.cm.value.data, KEY_DATA_REGISTRY) == "true"
  }

  /**
    In every run of reconciles, with failures, restarts and changing specs, a step of the module that
    gives the ConfigMap data with the Data Registry switched on happens only while the namespace
    carries the enabled label.
   */
  lemma NeverEnabledBeforeLabelled(cfg: Cfg, s: Sys, es: seq<Event>, e: Event)
    requires WellFormed(s.w) && s.pc.Rest? && (forall x :: x in es ==> Reconciles(x)) && ByModule(e)
    ensures
      var t := Run(cfg, s, es);
      var u := Next(cfg, t, e);
      EnabledCm(u.w) && (t.w.cm.None? || t.w.cm.value.data != u.w.cm.value.data) ==> NsEnabled(t.w)
  {
    LabelFirstInRuns(cfg, s, es);
    var t := Run(cfg, s, es);
    var u := Next(cfg, t, e);
    if EnabledCm(u.w) && (t.w.cm.None? || t.w.cm.value.data != u.w.cm.value.data) {
      EnabledIsWrittenByFlow(cfg, t);
    }
  }
}
