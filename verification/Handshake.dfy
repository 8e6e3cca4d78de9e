/**
  Crash convergence with the feast operator taking part: it may claim and release the ConfigMap at
  any time, between attempts and in the middle of one.
*/
module Handshake {
  import opened Wrappers
  import opened Cluster
  import opened Protocol
  import opened Teardown
  import opened Convergence

  /** Only the module and the feast operator act; time passes. */
  predicate Between(e: Event) {
    Uninstalling(e) && (e.Env? ==> e.act.Tick? || e.act.FeastClaims? || e.act.FeastReleases?)
  }

  ghost predicate HandshakeRun(es: seq<Event>) {
    forall e :: e in es ==> Between(e)
  }

  /** The cluster with the feast finalizer set or not. */
  function Feasting(w: World, held: bool): World {
    match w.cm
    case None => w
    case Some(c) =>
      w.(cm := Some(c.(finalizers :=
        if held then c.finalizers + {FEAST_FINALIZER} else c.finalizers - {FEAST_FINALIZER})))
  }

  // ----- what every step keeps of the cluster at the beginning -----

  /** What neither party changes of a ConfigMap, up to switching off the flags. */
  function Core(c: ConfigMap): CmResidue {
    CmResidue(true, c.finalizers - {MODULE_FINALIZER, FEAST_FINALIZER}, c.labels, DisabledData(c.data), c.controller)
  }

  predicate KeptCm(w0: World, w: World) {
    match w.cm
    case Some(c) => w0.cm.Some? && Core(c) == Core(w0.cm.value)
    case None => w0.cm.Some? ==> Core(w0.cm.value).finalizers == {}
  }

  /** The hash the uninstall rolls the Deployment to. */
  function FinalHash(cfg: Cfg, w0: World): string {
    if w0.cm.Some? then cfg.hash(DisabledData(w0.cm.value.data)) else ""
  }

  predicate KeptDeploy(cfg: Cfg, w0: World, w: World) {
    && (w.deploy.Some? <==> w0.deploy.Some?)
    && (w.deploy.Some? ==>
          var was, now := w0.deploy.value.podAnnotations, w.deploy.value.podAnnotations;
          if w0.cm.None? then now == was else Rolled(now, FinalHash(cfg, w0)) == Rolled(was, FinalHash(cfg, w0)))
  }

  /**
    A ConfigMap that can vanish as soon as the feast operator lets it go leaves a Deployment that
    carries the final hash.
   */
  predicate Anchored(cfg: Cfg, w0: World, w: World) {
    w.cm.Some? && w.cm.value.terminating && w.cm.value.finalizers <= {FEAST_FINALIZER} ==> HashIs(w, FinalHash(cfg, w0))
  }

  /** So does one that has vanished. */
  predicate KeptAnchor(cfg: Cfg, w0: World, w: World) {
    Anchored(cfg, w0, w) && (w0.cm.Some? && w.cm.None? ==> HashIs(w, FinalHash(cfg, w0)))
  }

  predicate KeptRest(w0: World, w: World) {
    && (w.ns.Some? <==> w0.ns.Some?)
    && (w.ns.Some? ==> WithoutEnabled(w.ns.value.labels) == WithoutEnabled(w0.ns.value.labels))
    && Unlabelled(w.bindings) == Unlabelled(w0.bindings) && Unlabelled(w.roles) == Unlabelled(w0.roles)
  }

  /** How far the work has come, whatever the feast operator does meanwhile. */
  predicate Steady(cfg: Cfg, w0: World, s: Sys) {
    var w := s.w;
    match s.pc
    case Rest(outcome) => outcome == Succeeded ==> CmDone(w) && OnlyIn(w.bindings, []) && OnlyIn(w.roles, [])
    case UnlabelGet(_) => true
    case UnlabelPatch(_) => w.ns.Some? && Lookup(w.ns.value.labels, ENABLED_LABEL) == "true"
    case RollGetDeploy(_, hash) => NsDone(w) && w0.cm.Some? && hash == FinalHash(cfg, w0)
    case RollPatch(_, hash) =>
      NsDone(w) && w0.cm.Some? && hash == FinalHash(cfg, w0) && w.deploy.Some? && !HashIs(w, hash)
    case BindingsList => CmDone(w)
    case BindingsDelete(todo) => todo != [] && CmDone(w) && OnlyIn(w.bindings, todo) && AllLabelled(w.bindings, todo)
    case RolesList => CmDone(w) && OnlyIn(w.bindings, [])
    case RolesDelete(todo) =>
      todo != [] && CmDone(w) && OnlyIn(w.bindings, []) && OnlyIn(w.roles, todo) && AllLabelled(w.roles, todo)
    case _ => NsDone(w)
  }

  predicate Kept(cfg: Cfg, w0: World, s: Sys) {
    && KeptCm(w0, s.w) && KeptDeploy(cfg, w0, s.w) && KeptRest(w0, s.w)
    && (Anchored(cfg, w0, w0) ==> KeptAnchor(cfg, w0, s.w)) && Steady(cfg, w0, s)
  }

  /** A ConfigMap with the intent written hashes to the final hash. */
  lemma IntentHashes(cfg: Cfg, w0: World, w: World)
    requires w.cm.Some? && KeptCm(w0, w) && FlagsOff(w.cm.value.data)
    ensures w0.cm.Some? && cfg.hash(w.cm.value.data) == FinalHash(cfg, w0)
    ensures w.cm.value.data == DisabledData(w0.cm.value.data)
  {
    FlagsOffIsDisabled(w.cm.value.data);
  }

  // ----- the feast operator's acts -----

  /** What an act of the feast operator, or time, changes. */
  predicate FeastChange(w: World, v: World) {
    && v.(cm := w.cm, rev := w.rev, now := w.now) == w
    && (w.cm.None? ==> v.cm.None?)
    && (w.cm.Some? ==>
          var c := w.cm.value;
          match v.cm
          case Some(d) =>
            && Core(d) == Core(c) && d.data == c.data && d.start == c.start && d.terminating == c.terminating
            && (MODULE_FINALIZER in d.finalizers <==> MODULE_FINALIZER in c.finalizers)
            && (d.finalizers <= {FEAST_FINALIZER} ==> c.finalizers <= {FEAST_FINALIZER})
          case None => c.terminating && c.finalizers <= {FEAST_FINALIZER} && Core(c).finalizers == {})
  }

  lemma FeastActs(w: World, a: Act)
    requires WellFormed(w) && (a.Tick? || a.FeastClaims? || a.FeastReleases?)
    ensures FeastChange(w, Apply(w, a))
  {
    FinalizersDiffer();
    if w.cm.Some? {
      var f := w.cm.value.finalizers;
      assert f + {FEAST_FINALIZER} - {MODULE_FINALIZER, FEAST_FINALIZER} == f - {MODULE_FINALIZER, FEAST_FINALIZER};
      assert f - {FEAST_FINALIZER} - {MODULE_FINALIZER, FEAST_FINALIZER} == f - {MODULE_FINALIZER, FEAST_FINALIZER};
      if f - {FEAST_FINALIZER} == {} { assert f - {MODULE_FINALIZER, FEAST_FINALIZER} == {}; }
    }
  }

  lemma FeastChangeKeeps(cfg: Cfg, w0: World, s: Sys, v: World)
    requires Kept(cfg, w0, s) && FeastChange(s.w, v)
    ensures Kept(cfg, w0, s.(w := v))
  {
    if s.w.cm.Some? && FlagsOff(s.w.cm.value.data) { IntentHashes(cfg, w0, s.w); }
  }

  lemma FinalizersDiffer()
    ensures MODULE_FINALIZER != FEAST_FINALIZER
  {
    assert |MODULE_FINALIZER| != |FEAST_FINALIZER|;
  }

  // ----- the module's calls -----

  /** A step that leaves the three objects alone. */
  lemma OnlyRbac(cfg: Cfg, w0: World, s: Sys, t: Sys)
    requires Kept(cfg, w0, s) && t.w.(bindings := s.w.bindings, roles := s.w.roles) == s.w
    requires Unlabelled(t.w.bindings) == Unlabelled(s.w.bindings) && Unlabelled(t.w.roles) == Unlabelled(s.w.roles)
    requires Steady(cfg, w0, t)
    ensures Kept(cfg, w0, t)
  {
  }

  lemma BindingsListKeeps(cfg: Cfg, w0: World, s: Sys)
    requires Kept(cfg, w0, s) && s.pc.BindingsList?
    ensures Kept(cfg, w0, Advance(cfg, s))
  {
    OnlyRbac(cfg, w0, s, Advance(cfg, s));
  }

  lemma RolesListKeeps(cfg: Cfg, w0: World, s: Sys)
    requires Kept(cfg, w0, s) && s.pc.RolesList?
    ensures Kept(cfg, w0, Advance(cfg, s))
  {
    OnlyRbac(cfg, w0, s, Advance(cfg, s));
  }

  lemma BindingsKeep(cfg: Cfg, w0: World, s: Sys)
    requires Kept(cfg, w0, s) && s.pc.BindingsDelete?
    ensures Kept(cfg, w0, Advance(cfg, s))
  {
    DeletingALabelledOne(s.w.bindings, s.pc.todo);
    OnlyRbac(cfg, w0, s, Advance(cfg, s));
  }

  lemma RolesKeep(cfg: Cfg, w0: World, s: Sys)
    requires Kept(cfg, w0, s) && s.pc.RolesDelete?
    ensures Kept(cfg, w0, Advance(cfg, s))
  {
    DeletingALabelledOne(s.w.roles, s.pc.todo);
    OnlyRbac(cfg, w0, s, Advance(cfg, s));
  }

  lemma UnlabellingKeeps(cfg: Cfg, w0: World, s: Sys)
    requires Inv(cfg, s) && Kept(cfg, w0, s) && (s.pc.UnlabelGet? || s.pc.UnlabelPatch?)
    ensures Kept(cfg, w0, Advance(cfg, s))
  {
  }

  lemma MarkingKeeps(cfg: Cfg, w0: World, s: Sys)
    requires Inv(cfg, s) && Kept(cfg, w0, s) && (s.pc.MarkGet? || s.pc.MarkClock?)
    ensures Kept(cfg, w0, Advance(cfg, s))
  {
  }

  lemma IntentKeeps(cfg: Cfg, w0: World, s: Sys)
    requires Inv(cfg, s) && Kept(cfg, w0, s) && s.pc.MarkUpdate?
    ensures Kept(cfg, w0, Advance(cfg, s))
  {
    if s.w.cm.Some? { FlagsOffIsDisabled(s.w.cm.value.data); }
  }

  lemma RollingKeeps(cfg: Cfg, w0: World, s: Sys)
    requires Inv(cfg, s) && Kept(cfg, w0, s) && (s.pc.RollGetCm? || s.pc.RollGetDeploy? || s.pc.RollPatch?)
    ensures Kept(cfg, w0, Advance(cfg, s))
  {
    if s.w.cm.Some? { IntentHashes(cfg, w0, s.w); }
  }

  /** A ConfigMap that has been handed over vanishes, or changes only what the uninstall changes anyway. */
  lemma HandedOverChange(cfg: Cfg, w0: World, s: Sys, t: Sys)
    requires Kept(cfg, w0, s) && HandedOver(cfg, s.w) && s.w.cm.Some? && Steady(cfg, w0, t)
    requires t.w.(cm := s.w.cm, rev := s.w.rev) == s.w
    requires t.w.cm.Some? ==>
      Core(t.w.cm.value) == Core(s.w.cm.value) && t.w.cm.value.data == s.w.cm.value.data
      && t.w.cm.value.start == s.w.cm.value.start
    requires t.w.cm.None? ==> Core(s.w.cm.value).finalizers == {}
    ensures Kept(cfg, w0, t)
  {
    IntentHashes(cfg, w0, s.w);
  }

  lemma DeletingKeeps(cfg: Cfg, w0: World, s: Sys)
    requires Inv(cfg, s) && Kept(cfg, w0, s) && (s.pc.DelGet? || s.pc.DelCall?)
    ensures Kept(cfg, w0, Advance(cfg, s))
  {
    if s.w.cm.Some? { HandedOverChange(cfg, w0, s, Advance(cfg, s)); }
  }

  lemma WaitingKeeps(cfg: Cfg, w0: World, s: Sys)
    requires Inv(cfg, s) && Kept(cfg, w0, s) && (s.pc.WaitGet? || s.pc.WaitClock? || s.pc.WaitWarn?)
    ensures Kept(cfg, w0, Advance(cfg, s))
  {
  }

  lemma LookingKeeps(cfg: Cfg, w0: World, s: Sys)
    requires Inv(cfg, s) && Kept(cfg, w0, s) && s.pc.RelGet?
    ensures Kept(cfg, w0, Advance(cfg, s))
  {
  }

  lemma DroppedFinalizer(f: set<string>)
    ensures f - {MODULE_FINALIZER} - {MODULE_FINALIZER, FEAST_FINALIZER} == f - {MODULE_FINALIZER, FEAST_FINALIZER}
    ensures f - {MODULE_FINALIZER} == {} ==> f - {MODULE_FINALIZER, FEAST_FINALIZER} == {}
  {
    if f - {MODULE_FINALIZER} == {} { assert f <= {MODULE_FINALIZER}; }
  }

  lemma ReleasingKeeps(cfg: Cfg, w0: World, s: Sys)
    requires Inv(cfg, s) && Kept(cfg, w0, s) && s.pc.RelUpdate?
    ensures Kept(cfg, w0, Advance(cfg, s))
  {
    if s.w.cm.Some? {
      DroppedFinalizer(s.w.cm.value.finalizers);
      HandedOverChange(cfg, w0, s, Advance(cfg, s));
    }
  }

  lemma CallsKeep(cfg: Cfg, w0: World, s: Sys)
    requires Inv(cfg, s) && Kept(cfg, w0, s) && !s.pc.Rest?
    ensures Kept(cfg, w0, Advance(cfg, s))
  {
    match s.pc
    case UnlabelGet(_) => UnlabellingKeeps(cfg, w0, s);
    case UnlabelPatch(_) => UnlabellingKeeps(cfg, w0, s);
    case MarkGet => MarkingKeeps(cfg, w0, s);
    case MarkClock(_) => MarkingKeeps(cfg, w0, s);
    case MarkUpdate(_, _) => IntentKeeps(cfg, w0, s);
    case RollGetCm(_) => RollingKeeps(cfg, w0, s);
    case RollGetDeploy(_, _) => RollingKeeps(cfg, w0, s);
    case RollPatch(_, _) => RollingKeeps(cfg, w0, s);
    case DelGet => DeletingKeeps(cfg, w0, s);
    case DelCall => DeletingKeeps(cfg, w0, s);
    case WaitGet => WaitingKeeps(cfg, w0, s);
    case WaitClock(_) => WaitingKeeps(cfg, w0, s);
    case WaitWarn => WaitingKeeps(cfg, w0, s);
    case RelGet => LookingKeeps(cfg, w0, s);
    case RelUpdate(_) => ReleasingKeeps(cfg, w0, s);
    case BindingsDelete(_) => BindingsKeep(cfg, w0, s);
    case RolesDelete(_) => RolesKeep(cfg, w0, s);
    case BindingsList => BindingsListKeeps(cfg, w0, s);
    case RolesList => RolesListKeeps(cfg, w0, s);
    case Rest(_) =>
  }

  lemma StepKeeps(cfg: Cfg, w0: World, s: Sys, e: Event)
    requires Inv(cfg, s) && Kept(cfg, w0, s) && Between(e)
    ensures Kept(cfg, w0, Next(cfg, s, e))
  {
    match e
    case Env(a) => FeastActs(s.w, a); FeastChangeKeeps(cfg, w0, s, Apply(s.w, a));
    case Begin(_) =>
    case Refused =>
    case _ => if !s.pc.Rest? { CallsKeep(cfg, w0, s); }
  }

  lemma {:induction false} RunKeeps(cfg: Cfg, s: Sys, es: seq<Event>)
    requires Startable(s.w, s.pc) && HandshakeRun(es)
    ensures Inv(cfg, Run(cfg, s, es)) && Kept(cfg, s.w, Run(cfg, s, es))
  {
    if es != [] {
      var n := |es| - 1;
      var t := Run(cfg, s, es[..n]);
      assert es[n] in es && forall e :: e in es[..n] ==> e in es;
      RunKeeps(cfg, s, es[..n]);
      StepKeeps(cfg, s.w, t, es[n]);
      StepKeepsInv(cfg, t, es[n]);
    }
  }

  // ----- the end -----

  lemma SameFinalizers(f: set<string>, f0: set<string>)
    requires MODULE_FINALIZER !in f
    requires f - {MODULE_FINALIZER, FEAST_FINALIZER} == f0 - {MODULE_FINALIZER, FEAST_FINALIZER}
    ensures f == (if FEAST_FINALIZER in f then f0 + {FEAST_FINALIZER} else f0 - {FEAST_FINALIZER}) - {MODULE_FINALIZER}
  {
    FinalizersDiffer();
    var core := f - {MODULE_FINALIZER, FEAST_FINALIZER};
    forall x
      ensures x in f <==>
        x in (if FEAST_FINALIZER in f then f0 + {FEAST_FINALIZER} else f0 - {FEAST_FINALIZER}) - {MODULE_FINALIZER}
    {
      assert x in core <==> x in f && x != MODULE_FINALIZER && x != FEAST_FINALIZER;
      assert x in core <==> x in f0 && x != MODULE_FINALIZER && x != FEAST_FINALIZER;
    }
  }

  lemma SuccessIsFinal(cfg: Cfg, w0: World, t: Sys)
    requires Inv(cfg, t) && Kept(cfg, w0, t) && t.pc == Rest(Succeeded)
    ensures
      var held := t.w.cm.Some? && FEAST_FINALIZER in t.w.cm.value.finalizers;
      Remains(t.w).cm == Final(cfg, Feasting(w0, held)).cm
  {
    FinalizersDiffer();
    if t.w.cm.Some? {
      var f, f0 := t.w.cm.value.finalizers, w0.cm.value.finalizers;
      IntentHashes(cfg, w0, t.w);
      assert f - {MODULE_FINALIZER, FEAST_FINALIZER} == f0 - {MODULE_FINALIZER, FEAST_FINALIZER};
      assert MODULE_FINALIZER !in f;
      SameFinalizers(f, f0);
    } else if w0.cm.Some? {
      var f0 := w0.cm.value.finalizers;
      assert f0 - {MODULE_FINALIZER, FEAST_FINALIZER} == {};
      assert f0 - {FEAST_FINALIZER} <= {MODULE_FINALIZER};
    }
  }

  lemma SuccessIsFinalBeside(cfg: Cfg, w0: World, t: Sys, held: bool)
    requires Inv(cfg, t) && Kept(cfg, w0, t) && t.pc == Rest(Succeeded)
    ensures
      var r, f := Remains(t.w), Final(cfg, Feasting(w0, held));
      && r.nsLabels == f.nsLabels && r.bindings == f.bindings && r.roles == f.roles
      && (Anchored(cfg, w0, w0) ==> r.podAnnotations == f.podAnnotations)
  {
    if t.w.cm.Some? { IntentHashes(cfg, w0, t.w); }
    assert Unlabelled(t.w.bindings) == t.w.bindings;
    assert Unlabelled(t.w.roles) == t.w.roles;
  }

  /** What the beginning prescribes, with the feast finalizer as the end has it. */
  function Prescribed(cfg: Cfg, w0: World, w: World): Residue {
    Final(cfg, Feasting(w0, w.cm.Some? && FEAST_FINALIZER in w.cm.value.finalizers))
  }

  /**
    However the attempts failed and were repeated, and whenever the feast operator claimed and released
    the ConfigMap in between, a run that ends successfully leaves what the cluster at its beginning
    prescribes: the ConfigMap, the namespace and the RBAC objects in any case, and the Deployment too
    when the beginning is anchored.
   */
  lemma FeastRunLeaves(cfg: Cfg, s: Sys, es: seq<Event>)
    requires Startable(s.w, s.pc) && HandshakeRun(es)
    requires Run(cfg, s, es).pc == Rest(Succeeded)
    ensures
      var r, f := Remains(Run(cfg, s, es).w), Prescribed(cfg, s.w, Run(cfg, s, es).w);
      && r.(podAnnotations := None) == f.(podAnnotations := None)
      && (Anchored(cfg, s.w, s.w) ==> r == f)
  {
    var t := Run(cfg, s, es);
    RunKeeps(cfg, s, es);
    SuccessIsFinal(cfg, s.w, t);
    SuccessIsFinalBeside(cfg, s.w, t, t.w.cm.Some? && FEAST_FINALIZER in t.w.cm.value.finalizers);
  }

  /** When the feast operator has released the ConfigMap and nobody else holds it, nothing of it is left. */
  lemma ReleasedMeansGone(cfg: Cfg, s: Sys, es: seq<Event>)
    requires Startable(s.w, s.pc) && HandshakeRun(es)
    requires s.w.cm.Some? ==> s.w.cm.value.finalizers <= {MODULE_FINALIZER, FEAST_FINALIZER}
    requires
      var t := Run(cfg, s, es);
      t.pc == Rest(Succeeded) && !(t.w.cm.Some? && FEAST_FINALIZER in t.w.cm.value.finalizers)
    ensures Run(cfg, s, es).w.cm == None
  {
    FeastRunLeaves(cfg, s, es);
  }

  // ----- exactly when -----

  /** Every successful run leaves what the beginning prescribes. */
  ghost predicate Converges(cfg: Cfg, s: Sys) {
    forall es :: HandshakeRun(es) && Run(cfg, s, es).pc == Rest(Succeeded) ==> Leaves(cfg, s, es)
  }

  ghost predicate Leaves(cfg: Cfg, s: Sys, es: seq<Event>) {
    Remains(Run(cfg, s, es).w) == Prescribed(cfg, s.w, Run(cfg, s, es).w)
  }

  /**
    Why the beginning must be anchored: a terminating ConfigMap that only the feast operator holds can
    vanish before the attempt, and then the Deployment is not rolled.
   */
  lemma UnanchoredMapsSkipTheRollout(cfg: Cfg, w: World)
    requires WellFormed(w) && !Anchored(cfg, w, w)
    ensures
      var t := Attempt(cfg, Apply(w, FeastReleases), Finalize);
      t.pc == Rest(Succeeded) && t.w.cm.None? && t.w.deploy.Some? && !HashIs(t.w, FinalHash(cfg, w))
      && Remains(t.w) != Prescribed(cfg, w, t.w)
  {
    var v := Apply(w, FeastReleases);
    assert w.cm.value.finalizers == {FEAST_FINALIZER};
    assert w.cm.value.finalizers - {FEAST_FINALIZER} == {};
    AttemptIsDecided(cfg, v);
    var t := Attempt(cfg, v, Finalize);
    assert Remains(t.w).podAnnotations == Some(w.deploy.value.podAnnotations) && Remains(t.w).cm == None;
  }

  /** The attempt after the release, as a run. */
  lemma ReleaseThenAttempt(cfg: Cfg, s: Sys) returns (es: seq<Event>)
    requires s.pc.Rest?
    ensures HandshakeRun(es) && Run(cfg, s, es) == Attempt(cfg, Apply(s.w, FeastReleases), Finalize)
  {
    var first, second := [Env(FeastReleases)], [Begin(Finalize)];
    RunSnoc(cfg, s, [], Env(FeastReleases));
    assert [] + first == first;
    RunSnoc(cfg, s, first, Begin(Finalize));
    var t := Sys(Apply(s.w, FeastReleases), Entry(cfg, Finalize));
    assert Run(cfg, s, first + second) == t;
    var rest := FinishIsARun(cfg, t);
    RunConcat(cfg, s, first + second, rest);
    es := first + second + rest;
  }

  /**
    Crash convergence with the feast operator: every successful run leaves what its beginning prescribes
    exactly when a terminating ConfigMap that at most the feast operator holds stands beside a Deployment
    that carries the final hash already, or there is none.
   */
  lemma FeastRunsConverge(cfg: Cfg, s: Sys)
    requires Startable(s.w, s.pc)
    ensures Converges(cfg, s) <==> Anchored(cfg, s.w, s.w)
  {
    if Anchored(cfg, s.w, s.w) {
      forall es | HandshakeRun(es) && Run(cfg, s, es).pc == Rest(Succeeded)
        ensures Leaves(cfg, s, es)
      {
        FeastRunLeaves(cfg, s, es);
      }
    } else {
      var es := ReleaseThenAttempt(cfg, s);
      UnanchoredMapsSkipTheRollout(cfg, s.w);
      assert !Leaves(cfg, s, es);
    }
  }
}
