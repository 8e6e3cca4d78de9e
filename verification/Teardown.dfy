/**
  What holds in every run of the finalizer, however often it fails, crashes and is retried, and
  whatever the others do meanwhile, as long as they leave the hand-over data alone.
*/
module Teardown {
  import opened Cluster
  import opened Protocol

  /**
    The rely.  While the FeastOperator is being deleted nobody else creates the ConfigMap or the
    Deployment, rewrites the flags or the start annotation, or changes the hash annotation.
    Everything else is allowed: deletions, finalizers, labels, RBAC objects, namespaces, time.
   */
  predicate Polite(a: Act) {
    !a.CreateCmByHand? && !a.RewriteCm? && !a.RehashDeploy? && !a.CreateDeploy?
  }

  predicate Uninstalling(e: Event) {
    && (e.Env? ==> Polite(e.act))
    && (e.Begin? ==> e.job.Finalize?)
  }

  ghost predicate UninstallRun(es: seq<Event>) {
    forall e :: e in es ==> Uninstalling(e)
  }

  predicate ByModule(e: Event) {
    e.Done? || e.Lost?
  }

  // ----- the facts the flow establishes one after the other -----

  /** What the API server guarantees: no version from the future, no marked object without finalizers. */
  predicate WellFormed(w: World) {
    w.cm.Some? ==> w.cm.value.version <= w.rev && (w.cm.value.terminating ==> w.cm.value.finalizers != {})
  }

  /** A snapshot is current or its version is outdated. */
  predicate Saw(w: World, read: ConfigMap) {
    && read.version <= w.rev
    && (w.cm.Some? && w.cm.value.version == read.version ==> w.cm.value == read)
  }

  predicate IntentWritten(cm: ConfigMap) {
    FlagsOff(cm.data) && cm.start != NoStamp
  }

  predicate HasIntent(w: World) {
    w.cm.Some? ==> IntentWritten(w.cm.value)
  }

  predicate HashIs(w: World, hash: string) {
    w.deploy.Some? ==> Lookup(w.deploy.value.podAnnotations, HASH_ANNOTATION) == hash
  }

  /** Both flags are off, a start is recorded, and the Deployment carries the hash of that data. */
  predicate HandedOver(cfg: Cfg, w: World) {
    HasIntent(w) && (w.cm.Some? ==> HashIs(w, cfg.hash(w.cm.value.data)))
  }

  /** The ConfigMap is gone or on its way out. */
  predicate Going(w: World) {
    w.cm.Some? ==> w.cm.value.terminating
  }

  predicate TimedOut(w: World, start: Stamp) {
    start.At? && w.now - start.instant >= RELEASE_TIMEOUT
  }

  /** The feast operator no longer holds the ConfigMap, or its time is up. */
  predicate Free(w: World) {
    || w.cm.None?
    || FEAST_FINALIZER !in w.cm.value.finalizers
    || TimedOut(w, w.cm.value.start)
  }

  predicate MayLetGo(cfg: Cfg, w: World) {
    HandedOver(cfg, w) && Going(w) && Free(w)
  }

  predicate HashFits(cfg: Cfg, w: World, hash: string) {
    w.cm.Some? ==> hash == cfg.hash(w.cm.value.data)
  }

  predicate Inv(cfg: Cfg, s: Sys) {
    var w := s.w;
    && WellFormed(w)
    && match s.pc
       case Rest(outcome) => outcome == Succeeded ==> MayLetGo(cfg, w)
       case UnlabelGet(flow) => flow.Teardown?
       case UnlabelPatch(flow) => flow.Teardown?
       case MarkGet => true
       case MarkClock(read) => Saw(w, read) && read.start == NoStamp
       case MarkUpdate(read, stamp) =>
         Saw(w, read) && !IntentWritten(read) && stamp != NoStamp && (read.start != NoStamp ==> stamp == read.start)
       case RollGetCm(flow) => flow.Teardown? && HasIntent(w)
       case RollGetDeploy(flow, hash) => flow.Teardown? && HasIntent(w) && HashFits(cfg, w, hash)
       case RollPatch(flow, hash) => flow.Teardown? && HasIntent(w) && HashFits(cfg, w, hash)
       case DelGet => HandedOver(cfg, w)
       case DelCall => HandedOver(cfg, w)
       case WaitGet => HandedOver(cfg, w) && Going(w)
       case WaitClock(read) =>
         HandedOver(cfg, w) && Going(w) && read.start.At? && (w.cm.Some? ==> w.cm.value.start == read.start)
       case WaitWarn => MayLetGo(cfg, w)
       case RelGet => MayLetGo(cfg, w)
       case RelUpdate(read) => MayLetGo(cfg, w) && Saw(w, read)
       case BindingsList => MayLetGo(cfg, w)
       case BindingsDelete(_) => MayLetGo(cfg, w)
       case RolesList => MayLetGo(cfg, w)
       case RolesDelete(_) => MayLetGo(cfg, w)
       case _ => false
  }

  // ----- the invariant is kept -----

  /** How a polite act may change what the hand-over depends on. */
  predicate PoliteChange(w: World, v: World) {
    && WellFormed(v) && v.rev >= w.rev && v.now >= w.now
    && (v.cm.Some? ==>
          && w.cm.Some?
          && v.cm.value.data == w.cm.value.data && v.cm.value.start == w.cm.value.start
          && (w.cm.value.terminating ==> v.cm.value.terminating && v.cm.value.finalizers <= w.cm.value.finalizers)
          && (v.cm.value == w.cm.value || v.cm.value.version > w.rev))
    && (v.deploy.Some? ==>
          && w.deploy.Some?
          && Lookup(v.deploy.value.podAnnotations, HASH_ANNOTATION)
             == Lookup(w.deploy.value.podAnnotations, HASH_ANNOTATION))
  }

  lemma PoliteActs(w: World, a: Act)
    requires WellFormed(w) && Polite(a)
    ensures PoliteChange(w, Apply(w, a))
  {
  }

  lemma PoliteChangeKeepsInv(cfg: Cfg, s: Sys, v: World)
    requires Inv(cfg, s) && PoliteChange(s.w, v)
    ensures Inv(cfg, s.(w := v))
  {
  }

  lemma MarkingKeepsInv(cfg: Cfg, s: Sys)
    requires Inv(cfg, s) && (s.pc.MarkGet? || s.pc.MarkClock? || s.pc.MarkUpdate?)
    ensures Inv(cfg, Advance(cfg, s))
  {
  }

  lemma RollingKeepsInv(cfg: Cfg, s: Sys)
    requires Inv(cfg, s) && (s.pc.RollGetCm? || s.pc.RollGetDeploy? || s.pc.RollPatch?)
    ensures Inv(cfg, Advance(cfg, s))
  {
  }

  lemma DeletingKeepsInv(cfg: Cfg, s: Sys)
    requires Inv(cfg, s) && (s.pc.DelGet? || s.pc.DelCall? || s.pc.WaitGet? || s.pc.WaitClock? || s.pc.WaitWarn?)
    ensures Inv(cfg, Advance(cfg, s))
  {
  }

  lemma ReleasingKeepsInv(cfg: Cfg, s: Sys)
    requires Inv(cfg, s) && (s.pc.RelGet? || s.pc.RelUpdate?)
    ensures Inv(cfg, Advance(cfg, s))
  {
  }

  lemma UnlabellingKeepsInv(cfg: Cfg, s: Sys)
    requires Inv(cfg, s) && (s.pc.UnlabelGet? || s.pc.UnlabelPatch?)
    ensures Inv(cfg, Advance(cfg, s))
  {
  }

  lemma RbacKeepsInv(cfg: Cfg, s: Sys)
    requires Inv(cfg, s) && (s.pc.BindingsList? || s.pc.BindingsDelete? || s.pc.RolesList? || s.pc.RolesDelete?)
    ensures Inv(cfg, Advance(cfg, s))
  {
  }

  lemma AdvanceKeepsInv(cfg: Cfg, s: Sys)
    requires Inv(cfg, s)
    ensures Inv(cfg, Advance(cfg, s))
  {
    match s.pc
    case Rest(_) =>
    case MarkGet => MarkingKeepsInv(cfg, s);
    case MarkClock(_) => MarkingKeepsInv(cfg, s);
    case MarkUpdate(_, _) => MarkingKeepsInv(cfg, s);
    case RollGetCm(_) => RollingKeepsInv(cfg, s);
    case RollGetDeploy(_, _) => RollingKeepsInv(cfg, s);
    case RollPatch(_, _) => RollingKeepsInv(cfg, s);
    case DelGet => DeletingKeepsInv(cfg, s);
    case DelCall => DeletingKeepsInv(cfg, s);
    case WaitGet => DeletingKeepsInv(cfg, s);
    case WaitClock(_) => DeletingKeepsInv(cfg, s);
    case WaitWarn => DeletingKeepsInv(cfg, s);
    case RelGet => ReleasingKeepsInv(cfg, s);
    case RelUpdate(_) => ReleasingKeepsInv(cfg, s);
    case UnlabelGet(_) => UnlabellingKeepsInv(cfg, s);
    case UnlabelPatch(_) => UnlabellingKeepsInv(cfg, s);
    case _ => RbacKeepsInv(cfg, s);
  }

  lemma StepKeepsInv(cfg: Cfg, s: Sys, e: Event)
    requires Inv(cfg, s) && Uninstalling(e)
    ensures Inv(cfg, Next(cfg, s, e))
  {
    match e
    case Env(a) => PoliteActs(s.w, a); PoliteChangeKeepsInv(cfg, s, Apply(s.w, a));
    case _ => AdvanceKeepsInv(cfg, s);
  }

  predicate Startable(w: World, pc: Pc) {
    WellFormed(w) && pc.Rest? && pc.outcome != Succeeded
  }

  lemma {:induction false} RunKeepsInv(cfg: Cfg, s: Sys, es: seq<Event>)
    requires Inv(cfg, s) && UninstallRun(es)
    ensures Inv(cfg, Run(cfg, s, es))
  {
    if es != [] {
      var n := |es| - 1;
      RunKeepsInv(cfg, s, es[..n]);
      assert es[n] in es;
      StepKeepsInv(cfg, Run(cfg, s, es[..n]), es[n]);
    }
  }

  // ----- nothing is let go too early -----

  /** The module finalizer goes, or a ClusterRole or ClusterRoleBinding does. */
  predicate LetsGo(w: World, v: World) {
    || w.bindings != v.bindings
    || w.roles != v.roles
    || (w.cm.Some? && MODULE_FINALIZER in w.cm.value.finalizers
        && (v.cm.Some? ==> MODULE_FINALIZER !in v.cm.value.finalizers))
  }

  /** The only finalizer that disappears, if any, is the module's own. */
  predicate OnlyOwnFinalizer(w: World, v: World) {
    w.cm.Some? ==>
      if v.cm.Some? then w.cm.value.finalizers - v.cm.value.finalizers <= {MODULE_FINALIZER}
      else w.cm.value.finalizers <= {MODULE_FINALIZER}
  }

  lemma SafeStep(cfg: Cfg, s: Sys)
    requires Inv(cfg, s)
    ensures OnlyOwnFinalizer(s.w, Advance(cfg, s).w)
    ensures LetsGo(s.w, Advance(cfg, s).w) ==> MayLetGo(cfg, s.w)
  {
  }

  /**
    In every run of the uninstall, from any cluster state, each step of the module leaves every
    finalizer but its own, and removes its own finalizer or an RBAC object only when the ConfigMap
    is gone or terminating with the intent written, and gone, released or overdue.
   */
  lemma {:induction false} UninstallIsSafe(cfg: Cfg, s: Sys, es: seq<Event>, e: Event)
    requires Startable(s.w, s.pc) && UninstallRun(es) && ByModule(e)
    ensures
      var t := Run(cfg, s, es);
      var u := Next(cfg, t, e);
      && OnlyOwnFinalizer(t.w, u.w)
      && (LetsGo(t.w, u.w) ==> Free(t.w) && Going(t.w) && HandedOver(cfg, t.w))
  {
    RunKeepsInv(cfg, s, es);
    SafeStep(cfg, Run(cfg, s, es));
  }

  // ----- intent before delete, and ever after -----

  lemma HandOverStaysInCalls(cfg: Cfg, s: Sys)
    requires Inv(cfg, s) && HandedOver(cfg, s.w)
    ensures HandedOver(cfg, Advance(cfg, s).w)
  {
  }

  lemma HandOverStays(cfg: Cfg, s: Sys, e: Event)
    requires Inv(cfg, s) && Uninstalling(e) && HandedOver(cfg, s.w)
    ensures HandedOver(cfg, Next(cfg, s, e).w)
  {
    match e
    case Env(a) => PoliteActs(s.w, a);
    case _ => HandOverStaysInCalls(cfg, s);
  }

  lemma {:induction false} HandOverStaysInRuns(cfg: Cfg, s: Sys, es: seq<Event>)
    requires Inv(cfg, s) && UninstallRun(es) && HandedOver(cfg, s.w)
    ensures HandedOver(cfg, Run(cfg, s, es).w)
  {
    if es != [] {
      var n := |es| - 1;
      HandOverStaysInRuns(cfg, s, es[..n]);
      RunKeepsInv(cfg, s, es[..n]);
      assert es[n] in es;
      HandOverStays(cfg, Run(cfg, s, es[..n]), es[n]);
    }
  }

  /**
    Whenever the module is about to issue the ConfigMap delete, both flags are off, a start time is
    recorded and the Deployment carries the hash of that data; and this is so ever after, through
    every later failure and retry.
   */
  lemma IntentBeforeDelete(cfg: Cfg, s: Sys, es: seq<Event>, later: seq<Event>)
    requires Startable(s.w, s.pc) && UninstallRun(es) && UninstallRun(later)
    requires Run(cfg, s, es).pc.DelCall?
    ensures HandedOver(cfg, Run(cfg, s, es).w)
    ensures HandedOver(cfg, Run(cfg, s, es + later).w)
  {
    RunKeepsInv(cfg, s, es);
    HandOverStaysInRuns(cfg, Run(cfg, s, es), later);
    RunConcat(cfg, s, es, later);
  }

  // ----- the start time is written once -----

  /** The recorded start is this one, and a waiting flow has read this one. */
  predicate Stamped(s: Sys, start: Stamp) {
    && (s.w.cm.Some? ==> s.w.cm.value.start == start)
    && (s.pc.WaitClock? ==> s.pc.read.start == start)
  }

  lemma StampStaysInActs(cfg: Cfg, s: Sys, a: Act, start: Stamp)
    requires Inv(cfg, s) && Polite(a) && Stamped(s, start)
    ensures Stamped(s.(w := Apply(s.w, a)), start)
  {
    PoliteActs(s.w, a);
  }

  lemma StampStaysInEarlyCalls(cfg: Cfg, s: Sys, start: Stamp)
    requires Inv(cfg, s) && Stamped(s, start) && start != NoStamp
    requires s.pc.UnlabelGet? || s.pc.UnlabelPatch? || s.pc.MarkGet? || s.pc.MarkClock? || s.pc.MarkUpdate?
    ensures Stamped(Advance(cfg, s), start)
  {
  }

  lemma StampStaysInMiddleCalls(cfg: Cfg, s: Sys, start: Stamp)
    requires Inv(cfg, s) && Stamped(s, start)
    requires s.pc.RollGetCm? || s.pc.RollGetDeploy? || s.pc.RollPatch? || s.pc.DelGet? || s.pc.DelCall?
    ensures Stamped(Advance(cfg, s), start)
  {
  }

  lemma StampStaysInWait(cfg: Cfg, s: Sys, start: Stamp)
    requires Inv(cfg, s) && Stamped(s, start) && (s.pc.WaitGet? || s.pc.WaitClock? || s.pc.WaitWarn?)
    ensures Stamped(Advance(cfg, s), start)
  {
  }

  lemma StampStaysInRelease(cfg: Cfg, s: Sys, start: Stamp)
    requires Inv(cfg, s) && Stamped(s, start) && (s.pc.RelGet? || s.pc.RelUpdate?)
    ensures Stamped(Advance(cfg, s), start)
  {
  }

  lemma StampStaysInRbac(cfg: Cfg, s: Sys, start: Stamp)
    requires Stamped(s, start) && (s.pc.BindingsList? || s.pc.BindingsDelete? || s.pc.RolesList? || s.pc.RolesDelete?)
    ensures Stamped(Advance(cfg, s), start)
  {
  }

  lemma StampStaysInCalls(cfg: Cfg, s: Sys, start: Stamp)
    requires Inv(cfg, s) && !s.pc.Rest? && Stamped(s, start) && start != NoStamp
    ensures Stamped(Advance(cfg, s), start)
  {
    match s.pc
    case UnlabelGet(_) => StampStaysInEarlyCalls(cfg, s, start);
    case UnlabelPatch(_) => StampStaysInEarlyCalls(cfg, s, start);
    case MarkGet => StampStaysInEarlyCalls(cfg, s, start);
    case MarkClock(_) => StampStaysInEarlyCalls(cfg, s, start);
    case MarkUpdate(_, _) => StampStaysInEarlyCalls(cfg, s, start);
    case RollGetCm(_) => StampStaysInMiddleCalls(cfg, s, start);
    case RollGetDeploy(_, _) => StampStaysInMiddleCalls(cfg, s, start);
    case RollPatch(_, _) => StampStaysInMiddleCalls(cfg, s, start);
    case DelGet => StampStaysInMiddleCalls(cfg, s, start);
    case DelCall => StampStaysInMiddleCalls(cfg, s, start);
    case WaitGet => StampStaysInWait(cfg, s, start);
    case WaitClock(_) => StampStaysInWait(cfg, s, start);
    case WaitWarn => StampStaysInWait(cfg, s, start);
    case RelGet => StampStaysInRelease(cfg, s, start);
    case RelUpdate(_) => StampStaysInRelease(cfg, s, start);
    case _ => StampStaysInRbac(cfg, s, start);
  }

  lemma StampStays(cfg: Cfg, s: Sys, e: Event, start: Stamp)
    requires Inv(cfg, s) && Uninstalling(e) && Stamped(s, start) && start != NoStamp
    ensures Stamped(Next(cfg, s, e), start)
  {
    match e
    case Env(a) => StampStaysInActs(cfg, s, a, start);
    case Begin(_) =>
    case Refused =>
    case _ => if !s.pc.Rest? { StampStaysInCalls(cfg, s, start); }
  }

  /** Once a start is recorded, whoever recorded it and whether or not it is valid, no run changes it. */
  lemma {:induction false} StartIsWrittenOnce(cfg: Cfg, s: Sys, es: seq<Event>, start: Stamp)
    requires Inv(cfg, s) && UninstallRun(es) && Stamped(s, start) && start != NoStamp
    ensures Stamped(Run(cfg, s, es), start)
  {
    if es != [] {
      var n := |es| - 1;
      StartIsWrittenOnce(cfg, s, es[..n], start);
      RunKeepsInv(cfg, s, es[..n]);
      assert es[n] in es;
      StampStays(cfg, Run(cfg, s, es[..n]), es[n], start);
    }
  }

  // ----- the wait is bounded from both sides -----

  predicate HeldByFeast(w: World) {
    w.cm.Some? && FEAST_FINALIZER in w.cm.value.finalizers
  }

  /** A served call that makes the flow give up waiting for the feast operator. */
  predicate Blocks(cfg: Cfg, s: Sys, why: Why) {
    !s.pc.Rest? && Advance(cfg, s).pc == Rest(Failed(why))
  }

  /**
    What the wait decides when nobody else acts meanwhile: it lets the flow pass exactly when the
    feast operator is out of the way or overdue, and otherwise reports why not.  A start that is not
    a time blocks as long as the finalizer is held.
   */
  lemma WaitPassesIffFree(cfg: Cfg, s: Sys)
    requires Inv(cfg, s) && s.pc.WaitGet?
    ensures
      var t := Advance(cfg, s);
      var u := if t.pc.WaitClock? then Advance(cfg, t) else t;
      && (u.pc == RelGet || u.pc == WaitWarn <==> Free(s.w))
      && (!Free(s.w) ==> u.pc == Rest(Failed(if s.w.cm.value.start.At? then Waiting else BadStart)))
  {
  }

  lemma BlocksInTime(cfg: Cfg, s: Sys, instant: int)
    requires Inv(cfg, s) && Stamped(s, At(instant))
    ensures !Blocks(cfg, s, NotTerminating) && !Blocks(cfg, s, BadStart)
    ensures Blocks(cfg, s, Waiting) ==> s.w.now < instant + RELEASE_TIMEOUT
  {
  }

  /** With a valid start, a flow blocks only while fewer than 300 s have passed since that start. */
  lemma BlocksOnlyInTime(cfg: Cfg, s: Sys, es: seq<Event>, instant: int)
    requires Inv(cfg, s) && UninstallRun(es) && Stamped(s, At(instant))
    ensures
      var t := Run(cfg, s, es);
      && !Blocks(cfg, t, NotTerminating)
      && !Blocks(cfg, t, BadStart)
      && (Blocks(cfg, t, Waiting) ==> t.w.now < instant + RELEASE_TIMEOUT)
  {
    StartIsWrittenOnce(cfg, s, es, At(instant));
    RunKeepsInv(cfg, s, es);
    BlocksInTime(cfg, Run(cfg, s, es), instant);
  }

  /** While the feast finalizer is held nothing is let go before 300 s have passed since the start. */
  lemma LetsGoOnlyOverdue(cfg: Cfg, s: Sys, es: seq<Event>, instant: int, e: Event)
    requires Inv(cfg, s) && UninstallRun(es) && Stamped(s, At(instant)) && ByModule(e)
    ensures
      var t := Run(cfg, s, es);
      LetsGo(t.w, Next(cfg, t, e).w) && HeldByFeast(t.w) ==> t.w.now >= instant + RELEASE_TIMEOUT
  {
    StartIsWrittenOnce(cfg, s, es, At(instant));
    RunKeepsInv(cfg, s, es);
    SafeStep(cfg, Run(cfg, s, es));
  }

  /**
    A start that is not a time is never replaced, so nothing is let go while the feast finalizer is
    held, however late.
   */
  lemma InvalidStartNeverTimesOut(cfg: Cfg, s: Sys, es: seq<Event>, text: string, e: Event)
    requires Inv(cfg, s) && UninstallRun(es) && Stamped(s, Garbage(text)) && ByModule(e)
    ensures
      var t := Run(cfg, s, es);
      LetsGo(t.w, Next(cfg, t, e).w) ==> !HeldByFeast(t.w)
  {
    StartIsWrittenOnce(cfg, s, es, Garbage(text));
    RunKeepsInv(cfg, s, es);
    SafeStep(cfg, Run(cfg, s, es));
  }

  /**
    A call that changes the recorded start is the marking flow's, which found none and has both flags
    off in the same write.
   */
  lemma StampIsWrittenByMarking(cfg: Cfg, s: Sys)
    requires Inv(cfg, s)
    requires var t := Advance(cfg, s); s.w.cm.Some? && t.w.cm.Some? && t.w.cm.value.start != s.w.cm.value.start
    ensures s.w.cm.value.start == NoStamp && s.pc.MarkUpdate?
    ensures Stamped(Advance(cfg, s), s.pc.stamp) && FlagsOff(Advance(cfg, s).w.cm.value.data)
  {
  }
}
