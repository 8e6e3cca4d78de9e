/**
  Crash convergence.  When nobody else acts, the finalizer may be cut off anywhere, any number of
  times: what it leaves in the end depends only on what it found in the beginning.
*/
module Convergence {
  import opened Wrappers
  import opened Cluster
  import opened Protocol
  import opened Teardown

  /** What a cluster holds, up to versions, time, events, and the recorded start. */
  datatype Residue = Residue(
    cm: Option<CmResidue>, podAnnotations: Option<Table>, nsLabels: Option<Table>,
    bindings: map<string, Table>, roles: map<string, Table>)

  datatype CmResidue = CmResidue(
    terminating: bool, finalizers: set<string>, labels: Table, data: Table, controller: Controller)

  function Unlabelled(objects: map<string, Table>): map<string, Table> {
    map n | n in objects && !Labelled(objects[n]) :: objects[n]
  }

  function Rolled(annotations: Table, hash: string): Table {
    if Lookup(annotations, HASH_ANNOTATION) == hash then annotations else annotations[HASH_ANNOTATION := hash]
  }

  function WithoutEnabled(labels: Table): Table {
    if Lookup(labels, ENABLED_LABEL) == "true" then labels - {ENABLED_LABEL} else labels
  }

  function Remains(w: World): Residue {
    Residue(
      if w.cm.None? then None
      else var c := w.cm.value; Some(CmResidue(c.terminating, c.finalizers, c.labels, c.data, c.controller)),
      if w.deploy.None? then None else Some(w.deploy.value.podAnnotations),
      if w.ns.None? then None else Some(w.ns.value.labels),
      w.bindings, w.roles)
  }

  /**
    What a completed uninstall leaves of a cluster: no ConfigMap unless others hold it, then only
    they do and the flags are off; the Deployment rolled to that data; the enabled label gone; and
    exactly the RBAC objects without the component label.
   */
  function Final(cfg: Cfg, w: World): Residue {
    Residue(
      if w.cm.None? || w.cm.value.finalizers <= {MODULE_FINALIZER} then None
      else var c := w.cm.value;
        Some(CmResidue(true, c.finalizers - {MODULE_FINALIZER}, c.labels, DisabledData(c.data), c.controller)),
      if w.deploy.None? then None
      else if w.cm.None? then Some(w.deploy.value.podAnnotations)
      else Some(Rolled(w.deploy.value.podAnnotations, cfg.hash(DisabledData(w.cm.value.data)))),
      if w.ns.None? then None else Some(WithoutEnabled(w.ns.value.labels)),
      Unlabelled(w.bindings), Unlabelled(w.roles))
  }

  /** Only the module acts; time passes. */
  predicate Alone(e: Event) {
    Uninstalling(e) && (e.Env? ==> e.act.Tick?)
  }

  ghost predicate AloneRun(es: seq<Event>) {
    forall e :: e in es ==> Alone(e)
  }

  predicate NsDone(w: World) {
    w.ns.Some? ==> Lookup(w.ns.value.labels, ENABLED_LABEL) != "true"
  }

  predicate CmDone(w: World) {
    NsDone(w) && (w.cm.Some? ==> MODULE_FINALIZER !in w.cm.value.finalizers)
  }

  predicate OnlyIn(objects: map<string, Table>, todo: seq<string>) {
    forall n :: n in objects && Labelled(objects[n]) ==> n in todo
  }

  predicate AllLabelled(objects: map<string, Table>, todo: seq<string>) {
    forall n :: n in todo && n in objects ==> Labelled(objects[n])
  }

  /** How far the uninterrupted work has come. */
  predicate Progress(cfg: Cfg, s: Sys) {
    var w := s.w;
    match s.pc
    case Rest(outcome) => outcome == Succeeded ==> CmDone(w) && OnlyIn(w.bindings, []) && OnlyIn(w.roles, [])
    case UnlabelGet(_) => true
    case UnlabelPatch(_) => w.ns.Some? && Lookup(w.ns.value.labels, ENABLED_LABEL) == "true"
    case MarkClock(read) => NsDone(w) && w.cm == Some(read)
    case MarkUpdate(read, _) => NsDone(w) && w.cm == Some(read)
    case RollGetDeploy(_, _) => NsDone(w) && w.cm.Some?
    case RollPatch(_, hash) => NsDone(w) && w.cm.Some? && w.deploy.Some? && !HashIs(w, hash)
    case WaitClock(read) => NsDone(w) && w.cm == Some(read) && FEAST_FINALIZER in read.finalizers && read.start.At?
    case RelUpdate(read) => NsDone(w) && w.cm == Some(read)
    case BindingsList => CmDone(w)
    case BindingsDelete(todo) => todo != [] && CmDone(w) && OnlyIn(w.bindings, todo) && AllLabelled(w.bindings, todo)
    case RolesList => CmDone(w) && OnlyIn(w.bindings, [])
    case RolesDelete(todo) =>
      todo != [] && CmDone(w) && OnlyIn(w.bindings, []) && OnlyIn(w.roles, todo) && AllLabelled(w.roles, todo)
    case _ => NsDone(w)
  }

  lemma DeletingALabelledOne(objects: map<string, Table>, todo: seq<string>)
    requires todo != [] && AllLabelled(objects, todo)
    ensures Unlabelled(objects - {todo[0]}) == Unlabelled(objects)
    ensures AllLabelled(objects - {todo[0]}, todo[1..])
    ensures OnlyIn(objects, todo) ==> OnlyIn(objects - {todo[0]}, todo[1..])
  {
    assert todo == [todo[0]] + todo[1..];
  }

  lemma FlagsOffIsDisabled(data: Table)
    ensures FlagsOff(DisabledData(data))
    ensures FlagsOff(data) ==> DisabledData(data) == data
    ensures DisabledData(DisabledData(data)) == DisabledData(data)
  {
  }

  lemma DroppingTwice(finalizers: set<string>)
    ensures var f := finalizers - {MODULE_FINALIZER};
      f - {MODULE_FINALIZER} == f && (f == {} <==> finalizers <= {MODULE_FINALIZER})
    ensures MODULE_FINALIZER !in finalizers ==> finalizers - {MODULE_FINALIZER} == finalizers
  {
  }

  /** No call of the module changes what the uninstall will leave. */
  predicate Conserves(cfg: Cfg, s: Sys, t: Sys) {
    Progress(cfg, t) && Final(cfg, t.w) == Final(cfg, s.w)
  }

  lemma ListingConserves(cfg: Cfg, s: Sys)
    requires Inv(cfg, s) && Progress(cfg, s) && (s.pc.BindingsList? || s.pc.RolesList?)
    ensures Conserves(cfg, s, Advance(cfg, s))
  {
  }

  lemma DroppingConserves(cfg: Cfg, s: Sys)
    requires Inv(cfg, s) && Progress(cfg, s) && (s.pc.BindingsDelete? || s.pc.RolesDelete?)
    ensures Conserves(cfg, s, Advance(cfg, s))
  {
    DeletingALabelledOne(if s.pc.BindingsDelete? then s.w.bindings else s.w.roles, s.pc.todo);
  }

  lemma UnlabellingConserves(cfg: Cfg, s: Sys)
    requires Inv(cfg, s) && Progress(cfg, s) && (s.pc.UnlabelGet? || s.pc.UnlabelPatch?)
    ensures Conserves(cfg, s, Advance(cfg, s))
  {
  }

  lemma MarkingConserves(cfg: Cfg, s: Sys)
    requires Inv(cfg, s) && Progress(cfg, s) && (s.pc.MarkGet? || s.pc.MarkClock? || s.pc.MarkUpdate?)
    ensures Conserves(cfg, s, Advance(cfg, s))
  {
    if s.w.cm.Some? { FlagsOffIsDisabled(s.w.cm.value.data); }
  }

  lemma RollingConserves(cfg: Cfg, s: Sys)
    requires Inv(cfg, s) && Progress(cfg, s) && (s.pc.RollGetCm? || s.pc.RollGetDeploy? || s.pc.RollPatch?)
    ensures Conserves(cfg, s, Advance(cfg, s))
  {
    if s.w.cm.Some? { FlagsOffIsDisabled(s.w.cm.value.data); }
  }

  lemma DeletingConserves(cfg: Cfg, s: Sys)
    requires Inv(cfg, s) && Progress(cfg, s) && (s.pc.DelGet? || s.pc.DelCall?)
    ensures Conserves(cfg, s, Advance(cfg, s))
  {
    if s.w.cm.Some? { FlagsOffIsDisabled(s.w.cm.value.data); }
  }

  lemma WaitingConserves(cfg: Cfg, s: Sys)
    requires Inv(cfg, s) && Progress(cfg, s) && (s.pc.WaitGet? || s.pc.WaitClock? || s.pc.WaitWarn?)
    ensures Conserves(cfg, s, Advance(cfg, s))
  {
  }

  lemma ReleasingConserves(cfg: Cfg, s: Sys)
    requires Inv(cfg, s) && Progress(cfg, s) && (s.pc.RelGet? || s.pc.RelUpdate?)
    ensures Conserves(cfg, s, Advance(cfg, s))
  {
    if s.w.cm.Some? { DroppingTwice(s.w.cm.value.finalizers); }
    if s.w.cm.Some? { FlagsOffIsDisabled(s.w.cm.value.data); }
  }

  lemma AdvanceConserves(cfg: Cfg, s: Sys)
    requires Inv(cfg, s) && Progress(cfg, s)
    ensures Conserves(cfg, s, Advance(cfg, s))
  {
    match s.pc
    case Rest(_) =>
    case UnlabelGet(_) => UnlabellingConserves(cfg, s);
    case UnlabelPatch(_) => UnlabellingConserves(cfg, s);
    case MarkGet => MarkingConserves(cfg, s);
    case MarkClock(_) => MarkingConserves(cfg, s);
    case MarkUpdate(_, _) => MarkingConserves(cfg, s);
    case RollGetCm(_) => RollingConserves(cfg, s);
    case RollGetDeploy(_, _) => RollingConserves(cfg, s);
    case RollPatch(_, _) => RollingConserves(cfg, s);
    case RelGet => ReleasingConserves(cfg, s);
    case RelUpdate(_) => ReleasingConserves(cfg, s);
    case BindingsList => ListingConserves(cfg, s);
    case BindingsDelete(_) => DroppingConserves(cfg, s);
    case RolesList => ListingConserves(cfg, s);
    case RolesDelete(_) => DroppingConserves(cfg, s);
    case DelGet => DeletingConserves(cfg, s);
    case DelCall => DeletingConserves(cfg, s);
    case _ => WaitingConserves(cfg, s);
  }

  lemma StepConserves(cfg: Cfg, s: Sys, e: Event)
    requires Inv(cfg, s) && Progress(cfg, s) && Alone(e)
    ensures Conserves(cfg, s, Next(cfg, s, e))
  {
    if e.Done? || e.Lost? { AdvanceConserves(cfg, s); }
  }

  lemma {:induction false} RunConserves(cfg: Cfg, s: Sys, es: seq<Event>)
    requires Inv(cfg, s) && Progress(cfg, s) && AloneRun(es)
    ensures Conserves(cfg, s, Run(cfg, s, es)) && Inv(cfg, Run(cfg, s, es))
  {
    if es != [] {
      var n := |es| - 1;
      RunConserves(cfg, s, es[..n]);
      assert es[n] in es;
      StepConserves(cfg, Run(cfg, s, es[..n]), es[n]);
      StepKeepsInv(cfg, Run(cfg, s, es[..n]), es[n]);
    }
  }

  lemma SuccessLeavesFinal(cfg: Cfg, s: Sys)
    requires Inv(cfg, s) && Progress(cfg, s) && s.pc == Rest(Succeeded)
    ensures Remains(s.w) == Final(cfg, s.w)
  {
    if s.w.cm.Some? {
      FlagsOffIsDisabled(s.w.cm.value.data);
      DroppingTwice(s.w.cm.value.finalizers);
    }
    assert Unlabelled(s.w.bindings) == s.w.bindings;
    assert Unlabelled(s.w.roles) == s.w.roles;
  }

  /**
    Crash convergence: however the attempts failed, were cut off and were repeated, a run that ends
    successfully leaves exactly what the cluster found at its beginning prescribes.
   */
  lemma CrashesConverge(cfg: Cfg, s: Sys, es: seq<Event>)
    requires Startable(s.w, s.pc) && AloneRun(es)
    requires Run(cfg, s, es).pc == Rest(Succeeded)
    ensures Remains(Run(cfg, s, es).w) == Final(cfg, s.w)
  {
    RunConserves(cfg, s, es);
    SuccessLeavesFinal(cfg, Run(cfg, s, es));
  }

  // ----- an uninterrupted attempt -----

  function Phase(pc: Pc): nat {
    match pc
    case Rest(_) => 0
    case RolesDelete(_) => 1
    case RolesList => 2
    case BindingsDelete(_) => 3
    case BindingsList => 4
    case RelUpdate(_) => 5
    case RelGet => 6
    case WaitWarn => 7
    case WaitClock(_) => 8
    case WaitGet => 9
    case DelCall => 10
    case DelGet => 11
    case RollPatch(_, _) => 12
    case RollGetDeploy(_, _) => 13
    case RollGetCm(_) => 14
    case MarkUpdate(_, _) => 15
    case MarkClock(_) => 16
    case MarkGet => 17
    case CmUpdate(_, _) => 15
    case CmCreate(_) => 16
    case CmGet(_) => 17
    case UnlabelPatch(_) => 18
    case UnlabelGet(_) => 19
    case NsUpdate(_, _) => 18
    case NsCreate(_) => 19
    case NsGet(_) => 20
  }

  function Left(pc: Pc): nat {
    match pc
    case BindingsDelete(todo) => |todo|
    case RolesDelete(todo) => |todo|
    case _ => 0
  }

  lemma AdvanceDescends(cfg: Cfg, s: Sys)
    requires !s.pc.Rest?
    ensures
      var t := Advance(cfg, s).pc;
      Phase(t) < Phase(s.pc) || (Phase(t) == Phase(s.pc) && Left(t) < Left(s.pc))
  {
  }

  /** The flow runs to its end with every call served and nobody else acting. */
  function Finish(cfg: Cfg, s: Sys): (t: Sys)
    ensures t.pc.Rest?
    decreases Phase(s.pc), Left(s.pc)
  {
    if s.pc.Rest? then s
    else
      AdvanceDescends(cfg, s);
      Finish(cfg, Advance(cfg, s))
  }

  function Attempt(cfg: Cfg, w: World, job: Job): Sys {
    Finish(cfg, Sys(w, Entry(cfg, job)))
  }

  lemma {:induction false} FinishIsARun(cfg: Cfg, s: Sys) returns (es: seq<Event>)
    ensures Run(cfg, s, es) == Finish(cfg, s)
    ensures forall e :: e in es ==> e == Done
    decreases Phase(s.pc), Left(s.pc)
  {
    if s.pc.Rest? {
      es := [];
    } else {
      AdvanceDescends(cfg, s);
      var rest := FinishIsARun(cfg, Advance(cfg, s));
      es := [Done] + rest;
      RunConcat(cfg, s, [Done], rest);
      assert Run(cfg, s, [Done][..0]) == s;
    }
  }

  /** How an attempt on this cluster must end. */
  function Verdict(w: World): Outcome {
    if Free(w) then Succeeded
    else if w.cm.value.start.Garbage? then Failed(BadStart)
    else Failed(Waiting)
  }

  predicate OnCourse(cfg: Cfg, s: Sys, verdict: Outcome) {
    && Inv(cfg, s) && Progress(cfg, s) && Verdict(s.w) == verdict
    && (s.pc.Rest? ==> s.pc.outcome == verdict)
    && (s.pc.MarkUpdate? && s.pc.read.start == NoStamp ==> s.pc.stamp == Format(s.w.now))
  }

  lemma EarlyCallsKeepCourse(cfg: Cfg, s: Sys, verdict: Outcome)
    requires OnCourse(cfg, s, verdict)
    requires s.pc.UnlabelGet? || s.pc.UnlabelPatch? || s.pc.MarkGet? || s.pc.MarkClock? || s.pc.MarkUpdate?
    ensures var t := Advance(cfg, s); !t.pc.Rest? && Verdict(t.w) == verdict
    ensures var t := Advance(cfg, s); t.pc.MarkUpdate? && t.pc.read.start == NoStamp ==> t.pc.stamp == Format(t.w.now)
  {
  }

  lemma RollingKeepsCourse(cfg: Cfg, s: Sys, verdict: Outcome)
    requires OnCourse(cfg, s, verdict) && (s.pc.RollGetCm? || s.pc.RollGetDeploy? || s.pc.RollPatch?)
    ensures var t := Advance(cfg, s); !t.pc.Rest? && !t.pc.MarkUpdate? && Verdict(t.w) == verdict
  {
  }

  lemma WaitingKeepsCourse(cfg: Cfg, s: Sys, verdict: Outcome)
    requires OnCourse(cfg, s, verdict)
    requires s.pc.DelGet? || s.pc.DelCall? || s.pc.WaitGet? || s.pc.WaitClock? || s.pc.WaitWarn?
    ensures
      var t := Advance(cfg, s);
      (t.pc.Rest? ==> t.pc.outcome == verdict && HasIntent(t.w)) && !t.pc.MarkUpdate? && Verdict(t.w) == verdict
  {
  }

  lemma ReleasingKeepsCourse(cfg: Cfg, s: Sys, verdict: Outcome)
    requires OnCourse(cfg, s, verdict) && (s.pc.RelGet? || s.pc.RelUpdate?)
    ensures var t := Advance(cfg, s); !t.pc.Rest? && !t.pc.MarkUpdate? && verdict == Succeeded == Verdict(t.w)
  {
  }

  lemma RbacKeepsCourse(cfg: Cfg, s: Sys, verdict: Outcome)
    requires OnCourse(cfg, s, verdict)
    requires s.pc.BindingsList? || s.pc.BindingsDelete? || s.pc.RolesList? || s.pc.RolesDelete?
    ensures
      var t := Advance(cfg, s);
      (t.pc.Rest? ==> t.pc.outcome == Succeeded) && !t.pc.MarkUpdate? && verdict == Succeeded == Verdict(t.w)
  {
  }

  lemma CourseIsKept(cfg: Cfg, s: Sys, verdict: Outcome)
    requires OnCourse(cfg, s, verdict) && !s.pc.Rest?
    ensures OnCourse(cfg, Advance(cfg, s), verdict)
    ensures var t := Advance(cfg, s); t.pc.Rest? && !Free(t.w) ==> HasIntent(t.w)
  {
    match s.pc {
      case UnlabelGet(_) => EarlyCallsKeepCourse(cfg, s, verdict);
      case UnlabelPatch(_) => EarlyCallsKeepCourse(cfg, s, verdict);
      case MarkGet => EarlyCallsKeepCourse(cfg, s, verdict);
      case MarkClock(_) => EarlyCallsKeepCourse(cfg, s, verdict);
      case MarkUpdate(_, _) => EarlyCallsKeepCourse(cfg, s, verdict);
      case RollGetCm(_) => RollingKeepsCourse(cfg, s, verdict);
      case RollGetDeploy(_, _) => RollingKeepsCourse(cfg, s, verdict);
      case RollPatch(_, _) => RollingKeepsCourse(cfg, s, verdict);
      case DelGet => WaitingKeepsCourse(cfg, s, verdict);
      case DelCall => WaitingKeepsCourse(cfg, s, verdict);
      case WaitGet => WaitingKeepsCourse(cfg, s, verdict);
      case WaitClock(_) => WaitingKeepsCourse(cfg, s, verdict);
      case WaitWarn => WaitingKeepsCourse(cfg, s, verdict);
      case RelGet => ReleasingKeepsCourse(cfg, s, verdict);
      case RelUpdate(_) => ReleasingKeepsCourse(cfg, s, verdict);
      case _ => RbacKeepsCourse(cfg, s, verdict);
    }
    AdvanceKeepsInv(cfg, s);
    AdvanceConserves(cfg, s);
  }

  lemma {:induction false} FinishKeepsCourse(cfg: Cfg, s: Sys, verdict: Outcome)
    requires OnCourse(cfg, s, verdict)
    ensures OnCourse(cfg, Finish(cfg, s), verdict)
    ensures Final(cfg, Finish(cfg, s).w) == Final(cfg, s.w)
    decreases Phase(s.pc), Left(s.pc)
  {
    if !s.pc.Rest? {
      AdvanceDescends(cfg, s);
      CourseIsKept(cfg, s, verdict);
      AdvanceConserves(cfg, s);
      FinishKeepsCourse(cfg, Advance(cfg, s), verdict);
    }
  }

  /**
    An uninterrupted attempt succeeds exactly when the feast operator does not hold the ConfigMap or
    is overdue, reports otherwise whether it waits or cannot read the start, and leaves the final
    state when it succeeds.
   */
  lemma AttemptIsDecided(cfg: Cfg, w: World)
    requires WellFormed(w)
    ensures
      var t := Attempt(cfg, w, Finalize);
      && t.pc == Rest(Verdict(w))
      && Final(cfg, t.w) == Final(cfg, w)
      && (t.pc == Rest(Succeeded) ==> Remains(t.w) == Final(cfg, w))
  {
    var s := Sys(w, Entry(cfg, Finalize));
    FinishKeepsCourse(cfg, s, Verdict(w));
    var t := Finish(cfg, s);
    if t.pc == Rest(Succeeded) { SuccessLeavesFinal(cfg, t); }
  }

  /**
    The retry loop: after any interrupted attempts, one uninterrupted attempt on a cluster whose
    ConfigMap is free ends the uninstall in the state one uninterrupted run would have reached.
   */
  lemma RetryAfterCrashes(cfg: Cfg, s: Sys, es: seq<Event>)
    requires Startable(s.w, s.pc) && AloneRun(es) && Run(cfg, s, es).pc.Rest?
    requires Free(Run(cfg, s, es).w)
    ensures
      var t := Attempt(cfg, Run(cfg, s, es).w, Finalize);
      && t.pc == Rest(Succeeded) && Remains(t.w) == Final(cfg, s.w)
      && (Free(s.w) ==> Remains(t.w) == Remains(Attempt(cfg, s.w, Finalize).w))
  {
    RunConserves(cfg, s, es);
    AttemptIsDecided(cfg, Run(cfg, s, es).w);
    AttemptIsDecided(cfg, s.w);
  }

  /** How long an attempt would still have to wait. */
  function Remaining(w: World): int {
    if Free(w) || !w.cm.value.start.At? then 0
    else w.cm.value.start.instant + RELEASE_TIMEOUT - w.now
  }

  /** Waiting for a while shortens the remaining wait by that while, and a blocked attempt has some left. */
  lemma WaitingShortensTheWait(cfg: Cfg, w: World, elapsed: nat)
    requires WellFormed(w) && !(w.cm.Some? && w.cm.value.start.Garbage?)
    ensures
      var t := Attempt(cfg, w, Finalize);
      var later := Apply(t.w, Tick(elapsed));
      && (t.pc == Rest(Succeeded) <==> Remaining(t.w) == 0)
      && Remaining(later) == if elapsed >= Remaining(t.w) then 0 else Remaining(t.w) - elapsed
  {
    FinishKeepsCourse(cfg, Sys(w, Entry(cfg, Finalize)), Verdict(w));
    AttemptLeavesAStart(cfg, w);
  }

  lemma AttemptLeavesAStart(cfg: Cfg, w: World)
    requires WellFormed(w)
    ensures
      var t := Attempt(cfg, w, Finalize);
      !Free(t.w) && Verdict(t.w) == Failed(Waiting) ==> t.w.cm.value.start.At?
  {
    BlockedHasStart(cfg, Sys(w, Entry(cfg, Finalize)), Verdict(w));
  }

  lemma {:induction false} BlockedHasStart(cfg: Cfg, s: Sys, verdict: Outcome)
    requires OnCourse(cfg, s, verdict) && (s.pc.Rest? && !Free(s.w) ==> HasIntent(s.w))
    ensures !Free(Finish(cfg, s).w) ==> HasIntent(Finish(cfg, s).w)
    decreases Phase(s.pc), Left(s.pc)
  {
    if !s.pc.Rest? {
      AdvanceDescends(cfg, s);
      CourseIsKept(cfg, s, verdict);
      BlockedHasStart(cfg, Advance(cfg, s), verdict);
    }
  }
}
