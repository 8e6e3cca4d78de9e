/**
  The module's reconcile and finalizer flows as a step machine.  Between two API calls the only
  thing that changes is the program counter, which remembers what the flow has read; everybody
  else may act between any two calls, any call may fail with or without taking effect, and a
  failed flow is started again from the top.
*/
module Protocol {
  import opened Wrappers
  import opened Cluster

  datatype ManagementState = Managed | Removed

  datatype Capabilities = Capabilities(featureStore: ManagementState, dataRegistry: ManagementState)

  /** The process configuration, and `capabilitiesDataHash` as a function of the ConfigMap data. */
  datatype Cfg = Cfg(hash: Table -> string, featureStoreDefault: bool, dataRegistryDefault: bool, recorder: bool)

  function ResolveCapabilities(cfg: Cfg, spec: Option<Capabilities>): (bool, bool) {
    match spec
    case Some(c) => (c.featureStore == Managed, c.dataRegistry == Managed)
    case None => (cfg.featureStoreDefault, cfg.dataRegistryDefault)
  }

  function BoolString(b: bool): string {
    if b then "true" else "false"
  }

  function ResolvedData(fs: bool, dr: bool): Table {
    var data := map[KEY_FEATURE_STORE := BoolString(fs), KEY_DATA_REGISTRY := BoolString(dr)];
    if dr then data[KEY_NAMESPACE := DATA_REGISTRY_NAMESPACE] else data
  }

  datatype Job = Reconcile(spec: Option<Capabilities>) | Finalize

  datatype Flow = Live(fs: bool, dr: bool) | Teardown

  datatype Why = ApiError | ForeignController | NotTerminating | BadStart | Waiting

  datatype Outcome = Fresh | Succeeded | Failed(why: Why)

  datatype Pc =
    | Rest(outcome: Outcome)
    | NsGet(flow: Flow) | NsCreate(flow: Flow) | NsUpdate(flow: Flow, nsRead: Namespace)
    | UnlabelGet(flow: Flow) | UnlabelPatch(flow: Flow)
    | CmGet(flow: Flow) | CmCreate(flow: Flow) | CmUpdate(flow: Flow, read: ConfigMap)
    | RollGetCm(flow: Flow) | RollGetDeploy(flow: Flow, hash: string) | RollPatch(flow: Flow, hash: string)
    | MarkGet | MarkClock(read: ConfigMap) | MarkUpdate(read: ConfigMap, stamp: Stamp)
    | DelGet | DelCall
    | WaitGet | WaitClock(read: ConfigMap) | WaitWarn
    | RelGet | RelUpdate(read: ConfigMap)
    | BindingsList | BindingsDelete(todo: seq<string>)
    | RolesList | RolesDelete(todo: seq<string>)

  datatype Sys = Sys(w: World, pc: Pc)

  predicate FlagsOff(data: Table) {
    Lookup(data, KEY_FEATURE_STORE) == "false" && Lookup(data, KEY_DATA_REGISTRY) == "false"
  }

  function DisabledData(data: Table): Table {
    data[KEY_FEATURE_STORE := "false"][KEY_DATA_REGISTRY := "false"]
  }

  /** The object `markCapabilitiesDisabled` writes back. */
  function Marked(cm: ConfigMap, stamp: Stamp): ConfigMap {
    cm.(data := DisabledData(cm.data), start := stamp)
  }

  function Released(cm: ConfigMap): ConfigMap {
    cm.(finalizers := cm.finalizers - {MODULE_FINALIZER})
  }

  /** The object the mutate function of a normal reconcile leaves. */
  function Desired(flow: Flow, cm: ConfigMap): ConfigMap
    requires flow.Live?
  {
    if cm.terminating then Released(cm)
    else cm.(labels := cm.labels[COMPONENT_LABEL := "true"], finalizers := cm.finalizers + {MODULE_FINALIZER},
             data := ResolvedData(flow.fs, flow.dr), controller := Feast)
  }

  function MadeCm(flow: Flow): ConfigMap
    requires flow.Live?
  {
    ConfigMap(0, 0, false, {MODULE_FINALIZER}, map[COMPONENT_LABEL := "true"],
              ResolvedData(flow.fs, flow.dr), NoStamp, Feast)
  }

  /** The API call the flow issues next. */
  function Pending(pc: Pc): Call
    requires !pc.Rest?
  {
    match pc
    case NsGet(_) => GetNs
    case NsCreate(_) => CreateNs(map[ENABLED_LABEL := "true"])
    case NsUpdate(_, ns) => UpdateNs(ns, ns.labels[ENABLED_LABEL := "true"])
    case UnlabelGet(_) => GetNs
    case UnlabelPatch(_) => UnlabelNs
    case CmGet(_) => GetCm
    case CmCreate(flow) => if flow.Live? then CreateCm(MadeCm(flow)) else GetCm
    case CmUpdate(flow, read) => if flow.Live? then UpdateCm(read, Desired(flow, read)) else GetCm
    case RollGetCm(_) => GetCm
    case RollGetDeploy(_, _) => GetDeploy
    case RollPatch(_, hash) => PatchDeploy(hash)
    case MarkGet => GetCm
    case MarkClock(_) => Now
    case MarkUpdate(read, stamp) => UpdateCm(read, Marked(read, stamp))
    case DelGet => GetCm
    case DelCall => DeleteCm
    case WaitGet => GetCm
    case WaitClock(_) => Now
    case WaitWarn => Warn
    case RelGet => GetCm
    case RelUpdate(read) => UpdateCm(read, Released(read))
    case BindingsList => ListBindings
    case BindingsDelete(todo) => if todo == [] then ListBindings else DeleteBinding(todo[0])
    case RolesList => ListRoles
    case RolesDelete(todo) => if todo == [] then ListRoles else DeleteRole(todo[0])
  }

  const GIVE_UP := Rest(Failed(ApiError))

  function AfterNs(flow: Flow): Pc {
    if flow.Live? then CmGet(flow) else MarkGet
  }

  function AfterRoll(flow: Flow): Pc {
    if flow.Live? then Rest(Succeeded) else DelGet
  }

  function NextBinding(todo: seq<string>): Pc {
    if todo == [] then RolesList else BindingsDelete(todo)
  }

  function NextRole(todo: seq<string>): Pc {
    if todo == [] then Rest(Succeeded) else RolesDelete(todo)
  }

  /** Where the flow stands once the reply to its pending call is in. */
  function Resume(cfg: Cfg, pc: Pc, reply: Reply): Pc {
    match (pc, reply)
    case (NsGet(flow), GotNs(ns)) =>
      if ns.labels[ENABLED_LABEL := "true"] == ns.labels then AfterNs(flow) else NsUpdate(flow, ns)
    case (NsGet(flow), NotFound) => NsCreate(flow)
    case (NsCreate(flow), Ok) => AfterNs(flow)
    case (NsUpdate(flow, _), Ok) => AfterNs(flow)
    case (UnlabelGet(flow), GotNs(ns)) =>
      if Lookup(ns.labels, ENABLED_LABEL) != "true" then AfterNs(flow) else UnlabelPatch(flow)
    case (UnlabelGet(flow), NotFound) => AfterNs(flow)
    case (UnlabelPatch(flow), Ok) => AfterNs(flow)
    case (CmGet(flow), GotCm(cm)) =>
      if flow.Teardown? then GIVE_UP
      else if !cm.terminating && cm.controller == SomebodyElse then Rest(Failed(ForeignController))
      else if Desired(flow, cm) == cm then RollGetCm(flow)
      else CmUpdate(flow, cm)
    case (CmGet(flow), NotFound) => if flow.Teardown? then GIVE_UP else CmCreate(flow)
    case (CmCreate(flow), Ok) => RollGetCm(flow)
    case (CmUpdate(flow, _), Ok) => RollGetCm(flow)
    case (RollGetCm(flow), GotCm(cm)) => RollGetDeploy(flow, cfg.hash(cm.data))
    case (RollGetCm(flow), NotFound) => AfterRoll(flow)
    case (RollGetDeploy(flow, hash), GotDeploy(d)) =>
      if Lookup(d.podAnnotations, HASH_ANNOTATION) == hash then AfterRoll(flow) else RollPatch(flow, hash)
    case (RollGetDeploy(flow, _), NotFound) => AfterRoll(flow)
    case (RollPatch(flow, _), Ok) => AfterRoll(flow)
    case (MarkGet, GotCm(cm)) =>
      if FlagsOff(cm.data) && cm.start != NoStamp then RollGetCm(Teardown)
      else if cm.start == NoStamp then MarkClock(cm)
      else MarkUpdate(cm, cm.start)
    case (MarkGet, NotFound) => RollGetCm(Teardown)
    case (MarkClock(read), Clock(now)) => MarkUpdate(read, Format(now))
    case (MarkUpdate(_, _), Ok) => RollGetCm(Teardown)
    case (DelGet, GotCm(cm)) => if cm.terminating then WaitGet else DelCall
    case (DelGet, NotFound) => WaitGet
    case (DelCall, Ok) => WaitGet
    case (DelCall, NotFound) => WaitGet
    case (WaitGet, GotCm(cm)) =>
      if FEAST_FINALIZER !in cm.finalizers then RelGet
      else if !cm.terminating then Rest(Failed(NotTerminating))
      else if !cm.start.At? then Rest(Failed(BadStart))
      else WaitClock(cm)
    case (WaitGet, NotFound) => RelGet
    case (WaitClock(read), Clock(now)) =>
      if read.start.At? && now - read.start.instant >= RELEASE_TIMEOUT
      then (if cfg.recorder then WaitWarn else RelGet)
      else Rest(Failed(Waiting))
    case (WaitWarn, Ok) => RelGet
    case (RelGet, GotCm(cm)) => if MODULE_FINALIZER in cm.finalizers then RelUpdate(cm) else BindingsList
    case (RelGet, NotFound) => BindingsList
    case (RelUpdate(_), Ok) => BindingsList
    case (BindingsList, Names(names)) => NextBinding(names)
    case (BindingsDelete(todo), Ok) => if todo == [] then GIVE_UP else NextBinding(todo[1..])
    case (BindingsDelete(todo), NotFound) => if todo == [] then GIVE_UP else NextBinding(todo[1..])
    case (RolesList, Names(names)) => NextRole(names)
    case (RolesDelete(todo), Ok) => if todo == [] then GIVE_UP else NextRole(todo[1..])
    case (RolesDelete(todo), NotFound) => if todo == [] then GIVE_UP else NextRole(todo[1..])
    case _ => GIVE_UP
  }

  /** The pending call is served and the flow goes on. */
  function Advance(cfg: Cfg, s: Sys): Sys {
    if s.pc.Rest? then s
    else
      var (w, reply) := Serve(s.w, Pending(s.pc));
      Sys(w, Resume(cfg, s.pc, reply))
  }

  function Entry(cfg: Cfg, job: Job): Pc {
    match job
    case Finalize => UnlabelGet(Teardown)
    case Reconcile(spec) =>
      var (fs, dr) := ResolveCapabilities(cfg, spec);
      if dr then NsGet(Live(fs, dr)) else UnlabelGet(Live(fs, dr))
  }

  /**
    One thing that can happen: somebody else acts, the controller starts a flow, the pending call
    is served, or it fails and ends the flow (a crash ends it the same way), the call having taken
    no effect (`Refused`) or having taken effect with its reply lost (`Lost`).
   */
  datatype Event = Env(act: Act) | Begin(job: Job) | Done | Refused | Lost

  function Next(cfg: Cfg, s: Sys, e: Event): Sys {
    match e
    case Env(a) => s.(w := Apply(s.w, a))
    case Begin(job) => if s.pc.Rest? then s.(pc := Entry(cfg, job)) else s
    case Done => Advance(cfg, s)
    case Refused => if s.pc.Rest? then s else s.(pc := GIVE_UP)
    case Lost => if s.pc.Rest? then s else Advance(cfg, s).(pc := GIVE_UP)
  }

  /** The state a run reaches. */
  function Run(cfg: Cfg, s: Sys, es: seq<Event>): Sys {
    if es == [] then s else Next(cfg, Run(cfg, s, es[..|es| - 1]), es[|es| - 1])
  }

  lemma RunSnoc(cfg: Cfg, s: Sys, es: seq<Event>, e: Event)
    ensures Run(cfg, s, es + [e]) == Next(cfg, Run(cfg, s, es), e)
  {
    assert (es + [e])[..|es|] == es;
  }

  lemma {:induction false} RunConcat(cfg: Cfg, s: Sys, es: seq<Event>, fs: seq<Event>)
    ensures Run(cfg, s, es + fs) == Run(cfg, Run(cfg, s, es), fs)
  {
    if fs == [] {
      assert es + fs == es;
    } else {
      var n := |fs| - 1;
      RunConcat(cfg, s, es, fs[..n]);
      assert (es + fs)[..|es + fs| - 1] == es + fs[..n];
    }
  }
}
