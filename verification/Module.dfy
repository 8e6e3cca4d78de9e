/**
  The controller's Go functions, one method each, over a cluster that others change between any two
  calls.  Each method is proved to make exactly the steps of its part of the step machine, so what
  holds in every run of the machine holds of the methods.
*/
module FeastModule {
  import opened Wrappers
  import opened Cluster
  import opened Protocol
  import opened Teardown
  import Convergence
  import Reconciling
  import opened Effects
  import HashText

  /** What becomes of a call: served, refused, or served with the reply lost. */
  datatype Fate = Served | CallRefused | ReplyLost

  /** What others do before a call, and the call's fate. */
  datatype Moment = Moment(acts: seq<Act>, fate: Fate)

  datatype Answer = Answered(reply: Reply) | Failure

  /** The replies a call can get. */
  predicate Fits(call: Call, reply: Reply) {
    match call
    case Now => reply.Clock?
    case GetNs => reply.GotNs? || reply.NotFound?
    case GetCm => reply.GotCm? || reply.NotFound?
    case GetDeploy => reply.GotDeploy? || reply.NotFound?
    case ListBindings => reply.Names?
    case ListRoles => reply.Names?
    case _ => reply.Ok? || reply.NotFound? || reply.Rejected?
  }

  lemma RepliesFit(w: World, call: Call)
    ensures Fits(call, Serve(w, call).1)
  {
  }

  // ----- the script of a run -----

  function EventOf(fate: Fate): Event {
    match fate
    case Served => Done
    case CallRefused => Refused
    case ReplyLost => Lost
  }

  function ActsOf(acts: seq<Act>): seq<Event> {
    seq(|acts|, i requires 0 <= i < |acts| => Env(acts[i]))
  }

  /** What happens in these moments, one call in each. */
  function Played(ms: seq<Moment>): seq<Event> {
    if ms == [] then []
    else
      var last := ms[|ms| - 1];
      Played(ms[..|ms| - 1]) + (ActsOf(last.acts) + [EventOf(last.fate)])
  }

  lemma PlayedSnoc(ms: seq<Moment>, m: Moment)
    ensures Played(ms + [m]) == Played(ms) + (ActsOf(m.acts) + [EventOf(m.fate)])
  {
    assert (ms + [m])[..|ms|] == ms;
  }

  lemma PlayedOn(done: seq<Event>, ms: seq<Moment>, m: Moment)
    requires done == Played(ms)
    ensures done + ActsOf(m.acts) + [EventOf(m.fate)] == Played(ms + [m])
  {
    PlayedSnoc(ms, m);
  }

  /** A call that is served while nobody else acts. */
  const QUIET := Moment([], Served)

  predicate AllQuiet(ms: seq<Moment>) {
    ms != [] ==> ms[0] == QUIET && AllQuiet(ms[1..])
  }

  lemma {:induction false} QuietAt(ms: seq<Moment>, k: nat)
    requires AllQuiet(ms) && k < |ms|
    ensures ms[k] == QUIET
  {
    if k > 0 { QuietAt(ms[1..], k - 1); }
  }

  lemma {:induction false} QuietSnoc(ms: seq<Moment>)
    requires AllQuiet(ms)
    ensures AllQuiet(ms + [QUIET])
  {
    if ms == [] {
      assert ms + [QUIET] == [QUIET];
    } else {
      QuietSnoc(ms[1..]);
      assert (ms + [QUIET])[1..] == ms[1..] + [QUIET];
    }
  }

  /** The moments spent and those to come are the script, and quiet moments once it is over. */
  predicate Follows(script: seq<Moment>, spent: seq<Moment>, moments: seq<Moment>) {
    var all := spent + moments;
    script <= all && AllQuiet(all[|script|..])
  }

  lemma OneMomentSpent(script: seq<Moment>, spent: seq<Moment>, moments: seq<Moment>)
    requires Follows(script, spent, moments)
    ensures
      if moments == [] then Follows(script, spent + [QUIET], [])
      else Follows(script, spent + [moments[0]], moments[1..])
  {
    if moments == [] {
      assert spent + moments == spent && spent + [QUIET] + [] == spent + [QUIET];
      QuietSnoc(spent[|script|..]);
      assert (spent + [QUIET])[|script|..] == spent[|script|..] + [QUIET];
    } else {
      assert spent + [moments[0]] + moments[1..] == spent + moments;
    }
  }

  /** Spent moments agree as far as both go. */
  lemma SpentGrows(script: seq<Moment>, a: seq<Moment>, b: seq<Moment>, m: seq<Moment>, n: seq<Moment>)
    requires Follows(script, a, m) && Follows(script, b, n) && |a| <= |b|
    ensures a <= b
  {
    forall k | 0 <= k < |a|
      ensures a[k] == b[k]
    {
      assert (a + m)[k] == a[k] && (b + n)[k] == b[k];
      if k >= |script| {
        QuietAt((a + m)[|script|..], k - |script|);
        QuietAt((b + n)[|script|..], k - |script|);
      } else {
        assert (a + m)[k] == script[k] == (b + n)[k];
      }
    }
  }

  lemma {:induction false} PlayedGrows(a: seq<Moment>, b: seq<Moment>)
    requires a <= b
    ensures Played(a) <= Played(b)
  {
    if |a| < |b| {
      PlayedGrows(a, b[..|b| - 1]);
    } else {
      assert a == b;
    }
  }

  lemma {:induction false} QuietMomentsAreServed(ms: seq<Moment>)
    requires forall k :: 0 <= k < |ms| ==> ms[k] == QUIET
    ensures forall e :: e in Played(ms) ==> e == Done
  {
    if ms != [] { QuietMomentsAreServed(ms[..|ms| - 1]); }
  }

  /** Served calls that bring the flow to its end bring it to the end of the uninterrupted attempt. */
  lemma {:induction false} ServedCallsFinish(cfg: Cfg, s: Sys, es: seq<Event>)
    requires forall e :: e in es ==> e == Done
    ensures Convergence.Finish(cfg, Run(cfg, s, es)) == Convergence.Finish(cfg, s)
  {
    if es != [] {
      var n := |es| - 1;
      assert es[n] in es && forall e :: e in es[..n] ==> e in es;
      ServedCallsFinish(cfg, s, es[..n]);
    }
  }

  lemma QuietFlowIsAttempt(cfg: Cfg, w: World, job: Job, t: Sys, ms: seq<Moment>)
    requires Run(cfg, Sys(w, Entry(cfg, job)), Played(ms)) == t && t.pc.Rest?
    requires forall k :: 0 <= k < |ms| ==> ms[k] == QUIET
    ensures t == Convergence.Attempt(cfg, w, job)
  {
    QuietMomentsAreServed(ms);
    ServedCallsFinish(cfg, Sys(w, Entry(cfg, job)), Played(ms));
  }

  class Module {
    const cfg: Cfg
    const digest: string -> string
    ghost const allowed: Act -> bool
    var w: World
    var moments: seq<Moment>
    ghost var origin: Sys
    ghost var past: seq<Event>
    ghost var steps: seq<Event>
    ghost var pc: Pc
    ghost const script: seq<Moment>
    ghost var before: seq<Moment>
    ghost var since: seq<Moment>

    /** All that has happened: before the present flow began, and since. */
    ghost function Log(): seq<Event>
      reads this
    {
      past + steps
    }

    ghost predicate HashesItsText() {
      forall d :: cfg.hash(d) == digest(HashText.Serialize(d))
    }

    /** The log is a run of the machine that leads from the origin to the present state. */
    ghost predicate Traced()
      reads this
    {
      && Run(cfg, origin, Log()) == Sys(w, pc)
      && (forall e :: e in steps ==> Continues(e))
      && HashesItsText()
      && (forall m, a :: m in moments && a in m.acts ==> allowed(a))
    }

    /** The present flow has met exactly the moments of the script it has spent. */
    ghost predicate Scripted()
      reads this
    {
      steps == Played(since) && Follows(script, before + since, moments)
    }

    ghost predicate Valid()
      reads this
    {
      Traced() && Scripted()
    }

    ghost predicate Continues(e: Event) {
      !e.Begin? && (e.Env? ==> allowed(e.act))
    }

    constructor (digest: string -> string, featureStore: bool, dataRegistry: bool, recorder: bool,
                 w: World, moments: seq<Moment>, ghost allowed: Act -> bool)
      requires forall m, a :: m in moments && a in m.acts ==> allowed(a)
      ensures Valid() && origin == Sys(w, Rest(Fresh)) && Log() == [] && pc == Rest(Fresh)
      ensures script == moments && before == since == []
      ensures this.digest == digest && this.allowed == allowed && this.w == w && this.moments == moments
      ensures cfg.featureStoreDefault == featureStore && cfg.dataRegistryDefault == dataRegistry
      ensures cfg.recorder == recorder
    {
      this.cfg := Cfg((d: Table) => digest(HashText.Serialize(d)), featureStore, dataRegistry, recorder);
      this.digest, this.allowed, this.w, this.moments := digest, allowed, w, moments;
      this.origin, this.past, this.steps, this.pc := Sys(w, Rest(Fresh)), [], [], Rest(Fresh);
      this.script, this.before, this.since := moments, [], [];
    }

    // ----- the client -----

    /** The step from the former to the present state goes into the log. */
    ghost method Record(e: Event, formerW: World, formerPc: Pc)
      requires Run(cfg, origin, Log()) == Sys(formerW, formerPc)
      requires Next(cfg, Sys(formerW, formerPc), e) == Sys(w, pc)
      modifies this`steps
      ensures steps == old(steps) + [e] && Run(cfg, origin, Log()) == Sys(w, pc)
    {
      RunSnoc(cfg, origin, Log(), e);
      assert Log() + [e] == past + (steps + [e]);
      steps := steps + [e];
    }

    /** Others act. */
    method Meanwhile(acts: seq<Act>)
      requires Traced() && forall a :: a in acts ==> allowed(a)
      modifies this`w, this`steps
      ensures Traced() && steps == old(steps) + ActsOf(acts)
      ensures acts == [] ==> w == old(w)
    {
      for n := 0 to |acts|
        invariant Traced() && steps == old(steps) + ActsOf(acts)[..n]
        invariant n == 0 ==> w == old(w)
      {
        ghost var former := w;
        w := Apply(w, acts[n]);
        Record(Env(acts[n]), former, pc);
        assert ActsOf(acts)[..n + 1] == ActsOf(acts)[..n] + [Env(acts[n])];
      }
      assert ActsOf(acts)[..|acts|] == ActsOf(acts);
    }

    /** The next moment of the script, or a quiet one when it is over. */
    method Await() returns (moment: Moment)
      requires forall m, a :: m in moments && a in m.acts ==> allowed(a)
      requires Follows(script, before + since, moments)
      modifies this`moments, this`since
      ensures since == old(since) + [moment] && Follows(script, before + since, moments)
      ensures old(moments) == [] ==> moments == [] && moment == QUIET
      ensures forall a :: a in moment.acts ==> allowed(a)
      ensures forall m, a :: m in moments && a in m.acts ==> allowed(a)
    {
      OneMomentSpent(script, before + since, moments);
      moment := QUIET;
      if moments != [] {
        moment := moments[0];
        assert moment in moments;
        moments := moments[1..];
      }
      assert before + since + [moment] == before + (since + [moment]);
      since := since + [moment];
    }

    /** One call to the API server, as the script has it. */
    method Do(call: Call) returns (answer: Answer)
      requires Valid() && !pc.Rest? && call == Pending(pc)
      modifies this`w, this`moments, this`steps, this`pc, this`since
      ensures Valid() && |since| == |old(since)| + 1
      ensures answer.Failure? ==> pc == GIVE_UP
      ensures answer.Answered? ==> pc == Resume(cfg, old(pc), answer.reply) && Fits(call, answer.reply)
      ensures old(moments) == [] ==> moments == [] && answer.Answered? && (w, answer.reply) == Serve(old(w), call)
    {
      var moment := Await();
      PlayedOn(old(steps), old(since), moment);
      answer := PlayOut(moment, call);
    }

    /** Others act, and the call meets its fate. */
    method PlayOut(moment: Moment, call: Call) returns (answer: Answer)
      requires Traced() && !pc.Rest? && call == Pending(pc) && forall a :: a in moment.acts ==> allowed(a)
      modifies this`w, this`steps, this`pc
      ensures Traced() && steps == old(steps) + ActsOf(moment.acts) + [EventOf(moment.fate)]
      ensures answer.Failure? ==> pc == GIVE_UP
      ensures answer.Answered? ==> pc == Resume(cfg, old(pc), answer.reply) && Fits(call, answer.reply)
      ensures moment == QUIET ==> answer.Answered? && (w, answer.reply) == Serve(old(w), call)
    {
      Meanwhile(moment.acts);
      answer := Meet(call, moment.fate);
    }

    /** The call meets its fate. */
    method Meet(call: Call, fate: Fate) returns (answer: Answer)
      requires Traced() && !pc.Rest? && call == Pending(pc)
      modifies this`w, this`steps, this`pc
      ensures Traced() && steps == old(steps) + [EventOf(fate)]
      ensures answer.Failure? ==> pc == GIVE_UP
      ensures answer.Answered? ==> pc == Resume(cfg, old(pc), answer.reply) && Fits(call, answer.reply)
      ensures fate == Served ==> answer.Answered? && (w, answer.reply) == Serve(old(w), call)
    {
      RepliesFit(w, call);
      var (v, reply) := Serve(w, call);
      match fate {
        case Served =>
          w := v;
          answer := Answered(reply);
          pc := Resume(cfg, pc, reply);
          Record(Done, old(w), old(pc));
        case CallRefused =>
          answer := Failure;
          pc := GIVE_UP;
          Record(Refused, w, old(pc));
        case ReplyLost =>
          w := v;
          answer := Failure;
          pc := GIVE_UP;
          Record(Lost, old(w), old(pc));
      }
    }

    /** The moments spent only grow in number, so the log of a flow is never rewritten. */
    twostate lemma LogGrows()
      requires old(Valid()) && Valid() && before == old(before) && |old(since)| <= |since|
      ensures old(since) <= since && old(steps) <= steps
    {
      SpentGrows(script, old(before + since), before + since, old(moments), moments);
      assert since == (before + since)[|before|..] && old(since) == old(before + since)[|before|..];
      PlayedGrows(old(since), since);
    }

    /** An update of the ConfigMap. */
    method PutConfigMap(read: ConfigMap, next: ConfigMap) returns (err: Option<Why>)
      requires Valid() && !pc.Rest? && Pending(pc) == UpdateCm(read, next)
      modifies this`w, this`moments, this`steps, this`pc, this`since
      ensures Valid() && |old(since)| <= |since|
      ensures pc == if err.None? then Resume(cfg, old(pc), Ok) else Rest(Failed(err.value))
      ensures old(moments) == [] && MayPut(read, next, old(w)) ==> moments == [] && err.None? && CmPut(next, old(w), w)
    {
      var put := Do(UpdateCm(read, next));
      return if put.Failure? || !put.reply.Ok? then Some(ApiError) else None;
    }

    // ----- the namespace -----

    method ReconcileDataRegistryNamespace(spec: Option<Capabilities>) returns (err: Option<Why>)
      requires Valid() && pc == Entry(cfg, Reconcile(spec))
      modifies this`w, this`moments, this`steps, this`pc, this`since
      ensures Valid() && |old(since)| <= |since|
      ensures pc == if err.None? then AfterNs(old(pc).flow) else Rest(Failed(err.value))
      ensures old(moments) == [] ==> moments == [] && err.None? && NamespaceDone(old(pc).flow, old(w), w)
    {
      var (_, drEnabled) := ResolveCapabilities(cfg, spec);
      if !drEnabled {
        err := RemoveDataRegistryLabel();
        return;
      }
      var got := Do(GetNs);
      if got.Failure? { return Some(ApiError); }
      if got.reply.NotFound? {
        err := CreateNamespace();
        return;
      }
      var ns := got.reply.ns;
      var labels := ns.labels[ENABLED_LABEL := "true"];
      if labels == ns.labels { return None; }
      err := LabelNamespace(ns, labels);
    }

    method CreateNamespace() returns (err: Option<Why>)
      requires Valid() && pc.NsCreate?
      modifies this`w, this`moments, this`steps, this`pc, this`since
      ensures Valid() && |old(since)| <= |since|
      ensures pc == if err.None? then AfterNs(old(pc).flow) else Rest(Failed(err.value))
      ensures old(moments) == [] && old(w).ns == None ==>
        moments == [] && err.None? && LabelsPut(map[ENABLED_LABEL := "true"], old(w), w)
    {
      var made := Do(CreateNs(map[ENABLED_LABEL := "true"]));
      return if made.Failure? || !made.reply.Ok? then Some(ApiError) else None;
    }

    method LabelNamespace(ns: Namespace, labels: Table) returns (err: Option<Why>)
      requires Valid() && pc.NsUpdate? && pc.nsRead == ns && labels == ns.labels[ENABLED_LABEL := "true"]
      modifies this`w, this`moments, this`steps, this`pc, this`since
      ensures Valid() && |old(since)| <= |since|
      ensures pc == if err.None? then AfterNs(old(pc).flow) else Rest(Failed(err.value))
      ensures old(moments) == [] && old(w).ns == Some(ns) ==>
        moments == [] && err.None? && LabelsPut(labels, old(w), w)
    {
      var put := Do(UpdateNs(ns, labels));
      return if put.Failure? || !put.reply.Ok? then Some(ApiError) else None;
    }

    method RemoveDataRegistryLabel() returns (err: Option<Why>)
      requires Valid() && pc.UnlabelGet?
      modifies this`w, this`moments, this`steps, this`pc, this`since
      ensures Valid() && |old(since)| <= |since|
      ensures pc == if err.None? then AfterNs(old(pc).flow) else Rest(Failed(err.value))
      ensures old(moments) == [] ==> moments == [] && err.None? && LabelRemoved(old(w), w)
    {
      var got := Do(GetNs);
      if got.Failure? { return Some(ApiError); }
      if got.reply.NotFound? { return None; }
      if Lookup(got.reply.ns.labels, ENABLED_LABEL) != "true" { return None; }
      var put := Do(UnlabelNs);
      return if put.Failure? || !put.reply.Ok? then Some(ApiError) else None;
    }

    // ----- the ConfigMap and the Deployment in normal life -----

    method ReconcileCapabilitiesConfigMap(spec: Option<Capabilities>) returns (err: Option<Why>)
      requires Valid() && pc.CmGet? && pc.flow.Live? && (pc.flow.fs, pc.flow.dr) == ResolveCapabilities(cfg, spec)
      modifies this`w, this`moments, this`steps, this`pc, this`since
      ensures Valid() && |old(since)| <= |since|
      ensures pc == if err.None? then RollGetCm(old(pc).flow) else Rest(Failed(err.value))
      ensures old(moments) == [] && WellFormed(old(w)) ==>
        moments == [] &&
        if Reconciling.Adoptable(old(w)) then err.None? && CmReconciled(old(pc).flow, old(w), w)
        else err == Some(ForeignController) && w == old(w)
    {
      var (fsEnabled, drEnabled) := ResolveCapabilities(cfg, spec);
      var data := map[KEY_FEATURE_STORE := BoolString(fsEnabled), KEY_DATA_REGISTRY := BoolString(drEnabled)];
      if drEnabled {
        data := data[KEY_NAMESPACE := DATA_REGISTRY_NAMESPACE];
      }
      var got := Do(GetCm);
      if got.Failure? { return Some(ApiError); }
      if got.reply.NotFound? {
        err := CreateConfigMap(Live(fsEnabled, drEnabled), data);
        return;
      }
      err := UpdateConfigMap(Live(fsEnabled, drEnabled), got.reply.cm, data);
    }

    /** The mutate function on a new object, and the creation. */
    method CreateConfigMap(flow: Flow, data: Table) returns (err: Option<Why>)
      requires Valid() && flow.Live? && data == ResolvedData(flow.fs, flow.dr) && pc == CmCreate(flow)
      modifies this`w, this`moments, this`steps, this`pc, this`since
      ensures Valid() && |old(since)| <= |since|
      ensures pc == if err.None? then RollGetCm(flow) else Rest(Failed(err.value))
      ensures old(moments) == [] && old(w).cm == None ==> moments == [] && err.None? && CmReconciled(flow, old(w), w)
    {
      var made := Do(CreateCm(
        ConfigMap(0, 0, false, {MODULE_FINALIZER}, map[COMPONENT_LABEL := "true"], data, NoStamp, Feast)));
      return if made.Failure? || !made.reply.Ok? then Some(ApiError) else None;
    }

    /** The mutate function, and the update when it changed something. */
    method UpdateConfigMap(flow: Flow, read: ConfigMap, data: Table) returns (err: Option<Why>)
      requires Valid() && flow.Live? && data == ResolvedData(flow.fs, flow.dr)
      requires pc == Resume(cfg, CmGet(flow), GotCm(read))
      modifies this`w, this`moments, this`steps, this`pc, this`since
      ensures Valid() && |old(since)| <= |since|
      ensures pc == if err.None? then RollGetCm(flow) else Rest(Failed(err.value))
      ensures old(moments) == [] && WellFormed(old(w)) && old(w).cm == Some(read) ==>
        moments == [] &&
        if Reconciling.Adoptable(old(w)) then err.None? && CmReconciled(flow, old(w), w)
        else err == Some(ForeignController) && w == old(w)
    {
      var cm := read;
      if cm.terminating {
        cm := cm.(finalizers := cm.finalizers - {MODULE_FINALIZER});
      } else {
        cm := cm.(labels := cm.labels[COMPONENT_LABEL := "true"]);
        cm := cm.(finalizers := cm.finalizers + {MODULE_FINALIZER});
        cm := cm.(data := data);
        if cm.controller == SomebodyElse { return Some(ForeignController); }
        cm := cm.(controller := Feast);
      }
      assert cm == Desired(flow, read);
      if cm == read { return None; }
      err := PutConfigMap(read, cm);
    }

    method CapabilitiesDataHash(data: Table) returns (hash: string)
      requires Valid()
      ensures hash == cfg.hash(data)
    {
      hash := HashText.CapabilitiesDataHash(digest, data);
    }

    method TriggerCapabilityRolloutIfNeeded() returns (err: Option<Why>)
      requires Valid() && pc.RollGetCm?
      modifies this`w, this`moments, this`steps, this`pc, this`since
      ensures Valid() && |old(since)| <= |since|
      ensures pc == if err.None? then AfterRoll(old(pc).flow) else Rest(Failed(err.value))
      ensures old(moments) == [] ==> moments == [] && err.None? && RolledOut(cfg, old(w), w)
    {
      var got := Do(GetCm);
      if got.Failure? { return Some(ApiError); }
      if got.reply.NotFound? { return None; }
      var hash := CapabilitiesDataHash(got.reply.cm.data);
      assert pc == RollGetDeploy(old(pc).flow, hash);
      err := AnnotateDeployment(hash);
    }

    method AnnotateDeployment(hash: string) returns (err: Option<Why>)
      requires Valid() && pc.RollGetDeploy? && pc.hash == hash
      modifies this`w, this`moments, this`steps, this`pc, this`since
      ensures Valid() && |old(since)| <= |since|
      ensures pc == if err.None? then AfterRoll(old(pc).flow) else Rest(Failed(err.value))
      ensures old(moments) == [] ==> moments == [] && err.None? && DeployRolled(hash, old(w), w)
    {
      var got := Do(GetDeploy);
      if got.Failure? { return Some(ApiError); }
      if got.reply.NotFound? { return None; }
      if Lookup(got.reply.deploy.podAnnotations, HASH_ANNOTATION) == hash { return None; }
      err := PatchAnnotation(hash);
    }

    method PatchAnnotation(hash: string) returns (err: Option<Why>)
      requires Valid() && pc.RollPatch? && pc.hash == hash
      modifies this`w, this`moments, this`steps, this`pc, this`since
      ensures Valid() && |old(since)| <= |since|
      ensures pc == if err.None? then AfterRoll(old(pc).flow) else Rest(Failed(err.value))
      ensures old(moments) == [] && old(w).deploy.Some? ==>
        moments == [] && err.None? && AnnotationPut(hash, old(w), w)
    {
      var put := Do(PatchDeploy(hash));
      return if put.Failure? || !put.reply.Ok? then Some(ApiError) else None;
    }

    // ----- the hand-over -----

    method GetCapabilitiesConfigMap() returns (err: Option<Why>, cm: Option<ConfigMap>)
      requires Valid() && !pc.Rest? && Pending(pc) == GetCm
      modifies this`w, this`moments, this`steps, this`pc, this`since
      ensures Valid() && |old(since)| <= |since|
      ensures pc ==
        if err.Some? then Rest(Failed(err.value))
        else Resume(cfg, old(pc), if cm.Some? then GotCm(cm.value) else NotFound)
      ensures old(moments) == [] ==> moments == [] && err.None? && w == old(w) && cm == w.cm
    {
      var got := Do(GetCm);
      if got.Failure? { return Some(ApiError), None; }
      return None, if got.reply.NotFound? then None else Some(got.reply.cm);
    }

    method MarkCapabilitiesDisabled() returns (err: Option<Why>)
      requires Valid() && pc == MarkGet
      modifies this`w, this`moments, this`steps, this`pc, this`since
      ensures Valid() && |old(since)| <= |since|
      ensures pc == if err.None? then RollGetCm(Teardown) else Rest(Failed(err.value))
      ensures old(moments) == [] && WellFormed(old(w)) ==> moments == [] && err.None? && CmMarked(old(w), w)
    {
      var e, got := GetCapabilitiesConfigMap();
      if e.Some? || got.None? { return e; }
      if FlagsOff(got.value.data) && got.value.start != NoStamp { return None; }
      err := WriteIntent(got.value);
    }

    /** The part that writes what is missing. */
    method WriteIntent(read: ConfigMap) returns (err: Option<Why>)
      requires Valid() && pc == if read.start == NoStamp then MarkClock(read) else MarkUpdate(read, read.start)
      modifies this`w, this`moments, this`steps, this`pc, this`since
      ensures Valid() && |old(since)| <= |since|
      ensures pc == if err.None? then RollGetCm(Teardown) else Rest(Failed(err.value))
      ensures old(moments) == [] && WellFormed(old(w)) && old(w).cm == Some(read) ==>
        moments == [] && err.None? && IntentAdded(read, old(w), w)
    {
      var e, start := StartFor(read);
      if e.Some? { return e; }
      var cm := read;
      cm := cm.(data := cm.data[KEY_FEATURE_STORE := "false"]);
      cm := cm.(data := cm.data[KEY_DATA_REGISTRY := "false"]);
      cm := cm.(start := start);
      assert cm == Marked(read, start);
      err := PutConfigMap(read, cm);
    }

    /** The recorded start, or the present time when there is none. */
    method StartFor(read: ConfigMap) returns (err: Option<Why>, start: Stamp)
      requires Valid() && pc == if read.start == NoStamp then MarkClock(read) else MarkUpdate(read, read.start)
      modifies this`w, this`moments, this`steps, this`pc, this`since
      ensures Valid() && |old(since)| <= |since|
      ensures pc == if err.None? then MarkUpdate(read, start) else Rest(Failed(err.value))
      ensures old(moments) == [] ==>
        moments == [] && err.None? && w == old(w)
        && start == if read.start == NoStamp then Format(w.now) else read.start
    {
      if read.start != NoStamp { return None, read.start; }
      var clock := Do(Now);
      if clock.Failure? { return Some(ApiError), NoStamp; }
      return None, Format(clock.reply.now);
    }

    method DeleteCapabilitiesConfigMap() returns (err: Option<Why>)
      requires Valid() && pc == DelGet
      modifies this`w, this`moments, this`steps, this`pc, this`since
      ensures Valid() && |old(since)| <= |since|
      ensures pc == if err.None? then WaitGet else Rest(Failed(err.value))
      ensures old(moments) == [] ==> moments == [] && err.None? && w == CmDeleted(old(w))
    {
      var e, got := GetCapabilitiesConfigMap();
      if e.Some? || got.None? { return e; }
      if got.value.terminating { return None; }
      err := IssueDelete();
    }

    /** The delete call; that the ConfigMap is gone already is no error. */
    method IssueDelete() returns (err: Option<Why>)
      requires Valid() && pc == DelCall
      modifies this`w, this`moments, this`steps, this`pc, this`since
      ensures Valid() && |old(since)| <= |since|
      ensures pc == if err.None? then WaitGet else Rest(Failed(err.value))
      ensures old(moments) == [] ==> moments == [] && err.None? && w == RemoveCm(old(w))
    {
      var gone := Do(DeleteCm);
      return if gone.Failure? || gone.reply.Rejected? then Some(ApiError) else None;
    }

    method WaitForFeastOperatorRelease() returns (err: Option<Why>)
      requires Valid() && pc == WaitGet
      modifies this`w, this`moments, this`steps, this`pc, this`since
      ensures Valid() && |old(since)| <= |since|
      ensures pc == if err.None? then RelGet else Rest(Failed(err.value))
      ensures old(moments) == [] ==> moments == [] && err == WaitVerdict(old(w)) && OnlyWarned(old(w), w)
    {
      var e, got := GetCapabilitiesConfigMap();
      if e.Some? || got.None? { return e; }
      var cm := got.value;
      if FEAST_FINALIZER !in cm.finalizers { return None; }
      if !cm.terminating { return Some(NotTerminating); }
      if !cm.start.At? { return Some(BadStart); }
      err := CheckTimeout(cm);
    }

    /** The part that follows once the start could be read. */
    method CheckTimeout(cm: ConfigMap) returns (err: Option<Why>)
      requires Valid() && pc == WaitClock(cm) && cm.start.At?
      modifies this`w, this`moments, this`steps, this`pc, this`since
      ensures Valid() && |old(since)| <= |since|
      ensures pc == if err.None? then RelGet else Rest(Failed(err.value))
      ensures old(moments) == [] ==>
        moments == [] && err == (if TimedOut(old(w), cm.start) then None else Some(Waiting)) && OnlyWarned(old(w), w)
    {
      var clock := Do(Now);
      if clock.Failure? { return Some(ApiError); }
      if clock.reply.now - cm.start.instant < RELEASE_TIMEOUT { return Some(Waiting); }
      if cfg.recorder {
        var told := Do(Warn);
        return if told.Failure? || !told.reply.Ok? then Some(ApiError) else None;
      }
      return None;
    }

    method ReleaseCapabilitiesConfigMap() returns (err: Option<Why>)
      requires Valid() && pc == RelGet
      modifies this`w, this`moments, this`steps, this`pc, this`since
      ensures Valid() && |old(since)| <= |since|
      ensures pc == if err.None? then BindingsList else Rest(Failed(err.value))
      ensures old(moments) == [] && WellFormed(old(w)) ==> moments == [] && err.None? && CmReleased(old(w), w)
    {
      var e, got := GetCapabilitiesConfigMap();
      if e.Some? || got.None? { return e; }
      var cm := got.value;
      if MODULE_FINALIZER !in cm.finalizers {
        if w.cm == Some(cm) && WellFormed(w) { NothingToRelease(w); }
        return None;
      }
      err := RemoveFinalizer(cm);
    }

    method RemoveFinalizer(read: ConfigMap) returns (err: Option<Why>)
      requires Valid() && pc == RelUpdate(read)
      modifies this`w, this`moments, this`steps, this`pc, this`since
      ensures Valid() && |old(since)| <= |since|
      ensures pc == if err.None? then BindingsList else Rest(Failed(err.value))
      ensures old(moments) == [] && old(w).cm == Some(read) ==>
        moments == [] && err.None? && CmPut(Released(read), old(w), w)
    {
      var cm := read;
      cm := cm.(finalizers := cm.finalizers - {MODULE_FINALIZER});
      err := PutConfigMap(read, cm);
    }

    method DeleteClusterRoleBindings() returns (err: Option<Why>)
      requires Valid() && pc == BindingsList
      modifies this`w, this`moments, this`steps, this`pc, this`since
      ensures Valid() && |old(since)| <= |since|
      ensures pc == if err.None? then RolesList else Rest(Failed(err.value))
      ensures old(moments) == [] ==>
        moments == [] && err.None? && w == old(w).(bindings := Convergence.Unlabelled(old(w).bindings))
    {
      var list := Do(ListBindings);
      if list.Failure? { return Some(ApiError); }
      WithoutMatching(old(w).bindings);
      err := DeleteBindings(list.reply.names);
    }

    method DropBinding(name: string, ghost todo: seq<string>) returns (err: Option<Why>)
      requires Valid() && todo != [] && todo[0] == name && pc == BindingsDelete(todo)
      modifies this`w, this`moments, this`steps, this`pc, this`since
      ensures Valid() && |old(since)| <= |since|
      ensures pc == if err.None? then NextBinding(todo[1..]) else Rest(Failed(err.value))
      ensures old(moments) == [] ==> moments == [] && err.None? && w == old(w).(bindings := old(w).bindings - {name})
    {
      var gone := Do(DeleteBinding(name));
      return if gone.Failure? || gone.reply.Rejected? then Some(ApiError) else None;
    }

    method DeleteBindings(items: seq<string>) returns (err: Option<Why>)
      requires Valid() && pc == NextBinding(items)
      modifies this`w, this`moments, this`steps, this`pc, this`since
      ensures Valid() && |old(since)| <= |since|
      ensures pc == if err.None? then RolesList else Rest(Failed(err.value))
      ensures old(moments) == [] ==>
        moments == [] && err.None? && w == old(w).(bindings := Without(old(w).bindings, items))
    {
      assert items[0..] == items && items[..0] == [];
      for i := 0 to |items|
        invariant Valid() && |old(since)| <= |since| && pc == NextBinding(items[i..])
        invariant old(moments) == [] ==> moments == [] && w == old(w).(bindings := Without(old(w).bindings, items[..i]))
      {
        assert items[i..][1..] == items[i + 1..];
        WithoutOneMore(old(w).bindings, items, i);
        err := DropBinding(items[i], items[i..]);
        if err.Some? { return; }
      }
      return None;
    }

    method DeleteClusterRoles() returns (err: Option<Why>)
      requires Valid() && pc == RolesList
      modifies this`w, this`moments, this`steps, this`pc, this`since
      ensures Valid() && |old(since)| <= |since|
      ensures pc == Rest(if err.None? then Succeeded else Failed(err.value))
      ensures old(moments) == [] ==>
        moments == [] && err.None? && w == old(w).(roles := Convergence.Unlabelled(old(w).roles))
    {
      var list := Do(ListRoles);
      if list.Failure? { return Some(ApiError); }
      WithoutMatching(old(w).roles);
      err := DeleteRoles(list.reply.names);
    }

    method DropRole(name: string, ghost todo: seq<string>) returns (err: Option<Why>)
      requires Valid() && todo != [] && todo[0] == name && pc == RolesDelete(todo)
      modifies this`w, this`moments, this`steps, this`pc, this`since
      ensures Valid() && |old(since)| <= |since|
      ensures pc == if err.None? then NextRole(todo[1..]) else Rest(Failed(err.value))
      ensures old(moments) == [] ==> moments == [] && err.None? && w == old(w).(roles := old(w).roles - {name})
    {
      var gone := Do(DeleteRole(name));
      return if gone.Failure? || gone.reply.Rejected? then Some(ApiError) else None;
    }

    method DeleteRoles(items: seq<string>) returns (err: Option<Why>)
      requires Valid() && pc == NextRole(items)
      modifies this`w, this`moments, this`steps, this`pc, this`since
      ensures Valid() && |old(since)| <= |since|
      ensures pc == Rest(if err.None? then Succeeded else Failed(err.value))
      ensures old(moments) == [] ==> moments == [] && err.None? && w == old(w).(roles := Without(old(w).roles, items))
    {
      assert items[0..] == items && items[..0] == [];
      for i := 0 to |items|
        invariant Valid() && |old(since)| <= |since| && pc == NextRole(items[i..])
        invariant old(moments) == [] ==> moments == [] && w == old(w).(roles := Without(old(w).roles, items[..i]))
      {
        assert items[i..][1..] == items[i + 1..];
        WithoutOneMore(old(w).roles, items, i);
        err := DropRole(items[i], items[i..]);
        if err.Some? { return; }
      }
      return None;
    }

    ghost method Start(job: Job)
      requires Valid() && pc.Rest?
      modifies this`past, this`steps, this`pc, this`before, this`since
      ensures Valid() && past == old(Log()) + [Begin(job)] && steps == [] && since == [] && pc == Entry(cfg, job)
      ensures before == old(before + since)
    {
      ghost var all, spent := Log(), before + since;
      RunSnoc(cfg, origin, all, Begin(job));
      past, before := all + [Begin(job)], spent;
      steps, since := [], [];
      assert past + [] == past && before + [] == before;
      pc := Entry(cfg, job);
    }

    /** A flow that met nothing but quiet moments is an uninterrupted attempt. */
    lemma QuietFlow(w0: World, job: Job)
      requires Valid() && pc.Rest? && Run(cfg, origin, past) == Sys(w0, Entry(cfg, job)) && |script| <= |before|
      ensures Sys(w, pc) == Convergence.Attempt(cfg, w0, job)
    {
      RunConcat(cfg, origin, past, steps);
      forall k | 0 <= k < |since|
        ensures since[k] == QUIET
      {
        QuietAt((before + since + moments)[|script|..], |before| + k - |script|);
        assert since[k] == (before + since + moments)[|before| + k];
      }
      QuietFlowIsAttempt(cfg, w0, job, Sys(w, pc), since);
    }

    /** All that has happened is a run of the uninstall. */
    ghost predicate Uninstalled()
      reads this
    {
      Startable(origin.w, origin.pc) && UninstallRun(Log()) && forall a :: allowed(a) ==> Polite(a)
    }

    /**
      The finalizer.  A successful call has let the ConfigMap go, when every act of others was polite,
      only with the intent written and the feast operator out of the way or overdue.
     */
    method CleanupClusterResources() returns (err: Option<Why>)
      requires Valid() && pc.Rest?
      modifies this`w, this`moments, this`past, this`steps, this`pc, this`before, this`since
      ensures Valid() && past == old(Log()) + [Begin(Finalize)]
      ensures pc == Rest(if err.None? then Succeeded else Failed(err.value))
      ensures old(moments) == [] ==> Sys(w, pc) == Convergence.Attempt(cfg, old(w), Finalize)
      ensures old(Uninstalled()) ==> Uninstalled() && (err.None? ==> MayLetGo(cfg, w))
    {
      Start(Finalize);
      err := FinalizeSteps();
      if old(moments) == [] { QuietFlow(old(w), Finalize); }
      if old(Uninstalled()) {
        RunKeepsInv(cfg, origin, Log());
      }
    }

    method FinalizeSteps() returns (err: Option<Why>)
      requires Valid() && pc == Entry(cfg, Finalize)
      modifies this`w, this`moments, this`steps, this`pc, this`since
      ensures Valid() && |old(since)| <= |since|
      ensures pc == Rest(if err.None? then Succeeded else Failed(err.value))
    {
      err := HandOver();
      if err.Some? { return; }
      err := LetGo();
    }

    /** The steps up to the delete. */
    method HandOver() returns (err: Option<Why>)
      requires Valid() && pc == Entry(cfg, Finalize)
      modifies this`w, this`moments, this`steps, this`pc, this`since
      ensures Valid() && |old(since)| <= |since|
      ensures pc == if err.None? then WaitGet else Rest(Failed(err.value))
    {
      err := RemoveDataRegistryLabel();
      if err.Some? { return; }
      err := MarkCapabilitiesDisabled();
      if err.Some? { return; }
      err := TriggerCapabilityRolloutIfNeeded();
      if err.Some? { return; }
      err := DeleteCapabilitiesConfigMap();
    }

    /** The steps from the wait on. */
    method LetGo() returns (err: Option<Why>)
      requires Valid() && pc == WaitGet
      modifies this`w, this`moments, this`steps, this`pc, this`since
      ensures Valid() && |old(since)| <= |since|
      ensures pc == Rest(if err.None? then Succeeded else Failed(err.value))
    {
      err := WaitForFeastOperatorRelease();
      if err.Some? { return; }
      err := ReleaseCapabilitiesConfigMap();
      if err.Some? { return; }
      err := DeleteClusterRoleBindings();
      if err.Some? { return; }
      err := DeleteClusterRoles();
    }

    /** The modelled actions of a reconcile, in the order of the action list. */
    method ReconcileOnce(spec: Option<Capabilities>) returns (err: Option<Why>)
      requires Valid() && pc.Rest?
      modifies this`w, this`moments, this`past, this`steps, this`pc, this`before, this`since
      ensures Valid() && past == old(Log()) + [Begin(Reconcile(spec))]
      ensures pc == Rest(if err.None? then Succeeded else Failed(err.value))
      ensures old(moments) == [] ==> Sys(w, pc) == Convergence.Attempt(cfg, old(w), Reconcile(spec))
    {
      Start(Reconcile(spec));
      err := ReconcileSteps(spec);
      if old(moments) == [] { QuietFlow(old(w), Reconcile(spec)); }
    }

    method ReconcileSteps(spec: Option<Capabilities>) returns (err: Option<Why>)
      requires Valid() && pc == Entry(cfg, Reconcile(spec))
      modifies this`w, this`moments, this`steps, this`pc, this`since
      ensures Valid() && |old(since)| <= |since|
      ensures pc == Rest(if err.None? then Succeeded else Failed(err.value))
    {
      err := ReconcileDataRegistryNamespace(spec);
      if err.Some? { return; }
      err := ReconcileCapabilitiesConfigMap(spec);
      if err.Some? { return; }
      err := TriggerCapabilityRolloutIfNeeded();
    }
  }
}
