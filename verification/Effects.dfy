/** What each part of the flows does to a cluster that nobody else changes meanwhile. */
module Effects {
  import opened Wrappers
  import opened Cluster
  import opened Protocol
  import opened Teardown
  import opened Convergence
  import opened Reconciling

  predicate OnlyNs(w: World, v: World) {
    v.(ns := w.ns, rev := w.rev) == w
  }

  predicate OnlyCm(w: World, v: World) {
    v.(cm := w.cm, rev := w.rev) == w
  }

  predicate OnlyDeploy(w: World, v: World) {
    v.(deploy := w.deploy, rev := w.rev) == w
  }

  predicate OnlyWarned(w: World, v: World) {
    v.(warnings := w.warnings) == w
  }

  predicate NamespaceDone(flow: Flow, w: World, v: World) {
    OnlyNs(w, v) && flow.Live? && NsResult(flow, w, v)
  }

  /** The namespace has these labels, and nothing else has changed. */
  predicate LabelsPut(labels: Table, w: World, v: World) {
    OnlyNs(w, v) && v.ns.Some? && v.ns.value.labels == labels
  }

  /** The namespace stays, and so do its other labels. */
  predicate LabelRemoved(w: World, v: World) {
    && OnlyNs(w, v) && (v.ns.Some? <==> w.ns.Some?)
    && (w.ns.Some? ==> v.ns.value.labels == WithoutEnabled(w.ns.value.labels))
  }

  /** Whether the server takes this update of what it holds. */
  predicate MayPut(read: ConfigMap, next: ConfigMap, w: World) {
    && w.cm == Some(read) && next.uid == read.uid && next.terminating == read.terminating
    && (read.terminating ==> next.finalizers <= read.finalizers)
  }

  /** The ConfigMap has become this one, or has vanished if that was terminating without finalizers. */
  predicate CmPut(next: ConfigMap, w: World, v: World) {
    OnlyCm(w, v) && if Settle(next).None? then v.cm.None? else v.cm.Some? && SameCm(v.cm.value, next)
  }

  predicate CmReconciled(flow: Flow, w: World, v: World) {
    OnlyCm(w, v) && flow.Live? && CmResult(flow, w, v)
  }

  /** The Deployment, if there is one, carries this hash beside its other annotations. */
  predicate DeployRolled(hash: string, w: World, v: World) {
    && OnlyDeploy(w, v) && (v.deploy.Some? <==> w.deploy.Some?)
    && (w.deploy.Some? ==> v.deploy.value.podAnnotations == Rolled(w.deploy.value.podAnnotations, hash))
  }

  /** The annotation has been set, and nothing else has changed. */
  predicate AnnotationPut(hash: string, w: World, v: World)
    requires w.deploy.Some?
  {
    && OnlyDeploy(w, v) && v.deploy.Some?
    && v.deploy.value.podAnnotations == w.deploy.value.podAnnotations[HASH_ANNOTATION := hash]
  }

  predicate RolledOut(cfg: Cfg, w: World, v: World) {
    if w.cm.None? then v == w else DeployRolled(cfg.hash(w.cm.value.data), w, v)
  }

  /** Both flags are off, the start is the one that was there or the time, and nothing else has changed. */
  predicate IntentAdded(c: ConfigMap, w: World, v: World) {
    OnlyCm(w, v) && v.cm.Some? && SameCm(v.cm.value, Marked(c, if c.start == NoStamp then Format(w.now) else c.start))
  }

  predicate CmMarked(w: World, v: World) {
    match w.cm
    case None => v == w
    case Some(c) => if FlagsOff(c.data) && c.start != NoStamp then v == w else IntentAdded(c, w, v)
  }

  function CmDeleted(w: World): World {
    if w.cm.Some? && w.cm.value.terminating then w else RemoveCm(w)
  }

  /** Why the wait goes on, if it does. */
  function WaitVerdict(w: World): Option<Why> {
    match w.cm
    case None => None
    case Some(c) =>
      if FEAST_FINALIZER !in c.finalizers then None
      else if !c.terminating then Some(NotTerminating)
      else if !c.start.At? then Some(BadStart)
      else if TimedOut(w, c.start) then None
      else Some(Waiting)
  }

  /** The module's finalizer is gone, and the ConfigMap with it if it was the last one. */
  predicate CmReleased(w: World, v: World) {
    match w.cm
    case None => v == w
    case Some(c) => CmPut(Released(c), w, v)
  }

  lemma NothingToRelease(w: World)
    requires WellFormed(w) && w.cm.Some? && MODULE_FINALIZER !in w.cm.value.finalizers
    ensures CmReleased(w, w)
  {
    var c := w.cm.value;
    assert c.finalizers - {MODULE_FINALIZER} == c.finalizers;
    assert Released(c) == c;
  }

  function Without(objects: map<string, Table>, names: seq<string>): map<string, Table> {
    map n | n in objects && n !in names :: objects[n]
  }

  lemma WithoutOneMore(objects: map<string, Table>, names: seq<string>, i: nat)
    requires i < |names|
    ensures Without(objects, names[..i + 1]) == Without(objects, names[..i]) - {names[i]}
  {
    assert names[..i + 1] == names[..i] + [names[i]];
  }

  lemma WithoutMatching(objects: map<string, Table>)
    ensures Without(objects, Matching(objects)) == Unlabelled(objects)
  {
  }
}
