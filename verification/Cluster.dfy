/**
  The cluster objects the module and the feast operator share, the API server that serves the
  module's calls, and what everybody else may do to the objects.
*/
module Cluster {
  import opened Wrappers
  import opened GoStrings

  const MODULE_FINALIZER := "components.platform.opendatahub.io/feast-capabilities"
  const FEAST_FINALIZER := "feast.dev/capabilities-config-cleanup"
  const COMPONENT_LABEL := "app.opendatahub.io/feastoperator"
  const ENABLED_LABEL := "dataregistry.opendatahub.io/enabled"
  const HASH_ANNOTATION := "feast.dev/capabilities-hash"
  const KEY_FEATURE_STORE := "featureStoreEnabled"
  const KEY_DATA_REGISTRY := "dataRegistryEnabled"
  const KEY_NAMESPACE := "dataRegistryNamespace"
  const DATA_REGISTRY_NAMESPACE := "rhoai-data-registry"
  const SECOND: int := 1_000_000_000
  const RELEASE_TIMEOUT: int := 300 * SECOND

  type Table = map<string, string>

  /** Go's `m[key]`: the empty string when the key is missing. */
  function Lookup(m: Table, key: string): string {
    if key in m then m[key] else ""
  }

  /** The cleanup-start annotation: missing or empty, an RFC 3339 instant in nanoseconds, or other text. */
  datatype Stamp = NoStamp | At(instant: int) | Garbage(text: string)

  /** `now.UTC().Format(time.RFC3339)`: whole seconds, rounded down. */
  function Format(now: int): Stamp {
    At(now - now % SECOND)
  }

  datatype Controller = Nobody | Feast | SomebodyElse

  datatype ConfigMap = ConfigMap(
    uid: nat, version: nat, terminating: bool, finalizers: set<string>,
    labels: Table, data: Table, start: Stamp, controller: Controller)

  datatype Deployment = Deployment(version: nat, podAnnotations: Table)

  datatype Namespace = Namespace(version: nat, labels: Table)

  datatype World = World(
    cm: Option<ConfigMap>, deploy: Option<Deployment>, ns: Option<Namespace>,
    bindings: map<string, Table>, roles: map<string, Table>,
    now: int, rev: nat, warnings: nat)

  predicate Labelled(labels: Table) {
    Lookup(labels, COMPONENT_LABEL) == "true"
  }

  /** The names a list call with the component label returns, in the server's key order. */
  function Matching(objects: map<string, Table>): (names: seq<string>)
    ensures forall n :: n in names <==> n in objects && Labelled(objects[n])
  {
    Sorted(set n | n in objects && Labelled(objects[n]))
  }

  // ----- API calls of the module -----

  datatype Call =
    | Now
    | GetNs | CreateNs(labels: Table) | UpdateNs(seen: Namespace, labels: Table) | UnlabelNs
    | GetCm | CreateCm(made: ConfigMap) | UpdateCm(base: ConfigMap, next: ConfigMap) | DeleteCm
    | GetDeploy | PatchDeploy(hash: string)
    | Warn
    | ListBindings | DeleteBinding(name: string)
    | ListRoles | DeleteRole(name: string)

  datatype Reply =
    | Ok | NotFound | Rejected
    | Clock(now: int)
    | GotNs(ns: Namespace) | GotCm(cm: ConfigMap) | GotDeploy(deploy: Deployment)
    | Names(names: seq<string>)

  /** A terminating object whose last finalizer went away vanishes. */
  function Settle(cm: ConfigMap): Option<ConfigMap> {
    if cm.terminating && cm.finalizers == {} then None else Some(cm)
  }

  /** Update: optimistic locking on the version; nobody may add a finalizer to a terminating object. */
  function ServeUpdateCm(w: World, base: ConfigMap, next: ConfigMap): (World, Reply) {
    match w.cm
    case None => (w, NotFound)
    case Some(cur) =>
      if cur.version != base.version || (cur.terminating && !(next.finalizers <= cur.finalizers)) then (w, Rejected)
      else
        var stored := next.(uid := cur.uid, version := w.rev + 1, terminating := cur.terminating);
        (w.(cm := Settle(stored), rev := w.rev + 1), Ok)
  }

  /** Delete: an object that has finalizers is only marked. */
  function RemoveCm(w: World): World {
    match w.cm
    case None => w
    case Some(cur) =>
      if cur.finalizers == {} then w.(cm := None, rev := w.rev + 1)
      else if cur.terminating then w
      else w.(cm := Some(cur.(terminating := true, version := w.rev + 1)), rev := w.rev + 1)
  }

  function Serve(w: World, call: Call): (World, Reply) {
    match call
    case Now => (w, Clock(w.now))
    case GetNs => (w, if w.ns.Some? then GotNs(w.ns.value) else NotFound)
    case CreateNs(labels) =>
      if w.ns.Some? then (w, Rejected)
      else (w.(ns := Some(Namespace(w.rev + 1, labels)), rev := w.rev + 1), Ok)
    case UpdateNs(seen, labels) =>
      if w.ns.None? then (w, NotFound)
      else if w.ns.value.version != seen.version then (w, Rejected)
      else (w.(ns := Some(Namespace(w.rev + 1, labels)), rev := w.rev + 1), Ok)
    case UnlabelNs =>
      if w.ns.None? then (w, NotFound)
      else (w.(ns := Some(Namespace(w.rev + 1, w.ns.value.labels - {ENABLED_LABEL})), rev := w.rev + 1), Ok)
    case GetCm => (w, if w.cm.Some? then GotCm(w.cm.value) else NotFound)
    case CreateCm(made) =>
      if w.cm.Some? then (w, Rejected)
      else (w.(cm := Some(made.(uid := w.rev + 1, version := w.rev + 1, terminating := false)), rev := w.rev + 1), Ok)
    case UpdateCm(base, next) => ServeUpdateCm(w, base, next)
    case DeleteCm => (RemoveCm(w), if w.cm.Some? then Ok else NotFound)
    case GetDeploy => (w, if w.deploy.Some? then GotDeploy(w.deploy.value) else NotFound)
    case PatchDeploy(hash) =>
      if w.deploy.None? then (w, NotFound)
      else
        var annotations := w.deploy.value.podAnnotations[HASH_ANNOTATION := hash];
        (w.(deploy := Some(Deployment(w.rev + 1, annotations)), rev := w.rev + 1), Ok)
    case Warn => (w.(warnings := w.warnings + 1), Ok)
    case ListBindings => (w, Names(Matching(w.bindings)))
    case DeleteBinding(name) => (w.(bindings := w.bindings - {name}), if name in w.bindings then Ok else NotFound)
    case ListRoles => (w, Names(Matching(w.roles)))
    case DeleteRole(name) => (w.(roles := w.roles - {name}), if name in w.roles then Ok else NotFound)
  }

  // ----- everybody else -----

  datatype Act =
    | Tick(elapsed: nat)
    | FeastClaims | FeastReleases
    | AddFinalizer(name: string) | DropFinalizer(name: string)
    | RelabelCm(labels: Table) | DeleteCmByHand
    | CreateCmByHand(made: ConfigMap) | RewriteCm(data: Table, start: Stamp) | Disown
    | TouchDeploy(others: Table) | RehashDeploy(hash: string) | CreateDeploy(annotations: Table) | DeleteDeploy
    | CreateNsByHand(labels: Table) | LabelNs(key: string, value: string) | DropNsLabel(key: string) | DeleteNs
    | PutBinding(name: string, labels: Table) | LoseBinding(name: string)
    | PutRole(name: string, labels: Table) | LoseRole(name: string)

  /** The hash annotation alone, when it is there. */
  function OnlyHash(annotations: Table): Table {
    map k | k in annotations && k == HASH_ANNOTATION :: annotations[k]
  }

  /** How the acts that edit the ConfigMap change what they read. */
  function Edited(cm: ConfigMap, a: Act): ConfigMap {
    match a
    case FeastClaims => cm.(finalizers := cm.finalizers + {FEAST_FINALIZER})
    case FeastReleases => cm.(finalizers := cm.finalizers - {FEAST_FINALIZER})
    case AddFinalizer(name) => cm.(finalizers := cm.finalizers + {name})
    case DropFinalizer(name) => cm.(finalizers := cm.finalizers - {name})
    case RelabelCm(labels) => cm.(labels := labels)
    case RewriteCm(data, start) => cm.(data := data, start := start)
    case Disown => cm.(controller := Nobody)
    case _ => cm
  }

  function Apply(w: World, a: Act): World {
    match a
    case Tick(elapsed) => w.(now := w.now + elapsed)
    case DeleteCmByHand => RemoveCm(w)
    case CreateCmByHand(made) => Serve(w, CreateCm(made)).0
    case TouchDeploy(others) =>
      if w.deploy.None? then w
      else
        var annotations := OnlyHash(w.deploy.value.podAnnotations) + (others - {HASH_ANNOTATION});
        w.(deploy := Some(Deployment(w.rev + 1, annotations)), rev := w.rev + 1)
    case RehashDeploy(hash) => Serve(w, PatchDeploy(hash)).0
    case CreateDeploy(annotations) =>
      if w.deploy.Some? then w
      else w.(deploy := Some(Deployment(w.rev + 1, annotations)), rev := w.rev + 1)
    case DeleteDeploy => w.(deploy := None, rev := w.rev + 1)
    case CreateNsByHand(labels) => Serve(w, CreateNs(labels)).0
    case LabelNs(key, value) =>
      if w.ns.None? then w
      else w.(ns := Some(Namespace(w.rev + 1, w.ns.value.labels[key := value])), rev := w.rev + 1)
    case DropNsLabel(key) =>
      if w.ns.None? then w
      else w.(ns := Some(Namespace(w.rev + 1, w.ns.value.labels - {key})), rev := w.rev + 1)
    case DeleteNs => w.(ns := None, rev := w.rev + 1)
    case PutBinding(name, labels) => w.(bindings := w.bindings[name := labels])
    case LoseBinding(name) => w.(bindings := w.bindings - {name})
    case PutRole(name, labels) => w.(roles := w.roles[name := labels])
    case LoseRole(name) => w.(roles := w.roles - {name})
    case _ => // the edits of the ConfigMap, under the same server rules as the module's
      if w.cm.None? then w else ServeUpdateCm(w, w.cm.value, Edited(w.cm.value, a)).0
  }
}
