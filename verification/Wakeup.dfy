/**
  No lost wake-up.  Every change of the ConfigMap puts a note on the watch; a note that passes the
  predicate and concerns an object the FeastOperator controls puts a reconcile on the work queue;
  a failed reconcile is queued again.
*/
module Wakeup {
  import opened Cluster
  import opened Protocol
  import opened Teardown
  import opened Reconciling

  datatype Note = Created(made: ConfigMap) | Updated(was: ConfigMap, made: ConfigMap) | Deleted(was: ConfigMap)

  /** `DefaultPredicate` is a library predicate: it passes deletions, and what it says of updates is a parameter. */
  type DefaultPredicate = (ConfigMap, ConfigMap) -> bool

  /** The watch predicate: the default one, or the update that starts the deletion. */
  predicate WatchPasses(default: DefaultPredicate, note: Note) {
    match note
    case Created(_) => true
    case Updated(was, made) => default(was, made) || (!was.terminating && made.terminating)
    case Deleted(_) => true
  }

  /** Only events of objects that the FeastOperator controls, before or after, reach its queue. */
  predicate Concerns(note: Note) {
    match note
    case Created(made) => made.controller == Feast
    case Updated(was, made) => was.controller == Feast || made.controller == Feast
    case Deleted(was) => was.controller == Feast
  }

  predicate Wakes(default: DefaultPredicate, note: Note) {
    WatchPasses(default, note) && Concerns(note)
  }

  /** What the watch reports of a change. */
  function Report(w: World, v: World): multiset<Note> {
    if w.cm == v.cm then multiset{}
    else if w.cm.None? then multiset{Created(v.cm.value)}
    else if v.cm.None? then multiset{Deleted(w.cm.value)}
    else if w.cm.value.uid != v.cm.value.uid then multiset{Deleted(w.cm.value), Created(v.cm.value)}
    else multiset{Updated(w.cm.value, v.cm.value)}
  }

  datatype Controlled = Controlled(s: Sys, queued: bool, notes: multiset<Note>)

  /** Something happens, a note in flight is delivered, or another watch queues a reconcile. */
  datatype Turn = Happens(e: Event) | Delivered(note: Note) | Nudged

  function Took(cfg: Cfg, default: DefaultPredicate, q: Controlled, t: Turn): Controlled {
    match t
    case Nudged => q.(queued := true)
    case Delivered(note) =>
      if note !in q.notes then q
      else q.(notes := q.notes - multiset{note}, queued := q.queued || Wakes(default, note))
    case Happens(e) =>
      if e.Begin? && !(q.queued && q.s.pc.Rest?) then q
      else
        var s := Next(cfg, q.s, e);
        var failed := !q.s.pc.Rest? && s.pc.Rest? && s.pc.outcome != Succeeded;
        Controlled(s, (q.queued && !e.Begin?) || failed, q.notes + Report(q.s.w, s.w))
  }

  function RunOf(cfg: Cfg, default: DefaultPredicate, q: Controlled, ts: seq<Turn>): Controlled {
    if ts == [] then q else Took(cfg, default, RunOf(cfg, default, q, ts[..|ts| - 1]), ts[|ts| - 1])
  }

  /** The ConfigMap stays the FeastOperator's: nobody takes it away, or creates one that is not. */
  predicate KeepsOwner(a: Act) {
    !a.Disown? && (a.CreateCmByHand? ==> a.made.controller == Feast)
  }

  /** While the FeastOperator lives, the ConfigMap stays owned and only reconciles are started. */
  predicate Living(t: Turn) {
    t.Happens? ==> (t.e.Env? ==> KeepsOwner(t.e.act)) && (t.e.Begin? ==> t.e.job.Reconcile?)
  }

  /** The ConfigMap is absent, or terminating and held by the module. */
  predicate NeedsWork(w: World) {
    w.cm.Some? ==> w.cm.value.terminating && MODULE_FINALIZER in w.cm.value.finalizers
  }

  predicate Owned(w: World) {
    w.cm.Some? ==> w.cm.value.controller == Feast
  }

  /** A reconcile is running that has still to deal with the ConfigMap. */
  predicate Underway(pc: Pc) {
    AtNs(pc) || AtCm(pc)
  }

  ghost predicate Awaited(default: DefaultPredicate, q: Controlled) {
    q.queued || exists note :: note in q.notes && Wakes(default, note)
  }

  predicate LivePc(pc: Pc) {
    (Underway(pc) || AtRoll(pc) || pc.Rest?) && (!pc.Rest? ==> pc.flow.Live?)
  }

  ghost predicate NothingLost(default: DefaultPredicate, q: Controlled) {
    && WellFormed(q.s.w) && Owned(q.s.w) && LivePc(q.s.pc)
    && (q.s.pc.CmUpdate? ==> Saw(q.s.w, q.s.pc.read) && q.s.pc.read.controller == Feast)
    && (NeedsWork(q.s.w) ==> Awaited(default, q) || Underway(q.s.pc))
  }

  /** A change to a state that needs work is reported by a note that wakes the controller. */
  lemma ChangesAreReported(default: DefaultPredicate, w: World, v: World)
    requires Owned(w) && NeedsWork(v) && !NeedsWork(w)
    requires v.cm.Some? ==> w.cm.Some? && (w.cm.value.terminating ==> v.cm.value.finalizers <= w.cm.value.finalizers)
    requires v.cm.Some? ==> v.cm.value.uid == w.cm.value.uid
    ensures exists note :: note in Report(w, v) && Wakes(default, note)
  {
    if v.cm.None? {
      assert Deleted(w.cm.value) in Report(w, v);
    } else {
      assert Updated(w.cm.value, v.cm.value) in Report(w, v);
    }
  }

  lemma OthersChanges(w: World, a: Act)
    requires WellFormed(w) && Owned(w) && KeepsOwner(a)
    ensures
      var v := Apply(w, a);
      && Owned(v)
      && (v.cm.Some? && NeedsWork(v) ==>
            && w.cm.Some? && v.cm.value.uid == w.cm.value.uid
            && (w.cm.value.terminating ==> v.cm.value.terminating && v.cm.value.finalizers <= w.cm.value.finalizers))
  {
  }

  /** A call of the module leaves no unreported need: it meets it, or reports it, or fails. */
  lemma CallsMeetTheNeed(cfg: Cfg, default: DefaultPredicate, q: Controlled)
    requires NothingLost(default, q) && !q.s.pc.Rest?
    ensures
      var s := Advance(cfg, q.s);
      && WellFormed(s.w) && Owned(s.w) && LivePc(s.pc)
      && (s.pc.CmUpdate? ==> Saw(s.w, s.pc.read) && s.pc.read.controller == Feast)
      && (NeedsWork(s.w) && !NeedsWork(q.s.w) ==> s.w.cm.None? && q.s.w.cm.Some?)
      && (NeedsWork(s.w) && Underway(q.s.pc) ==>
            || Underway(s.pc) || (s.pc.Rest? && s.pc.outcome != Succeeded)
            || (s.w.cm.None? && q.s.w.cm.Some?))
      && (!Underway(q.s.pc) ==> s.w.cm == q.s.w.cm && !Underway(s.pc))
  {
  }

  lemma NotesStay(default: DefaultPredicate, q: Controlled, r: Controlled)
    requires Awaited(default, q) && q.notes <= r.notes && (q.queued ==> r.queued)
    ensures Awaited(default, r)
  {
  }

  lemma ServedCallLosesNothing(cfg: Cfg, default: DefaultPredicate, q: Controlled, e: Event)
    requires NothingLost(default, q) && !q.s.pc.Rest? && ByModule(e)
    ensures NothingLost(default, Took(cfg, default, q, Happens(e)))
  {
    CallsMeetTheNeed(cfg, default, q);
    var r := Took(cfg, default, q, Happens(e));
    if NeedsWork(r.s.w) && Awaited(default, q) {
      NotesStay(default, q, r);
    } else if r.s.w.cm.None? && q.s.w.cm.Some? {
      assert Deleted(q.s.w.cm.value) in Report(q.s.w, r.s.w);
      assert Wakes(default, Deleted(q.s.w.cm.value)) && Deleted(q.s.w.cm.value) in r.notes;
    }
  }

  lemma OthersLoseNothing(cfg: Cfg, default: DefaultPredicate, q: Controlled, a: Act)
    requires NothingLost(default, q) && Living(Happens(Env(a)))
    ensures NothingLost(default, Took(cfg, default, q, Happens(Env(a))))
  {
    var r := Took(cfg, default, q, Happens(Env(a)));
    OthersChanges(q.s.w, a);
    ActsBumpVersions(q.s.w, a);
    if NeedsWork(r.s.w) {
      if !NeedsWork(q.s.w) {
        ChangesAreReported(default, q.s.w, r.s.w);
        var note :| note in Report(q.s.w, r.s.w) && Wakes(default, note);
        assert note in r.notes;
      } else if Awaited(default, q) {
        NotesStay(default, q, r);
      }
    }
  }

  lemma TurnLosesNothing(cfg: Cfg, default: DefaultPredicate, q: Controlled, t: Turn)
    requires NothingLost(default, q) && Living(t)
    ensures NothingLost(default, Took(cfg, default, q, t))
  {
    match t
    case Nudged =>
    case Delivered(note) =>
      if !q.queued && NeedsWork(q.s.w) && !Underway(q.s.pc) {
        var n :| n in q.notes && Wakes(default, n);
        assert n != note ==> n in q.notes - multiset{note};
      }
    case Happens(e) =>
      match e {
        case Env(a) => OthersLoseNothing(cfg, default, q, a);
        case Done => if !q.s.pc.Rest? { ServedCallLosesNothing(cfg, default, q, e); }
        case Lost => if !q.s.pc.Rest? { ServedCallLosesNothing(cfg, default, q, e); }
        case _ =>
      }
  }

  /**
    No wake-up is lost: in every run of the living operator, whenever the ConfigMap is absent or
    waits for the module to let it go, a reconcile is queued, or a note that will queue one is in
    flight, or a reconcile is running that has still to deal with the ConfigMap.
   */
  lemma {:induction false} NoLostWakeUp(cfg: Cfg, default: DefaultPredicate, q: Controlled, ts: seq<Turn>)
    requires WellFormed(q.s.w) && Owned(q.s.w) && q.s.pc.Rest? && q.queued
    requires forall t :: t in ts ==> Living(t)
    ensures NothingLost(default, RunOf(cfg, default, q, ts))
  {
    if ts != [] {
      var n := |ts| - 1;
      assert ts[n] in ts && forall t :: t in ts[..n] ==> t in ts;
      NoLostWakeUp(cfg, default, q, ts[..n]);
      TurnLosesNothing(cfg, default, RunOf(cfg, default, q, ts[..n]), ts[n]);
    }
  }

  /**
    Which notes wake the controller: creations and deletions of what the FeastOperator owns, and of the
    updates those that the default predicate passes or that start a deletion, and no others.
   */
  lemma DeliveryWakes(cfg: Cfg, default: DefaultPredicate, q: Controlled, note: Note)
    requires note in q.notes && !q.queued
    ensures Took(cfg, default, q, Delivered(note)).queued <==> match note
      case Created(made) => made.controller == Feast
      case Deleted(was) => was.controller == Feast
      case Updated(was, made) =>
        && (was.controller == Feast || made.controller == Feast)
        && (default(was, made) || (made.terminating && !was.terminating))
    ensures Took(cfg, default, q, Delivered(note)).notes == q.notes - multiset{note}
  {
  }
}
