/**
  Why the ConfigMap must be the module's for no wake-up to be lost: the turns by which one that
  was disowned vanishes unnoticed.
*/
module Orphan {
  import opened Wrappers
  import opened Cluster
  import opened Protocol
  import opened Teardown
  import opened Wakeup

  const OTHER := "other"
  const BOTH := {MODULE_FINALIZER, OTHER}

  /** A cluster that holds nothing but the ConfigMap, at this version, with these finalizers. */
  function Holding(version: nat, terminating: bool, finalizers: set<string>, controller: Controller): World {
    var cm := ConfigMap(1, version, terminating, finalizers, map[], map[], NoStamp, controller);
    World(Some(cm), None, None, map[], map[], 0, version, 0)
  }

  /** No note in flight concerns the FeastOperator. */
  ghost predicate AllIdle(notes: multiset<Note>) {
    forall note :: note in notes ==> !Concerns(note)
  }

  /** Somebody disowns the ConfigMap, and the note of that is delivered. */
  lemma Disowning(cfg: Cfg, default: DefaultPredicate)
    ensures
      var q := Controlled(Sys(Holding(1, false, {MODULE_FINALIZER}, Feast), Rest(Fresh)), true, multiset{});
      var was, made := Holding(1, false, {MODULE_FINALIZER}, Feast).cm.value,
        Holding(2, false, {MODULE_FINALIZER}, Nobody).cm.value;
      var r := Took(cfg, default, Took(cfg, default, q, Happens(Env(Disown))), Delivered(Updated(was, made)));
      r == Controlled(Sys(Holding(2, false, {MODULE_FINALIZER}, Nobody), Rest(Fresh)), true, multiset{})
  {
    var q := Controlled(Sys(Holding(1, false, {MODULE_FINALIZER}, Feast), Rest(Fresh)), true, multiset{});
    var was, made := Holding(1, false, {MODULE_FINALIZER}, Feast).cm.value,
      Holding(2, false, {MODULE_FINALIZER}, Nobody).cm.value;
    assert Next(cfg, q.s, Env(Disown)) == Sys(Holding(2, false, {MODULE_FINALIZER}, Nobody), Rest(Fresh));
    assert Report(q.s.w, Holding(2, false, {MODULE_FINALIZER}, Nobody)) == multiset{Updated(was, made)};
  }

  /** Others' acts on a ConfigMap that nobody controls make no note that concerns the FeastOperator. */
  lemma OrphanTurn(cfg: Cfg, default: DefaultPredicate, q: Controlled, a: Act, w: World)
    requires Apply(q.s.w, a) == w && q.s.pc.Rest? && AllIdle(q.notes)
    requires q.s.w.cm.Some? && q.s.w.cm.value.controller == Nobody && (w.cm.Some? ==> w.cm.value.controller == Nobody)
    ensures var r := Took(cfg, default, q, Happens(Env(a)));
      r.s == Sys(w, q.s.pc) && r.queued == q.queued && AllIdle(r.notes)
  {
  }

  /** Likewise a served call of the module that does not fail. */
  lemma OrphanCall(cfg: Cfg, default: DefaultPredicate, q: Controlled, s: Sys)
    requires !q.s.pc.Rest? && Advance(cfg, q.s) == s && (s.pc.Rest? ==> s.pc.outcome == Succeeded) && AllIdle(q.notes)
    requires q.s.w.cm.Some? && q.s.w.cm.value.controller == Nobody && s.w.cm.Some? && s.w.cm.value.controller == Nobody
    ensures var r := Took(cfg, default, q, Happens(Done)); r.s == s && r.queued == q.queued && AllIdle(r.notes)
  {
  }

  lemma OrphanActs()
    ensures Apply(Holding(2, false, {MODULE_FINALIZER}, Nobody), AddFinalizer(OTHER)) == Holding(3, false, BOTH, Nobody)
    ensures Apply(Holding(3, false, BOTH, Nobody), DeleteCmByHand) == Holding(4, true, BOTH, Nobody)
    ensures Apply(Holding(5, true, {OTHER}, Nobody), DropFinalizer(OTHER)).cm == None
  {
    assert {MODULE_FINALIZER} + {OTHER} == BOTH && {OTHER} - {OTHER} == {};
  }

  const OFF := Live(false, false)

  /** The calls of a reconcile with both capabilities removed: it lets the terminating ConfigMap go. */
  lemma OrphanCalls(cfg: Cfg)
    ensures
      var w, v := Holding(4, true, BOTH, Nobody), Holding(5, true, {OTHER}, Nobody);
      && Advance(cfg, Sys(w, UnlabelGet(OFF))) == Sys(w, CmGet(OFF))
      && Advance(cfg, Sys(w, CmGet(OFF))) == Sys(w, CmUpdate(OFF, w.cm.value))
      && Advance(cfg, Sys(w, CmUpdate(OFF, w.cm.value))) == Sys(v, RollGetCm(OFF))
      && Advance(cfg, Sys(v, RollGetCm(OFF))) == Sys(v, RollGetDeploy(OFF, cfg.hash(map[])))
      && Advance(cfg, Sys(v, RollGetDeploy(OFF, cfg.hash(map[])))) == Sys(v, Rest(Succeeded))
  {
    assert MODULE_FINALIZER != OTHER && |MODULE_FINALIZER| != |OTHER|;
    assert BOTH - {MODULE_FINALIZER} == {OTHER};
  }

  lemma RunOfSnoc(cfg: Cfg, default: DefaultPredicate, q: Controlled, ts: seq<Turn>, t: Turn)
    ensures RunOf(cfg, default, q, ts + [t]) == Took(cfg, default, RunOf(cfg, default, q, ts), t)
  {
    assert (ts + [t])[..|ts|] == ts;
  }

  lemma {:induction false} RunOfConcat(cfg: Cfg, default: DefaultPredicate, q: Controlled, ts: seq<Turn>, us: seq<Turn>)
    ensures RunOf(cfg, default, q, ts + us) == RunOf(cfg, default, RunOf(cfg, default, q, ts), us)
  {
    if us == [] {
      assert ts + us == ts;
    } else {
      var n := |us| - 1;
      RunOfConcat(cfg, default, q, ts, us[..n]);
      assert (ts + us)[..|ts + us| - 1] == ts + us[..n];
    }
  }

  lemma TwoTurns(cfg: Cfg, default: DefaultPredicate, q: Controlled, t: Turn, u: Turn)
    ensures RunOf(cfg, default, q, [t, u]) == Took(cfg, default, Took(cfg, default, q, t), u)
  {
    RunOfSnoc(cfg, default, q, [], t);
    RunOfSnoc(cfg, default, q, [t], u);
    assert [] + [t] == [t] && [t] + [u] == [t, u];
  }

  /** The ConfigMap is disowned, and the note of that is delivered. */
  function Disowned(): seq<Turn> {
    var was, made := Holding(1, false, {MODULE_FINALIZER}, Feast).cm.value,
      Holding(2, false, {MODULE_FINALIZER}, Nobody).cm.value;
    [Happens(Env(Disown)), Delivered(Updated(was, made))]
  }

  /** It gets a foreign finalizer and is deleted. */
  const SHARED := [Happens(Env(AddFinalizer(OTHER))), Happens(Env(DeleteCmByHand))]

  const REMOVE := Reconcile(Some(Capabilities(Removed, Removed)))

  /** A reconcile starts and makes `n` calls. */
  function Calls(n: nat): seq<Turn> {
    if n == 0 then [Happens(Begin(REMOVE))] else Calls(n - 1) + [Happens(Done)]
  }

  lemma Sharing(cfg: Cfg, default: DefaultPredicate, q: Controlled)
    requires q.s == Sys(Holding(2, false, {MODULE_FINALIZER}, Nobody), Rest(Fresh)) && q.queued && AllIdle(q.notes)
    ensures var r := RunOf(cfg, default, q, SHARED);
      r.s == Sys(Holding(4, true, BOTH, Nobody), Rest(Fresh)) && r.queued && AllIdle(r.notes)
  {
    var q1 := Took(cfg, default, q, SHARED[0]);
    OrphanActs();
    OrphanTurn(cfg, default, q, AddFinalizer(OTHER), Holding(3, false, BOTH, Nobody));
    OrphanTurn(cfg, default, q1, DeleteCmByHand, Holding(4, true, BOTH, Nobody));
    TwoTurns(cfg, default, q, SHARED[0], SHARED[1]);
    assert SHARED == [SHARED[0], SHARED[1]];
  }

  /** The state after `n` calls of the reconcile. */
  function StateAfter(cfg: Cfg, n: nat): Sys
    requires n <= 5
  {
    var w, v := Holding(4, true, BOTH, Nobody), Holding(5, true, {OTHER}, Nobody);
    if n == 0 then Sys(w, UnlabelGet(OFF))
    else if n == 1 then Sys(w, CmGet(OFF))
    else if n == 2 then Sys(w, CmUpdate(OFF, w.cm.value))
    else if n == 3 then Sys(v, RollGetCm(OFF))
    else if n == 4 then Sys(v, RollGetDeploy(OFF, cfg.hash(map[])))
    else Sys(v, Rest(Succeeded))
  }

  lemma StateAdvances(cfg: Cfg, n: nat)
    requires n < 5
    ensures !StateAfter(cfg, n).pc.Rest? && Advance(cfg, StateAfter(cfg, n)) == StateAfter(cfg, n + 1)
  {
    OrphanCalls(cfg);
  }

  lemma NobodyControls(cfg: Cfg, n: nat)
    requires n <= 5
    ensures
      var s := StateAfter(cfg, n);
      s.w.cm.Some? && s.w.cm.value.controller == Nobody && (s.pc.Rest? ==> s.pc.outcome == Succeeded)
  {
  }

  lemma ReconcileStarts(cfg: Cfg, default: DefaultPredicate, q: Controlled)
    requires q.s == Sys(Holding(4, true, BOTH, Nobody), Rest(Fresh)) && q.queued && AllIdle(q.notes)
    ensures var r := RunOf(cfg, default, q, Calls(0)); r.s == StateAfter(cfg, 0) && !r.queued && AllIdle(r.notes)
  {
    BeginTurn(cfg, default, q, REMOVE);
    RunOfSnoc(cfg, default, q, [], Happens(Begin(REMOVE)));
    assert [] + [Happens(Begin(REMOVE))] == Calls(0);
  }

  lemma BeginTurn(cfg: Cfg, default: DefaultPredicate, q: Controlled, job: Job)
    requires q.queued && q.s.pc.Rest?
    ensures
      var r := Took(cfg, default, q, Happens(Begin(job)));
      r.s == Sys(q.s.w, Entry(cfg, job)) && !r.queued && r.notes == q.notes
  {
    assert q.notes + multiset{} == q.notes;
  }

  /** The reconcile lets the terminating ConfigMap go and succeeds. */
  lemma {:induction false} ReconcileReleases(cfg: Cfg, default: DefaultPredicate, q: Controlled, n: nat)
    requires q.s == Sys(Holding(4, true, BOTH, Nobody), Rest(Fresh)) && q.queued && AllIdle(q.notes) && n <= 5
    ensures var r := RunOf(cfg, default, q, Calls(n)); r.s == StateAfter(cfg, n) && !r.queued && AllIdle(r.notes)
  {
    if n == 0 {
      ReconcileStarts(cfg, default, q);
    } else {
      ReconcileReleases(cfg, default, q, n - 1);
      StateAdvances(cfg, n - 1);
      NobodyControls(cfg, n - 1);
      NobodyControls(cfg, n);
      OneMoreCall(cfg, default, q, n);
      OrphanCall(cfg, default, RunOf(cfg, default, q, Calls(n - 1)), StateAfter(cfg, n));
    }
  }

  lemma OneMoreCall(cfg: Cfg, default: DefaultPredicate, q: Controlled, n: nat)
    requires n > 0
    ensures RunOf(cfg, default, q, Calls(n)) == Took(cfg, default, RunOf(cfg, default, q, Calls(n - 1)), Happens(Done))
  {
    RunOfSnoc(cfg, default, q, Calls(n - 1), Happens(Done));
  }

  lemma OrphanVanishes(cfg: Cfg, default: DefaultPredicate, q: Controlled)
    requires q.s == Sys(Holding(5, true, {OTHER}, Nobody), Rest(Succeeded)) && !q.queued && AllIdle(q.notes)
    ensures
      Lost(default, RunOf(cfg, default, q, [Happens(Env(DropFinalizer(OTHER)))]))
  {
    OrphanActs();
    OrphanTurn(cfg, default, q, DropFinalizer(OTHER), Apply(q.s.w, DropFinalizer(OTHER)));
    RunOfSnoc(cfg, default, q, [], Happens(Env(DropFinalizer(OTHER))));
    assert [] + [Happens(Env(DropFinalizer(OTHER)))] == [Happens(Env(DropFinalizer(OTHER)))];
  }

  /** All that happens after the disowning. */
  function Afterwards(): seq<Turn> {
    SHARED + Calls(5) + [Happens(Env(DropFinalizer(OTHER)))]
  }

  lemma {:induction false} CallsAreLiving(n: nat)
    ensures forall t :: t in Calls(n) ==> Living(t)
  {
    if n > 0 { CallsAreLiving(n - 1); }
  }

  /** The ConfigMap is gone or going, and nobody will come to know. */
  ghost predicate Lost(default: DefaultPredicate, q: Controlled) {
    NeedsWork(q.s.w) && !Awaited(default, q) && !Underway(q.s.pc)
  }

  lemma AfterwardsLoses(cfg: Cfg, default: DefaultPredicate, q: Controlled)
    requires q.s == Sys(Holding(2, false, {MODULE_FINALIZER}, Nobody), Rest(Fresh)) && q.queued && AllIdle(q.notes)
    ensures Lost(default, RunOf(cfg, default, q, Afterwards()))
  {
    var last := [Happens(Env(DropFinalizer(OTHER)))];
    var q2 := RunOf(cfg, default, q, SHARED);
    Sharing(cfg, default, q);
    ReconcileReleases(cfg, default, q2, 5);
    var q3 := RunOf(cfg, default, q2, Calls(5));
    OrphanVanishes(cfg, default, q3);
    RunOfConcat(cfg, default, q, SHARED, Calls(5));
    RunOfConcat(cfg, default, q, SHARED + Calls(5), last);
  }

  /** A cluster whose ConfigMap is the module's, with a reconcile queued. */
  function Start(): Controlled {
    Controlled(Sys(Holding(1, false, {MODULE_FINALIZER}, Feast), Rest(Fresh)), true, multiset{})
  }

  lemma DisownedRun(cfg: Cfg, default: DefaultPredicate)
    ensures RunOf(cfg, default, Start(), Disowned())
      == Controlled(Sys(Holding(2, false, {MODULE_FINALIZER}, Nobody), Rest(Fresh)), true, multiset{})
  {
    Disowning(cfg, default);
    TwoTurns(cfg, default, Start(), Disowned()[0], Disowned()[1]);
    assert Disowned() == [Disowned()[0], Disowned()[1]];
  }

  /**
    One act of disowning loses a wake-up.  From a cluster whose ConfigMap is the module's, with a
    reconcile queued: the ConfigMap is disowned, gets a foreign finalizer and is deleted; the reconcile
    lets it go; it vanishes with the foreign finalizer, and nothing is queued, on its way or running.
   */
  lemma AnOrphanIsLost(cfg: Cfg, default: DefaultPredicate)
    ensures WellFormed(Start().s.w) && Owned(Start().s.w) && Start().s.pc.Rest? && Start().queued
    ensures forall t :: t in Afterwards() ==> Living(t)
    ensures Lost(default, RunOf(cfg, default, Start(), Disowned() + Afterwards()))
  {
    DisownedRun(cfg, default);
    AfterwardsLoses(cfg, default, RunOf(cfg, default, Start(), Disowned()));
    RunOfConcat(cfg, default, Start(), Disowned(), Afterwards());
    CallsAreLiving(5);
  }
}
