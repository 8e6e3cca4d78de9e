/**
  What the module's steps leave alone in every run: reconciles and attempts of the finalizer in any
  order, with failures and restarts, whatever the others do.
*/
module AllRuns {
  import opened Wrappers
  import opened Cluster
  import opened Protocol
  import opened Teardown
  import opened Reconciling

  /** What the flow has read of the ConfigMap and is about to write over. */
  function Read(pc: Pc): Option<ConfigMap> {
    match pc
    case CmUpdate(_, read) => Some(read)
    case MarkUpdate(read, _) => Some(read)
    case RelUpdate(read) => Some(read)
    case _ => None
  }

  /** What has been read is what is there, or its version is outdated. */
  predicate Versioned(s: Sys) {
    WellFormed(s.w) && (Read(s.pc).Some? ==> Saw(s.w, Read(s.pc).value))
  }

  lemma CallsKeepWellFormed(w: World, call: Call)
    requires WellFormed(w) && !call.UpdateCm?
    ensures
      var v := Serve(w, call).0;
      WellFormed(v) && v.rev >= w.rev && (v.cm.Some? ==> v.cm == w.cm || v.cm.value.version > w.rev)
  {
  }

  lemma PutsKeepWellFormed(w: World, base: ConfigMap, next: ConfigMap)
    requires WellFormed(w)
    ensures WellFormed(ServeUpdateCm(w, base, next).0)
  {
  }

  lemma ReadsAreCurrent(cfg: Cfg, pc: Pc, reply: Reply)
    requires Read(Resume(cfg, pc, reply)).Some?
    ensures pc.CmGet? || pc.MarkGet? || pc.MarkClock? || pc.RelGet?
    ensures !pc.MarkClock? ==> reply.GotCm? && Read(Resume(cfg, pc, reply)) == Some(reply.cm)
    ensures pc.MarkClock? ==> Read(Resume(cfg, pc, reply)) == Some(pc.read)
  {
  }

  lemma GettersRead(w: World, pc: Pc)
    requires pc.CmGet? || pc.MarkGet? || pc.MarkClock? || pc.RelGet?
    ensures Serve(w, Pending(pc)).0 == w
    ensures Serve(w, Pending(pc)).1.GotCm? ==> w.cm == Some(Serve(w, Pending(pc)).1.cm)
  {
  }

  /** The clock is read between the reading and the marking. */
  predicate Keeps(s: Sys) {
    Versioned(s) && (s.pc.MarkClock? ==> Saw(s.w, s.pc.read))
  }

  lemma CallsKeep(cfg: Cfg, s: Sys)
    requires Keeps(s) && !s.pc.Rest?
    ensures WellFormed(Advance(cfg, s).w)
    ensures Read(Advance(cfg, s).pc).Some? ==> Saw(Advance(cfg, s).w, Read(Advance(cfg, s).pc).value)
  {
    var call := Pending(s.pc);
    if call.UpdateCm? { PutsKeepWellFormed(s.w, call.base, call.next); } else { CallsKeepWellFormed(s.w, call); }
    if Read(Advance(cfg, s).pc).Some? {
      ReadsAreCurrent(cfg, s.pc, Serve(s.w, call).1);
      GettersRead(s.w, s.pc);
    }
  }

  lemma ClockComesAfterReading(cfg: Cfg, s: Sys)
    requires Keeps(s) && !s.pc.Rest? && Advance(cfg, s).pc.MarkClock?
    ensures Saw(Advance(cfg, s).w, Advance(cfg, s).pc.read)
  {
  }

  lemma StepKeeps(cfg: Cfg, s: Sys, e: Event)
    requires Keeps(s)
    ensures Keeps(Next(cfg, s, e))
  {
    match e
    case Env(a) => ActsBumpVersions(s.w, a);
    case Begin(_) =>
    case Refused =>
    case _ =>
      if !s.pc.Rest? {
        CallsKeep(cfg, s);
        if Advance(cfg, s).pc.MarkClock? { ClockComesAfterReading(cfg, s); }
      }
  }

  lemma {:induction false} RunKeeps(cfg: Cfg, s: Sys, es: seq<Event>)
    requires WellFormed(s.w) && s.pc.Rest?
    ensures Keeps(Run(cfg, s, es))
  {
    if es != [] {
      var n := |es| - 1;
      RunKeeps(cfg, s, es[..n]);
      StepKeeps(cfg, Run(cfg, s, es[..n]), es[n]);
    }
  }

  // ----- the finalizers of others -----

  lemma PutKeepsFinalizers(w: World, read: ConfigMap, next: ConfigMap)
    requires WellFormed(w) && Saw(w, read) && read.finalizers - {MODULE_FINALIZER} <= next.finalizers
    ensures OnlyOwnFinalizer(w, ServeUpdateCm(w, read, next).0)
  {
    assert forall x :: x in read.finalizers && x != MODULE_FINALIZER ==> x in read.finalizers - {MODULE_FINALIZER};
  }

  lemma CallKeepsFinalizers(cfg: Cfg, s: Sys)
    requires Keeps(s) && !s.pc.Rest?
    ensures OnlyOwnFinalizer(s.w, Advance(cfg, s).w)
  {
    var call := Pending(s.pc);
    if call.UpdateCm? {
      PutKeepsFinalizers(s.w, call.base, call.next);
    }
  }

  /**
    In every run whatsoever no step of the module removes a finalizer but its own: not a reconcile that
    rewrites the ConfigMap, not the marking, not the delete.
   */
  lemma OnlyOwnFinalizerEver(cfg: Cfg, s: Sys, es: seq<Event>, e: Event)
    requires WellFormed(s.w) && s.pc.Rest? && ByModule(e)
    ensures OnlyOwnFinalizer(Run(cfg, s, es).w, Next(cfg, Run(cfg, s, es), e).w)
  {
    RunKeeps(cfg, s, es);
    var t := Run(cfg, s, es);
    if !t.pc.Rest? { CallKeepsFinalizers(cfg, t); }
  }

  // ----- what the uninstall leaves of the ConfigMap -----

  /** Only the two flags change, and only to off; everything but them, the start and the finalizers stays. */
  ghost predicate OnlySwitchesOff(w: World, v: World) {
    w.cm.Some? && v.cm.Some? ==>
      var c, d := w.cm.value, v.cm.value;
      && (forall k :: k in c.data || k in d.data ==>
            || (k in c.data && k in d.data && c.data[k] == d.data[k])
            || (k in {KEY_FEATURE_STORE, KEY_DATA_REGISTRY} && k in d.data && d.data[k] == "false"))
      && d.labels == c.labels && d.controller == c.controller && d.uid == c.uid
  }

  /**
    In every run of the uninstall each step of the module leaves the other keys of the data, the
    labels and the owner.
   */
  lemma UninstallOnlySwitchesOff(cfg: Cfg, s: Sys, es: seq<Event>, e: Event)
    requires Startable(s.w, s.pc) && UninstallRun(es) && ByModule(e)
    ensures OnlySwitchesOff(Run(cfg, s, es).w, Next(cfg, Run(cfg, s, es), e).w)
  {
    RunKeepsInv(cfg, s, es);
    var t := Run(cfg, s, es);
    if !t.pc.Rest? { CallOnlySwitchesOff(cfg, t); }
  }

  lemma PutOnlySwitchesOff(w: World, read: ConfigMap, next: ConfigMap)
    requires Saw(w, read) && next.labels == read.labels && next.controller == read.controller
    requires next.data == read.data || next.data == DisabledData(read.data)
    ensures OnlySwitchesOff(w, ServeUpdateCm(w, read, next).0)
  {
  }

  lemma CallOnlySwitchesOff(cfg: Cfg, s: Sys)
    requires Inv(cfg, s) && !s.pc.Rest?
    ensures OnlySwitchesOff(s.w, Advance(cfg, s).w)
  {
    var call := Pending(s.pc);
    if call.UpdateCm? { PutOnlySwitchesOff(s.w, call.base, call.next); }
  }
}
