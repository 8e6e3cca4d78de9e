/**
  The wait for the feast operator over whole runs: it is bounded, measured from a clock reading of
  the run itself, and while it lasts the module writes nothing.
*/
module Waiting {
  import opened Cluster
  import opened Protocol
  import opened Teardown

  // ----- where the recorded start comes from -----

  /** The clock was read at this point of the run, and gave this stamp. */
  ghost predicate ClockRead(cfg: Cfg, s: Sys, es: seq<Event>, k: nat, stamp: Stamp)
    requires k < |es|
  {
    var t := Run(cfg, s, es[..k]);
    t.pc.MarkClock? && es[k] == Done && stamp == Format(t.w.now)
  }

  /** The stamp such a flow is about to write is the rounded reading of the clock at an earlier point of the run. */
  lemma {:induction false} StampIsARoundedReading(cfg: Cfg, s: Sys, es: seq<Event>)
    requires Startable(s.w, s.pc) && UninstallRun(es)
    requires var t := Run(cfg, s, es); t.pc.MarkUpdate? && t.pc.read.start == NoStamp
    ensures exists k | 0 <= k < |es| :: ClockRead(cfg, s, es, k, Run(cfg, s, es).pc.stamp)
  {
    var n := |es| - 1;
    var t := Run(cfg, s, es[..n]);
    assert es[n] in es && forall e :: e in es[..n] ==> e in es;
    if t.pc.MarkUpdate? {
      StampIsARoundedReading(cfg, s, es[..n]);
      var k :| 0 <= k < n && ClockRead(cfg, s, es[..n], k, t.pc.stamp);
      assert es[..n][..k] == es[..k];
      assert ClockRead(cfg, s, es, k, t.pc.stamp);
    } else {
      RunKeepsInv(cfg, s, es[..n]);
      OnlyClockStartsUpdate(cfg, t, es[n]);
      assert ClockRead(cfg, s, es, n, Run(cfg, s, es).pc.stamp);
    }
  }

  lemma UpdateFollowsMarking(cfg: Cfg, pc: Pc, reply: Reply)
    requires Resume(cfg, pc, reply).MarkUpdate?
    ensures match pc
      case MarkGet =>
        reply.GotCm? && reply.cm.start != NoStamp && Resume(cfg, pc, reply) == MarkUpdate(reply.cm, reply.cm.start)
      case MarkClock(read) => reply.Clock? && Resume(cfg, pc, reply) == MarkUpdate(read, Format(reply.now))
      case _ => false
  {
  }

  lemma OnlyClockStartsUpdate(cfg: Cfg, s: Sys, e: Event)
    requires !s.pc.MarkUpdate? && Next(cfg, s, e).pc.MarkUpdate? && Next(cfg, s, e).pc.read.start == NoStamp
    ensures s.pc.MarkClock? && e == Done && Next(cfg, s, e).pc.stamp == Format(s.w.now)
  {
    if e == Done && !s.pc.Rest? { UpdateFollowsMarking(cfg, s.pc, Serve(s.w, Pending(s.pc)).1); }
  }

  // ----- what a run records was read in it -----

  /** The starts that are recorded, that the flow has read, and that it is about to write. */
  function Starts(s: Sys): set<Stamp> {
    (if s.w.cm.Some? then {s.w.cm.value.start} else {})
    + (match s.pc
       case MarkUpdate(_, stamp) => {stamp}
       case WaitClock(read) => {read.start}
       case RelUpdate(read) => {read.start}
       case _ => {})
  }

  lemma ActsBringNoStart(cfg: Cfg, s: Sys, a: Act)
    requires Inv(cfg, s) && Polite(a)
    ensures Starts(s.(w := Apply(s.w, a))) <= Starts(s)
  {
    PoliteActs(s.w, a);
  }

  lemma CallsBringReadings(cfg: Cfg, s: Sys, stamp: Stamp)
    requires Inv(cfg, s) && !s.pc.Rest? && stamp in Starts(Advance(cfg, s)) && stamp != NoStamp
    ensures stamp in Starts(s) || (s.pc.MarkClock? && stamp == Format(s.w.now))
  {
  }

  lemma StepsBringReadings(cfg: Cfg, s: Sys, e: Event, stamp: Stamp)
    requires Inv(cfg, s) && Uninstalling(e) && stamp in Starts(Next(cfg, s, e)) && stamp != NoStamp
    ensures stamp in Starts(s) || (s.pc.MarkClock? && e == Done && stamp == Format(s.w.now))
  {
    match e
    case Env(a) => ActsBringNoStart(cfg, s, a);
    case Begin(_) =>
    case Refused =>
    case _ => if !s.pc.Rest? { CallsBringReadings(cfg, s, stamp); }
  }

  ghost predicate ReadInRun(cfg: Cfg, s: Sys, es: seq<Event>, stamp: Stamp) {
    exists k | 0 <= k < |es| :: ClockRead(cfg, s, es, k, stamp)
  }

  predicate Unstamped(w: World) {
    w.cm.Some? ==> w.cm.value.start == NoStamp
  }

  /**
    Where no start was recorded at the beginning, every start is the rounded reading of the clock at
    some point of the run.
   */
  lemma {:induction false} StartsAreReadings(cfg: Cfg, s: Sys, es: seq<Event>, stamp: Stamp)
    requires Startable(s.w, s.pc) && Unstamped(s.w) && UninstallRun(es)
    requires stamp in Starts(Run(cfg, s, es)) && stamp != NoStamp
    ensures ReadInRun(cfg, s, es, stamp)
  {
    if es != [] {
      var n := |es| - 1;
      var t := Run(cfg, s, es[..n]);
      assert es[n] in es && forall e :: e in es[..n] ==> e in es;
      RunKeepsInv(cfg, s, es[..n]);
      StepsBringReadings(cfg, t, es[n], stamp);
      if stamp in Starts(t) {
        StartsAreReadings(cfg, s, es[..n], stamp);
        var k :| 0 <= k < n && ClockRead(cfg, s, es[..n], k, stamp);
        assert es[..n][..k] == es[..k];
        assert ClockRead(cfg, s, es, k, stamp);
      } else {
        assert ClockRead(cfg, s, es, n, stamp);
      }
    }
  }

  // ----- the wait is bounded -----

  /** This start is the rounded reading of the clock at point `k` of the run, `elapsed` ago. */
  ghost predicate ReadAgo(cfg: Cfg, s: Sys, es: seq<Event>, k: nat, start: Stamp, elapsed: int)
    requires k < |es|
  {
    ClockRead(cfg, s, es, k, start) && Run(cfg, s, es).w.now - Run(cfg, s, es[..k]).w.now == elapsed
  }

  /** What a waiting flow knows of the start when it blocks. */
  lemma BlockedStart(cfg: Cfg, s: Sys, why: Why)
    requires Inv(cfg, s) && why in {NotTerminating, BadStart, Waiting} && Blocks(cfg, s, why)
    ensures why == Waiting || why == BadStart
    ensures why == BadStart ==> s.w.cm.Some? && s.w.cm.value.start.Garbage?
    ensures why == Waiting ==>
      s.pc.WaitClock? && s.pc.read.start.At? && s.w.now < s.pc.read.start.instant + RELEASE_TIMEOUT
  {
  }

  /** Measured from this instant, the wait has not lasted too long, and is not over too early. */
  ghost predicate InBounds(cfg: Cfg, t: Sys, e: Event, clock: int) {
    && (forall why | why in {NotTerminating, BadStart, Waiting} && Blocks(cfg, t, why)
           :: t.w.now < clock + 300 * SECOND)
    && (LetsGo(t.w, Next(cfg, t, e).w) && HeldByFeast(t.w) ==> t.w.now > clock + 299 * SECOND)
  }

  /**
    The start is rounded down to a second when the clock is read, so measured from that reading no
    flow blocks after 300 s, and while the feast finalizer is held none lets go within 299 s.
   */
  lemma RecordedReadingBoundsWait(cfg: Cfg, s: Sys, clock: int, es: seq<Event>, e: Event)
    requires Inv(cfg, s) && UninstallRun(es) && Stamped(s, Format(clock)) && ByModule(e)
    ensures
      InBounds(cfg, Run(cfg, s, es), e, clock)
  {
    BlocksOnlyInTime(cfg, s, es, Format(clock).instant);
    LetsGoOnlyOverdue(cfg, s, es, Format(clock).instant, e);
  }

  /**
    In every run of an uninstall that found no start recorded: when the wait blocks, it does so for the
    start it has read, and that was made from a reading of the clock less than 300 s ago in this run.
   */
  lemma WaitEnds(cfg: Cfg, s: Sys, es: seq<Event>, why: Why)
    requires Startable(s.w, s.pc) && Unstamped(s.w) && UninstallRun(es)
    requires why in {NotTerminating, BadStart, Waiting} && Blocks(cfg, Run(cfg, s, es), why)
    ensures why == Waiting && Run(cfg, s, es).pc.WaitClock?
    ensures
      var start := Run(cfg, s, es).pc.read.start;
      exists k, elapsed :: 0 <= k < |es| && elapsed < 300 * SECOND && ReadAgo(cfg, s, es, k, start, elapsed)
  {
    var t := Run(cfg, s, es);
    RunKeepsInv(cfg, s, es);
    BlockedStart(cfg, t, why);
    var start := if why == Waiting then t.pc.read.start else t.w.cm.value.start;
    StartsAreReadings(cfg, s, es, start);
    var k :| 0 <= k < |es| && ClockRead(cfg, s, es, k, start);
    assert ReadAgo(cfg, s, es, k, start, t.w.now - Run(cfg, s, es[..k]).w.now);
  }

  /**
    And when the module lets something go while the feast finalizer is held, the recorded start was made
    from a reading of the clock more than 299 s ago in this run.
   */
  lemma WaitLasts(cfg: Cfg, s: Sys, es: seq<Event>, e: Event)
    requires Startable(s.w, s.pc) && Unstamped(s.w) && UninstallRun(es) && ByModule(e)
    requires var t := Run(cfg, s, es); LetsGo(t.w, Next(cfg, t, e).w) && HeldByFeast(t.w)
    ensures
      var start := Run(cfg, s, es).w.cm.value.start;
      exists k, elapsed :: 0 <= k < |es| && elapsed > 299 * SECOND && ReadAgo(cfg, s, es, k, start, elapsed)
  {
    var t := Run(cfg, s, es);
    RunKeepsInv(cfg, s, es);
    SafeStep(cfg, t);
    var start := t.w.cm.value.start;
    StartsAreReadings(cfg, s, es, start);
    var k :| 0 <= k < |es| && ClockRead(cfg, s, es, k, start);
    assert ReadAgo(cfg, s, es, k, start, t.w.now - Run(cfg, s, es[..k]).w.now);
  }

  /**
    Whatever happens after this run: no wait blocks 300 s after the instant or later, and nothing held
    is let go within 299 s.
   */
  ghost predicate BoundsWait(cfg: Cfg, s: Sys, es: seq<Event>, clock: int) {
    forall later, e :: UninstallRun(later) && ByModule(e) ==> InBounds(cfg, Run(cfg, s, es + later), e, clock)
  }

  /**
    The bounded wait.  In every run of an uninstall that found no start recorded, once one is recorded it
    was made from one reading of the clock in this run, and that one reading bounds the wait of every
    later run from both sides, however many attempts there are.
   */
  lemma OneReadingBoundsWait(cfg: Cfg, s: Sys, es: seq<Event>)
    requires Startable(s.w, s.pc) && Unstamped(s.w) && UninstallRun(es)
    requires var w := Run(cfg, s, es).w; w.cm.Some? && w.cm.value.start != NoStamp
    ensures
      exists k | 0 <= k < |es| ::
        && ClockRead(cfg, s, es, k, Run(cfg, s, es).w.cm.value.start)
        && BoundsWait(cfg, s, es, Run(cfg, s, es[..k]).w.now)
  {
    var t := Run(cfg, s, es);
    var start := t.w.cm.value.start;
    StartsAreReadings(cfg, s, es, start);
    RunKeepsInv(cfg, s, es);
    var k :| 0 <= k < |es| && ClockRead(cfg, s, es, k, start);
    var clock := Run(cfg, s, es[..k]).w.now;
    forall later, e | UninstallRun(later) && ByModule(e)
      ensures InBounds(cfg, Run(cfg, s, es + later), e, clock)
    {
      RunConcat(cfg, s, es, later);
      RecordedReadingBoundsWait(cfg, t, clock, later, e);
    }
    assert BoundsWait(cfg, s, es, clock);
  }

  // ----- waiting runs write nothing -----

  /** Acts that touch neither the ConfigMap nor the Deployment. */
  predicate Aside(a: Act) {
    || a.Tick? || a.CreateNsByHand? || a.LabelNs? || a.DropNsLabel? || a.DeleteNs?
    || a.PutBinding? || a.LoseBinding? || a.PutRole? || a.LoseRole?
  }

  predicate StillHeld(cfg: Cfg, w: World) {
    HandedOver(cfg, w) && Going(w) && !Free(w)
  }

  predicate WaitingPc(pc: Pc, cm: ConfigMap) {
    match pc
    case Rest(outcome) => outcome != Succeeded
    case UnlabelGet(_) => true
    case UnlabelPatch(_) => true
    case MarkGet => true
    case RollGetCm(_) => true
    case RollGetDeploy(_, _) => true
    case DelGet => true
    case WaitGet => true
    case WaitClock(read) => read == cm
    case _ => false
  }

  lemma WaitingStep(cfg: Cfg, s: Sys, e: Event)
    requires Inv(cfg, s) && StillHeld(cfg, s.w) && WaitingPc(s.pc, s.w.cm.value)
    requires Uninstalling(e) && (e.Env? ==> Aside(e.act))
    ensures
      var t := Next(cfg, s, e);
      t.w.cm == s.w.cm && t.w.deploy == s.w.deploy && t.w.now >= s.w.now && WaitingPc(t.pc, s.w.cm.value)
  {
  }

  /**
    When others leave the ConfigMap and the Deployment alone, any number of further attempts, with
    whatever failures, leave both exactly as they are until the feast operator is overdue.
   */
  lemma {:induction false} UndisturbedRetriesChangeNothing(cfg: Cfg, s: Sys, es: seq<Event>)
    requires Startable(s.w, s.pc) && StillHeld(cfg, s.w)
    requires UninstallRun(es) && forall e :: e in es && e.Env? ==> Aside(e.act)
    requires !TimedOut(Run(cfg, s, es).w, s.w.cm.value.start)
    ensures
      var t := Run(cfg, s, es);
      t.w.cm == s.w.cm && t.w.deploy == s.w.deploy && t.w.now >= s.w.now && WaitingPc(t.pc, s.w.cm.value)
  {
    if es != [] {
      var n := |es| - 1;
      var t := Run(cfg, s, es[..n]);
      assert es[n] in es && forall e :: e in es[..n] ==> e in es;
      RunKeepsInv(cfg, s, es[..n]);
      TimeGoesOn(cfg, t, es[n]);
      UndisturbedRetriesChangeNothing(cfg, s, es[..n]);
      WaitingStep(cfg, t, es[n]);
    }
  }

  lemma CallsTakeNoTime(w: World, call: Call)
    ensures Serve(w, call).0.now == w.now
  {
  }

  lemma ActsTakeTime(w: World, a: Act)
    ensures Apply(w, a).now >= w.now
  {
  }

  lemma TimeGoesOn(cfg: Cfg, s: Sys, e: Event)
    ensures Next(cfg, s, e).w.now >= s.w.now
  {
    match e
    case Env(a) => ActsTakeTime(s.w, a);
    case _ => if !s.pc.Rest? { CallsTakeNoTime(s.w, Pending(s.pc)); }
  }

  // ----- waiting among others -----

  /** Where a waiting attempt can be: not about to write anything, nor past the wait. */
  predicate StillWaiting(pc: Pc) {
    match pc
    case Rest(outcome) => outcome != Succeeded
    case UnlabelGet(_) => true
    case UnlabelPatch(_) => true
    case MarkGet => true
    case RollGetCm(_) => true
    case RollGetDeploy(_, _) => true
    case DelGet => true
    case WaitGet => true
    case WaitClock(_) => true
    case _ => false
  }

  lemma FreeStays(cfg: Cfg, s: Sys, e: Event)
    requires Inv(cfg, s) && Uninstalling(e) && HandedOver(cfg, s.w) && Going(s.w)
    ensures Going(Next(cfg, s, e).w)
    ensures Free(s.w) ==> Free(Next(cfg, s, e).w)
  {
    TimeGoesOn(cfg, s, e);
    match e
    case Env(a) => PoliteActs(s.w, a);
    case Begin(_) =>
    case _ => if !s.pc.Rest? { CallsKeepGoing(cfg, s); }
  }

  lemma CallsKeepGoing(cfg: Cfg, s: Sys)
    requires Inv(cfg, s) && !s.pc.Rest? && HandedOver(cfg, s.w) && Going(s.w)
    ensures Going(Advance(cfg, s).w)
    ensures Free(s.w) ==> Free(Advance(cfg, s).w)
  {
  }

  /** A waiting attempt's next call writes neither object and leaves it waiting, or lets it pass. */
  lemma WaitingCallWritesNothing(cfg: Cfg, s: Sys)
    requires Inv(cfg, s) && !s.pc.Rest? && StillHeld(cfg, s.w) && StillWaiting(s.pc)
    ensures
      var t := Advance(cfg, s);
      t.w.cm == s.w.cm && t.w.deploy == s.w.deploy && (StillWaiting(t.pc) || !StillHeld(cfg, t.w))
  {
  }

  lemma {:induction false} PoliteWaiting(cfg: Cfg, s: Sys, es: seq<Event>)
    requires Startable(s.w, s.pc) && StillHeld(cfg, s.w) && UninstallRun(es) && !Free(Run(cfg, s, es).w)
    ensures var t := Run(cfg, s, es); Inv(cfg, t) && StillHeld(cfg, t.w) && StillWaiting(t.pc)
  {
    RunKeepsInv(cfg, s, es);
    if es != [] {
      var n := |es| - 1;
      var t := Run(cfg, s, es[..n]);
      assert es[n] in es && forall e :: e in es[..n] ==> e in es;
      RunKeepsInv(cfg, s, es[..n]);
      HandOverStaysInRuns(cfg, s, es[..n]);
      GoingStays(cfg, s, es[..n]);
      FreeStays(cfg, t, es[n]);
      PoliteWaiting(cfg, s, es[..n]);
      HandOverStays(cfg, t, es[n]);
      if (es[n].Done? || es[n].Lost?) && !t.pc.Rest? { WaitingCallWritesNothing(cfg, t); }
    }
  }

  lemma {:induction false} GoingStays(cfg: Cfg, s: Sys, es: seq<Event>)
    requires Startable(s.w, s.pc) && HandedOver(cfg, s.w) && Going(s.w) && UninstallRun(es)
    ensures Going(Run(cfg, s, es).w)
  {
    if es != [] {
      var n := |es| - 1;
      assert es[n] in es && forall e :: e in es[..n] ==> e in es;
      RunKeepsInv(cfg, s, es[..n]);
      HandOverStaysInRuns(cfg, s, es[..n]);
      GoingStays(cfg, s, es[..n]);
      FreeStays(cfg, Run(cfg, s, es[..n]), es[n]);
    }
  }

  /**
    Quiet retries: once the hand-over is complete, whatever others politely do to the ConfigMap and the
    Deployment, and however many attempts fail, no step of the module changes either, resource versions
    included, as long as the feast operator holds the ConfigMap in time.
   */
  lemma WaitingRunsWriteNothing(cfg: Cfg, s: Sys, es: seq<Event>, e: Event)
    requires Startable(s.w, s.pc) && StillHeld(cfg, s.w) && UninstallRun(es) && ByModule(e)
    requires !Free(Run(cfg, s, es).w)
    ensures
      var t := Run(cfg, s, es);
      var u := Next(cfg, t, e);
      u.w.cm == t.w.cm && u.w.deploy == t.w.deploy && !LetsGo(t.w, u.w)
  {
    PoliteWaiting(cfg, s, es);
    var t := Run(cfg, s, es);
    if !t.pc.Rest? {
      WaitingCallWritesNothing(cfg, t);
      SafeStep(cfg, t);
    }
  }
}
