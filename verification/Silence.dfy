/**
 * The initial-connect watchdog: a child from which nothing is ever read is killed in time. Each
 * SIGALRM that is caught without a jump is lost and costs one more polling interval.
 */
module Silence {
  import opened Posix
  import opened Supervisor
  import opened SignalSafety
  import opened StartSafety
  import opened TimerSafety

  /** A session limit, no lifetime limit, no monitor port, SIGALRM not blocked by the caller. */
  predicate WatchdogOnly(c: Config) {
    && ValidConfig(c) && c.zeroTime && c.maxSession >= 1 && c.maxLifetime == 0 && !c.monitoring
    && ALRM !in c.callerMask
  }

  /** The child is being watched: it is neither reaped nor being killed. */
  predicate Watching(pc: Pc) {
    || (pc.Run? && (pc.r.AdoptPipe? || pc.r.InstallHandlers?))
    || (pc.Try? && !pc.t.JudgeStatus?) || pc.Arm? || pc.Poll?
    || (pc.Catch? && !pc.x.PortDelay? && !pc.x.RestoreMask?)
    || (pc.DrainErr? && !pc.caller.FromWait?)
  }

  function Interval(c: Config): int {
    Min(c.pollTime, c.maxSession)
  }

  /** The session limit, moved on by what lost alarms cost. */
  function Limit(c: Config, s: State): int {
    s.g.startTime + c.maxSession + s.h.child.slack
  }

  /** A SIGALRM has been jumped on and the watchdog has not looked at the clock yet. */
  predicate Checking(s: State) {
    s.pc.Catch? && s.l.val == ALRM
    && (s.pc.x.Unblock? || s.pc.x.Dispatch? || s.pc.x.CatchLifetime? || s.pc.x.Watchdog?)
  }

  /** An alarm has gone off and has been neither acted on nor lost. */
  predicate Due(s: State) {
    ALRM in s.w.pending || Checking(s)
  }

  /** The deadline that is set, or that is about to be set from the seconds in hand. */
  function Deadline(s: State): Option<int> {
    if s.pc == Arm(ComputeSecs) then (if s.g.secsLeft == 0 then None else Some(s.w.clock + s.g.secsLeft))
    else if Disarmed(s.pc) then Some(s.w.clock + s.g.secsLeft)
    else s.w.alarm
  }

  /** Before the first wait no time has passed. */
  predicate FirstPass(c: Config, s: State) {
    && (s.pc.Run? || s.pc == Try(Enter) ==> s.w.clock == s.g.startTime && s.w.alarm == None)
    && ((s.pc.Try? && !s.pc.t.Enter?) || s.pc.Arm? ==> s.l.myPoll == c.pollTime || s.w.clock == s.g.startTime)
    && (|| s.pc.Poll? || s.pc.Catch? || s.pc.DrainErr?
        || s.pc == Arm(SetJump) || s.pc == Arm(SetTimer) || s.pc == Arm(ExitFlagTest) ==>
          s.l.myPoll == c.pollTime)
  }

  predicate SilenceInv(c: Config, s: State) {
    && s.h.child.slack >= 0
    && (Watching(s.pc) && s.h.child.readCount == 0 ==>
      && FirstPass(c, s)
      && (Due(s) ==> s.w.clock < Limit(c, s) + Interval(c))
      && (Deadline(s).Some? ==>
            || Deadline(s).value < Limit(c, s) + Interval(c)
            || (Due(s) && Deadline(s).value <= s.w.clock + Interval(c)))
      && (Deadline(s).None? && !Due(s) ==> s.w.clock < Limit(c, s)))
  }

  lemma RunKeepsSilence(c: Config, s: State, e: Event)
    requires WatchdogOnly(c) && SilenceInv(c, s) && AlarmInv(c, s) && StderrInv(c, s)
    requires s.pc.Run? && HandlerInv(s) && CodeEnabled(s, e)
    ensures SilenceInv(c, RunStep(c, s, s.pc.r, e))
  {
  }

  lemma TryKeepsSilence(c: Config, s: State, e: Event)
    requires WatchdogOnly(c) && SilenceInv(c, s) && AlarmInv(c, s) && StderrInv(c, s) && s.pc.Try?
    ensures SilenceInv(c, TryStep(c, s, s.pc.t, e))
  {
  }

  lemma ArmKeepsSilence(c: Config, s: State)
    requires WatchdogOnly(c) && SilenceInv(c, s) && AlarmInv(c, s) && StderrInv(c, s)
    requires s.pc.Arm? && !AlarmDue(s.w) && !s.pc.a.ComputeSecs?
    ensures SilenceInv(c, ArmStep(c, s, s.pc.a))
  {
  }

  lemma ComputeKeepsSilence(c: Config, s: State)
    requires WatchdogOnly(c) && SilenceInv(c, s) && AlarmInv(c, s) && StderrInv(c, s)
    requires s.pc == Arm(ComputeSecs) && !AlarmDue(s.w)
    ensures SilenceInv(c, ArmStep(c, s, ComputeSecs))
  {
  }

  lemma PollKeepsSilence(c: Config, s: State, e: Event)
    requires WatchdogOnly(c) && SilenceInv(c, s) && AlarmInv(c, s) && StderrInv(c, s)
    requires s.pc.Poll? && !s.pc.p.HangupTest?
    ensures SilenceInv(c, PollStep(s, s.pc.p, e))
  {
  }

  lemma HangupKeepsSilence(c: Config, s: State, e: Event)
    requires WatchdogOnly(c) && SilenceInv(c, s) && AlarmInv(c, s) && StderrInv(c, s) && s.pc == Poll(HangupTest)
    ensures SilenceInv(c, PollStep(s, HangupTest, e))
  {
  }

  lemma CatchKeepsSilence(c: Config, s: State, e: Event)
    requires WatchdogOnly(c) && SilenceInv(c, s) && AlarmInv(c, s) && StderrInv(c, s) && s.pc.Catch?
    ensures SilenceInv(c, CatchStep(c, s, s.pc.x, e))
  {
  }

  lemma KillKeepsSilence(c: Config, s: State, e: Event)
    requires WatchdogOnly(c) && SilenceInv(c, s) && AlarmInv(c, s) && StderrInv(c, s) && s.pc.Kill?
    ensures SilenceInv(c, KillStep(s, s.pc.k, s.pc.after, e))
  {
    var s' := KillStep(s, s.pc.k, s.pc.after, e);
    assert !Watching(s'.pc) && s'.h.child == s.h.child;
  }

  lemma DeliverKeepsSilence(c: Config, s: State, e: Event)
    requires WatchdogOnly(c) && SilenceInv(c, s) && AlarmInv(c, s) && StderrInv(c, s)
    requires !s.pc.Done? && e.Deliver? && e.sig != ALRM && !s.g.dolongjmp
    ensures SilenceInv(c, DeliverStep(c, s, e.sig))
  {
    var s' := DeliverStep(c, s, e.sig);
    assert s'.h.child == s.h.child && (s'.pc == s.pc || s'.pc.Done?);
    assert s'.w.clock == s.w.clock && s'.w.alarm == s.w.alarm && s'.l == s.l;
    assert s'.g.secsLeft == s.g.secsLeft && s'.g.startTime == s.g.startTime;
    assert ALRM in s'.w.pending <==> ALRM in s.w.pending;
  }

  /** A jump: out of the wait, for anything but the alarm. */
  lemma JumpKeepsSilence(c: Config, s: State, e: Event)
    requires WatchdogOnly(c) && SilenceInv(c, s) && AlarmInv(c, s) && StderrInv(c, s)
    requires !s.pc.Done? && JumpInv(s) && MaskInv(s) && Enabled(c, s, e) && e.Deliver? && e.sig != ALRM && s.g.dolongjmp
    ensures SilenceInv(c, DeliverStep(c, s, e.sig))
  {
    var s' := DeliverStep(c, s, e.sig);
    assert s'.h.child == s.h.child && (s'.pc == Catch(Unblock) || s'.pc.Done? || s'.pc == s.pc);
  }

  lemma AlarmKeepsSilence(c: Config, s: State)
    requires WatchdogOnly(c) && SilenceInv(c, s) && AlarmInv(c, s) && StderrInv(c, s)
    requires !s.pc.Done? && JumpInv(s) && MaskInv(s) && Enabled(c, s, Deliver(ALRM))
    ensures SilenceInv(c, DeliverStep(c, s, ALRM))
  {
  }

  lemma PlainKeepsSilence(c: Config, s: State, e: Event)
    requires WatchdogOnly(c) && SilenceInv(c, s) && AlarmInv(c, s) && StderrInv(c, s) && IsPlain(s.pc)
    ensures SilenceInv(c, PlainStep(c, s, e))
  {
    var s' := PlainStep(c, s, e);
    if !s.pc.DrainErr? {
      assert !Watching(s'.pc) && s'.h.child == s.h.child;
    }
  }

  lemma WorldKeepsSilence(c: Config, s: State, e: Event)
    requires WatchdogOnly(c) && SilenceInv(c, s) && AlarmInv(c, s) && StderrInv(c, s)
    requires Enabled(c, s, e) && IsEnvironment(e) && !e.Deliver? && MaskInv(s)
    ensures SilenceInv(c, WorldStep(s, e))
  {
  }

  lemma SignalKeepsSilence(c: Config, s: State, e: Event)
    requires WatchdogOnly(c) && SilenceInv(c, s) && AlarmInv(c, s) && StderrInv(c, s)
    requires SignalInv(s) && Enabled(c, s, e) && e.Deliver?
    ensures SilenceInv(c, DeliverStep(c, s, e.sig))
  {
    if e.sig == ALRM {
      AlarmKeepsSilence(c, s);
    } else if s.g.dolongjmp {
      JumpKeepsSilence(c, s, e);
    } else {
      DeliverKeepsSilence(c, s, e);
    }
  }

  lemma StepKeepsSilence(c: Config, s: State, e: Event)
    requires WatchdogOnly(c) && SilenceInv(c, s) && AlarmInv(c, s) && StderrInv(c, s)
    requires SignalInv(s) && Enabled(c, s, e)
    ensures SilenceInv(c, Next(c, s, e))
  {
    if e.Deliver? {
      SignalKeepsSilence(c, s, e);
    } else if IsEnvironment(e) {
      WorldKeepsSilence(c, s, e);
    } else {
      match s.pc
      case Run(_) => RunKeepsSilence(c, s, e);
      case Try(_) => TryKeepsSilence(c, s, e);
      case Arm(a) =>
        if a.ComputeSecs? {
          ComputeKeepsSilence(c, s);
        } else {
          ArmKeepsSilence(c, s);
        }
      case Poll(p) =>
        if p.HangupTest? {
          HangupKeepsSilence(c, s, e);
        } else {
          PollKeepsSilence(c, s, e);
        }
      case Catch(_) => CatchKeepsSilence(c, s, e);
      case Kill(_, _) => KillKeepsSilence(c, s, e);
      case _ => PlainKeepsSilence(c, s, e);
    }
  }

  // ----- and the child is gone -----

  /** A silent child is killed in time; an ssh_kill on the way to a halt has no child to kill. */
  predicate GoneInv(c: Config, s: State) {
    s.pc.Kill? ==>
      if s.pc.after.ThenHalt? then s.g.cchild == 0 && (s.pc.k.CloseFd? || s.pc.k.ChildTest?)
      else s.h.child.readCount == 0 ==> s.h.killStart < Limit(c, s) + Interval(c)
  }

  lemma OuterKeepsGone(c: Config, s: State, e: Event)
    requires WatchdogOnly(c) && GoneInv(c, s) && SilenceInv(c, s) && AlarmInv(c, s)
    requires (s.pc.Run? || IsPlain(s.pc)) && CodeEnabled(s, e)
    ensures GoneInv(c, CodeStep(c, s, e))
  {
  }

  lemma LoopKeepsGone(c: Config, s: State, e: Event)
    requires WatchdogOnly(c) && GoneInv(c, s) && SilenceInv(c, s) && AlarmInv(c, s)
    requires (s.pc.Try? || s.pc.Arm? || s.pc.Poll?) && CodeEnabled(s, e)
    ensures GoneInv(c, CodeStep(c, s, e))
  {
  }

  lemma LeavingKeepsGone(c: Config, s: State, e: Event)
    requires WatchdogOnly(c) && GoneInv(c, s) && SilenceInv(c, s) && AlarmInv(c, s)
    requires (s.pc.Catch? || s.pc.Kill?) && CodeEnabled(s, e)
    ensures GoneInv(c, CodeStep(c, s, e))
  {
  }

  lemma DeliverKeepsGone(c: Config, s: State, e: Event)
    requires WatchdogOnly(c) && GoneInv(c, s) && SilenceInv(c, s) && AlarmInv(c, s)
    requires !s.pc.Done? && e.Deliver? && JumpInv(s)
    ensures GoneInv(c, DeliverStep(c, s, e.sig))
  {
  }

  lemma WorldKeepsGone(c: Config, s: State, e: Event)
    requires WatchdogOnly(c) && GoneInv(c, s) && SilenceInv(c, s) && AlarmInv(c, s)
    requires Enabled(c, s, e) && IsEnvironment(e) && !e.Deliver?
    ensures GoneInv(c, WorldStep(s, e))
  {
  }

  lemma StepKeepsGone(c: Config, s: State, e: Event)
    requires WatchdogOnly(c) && GoneInv(c, s) && SilenceInv(c, s) && AlarmInv(c, s) && JumpInv(s) && Enabled(c, s, e)
    ensures GoneInv(c, Next(c, s, e))
  {
    if e.Deliver? {
      DeliverKeepsGone(c, s, e);
    } else if IsEnvironment(e) {
      WorldKeepsGone(c, s, e);
    } else if s.pc.Run? || IsPlain(s.pc) {
      OuterKeepsGone(c, s, e);
    } else if s.pc.Try? || s.pc.Arm? || s.pc.Poll? {
      LoopKeepsGone(c, s, e);
    } else {
      LeavingKeepsGone(c, s, e);
    }
  }
}
