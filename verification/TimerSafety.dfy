/** Alarm deadlines, the silence watchdog and the time ssh_kill may take. */
module TimerSafety {
  import opened Posix
  import opened Supervisor
  import opened SignalSafety

  // ----- deadlines without a lifetime limit -----

  /** Inside ssh_watch's loop, not on the way out of it. */
  predicate InLoop(pc: Pc) {
    || (pc.Try? && !pc.t.Enter?) || pc.Arm? || pc.Poll? || pc.DrainErr?
    || (pc.Catch? && !pc.x.PortDelay? && !pc.x.RestoreMask?)
  }

  /** From the taking back of the alarm to its arming, no alarm is set. */
  predicate Disarmed(pc: Pc) {
    pc.Arm? && (pc.a.ComputeSecs? || pc.a.SetJump? || pc.a.SetTimer?)
  }

  /** The alarm has just been armed, or the wait it guards has begun. */
  predicate Armed(pc: Pc) {
    pc == Arm(ExitFlagTest) || pc == Poll(EnterWait) || IsWait(pc)
  }

  /** Nothing ever waits past its alarm, and as long as no arming was late every wait is under one. */
  predicate AlarmInv(c: Config, s: State) {
    && (s.w.alarm.Some? ==> s.w.clock <= s.w.alarm.value)
    && (c.maxLifetime == 0 || !s.h.timer.late ==>
      && (s.w.alarm.Some? ==> s.w.alarm.value <= s.w.clock + I32_MAX)
      && (InLoop(s.pc) ==> s.l.myPoll == c.firstPoll || s.l.myPoll == c.pollTime)
      && (s.pc == Arm(ComputeSecs) ==> 0 <= s.g.secsLeft <= I32_MAX)
      && (s.pc == Arm(SetJump) || s.pc == Arm(SetTimer) ==> 1 <= s.g.secsLeft <= I32_MAX)
      && (Armed(s.pc) ==> s.w.alarm.Some? || ALRM in s.w.pending))
  }

  /**
   * Without a lifetime limit a live alarm that is taken back is armed again for no more seconds than it had
   * left: it is put off by the time between the two at most.
   */
  predicate RearmInv(c: Config, s: State) {
    c.maxLifetime == 0 && s.h.timer.prevDeadline.Some? ==>
      var left := s.h.timer.prevDeadline.value - s.h.timer.takenAt;
      && (s.pc == Arm(ComputeSecs) ==> 0 < s.g.secsLeft <= left)
      && (s.pc == Arm(SetJump) || s.pc == Arm(SetTimer) ==> s.g.secsLeft <= left)
      && (Disarmed(s.pc) ==> s.h.timer.takenAt <= s.w.clock && (c.zeroTime ==> s.h.timer.takenAt == s.w.clock))
      && (Armed(s.pc) ==>
            && s.h.timer.takenAt <= s.h.timer.armedAt <= s.w.clock
            && (c.zeroTime ==> s.h.timer.takenAt == s.h.timer.armedAt)
            && (s.w.alarm.Some? ==> s.w.alarm.value <= s.h.timer.armedAt + left))
  }

  lemma RunKeepsAlarm(c: Config, s: State, e: Event)
    requires ValidConfig(c) && AlarmInv(c, s) && s.pc.Run?
    ensures AlarmInv(c, RunStep(c, s, s.pc.r, e))
  {
  }

  lemma TryKeepsAlarm(c: Config, s: State, e: Event)
    requires ValidConfig(c) && AlarmInv(c, s) && s.pc.Try?
    ensures AlarmInv(c, TryStep(c, s, s.pc.t, e))
  {
  }

  lemma ArmKeepsAlarm(c: Config, s: State)
    requires ValidConfig(c) && AlarmInv(c, s) && s.pc.Arm? && !AlarmDue(s.w)
    ensures AlarmInv(c, ArmStep(c, s, s.pc.a))
  {
  }

  lemma PollKeepsAlarm(c: Config, s: State, e: Event)
    requires ValidConfig(c) && AlarmInv(c, s) && s.pc.Poll?
    ensures AlarmInv(c, PollStep(s, s.pc.p, e))
  {
  }

  lemma CatchKeepsAlarm(c: Config, s: State, e: Event)
    requires ValidConfig(c) && AlarmInv(c, s) && s.pc.Catch?
    ensures AlarmInv(c, CatchStep(c, s, s.pc.x, e))
  {
  }

  lemma KillKeepsAlarm(c: Config, s: State, e: Event)
    requires ValidConfig(c) && AlarmInv(c, s) && s.pc.Kill?
    ensures AlarmInv(c, KillStep(s, s.pc.k, s.pc.after, e))
  {
  }

  lemma DeliverKeepsAlarm(c: Config, s: State, e: Event)
    requires ValidConfig(c) && AlarmInv(c, s) && !s.pc.Done? && e.Deliver? && JumpInv(s)
    ensures AlarmInv(c, DeliverStep(c, s, e.sig))
  {
  }

  lemma PlainKeepsAlarm(c: Config, s: State, e: Event)
    requires ValidConfig(c) && AlarmInv(c, s) && IsPlain(s.pc)
    ensures AlarmInv(c, PlainStep(c, s, e))
  {
  }

  lemma WorldKeepsAlarm(c: Config, s: State, e: Event)
    requires ValidConfig(c) && AlarmInv(c, s) && Enabled(c, s, e) && IsEnvironment(e) && !e.Deliver?
    ensures AlarmInv(c, WorldStep(s, e))
  {
  }

  lemma StepKeepsAlarm(c: Config, s: State, e: Event)
    requires ValidConfig(c) && AlarmInv(c, s) && JumpInv(s) && Enabled(c, s, e)
    ensures AlarmInv(c, Next(c, s, e))
  {
    if e.Deliver? {
      DeliverKeepsAlarm(c, s, e);
    } else if IsEnvironment(e) {
      WorldKeepsAlarm(c, s, e);
    } else {
      match s.pc
      case Run(_) => RunKeepsAlarm(c, s, e);
      case Try(_) => TryKeepsAlarm(c, s, e);
      case Arm(_) => ArmKeepsAlarm(c, s);
      case Poll(_) => PollKeepsAlarm(c, s, e);
      case Catch(_) => CatchKeepsAlarm(c, s, e);
      case Kill(_, _) => KillKeepsAlarm(c, s, e);
      case _ => PlainKeepsAlarm(c, s, e);
    }
  }

  lemma RunKeepsRearm(c: Config, s: State, e: Event)
    requires ValidConfig(c) && AlarmInv(c, s) && RearmInv(c, s) && s.pc.Run?
    ensures RearmInv(c, RunStep(c, s, s.pc.r, e))
  {
  }

  lemma TryKeepsRearm(c: Config, s: State, e: Event)
    requires ValidConfig(c) && AlarmInv(c, s) && RearmInv(c, s) && s.pc.Try?
    ensures RearmInv(c, TryStep(c, s, s.pc.t, e))
  {
  }

  lemma ArmKeepsRearm(c: Config, s: State)
    requires ValidConfig(c) && AlarmInv(c, s) && RearmInv(c, s) && s.pc.Arm? && !AlarmDue(s.w)
    ensures RearmInv(c, ArmStep(c, s, s.pc.a))
  {
  }

  lemma PollKeepsRearm(c: Config, s: State, e: Event)
    requires ValidConfig(c) && AlarmInv(c, s) && RearmInv(c, s) && s.pc.Poll?
    ensures RearmInv(c, PollStep(s, s.pc.p, e))
  {
  }

  lemma CatchKeepsRearm(c: Config, s: State, e: Event)
    requires ValidConfig(c) && AlarmInv(c, s) && RearmInv(c, s) && s.pc.Catch?
    ensures RearmInv(c, CatchStep(c, s, s.pc.x, e))
  {
  }

  lemma KillKeepsRearm(c: Config, s: State, e: Event)
    requires ValidConfig(c) && AlarmInv(c, s) && RearmInv(c, s) && s.pc.Kill?
    ensures RearmInv(c, KillStep(s, s.pc.k, s.pc.after, e))
  {
  }

  lemma DeliverKeepsRearm(c: Config, s: State, e: Event)
    requires ValidConfig(c) && AlarmInv(c, s) && RearmInv(c, s) && !s.pc.Done? && e.Deliver? && JumpInv(s)
    ensures RearmInv(c, DeliverStep(c, s, e.sig))
  {
  }

  lemma PlainKeepsRearm(c: Config, s: State, e: Event)
    requires ValidConfig(c) && AlarmInv(c, s) && RearmInv(c, s) && IsPlain(s.pc)
    ensures RearmInv(c, PlainStep(c, s, e))
  {
  }

  lemma WorldKeepsRearm(c: Config, s: State, e: Event)
    requires ValidConfig(c) && AlarmInv(c, s) && RearmInv(c, s)
    requires Enabled(c, s, e) && IsEnvironment(e) && !e.Deliver?
    ensures RearmInv(c, WorldStep(s, e))
  {
  }

  lemma StepKeepsRearm(c: Config, s: State, e: Event)
    requires ValidConfig(c) && AlarmInv(c, s) && RearmInv(c, s) && JumpInv(s) && Enabled(c, s, e)
    ensures RearmInv(c, Next(c, s, e))
  {
    if e.Deliver? {
      DeliverKeepsRearm(c, s, e);
    } else if IsEnvironment(e) {
      WorldKeepsRearm(c, s, e);
    } else {
      match s.pc
      case Run(_) => RunKeepsRearm(c, s, e);
      case Try(_) => TryKeepsRearm(c, s, e);
      case Arm(_) => ArmKeepsRearm(c, s);
      case Poll(_) => PollKeepsRearm(c, s, e);
      case Catch(_) => CatchKeepsRearm(c, s, e);
      case Kill(_, _) => KillKeepsRearm(c, s, e);
      case _ => PlainKeepsRearm(c, s, e);
    }
  }

  /** With a lifetime limit a wake-up can put the alarm off, exactly if what is left of life is between the two. */
  lemma PostponedIff(c: Config, left: int, myPoll: int, now: int)
    requires ValidConfig(c) && 1 <= left <= I32_MAX && !LateArm(c, now)
    ensures SecsToArm(c, left, myPoll, now) > left <==>
      && c.maxLifetime > 0 && left < ToShutdown(c, now) < c.pollTime
      && (c.maxSession == 0 || left < c.maxSession)
  {
  }

  /**
   * The seconds armed, in full: what is left of life if that is short, else what is left of the alarm or a poll
   * time; and never more than a session.
   */
  lemma SecsToArmIs(c: Config, left: int, myPoll: int, now: int)
    requires ValidConfig(c) && 0 <= left <= I32_MAX && 1 <= myPoll <= I32_MAX && !LateArm(c, now)
    ensures var secs := SecsToArm(c, left, myPoll, now);
      var wanted :=
        if c.maxLifetime > 0 && c.maxLifetime - (now - c.pidStart) < c.pollTime then c.maxLifetime - (now - c.pidStart)
        else if left > 0 then left else myPoll;
      && secs <= wanted && (c.maxSession > 0 ==> secs <= c.maxSession)
      && (secs == wanted || secs == c.maxSession > 0)
  {
  }

  // ----- deadlines under a lifetime limit -----

  function EndOfLife(c: Config): int {
    c.pidStart + c.maxLifetime
  }

  /** The exact condition for a sound alarm: for at least a second, and over by the end of life. */
  lemma ArmedInTimeIff(c: Config, left: int, myPoll: int, now: int)
    requires ValidConfig(c) && c.maxLifetime > 0 && 0 <= left <= I32_MAX && 1 <= myPoll <= I32_MAX
    ensures var secs := SecsToArm(c, left, myPoll, now);
      1 <= secs <= ToShutdown(c, now) <==> ArmsInTime(c, left, myPoll, now)
  {
  }

  /**
   * One way to miss it: with no second left there is no alarm at all, and with a negative rest the
   * unsigned argument puts it off by more than 68 years, so that nothing ends the life on time.
   */
  lemma LateAlarmIsLost(c: Config, left: int, myPoll: int, now: int)
    requires ValidConfig(c) && LateArm(c, now) && ToShutdown(c, now) >= I32_MIN
    ensures SetAlarm(now, SecsToArm(c, left, myPoll, now)) ==
      if ToShutdown(c, now) == 0 then None else Some(now + U32_SPAN + ToShutdown(c, now))
  {
  }

  /**
   * The other way needs a first poll time, or what is left of one, above the poll time: then the lifetime
   * does not cut the alarm short although it is over first.
   */
  lemma OverrunNeedsLongPoll(c: Config, left: int, myPoll: int, now: int)
    requires ValidConfig(c) && c.maxLifetime > 0 && 0 <= left <= I32_MAX && 1 <= myPoll <= I32_MAX
    requires !LateArm(c, now) && !ArmsInTime(c, left, myPoll, now)
    ensures ToShutdown(c, now) >= c.pollTime && Capped(c, left, myPoll) > c.pollTime
    ensures SetAlarm(now, SecsToArm(c, left, myPoll, now)) == Some(now + Capped(c, left, myPoll))
    ensures now + Capped(c, left, myPoll) > EndOfLife(c)
  {
  }

  /** As long as every arming was in time, every deadline is sound, but for time lost while arming. */
  predicate LifetimeInv(c: Config, s: State) {
    && (Disarmed(s.pc) ==> s.w.alarm == None)
    && (c.maxLifetime > 0 && !s.h.timer.overrun ==>
      && !s.h.timer.late
      && (s.pc == Arm(SetJump) || s.pc == Arm(SetTimer) ==>
            && 1 <= s.g.secsLeft && s.h.timer.computedAt + s.g.secsLeft <= EndOfLife(c)
            && s.h.timer.computedAt <= s.w.clock && (c.zeroTime ==> s.h.timer.computedAt == s.w.clock))
      && (s.w.alarm.Some? ==>
            && s.w.alarm.value <= EndOfLife(c) + (s.h.timer.armedAt - s.h.timer.computedAt)
            && (c.zeroTime ==> s.h.timer.armedAt == s.h.timer.computedAt))
      && (c.zeroTime && ALRM !in c.callerMask && Armed(s.pc) ==> s.w.clock <= EndOfLife(c)))
  }

  lemma RunKeepsLifetime(c: Config, s: State, e: Event)
    requires ValidConfig(c) && AlarmInv(c, s) && LifetimeInv(c, s) && s.pc.Run?
    ensures LifetimeInv(c, RunStep(c, s, s.pc.r, e))
  {
  }

  lemma TryKeepsLifetime(c: Config, s: State, e: Event)
    requires ValidConfig(c) && AlarmInv(c, s) && LifetimeInv(c, s) && s.pc.Try?
    ensures LifetimeInv(c, TryStep(c, s, s.pc.t, e))
  {
  }

  lemma ArmKeepsLifetime(c: Config, s: State)
    requires ValidConfig(c) && AlarmInv(c, s) && LifetimeInv(c, s) && s.pc.Arm? && !AlarmDue(s.w)
    ensures LifetimeInv(c, ArmStep(c, s, s.pc.a))
  {
  }

  lemma PollKeepsLifetime(c: Config, s: State, e: Event)
    requires ValidConfig(c) && AlarmInv(c, s) && LifetimeInv(c, s) && s.pc.Poll?
    ensures LifetimeInv(c, PollStep(s, s.pc.p, e))
  {
  }

  lemma CatchKeepsLifetime(c: Config, s: State, e: Event)
    requires ValidConfig(c) && AlarmInv(c, s) && LifetimeInv(c, s) && s.pc.Catch?
    ensures LifetimeInv(c, CatchStep(c, s, s.pc.x, e))
  {
  }

  lemma KillKeepsLifetime(c: Config, s: State, e: Event)
    requires ValidConfig(c) && AlarmInv(c, s) && LifetimeInv(c, s) && s.pc.Kill?
    ensures LifetimeInv(c, KillStep(s, s.pc.k, s.pc.after, e))
  {
  }

  lemma DeliverKeepsLifetime(c: Config, s: State, e: Event)
    requires ValidConfig(c) && AlarmInv(c, s) && LifetimeInv(c, s) && !s.pc.Done? && e.Deliver? && JumpInv(s)
    ensures LifetimeInv(c, DeliverStep(c, s, e.sig))
  {
  }

  lemma PlainKeepsLifetime(c: Config, s: State, e: Event)
    requires ValidConfig(c) && AlarmInv(c, s) && LifetimeInv(c, s) && IsPlain(s.pc)
    ensures LifetimeInv(c, PlainStep(c, s, e))
  {
  }

  lemma WorldKeepsLifetime(c: Config, s: State, e: Event)
    requires ValidConfig(c) && AlarmInv(c, s) && LifetimeInv(c, s)
    requires Enabled(c, s, e) && IsEnvironment(e) && !e.Deliver? && MaskInv(s)
    ensures LifetimeInv(c, WorldStep(s, e))
  {
  }

  lemma StepKeepsLifetime(c: Config, s: State, e: Event)
    requires ValidConfig(c) && AlarmInv(c, s) && LifetimeInv(c, s) && MaskInv(s) && JumpInv(s) && Enabled(c, s, e)
    ensures LifetimeInv(c, Next(c, s, e))
  {
    if e.Deliver? {
      DeliverKeepsLifetime(c, s, e);
    } else if IsEnvironment(e) {
      WorldKeepsLifetime(c, s, e);
    } else {
      match s.pc
      case Run(_) => RunKeepsLifetime(c, s, e);
      case Try(_) => TryKeepsLifetime(c, s, e);
      case Arm(_) => ArmKeepsLifetime(c, s);
      case Poll(_) => PollKeepsLifetime(c, s, e);
      case Catch(_) => CatchKeepsLifetime(c, s, e);
      case Kill(_, _) => KillKeepsLifetime(c, s, e);
      case _ => PlainKeepsLifetime(c, s, e);
    }
  }

  /** With a first poll time no longer than the poll time only a late arming ever overruns. */
  predicate SteadyInv(c: Config, s: State) {
    c.maxLifetime > 0 && c.firstPoll <= c.pollTime && !s.h.timer.late ==>
      && !s.h.timer.overrun
      && (s.w.alarm.Some? ==> s.w.alarm.value <= s.w.clock + c.pollTime)
      && (InLoop(s.pc) ==> 1 <= s.l.myPoll <= c.pollTime)
      && (s.pc == Arm(ComputeSecs) ==> 0 <= s.g.secsLeft <= c.pollTime)
      && (s.pc == Arm(SetJump) || s.pc == Arm(SetTimer) ==> 1 <= s.g.secsLeft <= c.pollTime)
  }

  lemma RunKeepsSteady(c: Config, s: State, e: Event)
    requires ValidConfig(c) && AlarmInv(c, s) && SteadyInv(c, s) && s.pc.Run?
    ensures SteadyInv(c, RunStep(c, s, s.pc.r, e))
  {
  }

  lemma TryKeepsSteady(c: Config, s: State, e: Event)
    requires ValidConfig(c) && AlarmInv(c, s) && SteadyInv(c, s) && s.pc.Try?
    ensures SteadyInv(c, TryStep(c, s, s.pc.t, e))
  {
  }

  lemma ArmKeepsSteady(c: Config, s: State)
    requires ValidConfig(c) && AlarmInv(c, s) && SteadyInv(c, s) && s.pc.Arm? && !AlarmDue(s.w)
    ensures SteadyInv(c, ArmStep(c, s, s.pc.a))
  {
  }

  lemma PollKeepsSteady(c: Config, s: State, e: Event)
    requires ValidConfig(c) && AlarmInv(c, s) && SteadyInv(c, s) && s.pc.Poll?
    ensures SteadyInv(c, PollStep(s, s.pc.p, e))
  {
  }

  lemma CatchKeepsSteady(c: Config, s: State, e: Event)
    requires ValidConfig(c) && AlarmInv(c, s) && SteadyInv(c, s) && s.pc.Catch?
    ensures SteadyInv(c, CatchStep(c, s, s.pc.x, e))
  {
  }

  lemma KillKeepsSteady(c: Config, s: State, e: Event)
    requires ValidConfig(c) && AlarmInv(c, s) && SteadyInv(c, s) && s.pc.Kill?
    ensures SteadyInv(c, KillStep(s, s.pc.k, s.pc.after, e))
  {
  }

  lemma DeliverKeepsSteady(c: Config, s: State, e: Event)
    requires ValidConfig(c) && AlarmInv(c, s) && SteadyInv(c, s) && !s.pc.Done? && e.Deliver? && JumpInv(s)
    ensures SteadyInv(c, DeliverStep(c, s, e.sig))
  {
  }

  lemma PlainKeepsSteady(c: Config, s: State, e: Event)
    requires ValidConfig(c) && AlarmInv(c, s) && SteadyInv(c, s) && IsPlain(s.pc)
    ensures SteadyInv(c, PlainStep(c, s, e))
  {
  }

  lemma WorldKeepsSteady(c: Config, s: State, e: Event)
    requires ValidConfig(c) && AlarmInv(c, s) && SteadyInv(c, s)
    requires Enabled(c, s, e) && IsEnvironment(e) && !e.Deliver?
    ensures SteadyInv(c, WorldStep(s, e))
  {
  }

  lemma StepKeepsSteady(c: Config, s: State, e: Event)
    requires ValidConfig(c) && AlarmInv(c, s) && SteadyInv(c, s) && JumpInv(s) && Enabled(c, s, e)
    ensures SteadyInv(c, Next(c, s, e))
  {
    if e.Deliver? {
      DeliverKeepsSteady(c, s, e);
    } else if IsEnvironment(e) {
      WorldKeepsSteady(c, s, e);
    } else {
      match s.pc
      case Run(_) => RunKeepsSteady(c, s, e);
      case Try(_) => TryKeepsSteady(c, s, e);
      case Arm(_) => ArmKeepsSteady(c, s);
      case Poll(_) => PollKeepsSteady(c, s, e);
      case Catch(_) => CatchKeepsSteady(c, s, e);
      case Kill(_, _) => KillKeepsSteady(c, s, e);
      case _ => PlainKeepsSteady(c, s, e);
    }
  }

  // ----- ssh_kill is quick -----

  /** Seconds ssh_kill has been allowed by the time it reaches a point. */
  function KillBudget(k: KillPc): int {
    match k
    case CloseFd => 0 case ChildTest => 0 case SendTerm => 0
    case ReapPoll(waited, killed) => waited + (if killed then SIGTERM_GRACE else 0)
    case ReapSleep(waited, killed) => waited + 1 + (if killed then SIGTERM_GRACE else 0)
    case SendKill => SIGTERM_GRACE
    case Abandon => SIGTERM_GRACE + SIGKILL_WAIT
  }

  predicate KillTimeInv(c: Config, s: State) {
    c.zeroTime && s.pc.Kill? ==>
      && s.h.killStart <= s.w.clock <= s.h.killStart + KillBudget(s.pc.k)
      && (s.pc.k.ReapPoll? ==> 0 <= s.pc.k.waited < 2)
      && (s.pc.k.ReapSleep? ==> 0 <= s.pc.k.waited < 2 && s.w.wakeAt <= s.h.killStart + KillBudget(s.pc.k))
  }

  lemma OuterKeepsKillTime(c: Config, s: State, e: Event)
    requires KillTimeInv(c, s) && (s.pc.Run? || IsPlain(s.pc)) && CodeEnabled(s, e)
    ensures KillTimeInv(c, CodeStep(c, s, e))
  {
  }

  lemma LoopKeepsKillTime(c: Config, s: State, e: Event)
    requires KillTimeInv(c, s) && (s.pc.Try? || s.pc.Arm? || s.pc.Poll?) && CodeEnabled(s, e)
    ensures KillTimeInv(c, CodeStep(c, s, e))
  {
  }

  lemma LeavingKeepsKillTime(c: Config, s: State, e: Event)
    requires KillTimeInv(c, s) && (s.pc.Catch? || s.pc.Kill?) && CodeEnabled(s, e)
    ensures KillTimeInv(c, CodeStep(c, s, e))
  {
  }

  lemma DeliverKeepsKillTime(c: Config, s: State, e: Event)
    requires KillTimeInv(c, s) && !s.pc.Done? && e.Deliver? && JumpInv(s)
    ensures KillTimeInv(c, DeliverStep(c, s, e.sig))
  {
  }

  lemma WorldKeepsKillTime(c: Config, s: State, e: Event)
    requires KillTimeInv(c, s) && Enabled(c, s, e) && IsEnvironment(e) && !e.Deliver?
    ensures KillTimeInv(c, WorldStep(s, e))
  {
  }

  lemma StepKeepsKillTime(c: Config, s: State, e: Event)
    requires KillTimeInv(c, s) && JumpInv(s) && Enabled(c, s, e)
    ensures KillTimeInv(c, Next(c, s, e))
  {
    if e.Deliver? {
      DeliverKeepsKillTime(c, s, e);
    } else if IsEnvironment(e) {
      WorldKeepsKillTime(c, s, e);
    } else if s.pc.Run? || IsPlain(s.pc) {
      OuterKeepsKillTime(c, s, e);
    } else if s.pc.Try? || s.pc.Arm? || s.pc.Poll? {
      LoopKeepsKillTime(c, s, e);
    } else {
      LeavingKeepsKillTime(c, s, e);
    }
  }
}
