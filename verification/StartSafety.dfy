/** What holds between two children: the start limit, a clean slate and the port delay. */
module StartSafety {
  import opened Posix
  import opened Supervisor
  import opened SignalSafety
  import Grace

  /** Each SIGALRM caught without a jump costs one polling interval. */
  predicate LogInv(c: Config, s: State) {
    s.h.child.slack == CostOfLost(c, s.h.child.absorbed)
  }

  /** What `lost` lost alarms cost: a polling interval each. */
  function CostOfLost(c: Config, lost: nat): int {
    if lost == 0 then 0 else CostOfLost(c, lost - 1) + Min(c.pollTime, c.maxSession)
  }

  /** From the loop test to the counting of the start. */
  predicate BeforeCount(pc: Pc) {
    pc.Run? && (pc.r.LifetimeTest? || pc.r.ClearRestart? || pc.r.CountStart?)
  }

  /** From the counting of a start to its fork. */
  predicate BeforeFork(pc: Pc) {
    pc.GraceTime? || InForkWindow(pc) || pc == Run(ExitTest)
  }

  predicate StartInv(c: Config, s: State) {
    && s.h.procs.forks + (if BeforeFork(s.pc) then 1 else 0) <= s.g.startCount
    && (c.maxStart >= 0 ==> s.g.startCount + (if BeforeCount(s.pc) then 1 else 0) <= c.maxStart)
  }

  /** A fork has happened and its child's record has not been reset for the next one. */
  predicate HasChildRecord(pc: Pc) {
    || (pc.Run? && (pc.r.AdoptPipe? || pc.r.InstallHandlers?))
    || pc.Try? || pc.Arm? || pc.Poll? || pc.Catch? || pc.DrainErr? || (pc.Kill? && !pc.after.ThenHalt?)
  }

  predicate StderrInv(c: Config, s: State) {
    && s.w.clock > 0
    && (HasChildRecord(s.pc) ==> (s.g.lastStderr == 0 <==> s.h.child.readCount == 0))
    && (s.pc.Run? && (s.pc.r.MakePipe? || s.pc.r.Fork?) ==> s.g.lastStderr == 0 && s.g.pipeLost == 0)
    && (s.pc.Run? && (s.pc.r.AdoptPipe? || s.pc.r.InstallHandlers?) ==> s.g.pipeLost == 0)
    && (HasChildRecord(s.pc) ==> s.g.startTime <= s.h.child.bornAt <= s.w.clock)
    && (HasChildRecord(s.pc) && c.zeroTime ==> s.g.startTime == s.h.child.bornAt)
    && (s.pc.Run? && (s.pc.r.ResetChild? || s.pc.r.MakePipe? || s.pc.r.Fork?) ==>
          s.g.startTime <= s.w.clock && (c.zeroTime ==> s.g.startTime == s.w.clock))
  }

  /** grace_time's own wait, begun after the failure was read, has lasted its full five seconds by `until`. */
  predicate SleptInFull(s: State, until: int) {
    s.h.child.failTime.Some? ==>
      s.h.child.failTime.value <= s.h.portSleepAt && s.h.portSleepAt + Grace.PORT_FWD_FAIL_DELAY <= until
  }

  /** So it has, or an exit signal has cut it short. */
  predicate WaitedOut(s: State, until: int) {
    SleptInFull(s, until) || s.g.exitSignalled
  }

  predicate PortInv(s: State) {
    && (s.g.portFailed ==> s.h.child.failTime.Some?)
    && (s.h.child.failTime.Some? ==> s.h.child.failTime.value <= s.w.clock)
    && (s.pc.GraceTime? && s.pc.g.PortSleep? ==> WaitedOut(s, s.w.wakeAt))
    && ((s.pc.GraceTime? && s.pc.g.PortFlagClear?) || s.pc == Run(ExitTest) ==> WaitedOut(s, s.w.clock))
    && (InForkWindow(s.pc) ==> SleptInFull(s, s.w.clock))
    && (s.pc.Run? && (s.pc.r.MakePipe? || s.pc.r.Fork?) ==> !s.g.portFailed)
    && (s.pc.GraceTime? && !s.pc.g.PortFlagClear? ==> s.h.child.failTime.Some? ==> s.g.portFailed)
    && (|| HasChildRecord(s.pc) || s.pc.Leave? || BeforeCount(s.pc)
        || s.pc == Run(LoopTest) || s.pc == Run(InstallExitHandler) ==>
          s.h.child.failTime.Some? ==> s.g.portFailed)
  }

  lemma OuterKeepsLog(c: Config, s: State, e: Event)
    requires LogInv(c, s) && (s.pc.Run? || IsPlain(s.pc)) && CodeEnabled(s, e)
    ensures LogInv(c, CodeStep(c, s, e))
  {
  }

  lemma LoopKeepsLog(c: Config, s: State, e: Event)
    requires LogInv(c, s) && (s.pc.Try? || s.pc.Arm? || s.pc.Poll?) && CodeEnabled(s, e)
    ensures LogInv(c, CodeStep(c, s, e))
  {
  }

  lemma LeavingKeepsLog(c: Config, s: State, e: Event)
    requires LogInv(c, s) && (s.pc.Catch? || s.pc.Kill?) && CodeEnabled(s, e)
    ensures LogInv(c, CodeStep(c, s, e))
  {
  }

  lemma DeliverKeepsLog(c: Config, s: State, e: Event)
    requires LogInv(c, s) && !s.pc.Done? && e.Deliver?
    ensures LogInv(c, DeliverStep(c, s, e.sig))
  {
  }

  lemma WorldKeepsLog(c: Config, s: State, e: Event)
    requires LogInv(c, s) && Enabled(c, s, e) && IsEnvironment(e) && !e.Deliver?
    ensures LogInv(c, WorldStep(s, e))
  {
  }

  lemma StepKeepsLog(c: Config, s: State, e: Event)
    requires LogInv(c, s) && Enabled(c, s, e)
    ensures LogInv(c, Next(c, s, e))
  {
    if e.Deliver? {
      DeliverKeepsLog(c, s, e);
    } else if IsEnvironment(e) {
      WorldKeepsLog(c, s, e);
    } else if s.pc.Run? || IsPlain(s.pc) {
      OuterKeepsLog(c, s, e);
    } else if s.pc.Try? || s.pc.Arm? || s.pc.Poll? {
      LoopKeepsLog(c, s, e);
    } else {
      LeavingKeepsLog(c, s, e);
    }
  }

  lemma OuterKeepsStart(c: Config, s: State, e: Event)
    requires StartInv(c, s) && (s.pc.Run? || IsPlain(s.pc)) && CodeEnabled(s, e)
    ensures StartInv(c, CodeStep(c, s, e))
  {
  }

  lemma LoopKeepsStart(c: Config, s: State, e: Event)
    requires StartInv(c, s) && (s.pc.Try? || s.pc.Arm? || s.pc.Poll?) && CodeEnabled(s, e)
    ensures StartInv(c, CodeStep(c, s, e))
  {
  }

  lemma LeavingKeepsStart(c: Config, s: State, e: Event)
    requires StartInv(c, s) && (s.pc.Catch? || s.pc.Kill?) && CodeEnabled(s, e)
    ensures StartInv(c, CodeStep(c, s, e))
  {
  }

  lemma DeliverKeepsStart(c: Config, s: State, e: Event)
    requires StartInv(c, s) && !s.pc.Done? && e.Deliver? && JumpInv(s)
    ensures StartInv(c, DeliverStep(c, s, e.sig))
  {
  }

  lemma WorldKeepsStart(c: Config, s: State, e: Event)
    requires StartInv(c, s) && Enabled(c, s, e) && IsEnvironment(e) && !e.Deliver?
    ensures StartInv(c, WorldStep(s, e))
  {
  }

  lemma StepKeepsStart(c: Config, s: State, e: Event)
    requires StartInv(c, s) && JumpInv(s) && Enabled(c, s, e)
    ensures StartInv(c, Next(c, s, e))
  {
    if e.Deliver? {
      DeliverKeepsStart(c, s, e);
    } else if IsEnvironment(e) {
      WorldKeepsStart(c, s, e);
    } else if s.pc.Run? || IsPlain(s.pc) {
      OuterKeepsStart(c, s, e);
    } else if s.pc.Try? || s.pc.Arm? || s.pc.Poll? {
      LoopKeepsStart(c, s, e);
    } else {
      LeavingKeepsStart(c, s, e);
    }
  }

  lemma RunKeepsStderr(c: Config, s: State, e: Event)
    requires StderrInv(c, s) && s.pc.Run? && CodeEnabled(s, e)
    ensures StderrInv(c, RunStep(c, s, s.pc.r, e))
  {
  }

  lemma TryKeepsStderr(c: Config, s: State, e: Event)
    requires StderrInv(c, s) && s.pc.Try?
    ensures StderrInv(c, TryStep(c, s, s.pc.t, e))
  {
  }

  lemma ArmKeepsStderr(c: Config, s: State)
    requires StderrInv(c, s) && s.pc.Arm?
    ensures StderrInv(c, ArmStep(c, s, s.pc.a))
  {
  }

  lemma PollKeepsStderr(c: Config, s: State, e: Event)
    requires StderrInv(c, s) && s.pc.Poll?
    ensures StderrInv(c, PollStep(s, s.pc.p, e))
  {
  }

  lemma CatchKeepsStderr(c: Config, s: State, e: Event)
    requires StderrInv(c, s) && s.pc.Catch?
    ensures StderrInv(c, CatchStep(c, s, s.pc.x, e))
  {
  }

  lemma KillKeepsStderr(c: Config, s: State, e: Event)
    requires StderrInv(c, s) && s.pc.Kill?
    ensures StderrInv(c, KillStep(s, s.pc.k, s.pc.after, e))
  {
  }

  lemma DeliverKeepsStderr(c: Config, s: State, e: Event)
    requires StderrInv(c, s) && !s.pc.Done? && e.Deliver? && JumpInv(s)
    ensures StderrInv(c, DeliverStep(c, s, e.sig))
  {
  }

  lemma PlainKeepsStderr(c: Config, s: State, e: Event)
    requires StderrInv(c, s) && IsPlain(s.pc)
    ensures StderrInv(c, PlainStep(c, s, e))
  {
  }

  lemma WorldKeepsStderr(c: Config, s: State, e: Event)
    requires StderrInv(c, s) && Enabled(c, s, e) && IsEnvironment(e) && !e.Deliver?
    ensures StderrInv(c, WorldStep(s, e))
  {
  }

  lemma StepKeepsStderr(c: Config, s: State, e: Event)
    requires StderrInv(c, s) && JumpInv(s) && Enabled(c, s, e)
    ensures StderrInv(c, Next(c, s, e))
  {
    if e.Deliver? {
      DeliverKeepsStderr(c, s, e);
    } else if IsEnvironment(e) {
      WorldKeepsStderr(c, s, e);
    } else {
      match s.pc
      case Run(_) => RunKeepsStderr(c, s, e);
      case Try(_) => TryKeepsStderr(c, s, e);
      case Arm(_) => ArmKeepsStderr(c, s);
      case Poll(_) => PollKeepsStderr(c, s, e);
      case Catch(_) => CatchKeepsStderr(c, s, e);
      case Kill(_, _) => KillKeepsStderr(c, s, e);
      case _ => PlainKeepsStderr(c, s, e);
    }
  }

  lemma RunKeepsPort(c: Config, s: State, e: Event)
    requires PortInv(s) && s.pc.Run? && CodeEnabled(s, e) && !s.pc.r.Fork?
    ensures PortInv(RunStep(c, s, s.pc.r, e))
  {
    assert RunStep(c, s, s.pc.r, e).h.child == s.h.child && RunStep(c, s, s.pc.r, e).w.clock == s.w.clock;
  }

  lemma ForkKeepsPort(c: Config, s: State, e: Event)
    requires PortInv(s) && s.pc == Run(Fork) && CodeEnabled(s, e)
    ensures PortInv(RunStep(c, s, Fork, e))
  {
  }

  lemma TryKeepsPort(c: Config, s: State, e: Event)
    requires PortInv(s) && s.pc.Try?
    ensures PortInv(TryStep(c, s, s.pc.t, e))
  {
  }

  lemma ArmKeepsPort(c: Config, s: State)
    requires PortInv(s) && s.pc.Arm?
    ensures PortInv(ArmStep(c, s, s.pc.a))
  {
  }

  lemma PollKeepsPort(s: State, e: Event)
    requires PortInv(s) && s.pc.Poll?
    ensures PortInv(PollStep(s, s.pc.p, e))
  {
  }

  lemma CatchKeepsPort(c: Config, s: State, e: Event)
    requires PortInv(s) && s.pc.Catch?
    ensures PortInv(CatchStep(c, s, s.pc.x, e))
  {
  }

  lemma KillKeepsPort(s: State, e: Event)
    requires PortInv(s) && s.pc.Kill?
    ensures PortInv(KillStep(s, s.pc.k, s.pc.after, e))
  {
    var s' := KillStep(s, s.pc.k, s.pc.after, e);
    assert s'.h.child.failTime == s.h.child.failTime && s'.g.portFailed == s.g.portFailed;
    assert s'.w.clock == s.w.clock && !s'.pc.GraceTime? && !s'.pc.Run?;
  }

  lemma DeliverKeepsPort(c: Config, s: State, e: Event)
    requires PortInv(s) && !s.pc.Done? && e.Deliver? && JumpInv(s) && HandlerInv(s)
    ensures PortInv(DeliverStep(c, s, e.sig))
  {
  }

  lemma PlainKeepsPort(c: Config, s: State, e: Event)
    requires PortInv(s) && IsPlain(s.pc) && CodeEnabled(s, e)
    ensures PortInv(PlainStep(c, s, e))
  {
  }

  lemma WorldKeepsPort(c: Config, s: State, e: Event)
    requires PortInv(s) && Enabled(c, s, e) && IsEnvironment(e) && !e.Deliver?
    ensures PortInv(WorldStep(s, e))
  {
  }

  lemma StepKeepsPort(c: Config, s: State, e: Event)
    requires PortInv(s) && JumpInv(s) && HandlerInv(s) && Enabled(c, s, e)
    ensures PortInv(Next(c, s, e))
  {
    if e.Deliver? {
      DeliverKeepsPort(c, s, e);
    } else if IsEnvironment(e) {
      WorldKeepsPort(c, s, e);
    } else {
      match s.pc
      case Run(r) =>
        if r.Fork? {
          ForkKeepsPort(c, s, e);
        } else {
          RunKeepsPort(c, s, e);
        }
      case Try(_) => TryKeepsPort(c, s, e);
      case Arm(_) => ArmKeepsPort(c, s);
      case Poll(_) => PollKeepsPort(s, e);
      case Catch(_) => CatchKeepsPort(c, s, e);
      case Kill(_, _) => KillKeepsPort(s, e);
      case _ => PlainKeepsPort(c, s, e);
    }
  }

  /** The count of failures is what the history of starts makes it. */
  predicate TriesInv(c: Config, s: State) {
    s.g.tries == Grace.TriesAfter(s.h.starts, c.pollTime)
  }

  lemma OuterKeepsTries(c: Config, s: State, e: Event)
    requires TriesInv(c, s) && (s.pc.Run? || IsPlain(s.pc)) && CodeEnabled(s, e)
    ensures TriesInv(c, CodeStep(c, s, e))
  {
    if s.pc == GraceTime(CountTry) {
      Grace.OneMoreStart(s.h.starts, Grace.Start(s.w.clock, s.g.startTime), c.pollTime);
    } else {
      assert CodeStep(c, s, e).h.starts == s.h.starts;
    }
  }

  lemma LoopKeepsTries(c: Config, s: State, e: Event)
    requires TriesInv(c, s) && (s.pc.Try? || s.pc.Arm? || s.pc.Poll?) && CodeEnabled(s, e)
    ensures TriesInv(c, CodeStep(c, s, e))
  {
  }

  lemma LeavingKeepsTries(c: Config, s: State, e: Event)
    requires TriesInv(c, s) && (s.pc.Catch? || s.pc.Kill?) && CodeEnabled(s, e)
    ensures TriesInv(c, CodeStep(c, s, e))
  {
  }

  lemma DeliverKeepsTries(c: Config, s: State, e: Event)
    requires TriesInv(c, s) && !s.pc.Done? && e.Deliver?
    ensures TriesInv(c, DeliverStep(c, s, e.sig))
  {
  }

  lemma WorldKeepsTries(c: Config, s: State, e: Event)
    requires TriesInv(c, s) && Enabled(c, s, e) && IsEnvironment(e) && !e.Deliver?
    ensures TriesInv(c, WorldStep(s, e))
  {
  }

  lemma StepKeepsTries(c: Config, s: State, e: Event)
    requires TriesInv(c, s) && Enabled(c, s, e)
    ensures TriesInv(c, Next(c, s, e))
  {
    if e.Deliver? {
      DeliverKeepsTries(c, s, e);
    } else if IsEnvironment(e) {
      WorldKeepsTries(c, s, e);
    } else if s.pc.Run? || IsPlain(s.pc) {
      OuterKeepsTries(c, s, e);
    } else if s.pc.Try? || s.pc.Arm? || s.pc.Poll? {
      LoopKeepsTries(c, s, e);
    } else {
      LeavingKeepsTries(c, s, e);
    }
  }
}
