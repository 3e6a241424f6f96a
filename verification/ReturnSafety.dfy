/** Why the watchdog may kill a child, and why ssh_run may return. */
module ReturnSafety {
  import opened Posix
  import opened WaitPolicy
  import opened Supervisor
  import opened SignalSafety
  import opened StartSafety

  // ----- the lost pipe -----

  /** A child is being watched or killed. */
  predicate InChildLoop(pc: Pc) {
    pc.Try? || pc.Arm? || pc.Poll? || pc.Catch? || pc.DrainErr? || pc.Kill?
  }

  /** Once the pipe is lost nothing can be read any more, and it was lost in this child's time. */
  predicate PipeInv(s: State) {
    InChildLoop(s.pc) && s.g.pipeLost != 0 ==> s.g.stderrFd == -1 && s.g.startTime <= s.g.pipeLost <= s.w.clock
  }

  lemma RunKeepsPipe(c: Config, s: State, e: Event)
    requires PipeInv(s) && StderrInv(c, s) && s.pc.Run?
    ensures PipeInv(RunStep(c, s, s.pc.r, e))
  {
  }

  lemma TryKeepsPipe(c: Config, s: State, e: Event)
    requires PipeInv(s) && StderrInv(c, s) && s.pc.Try?
    ensures PipeInv(TryStep(c, s, s.pc.t, e))
  {
  }

  lemma ArmKeepsPipe(c: Config, s: State)
    requires PipeInv(s) && StderrInv(c, s) && s.pc.Arm?
    ensures PipeInv(ArmStep(c, s, s.pc.a))
  {
  }

  lemma PollKeepsPipe(c: Config, s: State, e: Event)
    requires PipeInv(s) && StderrInv(c, s) && s.pc.Poll?
    ensures PipeInv(PollStep(s, s.pc.p, e))
  {
  }

  lemma CatchKeepsPipe(c: Config, s: State, e: Event)
    requires PipeInv(s) && StderrInv(c, s) && s.pc.Catch?
    ensures PipeInv(CatchStep(c, s, s.pc.x, e))
  {
  }

  lemma KillKeepsPipe(c: Config, s: State, e: Event)
    requires PipeInv(s) && StderrInv(c, s) && s.pc.Kill?
    ensures PipeInv(KillStep(s, s.pc.k, s.pc.after, e))
  {
  }

  lemma DeliverKeepsPipe(c: Config, s: State, e: Event)
    requires PipeInv(s) && StderrInv(c, s) && !s.pc.Done? && e.Deliver? && JumpInv(s)
    ensures PipeInv(DeliverStep(c, s, e.sig))
  {
  }

  lemma PlainKeepsPipe(c: Config, s: State, e: Event)
    requires PipeInv(s) && StderrInv(c, s) && IsPlain(s.pc)
    ensures PipeInv(PlainStep(c, s, e))
  {
  }

  lemma WorldKeepsPipe(c: Config, s: State, e: Event)
    requires PipeInv(s) && StderrInv(c, s) && Enabled(c, s, e) && IsEnvironment(e) && !e.Deliver?
    ensures PipeInv(WorldStep(s, e))
  {
  }

  lemma StepKeepsPipe(c: Config, s: State, e: Event)
    requires PipeInv(s) && StderrInv(c, s) && JumpInv(s) && Enabled(c, s, e)
    ensures PipeInv(Next(c, s, e))
  {
    if e.Deliver? {
      DeliverKeepsPipe(c, s, e);
    } else if IsEnvironment(e) {
      WorldKeepsPipe(c, s, e);
    } else {
      match s.pc
      case Run(_) => RunKeepsPipe(c, s, e);
      case Try(_) => TryKeepsPipe(c, s, e);
      case Arm(_) => ArmKeepsPipe(c, s);
      case Poll(_) => PollKeepsPipe(c, s, e);
      case Catch(_) => CatchKeepsPipe(c, s, e);
      case Kill(_, _) => KillKeepsPipe(c, s, e);
      case _ => PlainKeepsPipe(c, s, e);
    }
  }

  // ----- the verdict -----

  /** The child left by exiting, in a way ssh_wait takes for final. */
  predicate GaveUp(c: Config, s: State) {
    && s.l.status.Exited?
    && (s.l.status.code in {0, 255} ==> FailedTheGate(s.l.status, s.g.startCount, c.gateTime, s.h.age))
    && (s.l.status.code in {1, 2} ==> s.g.startCount == 1 && c.gateTime != 0)
  }

  /** What can be behind a verdict that ssh_watch returns. */
  predicate Grounds(c: Config, s: State, rc: Verdict) {
    match rc
    case Continue => false
    case Restart => true
    case ExitErr => s.g.exitSignalled || GaveUp(c, s)
    case ExitOk =>
      || LifetimeExceeded(c, s.w.clock)
      || (s.l.status == Exited(0) && !FailedTheGate(s.l.status, s.g.startCount, c.gateTime, s.h.age))
  }

  predicate ReturnInv(c: Config, s: State) {
    && s.g.startCount >= 0
    && (InChildLoop(s.pc) ==> s.g.startCount >= 1)
    && (BeforeFork(s.pc) || (s.pc.Run? && (s.pc.r.AdoptPipe? || s.pc.r.InstallHandlers?)) ==> s.g.startCount >= 1)
    && (s.pc.Catch? && (s.pc.x.Unblock? || s.pc.x.Dispatch?) && IsExitSignal(s.l.val) ==> s.g.exitSignalled)
    && (s.pc.Kill? && s.pc.after.ThenReturn? ==> Grounds(c, s, s.pc.after.rc))
    && (s.pc.Catch? && s.pc.x.RestoreMask? ==> Grounds(c, s, s.pc.x.rc))
    && (s.pc.Leave? ==> Grounds(c, s, s.pc.rc))
    && (s.pc.Done? && s.pc.how.Returned? ==>
          || (s.pc.how.rc != Restart && Grounds(c, s, s.pc.how.rc))
          || (s.pc.how.rc == ExitOk && 0 <= c.maxStart <= s.g.startCount))
  }

  lemma RunKeepsReturn(c: Config, s: State, e: Event)
    requires ReturnInv(c, s) && s.pc.Run? && CodeEnabled(s, e)
    ensures ReturnInv(c, RunStep(c, s, s.pc.r, e))
  {
  }

  lemma TryKeepsReturn(c: Config, s: State, e: Event)
    requires ReturnInv(c, s) && s.pc.Try?
    ensures ReturnInv(c, TryStep(c, s, s.pc.t, e))
  {
  }

  lemma ArmKeepsReturn(c: Config, s: State)
    requires ReturnInv(c, s) && s.pc.Arm?
    ensures ReturnInv(c, ArmStep(c, s, s.pc.a))
  {
  }

  lemma PollKeepsReturn(c: Config, s: State, e: Event)
    requires ReturnInv(c, s) && s.pc.Poll?
    ensures ReturnInv(c, PollStep(s, s.pc.p, e))
  {
  }

  lemma CatchKeepsReturn(c: Config, s: State, e: Event)
    requires ReturnInv(c, s) && s.pc.Catch?
    ensures ReturnInv(c, CatchStep(c, s, s.pc.x, e))
  {
  }

  lemma KillKeepsReturn(c: Config, s: State, e: Event)
    requires ReturnInv(c, s) && s.pc.Kill?
    ensures ReturnInv(c, KillStep(s, s.pc.k, s.pc.after, e))
  {
  }

  lemma DeliverKeepsReturn(c: Config, s: State, e: Event)
    requires ReturnInv(c, s) && !s.pc.Done? && e.Deliver? && JumpInv(s)
    ensures ReturnInv(c, DeliverStep(c, s, e.sig))
  {
  }

  lemma PlainKeepsReturn(c: Config, s: State, e: Event)
    requires ReturnInv(c, s) && IsPlain(s.pc)
    ensures ReturnInv(c, PlainStep(c, s, e))
  {
  }

  lemma WorldKeepsReturn(c: Config, s: State, e: Event)
    requires ReturnInv(c, s) && Enabled(c, s, e) && IsEnvironment(e) && !e.Deliver?
    ensures ReturnInv(c, WorldStep(s, e))
  {
  }

  lemma StepKeepsReturn(c: Config, s: State, e: Event)
    requires ReturnInv(c, s) && JumpInv(s) && Enabled(c, s, e)
    ensures ReturnInv(c, Next(c, s, e))
  {
    if e.Deliver? {
      DeliverKeepsReturn(c, s, e);
    } else if IsEnvironment(e) {
      WorldKeepsReturn(c, s, e);
    } else {
      match s.pc
      case Run(_) => RunKeepsReturn(c, s, e);
      case Try(_) => TryKeepsReturn(c, s, e);
      case Arm(_) => ArmKeepsReturn(c, s);
      case Poll(_) => PollKeepsReturn(c, s, e);
      case Catch(_) => CatchKeepsReturn(c, s, e);
      case Kill(_, _) => KillKeepsReturn(c, s, e);
      case _ => PlainKeepsReturn(c, s, e);
    }
  }
}
