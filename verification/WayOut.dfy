/** The way out after SIGTERM or SIGINT, in seconds, and what it takes to get through it unharmed. */
module WayOut {
  import opened Posix
  import opened Supervisor
  import opened SignalSafety
  import opened ProcessSafety
  import opened ExitSafety
  import Grace

  // ----- sleeps -----

  /** No sleep is longer than its purpose allows. */
  predicate SleepInv(c: Config, s: State) {
    && (s.pc == GraceTime(BackoffSleep) ==> s.w.wakeAt <= s.w.clock + c.pollTime)
    && (s.pc == GraceTime(PortSleep) || s.pc == Catch(PortDelay) ==>
          s.w.wakeAt <= s.w.clock + Grace.PORT_FWD_FAIL_DELAY)
    && (s.pc.Kill? && s.pc.k.ReapSleep? ==> s.w.wakeAt <= s.w.clock + 1)
  }

  lemma RunKeepsSleep(c: Config, s: State, e: Event)
    requires ValidConfig(c) && SleepInv(c, s) && s.pc.Run?
    ensures SleepInv(c, RunStep(c, s, s.pc.r, e))
  {
  }

  lemma TryKeepsSleep(c: Config, s: State, e: Event)
    requires ValidConfig(c) && SleepInv(c, s) && s.pc.Try?
    ensures SleepInv(c, TryStep(c, s, s.pc.t, e))
  {
  }

  lemma ArmKeepsSleep(c: Config, s: State)
    requires ValidConfig(c) && SleepInv(c, s) && s.pc.Arm?
    ensures SleepInv(c, ArmStep(c, s, s.pc.a))
  {
  }

  lemma PollKeepsSleep(c: Config, s: State, e: Event)
    requires ValidConfig(c) && SleepInv(c, s) && s.pc.Poll?
    ensures SleepInv(c, PollStep(s, s.pc.p, e))
  {
  }

  lemma CatchKeepsSleep(c: Config, s: State, e: Event)
    requires ValidConfig(c) && SleepInv(c, s) && s.pc.Catch?
    ensures SleepInv(c, CatchStep(c, s, s.pc.x, e))
  {
  }

  lemma KillKeepsSleep(c: Config, s: State, e: Event)
    requires ValidConfig(c) && SleepInv(c, s) && s.pc.Kill?
    ensures SleepInv(c, KillStep(s, s.pc.k, s.pc.after, e))
  {
  }

  lemma DeliverKeepsSleep(c: Config, s: State, e: Event)
    requires ValidConfig(c) && SleepInv(c, s) && !s.pc.Done? && e.Deliver?
    ensures SleepInv(c, DeliverStep(c, s, e.sig))
  {
  }

  lemma PlainKeepsSleep(c: Config, s: State, e: Event)
    requires ValidConfig(c) && SleepInv(c, s) && IsPlain(s.pc)
    ensures SleepInv(c, PlainStep(c, s, e))
  {
    Grace.BackoffIsBounded(c.pollTime, s.g.tries);
  }

  lemma WorldKeepsSleep(c: Config, s: State, e: Event)
    requires ValidConfig(c) && SleepInv(c, s) && Enabled(c, s, e) && IsEnvironment(e) && !e.Deliver?
    ensures SleepInv(c, WorldStep(s, e))
  {
  }

  lemma StepKeepsSleep(c: Config, s: State, e: Event)
    requires ValidConfig(c) && SleepInv(c, s) && Enabled(c, s, e)
    ensures SleepInv(c, Next(c, s, e))
  {
    if e.Deliver? {
      DeliverKeepsSleep(c, s, e);
    } else if IsEnvironment(e) {
      WorldKeepsSleep(c, s, e);
    } else {
      match s.pc
      case Run(_) => RunKeepsSleep(c, s, e);
      case Try(_) => TryKeepsSleep(c, s, e);
      case Arm(_) => ArmKeepsSleep(c, s);
      case Poll(_) => PollKeepsSleep(c, s, e);
      case Catch(_) => CatchKeepsSleep(c, s, e);
      case Kill(_, _) => KillKeepsSleep(c, s, e);
      case _ => PlainKeepsSleep(c, s, e);
    }
  }

  // ----- seconds -----

  function SleepLeft(w: World): nat {
    if w.clock < w.wakeAt then w.wakeAt - w.clock else 0
  }

  function KillSeconds(s: State, k: KillPc): int {
    match k
    case ReapPoll(waited, killed) => (if killed then 2 else 4) - waited
    case ReapSleep(waited, killed) => SleepLeft(s.w) + (if killed then 1 else 3) - waited
    case SendKill => 2
    case Abandon => 0
    case _ => 4
  }

  /** Four for a kill, five for each of the two port delays, and one backoff: the seconds that may still pass. */
  function Seconds(c: Config, s: State): int {
    match s.pc
    case Done(_) => 0
    case GraceTime(g) =>
      (match g
       case BackoffSleep => SleepLeft(s.w) + 5
       case PortFlagTest => 5
       case PortSleep => SleepLeft(s.w)
       case PortFlagClear => 0
       case _ => c.pollTime + 5)
    case Run(r) =>
      if r.ExitTest? then 0
      else if r.InstallExitHandler? || r.LoopTest? || r.LifetimeTest? || r.ClearRestart? || r.CountStart?
      then c.pollTime + 5
      else c.pollTime + 14
    case Leave(_, _) => c.pollTime + 5
    case Catch(RestoreMask(_)) => c.pollTime + 5
    case Catch(PortDelay) => SleepLeft(s.w) + c.pollTime + 5
    case Kill(k, after) => KillSeconds(s, k) + (if after.ThenPortDelay? then 5 else 0) + c.pollTime + 5
    case _ => c.pollTime + 14
  }

  lemma SecondsAreFew(c: Config, s: State)
    requires ValidConfig(c) && SleepInv(c, s) && ReapInv(s)
    ensures 0 <= Seconds(c, s) <= c.pollTime + 14
  {
  }

  lemma RunSpends(c: Config, s: State, e: Event)
    requires ValidConfig(c) && ExitInv(s) && ReapInv(s) && s.g.exitSignalled
    requires s.pc.Run? && CodeEnabled(s, e)
    ensures RunStep(c, s, s.pc.r, e).w.clock + Seconds(c, RunStep(c, s, s.pc.r, e)) <= s.w.clock + Seconds(c, s)
  {
  }

  lemma TrySpends(c: Config, s: State, e: Event)
    requires ValidConfig(c) && ExitInv(s) && ReapInv(s) && s.g.exitSignalled
    requires s.pc.Try? && CodeEnabled(s, e)
    ensures TryStep(c, s, s.pc.t, e).w.clock + Seconds(c, TryStep(c, s, s.pc.t, e)) <= s.w.clock + Seconds(c, s)
  {
  }

  lemma ArmSpends(c: Config, s: State)
    requires ValidConfig(c) && ExitInv(s) && ReapInv(s) && s.g.exitSignalled
    requires s.pc.Arm?
    ensures ArmStep(c, s, s.pc.a).w.clock + Seconds(c, ArmStep(c, s, s.pc.a)) <= s.w.clock + Seconds(c, s)
  {
  }

  lemma CatchSpends(c: Config, s: State, e: Event)
    requires ValidConfig(c) && ExitInv(s) && ReapInv(s) && s.g.exitSignalled
    requires s.pc.Catch? && CodeEnabled(s, e)
    ensures CatchStep(c, s, s.pc.x, e).w.clock + Seconds(c, CatchStep(c, s, s.pc.x, e)) <= s.w.clock + Seconds(c, s)
  {
  }

  lemma KillSpends(c: Config, s: State, e: Event)
    requires ValidConfig(c) && ExitInv(s) && ReapInv(s) && s.g.exitSignalled
    requires s.pc.Kill? && CodeEnabled(s, e)
    ensures var s' := KillStep(s, s.pc.k, s.pc.after, e);
      s'.w.clock + Seconds(c, s') <= s.w.clock + Seconds(c, s)
  {
  }

  lemma DeliverSpends(c: Config, s: State, e: Event)
    requires ValidConfig(c) && ExitInv(s) && ReapInv(s) && s.g.exitSignalled
    requires !s.pc.Done? && e.Deliver? && JumpInv(s)
    ensures DeliverStep(c, s, e.sig).w.clock + Seconds(c, DeliverStep(c, s, e.sig)) <= s.w.clock + Seconds(c, s)
  {
  }

  lemma PlainSpends(c: Config, s: State, e: Event)
    requires ValidConfig(c) && ExitInv(s) && ReapInv(s) && s.g.exitSignalled
    requires IsPlain(s.pc) && CodeEnabled(s, e)
    ensures PlainStep(c, s, e).w.clock + Seconds(c, PlainStep(c, s, e)) <= s.w.clock + Seconds(c, s)
  {
    Grace.BackoffIsBounded(c.pollTime, s.g.tries);
  }

  lemma WorldSpends(c: Config, s: State, e: Event)
    requires ValidConfig(c) && ExitInv(s) && ReapInv(s) && s.g.exitSignalled
    requires Enabled(c, s, e) && IsEnvironment(e) && !e.Deliver? && c.zeroTime
    ensures WorldStep(s, e).w.clock + Seconds(c, WorldStep(s, e)) <= s.w.clock + Seconds(c, s)
  {
  }

  /** With the exit flag set and no time lost, every second that passes is one of those allowed. */
  lemma StepSpends(c: Config, s: State, e: Event)
    requires ValidConfig(c) && c.zeroTime && JumpInv(s) && ExitInv(s) && ReapInv(s) && s.g.exitSignalled
    requires Enabled(c, s, e)
    ensures Next(c, s, e).w.clock + Seconds(c, Next(c, s, e)) <= s.w.clock + Seconds(c, s)
  {
    if e.Deliver? {
      DeliverSpends(c, s, e);
    } else if IsEnvironment(e) {
      WorldSpends(c, s, e);
    } else {
      match s.pc
      case Run(_) => RunSpends(c, s, e);
      case Try(_) => TrySpends(c, s, e);
      case Arm(_) => ArmSpends(c, s);
      case Catch(_) => CatchSpends(c, s, e);
      case Kill(_, _) => KillSpends(c, s, e);
      case _ => PlainSpends(c, s, e);
    }
  }

  // ----- unharmed -----

  /** Nothing is pending that could end the process where it is delivered: SIGCHLD, or a SIGALRM caught or blocked. */
  predicate Harmless(c: Config, s: State) {
    forall sig :: sig in s.w.pending ==>
      sig == CHLD || (sig == ALRM && (ALRM in c.callerMask || s.w.caught == AllHandlers))
  }

  lemma UninstallStaysHarmless(c: Config, s: State, e: Event)
    requires SignalInv(s) && Harmless(c, s) && Enabled(c, s, e) && !IsEnvironment(e)
    requires s.pc.Leave? && s.pc.q.UninstallHandlers?
    ensures Harmless(c, CodeStep(c, s, e)) && !CutShort(CodeStep(c, s, e).pc)
  {
    assert s.w.mask == Callers;
  }

  lemma CodeStaysHarmless(c: Config, s: State, e: Event)
    requires SignalInv(s) && Harmless(c, s) && CodeEnabled(s, e) && !IsEnvironment(e)
    requires !(s.pc.Leave? && s.pc.q.UninstallHandlers?)
    ensures Harmless(c, CodeStep(c, s, e)) && !CutShort(CodeStep(c, s, e).pc)
  {
    var s' := CodeStep(c, s, e);
    assert s'.w.pending == s.w.pending && (s.w.caught == AllHandlers ==> s'.w.caught == AllHandlers);
  }

  /** Left alone, a harmless state stays so, and the process is not ended from outside. */
  lemma StaysHarmless(c: Config, s: State, e: Event)
    requires SignalInv(s) && Harmless(c, s) && Enabled(c, s, e) && !e.Raise?
    ensures Harmless(c, Next(c, s, e)) && !CutShort(Next(c, s, e).pc)
  {
    if !IsEnvironment(e) {
      if s.pc.Leave? && s.pc.q.UninstallHandlers? {
        UninstallStaysHarmless(c, s, e);
      } else {
        CodeStaysHarmless(c, s, e);
      }
    }
  }
}
