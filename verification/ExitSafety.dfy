/** After SIGTERM or SIGINT: no more waiting, at most one more fork, and a bounded way out. */
module ExitSafety {
  import opened Supervisor
  import opened SignalSafety
  import Drain

  predicate ExitInv(s: State) {
    && (s.pc.Poll? ==> !s.g.exitSignalled)
    && (s.pc.DrainErr? && s.pc.caller.FromPoll? ==> !s.g.exitSignalled)
    && (!s.g.exitSignalled ==> s.h.exits == ExitLog(0, false))
    && s.h.exits.forks <= (if s.h.exits.inWindow then 1 else 0)
    && (s.g.exitSignalled && InForkWindow(s.pc) ==> s.h.exits == ExitLog(0, true))
  }

  /** reap_with_grace counts to two. */
  predicate ReapInv(s: State) {
    && (s.pc.Kill? && s.pc.k.ReapPoll? ==> 0 <= s.pc.k.waited < 2)
    && (s.pc.Kill? && s.pc.k.ReapSleep? ==> 0 <= s.pc.k.waited < 2)
  }

  lemma RunKeepsExit(c: Config, s: State, e: Event)
    requires ExitInv(s) && s.pc.Run? && CodeEnabled(s, e)
    ensures ExitInv(RunStep(c, s, s.pc.r, e))
  {
  }

  lemma TryKeepsExit(c: Config, s: State, e: Event)
    requires ExitInv(s) && s.pc.Try? && CodeEnabled(s, e)
    ensures ExitInv(TryStep(c, s, s.pc.t, e))
  {
  }

  lemma ArmKeepsExit(c: Config, s: State)
    requires ExitInv(s) && s.pc.Arm?
    ensures ExitInv(ArmStep(c, s, s.pc.a))
  {
  }

  lemma PollKeepsExit(s: State, e: Event)
    requires ExitInv(s) && s.pc.Poll?
    ensures ExitInv(PollStep(s, s.pc.p, e))
  {
  }

  lemma CatchKeepsExit(c: Config, s: State, e: Event)
    requires ExitInv(s) && s.pc.Catch?
    ensures ExitInv(CatchStep(c, s, s.pc.x, e))
  {
  }

  lemma KillKeepsExit(s: State, e: Event)
    requires ExitInv(s) && s.pc.Kill? && CodeEnabled(s, e)
    ensures ExitInv(KillStep(s, s.pc.k, s.pc.after, e))
  {
  }

  lemma DeliverKeepsExit(c: Config, s: State, e: Event)
    requires ExitInv(s) && !s.pc.Done? && e.Deliver? && MaskInv(s) && JumpInv(s) && Enabled(c, s, e)
    ensures ExitInv(DeliverStep(c, s, e.sig))
  {
  }

  lemma PlainKeepsExit(c: Config, s: State, e: Event)
    requires ExitInv(s) && IsPlain(s.pc)
    ensures ExitInv(PlainStep(c, s, e))
  {
  }

  lemma WorldKeepsExit(c: Config, s: State, e: Event)
    requires ExitInv(s) && Enabled(c, s, e) && IsEnvironment(e) && !e.Deliver?
    ensures ExitInv(WorldStep(s, e))
  {
  }

  lemma StepKeepsExit(c: Config, s: State, e: Event)
    requires ExitInv(s) && MaskInv(s) && JumpInv(s) && Enabled(c, s, e)
    ensures ExitInv(Next(c, s, e))
  {
    if e.Deliver? {
      DeliverKeepsExit(c, s, e);
    } else if IsEnvironment(e) {
      WorldKeepsExit(c, s, e);
    } else {
      match s.pc
      case Run(_) => RunKeepsExit(c, s, e);
      case Try(_) => TryKeepsExit(c, s, e);
      case Arm(_) => ArmKeepsExit(c, s);
      case Poll(_) => PollKeepsExit(s, e);
      case Catch(_) => CatchKeepsExit(c, s, e);
      case Kill(_, _) => KillKeepsExit(s, e);
      case _ => PlainKeepsExit(c, s, e);
    }
  }

  lemma CodeKeepsReap(c: Config, s: State, e: Event)
    requires ReapInv(s) && !s.pc.Done? && CodeEnabled(s, e)
    ensures ReapInv(CodeStep(c, s, e))
  {
  }

  lemma DeliverKeepsReap(c: Config, s: State, e: Event)
    requires ReapInv(s) && !s.pc.Done? && e.Deliver?
    ensures ReapInv(DeliverStep(c, s, e.sig))
  {
  }

  lemma WorldKeepsReap(c: Config, s: State, e: Event)
    requires ReapInv(s) && Enabled(c, s, e) && IsEnvironment(e) && !e.Deliver?
    ensures ReapInv(WorldStep(s, e))
  {
  }

  lemma StepKeepsReap(c: Config, s: State, e: Event)
    requires ReapInv(s) && Enabled(c, s, e)
    ensures ReapInv(Next(c, s, e))
  {
    if e.Deliver? {
      DeliverKeepsReap(c, s, e);
    } else if IsEnvironment(e) {
      WorldKeepsReap(c, s, e);
    } else {
      CodeKeepsReap(c, s, e);
    }
  }

  // ----- the way out is bounded -----

  /** Statements still to run before the process is done, once the exit flag is set. */
  function Rank(pc: Pc): (n: nat)
    ensures n <= 51
  {
    match pc
    case Done(_) => 0
    case Run(r) => RunRank(r)
    case GraceTime(g) => GraceRank(g)
    case Leave(q, _) =>
      (match q
       case RetTest => 12 case CloseRead => 13 case UninstallHandlers => 14 case ClearTimer => 15 case ClearJump => 16)
    case Catch(x) => CatchRank(x)
    case Kill(k, _) => KillRank(k)
    case Try(t) => TryRank(t)
    case Arm(a) => ArmRank(a)
    case DrainErr(d, caller) => (if caller.FromWait? then 38 else 46) + (if d.FdTest? then 1 else 0)
    case Poll(_) => 0
  }

  function RunRank(r: RunPc): nat {
    match r
    case ExitTest => 1
    case CountStart => 8 case ClearRestart => 9 case LifetimeTest => 10 case LoopTest => 11
    case InstallExitHandler => 12
    case InstallHandlers => 46 case AdoptPipe => 47 case Fork => 48 case MakePipe => 49
    case ResetChild => 50 case StampStart => 51
  }

  function GraceRank(g: GracePc): nat {
    match g
    case PortFlagClear => 2 case PortSleep => 3 case PortFlagTest => 4
    case BackoffSleep => 5 case Backoff => 6 case CountTry => 7
  }

  function CatchRank(x: CatchPc): nat {
    match x
    case RestoreMask(_) => 17 case PortDelay => 18
    case EchoTest => 44 case AfterAlarmDrain => 45 case Watchdog => 48 case CatchLifetime => 49
    case Dispatch => 50 case Unblock => 51
  }

  function KillRank(k: KillPc): nat {
    match k
    case Abandon => 19
    case ReapSleep(waited, killed) => (if killed then 20 else 25) + (if waited == 0 then 2 else 0)
    case ReapPoll(waited, killed) => (if killed then 21 else 26) + (if waited == 0 then 2 else 0)
    case SendKill => 24
    case SendTerm => 29 case ChildTest => 30 case CloseFd => 31
  }

  function ArmRank(a: ArmPc): nat {
    match a
    case ExitFlagTest => 32 case SetTimer => 33 case SetJump => 34 case ComputeSecs => 35 case TakeAlarm => 36
  }

  function TryRank(t: TryPc): nat {
    match t
    case JudgeStatus => 37 case WaitChild => 40 case SetJmp => 41 case RestartTest => 42 case Reblock => 43
    case SaveMask => 44 case Enter => 45
  }

  /** A statement of the program, other than one more successful read of the child's stderr. */
  predicate IsWork(e: Event) {
    !IsEnvironment(e) && e != ReadData(Drain.Nothing)
  }

  lemma RunDescends(c: Config, s: State, e: Event)
    requires ExitInv(s) && ReapInv(s) && s.g.exitSignalled && s.pc.Run? && CodeEnabled(s, e)
    ensures RunStep(c, s, s.pc.r, e).g.exitSignalled && Rank(RunStep(c, s, s.pc.r, e).pc) < Rank(s.pc)
  {
  }

  lemma TryDescends(c: Config, s: State, e: Event)
    requires ExitInv(s) && ReapInv(s) && s.g.exitSignalled && s.pc.Try? && CodeEnabled(s, e)
    ensures TryStep(c, s, s.pc.t, e).g.exitSignalled && Rank(TryStep(c, s, s.pc.t, e).pc) < Rank(s.pc)
  {
  }

  lemma ArmDescends(c: Config, s: State)
    requires ExitInv(s) && ReapInv(s) && s.g.exitSignalled && s.pc.Arm?
    ensures ArmStep(c, s, s.pc.a).g.exitSignalled && Rank(ArmStep(c, s, s.pc.a).pc) < Rank(s.pc)
  {
  }

  lemma CatchDescends(c: Config, s: State, e: Event)
    requires ExitInv(s) && ReapInv(s) && s.g.exitSignalled && s.pc.Catch? && CodeEnabled(s, e)
    ensures CatchStep(c, s, s.pc.x, e).g.exitSignalled && Rank(CatchStep(c, s, s.pc.x, e).pc) < Rank(s.pc)
  {
  }

  lemma KillDescends(s: State, e: Event)
    requires ExitInv(s) && ReapInv(s) && s.g.exitSignalled && s.pc.Kill? && CodeEnabled(s, e)
    ensures KillStep(s, s.pc.k, s.pc.after, e).g.exitSignalled
    ensures Rank(KillStep(s, s.pc.k, s.pc.after, e).pc) < Rank(s.pc)
  {
  }

  lemma PlainDescends(c: Config, s: State, e: Event)
    requires ExitInv(s) && ReapInv(s) && s.g.exitSignalled && IsPlain(s.pc) && CodeEnabled(s, e)
    ensures PlainStep(c, s, e).g.exitSignalled && Rank(PlainStep(c, s, e).pc) <= Rank(s.pc)
    ensures IsWork(e) ==> Rank(PlainStep(c, s, e).pc) < Rank(s.pc)
  {
  }

  /** With the exit flag set every statement brings the end nearer, and no signal takes it further away. */
  lemma StepDescends(c: Config, s: State, e: Event)
    requires SignalInv(s) && ExitInv(s) && ReapInv(s) && s.g.exitSignalled && Enabled(c, s, e)
    ensures Next(c, s, e).g.exitSignalled
    ensures Rank(Next(c, s, e).pc) <= Rank(s.pc)
    ensures IsWork(e) ==> Rank(Next(c, s, e).pc) < Rank(s.pc)
  {
    if !IsEnvironment(e) {
      match s.pc
      case Run(_) => RunDescends(c, s, e);
      case Try(_) => TryDescends(c, s, e);
      case Arm(_) => ArmDescends(c, s);
      case Catch(_) => CatchDescends(c, s, e);
      case Kill(_, _) => KillDescends(s, e);
      case _ => PlainDescends(c, s, e);
    }
  }
}
