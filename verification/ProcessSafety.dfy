/** Children and descriptors over every interleaving: none is lost, killed twice or closed twice. */
module ProcessSafety {
  import opened Posix
  import opened Supervisor
  import opened SignalSafety

  /** The points at which `cchild` names a child that has been forked and neither reaped nor given up. */
  predicate Tracked(s: State) {
    match s.pc
    case Run(r) => r.AdoptPipe? || r.InstallHandlers?
    case Try(t) => !t.JudgeStatus?
    case Arm(_) => true
    case Poll(_) => true
    case Catch(x) => !x.PortDelay? && !x.RestoreMask?
    case DrainErr(_, caller) => !caller.FromWait?
    case Kill(k, _) => (k.CloseFd? || k.ChildTest?) ==> s.g.cchild != 0
    case _ => false
  }

  /** The process was stopped in the middle: nothing is claimed about what it leaves behind. */
  predicate CutShort(pc: Pc) {
    pc.Done? && (pc.how.ForcedExit? || pc.how.SignalDeath? || pc.how.WildJump?)
  }

  predicate ChildInv(s: State) {
    && (Tracked(s) ==>
          && s.g.cchild > 0 && s.g.cchild !in s.h.procs.abandoned
          && s.w.children.Keys == s.h.procs.abandoned + {s.g.cchild})
    && (!Tracked(s) && !CutShort(s.pc) ==> s.w.children.Keys == s.h.procs.abandoned)
  }

  predicate CountInv(s: State) {
    s.h.procs.forks == s.h.procs.reaped + |s.w.children|
  }

  /** ssh_run's pipe is made but not yet adopted. */
  predicate HoldsPipe(pc: Pc) {
    pc.Run? && (pc.r.Fork? || pc.r.AdoptPipe?)
  }

  /** ssh_stderr_fd may be open. */
  predicate MayHoldStderr(pc: Pc) {
    || pc == Run(InstallHandlers) || (pc.Leave? && !pc.q.RetTest?)
    || pc.Try? || pc.Arm? || pc.Poll? || pc.Catch? || pc.DrainErr? || (pc.Kill? && pc.k.CloseFd?)
  }

  function OpenFds(s: State): set<int> {
    if HoldsPipe(s.pc) then (if s.l.pipeRead >= 0 then {s.l.pipeRead, s.l.pipeWrite} else {})
    else if s.g.stderrFd >= 0 then {s.g.stderrFd} else {}
  }

  predicate FdInv(s: State) {
    && !s.h.fds.missed && s.g.stderrFd >= -1
    && s.h.fds.made == s.h.fds.closed + |s.w.open|
    && (!CutShort(s.pc) ==> s.w.open == OpenFds(s))
    && (!CutShort(s.pc) && !MayHoldStderr(s.pc) ==> s.g.stderrFd == -1)
    && (HoldsPipe(s.pc) ==>
          && (s.l.pipeRead >= 0 <==> s.l.pipeWrite >= 0)
          && (s.l.pipeRead >= 0 ==> s.l.pipeRead != s.l.pipeWrite)
          && s.l.pipeRead >= -1)
    && (s.pc.Poll? && !s.pc.p.EnterWait? && !s.pc.p.InSuspend? && !s.pc.p.LeaveSuspend? ==> s.g.stderrFd >= 0)
    && (s.pc.DrainErr? && s.pc.caller.FromPoll? ==> s.g.stderrFd >= 0)
  }

  lemma RunKeepsChild(c: Config, s: State, e: Event)
    requires ChildInv(s) && s.pc.Run? && CodeEnabled(s, e)
    ensures ChildInv(RunStep(c, s, s.pc.r, e))
  {
  }

  lemma TryKeepsChild(c: Config, s: State, e: Event)
    requires ChildInv(s) && s.pc.Try? && CodeEnabled(s, e)
    ensures ChildInv(TryStep(c, s, s.pc.t, e))
  {
  }

  lemma ArmKeepsChild(c: Config, s: State)
    requires ChildInv(s) && s.pc.Arm?
    ensures ChildInv(ArmStep(c, s, s.pc.a))
  {
  }

  lemma PollKeepsChild(s: State, e: Event)
    requires ChildInv(s) && s.pc.Poll?
    ensures ChildInv(PollStep(s, s.pc.p, e))
  {
  }

  lemma CatchKeepsChild(c: Config, s: State, e: Event)
    requires ChildInv(s) && s.pc.Catch?
    ensures ChildInv(CatchStep(c, s, s.pc.x, e))
  {
  }

  lemma KillKeepsChild(s: State, e: Event)
    requires ChildInv(s) && s.pc.Kill? && CodeEnabled(s, e)
    ensures ChildInv(KillStep(s, s.pc.k, s.pc.after, e))
  {
  }

  lemma DeliverKeepsChild(c: Config, s: State, e: Event)
    requires ChildInv(s) && !s.pc.Done? && e.Deliver? && JumpInv(s)
    ensures ChildInv(DeliverStep(c, s, e.sig))
  {
  }

  lemma PlainKeepsChild(c: Config, s: State, e: Event)
    requires ChildInv(s) && IsPlain(s.pc)
    ensures ChildInv(PlainStep(c, s, e))
  {
  }

  lemma WorldKeepsChild(c: Config, s: State, e: Event)
    requires ChildInv(s) && Enabled(c, s, e) && IsEnvironment(e) && !e.Deliver?
    ensures ChildInv(WorldStep(s, e))
  {
  }

  lemma StepKeepsChild(c: Config, s: State, e: Event)
    requires ChildInv(s) && JumpInv(s) && Enabled(c, s, e)
    ensures ChildInv(Next(c, s, e))
  {
    if e.Deliver? {
      DeliverKeepsChild(c, s, e);
    } else if IsEnvironment(e) {
      WorldKeepsChild(c, s, e);
    } else {
      match s.pc
      case Run(_) => RunKeepsChild(c, s, e);
      case Try(_) => TryKeepsChild(c, s, e);
      case Arm(_) => ArmKeepsChild(c, s);
      case Poll(_) => PollKeepsChild(s, e);
      case Catch(_) => CatchKeepsChild(c, s, e);
      case Kill(_, _) => KillKeepsChild(s, e);
      case _ => PlainKeepsChild(c, s, e);
    }
  }

  lemma OuterKeepsCount(c: Config, s: State, e: Event)
    requires ChildInv(s) && CountInv(s) && (s.pc.Run? || IsPlain(s.pc)) && CodeEnabled(s, e)
    ensures CountInv(CodeStep(c, s, e))
  {
  }

  lemma LoopKeepsCount(c: Config, s: State, e: Event)
    requires ChildInv(s) && CountInv(s) && (s.pc.Try? || s.pc.Arm? || s.pc.Poll?) && CodeEnabled(s, e)
    ensures CountInv(CodeStep(c, s, e))
  {
  }

  lemma LeavingKeepsCount(c: Config, s: State, e: Event)
    requires ChildInv(s) && CountInv(s) && (s.pc.Catch? || s.pc.Kill?) && CodeEnabled(s, e)
    ensures CountInv(CodeStep(c, s, e))
  {
  }

  lemma DeliverKeepsCount(c: Config, s: State, e: Event)
    requires ChildInv(s) && CountInv(s) && !s.pc.Done? && e.Deliver?
    ensures CountInv(DeliverStep(c, s, e.sig))
  {
  }

  lemma WorldKeepsCount(c: Config, s: State, e: Event)
    requires ChildInv(s) && CountInv(s) && Enabled(c, s, e) && IsEnvironment(e) && !e.Deliver?
    ensures CountInv(WorldStep(s, e))
  {
  }

  lemma StepKeepsCount(c: Config, s: State, e: Event)
    requires ChildInv(s) && CountInv(s) && Enabled(c, s, e)
    ensures CountInv(Next(c, s, e))
  {
    if e.Deliver? {
      DeliverKeepsCount(c, s, e);
    } else if IsEnvironment(e) {
      WorldKeepsCount(c, s, e);
    } else if s.pc.Run? || IsPlain(s.pc) {
      OuterKeepsCount(c, s, e);
    } else if s.pc.Try? || s.pc.Arm? || s.pc.Poll? {
      LoopKeepsCount(c, s, e);
    } else {
      LeavingKeepsCount(c, s, e);
    }
  }

  lemma ForkKeepsFds(c: Config, s: State, e: Event)
    requires FdInv(s) && s.pc == Run(Fork) && CodeEnabled(s, e) && e.pid != -1
    ensures FdInv(RunStep(c, s, Fork, e))
  {
  }

  lemma NoForkKeepsFds(c: Config, s: State)
    requires FdInv(s) && s.pc == Run(Fork)
    ensures FdInv(RunStep(c, s, Fork, ForkMade(-1)))
  {
  }

  lemma RunKeepsFds(c: Config, s: State, e: Event)
    requires FdInv(s) && s.pc.Run? && CodeEnabled(s, e) && !s.pc.r.Fork? && !s.pc.r.MakePipe?
    ensures FdInv(RunStep(c, s, s.pc.r, e))
  {
  }

  lemma PipeKeepsFds(c: Config, s: State, e: Event)
    requires FdInv(s) && s.pc == Run(MakePipe) && CodeEnabled(s, e)
    ensures FdInv(RunStep(c, s, MakePipe, e))
  {
    assert s.w.open == {};
    assert e.read >= 0 ==> |{e.read, e.write}| == 2;
  }

  lemma TryKeepsFds(c: Config, s: State, e: Event)
    requires FdInv(s) && s.pc.Try? && CodeEnabled(s, e)
    ensures FdInv(TryStep(c, s, s.pc.t, e))
  {
  }

  lemma ArmKeepsFds(c: Config, s: State)
    requires FdInv(s) && s.pc.Arm?
    ensures FdInv(ArmStep(c, s, s.pc.a))
  {
  }

  lemma PollKeepsFds(s: State, e: Event)
    requires FdInv(s) && s.pc.Poll?
    ensures FdInv(PollStep(s, s.pc.p, e))
  {
  }

  lemma CatchKeepsFds(c: Config, s: State, e: Event)
    requires FdInv(s) && s.pc.Catch?
    ensures FdInv(CatchStep(c, s, s.pc.x, e))
  {
  }

  lemma KillKeepsFds(s: State, e: Event)
    requires FdInv(s) && s.pc.Kill? && CodeEnabled(s, e)
    ensures FdInv(KillStep(s, s.pc.k, s.pc.after, e))
  {
  }

  lemma DeliverKeepsFds(c: Config, s: State, e: Event)
    requires FdInv(s) && !s.pc.Done? && e.Deliver? && JumpInv(s)
    ensures FdInv(DeliverStep(c, s, e.sig))
  {
  }

  lemma PlainKeepsFds(c: Config, s: State, e: Event)
    requires FdInv(s) && IsPlain(s.pc)
    ensures FdInv(PlainStep(c, s, e))
  {
  }

  lemma WorldKeepsFds(c: Config, s: State, e: Event)
    requires FdInv(s) && Enabled(c, s, e) && IsEnvironment(e) && !e.Deliver?
    ensures FdInv(WorldStep(s, e))
  {
  }

  lemma StepKeepsFds(c: Config, s: State, e: Event)
    requires FdInv(s) && JumpInv(s) && Enabled(c, s, e)
    ensures FdInv(Next(c, s, e))
  {
    if e.Deliver? {
      DeliverKeepsFds(c, s, e);
    } else if IsEnvironment(e) {
      WorldKeepsFds(c, s, e);
    } else {
      match s.pc
      case Run(r) =>
        if r.MakePipe? {
          PipeKeepsFds(c, s, e);
        } else if !r.Fork? {
          RunKeepsFds(c, s, e);
        } else if e.pid == -1 {
          NoForkKeepsFds(c, s);
        } else {
          ForkKeepsFds(c, s, e);
        }
      case Try(_) => TryKeepsFds(c, s, e);
      case Arm(_) => ArmKeepsFds(c, s);
      case Poll(_) => PollKeepsFds(s, e);
      case Catch(_) => CatchKeepsFds(c, s, e);
      case Kill(_, _) => KillKeepsFds(s, e);
      case _ => PlainKeepsFds(c, s, e);
    }
  }

  /** An ssh_kill on the way to a halt has a child exactly if it comes from ssh_watch, where the handlers are on. */
  predicate HaltInv(s: State) {
    s.pc.Kill? && s.pc.after.ThenHalt? ==> s.w.caught == if s.g.cchild == 0 then ExitHandlers else AllHandlers
  }

  lemma OuterKeepsHalt(c: Config, s: State, e: Event)
    requires HaltInv(s) && ChildInv(s) && HandlerInv(s) && (s.pc.Run? || IsPlain(s.pc)) && CodeEnabled(s, e)
    ensures HaltInv(CodeStep(c, s, e))
  {
  }

  lemma LoopKeepsHalt(c: Config, s: State, e: Event)
    requires HaltInv(s) && ChildInv(s) && HandlerInv(s)
    requires (s.pc.Try? || s.pc.Arm? || s.pc.Poll?) && CodeEnabled(s, e)
    ensures HaltInv(CodeStep(c, s, e))
  {
  }

  lemma LeavingKeepsHalt(c: Config, s: State, e: Event)
    requires HaltInv(s) && ChildInv(s) && HandlerInv(s) && (s.pc.Catch? || s.pc.Kill?) && CodeEnabled(s, e)
    ensures HaltInv(CodeStep(c, s, e))
  {
  }

  lemma DeliverKeepsHalt(c: Config, s: State, e: Event)
    requires HaltInv(s) && ChildInv(s) && HandlerInv(s) && !s.pc.Done? && e.Deliver? && JumpInv(s)
    ensures HaltInv(DeliverStep(c, s, e.sig))
  {
  }

  lemma WorldKeepsHalt(c: Config, s: State, e: Event)
    requires HaltInv(s) && ChildInv(s) && HandlerInv(s) && Enabled(c, s, e) && IsEnvironment(e) && !e.Deliver?
    ensures HaltInv(WorldStep(s, e))
  {
  }

  lemma StepKeepsHalt(c: Config, s: State, e: Event)
    requires HaltInv(s) && ChildInv(s) && HandlerInv(s) && JumpInv(s) && Enabled(c, s, e)
    ensures HaltInv(Next(c, s, e))
  {
    if e.Deliver? {
      DeliverKeepsHalt(c, s, e);
    } else if IsEnvironment(e) {
      WorldKeepsHalt(c, s, e);
    } else if s.pc.Run? || IsPlain(s.pc) {
      OuterKeepsHalt(c, s, e);
    } else if s.pc.Try? || s.pc.Arm? || s.pc.Poll? {
      LoopKeepsHalt(c, s, e);
    } else {
      LeavingKeepsHalt(c, s, e);
    }
  }
}
