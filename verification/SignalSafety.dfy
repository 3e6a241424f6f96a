/**
 * Signal discipline over every interleaving: a handler only ever jumps into the running ssh_watch,
 * the caller's mask comes back, and no alarm outlives its handler.
 */
module SignalSafety {
  import opened Posix
  import opened Supervisor

  /** Points of ssh_watch at which sig_catch's signals are blocked. */
  predicate BlockedPoint(pc: Pc) {
    || (pc.Try? && !pc.t.Enter? && !pc.t.SaveMask? && !pc.t.Reblock?) || pc.Arm?
    || (pc.Poll? && !IsWait(pc))
    || (pc.Catch? && pc.x.Unblock?)
    || (pc.DrainErr? && !pc.caller.FromAlarm?)
  }

  /** Points at which the caller's mask is in force. */
  predicate OpenPoint(pc: Pc) {
    || pc.Run? || pc.Leave? || pc.GraceTime?
    || (pc.Try? && (pc.t.Enter? || pc.t.SaveMask?))
    || IsWait(pc)
    || (pc.Catch? && !pc.x.Unblock? && !pc.x.PortDelay? && !pc.x.RestoreMask?)
    || (pc.DrainErr? && pc.caller.FromAlarm?)
  }

  /** Inside ssh_watch, after its first statement. */
  predicate InWatch(pc: Pc) {
    || (pc.Try? && !pc.t.Enter?) || pc.Arm? || pc.Poll? || pc.Catch? || pc.DrainErr?
    || (pc.Kill? && !pc.after.ThenHalt?)
  }

  predicate MaskInv(s: State) {
    && (BlockedPoint(s.pc) ==> s.w.mask == CallersPlusHandled)
    && (OpenPoint(s.pc) ==> s.w.mask == Callers)
    && (InWatch(s.pc) && s.pc != Try(SaveMask) ==> s.l.savedMask == Callers)
  }

  /** The window in which dolongjmp may be set. */
  predicate JumpPoint(pc: Pc) {
    || (pc.Arm? && (pc.a.SetTimer? || pc.a.ExitFlagTest?))
    || (pc.Poll? && (pc.p.EnterWait? || pc.p.InPpoll? || pc.p.InSuspend? || pc.p.LeavePpoll? || pc.p.LeaveSuspend?))
  }

  /** From __sigsetjmp to the end of the blocking wait. */
  predicate BufferPoint(pc: Pc) {
    || (pc.Try? && (pc.t.WaitChild? || pc.t.JudgeStatus?)) || pc.Arm?
    || (pc.DrainErr? && pc.caller.FromWait?)
    || JumpPoint(pc)
  }

  predicate JumpInv(s: State) {
    && (!s.pc.Done? ==> (s.g.dolongjmp <==> JumpPoint(s.pc)))
    && (InWatch(s.pc) ==> s.h.frame.live)
    && (BufferPoint(s.pc) ==> s.w.jmp == Some(JmpBuf(s.h.frame.watch, CallersPlusHandled)))
    && s.pc != Done(WildJump)
  }

  /** The points at which the full set of handlers is installed. */
  predicate HandlersOn(pc: Pc) {
    || InWatch(pc) || pc == Try(Enter)
    || (pc.Leave? && (pc.q.ClearJump? || pc.q.ClearTimer? || pc.q.UninstallHandlers?))
  }

  predicate HandlerInv(s: State) {
    && (s.pc == Run(InstallExitHandler) ==> s.w.caught == NoHandlers)
    && (HandlersOn(s.pc) ==> s.w.caught == AllHandlers)
    && ((s.pc.GraceTime? || s.pc.Run? || s.pc.Leave?) && !HandlersOn(s.pc) && s.pc != Run(InstallExitHandler) ==>
          s.w.caught == ExitHandlers)
    && (s.pc.Kill? ==> s.w.caught == ExitHandlers || s.w.caught == AllHandlers)
    && (s.w.alarm.Some? ==> !s.pc.GraceTime? && !s.pc.Run?)
    && (s.w.alarm.Some? && s.pc.Leave? ==> s.pc.q.ClearJump? || s.pc.q.ClearTimer?)
    && (s.w.alarm.Some? ==> s.w.caught == AllHandlers)
  }

  predicate SignalInv(s: State) {
    MaskInv(s) && JumpInv(s) && HandlerInv(s)
  }

  // ----- every step keeps it -----

  lemma RunKeepsMask(c: Config, s: State, e: Event)
    requires MaskInv(s) && JumpInv(s) && s.pc.Run?
    ensures MaskInv(RunStep(c, s, s.pc.r, e))
  {
  }

  lemma TryKeepsMask(c: Config, s: State, e: Event)
    requires MaskInv(s) && JumpInv(s) && s.pc.Try?
    ensures MaskInv(TryStep(c, s, s.pc.t, e))
  {
  }

  lemma ArmKeepsMask(c: Config, s: State)
    requires MaskInv(s) && JumpInv(s) && s.pc.Arm?
    ensures MaskInv(ArmStep(c, s, s.pc.a))
  {
  }

  lemma PollKeepsMask(s: State, e: Event)
    requires MaskInv(s) && JumpInv(s) && s.pc.Poll?
    ensures MaskInv(PollStep(s, s.pc.p, e))
  {
  }

  lemma CatchKeepsMask(c: Config, s: State, e: Event)
    requires MaskInv(s) && JumpInv(s) && s.pc.Catch?
    ensures MaskInv(CatchStep(c, s, s.pc.x, e))
  {
  }

  lemma KillKeepsMask(s: State, e: Event)
    requires MaskInv(s) && JumpInv(s) && s.pc.Kill?
    ensures MaskInv(KillStep(s, s.pc.k, s.pc.after, e))
  {
  }

  lemma DeliverKeepsMask(c: Config, s: State, e: Event)
    requires MaskInv(s) && JumpInv(s) && !s.pc.Done? && e.Deliver?
    ensures MaskInv(DeliverStep(c, s, e.sig))
  {
  }

  lemma PlainKeepsMask(c: Config, s: State, e: Event)
    requires MaskInv(s) && JumpInv(s) && IsPlain(s.pc)
    ensures MaskInv(PlainStep(c, s, e))
  {
  }

  lemma WorldKeepsMask(c: Config, s: State, e: Event)
    requires MaskInv(s) && JumpInv(s) && Enabled(c, s, e) && IsEnvironment(e) && !e.Deliver?
    ensures MaskInv(WorldStep(s, e))
  {
  }

  lemma StepKeepsMask(c: Config, s: State, e: Event)
    requires MaskInv(s) && JumpInv(s) && Enabled(c, s, e)
    ensures MaskInv(Next(c, s, e))
  {
    if e.Deliver? {
      DeliverKeepsMask(c, s, e);
    } else if IsEnvironment(e) {
      WorldKeepsMask(c, s, e);
    } else {
      match s.pc
      case Run(_) => RunKeepsMask(c, s, e);
      case Try(_) => TryKeepsMask(c, s, e);
      case Arm(_) => ArmKeepsMask(c, s);
      case Poll(_) => PollKeepsMask(s, e);
      case Catch(_) => CatchKeepsMask(c, s, e);
      case Kill(_, _) => KillKeepsMask(s, e);
      case _ => PlainKeepsMask(c, s, e);
    }
  }

  lemma RunKeepsJump(c: Config, s: State, e: Event)
    requires MaskInv(s) && JumpInv(s) && s.pc.Run?
    ensures JumpInv(RunStep(c, s, s.pc.r, e))
  {
  }

  lemma TryKeepsJump(c: Config, s: State, e: Event)
    requires MaskInv(s) && JumpInv(s) && s.pc.Try?
    ensures JumpInv(TryStep(c, s, s.pc.t, e))
  {
  }

  lemma ArmKeepsJump(c: Config, s: State)
    requires MaskInv(s) && JumpInv(s) && s.pc.Arm?
    ensures JumpInv(ArmStep(c, s, s.pc.a))
  {
  }

  lemma PollKeepsJump(s: State, e: Event)
    requires MaskInv(s) && JumpInv(s) && s.pc.Poll?
    ensures JumpInv(PollStep(s, s.pc.p, e))
  {
  }

  lemma CatchKeepsJump(c: Config, s: State, e: Event)
    requires MaskInv(s) && JumpInv(s) && s.pc.Catch?
    ensures JumpInv(CatchStep(c, s, s.pc.x, e))
  {
  }

  lemma KillKeepsJump(s: State, e: Event)
    requires MaskInv(s) && JumpInv(s) && s.pc.Kill?
    ensures JumpInv(KillStep(s, s.pc.k, s.pc.after, e))
  {
  }

  lemma DeliverKeepsJump(c: Config, s: State, e: Event)
    requires MaskInv(s) && JumpInv(s) && !s.pc.Done? && e.Deliver?
    ensures JumpInv(DeliverStep(c, s, e.sig))
  {
  }

  lemma PlainKeepsJump(c: Config, s: State, e: Event)
    requires MaskInv(s) && JumpInv(s) && IsPlain(s.pc)
    ensures JumpInv(PlainStep(c, s, e))
  {
  }

  lemma WorldKeepsJump(c: Config, s: State, e: Event)
    requires MaskInv(s) && JumpInv(s) && Enabled(c, s, e) && IsEnvironment(e) && !e.Deliver?
    ensures JumpInv(WorldStep(s, e))
  {
  }

  lemma StepKeepsJump(c: Config, s: State, e: Event)
    requires MaskInv(s) && JumpInv(s) && Enabled(c, s, e)
    ensures JumpInv(Next(c, s, e))
  {
    if e.Deliver? {
      DeliverKeepsJump(c, s, e);
    } else if IsEnvironment(e) {
      WorldKeepsJump(c, s, e);
    } else {
      match s.pc
      case Run(_) => RunKeepsJump(c, s, e);
      case Try(_) => TryKeepsJump(c, s, e);
      case Arm(_) => ArmKeepsJump(c, s);
      case Poll(_) => PollKeepsJump(s, e);
      case Catch(_) => CatchKeepsJump(c, s, e);
      case Kill(_, _) => KillKeepsJump(s, e);
      case _ => PlainKeepsJump(c, s, e);
    }
  }

  lemma RunKeepsHandler(c: Config, s: State, e: Event)
    requires HandlerInv(s) && s.pc.Run?
    ensures HandlerInv(RunStep(c, s, s.pc.r, e))
  {
  }

  lemma TryKeepsHandler(c: Config, s: State, e: Event)
    requires HandlerInv(s) && s.pc.Try?
    ensures HandlerInv(TryStep(c, s, s.pc.t, e))
  {
  }

  lemma ArmKeepsHandler(c: Config, s: State)
    requires HandlerInv(s) && s.pc.Arm?
    ensures HandlerInv(ArmStep(c, s, s.pc.a))
  {
  }

  lemma PollKeepsHandler(s: State, e: Event)
    requires HandlerInv(s) && s.pc.Poll?
    ensures HandlerInv(PollStep(s, s.pc.p, e))
  {
  }

  lemma CatchKeepsHandler(c: Config, s: State, e: Event)
    requires HandlerInv(s) && s.pc.Catch?
    ensures HandlerInv(CatchStep(c, s, s.pc.x, e))
  {
  }

  lemma KillKeepsHandler(s: State, e: Event)
    requires HandlerInv(s) && s.pc.Kill?
    ensures HandlerInv(KillStep(s, s.pc.k, s.pc.after, e))
  {
  }

  lemma DeliverKeepsHandler(c: Config, s: State, e: Event)
    requires HandlerInv(s) && !s.pc.Done? && e.Deliver? && JumpInv(s)
    ensures HandlerInv(DeliverStep(c, s, e.sig))
  {
  }

  lemma PlainKeepsHandler(c: Config, s: State, e: Event)
    requires HandlerInv(s) && IsPlain(s.pc)
    ensures HandlerInv(PlainStep(c, s, e))
  {
  }

  lemma WorldKeepsHandler(c: Config, s: State, e: Event)
    requires HandlerInv(s) && Enabled(c, s, e) && IsEnvironment(e) && !e.Deliver?
    ensures HandlerInv(WorldStep(s, e))
  {
  }

  lemma StepKeepsHandler(c: Config, s: State, e: Event)
    requires HandlerInv(s) && JumpInv(s) && Enabled(c, s, e)
    ensures HandlerInv(Next(c, s, e))
  {
    if e.Deliver? {
      DeliverKeepsHandler(c, s, e);
    } else if IsEnvironment(e) {
      WorldKeepsHandler(c, s, e);
    } else {
      match s.pc
      case Run(_) => RunKeepsHandler(c, s, e);
      case Try(_) => TryKeepsHandler(c, s, e);
      case Arm(_) => ArmKeepsHandler(c, s);
      case Poll(_) => PollKeepsHandler(s, e);
      case Catch(_) => CatchKeepsHandler(c, s, e);
      case Kill(_, _) => KillKeepsHandler(s, e);
      case _ => PlainKeepsHandler(c, s, e);
    }
  }

  lemma StepKeepsSignal(c: Config, s: State, e: Event)
    requires SignalInv(s) && Enabled(c, s, e)
    ensures SignalInv(Next(c, s, e))
  {
    StepKeepsMask(c, s, e);
    StepKeepsJump(c, s, e);
    StepKeepsHandler(c, s, e);
  }
}
