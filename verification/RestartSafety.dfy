/** A restart request, from SIGUSR1 on, is never waited on and is served within a bounded number of statements. */
module RestartSafety {
  import opened Supervisor
  import opened SignalSafety
  import opened ExitSafety

  /** The points at which a request can be outstanding: on the way to its test, or with the child on its way out. */
  predicate ServesRestart(pc: Pc) {
    || (pc.Try? && (pc.t.Enter? || pc.t.SaveMask? || pc.t.Reblock? || pc.t.RestartTest?))
    || pc.Catch? || pc.Kill? || pc.Leave? || pc.Done?
    || (pc.DrainErr? && pc.caller.FromAlarm?)
    || (pc.Run? && (pc.r.LoopTest? || pc.r.LifetimeTest? || pc.r.ClearRestart?))
  }

  predicate RestartInv(s: State) {
    s.g.restart ==> ServesRestart(s.pc)
  }

  lemma RunKeepsRestart(c: Config, s: State, e: Event)
    requires RestartInv(s) && s.pc.Run?
    ensures RestartInv(RunStep(c, s, s.pc.r, e))
  {
  }

  lemma TryKeepsRestart(c: Config, s: State, e: Event)
    requires RestartInv(s) && s.pc.Try?
    ensures RestartInv(TryStep(c, s, s.pc.t, e))
  {
  }

  lemma ArmKeepsRestart(c: Config, s: State)
    requires RestartInv(s) && s.pc.Arm?
    ensures RestartInv(ArmStep(c, s, s.pc.a))
  {
  }

  lemma PollKeepsRestart(s: State, e: Event)
    requires RestartInv(s) && s.pc.Poll?
    ensures RestartInv(PollStep(s, s.pc.p, e))
  {
  }

  lemma CatchKeepsRestart(c: Config, s: State, e: Event)
    requires RestartInv(s) && s.pc.Catch?
    ensures RestartInv(CatchStep(c, s, s.pc.x, e))
  {
  }

  lemma KillKeepsRestart(s: State, e: Event)
    requires RestartInv(s) && s.pc.Kill?
    ensures RestartInv(KillStep(s, s.pc.k, s.pc.after, e))
  {
  }

  lemma DeliverKeepsRestart(c: Config, s: State, e: Event)
    requires RestartInv(s) && !s.pc.Done? && e.Deliver? && SignalInv(s) && Enabled(c, s, e)
    ensures RestartInv(DeliverStep(c, s, e.sig))
  {
  }

  lemma PlainKeepsRestart(c: Config, s: State, e: Event)
    requires RestartInv(s) && IsPlain(s.pc)
    ensures RestartInv(PlainStep(c, s, e))
  {
  }

  lemma WorldKeepsRestart(c: Config, s: State, e: Event)
    requires RestartInv(s) && Enabled(c, s, e) && IsEnvironment(e) && !e.Deliver?
    ensures RestartInv(WorldStep(s, e))
  {
  }

  lemma StepKeepsRestart(c: Config, s: State, e: Event)
    requires RestartInv(s) && SignalInv(s) && Enabled(c, s, e)
    ensures RestartInv(Next(c, s, e))
  {
    if e.Deliver? {
      DeliverKeepsRestart(c, s, e);
    } else if IsEnvironment(e) {
      WorldKeepsRestart(c, s, e);
    } else {
      match s.pc
      case Run(_) => RunKeepsRestart(c, s, e);
      case Try(_) => TryKeepsRestart(c, s, e);
      case Arm(_) => ArmKeepsRestart(c, s);
      case Poll(_) => PollKeepsRestart(s, e);
      case Catch(_) => CatchKeepsRestart(c, s, e);
      case Kill(_, _) => KillKeepsRestart(s, e);
      case _ => PlainKeepsRestart(c, s, e);
    }
  }

  // ----- served in time -----

  lemma RunServes(c: Config, s: State, e: Event)
    requires RestartInv(s) && ReapInv(s) && s.g.restart
    requires s.pc.Run? && s.pc != Run(ClearRestart) && CodeEnabled(s, e)
    ensures RunStep(c, s, s.pc.r, e).g.restart && Rank(RunStep(c, s, s.pc.r, e).pc) < Rank(s.pc)
  {
  }

  lemma TryServes(c: Config, s: State, e: Event)
    requires RestartInv(s) && ReapInv(s) && s.g.restart
    requires s.pc.Try? && CodeEnabled(s, e)
    ensures TryStep(c, s, s.pc.t, e).g.restart && Rank(TryStep(c, s, s.pc.t, e).pc) < Rank(s.pc)
  {
  }

  lemma CatchServes(c: Config, s: State, e: Event)
    requires RestartInv(s) && ReapInv(s) && s.g.restart
    requires s.pc.Catch? && CodeEnabled(s, e)
    ensures CatchStep(c, s, s.pc.x, e).g.restart && Rank(CatchStep(c, s, s.pc.x, e).pc) < Rank(s.pc)
  {
  }

  lemma KillServes(s: State, e: Event)
    requires RestartInv(s) && ReapInv(s) && s.g.restart
    requires s.pc.Kill? && CodeEnabled(s, e)
    ensures KillStep(s, s.pc.k, s.pc.after, e).g.restart && Rank(KillStep(s, s.pc.k, s.pc.after, e).pc) < Rank(s.pc)
  {
  }

  lemma PlainServes(c: Config, s: State, e: Event)
    requires RestartInv(s) && ReapInv(s) && s.g.restart
    requires IsPlain(s.pc) && CodeEnabled(s, e)
    ensures PlainStep(c, s, e).g.restart && Rank(PlainStep(c, s, e).pc) <= Rank(s.pc)
    ensures IsWork(e) ==> Rank(PlainStep(c, s, e).pc) < Rank(s.pc)
  {
  }

  /** With a request outstanding every statement brings its end nearer, and no signal takes it further away. */
  lemma StepServes(c: Config, s: State, e: Event)
    requires SignalInv(s) && ReapInv(s) && RestartInv(s) && s.g.restart && Enabled(c, s, e)
    ensures Next(c, s, e).g.restart || s.pc == Run(ClearRestart)
    ensures Rank(Next(c, s, e).pc) <= Rank(s.pc)
    ensures IsWork(e) ==> Rank(Next(c, s, e).pc) < Rank(s.pc)
  {
    if !IsEnvironment(e) {
      match s.pc
      case Run(r) =>
        if !r.ClearRestart? {
          RunServes(c, s, e);
        }
      case Try(_) => TryServes(c, s, e);
      case Catch(_) => CatchServes(c, s, e);
      case Kill(_, _) => KillServes(s, e);
      case _ => PlainServes(c, s, e);
    }
  }
}
