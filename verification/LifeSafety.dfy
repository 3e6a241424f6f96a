/** The end of life, for the child: watched only up to it, and killed from it on at the latest. */
module LifeSafety {
  import opened Posix
  import opened Supervisor
  import opened SignalSafety
  import opened ProcessSafety
  import opened TimerSafety

  /** No time is lost, SIGALRM gets through, every arming was in time, and the child was born within the lifetime. */
  predicate Punctual(c: Config, s: State) {
    && c.maxLifetime > 0 && c.zeroTime && ALRM !in c.callerMask
    && !s.h.timer.overrun && s.h.child.bornAt <= EndOfLife(c)
  }

  predicate LifeInv(c: Config, s: State) {
    Punctual(c, s) && Tracked(s) ==> (if s.pc.Kill? then s.h.killStart else s.w.clock) <= EndOfLife(c)
  }

  lemma RunKeepsLife(c: Config, s: State, e: Event)
    requires LifeInv(c, s) && s.pc.Run? && CodeEnabled(s, e)
    ensures LifeInv(c, RunStep(c, s, s.pc.r, e))
  {
  }

  lemma TryKeepsLife(c: Config, s: State, e: Event)
    requires LifeInv(c, s) && s.pc.Try? && CodeEnabled(s, e)
    ensures LifeInv(c, TryStep(c, s, s.pc.t, e))
  {
  }

  lemma ArmKeepsLife(c: Config, s: State, e: Event)
    requires LifeInv(c, s) && s.pc.Arm? && CodeEnabled(s, e)
    ensures LifeInv(c, ArmStep(c, s, s.pc.a))
  {
  }

  lemma PollKeepsLife(c: Config, s: State, e: Event)
    requires LifeInv(c, s) && s.pc.Poll? && CodeEnabled(s, e)
    ensures LifeInv(c, PollStep(s, s.pc.p, e))
  {
  }

  lemma CatchKeepsLife(c: Config, s: State, e: Event)
    requires LifeInv(c, s) && s.pc.Catch? && CodeEnabled(s, e)
    ensures LifeInv(c, CatchStep(c, s, s.pc.x, e))
  {
  }

  lemma KillKeepsLife(c: Config, s: State, e: Event)
    requires LifeInv(c, s) && s.pc.Kill? && CodeEnabled(s, e)
    ensures LifeInv(c, KillStep(s, s.pc.k, s.pc.after, e))
  {
  }

  lemma DeliverKeepsLife(c: Config, s: State, e: Event)
    requires LifeInv(c, s) && !s.pc.Done? && e.Deliver? && JumpInv(s)
    ensures LifeInv(c, DeliverStep(c, s, e.sig))
  {
  }

  lemma PlainKeepsLife(c: Config, s: State, e: Event)
    requires LifeInv(c, s) && IsPlain(s.pc)
    ensures LifeInv(c, PlainStep(c, s, e))
  {
  }

  lemma WorldKeepsLife(c: Config, s: State, e: Event)
    requires LifeInv(c, s)
    requires Enabled(c, s, e) && IsEnvironment(e) && !e.Deliver? && MaskInv(s) && AlarmInv(c, s) && LifetimeInv(c, s)
    ensures LifeInv(c, WorldStep(s, e))
  {
  }

  lemma StepKeepsLife(c: Config, s: State, e: Event)
    requires LifeInv(c, s) && MaskInv(s) && JumpInv(s) && AlarmInv(c, s) && LifetimeInv(c, s) && Enabled(c, s, e)
    ensures LifeInv(c, Next(c, s, e))
  {
    if e.Deliver? {
      DeliverKeepsLife(c, s, e);
    } else if IsEnvironment(e) {
      WorldKeepsLife(c, s, e);
    } else {
      match s.pc
      case Run(_) => RunKeepsLife(c, s, e);
      case Try(_) => TryKeepsLife(c, s, e);
      case Arm(_) => ArmKeepsLife(c, s, e);
      case Poll(_) => PollKeepsLife(c, s, e);
      case Catch(_) => CatchKeepsLife(c, s, e);
      case Kill(_, _) => KillKeepsLife(c, s, e);
      case _ => PlainKeepsLife(c, s, e);
    }
  }
}
