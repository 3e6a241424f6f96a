/** The supervisor does what its bystander expects, step by step. */
module Obedience {
  import opened Posix
  import opened WaitPolicy
  import opened Supervisor
  import opened SignalSafety
  import opened ProcessSafety
  import opened ExitSafety
  import opened StartSafety
  import opened TimerSafety
  import opened Observer

  // ----- signals and starts -----

  predicate FlagsInv(s: State, o: Obs) {
    && (s.g.exitSignalled <==> o.exit) && (s.g.restart <==> o.usr1)
    && s.g.startCount == o.starts && s.g.startTime == o.startedAt
  }

  lemma RunObeysFlags(c: Config, s: State, o: Obs, e: Event)
    requires FlagsInv(s, o)
    requires s.pc.Run? && CodeEnabled(s, e)
    ensures FlagsInv(CodeStep(c, s, e), Observe(c, o, s, e))
  {
  }

  lemma PlainObeysFlags(c: Config, s: State, o: Obs, e: Event)
    requires FlagsInv(s, o)
    requires IsPlain(s.pc) && CodeEnabled(s, e)
    ensures FlagsInv(CodeStep(c, s, e), Observe(c, o, s, e))
  {
  }

  lemma LoopObeysFlags(c: Config, s: State, o: Obs, e: Event)
    requires FlagsInv(s, o)
    requires (s.pc.Try? || s.pc.Arm? || s.pc.Poll?) && CodeEnabled(s, e)
    ensures FlagsInv(CodeStep(c, s, e), Observe(c, o, s, e))
  {
  }

  lemma CatchObeysFlags(c: Config, s: State, o: Obs, e: Event)
    requires FlagsInv(s, o)
    requires s.pc.Catch? && CodeEnabled(s, e)
    ensures FlagsInv(CodeStep(c, s, e), Observe(c, o, s, e))
  {
  }

  lemma KillObeysFlags(c: Config, s: State, o: Obs, e: Event)
    requires FlagsInv(s, o)
    requires s.pc.Kill? && CodeEnabled(s, e)
    ensures FlagsInv(CodeStep(c, s, e), Observe(c, o, s, e))
  {
  }

  lemma DeliverObeysFlags(c: Config, s: State, o: Obs, e: Event)
    requires FlagsInv(s, o)
    requires Enabled(c, s, e) && e.Deliver?
    ensures FlagsInv(DeliverStep(c, s, e.sig), Observe(c, o, s, e))
  {
  }

  lemma WorldObeysFlags(c: Config, s: State, o: Obs, e: Event)
    requires FlagsInv(s, o)
    requires Enabled(c, s, e) && IsEnvironment(e) && !e.Deliver?
    ensures FlagsInv(WorldStep(s, e), Observe(c, o, s, e))
  {
  }

  lemma CodeObeysFlags(c: Config, s: State, o: Obs, e: Event)
    requires FlagsInv(s, o)
    requires CodeEnabled(s, e)
    ensures FlagsInv(CodeStep(c, s, e), Observe(c, o, s, e))
  {
    if s.pc.Run? {
      RunObeysFlags(c, s, o, e);
    } else if s.pc.Try? || s.pc.Arm? || s.pc.Poll? {
      LoopObeysFlags(c, s, o, e);
    } else if s.pc.Catch? {
      CatchObeysFlags(c, s, o, e);
    } else if s.pc.Kill? {
      KillObeysFlags(c, s, o, e);
    } else {
      PlainObeysFlags(c, s, o, e);
    }
  }

  lemma StepObeysFlags(c: Config, s: State, o: Obs, e: Event)
    requires FlagsInv(s, o)
    requires Enabled(c, s, e)
    ensures FlagsInv(Next(c, s, e), Observe(c, o, s, e))
  {
    if e.Deliver? {
      DeliverObeysFlags(c, s, o, e);
    } else if IsEnvironment(e) {
      WorldObeysFlags(c, s, o, e);
    } else {
      CodeObeysFlags(c, s, o, e);
    }
  }

  // ----- alarms -----

  /** The checks an alarm calls for are made in order, and none is left when the loop begins again. */
  predicate DueInv(s: State, o: Obs) {
    match s.pc
    case Run(r) => r.AdoptPipe? || r.InstallHandlers? ==> o.due == 0
    case Try(_) => o.due == 0
    case Arm(_) => o.due == 0
    case Poll(_) => o.due == 0
    case DrainErr(d, caller) => o.due == if !caller.FromAlarm? then 0 else if d.FdTest? then 2 else 1
    case Catch(x) =>
      && (x.Unblock? || x.Dispatch? ==> s.l.val == o.woke && o.due == if o.woke == ALRM then 4 else 0)
      && (x.CatchLifetime? ==> o.due == 4)
      && (x.Watchdog? ==> o.due == 3)
      && (x.AfterAlarmDrain? || x.EchoTest? ==> o.due == 1)
    case _ => true
  }

  lemma RunObeysDue(c: Config, s: State, o: Obs, e: Event)
    requires DueInv(s, o) && MaskInv(s) && JumpInv(s)
    requires s.pc.Run? && CodeEnabled(s, e)
    ensures DueInv(CodeStep(c, s, e), Observe(c, o, s, e))
  {
  }

  lemma PlainObeysDue(c: Config, s: State, o: Obs, e: Event)
    requires DueInv(s, o) && MaskInv(s) && JumpInv(s)
    requires IsPlain(s.pc) && CodeEnabled(s, e)
    ensures DueInv(CodeStep(c, s, e), Observe(c, o, s, e))
  {
  }

  lemma LoopObeysDue(c: Config, s: State, o: Obs, e: Event)
    requires DueInv(s, o) && MaskInv(s) && JumpInv(s)
    requires (s.pc.Try? || s.pc.Arm? || s.pc.Poll?) && CodeEnabled(s, e)
    ensures DueInv(CodeStep(c, s, e), Observe(c, o, s, e))
  {
  }

  lemma CatchObeysDue(c: Config, s: State, o: Obs, e: Event)
    requires DueInv(s, o) && MaskInv(s) && JumpInv(s)
    requires s.pc.Catch? && CodeEnabled(s, e)
    ensures DueInv(CodeStep(c, s, e), Observe(c, o, s, e))
  {
  }

  lemma KillObeysDue(c: Config, s: State, o: Obs, e: Event)
    requires DueInv(s, o) && MaskInv(s) && JumpInv(s)
    requires s.pc.Kill? && CodeEnabled(s, e)
    ensures DueInv(CodeStep(c, s, e), Observe(c, o, s, e))
  {
  }

  lemma DeliverObeysDue(c: Config, s: State, o: Obs, e: Event)
    requires DueInv(s, o) && MaskInv(s) && JumpInv(s)
    requires Enabled(c, s, e) && e.Deliver?
    ensures DueInv(DeliverStep(c, s, e.sig), Observe(c, o, s, e))
  {
  }

  lemma WorldObeysDue(c: Config, s: State, o: Obs, e: Event)
    requires DueInv(s, o) && MaskInv(s) && JumpInv(s)
    requires Enabled(c, s, e) && IsEnvironment(e) && !e.Deliver?
    ensures DueInv(WorldStep(s, e), Observe(c, o, s, e))
  {
  }

  lemma CodeObeysDue(c: Config, s: State, o: Obs, e: Event)
    requires DueInv(s, o) && MaskInv(s) && JumpInv(s)
    requires CodeEnabled(s, e)
    ensures DueInv(CodeStep(c, s, e), Observe(c, o, s, e))
  {
    if s.pc.Run? {
      RunObeysDue(c, s, o, e);
    } else if s.pc.Try? || s.pc.Arm? || s.pc.Poll? {
      LoopObeysDue(c, s, o, e);
    } else if s.pc.Catch? {
      CatchObeysDue(c, s, o, e);
    } else if s.pc.Kill? {
      KillObeysDue(c, s, o, e);
    } else {
      PlainObeysDue(c, s, o, e);
    }
  }

  lemma StepObeysDue(c: Config, s: State, o: Obs, e: Event)
    requires DueInv(s, o) && MaskInv(s) && JumpInv(s)
    requires Enabled(c, s, e)
    ensures DueInv(Next(c, s, e), Observe(c, o, s, e))
  {
    if e.Deliver? {
      DeliverObeysDue(c, s, o, e);
    } else if IsEnvironment(e) {
      WorldObeysDue(c, s, o, e);
    } else {
      CodeObeysDue(c, s, o, e);
    }
  }

  // ----- the child's stderr -----

  /** Data that was reported is read before anything else, and a hang-up without data means a closed pipe. */
  predicate ReportInv(s: State, o: Obs) {
    && (o.unread ==>
          || s.pc == Poll(LeavePpoll) || s.pc == Poll(PollinTest) || CutShort(s.pc)
          || (s.pc.DrainErr? && s.pc.caller.FromPoll?))
    && (o.hup ==>
          || s.pc == Poll(LeavePpoll) || s.pc == Poll(PollinTest) || s.pc == Poll(HangupTest) || CutShort(s.pc)
          || (s.pc == Try(Reblock) && s.g.stderrFd == -1))
    && (s.pc == Poll(LeavePpoll) || s.pc == Poll(PollinTest) ==>
          s.l.pollIn == o.unread && (o.hup <==> s.l.pollHup && !s.l.pollIn))
    && (s.pc == Poll(HangupTest) ==> (o.hup <==> s.l.pollHup && !s.l.pollIn))
    && ((s.pc.DrainErr? && s.pc.caller.FromPoll?) || s.pc == Poll(AfterPollDrain) ==> !o.hup && s.l.pollIn)
  }

  lemma RunObeysReport(c: Config, s: State, o: Obs, e: Event)
    requires ReportInv(s, o) && MaskInv(s) && JumpInv(s) && FdInv(s)
    requires s.pc.Run? && CodeEnabled(s, e)
    ensures ReportInv(CodeStep(c, s, e), Observe(c, o, s, e))
  {
  }

  lemma PlainObeysReport(c: Config, s: State, o: Obs, e: Event)
    requires ReportInv(s, o) && MaskInv(s) && JumpInv(s) && FdInv(s)
    requires IsPlain(s.pc) && CodeEnabled(s, e)
    ensures ReportInv(CodeStep(c, s, e), Observe(c, o, s, e))
  {
  }

  lemma LoopObeysReport(c: Config, s: State, o: Obs, e: Event)
    requires ReportInv(s, o) && MaskInv(s) && JumpInv(s) && FdInv(s)
    requires (s.pc.Try? || s.pc.Arm? || s.pc.Poll?) && CodeEnabled(s, e)
    ensures ReportInv(CodeStep(c, s, e), Observe(c, o, s, e))
  {
  }

  lemma CatchObeysReport(c: Config, s: State, o: Obs, e: Event)
    requires ReportInv(s, o) && MaskInv(s) && JumpInv(s) && FdInv(s)
    requires s.pc.Catch? && CodeEnabled(s, e)
    ensures ReportInv(CodeStep(c, s, e), Observe(c, o, s, e))
  {
  }

  lemma KillObeysReport(c: Config, s: State, o: Obs, e: Event)
    requires ReportInv(s, o) && MaskInv(s) && JumpInv(s) && FdInv(s)
    requires s.pc.Kill? && CodeEnabled(s, e)
    ensures ReportInv(CodeStep(c, s, e), Observe(c, o, s, e))
  {
  }

  lemma DeliverObeysReport(c: Config, s: State, o: Obs, e: Event)
    requires ReportInv(s, o) && MaskInv(s) && JumpInv(s) && FdInv(s)
    requires Enabled(c, s, e) && e.Deliver?
    ensures ReportInv(DeliverStep(c, s, e.sig), Observe(c, o, s, e))
  {
  }

  lemma WorldObeysReport(c: Config, s: State, o: Obs, e: Event)
    requires ReportInv(s, o) && MaskInv(s) && JumpInv(s) && FdInv(s)
    requires Enabled(c, s, e) && IsEnvironment(e) && !e.Deliver?
    ensures ReportInv(WorldStep(s, e), Observe(c, o, s, e))
  {
  }

  lemma CodeObeysReport(c: Config, s: State, o: Obs, e: Event)
    requires ReportInv(s, o) && MaskInv(s) && JumpInv(s) && FdInv(s)
    requires CodeEnabled(s, e)
    ensures ReportInv(CodeStep(c, s, e), Observe(c, o, s, e))
  {
    if s.pc.Run? {
      RunObeysReport(c, s, o, e);
    } else if s.pc.Try? || s.pc.Arm? || s.pc.Poll? {
      LoopObeysReport(c, s, o, e);
    } else if s.pc.Catch? {
      CatchObeysReport(c, s, o, e);
    } else if s.pc.Kill? {
      KillObeysReport(c, s, o, e);
    } else {
      PlainObeysReport(c, s, o, e);
    }
  }

  lemma StepObeysReport(c: Config, s: State, o: Obs, e: Event)
    requires ReportInv(s, o) && MaskInv(s) && JumpInv(s) && FdInv(s)
    requires Enabled(c, s, e)
    ensures ReportInv(Next(c, s, e), Observe(c, o, s, e))
  {
    if e.Deliver? {
      DeliverObeysReport(c, s, o, e);
    } else if IsEnvironment(e) {
      WorldObeysReport(c, s, o, e);
    } else {
      CodeObeysReport(c, s, o, e);
    }
  }

  /** Reading goes on until there is no more, or something is found. */
  predicate DrainedInv(s: State, o: Obs) {
    o.more ==> (s.pc.DrainErr? && s.pc.d.Reading?) || CutShort(s.pc)
  }

  lemma RunObeysDrained(c: Config, s: State, o: Obs, e: Event)
    requires DrainedInv(s, o) && JumpInv(s)
    requires s.pc.Run? && CodeEnabled(s, e)
    ensures DrainedInv(CodeStep(c, s, e), Observe(c, o, s, e))
  {
  }

  lemma PlainObeysDrained(c: Config, s: State, o: Obs, e: Event)
    requires DrainedInv(s, o) && JumpInv(s)
    requires IsPlain(s.pc) && CodeEnabled(s, e)
    ensures DrainedInv(CodeStep(c, s, e), Observe(c, o, s, e))
  {
  }

  lemma LoopObeysDrained(c: Config, s: State, o: Obs, e: Event)
    requires DrainedInv(s, o) && JumpInv(s)
    requires (s.pc.Try? || s.pc.Arm? || s.pc.Poll?) && CodeEnabled(s, e)
    ensures DrainedInv(CodeStep(c, s, e), Observe(c, o, s, e))
  {
  }

  lemma CatchObeysDrained(c: Config, s: State, o: Obs, e: Event)
    requires DrainedInv(s, o) && JumpInv(s)
    requires s.pc.Catch? && CodeEnabled(s, e)
    ensures DrainedInv(CodeStep(c, s, e), Observe(c, o, s, e))
  {
  }

  lemma KillObeysDrained(c: Config, s: State, o: Obs, e: Event)
    requires DrainedInv(s, o) && JumpInv(s)
    requires s.pc.Kill? && CodeEnabled(s, e)
    ensures DrainedInv(CodeStep(c, s, e), Observe(c, o, s, e))
  {
  }

  lemma DeliverObeysDrained(c: Config, s: State, o: Obs, e: Event)
    requires DrainedInv(s, o) && JumpInv(s)
    requires Enabled(c, s, e) && e.Deliver?
    ensures DrainedInv(DeliverStep(c, s, e.sig), Observe(c, o, s, e))
  {
  }

  lemma WorldObeysDrained(c: Config, s: State, o: Obs, e: Event)
    requires DrainedInv(s, o) && JumpInv(s)
    requires Enabled(c, s, e) && IsEnvironment(e) && !e.Deliver?
    ensures DrainedInv(WorldStep(s, e), Observe(c, o, s, e))
  {
  }

  lemma CodeObeysDrained(c: Config, s: State, o: Obs, e: Event)
    requires DrainedInv(s, o) && JumpInv(s)
    requires CodeEnabled(s, e)
    ensures DrainedInv(CodeStep(c, s, e), Observe(c, o, s, e))
  {
    if s.pc.Run? {
      RunObeysDrained(c, s, o, e);
    } else if s.pc.Try? || s.pc.Arm? || s.pc.Poll? {
      LoopObeysDrained(c, s, o, e);
    } else if s.pc.Catch? {
      CatchObeysDrained(c, s, o, e);
    } else if s.pc.Kill? {
      KillObeysDrained(c, s, o, e);
    } else {
      PlainObeysDrained(c, s, o, e);
    }
  }

  lemma StepObeysDrained(c: Config, s: State, o: Obs, e: Event)
    requires DrainedInv(s, o) && JumpInv(s)
    requires Enabled(c, s, e)
    ensures DrainedInv(Next(c, s, e), Observe(c, o, s, e))
  {
    if e.Deliver? {
      DeliverObeysDrained(c, s, o, e);
    } else if IsEnvironment(e) {
      WorldObeysDrained(c, s, o, e);
    } else {
      CodeObeysDrained(c, s, o, e);
    }
  }

  /** Whether anything was heard from this child, and when its pipe was lost. */
  predicate HeardInv(s: State, o: Obs) {
    && (HasChildRecord(s.pc) ==> (s.g.lastStderr == 0 <==> !o.heard) && s.g.pipeLost == o.lostAt)
    && (s.pc.Run? && (s.pc.r.MakePipe? || s.pc.r.Fork?) ==> !o.heard && o.lostAt == 0)
  }

  lemma RunObeysHeard(c: Config, s: State, o: Obs, e: Event)
    requires HeardInv(s, o) && ReportInv(s, o) && JumpInv(s) && StderrInv(c, s)
    requires s.pc.Run? && CodeEnabled(s, e)
    ensures HeardInv(CodeStep(c, s, e), Observe(c, o, s, e))
  {
  }

  lemma PlainObeysHeard(c: Config, s: State, o: Obs, e: Event)
    requires HeardInv(s, o) && ReportInv(s, o) && JumpInv(s) && StderrInv(c, s)
    requires IsPlain(s.pc) && CodeEnabled(s, e)
    ensures HeardInv(CodeStep(c, s, e), Observe(c, o, s, e))
  {
  }

  lemma LoopObeysHeard(c: Config, s: State, o: Obs, e: Event)
    requires HeardInv(s, o) && ReportInv(s, o) && JumpInv(s) && StderrInv(c, s)
    requires (s.pc.Try? || s.pc.Arm? || s.pc.Poll?) && CodeEnabled(s, e)
    ensures HeardInv(CodeStep(c, s, e), Observe(c, o, s, e))
  {
  }

  lemma CatchObeysHeard(c: Config, s: State, o: Obs, e: Event)
    requires HeardInv(s, o) && ReportInv(s, o) && JumpInv(s) && StderrInv(c, s)
    requires s.pc.Catch? && CodeEnabled(s, e)
    ensures HeardInv(CodeStep(c, s, e), Observe(c, o, s, e))
  {
  }

  lemma KillObeysHeard(c: Config, s: State, o: Obs, e: Event)
    requires HeardInv(s, o) && ReportInv(s, o) && JumpInv(s) && StderrInv(c, s)
    requires s.pc.Kill? && CodeEnabled(s, e)
    ensures HeardInv(CodeStep(c, s, e), Observe(c, o, s, e))
  {
  }

  lemma DeliverObeysHeard(c: Config, s: State, o: Obs, e: Event)
    requires HeardInv(s, o) && ReportInv(s, o) && JumpInv(s) && StderrInv(c, s)
    requires Enabled(c, s, e) && e.Deliver?
    ensures HeardInv(DeliverStep(c, s, e.sig), Observe(c, o, s, e))
  {
  }

  lemma WorldObeysHeard(c: Config, s: State, o: Obs, e: Event)
    requires HeardInv(s, o) && ReportInv(s, o) && JumpInv(s) && StderrInv(c, s)
    requires Enabled(c, s, e) && IsEnvironment(e) && !e.Deliver?
    ensures HeardInv(WorldStep(s, e), Observe(c, o, s, e))
  {
  }

  lemma CodeObeysHeard(c: Config, s: State, o: Obs, e: Event)
    requires HeardInv(s, o) && ReportInv(s, o) && JumpInv(s) && StderrInv(c, s)
    requires CodeEnabled(s, e)
    ensures HeardInv(CodeStep(c, s, e), Observe(c, o, s, e))
  {
    if s.pc.Run? {
      RunObeysHeard(c, s, o, e);
    } else if s.pc.Try? || s.pc.Arm? || s.pc.Poll? {
      LoopObeysHeard(c, s, o, e);
    } else if s.pc.Catch? {
      CatchObeysHeard(c, s, o, e);
    } else if s.pc.Kill? {
      KillObeysHeard(c, s, o, e);
    } else {
      PlainObeysHeard(c, s, o, e);
    }
  }

  lemma StepObeysHeard(c: Config, s: State, o: Obs, e: Event)
    requires HeardInv(s, o) && ReportInv(s, o) && JumpInv(s) && StderrInv(c, s)
    requires Enabled(c, s, e)
    ensures HeardInv(Next(c, s, e), Observe(c, o, s, e))
  {
    if e.Deliver? {
      DeliverObeysHeard(c, s, o, e);
    } else if IsEnvironment(e) {
      WorldObeysHeard(c, s, o, e);
    } else {
      CodeObeysHeard(c, s, o, e);
    }
  }

  // ----- the poll time in hand -----

  predicate FreshInv(c: Config, s: State, o: Obs) {
    || s.pc.Run? || s.pc.Leave? || s.pc.GraceTime? || s.pc == Try(Enter) || s.pc.Done? || s.pc.Kill?
    || (s.pc.Catch? && (s.pc.x.PortDelay? || s.pc.x.RestoreMask?))
    || s.l.myPoll == if o.first then c.firstPoll else c.pollTime
  }

  lemma RunObeysFresh(c: Config, s: State, o: Obs, e: Event)
    requires FreshInv(c, s, o) && JumpInv(s)
    requires s.pc.Run? && CodeEnabled(s, e)
    ensures FreshInv(c, CodeStep(c, s, e), Observe(c, o, s, e))
  {
  }

  lemma PlainObeysFresh(c: Config, s: State, o: Obs, e: Event)
    requires FreshInv(c, s, o) && JumpInv(s)
    requires IsPlain(s.pc) && CodeEnabled(s, e)
    ensures FreshInv(c, CodeStep(c, s, e), Observe(c, o, s, e))
  {
  }

  lemma LoopObeysFresh(c: Config, s: State, o: Obs, e: Event)
    requires FreshInv(c, s, o) && JumpInv(s)
    requires (s.pc.Try? || s.pc.Arm? || s.pc.Poll?) && CodeEnabled(s, e)
    ensures FreshInv(c, CodeStep(c, s, e), Observe(c, o, s, e))
  {
  }

  lemma CatchObeysFresh(c: Config, s: State, o: Obs, e: Event)
    requires FreshInv(c, s, o) && JumpInv(s)
    requires s.pc.Catch? && CodeEnabled(s, e)
    ensures FreshInv(c, CodeStep(c, s, e), Observe(c, o, s, e))
  {
  }

  lemma KillObeysFresh(c: Config, s: State, o: Obs, e: Event)
    requires FreshInv(c, s, o) && JumpInv(s)
    requires s.pc.Kill? && CodeEnabled(s, e)
    ensures FreshInv(c, CodeStep(c, s, e), Observe(c, o, s, e))
  {
  }

  lemma DeliverObeysFresh(c: Config, s: State, o: Obs, e: Event)
    requires FreshInv(c, s, o) && JumpInv(s)
    requires Enabled(c, s, e) && e.Deliver?
    ensures FreshInv(c, DeliverStep(c, s, e.sig), Observe(c, o, s, e))
  {
  }

  lemma WorldObeysFresh(c: Config, s: State, o: Obs, e: Event)
    requires FreshInv(c, s, o) && JumpInv(s)
    requires Enabled(c, s, e) && IsEnvironment(e) && !e.Deliver?
    ensures FreshInv(c, WorldStep(s, e), Observe(c, o, s, e))
  {
  }

  lemma CodeObeysFresh(c: Config, s: State, o: Obs, e: Event)
    requires FreshInv(c, s, o) && JumpInv(s)
    requires CodeEnabled(s, e)
    ensures FreshInv(c, CodeStep(c, s, e), Observe(c, o, s, e))
  {
    if s.pc.Run? {
      RunObeysFresh(c, s, o, e);
    } else if s.pc.Try? || s.pc.Arm? || s.pc.Poll? {
      LoopObeysFresh(c, s, o, e);
    } else if s.pc.Catch? {
      CatchObeysFresh(c, s, o, e);
    } else if s.pc.Kill? {
      KillObeysFresh(c, s, o, e);
    } else {
      PlainObeysFresh(c, s, o, e);
    }
  }

  lemma StepObeysFresh(c: Config, s: State, o: Obs, e: Event)
    requires FreshInv(c, s, o) && JumpInv(s)
    requires Enabled(c, s, e)
    ensures FreshInv(c, Next(c, s, e), Observe(c, o, s, e))
  {
    if e.Deliver? {
      DeliverObeysFresh(c, s, o, e);
    } else if IsEnvironment(e) {
      WorldObeysFresh(c, s, o, e);
    } else {
      CodeObeysFresh(c, s, o, e);
    }
  }

  // ----- the child's end -----

  /** What ssh_wait judges is the status of the child it reaped; only a verdict of Restart leads to another start. */
  predicate ReapedInv(c: Config, s: State, o: Obs) {
    && ((s.pc.DrainErr? && s.pc.caller.FromWait?) || s.pc == Try(JudgeStatus) ==>
          o.reaped == Some(s.l.status) && o.judged == None)
    && (Tracked(s) ==> o.reaped == None && o.judged == None)
    && (o.judged.Some? ==> o.reaped == Some(o.judged.value.status))
    && (o.reaped.Some? && !(s.pc.DrainErr? || s.pc == Try(JudgeStatus)) && !CutShort(s.pc) ==> o.judged.Some?)
    && (o.judged.Some? ==> var j := o.judged.value; var v := Judge(j.status, j.starts, c.gateTime, j.age);
          && (s.pc.Run? || s.pc.GraceTime? ==> v == Restart)
          && (s.pc.Leave? ==> s.pc.rc == v)
          && (s.pc.Catch? ==> s.pc == Catch(RestoreMask(v)))
          && (s.pc.Done? && s.pc.how.Returned? && v != Restart ==> s.pc.how.rc == v)
          && (s.pc.Kill? ==> s.pc.after.ThenHalt? && v == Restart))
  }

  lemma RunObeysReaped(c: Config, s: State, o: Obs, e: Event)
    requires ReapedInv(c, s, o) && FlagsInv(s, o) && ChildInv(s) && JumpInv(s)
    requires s.pc.Run? && CodeEnabled(s, e)
    ensures ReapedInv(c, CodeStep(c, s, e), Observe(c, o, s, e))
  {
  }

  lemma PlainObeysReaped(c: Config, s: State, o: Obs, e: Event)
    requires ReapedInv(c, s, o) && FlagsInv(s, o) && ChildInv(s) && JumpInv(s)
    requires IsPlain(s.pc) && CodeEnabled(s, e)
    ensures ReapedInv(c, CodeStep(c, s, e), Observe(c, o, s, e))
  {
  }

  lemma LoopObeysReaped(c: Config, s: State, o: Obs, e: Event)
    requires ReapedInv(c, s, o) && FlagsInv(s, o) && ChildInv(s) && JumpInv(s)
    requires (s.pc.Try? || s.pc.Arm? || s.pc.Poll?) && CodeEnabled(s, e)
    ensures ReapedInv(c, CodeStep(c, s, e), Observe(c, o, s, e))
  {
  }

  lemma CatchObeysReaped(c: Config, s: State, o: Obs, e: Event)
    requires ReapedInv(c, s, o) && FlagsInv(s, o) && ChildInv(s) && JumpInv(s)
    requires s.pc.Catch? && CodeEnabled(s, e)
    ensures ReapedInv(c, CodeStep(c, s, e), Observe(c, o, s, e))
  {
  }

  lemma KillObeysReaped(c: Config, s: State, o: Obs, e: Event)
    requires ReapedInv(c, s, o) && FlagsInv(s, o) && ChildInv(s) && JumpInv(s)
    requires s.pc.Kill? && CodeEnabled(s, e)
    ensures ReapedInv(c, CodeStep(c, s, e), Observe(c, o, s, e))
  {
  }

  lemma DeliverObeysReaped(c: Config, s: State, o: Obs, e: Event)
    requires ReapedInv(c, s, o) && FlagsInv(s, o) && ChildInv(s) && JumpInv(s)
    requires Enabled(c, s, e) && e.Deliver?
    ensures ReapedInv(c, DeliverStep(c, s, e.sig), Observe(c, o, s, e))
  {
  }

  lemma WorldObeysReaped(c: Config, s: State, o: Obs, e: Event)
    requires ReapedInv(c, s, o) && FlagsInv(s, o) && ChildInv(s) && JumpInv(s)
    requires Enabled(c, s, e) && IsEnvironment(e) && !e.Deliver?
    ensures ReapedInv(c, WorldStep(s, e), Observe(c, o, s, e))
  {
  }

  lemma CodeObeysReaped(c: Config, s: State, o: Obs, e: Event)
    requires ReapedInv(c, s, o) && FlagsInv(s, o) && ChildInv(s) && JumpInv(s)
    requires CodeEnabled(s, e)
    ensures ReapedInv(c, CodeStep(c, s, e), Observe(c, o, s, e))
  {
    if s.pc.Run? {
      RunObeysReaped(c, s, o, e);
    } else if s.pc.Try? || s.pc.Arm? || s.pc.Poll? {
      LoopObeysReaped(c, s, o, e);
    } else if s.pc.Catch? {
      CatchObeysReaped(c, s, o, e);
    } else if s.pc.Kill? {
      KillObeysReaped(c, s, o, e);
    } else {
      PlainObeysReaped(c, s, o, e);
    }
  }

  lemma StepObeysReaped(c: Config, s: State, o: Obs, e: Event)
    requires ReapedInv(c, s, o) && FlagsInv(s, o) && ChildInv(s) && JumpInv(s)
    requires Enabled(c, s, e)
    ensures ReapedInv(c, Next(c, s, e), Observe(c, o, s, e))
  {
    if e.Deliver? {
      DeliverObeysReaped(c, s, o, e);
    } else if IsEnvironment(e) {
      WorldObeysReaped(c, s, o, e);
    } else {
      CodeObeysReaped(c, s, o, e);
    }
  }

  // ----- ssh_kill -----

  /** SIGTERM first; SIGKILL when two polls have found nothing; and giving up when two more have. */
  predicate KillsInv(s: State, o: Obs) {
    s.pc.Kill? ==>
      match s.pc.k
      case CloseFd => true
      case ChildTest => !o.term && !o.kill
      case SendTerm => !o.term && !o.kill
      case ReapPoll(waited, killed) => o.term && o.kill == killed && o.misses == waited
      case ReapSleep(waited, killed) => o.term && o.kill == killed && o.misses == waited + 1
      case SendKill => o.term && !o.kill && o.misses == 2
      case Abandon => o.term && o.kill && o.misses == 2
  }

  lemma RunObeysKills(c: Config, s: State, o: Obs, e: Event)
    requires KillsInv(s, o) && JumpInv(s) && ReapInv(s)
    requires s.pc.Run? && CodeEnabled(s, e)
    ensures KillsInv(CodeStep(c, s, e), Observe(c, o, s, e))
  {
  }

  lemma PlainObeysKills(c: Config, s: State, o: Obs, e: Event)
    requires KillsInv(s, o) && JumpInv(s) && ReapInv(s)
    requires IsPlain(s.pc) && CodeEnabled(s, e)
    ensures KillsInv(CodeStep(c, s, e), Observe(c, o, s, e))
  {
  }

  lemma LoopObeysKills(c: Config, s: State, o: Obs, e: Event)
    requires KillsInv(s, o) && JumpInv(s) && ReapInv(s)
    requires (s.pc.Try? || s.pc.Arm? || s.pc.Poll?) && CodeEnabled(s, e)
    ensures KillsInv(CodeStep(c, s, e), Observe(c, o, s, e))
  {
  }

  lemma CatchObeysKills(c: Config, s: State, o: Obs, e: Event)
    requires KillsInv(s, o) && JumpInv(s) && ReapInv(s)
    requires s.pc.Catch? && CodeEnabled(s, e)
    ensures KillsInv(CodeStep(c, s, e), Observe(c, o, s, e))
  {
  }

  lemma KillObeysKills(c: Config, s: State, o: Obs, e: Event)
    requires KillsInv(s, o) && JumpInv(s) && ReapInv(s)
    requires s.pc.Kill? && CodeEnabled(s, e)
    ensures KillsInv(CodeStep(c, s, e), Observe(c, o, s, e))
  {
  }

  lemma DeliverObeysKills(c: Config, s: State, o: Obs, e: Event)
    requires KillsInv(s, o) && JumpInv(s) && ReapInv(s)
    requires Enabled(c, s, e) && e.Deliver?
    ensures KillsInv(DeliverStep(c, s, e.sig), Observe(c, o, s, e))
  {
  }

  lemma WorldObeysKills(c: Config, s: State, o: Obs, e: Event)
    requires KillsInv(s, o) && JumpInv(s) && ReapInv(s)
    requires Enabled(c, s, e) && IsEnvironment(e) && !e.Deliver?
    ensures KillsInv(WorldStep(s, e), Observe(c, o, s, e))
  {
  }

  lemma CodeObeysKills(c: Config, s: State, o: Obs, e: Event)
    requires KillsInv(s, o) && JumpInv(s) && ReapInv(s)
    requires CodeEnabled(s, e)
    ensures KillsInv(CodeStep(c, s, e), Observe(c, o, s, e))
  {
    if s.pc.Run? {
      RunObeysKills(c, s, o, e);
    } else if s.pc.Try? || s.pc.Arm? || s.pc.Poll? {
      LoopObeysKills(c, s, o, e);
    } else if s.pc.Catch? {
      CatchObeysKills(c, s, o, e);
    } else if s.pc.Kill? {
      KillObeysKills(c, s, o, e);
    } else {
      PlainObeysKills(c, s, o, e);
    }
  }

  lemma StepObeysKills(c: Config, s: State, o: Obs, e: Event)
    requires KillsInv(s, o) && JumpInv(s) && ReapInv(s)
    requires Enabled(c, s, e)
    ensures KillsInv(Next(c, s, e), Observe(c, o, s, e))
  {
    if e.Deliver? {
      DeliverObeysKills(c, s, o, e);
    } else if IsEnvironment(e) {
      WorldObeysKills(c, s, o, e);
    } else {
      CodeObeysKills(c, s, o, e);
    }
  }

  // ----- the record -----

  /** What the steps write down is what happened. */
  predicate RecordInv(s: State, o: Obs) {
    && s.h.procs.forks == o.log.births && s.h.child.bornAt == o.log.bornAt
    && s.h.child.absorbed == o.log.lost && s.h.child.failTime == o.log.failedAt
    && s.h.starts == o.log.begun
  }

  lemma RunObeysRecord(c: Config, s: State, o: Obs, e: Event)
    requires RecordInv(s, o) && FlagsInv(s, o) && MaskInv(s) && JumpInv(s)
    requires s.pc.Run? && CodeEnabled(s, e)
    ensures RecordInv(CodeStep(c, s, e), Observe(c, o, s, e))
  {
  }

  lemma PlainObeysRecord(c: Config, s: State, o: Obs, e: Event)
    requires RecordInv(s, o) && FlagsInv(s, o) && MaskInv(s) && JumpInv(s)
    requires IsPlain(s.pc) && CodeEnabled(s, e)
    ensures RecordInv(CodeStep(c, s, e), Observe(c, o, s, e))
  {
  }

  lemma LoopObeysRecord(c: Config, s: State, o: Obs, e: Event)
    requires RecordInv(s, o) && FlagsInv(s, o) && MaskInv(s) && JumpInv(s)
    requires (s.pc.Try? || s.pc.Arm? || s.pc.Poll?) && CodeEnabled(s, e)
    ensures RecordInv(CodeStep(c, s, e), Observe(c, o, s, e))
  {
  }

  lemma CatchObeysRecord(c: Config, s: State, o: Obs, e: Event)
    requires RecordInv(s, o) && FlagsInv(s, o) && MaskInv(s) && JumpInv(s)
    requires s.pc.Catch? && CodeEnabled(s, e)
    ensures RecordInv(CodeStep(c, s, e), Observe(c, o, s, e))
  {
  }

  lemma KillObeysRecord(c: Config, s: State, o: Obs, e: Event)
    requires RecordInv(s, o) && FlagsInv(s, o) && MaskInv(s) && JumpInv(s)
    requires s.pc.Kill? && CodeEnabled(s, e)
    ensures RecordInv(CodeStep(c, s, e), Observe(c, o, s, e))
  {
  }

  lemma DeliverObeysRecord(c: Config, s: State, o: Obs, e: Event)
    requires RecordInv(s, o) && FlagsInv(s, o) && MaskInv(s) && JumpInv(s)
    requires Enabled(c, s, e) && e.Deliver?
    ensures RecordInv(DeliverStep(c, s, e.sig), Observe(c, o, s, e))
  {
  }

  lemma WorldObeysRecord(c: Config, s: State, o: Obs, e: Event)
    requires RecordInv(s, o) && FlagsInv(s, o) && MaskInv(s) && JumpInv(s)
    requires Enabled(c, s, e) && IsEnvironment(e) && !e.Deliver?
    ensures RecordInv(WorldStep(s, e), Observe(c, o, s, e))
  {
  }

  lemma CodeObeysRecord(c: Config, s: State, o: Obs, e: Event)
    requires RecordInv(s, o) && FlagsInv(s, o) && MaskInv(s) && JumpInv(s)
    requires CodeEnabled(s, e)
    ensures RecordInv(CodeStep(c, s, e), Observe(c, o, s, e))
  {
    if s.pc.Run? {
      RunObeysRecord(c, s, o, e);
    } else if s.pc.Try? || s.pc.Arm? || s.pc.Poll? {
      LoopObeysRecord(c, s, o, e);
    } else if s.pc.Catch? {
      CatchObeysRecord(c, s, o, e);
    } else if s.pc.Kill? {
      KillObeysRecord(c, s, o, e);
    } else {
      PlainObeysRecord(c, s, o, e);
    }
  }

  lemma StepObeysRecord(c: Config, s: State, o: Obs, e: Event)
    requires RecordInv(s, o) && FlagsInv(s, o) && MaskInv(s) && JumpInv(s)
    requires Enabled(c, s, e)
    ensures RecordInv(Next(c, s, e), Observe(c, o, s, e))
  {
    if e.Deliver? {
      DeliverObeysRecord(c, s, o, e);
    } else if IsEnvironment(e) {
      WorldObeysRecord(c, s, o, e);
    } else {
      CodeObeysRecord(c, s, o, e);
    }
  }

  predicate LateInv(s: State, o: Obs) {
    s.h.timer.late == o.log.late && s.h.timer.overrun == o.log.overrun
  }

  lemma RunObeysLate(c: Config, s: State, o: Obs, e: Event)
    requires LateInv(s, o) && ValidConfig(c) && AlarmInv(c, s) && LifetimeInv(c, s)
    requires s.pc.Run? && CodeEnabled(s, e)
    ensures LateInv(CodeStep(c, s, e), Observe(c, o, s, e))
  {
  }

  lemma PlainObeysLate(c: Config, s: State, o: Obs, e: Event)
    requires LateInv(s, o) && ValidConfig(c) && AlarmInv(c, s) && LifetimeInv(c, s)
    requires IsPlain(s.pc) && CodeEnabled(s, e)
    ensures LateInv(CodeStep(c, s, e), Observe(c, o, s, e))
  {
  }

  lemma LoopObeysLate(c: Config, s: State, o: Obs, e: Event)
    requires LateInv(s, o) && ValidConfig(c) && AlarmInv(c, s) && LifetimeInv(c, s)
    requires (s.pc.Try? || s.pc.Arm? || s.pc.Poll?) && CodeEnabled(s, e)
    ensures LateInv(CodeStep(c, s, e), Observe(c, o, s, e))
  {
  }

  lemma CatchObeysLate(c: Config, s: State, o: Obs, e: Event)
    requires LateInv(s, o) && ValidConfig(c) && AlarmInv(c, s) && LifetimeInv(c, s)
    requires s.pc.Catch? && CodeEnabled(s, e)
    ensures LateInv(CodeStep(c, s, e), Observe(c, o, s, e))
  {
  }

  lemma KillObeysLate(c: Config, s: State, o: Obs, e: Event)
    requires LateInv(s, o) && ValidConfig(c) && AlarmInv(c, s) && LifetimeInv(c, s)
    requires s.pc.Kill? && CodeEnabled(s, e)
    ensures LateInv(CodeStep(c, s, e), Observe(c, o, s, e))
  {
  }

  lemma DeliverObeysLate(c: Config, s: State, o: Obs, e: Event)
    requires LateInv(s, o) && ValidConfig(c) && AlarmInv(c, s) && LifetimeInv(c, s)
    requires Enabled(c, s, e) && e.Deliver?
    ensures LateInv(DeliverStep(c, s, e.sig), Observe(c, o, s, e))
  {
  }

  lemma WorldObeysLate(c: Config, s: State, o: Obs, e: Event)
    requires LateInv(s, o) && ValidConfig(c) && AlarmInv(c, s) && LifetimeInv(c, s)
    requires Enabled(c, s, e) && IsEnvironment(e) && !e.Deliver?
    ensures LateInv(WorldStep(s, e), Observe(c, o, s, e))
  {
  }

  lemma CodeObeysLate(c: Config, s: State, o: Obs, e: Event)
    requires LateInv(s, o) && ValidConfig(c) && AlarmInv(c, s) && LifetimeInv(c, s)
    requires CodeEnabled(s, e)
    ensures LateInv(CodeStep(c, s, e), Observe(c, o, s, e))
  {
    if s.pc.Run? {
      RunObeysLate(c, s, o, e);
    } else if s.pc.Try? || s.pc.Arm? || s.pc.Poll? {
      LoopObeysLate(c, s, o, e);
    } else if s.pc.Catch? {
      CatchObeysLate(c, s, o, e);
    } else if s.pc.Kill? {
      KillObeysLate(c, s, o, e);
    } else {
      PlainObeysLate(c, s, o, e);
    }
  }

  lemma StepObeysLate(c: Config, s: State, o: Obs, e: Event)
    requires LateInv(s, o) && ValidConfig(c) && AlarmInv(c, s) && LifetimeInv(c, s)
    requires Enabled(c, s, e)
    ensures LateInv(Next(c, s, e), Observe(c, o, s, e))
  {
    if e.Deliver? {
      DeliverObeysLate(c, s, o, e);
    } else if IsEnvironment(e) {
      WorldObeysLate(c, s, o, e);
    } else {
      CodeObeysLate(c, s, o, e);
    }
  }

  // ----- the sentence -----

  /** A sentence stands exactly while it is being carried out, and it is carried out to the letter. */
  predicate SentenceInv(s: State, o: Obs) {
    o.sentence != Ends(Continue) &&
    match s.pc
    case Run(r) => if r.LoopTest? then o.sentence == Free || o.sentence == Ends(Restart) else o.sentence == Free
    case GraceTime(_) => o.sentence == Free
    case Try(_) => o.sentence == Free
    case Arm(_) => o.sentence == Free
    case Poll(p) => o.sentence == if p.AfterPollDrain? && s.l.fatal then EndsAfterDelay else Free
    case DrainErr(_, _) => o.sentence == Free
    case Catch(x) =>
      o.sentence == (match x
                     case AfterAlarmDrain => if s.l.fatal then EndsAfterDelay else Free
                     case PortDelay => EndsAfterDelay
                     case RestoreMask(rc) => Ends(rc)
                     case _ => Free)
    case Kill(_, after) =>
      o.sentence == (match after
                     case ThenReturn(rc) => Ends(rc)
                     case ThenPortDelay => EndsAfterDelay
                     case ThenHalt => Halts)
    case Leave(_, rc) => o.sentence == Ends(rc)
    case Done(how) =>
      match how
      case Returned(rc) => o.sentence == Ends(rc) && (rc == ExitOk || rc == ExitErr)
      case Halted => o.sentence == Halts
      case _ => true
  }

  lemma RunObeysSentence(c: Config, s: State, o: Obs, e: Event)
    requires SentenceInv(s, o) && FlagsInv(s, o) && DueInv(s, o) && HeardInv(s, o) && ReapedInv(c, s, o)
    requires JumpInv(s)
    requires s.pc.Run? && CodeEnabled(s, e)
    ensures SentenceInv(CodeStep(c, s, e), Observe(c, o, s, e))
  {
  }

  lemma PlainObeysSentence(c: Config, s: State, o: Obs, e: Event)
    requires SentenceInv(s, o) && FlagsInv(s, o) && DueInv(s, o) && HeardInv(s, o) && ReapedInv(c, s, o)
    requires JumpInv(s)
    requires IsPlain(s.pc) && CodeEnabled(s, e)
    ensures SentenceInv(CodeStep(c, s, e), Observe(c, o, s, e))
  {
  }

  lemma LoopObeysSentence(c: Config, s: State, o: Obs, e: Event)
    requires SentenceInv(s, o) && FlagsInv(s, o) && DueInv(s, o) && HeardInv(s, o) && ReapedInv(c, s, o)
    requires JumpInv(s)
    requires (s.pc.Try? || s.pc.Arm? || s.pc.Poll?) && CodeEnabled(s, e)
    ensures SentenceInv(CodeStep(c, s, e), Observe(c, o, s, e))
  {
  }

  lemma CatchObeysSentence(c: Config, s: State, o: Obs, e: Event)
    requires SentenceInv(s, o) && FlagsInv(s, o) && DueInv(s, o) && HeardInv(s, o) && ReapedInv(c, s, o)
    requires JumpInv(s)
    requires s.pc.Catch? && CodeEnabled(s, e)
    ensures SentenceInv(CodeStep(c, s, e), Observe(c, o, s, e))
  {
  }

  lemma KillObeysSentence(c: Config, s: State, o: Obs, e: Event)
    requires SentenceInv(s, o) && FlagsInv(s, o) && DueInv(s, o) && HeardInv(s, o) && ReapedInv(c, s, o)
    requires JumpInv(s)
    requires s.pc.Kill? && CodeEnabled(s, e)
    ensures SentenceInv(CodeStep(c, s, e), Observe(c, o, s, e))
  {
  }

  lemma DeliverObeysSentence(c: Config, s: State, o: Obs, e: Event)
    requires SentenceInv(s, o) && FlagsInv(s, o) && DueInv(s, o) && HeardInv(s, o) && ReapedInv(c, s, o)
    requires JumpInv(s)
    requires Enabled(c, s, e) && e.Deliver?
    ensures SentenceInv(DeliverStep(c, s, e.sig), Observe(c, o, s, e))
  {
  }

  lemma WorldObeysSentence(c: Config, s: State, o: Obs, e: Event)
    requires SentenceInv(s, o) && FlagsInv(s, o) && DueInv(s, o) && HeardInv(s, o) && ReapedInv(c, s, o)
    requires JumpInv(s)
    requires Enabled(c, s, e) && IsEnvironment(e) && !e.Deliver?
    ensures SentenceInv(WorldStep(s, e), Observe(c, o, s, e))
  {
  }

  lemma CodeObeysSentence(c: Config, s: State, o: Obs, e: Event)
    requires SentenceInv(s, o) && FlagsInv(s, o) && DueInv(s, o) && HeardInv(s, o) && ReapedInv(c, s, o)
    requires JumpInv(s)
    requires CodeEnabled(s, e)
    ensures SentenceInv(CodeStep(c, s, e), Observe(c, o, s, e))
  {
    if s.pc.Run? {
      RunObeysSentence(c, s, o, e);
    } else if s.pc.Try? || s.pc.Arm? || s.pc.Poll? {
      LoopObeysSentence(c, s, o, e);
    } else if s.pc.Catch? {
      CatchObeysSentence(c, s, o, e);
    } else if s.pc.Kill? {
      KillObeysSentence(c, s, o, e);
    } else {
      PlainObeysSentence(c, s, o, e);
    }
  }

  lemma StepObeysSentence(c: Config, s: State, o: Obs, e: Event)
    requires SentenceInv(s, o) && FlagsInv(s, o) && DueInv(s, o) && HeardInv(s, o) && ReapedInv(c, s, o)
    requires JumpInv(s)
    requires Enabled(c, s, e)
    ensures SentenceInv(Next(c, s, e), Observe(c, o, s, e))
  {
    if e.Deliver? {
      DeliverObeysSentence(c, s, o, e);
    } else if IsEnvironment(e) {
      WorldObeysSentence(c, s, o, e);
    } else {
      CodeObeysSentence(c, s, o, e);
    }
  }
}
