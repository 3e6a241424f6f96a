/** What the bystander can count on, over every run. */
module Verdicts {
  import opened Posix
  import opened WaitPolicy
  import opened Supervisor
  import opened SignalSafety
  import opened ProcessSafety
  import opened ExitSafety
  import opened StartSafety
  import opened Observer
  import opened Obedience
  import opened Theorems
  import Drain

  // ----- every run -----

  lemma {:induction false} RunObeysFlags(c: Config, s: State, run: seq<Event>, t: State)
    requires Init(c, s) && Exec(c, s, run) == Some(t)
    ensures var o := Observed(c, s, run); FlagsInv(t, o)
    decreases |run|
  {
    if run != [] {
      var front := run[..|run| - 1];
      var before := Exec(c, s, front).value;
      RunObeysFlags(c, s, front, before);
      InitInv(c, s);
      RunKeepsProcess(c, s, front, before);
      StepObeysFlags(c, before, Observed(c, s, front), run[|run| - 1]);
    }
  }

  lemma {:induction false} RunObeysDue(c: Config, s: State, run: seq<Event>, t: State)
    requires Init(c, s) && Exec(c, s, run) == Some(t)
    ensures var o := Observed(c, s, run); DueInv(t, o)
    decreases |run|
  {
    if run != [] {
      var front := run[..|run| - 1];
      var before := Exec(c, s, front).value;
      RunObeysDue(c, s, front, before);
      InitInv(c, s);
      RunKeepsProcess(c, s, front, before);
      StepObeysDue(c, before, Observed(c, s, front), run[|run| - 1]);
    }
  }

  lemma {:induction false} RunObeysReport(c: Config, s: State, run: seq<Event>, t: State)
    requires Init(c, s) && Exec(c, s, run) == Some(t)
    ensures var o := Observed(c, s, run); ReportInv(t, o)
    decreases |run|
  {
    if run != [] {
      var front := run[..|run| - 1];
      var before := Exec(c, s, front).value;
      RunObeysReport(c, s, front, before);
      InitInv(c, s);
      RunKeepsProcess(c, s, front, before);
      StepObeysReport(c, before, Observed(c, s, front), run[|run| - 1]);
    }
  }

  lemma {:induction false} RunObeysDrained(c: Config, s: State, run: seq<Event>, t: State)
    requires Init(c, s) && Exec(c, s, run) == Some(t)
    ensures var o := Observed(c, s, run); DrainedInv(t, o)
    decreases |run|
  {
    if run != [] {
      var front := run[..|run| - 1];
      var before := Exec(c, s, front).value;
      RunObeysDrained(c, s, front, before);
      InitInv(c, s);
      RunKeepsProcess(c, s, front, before);
      StepObeysDrained(c, before, Observed(c, s, front), run[|run| - 1]);
    }
  }

  lemma {:induction false} RunObeysHeard(c: Config, s: State, run: seq<Event>, t: State)
    requires Init(c, s) && Exec(c, s, run) == Some(t)
    ensures var o := Observed(c, s, run); HeardInv(t, o)
    decreases |run|
  {
    if run != [] {
      var front := run[..|run| - 1];
      var before := Exec(c, s, front).value;
      RunObeysHeard(c, s, front, before);
      RunObeysReport(c, s, front, before);
      InitInv(c, s);
      RunKeepsProcess(c, s, front, before);
      RunKeepsStderrs(c, s, front, before);
      StepObeysHeard(c, before, Observed(c, s, front), run[|run| - 1]);
    }
  }

  lemma {:induction false} RunObeysFresh(c: Config, s: State, run: seq<Event>, t: State)
    requires Init(c, s) && Exec(c, s, run) == Some(t)
    ensures var o := Observed(c, s, run); FreshInv(c, t, o)
    decreases |run|
  {
    if run != [] {
      var front := run[..|run| - 1];
      var before := Exec(c, s, front).value;
      RunObeysFresh(c, s, front, before);
      InitInv(c, s);
      RunKeepsProcess(c, s, front, before);
      StepObeysFresh(c, before, Observed(c, s, front), run[|run| - 1]);
    }
  }

  lemma {:induction false} RunObeysReaped(c: Config, s: State, run: seq<Event>, t: State)
    requires Init(c, s) && Exec(c, s, run) == Some(t)
    ensures var o := Observed(c, s, run); ReapedInv(c, t, o)
    decreases |run|
  {
    if run != [] {
      var front := run[..|run| - 1];
      var before := Exec(c, s, front).value;
      RunObeysReaped(c, s, front, before);
      RunObeysFlags(c, s, front, before);
      InitInv(c, s);
      RunKeepsProcess(c, s, front, before);
      StepObeysReaped(c, before, Observed(c, s, front), run[|run| - 1]);
    }
  }

  lemma {:induction false} RunObeysKills(c: Config, s: State, run: seq<Event>, t: State)
    requires Init(c, s) && Exec(c, s, run) == Some(t)
    ensures var o := Observed(c, s, run); KillsInv(t, o)
    decreases |run|
  {
    if run != [] {
      var front := run[..|run| - 1];
      var before := Exec(c, s, front).value;
      RunObeysKills(c, s, front, before);
      InitInv(c, s);
      RunKeepsProcess(c, s, front, before);
      RunKeepsLeaving(c, s, front, before);
      StepObeysKills(c, before, Observed(c, s, front), run[|run| - 1]);
    }
  }

  lemma {:induction false} RunObeysRecord(c: Config, s: State, run: seq<Event>, t: State)
    requires Init(c, s) && Exec(c, s, run) == Some(t)
    ensures var o := Observed(c, s, run); RecordInv(t, o)
    decreases |run|
  {
    if run != [] {
      var front := run[..|run| - 1];
      var before := Exec(c, s, front).value;
      RunObeysRecord(c, s, front, before);
      RunObeysFlags(c, s, front, before);
      InitInv(c, s);
      RunKeepsProcess(c, s, front, before);
      StepObeysRecord(c, before, Observed(c, s, front), run[|run| - 1]);
    }
  }

  lemma {:induction false} RunObeysLate(c: Config, s: State, run: seq<Event>, t: State)
    requires ValidConfig(c) && Init(c, s) && Exec(c, s, run) == Some(t)
    ensures var o := Observed(c, s, run); LateInv(t, o)
    decreases |run|
  {
    if run != [] {
      var front := run[..|run| - 1];
      var before := Exec(c, s, front).value;
      RunObeysLate(c, s, front, before);
      InitInv(c, s);
      RunKeepsProcess(c, s, front, before);
      RunKeepsTime(c, s, front, before);
      StepObeysLate(c, before, Observed(c, s, front), run[|run| - 1]);
    }
  }

  lemma {:induction false} RunObeysSentence(c: Config, s: State, run: seq<Event>, t: State)
    requires Init(c, s) && Exec(c, s, run) == Some(t)
    ensures var o := Observed(c, s, run); SentenceInv(t, o)
    decreases |run|
  {
    if run != [] {
      var front := run[..|run| - 1];
      var before := Exec(c, s, front).value;
      RunObeysSentence(c, s, front, before);
      RunObeysFlags(c, s, front, before);
      RunObeysDue(c, s, front, before);
      RunObeysHeard(c, s, front, before);
      RunObeysReaped(c, s, front, before);
      InitInv(c, s);
      RunKeepsProcess(c, s, front, before);
      StepObeysSentence(c, before, Observed(c, s, front), run[|run| - 1]);
    }
  }

  // ----- signals -----

  /** The flags say what was caught: SIGTERM or SIGINT at any time, SIGUSR1 since the restart flag was last cleared. */
  lemma FlagsAreTheSignals(c: Config, t: State, o: Obs)
    requires Seen(c, t, o)
    ensures t.g.exitSignalled <==> o.exit
    ensures t.g.restart <==> o.usr1
    ensures t.g.startCount == o.starts && t.g.startTime == o.startedAt
  {
    var s, run :| Init(c, s) && Exec(c, s, run) == Some(t) && Observed(c, s, run) == o;
    RunObeysFlags(c, s, run, t);
  }

  /** A caught signal ends the sleep it comes in. */
  lemma SignalsCutSleeps(c: Config, t: State, sig: Signal)
    requires ValidConfig(c) && Reachable(c, t) && Enabled(c, t, Deliver(sig)) && IsSleep(t.pc)
    requires Catches(t.w.caught, sig) && !(sig in {TERM, INT} && t.g.exitSignalled)
    ensures Next(c, t, Deliver(sig)).pc == t.pc && Next(c, t, Deliver(sig)).w.wakeAt <= t.w.clock
  {
    ReachableInv(c, t);
  }

  /**
   * The history that theorems speak of is the true one: births, lost alarms, port failures and starts are those
   * that happened, and an arming is put down as late or past the end exactly if it was.
   */
  lemma HistoryIsTrue(c: Config, t: State, o: Obs)
    requires ValidConfig(c) && Seen(c, t, o)
    ensures t.h.procs.forks == o.log.births && t.h.child.bornAt == o.log.bornAt
    ensures t.h.child.absorbed == o.log.lost && t.h.child.failTime == o.log.failedAt && t.h.starts == o.log.begun
    ensures (t.h.timer.late <==> o.log.late) && (t.h.timer.overrun <==> o.log.overrun)
  {
    var s, run :| Init(c, s) && Exec(c, s, run) == Some(t) && Observed(c, s, run) == o;
    RunObeysRecord(c, s, run, t);
    RunObeysLate(c, s, run, t);
  }

  // ----- alarms and reports -----

  /**
   * A SIGALRM that ended a wait is worked through: before anything is armed or waited for again, the lifetime
   * was tested, the watchdog looked, stderr was drained and the connection was tested, in this order.
   */
  lemma AlarmsAreWorkedThrough(c: Config, t: State, o: Obs)
    requires Seen(c, t, o)
    ensures t.pc.Try? || t.pc.Arm? || t.pc.Poll? ==> o.due == 0
    ensures t.pc == Catch(EchoTest) ==> o.due == 1
  {
    var s, run :| Init(c, s) && Exec(c, s, run) == Some(t) && Observed(c, s, run) == o;
    RunObeysDue(c, s, run, t);
  }

  /**
   * Data that ppoll reports is read before anything else is done, and reading goes on until there is no more or
   * something is found; a hang-up without data closes the pipe.
   */
  lemma ReportsAreHeeded(c: Config, t: State, o: Obs)
    requires Seen(c, t, o)
    ensures o.unread && !CutShort(t.pc) ==>
      t.pc == Poll(LeavePpoll) || t.pc == Poll(PollinTest) || (t.pc.DrainErr? && t.pc.caller.FromPoll?)
    ensures o.more && !CutShort(t.pc) ==> t.pc.DrainErr? && t.pc.d.Reading?
    ensures o.hup && t.pc == Try(Reblock) ==> t.g.stderrFd == -1
    ensures HasChildRecord(t.pc) ==> t.g.pipeLost == o.lostAt && (t.g.lastStderr == 0 <==> !o.heard)
  {
    var s, run :| Init(c, s) && Exec(c, s, run) == Some(t) && Observed(c, s, run) == o;
    RunObeysReport(c, s, run, t);
    RunObeysDrained(c, s, run, t);
    RunObeysHeard(c, s, run, t);
  }

  /** The first arming of a watch goes by the first poll time, all others by the poll time. */
  lemma FirstPollIsUsed(c: Config, t: State, o: Obs)
    requires Seen(c, t, o) && t.pc == Arm(ComputeSecs)
    ensures Next(c, t, Go).g.secsLeft ==
      SecsToArm(c, t.g.secsLeft, if o.first then c.firstPoll else c.pollTime, t.w.clock)
  {
    var s, run :| Init(c, s) && Exec(c, s, run) == Some(t) && Observed(c, s, run) == o;
    RunObeysFresh(c, s, run, t);
  }

  // ----- ssh_kill -----

  /** SIGKILL is sent only after SIGTERM and two polls in vain, and the child is given up only after two more. */
  lemma KillsEscalate(c: Config, t: State, o: Obs)
    requires Seen(c, t, o) && t.pc.Kill?
    ensures t.pc.k.ReapPoll? || t.pc.k.ReapSleep? ==> o.term
    ensures t.pc.k.SendKill? ==> o.term && !o.kill && o.misses == 2
    ensures t.pc.k.Abandon? ==> o.term && o.kill && o.misses == 2
  {
    var s, run :| Init(c, s) && Exec(c, s, run) == Some(t) && Observed(c, s, run) == o;
    RunObeysKills(c, s, run, t);
  }

  /** Between two polls there is a second's sleep. */
  lemma PollsAreASecondApart(c: Config, t: State, e: Event)
    requires Enabled(c, t, e) && t.pc.Kill? && Next(c, t, e).pc.Kill? && !IsEnvironment(e)
    ensures t.pc.k.ReapPoll? ==> Next(c, t, e).pc.k.ReapSleep? && Next(c, t, e).w.wakeAt == t.w.clock + 1
    ensures t.pc.k.ReapSleep? ==> t.w.clock >= t.w.wakeAt
  {
  }

  /** A child is given up only if both signals were sent in vain, or waitpid itself failed. */
  lemma GivenUpAfterBoth(c: Config, t: State, o: Obs, e: Event)
    requires Seen(c, t, o) && Enabled(c, t, e)
    requires Next(c, t, e).h.procs.abandoned != t.h.procs.abandoned
    ensures t.pc.Kill? && o.term
    ensures e == Waited(Fault) || (o.kill && o.misses == 2)
  {
    AbandonedInKill(c, t, e);
    KillsEscalate(c, t, o);
  }

  lemma AbandonedInKill(c: Config, t: State, e: Event)
    requires Enabled(c, t, e) && Next(c, t, e).h.procs.abandoned != t.h.procs.abandoned
    ensures t.pc.Kill? && (t.pc.k.Abandon? || (t.pc.k.ReapPoll? && e == Waited(Fault)))
  {
  }

  // ----- the sentence -----

  /** On its way: being killed, or on the way back through ssh_watch and ssh_run, or at the end. */
  predicate CarriesOut(s: State, v: Sentence) {
    match s.pc
    case Poll(AfterPollDrain) => s.l.fatal && v == EndsAfterDelay
    case Catch(AfterAlarmDrain) => s.l.fatal && v == EndsAfterDelay
    case Catch(PortDelay) => v == EndsAfterDelay
    case Catch(RestoreMask(rc)) => v == Ends(rc)
    case Kill(_, ThenReturn(rc)) => v == Ends(rc)
    case Kill(_, ThenPortDelay) => v == EndsAfterDelay
    case Kill(_, ThenHalt) => v == Halts
    case Leave(_, rc) => v == Ends(rc)
    case Run(LoopTest) => v == Ends(Restart)
    case Done(Returned(rc)) => v == Ends(rc)
    case Done(Halted) => v == Halts
    case _ => false
  }

  /** Not one of the points at which a sentence is carried out, except that the loop test may be reached without one. */
  predicate GoesOn(s: State) {
    match s.pc
    case Kill(_, _) => false
    case Leave(_, _) => false
    case Catch(x) => !x.PortDelay? && !x.RestoreMask?
    case Done(how) => !how.Returned? && !how.Halted?
    case _ => true
  }

  /**
   * ssh_watch and ssh_run end a child, and themselves, exactly when they have to and with the verdict they have
   * to. Once a sentence is passed (GroundsAre says on what grounds) nothing else goes on until it is carried out
   * to the letter; without one nothing is killed and nothing returns.
   */
  lemma SentencesAreCarriedOut(c: Config, t: State, o: Obs)
    requires Seen(c, t, o) && !CutShort(t.pc)
    ensures o.sentence != Free ==> CarriesOut(t, o.sentence)
    ensures o.sentence == Free ==> GoesOn(t)
  {
    var s, run :| Init(c, s) && Exec(c, s, run) == Some(t) && Observed(c, s, run) == o;
    RunObeysSentence(c, s, run, t);
  }

  /** So a condemned child is never watched, armed for or waited on again, and none is forked before its time. */
  lemma CondemnedIsNotWatched(c: Config, t: State, o: Obs)
    requires Seen(c, t, o) && o.sentence != Free && !CutShort(t.pc)
    ensures !IsWait(t.pc) && !t.pc.Arm? && !t.pc.Try? && !BeforeFork(t.pc)
    ensures t.pc.Leave? ==> o.sentence == Ends(t.pc.rc)
    ensures o.sentence == Ends(ExitOk) || o.sentence == Ends(ExitErr) ==> !t.pc.Run?
    ensures t.pc.Done? && t.pc.how.Returned? ==> o.sentence == Ends(t.pc.how.rc)
  {
    SentencesAreCarriedOut(c, t, o);
  }

  /**
   * The grounds, one by one: the starts are used up, the lifetime is over, an exit signal was caught, fork
   * failed, SIGUSR1 was caught, the child is dead, the wait was ended by an exit signal, the child looks stuck,
   * the monitor port is down or the test of it could not be made, or a fatal line was read.
   */
  lemma GroundsAre(c: Config, o: Obs, s: State, e: Event)
    requires !IsEnvironment(e)
    ensures var v := SentenceAfter(c, o, s, e);
      && (s.pc == Run(LoopTest) && c.maxStart >= 0 && o.starts >= c.maxStart ==> v == Ends(ExitOk))
      && (s.pc == Run(LifetimeTest) && c.maxLifetime > 0 && s.w.clock - c.pidStart >= c.maxLifetime ==>
            v == Ends(ExitOk))
      && (s.pc == Run(ExitTest) && o.exit ==> v == Ends(ExitErr))
      && (s.pc == Run(Fork) && e == ForkMade(-1) ==> v == Halts)
      && (s.pc == Try(RestartTest) && o.usr1 ==> v == Ends(Restart))
      && (s.pc == Arm(ExitFlagTest) && o.exit ==> v == Ends(ExitErr))
      && (s.pc == Catch(Dispatch) && o.woke in {TERM, INT} ==> v == Ends(ExitErr))
      && (s.pc == Catch(CatchLifetime) && c.maxLifetime > 0 && s.w.clock - c.pidStart >= c.maxLifetime ==>
            v == Ends(ExitOk))
      && (s.pc == Catch(Watchdog) && c.maxSession > 0 && o.lostAt > 0 && s.w.clock - o.lostAt >= c.maxSession ==>
            v == Ends(Restart))
      && (s.pc == Catch(Watchdog) && c.maxSession > 0 && !o.heard && s.w.clock - o.startedAt >= c.maxSession ==>
            v == Ends(Restart))
      && (s.pc == Catch(EchoTest) && c.monitoring && e == Echoed(PortDown) ==> v == Ends(Restart))
      && (s.pc == Catch(EchoTest) && c.monitoring && e == Echoed(EchoFatal) ==> v == Halts)
      && (e in {ReadData(Drain.PortFailed), ReadData(Drain.Stuck)} && s.pc.DrainErr? && s.pc.d.Reading? ==>
            s.pc.caller in {FromPoll, FromAlarm} ==> v == EndsAfterDelay)
  {
  }

  /** The port delay of ssh_watch is five seconds from the end of the kill. */
  lemma PortDelayIsFive(c: Config, t: State, e: Event)
    requires Enabled(c, t, e) && t.pc != Catch(PortDelay) && Next(c, t, e).pc == Catch(PortDelay)
    ensures t.pc.Kill? && Next(c, t, e).w.wakeAt == t.w.clock + 5
  {
  }

  // ----- the child's end -----

  /** The ways to die after which ssh is started again. */
  predicate CallsForRestart(c: Config, j: Judged) {
    || j.status.Signalled?
    || (j.status == Exited(255) && !(j.starts == 1 && c.gateTime != 0 && j.age <= c.gateTime))
    || (j.status in {Exited(1), Exited(2)} && (j.starts > 1 || c.gateTime == 0))
  }

  /** The one way after which autossh leaves quietly. */
  predicate CallsForExit(c: Config, j: Judged) {
    j.status == Exited(0) && !(j.starts == 1 && c.gateTime != 0 && j.age <= c.gateTime)
  }

  /**
   * A death that is final is final. If the last child was reaped by ssh_wait, the next start is on its way only
   * if it died in a way that calls for it; if not, ssh_run returns what the manual says, and nothing else.
   */
  lemma FinalDeathIsFinal(c: Config, t: State, o: Obs)
    requires Seen(c, t, o) && o.judged.Some?
    ensures o.reaped == Some(o.judged.value.status)
    ensures t.pc.Run? || t.pc.GraceTime? ==> CallsForRestart(c, o.judged.value)
    ensures t.pc.Leave? ==> (t.pc.rc == Restart <==> CallsForRestart(c, o.judged.value))
    ensures t.pc.Done? && t.pc.how.Returned? && !CallsForRestart(c, o.judged.value) ==>
      t.pc.how.rc == if CallsForExit(c, o.judged.value) then ExitOk else ExitErr
  {
    var s, run :| Init(c, s) && Exec(c, s, run) == Some(t) && Observed(c, s, run) == o;
    RunObeysReaped(c, s, run, t);
    var j := o.judged.value;
    ManualRules(j.status, j.starts, c.gateTime, j.age);
  }

  /** Every death ssh_wait reports is judged, before anything else goes on. */
  lemma EveryDeathIsJudged(c: Config, t: State, o: Obs)
    requires Seen(c, t, o) && o.reaped.Some? && o.judged.None? && !CutShort(t.pc)
    ensures t.pc == Try(JudgeStatus) || (t.pc.DrainErr? && t.pc.caller.FromWait?)
    ensures t.l.status == o.reaped.value
  {
    var s, run :| Init(c, s) && Exec(c, s, run) == Some(t) && Observed(c, s, run) == o;
    RunObeysReaped(c, s, run, t);
    RunObeysSentence(c, s, run, t);
  }

  // ----- served in time -----

  /** Statements still to run while a sentence is carried out. */
  function SentenceRank(s: State): nat {
    if s.pc == Poll(AfterPollDrain) then 46 else Rank(s.pc)
  }

  lemma KillDescendsToo(s: State, e: Event)
    requires ReapInv(s) && s.pc.Kill? && CodeEnabled(s, e)
    ensures SentenceRank(KillStep(s, s.pc.k, s.pc.after, e)) < SentenceRank(s)
  {
  }

  lemma CodeDescendsToo(c: Config, s: State, o: Obs, e: Event)
    requires SentenceInv(s, o) && o.sentence != Free && CodeEnabled(s, e) && !s.pc.Kill?
    ensures SentenceRank(CodeStep(c, s, e)) < SentenceRank(s)
  {
  }

  lemma SentenceDescends(c: Config, s: State, o: Obs, e: Event)
    requires SentenceInv(s, o) && JumpInv(s) && ReapInv(s) && o.sentence != Free && Enabled(c, s, e)
    ensures SentenceRank(Next(c, s, e)) <= SentenceRank(s)
    ensures !IsEnvironment(e) ==> SentenceRank(Next(c, s, e)) < SentenceRank(s)
  {
    if !IsEnvironment(e) {
      if s.pc.Kill? {
        KillDescendsToo(s, e);
      } else {
        CodeDescendsToo(c, s, o, e);
      }
    }
  }

  /** The sentence stands at the start and after every step of the run. */
  predicate Stands(c: Config, s: State, run: seq<Event>, from: nat)
    requires Exec(c, s, run).Some? && from <= |run|
    decreases |run|
  {
    && Observed(c, s, run).sentence != Free
    && (|run| > from ==> Stands(c, s, run[..|run| - 1], from))
  }

  /** The statements among the events from number `from` on. */
  function StatementsFrom(run: seq<Event>, from: nat): nat
    requires from <= |run|
    decreases |run|
  {
    if |run| == from then 0
    else StatementsFrom(run[..|run| - 1], from) + (if IsEnvironment(run[|run| - 1]) then 0 else 1)
  }

  lemma {:induction false} SentenceCountsDown(c: Config, s: State, run: seq<Event>, from: nat)
    requires Init(c, s) && Exec(c, s, run).Some? && from <= |run| && Stands(c, s, run, from)
    requires Exec(c, s, run[..from]).Some?
    ensures StatementsFrom(run, from) + SentenceRank(Exec(c, s, run).value)
         <= SentenceRank(Exec(c, s, run[..from]).value)
    decreases |run|
  {
    if |run| == from {
      assert run[..from] == run;
    } else {
      var front := run[..|run| - 1];
      var before := Exec(c, s, front).value;
      assert front[..from] == run[..from];
      SentenceCountsDown(c, s, front, from);
      RunObeysSentence(c, s, front, before);
      InitInv(c, s);
      RunKeepsProcess(c, s, front, before);
      RunKeepsLeaving(c, s, front, before);
      SentenceDescends(c, before, Observed(c, s, front), run[|run| - 1]);
    }
  }

  /** Whatever the environment does, no sentence stands for more than 51 statements. */
  lemma SentencesAreServed(c: Config, s: State, run: seq<Event>, from: nat)
    requires Init(c, s) && Exec(c, s, run).Some? && from <= |run| && Stands(c, s, run, from)
    requires Exec(c, s, run[..from]).Some?
    ensures StatementsFrom(run, from) <= 51
  {
    SentenceCountsDown(c, s, run, from);
  }
}
