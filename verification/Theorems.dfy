/** The supervisor's guarantees over every run: any configuration, any interleaving, any environment. */
module Theorems {
  import opened Posix
  import opened WaitPolicy
  import opened Supervisor
  import opened SignalSafety
  import opened ProcessSafety
  import opened ExitSafety
  import opened RestartSafety
  import opened ReturnSafety
  import opened StartSafety
  import opened TimerSafety
  import opened Silence
  import opened LifeSafety
  import opened WayOut
  import Grace

  predicate ProcessInv(s: State) {
    SignalInv(s) && ChildInv(s) && CountInv(s) && FdInv(s) && HaltInv(s)
  }

  predicate LeavingInv(c: Config, s: State) {
    ExitInv(s) && ReapInv(s) && RestartInv(s) && ReturnInv(c, s)
  }

  predicate StartsInv(c: Config, s: State) {
    LogInv(c, s) && StartInv(c, s) && TriesInv(c, s)
  }

  predicate StderrsInv(c: Config, s: State) {
    StderrInv(c, s) && PortInv(s) && PipeInv(s)
  }

  predicate TimeInv(c: Config, s: State) {
    AlarmInv(c, s) && RearmInv(c, s) && LifetimeInv(c, s) && SteadyInv(c, s) && KillTimeInv(c, s)
  }

  predicate EndInv(c: Config, s: State) {
    SleepInv(c, s) && LifeInv(c, s)
  }

  predicate SilentInv(c: Config, s: State) {
    WatchdogOnly(c) ==> SilenceInv(c, s) && GoneInv(c, s)
  }

  predicate Inv(c: Config, s: State) {
    && ProcessInv(s) && LeavingInv(c, s) && StartsInv(c, s) && StderrsInv(c, s)
    && TimeInv(c, s) && EndInv(c, s) && SilentInv(c, s)
  }

  lemma InitInv(c: Config, s: State)
    requires Init(c, s)
    ensures Inv(c, s)
  {
  }

  lemma StepKeepsProcess(c: Config, s: State, e: Event)
    requires ProcessInv(s) && Enabled(c, s, e)
    ensures ProcessInv(Next(c, s, e))
  {
    StepKeepsSignal(c, s, e);
    StepKeepsChild(c, s, e);
    StepKeepsCount(c, s, e);
    StepKeepsFds(c, s, e);
    StepKeepsHalt(c, s, e);
  }

  lemma StepKeepsLeaving(c: Config, s: State, e: Event)
    requires LeavingInv(c, s) && SignalInv(s) && Enabled(c, s, e)
    ensures LeavingInv(c, Next(c, s, e))
  {
    StepKeepsExit(c, s, e);
    StepKeepsReap(c, s, e);
    StepKeepsRestart(c, s, e);
    StepKeepsReturn(c, s, e);
  }

  lemma StepKeepsStarts(c: Config, s: State, e: Event)
    requires StartsInv(c, s) && SignalInv(s) && Enabled(c, s, e)
    ensures StartsInv(c, Next(c, s, e))
  {
    StepKeepsLog(c, s, e);
    StepKeepsStart(c, s, e);
    StepKeepsTries(c, s, e);
  }

  lemma StepKeepsStderrs(c: Config, s: State, e: Event)
    requires StderrsInv(c, s) && SignalInv(s) && Enabled(c, s, e)
    ensures StderrsInv(c, Next(c, s, e))
  {
    StepKeepsStderr(c, s, e);
    StepKeepsPort(c, s, e);
    StepKeepsPipe(c, s, e);
  }

  lemma StepKeepsTime(c: Config, s: State, e: Event)
    requires ValidConfig(c) && TimeInv(c, s) && SignalInv(s) && Enabled(c, s, e)
    ensures TimeInv(c, Next(c, s, e))
  {
    StepKeepsAlarm(c, s, e);
    StepKeepsRearm(c, s, e);
    StepKeepsLifetime(c, s, e);
    StepKeepsSteady(c, s, e);
    StepKeepsKillTime(c, s, e);
  }

  lemma StepKeepsEnd(c: Config, s: State, e: Event)
    requires ValidConfig(c) && EndInv(c, s) && MaskInv(s) && JumpInv(s) && AlarmInv(c, s) && LifetimeInv(c, s)
    requires Enabled(c, s, e)
    ensures EndInv(c, Next(c, s, e))
  {
    StepKeepsSleep(c, s, e);
    StepKeepsLife(c, s, e);
  }

  lemma StepKeepsSilent(c: Config, s: State, e: Event)
    requires SilentInv(c, s) && SignalInv(s) && AlarmInv(c, s) && StderrInv(c, s) && Enabled(c, s, e)
    ensures SilentInv(c, Next(c, s, e))
  {
    if WatchdogOnly(c) {
      StepKeepsSilence(c, s, e);
      StepKeepsGone(c, s, e);
    }
  }

  // ----- every run -----

  lemma {:induction false} RunKeepsProcess(c: Config, s: State, run: seq<Event>, t: State)
    requires ProcessInv(s) && Exec(c, s, run) == Some(t)
    ensures ProcessInv(t)
    decreases |run|
  {
    if run != [] {
      var front := run[..|run| - 1];
      var before := Exec(c, s, front).value;
      RunKeepsProcess(c, s, front, before);
      StepKeepsProcess(c, before, run[|run| - 1]);
    }
  }

  lemma {:induction false} RunKeepsLeaving(c: Config, s: State, run: seq<Event>, t: State)
    requires ProcessInv(s) && LeavingInv(c, s) && Exec(c, s, run) == Some(t)
    ensures LeavingInv(c, t)
    decreases |run|
  {
    if run != [] {
      var front := run[..|run| - 1];
      var before := Exec(c, s, front).value;
      RunKeepsLeaving(c, s, front, before);
      RunKeepsProcess(c, s, front, before);
      StepKeepsLeaving(c, before, run[|run| - 1]);
    }
  }

  lemma {:induction false} RunKeepsStarts(c: Config, s: State, run: seq<Event>, t: State)
    requires ProcessInv(s) && StartsInv(c, s) && Exec(c, s, run) == Some(t)
    ensures StartsInv(c, t)
    decreases |run|
  {
    if run != [] {
      var front := run[..|run| - 1];
      var before := Exec(c, s, front).value;
      RunKeepsStarts(c, s, front, before);
      RunKeepsProcess(c, s, front, before);
      StepKeepsStarts(c, before, run[|run| - 1]);
    }
  }

  lemma {:induction false} RunKeepsStderrs(c: Config, s: State, run: seq<Event>, t: State)
    requires ProcessInv(s) && StderrsInv(c, s) && Exec(c, s, run) == Some(t)
    ensures StderrsInv(c, t)
    decreases |run|
  {
    if run != [] {
      var front := run[..|run| - 1];
      var before := Exec(c, s, front).value;
      RunKeepsStderrs(c, s, front, before);
      RunKeepsProcess(c, s, front, before);
      StepKeepsStderrs(c, before, run[|run| - 1]);
    }
  }

  lemma {:induction false} RunKeepsTime(c: Config, s: State, run: seq<Event>, t: State)
    requires ValidConfig(c) && ProcessInv(s) && TimeInv(c, s) && Exec(c, s, run) == Some(t)
    ensures TimeInv(c, t)
    decreases |run|
  {
    if run != [] {
      var front := run[..|run| - 1];
      var before := Exec(c, s, front).value;
      RunKeepsTime(c, s, front, before);
      RunKeepsProcess(c, s, front, before);
      StepKeepsTime(c, before, run[|run| - 1]);
    }
  }

  lemma {:induction false} RunKeepsEnd(c: Config, s: State, run: seq<Event>, t: State)
    requires ValidConfig(c) && ProcessInv(s) && TimeInv(c, s) && EndInv(c, s) && Exec(c, s, run) == Some(t)
    ensures EndInv(c, t)
    decreases |run|
  {
    if run != [] {
      var front := run[..|run| - 1];
      var before := Exec(c, s, front).value;
      RunKeepsEnd(c, s, front, before);
      RunKeepsProcess(c, s, front, before);
      RunKeepsTime(c, s, front, before);
      StepKeepsEnd(c, before, run[|run| - 1]);
    }
  }

  lemma {:induction false} RunKeepsSilent(c: Config, s: State, run: seq<Event>, t: State)
    requires ValidConfig(c) && ProcessInv(s) && StderrsInv(c, s) && TimeInv(c, s) && SilentInv(c, s)
    requires Exec(c, s, run) == Some(t)
    ensures SilentInv(c, t)
    decreases |run|
  {
    if run != [] {
      var front := run[..|run| - 1];
      var before := Exec(c, s, front).value;
      RunKeepsSilent(c, s, front, before);
      RunKeepsProcess(c, s, front, before);
      RunKeepsStderrs(c, s, front, before);
      RunKeepsTime(c, s, front, before);
      StepKeepsSilent(c, before, run[|run| - 1]);
    }
  }

  lemma RunKeepsInv(c: Config, s: State, run: seq<Event>, t: State)
    requires ValidConfig(c) && Inv(c, s) && Exec(c, s, run) == Some(t)
    ensures Inv(c, t)
  {
    RunKeepsProcess(c, s, run, t);
    RunKeepsLeaving(c, s, run, t);
    RunKeepsStarts(c, s, run, t);
    RunKeepsStderrs(c, s, run, t);
    RunKeepsTime(c, s, run, t);
    RunKeepsEnd(c, s, run, t);
    RunKeepsSilent(c, s, run, t);
  }

  lemma ReachableInv(c: Config, t: State)
    requires ValidConfig(c) && Reachable(c, t)
    ensures Inv(c, t)
  {
    var s, run :| Init(c, s) && Exec(c, s, run) == Some(t);
    InitInv(c, s);
    RunKeepsInv(c, s, run, t);
  }

  // ----- signals -----

  /** No handler ever jumps into a call that is over. */
  lemma NoWildJump(c: Config, t: State)
    requires ValidConfig(c) && Reachable(c, t)
    ensures t.pc != Done(WildJump)
  {
    ReachableInv(c, t);
  }

  /**
   * While dolongjmp is set the handled signals are blocked, or the thread is in the wait that lets them
   * in, and a jump lands in the running ssh_watch; when ssh_watch has returned, dolongjmp is clear and
   * the caller's mask is back; an armed alarm always has its handler.
   */
  lemma JumpsAreSafe(c: Config, t: State)
    requires ValidConfig(c) && Reachable(c, t) && !t.pc.Done?
    ensures t.g.dolongjmp ==> CanLand(t)
    ensures t.g.dolongjmp ==>
      IsWait(t.pc) || forall sig :: sig in HANDLED ==> Blocks(c.callerMask, t.w.mask, sig)
    ensures t.pc.Leave? && t.pc.q.ClearJump? ==> !t.g.dolongjmp && t.w.mask == Callers
    ensures t.w.alarm.Some? ==> Catches(t.w.caught, ALRM)
  {
    ReachableInv(c, t);
  }

  /**
   * A caught signal has its effect, a jump into the catch branch, if and only if it arrives in the
   * blocking wait. Anywhere else the code goes on where it was: a SIGALRM that arrives there is lost.
   */
  lemma SignalsActOnlyInTheWait(c: Config, t: State, sig: Signal)
    requires ValidConfig(c) && Reachable(c, t) && Enabled(c, t, Deliver(sig)) && Catches(t.w.caught, sig)
    requires IsExitSignal(sig) ==> !t.g.exitSignalled
    ensures var u := Next(c, t, Deliver(sig));
      && (u.pc == Catch(Unblock) <==> IsWait(t.pc))
      && (!IsWait(t.pc) ==> u.pc == t.pc)
      && sig !in u.w.pending
  {
    ReachableInv(c, t);
  }

  /** The second SIGTERM or SIGINT ends the process at once. */
  lemma SecondExitSignalForces(c: Config, t: State, sig: Signal)
    requires ValidConfig(c) && Reachable(c, t) && Enabled(c, t, Deliver(sig)) && IsExitSignal(sig)
    requires t.pc != Run(InstallExitHandler)
    ensures Next(c, t, Deliver(sig)).pc == Done(ForcedExit) <==> t.g.exitSignalled
  {
    ReachableInv(c, t);
  }

  /** sig_catch is in place for all its signals: around ssh_watch, and in an ssh_kill that has a child to kill. */
  predicate Prodded(s: State) {
    HandlersOn(s.pc) || (s.pc.Kill? && s.g.cchild != 0)
  }

  /**
   * The manual says that autossh can be prodded out of its backoff with SIGHUP. Between children the
   * handlers are off: there SIGHUP, like SIGUSR1 and SIGUSR2, ends autossh instead. It is harmless, or
   * does what it should, if and only if the handlers are on.
   */
  lemma ProddingKillsIff(c: Config, t: State, sig: Signal)
    requires ValidConfig(c) && Reachable(c, t) && Enabled(c, t, Deliver(sig)) && sig in {HUP, USR1, USR2}
    ensures Next(c, t, Deliver(sig)).pc == Done(SignalDeath) <==> !Prodded(t)
    ensures t.pc.GraceTime? ==> !Prodded(t)
  {
    ProddedMeansCaught(c, t);
  }

  lemma ProddedMeansCaught(c: Config, t: State)
    requires ValidConfig(c) && Reachable(c, t) && !t.pc.Done?
    ensures Prodded(t) <==> t.w.caught == AllHandlers
  {
    ReachableInv(c, t);
  }

  // ----- children and descriptors -----

  /** Every kill goes to a child that was forked and has not been reaped. */
  lemma KillsHitTheChild(c: Config, t: State)
    requires ValidConfig(c) && Reachable(c, t)
    requires t.pc.Kill? && (t.pc.k.SendTerm? || t.pc.k.SendKill?)
    ensures t.g.cchild > 0 && t.g.cchild in t.w.children
  {
    ReachableInv(c, t);
  }

  /** Forks are conserved: reaped, given up, or the one child in hand; none is in hand at the end. */
  lemma ChildrenAreAccountedFor(c: Config, t: State)
    requires ValidConfig(c) && Reachable(c, t) && !CutShort(t.pc)
    ensures t.h.procs.forks == t.h.procs.reaped + |t.h.procs.abandoned| + (if Tracked(t) then 1 else 0)
    ensures t.pc.Done? ==> t.w.children.Keys == t.h.procs.abandoned
  {
    ReachableInv(c, t);
    assert |t.w.children| == |t.w.children.Keys|;
  }

  /** Every descriptor pipe gave out is closed exactly once; none is open at a fork's start or at the end. */
  lemma DescriptorsAreConserved(c: Config, t: State)
    requires ValidConfig(c) && Reachable(c, t)
    ensures !t.h.fds.missed && t.h.fds.made == t.h.fds.closed + |t.w.open|
    ensures t.pc == Run(MakePipe) ==> t.g.stderrFd == -1 && t.w.open == {}
    ensures t.pc == Run(Fork) ==> t.g.stderrFd == -1
    ensures t.pc.Done? && !CutShort(t.pc) ==> t.w.open == {}
  {
    ReachableInv(c, t);
  }

  // ----- leaving -----

  /** With the exit flag set nothing waits, and at most one more child is forked: the one the signal just missed. */
  lemma ExitSignalEndsIt(c: Config, t: State)
    requires ValidConfig(c) && Reachable(c, t)
    ensures IsWait(t.pc) ==> !t.g.exitSignalled
    ensures t.h.exits.forks <= 1
    ensures t.h.exits.forks == 1 ==> t.h.exits.inWindow
  {
    ReachableInv(c, t);
  }

  function WorkIn(run: seq<Event>): nat {
    if run == [] then 0 else WorkIn(run[..|run| - 1]) + (if IsWork(run[|run| - 1]) then 1 else 0)
  }

  /**
   * From any reachable state with the exit flag set, whatever the environment does, at most 51 more
   * statements run before the process is done, not counting further successful reads of stderr.
   */
  lemma WayOutIsBounded(c: Config, s: State, run: seq<Event>, t: State)
    requires ValidConfig(c) && Reachable(c, s) && s.g.exitSignalled && Exec(c, s, run) == Some(t)
    ensures t.g.exitSignalled && WorkIn(run) + Rank(t.pc) <= Rank(s.pc) <= 51
  {
    ReachableInv(c, s);
    CountDown(c, s, run, t);
  }

  lemma {:induction false} CountDown(c: Config, s: State, run: seq<Event>, t: State)
    requires ProcessInv(s) && LeavingInv(c, s) && s.g.exitSignalled && Exec(c, s, run) == Some(t)
    ensures t.g.exitSignalled && WorkIn(run) + Rank(t.pc) <= Rank(s.pc)
    decreases |run|
  {
    if run != [] {
      var front := run[..|run| - 1];
      var before := Exec(c, s, front).value;
      CountDown(c, s, front, before);
      RunKeepsProcess(c, s, front, before);
      RunKeepsLeaving(c, s, front, before);
      StepDescends(c, before, run[|run| - 1]);
    }
  }

  /**
   * And where no time is lost, at most 14 seconds and one poll time pass: four for a kill, five for each of
   * the port delays of ssh_watch and grace_time, and one backoff.
   */
  lemma WayOutIsQuick(c: Config, s: State, run: seq<Event>, t: State)
    requires ValidConfig(c) && c.zeroTime && Reachable(c, s) && s.g.exitSignalled && Exec(c, s, run) == Some(t)
    ensures t.w.clock <= s.w.clock + c.pollTime + 14
  {
    ReachableInv(c, s);
    SpendDown(c, s, run, t);
    RunKeepsInv(c, s, run, t);
    SecondsAreFew(c, s);
    SecondsAreFew(c, t);
  }

  lemma {:induction false} SpendDown(c: Config, s: State, run: seq<Event>, t: State)
    requires ValidConfig(c) && c.zeroTime && ProcessInv(s) && LeavingInv(c, s) && s.g.exitSignalled
    requires Exec(c, s, run) == Some(t)
    ensures t.w.clock + Seconds(c, t) <= s.w.clock + Seconds(c, s)
    decreases |run|
  {
    if run != [] {
      var front := run[..|run| - 1];
      var before := Exec(c, s, front).value;
      SpendDown(c, s, front, before);
      CountDown(c, s, front, before);
      RunKeepsProcess(c, s, front, before);
      RunKeepsLeaving(c, s, front, before);
      StepSpends(c, before, run[|run| - 1]);
    }
  }

  // ----- starting -----

  /**
   * A child is only ever forked with a clean slate, and after a reported port failure only when grace_time's
   * own five-second wait, begun after the failure was read, has run in full.
   */
  lemma ForksStartClean(c: Config, t: State)
    requires ValidConfig(c) && Reachable(c, t) && t.pc == Run(Fork)
    ensures !t.g.portFailed && t.g.lastStderr == 0 && t.g.pipeLost == 0 && t.w.alarm == None && !t.g.dolongjmp
    ensures t.h.child.failTime.Some? ==>
      && t.h.child.failTime.value <= t.h.portSleepAt
      && t.h.portSleepAt + Grace.PORT_FWD_FAIL_DELAY <= t.w.clock
  {
    ReachableInv(c, t);
  }

  /** A port delay that was cut short is followed by no fork: ssh_run returns. */
  lemma CutDelayIsTheEnd(c: Config, t: State)
    requires ValidConfig(c) && Reachable(c, t) && t.pc == Run(ExitTest) && t.h.child.failTime.Some?
    requires t.w.clock < t.h.portSleepAt + Grace.PORT_FWD_FAIL_DELAY
    ensures Next(c, t, Go).pc == Done(Returned(ExitErr))
  {
    ReachableInv(c, t);
  }

  /** A non-negative limit on starts is a limit on forks. */
  lemma StartLimitHolds(c: Config, t: State)
    requires ValidConfig(c) && Reachable(c, t) && c.maxStart >= 0
    ensures t.h.procs.forks <= c.maxStart
  {
    ReachableInv(c, t);
  }

  /**
   * A restart request is never waited on and never carried into a new start: it is outstanding only on the
   * way to its test or with the child on its way out, and when it is cleared that child is gone.
   */
  lemma RestartOnRequest(c: Config, t: State)
    requires ValidConfig(c) && Reachable(c, t)
    ensures IsWait(t.pc) || BeforeFork(t.pc) || t.pc.Arm? ==> !t.g.restart
    ensures t.pc == Run(ClearRestart) ==> t.w.children.Keys == t.h.procs.abandoned
  {
    ReachableInv(c, t);
  }

  /** The request is outstanding at the start and after every step of the run. */
  predicate Outstanding(c: Config, s: State, run: seq<Event>)
    decreases |run|
  {
    && (run == [] || Outstanding(c, s, run[..|run| - 1]))
    && Exec(c, s, run).Some? && Exec(c, s, run).value.g.restart
  }

  lemma {:induction false} RequestCountsDown(c: Config, s: State, run: seq<Event>)
    requires ProcessInv(s) && LeavingInv(c, s) && Outstanding(c, s, run)
    ensures WorkIn(run) + Rank(Exec(c, s, run).value.pc) <= Rank(s.pc)
    decreases |run|
  {
    if run != [] {
      var front := run[..|run| - 1];
      var before := Exec(c, s, front).value;
      RequestCountsDown(c, s, front);
      RunKeepsProcess(c, s, front, before);
      RunKeepsLeaving(c, s, front, before);
      StepServes(c, before, run[|run| - 1]);
    }
  }

  /** Whatever the environment does, no request is outstanding for more than 51 statements. */
  lemma RestartIsServed(c: Config, s: State, run: seq<Event>)
    requires ValidConfig(c) && Reachable(c, s) && Outstanding(c, s, run)
    ensures WorkIn(run) <= Rank(s.pc) <= 51
  {
    ReachableInv(c, s);
    RequestCountsDown(c, s, run);
  }

  /**
   * The pause before the next start, over whole runs: after exactly k short-lived children in a row it is
   * the k-th backoff, whose closed form is Grace.BackoffLaw.
   */
  lemma RunsBackOff(c: Config, t: State, k: nat)
    requires ValidConfig(c) && Reachable(c, t) && t.pc == GraceTime(Backoff) && k <= |t.h.starts|
    requires forall i :: |t.h.starts| - k <= i < |t.h.starts| ==> Grace.ShortLived(t.h.starts[i], c.pollTime)
    requires k < |t.h.starts| ==> !Grace.ShortLived(t.h.starts[|t.h.starts| - 1 - k], c.pollTime)
    ensures
      var pause := Grace.Interval(c.pollTime, k);
      var u := Next(c, t, Go);
      if pause <= 0 then u.pc == GraceTime(PortFlagTest)
      else u.pc == GraceTime(BackoffSleep) && u.w.wakeAt == t.w.clock + pause
  {
    TriesAreCounted(c, t);
    Grace.ConsecutiveFailuresAreCounted(t.h.starts, k, c.pollTime);
    PauseIsMade(c, t);
  }

  lemma PauseIsMade(c: Config, t: State)
    requires t.pc == GraceTime(Backoff)
    ensures
      var pause := Grace.Interval(c.pollTime, t.g.tries);
      var u := Next(c, t, Go);
      if pause <= 0 then u.pc == GraceTime(PortFlagTest)
      else u.pc == GraceTime(BackoffSleep) && u.w.wakeAt == t.w.clock + pause
  {
  }

  lemma TriesAreCounted(c: Config, t: State)
    requires ValidConfig(c) && Reachable(c, t)
    ensures t.g.tries == Grace.TriesAfter(t.h.starts, c.pollTime)
  {
    ReachableInv(c, t);
  }

  /**
   * Why ssh_run returns. With an error: an exit signal was caught, or the last child exited with a code that
   * is always final, as the first one inside the gate time, or with 1 or 2 as the first one with the gate on.
   * Without: the lifetime is over, the starts are used up, or the last child exited with 0, not as the first
   * one inside the gate time. A child that died of a signal is never the reason.
   */
  lemma ReturnsForAReason(c: Config, t: State)
    requires ValidConfig(c) && Reachable(c, t) && t.pc.Done? && t.pc.how.Returned?
    ensures t.pc.how.rc == ExitOk || t.pc.how.rc == ExitErr
    ensures t.pc.how.rc == ExitErr ==>
      || t.g.exitSignalled
      || (&& t.l.status.Exited?
          && (t.l.status.code in {0, 255} ==> FailedTheGate(t.l.status, t.g.startCount, c.gateTime, t.h.age))
          && (t.l.status.code in {1, 2} ==> t.g.startCount == 1 && c.gateTime != 0))
    ensures t.pc.how.rc == ExitOk ==>
      || LifetimeExceeded(c, t.w.clock) || 0 <= c.maxStart <= t.g.startCount
      || (t.l.status == Exited(0) && !FailedTheGate(t.l.status, t.g.startCount, c.gateTime, t.h.age))
  {
    ReachableInv(c, t);
  }

  // ----- timing -----

  /** No wait is in progress without an alarm to end it, provided no arming came too late. */
  lemma EveryWaitIsTimed(c: Config, t: State)
    requires ValidConfig(c) && Reachable(c, t) && IsWait(t.pc)
    requires c.maxLifetime == 0 || !t.h.timer.late
    ensures t.w.alarm.Some? || ALRM in t.w.pending
  {
    ReachableInv(c, t);
  }

  /** Waking up for anything but the alarm puts it off by no more than the time it takes to arm it again. */
  lemma WakeUpsNeverPostpone(c: Config, t: State)
    requires ValidConfig(c) && Reachable(c, t) && c.maxLifetime == 0 && IsWait(t.pc)
    requires t.w.alarm.Some? && t.h.timer.prevDeadline.Some?
    ensures t.h.timer.takenAt <= t.h.timer.armedAt <= t.w.clock
    ensures t.w.alarm.value <= t.h.timer.prevDeadline.value + (t.h.timer.armedAt - t.h.timer.takenAt)
    ensures c.zeroTime ==> t.w.alarm.value <= t.h.timer.prevDeadline.value
  {
    ReachableInv(c, t);
  }

  /**
   * If every alarm was armed in time, the alarm goes off by the end of life, but for time lost between
   * computing and arming, and where no time is lost no wait goes on past the end.
   */
  lemma LifeEndsOnTime(c: Config, t: State)
    requires ValidConfig(c) && Reachable(c, t) && c.maxLifetime > 0 && !t.h.timer.overrun
    ensures t.w.alarm.Some? ==> t.w.alarm.value <= EndOfLife(c) + (t.h.timer.armedAt - t.h.timer.computedAt)
    ensures t.w.alarm.Some? && c.zeroTime ==> t.w.clock <= t.w.alarm.value <= EndOfLife(c)
    ensures IsWait(t.pc) && c.zeroTime && ALRM !in c.callerMask ==> t.w.clock <= EndOfLife(c)
  {
    ReachableInv(c, t);
  }

  /** A child born within such a life is watched up to its end at most, and gone four seconds after it. */
  lemma ChildEndsWithLife(c: Config, t: State)
    requires ValidConfig(c) && Reachable(c, t) && Punctual(c, t) && Tracked(t)
    ensures !t.pc.Kill? ==> t.w.clock <= EndOfLife(c)
    ensures t.w.clock <= EndOfLife(c) + 4
  {
    ReachableInv(c, t);
  }

  /** With a first poll time no longer than the poll time, an alarm is armed past the end only when it is late. */
  lemma OnlyLateArmingOverruns(c: Config, t: State)
    requires ValidConfig(c) && Reachable(c, t) && c.maxLifetime > 0 && c.firstPoll <= c.pollTime
    ensures t.h.timer.overrun <==> t.h.timer.late
  {
    ReachableInv(c, t);
  }

  lemma {:induction false} CostIsProduct(c: Config, lost: nat)
    ensures CostOfLost(c, lost) == lost * Interval(c)
  {
    if lost > 0 {
      CostIsProduct(c, lost - 1);
    }
  }

  /** Whatever is watched in silence is still within the limit and what lost alarms added to it. */
  lemma SilenceIsBounded(c: Config, t: State)
    requires WatchdogOnly(c) && Reachable(c, t) && Watching(t.pc) && t.h.child.readCount == 0
    ensures t.w.clock < t.h.child.bornAt + c.maxSession + CostOfLost(c, t.h.child.absorbed + 1)
  {
    ReachableInv(c, t);
  }

  /** And within four seconds more it is gone: reaped or given up. */
  lemma SilentChildIsGone(c: Config, t: State)
    requires WatchdogOnly(c) && Reachable(c, t) && Tracked(t) && t.h.child.readCount == 0
    ensures Watching(t.pc) || t.pc.Kill?
    ensures t.w.clock < t.h.child.bornAt + c.maxSession + CostOfLost(c, t.h.child.absorbed + 1) + 4
  {
    if Watching(t.pc) {
      SilenceIsBounded(c, t);
    } else {
      ReachableInv(c, t);
    }
  }

  /**
   * A child from which nothing was ever read is watched for less than the limit and an interval, one more
   * for each lost alarm, and within four seconds more it is gone: reaped or given up.
   */
  lemma SilentChildIsKilledInTime(c: Config, t: State)
    requires WatchdogOnly(c) && Reachable(c, t) && Tracked(t) && t.h.child.readCount == 0
    ensures Watching(t.pc) || t.pc.Kill?
    ensures var limit := t.h.child.bornAt + c.maxSession + (t.h.child.absorbed + 1) * Interval(c);
      && (Watching(t.pc) ==> t.w.clock < limit)
      && t.w.clock < limit + 4
  {
    SilentChildIsGone(c, t);
    if Watching(t.pc) {
      SilenceIsBounded(c, t);
    }
    CostIsProduct(c, t.h.child.absorbed + 1);
  }

  /**
   * The watchdog is patient: it kills a child only if nothing was ever read from it in the full session limit,
   * or if its pipe was lost, in its time, and the full session limit has passed since then.
   */
  lemma WatchdogIsPatient(c: Config, t: State)
    requires ValidConfig(c) && Reachable(c, t) && t.pc == Catch(Watchdog) && Next(c, t, Go).pc.Kill?
    ensures c.maxSession > 0
    ensures
      || (t.h.child.readCount == 0 && t.w.clock >= t.g.startTime + c.maxSession)
      || (&& t.g.pipeLost != 0 && t.g.stderrFd == -1
          && t.w.clock >= t.g.pipeLost + c.maxSession >= t.g.startTime + c.maxSession)
  {
    ReachableInv(c, t);
  }

  /** ssh_kill is over within four seconds of its start. */
  lemma KillTakesFourSeconds(c: Config, t: State)
    requires ValidConfig(c) && c.zeroTime && Reachable(c, t) && t.pc.Kill?
    ensures t.h.killStart <= t.w.clock <= t.h.killStart + 4
  {
    ReachableInv(c, t);
  }
}
