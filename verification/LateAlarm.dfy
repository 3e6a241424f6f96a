/**
 * Two runs in which the alarm does not end the life on time. The first ssh exits at once with a port
 * forwarding failure, grace_time waits its five seconds, and the lifetime runs out, or nearly so, while it
 * waits. No time is lost anywhere else.
 */
module LateAlarm {
  import opened Posix
  import opened WaitPolicy
  import opened Supervisor
  import Drain
  import Grace
  import Theorems
  import TimerSafety

  /** A lifetime of five seconds, counted from second 1. */
  const FIVE_SECONDS: Config := Config(-1, 10, 10, 5, 0, 0, 1, false, {}, true)

  /** A lifetime of seven seconds, a poll time of one and a first poll time of seven. */
  const LONG_FIRST_POLL: Config := Config(-1, 1, 7, 7, 0, 0, 1, false, {}, true)

  /** What these two, and those of other runs, have in common. */
  predicate Suits(c: Config) {
    && ValidConfig(c) && c.maxStart == -1 && c.pollTime <= 10 && c.gateTime == 0 && c.pidStart == 1
    && c.callerMask == {} && c.zeroTime && (c.maxLifetime == 0 || c.maxLifetime >= 5)
  }

  /** Reachable, at `pc` and second `now`, with nothing about to interrupt the code. */
  ghost predicate On(c: Config, t: State, pc: Pc, now: int) {
    && Suits(c) && Reachable(c, t) && t.pc == pc && t.w.clock == now && t.w.alarm == None && t.w.pending == {}
    && !t.g.exitSignalled && !t.g.restart && !t.g.dolongjmp
  }

  predicate NoChild(t: State) {
    t.w.children == map[]
  }

  predicate HasChild(t: State, pid: int) {
    t.g.cchild == pid && t.w.children == map[pid := Running] && t.h.child.readCount == 0
  }

  /** The next statement of the program, with the answer it is given. */
  lemma Step(c: Config, t: State, e: Event) returns (u: State)
    requires Reachable(c, t) && Quiet(c, t.w) && CodeEnabled(t, e) && !IsEnvironment(e) && !t.pc.Done?
    requires !e.PpollReturned?
    ensures u == CodeStep(c, t, e) && Reachable(c, u)
  {
    ReachNext(c, t, e);
    u := Next(c, t, e);
  }

  lemma RunGo(c: Config, t: State) returns (u: State)
    requires Reachable(c, t) && Quiet(c, t.w) && t.pc.Run? && t.pc.r != MakePipe && t.pc.r != Fork
    ensures u == RunStep(c, t, t.pc.r, Go) && Reachable(c, u)
  {
    u := Step(c, t, Go);
  }

  lemma TryGo(c: Config, t: State) returns (u: State)
    requires Reachable(c, t) && Quiet(c, t.w) && t.pc.Try? && t.pc.t != WaitChild
    ensures u == TryStep(c, t, t.pc.t, Go) && Reachable(c, u)
  {
    u := Step(c, t, Go);
  }

  lemma ArmGo(c: Config, t: State) returns (u: State)
    requires Reachable(c, t) && Quiet(c, t.w) && t.pc.Arm?
    ensures u == ArmStep(c, t, t.pc.a) && Reachable(c, u)
  {
    u := Step(c, t, Go);
  }

  lemma LeaveGo(c: Config, t: State) returns (u: State)
    requires Reachable(c, t) && Quiet(c, t.w) && t.pc.Leave?
    ensures u == LeaveStep(t, t.pc.q, t.pc.rc) && Reachable(c, u)
  {
    u := Step(c, t, Go);
  }

  lemma GraceGo(c: Config, t: State) returns (u: State)
    requires Reachable(c, t) && Quiet(c, t.w) && t.pc.GraceTime? && (IsSleep(t.pc) ==> t.w.clock >= t.w.wakeAt)
    ensures u == GraceStep(c, t, t.pc.g) && Reachable(c, u)
  {
    u := Step(c, t, Go);
  }

  // ----- from one start to its fork -----

  lemma ToLoop(c: Config, t0: State) returns (t: State)
    requires Suits(c) && Init(c, t0) && t0.w.clock == 1 && t0.w.pending == {}
    ensures On(c, t, Run(LoopTest), 1) && NoChild(t)
    ensures t.g.tries == 0 && !t.g.portFailed && t.w.open == {}
  {
    assert Exec(c, t0, []) == Some(t0);
    t := RunGo(c, t0);
  }

  lemma ToGrace(c: Config, t0: State) returns (t: State)
    requires On(c, t0, Run(LoopTest), 1) && NoChild(t0)
    ensures On(c, t, GraceTime(CountTry), 1) && NoChild(t)
    ensures t.g.tries == t0.g.tries && t.g.portFailed == t0.g.portFailed && t.w.open == t0.w.open
  {
    t := RunGo(c, t0);
    t := RunGo(c, t);
    t := ToCount(c, t);
  }

  lemma ToCount(c: Config, t0: State) returns (t: State)
    requires On(c, t0, Run(ClearRestart), 1) && NoChild(t0)
    ensures On(c, t, GraceTime(CountTry), 1) && NoChild(t)
    ensures t.g.tries == t0.g.tries && t.g.portFailed == t0.g.portFailed && t.w.open == t0.w.open
  {
    t := RunGo(c, t0);
    t := RunGo(c, t);
  }

  /** With fewer than five failures there is no backoff. */
  lemma ToPortTest(c: Config, t0: State) returns (t: State)
    requires On(c, t0, GraceTime(CountTry), 1) && NoChild(t0) && 0 <= t0.g.tries < 5
    ensures On(c, t, GraceTime(PortFlagTest), 1) && NoChild(t)
    ensures 0 <= t.g.tries <= t0.g.tries + 1 && t.g.portFailed == t0.g.portFailed && t.w.open == t0.w.open
  {
    t := GraceGo(c, t0);
    assert Grace.Interval(c.pollTime, t.g.tries) == 0;
    t := GraceGo(c, t);
  }

  lemma WithoutDelay(c: Config, t0: State) returns (t: State)
    requires On(c, t0, GraceTime(PortFlagTest), 1) && NoChild(t0) && !t0.g.portFailed
    ensures On(c, t, Run(ExitTest), 1) && NoChild(t) && t.g.tries == t0.g.tries && t.w.open == t0.w.open
  {
    t := GraceGo(c, t0);
  }

  /** The five seconds of grace_time. */
  lemma WithDelay(c: Config, t0: State) returns (t: State)
    requires On(c, t0, GraceTime(PortFlagTest), 1) && NoChild(t0) && t0.g.portFailed
    ensures On(c, t, Run(ExitTest), 6) && NoChild(t)
  {
    t := GraceGo(c, t0);
    ReachNext(c, t, Tick(5));
    t := Next(c, t, Tick(5));
    t := AfterDelay(c, t);
  }

  lemma AfterDelay(c: Config, t0: State) returns (t: State)
    requires On(c, t0, GraceTime(PortSleep), 6) && t0.w.wakeAt == 6 && NoChild(t0)
    ensures On(c, t, Run(ExitTest), 6) && NoChild(t)
  {
    t := GraceGo(c, t0);
    t := GraceGo(c, t);
  }

  lemma ToReset(c: Config, t0: State, now: int) returns (t: State)
    requires On(c, t0, Run(ExitTest), now) && NoChild(t0)
    ensures On(c, t, Run(ResetChild), now) && NoChild(t) && t.g.tries == t0.g.tries && t.w.open == t0.w.open
  {
    t := RunGo(c, t0);
    t := RunGo(c, t);
  }

  lemma ToPipe(c: Config, t0: State, now: int) returns (t: State)
    requires On(c, t0, Run(ResetChild), now) && NoChild(t0)
    ensures On(c, t, Run(MakePipe), now) && NoChild(t) && t.g.tries == t0.g.tries && t.w.open == t0.w.open
  {
    t := RunGo(c, t0);
  }

  /** The pipe's ends, or -1 for both if there is none. */
  lemma ToFork(c: Config, t0: State, now: int, read: int, write: int) returns (t: State)
    requires On(c, t0, Run(MakePipe), now) && NoChild(t0)
    requires (read == -1 == write) || (read == 3 && write == 4 && t0.w.open == {})
    ensures On(c, t, Run(Fork), now) && NoChild(t) && t.g.tries == t0.g.tries
    ensures t.l.pipeRead == read && t.l.pipeWrite == write
  {
    t := Step(c, t0, PipeMade(read, write));
  }

  lemma ToChild(c: Config, t0: State, now: int, pid: int) returns (t: State)
    requires On(c, t0, Run(Fork), now) && NoChild(t0) && pid > 0
    ensures On(c, t, Run(AdoptPipe), now) && HasChild(t, pid) && t.g.tries == t0.g.tries
    ensures t.l.pipeRead == t0.l.pipeRead && t.l.pipeWrite == t0.l.pipeWrite
  {
    t := Step(c, t0, ForkMade(pid));
  }

  // ----- ssh_watch, down to its look at the child -----

  lemma ToHandlers(c: Config, t0: State, now: int, pid: int) returns (t: State)
    requires On(c, t0, Run(AdoptPipe), now) && HasChild(t0, pid)
    ensures On(c, t, Run(InstallHandlers), now) && HasChild(t, pid)
    ensures t.g.tries == t0.g.tries && t.g.stderrFd == t0.l.pipeRead
  {
    t := RunGo(c, t0);
  }

  lemma ToWatch(c: Config, t0: State, now: int, pid: int) returns (t: State)
    requires On(c, t0, Run(InstallHandlers), now) && HasChild(t0, pid)
    ensures On(c, t, Try(Enter), now) && HasChild(t, pid) && t.w.caught == AllHandlers
    ensures t.g.tries == t0.g.tries && t.g.stderrFd == t0.g.stderrFd
  {
    t := RunGo(c, t0);
  }

  /** In ssh_watch, at its `pc`, with the first poll time in hand. */
  ghost predicate Watched(c: Config, t: State, pc: Pc, now: int, pid: int) {
    On(c, t, pc, now) && HasChild(t, pid) && t.w.caught == AllHandlers && t.l.myPoll == c.firstPoll
  }

  lemma ToReblock(c: Config, t0: State, now: int, pid: int) returns (t: State)
    requires On(c, t0, Try(Enter), now) && HasChild(t0, pid) && t0.w.caught == AllHandlers
    ensures Watched(c, t, Try(Reblock), now, pid) && t.g.tries == t0.g.tries && t.g.stderrFd == t0.g.stderrFd
  {
    t := TryGo(c, t0);
    t := TryGo(c, t);
  }

  lemma ToSetJmp(c: Config, t0: State, now: int, pid: int) returns (t: State)
    requires Watched(c, t0, Try(Reblock), now, pid)
    ensures Watched(c, t, Try(SetJmp), now, pid) && t.w.mask == CallersPlusHandled
    ensures t.g.tries == t0.g.tries && t.g.stderrFd == t0.g.stderrFd
  {
    t := TryGo(c, t0);
    t := TryGo(c, t);
  }

  lemma ToLook(c: Config, t0: State, now: int, pid: int) returns (t: State)
    requires Watched(c, t0, Try(SetJmp), now, pid) && t0.w.mask == CallersPlusHandled
    ensures Watched(c, t, Try(WaitChild), now, pid) && t.w.mask == CallersPlusHandled
    ensures t.g.tries == t0.g.tries && t.g.stderrFd == t0.g.stderrFd
  {
    t := TryGo(c, t0);
  }

  /** A start at its last look at the exit flag, with the pipe it is going to get, and the child under watch. */
  lemma StartAndLook(c: Config, t0: State, now: int, read: int, write: int, pid: int) returns (t: State)
    requires On(c, t0, Run(ExitTest), now) && NoChild(t0) && pid > 0
    requires (read == -1 == write) || (read == 3 && write == 4 && t0.w.open == {})
    ensures Watched(c, t, Try(WaitChild), now, pid) && t.w.mask == CallersPlusHandled
    ensures t.g.tries == t0.g.tries && t.g.stderrFd == read
  {
    t := ToReset(c, t0, now);
    t := ToPipe(c, t, now);
    t := ToFork(c, t, now, read, write);
    t := ToChild(c, t, now, pid);
    t := ToHandlers(c, t, now, pid);
    t := ToWatch(c, t, now, pid);
    t := ToReblock(c, t, now, pid);
    t := ToSetJmp(c, t, now, pid);
    t := ToLook(c, t, now, pid);
  }

  // ----- the first child fails -----

  /** With SIGCHLD waiting behind the mask and the failed child reaped. */
  ghost predicate Failing(c: Config, t: State, pc: Pc) {
    && Suits(c) && Reachable(c, t) && t.pc == pc && t.w.clock == 1 && t.w.alarm == None && t.w.pending == {CHLD}
    && !t.g.exitSignalled && !t.g.restart && !t.g.dolongjmp && t.w.caught == AllHandlers
    && NoChild(t) && t.l.status == Exited(255) && t.g.tries <= 1 && t.g.tries >= 0
  }

  lemma ChildDies(c: Config, t0: State) returns (t: State)
    requires Watched(c, t0, Try(WaitChild), 1, 7) && t0.w.mask == CallersPlusHandled
    requires t0.g.stderrFd == 3 && 0 <= t0.g.tries <= 1
    ensures Failing(c, t, DrainErr(FdTest, FromWait)) && t.w.mask == CallersPlusHandled && t.g.stderrFd == 3
  {
    ReachNext(c, t0, ChildExits(7, Exited(255)));
    t := Next(c, t0, ChildExits(7, Exited(255)));
    t := ChildIsReaped(c, t);
  }

  lemma ChildIsReaped(c: Config, t0: State) returns (t: State)
    requires Suits(c) && Reachable(c, t0) && t0.pc == Try(WaitChild) && t0.w.clock == 1 && t0.w.alarm == None
    requires t0.w.pending == {CHLD} && t0.w.mask == CallersPlusHandled && t0.w.caught == AllHandlers
    requires !t0.g.exitSignalled && !t0.g.restart && !t0.g.dolongjmp && 0 <= t0.g.tries <= 1
    requires t0.g.cchild == 7 && t0.w.children == map[7 := Zombie(Exited(255))] && t0.g.stderrFd == 3
    ensures Failing(c, t, DrainErr(FdTest, FromWait)) && t.w.mask == CallersPlusHandled && t.g.stderrFd == 3
  {
    t := Step(c, t0, Waited(Got));
  }

  lemma FailureIsRead(c: Config, t0: State) returns (t: State)
    requires Failing(c, t0, DrainErr(FdTest, FromWait)) && t0.w.mask == CallersPlusHandled && t0.g.stderrFd == 3
    ensures Failing(c, t, Try(JudgeStatus)) && t.w.mask == CallersPlusHandled && t.g.portFailed
  {
    t := Step(c, t0, Go);
    t := Step(c, t, ReadData(Drain.PortFailed));
  }

  lemma ToRestart(c: Config, t0: State) returns (t: State)
    requires Failing(c, t0, Try(JudgeStatus)) && t0.w.mask == CallersPlusHandled && t0.g.portFailed
    ensures Failing(c, t, Leave(ClearJump, Restart)) && t.g.portFailed
  {
    t := TryGo(c, t0);
    t := Step(c, t, Go);
  }

  /** The mask is back and SIGCHLD is caught, to no effect. */
  lemma SignalIsTaken(c: Config, t0: State) returns (t: State)
    requires Failing(c, t0, Leave(ClearJump, Restart)) && t0.g.portFailed && t0.w.mask == Callers
    ensures On(c, t, Leave(ClearJump, Restart), 1) && NoChild(t) && 0 <= t.g.tries <= 1 && t.g.portFailed
  {
    ReachNext(c, t0, Deliver(CHLD));
    t := Next(c, t0, Deliver(CHLD));
  }

  lemma LeaveTwo(c: Config, t0: State) returns (t: State)
    requires On(c, t0, Leave(ClearJump, Restart), 1) && NoChild(t0) && 0 <= t0.g.tries <= 1 && t0.g.portFailed
    ensures On(c, t, Leave(UninstallHandlers, Restart), 1) && NoChild(t) && 0 <= t.g.tries <= 1 && t.g.portFailed
  {
    t := LeaveGo(c, t0);
    t := LeaveGo(c, t);
  }

  lemma BackToLoop(c: Config, t0: State) returns (t: State)
    requires On(c, t0, Leave(UninstallHandlers, Restart), 1) && NoChild(t0) && 0 <= t0.g.tries <= 1 && t0.g.portFailed
    ensures On(c, t, Run(LoopTest), 1) && NoChild(t) && 0 <= t.g.tries <= 1 && t.g.portFailed
  {
    t := HandlersAreOff(c, t0);
    t := PipeIsClosed(c, t);
    t := LeaveGo(c, t);
  }

  lemma HandlersAreOff(c: Config, t0: State) returns (t: State)
    requires On(c, t0, Leave(UninstallHandlers, Restart), 1) && NoChild(t0) && 0 <= t0.g.tries <= 1 && t0.g.portFailed
    ensures On(c, t, Leave(CloseRead, Restart), 1) && NoChild(t) && 0 <= t.g.tries <= 1 && t.g.portFailed
  {
    t := LeaveGo(c, t0);
  }

  lemma PipeIsClosed(c: Config, t0: State) returns (t: State)
    requires On(c, t0, Leave(CloseRead, Restart), 1) && NoChild(t0) && 0 <= t0.g.tries <= 1 && t0.g.portFailed
    ensures On(c, t, Leave(RetTest, Restart), 1) && NoChild(t) && 0 <= t.g.tries <= 1 && t.g.portFailed
  {
    t := LeaveGo(c, t0);
  }

  lemma FirstChildFails(c: Config, t0: State) returns (t: State)
    requires Watched(c, t0, Try(WaitChild), 1, 7) && t0.w.mask == CallersPlusHandled
    requires t0.g.stderrFd == 3 && 0 <= t0.g.tries <= 1 && ValidConfig(c)
    ensures On(c, t, Run(LoopTest), 1) && NoChild(t) && 0 <= t.g.tries <= 1 && t.g.portFailed
  {
    t := ChildDies(c, t0);
    t := FailureIsRead(c, t);
    t := ToRestart(c, t);
    Theorems.JumpsAreSafe(c, t);
    t := SignalIsTaken(c, t);
    t := LeaveTwo(c, t);
    t := BackToLoop(c, t);
  }

  // ----- the second child is armed too late -----

  lemma ToSecondArming(c: Config, t0: State) returns (t: State)
    requires Suits(c) && ValidConfig(c) && Init(c, t0) && t0.w.clock == 1 && t0.w.pending == {}
    ensures Watched(c, t, Arm(TakeAlarm), 6, 8) && t.g.stderrFd == -1
  {
    t := ToLoop(c, t0);
    t := ToGrace(c, t);
    t := ToPortTest(c, t);
    t := WithoutDelay(c, t);
    t := StartAndLook(c, t, 1, 3, 4, 7);
    t := FirstChildFails(c, t);
    t := ToGrace(c, t);
    t := ToPortTest(c, t);
    t := WithDelay(c, t);
    t := StartAndLook(c, t, 6, -1, -1, 8);
    t := ToArm(c, t, 6, 8);
  }

  lemma ToArm(c: Config, t0: State, now: int, pid: int) returns (t: State)
    requires Watched(c, t0, Try(WaitChild), now, pid) && t0.g.stderrFd == -1
    ensures Watched(c, t, Arm(TakeAlarm), now, pid) && t.g.stderrFd == -1
  {
    t := Step(c, t0, Waited(NotYet));
  }

  lemma ToSetTimer(c: Config, t0: State, now: int, pid: int) returns (t: State)
    requires Watched(c, t0, Arm(TakeAlarm), now, pid) && t0.g.stderrFd == -1
    ensures Suits(c) && Reachable(c, t) && t.pc == Arm(SetTimer) && t.w.clock == now && t.w.pending == {}
    ensures t.w.alarm == None && !t.g.exitSignalled && !t.g.restart && HasChild(t, pid) && t.g.stderrFd == -1
    ensures t.g.secsLeft == SecsToArm(c, 0, c.firstPoll, now) && t.l.myPoll == c.pollTime
  {
    t := ArmGo(c, t0);
    t := ArmGo(c, t);
    t := ArmGo(c, t);
  }

  /** In the wait, with nothing pending and a child that lives. */
  ghost predicate Waits(c: Config, t: State, now: int, pid: int, alarm: Option<int>) {
    && Suits(c) && Reachable(c, t) && t.pc == Poll(InSuspend) && t.w.clock == now && t.w.alarm == alarm
    && t.w.pending == {} && !t.g.exitSignalled && !t.g.restart && HasChild(t, pid) && t.g.stderrFd == -1
    && t.l.myPoll == c.pollTime
  }

  lemma ToWait(c: Config, t0: State, now: int, pid: int) returns (t: State)
    requires Suits(c) && Reachable(c, t0) && t0.pc == Arm(SetTimer) && t0.w.clock == now && t0.w.pending == {}
    requires t0.w.alarm == None && !t0.g.exitSignalled && !t0.g.restart && HasChild(t0, pid) && t0.g.stderrFd == -1
    requires t0.g.secsLeft >= 0 && t0.l.myPoll == c.pollTime
    ensures Waits(c, t, now, pid, SetAlarm(now, t0.g.secsLeft))
  {
    t := ArmGo(c, t0);
    t := ArmGo(c, t);
    t := EnterTheWait(c, t, now, pid);
  }

  lemma EnterTheWait(c: Config, t0: State, now: int, pid: int) returns (t: State)
    requires Suits(c) && Reachable(c, t0) && t0.pc == Poll(EnterWait) && t0.w.clock == now && t0.w.pending == {}
    requires !AlarmDue(t0.w) && !t0.g.exitSignalled && !t0.g.restart && HasChild(t0, pid) && t0.g.stderrFd == -1
    requires t0.l.myPoll == c.pollTime
    ensures Waits(c, t, now, pid, t0.w.alarm)
    ensures t.h == t0.h
  {
    t := Step(c, t0, Go);
  }

  /** The first start, without a pipe, as far as the wait. */
  lemma ToFirstWait(c: Config, t0: State) returns (t: State)
    requires Suits(c) && Init(c, t0) && t0.w.clock == 1 && t0.w.pending == {}
    requires SecsToArm(c, 0, c.firstPoll, 1) >= 0
    ensures Waits(c, t, 1, 7, SetAlarm(1, SecsToArm(c, 0, c.firstPoll, 1)))
  {
    t := ToLoop(c, t0);
    t := ToGrace(c, t);
    t := ToPortTest(c, t);
    t := WithoutDelay(c, t);
    t := StartAndLook(c, t, 1, -1, -1, 7);
    t := ToArm(c, t, 1, 7);
    t := ToSetTimer(c, t, 1, 7);
    t := ToWait(c, t, 1, 7);
  }

  lemma ToSecondWait(c: Config, t0: State) returns (t: State)
    requires Suits(c) && ValidConfig(c) && Init(c, t0) && t0.w.clock == 1 && t0.w.pending == {}
    requires SecsToArm(c, 0, c.firstPoll, 6) >= 0
    ensures Waits(c, t, 6, 8, SetAlarm(6, SecsToArm(c, 0, c.firstPoll, 6)))
  {
    t := ToSecondArming(c, t0);
    t := ToSetTimer(c, t, 6, 8);
    t := ToWait(c, t, 6, 8);
  }

  /** With a valid configuration ssh_watch can wait on a live child at the end of its life with no alarm set or due. */
  lemma WaitWithoutAlarm(t0: State) returns (t: State)
    requires Init(FIVE_SECONDS, t0) && t0.w.clock == 1 && t0.w.pending == {}
    ensures ValidConfig(FIVE_SECONDS)
    ensures Reachable(FIVE_SECONDS, t) && IsWait(t.pc) && t.w.alarm == None && ALRM !in t.w.pending
    ensures t.g.cchild in t.w.children && LifetimeExceeded(FIVE_SECONDS, t.w.clock)
  {
    t := ToSecondWait(FIVE_SECONDS, t0);
  }

  /** And it can wait under an alarm that goes off after the end of life, although there was time left to arm it. */
  lemma WaitPastTheEnd(t0: State) returns (t: State)
    requires Init(LONG_FIRST_POLL, t0) && t0.w.clock == 1 && t0.w.pending == {}
    ensures ValidConfig(LONG_FIRST_POLL) && !LateArm(LONG_FIRST_POLL, t.w.clock)
    ensures Reachable(LONG_FIRST_POLL, t) && IsWait(t.pc) && t.g.cchild in t.w.children
    ensures t.w.alarm.Some? && t.w.alarm.value > TimerSafety.EndOfLife(LONG_FIRST_POLL)
  {
    t := ToSecondWait(LONG_FIRST_POLL, t0);
  }
}
