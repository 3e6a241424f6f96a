/**
 * The supervisor as a transition system: ssh_run, ssh_watch, ssh_wait, ssh_kill, grace_time,
 * check_ssh_stderr and sig_catch, one labelled program point per statement that matters, run against
 * an environment that answers system calls, lets time pass, ends children and raises signals between
 * any two points.
 */
module Supervisor {
  import opened Posix
  import opened WaitPolicy
  import Drain
  import Grace

  /** The configuration ssh_run starts with, and the signal mask its caller left in force. */
  datatype Config = Config(
    maxStart: int,
    pollTime: int,
    firstPoll: int,
    maxLifetime: int,
    maxSession: int,
    gateTime: int,
    pidStart: int,
    monitoring: bool,              // a monitor port is set and a socket is there
    callerMask: set<Signal>,
    zeroTime: bool)                // time passes only in blocking waits, and sleeps are exact

  /** What get_env_args leaves behind. */
  predicate ValidConfig(c: Config) {
    && 1 <= c.pollTime <= I32_MAX
    && 1 <= c.firstPoll <= I32_MAX
    && c.maxLifetime >= 0 && c.maxSession >= 0 && c.gateTime >= 0
  }

  // ----- program points -----

  datatype RunPc =
    | InstallExitHandler | LoopTest | LifetimeTest | ClearRestart | CountStart | ExitTest
    | StampStart | ResetChild | MakePipe | Fork | AdoptPipe | InstallHandlers

  /** ssh_run, once ssh_watch has returned. */
  datatype LeavePc = ClearJump | ClearTimer | UninstallHandlers | CloseRead | RetTest

  datatype GracePc = CountTry | Backoff | BackoffSleep | PortFlagTest | PortSleep | PortFlagClear

  /** ssh_watch down to the end of ssh_wait, which is inlined. */
  datatype TryPc = Enter | SaveMask | Reblock | RestartTest | SetJmp | WaitChild | JudgeStatus

  /** The arming of the alarm, down to the last look at the exit flag. */
  datatype ArmPc = TakeAlarm | ComputeSecs | SetJump | SetTimer | ExitFlagTest

  /** The blocking wait of ssh_watch and what follows a normal return from it. */
  datatype PollPc =
    | EnterWait | InPpoll | InSuspend | LeavePpoll | LeaveSuspend | PollinTest | AfterPollDrain | HangupTest

  /** The branch siglongjmp lands in, and the way out of ssh_watch. */
  datatype CatchPc =
    | Unblock | Dispatch | CatchLifetime | Watchdog | AfterAlarmDrain | EchoTest
    | PortDelay | RestoreMask(rc: Verdict)

  datatype KillPc =
    | CloseFd | ChildTest | SendTerm
    | ReapPoll(waited: int, killed: bool) | ReapSleep(waited: int, killed: bool)
    | SendKill | Abandon

  /** Where ssh_kill returns to: a return from ssh_watch, the port delay, or xerrlog's _exit. */
  datatype After = ThenReturn(rc: Verdict) | ThenPortDelay | ThenHalt

  datatype DrainPc = FdTest | Reading

  /** Where check_ssh_stderr was called from. */
  datatype Caller = FromWait | FromPoll | FromAlarm

  /** How the process ended: ssh_run returned, or something stopped it on the way. */
  datatype End = Returned(rc: Verdict) | Halted | ForcedExit | SignalDeath | WildJump

  datatype Pc =
    | Run(r: RunPc)
    | Leave(q: LeavePc, rc: Verdict)
    | GraceTime(g: GracePc)
    | Try(t: TryPc)
    | Arm(a: ArmPc)
    | Poll(p: PollPc)
    | Catch(x: CatchPc)
    | Kill(k: KillPc, after: After)
    | DrainErr(d: DrainPc, caller: Caller)
    | Done(how: End)

  // ----- state -----

  datatype Globals = Globals(
    cchild: int, stderrFd: int, startCount: int, startTime: int, lastStderr: int, pipeLost: int,
    portFailed: bool, exitSignalled: bool, restart: bool, dolongjmp: bool, tries: int, secsLeft: int)

  datatype Locals = Locals(
    myPoll: int, savedMask: Mask, val: Signal, pollIn: bool, pollHup: bool,
    pipeRead: int, pipeWrite: int, status: Status, fatal: bool)

  /** A sigjmp_buf: the ssh_watch call that filled it and the mask it saved. */
  datatype JmpBuf = JmpBuf(watch: nat, mask: Mask)

  datatype World = World(
    clock: int, alarm: Option<int>, pending: set<Signal>, mask: Mask, caught: Handlers,
    jmp: Option<JmpBuf>, children: map<int, Process>, open: set<int>, wakeAt: int)

  // What happened so far; the behaviour of no step depends on it.

  /** Calls of ssh_watch: how many so far, and whether the latest is still running. */
  datatype FrameLog = FrameLog(watch: nat, live: bool)

  datatype ProcLog = ProcLog(forks: nat, reaped: nat, abandoned: set<int>)

  /** Descriptors handed out by pipe, descriptors closed, and whether a close ever missed. */
  datatype FdLog = FdLog(made: nat, closed: nat, missed: bool)

  /** Forks made with the exit flag set, and whether the flag was set in the fork window. */
  datatype ExitLog = ExitLog(forks: nat, inWindow: bool)

  /** About the current child: birth, successful reads, SIGALRMs caught without a jump and their cost. */
  datatype ChildLog = ChildLog(bornAt: int, readCount: nat, absorbed: nat, slack: int, failTime: Option<int>)

  /**
   * About arming: the deadline taken back and when, when the seconds were computed and when they were armed;
   * whether the lifetime had ever run out by then, and whether the seconds ever went past its end.
   */
  datatype TimerLog = TimerLog(
    prevDeadline: Option<int>, takenAt: int, computedAt: int, armedAt: int, late: bool, overrun: bool)

  datatype History = History(
    frame: FrameLog, procs: ProcLog, fds: FdLog, exits: ExitLog, child: ChildLog, timer: TimerLog,
    starts: seq<Grace.Start>,      // what grace_time was told, start by start
    age: int,                      // of the child that was last judged, when it was
    portSleepAt: int,              // when grace_time last began to wait out a port failure
    killStart: int)

  datatype State = State(pc: Pc, g: Globals, l: Locals, w: World, h: History)

  // ----- environment -----

  /** waitpid's answers. */
  datatype WaitAnswer = NotYet | Got | NoChild | Interrupted | Fault

  datatype EchoAnswer = EchoOk | PortDown | EchoFatal

  datatype Event =
    | Go                                     // the next statement, when it needs no answer
    | PipeMade(read: int, write: int)        // -1, -1 when pipe fails
    | ForkMade(pid: int)                     // -1 when fork fails
    | Waited(answer: WaitAnswer)
    | PpollReturned(pollin: bool, hup: bool)
    | ReadData(finding: Drain.Finding)       // a read returned bytes, classified by Drain.Classify
    | ReadNothing
    | Echoed(echo: EchoAnswer)
    | Raise(sig: Signal)
    | Deliver(sig: Signal)
    | AlarmExpires
    | Tick(seconds: int)
    | ChildExits(pid: int, status: Status)

  predicate IsSleep(pc: Pc) {
    || pc == GraceTime(BackoffSleep) || pc == GraceTime(PortSleep) || pc == Catch(PortDelay)
    || (pc.Kill? && pc.k.ReapSleep?)
  }

  predicate IsWait(pc: Pc) {
    pc == Poll(InPpoll) || pc == Poll(InSuspend)
  }

  predicate AlarmDue(w: World) {
    w.alarm.Some? && w.alarm.value <= w.clock
  }

  /** No signal is waiting to interrupt the code: the next statement may run. */
  predicate Quiet(c: Config, w: World) {
    (forall sig :: sig in w.pending ==> Blocks(c.callerMask, w.mask, sig)) && !AlarmDue(w)
  }

  predicate WaitEnabled(g: Globals, w: World, a: WaitAnswer) {
    match a
    case NotYet => g.cchild in w.children && w.children[g.cchild].Running?
    case Got => g.cchild in w.children && w.children[g.cchild].Zombie?
    case NoChild => g.cchild !in w.children
    case Interrupted => true
    case Fault => true
  }

  /** The system call at a program point, if any, decides which events can be its next step. */
  predicate CodeEnabled(s: State, e: Event) {
    match s.pc
    case Run(MakePipe) =>
      e.PipeMade? && (e == PipeMade(-1, -1) ||
                      (e.read >= 0 && e.write >= 0 && e.read != e.write &&
                       e.read !in s.w.open && e.write !in s.w.open))
    case Run(Fork) => e.ForkMade? && (e.pid == -1 || (e.pid > 0 && e.pid !in s.w.children))
    case Try(WaitChild) => e.Waited? && WaitEnabled(s.g, s.w, e.answer)
    case Poll(InPpoll) => e.PpollReturned?
    case Catch(EchoTest) => e.Echoed?
    case Kill(ReapPoll(_, _), _) => e.Waited? && WaitEnabled(s.g, s.w, e.answer)
    case DrainErr(Reading, _) => e.ReadData? || e.ReadNothing?
    case Done(_) => false
    case _ => e == Go && (IsSleep(s.pc) ==> s.w.clock >= s.w.wakeAt)
  }

  predicate Enabled(c: Config, s: State, e: Event) {
    !s.pc.Done? &&
    match e
    case Raise(_) => true
    case Deliver(sig) => sig in s.w.pending && !Blocks(c.callerMask, s.w.mask, sig)
    case AlarmExpires => AlarmDue(s.w)
    case Tick(n) =>
      && n >= 1 && Quiet(c, s.w)
      && (s.w.alarm.Some? ==> s.w.clock + n <= s.w.alarm.value)
      && (c.zeroTime ==> IsWait(s.pc) || (IsSleep(s.pc) && s.w.clock + n <= s.w.wakeAt))
    case ChildExits(pid, _) => pid in s.w.children && s.w.children[pid].Running?
    case PpollReturned(_, _) => CodeEnabled(s, e) && !AlarmDue(s.w)
    case _ => CodeEnabled(s, e) && Quiet(c, s.w)
  }

  // ----- pieces of steps -----

  function Goto(s: State, pc: Pc): State { s.(pc := pc) }

  function RunAt(s: State, r: RunPc): State { s.(pc := Run(r)) }

  function TryAt(s: State, t: TryPc): State { s.(pc := Try(t)) }

  function ArmAt(s: State, a: ArmPc): State { s.(pc := Arm(a)) }

  function PollAt(s: State, p: PollPc): State { s.(pc := Poll(p)) }

  function CatchAt(s: State, x: CatchPc): State { s.(pc := Catch(x)) }

  /** close(2); closing what is not open is recorded. */
  function Close(s: State, fd: int): State {
    s.(w := s.w.(open := s.w.open - {fd}),
       h := s.h.(fds := FdLog(s.h.fds.made, s.h.fds.closed + 1, s.h.fds.missed || fd !in s.w.open)))
  }

  function Sleep(s: State, seconds: int, pc: Pc): State {
    s.(pc := pc, w := s.w.(wakeAt := s.w.clock + seconds))
  }

  function CallKill(s: State, after: After): State {
    s.(pc := Kill(CloseFd, after), h := s.h.(killStart := s.w.clock))
  }

  function ReturnFromKill(s: State, after: After): State {
    match after
    case ThenReturn(rc) => CatchAt(s, RestoreMask(rc))
    case ThenPortDelay => Sleep(s, Grace.PORT_FWD_FAIL_DELAY, Catch(PortDelay))
    case ThenHalt => Goto(s, Done(Halted))
  }

  function ReturnFromDrain(s: State, caller: Caller, fatal: bool): State {
    s.(l := s.l.(fatal := fatal),
       pc := match caller
             case FromWait => Try(JudgeStatus)
             case FromPoll => Poll(AfterPollDrain)
             case FromAlarm => Catch(AfterAlarmDrain))
  }

  /** A successful waitpid: the zombie is gone from the process table. */
  function Reap(s: State): State {
    s.(w := s.w.(children := s.w.children - {s.g.cchild}),
       h := s.h.(procs := s.h.procs.(reaped := s.h.procs.reaped + 1)))
  }

  /** ssh_kill is through with the child: reaped, already gone, or given up unreaped. */
  function Settle(s: State, answer: WaitAnswer): State {
    s.(g := s.g.(cchild := 0),
       w := if answer.Got? then s.w.(children := s.w.children - {s.g.cchild}) else s.w,
       h := if answer.Got? then s.h.(procs := s.h.procs.(reaped := s.h.procs.reaped + 1))
            else if answer.NoChild? then s.h
            else s.h.(procs := s.h.procs.(abandoned := s.h.procs.abandoned + {s.g.cchild})))
  }

  predicate LifetimeExceeded(c: Config, now: int) {
    c.maxLifetime > 0 && now - c.pidStart >= c.maxLifetime
  }

  function ToShutdown(c: Config, now: int): int {
    c.maxLifetime - (now - c.pidStart)
  }

  /** The lifetime has already run out when the alarm is about to be armed. */
  predicate LateArm(c: Config, now: int) {
    c.maxLifetime > 0 && ToShutdown(c, now) < 1
  }

  /** What is left of the previous alarm, or a whole poll time, within the session limit. */
  function Capped(c: Config, left: int, myPoll: int): int {
    var base := if left == 0 then myPoll else left;
    if c.maxSession > 0 then Min(base, c.maxSession) else base
  }

  /**
   * The alarm about to be armed is for at least a second and fires within the lifetime: there is a second
   * of it left, and either the lifetime cuts the alarm short or what would be armed without it fits anyway.
   */
  predicate ArmsInTime(c: Config, left: int, myPoll: int, now: int) {
    !LateArm(c, now) && (ToShutdown(c, now) < c.pollTime || Capped(c, left, myPoll) <= ToShutdown(c, now))
  }

  predicate Overruns(c: Config, s: State) {
    c.maxLifetime > 0 && !ArmsInTime(c, s.g.secsLeft, s.l.myPoll, s.w.clock)
  }

  /** The seconds ssh_watch passes to alarm, from what was left of the previous alarm. */
  function SecsToArm(c: Config, left: int, myPoll: int, now: int): int {
    var base := if left == 0 then myPoll else left;
    var limited :=
      if c.maxLifetime != 0 && ToShutdown(c, now) < c.pollTime then SaturateI32(ToShutdown(c, now)) else base;
    if c.maxSession > 0 && limited > c.maxSession then SaturateI32(c.maxSession) else limited
  }

  /** alarm(2) with an unsigned argument; 0 cancels. */
  function SetAlarm(clock: int, seconds: int): Option<int> {
    var n := ToU32(seconds);
    if n == 0 then None else Some(clock + n)
  }

  /** What alarm(0) returns: the seconds that were left. */
  function AlarmLeft(w: World): int {
    if w.alarm.Some? then w.alarm.value - w.clock else 0
  }

  // ----- ssh_run -----

  function RunStep(c: Config, s: State, r: RunPc, e: Event): State {
    match r
    case InstallExitHandler =>
      s.(pc := Run(LoopTest), w := s.w.(caught := ExitHandlers))
    case LoopTest =>
      if c.maxStart < 0 || s.g.startCount < c.maxStart
      then RunAt(s, LifetimeTest)
      else Goto(s, Done(Returned(ExitOk)))
    case LifetimeTest =>
      if LifetimeExceeded(c, s.w.clock) then Goto(s, Done(Returned(ExitOk))) else RunAt(s, ClearRestart)
    case ClearRestart =>
      s.(pc := Run(CountStart), g := s.g.(restart := false))
    case CountStart =>
      s.(pc := GraceTime(CountTry), g := s.g.(startCount := s.g.startCount + 1))
    case ExitTest =>
      if s.g.exitSignalled then Goto(s, Done(Returned(ExitErr))) else RunAt(s, StampStart)
    case StampStart =>
      s.(pc := Run(ResetChild), g := s.g.(startTime := s.w.clock))
    case ResetChild =>
      s.(pc := Run(MakePipe), g := s.g.(portFailed := false, pipeLost := 0, lastStderr := 0))
    case MakePipe =>
      if !e.PipeMade? then s
      else if e.read < 0 then s.(pc := Run(Fork), l := s.l.(pipeRead := -1, pipeWrite := -1))
      else s.(pc := Run(Fork), l := s.l.(pipeRead := e.read, pipeWrite := e.write),
              w := s.w.(open := s.w.open + {e.read, e.write}),
              h := s.h.(fds := s.h.fds.(made := s.h.fds.made + 2)))
    case Fork =>
      if !e.ForkMade? then s
      else if e.pid == -1 then
        var a := if s.l.pipeRead >= 0 then Close(s, s.l.pipeRead) else s;
        var b := if s.l.pipeWrite >= 0 then Close(a, s.l.pipeWrite) else a;
        CallKill(b.(g := b.g.(cchild := 0)), ThenHalt)
      else
        s.(pc := Run(AdoptPipe), g := s.g.(cchild := e.pid),
           w := s.w.(children := s.w.children[e.pid := Running]),
           h := s.h.(procs := s.h.procs.(forks := s.h.procs.forks + 1),
                     child := ChildLog(s.w.clock, 0, 0, 0, None),
                     exits := if s.g.exitSignalled then s.h.exits.(forks := s.h.exits.forks + 1) else s.h.exits))
    case AdoptPipe =>
      var a := if s.l.pipeWrite >= 0 then Close(s, s.l.pipeWrite) else s;
      a.(pc := Run(InstallHandlers), g := a.g.(stderrFd := a.l.pipeRead))
    case InstallHandlers =>
      s.(pc := Try(Enter), w := s.w.(caught := AllHandlers))
  }

  function LeaveStep(s: State, q: LeavePc, rc: Verdict): State {
    match q
    case ClearJump => s.(pc := Leave(ClearTimer, rc), g := s.g.(dolongjmp := false))
    case ClearTimer => s.(pc := Leave(UninstallHandlers, rc), w := s.w.(alarm := None))
    case UninstallHandlers => s.(pc := Leave(CloseRead, rc), w := s.w.(caught := ExitHandlers))
    case CloseRead =>
      if s.g.stderrFd >= 0
      then var a := Close(s, s.g.stderrFd); a.(pc := Leave(RetTest, rc), g := a.g.(stderrFd := -1))
      else Goto(s, Leave(RetTest, rc))
    case RetTest =>
      if rc == ExitOk || rc == ExitErr then Goto(s, Done(Returned(rc))) else RunAt(s, LoopTest)
  }

  // ----- grace_time -----

  function GraceStep(c: Config, s: State, g: GracePc): State {
    match g
    case CountTry =>
      s.(pc := GraceTime(Backoff), g := s.g.(tries := Grace.CountTry(s.g.tries, s.w.clock, s.g.startTime, c.pollTime)),
         h := s.h.(starts := s.h.starts + [Grace.Start(s.w.clock, s.g.startTime)]))
    case Backoff =>
      var n := Grace.Interval(c.pollTime, s.g.tries);
      if n > 0 then Sleep(s, n, GraceTime(BackoffSleep)) else Goto(s, GraceTime(PortFlagTest))
    case BackoffSleep => Goto(s, GraceTime(PortFlagTest))
    case PortFlagTest =>
      if s.g.portFailed
      then Sleep(s.(h := s.h.(portSleepAt := s.w.clock)), Grace.PORT_FWD_FAIL_DELAY, GraceTime(PortSleep))
      else RunAt(s, ExitTest)
    case PortSleep => Goto(s, GraceTime(PortFlagClear))
    case PortFlagClear => s.(pc := Run(ExitTest), g := s.g.(portFailed := false))
  }

  // ----- ssh_watch, the TRY branch (ssh_wait inlined) -----

  function TryStep(c: Config, s: State, t: TryPc, e: Event): State {
    match t
    case Enter =>
      s.(pc := Try(SaveMask), l := s.l.(myPoll := c.firstPoll),
         h := s.h.(frame := FrameLog(s.h.frame.watch + 1, true)))
    case SaveMask =>
      s.(pc := Try(Reblock), l := s.l.(savedMask := s.w.mask), w := s.w.(mask := CallersPlusHandled))
    case Reblock => s.(pc := Try(RestartTest), w := s.w.(mask := CallersPlusHandled))
    case RestartTest => if s.g.restart then CallKill(s, ThenReturn(Restart)) else TryAt(s, SetJmp)
    case SetJmp => s.(pc := Try(WaitChild), w := s.w.(jmp := Some(JmpBuf(s.h.frame.watch, s.w.mask))))
    case WaitChild =>
      if e == Waited(Got) && s.g.cchild in s.w.children && s.w.children[s.g.cchild].Zombie?
      then Goto(Reap(s.(l := s.l.(status := s.w.children[s.g.cchild].status))), DrainErr(FdTest, FromWait))
      else ArmAt(s, TakeAlarm)
    case JudgeStatus =>
      var v := Judge(s.l.status, s.g.startCount, c.gateTime, s.w.clock - s.g.startTime);
      var a := s.(h := s.h.(age := s.w.clock - s.g.startTime));
      if v == Continue then ArmAt(a, TakeAlarm) else CatchAt(a, RestoreMask(v))
  }

  function ArmStep(c: Config, s: State, a: ArmPc): State {
    match a
    case TakeAlarm =>
      s.(pc := Arm(ComputeSecs), g := s.g.(secsLeft := ToI32(AlarmLeft(s.w))),
         w := s.w.(alarm := None),
         h := s.h.(timer := s.h.timer.(prevDeadline := s.w.alarm, takenAt := s.w.clock)))
    case ComputeSecs =>
      s.(pc := Arm(SetJump), g := s.g.(secsLeft := SecsToArm(c, s.g.secsLeft, s.l.myPoll, s.w.clock)),
         l := s.l.(myPoll := c.pollTime),
         h := s.h.(timer := s.h.timer.(computedAt := s.w.clock,
                                       late := s.h.timer.late || LateArm(c, s.w.clock),
                                       overrun := s.h.timer.overrun || Overruns(c, s))))
    case SetJump => s.(pc := Arm(SetTimer), g := s.g.(dolongjmp := true))
    case SetTimer =>
      s.(pc := Arm(ExitFlagTest), w := s.w.(alarm := SetAlarm(s.w.clock, s.g.secsLeft)),
         h := s.h.(timer := s.h.timer.(armedAt := s.w.clock)))
    case ExitFlagTest =>
      if s.g.exitSignalled then CallKill(s.(g := s.g.(dolongjmp := false)), ThenReturn(ExitErr))
      else PollAt(s, EnterWait)
  }

  // ----- ssh_watch, the blocking wait -----

  function PollStep(s: State, p: PollPc, e: Event): State {
    match p
    case EnterWait =>
      s.(pc := Poll(if s.g.stderrFd >= 0 then InPpoll else InSuspend), w := s.w.(mask := s.l.savedMask))
    case InPpoll =>
      if !e.PpollReturned? then s
      else s.(pc := Poll(LeavePpoll), l := s.l.(pollIn := e.pollin, pollHup := e.hup),
              w := s.w.(mask := CallersPlusHandled))
    case InSuspend => s.(pc := Poll(LeaveSuspend), w := s.w.(mask := CallersPlusHandled))
    case LeavePpoll => s.(pc := Poll(PollinTest), g := s.g.(dolongjmp := false))
    case LeaveSuspend => s.(pc := Try(Reblock), g := s.g.(dolongjmp := false))
    case PollinTest => if s.l.pollIn then Goto(s, DrainErr(FdTest, FromPoll)) else PollAt(s, HangupTest)
    case AfterPollDrain => if s.l.fatal then CallKill(s, ThenPortDelay) else PollAt(s, HangupTest)
    case HangupTest =>
      if s.l.pollHup && !s.l.pollIn then
        var a := Close(s, s.g.stderrFd);
        a.(pc := Try(Reblock), g := a.g.(stderrFd := -1,
                                         pipeLost := if a.g.pipeLost == 0 then a.w.clock else a.g.pipeLost))
      else TryAt(s, Reblock)
  }

  // ----- ssh_watch, the CATCH branch and the way out -----

  predicate PipeLostTooLong(c: Config, s: State) {
    c.maxSession > 0 && s.g.pipeLost != 0 && s.w.clock - s.g.pipeLost >= c.maxSession
  }

  predicate SilentTooLong(c: Config, s: State) {
    c.maxSession > 0 && s.g.lastStderr == 0 && s.w.clock - s.g.startTime >= c.maxSession
  }

  function CatchStep(c: Config, s: State, x: CatchPc, e: Event): State {
    match x
    case Unblock => s.(pc := Catch(Dispatch), w := s.w.(mask := s.l.savedMask))
    case Dispatch =>
      if IsExitSignal(s.l.val) then CallKill(s, ThenReturn(ExitErr))
      else if s.l.val == ALRM then CatchAt(s, CatchLifetime)
      else TryAt(s, Reblock)
    case CatchLifetime =>
      if LifetimeExceeded(c, s.w.clock) then CallKill(s, ThenReturn(ExitOk)) else CatchAt(s, Watchdog)
    case Watchdog =>
      if PipeLostTooLong(c, s) || SilentTooLong(c, s) then CallKill(s, ThenReturn(Restart))
      else Goto(s, DrainErr(FdTest, FromAlarm))
    case AfterAlarmDrain => if s.l.fatal then CallKill(s, ThenPortDelay) else CatchAt(s, EchoTest)
    case EchoTest =>
      if c.monitoring && e == Echoed(PortDown) then CallKill(s, ThenReturn(Restart))
      else if c.monitoring && e == Echoed(EchoFatal) then CallKill(s, ThenHalt)
      else TryAt(s, Reblock)
    case PortDelay => CatchAt(s, RestoreMask(Restart))
    case RestoreMask(rc) =>
      s.(pc := Leave(ClearJump, rc), w := s.w.(mask := s.l.savedMask), h := s.h.(frame := s.h.frame.(live := false)))
  }

  // ----- ssh_kill and reap_with_grace -----

  const SIGTERM_GRACE: int := 2
  const SIGKILL_WAIT: int := 2

  /** The top of reap_with_grace's loop, and what follows when its seconds are used up. */
  function ReapLoop(s: State, waited: int, killed: bool, after: After): State {
    if waited < (if killed then SIGKILL_WAIT else SIGTERM_GRACE) then Goto(s, Kill(ReapPoll(waited, killed), after))
    else Goto(s, Kill(if killed then Abandon else SendKill, after))
  }

  function KillStep(s: State, k: KillPc, after: After, e: Event): State {
    match k
    case CloseFd =>
      if s.g.stderrFd >= 0
      then var a := Close(s, s.g.stderrFd); a.(pc := Kill(ChildTest, after), g := a.g.(stderrFd := -1))
      else Goto(s, Kill(ChildTest, after))
    case ChildTest => if s.g.cchild == 0 then ReturnFromKill(s, after) else Goto(s, Kill(SendTerm, after))
    case SendTerm => ReapLoop(s, 0, false, after)
    case ReapPoll(waited, killed) =>
      if !e.Waited? then s
      else if e.answer.NotYet? || e.answer.Interrupted? then Sleep(s, 1, Kill(ReapSleep(waited, killed), after))
      else ReturnFromKill(Settle(s, e.answer), after)
    case ReapSleep(waited, killed) => ReapLoop(s, waited + 1, killed, after)
    case SendKill => ReapLoop(s, 0, true, after)
    case Abandon => ReturnFromKill(Settle(s, Fault), after)
  }

  // ----- check_ssh_stderr -----

  function DrainStep(s: State, d: DrainPc, caller: Caller, e: Event): State {
    match d
    case FdTest =>
      if s.g.stderrFd < 0 then ReturnFromDrain(s, caller, false) else Goto(s, DrainErr(Reading, caller))
    case Reading =>
      if !e.ReadData? then ReturnFromDrain(s, caller, false) else
        var a := s.(g := s.g.(lastStderr := s.w.clock,
                              portFailed := s.g.portFailed || e.finding == Drain.PortFailed),
                    h := s.h.(child := s.h.child.(
                      readCount := s.h.child.readCount + 1,
                      failTime := if e.finding == Drain.PortFailed then Some(s.w.clock) else s.h.child.failTime)));
        if e.finding == Drain.Nothing then a else ReturnFromDrain(a, caller, true)
  }

  /** The plainer parts of the program: ssh_run after ssh_watch, grace_time and check_ssh_stderr. */
  predicate IsPlain(pc: Pc) {
    pc.Leave? || pc.GraceTime? || pc.DrainErr?
  }

  function PlainStep(c: Config, s: State, e: Event): State {
    match s.pc
    case Leave(q, rc) => LeaveStep(s, q, rc)
    case GraceTime(g) => GraceStep(c, s, g)
    case DrainErr(d, caller) => DrainStep(s, d, caller, e)
    case _ => s
  }

  function CodeStep(c: Config, s: State, e: Event): State {
    match s.pc
    case Run(r) => RunStep(c, s, r, e)
    case Try(t) => TryStep(c, s, t, e)
    case Arm(a) => ArmStep(c, s, a)
    case Poll(p) => PollStep(s, p, e)
    case Catch(x) => CatchStep(c, s, x, e)
    case Kill(k, after) => KillStep(s, k, after, e)
    case _ => PlainStep(c, s, e)
  }

  // ----- signals -----

  /** The points between the last look at the exit flag and the fork it guards. */
  predicate InForkWindow(pc: Pc) {
    pc.Run? && (pc.r == StampStart || pc.r == ResetChild || pc.r == MakePipe || pc.r == Fork)
  }

  /** siglongjmp is legitimate only into the ssh_watch call that is still running. */
  predicate CanLand(s: State) {
    s.w.jmp.Some? && s.h.frame.live && s.w.jmp.value.watch == s.h.frame.watch
  }

  /** The flags sig_catch leaves; a jump clears dolongjmp, and without one it is clear already. */
  function CaughtFlags(g: Globals, sig: Signal): Globals {
    g.(restart := g.restart || sig == USR1, exitSignalled := g.exitSignalled || IsExitSignal(sig), dolongjmp := false)
  }

  function CaughtLog(c: Config, s: State, sig: Signal): History {
    s.h.(exits := if IsExitSignal(sig) then s.h.exits.(inWindow := InForkWindow(s.pc)) else s.h.exits,
         child := if sig == ALRM && !s.g.dolongjmp
                  then s.h.child.(absorbed := s.h.child.absorbed + 1,
                                  slack := s.h.child.slack + Min(c.pollTime, c.maxSession))
                  else s.h.child)
  }

  /** sig_catch: a second exit signal ends the process, a set dolongjmp jumps, and a sleep ends early. */
  function Handler(c: Config, s: State, sig: Signal): State {
    var g, h := CaughtFlags(s.g, sig), CaughtLog(c, s, sig);
    if IsExitSignal(sig) && s.g.exitSignalled then Goto(s, Done(ForcedExit))
    else if !s.g.dolongjmp then
      State(s.pc, g, s.l, s.w.(wakeAt := if IsSleep(s.pc) then s.w.clock else s.w.wakeAt), h)
    else if CanLand(s) then
      State(Catch(Unblock), g, s.l.(val := sig), s.w.(mask := s.w.jmp.value.mask), h)
    else State(Done(WildJump), g, s.l, s.w, h)
  }

  function DeliverStep(c: Config, s: State, sig: Signal): State {
    var a := s.(w := s.w.(pending := s.w.pending - {sig}));
    if Catches(s.w.caught, sig) then Handler(c, a, sig)
    else if sig == CHLD then a
    else Goto(a, Done(SignalDeath))
  }

  // ----- the whole system -----

  predicate IsEnvironment(e: Event) {
    e.Raise? || e.Deliver? || e.AlarmExpires? || e.Tick? || e.ChildExits?
  }

  /** What the environment does apart from delivering a signal. */
  function WorldStep(s: State, e: Event): State {
    match e
    case Raise(sig) => s.(w := s.w.(pending := s.w.pending + {sig}))
    case AlarmExpires => s.(w := s.w.(pending := s.w.pending + {ALRM}, alarm := None))
    case Tick(n) => s.(w := s.w.(clock := s.w.clock + n))
    case ChildExits(pid, status) =>
      s.(w := s.w.(children := s.w.children[pid := Zombie(status)], pending := s.w.pending + {CHLD}))
    case _ => s
  }

  function Next(c: Config, s: State, e: Event): State {
    if e.Deliver? then DeliverStep(c, s, e.sig)
    else if IsEnvironment(e) then WorldStep(s, e)
    else CodeStep(c, s, e)
  }

  /** ssh_run is entered with the globals' initial values and a clock past the epoch. */
  predicate Init(c: Config, s: State) {
    && s.pc == Run(InstallExitHandler)
    && s.g == Globals(0, -1, 0, 0, 0, 0, false, false, false, false, 0, 0)
    && s.w.clock > 0 && s.w.alarm == None && s.w.mask == Callers && s.w.caught == NoHandlers
    && s.w.jmp == None && s.w.children == map[] && s.w.open == {}
    && s.h == History(FrameLog(0, false), ProcLog(0, 0, {}), FdLog(0, 0, false), ExitLog(0, false),
                      ChildLog(0, 0, 0, 0, None), TimerLog(None, 0, 0, 0, false, false), [], 0, 0, 0)
  }

  /** The state after a sequence of events, if each is enabled in turn. */
  function Exec(c: Config, s: State, run: seq<Event>): Option<State>
    decreases |run|
  {
    if run == [] then Some(s) else
      var before := Exec(c, s, run[..|run| - 1]);
      if before.Some? && Enabled(c, before.value, run[|run| - 1])
      then Some(Next(c, before.value, run[|run| - 1]))
      else None
  }

  /** `t` can be reached from the start by some interleaving of code and environment. */
  ghost predicate Reachable(c: Config, t: State) {
    exists s, run :: Init(c, s) && Exec(c, s, run) == Some(t)
  }

  lemma ExecNext(c: Config, s: State, run: seq<Event>, t: State, e: Event)
    requires Exec(c, s, run) == Some(t) && Enabled(c, t, e)
    ensures Exec(c, s, run + [e]) == Some(Next(c, t, e))
  {
    assert (run + [e])[..|run + [e]| - 1] == run;
  }

  lemma ReachNext(c: Config, t: State, e: Event)
    requires Reachable(c, t) && Enabled(c, t, e)
    ensures Reachable(c, Next(c, t, e))
  {
    var s, run :| Init(c, s) && Exec(c, s, run) == Some(t);
    ExecNext(c, s, run, t, e);
  }
}
