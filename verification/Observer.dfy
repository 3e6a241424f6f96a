/**
 * A bystander to a run of the supervisor. It sees each event and the state it happens in, knows what the
 * manual and the comments promise, and keeps its own account of what has to follow. It has no part in the
 * steps themselves.
 */
module Observer {
  import opened Posix
  import opened WaitPolicy
  import opened Supervisor
  import Drain
  import Grace

  /**
   * What is to become of the child, or of autossh: nothing yet; ssh_watch or ssh_run is to return; ssh_watch is to
   * let the port go and then to return Restart; or the process is to halt.
   */
  datatype Sentence = Free | Ends(rc: Verdict) | EndsAfterDelay | Halts

  /** A child's end, as waitpid reported it to ssh_wait: which start it was, and how old it was when judged. */
  datatype Judged = Judged(status: Status, starts: nat, age: int)

  /**
   * The bystander's own record of what theorems are stated in terms of: births, the latest child's birth, SIGALRMs
   * lost and port failure read since, what grace_time was told, and whether the alarm was ever armed too late
   * or past the end of life.
   */
  datatype Record = Record(
    births: nat, bornAt: int, lost: nat, failedAt: Option<int>, begun: seq<Grace.Start>, late: bool, overrun: bool)

  datatype Obs = Obs(
    exit: bool, usr1: bool,                     // signals caught, and not yet acted on in full
    starts: nat, startedAt: int,                // starts counted, and when the latest was
    woke: Signal, due: nat,                     // what ended the latest wait, and checks still to make for it
    heard: bool, unread: bool, more: bool,      // anything read from this child; data reported, or likely, unread
    hup: bool, lostAt: int,                     // a hang-up just reported; when this child's pipe was lost
    first: bool,                                // nothing armed yet in this ssh_watch
    reaped: Option<Status>, judged: Option<Judged>,
    term: bool, kill: bool, misses: nat,        // signals sent in this ssh_kill, and polls since the latest
    sentence: Sentence, log: Record)

  const NOTHING_YET: Obs :=
    Obs(false, false, 0, 0, QUIT, 0, false, false, false, false, 0, false, None, None, false, false, 0, Free,
        Record(0, 0, 0, None, [], false, false))

  // ----- signals -----

  function ExitAfter(o: Obs, s: State, e: Event): bool {
    o.exit || ((e == Deliver(TERM) || e == Deliver(INT)) && s.w.caught != NoHandlers)
  }

  function Usr1After(o: Obs, s: State, e: Event): bool {
    if e == Deliver(USR1) then o.usr1 || s.w.caught == AllHandlers
    else o.usr1 && !(s.pc == Run(ClearRestart) && e == Go)
  }

  function WokeAfter(o: Obs, s: State, e: Event): Signal {
    if e.Deliver? && IsWait(s.pc) then e.sig else o.woke
  }

  // ----- starts -----

  function StartsAfter(o: Obs, s: State, e: Event): nat {
    if s.pc == Run(CountStart) && e == Go then o.starts + 1 else o.starts
  }

  function StartedAfter(o: Obs, s: State, e: Event): int {
    if s.pc == Run(StampStart) && e == Go then s.w.clock else o.startedAt
  }

  predicate IsBirth(s: State, e: Event) {
    s.pc == Run(Fork) && e.ForkMade? && e.pid != -1
  }

  // ----- what an alarm calls for: the lifetime, the watchdog, the stderr and the echo test -----

  function DueAfter(o: Obs, s: State, e: Event): nat {
    if e.Deliver? && IsWait(s.pc) then (if e.sig == ALRM then 4 else 0)
    else if IsBirth(s, e) then 0
    else if IsEnvironment(e) then o.due
    else if s.pc == Catch(CatchLifetime) && o.due == 4 then 3
    else if s.pc == Catch(Watchdog) && o.due == 3 then 2
    else if s.pc == DrainErr(FdTest, FromAlarm) && o.due == 2 then 1
    else if s.pc == Catch(EchoTest) && o.due == 1 then 0
    else o.due
  }

  // ----- the child's stderr -----

  predicate IsRead(s: State, e: Event) {
    s.pc.DrainErr? && s.pc.d.Reading? && (e.ReadData? || e.ReadNothing?)
  }

  function HeardAfter(o: Obs, s: State, e: Event): bool {
    if s.pc == Run(ResetChild) && e == Go then false else o.heard || (IsRead(s, e) && e.ReadData?)
  }

  function UnreadAfter(o: Obs, s: State, e: Event): bool {
    if s.pc == Poll(InPpoll) && e.PpollReturned? then e.pollin else o.unread && !IsRead(s, e)
  }

  /** A read that brought data with nothing in it is followed by another. */
  function MoreAfter(o: Obs, s: State, e: Event): bool {
    if IsRead(s, e) then e == ReadData(Drain.Nothing) else o.more
  }

  function HupAfter(o: Obs, s: State, e: Event): bool {
    if s.pc == Poll(InPpoll) && e.PpollReturned? then e.hup && !e.pollin
    else o.hup && !(s.pc == Try(Reblock) && e == Go) && !IsBirth(s, e)
  }

  function LostAfter(o: Obs, s: State, e: Event): int {
    if s.pc == Run(ResetChild) && e == Go then 0
    else if s.pc == Poll(HangupTest) && e == Go && o.hup && o.lostAt == 0 then s.w.clock
    else o.lostAt
  }

  function FreshAfter(o: Obs, s: State, e: Event): bool {
    if s.pc == Try(Enter) && e == Go then true
    else o.first && !(s.pc == Arm(ComputeSecs) && e == Go)
  }

  // ----- the child's end -----

  /** The status is the one in the process table. */
  function ReapedAfter(o: Obs, s: State, e: Event): Option<Status> {
    if IsBirth(s, e) then None
    else if s.pc == Try(WaitChild) && e == Waited(Got) && s.g.cchild in s.w.children && s.w.children[s.g.cchild].Zombie?
    then Some(s.w.children[s.g.cchild].status)
    else o.reaped
  }

  function JudgedAfter(o: Obs, s: State, e: Event): Option<Judged> {
    if IsBirth(s, e) then None
    else if s.pc == Try(JudgeStatus) && e == Go && o.reaped.Some?
    then Some(Judged(o.reaped.value, o.starts, s.w.clock - o.startedAt))
    else o.judged
  }

  // ----- ssh_kill -----

  function TermAfter(o: Obs, s: State, e: Event): bool {
    if s.pc.Kill? && s.pc.k.CloseFd? && e == Go then false
    else o.term || (s.pc.Kill? && s.pc.k.SendTerm? && e == Go)
  }

  function KillAfter(o: Obs, s: State, e: Event): bool {
    if s.pc.Kill? && s.pc.k.CloseFd? && e == Go then false
    else o.kill || (s.pc.Kill? && s.pc.k.SendKill? && e == Go)
  }

  function MissesAfter(o: Obs, s: State, e: Event): nat {
    if s.pc.Kill? && (s.pc.k.SendTerm? || s.pc.k.SendKill?) && e == Go then 0
    else if s.pc.Kill? && s.pc.k.ReapPoll? && (e == Waited(NotYet) || e == Waited(Interrupted)) then o.misses + 1
    else o.misses
  }

  // ----- the sentence -----

  /** Lifetime over, as the manual puts it: that many seconds have passed. */
  predicate LifeIsOver(c: Config, now: int) {
    c.maxLifetime > 0 && c.pidStart + c.maxLifetime <= now
  }

  /** A session limit has passed since the pipe was lost, or since the start with nothing ever heard. */
  predicate LooksStuck(c: Config, o: Obs, now: int) {
    c.maxSession > 0 &&
    (|| (o.lostAt != 0 && o.lostAt + c.maxSession <= now)
     || (!o.heard && o.startedAt + c.maxSession <= now))
  }

  function SentenceAfter(c: Config, o: Obs, s: State, e: Event): Sentence {
    if IsEnvironment(e) then o.sentence
    else match s.pc
      case Run(r) =>
        if r.LoopTest? then (if 0 <= c.maxStart <= o.starts then Ends(ExitOk) else Free)
        else if r.LifetimeTest? && LifeIsOver(c, s.w.clock) then Ends(ExitOk)
        else if r.ExitTest? && o.exit then Ends(ExitErr)
        else if r.Fork? && e == ForkMade(-1) then Halts
        else o.sentence
      case Try(t) =>
        if t.RestartTest? && o.usr1 then Ends(Restart)
        else if t.JudgeStatus? && o.reaped.Some?
        then Ends(Judge(o.reaped.value, o.starts, c.gateTime, s.w.clock - o.startedAt))
        else o.sentence
      case Arm(a) => if a.ExitFlagTest? && o.exit then Ends(ExitErr) else o.sentence
      case Catch(x) =>
        if x.Dispatch? && (o.woke == TERM || o.woke == INT) then Ends(ExitErr)
        else if x.CatchLifetime? && LifeIsOver(c, s.w.clock) then Ends(ExitOk)
        else if x.Watchdog? && LooksStuck(c, o, s.w.clock) then Ends(Restart)
        else if x.EchoTest? && c.monitoring && e == Echoed(PortDown) then Ends(Restart)
        else if x.EchoTest? && c.monitoring && e == Echoed(EchoFatal) then Halts
        else if x.PortDelay? && o.sentence == EndsAfterDelay then Ends(Restart)
        else o.sentence
      case DrainErr(d, caller) =>
        if d.Reading? && e.ReadData? && e.finding != Drain.Nothing && caller != FromWait then EndsAfterDelay
        else o.sentence
      case _ => o.sentence
  }

  // ----- the record -----

  /** SIGALRM caught anywhere but in the wait. */
  predicate LosesAlarm(s: State, e: Event) {
    e == Deliver(ALRM) && s.w.caught == AllHandlers && !IsWait(s.pc)
  }

  predicate ArmsLate(c: Config, s: State, e: Event) {
    s.pc == Arm(ComputeSecs) && e == Go && LifeIsOver(c, s.w.clock)
  }

  /** What is armed is not for at least a second, or not over by the end of life. */
  predicate ArmsPastTheEnd(c: Config, s: State, e: Event) {
    s.pc == Arm(ComputeSecs) && e == Go && c.maxLifetime > 0 &&
    var secs := SecsToArm(c, s.g.secsLeft, s.l.myPoll, s.w.clock);
    !(1 <= secs && s.w.clock + secs <= c.pidStart + c.maxLifetime)
  }

  function RecordAfter(c: Config, o: Obs, s: State, e: Event): Record {
    var r := o.log;
    if IsBirth(s, e) then r.(births := r.births + 1, bornAt := s.w.clock, lost := 0, failedAt := None)
    else if LosesAlarm(s, e) then r.(lost := r.lost + 1)
    else if IsRead(s, e) && e == ReadData(Drain.PortFailed) then r.(failedAt := Some(s.w.clock))
    else if s.pc == GraceTime(CountTry) && e == Go
    then r.(begun := r.begun + [Grace.Start(s.w.clock, o.startedAt)])
    else r.(late := r.late || ArmsLate(c, s, e), overrun := r.overrun || ArmsPastTheEnd(c, s, e))
  }

  // ----- a whole run -----

  function Observe(c: Config, o: Obs, s: State, e: Event): Obs {
    Obs(ExitAfter(o, s, e), Usr1After(o, s, e), StartsAfter(o, s, e), StartedAfter(o, s, e),
        WokeAfter(o, s, e), DueAfter(o, s, e), HeardAfter(o, s, e), UnreadAfter(o, s, e), MoreAfter(o, s, e),
        HupAfter(o, s, e), LostAfter(o, s, e), FreshAfter(o, s, e), ReapedAfter(o, s, e), JudgedAfter(o, s, e),
        TermAfter(o, s, e), KillAfter(o, s, e), MissesAfter(o, s, e), SentenceAfter(c, o, s, e),
        RecordAfter(c, o, s, e))
  }

  function Observed(c: Config, s: State, run: seq<Event>): Obs
    requires Exec(c, s, run).Some?
    decreases |run|
  {
    if run == [] then NOTHING_YET else
      var front := run[..|run| - 1];
      Observe(c, Observed(c, s, front), Exec(c, s, front).value, run[|run| - 1])
  }

  /** Some run leads to `t`, and this is the account of it. */
  ghost predicate Seen(c: Config, t: State, o: Obs) {
    exists s, run :: Init(c, s) && Exec(c, s, run) == Some(t) && Observed(c, s, run) == o
  }
}
