/**
 * Two runs in which SIGHUP wakes ssh_watch: in one the alarm it arms again is later than the one it took
 * back, in the other the SIGALRM that comes meanwhile is lost.
 */
module LostAlarm {
  import opened Posix
  import opened Supervisor
  import opened LateAlarm
  import ProcessSafety
  import Silence
  import Theorems

  /** A lifetime of fifteen seconds and poll times of ten. */
  const FIFTEEN_SECONDS: Config := Config(-1, 10, 10, 15, 0, 0, 1, false, {}, true)

  /** A session limit of one second and poll times of one. */
  const ONE_SECOND: Config := Config(-1, 1, 1, 0, 1, 0, 1, false, {}, true)

  /** Awake in ssh_watch, with `pending` raised and the child still there. */
  ghost predicate Awake(c: Config, t: State, pc: Pc, now: int, alarm: Option<int>, pending: set<Signal>) {
    && Suits(c) && Reachable(c, t) && t.pc == pc && t.w.clock == now && t.w.alarm == alarm
    && t.w.pending == pending && !t.g.exitSignalled && !t.g.restart && HasChild(t, 7) && t.g.stderrFd == -1
    && t.l.myPoll == c.pollTime
  }

  // ----- SIGHUP -----

  lemma Hangup(c: Config, t0: State, now: int, alarm: int) returns (t: State)
    requires Waits(c, t0, now, 7, Some(alarm))
    ensures Reachable(c, t) && t == t0.(w := t0.w.(pending := {HUP}))
  {
    ReachNext(c, t0, Raise(HUP));
    t := Next(c, t0, Raise(HUP));
  }

  lemma WaitIsOpen(c: Config, t: State)
    requires ValidConfig(c) && Reachable(c, t) && IsWait(t.pc)
    ensures t.w.mask == Callers && t.w.caught == AllHandlers && t.g.dolongjmp && CanLand(t)
    ensures t.w.jmp.value.mask == CallersPlusHandled
  {
    Theorems.ReachableInv(c, t);
  }

  /** The jump out of the wait. */
  lemma WokenUp(c: Config, t0: State, now: int, alarm: int) returns (t: State)
    requires Waits(c, t0, now, 7, Some(alarm))
    ensures Awake(c, t, Catch(Unblock), now, Some(alarm), {}) && t.l.val == HUP && t.w.mask == CallersPlusHandled
    ensures t.w.caught == AllHandlers && t.h.child.bornAt == t0.h.child.bornAt
  {
    t := Hangup(c, t0, now, alarm);
    WaitIsOpen(c, t);
    ReachNext(c, t, Deliver(HUP));
    t := Next(c, t, Deliver(HUP));
  }

  lemma CatchGo(c: Config, t: State) returns (u: State)
    requires Reachable(c, t) && Quiet(c, t.w) && t.pc.Catch? && !t.pc.x.EchoTest? && !t.pc.x.PortDelay?
    ensures u == CatchStep(c, t, t.pc.x, Go) && Reachable(c, u)
  {
    u := Step(c, t, Go);
  }

  lemma Unblocked(c: Config, t0: State, now: int, alarm: Option<int>, pending: set<Signal>) returns (t: State)
    requires Awake(c, t0, Catch(Unblock), now, alarm, pending) && t0.l.val == HUP && Quiet(c, t0.w)
    ensures Awake(c, t, Catch(Dispatch), now, alarm, pending) && t.l.val == HUP && t.h.child.bornAt == t0.h.child.bornAt
    ensures t.w.caught == t0.w.caught
  {
    t := CatchGo(c, t0);
  }

  /** SIGHUP itself asks for nothing. */
  lemma BackToTop(c: Config, t0: State, now: int, alarm: Option<int>) returns (t: State)
    requires Awake(c, t0, Catch(Dispatch), now, alarm, {}) && t0.l.val == HUP && Quiet(c, t0.w)
    ensures Awake(c, t, Try(Reblock), now, alarm, {}) && t.h.child.bornAt == t0.h.child.bornAt
  {
    t := CatchGo(c, t0);
  }

  // ----- round the loop again -----

  lemma RoundAgain(c: Config, t0: State, now: int, alarm: Option<int>) returns (t: State)
    requires Awake(c, t0, Try(Reblock), now, alarm, {}) && Quiet(c, t0.w)
    ensures Awake(c, t, Try(SetJmp), now, alarm, {}) && t.h.child.bornAt == t0.h.child.bornAt
  {
    t := TryGo(c, t0);
    t := TryGo(c, t);
  }

  lemma LookAgain(c: Config, t0: State, now: int, alarm: Option<int>) returns (t: State)
    requires Awake(c, t0, Try(SetJmp), now, alarm, {}) && Quiet(c, t0.w)
    ensures Awake(c, t, Arm(TakeAlarm), now, alarm, {}) && t.h.child.bornAt == t0.h.child.bornAt
  {
    t := TryGo(c, t0);
    t := Step(c, t, Waited(NotYet));
  }

  /** What is left of the alarm decides what is armed; `prev` is the deadline it was taken back from. */
  lemma Recompute(c: Config, t0: State, now: int, alarm: Option<int>) returns (t: State)
    requires Awake(c, t0, Arm(TakeAlarm), now, alarm, {}) && Quiet(c, t0.w)
    ensures Awake(c, t, Arm(SetJump), now, None, {})
    ensures t.h.child.bornAt == t0.h.child.bornAt && t.h.timer.prevDeadline == alarm
    ensures t.g.secsLeft == SecsToArm(c, ToI32(AlarmLeft(t0.w)), t0.l.myPoll, now)
  {
    t := ArmGo(c, t0);
    t := ArmGo(c, t);
  }

  lemma WaitAgain(c: Config, t0: State, now: int) returns (t: State)
    requires Awake(c, t0, Arm(SetJump), now, None, {}) && t0.g.secsLeft >= 0
    ensures Waits(c, t, now, 7, SetAlarm(now, t0.g.secsLeft)) && t.h.child.bornAt == t0.h.child.bornAt
    ensures t.h.timer.prevDeadline == t0.h.timer.prevDeadline
  {
    t := ArmGo(c, t0);
    t := IntoTheWait(c, t, now);
  }

  lemma IntoTheWait(c: Config, t0: State, now: int) returns (t: State)
    requires Awake(c, t0, Arm(SetTimer), now, None, {}) && t0.g.secsLeft >= 0
    ensures Waits(c, t, now, 7, SetAlarm(now, t0.g.secsLeft)) && t.h.child.bornAt == t0.h.child.bornAt
    ensures t.h.timer.prevDeadline == t0.h.timer.prevDeadline
  {
    t := ArmGo(c, t0);
    t := ArmGo(c, t);
    t := Step(c, t, Go);
  }

  /** From the top of the loop to the wait. */
  lemma OnceMore(c: Config, t0: State, now: int, alarm: Option<int>) returns (t: State)
    requires Awake(c, t0, Try(Reblock), now, alarm, {}) && (alarm.Some? ==> now < alarm.value <= now + 100)
    requires
      var left := if alarm.Some? then alarm.value - now else 0;
      SecsToArm(c, left, c.pollTime, now) >= 0
    ensures
      var left := if alarm.Some? then alarm.value - now else 0;
      Waits(c, t, now, 7, SetAlarm(now, SecsToArm(c, left, c.pollTime, now)))
    ensures t.h.timer.prevDeadline == alarm && t.h.child.bornAt == t0.h.child.bornAt
  {
    t := RoundAgain(c, t0, now, alarm);
    t := LookAgain(c, t, now, alarm);
    t := Recompute(c, t, now, alarm);
    t := WaitAgain(c, t, now);
  }

  // ----- put off -----

  lemma Later(c: Config, t0: State, now: int, alarm: int, n: int) returns (t: State)
    requires Waits(c, t0, now, 7, Some(alarm)) && n >= 1 && now + n <= alarm
    ensures Waits(c, t, now + n, 7, Some(alarm)) && t.h.child.bornAt == t0.h.child.bornAt
    ensures t.h.timer == t0.h.timer
  {
    ReachNext(c, t0, Tick(n));
    t := Next(c, t0, Tick(n));
  }

  lemma WokenToTop(c: Config, t0: State, now: int, alarm: int) returns (t: State)
    requires Waits(c, t0, now, 7, Some(alarm)) && now < alarm
    ensures Awake(c, t, Try(Reblock), now, Some(alarm), {}) && t.h.child.bornAt == t0.h.child.bornAt
  {
    t := WokenUp(c, t0, now, alarm);
    t := Unblocked(c, t, now, Some(alarm), {});
    t := BackToTop(c, t, now, Some(alarm));
  }

  /**
   * With a lifetime limit waking up does put the alarm off: it was due at second 11, SIGHUP comes at second 8,
   * and it is armed again for second 16.
   */
  lemma AlarmIsPutOff(t0: State) returns (t: State)
    requires Init(FIFTEEN_SECONDS, t0) && t0.w.clock == 1 && t0.w.pending == {}
    ensures Reachable(FIFTEEN_SECONDS, t) && IsWait(t.pc) && t.w.clock == 8
    ensures t.h.timer.prevDeadline == Some(11) && t.w.alarm == Some(16)
  {
    t := ToFirstWait(FIFTEEN_SECONDS, t0);
    t := Later(FIFTEEN_SECONDS, t, 1, 11, 7);
    t := WokenToTop(FIFTEEN_SECONDS, t, 8, 11);
    t := OnceMore(FIFTEEN_SECONDS, t, 8, Some(11));
  }

  // ----- lost -----

  /** The alarm goes off behind the mask, and SIGALRM is caught with nothing to jump to. */
  lemma Expired(c: Config, t0: State, now: int) returns (t: State)
    requires Awake(c, t0, Catch(Unblock), now, Some(now), {}) && t0.l.val == HUP && t0.w.mask == CallersPlusHandled
    requires t0.w.caught == AllHandlers
    ensures Awake(c, t, Catch(Unblock), now, None, {ALRM}) && t.l.val == HUP && t.w.mask == CallersPlusHandled
    ensures t.w.caught == AllHandlers && t.h.child.bornAt == t0.h.child.bornAt
  {
    ReachNext(c, t0, AlarmExpires);
    t := Next(c, t0, AlarmExpires);
  }

  lemma DispatchIsOpen(c: Config, t: State)
    requires ValidConfig(c) && Reachable(c, t) && t.pc == Catch(Dispatch)
    ensures t.w.mask == Callers && !t.g.dolongjmp
  {
    Theorems.ReachableInv(c, t);
  }

  lemma Absorbed(c: Config, t0: State, now: int) returns (t: State)
    requires Awake(c, t0, Catch(Dispatch), now, None, {ALRM}) && t0.l.val == HUP && t0.w.caught == AllHandlers
    ensures Awake(c, t, Catch(Dispatch), now, None, {}) && t.l.val == HUP && t.h.child.bornAt == t0.h.child.bornAt
  {
    DispatchIsOpen(c, t0);
    ReachNext(c, t0, Deliver(ALRM));
    t := Next(c, t0, Deliver(ALRM));
  }

  lemma LostToTop(c: Config, t0: State, now: int) returns (t: State)
    requires Waits(c, t0, now, 7, Some(now))
    ensures Awake(c, t, Try(Reblock), now, None, {}) && t.h.child.bornAt == t0.h.child.bornAt
  {
    t := WokenUp(c, t0, now, now);
    t := Expired(c, t, now);
    t := Unblocked(c, t, now, None, {ALRM});
    t := Absorbed(c, t, now);
    t := BackToTop(c, t, now, None);
  }

  lemma BornByNow(c: Config, t: State, now: int)
    requires ValidConfig(c) && Waits(c, t, now, 7, t.w.alarm)
    ensures t.h.child.bornAt <= now
  {
    Theorems.ReachableInv(c, t);
  }

  lemma ToThirdSecond(t0: State) returns (t: State)
    requires Init(ONE_SECOND, t0) && t0.w.clock == 1 && t0.w.pending == {}
    ensures Waits(ONE_SECOND, t, 3, 7, Some(3)) && t.h.child.bornAt <= 1
  {
    t := ToFirstWait(ONE_SECOND, t0);
    BornByNow(ONE_SECOND, t, 1);
    t := Later(ONE_SECOND, t, 1, 2, 1);
    t := LostToTop(ONE_SECOND, t, 2);
    t := OnceMore(ONE_SECOND, t, 2, None);
    t := Later(ONE_SECOND, t, 2, 3, 1);
  }

  /**
   * A SIGALRM can be lost, and without counting it the silence bound fails: with a limit and poll times of one
   * second a silent child is still watched two seconds after its birth.
   */
  lemma AlarmIsLost(t0: State) returns (t: State)
    requires Init(ONE_SECOND, t0) && t0.w.clock == 1 && t0.w.pending == {}
    ensures Silence.WatchdogOnly(ONE_SECOND) && Reachable(ONE_SECOND, t) && IsWait(t.pc)
    ensures ProcessSafety.Tracked(t) && t.h.child.readCount == 0
    ensures t.w.clock >= t.h.child.bornAt + ONE_SECOND.maxSession + Silence.Interval(ONE_SECOND)
    ensures t.h.child.absorbed > 0
  {
    t := ToThirdSecond(t0);
    if t.h.child.absorbed == 0 {
      Theorems.SilenceIsBounded(ONE_SECOND, t);
    }
  }
}
