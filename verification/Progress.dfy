/** What the supervisor can always do by itself: get on, leave a wait, and come to an end. */
module Progress {
  import opened Posix
  import opened Supervisor
  import opened ProcessSafety
  import opened ExitSafety
  import opened WayOut
  import opened Theorems

  // ----- getting on -----

  /**
   * A step that asks nothing of the outside: no new signal, no death of the child, no pipe, fork, waitpid or
   * ppoll that fails or returns for no reason, and time passes only up to the end of a sleep or to the alarm.
   */
  predicate Unprompted(s: State, e: Event) {
    match e
    case Raise(_) => false
    case ChildExits(_, _) => false
    case PipeMade(read, _) => read >= 0
    case ForkMade(pid) => pid > 0
    case Waited(answer) => answer != Interrupted && answer != Fault
    case PpollReturned(_, _) => false
    case Go => !IsWait(s.pc)
    case Tick(n) =>
      || (IsSleep(s.pc) && s.w.clock + n <= s.w.wakeAt)
      || (s.w.alarm.Some? && s.w.clock + n == s.w.alarm.value)
    case _ => true
  }

  predicate Asleep(s: State) {
    IsSleep(s.pc) && s.w.clock < s.w.wakeAt
  }

  predicate Deliverable(c: Config, w: World) {
    exists sig :: sig in w.pending && !Blocks(c.callerMask, w.mask, sig)
  }

  function WaitAnswerFor(s: State): (a: WaitAnswer)
    ensures WaitEnabled(s.g, s.w, a) && a != Interrupted && a != Fault
  {
    if s.g.cchild !in s.w.children then NoChild
    else if s.w.children[s.g.cchild].Running? then NotYet
    else Got
  }

  /** A wait that no signal is about to end has an alarm ahead of it. */
  lemma AlarmIsAhead(c: Config, t: State)
    requires ValidConfig(c) && Reachable(c, t) && IsWait(t.pc) && !Deliverable(c, t.w) && !AlarmDue(t.w)
    requires ALRM !in c.callerMask && (c.maxLifetime == 0 || !t.h.timer.late)
    ensures t.w.alarm.Some? && t.w.clock < t.w.alarm.value
    ensures Enabled(c, t, Tick(t.w.alarm.value - t.w.clock))
  {
    ReachableInv(c, t);
    assert ALRM !in t.w.pending;
  }

  lemma FreshPid(pids: set<int>) returns (pid: int)
    ensures pid > 0 && forall q :: q in pids ==> q < pid
  {
    if p :| p in pids {
      pid := FreshPid(pids - {p});
      pid := if pid <= p then p + 1 else pid;
      forall q | q in pids ensures q < pid {
        assert q == p || q in pids - {p};
      }
    } else {
      pid := 1;
    }
  }

  /** A pipe or a fork can succeed: there are descriptors and pids to be had. */
  lemma StartCanSucceed(c: Config, t: State) returns (e: Event)
    requires ValidConfig(c) && Reachable(c, t) && Quiet(c, t.w) && (t.pc == Run(MakePipe) || t.pc == Run(Fork))
    ensures Enabled(c, t, e) && Unprompted(t, e) && IsWork(e)
  {
    if t.pc == Run(MakePipe) {
      DescriptorsAreConserved(c, t);
      return PipeMade(3, 4);
    }
    var pid := FreshPid(t.w.children.Keys);
    return ForkMade(pid);
  }

  /** Any other statement, outside waits and sleeps and with no signal to deliver, can run. */
  lemma StatementCanRun(c: Config, t: State) returns (e: Event)
    requires !t.pc.Done? && !IsWait(t.pc) && !Asleep(t) && t.pc != Run(MakePipe) && t.pc != Run(Fork) && Quiet(c, t.w)
    ensures Enabled(c, t, e) && Unprompted(t, e) && IsWork(e)
  {
    match t.pc
    case Try(WaitChild) => return Waited(WaitAnswerFor(t));
    case Catch(EchoTest) => return Echoed(EchoOk);
    case Kill(ReapPoll(_, _), _) => return Waited(WaitAnswerFor(t));
    case DrainErr(Reading, _) => return ReadNothing;
    case _ => return Go;
  }

  /** Outside the wait something can be done without any help: a signal, the alarm, a second's sleep or a statement. */
  lemma CanGetOn(c: Config, t: State) returns (e: Event)
    requires ValidConfig(c) && Reachable(c, t) && !t.pc.Done? && !IsWait(t.pc)
    ensures Enabled(c, t, e) && Unprompted(t, e)
    ensures e.Deliver? || e.AlarmExpires? || (e == Tick(1) && Asleep(t)) || IsWork(e)
  {
    if sig :| sig in t.w.pending && !Blocks(c.callerMask, t.w.mask, sig) {
      return Deliver(sig);
    } else if AlarmDue(t.w) {
      return AlarmExpires;
    } else if Asleep(t) {
      return Tick(1);
    } else if t.pc == Run(MakePipe) || t.pc == Run(Fork) {
      e := StartCanSucceed(c, t);
    } else {
      e := StatementCanRun(c, t);
    }
  }

  /**
   * autossh never depends on the outside to get on: an unprompted step is possible in every reachable state,
   * except in a wait with SIGALRM blocked by the caller or after a late arming. (LateAlarm.WaitWithoutAlarm
   * is what a late arming can do.)
   */
  lemma NeverStuck(c: Config, t: State) returns (e: Event)
    requires ValidConfig(c) && Reachable(c, t) && !t.pc.Done?
    requires IsWait(t.pc) ==> ALRM !in c.callerMask && (c.maxLifetime == 0 || !t.h.timer.late)
    ensures Enabled(c, t, e) && Unprompted(t, e)
  {
    if !IsWait(t.pc) {
      e := CanGetOn(c, t);
    } else if sig :| sig in t.w.pending && !Blocks(c.callerMask, t.w.mask, sig) {
      return Deliver(sig);
    } else if AlarmDue(t.w) {
      return AlarmExpires;
    } else {
      AlarmIsAhead(c, t);
      return Tick(t.w.alarm.value - t.w.clock);
    }
  }

  lemma Extend(c: Config, s: State, run: seq<Event>, t: State, e: Event) returns (longer: seq<Event>, u: State)
    requires Reachable(c, t) && Exec(c, s, run) == Some(t) && Enabled(c, t, e)
    ensures longer == run + [e] && u == Next(c, t, e) && Reachable(c, u) && Exec(c, s, longer) == Some(u)
  {
    ExecNext(c, s, run, t, e);
    ReachNext(c, t, e);
    longer, u := run + [e], Next(c, t, e);
  }

  /** A run of nothing but time, the alarm and signals already raised, from a wait to its end. */
  predicate EndsWait(c: Config, s: State, run: seq<Event>, t: State) {
    && Exec(c, s, run) == Some(t) && !IsWait(t.pc)
    && forall e :: e in run ==> e.Tick? || e.AlarmExpires? || e.Deliver?
  }

  /** Everything such a run has passed through so far is the wait. */
  ghost predicate StillWaits(c: Config, s: State, run: seq<Event>, t: State) {
    && Exec(c, s, run) == Some(t) && Reachable(c, t) && IsWait(t.pc)
    && forall e :: e in run ==> e.Tick? || e.AlarmExpires? || e.Deliver?
  }

  lemma DeliveryJumps(c: Config, t: State, sig: Signal)
    requires ValidConfig(c) && Reachable(c, t) && IsWait(t.pc) && Enabled(c, t, Deliver(sig))
    ensures !IsWait(Next(c, t, Deliver(sig)).pc)
  {
    ReachableInv(c, t);
  }

  lemma DeliveryEndsTheWait(c: Config, s: State, run: seq<Event>, t: State, sig: Signal)
    returns (longer: seq<Event>, u: State)
    requires ValidConfig(c) && StillWaits(c, s, run, t) && Enabled(c, t, Deliver(sig))
    ensures EndsWait(c, s, longer, u)
  {
    DeliveryJumps(c, t, sig);
    longer, u := Extend(c, s, run, t, Deliver(sig));
  }

  lemma ExpiryIsDeliverable(c: Config, t: State)
    requires ValidConfig(c) && Reachable(c, t) && IsWait(t.pc) && AlarmDue(t.w) && ALRM !in c.callerMask
    ensures Enabled(c, t, AlarmExpires) && IsWait(Next(c, t, AlarmExpires).pc)
    ensures Enabled(c, Next(c, t, AlarmExpires), Deliver(ALRM))
  {
    ReachableInv(c, t);
  }

  lemma AlarmEndsTheWait(c: Config, s: State, run: seq<Event>, t: State)
    returns (longer: seq<Event>, u: State)
    requires ValidConfig(c) && StillWaits(c, s, run, t) && AlarmDue(t.w) && ALRM !in c.callerMask
    ensures EndsWait(c, s, longer, u)
  {
    ExpiryIsDeliverable(c, t);
    longer, u := Extend(c, s, run, t, AlarmExpires);
    longer, u := DeliveryEndsTheWait(c, s, longer, u, ALRM);
  }

  lemma WaitForAlarm(c: Config, t: State) returns (run: seq<Event>, u: State)
    requires ValidConfig(c) && Reachable(c, t) && IsWait(t.pc) && !Deliverable(c, t.w) && !AlarmDue(t.w)
    requires ALRM !in c.callerMask && (c.maxLifetime == 0 || !t.h.timer.late)
    ensures StillWaits(c, t, run, u) && AlarmDue(u.w)
  {
    AlarmIsAhead(c, t);
    run, u := Extend(c, t, [], t, Tick(t.w.alarm.value - t.w.clock));
  }

  /** Every wait ends by itself, with time, the alarm and the signals already raised, unless an arming was late. */
  lemma WaitEndsByItself(c: Config, t: State) returns (run: seq<Event>, u: State)
    requires ValidConfig(c) && Reachable(c, t) && IsWait(t.pc)
    requires ALRM !in c.callerMask && (c.maxLifetime == 0 || !t.h.timer.late)
    ensures EndsWait(c, t, run, u)
  {
    run, u := [], t;
    if sig :| sig in t.w.pending && !Blocks(c.callerMask, t.w.mask, sig) {
      run, u := DeliveryEndsTheWait(c, t, run, u, sig);
    } else {
      if !AlarmDue(t.w) {
        run, u := WaitForAlarm(c, t);
      }
      run, u := AlarmEndsTheWait(c, t, run, u);
    }
  }

  // ----- coming to an end -----

  /** Signals and alarms that may still interrupt. */
  function Interruptions(w: World): nat {
    |w.pending| + if w.alarm.Some? then 2 else 0
  }

  /** Nearer to the end: fewer statements, or as many and fewer interruptions, or as many and less sleep. */
  predicate Nearer(u: State, t: State) {
    || Rank(u.pc) < Rank(t.pc)
    || (&& Rank(u.pc) == Rank(t.pc)
        && (|| Interruptions(u.w) < Interruptions(t.w)
            || (Interruptions(u.w) == Interruptions(t.w) && SleepLeft(u.w) < SleepLeft(t.w))))
  }

  lemma InterruptionsShrink(c: Config, t: State, e: Event)
    requires Enabled(c, t, e) && (e.Deliver? || e.AlarmExpires? || (e == Tick(1) && Asleep(t)))
    ensures var u := Next(c, t, e);
      || Interruptions(u.w) < Interruptions(t.w)
      || (Interruptions(u.w) == Interruptions(t.w) && SleepLeft(u.w) < SleepLeft(t.w))
  {
    if e.Deliver? {
      assert |t.w.pending - {e.sig}| == |t.w.pending| - 1;
    } else if e.AlarmExpires? {
      assert |t.w.pending + {ALRM}| <= |t.w.pending| + 1;
    }
  }

  lemma NoWaitOnTheWayOut(c: Config, t: State)
    requires ValidConfig(c) && Reachable(c, t) && t.g.exitSignalled
    ensures !IsWait(t.pc)
  {
    ReachableInv(c, t);
  }

  lemma LeadsNearer(c: Config, t: State, e: Event)
    requires ValidConfig(c) && Reachable(c, t) && t.g.exitSignalled && Enabled(c, t, e)
    requires e.Deliver? || e.AlarmExpires? || (e == Tick(1) && Asleep(t)) || IsWork(e)
    ensures Next(c, t, e).g.exitSignalled && Nearer(Next(c, t, e), t)
  {
    ReachableInv(c, t);
    StepDescends(c, t, e);
    if !IsWork(e) {
      InterruptionsShrink(c, t, e);
    }
  }

  lemma KeepsHarmless(c: Config, t: State, e: Event)
    requires ValidConfig(c) && Reachable(c, t) && Harmless(c, t) && Enabled(c, t, e) && !e.Raise?
    ensures Harmless(c, Next(c, t, e)) && !CutShort(Next(c, t, e).pc)
  {
    ReachableInv(c, t);
    StaysHarmless(c, t, e);
  }

  /** With the exit flag set there is always a step of its own that leads nearer to the end. */
  lemma CanLeave(c: Config, t: State) returns (e: Event)
    requires ValidConfig(c) && Reachable(c, t) && t.g.exitSignalled && !t.pc.Done?
    ensures Enabled(c, t, e) && Unprompted(t, e)
    ensures Next(c, t, e).g.exitSignalled && Nearer(Next(c, t, e), t)
    ensures Harmless(c, t) ==> Harmless(c, Next(c, t, e)) && !CutShort(Next(c, t, e).pc)
  {
    NoWaitOnTheWayOut(c, t);
    e := CanGetOn(c, t);
    LeadsNearer(c, t, e);
    if Harmless(c, t) {
      KeepsHarmless(c, t, e);
    }
  }

  /** `t` is where `run` leads from `s`, none of it coming from outside. */
  ghost predicate OnTheWay(c: Config, s: State, run: seq<Event>, t: State) {
    && Exec(c, s, run) == Some(t) && Reachable(c, t) && t.g.exitSignalled
    && (forall e :: e in run ==> !e.Raise? && !e.ChildExits?)
    && (Harmless(c, s) ==> Harmless(c, t) && !CutShort(t.pc))
  }

  lemma {:induction false} LeaveFrom(c: Config, s: State, run: seq<Event>, t: State)
    returns (longer: seq<Event>, u: State)
    requires ValidConfig(c) && OnTheWay(c, s, run, t)
    ensures OnTheWay(c, s, longer, u) && u.pc.Done?
    decreases Rank(t.pc), Interruptions(t.w), SleepLeft(t.w)
  {
    if t.pc.Done? {
      return run, t;
    }
    var e := CanLeave(c, t);
    longer, u := Extend(c, s, run, t, e);
    longer, u := LeaveFrom(c, s, longer, u);
  }

  /**
   * After SIGTERM or SIGINT the end is reached, with nothing but time, the alarm and the signals already
   * raised. If none of those is one that ends the process on the spot, ssh_run returns, or the process
   * halts on an error, with every child reaped or given up and every descriptor closed.
   */
  lemma WayOutIsReached(c: Config, t: State) returns (run: seq<Event>, u: State)
    requires ValidConfig(c) && Reachable(c, t) && t.g.exitSignalled && !t.pc.Done?
    ensures Exec(c, t, run) == Some(u) && u.pc.Done?
    ensures forall e :: e in run ==> !e.Raise? && !e.ChildExits?
    ensures Harmless(c, t) ==>
      && (u.pc.how.Returned? || u.pc.how.Halted?)
      && u.w.children.Keys == u.h.procs.abandoned && u.w.open == {}
  {
    run, u := LeaveFrom(c, t, [], t);
    if Harmless(c, t) {
      ChildrenAreAccountedFor(c, u);
      DescriptorsAreConserved(c, u);
    }
  }
}
