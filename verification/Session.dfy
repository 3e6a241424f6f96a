/** The embedding API's session object, used by one thread at a time. */
module Session {
  import opened Posix

  datatype SessionState = Init | Starting | Live | Exit | Stopped | Error

  datatype TeardownSignal = Terminate | KillHard

  /** A signal that was sent: to whom, and whether that process was still ours to signal. */
  datatype Sent = Sent(pid: int, signal: TeardownSignal, hit: bool)

  /** One turn of wait_for_listener: the supervisor may have died, or the port may answer. */
  datatype Turn = Turn(died: Option<Status>, connected: bool)

  datatype Outcome = Up | DiedEarly | TimedOut

  /** The first turn that decides; with none left the deadline has passed. */
  function Listen(turns: seq<Turn>): Outcome {
    if turns == [] then TimedOut
    else if turns[0].died.Some? then DiedEarly
    else if turns[0].connected then Up
    else Listen(turns[1..])
  }

  /** Nothing has happened before turn `i`. */
  predicate Silent(turns: seq<Turn>, i: int)
    requires 0 <= i <= |turns|
  {
    forall j :: 0 <= j < i ==> turns[j].died.None? && !turns[j].connected
  }

  /** The first turn at which something happens, if there is one, decides. */
  lemma {:induction false} FirstTurn(turns: seq<Turn>) returns (k: nat)
    ensures k <= |turns| && Silent(turns, k)
    ensures k < |turns| ==> turns[k].died.Some? || turns[k].connected
    ensures Listen(turns) ==
      if k == |turns| then TimedOut else if turns[k].died.Some? then DiedEarly else Up
  {
    if turns == [] || turns[0].died.Some? || turns[0].connected {
      return 0;
    }
    k := FirstTurn(turns[1..]);
    k := k + 1;
    forall j | 0 <= j < k ensures turns[j].died.None? && !turns[j].connected {
      assert j > 0 ==> turns[j] == turns[1..][j - 1];
    }
  }

  /** The listener is up if it answers at some look, with nothing before it; and likewise for the other outcomes. */
  lemma ListenIff(turns: seq<Turn>)
    ensures Listen(turns) == Up <==>
      exists i :: 0 <= i < |turns| && turns[i].died.None? && turns[i].connected && Silent(turns, i)
    ensures Listen(turns) == DiedEarly <==>
      exists i :: 0 <= i < |turns| && turns[i].died.Some? && Silent(turns, i)
    ensures Listen(turns) == TimedOut <==> Silent(turns, |turns|)
  {
    var k := FirstTurn(turns);
    forall i | 0 <= i < |turns| && Silent(turns, i) && (turns[i].died.Some? || turns[i].connected)
      ensures i == k
    {
    }
  }

  const STOP_POLLS: nat := 50

  /** The signals a stop sends to the pid it took: SIGKILL only if fifty polls have not seen the process die. */
  function Teardown(p: int, processes: map<int, Process>, diesAt: nat): seq<Sent> {
    if p <= 0 then []
    else if p !in processes then [Sent(p, Terminate, false)]
    else if diesAt < STOP_POLLS || processes[p].Zombie? then [Sent(p, Terminate, true)]
    else [Sent(p, Terminate, true), Sent(p, KillHard, true)]
  }

  /** SIGTERM always and first; SIGKILL second, exactly if fifty polls have found the process running. */
  lemma TeardownMeans(p: int, processes: map<int, Process>, diesAt: nat)
    ensures var sent := Teardown(p, processes, diesAt);
      && |sent| <= 2
      && (p > 0 <==> sent != [])
      && (p > 0 ==> sent[0] == Sent(p, Terminate, p in processes))
      && (|sent| == 2 <==> p > 0 && p in processes && processes[p] == Running && diesAt >= 50)
      && (|sent| == 2 ==> sent[1] == Sent(p, KillHard, true))
  {
  }

  class Session {
    var pid: int
    var state: SessionState
    var processes: map<int, Process>     // supervisors forked and not yet reaped
    var sent: seq<Sent>

    /** Nothing unreaped but the stored process. */
    predicate Tidy()
      reads this
    {
      pid >= 0 && processes.Keys <= {pid} && 0 !in processes
    }

    /** Between calls: one supervisor if and only if its pid is stored, and a state that says so. */
    predicate Valid()
      reads this
    {
      && Tidy()
      && (pid > 0 <==> processes != map[])
      && (state == Live ==> pid > 0)
      && (state in {Init, Stopped, Exit} ==> pid == 0)
      && state != Starting
    }

    constructor ()
      ensures Valid() && state == Init && pid == 0 && sent == []
    {
      pid, state, processes, sent := 0, Init, map[], [];
    }

    /** kill(2) restricted to one positive pid. */
    method KillPid(p: int, signal: TeardownSignal)
      modifies this`sent
      ensures sent == if p <= 0 then old(sent) else old(sent) + [Sent(p, signal, p in processes)]
    {
      if p <= 0 {
        return;
      }
      sent := sent + [Sent(p, signal, p in processes)];
    }

    /** waitpid(p, WNOHANG) == p. The process dies first if `died` says so. */
    method ChildExited(p: int, died: Option<Status>) returns (exited: bool)
      requires Tidy()
      modifies this`processes
      ensures Tidy()
      ensures exited <==> p in old(processes) && (died.Some? || old(processes)[p].Zombie?)
      ensures processes == if exited then old(processes) - {p} else old(processes)
    {
      if p in processes && died.Some? {
        processes := processes[p := Zombie(died.value)];
      }
      exited := p in processes && processes[p].Zombie?;
      if exited {
        processes := processes - {p};
      }
    }

    /** The supervisor dies before poll number `diesAt`, if it is still polled then. */
    method Stop(diesAt: nat) returns (rc: int)
      requires Tidy()
      modifies this
      ensures rc == 0 && Valid() && state == Stopped && pid == 0 && processes == map[]
      ensures sent == old(sent) + Teardown(old(pid), old(processes), diesAt)
    {
      var p := pid;
      pid := 0;
      if p <= 0 {
        state := Stopped;
        return 0;
      }
      KillPid(p, Terminate);
      var polls := 0;
      while polls < STOP_POLLS
        invariant polls <= STOP_POLLS && pid == 0
        invariant processes == old(processes) && sent == old(sent) + [Sent(p, Terminate, p in old(processes))]
        invariant polls > 0 ==> p in processes && processes[p].Running? && polls <= diesAt
      {
        if p in processes && polls >= diesAt {
          processes := processes[p := Zombie(Exited(0))];
        }
        if p !in processes || processes[p].Zombie? {
          processes := processes - {p};
          state := Stopped;
          return 0;
        }
        polls := polls + 1;
      }
      KillPid(p, KillHard);
      processes := processes - {p};
      state := Stopped;
      return 0;
    }

    method WaitForListener(turns: seq<Turn>) returns (outcome: Outcome)
      requires Tidy() && pid > 0 && processes == map[pid := Running]
      modifies this`processes
      ensures Tidy() && outcome == Listen(turns)
      ensures processes == if outcome == DiedEarly then map[] else map[pid := Running]
    {
      var i := 0;
      while i < |turns|
        invariant i <= |turns| && Tidy() && processes == map[pid := Running]
        invariant Listen(turns[i..]) == Listen(turns)
      {
        assert turns[i..][1..] == turns[i + 1..];
        var exited := ChildExited(pid, turns[i].died);
        if exited {
          return DiedEarly;
        }
        if turns[i].connected {
          return Up;
        }
        i := i + 1;
      }
      return TimedOut;
    }

    /** `ports` says whether the ports could be reserved, `forked` is fork's answer. */
    method Start(ports: bool, forked: int, turns: seq<Turn>, diesAt: nat) returns (rc: int)
      requires Valid() && forked != 0
      modifies this
      ensures Valid()
      ensures rc == 0 <==> old(pid) == 0 && ports && forked > 0 && Listen(turns) == Up
      ensures rc == 0 ==> state == Live && pid == forked
      ensures rc != 0 ==> rc == -1 && state == Error && pid == old(pid) && processes == old(processes)
      ensures old(pid) > 0 || !ports || forked < 0 || Listen(turns) == Up ==> sent == old(sent)
      ensures old(pid) == 0 && ports && forked > 0 && Listen(turns) != Up ==>
        sent == old(sent)
          + Teardown(forked, if Listen(turns) == DiedEarly then map[] else map[forked := Running], diesAt)
    {
      if pid > 0 || !ports {
        state := Error;
        return -1;
      }
      state := Starting;
      if forked < 0 {
        state := Error;
        return -1;
      }
      processes := processes[forked := Running];
      pid := forked;
      var outcome := WaitForListener(turns);
      if outcome == Up {
        assert pid in processes;
        state := Live;
        return 0;
      }
      var _ := Stop(diesAt);
      state := Error;
      return -1;
    }

    method Query(died: Option<Status>) returns (st: SessionState)
      requires Valid()
      modifies this
      ensures Valid() && st == state && sent == old(sent)
      ensures var gone := old(pid) > 0 && (died.Some? || old(processes)[old(pid)].Zombie?);
        && state == (if gone then Exit else old(state))
        && pid == (if gone then 0 else old(pid))
        && processes == (if gone then map[] else old(processes))
    {
      if pid > 0 {
        var exited := ChildExited(pid, died);
        if exited {
          pid := 0;
          state := Exit;
        }
      }
      return state;
    }
  }

  /** A start signals a process that is no longer its own if and only if that process died while it was waited for. */
  lemma StartSignalsAStrangerIff(forked: int, turns: seq<Turn>, diesAt: nat)
    requires forked > 0 && Listen(turns) != Up
    ensures
      var sent := Teardown(forked, if Listen(turns) == DiedEarly then map[] else map[forked := Running], diesAt);
      (exists x :: x in sent && !x.hit) <==> Listen(turns) == DiedEarly
  {
    assert Sent(forked, Terminate, false) in [Sent(forked, Terminate, false)];
  }

  // ----- any series of calls -----

  datatype Op =
    | DoStart(ports: bool, forked: int, turns: seq<Turn>, diesAt: nat)
    | DoStop(stopDiesAt: nat)
    | DoQuery(died: Option<Status>)

  /** Whatever is asked of a session, and in whatever order, it stays valid and loses no supervisor. */
  method Serve(ops: seq<Op>) returns (session: Session)
    requires forall op :: op in ops && op.DoStart? ==> op.forked != 0
    ensures fresh(session) && session.Valid()
    ensures session.processes.Keys == if session.pid > 0 then {session.pid} else {}
    ensures ops != [] && ops[|ops| - 1].DoStop? ==> session.processes == map[] && session.state == Stopped
  {
    session := new Session();
    for i := 0 to |ops|
      invariant fresh(session) && session.Valid()
      invariant i > 0 && ops[i - 1].DoStop? ==> session.processes == map[] && session.state == Stopped
    {
      assert ops[i] in ops;
      match ops[i] {
        case DoStart(ports, forked, turns, diesAt) =>
          var _ := session.Start(ports, forked, turns, diesAt);
        case DoStop(diesAt) =>
          var _ := session.Stop(diesAt);
        case DoQuery(died) =>
          var _ := session.Query(died);
      }
    }
  }
}
