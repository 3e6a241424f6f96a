/**
 * autossh_session_stop and autossh_session_state called from any number of threads: every load, swap,
 * compare_exchange, kill and waitpid is one step. Process ids are not recycled, and each call has an
 * identity of its own.
 */
module SessionRace {
  import opened Posix

  const TERM_POLLS: nat := 50

  datatype Call =
    | StopTerm(pid: int) | StopPoll(pid: int, polls: nat) | StopKill(pid: int) | StopWait(pid: int)
    | StateReap(pid: int) | StateClear(pid: int)
    | Returned

  /** `taken` names the stop that swapped each pid out; `cleared` the state poll that reaped it. */
  datatype State = State(
    pid: int,                          // session.pid
    calls: map<nat, Call>,
    processes: map<int, Process>,      // supervisors forked and not yet reaped
    started: set<int>,
    taken: map<int, nat>,
    cleared: map<int, nat>,
    signalled: map<int, set<nat>>,     // which calls have signalled a pid
    log: Log)

  /** Polls of a pid by a stop that found it alive, and the pids SIGKILL was sent to. */
  datatype Log = Log(polls: map<int, nat>, killed: set<int>)

  datatype Event =
    | Start(p: int)                    // a start that forked p and stored it
    | Stop(id: nat) | Query(id: nat)   // new calls: stop's swap, state's load
    | Step(id: nat)
    | Exits(p: int, status: Status)

  predicate Init(s: State) {
    s == State(0, map[], map[], {}, map[], map[], map[], Log(map[], {}))
  }

  predicate Enabled(s: State, e: Event) {
    match e
    case Start(p) => s.pid <= 0 && p > 0 && p !in s.started
    case Stop(id) => id !in s.calls
    case Query(id) => id !in s.calls
    case Step(id) =>
      && id in s.calls && s.calls[id] != Returned
      && (s.calls[id].StopWait? ==> Dead(s, s.calls[id].pid))     // a blocking waitpid
    case Exits(p, _) => p in s.processes && s.processes[p].Running?
  }

  /** waitpid would not block: the process is a zombie, or it is gone and the answer is ECHILD. */
  predicate Dead(s: State, p: int) {
    p !in s.processes || s.processes[p].Zombie?
  }

  function At(s: State, id: nat, call: Call): State {
    s.(calls := s.calls[id := call])
  }

  function Signal(s: State, p: int, id: nat): State {
    var so := if p in s.signalled then s.signalled[p] else {};
    s.(signalled := s.signalled[p := so + {id}])
  }

  function Polls(s: State, p: int): nat {
    if p in s.log.polls then s.log.polls[p] else 0
  }

  /** autossh_session_stop up to its swap: whoever takes the pid owns the teardown. */
  function BeginStop(s: State, id: nat): State {
    if s.pid <= 0 then At(s, id, Returned)
    else At(s.(pid := 0, taken := s.taken[s.pid := id]), id, StopTerm(s.pid))
  }

  /** autossh_session_state up to its load. */
  function BeginQuery(s: State, id: nat): State {
    At(s, id, if s.pid > 0 then StateReap(s.pid) else Returned)
  }

  function Advance(s: State, id: nat): State
    requires id in s.calls
  {
    match s.calls[id]
    case StopTerm(p) => At(Signal(s, p, id), id, StopPoll(p, 0))
    case StopPoll(p, n) =>
      if Dead(s, p) then At(s.(processes := s.processes - {p}), id, Returned)
      else At(s.(log := Log(s.log.polls[p := Polls(s, p) + 1], s.log.killed)), id,
              if n + 1 < TERM_POLLS then StopPoll(p, n + 1) else StopKill(p))
    case StopKill(p) => At(Signal(s.(log := Log(s.log.polls, s.log.killed + {p})), p, id), id, StopWait(p))
    case StopWait(p) => At(s.(processes := s.processes - {p}), id, Returned)
    case StateReap(p) =>
      if p in s.processes && s.processes[p].Zombie?
      then At(s.(processes := s.processes - {p}, cleared := s.cleared[p := id]), id, StateClear(p))
      else At(s, id, Returned)
    case StateClear(p) => At(if s.pid == p then s.(pid := 0) else s, id, Returned)
    case Returned => s
  }

  function Next(s: State, e: Event): State
    requires Enabled(s, e)
  {
    match e
    case Start(p) =>
      s.(pid := p, processes := s.processes[p := Running], started := s.started + {p})
    case Stop(id) => BeginStop(s, id)
    case Query(id) => BeginQuery(s, id)
    case Step(id) => Advance(s, id)
    case Exits(p, status) => s.(processes := s.processes[p := Zombie(status)])
  }

  // ----- invariant -----

  /** A stop that has taken a pid and not returned yet. */
  predicate Tearing(call: Call) {
    call.StopTerm? || call.StopPoll? || call.StopKill? || call.StopWait?
  }

  /** Call `id` is a stop at work on `p`. */
  predicate Owns(s: State, id: nat, p: int) {
    id in s.calls && Tearing(s.calls[id]) && s.calls[id].pid == p
  }

  predicate OwnerInv(s: State) {
    && s.pid >= 0
    && (s.pid > 0 ==> s.pid in s.started && s.pid !in s.taken)
    && (forall p :: p in s.started ==> p > 0)
    && (forall p :: p in s.taken ==> p in s.started && s.taken[p] in s.calls)
    && (forall id :: id in s.calls && Tearing(s.calls[id]) ==>
          s.calls[id].pid in s.taken && s.taken[s.calls[id].pid] == id)
    && (forall id :: id in s.calls && (s.calls[id].StateReap? || s.calls[id].StateClear?) ==>
          s.calls[id].pid in s.started)
    && (forall p :: p in s.signalled ==> p in s.taken && s.signalled[p] <= {s.taken[p]})
  }

  /** Every unreaped supervisor is the stored one or has a stop at work on it. */
  predicate ReapInv(s: State) {
    && (forall p :: p in s.processes ==> p in s.started)
    && (forall p :: p in s.processes ==> p == s.pid || (p in s.taken && Owns(s, s.taken[p], p)))
    && (forall p :: p in s.cleared ==> p in s.started && p !in s.processes)
    && (forall id :: id in s.calls && s.calls[id].StateClear? ==>
          s.calls[id].pid in s.cleared && s.cleared[s.calls[id].pid] == id)
    && (forall id :: id in s.calls && Tearing(s.calls[id]) ==>
          s.calls[id].pid in s.processes || s.calls[id].pid in s.cleared)
    && (s.pid > 0 && s.pid !in s.processes ==>
          && s.pid in s.cleared && s.cleared[s.pid] in s.calls
          && s.calls[s.cleared[s.pid]] == StateClear(s.pid))
  }

  /** Call `id` has signalled `p`. */
  predicate HasSignalled(s: State, id: nat, p: int) {
    p in s.signalled && id in s.signalled[p]
  }

  /** SIGTERM, then polls, then SIGKILL: how far the stop that took a pid has come. */
  predicate OrderInv(s: State) {
    && (forall p, q :: p in s.taken && q in s.taken && s.taken[p] == s.taken[q] ==> p == q)
    && (forall p :: p in s.log.killed ==> p in s.taken)
    && (forall p :: p in s.log.polls ==> p in s.taken)
    && (forall p :: p in s.taken && s.taken[p] in s.calls ==> Ordered(s, s.taken[p], p))
  }

  predicate Ordered(s: State, id: nat, p: int)
    requires id in s.calls
  {
    match s.calls[id]
    case StopTerm(_) => Polls(s, p) == 0 && p !in s.log.killed
    case StopPoll(_, n) => HasSignalled(s, id, p) && Polls(s, p) == n < TERM_POLLS && p !in s.log.killed
    case StopKill(_) => HasSignalled(s, id, p) && Polls(s, p) == TERM_POLLS && p !in s.log.killed
    case StopWait(_) => HasSignalled(s, id, p) && Polls(s, p) == TERM_POLLS && p in s.log.killed
    case Returned => HasSignalled(s, id, p) && (p in s.log.killed ==> Polls(s, p) == TERM_POLLS)
    case _ => false
  }

  predicate Inv(s: State) {
    OwnerInv(s) && ReapInv(s)
  }

  lemma BeginKeepsOrder(s: State, e: Event)
    requires OwnerInv(s) && OrderInv(s) && Enabled(s, e) && !e.Step? && !e.Stop?
    ensures OrderInv(Next(s, e))
  {
    var s' := Next(s, e);
    assert s'.taken == s.taken && s'.log == s.log && s'.signalled == s.signalled;
    forall p | p in s'.taken && s'.taken[p] in s'.calls ensures Ordered(s', s'.taken[p], p) {
      assert Ordered(s, s.taken[p], p);
    }
  }

  lemma StopKeepsOrder(s: State, id: nat)
    requires OwnerInv(s) && OrderInv(s) && Enabled(s, Stop(id))
    ensures OrderInv(BeginStop(s, id))
  {
    assert forall p :: p in s.taken ==> s.taken[p] in s.calls && s.taken[p] != id;
    if s.pid > 0 {
      TakenKeepsOrder(s, id);
    } else {
      forall p | p in s.taken ensures Ordered(BeginStop(s, id), s.taken[p], p) {
        assert Ordered(s, s.taken[p], p);
      }
    }
  }

  lemma TakenKeepsOrder(s: State, id: nat)
    requires OwnerInv(s) && OrderInv(s) && Enabled(s, Stop(id)) && s.pid > 0
    ensures OrderInv(BeginStop(s, id))
  {
    var s' := BeginStop(s, id);
    assert s'.taken == s.taken[s.pid := id] && s'.log == s.log && s'.signalled == s.signalled;
    assert Ordered(s', id, s.pid);
    forall p | p in s.taken ensures s.taken[p] != id && Ordered(s', s.taken[p], p) {
      assert Ordered(s, s.taken[p], p);
    }
  }

  /** A step of one call leaves the order of all others alone. */
  lemma OthersStayOrdered(s: State, s': State, id: nat)
    requires OwnerInv(s) && OrderInv(s) && id in s.calls && s'.taken == s.taken
    requires s'.calls.Keys == s.calls.Keys && forall k :: k in s.calls && k != id ==> s'.calls[k] == s.calls[k]
    requires forall p :: p in s.taken && s.taken[p] != id ==>
      && Polls(s', p) == Polls(s, p) && (p in s'.log.killed <==> p in s.log.killed)
      && (HasSignalled(s, s.taken[p], p) ==> HasSignalled(s', s.taken[p], p))
    requires forall p :: p in s'.log.killed ==> p in s.taken
    requires forall p :: p in s'.log.polls ==> p in s.taken
    requires forall p :: p in s.taken && s.taken[p] == id ==> Ordered(s', id, p)
    ensures OrderInv(s')
  {
    forall p | p in s'.taken && s'.taken[p] in s'.calls ensures Ordered(s', s'.taken[p], p) {
      assert s.taken[p] != id ==> Ordered(s, s.taken[p], p);
    }
  }

  lemma QueryKeepsOrder(s: State, id: nat)
    requires OwnerInv(s) && OrderInv(s) && Enabled(s, Step(id)) && !Tearing(s.calls[id])
    ensures OrderInv(Advance(s, id))
  {
    assert forall p :: p in s.taken && s.taken[p] in s.calls ==> Ordered(s, s.taken[p], p);
    OthersStayOrdered(s, Advance(s, id), id);
  }

  lemma PollKeepsOrder(s: State, id: nat)
    requires OwnerInv(s) && OrderInv(s) && Enabled(s, Step(id)) && (s.calls[id].StopPoll? || s.calls[id].StopWait?)
    ensures OrderInv(Advance(s, id))
  {
    var p := s.calls[id].pid;
    assert Ordered(s, id, p);
    OthersStayOrdered(s, Advance(s, id), id);
  }

  lemma SignalKeepsOrder(s: State, id: nat)
    requires OwnerInv(s) && OrderInv(s) && Enabled(s, Step(id)) && (s.calls[id].StopTerm? || s.calls[id].StopKill?)
    ensures OrderInv(Advance(s, id))
  {
    var p := s.calls[id].pid;
    assert Ordered(s, id, p);
    OthersStayOrdered(s, Advance(s, id), id);
  }

  lemma StepKeepsOrder(s: State, e: Event)
    requires OwnerInv(s) && OrderInv(s) && Enabled(s, e)
    ensures OrderInv(Next(s, e))
  {
    if e.Stop? {
      StopKeepsOrder(s, e.id);
    } else if !e.Step? {
      BeginKeepsOrder(s, e);
    } else if !Tearing(s.calls[e.id]) {
      QueryKeepsOrder(s, e.id);
    } else if s.calls[e.id].StopPoll? || s.calls[e.id].StopWait? {
      PollKeepsOrder(s, e.id);
    } else {
      SignalKeepsOrder(s, e.id);
    }
  }

  lemma BeginKeepsOwner(s: State, e: Event)
    requires OwnerInv(s) && Enabled(s, e) && !e.Step?
    ensures OwnerInv(Next(s, e))
  {
  }

  lemma SignalKeepsOwner(s: State, id: nat)
    requires OwnerInv(s) && Enabled(s, Step(id)) && (s.calls[id].StopTerm? || s.calls[id].StopKill?)
    ensures OwnerInv(Advance(s, id))
  {
  }

  lemma PollKeepsOwner(s: State, id: nat)
    requires OwnerInv(s) && Enabled(s, Step(id)) && (s.calls[id].StopPoll? || s.calls[id].StopWait?)
    ensures OwnerInv(Advance(s, id))
  {
  }

  lemma QueryKeepsOwner(s: State, id: nat)
    requires OwnerInv(s) && Enabled(s, Step(id)) && s.calls[id].StateReap?
    ensures OwnerInv(Advance(s, id))
  {
  }

  lemma ClearKeepsOwner(s: State, id: nat)
    requires OwnerInv(s) && Enabled(s, Step(id)) && s.calls[id].StateClear?
    ensures OwnerInv(Advance(s, id))
  {
  }

  lemma StopKeepsReap(s: State, id: nat)
    requires Inv(s) && Enabled(s, Stop(id))
    ensures ReapInv(BeginStop(s, id))
  {
  }

  lemma LoadKeepsReap(s: State, id: nat)
    requires Inv(s) && Enabled(s, Query(id))
    ensures ReapInv(BeginQuery(s, id))
  {
  }

  lemma WorldKeepsReap(s: State, e: Event)
    requires Inv(s) && Enabled(s, e) && (e.Start? || e.Exits?)
    ensures ReapInv(Next(s, e))
  {
  }

  lemma SignalKeepsReap(s: State, id: nat)
    requires Inv(s) && Enabled(s, Step(id)) && (s.calls[id].StopTerm? || s.calls[id].StopKill?)
    ensures ReapInv(Advance(s, id))
  {
  }

  lemma PollKeepsReap(s: State, id: nat)
    requires Inv(s) && Enabled(s, Step(id)) && (s.calls[id].StopPoll? || s.calls[id].StopWait?)
    ensures ReapInv(Advance(s, id))
  {
  }

  lemma ReapKeepsReap(s: State, id: nat)
    requires Inv(s) && Enabled(s, Step(id)) && s.calls[id].StateReap?
    requires s.calls[id].pid in s.processes && s.processes[s.calls[id].pid].Zombie?
    ensures ReapInv(Advance(s, id))
  {
  }

  lemma NoReapKeepsReap(s: State, id: nat)
    requires Inv(s) && Enabled(s, Step(id)) && s.calls[id].StateReap?
    requires !(s.calls[id].pid in s.processes && s.processes[s.calls[id].pid].Zombie?)
    ensures ReapInv(Advance(s, id))
  {
  }

  lemma ClearKeepsReap(s: State, id: nat)
    requires Inv(s) && Enabled(s, Step(id)) && s.calls[id].StateClear?
    ensures ReapInv(Advance(s, id))
  {
  }

  lemma StepKeepsInv(s: State, e: Event)
    requires Inv(s) && Enabled(s, e)
    ensures Inv(Next(s, e))
  {
    if !e.Step? {
      BeginKeepsOwner(s, e);
      match e
      case Stop(id) => StopKeepsReap(s, id);
      case Query(id) => LoadKeepsReap(s, id);
      case _ => WorldKeepsReap(s, e);
    } else {
      var id := e.id;
      match s.calls[id]
      case StateReap(p) =>
        QueryKeepsOwner(s, id);
        if p in s.processes && s.processes[p].Zombie? {
          ReapKeepsReap(s, id);
        } else {
          NoReapKeepsReap(s, id);
        }
      case StateClear(_) => ClearKeepsOwner(s, id); ClearKeepsReap(s, id);
      case StopTerm(_) => SignalKeepsOwner(s, id); SignalKeepsReap(s, id);
      case StopKill(_) => SignalKeepsOwner(s, id); SignalKeepsReap(s, id);
      case _ => PollKeepsOwner(s, id); PollKeepsReap(s, id);
    }
  }

  // ----- every run -----

  function Exec(s: State, run: seq<Event>): Option<State>
    decreases |run|
  {
    if run == [] then Some(s) else
      var before := Exec(s, run[..|run| - 1]);
      if before.Some? && Enabled(before.value, run[|run| - 1])
      then Some(Next(before.value, run[|run| - 1]))
      else None
  }

  ghost predicate Reachable(t: State) {
    exists s, run :: Init(s) && Exec(s, run) == Some(t)
  }

  lemma {:induction false} RunKeepsInv(s: State, run: seq<Event>, t: State)
    requires Inv(s) && Exec(s, run) == Some(t)
    ensures Inv(t)
    decreases |run|
  {
    if run != [] {
      var before := Exec(s, run[..|run| - 1]).value;
      RunKeepsInv(s, run[..|run| - 1], before);
      StepKeepsInv(before, run[|run| - 1]);
    }
  }

  lemma ReachableInv(t: State)
    requires Reachable(t)
    ensures Inv(t)
  {
    var s, run :| Init(s) && Exec(s, run) == Some(t);
    RunKeepsInv(s, run, t);
  }

  lemma {:induction false} RunKeepsOrder(s: State, run: seq<Event>, t: State)
    requires Inv(s) && OrderInv(s) && Exec(s, run) == Some(t)
    ensures OrderInv(t)
    decreases |run|
  {
    if run != [] {
      var front := run[..|run| - 1];
      var before := Exec(s, front).value;
      RunKeepsOrder(s, front, before);
      RunKeepsInv(s, front, before);
      StepKeepsOrder(before, run[|run| - 1]);
    }
  }

  /**
   * A stop that has taken a supervisor and returned has sent it SIGTERM; and SIGKILL goes only to one that
   * fifty polls after the SIGTERM have found alive.
   */
  lemma StopsEscalate(t: State, p: int)
    requires Reachable(t) && p in t.taken
    ensures t.taken[p] in t.calls
    ensures t.calls[t.taken[p]] == Returned ==> HasSignalled(t, t.taken[p], p)
    ensures p in t.log.killed ==> Polls(t, p) == 50 && HasSignalled(t, t.taken[p], p)
  {
    var s, run :| Init(s) && Exec(s, run) == Some(t);
    RunKeepsInv(s, run, t);
    RunKeepsOrder(s, run, t);
  }

  /** Left alone, a state poll that finds the stored supervisor dead reaps it and clears the pid. */
  lemma PollSeesDeath(t: State, id: nat)
    requires Reachable(t) && id !in t.calls && t.pid > 0 && t.pid in t.processes && t.processes[t.pid].Zombie?
    ensures Enabled(t, Query(id))
    ensures var u := Next(t, Query(id));
      && Enabled(u, Step(id)) && Enabled(Next(u, Step(id)), Step(id))
      && var v := Next(Next(u, Step(id)), Step(id));
      v.pid == 0 && t.pid !in v.processes && v.calls[id] == Returned
  {
  }

  /** No supervisor is ever signalled by two stops, and nothing that was not started is signalled at all. */
  lemma OneStopSignals(t: State, p: int)
    requires Reachable(t) && p in t.signalled
    ensures p > 0 && p in t.started && |t.signalled[p]| <= 1
  {
    ReachableInv(t);
    var one := {t.taken[p]};
    assert t.signalled[p] == {} || t.signalled[p] == one;
  }

  /** When the stop that took a supervisor has returned, that supervisor has been reaped. */
  lemma StoppedMeansReaped(t: State, p: int)
    requires Reachable(t) && p in t.taken
    ensures t.taken[p] in t.calls
    ensures t.calls[t.taken[p]] == Returned ==> p !in t.processes
  {
    ReachableInv(t);
  }

  /** A state poll, however late, clears a pid only if it has itself reaped that very process. */
  lemma LatePollClearsNothingElse(t: State, id: nat)
    requires Reachable(t) && Enabled(t, Step(id)) && t.calls[id].StateClear?
    ensures var p := t.calls[id].pid;
      && p in t.cleared && t.cleared[p] == id && p !in t.processes
      && Next(t, Step(id)).pid == if t.pid == p then 0 else t.pid
  {
    ReachableInv(t);
  }

  /** A stop's signal goes to a process already reaped if and only if a state poll has reaped it. */
  lemma SignalMissesIff(t: State, id: nat)
    requires Reachable(t) && id in t.calls && (t.calls[id].StopTerm? || t.calls[id].StopKill?)
    ensures t.calls[id].pid !in t.processes <==> t.calls[id].pid in t.cleared
  {
    ReachableInv(t);
  }

  lemma ReachNext(t: State, e: Event)
    requires Reachable(t) && Enabled(t, e)
    ensures Reachable(Next(t, e))
  {
    var s, run :| Init(s) && Exec(s, run) == Some(t);
    var longer := run + [e];
    assert longer[..|longer| - 1] == run;
    assert Exec(s, longer) == Some(Next(t, e));
  }

  /** It does happen: a poll loads the pid and reaps, a stop takes the pid before the poll can clear it. */
  lemma SignalCanMiss() returns (t: State)
    ensures Reachable(t) && 1 in t.calls && t.calls[1] == StopTerm(7) && 7 !in t.processes
  {
    t := State(0, map[], map[], {}, map[], map[], map[], Log(map[], {}));
    assert Exec(t, []) == Some(t);
    ReachNext(t, Start(7));
    t := Next(t, Start(7));
    ReachNext(t, Query(0));
    t := Next(t, Query(0));
    ReachNext(t, Exits(7, Exited(0)));
    t := Next(t, Exits(7, Exited(0)));
    ReachNext(t, Step(0));
    t := Next(t, Step(0));
    ReachNext(t, Stop(1));
    t := Next(t, Stop(1));
  }

  predicate Quiescent(s: State) {
    forall id :: id in s.calls ==> s.calls[id] == Returned
  }

  /** Nothing is leaked: with no call in progress there is a supervisor exactly when its pid is stored. */
  lemma NothingIsLeaked(t: State)
    requires Reachable(t) && Quiescent(t)
    ensures t.processes.Keys == if t.pid > 0 then {t.pid} else {}
  {
    ReachableInv(t);
    forall p | p in t.processes ensures p == t.pid && p > 0 {
      assert p in t.taken ==> !Owns(t, t.taken[p], p);
    }
    assert t.pid > 0 ==> t.pid in t.processes;
  }
}
