/**
 * The stuck detector's two threads over one tracker: the caller's enter and leave, nested as deep as it
 * likes, and the monitor's scan, interleaved at every access to the two atomics.
 */
module StuckTracker {
  import Posix

  /** Where the calling thread is: running its own code, or inside enter or leave. */
  datatype CallerPc = Running | EnterClock | EnterStore(t: int) | LeaveStore | LeaveClear

  /** Where the monitor is in its scan of this tracker. */
  datatype MonitorPc = Asleep | LoadStart | LoadLast | StoreLast | Warn | AbortTest | Exited

  datatype State = State(
    clock: int,
    startSec: int, lastWarn: int,                  // the two atomics
    cpc: CallerPc, stack: seq<int>,                // the values enter returned, innermost last
    mpc: MonitorPc, now: int, start: int,          // the monitor's locals
    call: nat, callStart: int, inFlight: bool,     // the latest outermost call
    starts: map<nat, int>, ends: map<nat, int>,    // when each outermost call began and ended
    held: nat,                                     // the call whose start the monitor holds
    lines: map<nat, nat>,                          // STUCK lines drawn by each call
    lastLine: int)                                 // when the latest line about the latest call was drawn

  datatype Event = Tick(seconds: int) | Enter | Leave | CallerStep | MonitorStep

  function Lines(s: State, id: nat): nat {
    if id in s.lines then s.lines[id] else 0
  }

  predicate Init(s: State) {
    && s.clock >= 1 && s.startSec == 0 && s.lastWarn == 0
    && s.cpc == Running && s.stack == [] && s.mpc == Asleep
    && s.call == 0 && !s.inFlight && s.lines == map[] && s.callStart == 0 && s.starts == map[] && s.ends == map[]
  }

  predicate Enabled(s: State, e: Event) {
    && !s.mpc.Exited?
    && match e
       case Tick(n) => n >= 1
       case Enter => s.cpc == Running
       case Leave => s.cpc == Running && s.stack != []
       case CallerStep => s.cpc != Running
       case MonitorStep => true
  }

  // ----- Tracker::enter and Tracker::leave -----

  /** The load in enter; only an idle tracker goes on to read the clock and store. */
  function EnterLoad(s: State): State {
    if s.startSec == 0 then s.(cpc := EnterClock) else s.(stack := s.stack + [s.startSec])
  }

  /** leave gets back what enter returned; only the entry that found the tracker idle clears it. */
  function LeaveCall(s: State): State
    requires s.stack != []
  {
    var prev := s.stack[|s.stack| - 1];
    var t := s.(stack := s.stack[..|s.stack| - 1]);
    if prev == 0 then t.(cpc := LeaveStore) else t
  }

  function CallerMove(s: State): State {
    match s.cpc
    case Running => s
    case EnterClock => s.(cpc := EnterStore(s.clock))
    case EnterStore(time) =>
      s.(cpc := Running, startSec := time, stack := s.stack + [0],
         call := s.call + 1, callStart := time, inFlight := true, starts := s.starts[s.call + 1 := time])
    case LeaveStore =>
      s.(cpc := LeaveClear, startSec := 0, inFlight := false, ends := s.ends[s.call := s.clock])
    case LeaveClear => s.(cpc := Running, lastWarn := 0)
  }

  // ----- monitor_main -----

  function MonitorMove(threshold: int, s: State): State {
    match s.mpc
    case Asleep => s.(mpc := LoadStart, now := s.clock)
    case LoadStart =>
      if s.startSec == 0 || s.now - s.startSec < threshold then s.(mpc := Asleep)
      else s.(mpc := LoadLast, start := s.startSec, held := s.call)
    case LoadLast => s.(mpc := if s.now - s.lastWarn >= threshold then StoreLast else AbortTest)
    case StoreLast => s.(mpc := Warn, lastWarn := s.now)
    case Warn =>
      s.(mpc := AbortTest, lines := s.lines[s.held := Lines(s, s.held) + 1],
         lastLine := if s.held == s.call then s.now else s.lastLine)
    case AbortTest => s.(mpc := if s.now - s.start >= threshold * 2 then Exited else Asleep)
    case Exited => s
  }

  function Next(threshold: int, s: State, e: Event): State
    requires Enabled(s, e)
  {
    match e
    case Tick(n) => s.(clock := s.clock + n)
    case Enter => EnterLoad(s)
    case Leave => LeaveCall(s)
    case CallerStep => CallerMove(s)
    case MonitorStep => MonitorMove(threshold, s)
  }

  // ----- the caller's own invariant -----

  /** Outermost entry at the bottom of the stack, nested ones above it, each holding the outermost start. */
  predicate CallerInv(s: State) {
    && s.clock >= 1 && 0 <= s.callStart <= s.clock
    && (s.inFlight ==> s.call > 0 && s.callStart >= 1 && s.startSec == s.callStart)
    && (!s.inFlight ==> s.startSec == 0)
    && (s.stack != [] ==> s.inFlight && s.stack[0] == 0)
    && (forall i :: 1 <= i < |s.stack| ==> s.stack[i] == s.callStart)
    && (s.cpc == Running ==> (s.inFlight <==> s.stack != []))
    && (s.cpc != Running ==> s.stack == [])
    && (s.cpc == EnterClock || s.cpc.EnterStore? || s.cpc == LeaveClear ==> !s.inFlight)
    && (s.cpc.EnterStore? ==> 1 <= s.cpc.t <= s.clock)
    && (s.cpc == LeaveStore ==> s.inFlight)
  }

  // ----- the monitor's invariant -----

  /** The monitor has a start time in hand. */
  predicate Holding(s: State) {
    s.mpc == LoadLast || s.mpc == StoreLast || s.mpc == Warn || s.mpc == AbortTest
  }

  /** What the monitor holds is about the call that is still running. */
  predicate HoldsCurrent(s: State) {
    Holding(s) && s.held == s.call && s.inFlight
  }

  /** Every outermost call has its start on record, and its end once it is over. */
  predicate RecordInv(s: State) {
    && (s.call > 0 ==> s.call in s.starts && s.starts[s.call] == s.callStart)
    && (forall id :: id in s.starts ==> 1 <= id <= s.call)
    && (forall id :: id in s.ends ==> 1 <= id <= s.call)
    && (s.inFlight ==> s.call !in s.ends)
    && (Holding(s) ==>
          && s.held in s.starts && s.starts[s.held] == s.start
          && (if s.held in s.ends then s.now <= s.ends[s.held] else s.held == s.call && s.inFlight))
  }

  predicate MonitorInv(threshold: int, s: State) {
    && s.lastWarn <= s.clock
    && (Holding(s) || s.mpc == LoadStart ==> s.now <= s.clock)
    && (forall id :: id in s.lines ==> 1 <= id <= s.call)
    && (Holding(s) ==>
          && 1 <= s.held <= s.call && s.now - s.start >= threshold && 1 <= s.start
          && (s.held == s.call ==> s.start == s.callStart)
          && (s.held < s.call ==> s.now <= s.callStart && s.call !in s.lines))
    && (HoldsCurrent(s) && s.mpc == Warn ==> s.lastWarn == s.now)
    && (s.cpc.EnterStore? ==> s.lastWarn <= s.cpc.t && (Holding(s) ==> s.now <= s.cpc.t))
  }

  /** At most two lines per call; one only while a call is running, unless the process is about to go. */
  predicate LineInv(threshold: int, s: State) {
    && (forall id :: id in s.lines ==> s.lines[id] <= 2)
    && (Holding(s) && s.mpc != AbortTest ==> Lines(s, s.held) <= 1)
    && (s.inFlight && Lines(s, s.call) == 0 ==>
          s.lastWarn <= s.callStart || (s.mpc == Warn && s.held == s.call))
    && (s.inFlight && Lines(s, s.call) == 1 ==>
          s.callStart + threshold <= s.lastLine && (s.mpc == Warn || s.lastWarn == s.lastLine))
    && (s.inFlight && Lines(s, s.call) == 2 ==>
          s.mpc == Exited || (s.mpc == AbortTest && s.held == s.call && s.now - s.start >= 2 * threshold))
    && (HoldsCurrent(s) && (s.mpc == StoreLast || s.mpc == Warn) && Lines(s, s.call) == 1 ==>
          s.now >= s.lastLine + threshold)
  }

  predicate Inv(threshold: int, s: State) {
    CallerInv(s) && MonitorInv(threshold, s) && LineInv(threshold, s) && RecordInv(s)
  }

  lemma InitInv(threshold: int, s: State)
    requires Init(s)
    ensures Inv(threshold, s)
  {
  }

  /** A step that only makes a call begin or end, or lets time pass. */
  predicate IsOuter(e: Event) {
    e.Tick? || e.Enter? || e.Leave?
  }

  lemma OuterKeepsCaller(threshold: int, s: State, e: Event)
    requires CallerInv(s) && Enabled(s, e) && IsOuter(e)
    ensures CallerInv(Next(threshold, s, e))
  {
  }

  lemma MoveKeepsCaller(s: State)
    requires CallerInv(s)
    ensures CallerInv(CallerMove(s))
  {
  }

  lemma OuterKeepsMonitor(threshold: int, s: State, e: Event)
    requires threshold >= 1 && CallerInv(s) && MonitorInv(threshold, s) && Enabled(s, e) && IsOuter(e)
    ensures MonitorInv(threshold, Next(threshold, s, e))
  {
  }

  lemma MoveKeepsMonitor(threshold: int, s: State)
    requires threshold >= 1 && CallerInv(s) && MonitorInv(threshold, s)
    ensures MonitorInv(threshold, CallerMove(s))
  {
  }

  lemma ScanKeepsMonitor(threshold: int, s: State)
    requires threshold >= 1 && CallerInv(s) && MonitorInv(threshold, s) && s.mpc != Warn
    ensures MonitorInv(threshold, MonitorMove(threshold, s))
  {
  }

  lemma WarnKeepsMonitor(threshold: int, s: State)
    requires threshold >= 1 && CallerInv(s) && MonitorInv(threshold, s) && s.mpc == Warn
    ensures MonitorInv(threshold, MonitorMove(threshold, s))
  {
  }

  lemma OuterKeepsRecord(threshold: int, s: State, e: Event)
    requires CallerInv(s) && MonitorInv(threshold, s) && RecordInv(s) && Enabled(s, e) && IsOuter(e)
    ensures RecordInv(Next(threshold, s, e))
  {
  }

  lemma MoveKeepsRecord(threshold: int, s: State)
    requires CallerInv(s) && MonitorInv(threshold, s) && RecordInv(s)
    ensures RecordInv(CallerMove(s))
  {
  }

  lemma ScanKeepsRecord(threshold: int, s: State)
    requires CallerInv(s) && MonitorInv(threshold, s) && RecordInv(s)
    ensures RecordInv(MonitorMove(threshold, s))
  {
  }

  lemma OuterKeepsLines(threshold: int, s: State, e: Event)
    requires threshold >= 1 && CallerInv(s) && MonitorInv(threshold, s) && LineInv(threshold, s)
    requires Enabled(s, e) && IsOuter(e)
    ensures LineInv(threshold, Next(threshold, s, e))
  {
  }

  lemma MoveKeepsLines(threshold: int, s: State)
    requires threshold >= 1 && CallerInv(s) && MonitorInv(threshold, s) && LineInv(threshold, s)
    ensures LineInv(threshold, CallerMove(s))
  {
  }

  lemma ScanKeepsLines(threshold: int, s: State)
    requires threshold >= 1 && CallerInv(s) && MonitorInv(threshold, s) && LineInv(threshold, s)
    requires s.mpc != Warn && !s.mpc.Exited?
    ensures LineInv(threshold, MonitorMove(threshold, s))
  {
  }

  lemma WarnKeepsLines(threshold: int, s: State)
    requires threshold >= 1 && CallerInv(s) && MonitorInv(threshold, s) && LineInv(threshold, s) && s.mpc == Warn
    ensures LineInv(threshold, MonitorMove(threshold, s))
  {
  }

  lemma MonitorKeepsInv(threshold: int, s: State)
    requires threshold >= 1 && Inv(threshold, s) && !s.mpc.Exited?
    ensures Inv(threshold, MonitorMove(threshold, s))
  {
    if s.mpc == Warn {
      WarnKeepsMonitor(threshold, s);
      WarnKeepsLines(threshold, s);
    } else {
      ScanKeepsMonitor(threshold, s);
      ScanKeepsLines(threshold, s);
    }
    ScanKeepsRecord(threshold, s);
  }

  lemma MoveKeepsInv(threshold: int, s: State)
    requires threshold >= 1 && Inv(threshold, s) && Enabled(s, CallerStep)
    ensures Inv(threshold, CallerMove(s))
  {
    MoveKeepsCaller(s);
    MoveKeepsMonitor(threshold, s);
    MoveKeepsRecord(threshold, s);
    MoveKeepsLines(threshold, s);
  }

  lemma OuterKeepsInv(threshold: int, s: State, e: Event)
    requires threshold >= 1 && Inv(threshold, s) && Enabled(s, e) && IsOuter(e)
    ensures Inv(threshold, Next(threshold, s, e))
  {
    OuterKeepsCaller(threshold, s, e);
    OuterKeepsMonitor(threshold, s, e);
    OuterKeepsRecord(threshold, s, e);
    OuterKeepsLines(threshold, s, e);
  }

  lemma StepKeepsInv(threshold: int, s: State, e: Event)
    requires threshold >= 1 && Inv(threshold, s) && Enabled(s, e)
    ensures Inv(threshold, Next(threshold, s, e))
  {
    if e.MonitorStep? {
      MonitorKeepsInv(threshold, s);
    } else if e.CallerStep? {
      MoveKeepsInv(threshold, s);
    } else {
      OuterKeepsInv(threshold, s, e);
    }
  }

  // ----- every run -----

  function Exec(threshold: int, s: State, run: seq<Event>): Posix.Option<State>
    decreases |run|
  {
    if run == [] then Posix.Some(s) else
      var before := Exec(threshold, s, run[..|run| - 1]);
      if before.Some? && Enabled(before.value, run[|run| - 1])
      then Posix.Some(Next(threshold, before.value, run[|run| - 1]))
      else Posix.None
  }

  ghost predicate Reachable(threshold: int, t: State) {
    exists s, run :: Init(s) && Exec(threshold, s, run) == Posix.Some(t)
  }

  lemma {:induction false} RunKeepsInv(threshold: int, s: State, run: seq<Event>, t: State)
    requires threshold >= 1 && Inv(threshold, s) && Exec(threshold, s, run) == Posix.Some(t)
    ensures Inv(threshold, t)
    decreases |run|
  {
    if run != [] {
      var before := Exec(threshold, s, run[..|run| - 1]).value;
      RunKeepsInv(threshold, s, run[..|run| - 1], before);
      StepKeepsInv(threshold, before, run[|run| - 1]);
    }
  }

  lemma ReachableInv(threshold: int, t: State)
    requires threshold >= 1 && Reachable(threshold, t)
    ensures Inv(threshold, t)
  {
    var s, run :| Init(s) && Exec(threshold, s, run) == Posix.Some(t);
    InitInv(threshold, s);
    RunKeepsInv(threshold, s, run, t);
  }

  /** While a call is in flight, however deep the calls inside it go, the tracker shows when it began. */
  lemma OutermostStartIsKept(threshold: int, t: State)
    requires threshold >= 1 && Reachable(threshold, t)
    ensures t.stack != [] ==> t.startSec == t.callStart > 0
    ensures t.stack == [] && t.cpc == Running ==> t.startSec == 0
  {
    ReachableInv(threshold, t);
  }

  /** Whatever the race, no call ever draws more than two lines. */
  lemma AtMostTwoLines(threshold: int, t: State, id: nat)
    requires threshold >= 1 && Reachable(threshold, t)
    ensures Lines(t, id) <= 2
  {
    ReachableInv(threshold, t);
  }

  /** A second line about a call still in flight is the last thing the process says but for the abort. */
  lemma SecondLineMeansAbort(threshold: int, t: State)
    requires threshold >= 1 && Reachable(threshold, t) && t.inFlight && Lines(t, t.call) == 2
    ensures t.mpc == Exited || (t.mpc == AbortTest && MonitorMove(threshold, t).mpc == Exited)
  {
    ReachableInv(threshold, t);
  }

  /**
   * Whatever an earlier call left in last_warn_sec, the first scan that finds a running call past the
   * threshold goes on to warn about it.
   */
  lemma FirstWarningIsNeverSuppressed(threshold: int, t: State)
    requires threshold >= 1 && Reachable(threshold, t)
    requires t.mpc == LoadLast && HoldsCurrent(t) && Lines(t, t.call) == 0
    ensures MonitorMove(threshold, t).mpc == StoreLast
  {
    ReachableInv(threshold, t);
  }

  /**
   * The process is ended if and only if the call held had lasted twice the threshold when the scan began. That
   * call may be over by now, but then it ended after the scan had begun: no shorter call ever ends the process.
   */
  lemma AbortIsExact(threshold: int, t: State)
    requires threshold >= 1 && Reachable(threshold, t) && t.mpc == AbortTest
    ensures t.held in t.starts
    ensures MonitorMove(threshold, t).mpc == Exited <==> t.now >= t.starts[t.held] + 2 * threshold
    ensures if t.held in t.ends then t.now <= t.ends[t.held] else t.inFlight && t.held == t.call && t.now <= t.clock
    ensures MonitorMove(threshold, t).mpc == Exited && t.held in t.ends ==>
      t.ends[t.held] - t.starts[t.held] >= 2 * threshold
  {
    ReachableInv(threshold, t);
  }

  // ----- a scan that is left alone -----

  /** The monitor's own next n steps, with no step of the caller in between. */
  function Scan(threshold: int, s: State, n: nat): State {
    if n == 0 then s else MonitorMove(threshold, Scan(threshold, s, n - 1))
  }

  lemma ScanUnfolds(threshold: int, s: State)
    ensures Scan(threshold, s, 2) == MonitorMove(threshold, MonitorMove(threshold, s))
    ensures Scan(threshold, s, 5) == Scan(threshold, Scan(threshold, s, 2), 3)
    ensures Scan(threshold, s, 6) == MonitorMove(threshold, Scan(threshold, s, 5))
  {
    assert Scan(threshold, s, 1) == MonitorMove(threshold, Scan(threshold, s, 0));
    var u := Scan(threshold, s, 2);
    assert Scan(threshold, u, 1) == MonitorMove(threshold, u) == Scan(threshold, s, 3);
    assert Scan(threshold, u, 2) == MonitorMove(threshold, Scan(threshold, u, 1)) == Scan(threshold, s, 4);
  }

  /** A scan of a call past the threshold gets as far as the rate limit, with the call in hand. */
  lemma ScanBegins(threshold: int, t: State)
    requires threshold >= 1 && Reachable(threshold, t) && t.mpc == Asleep
    requires t.inFlight && t.clock - t.callStart >= threshold
    ensures Scan(threshold, t, 2) == t.(mpc := LoadLast, now := t.clock, start := t.callStart, held := t.call)
  {
    ReachableInv(threshold, t);
    ScanUnfolds(threshold, t);
  }

  /** And from there to the test for the abort, at most three steps on. */
  lemma ScanGoesOn(threshold: int, u: State)
    requires u.mpc == LoadLast
    ensures u.now - u.lastWarn >= threshold ==>
      && Scan(threshold, u, 3).mpc == AbortTest && Scan(threshold, u, 3).call == u.call
      && Scan(threshold, u, 3).now == u.now && Scan(threshold, u, 3).start == u.start
      && Scan(threshold, u, 3).lines == u.lines[u.held := Lines(u, u.held) + 1]
    ensures u.now - u.lastWarn < threshold && u.now - u.start >= 2 * threshold ==> Scan(threshold, u, 3).mpc == Exited
  {
    assert Scan(threshold, u, 1) == MonitorMove(threshold, u);
    assert Scan(threshold, u, 2) == MonitorMove(threshold, Scan(threshold, u, 1));
    assert Scan(threshold, u, 3) == MonitorMove(threshold, Scan(threshold, u, 2));
  }

  /** A call in flight for the threshold or longer that has drawn no line draws one at the next scan. */
  lemma ScanWarns(threshold: int, t: State)
    requires threshold >= 1 && Reachable(threshold, t) && t.mpc == Asleep
    requires t.inFlight && t.clock - t.callStart >= threshold && Lines(t, t.call) == 0
    ensures Scan(threshold, t, 5).call == t.call && Lines(Scan(threshold, t, 5), t.call) == 1
  {
    ReachableInv(threshold, t);
    ScanBegins(threshold, t);
    ScanGoesOn(threshold, Scan(threshold, t, 2));
    ScanUnfolds(threshold, t);
  }

  /** A call in flight for twice the threshold or longer is the end of the process at the next scan. */
  lemma ScanAborts(threshold: int, t: State)
    requires threshold >= 1 && Reachable(threshold, t) && t.mpc == Asleep
    requires t.inFlight && t.clock - t.callStart >= 2 * threshold
    ensures Scan(threshold, t, 6).mpc == Exited
  {
    ScanBegins(threshold, t);
    ScanGoesOn(threshold, Scan(threshold, t, 2));
    ScanUnfolds(threshold, t);
  }

  /** With no call in flight, or a shorter one, the next scan does nothing. */
  lemma ScanIsQuiet(threshold: int, t: State)
    requires threshold >= 1 && Reachable(threshold, t) && t.mpc == Asleep
    requires !t.inFlight || t.clock - t.callStart < threshold
    ensures Scan(threshold, t, 2).mpc == Asleep && Scan(threshold, t, 2).lines == t.lines
    ensures Scan(threshold, t, 2).lastWarn == t.lastWarn
  {
    ReachableInv(threshold, t);
    ScanUnfolds(threshold, t);
  }

  /** Whatever the race, no line is about a call that had not lasted the threshold when the scan began. */
  lemma LinesAreDeserved(threshold: int, t: State)
    requires threshold >= 1 && Reachable(threshold, t) && t.mpc == Warn
    ensures t.held in t.starts && t.now - t.starts[t.held] >= threshold
    ensures t.held in t.ends ==> t.ends[t.held] - t.starts[t.held] >= threshold
  {
    ReachableInv(threshold, t);
  }

  // ----- an abort for a call that is over -----

  lemma ReachNext(threshold: int, t: State, e: Event) returns (u: State)
    requires Reachable(threshold, t) && Enabled(t, e)
    ensures u == Next(threshold, t, e) && Reachable(threshold, u)
  {
    var s, run :| Init(s) && Exec(threshold, s, run) == Posix.Some(t);
    var longer := run + [e];
    assert longer[..|longer| - 1] == run;
    u := Next(threshold, t, e);
    assert Exec(threshold, s, longer) == Posix.Some(u);
  }

  lemma ToScan() returns (t: State)
    ensures Reachable(1, t) && t.mpc == LoadLast && t.now == 3 && t.start == 1 && t.held == t.call == 1
    ensures t.cpc == Running && t.stack == [0] && t.lastWarn == 0
  {
    t := State(1, 0, 0, Running, [], Asleep, 0, 0, 0, 0, false, map[], map[], 0, map[], 0);
    assert Exec(1, t, []) == Posix.Some(t);
    t := ReachNext(1, t, Enter);
    t := ReachNext(1, t, CallerStep);
    t := ReachNext(1, t, CallerStep);
    t := ReachNext(1, t, Tick(2));
    t := ReachNext(1, t, MonitorStep);
    t := ReachNext(1, t, MonitorStep);
  }

  lemma CallEnds(s: State) returns (t: State)
    requires Reachable(1, s) && s.mpc == LoadLast && s.now == 3 && s.start == 1 && s.held == s.call == 1
    requires s.cpc == Running && s.stack == [0] && s.lastWarn == 0
    ensures Reachable(1, t) && t.mpc == LoadLast && t.now == 3 && t.start == 1 && t.held == 1 && 1 in t.ends
    ensures t.cpc == Running && t.stack == [] && t.lastWarn == 0
  {
    t := ReachNext(1, s, Leave);
    t := ReachNext(1, t, CallerStep);
    t := ReachNext(1, t, CallerStep);
  }

  /** It does happen: the call returns between the monitor's load of its start and the test that ends the process. */
  lemma AbortCanComeLate() returns (t: State)
    ensures Reachable(1, t) && t.mpc == AbortTest && MonitorMove(1, t).mpc == Exited
    ensures t.held in t.ends && t.stack == [] && t.cpc == Running
  {
    t := ToScan();
    t := CallEnds(t);
    t := ReachNext(1, t, MonitorStep);
    t := ReachNext(1, t, MonitorStep);
    t := ReachNext(1, t, MonitorStep);
  }
}
