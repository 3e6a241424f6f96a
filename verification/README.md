# A verified model of the autossh supervisor

autossh starts one ssh child, watches it under signals, an alarm and a stderr pipe, kills it when it is
stuck and starts it again with a growing pause. This project models that supervisor, the embedding API
around it, the stuck detector that is preloaded into ssh, the echo test on the monitor ports and the
rewriting of the command line, and proves what they guarantee over every run and every input.

`dafny verify dfyconfig.toml` checks everything.

## How the model is built

- **`Supervisor`** is a transition system. `ssh_run`, `ssh_watch`, `ssh_wait`, `ssh_kill`, `grace_time`,
  `check_ssh_stderr` and `sig_catch` are cut at every statement that matters into labelled program points.
  The environment answers system calls, lets time pass, ends the child, raises signals and delivers them
  between any two points where the mask lets them in. `sigsetjmp` records the running call and the mask, and
  `siglongjmp` into a call that is over is a state of its own (`WildJump`). `Reachable` is every state of every
  run. A `History` records what happened (forks, reaps, descriptors, lost alarms); no step depends on it.
- The invariants are split by subject: **`SignalSafety`**, **`ProcessSafety`**, **`ExitSafety`**,
  **`StartSafety`**, **`RestartSafety`**, **`ReturnSafety`**, **`TimerSafety`**, **`LifeSafety`**, **`Silence`** and
  **`WayOut`**. Each shows region by region that a step keeps its part. **`Theorems`** puts them together over whole runs
  and draws the conclusions; **`Progress`** shows what the supervisor can always do by itself. **`LateAlarm`** and
  **`LostAlarm`** are concrete runs.
- **`Observer`** is a bystander with no part in the steps: from each event, and from what the manual and the comments
  promise, it keeps its own account of what has to follow (a child condemned, an alarm to work through, data to read, a
  status to judge, a signal to send). **`Obedience`** shows that every step agrees with it, and **`Verdicts`** says what that
  means over whole runs.
- **`SessionRace`** and **`StuckTracker`** are interleaving models of the same kind: any number of threads calling
  stop and state on one session, and a caller with its monitor thread over one tracker.
- **`Grace`**, **`Drain`**, **`StripArg`**, **`ArgList`**, **`ArgRewrite`**, **`StuckReport`**, **`EchoTest`**,
  **`Session`** and **`EnvArgs`** are imperative, as the source is: classes and in-place loops over arrays, proved
  against specification functions, and lemmas that say what those functions are worth.
- **`WaitPolicy`** is the pure decision on an exit status; **`Posix`** holds signals, masks and 32-bit casts.

## What turned out not to hold

Each of these is a claim of the manual, of a comment or of the obvious reading. The model follows the code; the
members named give a failing case and the exact condition.

- The alarm does not always end the life on time; `ArmedInTimeIff` says exactly when it does. If the lifetime runs out
  before the seconds are computed, in grace_time for example, `alarm` gets 0 or a wrapped negative number and nothing
  ends the wait (`LateAlarmIsLost`, `WaitWithoutAlarm`). And a first poll time above the poll time, which `get_env_args`
  accepts, is armed in full although the lifetime is over first (`OverrunNeedsLongPoll`, `WaitPastTheEnd`).
- With a lifetime limit a wake-up can put the alarm off (`PostponedIff`, `AlarmIsPutOff`); without one it cannot
  (`WakeUpsNeverPostpone`).
- A SIGALRM that arrives outside the blocking wait is lost (`SignalsActOnlyInTheWait`), and a silent child is then watched
  longer than the limit and one interval (`AlarmIsLost`); each one costs the silence watchdog one polling interval, and no
  more (`SilentChildIsKilledInTime`).
- The manual (README:132-133) says that SIGHUP prods autossh out of its backoff. The handlers are off there, and SIGHUP
  ends autossh (`ProddingKillsIff`).
- `strip_arg` does not examine the byte it has just shifted in: `-ff` keeps an f, and a value glued to the flag behind
  an f is scanned (`StripPurgesIff`, `StripFailures`). Its comment says that the slide may read one byte past the end
  (src/args.rs:104-109); `StripInPlace` shows that it never does.
- `AUTOSSH_PORT` does not override a `-M` that comes first: that one is passed on to ssh (`OverrideHoldsIff`).
- The stuck detector can end the process for a call that has just returned, though never for one that was shorter than
  twice the threshold (`AbortCanComeLate`, `AbortIsExact`).
- A fatal line cut between two reads is missed (`SplitPortFailureIsMissed`, `FatalIff`, `LineAlignedDrainIsExact`).
- A ready listening socket that does not report POLLIN makes `conn_test` close descriptor 0, which it was never given
  (`Conservation`). The constant promises three attempts; there are two (`ConnTest`).
- A failed start signals a pid that it has reaped itself, if the supervisor died while it was waited for
  (`StartSignalsAStrangerIff`), and a stop can signal a pid that a state poll has reaped (`SignalMissesIff`,
  `SignalCanMiss`).
- Starting a session that is running fails and leaves it in the state ERROR, still running (`Session.Start`).
- `poll_time * 1000` wraps in 32 bits and can leave a negative timeout, which means no timeout (`NetTimeoutIff`,
  `NetTimeoutWraps`). A limit on starts of 2^31 or more can turn into no limit (`StartLimitIsKeptIff`).

## Model

| member | source | states |
|---|---|---|
| `Theorems.NoWildJump` | src/signals.rs:72-75 | in no run does a handler jump into an ssh_watch call that is over |
| `Theorems.JumpsAreSafe` | src/watch.rs:96-199 | in every reachable state with dolongjmp set, the handled signals are blocked or the thread is in the wait, and the jump buffer belongs to the running call; after ssh_watch returns dolongjmp is clear and the caller's mask is back; an armed alarm has its handler |
| `Theorems.SignalsActOnlyInTheWait` | src/watch.rs:158-207 | a caught signal leads to the catch branch if and only if it arrives in ppoll or sigsuspend; anywhere else the code goes on where it was and the signal is used up |
| `Theorems.SecondExitSignalForces` | src/signals.rs:64-70 | a SIGTERM or SIGINT ends the process on the spot if and only if one was caught before |
| `Theorems.ProddingKillsIff` | src/signals.rs:133-146 | SIGHUP, SIGUSR1 and SIGUSR2 end autossh if and only if the handlers are off, which they are throughout the backoff; they are on around ssh_watch and in an ssh_kill that has a child |
| `Theorems.KillsHitTheChild` | src/kill.rs:29-65 | every SIGTERM and SIGKILL goes to a positive pid that was forked and has not been reaped |
| `Theorems.ChildrenAreAccountedFor` | src/run.rs:101-163 | forks = reaped + given up + the one child in hand; when ssh_run returns or halts, no child is left but those given up |
| `Theorems.DescriptorsAreConserved` | src/run.rs:92-158 | every descriptor pipe gave out is closed exactly once on all paths; ssh_stderr_fd is -1 before every fork; nothing is open at the end |
| `Theorems.ExitSignalEndsIt` | src/watch.rs:149-156 | the blocking wait is never in progress with the exit flag set, and at most one more child is forked, only if the signal fell between the test of the flag and the fork |
| `Theorems.WayOutIsBounded` | src/run.rs:54-163 | from any reachable state with the exit flag set, whatever the environment does, at most 51 more statements run, not counting further reads of stderr |
| `Theorems.WayOutIsQuick` | src/run.rs:54-163 | and where no time is lost, at most 14 seconds and one poll time pass: a kill, two port delays and one backoff |
| `Progress.NeverStuck` | src/watch.rs:158-199 | in every reachable state a step is possible that needs no new signal, no death of the child, no failing call and no return for no reason, time passing only up to a wake-up or the alarm; only a wait needs that no arming was late and the caller does not block SIGALRM |
| `Progress.WaitEndsByItself` | src/watch.rs:158-199 | every wait has a run out of it made of time, the alarm and the delivery of signals already raised, unless an arming was late or the caller blocks SIGALRM |
| `Progress.WayOutIsReached` | src/run.rs:60-163 | from any reachable state with the exit flag set the end is reached without help from outside; if no signal is pending that ends the process on the spot, ssh_run returns or halts on an error with every child reaped or given up and every descriptor closed |
| `Theorems.ForksStartClean` | src/run.rs:60-101 | at every fork the per-child flags and the alarm are clear, and after a port failure grace_time's own five-second sleep, begun after the failure was read, has run in full |
| `Theorems.CutDelayIsTheEnd` | src/run.rs:60-64 | a port delay that was cut short is followed by no fork: ssh_run returns with an error |
| `Theorems.StartLimitHolds` | src/run.rs:54-59 | a non-negative max_start bounds the number of forks over the whole run |
| `Theorems.RunsBackOff` | src/grace.rs:33-51 | over every run: after exactly k short-lived children in a row the pause before the next start is the k-th backoff |
| `Theorems.RestartOnRequest` | src/watch.rs:113-117 | no wait, no arming and no start is ever in progress with a restart request outstanding, and when the request is cleared its child is gone |
| `Theorems.RestartIsServed` | src/watch.rs:106-117 | whatever the environment does, no request stays outstanding for more than 51 statements, not counting further reads of stderr |
| `Theorems.ReturnsForAReason` | src/wait.rs:50-123 | over every run: ssh_run returns an error only if an exit signal was caught or the last child exited with a final code, as the first one within the gate time, or with 1 or 2 as the first one with the gate on; it returns quietly only if the lifetime is over, the starts are used up or the last child exited with 0 and not as the first one within the gate time; never because a child died of a signal |
| `Verdicts.SentencesAreCarriedOut` | src/watch.rs:106-276 | over every run, both ways: once there are grounds to end the child or autossh, nothing else goes on until ssh_watch and ssh_run have killed and returned with exactly the verdict that calls for; without grounds nothing is killed and nothing returns |
| `Verdicts.GroundsAre` | src/watch.rs:113-270 | the grounds one by one: starts used up, lifetime over, exit signal, fork failed, SIGUSR1, dead child, stuck child, monitor port down, fatal line |
| `Verdicts.CondemnedIsNotWatched` | src/watch.rs:266-270 | a condemned child, for instance one whose monitor port is down, is never watched, armed for or waited on again, and no other is forked before its time |
| `Verdicts.SentencesAreServed` | src/watch.rs:106-276 | whatever the environment does, that takes at most 51 statements |
| `Verdicts.FinalDeathIsFinal` | src/run.rs:150-163 | with the status taken from the process table: after a death reported by ssh_wait the next start is on its way only if it calls for one (a signal, 255 outside the gate, 1 or 2 with a later start or the gate off); else ssh_run returns P_EXITOK for 0 and P_EXITERR for the rest |
| `Verdicts.EveryDeathIsJudged` | src/wait.rs:41-50 | every death waitpid reports to ssh_wait is judged, by its own status, before anything else goes on |
| `Verdicts.FlagsAreTheSignals` | src/signals.rs:61-70 | exit_signalled is set exactly if SIGTERM or SIGINT was caught, restart_ssh exactly if SIGUSR1 was since it was cleared; start_count and start_time are those of the starts made |
| `Verdicts.AlarmsAreWorkedThrough` | src/watch.rs:214-270 | after a SIGALRM that ended a wait nothing is armed or waited for before lifetime, watchdog, stderr and echo test have had their turn, in this order |
| `Verdicts.ReportsAreHeeded` | src/watch.rs:173-195 | data ppoll reports is read at once and to the end; a hang-up without data closes the pipe and dates the loss |
| `Verdicts.FirstPollIsUsed` | src/watch.rs:97-131 | the first arming of a watch goes by the first poll time, all others by the poll time |
| `Verdicts.KillsEscalate` | src/kill.rs:39-64 | SIGTERM comes first, SIGKILL only after two polls in vain |
| `Verdicts.GivenUpAfterBoth` | src/kill.rs:54-64 | a child is given up only if both signals were sent in vain or waitpid itself failed |
| `Verdicts.PollsAreASecondApart` | src/kill.rs:70-100 | between two polls there is a sleep of one second |
| `Verdicts.PortDelayIsFive` | src/watch.rs:178-185 | the port delay of ssh_watch is five seconds from the end of the kill |
| `Verdicts.SignalsCutSleeps` | src/signals.rs:82-121 | a caught signal ends the sleep it comes in |
| `Verdicts.HistoryIsTrue` | src/run.rs:101-163 | the records the other theorems speak of are true: the bystander counts the same births, lost alarms, port failures and starts, and finds the same armings late or past the end of life |
| `Obedience.StepObeysSentence` | src/watch.rs:106-276 | a sentence stands exactly while it is being carried out |
| `Obedience.StepObeysReaped` | src/wait.rs:39-123 | what is judged is the status of the child that was reaped |
| `Obedience.StepObeysFlags` | src/signals.rs:61-70 | the flags follow the signals and the counters the starts |
| `Obedience.StepObeysDue` | src/watch.rs:214-270 | the checks an alarm calls for are made in order |
| `Obedience.StepObeysReport` | src/watch.rs:173-195 | what ppoll reported is acted on before anything else |
| `Obedience.StepObeysDrained` | src/stderr_drain.rs:36-46 | reading goes on until there is no more or something is found |
| `Obedience.StepObeysHeard` | src/stderr_drain.rs:49-50 | last_stderr_time and pipe_lost_time say what was heard and when the pipe was lost |
| `Obedience.StepObeysFresh` | src/watch.rs:127-131 | the poll time in hand is the first one exactly until something was armed |
| `Obedience.StepObeysKills` | src/kill.rs:39-101 | each stage of ssh_kill has its signals and polls behind it |
| `Obedience.StepObeysRecord` | src/run.rs:101-163 | births, lost alarms, port failures and starts are recorded as they happen |
| `Obedience.StepObeysLate` | src/watch.rs:127-147 | an arming is recorded as late, or as past the end of life, exactly if it is |
| `Theorems.EveryWaitIsTimed` | src/watch.rs:127-147 | no wait is in progress without an alarm set or due, provided no arming came after the end of the lifetime |
| `Theorems.WakeUpsNeverPostpone` | src/watch.rs:127-131 | without a lifetime limit, taking the alarm back and arming it again moves the deadline by no more than the time between the two, and not at all if none passes there |
| `Theorems.LifeEndsOnTime` | src/watch.rs:133-147 | with a lifetime limit, if every arming was in time, the deadline is at most the end of life, but for time lost between computing and arming; where none is lost, no wait goes on past the end of life |
| `Theorems.ChildEndsWithLife` | src/watch.rs:214-219 | a child born within a lifetime in which every arming was in time and no time is lost is watched up to its end at most and gone four seconds after it |
| `Theorems.OnlyLateArmingOverruns` | src/watch.rs:133-140 | with a first poll time no longer than the poll time, an arming is out of time only if the lifetime had run out |
| `Theorems.SilenceIsBounded` | src/watch.rs:221-252 | a child from which nothing was read is watched for less than the session limit and one polling interval, plus the cost of lost alarms |
| `Theorems.SilentChildIsGone` | src/watch.rs:221-252 | four seconds later it has been reaped or given up |
| `Theorems.SilentChildIsKilledInTime` | src/watch.rs:221-252 | in closed form, k being the number of lost SIGALRMs: watched for less than S + (k+1)*min(poll_time, S) from birth, and gone within four seconds more |
| `Theorems.WatchdogIsPatient` | src/watch.rs:221-252 | the watchdog kills a child only if nothing was read from it in the full limit since its start, or if its pipe was lost, after its start, and the full limit has passed since the loss |
| `Theorems.KillTakesFourSeconds` | src/kill.rs:39-101 | ssh_kill is over within four seconds of its start |
| `Theorems.ReachableInv` | src/run.rs:42-168 | every state of every run satisfies the whole invariant |
| `Theorems.StepKeepsProcess` | src/run.rs:92-163 | every step keeps the invariants on signals, children, counts and descriptors |
| `Theorems.StepKeepsLeaving` | src/run.rs:150-163 | every step keeps the invariants on exit, reaping, restart requests and verdicts |
| `Theorems.StepKeepsStarts` | src/run.rs:54-65 | every step keeps the invariants on starts and the count of failures |
| `Theorems.StepKeepsStderrs` | src/run.rs:65-91 | every step keeps the invariants on the stderr record, the port delay and the pipe |
| `Theorems.StepKeepsTime` | src/watch.rs:127-147 | every step keeps the invariants on alarms, lifetime and kill time |
| `Theorems.StepKeepsEnd` | src/watch.rs:214-219 | every step keeps the invariants on sleeps and the end of life |
| `Theorems.StepKeepsSilent` | src/watch.rs:221-252 | every step keeps the invariants on silent children |
| `SignalSafety.StepKeepsMask` | src/watch.rs:99-111 | the mask is the caller's or the caller's with the handled signals, exactly by program point, and the saved mask is the caller's |
| `SignalSafety.StepKeepsJump` | src/watch.rs:119-199 | dolongjmp is set exactly in the arming and waiting window, where the jump buffer is the running call's |
| `SignalSafety.StepKeepsHandler` | src/signals.rs:82-146 | which handlers are installed at each point, and no alarm without its handler |
| `ProcessSafety.StepKeepsChild` | src/kill.rs:29-101 | the unreaped children are those given up and the one cchild names |
| `ProcessSafety.StepKeepsCount` | src/wait.rs:39-48 | forks are reaped or still there |
| `ProcessSafety.StepKeepsFds` | src/watch.rs:188-195 | the open descriptors are exactly those the program still knows, and no close ever misses |
| `ProcessSafety.StepKeepsHalt` | src/run.rs:125-135 | an ssh_kill on the way to a halt has the handlers on exactly if it has a child |
| `ExitSafety.StepKeepsExit` | src/watch.rs:146-156 | the wait is not entered with the exit flag set, and forks after it are counted |
| `ExitSafety.StepKeepsReap` | src/kill.rs:70-101 | reap_with_grace counts no further than two |
| `ExitSafety.StepDescends` | src/kill.rs:70-101 | with the exit flag set every statement brings the end nearer and no signal takes it further away |
| `StartSafety.StepKeepsLog` | src/signals.rs:72-75 | each SIGALRM caught without a jump is put down as one polling interval |
| `StartSafety.StepKeepsStart` | src/run.rs:54-59 | forks stay within counted starts, and counted starts within the limit |
| `StartSafety.StepKeepsStderr` | src/run.rs:65-73 | last_stderr_time is 0 exactly as long as nothing was read from this child |
| `StartSafety.StepKeepsPort` | src/grace.rs:53-61 | a port failure, read on whatever path, stays flagged until grace_time's own sleep has run in full or an exit signal has cut it short |
| `StartSafety.StepKeepsTries` | src/grace.rs:36-40 | the count of failures is what the history of starts makes it |
| `RestartSafety.StepKeepsRestart` | src/watch.rs:106-117 | a restart request is outstanding only on the way to its test or with the child on its way out |
| `RestartSafety.StepServes` | src/watch.rs:106-117 | with a request outstanding every statement brings its end nearer and no signal takes it further away |
| `ReturnSafety.StepKeepsPipe` | src/watch.rs:188-195 | once the pipe is lost nothing can be read any more, and it was lost in this child's time |
| `ReturnSafety.StepKeepsReturn` | src/run.rs:150-167 | every verdict on its way out of ssh_watch and ssh_run has its grounds |
| `TimerSafety.StepKeepsAlarm` | src/watch.rs:127-147 | as long as no arming was late, the seconds armed are at least 1 and every wait has its alarm |
| `TimerSafety.StepKeepsRearm` | src/watch.rs:127-131 | without a lifetime limit what is armed anew is for no more seconds than were left of what was taken back |
| `TimerSafety.PostponedIff` | src/watch.rs:127-144 | with a lifetime limit the alarm is put off if and only if what is left of life lies between what was left of the alarm and the poll time, and no session limit cuts it |
| `TimerSafety.SecsToArmIs` | src/watch.rs:127-144 | the seconds armed in full: what is left of life if that is below the poll time, else what is left of the alarm, else the poll time in hand; never more than the session limit |
| `TimerSafety.ArmedInTimeIff` | src/watch.rs:127-147 | for every configuration with a lifetime limit: the seconds armed are at least 1 and end within the lifetime if and only if a second of it is left and either it is shorter than the poll time or what would be armed without it fits |
| `TimerSafety.LateAlarmIsLost` | src/watch.rs:136-147 | with the lifetime over no alarm is set, or one more than 68 years off |
| `TimerSafety.OverrunNeedsLongPoll` | src/watch.rs:133-144 | out of time otherwise means that more than a poll time was armed, and by how much it is over |
| `TimerSafety.StepKeepsLifetime` | src/watch.rs:133-147 | as long as every arming was in time, every deadline lies within the lifetime |
| `TimerSafety.StepKeepsSteady` | src/watch.rs:127-140 | with a first poll time no longer than the poll time nothing longer than the poll time is ever armed |
| `TimerSafety.StepKeepsKillTime` | src/kill.rs:70-101 | the clock inside ssh_kill stays within its budget of sleeps |
| `LifeSafety.StepKeepsLife` | src/watch.rs:214-219 | a child born within the lifetime is watched only up to its end, and its kill begins by then |
| `WayOut.StepKeepsSleep` | src/grace.rs:47-61 | no sleep is longer than the backoff, the port delay or the second of reap_with_grace it is for |
| `WayOut.StepSpends` | src/run.rs:54-163 | with the exit flag set and no time lost, every second that passes is taken from a bounded account |
| `WayOut.StaysHarmless` | src/signals.rs:133-146 | with nothing pending but SIGCHLD and a SIGALRM that is caught or blocked, no step ends the process from outside |
| `Silence.StepKeepsSilence` | src/watch.rs:221-252 | the next deadline of a silent child always falls within one interval of the limit |
| `Silence.StepKeepsGone` | src/watch.rs:246-251 | the kill of a silent child begins within one interval of the limit |
| `LateAlarm.WaitWithoutAlarm` | src/watch.rs:133-147 | a concrete run, in which grace_time waits out a port failure, that waits on a live child at its end of life with no alarm set or due |
| `LateAlarm.WaitPastTheEnd` | src/watch.rs:127-147 | another, with a first poll time above the poll time, that waits under an alarm past the end of life although it was armed before it |
| `LostAlarm.AlarmIsPutOff` | src/watch.rs:127-147 | a concrete run in which SIGHUP at second 8 turns an alarm due at second 11 into one due at second 16 |
| `LostAlarm.AlarmIsLost` | src/watch.rs:200-212 | a concrete run in which a SIGALRM is lost and a silent child is watched beyond the limit and one interval |
| `WaitPolicy.ManualRules` | src/wait.rs:50-123 | the manual's rules as equivalences: when autossh restarts ssh, when it leaves quietly, when it gives up |
| `Grace.GraceTimer.GraceTime` | src/grace.rs:27-62 | the new count, the exact sleeps made and the cleared flag |
| `Grace.ShortLivedIff` | src/grace.rs:28-36 | short-lived means less than ten seconds, or than a tenth of the poll time if that is longer |
| `Grace.SleepsMean` | src/grace.rs:42-61 | in all grace_time sleeps for the backoff and, after a port failure, five seconds more |
| `Grace.ConsecutiveFailuresAreCounted` | src/grace.rs:36-40 | over any history of starts the count is the number of short-lived children since the last long-lived one |
| `Grace.BackoffLaw` | src/grace.rs:42-51 | no pause for five failures, then min(poll, floor(poll*(k-5)^2/300)) |
| `Grace.BackoffNeverShrinks` | src/grace.rs:42-51 | the pause never gets shorter while failures go on |
| `Grace.BackoffCeiling` | src/grace.rs:47-51 | the pause is the poll time if and only if k >= 23 |
| `Drain.StderrDrain.CheckSshStderr` | src/stderr_drain.rs:30-85 | which reads are consumed, the answer, both flags, the time stamp and every byte forwarded, on a reused buffer |
| `Drain.StderrDrain.DrainAll` | src/stderr_drain.rs:36-84 | the loop: up to and including the first read in which something is found |
| `Drain.StderrDrain.DrainChunk` | src/stderr_drain.rs:48-83 | one read: stamped, forwarded and searched |
| `Drain.TerminatedRead` | src/stderr_drain.rs:48-49 | after the NUL is written strstr sees that read and no stale byte of the buffer |
| `Drain.FindingIsReal` | src/stderr_drain.rs:60-83 | a fatal answer means that the pattern is contiguous in the bytes of one read |
| `Drain.NulFreeChunkIsExact` | src/stderr_drain.rs:60-83 | within one NUL-free read detection is exact |
| `Drain.FatalIff` | src/stderr_drain.rs:36-85 | a whole drain is fatal if and only if one single read holds a pattern |
| `Drain.LineAlignedDrainIsExact` | src/stderr_drain.rs:36-85 | if reads end where lines end, the answer is exact about everything that was read |
| `Drain.SplitPortFailureIsMissed` | src/stderr_drain.rs:36-85 | wherever the failure line is cut between two reads, a drain of the two is not fatal although the bytes hold the line |
| `SessionRace.OneStopSignals` | src/api.rs:446-467 | whatever the interleaving, at most one stop signals a supervisor, and only one that was started |
| `SessionRace.StoppedMeansReaped` | src/api.rs:446-472 | when the stop that took a supervisor returns, that supervisor has been reaped |
| `SessionRace.StopsEscalate` | src/api.rs:454-469 | a stop that took a supervisor and returned has sent it SIGTERM, and SIGKILL goes only to one found alive by fifty polls |
| `SessionRace.LatePollClearsNothingElse` | src/api.rs:489-496 | a delayed state poll clears a pid only if it has itself reaped that process, so never one stored by a later start |
| `SessionRace.PollSeesDeath` | src/api.rs:484-498 | left alone, a state poll on a dead supervisor reaps it and clears the pid |
| `SessionRace.SignalMissesIff` | src/api.rs:448-467 | a stop's signal goes to a reaped pid if and only if a state poll has reaped it |
| `SessionRace.SignalCanMiss` | src/api.rs:484-498 | a concrete interleaving in which it does |
| `SessionRace.NothingIsLeaked` | src/api.rs:441-498 | with no call in progress there is an unreaped supervisor exactly if its pid is stored |
| `SessionRace.StepKeepsInv` | src/api.rs:441-498 | every step keeps ownership of pids and of unreaped supervisors |
| `Session.Session.constructor` | src/api.rs:375-388 | a new session is in its initial state with no pid |
| `Session.Session.KillPid` | src/api.rs:101-106 | nothing is ever sent to a pid that is not positive |
| `Session.Session.ChildExited` | src/api.rs:242-250 | true if and only if the process is a dead child of ours, which is then reaped |
| `Session.Session.WaitForListener` | src/api.rs:252-274 | the first turn that decides: listening, died early, timed out; dying means reaped with the pid still stored |
| `Session.ListenIff` | src/api.rs:258-273 | by looks: up if and only if some look finds the port open with nothing before it, died early if and only if some look finds the supervisor dead with nothing before it, timed out if and only if no look finds either |
| `Session.Session.Start` | src/api.rs:391-438 | success if and only if no pid was stored, the ports and the fork worked and the listener came up; after a failure pid and processes are as before; exactly which signals were sent |
| `Session.Session.Stop` | src/api.rs:441-472 | afterwards no pid and nothing unreaped; exactly which signals were sent, SIGKILL only after fifty polls |
| `Session.TeardownMeans` | src/api.rs:454-469 | SIGTERM always and first, SIGKILL exactly if fifty polls find the process running |
| `Session.Session.Query` | src/api.rs:484-498 | the state becomes EXITED with the pid cleared exactly if the supervisor is dead; otherwise nothing changes |
| `Session.StartSignalsAStrangerIff` | src/api.rs:258-262 | a failed start signals a process it has reaped if and only if the supervisor died while it was waited for |
| `Session.Serve` | src/api.rs:391-498 | after any series of calls there is one unreaped supervisor if and only if the pid is positive, and the state agrees |
| `StuckTracker.OutermostStartIsKept` | ssh-stuck-detector/src/lib.rs:47-61 | however deep calls nest, the tracker shows when the outermost began, and is idle when none is in flight |
| `StuckTracker.AtMostTwoLines` | ssh-stuck-detector/src/lib.rs:107-139 | whatever the race with leave, no call draws more than two lines |
| `StuckTracker.SecondLineMeansAbort` | ssh-stuck-detector/src/lib.rs:116-139 | a second line about a call still in flight comes with the abort |
| `StuckTracker.FirstWarningIsNeverSuppressed` | ssh-stuck-detector/src/lib.rs:118-122 | no value an earlier call left in last_warn_sec keeps the first warning of a later call back |
| `StuckTracker.ScanWarns` | ssh-stuck-detector/src/lib.rs:105-122 | a call in flight for the threshold or longer that has drawn no line draws one at the next scan |
| `StuckTracker.ScanAborts` | ssh-stuck-detector/src/lib.rs:105-139 | one in flight for twice the threshold or longer is the end of the process at the next scan |
| `StuckTracker.ScanIsQuiet` | ssh-stuck-detector/src/lib.rs:105-115 | with no call in flight, or a shorter one, the next scan does nothing |
| `StuckTracker.LinesAreDeserved` | ssh-stuck-detector/src/lib.rs:112-122 | whatever the race, no line is about a call that had not lasted the threshold when the scan began |
| `StuckTracker.AbortIsExact` | ssh-stuck-detector/src/lib.rs:105-139 | the process is ended if and only if the call held had lasted twice the threshold when the scan began; if it is over by then it really had lasted that long |
| `StuckTracker.AbortCanComeLate` | ssh-stuck-detector/src/lib.rs:108-139 | a concrete interleaving in which the process is ended for a call that is over |
| `StuckTracker.StepKeepsInv` | ssh-stuck-detector/src/lib.rs:47-141 | every access of either thread keeps the invariant |
| `StuckReport.DecimalRoundTrip` | ssh-stuck-detector/src/lib.rs:169-191 | the decimal digits of a number denote that number |
| `StuckReport.Digits` | ssh-stuck-detector/src/lib.rs:174-185 | the digit loop stays within twenty digits for every i64 and finds the number backwards |
| `StuckReport.WarnStderr` | ssh-stuck-detector/src/lib.rs:146-202 | the bytes written are the report, cut at 128 |
| `StuckReport.ReportFits` | ssh-stuck-detector/src/lib.rs:146-202 | for names up to 67 bytes and every i64 nothing is cut |
| `StuckReport.ReportReadsBack` | ssh-stuck-detector/src/lib.rs:144-198 | the line has its four fixed pieces and the name where they belong, and the digits between them decode to max(secs, 0) |
| `StuckReport.ReportIsRecognised` | src/stderr_drain.rs:72-83 | any report read in one piece is fatal to the drain |
| `StuckReport.TrackedReportArrives` | ssh-stuck-detector/src/lib.rs:64-70 | for every tracked call: whole, fatal, and small enough for one read |
| `EchoTest.WriteLoop` | src/conn.rs:184-199 | what the writes leave to write, and whether they failed |
| `EchoTest.ReadLoop` | src/conn.rs:208-224 | the bytes read are stored one behind the other, within the buffer, and nothing else is touched |
| `EchoTest.SendAndReceive` | src/conn.rs:158-236 | the result, every byte of the buffer and the number of polls, at most eleven |
| `EchoTest.ErrorsMean` | src/conn.rs:177-233 | after any number of idle rounds up to ten: a timeout is 1, an error of poll, write or read is -1, and so is an eleventh ready round |
| `EchoTest.TurnFailsIff` | src/conn.rs:184-224 | a ready round fails if and only if write or read fails with something left to do |
| `EchoTest.WriteFailsIff` | src/conn.rs:185-199 | the write loop fails if and only if write fails before everything is written |
| `EchoTest.ReadFailsIff` | src/conn.rs:209-223 | the read loop fails if and only if read fails before everything is read |
| `EchoTest.CompareIsExact` | src/conn.rs:337-341 | strcmp over the two buffers says exactly whether the bytes read are the message |
| `EchoTest.Attempted` | src/conn.rs:311-341 | one attempt on a cleared buffer |
| `EchoTest.TryOnce` | src/conn.rs:313-362 | success, another attempt, or giving up |
| `EchoTest.RetriesIff` | src/conn.rs:315-361 | a second attempt is made exactly if the first was connected and timed out or brought back something else |
| `EchoTest.ConnTest` | src/conn.rs:239-373 | success if and only if in one of at most two attempts exactly the message came back; every descriptor event in order |
| `EchoTest.Conservation` | src/conn.rs:117-155 | every descriptor is closed as often as it was given, but for one 0 too many for each accept that was not ready |
| `EchoTest.HonestEchoSucceeds` | src/conn.rs:177-235 | a message that comes back whole within ten rounds is recognised, whatever the pieces: rounds that only write, reads that end in EAGAIN, writes of any size |
| `EchoTest.HonestAttemptSucceeds` | src/conn.rs:329-346 | such an attempt makes conn_test succeed |
| `EchoTest.EndOfFileIsNoEcho` | src/conn.rs:209-213 | an end of file anywhere in the exchange leaves fewer bytes than the message and never passes for an echo |
| `EchoTest.ShortIffEof` | src/conn.rs:177-235 | an exchange that ends without an error came up short if and only if it met an end of file |
| `StripArg.StripInPlace` | src/args.rs:115-145 | in place, on any NUL-terminated argument: the string left is Strip of the string found, and no byte behind its NUL is written |
| `StripArg.ScanInPlace` | src/args.rs:123-140 | the loop with its sliding deletions, within the argument's own bytes |
| `StripArg.Slide` | src/args.rs:132-135 | memmove by one place |
| `StripArg.ScanPurgesIff` | src/args.rs:125-140 | the scan deletes every ch before the first flag that takes a value if and only if the argument is well spaced |
| `StripArg.StripPurgesIff` | src/args.rs:97-145 | the same for the whole function, for any flag but the dash |
| `StripArg.PurgeClears` | src/args.rs:97-102 | what is purged has no ch among its flags |
| `StripArg.ScanTakesOnlyTheFlag` | src/args.rs:125-140 | well spaced or not, nothing but ch is deleted and nothing changes places |
| `StripArg.StripFailures` | src/args.rs:132-136 | two arguments that come out wrong under autossh's own option string |
| `StripArg.OwnFlags` | src/main_logic.rs:9-10 | in the option string f stands alone, i takes a value and the dash is no flag |
| `ArgList.ArgList.AddArg` | src/args.rs:57-95 | the array holds the arguments so far and the new one unless it is empty, with a NULL behind and at least half its space in use once it has grown |
| `ArgList.ArgList.MakeRoom` | src/args.rs:66-83 | allocation and doubling keep what is there and leave room for one argument and the NULL |
| `ArgRewrite.RewriteArgs` | src/main_logic.rs:178-230 | the array built by the loop is the ssh path followed by Emit of the arguments |
| `ArgRewrite.ForwardsReplaceMonitor` | src/main_logic.rs:183-229 | without AUTOSSH_PORT ssh gets exactly the user's arguments in order, and for a non-zero port the forwards once, in the place of the first -M |
| `ArgRewrite.CommandLine` | src/main_logic.rs:178-230 | for well-spaced arguments, in raw terms: ssh gets each of the user's own arguments in order without its f, left out if nothing remains, and for a non-zero port the forwards in the place of the first -M |
| `ArgRewrite.KeptIsWords` | src/main_logic.rs:205-229 | the arguments passed on are those of the user that are not a -M, its value or the first --, each without its f |
| `ArgRewrite.NoFReachesSsh` | src/main_logic.rs:222-228 | under autossh's own option string no group of flags ssh gets from the user has an f among them |
| `ArgRewrite.ForwardsMean` | src/main_logic.rs:198-203 | the forwards are -L with its argument and, without an echo port, -R with its own |
| `ArgRewrite.TokensMean` | src/main_logic.rs:184-208 | which tokens count as -- and as -M, and when the value is the next argument |
| `ArgRewrite.ForwardsComeFirst` | src/main_logic.rs:197-204 | with AUTOSSH_PORT the forwards come first, and the argument they come before is passed on whatever it is |
| `ArgRewrite.OverrideHoldsIff` | src/main_logic.rs:197-220 | AUTOSSH_PORT overrides -M if and only if there is an argument to put the forwards before and it is not a -M, unless the first two arguments are both a bare -M |
| `ArgRewrite.WrongButRight` | src/main_logic.rs:197-220 | why that exception: arguments for which the -M passed on stands where another one belongs |
| `ArgRewrite.MonitorTakesValue` | src/main_logic.rs:9-10 | the option string marks -M as taking a value |
| `EnvArgs.Settings.GetEnvArgs` | src/env.rs:77-190 | refused if and only if some value is; otherwise every setting's exact value, and both poll times usable and within a positive lifetime |
| `EnvArgs.RefusedMeans` | src/env.rs:77-190 | refused is what does not parse, a poll time of zero, a negative gate time or a start limit below -1 |
| `EnvArgs.Settings.ReadPollTimes` | src/env.rs:77-105 | the two poll times after truncation, never below 1 |
| `EnvArgs.Settings.ReadLifetime` | src/env.rs:148-177 | the lifetime, and the poll times brought down to it |
| `EnvArgs.WithinLifeMeans` | src/env.rs:159-174 | a poll time is left alone, or is the lifetime if that is shorter |
| `EnvArgs.Settings.PollSeconds` | src/env.rs:83-86 | an unsigned long becomes a poll time of at least 1, itself if it fits |
| `EnvArgs.Settings.SettingsAreValid` | src/env.rs:77-190 | what get_env_args leaves is a configuration the supervisor's theorems cover |
| `EnvArgs.Settings.AdjustNetTimeout` | src/main_logic.rs:167-176 | the timeout after the 32-bit computation |
| `EnvArgs.NetTimeoutIff` | src/main_logic.rs:167-176 | the timeout is min(15000, 500*poll_time) if and only if the product does not wrap below 30000 |
| `EnvArgs.NetTimeoutWraps` | src/main_logic.rs:167-169 | the smallest poll time for which it wraps, and the negative timeout it leaves |
| `EnvArgs.StartLimitIsKeptIff` | src/env.rs:116-127 | a limit on starts survives the cast if and only if it fits an int |

## Left out

- Logging, usage text, timestamps and the pid file (src/log.rs, src/util.rs); `xerrlog!` is a call of ssh_kill and the end of the process.
- Staging of the preloaded library (src/stuck_detector.rs) and the dlsym interposers: each is enter, the real call, leave.
- Socket setup, name resolution and port reservation: only their results appear.
- getopt and its reordering, parsing of port strings, formatting of the forwarding strings, -f and the daemon, AUTOSSH_NTSERVICE.
- C-string and null-pointer handling at the API's edge, `autossh_session_free` (a stop, then the memory), and the arguments and environment of the API's child.
- The supervisor is modelled on values, one step function per region of the program, not as a class with methods: its statements interleave with signals.
- ppoll, sigsuspend and waitpid may also return for no reason in the model, so every theorem covers more runs than there are.
- A handler runs in one step; a second signal that interrupts sig_catch itself is not modelled. Locals survive siglongjmp.
- SIGPIPE, and SIGQUIT and SIGABRT in the catch branch, which no handler ever produces.
- Times are whole seconds, the clock starts past the epoch and does not go back; kernel rounding of alarm and rounding of floating point are not modelled.
- In the supervisor the echo test is one step with three outcomes; its inside is `EchoTest`. A read is one step with its finding; its inside is `Drain`.
- Process ids in `SessionRace` are not recycled, and a blocking waitpid is not interrupted. Overlapping start and stop, and the plain field `state` under concurrency, are not modelled there.
- Memory ordering: all atomics are interleaved. `StuckTracker` follows one tracker and leaves out the flag against recursion and an overflow of twice the threshold.
- The pauses of one second between later rounds of the echo test, the composing of its message, and the failing of malloc.
- Theorems.EveryWaitIsTimed: with a lifetime limit it needs that no arming was late; `LateArm` is the condition at the arming, `WaitWithoutAlarm` shows that it is met.
- Theorems.LifeEndsOnTime: needs that every arming was in time; `ArmedInTimeIff` is exact about one arming, `WaitPastTheEnd` and `WaitWithoutAlarm` show how it fails.
- Theorems.WakeUpsNeverPostpone: without a lifetime limit; `PostponedIff` says what a lifetime limit does.
- Progress.NeverStuck: in a wait, not for a caller that has SIGALRM blocked, nor after a late arming.
- Theorems.SilentChildIsKilledInTime: for runs in which time passes only in waits and sleeps, with a session limit, no lifetime limit, no monitor port and SIGALRM not blocked by the caller.
- ArgRewrite.CommandLine: for well-spaced arguments; `StripPurgesIff` says what becomes of the others.
- ArgRewrite.OverrideHoldsIff: not for two bare -M in front, where the outcome depends on all that follows; `WrongButRight` is such a case.
- StripArg.StripPurgesIff: not for the dash as the flag to strip, which autossh never asks for.
- ArgRewrite.RewriteArgs: strips a copy of each argument; that autossh changes the caller's argv in place is `StripInPlace` alone.
- ArgList.ArgList.AddArg: copies values, and does not model an overflow of the 32-bit count.
