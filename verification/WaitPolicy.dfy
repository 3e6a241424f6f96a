/** ssh_wait: what the supervisor does about the way its child died. */
module WaitPolicy {
  import opened Posix

  /** P_CONTINUE, P_RESTART, P_EXITOK, P_EXITERR. */
  datatype Verdict = Continue | Restart | ExitOk | ExitErr

  /** `elapsed` is the child's age; `gateTime` is AUTOSSH_GATETIME (0 turns the starting gate off). */
  function Judge(status: Status, startCount: int, gateTime: int, elapsed: int): Verdict {
    match status
    case Signalled(_) => Restart
    case Exited(code) =>
      if startCount == 1 && gateTime != 0 && elapsed <= gateTime then ExitErr
      else if code == 255 then Restart
      else if code == 0 then ExitOk
      else if code == 1 || code == 2 then
        if startCount > 1 || gateTime == 0 then Restart else ExitErr
      else ExitErr
  }

  /** The first child left by exiting inside the starting gate. */
  predicate FailedTheGate(status: Status, startCount: int, gateTime: int, elapsed: int) {
    status.Exited? && startCount == 1 && gateTime != 0 && elapsed <= gateTime
  }

  /**
   * The manual's rules, each as an equivalence: when autossh starts ssh again, when it leaves
   * quietly, and when it gives up with an error. A dead child never means "keep waiting".
   */
  lemma ManualRules(status: Status, startCount: int, gateTime: int, elapsed: int)
    ensures var v := Judge(status, startCount, gateTime, elapsed);
      && v != Continue
      && (v == ExitOk <==>
            status == Exited(0) && !FailedTheGate(status, startCount, gateTime, elapsed))
      && (v == Restart <==>
            || status.Signalled?
            || (status == Exited(255) && !FailedTheGate(status, startCount, gateTime, elapsed))
            || (status in {Exited(1), Exited(2)} && (startCount > 1 || gateTime == 0)))
  {
  }
}
