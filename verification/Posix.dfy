/** Signals, wait statuses and fixed-width integers, as the supervisor sees them. */
module Posix {

  datatype Option<+T> = None | Some(value: T)

  /** The signals sig_catch listens for, and one (QUIT) that it never does. */
  datatype Signal = CHLD | ALRM | INT | TERM | HUP | USR1 | USR2 | QUIT

  /** The set build_blockmask blocks and set_sig_handlers installs sig_catch on. */
  const HANDLED: set<Signal> := {CHLD, ALRM, INT, TERM, HUP, USR1, USR2}

  /** The two signals set_exit_sig_handler covers for the whole of ssh_run. */
  predicate IsExitSignal(sig: Signal) {
    sig == TERM || sig == INT
  }

  /** The signal mask: what the caller of ssh_run left in force, with or without HANDLED blocked on top. */
  datatype Mask = Callers | CallersPlusHandled

  predicate Blocks(callerMask: set<Signal>, mask: Mask, sig: Signal) {
    sig in callerMask || (mask == CallersPlusHandled && sig in HANDLED)
  }

  /** Which signals have sig_catch as their handler. */
  datatype Handlers = NoHandlers | ExitHandlers | AllHandlers

  predicate Catches(handlers: Handlers, sig: Signal) {
    match handlers
    case NoHandlers => false
    case ExitHandlers => IsExitSignal(sig)
    case AllHandlers => sig in HANDLED
  }

  /** What waitpid reports about a dead child. */
  datatype Status = Exited(code: int) | Signalled(signal: int)

  /** A forked process that has not been reaped. */
  datatype Process = Running | Zombie(status: Status)

  const I32_MAX: int := 0x7fff_ffff
  const I32_MIN: int := -0x8000_0000
  const U32_SPAN: int := 0x1_0000_0000

  /** A cast from a wider integer to a 32-bit signed one: the low 32 bits. */
  function ToI32(x: int): (r: int)
    ensures I32_MIN <= r <= I32_MAX
    ensures I32_MIN <= x <= I32_MAX ==> r == x
    ensures (r - x) % U32_SPAN == 0
  {
    var low := x % U32_SPAN;
    if low > I32_MAX then low - U32_SPAN else low
  }

  /** A cast to a 32-bit unsigned integer. */
  function ToU32(x: int): (r: int)
    ensures 0 <= r < U32_SPAN
    ensures 0 <= x < U32_SPAN ==> r == x
  {
    x % U32_SPAN
  }

  /** A cast from floating point to a 32-bit signed integer saturates. */
  function SaturateI32(x: int): (r: int)
    ensures I32_MIN <= r <= I32_MAX
    ensures I32_MIN <= x <= I32_MAX ==> r == x
    ensures x > I32_MAX ==> r == I32_MAX
  {
    if x > I32_MAX then I32_MAX else if x < I32_MIN then I32_MIN else x
  }

  function Min(x: int, y: int): (r: int)
    ensures r <= x && r <= y && (r == x || r == y)
  {
    if x <= y then x else y
  }
}
