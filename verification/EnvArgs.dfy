/** get_env_args: the numeric settings, and the network timeout derived from one of them. */
module EnvArgs {
  import opened Posix
  import Supervisor

  const POLL_TIME_DEFAULT: int := 600
  const TIMEO_NET_DEFAULT: int := 15000

  /** An environment variable as strtoul or strtol reads it. */
  datatype Number = Unset | Malformed | Parsed(value: int)

  /** The 64-bit ranges of the two conversions. */
  predicate IsUnsigned(n: Number) { n.Parsed? ==> 0 <= n.value < 0x1_0000_0000_0000_0000 }
  predicate IsSigned(n: Number) { n.Parsed? ==> -0x8000_0000_0000_0000 <= n.value < 0x8000_0000_0000_0000 }

  datatype Environment = Environment(
    poll: Number, firstPoll: Number, gateTime: Number, maxStart: Number, maxLifetime: Number, maxSession: Number)

  predicate WellTyped(env: Environment) {
    && IsUnsigned(env.poll) && IsUnsigned(env.firstPoll) && IsUnsigned(env.maxLifetime) && IsUnsigned(env.maxSession)
    && IsSigned(env.gateTime) && IsSigned(env.maxStart)
  }

  predicate PollsRefused(env: Environment) {
    env.poll in {Malformed, Parsed(0)} || env.firstPoll in {Malformed, Parsed(0)}
  }

  predicate LimitsRefused(env: Environment) {
    || env.gateTime == Malformed || (env.gateTime.Parsed? && env.gateTime.value < 0)
    || env.maxStart == Malformed || (env.maxStart.Parsed? && env.maxStart.value < -1)
  }

  /** A value get_env_args refuses, ending the process. */
  predicate Refused(env: Environment) {
    PollsRefused(env) || LimitsRefused(env) || env.maxLifetime == Malformed || env.maxSession == Malformed
  }

  /** A poll time is brought down to a lifetime shorter than it. */
  function WithinLife(seconds: int, lifetime: int): int {
    if lifetime > 0 then Min(seconds, lifetime) else seconds
  }

  /** It is left alone, or it is the lifetime. */
  lemma WithinLifeMeans(seconds: int, lifetime: int)
    ensures lifetime <= 0 || seconds <= lifetime ==> WithinLife(seconds, lifetime) == seconds
    ensures 0 < lifetime < seconds ==> WithinLife(seconds, lifetime) == lifetime
  {
  }

  /** Refused is what does not parse, a poll time of zero, a negative gate time, or a start limit below -1. */
  lemma RefusedMeans(env: Environment)
    ensures Refused(env) <==>
      || Malformed in {env.poll, env.firstPoll, env.gateTime, env.maxStart, env.maxLifetime, env.maxSession}
      || Parsed(0) in {env.poll, env.firstPoll}
      || (exists v :: v < 0 && env.gateTime == Parsed(v)) || (exists v :: v < -1 && env.maxStart == Parsed(v))
  {
  }

  class Settings {
    var pollTime: int
    var firstPollTime: int
    var gateTime: int
    var maxStart: int
    var maxLifetime: int
    var maxSession: int
    var netTimeout: int
    var pidStartTime: int

    constructor ()
      ensures pollTime == firstPollTime == POLL_TIME_DEFAULT && gateTime == 30 && maxStart == -1
      ensures maxLifetime == 0 && maxSession == 0 && netTimeout == TIMEO_NET_DEFAULT && pidStartTime == 0
    {
      pollTime, firstPollTime, gateTime, maxStart := POLL_TIME_DEFAULT, POLL_TIME_DEFAULT, 30, -1;
      maxLifetime, maxSession, netTimeout, pidStartTime := 0, 0, TIMEO_NET_DEFAULT, 0;
    }

    /** Both poll times usable as alarm intervals, and within a lifetime if there is one. */
    predicate Sane()
      reads this
    {
      && 1 <= pollTime <= I32_MAX && 1 <= firstPollTime <= I32_MAX
      && (maxLifetime > 0 ==> pollTime <= maxLifetime && firstPollTime <= maxLifetime)
      && gateTime >= 0 && maxLifetime >= 0 && maxSession >= 0 && I32_MIN <= maxStart <= I32_MAX
    }

    /** A poll time from an unsigned long: cast to int, and back to the default if that is not positive. */
    static function PollSeconds(v: int): (r: int)
      ensures 1 <= r <= I32_MAX
      ensures 1 <= v <= I32_MAX ==> r == v
      ensures r == 600 || (r - v) % U32_SPAN == 0
    {
      var t := ToI32(v);
      if t <= 0 then POLL_TIME_DEFAULT else t
    }

    method ReadPollTimes(env: Environment) returns (ok: bool)
      requires WellTyped(env) && 1 <= pollTime <= I32_MAX
      modifies this`pollTime, this`firstPollTime
      ensures ok <==> !PollsRefused(env)
      ensures ok ==> pollTime == if env.poll.Parsed? then PollSeconds(env.poll.value) else old(pollTime)
      ensures ok ==> firstPollTime == if env.firstPoll.Parsed? then PollSeconds(env.firstPoll.value) else pollTime
    {
      if env.poll != Unset {
        if env.poll.Malformed? || env.poll.value == 0 { return false; }
        pollTime := PollSeconds(env.poll.value);
      }
      if env.firstPoll != Unset {
        if env.firstPoll.Malformed? || env.firstPoll.value == 0 { return false; }
        firstPollTime := PollSeconds(env.firstPoll.value);
      } else {
        firstPollTime := pollTime;
      }
      return true;
    }

    method ReadLimits(env: Environment) returns (ok: bool)
      requires WellTyped(env) && gateTime >= 0
      modifies this`gateTime, this`maxStart
      ensures ok <==> !LimitsRefused(env)
      ensures gateTime >= 0
      ensures ok ==> gateTime == if env.gateTime.Parsed? then env.gateTime.value else old(gateTime)
      ensures maxStart == if ok && env.maxStart.Parsed? then ToI32(env.maxStart.value) else old(maxStart)
    {
      if env.gateTime != Unset {
        if env.gateTime.Malformed? || env.gateTime.value < 0 { return false; }
        gateTime := env.gateTime.value;
      }
      if env.maxStart != Unset {
        if env.maxStart.Malformed? || env.maxStart.value < -1 { return false; }
        maxStart := ToI32(env.maxStart.value);
      }
      return true;
    }

    method ReadLifetime(env: Environment, now: int) returns (ok: bool)
      requires WellTyped(env) && maxLifetime == 0
      requires 1 <= pollTime <= I32_MAX && 1 <= firstPollTime <= I32_MAX
      modifies this`maxLifetime, this`pollTime, this`firstPollTime, this`pidStartTime
      ensures ok <==> env.maxLifetime != Malformed
      ensures maxLifetime == if env.maxLifetime.Parsed? then env.maxLifetime.value else 0
      ensures pollTime == WithinLife(old(pollTime), maxLifetime)
      ensures firstPollTime == WithinLife(old(firstPollTime), maxLifetime)
      ensures pidStartTime == if maxLifetime > 0 then now else old(pidStartTime)
    {
      if env.maxLifetime != Unset {
        if env.maxLifetime.Malformed? { return false; }
        maxLifetime := env.maxLifetime.value;
        if maxLifetime > 0 {
          if pollTime > maxLifetime {
            pollTime := SaturateI32(maxLifetime);
          }
          if firstPollTime > maxLifetime {
            firstPollTime := SaturateI32(maxLifetime);
          }
          pidStartTime := now;
        }
      }
      return true;
    }

    /** `now` is read when a lifetime is set. False means the process ended with a complaint. */
    method GetEnvArgs(env: Environment, now: int) returns (ok: bool)
      requires WellTyped(env) && Sane() && maxLifetime == 0
      modifies this
      ensures ok <==> !Refused(env)
      ensures ok ==> Sane() && netTimeout == old(netTimeout)
      ensures ok ==>
        var poll := if env.poll.Parsed? then PollSeconds(env.poll.value) else old(pollTime);
        && maxLifetime == (if env.maxLifetime.Parsed? then env.maxLifetime.value else 0)
        && pollTime == WithinLife(poll, maxLifetime)
        && firstPollTime ==
             WithinLife(if env.firstPoll.Parsed? then PollSeconds(env.firstPoll.value) else poll, maxLifetime)
        && gateTime == (if env.gateTime.Parsed? then env.gateTime.value else old(gateTime))
        && maxStart == (if env.maxStart.Parsed? then ToI32(env.maxStart.value) else old(maxStart))
        && maxSession == (if env.maxSession.Parsed? then env.maxSession.value else old(maxSession))
        && pidStartTime == (if maxLifetime > 0 then now else old(pidStartTime))
    {
      ok := ReadPollTimes(env);
      if !ok { return; }
      ok := ReadLimits(env);
      if !ok { return; }
      ok := ReadLifetime(env, now);
      if !ok { return; }
      if env.maxSession != Unset {
        if env.maxSession.Malformed? { return false; }
        maxSession := env.maxSession.value;
      }
    }

    /** autossh_main's adjustment of the network timeout. */
    method AdjustNetTimeout()
      requires netTimeout == TIMEO_NET_DEFAULT
      modifies this`netTimeout
      ensures netTimeout == NetTimeout(pollTime)
    {
      if HalfMillis(pollTime) < netTimeout {
        netTimeout := HalfMillis(pollTime);
      }
    }

    /** The supervisor's configuration is one its guarantees are stated for. */
    lemma SettingsAreValid(monitoring: bool, mask: set<Signal>, zeroTime: bool)
      requires Sane()
      ensures Supervisor.ValidConfig(Supervisor.Config(maxStart, pollTime, firstPollTime, maxLifetime, maxSession,
                                                       gateTime, pidStartTime, monitoring, mask, zeroTime))
    {
    }
  }

  // ----- (poll_time * 1000) / 2 in 32 bits -----

  /** Rust's division truncates toward zero. */
  function Halve(x: int): int {
    if x >= 0 then x / 2 else -((-x) / 2)
  }

  function HalfMillis(pollTime: int): int {
    Halve(ToI32(pollTime * 1000))
  }

  function NetTimeout(pollTime: int): int {
    if HalfMillis(pollTime) < TIMEO_NET_DEFAULT then HalfMillis(pollTime) else TIMEO_NET_DEFAULT
  }

  /** Half the poll time, at most 15 seconds: as documented if and only if the product does not wrap below 30000. */
  lemma NetTimeoutIff(pollTime: int)
    requires 1 <= pollTime <= I32_MAX
    ensures NetTimeout(pollTime) == Min(TIMEO_NET_DEFAULT, 500 * pollTime) <==>
      pollTime <= 2147483 || ToI32(pollTime * 1000) >= 30000
  {
  }

  /** The smallest poll time that wraps turns the timeout negative, which makes poll(2) wait for ever. */
  lemma NetTimeoutWraps()
    ensures NetTimeout(2147483) == 15000 && NetTimeout(2147484) < 0
  {
  }

  /** A limit on starts is kept as given if and only if it fits an int; from 2^31 on it can mean no limit at all. */
  lemma StartLimitIsKeptIff(v: int)
    requires 0 <= v < 0x8000_0000_0000_0000
    ensures ToI32(v) == v <==> v <= I32_MAX
    ensures 0x8000_0000 <= v < 0x1_0000_0000 ==> ToI32(v) < 0
  {
  }
}
