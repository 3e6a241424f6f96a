/** grace_time: the pause between two starts of ssh. */
module Grace {
  import opened Posix

  const N_FAST_TRIES: int := 5
  const PORT_FWD_FAIL_DELAY: int := 5

  /** A child that lived at least this long resets the count of fast failures. */
  function MinLife(pollTime: int): real {
    var m := (pollTime / 10) as real;
    if m < 10.0 then 10.0 else m
  }

  function CountTry(tries: int, now: int, lastStart: int, pollTime: int): int {
    if (now - lastStart) as real >= MinLife(pollTime) then 0 else tries + 1
  }

  /** The quadratic growth, in the source's own floating-point form. */
  function Growth(pollTime: int, t: int): int {
    SaturateI32(((pollTime as real / 100.0) * (t as real * (t as real / 3.0))).Floor)
  }

  /** The backoff sleep. */
  function Interval(pollTime: int, tries: int): int {
    if tries <= N_FAST_TRIES then 0 else
      var n := Growth(pollTime, tries - N_FAST_TRIES);
      if n > pollTime then pollTime else n
  }

  /** The sleeps grace_time makes once the count stands at `tries`. */
  function Sleeps(pollTime: int, tries: int, portFwdFailed: bool): seq<int> {
    (if Interval(pollTime, tries) > 0 then [Interval(pollTime, tries)] else [])
    + (if portFwdFailed then [PORT_FWD_FAIL_DELAY] else [])
  }

  class GraceTimer {
    var tries: int            // TRIES
    var portFwdFailed: bool   // port_fwd_failed
    var slept: seq<int>       // every sleep made so far

    constructor ()
      ensures tries == 0 && !portFwdFailed && slept == []
    {
      tries, portFwdFailed, slept := 0, false, [];
    }

    method Sleep(seconds: int)
      requires seconds > 0
      modifies this`slept
      ensures slept == old(slept) + [seconds]
    {
      slept := slept + [seconds];
    }

    method GraceTime(now: int, lastStart: int, pollTime: int)
      modifies this
      ensures tries == CountTry(old(tries), now, lastStart, pollTime)
      ensures slept == old(slept) + Sleeps(pollTime, tries, old(portFwdFailed))
      ensures !portFwdFailed
    {
      var minTime := (pollTime / 10) as real;
      if minTime < 10.0 {
        minTime := 10.0;
      }
      if (now - lastStart) as real >= minTime {
        tries := 0;
      } else {
        tries := tries + 1;
      }
      if tries > N_FAST_TRIES {
        var n := Growth(pollTime, tries - N_FAST_TRIES);
        var interval := if n > pollTime then pollTime else n;
        if interval > 0 {
          Sleep(interval);
        }
      }
      if portFwdFailed {
        Sleep(PORT_FWD_FAIL_DELAY);
        portFwdFailed := false;
      }
    }
  }

  /** One start of ssh, as grace_time sees it: the time now and when the previous child started. */
  datatype Start = Start(now: int, lastStart: int)

  predicate ShortLived(s: Start, pollTime: int) {
    (s.now - s.lastStart) as real < MinLife(pollTime)
  }

  /** Short-lived means shorter than ten seconds, or than a tenth of the poll time if that is longer. */
  lemma ShortLivedIff(s: Start, pollTime: int)
    requires pollTime >= 1
    ensures ShortLived(s, pollTime) <==>
      s.now - s.lastStart < 10 || s.now - s.lastStart < pollTime / 10
  {
  }

  function Sum(xs: seq<int>): int {
    if xs == [] then 0 else xs[0] + Sum(xs[1..])
  }

  /** All in all grace_time sleeps for the backoff and, after a port failure, five seconds more. */
  lemma SleepsMean(pollTime: int, tries: int, portFwdFailed: bool)
    requires 1 <= pollTime <= I32_MAX
    ensures Sum(Sleeps(pollTime, tries, portFwdFailed)) ==
      Interval(pollTime, tries) + if portFwdFailed then 5 else 0
    ensures forall x :: x in Sleeps(pollTime, tries, portFwdFailed) ==> x > 0
    ensures portFwdFailed ==> 5 in Sleeps(pollTime, tries, portFwdFailed)
  {
    BackoffIsBounded(pollTime, tries);
    var n := Interval(pollTime, tries);
    var first, five := if n > 0 then [n] else [], if portFwdFailed then [5] else [];
    assert Sleeps(pollTime, tries, portFwdFailed) == first + five;
    assert portFwdFailed ==> 5 in five && Sum(five) == 5 + Sum(five[1..]) == 5;
    assert n > 0 ==> (first + five)[1..] == five;
    assert n == 0 ==> first + five == five;
  }

  /** The count after a whole history of starts. */
  function TriesAfter(starts: seq<Start>, pollTime: int): int {
    if starts == [] then 0 else
      var last := starts[|starts| - 1];
      CountTry(TriesAfter(starts[..|starts| - 1], pollTime), last.now, last.lastStart, pollTime)
  }

  lemma OneMoreStart(starts: seq<Start>, last: Start, pollTime: int)
    ensures TriesAfter(starts + [last], pollTime)
         == CountTry(TriesAfter(starts, pollTime), last.now, last.lastStart, pollTime)
  {
    assert (starts + [last])[..|starts|] == starts;
  }

  /** `k` short-lived children in a row after a long-lived one (or after none): the count is exactly k. */
  lemma {:induction false} ConsecutiveFailuresAreCounted(starts: seq<Start>, k: nat, pollTime: int)
    requires k <= |starts|
    requires forall i :: |starts| - k <= i < |starts| ==> ShortLived(starts[i], pollTime)
    requires k < |starts| ==> !ShortLived(starts[|starts| - 1 - k], pollTime)
    ensures TriesAfter(starts, pollTime) == k
  {
    if k > 0 {
      var shorter := starts[..|starts| - 1];
      ConsecutiveFailuresAreCounted(shorter, k - 1, pollTime);
      assert starts[|starts| - 1] == starts[|starts| - 1 - 0];
    }
  }

  /** The floating-point expression is an exact integer quotient rounded down. */
  lemma BackoffProduct(pollTime: int, t: int)
    requires pollTime >= 1 && t >= 1
    ensures ((pollTime as real / 100.0) * (t as real * (t as real / 3.0))).Floor == pollTime * t * t / 300
  {
    var p, u := pollTime as real, t as real;
    var x := (p / 100.0) * (u * (u / 3.0));
    assert x == p * u * u / 300.0;
    var m := pollTime * t * t;
    assert (m as real) == p * u * u by {
      assert (pollTime * t) as real == p * u;
      assert ((pollTime * t) * t) as real == (pollTime * t) as real * u;
    }
    FloorOfQuotient(m);
  }

  lemma FloorOfQuotient(m: int)
    ensures (m as real / 300.0).Floor == m / 300
  {
    assert m as real == 300.0 * (m / 300) as real + (m % 300) as real;
  }

  /** The published backoff: none for five tries, then poll*(k-5)^2/300 up to the poll time. */
  lemma BackoffLaw(pollTime: int, k: nat)
    requires 1 <= pollTime <= I32_MAX
    ensures Interval(pollTime, k) ==
      if k <= 5 then 0 else Min(pollTime, pollTime * (k - 5) * (k - 5) / 300)
    ensures 0 <= Interval(pollTime, k) <= pollTime
  {
    if k > 5 {
      var t := k - 5;
      BackoffProduct(pollTime, t);
      assert pollTime * t * t >= 0 by {
        assert pollTime * t >= 0;
      }
    }
  }

  /** Whatever the count, the backoff is between nothing and the poll time. */
  lemma BackoffIsBounded(pollTime: int, tries: int)
    requires 1 <= pollTime <= I32_MAX
    ensures 0 <= Interval(pollTime, tries) <= pollTime
  {
    if tries > 5 {
      BackoffLaw(pollTime, tries);
    }
  }

  lemma ProductGrows(p: int, t: int, u: int)
    requires p >= 0 && 0 <= t <= u
    ensures p * t * t <= p * u * u
  {
    assert p * t <= p * u;
    assert (p * t) * t <= (p * u) * t <= (p * u) * u;
  }

  /** Backing off never gets shorter while failures go on. */
  lemma BackoffNeverShrinks(pollTime: int, j: nat, k: nat)
    requires 1 <= pollTime <= I32_MAX && j <= k
    ensures Interval(pollTime, j) <= Interval(pollTime, k)
  {
    BackoffLaw(pollTime, j);
    BackoffLaw(pollTime, k);
    if j > 5 {
      ProductGrows(pollTime, j - 5, k - 5);
    }
  }

  /** The ceiling is the poll time, and it is reached exactly from the 23rd failure on. */
  lemma BackoffCeiling(pollTime: int, k: nat)
    requires 1 <= pollTime <= I32_MAX
    ensures Interval(pollTime, k) == pollTime <==> k >= 23
  {
    BackoffLaw(pollTime, k);
    if k >= 23 {
      ProductGrows(pollTime, 18, k - 5);
    } else if k > 5 {
      ProductGrows(pollTime, k - 5, 17);
    }
  }
}
