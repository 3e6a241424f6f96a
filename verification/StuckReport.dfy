/** warn_stderr: the stuck detector's report, printed without allocating, and how the supervisor reads it. */
module StuckReport {
  import opened Drain

  const I64_MAX: int := 0x7fff_ffff_ffff_ffff
  const BUF_SZ: nat := 128
  const PREFIX: string := "ssh-stuck-detector: STUCK in "
  const MIDDLE: string := "() for "
  const SUFFIX: string := " secs\n"

  // ----- decimal numbers -----

  function Digit(d: int): char
    requires 0 <= d < 10
  {
    '0' + d as char
  }

  function Decimal(n: nat): (s: string)
    ensures s != [] && forall i :: 0 <= i < |s| ==> '0' <= s[i] <= '9'
  {
    if n < 10 then [Digit(n)] else Decimal(n / 10) + [Digit(n % 10)]
  }

  /** The number a string of digits denotes. */
  function Value(s: string): int {
    if s == [] then 0 else 10 * Value(s[..|s| - 1]) + (s[|s| - 1] as int - '0' as int)
  }

  lemma {:induction false} DecimalRoundTrip(n: nat)
    ensures Value(Decimal(n)) == n
  {
    if n < 10 {
      assert Value([]) == 0;
      assert Decimal(n)[..0] == [];
    } else {
      DecimalRoundTrip(n / 10);
      assert Decimal(n)[..|Decimal(n)| - 1] == Decimal(n / 10);
    }
  }

  function Pow10(k: nat): nat {
    if k == 0 then 1 else 10 * Pow10(k - 1)
  }

  lemma {:induction false} DigitCount(n: nat, k: nat)
    requires n < Pow10(k) && k > 0
    ensures |Decimal(n)| <= k
  {
    if n >= 10 {
      DigitCount(n / 10, k - 1);
    }
  }

  lemma I64Digits(n: nat)
    requires n <= I64_MAX
    ensures |Decimal(n)| <= 19
  {
    assert Pow10(5) == 100000;
    assert Pow10(10) == 100000 * 100000;
    assert Pow10(15) == 1000000000000000;
    assert Pow10(19) == 10000000000000000000;
    DigitCount(n, 19);
  }

  // ----- the printer -----

  function Reversed(s: string): string {
    if s == [] then [] else [s[|s| - 1]] + Reversed(s[..|s| - 1])
  }

  lemma ReversedAppends(found: string, d: char)
    ensures Reversed(found + [d]) == [d] + Reversed(found)
  {
    assert (found + [d])[..|found|] == found;
  }

  lemma Associates(a: string, b: string, c: string)
    ensures a + b + c == a + (b + c)
  {
  }

  /** One more digit found: it stands before those found already. */
  lemma DigitFound(s: nat, found: string, more: string)
    requires s > 0 && more == found + [Digit(s % 10)]
    ensures Reversed(more) == [Digit(s % 10)] + Reversed(found)
    ensures Decimal(s) + Reversed(found) == (if s / 10 == 0 then [] else Decimal(s / 10)) + Reversed(more)
  {
    ReversedAppends(found, Digit(s % 10));
    if s >= 10 {
      Associates(Decimal(s / 10), [Digit(s % 10)], Reversed(found));
    }
  }

  /** The itoa loop: digits come out least significant first. */
  method Digits(secs: nat) returns (digits: array<char>, dn: nat)
    requires secs <= I64_MAX
    ensures fresh(digits) && digits.Length == 20 && dn <= 20
    ensures Reversed(digits[..dn]) == Decimal(secs)
  {
    I64Digits(secs);
    digits := new char[20](_ => NUL);
    dn := 0;
    if secs == 0 {
      digits[0] := '0';
      assert digits[..1] == ['0'] && digits[..1][..0] == [];
      return digits, 1;
    }
    var s := secs;
    while s > 0
      invariant s >= 0 && dn <= 20
      invariant Decimal(secs) == (if s == 0 then [] else Decimal(s)) + Reversed(digits[..dn])
      invariant |Reversed(digits[..dn])| == dn
    {
      ghost var found := digits[..dn];
      digits[dn] := Digit(s % 10);
      DigitFound(s, found, digits[..dn + 1]);
      dn := dn + 1;
      s := s / 10;
    }
  }

  function Cut(s: string): string {
    if |s| <= BUF_SZ then s else s[..BUF_SZ]
  }

  /** The copying loop with its bounds test. */
  method Put(buf: array<char>, n: nat, text: seq<char>, ghost before: string) returns (n': nat)
    requires buf.Length == BUF_SZ && n <= BUF_SZ && buf[..n] == Cut(before)
    modifies buf
    ensures n' <= BUF_SZ && buf[..n'] == Cut(before + text)
  {
    n' := n;
    var i := 0;
    assert before + text[..0] == before;
    while i < |text|
      invariant i <= |text| && n' <= BUF_SZ && buf[..n'] == Cut(before + text[..i])
    {
      assert before + text[..i + 1] == before + text[..i] + [text[i]];
      if n' < buf.Length {
        buf[n'] := text[i];
        n' := n' + 1;
      }
      i := i + 1;
    }
    assert text[..i] == text;
  }

  /** The digits go in from the last one found to the first. */
  method PutReversed(buf: array<char>, n: nat, digits: array<char>, dn: nat, ghost before: string) returns (n': nat)
    requires buf.Length == BUF_SZ && n <= BUF_SZ && buf[..n] == Cut(before) && dn <= digits.Length && buf != digits
    modifies buf
    ensures n' <= BUF_SZ && buf[..n'] == Cut(before + Reversed(digits[..dn]))
  {
    n' := n;
    var i := dn;
    ghost var done := before;
    assert before + Reversed(digits[..dn]) == done + Reversed(digits[..i]);
    while i > 0
      invariant i <= dn && n' <= BUF_SZ && buf[..n'] == Cut(done)
      invariant digits[..] == old(digits[..])
      invariant done + Reversed(digits[..i]) == before + Reversed(old(digits[..dn]))
    {
      i := i - 1;
      assert digits[..i + 1][..i] == digits[..i];
      done := done + [digits[i]];
      if n' < buf.Length {
        buf[n'] := digits[i];
        n' := n' + 1;
      }
    }
    assert digits[..dn] == old(digits[..dn]);
  }

  function Report(name: string, secs: int): string {
    PREFIX + name + MIDDLE + Decimal(if secs < 0 then 0 else secs) + SUFFIX
  }

  /** What goes to stderr in one write. */
  method WarnStderr(name: string, secs: int) returns (line: string)
    requires secs <= I64_MAX
    ensures line == Cut(Report(name, secs))
  {
    var buf := new char[BUF_SZ](_ => NUL);
    var n := Put(buf, 0, PREFIX, []);
    n := Put(buf, n, name, PREFIX);
    n := Put(buf, n, MIDDLE, PREFIX + name);
    var s := if secs < 0 then 0 else secs;
    var digits, dn := Digits(s);
    n := PutReversed(buf, n, digits, dn, PREFIX + name + MIDDLE);
    n := Put(buf, n, SUFFIX, PREFIX + name + MIDDLE + Decimal(s));
    line := buf[..n];
  }

  // ----- and back -----

  /** The names that are tracked. */
  const TRACKED: set<string> := {"connect", "getaddrinfo", "recv", "recvfrom", "recvmsg"}

  /** No report about a tracked call is ever cut short. */
  lemma ReportFits(name: string, secs: int)
    requires |name| <= 67 && secs <= I64_MAX
    ensures Cut(Report(name, secs)) == Report(name, secs)
  {
    I64Digits(if secs < 0 then 0 else secs);
  }

  lemma Parts(a: string, b: string, c: string, d: string, e: string)
    ensures var line := a + b + c + d + e; var n := |a| + |b| + |c|;
      && line[..|a|] == a && line[|a|..|a| + |b|] == b && line[|a| + |b|..n] == c
      && line[n..n + |d|] == d && line[n + |d|..] == e
  {
  }

  /** The line says who is stuck and for how long: its digits read back as the seconds, or as 0 if negative. */
  lemma ReportReadsBack(name: string, secs: int)
    ensures var line := Report(name, secs);
      var n, m := |name| + 36, |line| - 6;
      && 0 <= n <= m
      && line[..29] == "ssh-stuck-detector: STUCK in " && line[29..29 + |name|] == name
      && line[29 + |name|..n] == "() for " && line[m..] == " secs\n"
      && Value(line[n..m]) == if secs < 0 then 0 else secs
  {
    var s := if secs < 0 then 0 else secs;
    Parts(PREFIX, name, MIDDLE, Decimal(s), SUFFIX);
    DecimalRoundTrip(s);
  }

  lemma TrackedNamesFit(name: string)
    requires name in TRACKED
    ensures |name| <= 67 && NUL !in name
  {
  }

  lemma NulFreePieces(n: nat)
    ensures NUL !in PREFIX && NUL !in MIDDLE && NUL !in SUFFIX && NUL !in Decimal(n)
  {
  }

  lemma PrefixIsReport()
    ensures PREFIX == STUCK_REPORT + " in "
  {
  }

  /** Text that begins as a report does, and holds no NUL, is fatal. */
  lemma FatalBeginning(rest: string)
    requires NUL !in PREFIX && NUL !in rest
    ensures Classify(PREFIX + rest) != Nothing
  {
    var line := PREFIX + rest;
    PrefixIsReport();
    SurroundedOccurs([], STUCK_REPORT, " in " + rest);
    assert line == [] + STUCK_REPORT + (" in " + rest);
    NulFreeChunkIsExact(line);
  }

  /** Whoever reads the report in one piece is told that ssh is stuck: the drain calls it fatal. */
  lemma ReportIsRecognised(name: string, secs: int)
    requires NUL !in name
    ensures Classify(Report(name, secs)) != Nothing
  {
    var s := if secs < 0 then 0 else secs;
    NulFreePieces(s);
    var rest := name + MIDDLE + Decimal(s) + SUFFIX;
    FatalBeginning(rest);
    assert Report(name, secs) == PREFIX + rest;
  }

  /** From the printer to the drain: any report on a tracked call arrives whole, is fatal and fits one read. */
  lemma TrackedReportArrives(name: string, secs: int)
    requires name in TRACKED && secs <= I64_MAX
    ensures Cut(Report(name, secs)) == Report(name, secs)
    ensures Classify(Cut(Report(name, secs))) != Nothing
    ensures Readable(Chunk(Report(name, secs), 0))
  {
    TrackedNamesFit(name);
    ReportFits(name, secs);
    ReportIsRecognised(name, secs);
  }
}
