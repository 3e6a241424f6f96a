/** conn_test: a message goes out through the tunnel and has to come back byte for byte. */
module EchoTest {
  import opened Posix
  import opened Drain

  datatype WriteAnswer = Wrote(n: nat) | WriteRetry | WriteFailed         // Wrote(0) is write returning 0
  datatype ReadAnswer = Got(data: seq<char>) | ReadRetry | ReadFailed     // Got([]) is end of file

  /** One call of poll, and the answers to the writes and reads that follow it. */
  datatype Round =
    | Timeout | PollError
    | Ready(canWrite: bool, canRead: bool, outs: seq<WriteAnswer>, ins: seq<ReadAnswer>)

  /** What the write loop leaves to write, and whether it failed. */
  datatype Written = Written(left: nat, failed: bool)

  function WritePhase(answers: seq<WriteAnswer>, left: nat): (w: Written)
    ensures w.left <= left
  {
    if left == 0 || answers == [] then Written(left, false)
    else match answers[0]
      case Wrote(n) => if n == 0 then Written(0, false) else WritePhase(answers[1..], left - Min(n, left))
      case WriteRetry => Written(left, false)
      case WriteFailed => Written(left, true)
  }

  /** What the read loop brought in; end of file leaves nothing to read. */
  datatype Incoming = Incoming(data: seq<char>, left: nat, failed: bool)

  function Front(data: seq<char>, left: nat): seq<char> {
    if |data| <= left then data else data[..left]
  }

  function ReadPhase(answers: seq<ReadAnswer>, left: nat): (r: Incoming)
    ensures |r.data| + r.left <= left
    ensures r.left > 0 ==> |r.data| + r.left == left
  {
    if left == 0 || answers == [] then Incoming([], left, false)
    else match answers[0]
      case Got(data) =>
        if data == [] then Incoming([], 0, false)
        else
          var d := Front(data, left);
          var rest := ReadPhase(answers[1..], left - |d|);
          rest.(data := d + rest.data)
      case ReadRetry => Incoming([], left, false)
      case ReadFailed => Incoming([], left, true)
  }

  /** A whole exchange: the code returned, every byte read, and the polls made. */
  datatype Exchange = Exchange(rc: int, data: seq<char>, polls: nat)

  const MAX_LOOPS: nat := 10

  /** What one ready round does. */
  datatype Progress = Progress(data: seq<char>, rleft: nat, wleft: nat, failed: bool)

  function Turn(round: Round, rleft: nat, wleft: nat): (p: Progress)
    requires round.Ready?
    ensures |p.data| + p.rleft <= rleft
  {
    var w := if wleft > 0 && round.canWrite then WritePhase(round.outs, wleft) else Written(wleft, false);
    if w.failed then Progress([], rleft, w.left, true)
    else
      var r := if round.canRead then ReadPhase(round.ins, rleft) else Incoming([], rleft, false);
      Progress(r.data, r.left, w.left, r.failed)
  }

  /** Too many rounds are an error even if the last one brought the rest. */
  function Converse(rounds: seq<Round>, rleft: nat, wleft: nat, loops: nat): (x: Exchange)
    decreases |rounds|
    ensures |x.data| <= rleft
    ensures loops <= MAX_LOOPS ==> x.polls <= MAX_LOOPS + 1 - loops
    ensures x.rc in {-1, 0, 1}
  {
    if rleft == 0 then Exchange(0, [], 0)
    else if rounds == [] || rounds[0].Timeout? then Exchange(1, [], 1)
    else if rounds[0].PollError? then Exchange(-1, [], 1)
    else
      var p := Turn(rounds[0], rleft, wleft);
      if p.failed || loops + 1 > MAX_LOOPS then Exchange(-1, p.data, 1)
      else After(p.data, 1, Converse(rounds[1..], p.rleft, p.wleft, loops + 1))
  }

  /** An exchange with what went before it. */
  function After(data: seq<char>, polls: nat, x: Exchange): Exchange {
    Exchange(x.rc, data + x.data, polls + x.polls)
  }

  lemma AfterAfter(d: seq<char>, e: seq<char>, p: nat, q: nat, x: Exchange)
    ensures After(d, p, After(e, q, x)) == After(d + e, p + q, x)
    ensures After([], 0, x) == x
  {
    assert d + (e + x.data) == d + e + x.data;
  }

  // ----- conn_send_and_receive on its buffers -----

  method WriteLoop(answers: seq<WriteAnswer>, wleft: nat) returns (left: nat, failed: bool)
    ensures Written(left, failed) == WritePhase(answers, wleft)
  {
    left := wleft;
    var i := 0;
    while left > 0 && i < |answers|
      invariant i <= |answers| && left <= wleft
      invariant WritePhase(answers[i..], left) == WritePhase(answers, wleft)
      decreases |answers| - i
    {
      assert answers[i..][1..] == answers[i + 1..];
      match answers[i] {
        case Wrote(n) =>
          if n == 0 {
            return 0, false;
          }
          left := left - Min(n, left);
        case WriteRetry => return left, false;
        case WriteFailed => return left, true;
      }
      i := i + 1;
    }
    return left, false;
  }

  function Behind(data: seq<char>, r: Incoming): Incoming {
    r.(data := data + r.data)
  }

  lemma BehindBehind(d: seq<char>, e: seq<char>, r: Incoming)
    ensures Behind(d, Behind(e, r)) == Behind(d + e, r)
    ensures Behind([], r) == r
    ensures r.data == [] ==> Behind(d, r).data == d
  {
    assert d + (e + r.data) == d + e + r.data;
  }

  /** `now` is `was` with `data` written at place `at`. */
  predicate Stored(was: seq<char>, now: seq<char>, at: nat, data: seq<char>) {
    && |now| == |was| && at + |data| <= |was|
    && now[..at] == was[..at] && now[at..at + |data|] == data && now[at + |data|..] == was[at + |data|..]
  }

  lemma StoredTwice(a: seq<char>, b: seq<char>, c: seq<char>, at: nat, d: seq<char>, e: seq<char>)
    requires Stored(a, b, at, d) && Stored(b, c, at + |d|, e)
    ensures Stored(a, c, at, d + e)
  {
    var n := at + |d|;
    assert c[..at] == c[..n][..at] && b[..at] == b[..n][..at];
    assert c[at..n] == c[..n][at..] && b[at..n] == b[..n][at..];
    assert c[at..n + |e|] == c[at..n] + c[n..n + |e|];
    assert b[n + |e|..] == b[n..][|e|..] && a[n + |e|..] == a[n..][|e|..];
  }

  /** The answers from number `i` on, behind what came before them. */
  function Unread(answers: seq<ReadAnswer>, i: nat, left: nat, data: seq<char>): Incoming
    requires i <= |answers|
  {
    Behind(data, ReadPhase(answers[i..], left))
  }

  lemma ReadsBegin(answers: seq<ReadAnswer>, left: nat)
    ensures Unread(answers, 0, left, []) == ReadPhase(answers, left)
  {
    assert answers[0..] == answers;
    BehindBehind([], [], ReadPhase(answers, left));
  }

  /** One successful read, in terms of what is still to come. */
  lemma ReadOne(answers: seq<ReadAnswer>, i: nat, left: nat, data: seq<char>)
    requires i < |answers| && left > 0 && answers[i].Got? && answers[i].data != []
    ensures var d := Front(answers[i].data, left);
      Unread(answers, i, left, data) == Unread(answers, i + 1, left - |d|, data + d)
  {
    var d := Front(answers[i].data, left);
    assert answers[i..][1..] == answers[i + 1..];
    BehindBehind(data, d, ReadPhase(answers[i + 1..], left - |d|));
  }

  /** The read loop is over: nothing left to read, no answer left, or an answer that ends it. */
  lemma ReadsEnd(answers: seq<ReadAnswer>, i: nat, left: nat, data: seq<char>)
    requires i <= |answers|
    requires left == 0 || i == |answers| || answers[i] == Got([]) || !answers[i].Got?
    ensures
      var eof := left > 0 && i < |answers| && answers[i].Got?;
      var failed := left > 0 && i < |answers| && answers[i].ReadFailed?;
      Unread(answers, i, left, data) == Incoming(data, if eof then 0 else left, failed)
  {
    assert data + [] == data;
  }

  /** The read loop stores what it gets behind the `have` bytes that are there already. */
  method ReadLoop(rbuf: array<char>, have: nat, answers: seq<ReadAnswer>, rleft: nat)
    returns (have': nat, left: nat, failed: bool)
    requires have + rleft <= rbuf.Length
    modifies rbuf
    ensures var r := ReadPhase(answers, rleft);
      && have' == have + |r.data| && left == r.left && failed == r.failed
      && Stored(old(rbuf[..]), rbuf[..], have, r.data)
  {
    have', left := have, rleft;
    var i := 0;
    ghost var total, data: seq<char> := ReadPhase(answers, rleft), [];
    ReadsBegin(answers, rleft);
    while left > 0 && i < |answers|
      invariant i <= |answers| && have' == have + |data| && have' + left == have + rleft
      invariant total == Unread(answers, i, left, data)
      invariant Stored(old(rbuf[..]), rbuf[..], have, data)
      decreases |answers| - i
    {
      var answer := answers[i];
      if answer.ReadRetry? || answer.ReadFailed? || answer.data == [] {
        ReadsEnd(answers, i, left, data);
        return have', if answer.Got? then 0 else left, answer.ReadFailed?;
      }
      var d := Front(answer.data, left);
      ReadOne(answers, i, left, data);
      Append(rbuf, have', d, old(rbuf[..]), have, data);
      have', left, i := have' + |d|, left - |d|, i + 1;
      data := data + d;
    }
    ReadsEnd(answers, i, left, data);
    return have', left, false;
  }

  /** Bytes put into the buffer at `place`, right behind the `data` stored since it was `was`. */
  method Append(buf: array<char>, place: nat, bytes: seq<char>,
                ghost was: seq<char>, ghost at: nat, ghost data: seq<char>)
    requires place == at + |data| && place + |bytes| <= buf.Length && Stored(was, buf[..], at, data)
    modifies buf
    ensures Stored(was, buf[..], at, data + bytes)
  {
    forall i | 0 <= i < |bytes| {
      buf[place + i] := bytes[i];
    }
    StoredTwice(was, old(buf[..]), buf[..], at, data, bytes);
  }

  /** The body of the outer loop, once poll has reported something ready. */
  method TakeTurn(rbuf: array<char>, got: nat, round: Round, rleft: nat, wleft: nat)
    returns (got': nat, rleft': nat, wleft': nat, failed: bool)
    requires round.Ready? && got + rleft <= rbuf.Length
    modifies rbuf
    ensures var p := Turn(round, rleft, wleft);
      && got' == got + |p.data| && failed == p.failed && (!failed ==> rleft' == p.rleft && wleft' == p.wleft)
      && Stored(old(rbuf[..]), rbuf[..], got, p.data)
  {
    got', rleft', wleft', failed := got, rleft, wleft, false;
    if wleft > 0 && round.canWrite {
      wleft', failed := WriteLoop(round.outs, wleft);
      if failed {
        return;
      }
    }
    if round.canRead {
      got', rleft', failed := ReadLoop(rbuf, got, round.ins, rleft);
    }
  }

  /** The rounds from number `loops` on, behind what came before them. */
  function Remaining(rounds: seq<Round>, rleft: nat, wleft: nat, loops: nat, data: seq<char>): Exchange
    requires loops <= |rounds|
  {
    After(data, loops, Converse(rounds[loops..], rleft, wleft, loops))
  }

  lemma ConverseFinishes(rounds: seq<Round>, wleft: nat, loops: nat, data: seq<char>)
    requires loops <= |rounds|
    ensures Remaining(rounds, 0, wleft, loops, data) == Exchange(0, data, loops)
  {
  }

  /** poll has nothing to report, or fails. */
  lemma ConverseGivesUp(rounds: seq<Round>, rleft: nat, wleft: nat, loops: nat, data: seq<char>)
    requires loops <= |rounds| && rleft > 0 && (loops < |rounds| ==> !rounds[loops].Ready?)
    ensures Remaining(rounds, rleft, wleft, loops, data)
         == Exchange(if loops == |rounds| || rounds[loops].Timeout? then 1 else -1, data, loops + 1)
  {
  }

  /** A ready round ends the exchange with an error, or is behind the rest of it. */
  lemma ConverseGoesOn(rounds: seq<Round>, rleft: nat, wleft: nat, loops: nat, data: seq<char>)
    requires loops < |rounds| && rleft > 0 && rounds[loops].Ready?
    ensures var p := Turn(rounds[loops], rleft, wleft);
      Remaining(rounds, rleft, wleft, loops, data) ==
        if p.failed || loops + 1 > MAX_LOOPS then Exchange(-1, data + p.data, loops + 1)
        else Remaining(rounds, p.rleft, p.wleft, loops + 1, data + p.data)
  {
    var p := Turn(rounds[loops], rleft, wleft);
    assert rounds[loops..][1..] == rounds[loops + 1..];
    if !p.failed && loops + 1 <= MAX_LOOPS {
      AfterAfter(data, p.data, loops, 1, Converse(rounds[loops + 1..], p.rleft, p.wleft, loops + 1));
    }
  }

  lemma ConverseBegins(rounds: seq<Round>, len: nat)
    ensures Remaining(rounds, len, len, 0, []) == Converse(rounds, len, len, 0)
  {
    assert rounds[0..] == rounds;
    AfterAfter([], [], 0, 0, Converse(rounds, len, len, 0));
  }

  method SendAndReceive(rbuf: array<char>, len: nat, rounds: seq<Round>) returns (rc: int, got: nat, polls: nat)
    requires len <= rbuf.Length
    modifies rbuf
    ensures var x := Converse(rounds, len, len, 0);
      && rc == x.rc && got == |x.data| <= len && polls == x.polls <= 11
      && Stored(old(rbuf[..]), rbuf[..], 0, x.data)
  {
    var rleft, wleft, loops := len, len, 0;
    got := 0;
    ghost var total, data := Converse(rounds, len, len, 0), [];
    ConverseBegins(rounds, len);
    while rleft > 0
      invariant got + rleft <= len && loops <= MAX_LOOPS && loops <= |rounds| && got == |data|
      invariant total == Remaining(rounds, rleft, wleft, loops, data)
      invariant Stored(old(rbuf[..]), rbuf[..], 0, data)
      decreases MAX_LOOPS + 1 - loops
    {
      if loops == |rounds| || !rounds[loops].Ready? {
        ConverseGivesUp(rounds, rleft, wleft, loops, data);
        return if loops == |rounds| || rounds[loops].Timeout? then 1 else -1, got, loops + 1;
      }
      ConverseGoesOn(rounds, rleft, wleft, loops, data);
      ghost var p, was := Turn(rounds[loops], rleft, wleft), rbuf[..];
      var failed;
      got, rleft, wleft, failed := TakeTurn(rbuf, got, rounds[loops], rleft, wleft);
      StoredTwice(old(rbuf[..]), was, rbuf[..], 0, data, p.data);
      data := data + p.data;
      loops := loops + 1;
      if failed || loops > MAX_LOOPS {
        return -1, got, loops;
      }
    }
    ConverseFinishes(rounds, wleft, loops, data);
    return 0, got, loops;
  }

  // ----- conn_test -----

  const BUF_SZ: nat := 193
  const MAX_CONN_TRIES: int := 3

  /** conn_poll_for_accept: NotReady is a poll that reports something other than POLLIN. */
  datatype Accept = AcceptTimeout | AcceptError | NotReady | Accepted(fd: int)

  /** The descriptor it returns; NotReady gives 0, which is not one it opened. */
  function AcceptResult(a: Accept): int {
    match a
    case Accepted(fd) => fd
    case NotReady => 0
    case _ => -1
  }

  datatype Attempt = Attempt(accept: Accept, rounds: seq<Round>)

  predicate ValidAttempt(a: Attempt) {
    a.accept.Accepted? ==> a.accept.fd >= 0
  }

  /** The outcome of one attempt to send and get back `msg`. */
  function Talk(a: Attempt, msg: seq<char>): Exchange {
    Converse(a.rounds, |msg|, |msg|, 0)
  }

  predicate Echoed(a: Attempt, msg: seq<char>) {
    Talk(a, msg).rc == 0 && Talk(a, msg).data == msg
  }

  /** The attempt goes on to the exchange; with an echo port there is nothing to accept. */
  predicate Connected(a: Attempt, listening: bool) {
    listening ==> AcceptResult(a.accept) >= 0
  }

  /** A failed attempt that may be followed by another. */
  predicate Retries(a: Attempt, listening: bool, msg: seq<char>) {
    Connected(a, listening) && !Echoed(a, msg) && Talk(a, msg).rc >= 0
  }

  /** Two attempts, although the constant says three. */
  predicate Succeeds(first: Attempt, second: Attempt, listening: bool, msg: seq<char>) {
    || (Connected(first, listening) && Echoed(first, msg))
    || (Retries(first, listening, msg) && Connected(second, listening) && Echoed(second, msg))
  }

  /** strcmp over the two buffers tells exactly whether the bytes read are the message. */
  lemma CompareIsExact(rbuf: seq<char>, data: seq<char>, msg: seq<char>)
    requires |data| <= |msg| < |rbuf| && NUL !in msg
    requires rbuf[..|data|] == data && forall i :: |data| <= i < |rbuf| ==> rbuf[i] == NUL
    ensures CString(rbuf) == msg <==> data == msg
  {
    if data == msg {
      CStringUnique(rbuf, msg);
    } else if |data| < |msg| {
      assert rbuf[|data|] == NUL && msg[|data|] != NUL;
    }
  }

  /** One attempt on a cleared buffer: did the message come back? */
  method Attempted(a: Attempt, msg: seq<char>) returns (rc: int, same: bool, polls: nat)
    requires NUL !in msg && |msg| < BUF_SZ
    ensures rc == Talk(a, msg).rc && polls <= 11
    ensures same <==> Talk(a, msg).data == msg
  {
    var rbuf := new char[BUF_SZ](_ => NUL);
    var got;
    rc, got, polls := SendAndReceive(rbuf, |msg|, a.rounds);
    ghost var data := Talk(a, msg).data;
    assert rbuf[0..|data|] == rbuf[..|data|];
    forall i | |data| <= i < BUF_SZ ensures rbuf[i] == NUL {
      assert rbuf[i] == rbuf[..][0 + |data|..][i - |data|];
    }
    CompareIsExact(rbuf[..], data, msg);
    same := CString(rbuf[..]) == msg;
  }

  /** What an attempt says about going on. */
  datatype Verdict = Success | Again | GiveUp

  function Judge(a: Attempt, listening: bool, msg: seq<char>): Verdict {
    if Connected(a, listening) && Echoed(a, msg) then Success
    else if Retries(a, listening, msg) then Again
    else GiveUp
  }

  /** Accept if there is a listening socket, then talk. */
  method TryOnce(a: Attempt, listening: bool, msg: seq<char>) returns (rd: int, verdict: Verdict)
    requires NUL !in msg && |msg| < BUF_SZ && ValidAttempt(a)
    ensures rd == if listening then AcceptResult(a.accept) else -1
    ensures verdict == Judge(a, listening, msg)
  {
    rd := -1;
    if listening {
      rd := AcceptResult(a.accept);
      if rd < 0 {
        return rd, GiveUp;
      }
    }
    var rc, same, _ := Attempted(a, msg);
    if rc == 0 && same {
      return rd, Success;
    }
    return rd, if rc < 0 then GiveUp else Again;
  }

  /** Descriptors as they are given to conn_test and closed by it. */
  datatype FdEvent = Given(fd: int) | Closed(fd: int)

  function GivenBy(a: Attempt, listening: bool): seq<FdEvent> {
    if listening && a.accept.Accepted? then [Given(a.accept.fd)] else []
  }

  /** What an attempt leaves in `rd`, and the closing of it. */
  function ReadEnd(a: Attempt, listening: bool): int {
    if listening then AcceptResult(a.accept) else -1
  }

  function Closing(rd: int): seq<FdEvent> {
    if rd == -1 then [] else [Closed(rd)]
  }

  /** Everything conn_test does with descriptors, in order. */
  function Ledger(wd: int, first: Attempt, second: Attempt, listening: bool, msg: seq<char>): seq<FdEvent> {
    if wd == -1 then []
    else
      [Given(wd)] + GivenBy(first, listening)
      + if Retries(first, listening, msg)
        then Closing(ReadEnd(first, listening)) + GivenBy(second, listening)
             + [Closed(wd)] + Closing(ReadEnd(second, listening))
        else [Closed(wd)] + Closing(ReadEnd(first, listening))
  }

  /** The read end after so many attempts, and the ledger up to there. */
  function RdAfter(tries: nat, first: Attempt, second: Attempt, listening: bool): int {
    if tries == 0 then -1 else ReadEnd(if tries == 1 then first else second, listening)
  }

  function SoFar(tries: nat, wd: int, first: Attempt, second: Attempt, listening: bool): seq<FdEvent> {
    if tries == 0 then [Given(wd)]
    else if tries == 1 then [Given(wd)] + GivenBy(first, listening)
    else [Given(wd)] + GivenBy(first, listening) + Closing(ReadEnd(first, listening)) + GivenBy(second, listening)
  }

  lemma OneMoreAttempt(tries: nat, wd: int, first: Attempt, second: Attempt, listening: bool)
    requires tries < 2
    ensures SoFar(tries, wd, first, second, listening) + Closing(RdAfter(tries, first, second, listening))
              + GivenBy(if tries == 0 then first else second, listening)
         == SoFar(tries + 1, wd, first, second, listening)
  {
  }

  lemma LedgerEnds(wd: int, first: Attempt, second: Attempt, listening: bool, msg: seq<char>)
    requires wd != -1
    ensures var n := if Retries(first, listening, msg) then 2 else 1;
      Ledger(wd, first, second, listening, msg)
        == SoFar(n, wd, first, second, listening) + [Closed(wd)] + Closing(RdAfter(n, first, second, listening))
  {
  }

  /** `wd` is conn_remote's answer. */
  method ConnTest(listening: bool, wd: int, msg: seq<char>, first: Attempt, second: Attempt)
    returns (ok: bool, tries: nat, ledger: seq<FdEvent>)
    requires NUL !in msg && |msg| < BUF_SZ && wd >= -1 && ValidAttempt(first) && ValidAttempt(second)
    ensures ok <==> wd != -1 && Succeeds(first, second, listening, msg)
    ensures tries == if wd == -1 then 0 else if Retries(first, listening, msg) then 2 else 1
    ensures ledger == Ledger(wd, first, second, listening, msg)
  {
    ok, tries, ledger := false, 0, [];
    if wd == -1 {
      return;
    }
    ledger := [Given(wd)];
    var rd := -1;
    while tries + 1 < MAX_CONN_TRIES
      invariant tries <= 2 && !ok
      invariant tries > 0 ==> Judge(first, listening, msg) == Again
      invariant tries > 1 ==> Judge(second, listening, msg) == Again
      invariant rd == RdAfter(tries, first, second, listening)
      invariant ledger == SoFar(tries, wd, first, second, listening)
    {
      OneMoreAttempt(tries, wd, first, second, listening);
      ledger := ledger + Closing(rd);
      var a := if tries == 0 then first else second;
      var verdict;
      rd, verdict := TryOnce(a, listening, msg);
      ledger := ledger + GivenBy(a, listening);
      tries := tries + 1;
      if verdict != Again {
        ok := verdict == Success;
        break;
      }
    }
    LedgerEnds(wd, first, second, listening, msg);
    ledger := ledger + [Closed(wd)] + Closing(rd);
  }

  function CountOf(ledger: seq<FdEvent>, e: FdEvent): nat {
    if ledger == [] then 0 else (if ledger[0] == e then 1 else 0) + CountOf(ledger[1..], e)
  }

  lemma {:induction false} CountAppend(a: seq<FdEvent>, b: seq<FdEvent>, e: FdEvent)
    ensures CountOf(a + b, e) == CountOf(a, e) + CountOf(b, e)
  {
    if a == [] {
      assert a + b == b;
    } else {
      CountAppend(a[1..], b, e);
      assert (a + b)[1..] == a[1..] + b;
    }
  }

  /** 1 for an accept that was not ready and is taken for descriptor 0. */
  function Mistaken(a: Attempt, listening: bool): nat {
    if listening && a.accept.NotReady? then 1 else 0
  }

  lemma OneEach(a: Attempt, listening: bool, fd: int)
    requires ValidAttempt(a)
    ensures CountOf(Closing(ReadEnd(a, listening)), Given(fd)) == 0 == CountOf(GivenBy(a, listening), Closed(fd))
    ensures CountOf(Closing(ReadEnd(a, listening)), Closed(fd)) ==
      CountOf(GivenBy(a, listening), Given(fd)) + if fd == 0 then Mistaken(a, listening) else 0
  {
  }

  /** Every descriptor is closed as often as it was given, but for a 0 too many for each accept that was not ready. */
  lemma Conservation(wd: int, first: Attempt, second: Attempt, listening: bool, msg: seq<char>, fd: int)
    requires wd >= 0 && ValidAttempt(first) && ValidAttempt(second)
    ensures var ledger := Ledger(wd, first, second, listening, msg);
      CountOf(ledger, Closed(fd)) == CountOf(ledger, Given(fd)) +
        if fd != 0 then 0
        else Mistaken(first, listening) + if Retries(first, listening, msg) then Mistaken(second, listening) else 0
  {
    var g1, c1 := GivenBy(first, listening), Closing(ReadEnd(first, listening));
    var g2, c2 := GivenBy(second, listening), Closing(ReadEnd(second, listening));
    OneEach(first, listening, fd);
    OneEach(second, listening, fd);
    CountLedger(wd, g1, c1, g2, c2, Given(fd));
    CountLedger(wd, g1, c1, g2, c2, Closed(fd));
  }

  function One(x: FdEvent, e: FdEvent): nat {
    if x == e then 1 else 0
  }

  lemma CountLedger(wd: int, g1: seq<FdEvent>, c1: seq<FdEvent>, g2: seq<FdEvent>, c2: seq<FdEvent>, e: FdEvent)
    ensures CountOf([Given(wd)] + g1 + (c1 + g2 + [Closed(wd)] + c2), e)
         == One(Given(wd), e) + CountOf(g1, e) + CountOf(c1, e) + CountOf(g2, e) + One(Closed(wd), e) + CountOf(c2, e)
    ensures CountOf([Given(wd)] + g1 + ([Closed(wd)] + c1), e)
         == One(Given(wd), e) + CountOf(g1, e) + One(Closed(wd), e) + CountOf(c1, e)
  {
    CountAppend([Given(wd)] + g1, c1 + g2 + [Closed(wd)] + c2, e);
    CountAppend([Given(wd)] + g1, [Closed(wd)] + c1, e);
    CountAppend([Given(wd)], g1, e);
    CountAppend(c1 + g2 + [Closed(wd)], c2, e);
    CountAppend(c1 + g2, [Closed(wd)], e);
    CountAppend(c1, g2, e);
    CountAppend([Closed(wd)], c1, e);
    assert forall x: FdEvent :: CountOf([x], e) == One(x, e) + CountOf([x][1..], e) == One(x, e);
  }

  // ----- the round trip -----

  /** Everything the reads of these rounds deliver. */
  function Delivered(ins: seq<ReadAnswer>): seq<char> {
    if ins == [] then [] else (if ins[0].Got? then ins[0].data else []) + Delivered(ins[1..])
  }

  function DeliveredAll(rounds: seq<Round>): seq<char> {
    if rounds == [] then [] else (if rounds[0].Ready? then Delivered(rounds[0].ins) else []) + DeliveredAll(rounds[1..])
  }

  /** Reads that bring data; the last may find nothing more for now. */
  predicate ReadsOn(ins: seq<ReadAnswer>) {
    forall i :: 0 <= i < |ins| ==>
      (ins[i].Got? && ins[i].data != []) || (ins[i].ReadRetry? && i == |ins| - 1)
  }

  /** A peer that reads and writes without failing, in pieces of whatever size, each when it is ready to. */
  predicate Honest(rounds: seq<Round>) {
    forall r :: r in rounds ==>
      && r.Ready? && (r.canRead || r.ins == [])
      && (forall w :: w in r.outs ==> !w.WriteFailed?)
      && ReadsOn(r.ins)
  }

  lemma {:induction false} HonestWrites(answers: seq<WriteAnswer>, left: nat)
    requires forall w :: w in answers ==> !w.WriteFailed?
    ensures !WritePhase(answers, left).failed
  {
    if left > 0 && answers != [] && answers[0].Wrote? && answers[0].n > 0 {
      HonestWrites(answers[1..], left - Min(answers[0].n, left));
    }
  }

  lemma {:induction false} HonestReads(answers: seq<ReadAnswer>, left: nat)
    requires ReadsOn(answers) && |Delivered(answers)| <= left
    ensures ReadPhase(answers, left) == Incoming(Delivered(answers), left - |Delivered(answers)|, false)
  {
    if answers != [] && answers[0].Got? {
      HonestReads(answers[1..], left - |answers[0].data|);
    }
  }

  /** Whatever the pieces, a message that comes back whole within ten rounds is recognised. */
  lemma {:induction false} HonestEchoSucceeds(rounds: seq<Round>, left: nat, wleft: nat, loops: nat)
    requires Honest(rounds) && |DeliveredAll(rounds)| == left && loops + |rounds| <= MAX_LOOPS
    ensures Converse(rounds, left, wleft, loops).rc == 0
    ensures Converse(rounds, left, wleft, loops).data == DeliveredAll(rounds)
    decreases |rounds|
  {
    if left > 0 {
      var r := rounds[0];
      assert r in rounds;
      HonestWrites(r.outs, wleft);
      HonestReads(r.ins, left);
      var p := Turn(r, left, wleft);
      HonestEchoSucceeds(rounds[1..], p.rleft, p.wleft, loops + 1);
    }
  }

  /** Such an attempt passes the test. */
  lemma HonestAttemptSucceeds(a: Attempt, second: Attempt, listening: bool, msg: seq<char>)
    requires Connected(a, listening) && Honest(a.rounds) && |a.rounds| <= MAX_LOOPS && DeliveredAll(a.rounds) == msg
    ensures Succeeds(a, second, listening, msg)
  {
    HonestEchoSucceeds(a.rounds, |msg|, |msg|, 0);
  }

  // ----- end of file -----

  /** The read loop meets an end of file with bytes still to read. */
  predicate HitsEof(answers: seq<ReadAnswer>, left: nat) {
    && left > 0 && answers != [] && answers[0].Got?
    && (answers[0].data == [] || HitsEof(answers[1..], left - |Front(answers[0].data, left)|))
  }

  predicate EofInTurn(round: Round, rleft: nat, wleft: nat)
    requires round.Ready?
  {
    && round.canRead && HitsEof(round.ins, rleft)
    && !(wleft > 0 && round.canWrite && WritePhase(round.outs, wleft).failed)
  }

  /** Some round of the exchange meets one. */
  predicate SawEof(rounds: seq<Round>, rleft: nat, wleft: nat, loops: nat)
    decreases |rounds|
  {
    rleft > 0 && rounds != [] && rounds[0].Ready? &&
    var p := Turn(rounds[0], rleft, wleft);
    || EofInTurn(rounds[0], rleft, wleft)
    || (!p.failed && loops + 1 <= MAX_LOOPS && SawEof(rounds[1..], p.rleft, p.wleft, loops + 1))
  }

  lemma {:induction false} EofIsShort(answers: seq<ReadAnswer>, left: nat)
    ensures var r := ReadPhase(answers, left);
      if HitsEof(answers, left) then |r.data| < left && r.left == 0 && !r.failed else |r.data| + r.left == left
  {
    if left > 0 && answers != [] && answers[0].Got? && answers[0].data != [] {
      EofIsShort(answers[1..], left - |Front(answers[0].data, left)|);
    }
  }

  lemma EofTurnIsShort(round: Round, rleft: nat, wleft: nat)
    requires round.Ready?
    ensures var p := Turn(round, rleft, wleft);
      if EofInTurn(round, rleft, wleft) then |p.data| < rleft && p.rleft == 0 && !p.failed
      else |p.data| + p.rleft == rleft
  {
    EofIsShort(round.ins, rleft);
  }

  /** An exchange that ends without an error came up short if and only if it met an end of file. */
  lemma {:induction false} ShortIffEof(rounds: seq<Round>, rleft: nat, wleft: nat, loops: nat)
    ensures var x := Converse(rounds, rleft, wleft, loops);
      && (SawEof(rounds, rleft, wleft, loops) ==> |x.data| < rleft)
      && (x.rc == 0 && !SawEof(rounds, rleft, wleft, loops) ==> |x.data| == rleft)
    decreases |rounds|
  {
    if rleft > 0 && rounds != [] && rounds[0].Ready? {
      var p := Turn(rounds[0], rleft, wleft);
      EofTurnIsShort(rounds[0], rleft, wleft);
      if !p.failed && loops + 1 <= MAX_LOOPS {
        ShortIffEof(rounds[1..], p.rleft, p.wleft, loops + 1);
      }
    }
  }

  /** End of file ends the exchange, maybe without an error, but never passes for an echo. */
  lemma EndOfFileIsNoEcho(a: Attempt, msg: seq<char>)
    requires SawEof(a.rounds, |msg|, |msg|, 0)
    ensures |Talk(a, msg).data| < |msg| && !Echoed(a, msg)
  {
    ShortIffEof(a.rounds, |msg|, |msg|, 0);
  }

  // ----- errors -----

  /** Bytes written by the first i answers. */
  function WrittenBy(answers: seq<WriteAnswer>, i: nat): nat
    requires i <= |answers|
  {
    if i == 0 then 0 else (if answers[0].Wrote? then answers[0].n else 0) + WrittenBy(answers[1..], i - 1)
  }

  /** Answer i is the failure the write loop meets: all before it wrote something, and not everything. */
  predicate WriteFailsAt(answers: seq<WriteAnswer>, left: nat, i: nat) {
    && i < |answers| && answers[i].WriteFailed? && WrittenBy(answers, i) < left
    && forall j :: 0 <= j < i ==> answers[j].Wrote? && answers[j].n > 0
  }

  lemma {:induction false} WriteFails(answers: seq<WriteAnswer>, left: nat, i: nat)
    requires WriteFailsAt(answers, left, i)
    ensures WritePhase(answers, left).failed
  {
    if i > 0 {
      assert answers[0].Wrote? && answers[0].n > 0;
      WriteFails(answers[1..], left - answers[0].n, i - 1);
    }
  }

  lemma {:induction false} WriteFailure(answers: seq<WriteAnswer>, left: nat) returns (i: nat)
    requires WritePhase(answers, left).failed
    ensures WriteFailsAt(answers, left, i)
  {
    if answers[0].WriteFailed? {
      return 0;
    }
    i := WriteFailure(answers[1..], left - Min(answers[0].n, left));
    i := i + 1;
    assert forall j :: 0 < j < |answers| ==> answers[j] == answers[1..][j - 1];
  }

  /** The write loop fails if and only if write fails while there is something left to write. */
  lemma WriteFailsIff(answers: seq<WriteAnswer>, left: nat)
    ensures WritePhase(answers, left).failed <==> exists i: nat :: WriteFailsAt(answers, left, i)
  {
    if WritePhase(answers, left).failed {
      var i := WriteFailure(answers, left);
    } else if i: nat :| WriteFailsAt(answers, left, i) {
      WriteFails(answers, left, i);
    }
  }

  /** The same for the read loop. */
  function ReadBy(answers: seq<ReadAnswer>, i: nat): nat
    requires i <= |answers|
  {
    if i == 0 then 0 else (if answers[0].Got? then |answers[0].data| else 0) + ReadBy(answers[1..], i - 1)
  }

  predicate ReadFailsAt(answers: seq<ReadAnswer>, left: nat, i: nat) {
    && i < |answers| && answers[i].ReadFailed? && ReadBy(answers, i) < left
    && forall j :: 0 <= j < i ==> answers[j].Got? && answers[j].data != []
  }

  lemma {:induction false} ReadFails(answers: seq<ReadAnswer>, left: nat, i: nat)
    requires ReadFailsAt(answers, left, i)
    ensures ReadPhase(answers, left).failed
  {
    if i > 0 {
      assert answers[0].Got? && answers[0].data != [];
      ReadFails(answers[1..], left - |answers[0].data|, i - 1);
    }
  }

  lemma {:induction false} ReadFailure(answers: seq<ReadAnswer>, left: nat) returns (i: nat)
    requires ReadPhase(answers, left).failed
    ensures ReadFailsAt(answers, left, i)
  {
    if answers[0].ReadFailed? {
      return 0;
    }
    i := ReadFailure(answers[1..], left - |Front(answers[0].data, left)|);
    i := i + 1;
    assert forall j :: 0 < j < |answers| ==> answers[j] == answers[1..][j - 1];
  }

  lemma ReadFailsIff(answers: seq<ReadAnswer>, left: nat)
    ensures ReadPhase(answers, left).failed <==> exists i: nat :: ReadFailsAt(answers, left, i)
  {
    if ReadPhase(answers, left).failed {
      var i := ReadFailure(answers, left);
    } else if i: nat :| ReadFailsAt(answers, left, i) {
      ReadFails(answers, left, i);
    }
  }

  /** A ready round fails with its write loop, or else with its read loop. */
  lemma TurnFailsIff(round: Round, rleft: nat, wleft: nat)
    requires round.Ready?
    ensures Turn(round, rleft, wleft).failed <==>
      || (round.canWrite && exists i: nat :: WriteFailsAt(round.outs, wleft, i))
      || (round.canRead && exists i: nat :: ReadFailsAt(round.ins, rleft, i))
  {
    WriteFailsIff(round.outs, wleft);
    ReadFailsIff(round.ins, rleft);
  }

  /** A round in which nothing can be done. */
  predicate Idle(r: Round) {
    r.Ready? && !r.canRead && !r.canWrite
  }

  lemma {:induction false} IdleRounds(rounds: seq<Round>, k: nat, rleft: nat, wleft: nat, loops: nat)
    requires k <= |rounds| && (forall i :: 0 <= i < k ==> Idle(rounds[i])) && rleft > 0 && loops + k <= MAX_LOOPS
    ensures Converse(rounds, rleft, wleft, loops) == After([], k, Converse(rounds[k..], rleft, wleft, loops + k))
    decreases k
  {
    if k == 0 {
      assert rounds[0..] == rounds;
      AfterAfter([], [], 0, 0, Converse(rounds, rleft, wleft, loops));
    } else {
      assert Idle(rounds[0]);
      IdleRounds(rounds[1..], k - 1, rleft, wleft, loops + 1);
      assert rounds[1..][k - 1..] == rounds[k..];
      AfterAfter([], [], 1, k - 1, Converse(rounds[k..], rleft, wleft, loops + k));
    }
  }

  /**
   * How an exchange goes wrong, after any number k of idle rounds up to ten: a timeout is 1, an error of poll,
   * write or read is -1, and so is an eleventh ready round, whatever it brings.
   */
  lemma ErrorsMean(rounds: seq<Round>, k: nat, len: nat)
    requires len > 0 && k <= |rounds| && k <= 10 && forall i :: 0 <= i < k ==> Idle(rounds[i])
    ensures var x := Converse(rounds, len, len, 0);
      && (k == |rounds| || rounds[k] == Timeout ==> x.rc == 1 && x.polls == k + 1)
      && (k < |rounds| && rounds[k] == PollError ==> x.rc == -1)
      && (k < |rounds| && rounds[k].Ready? && Turn(rounds[k], len, len).failed ==> x.rc == -1)
      && (k == 10 < |rounds| && rounds[k].Ready? ==> x.rc == -1)
  {
    IdleRounds(rounds, k, len, len, 0);
    assert k < |rounds| ==> rounds[k..][0] == rounds[k];
  }

  /**
   * A second attempt is made exactly if the first was connected, which an accept that was not ready passes for,
   * and timed out or brought back something else than the message.
   */
  lemma RetriesIff(a: Attempt, listening: bool, msg: seq<char>)
    requires ValidAttempt(a)
    ensures Retries(a, listening, msg) <==>
      && (!listening || a.accept.Accepted? || a.accept.NotReady?)
      && (Talk(a, msg).rc == 1 || (Talk(a, msg).rc == 0 && Talk(a, msg).data != msg))
  {
  }
}
