/** check_ssh_stderr: draining the child's stderr and looking for fatal lines. Bytes are characters here. */
module Drain {
  const STDERR_BUF_SZ: int := 4096
  const PORT_FAILURE: string := "remote port forwarding failed"
  const STUCK_REPORT: string := "ssh-stuck-detector: STUCK"
  const NUL: char := '\0'

  predicate OccursAt(hay: seq<char>, needle: seq<char>, i: int) {
    0 <= i <= |hay| - |needle| && hay[i..i + |needle|] == needle
  }

  /** `needle` occurs contiguously in `hay`: what strstr looks for. */
  predicate Contains(hay: seq<char>, needle: seq<char>) {
    exists i :: 0 <= i <= |hay| && OccursAt(hay, needle, i)
  }

  /** The C string held in a buffer: everything before the first NUL. */
  function CString(buffer: seq<char>): (s: seq<char>)
    ensures s <= buffer
    ensures NUL !in s
    ensures |s| < |buffer| ==> buffer[|s|] == NUL
  {
    if buffer == [] || buffer[0] == NUL then [] else [buffer[0]] + CString(buffer[1..])
  }

  /** Only bytes before the first NUL count, so two buffers that agree that far hold the same string. */
  lemma {:induction false} CStringUnique(buffer: seq<char>, s: seq<char>)
    requires s <= buffer && NUL !in s
    requires |s| == |buffer| || buffer[|s|] == NUL
    ensures CString(buffer) == s
  {
    if |s| > 0 {
      CStringUnique(buffer[1..], s[1..]);
      assert s == [s[0]] + s[1..];
    }
  }

  /** What strstr finds in one chunk, in the order the source looks. */
  datatype Finding = Nothing | PortFailed | Stuck

  function Classify(chunk: seq<char>): Finding {
    if Contains(CString(chunk), PORT_FAILURE) then PortFailed
    else if Contains(CString(chunk), STUCK_REPORT) then Stuck
    else Nothing
  }

  /** One successful read: the bytes it returned and the time stamped after it. */
  datatype Chunk = Chunk(bytes: seq<char>, time: int)

  predicate Readable(c: Chunk) {
    1 <= |c.bytes| <= STDERR_BUF_SZ - 1
  }

  /** What is found in each of the chunks. */
  function Findings(chunks: seq<Chunk>): (found: seq<Finding>)
    ensures |found| == |chunks| && forall i :: 0 <= i < |found| ==> found[i] == Classify(chunks[i].bytes)
  {
    seq(|chunks|, i requires 0 <= i < |chunks| => Classify(chunks[i].bytes))
  }

  /** How many of these are looked at: up to and including the first that is something. */
  function LookedAt(found: seq<Finding>): (n: nat)
    ensures n <= |found|
  {
    if found == [] then 0
    else if found[0] != Nothing then 1
    else 1 + LookedAt(found[1..])
  }

  /** How many of the chunks are consumed. */
  function Consumed(chunks: seq<Chunk>): (n: nat)
    ensures n <= |chunks|
  {
    LookedAt(Findings(chunks))
  }

  /** What check_ssh_stderr answers on an open descriptor. */
  predicate Fatal(chunks: seq<Chunk>) {
    var n := Consumed(chunks);
    n > 0 && Findings(chunks)[n - 1] != Nothing
  }

  function Bytes(chunks: seq<Chunk>): seq<char> {
    if chunks == [] then [] else Bytes(chunks[..|chunks| - 1]) + chunks[|chunks| - 1].bytes
  }

  lemma BytesGrow(before: seq<char>, chunks: seq<Chunk>, n: nat)
    requires n < |chunks|
    ensures before + Bytes(chunks[..n + 1]) == before + Bytes(chunks[..n]) + chunks[n].bytes
  {
    assert chunks[..n + 1][..n] == chunks[..n];
  }

  class StderrDrain {
    var fd: int                   // ssh_stderr_fd
    var lastStderrTime: int       // last_stderr_time
    var portFwdFailed: bool       // port_fwd_failed
    var forwarded: seq<char>      // everything copied to our own stderr

    constructor (fd: int)
      ensures this.fd == fd && lastStderrTime == 0 && !portFwdFailed && forwarded == []
    {
      this.fd := fd;
      lastStderrTime, portFwdFailed, forwarded := 0, false, [];
    }

    /** read(2) into the reused buffer, and the NUL written behind what it returned. */
    static method Read(buf: array<char>, bytes: seq<char>) returns (n: nat)
      requires |bytes| < buf.Length
      modifies buf
      ensures n == |bytes| && buf[..n] == bytes
      ensures CString(buf[..]) == CString(bytes)
    {
      n := |bytes|;
      forall i | 0 <= i < n {
        buf[i] := bytes[i];
      }
      buf[n] := NUL;
      assert buf[..n] == bytes;
      TerminatedRead(buf[..], bytes);
    }

    /** One pass of the loop: read, stamp, forward, and look for the two patterns. `found` is what is there. */
    method DrainChunk(buf: array<char>, chunk: Chunk, ghost found: Finding) returns (fatal: bool)
      requires buf.Length == STDERR_BUF_SZ && Readable(chunk) && found == Classify(chunk.bytes)
      modifies this`lastStderrTime, this`portFwdFailed, this`forwarded, buf
      ensures fatal <==> found != Nothing
      ensures portFwdFailed == (old(portFwdFailed) || found == PortFailed)
      ensures lastStderrTime == chunk.time
      ensures forwarded == old(forwarded) + chunk.bytes
    {
      var n := Read(buf, chunk.bytes);
      lastStderrTime := chunk.time;
      forwarded := forwarded + buf[..n];
      var text := CString(buf[..]);
      if Contains(text, PORT_FAILURE) {
        portFwdFailed := true;
        return true;
      }
      if Contains(text, STUCK_REPORT) {
        return true;
      }
      return false;
    }

    /** The read loop, with what is found in each of the chunks. */
    method DrainAll(chunks: seq<Chunk>, ghost found: seq<Finding>) returns (fatal: bool, used: nat)
      requires found == Findings(chunks) && forall i :: 0 <= i < |chunks| ==> Readable(chunks[i])
      modifies this`lastStderrTime, this`portFwdFailed, this`forwarded
      ensures used == LookedAt(found)
      ensures fatal <==> used > 0 && found[used - 1] != Nothing
      ensures portFwdFailed <==> old(portFwdFailed) || (used > 0 && found[used - 1] == PortFailed)
      ensures lastStderrTime == if used == 0 then old(lastStderrTime) else chunks[used - 1].time
      ensures forwarded == old(forwarded) + Bytes(chunks[..used])
    {
      used := 0;
      var buf := new char[STDERR_BUF_SZ](_ => NUL);
      while used < |chunks|
        invariant used <= |chunks|
        invariant LookedAt(found) == used + LookedAt(found[used..])
        invariant forwarded == old(forwarded) + Bytes(chunks[..used])
        invariant lastStderrTime == if used == 0 then old(lastStderrTime) else chunks[used - 1].time
        invariant portFwdFailed == old(portFwdFailed) && (used > 0 ==> found[used - 1] == Nothing)
      {
        fatal := DrainChunk(buf, chunks[used], found[used]);
        BytesGrow(old(forwarded), chunks, used);
        assert found[used..][1..] == found[used + 1..];
        used := used + 1;
        if fatal {
          return;
        }
      }
      return false, used;
    }

    /** `chunks` are the reads that will succeed, in order; after them read returns no data. */
    method CheckSshStderr(chunks: seq<Chunk>) returns (fatal: bool, used: nat)
      requires forall i :: 0 <= i < |chunks| ==> Readable(chunks[i])
      modifies this
      ensures fd == old(fd)
      ensures used == if fd < 0 then 0 else Consumed(chunks)
      ensures fatal <==> fd >= 0 && Fatal(chunks)
      ensures portFwdFailed <==> old(portFwdFailed) || (used > 0 && Findings(chunks)[used - 1] == PortFailed)
      ensures lastStderrTime == if used == 0 then old(lastStderrTime) else chunks[used - 1].time
      ensures forwarded == old(forwarded) + Bytes(chunks[..used])
    {
      if fd < 0 {
        return false, 0;
      }
      fatal, used := DrainAll(chunks, Findings(chunks));
    }
  }

  /** After the NUL is written behind a read, strstr sees that read and no stale byte of the buffer. */
  lemma TerminatedRead(buffer: seq<char>, read: seq<char>)
    requires |read| < |buffer| && read <= buffer && buffer[|read|] == NUL
    ensures CString(buffer) == CString(read)
  {
    CStringUnique(buffer, CString(read));
  }

  lemma {:induction false} LookedAtMeans(found: seq<Finding>)
    ensures var n := LookedAt(found);
      && (forall i :: 0 <= i < n - 1 ==> found[i] == Nothing)
      && (n < |found| ==> n > 0 && found[n - 1] != Nothing)
  {
    if found != [] && found[0] == Nothing {
      LookedAtMeans(found[1..]);
    }
  }

  lemma ContainsInPrefix(text: seq<char>, prefix: seq<char>, needle: seq<char>)
    requires prefix <= text && Contains(prefix, needle)
    ensures Contains(text, needle)
  {
    var i :| 0 <= i <= |prefix| && OccursAt(prefix, needle, i);
    assert OccursAt(text, needle, i);
  }

  /** A fatal finding means that one of the two patterns really was among the bytes of that read. */
  lemma FindingIsReal(chunk: seq<char>)
    ensures Classify(chunk) == PortFailed ==> Contains(chunk, PORT_FAILURE)
    ensures Classify(chunk) == Stuck ==> Contains(chunk, STUCK_REPORT)
  {
    if Classify(chunk) == PortFailed {
      ContainsInPrefix(chunk, CString(chunk), PORT_FAILURE);
    } else if Classify(chunk) == Stuck {
      ContainsInPrefix(chunk, CString(chunk), STUCK_REPORT);
    }
  }

  /** Within one NUL-free chunk detection is exact: fatal if and only if a pattern is there. */
  lemma NulFreeChunkIsExact(chunk: seq<char>)
    requires NUL !in chunk
    ensures Classify(chunk) != Nothing <==> Contains(chunk, PORT_FAILURE) || Contains(chunk, STUCK_REPORT)
  {
    CStringUnique(chunk, chunk);
  }

  // ----- a whole call, and the bytes it saw -----

  predicate NulFree(chunks: seq<Chunk>) {
    forall i :: 0 <= i < |chunks| ==> NUL !in chunks[i].bytes
  }

  /** Some single read holds `needle` whole. */
  predicate Within(chunks: seq<Chunk>, needle: seq<char>) {
    exists i :: 0 <= i < |chunks| && Contains(chunks[i].bytes, needle)
  }

  /** A drain is fatal if and only if one single read holds one of the patterns. */
  lemma FatalIff(chunks: seq<Chunk>)
    requires NulFree(chunks)
    ensures Fatal(chunks) <==> Within(chunks, PORT_FAILURE) || Within(chunks, STUCK_REPORT)
  {
    LookedAtMeans(Findings(chunks));
    forall i | 0 <= i < |chunks|
      ensures Classify(chunks[i].bytes) != Nothing <==>
        Contains(chunks[i].bytes, PORT_FAILURE) || Contains(chunks[i].bytes, STUCK_REPORT)
    {
      NulFreeChunkIsExact(chunks[i].bytes);
    }
  }

  lemma ContainsInSuffix(before: seq<char>, suffix: seq<char>, needle: seq<char>)
    requires Contains(suffix, needle)
    ensures Contains(before + suffix, needle)
  {
    var i :| 0 <= i <= |suffix| && OccursAt(suffix, needle, i);
    assert (before + suffix)[|before| + i..|before| + i + |needle|] == suffix[i..i + |needle|];
    assert OccursAt(before + suffix, needle, |before| + i);
  }

  lemma IsInNeedle(text: seq<char>, needle: seq<char>, i: int, at: int)
    requires OccursAt(text, needle, i) && i <= at < i + |needle|
    ensures text[at] in needle
  {
    assert text[at] == text[i..i + |needle|][at - i];
  }

  /** A needle without a line end does not reach across one. */
  lemma NotAcross(text: seq<char>, needle: seq<char>, i: int, at: int)
    requires OccursAt(text, needle, i) && '\n' !in needle && 0 <= at < |text| && text[at] == '\n'
    ensures at < i || i + |needle| <= at
  {
    if i <= at < i + |needle| {
      IsInNeedle(text, needle, i, at);
    }
  }

  lemma OccursOnASide(a: seq<char>, b: seq<char>, needle: seq<char>, i: int)
    requires OccursAt(a + b, needle, i) && (i + |needle| <= |a| || |a| <= i)
    ensures Contains(a, needle) || Contains(b, needle)
  {
    if i + |needle| <= |a| {
      assert a[i..i + |needle|] == (a + b)[i..i + |needle|];
      assert OccursAt(a, needle, i);
    } else {
      assert b[i - |a|..i - |a| + |needle|] == (a + b)[i..i + |needle|];
      assert OccursAt(b, needle, i - |a|);
    }
  }

  /** Text that ends a line, joined to more: a needle within one line lies on one side of the joint. */
  lemma OnOneSide(a: seq<char>, b: seq<char>, needle: seq<char>)
    requires a != [] ==> a[|a| - 1] == '\n'
    requires '\n' !in needle
    ensures Contains(a + b, needle) <==> Contains(a, needle) || Contains(b, needle)
  {
    if Contains(a, needle) {
      ContainsInPrefix(a + b, a, needle);
    }
    if Contains(b, needle) {
      ContainsInSuffix(a, b, needle);
    }
    if Contains(a + b, needle) {
      var i :| 0 <= i <= |a + b| && OccursAt(a + b, needle, i);
      if a != [] {
        NotAcross(a + b, needle, i, |a| - 1);
      }
      OccursOnASide(a, b, needle, i);
    }
  }

  /** Every read ends where a line ends. */
  predicate LineAligned(chunks: seq<Chunk>) {
    forall i :: 0 <= i < |chunks| ==> chunks[i].bytes != [] && chunks[i].bytes[|chunks[i].bytes| - 1] == '\n'
  }

  lemma {:induction false} LineAlignedWithin(chunks: seq<Chunk>, needle: seq<char>)
    requires LineAligned(chunks) && '\n' !in needle && needle != []
    ensures Contains(Bytes(chunks), needle) <==> Within(chunks, needle)
    ensures chunks != [] ==> Bytes(chunks) != [] && Bytes(chunks)[|Bytes(chunks)| - 1] == '\n'
  {
    if chunks != [] {
      var n := |chunks| - 1;
      LineAlignedWithin(chunks[..n], needle);
      OnOneSide(Bytes(chunks[..n]), chunks[n].bytes, needle);
      assert Within(chunks, needle) <==> Within(chunks[..n], needle) || Contains(chunks[n].bytes, needle);
    }
  }

  lemma PatternsAreWithinLines()
    ensures '\n' !in PORT_FAILURE && '\n' !in STUCK_REPORT
  {
  }

  /** If the reads end where lines end, the answer is right about everything that was read. */
  lemma LineAlignedDrainIsExact(chunks: seq<Chunk>)
    requires NulFree(chunks) && LineAligned(chunks)
    ensures Fatal(chunks) <==> Contains(Bytes(chunks), PORT_FAILURE) || Contains(Bytes(chunks), STUCK_REPORT)
  {
    FatalIff(chunks);
    PatternsAreWithinLines();
    LineAlignedWithin(chunks, PORT_FAILURE);
    LineAlignedWithin(chunks, STUCK_REPORT);
  }

  lemma SurroundedOccurs(before: seq<char>, needle: seq<char>, after: seq<char>)
    ensures Contains(before + needle + after, needle)
  {
    var text := before + needle + after;
    assert OccursAt(text, needle, |before|);
  }

  /** Text cut in two holds what neither half holds. */
  lemma CutNeedle(needle: seq<char>, cut: nat)
    requires 0 < cut < |needle|
    ensures Contains(needle[..cut] + needle[cut..], needle)
    ensures !Contains(needle[..cut], needle) && !Contains(needle[cut..], needle)
  {
    assert needle[..cut] + needle[cut..] == needle;
    assert OccursAt(needle, needle, 0);
  }

  lemma PortFailureHasNoOther()
    ensures 's' !in PORT_FAILURE && NUL !in PORT_FAILURE && STUCK_REPORT[0] == 's'
  {
  }

  lemma FirstIsThere(hay: seq<char>, needle: seq<char>)
    requires needle != [] && Contains(hay, needle)
    ensures needle[0] in hay
  {
    var i :| 0 <= i <= |hay| && OccursAt(hay, needle, i);
    assert hay[i] == hay[i..i + |needle|][0];
  }

  lemma NoFirstNoNeedle(hay: seq<char>, needle: seq<char>)
    requires needle != [] && needle[0] !in hay
    ensures !Contains(hay, needle)
  {
    if Contains(hay, needle) {
      FirstIsThere(hay, needle);
    }
  }

  lemma TwoMisses(a: Chunk, b: Chunk)
    requires NUL !in a.bytes && NUL !in b.bytes
    requires !Contains(a.bytes, PORT_FAILURE) && !Contains(a.bytes, STUCK_REPORT)
    requires !Contains(b.bytes, PORT_FAILURE) && !Contains(b.bytes, STUCK_REPORT)
    ensures !Fatal([a, b])
  {
    FatalIff([a, b]);
  }

  lemma HalfIsNoReport(half: seq<char>)
    requires forall x :: x in half ==> x in PORT_FAILURE
    ensures NUL !in half && !Contains(half, STUCK_REPORT)
  {
    PortFailureHasNoOther();
    NoFirstNoNeedle(half, STUCK_REPORT);
  }

  /**
   * The bytes read may hold the port-forwarding failure and the drain still misses it: that happens
   * wherever the line is cut between two reads.
   */
  lemma SplitPortFailureIsMissed(cut: nat, first: int, second: int)
    requires 0 < cut < |PORT_FAILURE|
    ensures var chunks := [Chunk(PORT_FAILURE[..cut], first), Chunk(PORT_FAILURE[cut..], second)];
      Contains(Bytes(chunks), PORT_FAILURE) && !Fatal(chunks)
  {
    var a, b := PORT_FAILURE[..cut], PORT_FAILURE[cut..];
    CutNeedle(PORT_FAILURE, cut);
    BytesOfTwo([Chunk(a, first), Chunk(b, second)]);
    HalfIsNoReport(a);
    HalfIsNoReport(b);
    TwoMisses(Chunk(a, first), Chunk(b, second));
  }

  lemma BytesOfTwo(chunks: seq<Chunk>)
    requires |chunks| == 2
    ensures Bytes(chunks) == chunks[0].bytes + chunks[1].bytes
  {
    assert chunks[..1][..0] == [];
    assert Bytes(chunks[..1]) == Bytes([]) + chunks[0].bytes;
  }
}
