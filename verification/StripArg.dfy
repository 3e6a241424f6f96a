/** strip_arg: taking one flag out of a group of short options, in place. */
module StripArg {
  import opened Drain

  /** autossh's option string, in the pieces that are looked at below. */
  const OPTION_STRING: string := "M:" + ("V1246ab:c:e:" + AFTER_E)
  const AFTER_E: string := "fg" + ("i:" + AFTER_I)
  const AFTER_I: string := "kl:m:no:p:qstvw:xyACD:E:" + "F:GI:MJKL:NO:PQ:R:S:TW:XYB:"

  /** strchr, as the index of the first occurrence. */
  function FirstIndex(s: seq<char>, x: char): (i: int)
    ensures -1 <= i < |s|
    ensures i == -1 ==> x !in s
    ensures i >= 0 ==> s[i] == x && x !in s[..i]
  {
    if s == [] then -1
    else if s[0] == x then 0
    else var i := FirstIndex(s[1..], x); if i == -1 then -1 else i + 1
  }

  /** The option string marks `x` with a colon: the rest of the argument is its value. */
  predicate TakesValue(opts: seq<char>, x: char) {
    var i := FirstIndex(opts, x);
    0 <= i < |opts| - 1 && opts[i + 1] == ':'
  }

  /** What the scan leaves of the bytes from the cursor on: the byte shifted in is never examined. */
  function Scan(rest: seq<char>, ch: char, opts: seq<char>): (r: seq<char>)
    ensures |r| <= |rest|
  {
    if rest == [] || TakesValue(opts, rest[0]) then rest
    else if rest[0] != ch then [rest[0]] + Scan(rest[1..], ch, opts)
    else if |rest| == 1 then []
    else [rest[1]] + Scan(rest[2..], ch, opts)
  }

  /** Whether the scan ends at a flag that takes a value. */
  predicate Stops(rest: seq<char>, ch: char, opts: seq<char>) {
    if rest == [] then false
    else if TakesValue(opts, rest[0]) then true
    else if rest[0] != ch then Stops(rest[1..], ch, opts)
    else |rest| > 1 && Stops(rest[2..], ch, opts)
  }

  predicate IsOptionGroup(s: seq<char>) {
    |s| > 1 && s[0] == '-'
  }

  /** The whole function on strings; a bare dash that is left over is dropped as well. */
  function Strip(s: seq<char>, ch: char, opts: seq<char>): seq<char> {
    if !IsOptionGroup(s) then s
    else if |Scan(s, ch, opts)| <= 1 && !Stops(s, ch, opts) then []
    else Scan(s, ch, opts)
  }

  // ----- in place -----

  /** The buffer holds `s` and nothing but NULs behind it, up to the end of the argument it came with. */
  predicate Holds(bytes: seq<char>, s: seq<char>) {
    && |s| < |bytes| && NUL !in s
    && bytes[..|s|] == s
    && forall i :: |s| <= i < |bytes| ==> bytes[i] == NUL
  }

  lemma HeldString(bytes: seq<char>, tail: seq<char>, s: seq<char>)
    requires Holds(bytes, s)
    ensures CString(bytes + tail) == s
  {
    CStringUnique(bytes + tail, s);
  }

  /** memmove(f, f + 1, len): `len` bytes behind the cursor move one place left. */
  method Slide(arg: array<char>, f: nat, len: nat)
    requires f + len < arg.Length
    modifies arg
    ensures arg[..f + len + 1] == old(arg[..f]) + old(arg[f + 1..f + len + 1]) + [old(arg[f + len])]
    ensures arg[f + len + 1..] == old(arg[f + len + 1..])
  {
    var i := f;
    while i < f + len
      invariant f <= i <= f + len
      invariant arg[..f] == old(arg[..f])
      invariant forall k :: f <= k < i ==> arg[k] == old(arg[k + 1])
      invariant forall k :: i <= k < arg.Length ==> arg[k] == old(arg[k])
    {
      arg[i] := arg[i + 1];
      i := i + 1;
    }
  }

  /** After a slide at the cursor the string has lost exactly that byte. */
  lemma SlideDeletes(before: seq<char>, after: seq<char>, s: seq<char>, f: nat)
    requires Holds(before, s) && f < |s|
    requires after == before[..f] + before[f + 1..] + [NUL]
    ensures Holds(after, s[..f] + s[f + 1..])
  {
    var t := s[..f] + s[f + 1..];
    assert |after| == |before|;
    assert forall i :: 0 <= i < f ==> after[i] == before[i];
    assert forall i :: f <= i < |after| - 1 ==> after[i] == before[i + 1];
    assert after[..|t|] == t;
  }

  /** With the buffer holding `s` and the cursor at `f`, finishing the scan gives what it should on `text`. */
  predicate OnCourse(s: seq<char>, f: nat, text: seq<char>, ch: char, opts: seq<char>) {
    if f <= |s| then
      && s[..f] + Scan(s[f..], ch, opts) == Scan(text, ch, opts)
      && Stops(s[f..], ch, opts) == Stops(text, ch, opts)
    else
      f == |s| + 1 && s == Scan(text, ch, opts) && !Stops(text, ch, opts)
  }

  lemma StaysOnCourse(s: seq<char>, f: nat, text: seq<char>, ch: char, opts: seq<char>)
    requires OnCourse(s, f, text, ch, opts) && f < |s| && !TakesValue(opts, s[f])
    ensures OnCourse(if s[f] == ch then s[..f] + s[f + 1..] else s, f + 1, text, ch, opts)
  {
    assert s[f..][1..] == s[f + 1..];
    if s[f] != ch {
      assert s[..f + 1] == s[..f] + [s[f]];
    } else if f + 1 < |s| {
      var t := s[..f] + s[f + 1..];
      assert s[f..][2..] == t[f + 1..];
      assert t[..f + 1] == s[..f] + [s[f + 1]];
    }
  }

  /** The deletion of the byte at the cursor. */
  method DeleteAt(arg: array<char>, f: nat, len: nat, ghost s: seq<char>)
    requires f + len < arg.Length && f < |s| && Holds(arg[..f + len + 1], s)
    modifies arg
    ensures Holds(arg[..f + len + 1], s[..f] + s[f + 1..])
    ensures arg[f + len + 1..] == old(arg[f + len + 1..])
  {
    ghost var before := arg[..f + len + 1];
    assert arg[f + len] == before[f + len] == NUL;
    assert before[..f] == arg[..f] && before[f + 1..] == arg[f + 1..f + len + 1];
    Slide(arg, f, len);
    SlideDeletes(before, arg[..f + len + 1], s, f);
  }

  /** The scanning loop over an argument of `length` bytes; `stopped` is its early return. */
  method ScanInPlace(arg: array<char>, length: nat, ch: char, opts: seq<char>, ghost text: seq<char>)
    returns (stopped: bool)
    requires length < arg.Length && length == |text| && Holds(arg[..length + 1], text)
    modifies arg
    ensures Holds(arg[..length + 1], Scan(text, ch, opts))
    ensures arg[length + 1..] == old(arg[length + 1..])
    ensures stopped == Stops(text, ch, opts)
  {
    var f, len := 0, length;
    ghost var s := text;                    // what the buffer holds now
    assert s[0..] == s && s[..0] == [];
    while arg[f] != NUL
      invariant f <= length && len == length - f
      invariant Holds(arg[..length + 1], s)
      invariant arg[length + 1..] == old(arg[length + 1..])
      invariant OnCourse(s, f, text, ch, opts)
      decreases length - f
    {
      assert arg[f] == arg[..length + 1][f] == s[f];
      if TakesValue(opts, arg[f]) {
        assert s == s[..f] + s[f..];
        return true;
      }
      StaysOnCourse(s, f, text, ch, opts);
      if arg[f] == ch {
        DeleteAt(arg, f, len, s);
        s := s[..f] + s[f + 1..];
      }
      f := f + 1;
      if len > 0 {
        len := len - 1;
      }
    }
    assert arg[f] == arg[..length + 1][f];
    assert f >= |s|;
    assert f == |s| ==> s[..f] + [] == s;
    return false;
  }

  method StripInPlace(arg: array<char>, ch: char, opts: seq<char>)
    requires NUL in arg[..]
    modifies arg
    ensures NUL in arg[..]
    ensures CString(arg[..]) == Strip(old(CString(arg[..])), ch, opts)
    ensures forall i :: |old(CString(arg[..]))| < i < arg.Length ==> arg[i] == old(arg[i])
  {
    ghost var text := CString(arg[..]);
    if arg[0] != '-' || arg[1] == NUL {
      assert !IsOptionGroup(text);
      return;
    }
    var length := |CString(arg[..])|;
    ghost var tail := arg[length + 1..];
    var stopped := ScanInPlace(arg, length, ch, opts, text);
    ghost var s := Scan(text, ch, opts);
    assert arg[1] == arg[..length + 1][1];
    if !stopped && arg[1] == NUL {
      arg[0] := NUL;
      s := [];
    }
    assert s == Strip(text, ch, opts);
    assert Holds(arg[..length + 1], s);
    assert arg[..] == arg[..length + 1] + tail;
    HeldString(arg[..length + 1], tail, s);
  }

  // ----- what it is for -----

  /** The documented purpose: every `ch` goes, up to the first flag that takes a value. */
  function Purge(s: seq<char>, ch: char, opts: seq<char>): seq<char> {
    if s == [] || TakesValue(opts, s[0]) then s
    else if s[0] == ch then Purge(s[1..], ch, opts)
    else [s[0]] + Purge(s[1..], ch, opts)
  }

  /** Where the flags end and a value begins. */
  function FlagsEnd(s: seq<char>, opts: seq<char>): (p: nat)
    ensures p <= |s|
    ensures forall i :: 0 <= i < p ==> !TakesValue(opts, s[i])
    ensures p < |s| ==> TakesValue(opts, s[p])
  {
    if s == [] || TakesValue(opts, s[0]) then 0 else 1 + FlagsEnd(s[1..], opts)
  }

  /** `ch` is not among the flags. */
  predicate Clear(s: seq<char>, ch: char, opts: seq<char>) {
    forall i :: 0 <= i < FlagsEnd(s, opts) ==> s[i] != ch
  }

  /**
   * No `ch` follows another among the flags; and if a `ch` stands right before the flag that takes a
   * value, then the value, read as flags, has no `ch` in it either.
   */
  predicate WellSpaced(s: seq<char>, ch: char, opts: seq<char>) {
    var p := FlagsEnd(s, opts);
    && (forall i :: 0 <= i < p - 1 ==> !(s[i] == ch && s[i + 1] == ch))
    && (0 < p < |s| && s[p - 1] == ch ==> Clear(s[p + 1..], ch, opts))
  }

  lemma {:induction false} ScanKeepsAllIff(s: seq<char>, ch: char, opts: seq<char>)
    ensures Scan(s, ch, opts) == s <==> Clear(s, ch, opts)
  {
    if s == [] || TakesValue(opts, s[0]) {
    } else if s[0] == ch {
      assert 0 < FlagsEnd(s, opts);
    } else {
      ScanKeepsAllIff(s[1..], ch, opts);
      assert s == [s[0]] + s[1..];
      assert Clear(s, ch, opts) ==> Clear(s[1..], ch, opts) by {
        if Clear(s, ch, opts) {
          forall i | 0 <= i < FlagsEnd(s[1..], opts) ensures s[1..][i] != ch { assert s[i + 1] != ch; }
        }
      }
    }
  }

  /** Purging never leaves `ch` in front. */
  lemma {:induction false} PurgeFront(s: seq<char>, ch: char, opts: seq<char>)
    requires !TakesValue(opts, ch)
    ensures Purge(s, ch, opts) != [] ==> Purge(s, ch, opts)[0] != ch
  {
    if s != [] && !TakesValue(opts, s[0]) && s[0] == ch {
      PurgeFront(s[1..], ch, opts);
    }
  }

  /** The scan does its job if and only if the argument is well spaced. */
  lemma {:induction false} ScanPurgesIff(s: seq<char>, ch: char, opts: seq<char>)
    ensures Scan(s, ch, opts) == Purge(s, ch, opts) <==> WellSpaced(s, ch, opts)
    decreases |s|
  {
    if s == [] || TakesValue(opts, s[0]) {
    } else if s[0] != ch {
      ScanPurgesIff(s[1..], ch, opts);
      WellSpacedTail(s, ch, opts);
      assert Scan(s, ch, opts)[1..] == Scan(s[1..], ch, opts);
      assert Purge(s, ch, opts)[1..] == Purge(s[1..], ch, opts);
    } else if |s| > 1 {
      PairPurgesIff(s, ch, opts);
    }
  }

  lemma WellSpacedTail(s: seq<char>, ch: char, opts: seq<char>)
    requires s != [] && !TakesValue(opts, s[0])
    requires s[0] == ch ==> |s| > 1 && s[1] != ch && !TakesValue(opts, s[1])
    ensures WellSpaced(s, ch, opts) <==> WellSpaced(s[1..], ch, opts)
  {
    var p := FlagsEnd(s, opts);
    var t := s[1..];
    assert FlagsEnd(t, opts) == p - 1;
    if p < |s| {
      assert t[p..] == s[p + 1..];
    }
    if WellSpaced(t, ch, opts) {
      forall i | 0 <= i < p - 1 ensures !(s[i] == ch && s[i + 1] == ch) {
        if i > 0 { assert t[i - 1] == s[i] && t[i] == s[i + 1]; }
      }
    }
    if WellSpaced(s, ch, opts) {
      forall i | 0 <= i < p - 2 ensures !(t[i] == ch && t[i + 1] == ch) {
        assert s[i + 1] == t[i] && s[i + 2] == t[i + 1];
      }
    }
  }

  /** A deleted flag with something behind it, unfolded. */
  lemma PairUnfolds(s: seq<char>, ch: char, opts: seq<char>)
    requires |s| > 1 && s[0] == ch && !TakesValue(opts, ch)
    ensures Scan(s, ch, opts) == [s[1]] + Scan(s[2..], ch, opts)
    ensures Purge(s, ch, opts) == Purge(s[1..], ch, opts)
    ensures FlagsEnd(s, opts) == 1 + FlagsEnd(s[1..], opts)
  {
  }

  lemma EqualPair(s: seq<char>, ch: char, opts: seq<char>)
    requires |s| > 1 && s[0] == ch == s[1] && !TakesValue(opts, ch)
    ensures Scan(s, ch, opts) != Purge(s, ch, opts) && !WellSpaced(s, ch, opts)
  {
    PairUnfolds(s, ch, opts);
    PurgeFront(s, ch, opts);
    assert Scan(s, ch, opts)[0] == ch;
    assert FlagsEnd(s[1..], opts) >= 1;
    assert s[0] == ch && s[0 + 1] == ch;
  }

  /** The value behind the flag is scanned as well. */
  lemma PairBeforeValue(s: seq<char>, ch: char, opts: seq<char>)
    requires |s| > 1 && s[0] == ch != s[1] && !TakesValue(opts, ch) && TakesValue(opts, s[1])
    ensures Scan(s, ch, opts) == Purge(s, ch, opts) <==> WellSpaced(s, ch, opts)
  {
    var rest := s[2..];
    PairUnfolds(s, ch, opts);
    ScanKeepsAllIff(rest, ch, opts);
    assert s[1..] == [s[1]] + rest;
    assert ([s[1]] + Scan(rest, ch, opts))[1..] == Scan(rest, ch, opts);
    assert FlagsEnd(s, opts) == 1;
  }

  /** The case of a deleted flag with something behind it. */
  lemma PairPurgesIff(s: seq<char>, ch: char, opts: seq<char>)
    requires |s| > 1 && s[0] == ch && !TakesValue(opts, ch)
    ensures Scan(s, ch, opts) == Purge(s, ch, opts) <==> WellSpaced(s, ch, opts)
    decreases |s|, 0
  {
    if s[1] == ch {
      EqualPair(s, ch, opts);
    } else if TakesValue(opts, s[1]) {
      PairBeforeValue(s, ch, opts);
    } else {
      ScanPurgesIff(s[2..], ch, opts);
      PlainPair(s, ch, opts);
    }
  }

  lemma PlainPair(s: seq<char>, ch: char, opts: seq<char>)
    requires |s| > 1 && s[0] == ch != s[1] && !TakesValue(opts, ch) && !TakesValue(opts, s[1])
    requires Scan(s[2..], ch, opts) == Purge(s[2..], ch, opts) <==> WellSpaced(s[2..], ch, opts)
    ensures Scan(s, ch, opts) == Purge(s, ch, opts) <==> WellSpaced(s, ch, opts)
  {
    PairUnfolds(s, ch, opts);
    assert s[1..][1..] == s[2..];
    assert ([s[1]] + Scan(s[2..], ch, opts))[1..] == Scan(s[2..], ch, opts);
    assert ([s[1]] + Purge(s[2..], ch, opts))[1..] == Purge(s[2..], ch, opts);
    WellSpacedTail(s[1..], ch, opts);
    WellSpacedTail(s, ch, opts);
  }

  /** A group reduced to its dash says nothing and is dropped. */
  function DropBareDash(s: seq<char>): seq<char> {
    if s == "-" then [] else s
  }

  /** For any flag but the dash itself: strip_arg purges an option group if and only if it is well spaced. */
  lemma StripPurgesIff(s: seq<char>, ch: char, opts: seq<char>)
    requires IsOptionGroup(s) && ch != '-'
    ensures Strip(s, ch, opts) == DropBareDash(Purge(s, ch, opts)) <==> WellSpaced(s, ch, opts)
  {
    ScanPurgesIff(s, ch, opts);
    StopsLate(s, ch, opts);
    if !TakesValue(opts, '-') {
      var scan, purge := Scan(s, ch, opts), Purge(s, ch, opts);
      assert scan[0] == '-' && purge[0] == '-';
    }
  }

  /** A scan that stops at a value leaves the flag it stopped at. */
  lemma {:induction false} StopsLate(s: seq<char>, ch: char, opts: seq<char>)
    ensures Stops(s, ch, opts) ==> |Scan(s, ch, opts)| >= 1
    ensures s != [] && s[0] != ch && !TakesValue(opts, s[0]) && Stops(s, ch, opts) ==> |Scan(s, ch, opts)| >= 2
    decreases |s|
  {
    if s != [] && !TakesValue(opts, s[0]) {
      if s[0] != ch {
        StopsLate(s[1..], ch, opts);
      } else if |s| > 1 {
        StopsLate(s[2..], ch, opts);
      }
    }
  }

  /** The bytes other than `ch`, in order. */
  function Others(s: seq<char>, ch: char): seq<char> {
    if s == [] then [] else (if s[0] == ch then [] else [s[0]]) + Others(s[1..], ch)
  }

  /** Well spaced or not, nothing but `ch` is ever taken out and nothing changes places. */
  lemma {:induction false} ScanTakesOnlyTheFlag(s: seq<char>, ch: char, opts: seq<char>)
    ensures Others(Scan(s, ch, opts), ch) == Others(s, ch)
    decreases |s|
  {
    if s != [] && !TakesValue(opts, s[0]) {
      if s[0] != ch {
        ScanTakesOnlyTheFlag(s[1..], ch, opts);
      } else if |s| > 1 {
        ScanTakesOnlyTheFlag(s[2..], ch, opts);
        assert s[1..][1..] == s[2..];
        assert ([s[1]] + Scan(s[2..], ch, opts))[1..] == Scan(s[2..], ch, opts);
      }
    }
  }

  /** What is purged is clear. */
  lemma {:induction false} PurgeClears(s: seq<char>, ch: char, opts: seq<char>)
    requires !TakesValue(opts, ch)
    ensures Clear(Purge(s, ch, opts), ch, opts)
  {
    if s != [] && !TakesValue(opts, s[0]) {
      PurgeClears(s[1..], ch, opts);
      if s[0] != ch {
        var rest := Purge(s[1..], ch, opts);
        assert ([s[0]] + rest)[1..] == rest;
        forall i | 0 <= i < FlagsEnd([s[0]] + rest, opts) ensures ([s[0]] + rest)[i] != ch {
          assert i > 0 ==> ([s[0]] + rest)[i] == rest[i - 1];
        }
      }
    }
  }

  // ----- on autossh's own option string -----

  lemma {:induction false} FirstIndexBehind(a: seq<char>, b: seq<char>, x: char)
    requires x !in a
    ensures FirstIndex(a + b, x) == if FirstIndex(b, x) == -1 then -1 else |a| + FirstIndex(b, x)
  {
    if a == [] {
      assert a + b == b;
    } else {
      assert (a + b)[1..] == a[1..] + b;
      FirstIndexBehind(a[1..], b, x);
    }
  }

  lemma TakesValueBehind(a: seq<char>, b: seq<char>, x: char)
    requires x !in a
    ensures TakesValue(a + b, x) <==> TakesValue(b, x)
  {
    FirstIndexBehind(a, b, x);
    var i := FirstIndex(b, x);
    assert 0 <= i < |b| - 1 ==> (a + b)[|a| + i + 1] == b[i + 1];
  }

  lemma TakesValueInFront(x: char, y: char, rest: seq<char>)
    ensures TakesValue([x, y] + rest, x) <==> y == ':'
  {
    var opts := [x, y] + rest;
    assert opts[0] == x && opts[1] == y;
    assert FirstIndex(opts, x) == 0;
  }

  /** -f stands alone, -i takes a value, and the dash is no flag. */
  lemma OwnFlags()
    ensures !TakesValue(OPTION_STRING, 'f') && TakesValue(OPTION_STRING, 'i') && !TakesValue(OPTION_STRING, '-')
  {
    TakesValueBehind("M:", "V1246ab:c:e:" + AFTER_E, 'f');
    TakesValueBehind("V1246ab:c:e:", AFTER_E, 'f');
    TakesValueInFront('f', 'g', "i:" + AFTER_I);
    TakesValueBehind("M:", "V1246ab:c:e:" + AFTER_E, 'i');
    TakesValueBehind("V1246ab:c:e:", AFTER_E, 'i');
    TakesValueBehind("fg", "i:" + AFTER_I, 'i');
    TakesValueInFront('i', ':', AFTER_I);
    NoDash();
  }

  lemma NoDash()
    ensures !TakesValue(OPTION_STRING, '-')
  {
    assert '-' !in AFTER_I;
    assert '-' !in "i:" + AFTER_I;
    assert '-' !in AFTER_E;
  }

  lemma FailuresOn(opts: seq<char>)
    requires !TakesValue(opts, 'f') && TakesValue(opts, 'i') && !TakesValue(opts, '-')
    ensures Strip("-ff", 'f', opts) == "-f"
    ensures Strip("-fif", 'f', opts) == "-i"
  {
    var a := "-ff";
    assert a[1..] == "ff" && "ff"[2..] == "";
    assert Scan("", 'f', opts) == "";
    assert Scan("ff", 'f', opts) == "f";
    var b := "-fif";
    assert b[1..] == "fif" && "fif"[2..] == "f";
    assert Scan("f", 'f', opts) == "";
    assert Scan("fif", 'f', opts) == "i";
  }

  /** `-ff` keeps an f, and in `-fi` the value glued on behind loses one. */
  lemma StripFailures()
    ensures Strip("-ff", 'f', OPTION_STRING) == "-f"
    ensures Strip("-fif", 'f', OPTION_STRING) == "-i"
  {
    OwnFlags();
    FailuresOn(OPTION_STRING);
  }
}
