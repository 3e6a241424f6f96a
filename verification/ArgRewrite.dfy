/** The scan of autossh's own command line that produces ssh's. */
module ArgRewrite {
  import opened ArgList
  import opened StripArg

  /** The monitor port, the forwarding strings built from it, and the option string in force. */
  datatype Plan = Plan(
    port: int, fromEnv: bool, echo: bool, writeForward: string, readForward: string, opts: string)

  predicate ValidPlan(p: Plan) {
    p.port != 0 ==> p.writeForward != "" && p.readForward != ""
  }

  /** autossh's option string says that -M takes a value. */
  lemma MonitorTakesValue()
    ensures TakesValue(OPTION_STRING, 'M')
  {
    TakesValueInFront('M', ':', "V1246ab:c:e:" + AFTER_E);
  }

  function Block(p: Plan): seq<string> {
    ["-L", p.writeForward] + (if p.echo then [] else ["-R", p.readForward])
  }

  predicate IsDashes(s: string) {
    |s| >= 2 && s[0] == '-' && s[1] == '-'
  }

  predicate IsMonitor(s: string) {
    |s| >= 2 && s[0] == '-' && s[1] == 'M'
  }

  /** How far a -M token reaches: its value may be the next argument. */
  function Reach(s: string): nat {
    if |s| == 2 then 2 else 1
  }

  function Skip(av: seq<string>, n: nat): (rest: seq<string>)
    ensures n > 0 && av != [] ==> |rest| < |av|
  {
    if n <= |av| then av[n..] else []
  }

  function Clean(p: Plan, s: string): seq<string> {
    NonEmpty(Strip(s, 'f', p.opts))
  }

  /** What the loop adds for the arguments from here on. */
  function Emit(p: Plan, av: seq<string>, stopped: bool, done: bool): seq<string>
    decreases |av|
  {
    if av == [] then []
    else if IsDashes(av[0]) && !stopped then Emit(p, av[1..], true, done)
    else if p.port != 0 && p.fromEnv && !done then Block(p) + Clean(p, av[0]) + Emit(p, av[1..], stopped, true)
    else if !stopped && IsMonitor(av[0]) then
      (if p.port != 0 && !done then Block(p) else [])
      + Emit(p, Skip(av, Reach(av[0])), stopped, done || p.port != 0)
    else Clean(p, av[0]) + Emit(p, av[1..], stopped, done)
  }

  method AddForwards(list: ArgList, p: Plan)
    requires list.Valid() && ValidPlan(p) && p.port != 0
    modifies list, list.newav
    ensures list.Valid() && (list.newav == old(list.newav) || fresh(list.newav))
    ensures list.Contents() == old(list.Contents()) + Block(p)
  {
    ghost var before := list.Contents();
    list.AddArg("-L");
    list.AddArg(p.writeForward);
    assert list.Contents() == before + ["-L", p.writeForward];
    if !p.echo {
      list.AddArg("-R");
      list.AddArg(p.readForward);
    }
    assert list.Contents() == before + Block(p);
  }

  lemma SkipStep(argv: seq<string>, i: nat, n: nat)
    requires i < |argv|
    ensures Skip(argv, i)[0] == argv[i]
    ensures Skip(argv, i)[1..] == Skip(argv, i + 1)
    ensures Skip(Skip(argv, i), n) == Skip(argv, i + n)
  {
  }

  /** The unfolding of Emit for an argument that is passed on. */
  lemma EmitWord(p: Plan, av: seq<string>, stopped: bool, done: bool, before: seq<string>, forwards: seq<string>)
    requires av != [] && !(IsDashes(av[0]) && !stopped)
    requires
      var fromEnv := p.port != 0 && p.fromEnv && !done;
      if fromEnv then forwards == Block(p) else forwards == [] && !(!stopped && IsMonitor(av[0]))
    ensures
      var done' := done || forwards != [];
      before + forwards + Clean(p, av[0]) + Emit(p, av[1..], stopped, done') == before + Emit(p, av, stopped, done)
  {
    var rest := Emit(p, av[1..], stopped, done || forwards != []);
    assert before + forwards + Clean(p, av[0]) + rest == before + (forwards + Clean(p, av[0]) + rest);
    assert [] + Clean(p, av[0]) == Clean(p, av[0]);
  }

  /** The same for a -M that is left out. */
  lemma EmitMonitor(p: Plan, av: seq<string>, done: bool, before: seq<string>, forwards: seq<string>)
    requires av != [] && IsMonitor(av[0]) && !(p.port != 0 && p.fromEnv && !done)
    requires forwards == if p.port != 0 && !done then Block(p) else []
    ensures before + forwards + Emit(p, Skip(av, Reach(av[0])), false, done || forwards != [])
         == before + Emit(p, av, false, done)
  {
    var rest := Emit(p, Skip(av, Reach(av[0])), false, done || forwards != []);
    assert before + forwards + rest == before + (forwards + rest);
    assert done || forwards != [] <==> done || p.port != 0;
  }

  /** The forwards, if they are due. */
  method MaybeForwards(list: ArgList, p: Plan, due: bool)
    requires list.Valid() && ValidPlan(p) && (due ==> p.port != 0)
    modifies list, list.newav
    ensures list.Valid() && (list.newav == old(list.newav) || fresh(list.newav))
    ensures list.Contents() == old(list.Contents()) + if due then Block(p) else []
  {
    if due {
      AddForwards(list, p);
    }
  }

  /** A -M that is left out, with its value. */
  method SkipMonitor(list: ArgList, p: Plan, argv: seq<string>, i: nat, done: bool) returns (next: nat, done': bool)
    requires list.Valid() && ValidPlan(p) && i < |argv|
    requires IsMonitor(argv[i]) && !(p.port != 0 && p.fromEnv && !done)
    modifies list, list.newav
    ensures list.Valid() && (list.newav == old(list.newav) || fresh(list.newav)) && next > i
    ensures list.Contents() + Emit(p, Skip(argv, next), false, done')
         == old(list.Contents()) + Emit(p, Skip(argv, i), false, done)
  {
    var due := p.port != 0 && !done;
    SkipStep(argv, i, Reach(argv[i]));
    EmitMonitor(p, Skip(argv, i), done, list.Contents(), if due then Block(p) else []);
    MaybeForwards(list, p, due);
    return i + Reach(argv[i]), done || due;
  }

  /** An argument that is passed on, without its f. */
  method PassWord(list: ArgList, p: Plan, argv: seq<string>, i: nat, stopped: bool, done: bool) returns (done': bool)
    requires list.Valid() && ValidPlan(p) && i < |argv| && !(IsDashes(argv[i]) && !stopped)
    requires (p.port != 0 && p.fromEnv && !done) || stopped || !IsMonitor(argv[i])
    modifies list, list.newav
    ensures list.Valid() && (list.newav == old(list.newav) || fresh(list.newav))
    ensures list.Contents() + Emit(p, Skip(argv, i + 1), stopped, done')
         == old(list.Contents()) + Emit(p, Skip(argv, i), stopped, done)
  {
    var due := p.port != 0 && p.fromEnv && !done;
    SkipStep(argv, i, 1);
    EmitWord(p, Skip(argv, i), stopped, done, list.Contents(), if due then Block(p) else []);
    MaybeForwards(list, p, due);
    list.AddArg(Strip(argv[i], 'f', p.opts));
    return done || due;
  }

  /** One argument: what it adds, and what it changes for those behind it. */
  method RewriteOne(list: ArgList, p: Plan, argv: seq<string>, i: nat, stopped: bool, done: bool)
    returns (next: nat, stopped': bool, done': bool)
    requires list.Valid() && ValidPlan(p) && i < |argv|
    modifies list, list.newav
    ensures list.Valid() && (list.newav == old(list.newav) || fresh(list.newav)) && next > i
    ensures list.Contents() + Emit(p, Skip(argv, next), stopped', done')
         == old(list.Contents()) + Emit(p, Skip(argv, i), stopped, done)
  {
    next, stopped', done' := i + 1, stopped, done;
    if IsDashes(argv[i]) && !stopped {
      SkipStep(argv, i, 1);
      stopped' := true;
    } else if !(p.port != 0 && p.fromEnv && !done) && !stopped && IsMonitor(argv[i]) {
      next, done' := SkipMonitor(list, p, argv, i, done);
    } else {
      done' := PassWord(list, p, argv, i, stopped, done);
    }
  }

  /** `argv` is what getopt left behind, without the program name. */
  method RewriteArgs(list: ArgList, p: Plan, sshPath: string, argv: seq<string>)
    requires list.Valid() && ValidPlan(p)
    modifies list, list.newav
    ensures list.Valid()
    ensures list.Contents() == old(list.Contents()) + NonEmpty(sshPath) + Emit(p, argv, false, false)
  {
    list.AddArg(sshPath);
    ghost var total := list.Contents() + Emit(p, argv, false, false);
    var i, stopped, done := 0, false, false;
    assert Skip(argv, 0) == argv;
    while i < |argv|
      invariant list.Valid() && (list.newav == old(list.newav) || fresh(list.newav))
      invariant total == list.Contents() + Emit(p, Skip(argv, i), stopped, done)
      decreases |argv| - i
    {
      i, stopped, done := RewriteOne(list, p, argv, i, stopped, done);
    }
    assert Skip(argv, i) == [];
  }

  // ----- what ssh gets to see -----

  /** The user's own arguments: no -M before the first "--", no first "--", f stripped, nothing empty. */
  function Kept(p: Plan, av: seq<string>, stopped: bool): seq<string>
    decreases |av|
  {
    if av == [] then []
    else if stopped then Clean(p, av[0]) + Kept(p, av[1..], true)
    else if IsDashes(av[0]) then Kept(p, av[1..], true)
    else if IsMonitor(av[0]) then Kept(p, Skip(av, Reach(av[0])), false)
    else Clean(p, av[0]) + Kept(p, av[1..], false)
  }

  predicate HasMonitor(av: seq<string>) {
    av != [] && !IsDashes(av[0]) && (IsMonitor(av[0]) || HasMonitor(av[1..]))
  }

  /** The user's arguments in front of the first -M. */
  function Leading(p: Plan, av: seq<string>): seq<string> {
    if av == [] || IsDashes(av[0]) || IsMonitor(av[0]) then [] else Clean(p, av[0]) + Leading(p, av[1..])
  }

  /** Once the forwards are in, or if there are none to add, only the user's arguments follow. */
  lemma {:induction false} EmitTheRest(p: Plan, av: seq<string>, stopped: bool, done: bool)
    requires done || p.port == 0
    ensures Emit(p, av, stopped, done) == Kept(p, av, stopped)
    decreases |av|
  {
    if av == [] {
    } else if IsDashes(av[0]) && !stopped {
      EmitTheRest(p, av[1..], true, done);
    } else if !stopped && IsMonitor(av[0]) {
      EmitTheRest(p, Skip(av, Reach(av[0])), stopped, done || p.port != 0);
    } else {
      EmitTheRest(p, av[1..], stopped, done);
    }
  }

  /** Without a -M in reach nothing is inserted either. */
  lemma {:induction false} EmitUnmonitored(p: Plan, av: seq<string>, stopped: bool)
    requires !p.fromEnv && (stopped || !HasMonitor(av))
    ensures Emit(p, av, stopped, false) == Kept(p, av, stopped)
    decreases |av|
  {
    if av == [] {
    } else if IsDashes(av[0]) && !stopped {
      EmitUnmonitored(p, av[1..], true);
    } else {
      EmitUnmonitored(p, av[1..], stopped);
    }
  }

  lemma {:induction false} LeadingIsKept(p: Plan, av: seq<string>)
    ensures Leading(p, av) <= Kept(p, av, false)
  {
    if av != [] && !IsDashes(av[0]) && !IsMonitor(av[0]) {
      LeadingIsKept(p, av[1..]);
    }
  }

  lemma Regroup(head: seq<string>, k: seq<string>, l: seq<string>, trailing: seq<string>, block: seq<string>)
    requires head + k == head + l + trailing
    ensures k == l + trailing
    ensures head + (l + block + trailing) == head + l + block + trailing
  {
    assert k == (head + k)[|head|..];
    assert l + trailing == (head + l + trailing)[|head|..];
  }

  lemma {:induction false} EmitMonitored(p: Plan, av: seq<string>, trailing: seq<string>)
    requires !p.fromEnv && p.port != 0 && HasMonitor(av)
    requires Kept(p, av, false) == Leading(p, av) + trailing
    ensures Emit(p, av, false, false) == Leading(p, av) + Block(p) + trailing
  {
    if IsMonitor(av[0]) {
      EmitTheRest(p, Skip(av, Reach(av[0])), false, true);
    } else {
      var head, k, l := Clean(p, av[0]), Kept(p, av[1..], false), Leading(p, av[1..]);
      Regroup(head, k, l, trailing, Block(p));
      EmitMonitored(p, av[1..], trailing);
    }
  }

  /**
   * With AUTOSSH_PORT unset ssh gets exactly the user's arguments, in order, and for a non-zero port the
   * forwards once, in the place of the first -M.
   */
  lemma ForwardsReplaceMonitor(p: Plan, av: seq<string>)
    requires !p.fromEnv
    ensures Leading(p, av) <= Kept(p, av, false)
    ensures Emit(p, av, false, false) ==
      if p.port == 0 || !HasMonitor(av) then Kept(p, av, false)
      else Leading(p, av) + Block(p) + Kept(p, av, false)[|Leading(p, av)|..]
  {
    LeadingIsKept(p, av);
    if p.port == 0 {
      EmitTheRest(p, av, false, false);
    } else if !HasMonitor(av) {
      EmitUnmonitored(p, av, false);
    } else {
      EmitMonitored(p, av, Kept(p, av, false)[|Leading(p, av)|..]);
    }
  }

  /** With AUTOSSH_PORT set the forwards come first, and the argument they come before is passed on whatever it is. */
  lemma ForwardsComeFirst(p: Plan, av: seq<string>)
    requires p.fromEnv && p.port != 0 && av != []
    ensures !IsDashes(av[0]) ==>
      Emit(p, av, false, false) == Block(p) + Clean(p, av[0]) + Kept(p, av[1..], false)
    ensures IsDashes(av[0]) && |av| > 1 ==>
      Emit(p, av, false, false) == Block(p) + Kept(p, av[1..], true)
    ensures IsDashes(av[0]) && |av| == 1 ==> Emit(p, av, false, false) == []
  {
    if !IsDashes(av[0]) {
      EmitTheRest(p, av[1..], false, true);
    } else if |av| > 1 {
      EmitTheRest(p, av[2..], true, true);
      assert av[1..][1..] == av[2..];
    }
  }

  /** A monitor option comes through the stripping of f as it is. */
  lemma MonitorSurvivesStrip(p: Plan, s: string)
    requires IsMonitor(s) && TakesValue(p.opts, 'M')
    ensures Clean(p, s) == [s]
  {
    assert s == [s[0]] + s[1..];
    assert Scan(s[1..], 'f', p.opts) == s[1..];
  }

  /** Behind the first "--" at least as much is kept. */
  lemma {:induction false} StoppedKeepsMore(p: Plan, av: seq<string>)
    ensures |Kept(p, av, false)| <= |Kept(p, av, true)|
    decreases |av|
  {
    if av != [] && !IsDashes(av[0]) {
      var n := if IsMonitor(av[0]) then Reach(av[0]) else 1;
      StoppedKeepsMore(p, Skip(av, n));
      if n == 2 && |av| > 1 {
        assert av[1..][1..] == av[2..];
      }
    }
  }

  lemma BareMonitor(s: string)
    ensures IsMonitor(s) && |s| == 2 <==> s == "-M"
  {
  }

  /** A -M that is passed on makes ssh's command line longer than it should be. */
  lemma PassedOn(p: Plan, av: seq<string>)
    requires p.fromEnv && p.port != 0 && av != [] && IsMonitor(av[0]) && TakesValue(p.opts, 'M')
    requires !(av[0] == "-M" && |av| > 1 && av[1] == "-M")
    ensures |Emit(p, av, false, false)| > |Block(p)| + |Kept(p, av, false)|
  {
    ForwardsComeFirst(p, av);
    MonitorSurvivesStrip(p, av[0]);
    if |av[0]| == 2 {
      assert av[0] == "-M";
      if |av| > 1 {
        assert av[1..][1..] == av[2..];
        StoppedKeepsMore(p, av[2..]);
        BareMonitor(av[1]);
      }
    }
  }

  lemma KeptUnfolds(p: Plan, av: seq<string>)
    requires av != [] && !IsMonitor(av[0])
    ensures Kept(p, av, false) ==
      if IsDashes(av[0]) then Kept(p, av[1..], true) else Clean(p, av[0]) + Kept(p, av[1..], false)
  {
  }

  lemma Associates(a: seq<string>, b: seq<string>, c: seq<string>)
    ensures a + b + c == a + (b + c)
  {
  }

  lemma OverrideHolds(p: Plan, av: seq<string>)
    requires p.fromEnv && p.port != 0 && av != [] && !IsMonitor(av[0]) && (IsDashes(av[0]) ==> |av| > 1)
    ensures Emit(p, av, false, false) == Block(p) + Kept(p, av, false)
  {
    ForwardsComeFirst(p, av);
    KeptUnfolds(p, av);
    Associates(Block(p), Clean(p, av[0]), Kept(p, av[1..], false));
  }

  /** With nothing, or only "--", to put them before, the forwards are never added. */
  lemma ForwardsAreLost(p: Plan, av: seq<string>)
    requires av == [] || (IsDashes(av[0]) && |av| == 1)
    ensures Emit(p, av, false, false) == []
  {
  }

  /**
   * With one -M as the value of another the wrong arguments can happen to be the right ones: a -M that
   * follows a "--" takes the place of the one that is passed on.
   */
  lemma WrongButRight(p: Plan)
    requires p.fromEnv && p.port != 0 && TakesValue(p.opts, 'M')
    ensures var av := ["-M", "-M", "--", "-M"];
      Emit(p, av, false, false) == Block(p) + Kept(p, av, false) == Block(p) + ["-M"]
  {
    var av := ["-M", "-M", "--", "-M"];
    ForwardsComeFirst(p, av);
    MonitorSurvivesStrip(p, "-M");
    assert av[1..][2..] == ["-M"] && av[2..] == ["--", "-M"] && av[2..][1..] == ["-M"] && ["-M"][1..] == [];
    assert Kept(p, ["-M"], false) == Kept(p, Skip(["-M"], 2), false) == [];
    assert Kept(p, ["-M"], true) == ["-M"] + Kept(p, [], true) == ["-M"];
    assert Kept(p, av[1..], false) == [];
    assert Block(p) + ["-M"] + [] == Block(p) + ["-M"];
  }

  /**
   * AUTOSSH_PORT is meant to override -M. It does, ssh seeing the forwards and the user's arguments and no
   * -M, if and only if there is an argument to put the forwards before and it is not itself a -M: that one
   * is passed on.
   */
  lemma OverrideHoldsIff(p: Plan, av: seq<string>)
    requires p.fromEnv && p.port != 0 && TakesValue(p.opts, 'M')
    requires !(|av| > 1 && av[0] == "-M" && av[1] == "-M")
    ensures Emit(p, av, false, false) == Block(p) + Kept(p, av, false) <==>
      av != [] && !IsMonitor(av[0]) && (IsDashes(av[0]) ==> |av| > 1)
  {
    if av != [] && IsMonitor(av[0]) {
      PassedOn(p, av);
    } else if av == [] || (IsDashes(av[0]) && |av| == 1) {
      ForwardsAreLost(p, av);
      assert |Block(p)| > 0;
    } else {
      OverrideHolds(p, av);
    }
  }

  // ----- the words ssh gets -----

  /** The tokens by their beginnings. */
  lemma TokensMean(s: string)
    ensures IsDashes(s) <==> "--" <= s
    ensures IsMonitor(s) <==> "-M" <= s
    ensures IsMonitor(s) ==> Reach(s) == if s == "-M" then 2 else 1
  {
  }

  /** -L with its forward and, unless an echo port is used, -R with its own. */
  lemma ForwardsMean(p: Plan)
    ensures Block(p) == if p.echo then ["-L", p.writeForward] else ["-L", p.writeForward, "-R", p.readForward]
  {
  }

  /** The user's own arguments as given: without the first "--", and without any -M and its value before it. */
  function UserArgs(av: seq<string>, stopped: bool): seq<string>
    decreases |av|
  {
    if av == [] then []
    else if stopped then [av[0]] + UserArgs(av[1..], true)
    else if "--" <= av[0] then UserArgs(av[1..], true)
    else if "-M" == av[0] then UserArgs(if |av| > 1 then av[2..] else [], false)
    else if "-M" <= av[0] then UserArgs(av[1..], false)
    else [av[0]] + UserArgs(av[1..], false)
  }

  /** An argument without its f: taken out of a group of flags, which goes altogether if only its dash is left. */
  function WithoutF(s: string, opts: string): string {
    if |s| > 1 && s[0] == '-' then DropBareDash(Purge(s, 'f', opts)) else s
  }

  function Words(args: seq<string>, opts: string): seq<string> {
    if args == [] then []
    else (if WithoutF(args[0], opts) == "" then [] else [WithoutF(args[0], opts)]) + Words(args[1..], opts)
  }

  /** The arguments strip_arg does right by. */
  predicate AllWellSpaced(args: seq<string>, opts: string) {
    forall i :: 0 <= i < |args| ==> IsOptionGroup(args[i]) ==> WellSpaced(args[i], 'f', opts)
  }

  lemma CleanIsWithoutF(p: Plan, s: string)
    requires IsOptionGroup(s) ==> WellSpaced(s, 'f', p.opts)
    ensures Clean(p, s) == if WithoutF(s, p.opts) == "" then [] else [WithoutF(s, p.opts)]
  {
    if IsOptionGroup(s) {
      StripPurgesIff(s, 'f', p.opts);
    }
  }

  /** What ssh sees of the user's arguments is each of them, in order, without its f and left out if nothing remains. */
  lemma {:induction false} KeptIsWords(p: Plan, av: seq<string>, stopped: bool)
    requires AllWellSpaced(av, p.opts)
    ensures Kept(p, av, stopped) == Words(UserArgs(av, stopped), p.opts)
    decreases |av|
  {
    if av != [] {
      TokensMean(av[0]);
      CleanIsWithoutF(p, av[0]);
      if stopped || (!IsDashes(av[0]) && !IsMonitor(av[0])) {
        KeptIsWords(p, av[1..], stopped);
        assert ([av[0]] + UserArgs(av[1..], stopped))[1..] == UserArgs(av[1..], stopped);
      } else if IsDashes(av[0]) {
        KeptIsWords(p, av[1..], true);
      } else {
        KeptIsWords(p, Skip(av, Reach(av[0])), false);
      }
    }
  }

  lemma {:induction false} WordsAreClear(args: seq<string>, opts: string, word: string)
    requires !TakesValue(opts, 'f') && word in Words(args, opts)
    ensures IsOptionGroup(word) ==> Clear(word, 'f', opts)
  {
    if word != WithoutF(args[0], opts) {
      WordsAreClear(args[1..], opts, word);
    } else if IsOptionGroup(args[0]) {
      PurgeClears(args[0], 'f', opts);
    }
  }

  /** No group of flags that ssh gets from the user has an f among them. */
  lemma NoFReachesSsh(p: Plan, av: seq<string>, stopped: bool, word: string)
    requires p.opts == OPTION_STRING && AllWellSpaced(av, p.opts) && word in Kept(p, av, stopped)
    ensures IsOptionGroup(word) ==> Clear(word, 'f', p.opts)
  {
    KeptIsWords(p, av, stopped);
    OwnFlags();
    WordsAreClear(UserArgs(av, stopped), p.opts, word);
  }

  /** The user's arguments in front of the first -M, as given. */
  function FrontArgs(av: seq<string>): seq<string> {
    if av == [] || "--" <= av[0] || "-M" <= av[0] then [] else [av[0]] + FrontArgs(av[1..])
  }

  lemma {:induction false} LeadingIsWords(p: Plan, av: seq<string>)
    requires AllWellSpaced(av, p.opts)
    ensures Leading(p, av) == Words(FrontArgs(av), p.opts)
  {
    if av != [] {
      TokensMean(av[0]);
      if !IsDashes(av[0]) && !IsMonitor(av[0]) {
        CleanIsWithoutF(p, av[0]);
        LeadingIsWords(p, av[1..]);
        assert ([av[0]] + FrontArgs(av[1..]))[1..] == FrontArgs(av[1..]);
      }
    }
  }

  /**
   * The whole command line behind the ssh path, with AUTOSSH_PORT unset: the user's words, and for a non-zero
   * port the forwards among them, in the place of the first -M.
   */
  lemma CommandLine(p: Plan, av: seq<string>)
    requires !p.fromEnv && AllWellSpaced(av, p.opts)
    ensures var all, front := Words(UserArgs(av, false), p.opts), Words(FrontArgs(av), p.opts);
      && front <= all
      && Emit(p, av, false, false) ==
           if p.port == 0 || !HasMonitor(av) then all else front + Block(p) + all[|front|..]
  {
    ForwardsReplaceMonitor(p, av);
    KeptIsWords(p, av, false);
    LeadingIsWords(p, av);
  }
}
