/**
 * The argument handling at the start of the planner binary's `main`. The
 * process state it writes (the globals `timeout`, `seq`, `liste` and the
 * planner list) is a class; the file names and the planner name it hands on
 * form the Command. argv is a sequence whose length is argc; argv[0] is the
 * program name. `atof` is floating point and is not modelled: a timeout
 * given on the command line stays the text it was given as.
 */
module CommandLine {
  import opened StdString

  /** The default planner. */
  const DEFAULT_PLANNER: string := "LAMA"
  const SEQUENTIAL_LONG: string := "--sequential"
  const SEQUENTIAL_SHORT: string := "-s"

  /** The timeout: the compiled-in default of 7 seconds, or the text of an argument. */
  datatype Timeout = DefaultTimeout | GivenTimeout(text: string)

  /** The globals the parser writes. */
  datatype Settings = Settings(timeout: Timeout, sequential: bool, listed: bool, planners: seq<string>)

  /** What the parser decides: print the usage and exit, or plan with these names. */
  datatype Command = Usage | Run(plannerName: string, domainFilename: string, problemFilename: string)

  /** The globals before the parser runs. */
  const INITIAL_SETTINGS: Settings := Settings(DefaultTimeout, false, false, [])

  predicate IsSequentialFlag(a: string)
  {
    a == SEQUENTIAL_LONG || a == SEQUENTIAL_SHORT
  }

  /**
   * The `-l <n> <planner> … [-t <timeout>] [-s] <domain> <problem>` form with
   * n already read; `liste` is set before any check. Every index read is
   * guarded by the `argc` check before it.
   */
  function ListForm(argv: seq<string>, n: int, s: Settings): (Command, Settings)
    requires |argv| >= 5 + n && n >= 1
  {
    var listed := s.(listed := true, planners := s.planners + argv[3..3 + n]);
    if argv[3 + n] == "-t" then
      if |argv| < 7 + n then (Usage, listed)
      else if IsSequentialFlag(argv[5 + n]) then
        if |argv| < 8 + n then (Usage, listed.(timeout := GivenTimeout(argv[4 + n])))
        else (Run(DEFAULT_PLANNER, argv[6 + n], argv[7 + n]), listed.(timeout := GivenTimeout(argv[4 + n]), sequential := true))
      else (Run(DEFAULT_PLANNER, argv[5 + n], argv[6 + n]), listed.(timeout := GivenTimeout(argv[4 + n])))
    else if IsSequentialFlag(argv[3 + n]) then
      if |argv| < 6 + n then (Usage, listed)
      else if argv[4 + n] == "-t" then
        if |argv| < 8 + n then (Usage, listed.(sequential := true))
        else (Run(DEFAULT_PLANNER, argv[6 + n], argv[7 + n]), listed.(timeout := GivenTimeout(argv[5 + n]), sequential := true))
      else (Run(DEFAULT_PLANNER, argv[4 + n], argv[5 + n]), listed.(sequential := true))
    else (Run(DEFAULT_PLANNER, argv[3 + n], argv[4 + n]), listed)
  }

  /**
   * What `main` decides from argv, and the globals afterwards, starting from
   * the globals s. The function has no precondition: every argv read is below
   * argc on every path.
   */
  function Parsed(argv: seq<string>, s: Settings): (Command, Settings)
  {
    if |argv| < 2 then (Usage, s)
    else if argv[1] == "-h" || argv[1] == "--help" then (Usage, s)
    else if argv[1] == "-p" && (|argv| == 5 || |argv| == 7) then
      if |argv| == 5 then (Run(argv[2], argv[3], argv[4]), s)
      else if argv[3] != "-t" then (Usage, s)
      else (Run(argv[2], argv[5], argv[6]), s.(timeout := GivenTimeout(argv[4])))
    else if argv[1] == "-t" && |argv| == 7 then
      if argv[3] != "-p" then (Usage, s)
      else (Run(argv[4], argv[5], argv[6]), s.(timeout := GivenTimeout(argv[2])))
    else if |argv| == 3 then (Run(DEFAULT_PLANNER, argv[1], argv[2]), s)
    else if argv[1] == "-l" then
      if |argv| < 3 then (Usage, s.(listed := true))
      else
      var n := Atoi(argv[2]);
      if n < 1 || |argv| < 5 + n then (Usage, s.(listed := true))
      else ListForm(argv, n, s)
    else (Usage, s)
  }

  /** The globals of the planner binary that the argument parser writes. */
  class MainState {
    var timeout: Timeout
    var sequential: bool
    var listed: bool
    var planners: seq<string>

    function State(): Settings
      reads this
    {
      Settings(timeout, sequential, listed, planners)
    }

    constructor ()
      ensures State() == INITIAL_SETTINGS
    {
      timeout := DefaultTimeout;
      sequential := false;
      listed := false;
      planners := [];
    }

    /** The `-l` branch once n is known: push the n planners, then read the options. */
    method ParseList(argv: seq<string>, n: int) returns (command: Command)
      requires |argv| >= 5 + n && n >= 1
      modifies this
      ensures (command, State()) == ListForm(argv, n, old(State()))
    {
      listed := true;
      for i := 0 to n
        invariant planners == old(planners) + argv[3..3 + i]
        invariant listed && timeout == old(timeout) && sequential == old(sequential)
      {
        planners := planners + [argv[3 + i]];
        assert argv[3..3 + (i + 1)] == argv[3..3 + i] + [argv[3 + i]];
      }
      if argv[3 + n] == "-t" {
        if |argv| < 7 + n {
          return Usage;
        }
        timeout := GivenTimeout(argv[4 + n]);
        if argv[5 + n] == SEQUENTIAL_LONG || argv[5 + n] == SEQUENTIAL_SHORT {
          if |argv| < 8 + n {
            return Usage;
          }
          command := Run(DEFAULT_PLANNER, argv[6 + n], argv[7 + n]);
          sequential := true;
        } else {
          command := Run(DEFAULT_PLANNER, argv[5 + n], argv[6 + n]);
        }
      } else if argv[3 + n] == SEQUENTIAL_LONG || argv[3 + n] == SEQUENTIAL_SHORT {
        if |argv| < 6 + n {
          return Usage;
        }
        sequential := true;
        if argv[4 + n] == "-t" {
          if |argv| < 8 + n {
            return Usage;
          }
          timeout := GivenTimeout(argv[5 + n]);
          command := Run(DEFAULT_PLANNER, argv[6 + n], argv[7 + n]);
        } else {
          command := Run(DEFAULT_PLANNER, argv[4 + n], argv[5 + n]);
        }
      } else {
        command := Run(DEFAULT_PLANNER, argv[3 + n], argv[4 + n]);
      }
    }

    /** The argument handling of `main`: decide the command and set the globals. */
    method ParseArguments(argv: seq<string>) returns (command: Command)
      modifies this
      ensures (command, State()) == Parsed(argv, old(State()))
    {
      if |argv| < 2 {
        return Usage;
      }
      var firstArg := argv[1];
      if firstArg == "-h" || firstArg == "--help" {
        return Usage;
      }
      if firstArg == "-p" && (|argv| == 5 || 7 == |argv|) {
        if 5 == |argv| {
          command := Run(argv[2], argv[3], argv[4]);
        } else {
          if "-t" != argv[3] {
            return Usage;
          }
          timeout := GivenTimeout(argv[4]);
          command := Run(argv[2], argv[5], argv[6]);
        }
      } else if "-t" == firstArg && 7 == |argv| {
        if "-p" != argv[3] {
          return Usage;
        }
        timeout := GivenTimeout(argv[2]);
        command := Run(argv[4], argv[5], argv[6]);
      } else if |argv| == 3 {
        command := Run(DEFAULT_PLANNER, argv[1], argv[2]);
      } else if "-l" == firstArg {
        listed := true;
        if |argv| < 3 {
          return Usage;
        }
        var nplanners := Atoi(argv[2]);
        if nplanners < 1 {
          return Usage;
        }
        if |argv| < 5 + nplanners {
          return Usage;
        }
        command := ParseList(argv, nplanners);
      } else {
        return Usage;
      }
    }
  }

  /** No arguments, `-h` or `--help` print the usage and change nothing. */
  lemma HelpPrintsUsage(argv: seq<string>, s: Settings)
    requires |argv| < 2 || argv[1] == "-h" || argv[1] == "--help"
    ensures Parsed(argv, s) == (Usage, s)
  {
  }

  /**
   * Exactly two arguments other than `-h`/`--help` are the domain and the
   * problem file, planned with LAMA and the default timeout; this holds even
   * when the first is `-l`.
   */
  lemma TwoArgumentsAreFiles(argv: seq<string>, s: Settings)
    requires |argv| == 3 && argv[1] != "-h" && argv[1] != "--help"
    ensures Parsed(argv, s) == (Run(DEFAULT_PLANNER, argv[1], argv[2]), s)
  {
  }

  /** `-p` takes four or six arguments; the six-argument form needs `-t` third. */
  lemma PlannerOption(argv: seq<string>, s: Settings)
    requires |argv| >= 2 && argv[1] == "-p"
    ensures |argv| == 5 ==> Parsed(argv, s) == (Run(argv[2], argv[3], argv[4]), s)
    ensures |argv| == 7 && argv[3] == "-t" ==>
      Parsed(argv, s) == (Run(argv[2], argv[5], argv[6]), s.(timeout := GivenTimeout(argv[4])))
    ensures |argv| == 7 && argv[3] != "-t" ==> Parsed(argv, s) == (Usage, s)
    ensures |argv| != 3 && |argv| != 5 && |argv| != 7 ==> Parsed(argv, s) == (Usage, s)
  {
  }

  /** `-t` takes exactly six arguments, with `-p` third; the timeout comes first. */
  lemma TimeoutOption(argv: seq<string>, s: Settings)
    requires |argv| >= 2 && argv[1] == "-t"
    ensures |argv| == 7 && argv[3] == "-p" ==>
      Parsed(argv, s) == (Run(argv[4], argv[5], argv[6]), s.(timeout := GivenTimeout(argv[2])))
    ensures |argv| == 7 && argv[3] != "-p" ==> Parsed(argv, s) == (Usage, s)
    ensures |argv| != 3 && |argv| != 7 ==> Parsed(argv, s) == (Usage, s)
  {
  }

  /** A first argument that is no option, with other than two arguments, prints the usage. */
  lemma OtherShapesPrintUsage(argv: seq<string>, s: Settings)
    requires |argv| >= 2 && |argv| != 3 && argv[1] != "-p" && argv[1] != "-t" && argv[1] != "-l"
    ensures Parsed(argv, s) == (Usage, s)
  {
  }

  /** In the list form, fewer than one planner prints the usage. */
  lemma ListNeedsAPlanner(argv: seq<string>, s: Settings)
    requires |argv| >= 4 && argv[1] == "-l" && Atoi(argv[2]) < 1
    ensures Parsed(argv, s).0 == Usage
  {
  }

  /**
   * Whenever the list form runs, the planner list gets argv[3..3+n) appended
   * in order, `liste` is set and the planner name stays LAMA; it runs only
   * when argc leaves room for the n planners and the two files.
   */
  lemma ListedPlanners(argv: seq<string>, s: Settings)
    requires |argv| >= 4 && argv[1] == "-l"
    ensures var n := Atoi(argv[2]);
      var (c, t) := Parsed(argv, s);
      c.Run? ==> n >= 1 && |argv| >= 5 + n && t.listed && t.planners == s.planners + argv[3..3 + n]
                 && c.plannerName == DEFAULT_PLANNER
  {
  }

  /** Only the list form changes the planner list or the sequential flag. */
  lemma OnlyListFormLists(argv: seq<string>, s: Settings)
    requires |argv| < 2 || argv[1] != "-l" || |argv| == 3
    ensures Parsed(argv, s).1.planners == s.planners && Parsed(argv, s).1.sequential == s.sequential
    ensures Parsed(argv, s).1.listed == s.listed
  {
  }

  /** With room for the n planners and the files, the list form reads the options. */
  lemma ListFormParsed(argv: seq<string>, s: Settings)
    requires |argv| >= 4 && argv[1] == "-l"
    requires var n := Atoi(argv[2]); n >= 1 && |argv| >= 5 + n
    ensures Parsed(argv, s) == ListForm(argv, Atoi(argv[2]), s)
  {
  }

  /**
   * `-s` may come before or after `-t <timeout>`: the two orders give the
   * same command and the same globals.
   */
  lemma {:induction false} SequentialEitherOrder(prefix: seq<string>, time: string, flag: string,
                                                  domain: string, problem: string, s: Settings)
    requires |prefix| >= 4 && prefix[1] == "-l" && IsSequentialFlag(flag)
    requires Atoi(prefix[2]) == |prefix| - 3
    ensures var timeFirst := prefix + ["-t", time, flag, domain, problem];
      var flagFirst := prefix + [flag, "-t", time, domain, problem];
      Parsed(timeFirst, s) == Parsed(flagFirst, s)
      && Parsed(timeFirst, s) == (Run(DEFAULT_PLANNER, domain, problem),
                                  s.(timeout := GivenTimeout(time), sequential := true, listed := true,
                                     planners := s.planners + prefix[3..]))
  {
    var n := |prefix| - 3;
    var timeFirst := prefix + ["-t", time, flag, domain, problem];
    var flagFirst := prefix + [flag, "-t", time, domain, problem];
    assert timeFirst[1] == "-l" && timeFirst[2] == prefix[2];
    assert flagFirst[1] == "-l" && flagFirst[2] == prefix[2];
    ListFormParsed(timeFirst, s);
    ListFormParsed(flagFirst, s);
    assert timeFirst[3..3 + n] == prefix[3..] == flagFirst[3..3 + n];
    assert timeFirst[3 + n] == "-t" && timeFirst[4 + n] == time && timeFirst[5 + n] == flag;
    assert timeFirst[6 + n] == domain && timeFirst[7 + n] == problem;
    assert flagFirst[3 + n] == flag && flagFirst[4 + n] == "-t" && flagFirst[5 + n] == time;
    assert flagFirst[6 + n] == domain && flagFirst[7 + n] == problem;
  }

  /** The files of the list form without options follow the planners directly. */
  lemma ListWithoutOptions(argv: seq<string>, s: Settings)
    requires |argv| >= 4 && argv[1] == "-l"
    requires var n := Atoi(argv[2]); n >= 1 && |argv| >= 5 + n && argv[3 + n] != "-t" && !IsSequentialFlag(argv[3 + n])
    ensures var n := Atoi(argv[2]);
      Parsed(argv, s) == (Run(DEFAULT_PLANNER, argv[3 + n], argv[4 + n]), s.(listed := true, planners := s.planners + argv[3..3 + n]))
  {
  }

  /** The C int range: `5 + nplanners` is computed in it. */
  const INT_MIN: int := -0x8000_0000
  const INT_MAX: int := 0x7FFF_FFFF

  /**
   * Two's-complement wrap-around of an int result. Signed overflow is
   * undefined behaviour in C++; this is the wrap a build without overflow
   * optimisations gives on a two's-complement machine, and the as-written
   * guard below assumes it.
   */
  function WrapInt(x: int): (r: int)
    ensures INT_MIN <= r <= INT_MAX
    ensures INT_MIN <= x <= INT_MAX ==> r == x
  {
    (x - INT_MIN) % 0x1_0000_0000 + INT_MIN
  }

  /** The "too few arguments" guard of the list form as written: the sum wraps around. */
  predicate ListGuardAsWritten(argc: int, nplanners: int)
  {
    argc < WrapInt(5 + nplanners)
  }

  /**
   * With nplanners = INT_MAX the sum 5 + nplanners wraps to a negative value,
   * so the guard lets argc = 5 through and the copy loop goes on reading
   * argv[3 + i] past argv[4].
   */
  lemma ListGuardOverflows()
    ensures !ListGuardAsWritten(5, INT_MAX)
    ensures 3 + INT_MAX > 5
  {
  }

  /** The model compares without wrap-around and rejects the same count. */
  lemma HugeCountRejected(argv: seq<string>, s: Settings)
    requires |argv| == 5 && argv[1] == "-l" && Atoi(argv[2]) == INT_MAX
    ensures Parsed(argv, s) == (Usage, s.(listed := true))
  {
  }
}
