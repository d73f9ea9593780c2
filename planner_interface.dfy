/**
 * PDDLPlannerInterface: the base class the concrete planners share. It writes
 * the domain and problem files into a temporary directory, runs the planner
 * command, kills it when it overran its timeout, and collects the plans from
 * the result files it left behind.
 *
 * The machine is seen through a Host value: the codes system() returns, which
 * paths exist and are directories, the entries a directory iterator lists
 * (as full paths, in enumeration order) and the content of each file fopen
 * can open. Whatever the library does to the machine is returned as a trace
 * of Effects, in the order the library performs them. Whether the planner
 * thread joined before the timeout is a parameter.
 */
module PlannerInterface {
  import opened Wrappers
  import opened StdString
  import opened PlannerTypes
  import opened PlanReader

  /** What the library observes of the machine. */
  datatype Host = Host(
    system: string -> int,
    pathExists: string -> bool,
    isDirectory: string -> bool,
    listing: string -> seq<string>,
    files: string -> Option<string>)

  /** One action of the library on the machine. */
  datatype Effect =
    | System(command: string)
    | CreateDirectory(path: string)
    | WriteFile(path: string, content: string)
    | Remove(path: string)
    | RemoveAll(path: string)
    /** The planner-specific `cleanup()` of a subclass, run on its workspace. */
    | Cleanup(dir: string)

  const DOMAIN_FILE_BASENAME: string := "domain.pddl"
  const PROBLEM_FILE_BASENAME: string := "problem.pddl"
  const TEMP_DIR_BASENAME: string := "/tmp"

  /** The path of a file named base inside dir. */
  function PathIn(dir: string, base: string): string
  {
    dir + "/" + base
  }

  /** The domain file: the domain descriptions, a newline, then the action descriptions. */
  function DomainFileContent(domainDescriptions: string, actionDescriptions: string): string
  {
    domainDescriptions + "\n" + actionDescriptions
  }

  /** The problem file: the problem and a newline. */
  function ProblemFileContent(problem: string): string
  {
    problem + "\n"
  }

  /** The two files `prepare` writes into tempDir, domain file first. */
  function PreparedWrites(tempDir: string, problem: string, actionDescriptions: string, domainDescriptions: string): seq<Effect>
  {
    [WriteFile(PathIn(tempDir, DOMAIN_FILE_BASENAME), DomainFileContent(domainDescriptions, actionDescriptions)),
     WriteFile(PathIn(tempDir, PROBLEM_FILE_BASENAME), ProblemFileContent(problem))]
  }

  /**
   * `prepare` writes two different files, both directly inside the workspace,
   * and each holds the text it was given followed by what the format adds.
   */
  lemma PreparedFiles(tempDir: string, problem: string, actionDescriptions: string, domainDescriptions: string)
    ensures var w := PreparedWrites(tempDir, problem, actionDescriptions, domainDescriptions);
      |w| == 2 && w[0].WriteFile? && w[1].WriteFile? && w[0].path != w[1].path
      && StartsWith(w[0].path, tempDir + "/") && StartsWith(w[1].path, tempDir + "/")
      && StartsWith(w[0].content, domainDescriptions + "\n")
      && w[0].content[|domainDescriptions| + 1..] == actionDescriptions
      && StartsWith(w[1].content, problem) && w[1].content[|problem|..] == "\n"
  {
    var w := PreparedWrites(tempDir, problem, actionDescriptions, domainDescriptions);
    var n := |tempDir| + 1;
    assert w[0].path[n] == 'd' && w[1].path[n] == 'p';
    assert w[0].path[..n] == tempDir + "/";
    assert w[1].path[..n] == tempDir + "/";
  }

  /** The shell line the runner thread hands to system(). */
  function RunCommand(tempDir: string, cmd: string): string
  {
    "cd " + tempDir + ";" + cmd + " > /dev/null"
  }

  /** The kill of the planner's own command line. */
  function CommandKill(cmd: string): string
  {
    "pkill --signal 9 -f \"" + cmd + "\""
  }

  /** The kill of one process name pattern. */
  function PatternKill(pattern: string): string
  {
    "pkill --signal 9 -f " + pattern
  }

  /** system() reports that the command could not be run. */
  predicate KillFailed(system: string -> int, command: string)
  {
    system(command) == -1
  }

  /** Some pattern's kill fails. */
  predicate AnyPatternFailed(patterns: seq<string>, system: string -> int)
  {
    exists k :: 0 <= k < |patterns| && KillFailed(system, PatternKill(patterns[k]))
  }

  /** The position of the first pattern whose kill fails, or the number of patterns when none does. */
  function FirstFailure(patterns: seq<string>, system: string -> int): (r: nat)
    ensures r <= |patterns|
    ensures forall k :: 0 <= k < r ==> !KillFailed(system, PatternKill(patterns[k]))
    ensures r < |patterns| ==> KillFailed(system, PatternKill(patterns[r]))
  {
    if |patterns| == 0 then 0
    else if KillFailed(system, PatternKill(patterns[0])) then 0
    else
      var r := 1 + FirstFailure(patterns[1..], system);
      assert forall k :: 0 < k < |patterns| ==> patterns[k] == patterns[1..][k - 1];
      r
  }

  /** A pattern kill fails exactly when the first failure lies inside the list. */
  lemma FirstFailureFound(patterns: seq<string>, system: string -> int)
    ensures AnyPatternFailed(patterns, system) <==> FirstFailure(patterns, system) < |patterns|
  {
  }

  /** How many pattern kills are issued: up to and including the first failing one. */
  function PatternsIssued(patterns: seq<string>, system: string -> int): nat
  {
    var f := FirstFailure(patterns, system);
    if f < |patterns| then f + 1 else |patterns|
  }

  /** The kill commands of the patterns, in order. */
  function PatternKillEffects(patterns: seq<string>): (r: seq<Effect>)
    ensures |r| == |patterns|
    ensures forall k :: 0 <= k < |patterns| ==> r[k] == System(PatternKill(patterns[k]))
  {
    if |patterns| == 0 then []
    else PatternKillEffects(patterns[..|patterns| - 1]) + [System(PatternKill(patterns[|patterns| - 1]))]
  }

  /**
   * The kill step of `generateCandidates` for a planner that overran its
   * timeout: kill its command line, then the patterns in list order while no
   * pattern kill has failed. It reports failure when the command kill or a
   * pattern kill could not be run.
   */
  method KillPlanner(cmd: string, patterns: seq<string>, system: string -> int) returns (failed: bool, effects: seq<Effect>)
    ensures effects == [System(CommandKill(cmd))] + PatternKillEffects(patterns[..PatternsIssued(patterns, system)])
    ensures failed <==> KillFailed(system, CommandKill(cmd)) || AnyPatternFailed(patterns, system)
  {
    var command := CommandKill(cmd);
    var returnCode := system(command);
    effects := [System(command)];
    var error := false;
    var i := 0;
    ghost var first := FirstFailure(patterns, system);
    while !error && i < |patterns|
      invariant 0 <= i <= |patterns|
      invariant !error ==> i <= first
      invariant error ==> i == first + 1
      invariant effects == [System(command)] + PatternKillEffects(patterns[..i])
    {
      var commandList := PatternKill(patterns[i]);
      assert patterns[..i + 1][..i] == patterns[..i];
      effects := effects + [System(commandList)];
      if -1 == system(commandList) {
        error := true;
      }
      i := i + 1;
    }
    FirstFailureFound(patterns, system);
    failed := -1 == returnCode || error;
  }

  /** The exception message for a planner that could not be killed. */
  function KillFailureMessage(planner: string): string
  {
    "Error: planner " + planner + " could not be killed"
  }

  /** The exception message for a workspace that is not a directory. */
  function MissingDirectoryMessage(dir: string): string
  {
    "Temporary directory: '" + dir + "' does not exist"
  }

  /** What `generateCandidates` returns. */
  function GenerateOutcome(owner: string, cmd: string, tempDir: string, resultFilename: string, patterns: seq<string>,
                           planner: string, joined: bool, host: Host): Result<PlanCandidates, Error>
  {
    if !joined && (KillFailed(host.system, CommandKill(cmd)) || AnyPatternFailed(patterns, host.system)) then
      Failure(PlanGenerationException(KillFailureMessage(planner)))
    else if !host.isDirectory(tempDir) then
      Failure(PlanGenerationException(MissingDirectoryMessage(tempDir)))
    else
      Success(PlanCandidates(Harvested(owner, host.listing(tempDir), resultFilename, host.files)))
  }

  /** The commands `generateCandidates` runs: the planner, then the kills when it did not join. */
  function GenerateEffects(cmd: string, tempDir: string, patterns: seq<string>, joined: bool, host: Host): seq<Effect>
  {
    [System(RunCommand(tempDir, cmd))]
      + (if joined then [] else [System(CommandKill(cmd))] + PatternKillEffects(patterns[..PatternsIssued(patterns, host.system)]))
  }

  /**
   * `generateCandidates` throws exactly when the planner overran and a kill
   * could not be run, or when the workspace is not a directory; a failing
   * kill only matters when the planner did not join in time.
   */
  lemma GenerateFailure(owner: string, cmd: string, tempDir: string, resultFilename: string, patterns: seq<string>,
                        planner: string, joined: bool, host: Host)
    ensures var r := GenerateOutcome(owner, cmd, tempDir, resultFilename, patterns, planner, joined, host);
      (r.Failure? <==> (!joined && (host.system(CommandKill(cmd)) == -1
                                    || exists k :: 0 <= k < |patterns| && host.system(PatternKill(patterns[k])) == -1))
                       || !host.isDirectory(tempDir))
      && (r.Failure? ==> r.error.PlanGenerationException?)
      && (r.Success? ==> r.value.plans == Harvested(owner, host.listing(tempDir), resultFilename, host.files))
  {
  }

  /**
   * A planner that joined in time is never killed. One that did not is killed
   * by its command line first, then by its patterns in list order: every
   * pattern kill before the last one issued succeeded, and the patterns after
   * it are issued only when none failed.
   */
  lemma {:induction false} KillOrder(cmd: string, tempDir: string, patterns: seq<string>, joined: bool, host: Host)
    ensures joined ==> GenerateEffects(cmd, tempDir, patterns, joined, host) == [System(RunCommand(tempDir, cmd))]
    ensures !joined ==>
      var e := GenerateEffects(cmd, tempDir, patterns, joined, host);
      var n := PatternsIssued(patterns, host.system);
      |e| == 2 + n && e[1] == System(CommandKill(cmd))
      && (forall k :: 0 <= k < n ==> e[2 + k] == System(PatternKill(patterns[k])))
      && (forall k :: 0 <= k < n - 1 ==> host.system(PatternKill(patterns[k])) != -1)
      && (n < |patterns| ==> host.system(PatternKill(patterns[n - 1])) == -1)
      && (!AnyPatternFailed(patterns, host.system) ==> n == |patterns|)
  {
    FirstFailureFound(patterns, host.system);
  }

  /**
   * The state the base class keeps between `prepare` and the planner run:
   * the workspace and the three file paths inside it.
   */
  class PDDLPlannerInterface {
    /** `getName()` of the concrete planner. */
    const name: string
    /** The base name of the result files, set by the concrete planner. */
    const resultFileBasename: string
    var tempDir: string
    var domainFilename: string
    var problemFilename: string
    var resultFilename: string

    constructor (name: string, resultFileBasename: string, tempDir: string)
      ensures this.name == name && this.resultFileBasename == resultFileBasename && this.tempDir == tempDir
      ensures domainFilename == "" && problemFilename == "" && resultFilename == ""
    {
      this.name := name;
      this.resultFileBasename := resultFileBasename;
      this.tempDir := tempDir;
      domainFilename := "";
      problemFilename := "";
      resultFilename := "";
    }

    /**
     * `prepare`: set the three paths inside the workspace and write the
     * domain and problem files.
     */
    method Prepare(problem: string, actionDescriptions: string, domainDescriptions: string) returns (effects: seq<Effect>)
      modifies this
      ensures tempDir == old(tempDir)
      ensures domainFilename == PathIn(tempDir, DOMAIN_FILE_BASENAME)
      ensures problemFilename == PathIn(tempDir, PROBLEM_FILE_BASENAME)
      ensures resultFilename == PathIn(tempDir, resultFileBasename)
      ensures effects == PreparedWrites(tempDir, problem, actionDescriptions, domainDescriptions)
    {
      domainFilename := tempDir + "/" + DOMAIN_FILE_BASENAME;
      effects := [WriteFile(domainFilename, domainDescriptions + "\n" + actionDescriptions)];
      problemFilename := tempDir + "/" + PROBLEM_FILE_BASENAME;
      effects := effects + [WriteFile(problemFilename, problem + "\n")];
      resultFilename := tempDir + "/" + resultFileBasename;
    }

    /**
     * `generateCandidates`: run the planner in tempDir; when it did not join
     * in time, kill it; then read every result file of the workspace. The
     * plans are read under the planner's own name.
     */
    method GenerateCandidates(cmd: string, tempDir: string, resultFilename: string, patterns: seq<string>,
                              planner: string, joined: bool, host: Host)
      returns (r: Result<PlanCandidates, Error>, effects: seq<Effect>)
      ensures r == GenerateOutcome(name, cmd, tempDir, resultFilename, patterns, planner, joined, host)
      ensures effects == GenerateEffects(cmd, tempDir, patterns, joined, host)
    {
      var command := "cd " + tempDir + ";" + cmd;
      effects := [System(command + " > /dev/null")];
      if !joined {
        var failed, kills := KillPlanner(cmd, patterns, host.system);
        effects := effects + kills;
        if failed {
          return Failure(PlanGenerationException("Error: planner " + planner + " could not be killed")), effects;
        }
      }
      if !host.isDirectory(tempDir) {
        return Failure(PlanGenerationException("Temporary directory: '" + tempDir + "' does not exist")), effects;
      }
      var candidates := Harvest(name, host.listing(tempDir), resultFilename, host.files);
      return Success(candidates), effects;
    }
  }

  /** The removals `cleanup(dir, files)` performs: each file in turn. */
  function Removals(files: seq<string>): (r: seq<Effect>)
    ensures |r| == |files|
    ensures forall k :: 0 <= k < |files| ==> r[k] == Remove(files[k])
  {
    if |files| == 0 then [] else Removals(files[..|files| - 1]) + [Remove(files[|files| - 1])]
  }

  /**
   * `cleanup(dir, files)`: remove each file (a file that cannot be removed
   * is skipped), then remove the directory with everything in it.
   */
  method CleanupFiles(dir: string, files: seq<string>) returns (effects: seq<Effect>)
    ensures effects == Removals(files) + [RemoveAll(dir)]
  {
    effects := [];
    for i := 0 to |files|
      invariant effects == Removals(files[..i])
    {
      assert files[..i + 1][..i] == files[..i];
      effects := effects + [Remove(files[i])];
    }
    assert files[..|files|] == files;
    effects := effects + [RemoveAll(dir)];
  }
}
