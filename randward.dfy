/**
 * The Randward planner. Its `plan` follows AbstractPlanner's steps with the
 * fixed name "randward", but `generatePlanCandidates` harvests the result
 * files whatever the exit status of the script, and its `cleanup` removes the
 * workspace and four files the script leaves in the working directory.
 */
module Randward {
  import opened Wrappers
  import opened StdString
  import opened PlannerTypes
  import opened PlanReader
  import opened PlannerInterface
  import opened AbstractPlanners

  /** The command that looks the script up. */
  const FIND_SCRIPT: string := "which randward-planner"
  /** The name at the head of this reader's "could not open" message. */
  const RANDWARD_READER_NAME: string := "Randward"

  function MissingScriptMessage(): string
  {
    "Could not find 'randward-planner' script"
  }

  /** The workspace of one run: /tmp, the current time and "_randward". */
  function RandwardWorkspace(currentTime: string): string
  {
    TEMP_DIR_BASENAME + "/" + currentTime + "_randward"
  }

  /** The command line of the script: domain, problem and result file. */
  function RandwardCommand(tempDir: string): string
  {
    "randward-planner " + PathIn(tempDir, DOMAIN_FILE_BASENAME) + " "
      + PathIn(tempDir, PROBLEM_FILE_BASENAME) + " " + PathIn(tempDir, RESULT_FILE_BASENAME)
  }

  /** What Randward's `cleanup` removes: the workspace, then the script's stray files. */
  function CleanupEffects(tempDir: string): seq<Effect>
  {
    [RemoveAll(tempDir), Remove("output"), Remove("output.sas"), Remove("all.groups"), Remove("test.groups")]
  }

  /** What Randward's `generatePlanCandidates` returns. */
  function RandwardOutcome(tempDir: string, host: Host): Result<PlanCandidates, Error>
  {
    if !host.isDirectory(tempDir) then Failure(PlanGenerationException(MissingDirectoryMessage(tempDir)))
    else Success(PlanCandidates(Harvested(RANDWARD_READER_NAME, host.listing(tempDir), PathIn(tempDir, RESULT_FILE_BASENAME), host.files)))
  }

  /** What Randward's `generatePlanCandidates` does: run the script, then clean up unless it threw. */
  function RandwardEffects(tempDir: string, host: Host): seq<Effect>
  {
    [System(RandwardCommand(tempDir))] + (if host.isDirectory(tempDir) then CleanupEffects(tempDir) else [])
  }

  /** What Randward's `plan` returns. */
  function RandwardPlanOutcome(currentTime: string, host: Host): Result<PlanCandidates, Error>
  {
    if host.system(FIND_SCRIPT) != 0 then Failure(PlanGenerationException(MissingScriptMessage()))
    else RandwardOutcome(RandwardWorkspace(currentTime), host)
  }

  /** What Randward's `plan` does to the machine, in order. */
  function RandwardPlanEffects(currentTime: string, problem: string, actionDescriptions: string,
                               domainDescriptions: string, host: Host): seq<Effect>
  {
    var path := RandwardWorkspace(currentTime);
    [System(FIND_SCRIPT)]
      + (if host.system(FIND_SCRIPT) != 0 then []
         else WorkspaceEffects(path, host) + PreparedWrites(path, problem, actionDescriptions, domainDescriptions)
              + RandwardEffects(path, host))
  }

  class RandwardPlanner {
    var tempDir: string
    var domainFilename: string
    var problemFilename: string
    var resultFilename: string

    constructor ()
      ensures tempDir == "" && domainFilename == "" && problemFilename == "" && resultFilename == ""
    {
      tempDir := "";
      domainFilename := "";
      problemFilename := "";
      resultFilename := "";
    }

    /** `plan`: look up the script, make the workspace, prepare it and run the planner. */
    method Plan(problem: string, actionDescriptions: string, domainDescriptions: string, currentTime: string, host: Host)
      returns (r: Result<PlanCandidates, Error>, effects: seq<Effect>)
      modifies this
      ensures r == RandwardPlanOutcome(currentTime, host)
      ensures effects == RandwardPlanEffects(currentTime, problem, actionDescriptions, domainDescriptions, host)
      ensures host.system(FIND_SCRIPT) != 0 ==> unchanged(this)
      ensures host.system(FIND_SCRIPT) == 0 ==>
        tempDir == RandwardWorkspace(currentTime)
        && domainFilename == PathIn(tempDir, DOMAIN_FILE_BASENAME)
        && problemFilename == PathIn(tempDir, PROBLEM_FILE_BASENAME)
        && resultFilename == PathIn(tempDir, RESULT_FILE_BASENAME)
    {
      effects := [System(FIND_SCRIPT)];
      if host.system(FIND_SCRIPT) != 0 {
        return Failure(PlanGenerationException("Could not find 'randward-planner' script")), effects;
      }
      var path := TEMP_DIR_BASENAME + "/" + currentTime + "_randward";
      if !host.pathExists(path) {
        effects := effects + [CreateDirectory(path)];
      }
      tempDir := path;
      var writes := Prepare(problem, actionDescriptions, domainDescriptions);
      var runs;
      r, runs := GeneratePlanCandidates(host);
      effects := effects + writes + runs;
    }

    /** `prepare`: set the three paths inside the workspace and write the domain and problem files. */
    method Prepare(problem: string, actionDescriptions: string, domainDescriptions: string) returns (effects: seq<Effect>)
      modifies this
      ensures tempDir == old(tempDir)
      ensures domainFilename == PathIn(tempDir, DOMAIN_FILE_BASENAME)
      ensures problemFilename == PathIn(tempDir, PROBLEM_FILE_BASENAME)
      ensures resultFilename == PathIn(tempDir, RESULT_FILE_BASENAME)
      ensures effects == PreparedWrites(tempDir, problem, actionDescriptions, domainDescriptions)
    {
      domainFilename := tempDir + "/" + DOMAIN_FILE_BASENAME;
      effects := [WriteFile(domainFilename, domainDescriptions + "\n" + actionDescriptions)];
      problemFilename := tempDir + "/" + PROBLEM_FILE_BASENAME;
      effects := effects + [WriteFile(problemFilename, problem + "\n")];
      resultFilename := tempDir + "/" + RESULT_FILE_BASENAME;
    }

    /** `cleanup`: remove the workspace and the files the script leaves in the working directory. */
    method Cleanup() returns (effects: seq<Effect>)
      ensures effects == CleanupEffects(tempDir)
    {
      effects := [RemoveAll(tempDir)];
      effects := effects + [Remove("output")];
      effects := effects + [Remove("output.sas")];
      effects := effects + [Remove("all.groups")];
      effects := effects + [Remove("test.groups")];
    }

    /**
     * `generatePlanCandidates`: run the script on the prepared files; a
     * non-zero exit status is only reported, and the result files are
     * harvested in any case.
     */
    method GeneratePlanCandidates(host: Host) returns (r: Result<PlanCandidates, Error>, effects: seq<Effect>)
      requires domainFilename == PathIn(tempDir, DOMAIN_FILE_BASENAME)
      requires problemFilename == PathIn(tempDir, PROBLEM_FILE_BASENAME)
      requires resultFilename == PathIn(tempDir, RESULT_FILE_BASENAME)
      ensures r == RandwardOutcome(tempDir, host)
      ensures effects == RandwardEffects(tempDir, host)
    {
      var cmd := "randward-planner " + domainFilename + " " + problemFilename + " " + resultFilename;
      effects := [System(cmd)];
      var result := host.system(cmd);
      if !host.isDirectory(tempDir) {
        return Failure(PlanGenerationException("Temporary directory: '" + tempDir + "' does not exist")), effects;
      }
      var planCandidates := Harvest(RANDWARD_READER_NAME, host.listing(tempDir), resultFilename, host.files);
      var removals := Cleanup();
      effects := effects + removals;
      return Success(planCandidates), effects;
    }
  }

  /** A missing script makes `plan` throw before any workspace exists. */
  lemma RandwardMissingScript(currentTime: string, problem: string, actionDescriptions: string,
                              domainDescriptions: string, host: Host)
    requires host.system(FIND_SCRIPT) != 0
    ensures RandwardPlanOutcome(currentTime, host) == Failure(PlanGenerationException("Could not find 'randward-planner' script"))
    ensures RandwardPlanEffects(currentTime, problem, actionDescriptions, domainDescriptions, host) == [System(FIND_SCRIPT)]
  {
  }

  /**
   * The exit status of the script does not matter: two machines that differ
   * only in what system() returns give the same candidates, and these are
   * the readable result files of the workspace /tmp/<time>_randward.
   */
  lemma ExitStatusIgnored(tempDir: string, host: Host, system: string -> int)
    ensures RandwardOutcome(tempDir, host) == RandwardOutcome(tempDir, host.(system := system))
    ensures host.isDirectory(tempDir) ==>
      RandwardOutcome(tempDir, host).value.plans
      == Harvested(RANDWARD_READER_NAME, host.listing(tempDir), PathIn(tempDir, RESULT_FILE_BASENAME), host.files)
  {
  }

  /**
   * Unlike AbstractPlanner, Randward harvests after a failing script: with the
   * same workspace the AbstractPlanner run yields nothing while Randward
   * yields its result files.
   */
  lemma HarvestsWhereAbstractPlannerDoesNot(lowerCaseName: string, tempDir: string, host: Host)
    requires host.system(PlannerCommand(lowerCaseName, tempDir)) != 0 && host.system(RandwardCommand(tempDir)) != 0
    requires host.isDirectory(tempDir)
    ensures ScriptOutcome(lowerCaseName, tempDir, host) == Success(PlanCandidates([]))
    ensures RandwardOutcome(tempDir, host).Success?
    ensures RandwardOutcome(tempDir, host).value.plans
            == Harvested(RANDWARD_READER_NAME, host.listing(tempDir), PathIn(tempDir, RESULT_FILE_BASENAME), host.files)
  {
  }

  /** A missing workspace throws and leaves the cleanup out; otherwise the cleanup runs last. */
  lemma MissingWorkspaceSkipsCleanup(tempDir: string, host: Host)
    ensures !host.isDirectory(tempDir) ==> RandwardEffects(tempDir, host) == [System(RandwardCommand(tempDir))]
    ensures host.isDirectory(tempDir) ==>
      var e := RandwardEffects(tempDir, host);
      e[|e| - 5..] == CleanupEffects(tempDir) && (forall k :: 0 <= k < |e| ==> e[k] != Cleanup(tempDir))
  {
  }
}
