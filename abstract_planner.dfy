/**
 * AbstractPlanner: the base of the planners that ship a `<name>-planner`
 * script. `plan` checks that the script is installed, makes a workspace
 * under /tmp named after the current time and the planner, writes the domain
 * and problem files there, runs the script and harvests the result files,
 * but only when the script exited with status 0. The current time is a
 * parameter; the machine is a Host and the I/O a trace of Effects.
 */
module AbstractPlanners {
  import opened Wrappers
  import opened StdString
  import opened PlannerTypes
  import opened PlanReader
  import opened PlannerInterface

  const RESULT_FILE_BASENAME: string := "plan"
  /** The name at the head of this reader's "could not open" message. */
  const READER_NAME: string := "AbstractPlanner"

  /** The command that looks the planner's script up. */
  function FindBinary(lowerCaseName: string): string
  {
    "which " + lowerCaseName + "-planner"
  }

  function MissingBinaryMessage(lowerCaseName: string): string
  {
    "Could not find '" + lowerCaseName + "-planner' binary"
  }

  /** The workspace of one run: /tmp, the current time, an underscore and the planner's name. */
  function WorkspacePath(currentTime: string, lowerCaseName: string): string
  {
    TEMP_DIR_BASENAME + "/" + currentTime + "_" + lowerCaseName
  }

  /** The directory is created only when the path does not exist yet. */
  function WorkspaceEffects(path: string, host: Host): seq<Effect>
  {
    if host.pathExists(path) then [] else [CreateDirectory(path)]
  }

  /** The command line of the planner script: domain, problem and result file. */
  function PlannerCommand(lowerCaseName: string, tempDir: string): string
  {
    lowerCaseName + "-planner " + PathIn(tempDir, DOMAIN_FILE_BASENAME) + " "
      + PathIn(tempDir, PROBLEM_FILE_BASENAME) + " " + PathIn(tempDir, RESULT_FILE_BASENAME)
  }

  /** What `generatePlanCandidates` returns. */
  function ScriptOutcome(lowerCaseName: string, tempDir: string, host: Host): Result<PlanCandidates, Error>
  {
    if host.system(PlannerCommand(lowerCaseName, tempDir)) != 0 then Success(PlanCandidates([]))
    else if !host.isDirectory(tempDir) then Failure(PlanGenerationException(MissingDirectoryMessage(tempDir)))
    else Success(PlanCandidates(Harvested(READER_NAME, host.listing(tempDir), PathIn(tempDir, RESULT_FILE_BASENAME), host.files)))
  }

  /** What `generatePlanCandidates` does: run the script, then clean up unless it threw. */
  function ScriptEffects(lowerCaseName: string, tempDir: string, host: Host): seq<Effect>
  {
    var cmd := PlannerCommand(lowerCaseName, tempDir);
    [System(cmd)] + (if host.system(cmd) == 0 && !host.isDirectory(tempDir) then [] else [Cleanup(tempDir)])
  }

  /** What `plan` returns. */
  function PlanOutcome(name: string, currentTime: string, host: Host): Result<PlanCandidates, Error>
  {
    var lower := ToLower(name);
    if host.system(FindBinary(lower)) != 0 then Failure(PlanGenerationException(MissingBinaryMessage(lower)))
    else ScriptOutcome(lower, WorkspacePath(currentTime, lower), host)
  }

  /** What `plan` does to the machine, in order. */
  function PlanEffects(name: string, currentTime: string, problem: string, actionDescriptions: string,
                       domainDescriptions: string, host: Host): seq<Effect>
  {
    var lower := ToLower(name);
    var path := WorkspacePath(currentTime, lower);
    [System(FindBinary(lower))]
      + (if host.system(FindBinary(lower)) != 0 then []
         else WorkspaceEffects(path, host) + PreparedWrites(path, problem, actionDescriptions, domainDescriptions)
              + ScriptEffects(lower, path, host))
  }

  class AbstractPlanner {
    /** `getName()` of the concrete planner. */
    const name: string
    var tempDir: string
    var domainFilename: string
    var problemFilename: string
    var resultFilename: string

    constructor (name: string)
      ensures this.name == name
      ensures tempDir == "" && domainFilename == "" && problemFilename == "" && resultFilename == ""
    {
      this.name := name;
      tempDir := "";
      domainFilename := "";
      problemFilename := "";
      resultFilename := "";
    }

    /** `plan`: look up the script, make the workspace, prepare it and run the planner. */
    method Plan(problem: string, actionDescriptions: string, domainDescriptions: string, currentTime: string, host: Host)
      returns (r: Result<PlanCandidates, Error>, effects: seq<Effect>)
      modifies this
      ensures r == PlanOutcome(name, currentTime, host)
      ensures effects == PlanEffects(name, currentTime, problem, actionDescriptions, domainDescriptions, host)
      ensures host.system(FindBinary(ToLower(name))) != 0 ==> unchanged(this)
      ensures host.system(FindBinary(ToLower(name))) == 0 ==>
        tempDir == WorkspacePath(currentTime, ToLower(name))
        && domainFilename == PathIn(tempDir, DOMAIN_FILE_BASENAME)
        && problemFilename == PathIn(tempDir, PROBLEM_FILE_BASENAME)
        && resultFilename == PathIn(tempDir, RESULT_FILE_BASENAME)
    {
      var lowerCaseName := ToLower(name);
      var syscallStr := "which " + lowerCaseName + "-planner";
      effects := [System(syscallStr)];
      if host.system(syscallStr) != 0 {
        return Failure(PlanGenerationException("Could not find '" + lowerCaseName + "-planner' binary")), effects;
      }
      var path := TEMP_DIR_BASENAME + "/" + currentTime + "_" + lowerCaseName;
      if !host.pathExists(path) {
        effects := effects + [CreateDirectory(path)];
      }
      tempDir := path;
      var writes := Prepare(problem, actionDescriptions, domainDescriptions);
      var runs;
      r, runs := GeneratePlanCandidates(host);
      effects := effects + writes + runs;
    }

    /** `prepare`: set the three paths inside the workspace and write the domain and problem files. */
    method Prepare(problem: string, actionDescriptions: string, domainDescriptions: string) returns (effects: seq<Effect>)
      modifies this
      ensures tempDir == old(tempDir)
      ensures domainFilename == PathIn(tempDir, DOMAIN_FILE_BASENAME)
      ensures problemFilename == PathIn(tempDir, PROBLEM_FILE_BASENAME)
      ensures resultFilename == PathIn(tempDir, RESULT_FILE_BASENAME)
      ensures effects == PreparedWrites(tempDir, problem, actionDescriptions, domainDescriptions)
    {
      domainFilename := tempDir + "/" + DOMAIN_FILE_BASENAME;
      effects := [WriteFile(domainFilename, domainDescriptions + "\n" + actionDescriptions)];
      problemFilename := tempDir + "/" + PROBLEM_FILE_BASENAME;
      effects := effects + [WriteFile(problemFilename, problem + "\n")];
      resultFilename := tempDir + "/" + RESULT_FILE_BASENAME;
    }

    /**
     * `generatePlanCandidates`: run the script on the prepared files; only a
     * zero exit status lets the result files be harvested.
     */
    method GeneratePlanCandidates(host: Host) returns (r: Result<PlanCandidates, Error>, effects: seq<Effect>)
      requires domainFilename == PathIn(tempDir, DOMAIN_FILE_BASENAME)
      requires problemFilename == PathIn(tempDir, PROBLEM_FILE_BASENAME)
      requires resultFilename == PathIn(tempDir, RESULT_FILE_BASENAME)
      ensures r == ScriptOutcome(ToLower(name), tempDir, host)
      ensures effects == ScriptEffects(ToLower(name), tempDir, host)
    {
      var lowerCaseName := ToLower(name);
      var cmd := lowerCaseName + "-planner " + domainFilename + " " + problemFilename + " " + resultFilename;
      assert cmd == PlannerCommand(lowerCaseName, tempDir);
      effects := [System(cmd)];
      var result := host.system(cmd);
      var planCandidates := PlanCandidates([]);
      if result == 0 {
        if !host.isDirectory(tempDir) {
          return Failure(PlanGenerationException("Temporary directory: '" + tempDir + "' does not exist")), effects;
        }
        planCandidates := Harvest(READER_NAME, host.listing(tempDir), resultFilename, host.files);
      }
      effects := effects + [Cleanup(tempDir)];
      return Success(planCandidates), effects;
    }
  }

  /**
   * A missing script makes `plan` throw before any workspace exists: the
   * lookup is the only thing it does.
   */
  lemma MissingBinary(name: string, currentTime: string, problem: string, actionDescriptions: string,
                      domainDescriptions: string, host: Host)
    requires host.system("which " + ToLower(name) + "-planner") != 0
    ensures PlanOutcome(name, currentTime, host) == Failure(PlanGenerationException("Could not find '" + ToLower(name) + "-planner' binary"))
    ensures PlanEffects(name, currentTime, problem, actionDescriptions, domainDescriptions, host) == [System("which " + ToLower(name) + "-planner")]
  {
  }

  /**
   * When the script is found, everything `plan` writes lies in the workspace
   * /tmp/<time>_<lower-case name>, the planner is run on exactly the files
   * written, and the workspace is cleaned up unless it turned out missing.
   */
  lemma {:induction false} WorkspaceRun(name: string, currentTime: string, problem: string, actionDescriptions: string,
                                        domainDescriptions: string, host: Host)
    requires host.system(FindBinary(ToLower(name))) == 0
    ensures var lower := ToLower(name);
      var path := WorkspacePath(currentTime, lower);
      var e := PlanEffects(name, currentTime, problem, actionDescriptions, domainDescriptions, host);
      var w := |WorkspaceEffects(path, host)|;
      StartsWith(path, "/tmp/") && NoUpper(path[|path| - |lower|..])
      && e[1 + w].path == PathIn(path, DOMAIN_FILE_BASENAME) && e[2 + w].path == PathIn(path, PROBLEM_FILE_BASENAME)
      && e[3 + w] == System(lower + "-planner " + e[1 + w].path + " " + e[2 + w].path + " " + PathIn(path, RESULT_FILE_BASENAME))
      && (Cleanup(path) in e <==> !(host.system(e[3 + w].command) == 0 && !host.isDirectory(path)))
  {
    var lower := ToLower(name);
    var path := WorkspacePath(currentTime, lower);
    assert path[..5] == "/tmp/";
    assert path[|path| - |lower|..] == lower;
  }

  /**
   * A script that exits with a non-zero status yields no candidates and no
   * error, whatever the workspace holds; the workspace is still cleaned up.
   */
  lemma NonZeroExitHarvestsNothing(lowerCaseName: string, tempDir: string, host: Host)
    requires host.system(PlannerCommand(lowerCaseName, tempDir)) != 0
    ensures ScriptOutcome(lowerCaseName, tempDir, host) == Success(PlanCandidates([]))
    ensures ScriptEffects(lowerCaseName, tempDir, host) == [System(PlannerCommand(lowerCaseName, tempDir)), Cleanup(tempDir)]
  {
  }

  /**
   * After a zero exit status the candidates are the readable result files of
   * the workspace in listing order; a missing workspace throws and skips the
   * cleanup.
   */
  lemma ZeroExitHarvests(lowerCaseName: string, tempDir: string, host: Host)
    requires host.system(PlannerCommand(lowerCaseName, tempDir)) == 0
    ensures host.isDirectory(tempDir) ==>
      ScriptOutcome(lowerCaseName, tempDir, host).Success?
      && ScriptOutcome(lowerCaseName, tempDir, host).value.plans
         == Harvested(READER_NAME, host.listing(tempDir), PathIn(tempDir, RESULT_FILE_BASENAME), host.files)
    ensures !host.isDirectory(tempDir) ==>
      ScriptOutcome(lowerCaseName, tempDir, host) == Failure(PlanGenerationException("Temporary directory: '" + tempDir + "' does not exist"))
      && Cleanup(tempDir) !in ScriptEffects(lowerCaseName, tempDir, host)
  {
  }
}
