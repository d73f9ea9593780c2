# pddl_planner in Dafny

A model of the sequential core of the `pddl_planner` library and its
command-line front end. The library builds PDDL domains and problems,
serialises them to LISP text and hands them to external planners. Each
planner runs in a temporary workspace, and the library reads the result
files back into plan candidates.

The model covers these parts:

- **The plan types.** `Action`, `Plan` and `PlanCandidates`, with their
  append-only builders and their `toString` loops (`plan_types.dfy`).
- **The result-file reader and the harvest.**
  - `readPlan` reads a file with `fgets` into a 2048-byte buffer and turns
    each chunk into an action. It uses `find_first_of`, `find_last_of` and
    the clamping `substr`, with size_t arithmetic modelled explicitly.
  - The harvest loop filters the workspace listing and keeps the plans of
    the readable result files (`plan_reader.dfy`, `std_string.dfy`).
- **The planner base class.** It writes the domain and problem files,
  decides when and how to kill a planner that overran its timeout, and
  collects the candidates (`planner_interface.dfy`).
- **Two concrete planner classes.**
  - `AbstractPlanner` harvests only after exit status 0
    (`abstract_planner.dfy`).
  - `Randward` harvests whatever the exit status (`randward.dfy`).
- **The single-planner front end** `PDDLPlanner`, with its description
  maps (`pddl_planner.dfy`).
- **The PDDL representation.**
  - The `Expression`, `TypedItem`, `Predicate`, `Arity`, `ArityValidator`
    and `Action` values of `Domain.hpp` (`representation.dfy`).
  - The `Domain` class with its add, remove and lookup operations and its
    serialiser (`domain.dfy`).
  - The `Problem` class (`problem.dfy`).
- **The planner registry** `Planning`. It holds the built-in planner table,
  registration and lookup, the description maps and the sequential
  multi-planner run (`planning.dfy`, `ordered_map.dfy`).
- **The argument parser** of the planner binary's `main`
  (`command_line.dfy`).
- **The LISP expression grammar**, as recursive-descent recognisers with
  ordered choice and greedy repetition (`lisp_grammar.dfy`). The main
  results are:
  - round-trip lemmas: `toLISP` output parses back to the same expression;
  - the two parse examples of the grammar test.

Some source behaviour needs modelling choices:

- The `std::map` members are association lists kept in strictly ascending
  key order (`OrderedMap`), so iteration order is explicit.
- A `std::set<std::string>` of planner names is a strictly ascending
  sequence.
- Whatever touches the machine is an input of the `Host` value. This covers
  `system()` return codes, which paths exist or are directories, directory
  listings and file contents.
- Whatever the library does to the machine is returned as a trace of
  `Effect`s: commands run, directories created, files written or removed.
- The current time and whether the planner thread joined before its
  timeout are parameters.
- A C++ `char` is one Dafny `char`: a file's contents are the sequence of
  its bytes, one character per byte, so the 2048-byte `fgets` buffer holds
  2047 characters and `std::string` lengths count bytes.

## Model

| member | source | states |
|---|---|---|
| StdString.SizeAdd | src/PDDLPlannerInterface.cpp:175 | size_t addition stays within size_t: the sum is reduced modulo 2^64 |
| StdString.SizeSub | src/PDDLPlannerInterface.cpp:175 | size_t subtraction wraps around below zero and stays within size_t |
| StdString.NposWrapsAround | src/PDDLPlannerInterface.cpp:173-175 | `npos + 1 == 0` and `0 - 1 == npos`, which `substr(pos + 1, endpos - 1)` relies on when a parenthesis is missing |
| StdString.FindFirstOf | src/PDDLPlannerInterface.cpp:173 | `find_first_of(c)` is npos when c is absent; otherwise it is a position holding c with no c before it |
| StdString.FindLastOf | src/PDDLPlannerInterface.cpp:174 | `find_last_of(c)` is npos when c is absent; otherwise it is a position holding c with no c after it |
| StdString.Substr | src/PDDLPlannerInterface.cpp:175 | `substr(pos, count)` has length min(count, size - pos) and holds the characters from pos on |
| StdString.CString | src/PDDLPlannerInterface.cpp:170 | `std::string(buffer)` is the buffer up to its first NUL, and holds no NUL |
| StdString.TrimLeft | src/PDDLPlannerTypes.cpp:23 | the result is a suffix of the input, only whitespace was removed, and it does not start with whitespace |
| StdString.TrimRight | src/PDDLPlannerTypes.cpp:23 | the result is a prefix of the input, only whitespace was removed, and it does not end with whitespace |
| StdString.Trim | src/PDDLPlannerTypes.cpp:23 | `trim` never lengthens its input, leaves no whitespace at either end, and turns all-whitespace input into `""` |
| StdString.TrimUnchanged | src/PDDLPlannerTypes.cpp:23 | `trim` leaves alone a string that neither starts nor ends with whitespace |
| StdString.FindFirstPrefix | src/PDDLPlannerInterface.cpp:139 | `find_first` matches a path that starts with the non-empty pattern |
| StdString.ToLower | src/planners/AbstractPlanner.cpp:26 | `to_lower_copy` keeps the length, lowers each ASCII capital, and leaves no capital |
| StdString.NatToString | src/PDDLPlannerTypes.cpp:58 | `ss << index` writes a non-empty string of decimal digits |
| StdString.NatToStringValue | src/PDDLPlannerTypes.cpp:58 | the digits written for n read back as n |
| StdString.DigitPrefix | src/Main.cpp:132 | the digits `atoi` reads: the longest prefix of decimal digits |
| StdString.Atoi | src/Main.cpp:132 | `atoi` gives a negative value only after a minus sign, and 0 when no sign or digit follows the leading whitespace |
| StdString.AtoiReadsNatToString | src/Main.cpp:132 | the decimal text of n reads back as n, and with a minus sign as -n |
| StdString.LessTransitive | src/Planning.cpp:91-101 | std::string `<`, which orders a std::map's keys, is transitive (with LessIrreflexive, LessTotal and LessAsymmetric it is a strict total order) |
| StdString.Less | src/Planning.cpp:91-101 | std::string `<`: lexicographic by character code, a proper prefix before its extensions |
| OrderedMap.Get | src/Planning.cpp:81-89 | `find` succeeds exactly when an entry carries the key, and returns that entry's value |
| OrderedMap.Keys | src/Planning.cpp:91-101 | the keys in iteration order, one per entry |
| OrderedMap.Values | src/Planning.cpp:91-101 | the values in iteration order, one per entry |
| OrderedMap.Put | src/Planning.cpp:105 | `m[k] = v` keeps keys ascending, maps k to v, leaves every other key alone, and grows the map only for a new key |
| OrderedMap.Canonical | src/Planning.cpp:22-35 | two ascending maps that agree on every lookup are equal |
| OrderedMap.PutCommutes | src/Planning.cpp:103-111 | writes to two different keys commute |
| OrderedMap.PutOverwrites | src/Planning.cpp:103-111 | a second write to a key replaces the first |
| OrderedMap.PutAll | src/Planning.cpp:22-35 | writing a list of entries one by one keeps the keys ascending |
| OrderedMap.PutAllGet | src/Planning.cpp:22-35 | after a list of writes, a key holds its last written value, or its old value when the list does not write it |
| OrderedMap.PutAllAppend | src/Planning.cpp:22-35 | writing two lists in turn is writing their concatenation |
| OrderedMap.LastWriteAppend | src/Planning.cpp:22-35 | a key's last write in a concatenation comes from the second part when that part writes it |
| PlannerTypes.NewAction | src/PDDLPlannerTypes.cpp:6-8 | `Action(name)` has that name and no arguments |
| PlannerTypes.DefaultAction | src/PDDLPlannerTypes.cpp:6-8 | a default action has an empty name and no arguments |
| PlannerTypes.AddArgument | src/PDDLPlannerTypes.cpp:10-13 | one argument is appended at the end; the name and the earlier arguments are unchanged |
| PlannerTypes.AddAction | src/PDDLPlannerTypes.cpp:27-30 | one action is appended at the end; the earlier actions are unchanged |
| PlannerTypes.AddPlan | src/PDDLPlannerTypes.cpp:45-48 | one plan is appended at the end; the earlier plans are unchanged |
| PlannerTypes.ActionToString | src/PDDLPlannerTypes.cpp:15-25 | the loop computes the trimmed text of the name followed by `" " + arg` per argument |
| PlannerTypes.PlanToString | src/PDDLPlannerTypes.cpp:32-42 | the loop computes the trimmed concatenation of `"[" + action + "]"` |
| PlannerTypes.CandidatesToString | src/PDDLPlannerTypes.cpp:50-63 | the loop computes one `index \t plan \n` line per plan, indices counting from 0 |
| PlannerTypes.ActionTextOfWords | src/PDDLPlannerTypes.cpp:15-25 | for a non-empty, whitespace-free name and arguments, the trim changes nothing: the text is the space-join |
| PlannerTypes.BracketedShape | src/PDDLPlannerTypes.cpp:32-42 | a non-empty plan's text starts with `[` and ends with `]` |
| PlannerTypes.PlanTextIsBracketed | src/PDDLPlannerTypes.cpp:32-42 | the trim never changes a plan's text, and the empty plan gives `""` |
| PlannerTypes.PlanTextAddAction | src/PDDLPlannerTypes.cpp:27-42 | appending an action appends its bracketed text |
| PlannerTypes.CandidatesTextAddPlan | src/PDDLPlannerTypes.cpp:45-63 | appending a plan appends one line numbered with the old plan count |
| PlannerTypes.CandidatesLineCount | src/PDDLPlannerTypes.cpp:50-63 | with plans that print no newline, the text has exactly one line per plan |
| PlanReader.ChunkLength | src/PDDLPlannerInterface.cpp:166-168 | one `fgets` reads at least 1 and at most 2047 characters, with no newline before its last, and stops at a newline, at the buffer limit or at the end of the file |
| PlanReader.Chunks | src/PDDLPlannerInterface.cpp:166-168 | every chunk is non-empty and fits the buffer |
| PlanReader.ChunksCoverContent | src/PDDLPlannerInterface.cpp:166-168 | the chunks, concatenated, are the whole file |
| PlanReader.Extracted | src/PDDLPlannerInterface.cpp:173-175 | the cut-out text is no longer than the line |
| PlanReader.SplitSpaces | src/PDDLPlannerInterface.cpp:178-203 | splitting on single spaces yields at least one token, none holding a space |
| PlanReader.OpenFailureMessage | src/PDDLPlannerInterface.cpp:160-161 | the `snprintf` message fits its 512-byte buffer |
| PlanReader.ReadResult | src/PDDLPlannerInterface.cpp:154-208 | `readPlan` fails exactly when the file cannot be opened, and then with a PlanGenerationException |
| PlanReader.ParseChunk | src/PDDLPlannerInterface.cpp:170-204 | the steps on one `fgets` chunk compute that line's action |
| PlanReader.SplitAction | src/PDDLPlannerInterface.cpp:178-204 | the split loop computes the action whose name and arguments are the space-separated tokens |
| PlanReader.SplitArguments | src/PDDLPlannerInterface.cpp:190-203 | the argument loop appends the remaining tokens in order |
| PlanReader.TokensWithoutSpace | src/PDDLPlannerInterface.cpp:180-185 | text without a space is an action name with no arguments |
| PlanReader.TokensOfAction | src/PDDLPlannerInterface.cpp:178-204 | the action is determined by its tokens |
| PlanReader.ReadPlan | src/PDDLPlannerInterface.cpp:154-208 | the `fgets` loop computes one action per chunk, in file order, or the open failure (the same in AbstractPlanner.cpp and Randward.cpp) |
| PlanReader.OneActionPerChunk | src/PDDLPlannerInterface.cpp:166-205 | exactly one action comes from each chunk, in order, parsed from that chunk |
| PlanReader.EmptyFileIsEmptyPlan | src/PDDLPlannerInterface.cpp:166-207 | an empty file gives the empty plan, without error |
| PlanReader.ExtractedFromColumnZero | src/PDDLPlannerInterface.cpp:173-175 | for a line starting with `(`, the cut is the text between it and the last `)` |
| PlanReader.NoopLine | src/PDDLPlannerInterface.cpp:173-185 | `(noop)\n` gives the action `noop` with no arguments; the newline is cut off |
| PlanReader.SplitFourWords | src/PDDLPlannerInterface.cpp:187-203 | four space-separated words split into those words, in order |
| PlanReader.MoveLine | src/PDDLPlannerInterface.cpp:187-204 | `(move a b c)\n` gives `move` with the arguments `a`, `b`, `c` in order |
| PlanReader.LineWithoutParentheses | src/PDDLPlannerInterface.cpp:173-185 | a line with no parenthesis and no space is itself an action name: npos + 1 is 0, and the count npos - 1 keeps the whole line |
| PlanReader.IndentedLineKeepsTail | src/PDDLPlannerInterface.cpp:175 | in `  (noop)\n` the count `endpos - 1` is taken from the cut position, so `)` and the newline stay in the name |
| PlanReader.SplitJoined | src/PDDLPlannerInterface.cpp:178-203 | split is the inverse of the space-join for space-free tokens |
| PlanReader.ParseActionText | src/PDDLPlannerTypes.cpp:15-25 | `"(" + a.toString() + ")"` with any tail free of `)` is read back as a, for non-empty, whitespace-free tokens |
| PlanReader.ParseJoinedLine | src/PDDLPlannerInterface.cpp:166-204 | a line `(name a1 … aN)` of space-free tokens, shorter than the buffer, parses to that action |
| PlanReader.ReadPlanFile | src/PDDLPlannerInterface.cpp:154-208 | round trip: a file of one `(a.toString())` line per action, each line fitting the buffer, reads back as exactly those actions |
| PlanReader.ReadPlanLine | src/PDDLPlannerInterface.cpp:166-205 | one written line, then the rest of the file: the line's action comes first |
| PlanReader.LineOfAction | src/PDDLPlannerInterface.cpp:170-204 | a written line is non-empty, holds no NUL and parses back to its action |
| PlanReader.Harvested | src/PDDLPlannerInterface.cpp:135-150 | the harvest keeps at most one plan per directory entry |
| PlanReader.Harvest | src/PDDLPlannerInterface.cpp:124-150 | the directory loop appends, in enumeration order, the plan of every entry that contains the result name and can be read |
| PlanReader.HarvestedSplit | src/PDDLPlannerInterface.cpp:135-150 | harvesting a concatenated listing is harvesting each part in turn |
| PlanReader.HarvestedEmptyName | src/PDDLPlannerInterface.cpp:139 | with an empty result name nothing is harvested: `find_first` with an empty needle finds an empty range, which converts to false |
| PlanReader.HarvestedAllReadable | src/PDDLPlannerInterface.cpp:135-150 | when every entry matches and is readable, there is one plan per entry, in order, each the file's plan |
| PlanReader.ReadableContribution | src/PDDLPlannerInterface.cpp:139-144 | a matching, readable entry contributes exactly its plan |
| PlanReader.SkippedEntry | src/PDDLPlannerInterface.cpp:139-148 | a non-matching or unreadable entry contributes nothing, and the failure is not raised |
| PlannerInterface.PreparedFiles | src/PDDLPlannerInterface.cpp:65-84 | the domain file holds `domainDescriptions + "\n" + actionDescriptions` and the problem file `problem + "\n"`; both are distinct files directly in the workspace |
| PlannerInterface.FirstFailure | src/PDDLPlannerInterface.cpp:106-113 | the first pattern whose kill returns -1, or the pattern count; every pattern before it was killed |
| PlannerInterface.FirstFailureFound | src/PDDLPlannerInterface.cpp:106-113 | some pattern kill fails exactly when the first failure lies inside the list |
| PlannerInterface.PatternKillEffects | src/PDDLPlannerInterface.cpp:108-109 | one `pkill` command per pattern, in list order |
| PlannerInterface.KillPlanner | src/PDDLPlannerInterface.cpp:96-115 | the kill loop kills the command line first, then the patterns up to the first failure; it reports failure exactly when a kill returned -1 |
| PlannerInterface.GenerateFailure | src/PDDLPlannerInterface.cpp:86-152 | `generateCandidates` throws exactly when an overrun planner could not be killed or the workspace is no directory; otherwise it returns the harvest |
| PlannerInterface.KillOrder | src/PDDLPlannerInterface.cpp:92-122 | a planner that joined in time is not killed; otherwise the command kill comes first, then the pattern kills in order, stopping after the first -1 |
| PlannerInterface.PDDLPlannerInterface.constructor | src/PDDLPlannerInterface.cpp:21-23 | a planner with its name, result basename and workspace, and no file paths yet |
| PlannerInterface.PDDLPlannerInterface.Prepare | src/PDDLPlannerInterface.cpp:65-84 | the three paths become `tempDir + "/" + basename`, and the two files are written, domain file first |
| PlannerInterface.PDDLPlannerInterface.GenerateCandidates | src/PDDLPlannerInterface.cpp:86-152 | the result and the commands run are those of GenerateOutcome and GenerateEffects |
| PlannerInterface.Removals | src/PDDLPlannerInterface.cpp:31-42 | one removal per file, in order |
| PlannerInterface.CleanupFiles | src/PDDLPlannerInterface.cpp:31-46 | `cleanup` removes each file in turn, then the directory with its contents |
| AbstractPlanners.AbstractPlanner.constructor | src/planners/AbstractPlanner.cpp:22 | a planner with its name and no workspace or file paths yet |
| AbstractPlanners.AbstractPlanner.Plan | src/planners/AbstractPlanner.cpp:22-52 | `plan` looks for `lowercase(name)-planner` first; it creates the workspace, prepares the files and runs the planner only when the binary is found |
| AbstractPlanners.AbstractPlanner.Prepare | src/planners/AbstractPlanner.cpp:54-73 | the three paths lie under the workspace, and the domain and problem files are written with their separators |
| AbstractPlanners.AbstractPlanner.GeneratePlanCandidates | src/planners/AbstractPlanner.cpp:75-114 | runs `name-planner domain problem result`, harvests only after exit status 0, and cleans up unless it threw |
| AbstractPlanners.MissingBinary | src/planners/AbstractPlanner.cpp:26-35 | a failed `which` throws "Could not find '…-planner' binary", and nothing but the `which` runs |
| AbstractPlanners.WorkspaceRun | src/planners/AbstractPlanner.cpp:37-50 | a found binary gives the workspace `/tmp/<time>_<lowercase name>`, created only when it does not exist, then the files, then the planner run |
| AbstractPlanners.NonZeroExitHarvestsNothing | src/planners/AbstractPlanner.cpp:80-113 | a non-zero exit status gives empty candidates, and cleanup still runs |
| AbstractPlanners.ZeroExitHarvests | src/planners/AbstractPlanner.cpp:82-113 | exit status 0 harvests the workspace and cleans up; a missing workspace throws before cleanup |
| Randward.RandwardPlanner.constructor | src/planners/Randward.cpp:20 | a planner with no workspace or file paths yet |
| Randward.RandwardPlanner.Plan | src/planners/Randward.cpp:22-49 | `plan` looks for `randward-planner` first, then creates `/tmp/<time>_randward`, prepares and runs |
| Randward.RandwardPlanner.Prepare | src/planners/Randward.cpp:51-70 | the three paths lie under the workspace, and the two files are written |
| Randward.RandwardPlanner.Cleanup | src/planners/Randward.cpp:72-80 | removes the workspace, then the four stray files in the working directory |
| Randward.RandwardPlanner.GeneratePlanCandidates | src/planners/Randward.cpp:82-120 | runs the script, harvests whatever its exit status, and cleans up unless the workspace is missing |
| Randward.RandwardMissingScript | src/planners/Randward.cpp:26-32 | a failed `which` throws "Could not find 'randward-planner' script" before any workspace exists |
| Randward.ExitStatusIgnored | src/planners/Randward.cpp:85-117 | the outcome does not depend on what the planner returns |
| Randward.HarvestsWhereAbstractPlannerDoesNot | src/planners/Randward.cpp:85-117 | after a non-zero exit, AbstractPlanner returns no candidates while Randward succeeds with exactly the result files harvested from its workspace |
| Randward.MissingWorkspaceSkipsCleanup | src/planners/Randward.cpp:92-118 | a missing workspace throws without cleanup; otherwise cleanup comes last |
| PddlPlanners.PddlPlanner.constructor | src/PDDLPlanner.cpp:7-10 | the given planner (possibly none) and empty description maps |
| PddlPlanners.PddlPlanner.SetActionDescription | src/PDDLPlanner.cpp:12-15 | overwrites the entry for its key only |
| PddlPlanners.PddlPlanner.SetDomainDescription | src/PDDLPlanner.cpp:17-20 | overwrites the entry for its key only |
| PddlPlanners.PddlPlanner.GetActionDescriptions | src/PDDLPlanner.cpp:22-31 | the values, each followed by a newline, in ascending key order |
| PddlPlanners.PddlPlanner.GetDomainDescriptions | src/PDDLPlanner.cpp:33-42 | the values, each followed by a newline, in ascending key order |
| PddlPlanners.PddlPlanner.Plan | src/PDDLPlanner.cpp:44-52 | `plan` with no planner throws "No planner available"; otherwise it forwards the goal and both texts |
| PddlPlanners.PlanOutcome | src/PDDLPlanner.cpp:44-52 | the missing planner is a PlanGenerationException with the "No planner available" message |
| PddlPlanners.PlanForwards | src/PDDLPlanner.cpp:51 | the planner gets both concatenated texts unchanged, and the order the descriptions were set in does not matter |
| Representation.Kept | src/representation/Domain.hpp:56-74 | the kept items satisfy the test, and there are no more of them than items |
| Representation.KeptMembers | src/representation/Domain.hpp:56-74 | exactly the items passing the test survive |
| Representation.KeptAppend | src/representation/Domain.hpp:56-74 | filtering distributes over concatenation, so order is kept |
| Representation.DefinedArguments | src/representation/Domain.hpp:56-74 | the defined arguments among the three, in argument order |
| Representation.NewPredicate | src/representation/Domain.hpp:56-74 | the three-argument `Predicate` keeps its label and only the defined items, in order |
| Representation.Undefined | src/representation/Domain.hpp:36 | `TypedItem::undefined`: the label or the type is empty |
| Representation.Defined | src/representation/Domain.hpp:36 | the negation of `undefined`, the test the constructors use to keep an argument |
| Representation.OneArgumentPredicate | src/representation/Domain.hpp:56-74 | with one argument given, the predicate holds it when it is defined and nothing otherwise |
| Representation.NewArity | src/representation/Domain.hpp:89-97 | `Arity(min, max)` throws invalid_argument exactly when min > max; otherwise it holds both |
| Representation.ArityExact | src/representation/Domain.hpp:102 | `exact(n)` is `[n, n]` |
| Representation.ArityMin | src/representation/Domain.hpp:103 | `min(n)` is `[n, 255]` |
| Representation.ArityMax | src/representation/Domain.hpp:104 | `max(n)` is `[0, n]` |
| Representation.PredicateArity | src/representation/Domain.hpp:119 | a predicate's arity is exact in its argument count, truncated to uint8 |
| Representation.PredicateArities | src/representation/Domain.hpp:116-120 | one write per predicate, in list order |
| Representation.ValidatorMap | src/representation/Domain.hpp:114-123 | the validator's map has ascending keys |
| Representation.ArityValidator.constructor | src/representation/Domain.hpp:114-123 | the map holds the predicate writes followed by the defaults |
| Representation.ArityValidator.Assign | src/representation/Domain.hpp:119 | `arityMap[label] = arity` |
| Representation.ArityValidator.AddDefaults | src/representation/Domain.hpp:125-133 | the six operators get their default arity, written over any predicate of that name; every other key is unchanged |
| Representation.ArityValidator.Validate | src/representation/Domain.hpp:135-152 | the check computes ValidateOutcome on the current map; what it accepts and rejects is stated by UnknownLabelRejected, PredicateValidates and OperatorArities |
| Representation.DefaultArityWrites | src/representation/Domain.hpp:125-133 | the defaults table gives `and`, `or`, `forall` min 2, `not` exact 1, `=` exact 2, `when` min 1 |
| Representation.LastPredicateWrite | src/representation/Domain.hpp:116-120 | a predicate that no later predicate renames decides its label's arity |
| Representation.UnwrittenLabel | src/representation/Domain.hpp:116-120 | a label no predicate carries gets no write |
| Representation.ValidatorLookup | src/representation/Domain.hpp:114-133 | a lookup finds the default arity when there is one, else the last predicate's arity |
| Representation.PredicateValidates | src/representation/Domain.hpp:119-152 | a predicate that is no operator validates with its own argument count |
| Representation.OperatorArities | src/representation/Domain.hpp:127-152 | `and` passes exactly from two parameters on, `and` with 1 is too few, `not` with 2 too many, whatever the predicates |
| Representation.UnknownLabelRejected | src/representation/Domain.hpp:137-141 | a label that is neither a predicate nor an operator is rejected as unknown |
| Representation.ArityTruncates | src/representation/Domain.hpp:119 | a predicate with 256 arguments is registered with arity 0 |
| Representation.Atom | src/representation/Domain.hpp:166-168 | `Expression(label)` is atomic and has that label |
| Representation.IsAtomic | src/representation/Domain.hpp:230-232 | `isAtomic`: no parameters |
| Representation.IsNull | src/representation/Domain.hpp:230-232 | `isNull`: an empty label |
| Representation.AddParameter | src/representation/Domain.hpp:220-228 | appends one parameter and keeps the label |
| Representation.Atoms | src/representation/Domain.hpp:220-223 | one atom per label, in order |
| Representation.ExpressionOf | src/representation/Domain.hpp:182-199 | the label and the non-null sub-expressions, in argument order |
| Representation.ExpressionOfLabels | src/representation/Domain.hpp:201-218 | the label and atoms for the non-empty label arguments, in order |
| Representation.ExpressionToLisp | src/representation/Domain.cpp:20-34 | the loop computes the label of an atom, else `"(" + label + " p1 … pn" + ")"` recursively |
| Representation.ToLisp | src/representation/Domain.cpp:20-34 | the text of `toLISP`: a compound expression's text opens with `(` and closes with `)` |
| Representation.ParametersLisp | src/representation/Domain.cpp:27-33 | the parameters' text: when there is a parameter, it starts with the separating space |
| Representation.CopyExpression | src/representation/Domain.cpp:9-18 | the copy is equal to the original, so it prints the same |
| Representation.AddParameterLisp | src/representation/Domain.cpp:20-34 | adding a parameter to a compound expression inserts `" " + p` before its closing parenthesis |
| Representation.LispBalanced | src/representation/Domain.cpp:20-34 | with labels free of parentheses, the text has as many `(` as `)` |
| Representation.OneParameterText | src/representation/Domain.cpp:20-34 | a one-parameter expression prints as `(label p)` |
| Representation.TwoParametersText | src/representation/Domain.cpp:20-34 | a two-parameter expression prints as `(label p q)` |
| Representation.ThreeParametersText | src/representation/Domain.cpp:20-34 | a three-parameter expression prints as `(label p q r)` |
| Representation.TwoLabelText | src/representation/Domain.hpp:201-218 | `Expression(name, a, b)` prints as `(name a b)` |
| Representation.AndText | test/test_Planner.cpp:38-40 | `Expression("and","?a","?b")` prints as `(and ?a ?b)` |
| Representation.NotAndText | test/test_Planner.cpp:39-41 | `Expression("not", andExpr)` prints as `(not (and ?a ?b))` |
| Representation.NotOfOne | src/representation/Domain.hpp:182-199 | one non-null sub-expression gives exactly one parameter |
| Representation.ConjunctionText | test/test_Planner.cpp:152-158 | the `and` of three two-argument goals prints as the goal string of the test |
| Representation.NewAction | src/representation/Domain.hpp:250-267 | the three-argument `Action` keeps only the defined items, in order, and has no preconditions or effects |
| Representation.AddPrecondition | src/representation/Domain.hpp:269-272 | appends one precondition and changes nothing else |
| Representation.AddEffect | src/representation/Domain.hpp:273-276 | appends one effect and changes nothing else |
| Domains.WithoutLabel | src/representation/Domain.cpp:87-121 | the intended removal leaves no item with the label, and is no longer than the list |
| Domains.WithoutLabelMembers | src/representation/Domain.cpp:87-121 | exactly the items with another label survive |
| Domains.WithoutAbsentLabel | src/representation/Domain.cpp:87-121 | removing an absent label changes nothing |
| Domains.WithoutLabelUnique | src/representation/Domain.cpp:87-121 | removal keeps labels unique |
| Domains.WithoutAbsentDrop | src/representation/Domain.cpp:87-121 | for a label carried once, removal drops exactly that one item |
| Domains.AppendUnique | src/representation/Domain.cpp:56 | appending an item with a new label keeps labels unique |
| Domains.ReplaceUnique | src/representation/Domain.cpp:65-67 | removing a label and then appending an item carrying it leaves that item the only one |
| Domains.ContainsLabel | src/representation/Domain.cpp:128-139 | the `is*` scan finds exactly the labels some item carries |
| Domains.RemoveLabel | src/representation/Domain.cpp:87-97 | the intended `remove*` loop computes WithoutLabel |
| Domains.EraseLoop | src/representation/Domain.cpp:89-96 | the erase-while-iterating loop, where defined, never grows the list |
| Domains.RemoveAsWritten | src/representation/Domain.cpp:87-97 | `removeConstant` as written, undefined (None) when it steps past the end |
| Domains.RemoveLastIsUndefined | src/representation/Domain.cpp:89-96 | erasing the last item and then incrementing steps past the end, where the intended removal gives [] |
| Domains.AdjacentMatchSurvives | src/representation/Domain.cpp:89-96 | of two adjacent matches the second survives the loop as written |
| Domains.EraseLoopAgrees | src/representation/Domain.cpp:89-96 | on lists with unique labels, the loop as written, where defined, agrees with the intended removal |
| Domains.AddedConstant | src/representation/Domain.cpp:41-57 | `addConstant` fails on an existing label without overwrite and on a new label of an unknown type, then changing nothing; on success the constant is last, and with overwrite the old one is gone |
| Domains.AddedPredicate | src/representation/Domain.cpp:59-68 | `addPredicate` passes exactly with overwrite or a new label; then the old entry is removed and the predicate is last |
| Domains.AddedAction | src/representation/Domain.cpp:75-85 | `addAction` passes exactly with overwrite or a new label; then the old entry is removed and the action is last |
| Domains.AddErrors | src/representation/Domain.cpp:41-85 | the invalid_argument messages of the failing adds, including the "addConstant predicate" text that `addAction` reuses |
| Domains.NewLabelAppends | src/representation/Domain.cpp:41-85 | an item with a new label (and, for a constant, a known type) is simply appended |
| Domains.OverwriteReplaces | src/representation/Domain.cpp:43-47 | overwriting a constant leaves no other constant with its label, skips the type check, and makes it last |
| Domains.AddTwiceFails | src/representation/Domain.cpp:41-85 | after a successful add without overwrite, adding the same item again fails |
| Domains.AddsKeepLabelsUnique | src/representation/Domain.cpp:41-85 | every add, failing or not, keeps the constant, predicate and action labels unique |
| Domains.StreamPrefixed | src/representation/Domain.cpp:188-201 | the loop writes the prefix before each item, in order |
| Domains.StreamRequirements | src/representation/Domain.cpp:185-193 | the requirements section, each as ` :r` |
| Domains.StreamTypes | src/representation/Domain.cpp:195-203 | the types section |
| Domains.StreamConstants | src/representation/Domain.cpp:205-225 | the constants section |
| Domains.StreamPredicates | src/representation/Domain.cpp:227-242 | the predicates section |
| Domains.StreamTypeLabels | src/representation/Domain.cpp:211-217 | the inner loop collects ` label` for each constant of the type, in list order |
| Domains.StreamConstantLines | src/representation/Domain.cpp:208-223 | the outer loop writes one line per type with constants, in type-list order |
| Domains.StreamTypedArguments | src/representation/Domain.cpp:235-238 | ` label - type` per argument |
| Domains.StreamPredicateLines | src/representation/Domain.cpp:231-240 | one `( label args)` line per predicate |
| Domains.StreamExpressions | src/representation/Domain.cpp:260-263 | ` e.toLISP()` per expression |
| Domains.StreamActionBlock | src/representation/Domain.cpp:248-276 | an action's block: parameters, and the precondition and effect lines only when non-empty |
| Domains.StreamActions | src/representation/Domain.cpp:244-278 | one block per action, in order |
| Domains.DomainToLisp | src/representation/Domain.cpp:180-284 | the serialiser computes DomainText |
| Domains.Domain.constructor | src/representation/Domain.hpp:290-292 | `Domain(name)` has that name and empty lists |
| Domains.Domain.AddType | src/representation/Domain.cpp:36-39 | appends, duplicates included; nothing else changes |
| Domains.Domain.AddRequirement | src/representation/Domain.cpp:70-73 | appends, duplicates included; nothing else changes |
| Domains.Domain.IsType | src/representation/Domain.cpp:123-126 | membership in the type list |
| Domains.Domain.IsConstant | src/representation/Domain.cpp:128-139 | some constant carries the label |
| Domains.Domain.IsPredicate | src/representation/Domain.cpp:141-152 | some predicate carries the label |
| Domains.Domain.IsAction | src/representation/Domain.cpp:167-178 | some action carries the label |
| Domains.Domain.IsRequirement | src/representation/Domain.cpp:154-165 | membership in the requirement list |
| Domains.Domain.RemoveConstant | src/representation/Domain.cpp:87-97 | drops the constants with the label (the intended behaviour) |
| Domains.Domain.RemovePredicate | src/representation/Domain.cpp:99-109 | drops the predicates with the label (the intended behaviour) |
| Domains.Domain.RemoveAction | src/representation/Domain.cpp:111-121 | drops the actions with the label (the intended behaviour) |
| Domains.Domain.AddConstant | src/representation/Domain.cpp:41-57 | outcome and new fields are those of AddedConstant |
| Domains.Domain.AddPredicate | src/representation/Domain.cpp:59-68 | outcome and new fields are those of AddedPredicate |
| Domains.Domain.AddAction | src/representation/Domain.cpp:75-85 | outcome and new fields are those of AddedAction |
| Domains.Domain.ToLisp | src/representation/Domain.cpp:180-284 | `toLISP` returns DomainText of the fields |
| Domains.DomainTextFrame | src/representation/Domain.cpp:183-184 | the text starts with `; BEGIN domain definition\n(define (domain NAME)\n` and ends with `; END domain definition\n)\n` |
| Domains.EmptyDomainText | src/representation/Domain.cpp:180-284 | an empty domain prints only its header and footer |
| Domains.SectionsPresentWhenNonEmpty | src/representation/Domain.cpp:185-278 | each section is present exactly when its list is non-empty |
| Domains.UnlistedTypeOmitted | src/representation/Domain.cpp:208-223 | a constant whose type is not listed adds nothing to the text |
| Domains.ListedTypeShown | src/representation/Domain.cpp:211-221 | a constant shows its label in its type's line, after those of its type before it |
| Domains.TypeWithoutConstants | src/representation/Domain.cpp:218-222 | a type with no constants gets no line |
| Problems.AddedStatus | src/representation/Problem.cpp:18-29 | `addInitialStatus` fails, changing nothing, exactly when an equal expression is present; otherwise it appends |
| Problems.AddedStatusDistinct | src/representation/Problem.cpp:18-29 | the initial status never holds an expression twice, and a second add of the same expression fails |
| Problems.StreamObjects | src/representation/Problem.cpp:73-81 | the objects section |
| Problems.StreamStatus | src/representation/Problem.cpp:83-91 | the `:init` section |
| Problems.StreamGoal | src/representation/Problem.cpp:93-98 | the `:goal` section |
| Problems.Problem.constructor | src/representation/Problem.cpp:8-11 | the name, a copy of the domain's fields, no objects or status, and the null goal |
| Problems.Problem.AddObject | src/representation/Problem.cpp:13-16 | appends whatever `overwrite` says; nothing else changes |
| Problems.Problem.AddInitialStatus | src/representation/Problem.cpp:18-29 | outcome and new state are those of AddedStatus |
| Problems.Problem.SetGoal | src/representation/Problem.cpp:31-34 | replaces the goal and changes nothing else |
| Problems.Problem.ToLisp | src/representation/Problem.cpp:67-104 | `toLISP` returns ProblemText of the fields |
| Problems.ProblemTextFrame | src/representation/Problem.cpp:69-101 | the text opens with the BEGIN line, `(define (problem NAME)` and `(:domain DOMAIN)`, and ends with `; END problem definition\n)\n` |
| Problems.ProblemSections | src/representation/Problem.cpp:73-98 | objects and `:init` appear exactly when non-empty, `:goal` exactly when the goal is not null |
| Problems.FreshProblemText | src/representation/Problem.cpp:67-104 | a fresh problem prints only its opening and closing lines |
| Problems.ObjectLinesCount | src/representation/Problem.cpp:76-79 | one `label - type` line per object |
| Plannings.NoSuchPlannerMessage | src/Planning.cpp:88 | the message starts with `pddl_planner::Planning: planner with name '` |
| Plannings.Lookup | src/Planning.cpp:81-89 | `getPlanner` succeeds exactly for a registered name, with its planner; otherwise a runtime_error naming it |
| Plannings.Registered | src/Planning.cpp:63-79 | `registerPlanner` as written: null throws; a throwing `getName` passes its exception on and leaves the table alone; otherwise the name maps to the new planner, replacing any old one, and every other name is unchanged |
| Plannings.RegisteredChecked | src/Planning.cpp:63-79 | the evident intent: a failing `getName`, a null planner or a known name is an error and leaves the table alone; a new name is added |
| Plannings.DuplicateReplaced | src/Planning.cpp:72-78 | a duplicate name is accepted as written and replaces the old planner; the checked version rejects it |
| Plannings.SecondLamaReplacesFirst | src/Planning.cpp:22-35 | registering another `LAMA` in a fresh registry replaces the built-in one |
| Plannings.BuiltinTable | src/Planning.cpp:20-36 | the initial table has ascending keys |
| Plannings.LastWriteNames | src/Planning.cpp:22-35 | a name the initialiser list writes is exactly a key of one of its entries, and a name carried by one entry only holds that entry's planner; the 11 built-in names are distinct, so which of two equal keys std::map keeps does not arise |
| Plannings.BuiltinLookup | src/Planning.cpp:22-35 | the table maps each name to the planner of its entry |
| Plannings.BuiltinNames | src/Planning.cpp:22-35 | exactly the 11 names LAMA … FDAUTOTUNE1 are registered |
| Plannings.FastDownwardAliases | src/Planning.cpp:30-34 | the Fast Downward entries use `sas_plan` and their own alias |
| Plannings.Concatenated | src/Planning.cpp:113-133 | the getter loop computes Described |
| Plannings.DescribedSplit | src/Planning.cpp:113-133 | the text of a map is that of any first part followed by that of the rest |
| Plannings.ValueInPlace | src/Planning.cpp:113-133 | each value sits after those of smaller keys and before those of larger ones, followed by a newline |
| Plannings.SetOrderIrrelevant | src/Planning.cpp:103-133 | the text does not depend on the order two descriptions were set in |
| Plannings.SetTwiceKeepsLast | src/Planning.cpp:103-133 | setting a description twice keeps only the second |
| Plannings.DescribedLines | src/Planning.cpp:113-133 | one newline per description when the descriptions hold none |
| Plannings.Step | src/Planning.cpp:170-173 | an unknown name is the "does not exist" error; a known one runs its planner |
| Plannings.RunAll | src/Planning.cpp:168-177 | at most one pair per name, and one per name when nothing failed |
| Plannings.RunAllOrder | src/Planning.cpp:168-177 | the k-th pair is the k-th name with its candidates, and the run stops at the first failure |
| Plannings.RunAllComplete | src/Planning.cpp:168-177 | when every step succeeds, every name gets its pair |
| Plannings.UnknownNameAborts | src/Planning.cpp:170-171 | an unknown name ends the run with an error, after the names before it |
| Plannings.RunAllStops | src/Planning.cpp:168-177 | once a prefix of the names fails, the whole run ends the same way |
| Plannings.Planning.constructor | src/Planning.cpp:20-36 | the 11 built-in planners, no descriptions and no results |
| Plannings.Planning.GetPlanner | src/Planning.cpp:81-89 | the result is Lookup on the table |
| Plannings.Planning.RegisterPlanner | src/Planning.cpp:63-79 | the table becomes that of Registered; the descriptions and the result list are unchanged |
| Plannings.Planning.GetRegisteredPlanners | src/Planning.cpp:91-101 | the planners in ascending order of their names |
| Plannings.Planning.SetActionDescription | src/Planning.cpp:103-106 | overwrites the entry for its key; nothing else changes |
| Plannings.Planning.SetDomainDescription | src/Planning.cpp:108-111 | overwrites the entry for its key; nothing else changes |
| Plannings.Planning.GetActionDescriptions | src/Planning.cpp:113-122 | the values, each followed by a newline, in ascending key order |
| Plannings.Planning.GetDomainDescriptions | src/Planning.cpp:124-133 | the values, each followed by a newline, in ascending key order |
| Plannings.Planning.PlanSequential | src/Planning.cpp:147-183 | the sequential `plan` appends this run's pairs to the ever-growing result list, returns the whole list, and throws at an unknown name, keeping the pairs before it |
| Plannings.Planning.PlanWith | src/Planning.cpp:201-208 | the single-planner `plan` looks the planner up before running it |
| Plannings.Planning.PlanProblem | src/Planning.cpp:211-215 | stores `domain.toLISP()` under the problem's domain name, then runs the names on `problem.toLISP()` |
| Plannings.Planning.PlanDomainProblem | src/Planning.cpp:217-221 | stores the given domain's text, then runs the names |
| Plannings.Planning.PlanProblemWith | src/Planning.cpp:224-228 | stores the problem's domain text, then runs one planner |
| Plannings.Planning.PlanDomainProblemWith | src/Planning.cpp:230-234 | stores the given domain's text, then runs one planner |
| CommandLine.MainState.constructor | src/Main.cpp:16-18 | the globals start with timeout 7, not sequential, not listed, no planners |
| CommandLine.MainState.ParseList | src/Main.cpp:145-207 | the `-l` branch once n is known pushes `argv[3..3+n)` in order and reads the options, with every index below argc |
| CommandLine.MainState.ParseArguments | src/Main.cpp:63-213 | the decision and the new globals are those of Parsed, whose every argv read is in bounds |
| CommandLine.Parsed | src/Main.cpp:63-213 | the decision of `main` and the globals afterwards for every argv shape; its branches are stated by the lemmas below |
| CommandLine.HelpPrintsUsage | src/Main.cpp:68-78 | no arguments, `-h` or `--help` print the usage and change nothing |
| CommandLine.TwoArgumentsAreFiles | src/Main.cpp:118-122 | two arguments are the domain and problem files, with planner LAMA and the default timeout |
| CommandLine.PlannerOption | src/Main.cpp:84-104 | `-p` takes four or six arguments, the six-argument form only with `-t` third |
| CommandLine.TimeoutOption | src/Main.cpp:105-117 | `-t` takes six arguments with `-p` third; the timeout is `argv[2]` and the planner `argv[4]` |
| CommandLine.OtherShapesPrintUsage | src/Main.cpp:209-213 | any other shape prints the usage |
| CommandLine.ListNeedsAPlanner | src/Main.cpp:132-138 | a planner count below 1 prints the usage |
| CommandLine.ListedPlanners | src/Main.cpp:139-148 | with room for the files, the planner list gains `argv[3..3+n)` in order |
| CommandLine.OnlyListFormLists | src/Main.cpp:80-123 | only the `-l` form changes the planner list, the list flag or the sequential flag |
| CommandLine.ListFormParsed | src/Main.cpp:139-207 | with room for the planners and the files, the `-l` form reads its options |
| CommandLine.SequentialEitherOrder | src/Main.cpp:149-201 | `-s` before or after `-t` gives the same command and the same globals |
| CommandLine.ListWithoutOptions | src/Main.cpp:203-207 | without options the files follow the planners directly |
| CommandLine.WrapInt | src/Main.cpp:139 | 32-bit two's-complement wrap-around, the behaviour assumed for the undefined signed overflow: in range, and the identity on values that fit |
| CommandLine.ListGuardAsWritten | src/Main.cpp:139 | the guard `argc < 5 + nplanners` as the compiled int arithmetic evaluates it, with the sum wrapped to 32 bits |
| CommandLine.ListGuardOverflows | src/Main.cpp:139 | `argc < 5 + nplanners` with nplanners = INT_MAX wraps and lets 5 arguments through |
| CommandLine.HugeCountRejected | src/Main.cpp:132-144 | the model rejects that count and prints the usage |
| LispGrammar.CharIn | src/representation/grammar/lisp/Expression.hpp:109 | `char_(set)` consumes exactly one character when it succeeds |
| LispGrammar.Literal | src/representation/grammar/lisp/Expression.hpp:97 | `string(w)` consumes exactly w when it succeeds |
| LispGrammar.MultiOperator | src/representation/grammar/lisp/Expression.hpp:109 | the multi-operator rule consumes exactly one character |
| LispGrammar.BinaryOperator | src/representation/grammar/lisp/Expression.hpp:121 | the binary-operator rule consumes exactly one character |
| LispGrammar.BinaryComparison | src/representation/grammar/lisp/Expression.hpp:134-136 | the comparison rule consumes input when it succeeds |
| LispGrammar.LabelChars | src/representation/grammar/lisp/Expression.hpp:150 | `+(alnum | char_("+-_[]"))`, whose set is the alphanumerics and the range '+'..'_', never reads past its input and yields only such characters |
| LispGrammar.AlnumChars | src/representation/grammar/lisp/Expression.hpp:166 | `+alnum` never reads past its input |
| LispGrammar.Label | src/representation/grammar/lisp/Expression.hpp:150 | the label rule consumes input when it succeeds |
| LispGrammar.Variable | src/representation/grammar/lisp/Expression.hpp:166 | the variable rule consumes input when it succeeds |
| LispGrammar.Punct | src/representation/grammar/lisp/Expression.hpp:199 | a literal character after the skipper consumes input |
| LispGrammar.LabelOrVariable | src/representation/grammar/lisp/Expression.hpp:178 | `label | variable` after the skipper consumes input when it succeeds |
| LispGrammar.Words | src/representation/grammar/lisp/Expression.hpp:206 | `*(label | variable)` never grows the input |
| LispGrammar.TypeSuffixes | src/representation/grammar/lisp/Expression.hpp:179-181 | `*("-" >> label)` never grows the input |
| LispGrammar.SimpleCompound | src/representation/grammar/lisp/Expression.hpp:204-207 | the parenthesised simple expression consumes input when it succeeds |
| LispGrammar.SimpleWord | src/representation/grammar/lisp/Expression.hpp:208 | the bare simple expression consumes input when it succeeds |
| LispGrammar.Opened | src/representation/grammar/lisp/Expression.hpp:200-202 | the general expression after its `(` consumes input when it succeeds |
| LispGrammar.Item | src/representation/grammar/lisp/Expression.hpp:201 | `expression \| simple_expression` consumes input when it succeeds |
| LispGrammar.MoreExpressions | src/representation/grammar/lisp/Expression.hpp:246 | the repetition of expressions, each read by the rule as written, never grows the input |
| LispGrammar.Or | src/representation/grammar/lisp/Expression.hpp:198 | ordered choice takes the first alternative that succeeds |
| LispGrammar.CharInShape | src/representation/grammar/lisp/Expression.hpp:109 | `char_(set)` takes one character exactly when the input starts with one of the set |
| LispGrammar.LiteralShape | src/representation/grammar/lisp/Expression.hpp:97 | `string(w)` succeeds exactly on input starting with w, and consumes w |
| LispGrammar.Quantifier | src/representation/grammar/lisp/Expression.hpp:97 | the attribute is `forall` or `exists` |
| LispGrammar.QuantifierExact | src/representation/grammar/lisp/Expression.hpp:97 | the quantifier matches exactly the input that starts with `forall` or `exists` |
| LispGrammar.MultiOperatorShape | src/representation/grammar/lisp/Expression.hpp:109 | one character, `*` or `+` |
| LispGrammar.BinaryOperatorShape | src/representation/grammar/lisp/Expression.hpp:121 | one character, `-` `/` `*` or `+` |
| LispGrammar.ComparisonOneCharacter | src/representation/grammar/lisp/Expression.hpp:134-136 | exactly one character of `><=`: the two-character alternatives are never reached |
| LispGrammar.GreaterEqualSplits | src/representation/grammar/lisp/Expression.hpp:134-136 | on `>=` only `>` is consumed |
| LispGrammar.LabelCharsShape | src/representation/grammar/lisp/Expression.hpp:150 | greedy repetition: the longest prefix of label characters, alphanumerics and the range '+'..'_' |
| LispGrammar.AlnumCharsShape | src/representation/grammar/lisp/Expression.hpp:166 | greedy repetition: the longest prefix of letters and digits |
| LispGrammar.LabelShape | src/representation/grammar/lisp/Expression.hpp:150 | a label is an alphanumeric and at least one label character, or an operator or comparison; it consumes what it returns |
| LispGrammar.VariableShape | src/representation/grammar/lisp/Expression.hpp:166 | a variable is `?` and one or more alphanumerics, read greedily |
| LispGrammar.LoneQuestionMark | src/representation/grammar/lisp/Expression.hpp:166 | `?` alone is no variable |
| LispGrammar.SingleCharacterRejected | src/representation/grammar/lisp/Expression.hpp:150 | a single alphanumeric followed by anything that cannot continue a label (no alphanumeric and nothing in '+'..'_') is no label |
| LispGrammar.LabelReadsBack | src/representation/grammar/lisp/Expression.hpp:150 | a label word (any label character, the range '+'..'_' included) before a character that cannot continue it is read back as itself |
| LispGrammar.RangeLabels | src/representation/grammar/lisp/Expression.hpp:150 | `a.b` and `robot?z` are each read as one label, since `.` and `?` lie in the range '+'..'_' |
| LispGrammar.DottedParameter | src/representation/grammar/lisp/Expression.hpp:198-209 | `( at robot a.b )` reads as `at` with the atoms `robot` and `a.b`, by the rule as written and the corrected rule alike |
| LispGrammar.VariableReadsBack | src/representation/grammar/lisp/Expression.hpp:166 | a variable word before a delimiter is read back as itself |
| LispGrammar.TypedItemRule | src/representation/grammar/lisp/Expression.hpp:178-182 | the typed item consumes input when it succeeds |
| LispGrammar.TypedVariable | src/representation/grammar/lisp/Expression.hpp:178-182 | a bare variable before `)` is a typed item without type |
| LispGrammar.TypedLabel | src/representation/grammar/lisp/Expression.hpp:178-182 | `a - ty)` is the typed item a of type ty |
| LispGrammar.TypeSuffixStep | src/representation/grammar/lisp/Expression.hpp:179-181 | each `- label` step sets the type; the last one wins |
| LispGrammar.Simple | src/representation/grammar/lisp/Expression.hpp:204-209 | the simple expression consumes input when it succeeds |
| LispGrammar.General | src/representation/grammar/lisp/Expression.hpp:199-202 | the general expression consumes input when it succeeds |
| LispGrammar.Items | src/representation/grammar/lisp/Expression.hpp:201 | the repetition never grows the input |
| LispGrammar.GeneralSkipsSpace | src/representation/grammar/lisp/Expression.hpp:199 | whitespace before a general expression is skipped |
| LispGrammar.GeneralNeedsOpen | src/representation/grammar/lisp/Expression.hpp:199 | no general expression starts without `(` |
| LispGrammar.NothingAtClose | src/representation/grammar/lisp/Expression.hpp:201-208 | no parameter starts at `)`, so the repetition stops there |
| LispGrammar.ItemFallsBack | src/representation/grammar/lisp/Expression.hpp:201 | where no general expression starts, a parameter is a simple expression |
| LispGrammar.ItemReadsBack | src/representation/grammar/lisp/Expression.hpp:201-209 | a printed well-formed parameter is read back whole |
| LispGrammar.ItemsReadBack | src/representation/grammar/lisp/Expression.hpp:201 | the printed parameters are read back, in order, up to `)` |
| LispGrammar.GeneralReadsBack | src/representation/grammar/lisp/Expression.hpp:199-202 | round trip: a well-formed compound expression, printed by `toLISP`, is read back as itself, and what follows is left |
| LispGrammar.QuantifierExpression | src/representation/grammar/lisp/Expression.hpp:211-217 | the quantifier form gives the quantifier with one parameter; a failed form leaves at most one parameter behind |
| LispGrammar.QuantifiedBody | src/representation/grammar/lisp/Expression.hpp:216-217 | the body is one general expression, then `)` |
| LispGrammar.Expr | src/representation/grammar/lisp/Expression.hpp:198 | the corrected Expression rule, where a failed quantifier form leaves no trace, consumes input when it succeeds |
| LispGrammar.ExprReadsBack | src/representation/grammar/lisp/Expression.hpp:198-208 | round trip: a well-formed compound expression whose label is not exactly `forall` or `exists` is read back as itself, and the rule as written reads it the same way |
| LispGrammar.QuantifierPrefixStops | src/representation/grammar/lisp/Expression.hpp:211-213 | a longer label that begins with a quantifier word, such as `forall_x`, does not open the quantifier form: no `(` follows the word |
| LispGrammar.QuantifierFormFirst | src/representation/grammar/lisp/Expression.hpp:198-217 | the quantifier form is tried first: `(q (?v) g)` becomes q with g as its one parameter |
| LispGrammar.ExprAsWritten | src/representation/grammar/lisp/Expression.hpp:198 | the rule as the alternative runs it consumes input when it succeeds |
| LispGrammar.AsWrittenAgreesWithoutLeak | src/representation/grammar/lisp/Expression.hpp:198 | where the quantifier form leaves nothing behind, the rule as written and the corrected rule agree |
| LispGrammar.LeakPrepends | src/representation/grammar/lisp/Expression.hpp:198-217 | where the quantifier form fails at its closing parenthesis, the rule as written puts its body in front of the parameters |
| LispGrammar.LeakShown | src/representation/grammar/lisp/Expression.hpp:198-217 | `(q (a - ty) g r)` reads back as itself in the corrected rule, and with g duplicated in front in the rule as written |
| LispGrammar.LeakExample | src/representation/grammar/lisp/Expression.hpp:198-217 | `(forall (ab - cd) (pp qq) rr)` is misread by the rule as written |
| LispGrammar.ExpressionList | src/representation/grammar/lisp/Expression.hpp:246 | `+expression` over the rule as written: it succeeds exactly when one expression does, and starts with that expression |
| LispGrammar.AsWrittenSucceeds | src/representation/grammar/lisp/Expression.hpp:198-217 | the rule as written succeeds exactly where the corrected rule does, and leaves the same rest: the leak changes only the parameters |
| LispGrammar.ExpressionListSucceeds | src/representation/grammar/lisp/Expression.hpp:246 | the list succeeds exactly where the corrected rule reads an expression |
| LispGrammar.NothingAtEnd | src/representation/grammar/lisp/Expression.hpp:246 | at the end of the input no expression is read, so the repetition stops |
| LispGrammar.MoreExpressionsReadBack | src/representation/grammar/lisp/Expression.hpp:246 | round trip: printed compound expressions, none labelled exactly `forall` or `exists`, are read back by the repetition, in order |
| LispGrammar.ExpressionListReadsBack | src/representation/grammar/lisp/Expression.hpp:246 | round trip: one or more such printed expressions are read back by the list rule as exactly that list |
| LispGrammar.ListNeedsAnExpression | src/representation/grammar/lisp/Expression.hpp:246 | without an expression the list fails |
| LispGrammar.SpacedExpressionRead | test/test_Grammar.cpp:9-10 | `( name x y )` with spaces inside the parentheses, name not exactly `forall` or `exists`, is read as name with atoms x and y, by the rule as written and the corrected rule alike |
| LispGrammar.AtRobotLocation | test/test_Grammar.cpp:9-10 | `( at robot location )` is read as `at` with the atoms `robot` and `location`, by the rule as written and the corrected rule alike |
| LispGrammar.AtRobotLocationPrinted | test/test_Grammar.cpp:9-10 | that expression prints as `(at robot location)` |
| LispGrammar.DistanceComparison | test/test_Grammar.cpp:44-45 | `(= (distance location_c0 location_p0) 10)` prints and reads back as itself, by the rule as written and the corrected rule alike |

## Left out

- Concurrency is left out: the threaded branch of `Planning::plan` and its `run_planner`, the runner threads of the binary, and `try_join_for`. Whether the planner joined in time is a parameter.
- Process and file-system actions are not performed. `system`, `which`, `pkill`, directory creation and removal, `fopen` and the file writes are either `Host` inputs or `Effect` entries. The planner thread's own `system()` call and its "returned an error" throw run in a thread and are left out; the model records only the command.
- `Planning::getAvailablePlanners` is left out: it asks each planner's `isAvailable`, which is a shell `which` call.
- The binary's later file reading (Main.cpp:215-245) and its usage text are left out.
- The per-planner wrappers (LAMA, BFSF, Uniform, Cedalion, ArvandHerd, Fast Downward, TFD) are left out. They are constant command strings around the harvest already modelled; the registry refers to them as `BuiltinPlanner` values.
- `Problem::validate` is left out. It depends on `Domain::validate` and `VariableManager`, which are not part of this model.
- Floating point is left out. `atof` timeouts stay the text they were given as, and the constant 7 is `DefaultTimeout`. `timeout + 0.001` and the conversion to milliseconds are not modelled.
- The current time is a parameter.
- Logging and the debug output of the grammar are left out.
- LispGrammar.QuantifierExpression: the typed-item attribute of the quantifier form is recognised and dropped. The `Expression` type has no field to hold it, so `(forall (?z) g)` reads as `forall` with the one parameter g.
- The quantifier tests of test_Grammar.cpp:28-41 are not modelled. They expect the typed item back, which this version of `Expression` cannot hold. The `EXISTS`/`FORALL` constructors of test_Planner.cpp:43-51 and 91 belong to another version of the library. `Expression::fromString` is not part of this model, so the grammar lemmas state what the `Expression` rule reads: `Expr` is the corrected rule, `ExprAsWritten` the rule as written, and the test lemmas prove both readings.
- StdString.Substr: `substr` with `pos > size()` throws `out_of_range`; the model makes `pos <= size()` a precondition, and every call site proves it.
- Domains.Domain.RemoveConstant, Domains.Domain.RemovePredicate and Domains.Domain.RemoveAction model the intended removal. The loops as written erase while iterating, which is undefined behaviour (see Findings).
- Domains.Domain.AddConstant, Domains.Domain.AddPredicate and Domains.Domain.AddAction use the intended removal on overwrite. Where labels are unique, which the adds keep, it agrees with the loops as written wherever those are defined (Domains.EraseLoopAgrees).
- Plannings.Planning.RegisterPlanner models the code as written, including the silent replacement (see Findings).
- Memory management is left out: the `new`/`delete` of planners and expressions, `mPlanRunners` never being cleared, and the unclosed `fopen` handle. Expressions are values, so a copy is equal to its original.
- StdString.Atoi: the result is unbounded. glibc's `atoi` truncates values outside int, so `-l 4294967297` would read 1 planner where the model's count is 4294967297 and it prints the usage; out-of-range input is undefined behaviour in C.
- Problems.AddedStatus: `e == *cit` needs an `Expression::operator==` that the headers do not declare; the model takes structural equality of label and parameters.
- `ArityValidator`'s constructor argument count is taken modulo 256, as the implicit `size_t` to `uint8_t` conversion does.

## Findings

| source | as written | input that shows it | evidently intended | confidence | as-written member | corrected member |
|---|---|---|---|---|---|---|
| src/Planning.cpp:72-78 | the "already registered" throw is caught by the `catch` right after it, so a duplicate name silently replaces the registered planner | registering a second planner named `LAMA` in a fresh `Planning` | a known name is rejected and the old planner stays | high, not executed | Plannings.DuplicateReplaced | Plannings.RegisteredChecked |
| src/representation/Domain.cpp:89-120 | `remove*` erase inside the loop and then increment the invalidated iterator: past the end when the match is last, and an adjacent match is skipped | `removeConstant("c")` on `[c]`, or on `[c, c, d]` which leaves `[c, d]` | drop every item carrying the label | high, not executed | Domains.AdjacentMatchSurvives | Domains.WithoutLabel |
| src/Main.cpp:139 | `argc < 5 + nplanners` overflows int for a huge count. Signed overflow is undefined behaviour; under the two's-complement wrap that an unoptimised build gives, the guard passes and `argv[3 + i]` is read far past `argv` | `planner -l 2147483647 d p` | compare without overflow and print the usage | medium, not executed | CommandLine.ListGuardOverflows | CommandLine.HugeCountRejected |
| src/representation/grammar/lisp/Expression.hpp:198-217 | both alternatives of the Expression rule write one attribute, and the quantifier form appends its body before failing at a missing `)`, so the general expression that follows keeps that body as an extra first parameter | `(forall (ab - cd) (pp qq) rr)` | a failed alternative leaves no trace in the attribute | medium, not executed | LispGrammar.LeakShown | LispGrammar.ExprReadsBack |
