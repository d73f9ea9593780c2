/**
 * Planning: the registry of planners by name, the action and domain
 * descriptions handed to every planner, and the runs that ask one or several
 * planners for plans. The planners themselves are references the registry
 * stores and hands out; what running one returns is a parameter, a function
 * from the planner and the request to its candidates or its exception.
 */
module Plannings {
  import opened Wrappers
  import opened StdString
  import opened OrderedMap
  import opened PlannerTypes
  import Representation
  import opened Domains
  import opened Problems

  /** The planner classes the registry makes itself, with the arguments it gives them. */
  datatype BuiltinPlanner =
    | LamaPlanner
    | BfsfPlanner
    | UniformPlanner
    | CedalionPlanner
    | RandwardPlanner
    | ArvandHerdPlanner
    | FastDownwardPlanner(resultFilename: string, alias: string)

  /** A planner object: one the registry made, or one registered from outside. */
  datatype PlannerRef = Builtin(planner: BuiltinPlanner) | External(id: nat)

  /** What a planner is asked: the problem, the two concatenated descriptions and the timeout, when one is given. */
  datatype PlanRequest = PlanRequest(problem: string, actionDescriptions: string, domainDescriptions: string,
                                     timeout: Option<real>)

  /** The result of one planner's `plan`: its candidates, or the exception it throws. */
  type Runner = (PlannerRef, PlanRequest) -> Result<PlanCandidates, Error>

  /** One entry of the result list: the planner's name and its candidates. */
  type PlanResult = (string, PlanCandidates)

  const FAST_DOWNWARD_RESULT: string := "sas_plan"

  /** The table the constructor fills, in the order of its initialiser list. */
  const BUILTIN_PLANNERS: seq<(string, PlannerRef)> := [
    ("LAMA", Builtin(LamaPlanner)),
    ("BFSF", Builtin(BfsfPlanner)),
    ("UNIFORM", Builtin(UniformPlanner)),
    ("CEDALION", Builtin(CedalionPlanner)),
    ("RANDWARD", Builtin(RandwardPlanner)),
    ("ARVANDHERD", Builtin(ArvandHerdPlanner)),
    ("FDSS1", Builtin(FastDownwardPlanner(FAST_DOWNWARD_RESULT, "seq-sat-fdss-1"))),
    ("FDSS2", Builtin(FastDownwardPlanner(FAST_DOWNWARD_RESULT, "seq-sat-fdss-2"))),
    ("LAMA2011", Builtin(FastDownwardPlanner(FAST_DOWNWARD_RESULT, "seq-sat-lama-2011"))),
    ("FDAUTOTUNE2", Builtin(FastDownwardPlanner(FAST_DOWNWARD_RESULT, "seq-sat-fd-autotune-2"))),
    ("FDAUTOTUNE1", Builtin(FastDownwardPlanner(FAST_DOWNWARD_RESULT, "seq-sat-fd-autotune-1")))
  ]

  const PLANNING_PREFIX: string := "pddl_planner::Planning: "
  const NAMED_PLANNER_PREFIX: string := "pddl_planner::Planning: planner with name '"

  function NullPlannerMessage(): string
  {
    PLANNING_PREFIX + "planner object is null!"
  }

  function AlreadyRegisteredMessage(name: string): string
  {
    NAMED_PLANNER_PREFIX + name + "' is already registered"
  }

  function NoSuchPlannerMessage(name: string): (m: string)
    ensures StartsWith(m, NAMED_PLANNER_PREFIX)
  {
    var m := NAMED_PLANNER_PREFIX + name + "' does not exist";
    assert m[..|NAMED_PLANNER_PREFIX|] == NAMED_PLANNER_PREFIX;
    m
  }

  /** `getPlanner`: the planner stored under the name, or a runtime_error naming it. */
  function Lookup(planners: Entries<PlannerRef>, name: string): (r: Result<PlannerRef, Error>)
    ensures r.Success? <==> Get(planners, name).Some?
    ensures r.Success? ==> Get(planners, name) == Some(r.value)
    ensures r.Failure? ==> r.error == RuntimeError(NoSuchPlannerMessage(name))
  {
    match Get(planners, name)
    case Some(p) => Success(p)
    case None => Failure(RuntimeError(NoSuchPlannerMessage(name)))
  }

  // ---------------------------------------------------------------------
  // Registering

  /**
   * `registerPlanner` as written: a null planner is an error; so is a planner
   * whose `getName` throws, which happens before the `try` and leaves the
   * table alone. Otherwise the "already registered" exception thrown when the
   * name is known is caught by the handler meant for a failing lookup, so the
   * planner is stored under its name in either case.
   */
  function Registered(planners: Entries<PlannerRef>, planner: Option<PlannerRef>,
                      nameOf: PlannerRef -> Result<string, Error>)
    : (r: (Outcome<Error>, Entries<PlannerRef>))
    requires Ascending(planners)
    ensures Ascending(r.1)
    ensures planner.None? ==> r == (Fail(RuntimeError(NullPlannerMessage())), planners)
    ensures planner.Some? && nameOf(planner.value).Failure? ==>
              r == (Fail(nameOf(planner.value).error), planners)
    ensures planner.Some? && nameOf(planner.value).Success? ==>
              r.0 == Pass && Get(r.1, nameOf(planner.value).value) == Some(planner.value)
              && forall k :: k != nameOf(planner.value).value ==> Get(r.1, k) == Get(planners, k)
  {
    if planner.None? then (Fail(RuntimeError(NullPlannerMessage())), planners)
    else match nameOf(planner.value)
      case Failure(e) => (Fail(e), planners)
      case Success(name) => (Pass, Put(planners, name, planner.value))
  }

  /** What the duplicate check evidently intends: a known name is an error and the old planner stays. */
  function RegisteredChecked(planners: Entries<PlannerRef>, planner: Option<PlannerRef>,
                             nameOf: PlannerRef -> Result<string, Error>)
    : (r: (Outcome<Error>, Entries<PlannerRef>))
    requires Ascending(planners)
    ensures Ascending(r.1)
    ensures r.0.Fail? ==> r.1 == planners
    ensures planner.Some? && nameOf(planner.value).Failure? ==> r.0 == Fail(nameOf(planner.value).error)
    ensures r.0 == Pass <==> planner.Some? && nameOf(planner.value).Success?
                             && Get(planners, nameOf(planner.value).value).None?
    ensures r.0 == Pass ==> (Get(r.1, nameOf(planner.value).value) == Some(planner.value)
                             && forall k :: k != nameOf(planner.value).value ==> Get(r.1, k) == Get(planners, k))
  {
    if planner.None? then (Fail(RuntimeError(NullPlannerMessage())), planners)
    else match nameOf(planner.value)
      case Failure(e) => (Fail(e), planners)
      case Success(name) =>
        if Get(planners, name).Some? then (Fail(RuntimeError(AlreadyRegisteredMessage(name))), planners)
        else (Pass, Put(planners, name, planner.value))
  }

  /**
   * As written, registering a planner under a name that is already taken
   * replaces the registered planner without an error; the evidently intended
   * check rejects it and keeps the old one. Registering a second LAMA
   * planner on a fresh registry is such a case.
   */
  lemma DuplicateReplaced(planners: Entries<PlannerRef>, p: PlannerRef, nameOf: PlannerRef -> Result<string, Error>)
    requires Ascending(planners) && nameOf(p).Success?
    requires Get(planners, nameOf(p).value).Some? && Get(planners, nameOf(p).value) != Some(p)
    ensures Registered(planners, Some(p), nameOf).0 == Pass
    ensures Get(Registered(planners, Some(p), nameOf).1, nameOf(p).value) != Get(planners, nameOf(p).value)
    ensures RegisteredChecked(planners, Some(p), nameOf)
            == (Fail(RuntimeError(AlreadyRegisteredMessage(nameOf(p).value))), planners)
  {
  }

  lemma SecondLamaReplacesFirst(p: PlannerRef, nameOf: PlannerRef -> Result<string, Error>)
    requires nameOf(p) == Success("LAMA") && p != Builtin(LamaPlanner)
    ensures Registered(BuiltinTable(), Some(p), nameOf).0 == Pass
    ensures Get(Registered(BuiltinTable(), Some(p), nameOf).1, "LAMA") == Some(p)
    ensures RegisteredChecked(BuiltinTable(), Some(p), nameOf).0.Fail?
  {
    BuiltinNames("LAMA");
    assert BUILTIN_PLANNERS[0].0 == "LAMA";
  }

  // ---------------------------------------------------------------------
  // The built-in table

  /** The registry a new Planning holds. */
  function BuiltinTable(): (m: Entries<PlannerRef>)
    ensures Ascending(m)
  {
    PutAll([], BUILTIN_PLANNERS)
  }

  /** A name written by a list of writes is exactly a name of one of its entries. */
  lemma {:induction false} LastWriteNames<V>(writes: seq<(string, V)>, k: string)
    ensures LastWrite(writes, k).Some? <==> exists i :: 0 <= i < |writes| && writes[i].0 == k
    ensures forall i :: 0 <= i < |writes| && writes[i].0 == k && (forall j :: i < j < |writes| ==> writes[j].0 != k)
                  ==> LastWrite(writes, k) == Some(writes[i].1)
  {
    if |writes| > 0 {
      var init := writes[..|writes| - 1];
      LastWriteNames(init, k);
      assert forall i :: 0 <= i < |init| ==> init[i] == writes[i];
    }
  }

  /** The built-in table maps each name to the planner of its entry. */
  lemma BuiltinLookup(name: string)
    ensures Get(BuiltinTable(), name) == LastWrite(BUILTIN_PLANNERS, name)
  {
    PutAllGet([], BUILTIN_PLANNERS, name);
  }

  /** A new registry knows exactly the names of the eleven built-in entries. */
  lemma BuiltinNames(name: string)
    ensures |BUILTIN_PLANNERS| == 11
    ensures Get(BuiltinTable(), name).Some? <==> exists i :: 0 <= i < |BUILTIN_PLANNERS| && BUILTIN_PLANNERS[i].0 == name
  {
    BuiltinLookup(name);
    LastWriteNames(BUILTIN_PLANNERS, name);
  }

  /** The Fast Downward entries run the one Fast Downward planner with their own alias. */
  lemma FastDownwardAliases()
    ensures LastWrite(BUILTIN_PLANNERS, "FDSS1") == Some(Builtin(FastDownwardPlanner(FAST_DOWNWARD_RESULT, "seq-sat-fdss-1")))
    ensures LastWrite(BUILTIN_PLANNERS, "LAMA2011") == Some(Builtin(FastDownwardPlanner(FAST_DOWNWARD_RESULT, "seq-sat-lama-2011")))
  {
    LastWriteNames(BUILTIN_PLANNERS, "FDSS1");
    LastWriteNames(BUILTIN_PLANNERS, "LAMA2011");
    assert BUILTIN_PLANNERS[6].0 == "FDSS1";
    assert BUILTIN_PLANNERS[8].0 == "LAMA2011";
  }

  // ---------------------------------------------------------------------
  // Descriptions

  /** The getters' text: every value followed by a line break, in ascending key order. */
  function Described(m: Entries<string>): string
  {
    if |m| == 0 then "" else Described(m[..|m| - 1]) + m[|m| - 1].1 + "\n"
  }

  /** The getters' loop: `+= it->second + "\n"` over the map. */
  method Concatenated(m: Entries<string>) returns (s: string)
    ensures s == Described(m)
  {
    s := "";
    for i := 0 to |m|
      invariant s == Described(m[..i])
    {
      assert m[..i + 1][..i] == m[..i];
      s := s + m[i].1 + "\n";
    }
    assert m[..|m|] == m;
  }

  /** The text of a map is the text of any first part followed by that of the rest. */
  lemma {:induction false} DescribedSplit(m: Entries<string>, i: nat)
    requires i <= |m|
    ensures Described(m) == Described(m[..i]) + Described(m[i..])
    decreases |m| - i
  {
    if i < |m| {
      DescribedSplit(m, i + 1);
      assert m[..i + 1][..i] == m[..i];
      assert Described(m[i..i + 1]) == m[i].1 + "\n" by {
        assert m[i..i + 1][..0] == [];
      }
      DescribedSplit(m[i..], 1);
      assert m[i..][..1] == m[i..i + 1] && m[i..][1..] == m[i + 1..];
    } else {
      assert m[..i] == m;
    }
  }

  /** Each value sits in the text after the values of smaller keys and before those of larger keys. */
  lemma ValueInPlace(m: Entries<string>, i: nat)
    requires i < |m|
    ensures Described(m) == Described(m[..i]) + m[i].1 + "\n" + Described(m[i + 1..])
  {
    DescribedSplit(m, i + 1);
    assert m[..i + 1][..i] == m[..i];
  }

  /** The text does not depend on the order the descriptions were set in. */
  lemma SetOrderIrrelevant(m: Entries<string>, k1: string, v1: string, k2: string, v2: string)
    requires Ascending(m) && k1 != k2
    ensures Described(Put(Put(m, k1, v1), k2, v2)) == Described(Put(Put(m, k2, v2), k1, v1))
  {
    PutCommutes(m, k1, v1, k2, v2);
  }

  /** Setting a description twice keeps only the second one. */
  lemma SetTwiceKeepsLast(m: Entries<string>, k: string, v1: string, v2: string)
    requires Ascending(m)
    ensures Described(Put(Put(m, k, v1), k, v2)) == Described(Put(m, k, v2))
  {
    PutOverwrites(m, k, v1, v2);
  }

  /** One line break per description when the descriptions hold none. */
  lemma {:induction false} DescribedLines(m: Entries<string>)
    requires forall i :: 0 <= i < |m| ==> '\n' !in m[i].1
    ensures Count(Described(m), '\n') == |m|
  {
    if |m| > 0 {
      var init := m[..|m| - 1];
      DescribedLines(init);
      CountAbsent(m[|m| - 1].1, '\n');
      assert Count("\n", '\n') == 1 by { assert "\n"[..0] == []; }
      CountAppend(Described(init), m[|m| - 1].1, '\n');
      CountAppend(Described(init) + m[|m| - 1].1, "\n", '\n');
    }
  }

  // ---------------------------------------------------------------------
  // Running planners

  /** A `std::set<std::string>` of planner names, in its ascending iteration order. */
  predicate NameSet(names: seq<string>)
  {
    forall i, j :: 0 <= i < j < |names| ==> Less(names[i], names[j])
  }

  /** Look the planner up, then run it. */
  function Step(planners: Entries<PlannerRef>, name: string, request: PlanRequest, run: Runner)
    : (r: Result<PlanCandidates, Error>)
    ensures Get(planners, name).None? ==> r == Failure(RuntimeError(NoSuchPlannerMessage(name)))
    ensures Get(planners, name).Some? ==> r == run(Get(planners, name).value, request)
  {
    match Lookup(planners, name)
    case Failure(e) => Failure(e)
    case Success(p) => run(p, request)
  }

  /**
   * The sequential loop over the names: the pairs it appends to the result
   * list, and the exception that ended it early, if one did.
   */
  function RunAll(planners: Entries<PlannerRef>, names: seq<string>, request: PlanRequest, run: Runner)
    : (r: (seq<PlanResult>, Option<Error>))
    ensures |r.0| <= |names|
    ensures r.1.None? ==> |r.0| == |names|
  {
    if |names| == 0 then ([], None)
    else
      var prev := RunAll(planners, names[..|names| - 1], request, run);
      if prev.1.Some? then prev
      else match Step(planners, names[|names| - 1], request, run)
        case Failure(e) => (prev.0, Some(e))
        case Success(c) => (prev.0 + [(names[|names| - 1], c)], None)
  }

  /**
   * The k-th pair names the k-th planner and holds what it returned; the run
   * stops at the first planner that is unknown or throws, and reports that.
   */
  lemma {:induction false} RunAllOrder(planners: Entries<PlannerRef>, names: seq<string>, request: PlanRequest, run: Runner)
    ensures var r := RunAll(planners, names, request, run);
      (forall k :: 0 <= k < |r.0| ==> Step(planners, names[k], request, run).Success?
                                       && r.0[k] == (names[k], Step(planners, names[k], request, run).value))
      && (r.1.Some? ==> Step(planners, names[|r.0|], request, run) == Failure(r.1.value))
  {
    if |names| > 0 {
      var init := names[..|names| - 1];
      RunAllOrder(planners, init, request, run);
      assert forall k :: 0 <= k < |init| ==> init[k] == names[k];
    }
  }

  /** With known planners that all succeed, every name gets its pair. */
  lemma {:induction false} RunAllComplete(planners: Entries<PlannerRef>, names: seq<string>, request: PlanRequest, run: Runner)
    requires forall k :: 0 <= k < |names| ==> Step(planners, names[k], request, run).Success?
    ensures RunAll(planners, names, request, run).1.None?
  {
    if |names| > 0 {
      var init := names[..|names| - 1];
      assert forall k :: 0 <= k < |init| ==> init[k] == names[k];
      RunAllComplete(planners, init, request, run);
    }
  }

  /** An unknown name ends the run with its "does not exist" error; what came before it stays. */
  lemma UnknownNameAborts(planners: Entries<PlannerRef>, names: seq<string>, request: PlanRequest, run: Runner, i: nat)
    requires i < |names| && Get(planners, names[i]).None?
    requires forall k :: 0 <= k < i ==> Step(planners, names[k], request, run).Success?
    ensures RunAll(planners, names, request, run).1.Some?
    ensures |RunAll(planners, names, request, run).0| <= i
  {
    RunAllOrder(planners, names, request, run);
  }

  // ---------------------------------------------------------------------
  // The registry

  class Planning {
    var planners: Entries<PlannerRef>
    var actionDescriptions: Entries<string>
    var domainDescriptions: Entries<string>
    /** `mPlanResultList`: every pair the sequential runs appended, never cleared. */
    var planResultList: seq<PlanResult>

    predicate Valid()
      reads this
    {
      Ascending(planners) && Ascending(actionDescriptions) && Ascending(domainDescriptions)
    }

    /** The request every planner of a run gets: the problem and the current descriptions. */
    function Request(problem: string, timeout: Option<real>): PlanRequest
      reads this
    {
      PlanRequest(problem, Described(actionDescriptions), Described(domainDescriptions), timeout)
    }

    /** `Planning()`: the eleven built-in planners, no descriptions and no results. */
    constructor ()
      ensures Valid()
      ensures planners == BuiltinTable() && actionDescriptions == [] && domainDescriptions == [] && planResultList == []
    {
      planners := BuiltinTable();
      actionDescriptions := [];
      domainDescriptions := [];
      planResultList := [];
    }

    /** `getPlanner`. */
    method GetPlanner(name: string) returns (r: Result<PlannerRef, Error>)
      ensures r == Lookup(planners, name)
    {
      var found := Get(planners, name);
      if found.Some? {
        return Success(found.value);
      }
      return Failure(RuntimeError(NAMED_PLANNER_PREFIX + name + "' does not exist"));
    }

    /**
     * `registerPlanner`, as written: `getName` may throw before the `try`;
     * otherwise the lookup either fails with a runtime_error or succeeds and
     * the "already registered" runtime_error is thrown; the handler catches a
     * runtime_error in both cases and stores the planner.
     */
    method RegisterPlanner(planner: Option<PlannerRef>, nameOf: PlannerRef -> Result<string, Error>)
      returns (r: Outcome<Error>)
      requires Valid()
      modifies this
      ensures Valid()
      ensures (r, planners) == Registered(old(planners), planner, nameOf)
      ensures actionDescriptions == old(actionDescriptions) && domainDescriptions == old(domainDescriptions)
      ensures planResultList == old(planResultList)
    {
      if planner.None? {
        return Fail(RuntimeError(PLANNING_PREFIX + "planner object is null!"));
      }
      var named := nameOf(planner.value);
      if named.Failure? {
        return Fail(named.error);
      }
      var name := named.value;
      var found := GetPlanner(name);
      var thrown := if found.Success? then RuntimeError(AlreadyRegisteredMessage(name)) else found.error;
      if thrown.RuntimeError? {
        planners := Put(planners, name, planner.value);
      }
      return Pass;
    }

    /** `getRegisteredPlanners`: the planners in ascending order of their names. */
    method GetRegisteredPlanners() returns (list: seq<PlannerRef>)
      ensures list == Values(planners)
    {
      list := [];
      for i := 0 to |planners|
        invariant |list| == i && forall k :: 0 <= k < i ==> list[k] == planners[k].1
      {
        list := list + [planners[i].1];
      }
    }

    method SetActionDescription(action: string, description: string)
      requires Valid()
      modifies this
      ensures Valid()
      ensures actionDescriptions == Put(old(actionDescriptions), action, description)
      ensures planners == old(planners) && domainDescriptions == old(domainDescriptions)
      ensures planResultList == old(planResultList)
    {
      actionDescriptions := Put(actionDescriptions, action, description);
    }

    method SetDomainDescription(domain: string, description: string)
      requires Valid()
      modifies this
      ensures Valid()
      ensures domainDescriptions == Put(old(domainDescriptions), domain, description)
      ensures planners == old(planners) && actionDescriptions == old(actionDescriptions)
      ensures planResultList == old(planResultList)
    {
      domainDescriptions := Put(domainDescriptions, domain, description);
    }

    method GetActionDescriptions() returns (s: string)
      ensures s == Described(actionDescriptions)
    {
      s := Concatenated(actionDescriptions);
    }

    method GetDomainDescriptions() returns (s: string)
      ensures s == Described(domainDescriptions)
    {
      s := Concatenated(domainDescriptions);
    }

    /**
     * The sequential branch of `plan`: for each name in ascending order look
     * the planner up, run it, and append the pair to the result list; an
     * unknown name or a throwing planner ends the call with its exception,
     * the pairs appended before it staying in the list.
     */
    method PlanSequential(problem: string, names: seq<string>, timeout: real, run: Runner)
      returns (r: Result<seq<PlanResult>, Error>)
      requires Valid() && NameSet(names)
      modifies this
      ensures Valid()
      ensures planners == old(planners) && actionDescriptions == old(actionDescriptions)
      ensures domainDescriptions == old(domainDescriptions)
      ensures var out := RunAll(planners, names, Request(problem, Some(timeout)), run);
        planResultList == old(planResultList) + out.0
        && r == (if out.1.Some? then Failure(out.1.value) else Success(planResultList))
    {
      var actions := GetActionDescriptions();
      var domains := GetDomainDescriptions();
      var request := PlanRequest(problem, actions, domains, Some(timeout));
      ghost var added: seq<PlanResult> := [];
      for i := 0 to |names|
        invariant planners == old(planners) && actionDescriptions == old(actionDescriptions)
        invariant domainDescriptions == old(domainDescriptions)
        invariant RunAll(planners, names[..i], request, run) == (added, None)
        invariant planResultList == old(planResultList) + added
      {
        assert names[..i + 1][..i] == names[..i];
        var planner := GetPlanner(names[i]);
        if planner.Failure? {
          RunAllStops(planners, names, request, run, i + 1);
          return Failure(planner.error);
        }
        var candidates := run(planner.value, request);
        if candidates.Failure? {
          RunAllStops(planners, names, request, run, i + 1);
          return Failure(candidates.error);
        }
        planResultList := planResultList + [(names[i], candidates.value)];
        added := added + [(names[i], candidates.value)];
      }
      assert names[..|names|] == names;
      return Success(planResultList);
    }

    /** The single-planner `plan`: the planner is looked up before anything runs. */
    method PlanWith(problem: string, plannerName: string, timeout: real, run: Runner)
      returns (r: Result<PlanCandidates, Error>)
      ensures r == Step(planners, plannerName, Request(problem, Some(timeout)), run)
    {
      var planner := GetPlanner(plannerName);
      if planner.Failure? {
        return Failure(planner.error);
      }
      var actions := GetActionDescriptions();
      var domains := GetDomainDescriptions();
      r := run(planner.value, PlanRequest(problem, actions, domains, Some(timeout)));
    }

    /** The `Problem` overload of the multi-planner `plan`: store the problem's domain text under its name, then plan. */
    method PlanProblem(problem: Problem, names: seq<string>, timeout: real, run: Runner)
      returns (r: Result<seq<PlanResult>, Error>)
      requires Valid() && NameSet(names)
      modifies this
      ensures Valid()
      ensures domainDescriptions == Put(old(domainDescriptions), problem.domain.name, DomainText(problem.domain))
      ensures planners == old(planners) && actionDescriptions == old(actionDescriptions)
      ensures var out := RunAll(planners, names, Request(ProblemText(problem.Value()), Some(timeout)), run);
        planResultList == old(planResultList) + out.0
        && r == (if out.1.Some? then Failure(out.1.value) else Success(planResultList))
    {
      var text := DomainToLisp(problem.domain);
      SetDomainDescription(problem.domain.name, text);
      var p := problem.ToLisp();
      r := PlanSequential(p, names, timeout, run);
    }

    /** The `Domain` and `Problem` overload: the given domain's text is stored, not the problem's copy. */
    method PlanDomainProblem(domain: Domain, problem: Problem, names: seq<string>, timeout: real, run: Runner)
      returns (r: Result<seq<PlanResult>, Error>)
      requires Valid() && NameSet(names)
      modifies this
      ensures Valid()
      ensures domainDescriptions == Put(old(domainDescriptions), domain.name, DomainText(domain.Value()))
      ensures planners == old(planners) && actionDescriptions == old(actionDescriptions)
      ensures var out := RunAll(planners, names, Request(ProblemText(problem.Value()), Some(timeout)), run);
        planResultList == old(planResultList) + out.0
        && r == (if out.1.Some? then Failure(out.1.value) else Success(planResultList))
    {
      var text := domain.ToLisp();
      SetDomainDescription(domain.name, text);
      var p := problem.ToLisp();
      r := PlanSequential(p, names, timeout, run);
    }

    /** The `Problem` overload of the single-planner `plan`. */
    method PlanProblemWith(problem: Problem, plannerName: string, timeout: real, run: Runner)
      returns (r: Result<PlanCandidates, Error>)
      requires Valid()
      modifies this
      ensures Valid()
      ensures domainDescriptions == Put(old(domainDescriptions), problem.domain.name, DomainText(problem.domain))
      ensures planners == old(planners) && actionDescriptions == old(actionDescriptions)
      ensures planResultList == old(planResultList)
      ensures r == Step(planners, plannerName, Request(ProblemText(problem.Value()), Some(timeout)), run)
    {
      var text := DomainToLisp(problem.domain);
      SetDomainDescription(problem.domain.name, text);
      var p := problem.ToLisp();
      r := PlanWith(p, plannerName, timeout, run);
    }

    /** The `Domain` and `Problem` overload of the single-planner `plan`. */
    method PlanDomainProblemWith(domain: Domain, problem: Problem, plannerName: string, timeout: real, run: Runner)
      returns (r: Result<PlanCandidates, Error>)
      requires Valid()
      modifies this
      ensures Valid()
      ensures domainDescriptions == Put(old(domainDescriptions), domain.name, DomainText(domain.Value()))
      ensures planners == old(planners) && actionDescriptions == old(actionDescriptions)
      ensures planResultList == old(planResultList)
      ensures r == Step(planners, plannerName, Request(ProblemText(problem.Value()), Some(timeout)), run)
    {
      var text := domain.ToLisp();
      SetDomainDescription(domain.name, text);
      var p := problem.ToLisp();
      r := PlanWith(p, plannerName, timeout, run);
    }
  }

  /** Once a prefix of the names ends the run, the whole run ends the same way. */
  lemma {:induction false} RunAllStops(planners: Entries<PlannerRef>, names: seq<string>, request: PlanRequest, run: Runner, i: nat)
    requires i <= |names| && RunAll(planners, names[..i], request, run).1.Some?
    ensures RunAll(planners, names, request, run) == RunAll(planners, names[..i], request, run)
    decreases |names| - i
  {
    if i < |names| {
      assert names[..i + 1][..i] == names[..i];
      RunAllStops(planners, names, request, run, i + 1);
    } else {
      assert names[..i] == names;
    }
  }
}
