/**
 * PDDLPlanner: one planner, possibly none, with its own action and domain
 * descriptions. `plan` hands the goal and the two concatenated descriptions
 * to the planner, or throws when there is none.
 */
module PddlPlanners {
  import opened Wrappers
  import opened OrderedMap
  import opened PlannerTypes
  import opened Plannings

  const NO_PLANNER_MESSAGE: string := "No planner available"

  class PddlPlanner {
    /** `mPlanner`, where None stands for null. */
    var planner: Option<PlannerRef>
    var actionDescriptions: Entries<string>
    var domainDescriptions: Entries<string>

    predicate Valid()
      reads this
    {
      Ascending(actionDescriptions) && Ascending(domainDescriptions)
    }

    constructor (planner: Option<PlannerRef>)
      ensures Valid()
      ensures this.planner == planner && actionDescriptions == [] && domainDescriptions == []
    {
      this.planner := planner;
      actionDescriptions := [];
      domainDescriptions := [];
    }

    method SetActionDescription(action: string, description: string)
      requires Valid()
      modifies this
      ensures Valid()
      ensures actionDescriptions == Put(old(actionDescriptions), action, description)
      ensures planner == old(planner) && domainDescriptions == old(domainDescriptions)
    {
      actionDescriptions := Put(actionDescriptions, action, description);
    }

    method SetDomainDescription(domain: string, description: string)
      requires Valid()
      modifies this
      ensures Valid()
      ensures domainDescriptions == Put(old(domainDescriptions), domain, description)
      ensures planner == old(planner) && actionDescriptions == old(actionDescriptions)
    {
      domainDescriptions := Put(domainDescriptions, domain, description);
    }

    method GetActionDescriptions() returns (s: string)
      ensures s == Described(actionDescriptions)
    {
      s := Concatenated(actionDescriptions);
    }

    method GetDomainDescriptions() returns (s: string)
      ensures s == Described(domainDescriptions)
    {
      s := Concatenated(domainDescriptions);
    }

    /** `plan`: no planner is an error; otherwise the planner gets the goal and the descriptions unchanged. */
    method Plan(goal: string, run: Runner) returns (r: Result<PlanCandidates, Error>)
      ensures r == PlanOutcome(planner, actionDescriptions, domainDescriptions, goal, run)
    {
      if planner.None? {
        return Failure(PlanGenerationException(NO_PLANNER_MESSAGE));
      }
      var actions := GetActionDescriptions();
      var domains := GetDomainDescriptions();
      r := run(planner.value, PlanRequest(goal, actions, domains, None));
    }
  }

  /** What `plan` returns for the planner and descriptions it holds. */
  function PlanOutcome(planner: Option<PlannerRef>, actions: Entries<string>, domains: Entries<string>,
                       goal: string, run: Runner): (r: Result<PlanCandidates, Error>)
    ensures planner.None? ==> r == Failure(PlanGenerationException(NO_PLANNER_MESSAGE))
  {
    if planner.None? then Failure(PlanGenerationException(NO_PLANNER_MESSAGE))
    else run(planner.value, PlanRequest(goal, Described(actions), Described(domains), None))
  }

  /**
   * With a planner, the request is exactly the goal and the key-ordered
   * concatenations: two holders whose description maps differ only in the
   * order of their writes ask the same thing.
   */
  lemma PlanForwards(p: PlannerRef, actions: Entries<string>, domains: Entries<string>, goal: string,
                     run: Runner, k1: string, v1: string, k2: string, v2: string)
    requires Ascending(actions) && Ascending(domains) && k1 != k2
    ensures PlanOutcome(Some(p), actions, domains, goal, run)
            == run(p, PlanRequest(goal, Described(actions), Described(domains), None))
    ensures PlanOutcome(Some(p), Put(Put(actions, k1, v1), k2, v2), domains, goal, run)
            == PlanOutcome(Some(p), Put(Put(actions, k2, v2), k1, v1), domains, goal, run)
  {
    SetOrderIrrelevant(actions, k1, v1, k2, v2);
  }
}
