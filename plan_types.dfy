/**
 * The plan value types of the planner library: an Action is a name with its
 * arguments, a Plan a sequence of actions, and PlanCandidates the list of
 * plans one planner run produced. All three are copied by value, so they are
 * datatypes here and the `add*` builders return the extended value. Their
 * `toString` methods accumulate a string in a loop; each is a method proved
 * equal to a text function, and the lemmas below say what that text is.
 */
module PlannerTypes {
  import opened StdString

  datatype Action = Action(name: string, arguments: seq<string>)

  datatype Plan = Plan(actions: seq<Action>)

  datatype PlanCandidates = PlanCandidates(plans: seq<Plan>)

  /** `Action(name = "")`: a named action without arguments. */
  function NewAction(name: string): (a: Action)
    ensures a.name == name && a.arguments == []
  {
    Action(name, [])
  }

  /** The default-constructed Action has an empty name and no arguments. */
  lemma DefaultAction()
    ensures NewAction("").name == "" && |NewAction("").arguments| == 0
  {
  }

  /** `addArgument`: one more argument at the end, everything else as it was. */
  function AddArgument(a: Action, argument: string): (r: Action)
    ensures r.name == a.name
    ensures |r.arguments| == |a.arguments| + 1
    ensures r.arguments[..|a.arguments|] == a.arguments && r.arguments[|a.arguments|] == argument
  {
    a.(arguments := a.arguments + [argument])
  }

  /** `addAction`: one more action at the end of the plan. */
  function AddAction(p: Plan, action: Action): (r: Plan)
    ensures |r.actions| == |p.actions| + 1
    ensures r.actions[..|p.actions|] == p.actions && r.actions[|p.actions|] == action
  {
    Plan(p.actions + [action])
  }

  /** `addPlan`: one more plan at the end of the candidate list. */
  function AddPlan(c: PlanCandidates, plan: Plan): (r: PlanCandidates)
    ensures |r.plans| == |c.plans| + 1
    ensures r.plans[..|c.plans|] == c.plans && r.plans[|c.plans|] == plan
  {
    PlanCandidates(c.plans + [plan])
  }

  /** Each argument preceded by one space, in order. */
  function SpacedArguments(args: seq<string>): string
  {
    if |args| == 0 then "" else SpacedArguments(args[..|args| - 1]) + " " + args[|args| - 1]
  }

  /** The text of `Action::toString`: the name and the spaced arguments, trimmed. */
  function ActionText(a: Action): string
  {
    Trim(a.name + SpacedArguments(a.arguments))
  }

  /** The actions, each between brackets. */
  function BracketedActions(actions: seq<Action>): string
  {
    if |actions| == 0 then ""
    else BracketedActions(actions[..|actions| - 1]) + "[" + ActionText(actions[|actions| - 1]) + "]"
  }

  /** The text of `Plan::toString`. */
  function PlanText(p: Plan): string
  {
    Trim(BracketedActions(p.actions))
  }

  /** The line `PlanCandidates::toString` writes for the plan at position index. */
  function CandidateLine(index: nat, p: Plan): string
  {
    NatToString(index) + "\t" + PlanText(p) + "\n"
  }

  /** The lines for the first n plans. */
  function CandidateLines(plans: seq<Plan>): string
  {
    if |plans| == 0 then ""
    else CandidateLines(plans[..|plans| - 1]) + CandidateLine(|plans| - 1, plans[|plans| - 1])
  }

  /** The text of `PlanCandidates::toString`. */
  function CandidatesText(c: PlanCandidates): string
  {
    CandidateLines(c.plans)
  }

  /** `Action::toString`. */
  method ActionToString(a: Action) returns (s: string)
    ensures s == ActionText(a)
  {
    var action := a.name;
    var i := 0;
    while i < |a.arguments|
      invariant 0 <= i <= |a.arguments|
      invariant action == a.name + SpacedArguments(a.arguments[..i])
    {
      assert a.arguments[..i + 1][..i] == a.arguments[..i];
      action := action + " " + a.arguments[i];
      i := i + 1;
    }
    assert a.arguments[..i] == a.arguments;
    s := Trim(action);
  }

  /** `Plan::toString`. */
  method PlanToString(p: Plan) returns (s: string)
    ensures s == PlanText(p)
  {
    var plan := "";
    var i := 0;
    while i < |p.actions|
      invariant 0 <= i <= |p.actions|
      invariant plan == BracketedActions(p.actions[..i])
    {
      var text := ActionToString(p.actions[i]);
      assert p.actions[..i + 1][..i] == p.actions[..i];
      plan := plan + "[" + text + "]";
      i := i + 1;
    }
    assert p.actions[..i] == p.actions;
    s := Trim(plan);
  }

  /** `PlanCandidates::toString`: one numbered line per plan. */
  method CandidatesToString(c: PlanCandidates) returns (s: string)
    ensures s == CandidatesText(c)
  {
    var candidates := "";
    var index := 0;
    while index < |c.plans|
      invariant 0 <= index <= |c.plans|
      invariant candidates == CandidateLines(c.plans[..index])
    {
      var text := PlanToString(c.plans[index]);
      var line := NatToString(index) + "\t" + text + "\n";
      assert line == CandidateLine(index, c.plans[index]);
      assert c.plans[..index + 1][..index] == c.plans[..index];
      assert CandidateLines(c.plans[..index + 1]) == CandidateLines(c.plans[..index]) + line;
      candidates := candidates + line;
      index := index + 1;
    }
    assert c.plans[..index] == c.plans;
    s := candidates;
  }

  /** A token the printers and the plan reader treat as one word. */
  predicate Word(t: string)
  {
    |t| > 0 && NoSpace(t)
  }

  /** An action whose name and arguments are all words. */
  predicate WellFormed(a: Action)
  {
    Word(a.name) && forall k :: 0 <= k < |a.arguments| ==> Word(a.arguments[k])
  }

  lemma {:induction false} SpacedArgumentsShape(args: seq<string>)
    requires forall k :: 0 <= k < |args| ==> Word(args[k])
    ensures |args| > 0 ==> |SpacedArguments(args)| > 0 && !IsSpace(SpacedArguments(args)[|SpacedArguments(args)| - 1])
  {
  }

  /**
   * For an action made of words the trim removes nothing: `toString` is the
   * name and the arguments joined by single spaces.
   */
  lemma {:induction false} ActionTextOfWords(a: Action)
    requires WellFormed(a)
    ensures ActionText(a) == a.name + SpacedArguments(a.arguments)
  {
    var s := a.name + SpacedArguments(a.arguments);
    SpacedArgumentsShape(a.arguments);
    assert s[0] == a.name[0];
    if |a.arguments| == 0 {
      assert s == a.name;
    } else {
      assert s[|s| - 1] == SpacedArguments(a.arguments)[|SpacedArguments(a.arguments)| - 1];
    }
    TrimUnchanged(s);
  }

  lemma {:induction false} BracketedShape(actions: seq<Action>)
    ensures |actions| > 0 ==> |BracketedActions(actions)| > 0
    ensures |actions| > 0 ==> BracketedActions(actions)[0] == '['
    ensures |actions| > 0 ==> BracketedActions(actions)[|BracketedActions(actions)| - 1] == ']'
  {
    if |actions| > 1 {
      BracketedShape(actions[..|actions| - 1]);
    }
  }

  /**
   * `Plan::toString`'s trim never changes anything: the text is exactly the
   * bracketed actions, and the empty plan prints as the empty string.
   */
  lemma PlanTextIsBracketed(p: Plan)
    ensures PlanText(p) == BracketedActions(p.actions)
    ensures |p.actions| == 0 ==> PlanText(p) == ""
  {
    BracketedShape(p.actions);
    TrimUnchanged(BracketedActions(p.actions));
  }

  /** Adding an action adds its bracketed text at the end of the plan's text. */
  lemma PlanTextAddAction(p: Plan, a: Action)
    ensures PlanText(AddAction(p, a)) == PlanText(p) + "[" + ActionText(a) + "]"
  {
    PlanTextIsBracketed(p);
    PlanTextIsBracketed(AddAction(p, a));
    assert AddAction(p, a).actions[..|p.actions|] == p.actions;
  }

  /**
   * Adding a plan adds exactly one line at the end of the candidates' text,
   * numbered with the position the plan takes.
   */
  lemma CandidatesTextAddPlan(c: PlanCandidates, p: Plan)
    ensures CandidatesText(AddPlan(c, p)) == CandidatesText(c) + CandidateLine(|c.plans|, p)
  {
    assert AddPlan(c, p).plans[..|c.plans|] == c.plans;
  }

  /** Newline-free plan texts give exactly one line per plan. */
  lemma {:induction false} CandidatesLineCount(plans: seq<Plan>)
    requires forall k :: 0 <= k < |plans| ==> '\n' !in PlanText(plans[k])
    ensures Count(CandidateLines(plans), '\n') == |plans|
  {
    if |plans| > 0 {
      var last := plans[|plans| - 1];
      CandidatesLineCount(plans[..|plans| - 1]);
      var num := NatToString(|plans| - 1);
      assert '\n' !in num;
      CountAbsent(num, '\n');
      CountAbsent(PlanText(last), '\n');
      CountAppend(num, "\t", '\n');
      CountAppend(num + "\t", PlanText(last), '\n');
      CountAppend(num + "\t" + PlanText(last), "\n", '\n');
      CountAppend(CandidateLines(plans[..|plans| - 1]), CandidateLine(|plans| - 1, last), '\n');
    }
  }
}
