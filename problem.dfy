/**
 * The PDDL problem: a name, a copy of its domain, the objects, the initial
 * status and the goal. Its lists are appended to in place, so Problem is a
 * class; the domain is copied by value when the problem is made, so the
 * problem holds a DomainValue and later changes to the Domain object do not
 * reach it.
 */
module Problems {
  import opened Wrappers
  import opened StdString
  import opened Representation
  import opened Domains

  datatype ProblemValue = ProblemValue(name: string, domain: DomainValue, objects: seq<TypedItem>,
                                       status: seq<Expression>, goal: Expression)

  const STATUS_EXISTS_PREFIX: string := "pddl_planner::representation::Domain::addInitialStatus expression '"

  function StatusExistsMessage(e: Expression): string
  {
    STATUS_EXISTS_PREFIX + ToLisp(e) + ALREADY_EXISTS
  }

  /** No expression occurs twice in the initial status. */
  predicate Distinct(status: seq<Expression>)
  {
    forall i, j :: 0 <= i < j < |status| ==> status[i] != status[j]
  }

  /**
   * `addInitialStatus`: an expression equal to one already present is an
   * error and changes nothing; any other is appended.
   */
  function AddedStatus(p: ProblemValue, e: Expression): (r: (Outcome<Error>, ProblemValue))
    ensures r.0.Fail? ==> r.1 == p && r.0 == Fail(InvalidArgument(StatusExistsMessage(e)))
    ensures r.0 == Pass <==> e !in p.status
    ensures r.0 == Pass ==>
      r.1 == p.(status := r.1.status) && |r.1.status| == |p.status| + 1
      && r.1.status[..|p.status|] == p.status && r.1.status[|p.status|] == e
  {
    if e in p.status then (Fail(InvalidArgument(StatusExistsMessage(e))), p)
    else (Pass, p.(status := p.status + [e]))
  }

  /** The initial status never holds the same expression twice, and one added once cannot be added again. */
  lemma AddedStatusDistinct(p: ProblemValue, e: Expression)
    requires Distinct(p.status)
    ensures Distinct(AddedStatus(p, e).1.status)
    ensures AddedStatus(AddedStatus(p, e).1, e).0.Fail?
  {
    var r := AddedStatus(p, e).1;
    if e !in p.status {
      forall i, j | 0 <= i < j < |r.status| ensures r.status[i] != r.status[j] {
        if j == |p.status| {
          assert r.status[i] == p.status[i];
        } else {
          assert r.status[i] == p.status[i] && r.status[j] == p.status[j];
        }
      }
    }
    assert e in r.status by {
      if e !in p.status { assert r.status[|p.status|] == e; }
    }
  }

  // ---------------------------------------------------------------------
  // The text of `toLISP`

  const PROBLEM_HEADER: string := "; BEGIN problem definition\n(define (problem "
  const DOMAIN_LINE_OPEN: string := "    (:domain "
  const PROBLEM_FOOTER: string := "; END problem definition\n)\n"
  const OBJECTS_OPEN: string := "    (:objects \n"
  const INIT_OPEN: string := "    (:init \n"
  const GOAL_OPEN: string := "    (:goal "

  function ObjectLine(o: TypedItem): string
  {
    INDENT + o.name + TYPE_SEPARATOR + o.typeName + "\n"
  }

  /** One "label - type" line per object, in order. */
  function ObjectLines(objects: seq<TypedItem>): string
  {
    if |objects| == 0 then "" else ObjectLines(objects[..|objects| - 1]) + ObjectLine(objects[|objects| - 1])
  }

  /** One line per initial-status expression, in order. */
  function StatusLines(status: seq<Expression>): string
  {
    if |status| == 0 then "" else StatusLines(status[..|status| - 1]) + INDENT + ToLisp(status[|status| - 1]) + "\n"
  }

  function ObjectsText(objects: seq<TypedItem>): string
  {
    if |objects| == 0 then "" else OBJECTS_OPEN + ObjectLines(objects) + SECTION_CLOSE
  }

  function InitText(status: seq<Expression>): string
  {
    if |status| == 0 then "" else INIT_OPEN + StatusLines(status) + SECTION_CLOSE
  }

  function GoalText(goal: Expression): string
  {
    if IsNull(goal) then "" else GOAL_OPEN + ToLisp(goal) + LINE_CLOSE
  }

  /** The two opening lines: the problem's name and its domain's. */
  function ProblemHead(p: ProblemValue): string
  {
    PROBLEM_HEADER + p.name + LINE_CLOSE + DOMAIN_LINE_OPEN + p.domain.name + LINE_CLOSE
  }

  /** The text `Problem::toLISP` returns. */
  function ProblemText(p: ProblemValue): string
  {
    ProblemHead(p) + (ObjectsText(p.objects) + InitText(p.status) + GoalText(p.goal)) + PROBLEM_FOOTER
  }

  method StreamObjects(objects: seq<TypedItem>) returns (s: string)
    ensures s == ObjectsText(objects)
  {
    if |objects| == 0 {
      return "";
    }
    var lines := "";
    for i := 0 to |objects|
      invariant lines == ObjectLines(objects[..i])
    {
      assert objects[..i + 1][..i] == objects[..i];
      lines := lines + INDENT + objects[i].name + TYPE_SEPARATOR + objects[i].typeName + "\n";
    }
    assert objects[..|objects|] == objects;
    s := OBJECTS_OPEN + lines + SECTION_CLOSE;
  }

  method StreamStatus(status: seq<Expression>) returns (s: string)
    ensures s == InitText(status)
  {
    if |status| == 0 {
      return "";
    }
    var lines := "";
    for i := 0 to |status|
      invariant lines == StatusLines(status[..i])
    {
      assert status[..i + 1][..i] == status[..i];
      var e := ExpressionToLisp(status[i]);
      lines := lines + INDENT + e + "\n";
    }
    assert status[..|status|] == status;
    s := INIT_OPEN + lines + SECTION_CLOSE;
  }

  method StreamGoal(goal: Expression) returns (s: string)
    ensures s == GoalText(goal)
  {
    s := "";
    if !IsNull(goal) {
      var g := ExpressionToLisp(goal);
      s := GOAL_OPEN + g + LINE_CLOSE;
    }
  }

  class Problem {
    var name: string
    var domain: DomainValue
    var objects: seq<TypedItem>
    var status: seq<Expression>
    var goal: Expression

    function Value(): ProblemValue
      reads this
    {
      ProblemValue(name, domain, objects, status, goal)
    }

    /** `Problem(name, domain)`: the domain's fields are copied; the goal is the null expression. */
    constructor (name: string, domain: Domain)
      ensures Value() == ProblemValue(name, domain.Value(), [], [], NULL_EXPRESSION)
    {
      this.name := name;
      this.domain := domain.Value();
      objects := [];
      status := [];
      goal := NULL_EXPRESSION;
    }

    /** `addObject` appends whatever overwrite says. */
    method AddObject(item: TypedItem, overwrite: bool)
      modifies this
      ensures Value() == old(Value()).(objects := old(objects) + [item])
    {
      objects := objects + [item];
    }

    /** `addInitialStatus`: scan for an equal expression, then append. */
    method AddInitialStatus(e: Expression) returns (r: Outcome<Error>)
      modifies this
      ensures (r, Value()) == AddedStatus(old(Value()), e)
    {
      var i := 0;
      while i < |status|
        invariant 0 <= i <= |status|
        invariant e !in status[..i]
      {
        if e == status[i] {
          var text := ExpressionToLisp(e);
          return Fail(InvalidArgument(STATUS_EXISTS_PREFIX + text + ALREADY_EXISTS));
        }
        assert status[..i + 1] == status[..i] + [status[i]];
        i := i + 1;
      }
      assert status[..i] == status;
      status := status + [e];
      return Pass;
    }

    /** `setGoal` replaces the goal. */
    method SetGoal(e: Expression)
      modifies this
      ensures Value() == old(Value()).(goal := e)
    {
      goal := e;
    }

    /** `toLISP`: the two opening lines, each section under its condition, the footer. */
    method ToLisp() returns (s: string)
      ensures s == ProblemText(Value())
    {
      var objs := StreamObjects(objects);
      var init := StreamStatus(status);
      var g := StreamGoal(goal);
      s := PROBLEM_HEADER + name + LINE_CLOSE + DOMAIN_LINE_OPEN + domain.name + LINE_CLOSE;
      s := s + (objs + init + g) + PROBLEM_FOOTER;
    }
  }

  // ---------------------------------------------------------------------
  // Properties of the text

  /** The text opens with the BEGIN line, the problem's name and the domain's name, and closes with the END line. */
  lemma ProblemTextFrame(p: ProblemValue)
    ensures StartsWith(ProblemText(p), "; BEGIN problem definition\n(define (problem " + p.name + ")\n    (:domain " + p.domain.name + ")\n")
    ensures var s := ProblemText(p); |s| >= |PROBLEM_FOOTER| && s[|s| - |PROBLEM_FOOTER|..] == PROBLEM_FOOTER
  {
    var s := ProblemText(p);
    var head := ProblemHead(p);
    var body := ObjectsText(p.objects) + InitText(p.status) + GoalText(p.goal);
    assert s == head + (body + PROBLEM_FOOTER);
    assert s[..|head|] == head;
  }

  /** Each section is there exactly under its condition. */
  lemma ProblemSections(p: ProblemValue)
    ensures ObjectsText(p.objects) == "" <==> |p.objects| == 0
    ensures InitText(p.status) == "" <==> |p.status| == 0
    ensures GoalText(p.goal) == "" <==> IsNull(p.goal)
  {
  }

  /** A problem with no objects, no initial status and the null goal has only its opening and closing lines. */
  lemma FreshProblemText(name: string, d: DomainValue)
    ensures ProblemText(ProblemValue(name, d, [], [], NULL_EXPRESSION)) == ProblemHead(ProblemValue(name, d, [], [], NULL_EXPRESSION)) + PROBLEM_FOOTER
  {
  }

  /** Labels and types with no line break in them: each object is one line. */
  predicate OneLine(o: TypedItem)
  {
    '\n' !in o.name && '\n' !in o.typeName
  }

  /** The objects section holds exactly one line per object. */
  lemma {:induction false} ObjectLinesCount(objects: seq<TypedItem>)
    requires forall k :: 0 <= k < |objects| ==> OneLine(objects[k])
    ensures Count(ObjectLines(objects), '\n') == |objects|
  {
    if |objects| > 0 {
      var o := objects[|objects| - 1];
      ObjectLinesCount(objects[..|objects| - 1]);
      NoBreak(INDENT);
      NoBreak(TYPE_SEPARATOR);
      NoBreak(o.name);
      NoBreak(o.typeName);
      assert Count("\n", '\n') == 1 by { assert "\n"[..0] == []; }
      CountAppend(INDENT, o.name, '\n');
      CountAppend(INDENT + o.name, TYPE_SEPARATOR, '\n');
      CountAppend(INDENT + o.name + TYPE_SEPARATOR, o.typeName, '\n');
      CountAppend(INDENT + o.name + TYPE_SEPARATOR + o.typeName, "\n", '\n');
      CountAppend(ObjectLines(objects[..|objects| - 1]), ObjectLine(o), '\n');
    }
  }

  lemma NoBreak(s: string)
    requires '\n' !in s
    ensures Count(s, '\n') == 0
  {
    CountAbsent(s, '\n');
  }
}
