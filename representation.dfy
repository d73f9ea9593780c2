/**
 * The building blocks of a PDDL domain: typed items, predicates, arities and
 * the arity validator, expressions and actions. TypedItem, Predicate,
 * Expression and Action are copied by value in the library (an Expression
 * owns its sub-expressions and its copy constructor copies them deeply), so
 * they are datatypes here; the convenience constructors that drop undefined
 * or empty arguments are functions. The validator's map is filled in place
 * by its constructor, so ArityValidator is a class.
 */
module Representation {
  import opened Wrappers
  import opened StdString
  import opened OrderedMap

  // ---------------------------------------------------------------------
  // Keeping the wanted elements of a list

  /** The elements of xs that satisfy keep, in their order. */
  function Kept<T(!new)>(xs: seq<T>, keep: T -> bool): (r: seq<T>)
    ensures |r| <= |xs|
    ensures forall k :: 0 <= k < |r| ==> keep(r[k])
  {
    if |xs| == 0 then [] else Kept(xs[..|xs| - 1], keep) + (if keep(xs[|xs| - 1]) then [xs[|xs| - 1]] else [])
  }

  /** Exactly the elements that satisfy keep are kept. */
  lemma {:induction false} KeptMembers<T(!new)>(xs: seq<T>, keep: T -> bool, x: T)
    ensures x in Kept(xs, keep) <==> x in xs && keep(x)
  {
    if |xs| > 0 {
      KeptMembers(xs[..|xs| - 1], keep, x);
      assert xs == xs[..|xs| - 1] + [xs[|xs| - 1]];
    }
  }

  /** Keeping from a list of three: each element in turn, when it is kept. */
  lemma KeptThree<T(!new)>(a: T, b: T, c: T, keep: T -> bool)
    ensures Kept([a, b, c], keep)
            == (if keep(a) then [a] else []) + (if keep(b) then [b] else []) + (if keep(c) then [c] else [])
  {
    var ka := if keep(a) then [a] else [];
    assert Kept([a], keep) == ka by { assert [a][..0] == []; assert [] + ka == ka; }
    assert Kept([a, b], keep) == ka + (if keep(b) then [b] else []) by { assert [a, b][..1] == [a]; }
    assert [a, b, c][..2] == [a, b];
  }

  /** Keeping commutes with concatenation: the kept elements stay in list order. */
  lemma {:induction false} KeptAppend<T(!new)>(xs: seq<T>, ys: seq<T>, keep: T -> bool)
    ensures Kept(xs + ys, keep) == Kept(xs, keep) + Kept(ys, keep)
  {
    if |ys| == 0 {
      assert xs + ys == xs;
    } else {
      assert (xs + ys)[..|xs + ys| - 1] == xs + ys[..|ys| - 1];
      KeptAppend(xs, ys[..|ys| - 1], keep);
    }
  }

  // ---------------------------------------------------------------------
  // Typed items and predicates

  /** A label with its type; the default-constructed item has both empty. */
  datatype TypedItem = TypedItem(name: string, typeName: string)

  const UNDEFINED_ITEM: TypedItem := TypedItem("", "")

  /** `TypedItem::undefined`: the label or the type is empty. */
  predicate Undefined(t: TypedItem)
  {
    |t.name| == 0 || |t.typeName| == 0
  }

  predicate Defined(t: TypedItem)
  {
    !Undefined(t)
  }

  datatype Predicate = Predicate(name: string, arguments: seq<TypedItem>)

  /**
   * The arguments the three-argument Predicate and Action constructors keep:
   * each one is appended when it is defined, so they are the defined ones in
   * argument order.
   */
  function DefinedArguments(arg0: TypedItem, arg1: TypedItem, arg2: TypedItem): (r: seq<TypedItem>)
    ensures r == Kept([arg0, arg1, arg2], Defined)
  {
    var first := if Undefined(arg0) then [] else [arg0];
    var second := if Undefined(arg1) then first else first + [arg1];
    var third := if Undefined(arg2) then second else second + [arg2];
    KeptThree(arg0, arg1, arg2, Defined);
    third
  }

  /** The three-argument Predicate constructor. */
  function NewPredicate(name: string, arg0: TypedItem, arg1: TypedItem, arg2: TypedItem): (p: Predicate)
    ensures p.name == name
    ensures p.arguments == Kept([arg0, arg1, arg2], Defined)
  {
    Predicate(name, DefinedArguments(arg0, arg1, arg2))
  }

  /** With the defaulted trailing arguments the constructor keeps exactly the defined first one. */
  lemma OneArgumentPredicate(name: string, arg0: TypedItem)
    ensures NewPredicate(name, arg0, UNDEFINED_ITEM, UNDEFINED_ITEM).arguments == if Undefined(arg0) then [] else [arg0]
  {
  }

  // ---------------------------------------------------------------------
  // Arity

  /** uint8_t. */
  type UInt8 = n: int | 0 <= n < 256

  const UINT8_MAX: UInt8 := 255

  datatype Arity = Arity(min: UInt8, max: UInt8)

  /** The default-constructed Arity allows any count a uint8_t can hold. */
  const DEFAULT_ARITY: Arity := Arity(0, UINT8_MAX)

  function ArityOrderMessage(): string
  {
    ARITY_ORDER_MESSAGE
  }

  const ARITY_ORDER_MESSAGE: string := "pddl_planner::representation::Arity: min arity greater than max"

  /** `Arity(min, max)`: throws invalid_argument when min exceeds max. */
  function NewArity(min: UInt8, max: UInt8): (r: Result<Arity, Error>)
    ensures r.Failure? <==> min > max
    ensures r.Success? ==> r.value.min == min && r.value.max == max
    ensures r.Failure? ==> r.error == InvalidArgument(ArityOrderMessage())
  {
    if min > max then Failure(InvalidArgument(ArityOrderMessage()))
    else Success(Arity(min, max))
  }

  /** `Arity::exact(n)`: the range [n, n], which never throws. */
  function ArityExact(n: UInt8): (a: Arity)
    ensures NewArity(n, n) == Success(a)
  {
    Arity(n, n)
  }

  /** `Arity::min(n)`: the range [n, 255], which never throws. */
  function ArityMin(n: UInt8): (a: Arity)
    ensures NewArity(n, UINT8_MAX) == Success(a)
  {
    Arity(n, UINT8_MAX)
  }

  /** `Arity::max(n)`: the range [0, n], which never throws. */
  function ArityMax(n: UInt8): (a: Arity)
    ensures NewArity(0, n) == Success(a)
  {
    Arity(0, n)
  }

  // ---------------------------------------------------------------------
  // The arity validator

  /** The arity of a predicate: the size of its argument list, truncated to uint8_t. */
  function PredicateArity(p: Predicate): (a: Arity)
    ensures a.min == a.max == |p.arguments| % 256
  {
    ArityExact(|p.arguments| % 256)
  }

  /** The writes the validator's constructor makes, one per predicate in list order. */
  function PredicateArities(predicates: seq<Predicate>): (w: seq<(string, Arity)>)
    ensures |w| == |predicates|
    ensures forall k :: 0 <= k < |w| ==> w[k] == (predicates[k].name, PredicateArity(predicates[k]))
  {
    if |predicates| == 0 then []
    else
      var last := predicates[|predicates| - 1];
      PredicateArities(predicates[..|predicates| - 1]) + [(last.name, PredicateArity(last))]
  }

  /** The operator labels `addDefaults` gives an arity. */
  const AND: string := "and"
  const OR: string := "or"
  const NOT: string := "not"
  const EQUALS: string := "="
  const WHEN: string := "when"
  const FORALL: string := "forall"

  /** The writes `addDefaults` makes, in order. */
  const DEFAULT_ARITIES: seq<(string, Arity)> :=
    [(AND, ArityMin(2)), (OR, ArityMin(2)), (NOT, ArityExact(1)),
     (EQUALS, ArityExact(2)), (WHEN, ArityMin(1)), (FORALL, ArityMin(2))]

  /** The map a validator built from these predicates holds. */
  function ValidatorMap(predicates: seq<Predicate>): (m: Entries<Arity>)
    ensures Ascending(m)
  {
    PutAll([], PredicateArities(predicates) + DEFAULT_ARITIES)
  }

  const UNKNOWN_LABEL_PREFIX: string := "pddl_planner::representation::ArityValidator: unknown predicate or operator: '"
  const VALIDATOR_PREFIX: string := "pddl_planner::representation::ArityValidator predicate or operator: '"
  const TOO_FEW_SUFFIX: string := "' provided with too few parameters"
  const TOO_MANY_SUFFIX: string := "' provided with too many parameters"

  function UnknownLabelMessage(name: string): string
  {
    UNKNOWN_LABEL_PREFIX + name + "'"
  }

  function TooFewMessage(name: string): string
  {
    VALIDATOR_PREFIX + name + TOO_FEW_SUFFIX
  }

  function TooManyMessage(name: string): string
  {
    VALIDATOR_PREFIX + name + TOO_MANY_SUFFIX
  }

  /** What `validate` does with a map: reject unknown labels, then counts outside the range. */
  function ValidateOutcome(m: Entries<Arity>, name: string, arity: UInt8): Outcome<Error>
  {
    match Get(m, name)
    case None => Fail(InvalidArgument(UnknownLabelMessage(name)))
    case Some(allowed) =>
      if arity < allowed.min then Fail(InvalidArgument(TooFewMessage(name)))
      else if arity > allowed.max then Fail(InvalidArgument(TooManyMessage(name)))
      else Pass
  }

  class ArityValidator {
    var arityMap: Entries<Arity>

    /** An assignment to `arityMap[label]` keeps the map a std::map. */
    predicate Valid()
      reads this
    {
      Ascending(arityMap)
    }

    /** Record each predicate's exact arity in list order, then add the operator defaults. */
    constructor (predicates: seq<Predicate>)
      ensures Valid()
      ensures arityMap == ValidatorMap(predicates)
    {
      arityMap := [];
      new;
      var i := 0;
      while i < |predicates|
        invariant 0 <= i <= |predicates|
        invariant Ascending(arityMap)
        invariant arityMap == PutAll([], PredicateArities(predicates[..i]))
      {
        assert predicates[..i + 1][..i] == predicates[..i];
        arityMap := Put(arityMap, predicates[i].name, ArityExact(|predicates[i].arguments| % 256));
        i := i + 1;
      }
      assert predicates[..i] == predicates;
      ghost var recorded := arityMap;
      AddDefaults();
      forall k ensures Get(arityMap, k) == Get(ValidatorMap(predicates), k) {
        ValidatorLookup(predicates, k);
        PutAllGet([], PredicateArities(predicates), k);
      }
      Canonical(arityMap, ValidatorMap(predicates));
    }

    /** `arityMap[label] = arity`. */
    method Assign(name: string, arity: Arity)
      requires Valid()
      modifies this
      ensures Valid()
      ensures arityMap == Put(old(arityMap), name, arity)
    {
      arityMap := Put(arityMap, name, arity);
    }

    /** `addDefaults`: the operator arities, written over whatever the map held for them. */
    method AddDefaults()
      requires Valid()
      modifies this
      ensures Valid()
      ensures forall k :: Get(arityMap, k) == if DefaultArity(k).Some? then DefaultArity(k) else Get(old(arityMap), k)
    {
      ghost var m0 := arityMap;
      Assign(AND, ArityMin(2));
      ghost var m1 := arityMap;
      Assign(OR, ArityMin(2));
      ghost var m2 := arityMap;
      Assign(NOT, ArityExact(1));
      ghost var m3 := arityMap;
      Assign(EQUALS, ArityExact(2));
      ghost var m4 := arityMap;
      Assign(WHEN, ArityMin(1));
      ghost var m5 := arityMap;
      Assign(FORALL, ArityMin(2));
      forall k ensures Get(arityMap, k) == if DefaultArity(k).Some? then DefaultArity(k) else Get(m0, k) {
        assert Get(arityMap, k) == if k == FORALL then Some(ArityMin(2)) else Get(m5, k);
        assert Get(m5, k) == if k == WHEN then Some(ArityMin(1)) else Get(m4, k);
        assert Get(m4, k) == if k == EQUALS then Some(ArityExact(2)) else Get(m3, k);
        assert Get(m3, k) == if k == NOT then Some(ArityExact(1)) else Get(m2, k);
        assert Get(m2, k) == if k == OR then Some(ArityMin(2)) else Get(m1, k);
        assert Get(m1, k) == if k == AND then Some(ArityMin(2)) else Get(m0, k);
      }
    }

    /** `validate`: throw for an unknown label or a count outside its range, succeed otherwise. */
    method Validate(name: string, arity: UInt8) returns (r: Outcome<Error>)
      ensures r == ValidateOutcome(arityMap, name, arity)
    {
      var found := Get(arityMap, name);
      if found.None? {
        return Fail(InvalidArgument(UnknownLabelMessage(name)));
      }
      var allowedArity := found.value;
      if arity < allowedArity.min {
        return Fail(InvalidArgument(TooFewMessage(name)));
      } else if arity > allowedArity.max {
        return Fail(InvalidArgument(TooManyMessage(name)));
      }
      return Pass;
    }
  }

  /** The arity `addDefaults` gives an operator label, and None for any other label. */
  function DefaultArity(name: string): Option<Arity>
  {
    if name == FORALL then Some(ArityMin(2))
    else if name == WHEN then Some(ArityMin(1))
    else if name == EQUALS then Some(ArityExact(2))
    else if name == NOT then Some(ArityExact(1))
    else if name == OR then Some(ArityMin(2))
    else if name == AND then Some(ArityMin(2))
    else None
  }

  /** The defaults' last writes give each operator label its arity and write no other label. */
  lemma DefaultArityWrites(name: string)
    ensures LastWrite(DEFAULT_ARITIES, name) == DefaultArity(name)
  {
    var d0: seq<(string, Arity)> := [];
    var d1 := d0 + [(AND, ArityMin(2))];
    var d2 := d1 + [(OR, ArityMin(2))];
    var d3 := d2 + [(NOT, ArityExact(1))];
    var d4 := d3 + [(EQUALS, ArityExact(2))];
    var d5 := d4 + [(WHEN, ArityMin(1))];
    var d6 := d5 + [(FORALL, ArityMin(2))];
    assert d6 == DEFAULT_ARITIES;
    LastWriteSnoc(d0, AND, ArityMin(2), name);
    LastWriteSnoc(d1, OR, ArityMin(2), name);
    LastWriteSnoc(d2, NOT, ArityExact(1), name);
    LastWriteSnoc(d3, EQUALS, ArityExact(2), name);
    LastWriteSnoc(d4, WHEN, ArityMin(1), name);
    LastWriteSnoc(d5, FORALL, ArityMin(2), name);
  }

  /** The last predicate with a label decides that label's recorded arity. */
  lemma {:induction false} LastPredicateWrite(predicates: seq<Predicate>, i: nat)
    requires i < |predicates|
    requires forall j :: i < j < |predicates| ==> predicates[j].name != predicates[i].name
    ensures LastWrite(PredicateArities(predicates), predicates[i].name) == Some(PredicateArity(predicates[i]))
  {
    if i < |predicates| - 1 {
      var init := predicates[..|predicates| - 1];
      assert PredicateArities(predicates)[..|predicates| - 1] == PredicateArities(init);
      LastPredicateWrite(init, i);
    }
  }

  /** A label no predicate and no default writes stays absent. */
  lemma {:induction false} UnwrittenLabel(predicates: seq<Predicate>, name: string)
    requires forall j :: 0 <= j < |predicates| ==> predicates[j].name != name
    ensures LastWrite(PredicateArities(predicates), name).None?
  {
    if |predicates| > 0 {
      var init := predicates[..|predicates| - 1];
      assert PredicateArities(predicates)[..|predicates| - 1] == PredicateArities(init);
      UnwrittenLabel(init, name);
    }
  }

  /**
   * The validator's map: the operator defaults win over a predicate of the
   * same name, every other predicate label has the exact arity of its last
   * predicate, and any other label is unknown.
   */
  lemma ValidatorLookup(predicates: seq<Predicate>, name: string)
    ensures Get(ValidatorMap(predicates), name)
            == if DefaultArity(name).Some? then DefaultArity(name) else LastWrite(PredicateArities(predicates), name)
  {
    PutAllGet([], PredicateArities(predicates) + DEFAULT_ARITIES, name);
    LastWriteAppend(PredicateArities(predicates), DEFAULT_ARITIES, name);
    DefaultArityWrites(name);
  }

  /**
   * A predicate that is the last of its name and is no operator validates
   * at its own argument count (modulo 256) and at no other.
   */
  lemma PredicateValidates(predicates: seq<Predicate>, i: nat, arity: UInt8)
    requires i < |predicates| && DefaultArity(predicates[i].name).None?
    requires forall j :: i < j < |predicates| ==> predicates[j].name != predicates[i].name
    ensures ValidateOutcome(ValidatorMap(predicates), predicates[i].name, arity) == Pass
            <==> arity == |predicates[i].arguments| % 256
  {
    ValidatorLookup(predicates, predicates[i].name);
    LastPredicateWrite(predicates, i);
  }

  /**
   * Whatever the predicates, `and` needs at least two parameters and `not`
   * exactly one, even when a predicate of that name says otherwise.
   */
  lemma OperatorArities(predicates: seq<Predicate>, arity: UInt8)
    ensures ValidateOutcome(ValidatorMap(predicates), AND, arity) == Pass <==> arity >= 2
    ensures ValidateOutcome(ValidatorMap(predicates), AND, 1) == Fail(InvalidArgument(TooFewMessage(AND)))
    ensures ValidateOutcome(ValidatorMap(predicates), NOT, 2) == Fail(InvalidArgument(TooManyMessage(NOT)))
  {
    ValidatorLookup(predicates, AND);
    ValidatorLookup(predicates, NOT);
  }

  /** A label that is no operator and names no predicate is rejected as unknown. */
  lemma UnknownLabelRejected(predicates: seq<Predicate>, unknown: string, arity: UInt8)
    requires DefaultArity(unknown).None? && forall j :: 0 <= j < |predicates| ==> predicates[j].name != unknown
    ensures ValidateOutcome(ValidatorMap(predicates), unknown, arity) == Fail(InvalidArgument(UnknownLabelMessage(unknown)))
  {
    ValidatorLookup(predicates, unknown);
    UnwrittenLabel(predicates, unknown);
  }

  /** The arity of a predicate with 256 arguments wraps around to exactly 0. */
  lemma ArityTruncates(p: Predicate)
    requires |p.arguments| == 256
    ensures PredicateArity(p) == Arity(0, 0)
  {
  }

  // ---------------------------------------------------------------------
  // Expressions

  /** A label with its sub-expressions; an expression without any is atomic. */
  datatype Expression = Expression(name: string, parameters: seq<Expression>)

  /** The default-constructed expression: empty label, no sub-expressions. */
  const NULL_EXPRESSION: Expression := Expression("", [])

  /** `Expression(label)`: an atomic expression. */
  function Atom(name: string): (e: Expression)
    ensures e.name == name && IsAtomic(e)
  {
    Expression(name, [])
  }

  predicate IsAtomic(e: Expression)
  {
    |e.parameters| == 0
  }

  predicate IsNull(e: Expression)
  {
    |e.name| == 0
  }

  predicate NotNull(e: Expression)
  {
    !IsNull(e)
  }

  predicate NonEmpty(s: string)
  {
    |s| > 0
  }

  /** `addParameter`: one more sub-expression at the end. */
  function AddParameter(e: Expression, p: Expression): (r: Expression)
    ensures r.name == e.name && r.parameters == e.parameters + [p]
  {
    Expression(e.name, e.parameters + [p])
  }

  /** Atomic expressions for a list of labels. */
  function Atoms(names: seq<string>): (r: seq<Expression>)
    ensures |r| == |names|
    ensures forall k :: 0 <= k < |r| ==> r[k] == Atom(names[k])
  {
    if |names| == 0 then [] else Atoms(names[..|names| - 1]) + [Atom(names[|names| - 1])]
  }

  /**
   * The constructor over sub-expressions: each argument that is not null is
   * added, so the parameters are the non-null arguments in argument order.
   */
  function ExpressionOf(name: string, arg0: Expression, arg1: Expression, arg2: Expression): (e: Expression)
    ensures e.name == name
    ensures e.parameters == Kept([arg0, arg1, arg2], NotNull)
  {
    var first := if IsNull(arg0) then [] else [arg0];
    var second := if IsNull(arg1) then first else first + [arg1];
    var third := if IsNull(arg2) then second else second + [arg2];
    KeptThree(arg0, arg1, arg2, NotNull);
    Expression(name, third)
  }

  /**
   * The constructor over labels: each non-empty label is added as an atomic
   * sub-expression, in argument order.
   */
  function ExpressionOfLabels(name: string, arg0: string, arg1: string, arg2: string): (e: Expression)
    ensures e.name == name
    ensures e.parameters == Atoms(Kept([arg0, arg1, arg2], NonEmpty))
  {
    var first := if |arg0| == 0 then [] else [arg0];
    var second := if |arg1| == 0 then first else first + [arg1];
    var third := if |arg2| == 0 then second else second + [arg2];
    KeptThree(arg0, arg1, arg2, NonEmpty);
    Expression(name, Atoms(third))
  }

  /** The text of `toLISP`: the label of an atomic expression, otherwise the parenthesised list. */
  function ToLisp(e: Expression): (r: string)
    ensures !IsAtomic(e) ==> |r| >= 2 && r[0] == '(' && r[|r| - 1] == ')'
    decreases e, 1
  {
    if IsAtomic(e) then e.name else "(" + e.name + ParametersLisp(e.parameters) + ")"
  }

  /** Each sub-expression's text preceded by one space, in order. */
  function ParametersLisp(ps: seq<Expression>): (r: string)
    ensures |ps| > 0 ==> |r| > 0 && r[0] == ' '
    decreases ps, 0
  {
    if |ps| == 0 then "" else ParametersLisp(ps[..|ps| - 1]) + " " + ToLisp(ps[|ps| - 1])
  }

  /** `Expression::toLISP`: the label, or "(" and the label followed by each parameter's text, then ")". */
  method ExpressionToLisp(e: Expression) returns (txt: string)
    ensures txt == ToLisp(e)
    decreases e
  {
    if |e.parameters| == 0 {
      return e.name;
    }
    txt := "(" + e.name;
    var i := 0;
    while i < |e.parameters|
      invariant 0 <= i <= |e.parameters|
      invariant txt == "(" + e.name + ParametersLisp(e.parameters[..i])
    {
      var p := ExpressionToLisp(e.parameters[i]);
      assert e.parameters[..i + 1][..i] == e.parameters[..i];
      txt := txt + " " + p;
      i := i + 1;
    }
    assert e.parameters[..i] == e.parameters;
    txt := txt + ")";
  }

  /** The copy constructor: the label and a deep copy of every sub-expression, in order. */
  method CopyExpression(other: Expression) returns (e: Expression)
    ensures e == other
    decreases other
  {
    var parameters: seq<Expression> := [];
    var i := 0;
    while i < |other.parameters|
      invariant 0 <= i <= |other.parameters|
      invariant parameters == other.parameters[..i]
    {
      var copy := CopyExpression(other.parameters[i]);
      parameters := parameters + [copy];
      i := i + 1;
    }
    assert other.parameters[..i] == other.parameters;
    e := Expression(other.name, parameters);
  }

  /** Adding a parameter to a compound expression puts its text just before the closing parenthesis. */
  lemma AddParameterLisp(e: Expression, p: Expression)
    requires !IsAtomic(e)
    ensures ToLisp(AddParameter(e, p)) == ToLisp(e)[..|ToLisp(e)| - 1] + " " + ToLisp(p) + ")"
  {
    var ps := AddParameter(e, p).parameters;
    assert ps[..|ps| - 1] == e.parameters;
    var inner := "(" + e.name + ParametersLisp(e.parameters);
    assert ToLisp(e) == inner + ")";
    assert ToLisp(e)[..|ToLisp(e)| - 1] == inner;
  }

  /** No label anywhere in the expression contains a parenthesis. */
  predicate ParenFree(e: Expression)
    decreases e
  {
    '(' !in e.name && ')' !in e.name && forall k :: 0 <= k < |e.parameters| ==> ParenFree(e.parameters[k])
  }

  /** The text of an expression whose labels hold no parentheses opens as many as it closes. */
  lemma {:induction false} LispBalanced(e: Expression)
    requires ParenFree(e)
    ensures Count(ToLisp(e), '(') == Count(ToLisp(e), ')')
    decreases e, 1
  {
    if IsAtomic(e) {
      CountAbsent(e.name, '(');
      CountAbsent(e.name, ')');
    } else {
      ParametersBalanced(e.parameters);
      var ps := ParametersLisp(e.parameters);
      CountAbsent(e.name, '(');
      CountAbsent(e.name, ')');
      assert Count("(", '(') == 1 && Count("(", ')') == 0 by { assert "("[..0] == []; }
      assert Count(")", '(') == 0 && Count(")", ')') == 1 by { assert ")"[..0] == []; }
      CountAppend("(", e.name, '(');
      CountAppend("(", e.name, ')');
      CountAppend("(" + e.name, ps, '(');
      CountAppend("(" + e.name, ps, ')');
      CountAppend("(" + e.name + ps, ")", '(');
      CountAppend("(" + e.name + ps, ")", ')');
    }
  }

  lemma {:induction false} ParametersBalanced(ps: seq<Expression>)
    requires forall k :: 0 <= k < |ps| ==> ParenFree(ps[k])
    ensures Count(ParametersLisp(ps), '(') == Count(ParametersLisp(ps), ')')
    decreases ps, 0
  {
    if |ps| > 0 {
      var init := ps[..|ps| - 1];
      var last := ps[|ps| - 1];
      ParametersBalanced(init);
      LispBalanced(last);
      var a := ParametersLisp(init);
      assert Count(" ", '(') == 0 && Count(" ", ')') == 0 by { assert " "[..0] == []; }
      CountAppend(a, " ", '(');
      CountAppend(a, " ", ')');
      CountAppend(a + " ", ToLisp(last), '(');
      CountAppend(a + " ", ToLisp(last), ')');
    }
  }

  /** The text of an expression with one, two or three sub-expressions. */
  lemma {:induction false} OneParameterText(name: string, a: Expression)
    ensures ToLisp(Expression(name, [a])) == "(" + name + " " + ToLisp(a) + ")"
  {
    OneParameterLisp(a);
  }

  lemma {:induction false} TwoParametersText(name: string, a: Expression, b: Expression)
    ensures ToLisp(Expression(name, [a, b])) == "(" + name + " " + ToLisp(a) + " " + ToLisp(b) + ")"
  {
    OneParameterLisp(a);
    PushParameterLisp([a], b);
    assert [a] + [b] == [a, b];
  }

  lemma {:induction false} ThreeParametersText(name: string, a: Expression, b: Expression, c: Expression)
    ensures ToLisp(Expression(name, [a, b, c])) == "(" + name + " " + ToLisp(a) + " " + ToLisp(b) + " " + ToLisp(c) + ")"
  {
    OneParameterLisp(a);
    PushParameterLisp([a], b);
    assert [a] + [b] == [a, b];
    PushParameterLisp([a, b], c);
    assert [a, b] + [c] == [a, b, c];
  }

  lemma {:induction false} OneParameterLisp(a: Expression)
    ensures ParametersLisp([a]) == " " + ToLisp(a)
  {
    assert [a][..0] == [];
  }

  /** One more sub-expression adds a space and its text. */
  lemma {:induction false} PushParameterLisp(ps: seq<Expression>, p: Expression)
    ensures ParametersLisp(ps + [p]) == ParametersLisp(ps) + " " + ToLisp(p)
  {
    assert (ps + [p])[..|ps|] == ps;
  }

  /** An atomic formula over two labels prints as the parenthesised three words. */
  lemma TwoLabelText(name: string, arg0: string, arg1: string)
    requires |arg0| > 0 && |arg1| > 0
    ensures ToLisp(ExpressionOfLabels(name, arg0, arg1, "")) == "(" + name + " " + arg0 + " " + arg1 + ")"
  {
    assert ExpressionOfLabels(name, arg0, arg1, "") == Expression(name, [Atom(arg0), Atom(arg1)]);
    TwoParametersText(name, Atom(arg0), Atom(arg1));
  }

  /** `Expression("and", "?a", "?b")` prints as the library's test expects. */
  lemma AndText()
    ensures ToLisp(ExpressionOfLabels("and", "?a", "?b", "")) == "(and ?a ?b)"
  {
    TwoLabelText("and", "?a", "?b");
  }

  /** Its negation, built with the sub-expression constructor, prints as the test expects. */
  lemma NotAndText()
    ensures ToLisp(ExpressionOf("not", ExpressionOfLabels("and", "?a", "?b", ""), NULL_EXPRESSION, NULL_EXPRESSION))
            == "(not (and ?a ?b))"
  {
    var a := ExpressionOfLabels("and", "?a", "?b", "");
    AndText();
    NotOfOne("not", a);
    OneParameterText("not", a);
    NotText("not", ToLisp(a));
  }

  lemma {:induction false} NotText(not: string, inner: string)
    requires not == "not" && inner == "(and ?a ?b)"
    ensures "(" + not + " " + inner + ")" == "(not (and ?a ?b))"
  {
  }

  /** The sub-expression constructor with only its first sub-expression defined. */
  lemma {:induction false} NotOfOne(name: string, a: Expression)
    requires !IsNull(a)
    ensures ExpressionOf(name, a, NULL_EXPRESSION, NULL_EXPRESSION) == Expression(name, [a])
  {
  }

  /**
   * A conjunction of three atomic formulas over two labels each, the shape of
   * the goal in the library's test, prints as "(and" and a space followed by the three
   * parenthesised formulas separated by single spaces, then ")".
   */
  lemma ConjunctionText(p0: string, x0: string, y0: string, p1: string, x1: string, y1: string,
                        p2: string, x2: string, y2: string)
    requires |p0| > 0 && |x0| > 0 && |y0| > 0 && |p1| > 0 && |x1| > 0 && |y1| > 0 && |p2| > 0 && |x2| > 0 && |y2| > 0
    ensures ToLisp(ExpressionOf("and", ExpressionOfLabels(p0, x0, y0, ""), ExpressionOfLabels(p1, x1, y1, ""),
                                ExpressionOfLabels(p2, x2, y2, "")))
            == "(" + "and" + " " + ("(" + p0 + " " + x0 + " " + y0 + ")") + " " + ("(" + p1 + " " + x1 + " " + y1 + ")")
               + " " + ("(" + p2 + " " + x2 + " " + y2 + ")") + ")"
  {
    var g0 := ExpressionOfLabels(p0, x0, y0, "");
    var g1 := ExpressionOfLabels(p1, x1, y1, "");
    var g2 := ExpressionOfLabels(p2, x2, y2, "");
    TwoLabelText(p0, x0, y0);
    TwoLabelText(p1, x1, y1);
    TwoLabelText(p2, x2, y2);
    assert ExpressionOf("and", g0, g1, g2) == Expression("and", [g0, g1, g2]);
    ThreeParametersText("and", g0, g1, g2);
  }

  // ---------------------------------------------------------------------
  // Actions

  datatype Action = Action(name: string, arguments: seq<TypedItem>, preconditions: seq<Expression>, effects: seq<Expression>)

  /**
   * The three-argument Action constructor: the defined arguments in argument
   * order, and neither preconditions nor effects.
   */
  function NewAction(name: string, arg0: TypedItem, arg1: TypedItem, arg2: TypedItem): (a: Action)
    ensures a.name == name
    ensures a.arguments == Kept([arg0, arg1, arg2], Defined)
    ensures a.preconditions == [] && a.effects == []
  {
    Action(name, DefinedArguments(arg0, arg1, arg2), [], [])
  }

  /** `addPrecondition`: one more precondition at the end, everything else as it was. */
  function AddPrecondition(a: Action, e: Expression): (r: Action)
    ensures r.preconditions == a.preconditions + [e]
    ensures r.name == a.name && r.arguments == a.arguments && r.effects == a.effects
  {
    a.(preconditions := a.preconditions + [e])
  }

  /** `addEffect`: one more effect at the end, everything else as it was. */
  function AddEffect(a: Action, e: Expression): (r: Action)
    ensures r.effects == a.effects + [e]
    ensures r.name == a.name && r.arguments == a.arguments && r.preconditions == a.preconditions
  {
    a.(effects := a.effects + [e])
  }
}
