/**
 * The PDDL domain under construction. Domain's lists are changed in place by
 * its add and remove operations, so Domain is a class whose fields are
 * sequences; each operation is specified by a function on a DomainValue, the
 * snapshot of those fields, and the properties of the operations are lemmas
 * about these functions. `toLISP` streams the domain into text section by
 * section; DomainText is the text it produces.
 */
module Domains {
  import opened Wrappers
  import opened StdString
  import opened Representation

  // ---------------------------------------------------------------------
  // Lists of labelled items

  /** Some item of the list carries the label. */
  predicate HasLabel<T>(items: seq<T>, labelOf: T -> string, name: string)
  {
    exists k :: 0 <= k < |items| && labelOf(items[k]) == name
  }

  /** No two items of the list carry the same label. */
  predicate UniqueLabels<T>(items: seq<T>, labelOf: T -> string)
  {
    forall i, j :: 0 <= i < j < |items| ==> labelOf(items[i]) != labelOf(items[j])
  }

  /** What the `remove*` loops are meant to leave: the items with a different label, in order. */
  function WithoutLabel<T(!new)>(items: seq<T>, labelOf: T -> string, name: string): (r: seq<T>)
    ensures !HasLabel(r, labelOf, name)
    ensures |r| <= |items|
  {
    Kept(items, x => labelOf(x) != name)
  }

  /** Exactly the items with another label survive the removal. */
  lemma WithoutLabelMembers<T(!new)>(items: seq<T>, labelOf: T -> string, name: string, x: T)
    ensures x in WithoutLabel(items, labelOf, name) <==> x in items && labelOf(x) != name
  {
    KeptMembers(items, x => labelOf(x) != name, x);
  }

  /** Removal looks at each item in turn. */
  lemma WithoutLabelSnoc<T(!new)>(items: seq<T>, labelOf: T -> string, name: string, x: T)
    ensures WithoutLabel(items + [x], labelOf, name)
            == WithoutLabel(items, labelOf, name) + (if labelOf(x) != name then [x] else [])
  {
    assert (items + [x])[..|items|] == items;
  }

  /** Removing a label no item carries changes nothing. */
  lemma {:induction false} WithoutAbsentLabel<T(!new)>(items: seq<T>, labelOf: T -> string, name: string)
    requires !HasLabel(items, labelOf, name)
    ensures WithoutLabel(items, labelOf, name) == items
  {
    if |items| > 0 {
      var init := items[..|items| - 1];
      assert !HasLabel(init, labelOf, name) by {
        forall k | 0 <= k < |init| ensures labelOf(init[k]) != name {
          assert init[k] == items[k];
        }
      }
      WithoutAbsentLabel(init, labelOf, name);
      assert labelOf(items[|items| - 1]) != name;
      assert init + [items[|items| - 1]] == items;
    }
  }

  /** Removal keeps labels unique: what survives is a sub-list. */
  lemma {:induction false} WithoutLabelUnique<T(!new)>(items: seq<T>, labelOf: T -> string, name: string)
    requires UniqueLabels(items, labelOf)
    ensures UniqueLabels(WithoutLabel(items, labelOf, name), labelOf)
  {
    if |items| > 0 {
      var init := items[..|items| - 1];
      var last := items[|items| - 1];
      var keep := x => labelOf(x) != name;
      assert UniqueLabels(init, labelOf) by {
        forall i, j | 0 <= i < j < |init| ensures labelOf(init[i]) != labelOf(init[j]) {
          assert init[i] == items[i] && init[j] == items[j];
        }
      }
      WithoutLabelUnique(init, labelOf, name);
      if keep(last) {
        var front := Kept(init, keep);
        forall x | x in front ensures labelOf(x) != labelOf(last) {
          KeptMembers(init, keep, x);
          var i :| 0 <= i < |init| && init[i] == x;
          assert items[i] == x;
        }
        AppendUnique(front, labelOf, last);
      }
    }
  }

  /** An item whose label is new may be appended to a list of unique labels. */
  lemma AppendUnique<T>(items: seq<T>, labelOf: T -> string, x: T)
    requires UniqueLabels(items, labelOf)
    requires forall y | y in items :: labelOf(y) != labelOf(x)
    ensures UniqueLabels(items + [x], labelOf)
  {
    var r := items + [x];
    forall i, j | 0 <= i < j < |r| ensures labelOf(r[i]) != labelOf(r[j]) {
      if j == |items| {
        assert r[i] in items;
      } else {
        assert r[i] == items[i] && r[j] == items[j];
      }
    }
  }

  /** Removing a label and appending an item carrying it: the item is the only one with that label. */
  lemma ReplaceUnique<T(!new)>(items: seq<T>, labelOf: T -> string, x: T)
    requires UniqueLabels(items, labelOf)
    ensures UniqueLabels(WithoutLabel(items, labelOf, labelOf(x)) + [x], labelOf)
  {
    var rest := WithoutLabel(items, labelOf, labelOf(x));
    WithoutLabelUnique(items, labelOf, labelOf(x));
    forall y | y in rest ensures labelOf(y) != labelOf(x) {
      var k :| 0 <= k < |rest| && rest[k] == y;
    }
    AppendUnique(rest, labelOf, x);
  }

  /**
   * The loop of `is*`: walk the list and stop at the first item with the
   * label.
   */
  method ContainsLabel<T>(items: seq<T>, labelOf: T -> string, name: string) returns (found: bool)
    ensures found <==> HasLabel(items, labelOf, name)
  {
    var i := 0;
    while i < |items|
      invariant 0 <= i <= |items|
      invariant forall k :: 0 <= k < i ==> labelOf(items[k]) != name
    {
      if labelOf(items[i]) == name {
        return true;
      }
      i := i + 1;
    }
    return false;
  }

  /** The intended `remove*` loop: keep, in order, every item with another label. */
  method RemoveLabel<T(!new)>(items: seq<T>, labelOf: T -> string, name: string) returns (kept: seq<T>)
    ensures kept == WithoutLabel(items, labelOf, name)
  {
    kept := [];
    var i := 0;
    while i < |items|
      invariant 0 <= i <= |items|
      invariant kept == WithoutLabel(items[..i], labelOf, name)
    {
      assert items[..i + 1][..i] == items[..i];
      if labelOf(items[i]) != name {
        kept := kept + [items[i]];
      }
      i := i + 1;
    }
    assert items[..i] == items;
  }

  // ---------------------------------------------------------------------
  // The remove loops as written

  /**
   * The `remove*` loops as written, on a list and the position of the
   * iterator. After `erase(cit)` the loop still runs `++cit`; modelling the
   * vector's iterator as a position, it then stands one past the element that
   * followed the erased one, so that element is never looked at, and when the
   * erased element was the last one the increment goes past `end()` and the
   * loop's behaviour is undefined (None).
   */
  function EraseLoop<T>(items: seq<T>, labelOf: T -> string, name: string, i: nat): (r: Option<seq<T>>)
    requires i <= |items|
    ensures r.Some? ==> |r.value| <= |items|
    decreases |items| - i
  {
    if i == |items| then Some(items)
    else if labelOf(items[i]) == name then
      var rest := items[..i] + items[i + 1..];
      if i == |rest| then None else EraseLoop(rest, labelOf, name, i + 1)
    else EraseLoop(items, labelOf, name, i + 1)
  }

  /** `removeConstant` as written, from the start of the list. */
  function RemoveAsWritten<T>(items: seq<T>, labelOf: T -> string, name: string): (r: Option<seq<T>>)
    ensures r.Some? ==> |r.value| <= |items|
  {
    EraseLoop(items, labelOf, name, 0)
  }

  /**
   * Removing the only constant, as `addConstant` with overwrite does for a
   * domain holding one constant, runs the iterator past the end.
   */
  lemma RemoveLastIsUndefined(c: TypedItem)
    ensures RemoveAsWritten([c], ConstantLabel, c.name) == None
    ensures WithoutLabel([c], ConstantLabel, c.name) == []
  {
    assert [c][..0] + [c][1..] == [];
  }

  /** Two adjacent matches: the second one is stepped over and survives. */
  lemma AdjacentMatchSurvives(a: TypedItem, b: TypedItem, other: TypedItem)
    requires a.name == b.name && other.name != a.name
    ensures RemoveAsWritten([a, b, other], ConstantLabel, a.name) == Some([b, other])
    ensures HasLabel([b, other], ConstantLabel, a.name)
    ensures WithoutLabel([a, b, other], ConstantLabel, a.name) == [other]
  {
    var xs := [a, b, other];
    assert xs[..0] + xs[1..] == [b, other];
    assert EraseLoop([b, other], ConstantLabel, a.name, 1) == EraseLoop([b, other], ConstantLabel, a.name, 2);
    WithoutLabelSnoc([], ConstantLabel, a.name, a);
    WithoutLabelSnoc([a], ConstantLabel, a.name, b);
    WithoutLabelSnoc([a, b], ConstantLabel, a.name, other);
    assert [] + [a] == [a] && [a] + [b] == [a, b] && [a, b] + [other] == xs;
  }

  /**
   * Where the loop as written is defined and the labels are unique, it
   * agrees with the intended removal.
   */
  lemma {:induction false} EraseLoopAgrees<T(!new)>(items: seq<T>, labelOf: T -> string, name: string, i: nat)
    requires i <= |items| && UniqueLabels(items, labelOf)
    requires forall k :: 0 <= k < i ==> labelOf(items[k]) != name
    requires EraseLoop(items, labelOf, name, i).Some?
    ensures EraseLoop(items, labelOf, name, i).value == WithoutLabel(items, labelOf, name)
    decreases |items| - i
  {
    if i == |items| {
      WithoutAbsentLabel(items, labelOf, name);
    } else if labelOf(items[i]) == name {
      var rest := items[..i] + items[i + 1..];
      assert i != |rest|;
      assert !HasLabel(rest, labelOf, name) by {
        forall k | 0 <= k < |rest| ensures labelOf(rest[k]) != name {
          if k >= i {
            assert rest[k] == items[k + 1];
          }
        }
      }
      assert UniqueLabels(rest, labelOf) by {
        forall p, q | 0 <= p < q < |rest| ensures labelOf(rest[p]) != labelOf(rest[q]) {
          var p' := if p < i then p else p + 1;
          var q' := if q < i then q else q + 1;
          assert rest[p] == items[p'] && rest[q] == items[q'];
        }
      }
      assert EraseLoop(rest, labelOf, name, i + 1) == EraseLoop(items, labelOf, name, i);
      assert forall k :: 0 <= k < i + 1 ==> labelOf(rest[k]) != name;
      EraseLoopAgrees(rest, labelOf, name, i + 1);
      WithoutAbsentLabel(rest, labelOf, name);
      WithoutAbsentDrop(items, labelOf, name, i);
    } else {
      EraseLoopAgrees(items, labelOf, name, i + 1);
    }
  }

  /** Removing the one item with the label from a list is the intended removal. */
  lemma {:induction false} WithoutAbsentDrop<T(!new)>(items: seq<T>, labelOf: T -> string, name: string, i: nat)
    requires i < |items| && labelOf(items[i]) == name
    requires forall k :: 0 <= k < |items| && k != i ==> labelOf(items[k]) != name
    ensures WithoutLabel(items, labelOf, name) == items[..i] + items[i + 1..]
  {
    var keep := x => labelOf(x) != name;
    assert items == items[..i] + ([items[i]] + items[i + 1..]);
    KeptAppend(items[..i], [items[i]] + items[i + 1..], keep);
    KeptAppend([items[i]], items[i + 1..], keep);
    assert !HasLabel(items[..i], labelOf, name) by {
      forall k | 0 <= k < i ensures labelOf(items[..i][k]) != name { assert items[..i][k] == items[k]; }
    }
    var tail := items[i + 1..];
    assert !HasLabel(tail, labelOf, name) by {
      forall k | 0 <= k < |tail| ensures labelOf(tail[k]) != name { assert tail[k] == items[i + 1 + k]; }
    }
    WithoutAbsentLabel(items[..i], labelOf, name);
    WithoutAbsentLabel(items[i + 1..], labelOf, name);
    assert Kept([items[i]], keep) == [] by { assert [items[i]][..0] == []; }
  }

  // ---------------------------------------------------------------------
  // The domain's fields as a value

  function ConstantLabel(c: TypedItem): string { c.name }
  function PredicateLabel(p: Predicate): string { p.name }
  function ActionLabel(a: Action): string { a.name }

  datatype DomainValue = DomainValue(name: string, types: seq<string>, constants: seq<TypedItem>,
                                     predicates: seq<Predicate>, requirements: seq<string>, actions: seq<Action>)

  /** The labels of constants, predicates and actions are unique, as `add*` keeps them. */
  predicate WellLabelled(d: DomainValue)
  {
    UniqueLabels(d.constants, ConstantLabel) && UniqueLabels(d.predicates, PredicateLabel)
    && UniqueLabels(d.actions, ActionLabel)
  }

  const ADD_CONSTANT_PREFIX: string := "pddl_planner::representation::Domain::addConstant "
  const ALREADY_EXISTS: string := "' already exists"

  function ConstantExistsMessage(name: string): string
  {
    ADD_CONSTANT_PREFIX + "constant '" + name + ALREADY_EXISTS
  }

  function UnknownTypeMessage(typeName: string): string
  {
    ADD_CONSTANT_PREFIX + "unknown type '" + typeName + "'"
  }

  /** `addPredicate` and `addAction` both report an existing label with this text. */
  function PredicateExistsMessage(name: string): string
  {
    ADD_CONSTANT_PREFIX + "predicate '" + name + ALREADY_EXISTS
  }

  /**
   * `addConstant`: an existing label is an error unless overwrite is set, in
   * which case the old constant is removed and the type is not checked; a
   * new label needs a known type. A failing call changes nothing.
   */
  function AddedConstant(d: DomainValue, c: TypedItem, overwrite: bool): (r: (Outcome<Error>, DomainValue))
    ensures r.0.Fail? ==> r.1 == d
    ensures r.0 == Pass <==>
      (if HasLabel(d.constants, ConstantLabel, c.name) then overwrite else c.typeName in d.types)
    ensures r.0 == Pass ==>
      r.1 == d.(constants := r.1.constants) && |r.1.constants| > 0 && r.1.constants[|r.1.constants| - 1] == c
  {
    if HasLabel(d.constants, ConstantLabel, c.name) then
      if overwrite then (Pass, d.(constants := WithoutLabel(d.constants, ConstantLabel, c.name) + [c]))
      else (Fail(InvalidArgument(ConstantExistsMessage(c.name))), d)
    else if c.typeName !in d.types then (Fail(InvalidArgument(UnknownTypeMessage(c.typeName))), d)
    else (Pass, d.(constants := d.constants + [c]))
  }

  /**
   * `addPredicate`: an existing label is an error unless overwrite is set;
   * otherwise any predicate with the label is removed and the new one
   * appended. Types are not checked.
   */
  function AddedPredicate(d: DomainValue, p: Predicate, overwrite: bool): (r: (Outcome<Error>, DomainValue))
    ensures r.0.Fail? ==> r.1 == d
    ensures r.0 == Pass <==> overwrite || !HasLabel(d.predicates, PredicateLabel, p.name)
    ensures r.0 == Pass ==>
      r.1 == d.(predicates := r.1.predicates) && |r.1.predicates| > 0 && r.1.predicates[|r.1.predicates| - 1] == p
  {
    if HasLabel(d.predicates, PredicateLabel, p.name) && !overwrite then
      (Fail(InvalidArgument(PredicateExistsMessage(p.name))), d)
    else (Pass, d.(predicates := WithoutLabel(d.predicates, PredicateLabel, p.name) + [p]))
  }

  /** `addAction`, the same steps as `addPredicate` on the actions. */
  function AddedAction(d: DomainValue, a: Action, overwrite: bool): (r: (Outcome<Error>, DomainValue))
    ensures r.0.Fail? ==> r.1 == d
    ensures r.0 == Pass <==> overwrite || !HasLabel(d.actions, ActionLabel, a.name)
    ensures r.0 == Pass ==>
      r.1 == d.(actions := r.1.actions) && |r.1.actions| > 0 && r.1.actions[|r.1.actions| - 1] == a
  {
    if HasLabel(d.actions, ActionLabel, a.name) && !overwrite then
      (Fail(InvalidArgument(PredicateExistsMessage(a.name))), d)
    else (Pass, d.(actions := WithoutLabel(d.actions, ActionLabel, a.name) + [a]))
  }

  /** The error texts of the failing adds. */
  lemma AddErrors(d: DomainValue, c: TypedItem, p: Predicate, a: Action)
    ensures HasLabel(d.constants, ConstantLabel, c.name) ==>
      AddedConstant(d, c, false).0 == Fail(InvalidArgument(ConstantExistsMessage(c.name)))
    ensures !HasLabel(d.constants, ConstantLabel, c.name) && c.typeName !in d.types ==>
      AddedConstant(d, c, true).0 == Fail(InvalidArgument(UnknownTypeMessage(c.typeName)))
    ensures HasLabel(d.predicates, PredicateLabel, p.name) ==>
      AddedPredicate(d, p, false).0 == Fail(InvalidArgument(PredicateExistsMessage(p.name)))
    ensures HasLabel(d.actions, ActionLabel, a.name) ==>
      AddedAction(d, a, false).0 == Fail(InvalidArgument(PredicateExistsMessage(a.name)))
  {
  }

  /** An item with a new label is simply appended. */
  lemma NewLabelAppends(d: DomainValue, c: TypedItem, p: Predicate, a: Action, overwrite: bool)
    ensures !HasLabel(d.constants, ConstantLabel, c.name) && c.typeName in d.types ==>
      AddedConstant(d, c, overwrite).1.constants == d.constants + [c]
    ensures !HasLabel(d.predicates, PredicateLabel, p.name) ==>
      AddedPredicate(d, p, overwrite).1.predicates == d.predicates + [p]
    ensures !HasLabel(d.actions, ActionLabel, a.name) ==>
      AddedAction(d, a, overwrite).1.actions == d.actions + [a]
  {
    if !HasLabel(d.predicates, PredicateLabel, p.name) {
      WithoutAbsentLabel(d.predicates, PredicateLabel, p.name);
    }
    if !HasLabel(d.actions, ActionLabel, a.name) {
      WithoutAbsentLabel(d.actions, ActionLabel, a.name);
    }
  }

  /**
   * An overwrite replaces the old item: the other items stay, in order, and
   * the new one is the only one with its label.
   */
  lemma OverwriteReplaces(d: DomainValue, c: TypedItem, x: TypedItem)
    requires HasLabel(d.constants, ConstantLabel, c.name)
    ensures var cs := AddedConstant(d, c, true).1.constants;
      (x in cs <==> x == c || (x in d.constants && x.name != c.name))
      && (forall k :: 0 <= k < |cs| - 1 ==> cs[k].name != c.name)
  {
    WithoutLabelMembers(d.constants, ConstantLabel, c.name, x);
    var rest := WithoutLabel(d.constants, ConstantLabel, c.name);
    assert forall k :: 0 <= k < |rest| ==> ConstantLabel(rest[k]) != c.name;
  }

  /**
   * After a successful add the label is known, so adding the same item again
   * without overwrite fails, as adding an action twice does.
   */
  lemma AddTwiceFails(d: DomainValue, c: TypedItem, p: Predicate, a: Action, overwrite: bool)
    ensures var r := AddedConstant(d, c, overwrite);
      r.0 == Pass ==> HasLabel(r.1.constants, ConstantLabel, c.name) && AddedConstant(r.1, c, false).0.Fail?
    ensures var r := AddedPredicate(d, p, overwrite);
      r.0 == Pass ==> HasLabel(r.1.predicates, PredicateLabel, p.name) && AddedPredicate(r.1, p, false).0.Fail?
    ensures var r := AddedAction(d, a, overwrite);
      r.0 == Pass ==> (HasLabel(r.1.actions, ActionLabel, a.name)
                       && AddedAction(r.1, a, false).0 == Fail(InvalidArgument(PredicateExistsMessage(a.name))))
  {
    var rc := AddedConstant(d, c, overwrite);
    if rc.0 == Pass { assert ConstantLabel(rc.1.constants[|rc.1.constants| - 1]) == c.name; }
    var rp := AddedPredicate(d, p, overwrite);
    if rp.0 == Pass { assert PredicateLabel(rp.1.predicates[|rp.1.predicates| - 1]) == p.name; }
    var ra := AddedAction(d, a, overwrite);
    if ra.0 == Pass { assert ActionLabel(ra.1.actions[|ra.1.actions| - 1]) == a.name; }
  }

  /** Every successful or failing add keeps the labels unique. */
  lemma AddsKeepLabelsUnique(d: DomainValue, c: TypedItem, p: Predicate, a: Action, overwrite: bool)
    requires WellLabelled(d)
    ensures WellLabelled(AddedConstant(d, c, overwrite).1)
    ensures WellLabelled(AddedPredicate(d, p, overwrite).1)
    ensures WellLabelled(AddedAction(d, a, overwrite).1)
  {
    if HasLabel(d.constants, ConstantLabel, c.name) {
      ReplaceUnique(d.constants, ConstantLabel, c);
    } else {
      forall y | y in d.constants ensures ConstantLabel(y) != ConstantLabel(c) {
        var k :| 0 <= k < |d.constants| && d.constants[k] == y;
      }
      AppendUnique(d.constants, ConstantLabel, c);
    }
    ReplaceUnique(d.predicates, PredicateLabel, p);
    ReplaceUnique(d.actions, ActionLabel, a);
  }

  // ---------------------------------------------------------------------
  // The text of `toLISP`

  const DOMAIN_HEADER: string := "; BEGIN domain definition\n(define (domain "
  const DOMAIN_FOOTER: string := "; END domain definition\n)\n"
  /** The end of a section that is closed on a line of its own. */
  const SECTION_CLOSE: string := "    )\n"
  const LINE_CLOSE: string := ")\n"
  const INDENT: string := "        "
  const TYPE_SEPARATOR: string := " - "
  const REQUIREMENTS_OPEN: string := "    (:requirements"
  const TYPES_OPEN: string := "    (:types"
  const CONSTANTS_OPEN: string := "    (:constants \n"
  const PREDICATES_OPEN: string := "    (:predicates \n"
  const PREDICATE_OPEN: string := "        ( "
  const ACTION_OPEN: string := "    (:action "
  const PARAMETERS_OPEN: string := "        (:parameters"
  const PRECONDITION_OPEN: string := "        (:precondition"
  const EFFECT_OPEN: string := "        (:effect"

  /** Each item preceded by the prefix, in order. */
  function Prefixed(prefix: string, items: seq<string>): string
  {
    if |items| == 0 then "" else Prefixed(prefix, items[..|items| - 1]) + prefix + items[|items| - 1]
  }

  function RequirementsText(requirements: seq<string>): string
  {
    if |requirements| == 0 then "" else REQUIREMENTS_OPEN + Prefixed(" :", requirements) + SECTION_CLOSE
  }

  function TypesText(types: seq<string>): string
  {
    if |types| == 0 then "" else TYPES_OPEN + Prefixed(" ", types) + LINE_CLOSE
  }

  /** The labels of the constants of one type, each preceded by a space, in list order. */
  function TypeLabels(constants: seq<TypedItem>, t: string): string
  {
    if |constants| == 0 then ""
    else
      var c := constants[|constants| - 1];
      TypeLabels(constants[..|constants| - 1], t) + (if c.typeName == t then " " + c.name else "")
  }

  /** The line of one type; a type without constants gets none. */
  function TypeLine(constants: seq<TypedItem>, t: string): string
  {
    var labels := TypeLabels(constants, t);
    if labels == "" then "" else INDENT + labels + TYPE_SEPARATOR + t + "\n"
  }

  /** One line per type with constants, in the order of the type list. */
  function ConstantLines(types: seq<string>, constants: seq<TypedItem>): string
  {
    if |types| == 0 then "" else ConstantLines(types[..|types| - 1], constants) + TypeLine(constants, types[|types| - 1])
  }

  function ConstantsText(types: seq<string>, constants: seq<TypedItem>): string
  {
    if |constants| == 0 then "" else CONSTANTS_OPEN + ConstantLines(types, constants) + SECTION_CLOSE
  }

  /** " label - type" for each argument. */
  function TypedArguments(arguments: seq<TypedItem>): string
  {
    if |arguments| == 0 then ""
    else
      var a := arguments[|arguments| - 1];
      TypedArguments(arguments[..|arguments| - 1]) + " " + a.name + TYPE_SEPARATOR + a.typeName
  }

  function PredicateLine(p: Predicate): string
  {
    PREDICATE_OPEN + p.name + TypedArguments(p.arguments) + LINE_CLOSE
  }

  function PredicateLines(predicates: seq<Predicate>): string
  {
    if |predicates| == 0 then "" else PredicateLines(predicates[..|predicates| - 1]) + PredicateLine(predicates[|predicates| - 1])
  }

  function PredicatesText(predicates: seq<Predicate>): string
  {
    if |predicates| == 0 then "" else PREDICATES_OPEN + PredicateLines(predicates) + SECTION_CLOSE
  }

  /** A list of expressions under a heading; an empty list gets no line. */
  function ExpressionsLine(open: string, es: seq<Expression>): string
  {
    if |es| == 0 then "" else open + ParametersLisp(es) + LINE_CLOSE
  }

  function ActionBlock(a: Action): string
  {
    ACTION_OPEN + a.name + "\n" + PARAMETERS_OPEN + TypedArguments(a.arguments) + LINE_CLOSE
      + ExpressionsLine(PRECONDITION_OPEN, a.preconditions) + ExpressionsLine(EFFECT_OPEN, a.effects)
      + SECTION_CLOSE
  }

  function ActionsText(actions: seq<Action>): string
  {
    if |actions| == 0 then "" else ActionsText(actions[..|actions| - 1]) + ActionBlock(actions[|actions| - 1])
  }

  /** The sections between the header and the footer, each present only when its list is not empty. */
  function DomainBody(d: DomainValue): string
  {
    RequirementsText(d.requirements) + TypesText(d.types) + ConstantsText(d.types, d.constants)
      + PredicatesText(d.predicates) + ActionsText(d.actions)
  }

  /** The text `Domain::toLISP` returns. */
  function DomainText(d: DomainValue): string
  {
    DOMAIN_HEADER + d.name + LINE_CLOSE + DomainBody(d) + DOMAIN_FOOTER
  }

  // ---------------------------------------------------------------------
  // The loops of `toLISP`

  /** `ss << prefix << item` for each item. */
  method StreamPrefixed(prefix: string, items: seq<string>) returns (s: string)
    ensures s == Prefixed(prefix, items)
  {
    s := "";
    for i := 0 to |items|
      invariant s == Prefixed(prefix, items[..i])
    {
      assert items[..i + 1][..i] == items[..i];
      s := s + prefix + items[i];
    }
    assert items[..|items|] == items;
  }

  method StreamRequirements(requirements: seq<string>) returns (s: string)
    ensures s == RequirementsText(requirements)
  {
    s := "";
    if |requirements| > 0 {
      var rs := StreamPrefixed(" :", requirements);
      s := REQUIREMENTS_OPEN + rs + SECTION_CLOSE;
    }
  }

  method StreamTypes(types: seq<string>) returns (s: string)
    ensures s == TypesText(types)
  {
    s := "";
    if |types| > 0 {
      var ts := StreamPrefixed(" ", types);
      s := TYPES_OPEN + ts + LINE_CLOSE;
    }
  }

  method StreamConstants(types: seq<string>, constants: seq<TypedItem>) returns (s: string)
    ensures s == ConstantsText(types, constants)
  {
    s := "";
    if |constants| > 0 {
      var cs := StreamConstantLines(types, constants);
      s := CONSTANTS_OPEN + cs + SECTION_CLOSE;
    }
  }

  method StreamPredicates(predicates: seq<Predicate>) returns (s: string)
    ensures s == PredicatesText(predicates)
  {
    s := "";
    if |predicates| > 0 {
      var ps := StreamPredicateLines(predicates);
      s := PREDICATES_OPEN + ps + SECTION_CLOSE;
    }
  }

  /** The inner loop of the constants section: the labels of the constants of type t. */
  method StreamTypeLabels(constants: seq<TypedItem>, t: string) returns (s: string)
    ensures s == TypeLabels(constants, t)
  {
    s := "";
    for i := 0 to |constants|
      invariant s == TypeLabels(constants[..i], t)
    {
      assert constants[..i + 1][..i] == constants[..i];
      if constants[i].typeName == t {
        s := s + " " + constants[i].name;
      }
    }
    assert constants[..|constants|] == constants;
  }

  /** The outer loop of the constants section: one line per type that has constants. */
  method StreamConstantLines(types: seq<string>, constants: seq<TypedItem>) returns (s: string)
    ensures s == ConstantLines(types, constants)
  {
    s := "";
    for i := 0 to |types|
      invariant s == ConstantLines(types[..i], constants)
    {
      assert types[..i + 1][..i] == types[..i];
      var line := StreamTypeLabels(constants, types[i]);
      if line != "" {
        s := s + (INDENT + line + TYPE_SEPARATOR + types[i] + "\n");
      }
    }
    assert types[..|types|] == types;
  }

  method StreamTypedArguments(arguments: seq<TypedItem>) returns (s: string)
    ensures s == TypedArguments(arguments)
  {
    s := "";
    for i := 0 to |arguments|
      invariant s == TypedArguments(arguments[..i])
    {
      assert arguments[..i + 1][..i] == arguments[..i];
      s := s + " " + arguments[i].name + TYPE_SEPARATOR + arguments[i].typeName;
    }
    assert arguments[..|arguments|] == arguments;
  }

  method StreamPredicateLines(predicates: seq<Predicate>) returns (s: string)
    ensures s == PredicateLines(predicates)
  {
    s := "";
    for i := 0 to |predicates|
      invariant s == PredicateLines(predicates[..i])
    {
      assert predicates[..i + 1][..i] == predicates[..i];
      var arguments := StreamTypedArguments(predicates[i].arguments);
      s := s + (PREDICATE_OPEN + predicates[i].name + arguments + LINE_CLOSE);
    }
    assert predicates[..|predicates|] == predicates;
  }

  /** `ss << " " << e.toLISP()` for each expression. */
  method StreamExpressions(es: seq<Expression>) returns (s: string)
    ensures s == ParametersLisp(es)
  {
    s := "";
    for i := 0 to |es|
      invariant s == ParametersLisp(es[..i])
    {
      assert es[..i + 1][..i] == es[..i];
      var e := ExpressionToLisp(es[i]);
      s := s + " " + e;
    }
    assert es[..|es|] == es;
  }

  method StreamActionBlock(a: Action) returns (s: string)
    ensures s == ActionBlock(a)
  {
    var arguments := StreamTypedArguments(a.arguments);
    s := ACTION_OPEN + a.name + "\n" + PARAMETERS_OPEN + arguments + LINE_CLOSE;
    if |a.preconditions| > 0 {
      var pre := StreamExpressions(a.preconditions);
      s := s + (PRECONDITION_OPEN + pre + LINE_CLOSE);
    }
    if |a.effects| > 0 {
      var eff := StreamExpressions(a.effects);
      s := s + (EFFECT_OPEN + eff + LINE_CLOSE);
    }
    s := s + SECTION_CLOSE;
  }

  method StreamActions(actions: seq<Action>) returns (s: string)
    ensures s == ActionsText(actions)
  {
    s := "";
    for i := 0 to |actions|
      invariant s == ActionsText(actions[..i])
    {
      assert actions[..i + 1][..i] == actions[..i];
      var block := StreamActionBlock(actions[i]);
      s := s + block;
    }
    assert actions[..|actions|] == actions;
  }

  /** `toLISP` on the fields of a domain: the header, each non-empty section in turn, the footer. */
  method DomainToLisp(d: DomainValue) returns (s: string)
    ensures s == DomainText(d)
  {
    var rs := StreamRequirements(d.requirements);
    var ts := StreamTypes(d.types);
    var cs := StreamConstants(d.types, d.constants);
    var ps := StreamPredicates(d.predicates);
    var acts := StreamActions(d.actions);
    var body := rs + ts + cs + ps + acts;
    assert body == DomainBody(d);
    s := DOMAIN_HEADER + d.name + LINE_CLOSE + body + DOMAIN_FOOTER;
  }

  // ---------------------------------------------------------------------
  // The domain

  class Domain {
    var name: string
    var types: seq<string>
    var constants: seq<TypedItem>
    var predicates: seq<Predicate>
    var requirements: seq<string>
    var actions: seq<Action>

    /** The fields, as the value a Problem copies. */
    function Value(): DomainValue
      reads this
    {
      DomainValue(name, types, constants, predicates, requirements, actions)
    }

    /** `Domain(name)`: a named domain with empty lists. */
    constructor (name: string)
      ensures Value() == DomainValue(name, [], [], [], [], [])
    {
      this.name := name;
      types := [];
      constants := [];
      predicates := [];
      requirements := [];
      actions := [];
    }

    /** `addType` appends, duplicates included. */
    method AddType(t: string)
      modifies this
      ensures Value() == old(Value()).(types := old(types) + [t])
    {
      types := types + [t];
    }

    /** `addRequirement` appends, duplicates included. */
    method AddRequirement(requirement: string)
      modifies this
      ensures Value() == old(Value()).(requirements := old(requirements) + [requirement])
    {
      requirements := requirements + [requirement];
    }

    method IsType(t: string) returns (found: bool)
      ensures found <==> t in types
    {
      found := t in types;
    }

    method IsConstant(name: string) returns (found: bool)
      ensures found <==> HasLabel(constants, ConstantLabel, name)
    {
      found := ContainsLabel(constants, ConstantLabel, name);
    }

    method IsPredicate(name: string) returns (found: bool)
      ensures found <==> HasLabel(predicates, PredicateLabel, name)
    {
      found := ContainsLabel(predicates, PredicateLabel, name);
    }

    method IsAction(name: string) returns (found: bool)
      ensures found <==> HasLabel(actions, ActionLabel, name)
    {
      found := ContainsLabel(actions, ActionLabel, name);
    }

    method IsRequirement(requirement: string) returns (found: bool)
      ensures found <==> requirement in requirements
    {
      var i := 0;
      while i < |requirements|
        invariant 0 <= i <= |requirements|
        invariant requirement !in requirements[..i]
      {
        if requirements[i] == requirement {
          return true;
        }
        assert requirements[..i + 1] == requirements[..i] + [requirements[i]];
        i := i + 1;
      }
      assert requirements[..i] == requirements;
      return false;
    }

    method RemoveConstant(name: string)
      modifies this
      ensures Value() == old(Value()).(constants := WithoutLabel(old(constants), ConstantLabel, name))
    {
      constants := RemoveLabel(constants, ConstantLabel, name);
    }

    method RemovePredicate(name: string)
      modifies this
      ensures Value() == old(Value()).(predicates := WithoutLabel(old(predicates), PredicateLabel, name))
    {
      predicates := RemoveLabel(predicates, PredicateLabel, name);
    }

    method RemoveAction(name: string)
      modifies this
      ensures Value() == old(Value()).(actions := WithoutLabel(old(actions), ActionLabel, name))
    {
      actions := RemoveLabel(actions, ActionLabel, name);
    }

    method AddConstant(c: TypedItem, overwrite: bool) returns (r: Outcome<Error>)
      modifies this
      ensures (r, Value()) == AddedConstant(old(Value()), c, overwrite)
    {
      var known := IsConstant(c.name);
      if known {
        if overwrite {
          RemoveConstant(c.name);
        } else {
          return Fail(InvalidArgument(ConstantExistsMessage(c.name)));
        }
      } else {
        var typed := IsType(c.typeName);
        if !typed {
          return Fail(InvalidArgument(UnknownTypeMessage(c.typeName)));
        }
      }
      constants := constants + [c];
      return Pass;
    }

    method AddPredicate(p: Predicate, overwrite: bool) returns (r: Outcome<Error>)
      modifies this
      ensures (r, Value()) == AddedPredicate(old(Value()), p, overwrite)
    {
      var known := IsPredicate(p.name);
      if known && !overwrite {
        return Fail(InvalidArgument(PredicateExistsMessage(p.name)));
      }
      RemovePredicate(p.name);
      predicates := predicates + [p];
      return Pass;
    }

    method AddAction(a: Action, overwrite: bool) returns (r: Outcome<Error>)
      modifies this
      ensures (r, Value()) == AddedAction(old(Value()), a, overwrite)
    {
      var known := IsAction(a.name);
      if known && !overwrite {
        return Fail(InvalidArgument(PredicateExistsMessage(a.name)));
      }
      RemoveAction(a.name);
      actions := actions + [a];
      return Pass;
    }

    /** `toLISP`: the header, each non-empty section in turn, the footer. */
    method ToLisp() returns (s: string)
      ensures s == DomainText(Value())
    {
      s := DomainToLisp(Value());
    }
  }

  // ---------------------------------------------------------------------
  // Properties of the text

  /** The text starts with the BEGIN line and the domain's name, and ends with the END line. */
  lemma DomainTextFrame(d: DomainValue)
    ensures StartsWith(DomainText(d), "; BEGIN domain definition\n(define (domain " + d.name + ")\n")
    ensures var s := DomainText(d); |s| >= |DOMAIN_FOOTER| && s[|s| - |DOMAIN_FOOTER|..] == DOMAIN_FOOTER
  {
    var s := DomainText(d);
    var head := DOMAIN_HEADER + d.name + LINE_CLOSE;
    assert s == head + (DomainBody(d) + DOMAIN_FOOTER);
    assert s[..|head|] == head;
    assert s == (head + DomainBody(d)) + DOMAIN_FOOTER;
  }

  /** A domain with nothing in it has only the header and the footer. */
  lemma EmptyDomainText(name: string)
    ensures DomainText(DomainValue(name, [], [], [], [], [])) == DOMAIN_HEADER + name + LINE_CLOSE + DOMAIN_FOOTER
  {
  }

  /** Each section is present exactly when its list is not empty. */
  lemma SectionsPresentWhenNonEmpty(d: DomainValue)
    ensures RequirementsText(d.requirements) == "" <==> |d.requirements| == 0
    ensures TypesText(d.types) == "" <==> |d.types| == 0
    ensures ConstantsText(d.types, d.constants) == "" <==> |d.constants| == 0
    ensures PredicatesText(d.predicates) == "" <==> |d.predicates| == 0
    ensures ActionsText(d.actions) == "" <==> |d.actions| == 0
  {
    if |d.actions| > 0 {
      var a := d.actions[|d.actions| - 1];
      assert |ActionBlock(a)| >= |ACTION_OPEN|;
    }
  }

  /** A constant whose type is not in the type list adds nothing to the text. */
  lemma {:induction false} UnlistedTypeOmitted(types: seq<string>, constants: seq<TypedItem>, c: TypedItem)
    requires c.typeName !in types
    ensures ConstantLines(types, constants + [c]) == ConstantLines(types, constants)
  {
    if |types| > 0 {
      var t := types[|types| - 1];
      UnlistedTypeOmitted(types[..|types| - 1], constants, c);
      assert (constants + [c])[..|constants|] == constants;
      assert TypeLabels(constants + [c], t) == TypeLabels(constants, t);
    }
  }

  /** A constant of a listed type shows its label in its type's line, after those of its type before it. */
  lemma ListedTypeShown(constants: seq<TypedItem>, c: TypedItem)
    ensures TypeLabels(constants + [c], c.typeName) == TypeLabels(constants, c.typeName) + " " + c.name
    ensures TypeLine(constants + [c], c.typeName)
            == INDENT + TypeLabels(constants, c.typeName) + " " + c.name + TYPE_SEPARATOR + c.typeName + "\n"
  {
    assert (constants + [c])[..|constants|] == constants;
  }

  /** Adding a type with no constants leaves the constants section unchanged. */
  lemma {:induction false} TypeWithoutConstants(constants: seq<TypedItem>, t: string)
    requires forall k :: 0 <= k < |constants| ==> constants[k].typeName != t
    ensures TypeLine(constants, t) == ""
  {
    TypeLabelsEmpty(constants, t);
  }

  lemma {:induction false} TypeLabelsEmpty(constants: seq<TypedItem>, t: string)
    requires forall k :: 0 <= k < |constants| ==> constants[k].typeName != t
    ensures TypeLabels(constants, t) == ""
  {
    if |constants| > 0 {
      TypeLabelsEmpty(constants[..|constants| - 1], t);
    }
  }
}
