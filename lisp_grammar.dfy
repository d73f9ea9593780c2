/**
 * The LISP expression grammar as recursive-descent recognisers. The
 * lexical rules (Quantifier, MultiOperator, BinaryOperator, BinaryComparison,
 * Label, Variable) do not skip whitespace inside; the phrase rules skip ASCII
 * whitespace before every literal and every lexical rule, as a space skipper
 * does. Every recogniser takes the remaining input and answers None or the
 * attribute together with the input left over. Ordered choice commits to the
 * first alternative that succeeds and a repetition is greedy, as in a PEG.
 */
module LispGrammar {
  import opened Wrappers
  import opened StdString
  import opened Representation

  /** The attribute of a rule and the input it leaves. */
  datatype Parsed<T> = Parsed(value: T, rest: string)

  const FORALL: string := "forall"
  const EXISTS: string := "exists"
  const MULTI_OPERATORS: string := "*+"
  const BINARY_OPERATORS: string := "-/"
  const COMPARISONS: string := "><="
  /**
   * Besides letters and digits a label continues with `char_("+-_[]")`. As a
   * character-set definition `+-_` is the range from '+' to '_', which takes
   * in `+,-./`, the digits, `:;<=>?@`, the capitals and `[\]^_`; `[` and `]`
   * lie inside it.
   */
  const LABEL_RANGE_LOW: char := '+'
  const LABEL_RANGE_HIGH: char := '_'
  /** The one-character labels: the operators and the comparisons. */
  const SYMBOLS: string := "-/*+><="

  predicate IsLabelChar(c: char)
  {
    IsAlnum(c) || LABEL_RANGE_LOW <= c <= LABEL_RANGE_HIGH
  }

  /** A label of the first form: a letter or digit followed by at least one label character. */
  predicate IsWordLabel(w: string)
  {
    |w| >= 2 && IsAlnum(w[0]) && forall k :: 0 <= k < |w| ==> IsLabelChar(w[k])
  }

  /** A label of the operator or comparison form. */
  predicate IsSymbolLabel(w: string)
  {
    |w| == 1 && w[0] in SYMBOLS
  }

  predicate IsLabelWord(w: string)
  {
    IsWordLabel(w) || IsSymbolLabel(w)
  }

  /** `?` followed by one or more letters or digits. */
  predicate IsVariableWord(w: string)
  {
    |w| >= 2 && w[0] == '?' && forall k :: 1 <= k < |w| ==> IsAlnum(w[k])
  }

  /** A lexical rule's attribute is exactly the text it consumed. */
  predicate Consumes(t: string, r: Option<Parsed<string>>)
  {
    r.Some? ==> t == r.value.value + r.value.rest
  }

  /** Ordered choice. */
  function Or<T>(a: Option<T>, b: Option<T>): (r: Option<T>)
    ensures r.Some? <==> a.Some? || b.Some?
    ensures a.Some? ==> r == a
  {
    if a.Some? then a else b
  }

  /** `char_(chars)`: one character of the set. */
  function CharIn(t: string, chars: string): (r: Option<Parsed<string>>)
    ensures r.Some? ==> |r.value.rest| == |t| - 1
  {
    if |t| > 0 && t[0] in chars then Some(Parsed(t[..1], t[1..])) else None
  }

  /** `char_` takes one character exactly when the input starts with one of the set. */
  lemma {:induction false} CharInShape(t: string, chars: string)
    ensures CharIn(t, chars).Some? <==> |t| > 0 && t[0] in chars
    ensures Consumes(t, CharIn(t, chars)) && (CharIn(t, chars).Some? ==> |CharIn(t, chars).value.value| == 1)
  {
    if |t| > 0 && t[0] in chars {
      assert t == t[..1] + t[1..];
    }
  }

  /** `string(word)`: exactly these characters. */
  function Literal(t: string, word: string): (r: Option<Parsed<string>>)
    ensures r.Some? ==> |r.value.rest| == |t| - |word|
  {
    if StartsWith(t, word) then Some(Parsed(word, t[|word|..])) else None
  }

  /** `string(word)` succeeds exactly on input starting with the word, and consumes the word. */
  lemma {:induction false} LiteralShape(t: string, word: string)
    ensures Literal(t, word).Some? <==> StartsWith(t, word)
    ensures Consumes(t, Literal(t, word)) && (Literal(t, word).Some? ==> Literal(t, word).value.value == word)
  {
    if StartsWith(t, word) {
      assert t == t[..|word|] + t[|word|..];
    }
  }

  /** The Quantifier rule: `forall` or `exists`. */
  function Quantifier(t: string): (r: Option<Parsed<string>>)
    ensures r.Some? ==> |r.value.rest| < |t| && (r.value.value == FORALL || r.value.value == EXISTS)
  {
    Or(Literal(t, FORALL), Literal(t, EXISTS))
  }

  /** The quantifier is exactly `forall` or `exists`: nothing shorter, nothing longer. */
  lemma {:induction false} QuantifierExact(t: string)
    ensures Quantifier(t).Some? <==> StartsWith(t, FORALL) || StartsWith(t, EXISTS)
    ensures Consumes(t, Quantifier(t))
  {
    LiteralShape(t, FORALL);
    LiteralShape(t, EXISTS);
  }

  /** The MultiOperator rule: `*` or `+`. */
  function MultiOperator(t: string): (r: Option<Parsed<string>>)
    ensures r.Some? ==> |r.value.rest| == |t| - 1
  {
    CharIn(t, MULTI_OPERATORS)
  }

  /** MultiOperator takes one character exactly when the input starts with `*` or `+`. */
  lemma {:induction false} MultiOperatorShape(t: string)
    ensures MultiOperator(t).Some? <==> |t| > 0 && t[0] in MULTI_OPERATORS
    ensures Consumes(t, MultiOperator(t)) && (MultiOperator(t).Some? ==> |MultiOperator(t).value.value| == 1)
  {
    CharInShape(t, MULTI_OPERATORS);
  }

  /** The BinaryOperator rule: `-` or `/`, else a multi-operator. */
  function BinaryOperator(t: string): (r: Option<Parsed<string>>)
    ensures r.Some? ==> |r.value.rest| == |t| - 1
  {
    Or(CharIn(t, BINARY_OPERATORS), MultiOperator(t))
  }

  /** BinaryOperator takes one character exactly when the input starts with `-`, `/`, `*` or `+`. */
  lemma {:induction false} BinaryOperatorShape(t: string)
    ensures BinaryOperator(t).Some? <==> |t| > 0 && t[0] in "-/*+"
    ensures Consumes(t, BinaryOperator(t)) && (BinaryOperator(t).Some? ==> |BinaryOperator(t).value.value| == 1)
  {
    CharInShape(t, BINARY_OPERATORS);
    MultiOperatorShape(t);
  }

  /** The BinaryComparison rule: one of `><=`, else `>=`, else `<=`. */
  function BinaryComparison(t: string): (r: Option<Parsed<string>>)
    ensures r.Some? ==> |r.value.rest| < |t|
  {
    Or(CharIn(t, COMPARISONS), Or(Literal(t, ">="), Literal(t, "<=")))
  }

  /** The longest prefix of t made of label characters. */
  function LabelChars(t: string): (r: string)
    ensures |r| <= |t|
  {
    if |t| > 0 && IsLabelChar(t[0]) then [t[0]] + LabelChars(t[1..]) else ""
  }

  /** LabelChars is a prefix of its input, made of label characters, that no label character follows. */
  lemma {:induction false} LabelCharsShape(t: string)
    ensures LabelChars(t) == t[..|LabelChars(t)|]
    ensures forall k :: 0 <= k < |LabelChars(t)| ==> IsLabelChar(LabelChars(t)[k])
    ensures |LabelChars(t)| == |t| || !IsLabelChar(t[|LabelChars(t)|])
    decreases |t|
  {
    if |t| > 0 && IsLabelChar(t[0]) {
      LabelCharsShape(t[1..]);
      var r := LabelChars(t[1..]);
      assert t[..1 + |r|] == [t[0]] + t[1..][..|r|];
    }
  }

  /** The longest prefix of t made of letters and digits. */
  function AlnumChars(t: string): (r: string)
    ensures |r| <= |t|
  {
    if |t| > 0 && IsAlnum(t[0]) then [t[0]] + AlnumChars(t[1..]) else ""
  }

  /** AlnumChars is a prefix of its input, made of letters and digits, that no letter or digit follows. */
  lemma {:induction false} AlnumCharsShape(t: string)
    ensures AlnumChars(t) == t[..|AlnumChars(t)|]
    ensures forall k :: 0 <= k < |AlnumChars(t)| ==> IsAlnum(AlnumChars(t)[k])
    ensures |AlnumChars(t)| == |t| || !IsAlnum(t[|AlnumChars(t)|])
    decreases |t|
  {
    if |t| > 0 && IsAlnum(t[0]) {
      AlnumCharsShape(t[1..]);
      var r := AlnumChars(t[1..]);
      assert t[..1 + |r|] == [t[0]] + t[1..][..|r|];
    }
  }

  /**
   * The Label rule: a letter or digit followed by one or more label
   * characters (greedy), else a binary operator, else a comparison.
   */
  function Label(t: string): (r: Option<Parsed<string>>)
    ensures r.Some? ==> |r.value.rest| < |t|
  {
    if |t| >= 2 && IsAlnum(t[0]) && IsLabelChar(t[1]) then
      var tail := LabelChars(t[1..]);
      Some(Parsed(t[..1 + |tail|], t[1 + |tail|..]))
    else
      Or(BinaryOperator(t), BinaryComparison(t))
  }

  /**
   * Label accepts exactly the inputs that start with a word label or a
   * symbol; what it returns is the consumed text, a label word, and a word
   * label stops only where no label character follows.
   */
  lemma {:induction false} LabelShape(t: string)
    ensures Label(t).Some? <==> |t| > 0 && ((|t| >= 2 && IsAlnum(t[0]) && IsLabelChar(t[1])) || t[0] in SYMBOLS)
    ensures Consumes(t, Label(t)) && (Label(t).Some? ==> IsLabelWord(Label(t).value.value))
    ensures Label(t).Some? && IsWordLabel(Label(t).value.value) ==>
      |Label(t).value.rest| == 0 || !IsLabelChar(Label(t).value.rest[0])
  {
    if |t| >= 2 && IsAlnum(t[0]) && IsLabelChar(t[1]) {
      var tail := LabelChars(t[1..]);
      LabelCharsShape(t[1..]);
      assert t[..1 + |tail|] == [t[0]] + tail;
      assert t == t[..1 + |tail|] + t[1 + |tail|..];
    } else {
      BinaryOperatorShape(t);
      ComparisonOneCharacter(t);
      CharInShape(t, COMPARISONS);
      LiteralShape(t, ">=");
      LiteralShape(t, "<=");
    }
  }

  /** The Variable rule: `?` followed by one or more letters or digits (greedy). */
  function Variable(t: string): (r: Option<Parsed<string>>)
    ensures r.Some? ==> |r.value.rest| < |t|
  {
    if |t| >= 2 && t[0] == '?' && IsAlnum(t[1]) then
      var tail := AlnumChars(t[1..]);
      Some(Parsed(t[..1 + |tail|], t[1 + |tail|..]))
    else None
  }

  /**
   * Variable accepts exactly `?` followed by a letter or digit; it returns
   * the consumed text, a variable word, and stops where no letter or digit
   * follows. So `?` alone is rejected.
   */
  lemma {:induction false} VariableShape(t: string)
    ensures Variable(t).Some? <==> |t| >= 2 && t[0] == '?' && IsAlnum(t[1])
    ensures Consumes(t, Variable(t)) && (Variable(t).Some? ==> IsVariableWord(Variable(t).value.value))
    ensures Variable(t).Some? ==> |Variable(t).value.rest| == 0 || !IsAlnum(Variable(t).value.rest[0])
  {
    if |t| >= 2 && t[0] == '?' && IsAlnum(t[1]) {
      var tail := AlnumChars(t[1..]);
      AlnumCharsShape(t[1..]);
      assert t[..1 + |tail|] == ['?'] + tail;
      assert t == t[..1 + |tail|] + t[1 + |tail|..];
    }
  }

  /** A literal character of a phrase rule, after skipping whitespace. */
  function Punct(t: string, c: char): (r: Option<string>)
    ensures r.Some? ==> |r.value| < |t|
  {
    var u := TrimLeft(t);
    if |u| > 0 && u[0] == c then Some(u[1..]) else None
  }

  /** `label | variable` in a phrase rule, after skipping whitespace. */
  function LabelOrVariable(t: string): (r: Option<Parsed<string>>)
    ensures r.Some? ==> |r.value.rest| < |t|
  {
    var u := TrimLeft(t);
    Or(Label(u), Variable(u))
  }

  /** `*(label | variable)`: the words of a simple expression, as atoms. */
  function Words(t: string): (r: Parsed<seq<Expression>>)
    ensures |r.rest| <= |t|
    decreases |t|
  {
    match LabelOrVariable(t)
    case None => Parsed([], t)
    case Some(w) =>
      var more := Words(w.rest);
      Parsed([Atom(w.value)] + more.value, more.rest)
  }

  /** `*("-" >> label)`: the last type label given wins; a failed step gives its input back. */
  function TypeSuffixes(t: string, typeName: string): (r: Parsed<string>)
    ensures |r.rest| <= |t|
    decreases |t|
  {
    match Punct(t, '-')
    case None => Parsed(typeName, t)
    case Some(u) =>
      match Label(TrimLeft(u))
      case None => Parsed(typeName, t)
      case Some(l) => TypeSuffixes(l.rest, l.value)
  }

  /** The TypedItem rule: `(label | variable)` and optional `- type` parts. */
  function TypedItemRule(t: string): (r: Option<Parsed<TypedItem>>)
    ensures r.Some? ==> |r.value.rest| < |t|
  {
    var u := TrimLeft(t);
    match Or(Label(u), Variable(u))
    case None => None
    case Some(n) =>
      var ty := TypeSuffixes(n.rest, "");
      Some(Parsed(TypedItem(n.value, ty.value), ty.rest))
  }

  /**
   * The simple expression: "(" label, words, ")" — or else a lone variable
   * or label as an atom.
   */
  function Simple(t: string): (r: Option<Parsed<Expression>>)
    ensures r.Some? ==> |r.value.rest| < |t|
  {
    var u := TrimLeft(t);
    Or(SimpleCompound(u), SimpleWord(u))
  }

  /** The first alternative of the simple expression: "(" label, words, ")". */
  function SimpleCompound(u: string): (r: Option<Parsed<Expression>>)
    ensures r.Some? ==> |r.value.rest| < |u|
  {
    if |u| > 0 && u[0] == '(' then
      match Label(TrimLeft(u[1..]))
      case None => None
      case Some(l) =>
        var ws := Words(l.rest);
        match Punct(ws.rest, ')')
        case None => None
        case Some(after) => Some(Parsed(Expression(l.value, ws.value), after))
    else None
  }

  /** The second alternative of the simple expression: a variable or a label, as an atom. */
  function SimpleWord(u: string): (r: Option<Parsed<Expression>>)
    ensures r.Some? ==> |r.value.rest| < |u|
  {
    match Or(Variable(u), Label(u))
    case None => None
    case Some(w) => Some(Parsed(Atom(w.value), w.rest))
  }

  /**
   * The general expression: "(" label, then sub-expressions or simple
   * expressions, then ")". The parameters parsed are appended to those the
   * attribute already holds (init), which is empty except after a failed
   * quantifier form.
   */
  function General(t: string, init: seq<Expression>): (r: Option<Parsed<Expression>>)
    ensures r.Some? ==> |r.value.rest| < |t|
    decreases |t|, 0
  {
    match Punct(t, '(')
    case None => None
    case Some(u) => Opened(u, init)
  }

  /** The general expression after its "(": the label, the parameters, then ")". */
  function Opened(u: string, init: seq<Expression>): (r: Option<Parsed<Expression>>)
    ensures r.Some? ==> |r.value.rest| < |u|
    decreases |u|, 3
  {
    match Label(TrimLeft(u))
    case None => None
    case Some(l) =>
      var ps := Items(l.rest);
      match Punct(ps.rest, ')')
      case None => None
      case Some(after) => Some(Parsed(Expression(l.value, init + ps.value), after))
  }

  /** One parameter of a general expression: a general expression, else a simple one. */
  function Item(t: string): (r: Option<Parsed<Expression>>)
    ensures r.Some? ==> |r.value.rest| < |t|
    decreases |t|, 1
  {
    Or(General(t, []), Simple(t))
  }

  /** `*(expression | simple_expression)`: as many parameters as parse, in order. */
  function Items(t: string): (r: Parsed<seq<Expression>>)
    ensures |r.rest| <= |t|
    decreases |t|, 2
  {
    match Item(t)
    case None => Parsed([], t)
    case Some(p) =>
      var more := Items(p.rest);
      Parsed([p.value] + more.value, more.rest)
  }

  /**
   * How the quantifier form ends: parsed, or failed — and then the
   * parameters it had already added to the shared attribute (the inner
   * general expression, when only the closing parenthesis was missing).
   */
  datatype QuantifierOutcome = Quantified(parsed: Parsed<Expression>) | NoQuantifier(leaked: seq<Expression>)

  /**
   * The quantifier form: "(" quantifier "(" typed item ")" general
   * expression ")". The attribute is the quantifier with the general
   * expression as its one parameter; the typed item is recognised and dropped.
   */
  function QuantifierExpression(t: string): (r: QuantifierOutcome)
    ensures r.Quantified? ==> |r.parsed.rest| < |t| && |r.parsed.value.parameters| == 1
                              && (r.parsed.value.name == FORALL || r.parsed.value.name == EXISTS)
    ensures r.NoQuantifier? ==> |r.leaked| <= 1
  {
    match Punct(t, '(')
    case None => NoQuantifier([])
    case Some(a) =>
      match Quantifier(TrimLeft(a))
      case None => NoQuantifier([])
      case Some(q) =>
        match Punct(q.rest, '(')
        case None => NoQuantifier([])
        case Some(b) =>
          match TypedItemRule(b)
          case None => NoQuantifier([])
          case Some(item) =>
            match Punct(item.rest, ')')
            case None => NoQuantifier([])
            case Some(c) => QuantifiedBody(q.value, c)
  }

  /** The quantifier form after the typed item: the general expression, then ")". */
  function QuantifiedBody(quantifier: string, t: string): (r: QuantifierOutcome)
    ensures r.Quantified? ==> |r.parsed.rest| < |t| && r.parsed.value.name == quantifier
                              && |r.parsed.value.parameters| == 1
    ensures r.NoQuantifier? ==> |r.leaked| <= 1
  {
    match General(t, [])
    case None => NoQuantifier([])
    case Some(g) =>
      match Punct(g.rest, ')')
      case None => NoQuantifier([g.value])
      case Some(d) => Quantified(Parsed(Expression(quantifier, [g.value]), d))
  }

  /** The Expression rule: the quantifier form, else a general expression on a fresh attribute. */
  function Expr(t: string): (r: Option<Parsed<Expression>>)
    ensures r.Some? ==> |r.value.rest| < |t|
  {
    match QuantifierExpression(t)
    case Quantified(p) => Some(p)
    case NoQuantifier(_) => General(t, [])
  }

  /**
   * The Expression rule as the alternative operator runs it: both
   * alternatives write the same attribute, so what a failed quantifier form
   * added stays in front of the general expression's parameters.
   */
  function ExprAsWritten(t: string): (r: Option<Parsed<Expression>>)
    ensures r.Some? ==> |r.value.rest| < |t|
  {
    match QuantifierExpression(t)
    case Quantified(p) => Some(p)
    case NoQuantifier(leaked) => General(t, leaked)
  }

  /** `*expression` after the first, each element read by the Expression rule as written. */
  function MoreExpressions(t: string): (r: Parsed<seq<Expression>>)
    ensures |r.rest| <= |t|
    decreases |t|
  {
    match ExprAsWritten(t)
    case None => Parsed([], t)
    case Some(e) =>
      var more := MoreExpressions(e.rest);
      Parsed([e.value] + more.value, more.rest)
  }

  /** The ExpressionList rule: one or more expressions, read by the Expression rule as written. */
  function ExpressionList(t: string): (r: Option<Parsed<seq<Expression>>>)
    ensures r.Some? <==> ExprAsWritten(t).Some?
    ensures r.Some? ==> |r.value.value| >= 1 && r.value.value[0] == ExprAsWritten(t).value.value
  {
    match ExprAsWritten(t)
    case None => None
    case Some(e) =>
      var more := MoreExpressions(e.rest);
      Some(Parsed([e.value] + more.value, more.rest))
  }

  /** The list succeeds exactly where one expression does, whichever reading of the rule. */
  lemma {:induction false} ExpressionListSucceeds(t: string)
    ensures ExpressionList(t).Some? <==> Expr(t).Some?
  {
    AsWrittenSucceeds(t);
  }

  /** The rule as written succeeds exactly where the corrected rule does, and leaves the same rest. */
  lemma {:induction false} AsWrittenSucceeds(t: string)
    ensures ExprAsWritten(t).Some? <==> Expr(t).Some?
    ensures Expr(t).Some? ==> ExprAsWritten(t).value.rest == Expr(t).value.rest
  {
    match QuantifierExpression(t)
    case Quantified(_) =>
    case NoQuantifier(leaked) => GeneralKeepsInit(t, leaked);
  }

  /** BinaryComparison takes exactly one character of `><=`: its later alternatives are never reached. */
  lemma {:induction false} ComparisonOneCharacter(t: string)
    ensures BinaryComparison(t).Some? <==> |t| > 0 && t[0] in COMPARISONS
    ensures BinaryComparison(t).Some? ==> |BinaryComparison(t).value.value| == 1
  {
    if StartsWith(t, ">=") || StartsWith(t, "<=") {
      assert t[0] == t[..2][0];
    }
  }

  /** On `>=` the comparison is `>` alone; the `=` is left over. */
  lemma {:induction false} GreaterEqualSplits(rest: string)
    ensures BinaryComparison(">=" + rest) == Some(Parsed(">", "=" + rest))
  {
    var t := ">=" + rest;
    assert t[..1] == ">" && t[1..] == "=" + rest;
  }

  /** `?` with no letter or digit after it is no variable. */
  lemma {:induction false} LoneQuestionMark(rest: string)
    requires |rest| == 0 || !IsAlnum(rest[0])
    ensures Variable("?" + rest) == None
  {
    VariableShape("?" + rest);
  }

  /** A single letter or digit is no label: a label that starts with one has at least two characters. */
  lemma {:induction false} SingleCharacterRejected(c: char, rest: string)
    requires IsAlnum(c) && (|rest| == 0 || !IsLabelChar(rest[0]))
    ensures Label([c] + rest) == None
  {
    LabelShape([c] + rest);
    assert c !in SYMBOLS;
  }

  lemma {:induction false} LabelCharsPrefix(u: string, rest: string)
    requires forall k :: 0 <= k < |u| ==> IsLabelChar(u[k])
    requires |rest| == 0 || !IsLabelChar(rest[0])
    ensures LabelChars(u + rest) == u
  {
    if |u| > 0 {
      assert (u + rest)[1..] == u[1..] + rest;
      LabelCharsPrefix(u[1..], rest);
      assert [u[0]] + u[1..] == u;
    }
  }

  lemma {:induction false} AlnumCharsPrefix(u: string, rest: string)
    requires forall k :: 0 <= k < |u| ==> IsAlnum(u[k])
    requires |rest| == 0 || !IsAlnum(rest[0])
    ensures AlnumChars(u + rest) == u
  {
    if |u| > 0 {
      assert (u + rest)[1..] == u[1..] + rest;
      AlnumCharsPrefix(u[1..], rest);
      assert [u[0]] + u[1..] == u;
    }
  }

  /** A label followed by a character that cannot continue it is read back as itself. */
  lemma {:induction false} LabelReadsBack(w: string, rest: string)
    requires IsLabelWord(w)
    requires |rest| == 0 || !IsLabelChar(rest[0])
    ensures Label(w + rest) == Some(Parsed(w, rest))
  {
    var t := w + rest;
    if IsWordLabel(w) {
      assert t[1..] == w[1..] + rest;
      LabelCharsPrefix(w[1..], rest);
      assert t[..1 + |w[1..]|] == w;
      assert t[1 + |w[1..]|..] == rest;
    } else {
      assert t[..1] == w && t[1..] == rest;
    }
  }

  /** The range '+'..'_' continues a label: `a.b` and `robot?z` are one label each. */
  lemma {:induction false} RangeLabels(dotted: string, questioned: string)
    requires dotted == "a.b" && questioned == "robot?z"
    ensures Label(dotted) == Some(Parsed(dotted, ""))
    ensures Label(questioned) == Some(Parsed(questioned, ""))
  {
    RangeLabelWords(dotted, questioned);
    LabelReadsBack(dotted, "");
    assert dotted + "" == dotted;
    LabelReadsBack(questioned, "");
    assert questioned + "" == questioned;
  }

  lemma {:induction false} RangeLabelWords(dotted: string, questioned: string)
    requires dotted == "a.b" && questioned == "robot?z"
    ensures IsWordLabel(dotted) && IsWordLabel(questioned)
  {
  }

  /** `( at robot a.b )` reads `a.b` as its second parameter. */
  lemma {:induction false} DottedParameter(t: string)
    requires t == "( at robot a.b )"
    ensures Expr(t) == Some(Parsed(Expression("at", [Atom("robot"), Atom("a.b")]), ""))
    ensures ExprAsWritten(t) == Expr(t)
  {
    var at, robot, dotted, close := "at", "robot", "a.b", " )";
    DottedWords(at, robot, dotted, close);
    DottedSplit(t, at, robot, dotted, close);
    SpacedExpressionRead(t, at, robot, dotted, close);
  }

  lemma {:induction false} DottedWords(at: string, robot: string, dotted: string, close: string)
    requires at == "at" && robot == "robot" && dotted == "a.b" && close == " )"
    ensures IsWordLabel(at) && IsWordLabel(robot) && IsWordLabel(dotted) && SpacedClose(close)
    ensures at != FORALL && at != EXISTS
  {
  }

  lemma {:induction false} DottedSplit(t: string, at: string, robot: string, dotted: string, close: string)
    requires t == "( at robot a.b )"
    requires at == "at" && robot == "robot" && dotted == "a.b" && close == " )"
    ensures t == "(" + (" " + (at + (" " + (robot + (" " + (dotted + close))))))
  {
  }

  /** A variable followed by a character that is no letter or digit is read back as itself. */
  lemma {:induction false} VariableReadsBack(w: string, rest: string)
    requires IsVariableWord(w)
    requires |rest| == 0 || !IsAlnum(rest[0])
    ensures Variable(w + rest) == Some(Parsed(w, rest))
  {
    var t := w + rest;
    assert t[1..] == w[1..] + rest;
    AlnumCharsPrefix(w[1..], rest);
    assert t[..1 + |w[1..]|] == w;
    assert t[1 + |w[1..]|..] == rest;
  }

  lemma {:induction false} TrimLeftStops(x: string)
    requires |x| > 0 && !IsSpace(x[0])
    ensures TrimLeft(x) == x
  {
  }

  lemma {:induction false} TrimLeftSkipsSpace(x: string)
    ensures TrimLeft(" " + x) == TrimLeft(x)
  {
    assert (" " + x)[1..] == x;
  }

  /** Whitespace before a general expression is skipped. */
  lemma {:induction false} GeneralSkipsSpace(x: string, init: seq<Expression>)
    ensures General(" " + x, init) == General(x, init)
  {
    PunctSkipsSpace(x, '(');
    GeneralOfPunct(" " + x, x, init);
  }

  lemma {:induction false} PunctSkipsSpace(x: string, c: char)
    ensures Punct(" " + x, c) == Punct(x, c)
  {
    TrimLeftSkipsSpace(x);
  }

  /** The general expression depends on its input only through what follows the "(". */
  lemma {:induction false} GeneralOfPunct(t1: string, t2: string, init: seq<Expression>)
    requires Punct(t1, '(') == Punct(t2, '(')
    ensures General(t1, init) == General(t2, init)
  {
  }

  /** Nothing parses as a parameter where the input (after whitespace) closes a parenthesis. */
  lemma {:induction false} NothingAtClose(t: string)
    requires |TrimLeft(t)| > 0 && TrimLeft(t)[0] == ')'
    ensures Item(t) == None
  {
    var u := TrimLeft(t);
    GeneralNeedsOpen(t, []);
    NoWordAtClose(u);
    NoSimpleAt(t, u);
  }

  /** No label and no variable starts at ")". */
  lemma {:induction false} NoWordAtClose(u: string)
    requires |u| > 0 && u[0] == ')'
    ensures SimpleWord(u) == None && SimpleCompound(u) == None
  {
    LabelShape(u);
    VariableShape(u);
  }

  /** Where neither a general nor a simple expression starts, no parameter does. */
  lemma {:induction false} NoSimpleAt(t: string, u: string)
    requires u == TrimLeft(t) && General(t, []) == None
    requires SimpleWord(u) == None && SimpleCompound(u) == None
    ensures Item(t) == None
  {
  }

  /**
   * The expressions the printer writes back readably: every name is a label
   * (or, for an atom, a variable).
   */
  predicate WellFormed(e: Expression)
    decreases e
  {
    if IsAtomic(e) then IsLabelWord(e.name) || IsVariableWord(e.name)
    else IsLabelWord(e.name) && forall k :: 0 <= k < |e.parameters| ==> WellFormed(e.parameters[k])
  }

  /** The printed parameters read from the front: a space, the first one, the others. */
  lemma {:induction false} ParametersLispFront(ps: seq<Expression>)
    requires |ps| > 0
    ensures ParametersLisp(ps) == " " + ToLisp(ps[0]) + ParametersLisp(ps[1..])
    decreases |ps|
  {
    var init := ps[..|ps| - 1];
    if |ps| == 1 {
      assert init == [] && ps[1..] == [];
    } else {
      ParametersLispFront(init);
      var tail := ps[1..];
      assert tail[..|tail| - 1] == init[1..];
      assert tail[|tail| - 1] == ps[|ps| - 1];
    }
  }

  /** A simple expression on a bare label or variable is that atom. */
  lemma {:induction false} SimpleReadsLabel(u: string, w: string, tail: string)
    requires u == w + tail
    requires IsLabelWord(w) && (|tail| == 0 || !IsLabelChar(tail[0]))
    ensures SimpleWord(u) == Some(Parsed(Atom(w), tail))
  {
    VariableShape(u);
    LabelReadsBack(w, tail);
  }

  lemma {:induction false} SimpleReadsVariable(u: string, w: string, tail: string)
    requires u == w + tail
    requires IsVariableWord(w) && (|tail| == 0 || !IsAlnum(tail[0]))
    ensures SimpleWord(u) == Some(Parsed(Atom(w), tail))
  {
    VariableReadsBack(w, tail);
  }

  /** No general expression starts where the input (after whitespace) does not open a parenthesis. */
  lemma {:induction false} GeneralNeedsOpen(t: string, init: seq<Expression>)
    requires |TrimLeft(t)| == 0 || TrimLeft(t)[0] != '('
    ensures General(t, init) == None
  {
  }

  /** Where no general expression starts, a parameter is a simple expression. */
  lemma {:induction false} ItemFallsBack(t: string)
    requires General(t, []) == None
    ensures Item(t) == Simple(t)
  {
  }

  /** A label or a variable starts with no whitespace and no parenthesis. */
  lemma {:induction false} WordStart(w: string)
    requires IsLabelWord(w) || IsVariableWord(w)
    ensures |w| > 0 && !IsSpace(w[0]) && w[0] != '(' && w[0] != ')'
  {
  }

  /** What the printer puts after a name ends it: a space or a closing parenthesis is no label character. */
  lemma {:induction false} Delimiter(c: char)
    requires c == ' ' || c == ')'
    ensures !IsLabelChar(c) && !IsAlnum(c)
  {
  }

  /** An atom, printed after a space, is read back as one parameter. */
  lemma {:induction false} AtomReadsBack(p: Expression, tail: string)
    requires IsAtomic(p) && (IsLabelWord(p.name) || IsVariableWord(p.name))
    requires |tail| > 0 && (tail[0] == ' ' || tail[0] == ')')
    ensures Item(" " + p.name + tail) == Some(Parsed(p, tail))
  {
    var u := p.name + tail;
    assert " " + p.name + tail == " " + u;
    WordStart(p.name);
    StartsAfterSpace(u);
    ItemIsWord(" " + u);
    Delimiter(tail[0]);
    if IsLabelWord(p.name) {
      SimpleReadsLabel(u, p.name, tail);
    } else {
      SimpleReadsVariable(u, p.name, tail);
    }
    assert Atom(p.name) == p;
  }

  lemma {:induction false} StartsAfterSpace(u: string)
    requires |u| > 0 && !IsSpace(u[0])
    ensures TrimLeft(" " + u) == u
  {
    TrimLeftSkipsSpace(u);
  }

  /** Where the input (after whitespace) opens no parenthesis, a parameter is a bare word. */
  lemma {:induction false} ItemIsWord(t: string)
    requires |TrimLeft(t)| > 0 && TrimLeft(t)[0] != '('
    ensures Item(t) == SimpleWord(TrimLeft(t))
  {
    GeneralNeedsOpen(t, []);
    assert SimpleCompound(TrimLeft(t)) == None;
  }

  /** Where a general expression starts, a parameter is that general expression. */
  lemma {:induction false} ItemIsGeneral(t: string)
    requires General(t, []).Some?
    ensures Item(t) == General(t, [])
  {
  }

  /** A general expression put together from its parts. */
  lemma {:induction false} GeneralParts(t: string, u: string, name: string, afterName: string,
                                        ps: seq<Expression>, close: string, rest: string)
    requires Punct(t, '(') == Some(u)
    requires Label(TrimLeft(u)) == Some(Parsed(name, afterName))
    requires Items(afterName) == Parsed(ps, close)
    requires Punct(close, ')') == Some(rest)
    ensures General(t, []) == Some(Parsed(Expression(name, ps), rest))
  {
    assert [] + ps == ps;
  }

  /** Round trip of one parameter: printed after a space, it is read back whole. */
  lemma {:induction false} ItemReadsBack(p: Expression, tail: string)
    requires WellFormed(p)
    requires |tail| > 0 && (tail[0] == ' ' || tail[0] == ')')
    ensures Item(" " + ToLisp(p) + tail) == Some(Parsed(p, tail))
    decreases p, 1
  {
    if IsAtomic(p) {
      assert ToLisp(p) == p.name;
      AtomReadsBack(p, tail);
    } else {
      var x := ToLisp(p) + tail;
      assert " " + ToLisp(p) + tail == " " + x;
      GeneralReadsBack(p, tail);
      GeneralSkipsSpace(x, []);
      ItemIsGeneral(" " + x);
    }
  }

  /** The printed parameters from position k on are a space and the k-th one, then the rest. */
  lemma {:induction false} ParametersLispAt(ps: seq<Expression>, k: nat)
    requires k < |ps|
    ensures ParametersLisp(ps[k..]) == " " + ToLisp(ps[k]) + ParametersLisp(ps[k + 1..])
  {
    var q := ps[k..];
    ParametersLispFront(q);
    assert q[1..] == ps[k + 1..];
  }

  /** After the k-th printed parameter comes a space or the closing parenthesis. */
  lemma {:induction false} ParametersLispDelimited(ps: seq<Expression>, k: nat, rest: string)
    requires k < |ps| && |rest| > 0 && rest[0] == ')'
    ensures |ParametersLisp(ps[k + 1..]) + rest| > 0
    ensures (ParametersLisp(ps[k + 1..]) + rest)[0] == ' ' || (ParametersLisp(ps[k + 1..]) + rest)[0] == ')'
  {
    if k + 1 == |ps| {
      assert ps[k + 1..] == [];
    } else {
      ParametersLispFront(ps[k + 1..]);
    }
  }

  /** Round trip of the parameters from position k on, up to the closing parenthesis. */
  lemma {:induction false} ItemsReadBack(ps: seq<Expression>, k: nat, rest: string)
    requires k <= |ps| && forall j :: 0 <= j < |ps| ==> WellFormed(ps[j])
    requires |rest| > 0 && rest[0] == ')'
    ensures Items(ParametersLisp(ps[k..]) + rest) == Parsed(ps[k..], rest)
    decreases ps, |ps| - k, 2
  {
    if k == |ps| {
      NoParametersLeft(ps, k, rest);
    } else {
      ItemsReadBackFrom(ps, k, rest);
    }
  }

  /** The parameters from a position before the end are read back, one, then the others. */
  lemma {:induction false} ItemsReadBackFrom(ps: seq<Expression>, k: nat, rest: string)
    requires k < |ps| && forall j :: 0 <= j < |ps| ==> WellFormed(ps[j])
    requires |rest| > 0 && rest[0] == ')'
    ensures Items(ParametersLisp(ps[k..]) + rest) == Parsed(ps[k..], rest)
    decreases ps, |ps| - k, 1
  {
    ItemsReadBack(ps, k + 1, rest);
    ItemsReadBackStep(ps, k, rest);
  }

  /** Past the last parameter, the closing parenthesis stops the repetition. */
  lemma {:induction false} NoParametersLeft(ps: seq<Expression>, k: nat, rest: string)
    requires k == |ps| && |rest| > 0 && rest[0] == ')'
    ensures Items(ParametersLisp(ps[k..]) + rest) == Parsed(ps[k..], rest)
  {
    assert ps[k..] == [];
    EmptyPrefix(rest);
    TrimLeftStops(rest);
    NothingAtClose(rest);
    ItemsEmpty(rest);
  }

  lemma {:induction false} EmptyPrefix(t: string)
    ensures "" + t == t
  {
  }

  /** The k-th parameter is read back, and then the parameters after it. */
  lemma {:induction false} ItemsReadBackStep(ps: seq<Expression>, k: nat, rest: string)
    requires k < |ps| && WellFormed(ps[k])
    requires |rest| > 0 && rest[0] == ')'
    requires Items(ParametersLisp(ps[k + 1..]) + rest) == Parsed(ps[k + 1..], rest)
    ensures Items(ParametersLisp(ps[k..]) + rest) == Parsed(ps[k..], rest)
    decreases ps, |ps| - k, 0
  {
    var tail := ParametersLisp(ps[k + 1..]) + rest;
    var t := ParametersLisp(ps[k..]) + rest;
    ParametersLispAt(ps, k);
    Associative(" " + ToLisp(ps[k]), ParametersLisp(ps[k + 1..]), rest);
    ParametersLispDelimited(ps, k, rest);
    ItemThenItems(ps[k], tail, ps[k + 1..], rest);
    SliceFront(ps, k);
  }

  lemma {:induction false} SliceFront<T>(xs: seq<T>, k: nat)
    requires k < |xs|
    ensures [xs[k]] + xs[k + 1..] == xs[k..]
  {
  }

  lemma {:induction false} Associative(a: string, b: string, c: string)
    ensures (a + b) + c == a + (b + c)
  {
  }

  /** A printed parameter, then parameters read back from what follows it. */
  lemma {:induction false} ItemThenItems(p: Expression, tail: string, more: seq<Expression>, rest: string)
    requires WellFormed(p) && |tail| > 0 && (tail[0] == ' ' || tail[0] == ')')
    requires Items(tail) == Parsed(more, rest)
    ensures Items(" " + ToLisp(p) + tail) == Parsed([p] + more, rest)
    decreases p, 2
  {
    ItemReadsBack(p, tail);
    ItemsStep(" " + ToLisp(p) + tail, p, tail, more, rest);
  }

  /** One step of the parameter repetition. */
  lemma {:induction false} ItemsStep(t: string, p: Expression, tail: string, more: seq<Expression>, rest: string)
    requires Item(t) == Some(Parsed(p, tail))
    requires Items(tail) == Parsed(more, rest)
    ensures Items(t) == Parsed([p] + more, rest)
  {
  }

  /**
   * Round trip of the general expression rule: a well-formed compound
   * expression, printed by `toLISP`, is read back as itself, and the input
   * after it is left untouched.
   */
  lemma {:induction false} GeneralReadsBack(e: Expression, rest: string)
    requires WellFormed(e) && !IsAtomic(e)
    ensures General(ToLisp(e) + rest, []) == Some(Parsed(e, rest))
    decreases e, 0
  {
    var params := ParametersLisp(e.parameters);
    var close := ")" + rest;
    var u := e.name + (params + close);
    var t := ToLisp(e) + rest;
    OpenAhead(e, rest);
    WordStart(e.name);
    TrimLeftStops(u);
    ParametersLispFront(e.parameters);
    Delimiter(' ');
    LabelReadsBack(e.name, params + close);
    ItemsReadBack(e.parameters, 0, close);
    assert e.parameters[0..] == e.parameters;
    TrimLeftStops(close);
    GeneralParts(t, u, e.name, params + close, e.parameters, close, rest);
    assert Expression(e.name, e.parameters) == e;
  }

  /** The printed compound expression opens a parenthesis, then its label and parameters follow. */
  lemma {:induction false} OpenAhead(e: Expression, rest: string)
    requires !IsAtomic(e)
    ensures Punct(ToLisp(e) + rest, '(') == Some(e.name + (ParametersLisp(e.parameters) + (")" + rest)))
  {
    var t := ToLisp(e) + rest;
    var u := e.name + (ParametersLisp(e.parameters) + (")" + rest));
    assert t == "(" + u;
    TrimLeftStops(t);
    assert t[1..] == u;
  }

  lemma {:induction false} NoSpacePrefix(name: string, more: string, w: string)
    requires !StartsWith(name, w) && |more| > 0 && more[0] == ' '
    requires forall k :: 0 <= k < |w| ==> w[k] != ' '
    ensures !StartsWith(name + more, w)
  {
    assert |w| <= |name| ==> (name + more)[..|w|] == name[..|w|];
    assert |w| > |name| ==> (name + more)[|name|] == ' ';
  }

  /**
   * Round trip of the Expression rule: a well-formed compound expression
   * whose label is not a quantifier word is printed and read back as itself.
   */
  lemma {:induction false} ExprReadsBack(e: Expression, rest: string)
    requires WellFormed(e) && !IsAtomic(e)
    requires e.name != FORALL && e.name != EXISTS
    ensures Expr(ToLisp(e) + rest) == Some(Parsed(e, rest))
    ensures ExprAsWritten(ToLisp(e) + rest) == Expr(ToLisp(e) + rest)
  {
    var t := ToLisp(e) + rest;
    PrintedOpens(e, rest);
    PrintedNameNotQuantifier(e, rest);
    NoQuantifierAhead(t, e.name + (ParametersLisp(e.parameters) + (")" + rest)));
    GeneralReadsBack(e, rest);
    ExprOfGeneral(t);
    AsWrittenAgreesWithoutLeak(t);
  }

  /** Where no quantifier form is found, the expression is the general one. */
  lemma {:induction false} ExprOfGeneral(t: string)
    requires QuantifierExpression(t) == NoQuantifier([])
    ensures Expr(t) == General(t, [])
  {
  }

  /** The text of a compound expression opens with "(" and then its name. */
  lemma {:induction false} PrintedOpens(e: Expression, rest: string)
    requires WellFormed(e) && !IsAtomic(e)
    ensures Punct(ToLisp(e) + rest, '(') == Some(e.name + (ParametersLisp(e.parameters) + (")" + rest)))
    ensures TrimLeft(e.name + (ParametersLisp(e.parameters) + (")" + rest)))
         == e.name + (ParametersLisp(e.parameters) + (")" + rest))
  {
    var u := e.name + (ParametersLisp(e.parameters) + (")" + rest));
    var t := ToLisp(e) + rest;
    assert t == "(" + u;
    TrimLeftStops(t);
    assert t[1..] == u;
    TrimLeftStops(u);
  }

  /** A printed name that is no quantifier word does not open the quantifier form. */
  lemma {:induction false} PrintedNameNotQuantifier(e: Expression, rest: string)
    requires WellFormed(e) && !IsAtomic(e)
    requires e.name != FORALL && e.name != EXISTS
    ensures NoQuantifierOpens(e.name + (ParametersLisp(e.parameters) + (")" + rest)))
  {
    var more := ParametersLisp(e.parameters) + (")" + rest);
    ParametersLispFront(e.parameters);
    NotQuantifierWord(e.name, more);
  }

  /**
   * After "(", either no quantifier word is read, or one is read and no "("
   * follows it: in both cases the quantifier form fails before it adds
   * anything to the attribute.
   */
  predicate NoQuantifierOpens(u: string)
  {
    match Quantifier(u)
    case None => true
    case Some(q) => Punct(q.rest, '(') == None
  }

  /**
   * A longer label that begins with a quantifier word, such as `forall_x`,
   * is read as that word followed by a label character, which is no "(".
   */
  lemma {:induction false} QuantifierPrefixStops(name: string, more: string, w: string)
    requires IsLabelWord(name) && (w == FORALL || w == EXISTS)
    requires StartsWith(name, w) && name != w
    ensures NoQuantifierOpens(name + more)
  {
    var x := name + more;
    PrefixKept(name, more, w);
    QuantifierWordRead(x, w);
    LabelCharAfter(name, more, w);
    TrimLeftStops(x[|w|..]);
  }

  /** A quantifier word at the front is read as that word. */
  lemma {:induction false} QuantifierWordRead(x: string, w: string)
    requires (w == FORALL || w == EXISTS) && StartsWith(x, w)
    ensures Quantifier(x) == Some(Parsed(w, x[|w|..]))
  {
    LiteralShape(x, FORALL);
    if w == EXISTS {
      assert x[0] == 'e';
    }
  }

  lemma {:induction false} PrefixKept(name: string, more: string, w: string)
    requires StartsWith(name, w) && name != w
    ensures StartsWith(name + more, w) && |name| > |w|
  {
    assert name[..|w|] == w;
    assert (name + more)[..|w|] == name[..|w|];
  }

  /** The character after the quantifier word is a label character, neither whitespace nor "(". */
  lemma {:induction false} LabelCharAfter(name: string, more: string, w: string)
    requires IsLabelWord(name) && |name| > |w| && |w| >= 2
    ensures (name + more)[|w|..][0] == name[|w|]
    ensures !IsSpace(name[|w|]) && name[|w|] != '('
  {
    assert IsWordLabel(name);
    assert IsLabelChar(name[|w|]);
  }

  /** The quantifier form put together from its parts, up to its body. */
  lemma {:induction false} QuantifierParts(t: string, a: string, q: Parsed<string>, b: string,
                                           item: Parsed<TypedItem>, c: string)
    requires Punct(t, '(') == Some(a)
    requires Quantifier(TrimLeft(a)) == Some(q)
    requires Punct(q.rest, '(') == Some(b)
    requires TypedItemRule(b) == Some(item)
    requires Punct(item.rest, ')') == Some(c)
    ensures QuantifierExpression(t) == QuantifiedBody(q.value, c)
  {
  }

  /** The body of the quantifier form: one general expression, then ")". */
  lemma {:induction false} QuantifiedBodyParts(quantifier: string, c: string, g: Expression, d: string, e: string)
    requires General(c, []) == Some(Parsed(g, d))
    requires Punct(d, ')') == Some(e)
    ensures QuantifiedBody(quantifier, c) == Quantified(Parsed(Expression(quantifier, [g]), e))
  {
  }

  /** Where the quantifier form succeeds, the Expression rule takes it. */
  lemma {:induction false} ExprTakesQuantified(t: string, p: Parsed<Expression>)
    requires QuantifierExpression(t) == Quantified(p)
    ensures Expr(t) == Some(p)
  {
  }

  /** A quantifier keyword followed by a space is read as that keyword. */
  lemma {:induction false} QuantifierReads(q: string, tail: string)
    requires q == FORALL || q == EXISTS
    ensures Quantifier(q + " " + tail) == Some(Parsed(q, " " + tail))
  {
    var a := q + " " + tail;
    assert a[..6] == q && a[6..] == " " + tail;
    QuantifierExact(a);
    if q == EXISTS {
      assert !StartsWith(a, FORALL);
    }
  }

  /** A bare variable before ")" is a typed item without a type. */
  lemma {:induction false} TypedVariable(v: string, afterItem: string)
    requires IsVariableWord(v) && |afterItem| > 0 && afterItem[0] == ')'
    ensures TypedItemRule(v + afterItem) == Some(Parsed(TypedItem(v, ""), afterItem))
  {
    var b := v + afterItem;
    TrimLeftStops(b);
    NoLabelAtQuestion(b);
    VariableReadsBack(v, afterItem);
    NoDashAtClose(afterItem);
    TypeSuffixEnd(afterItem, "");
    TypedItemParts(b, Parsed(v, afterItem), Parsed("", afterItem));
  }

  /** No label starts with "?". */
  lemma {:induction false} NoLabelAtQuestion(b: string)
    requires |b| > 0 && b[0] == '?'
    ensures Label(b) == None
  {
    LabelShape(b);
  }

  /** No "-" is found at ")". */
  lemma {:induction false} NoDashAtClose(t: string)
    requires |t| > 0 && t[0] == ')'
    ensures Punct(t, '-') == None
  {
    TrimLeftStops(t);
  }

  /** `(q (` is read as the opening parenthesis, the quantifier and the typed item's parenthesis. */
  lemma {:induction false} QuantifierHead(q: string, b: string)
    requires q == FORALL || q == EXISTS
    ensures Punct("(" + (q + " " + ("(" + b)), '(') == Some(q + " " + ("(" + b))
    ensures Quantifier(TrimLeft(q + " " + ("(" + b))) == Some(Parsed(q, " " + ("(" + b)))
    ensures Punct(" " + ("(" + b), '(') == Some(b)
  {
    var a := q + " " + ("(" + b);
    var t := "(" + a;
    TrimLeftStops(t);
    assert t[1..] == a;
    QuantifierReads(q, "(" + b);
    TrimLeftStops(a);
    TrimLeftSkipsSpace("(" + b);
    TrimLeftStops("(" + b);
    assert ("(" + b)[1..] == b;
  }

  /** `?v)` is read as the typed item and its closing parenthesis. */
  lemma {:induction false} QuantifierVariable(v: string, body: string)
    requires IsVariableWord(v)
    ensures TypedItemRule(v + (")" + body)) == Some(Parsed(TypedItem(v, ""), ")" + body))
    ensures Punct(")" + body, ')') == Some(body)
  {
    TypedVariable(v, ")" + body);
    TrimLeftStops(")" + body);
    assert (")" + body)[1..] == body;
  }

  /** The quantifier form `(q (?v)` followed by a body is read up to that body. */
  lemma {:induction false} QuantifierPrefix(q: string, v: string, body: string)
    requires q == FORALL || q == EXISTS
    requires IsVariableWord(v)
    ensures QuantifierExpression("(" + q + " (" + v + ")" + body) == QuantifiedBody(q, body)
  {
    var b := v + (")" + body);
    var a := q + " " + ("(" + b);
    var t := "(" + a;
    assert "(" + q + " (" + v + ")" + body == t;
    QuantifierHead(q, b);
    QuantifierVariable(v, body);
    QuantifierParts(t, a, Parsed(q, " " + ("(" + b)), b, Parsed(TypedItem(v, ""), ")" + body), body);
  }

  /** The Expression rule tries the quantifier form first: `(q (?v) g)` becomes q with g as its one parameter. */
  lemma {:induction false} QuantifierFormFirst(q: string, v: string, g: Expression, rest: string)
    requires q == FORALL || q == EXISTS
    requires IsVariableWord(v) && WellFormed(g) && !IsAtomic(g)
    ensures Expr("(" + q + " (" + v + ") " + ToLisp(g) + ")" + rest) == Some(Parsed(Expression(q, [g]), rest))
  {
    var close := ")" + rest;
    var body := " " + (ToLisp(g) + close);
    var t := "(" + q + " (" + v + ")" + body;
    assert "(" + q + " (" + v + ") " + ToLisp(g) + ")" + rest == t;
    QuantifierPrefix(q, v, body);
    OneBodyExpression(q, g, rest);
    ExprTakesQuantified(t, Parsed(Expression(q, [g]), rest));
  }

  /** A single printed expression and ")" make the quantified body. */
  lemma {:induction false} OneBodyExpression(q: string, g: Expression, rest: string)
    requires WellFormed(g) && !IsAtomic(g)
    ensures QuantifiedBody(q, " " + (ToLisp(g) + (")" + rest))) == Quantified(Parsed(Expression(q, [g]), rest))
  {
    var close := ")" + rest;
    GeneralSkipsSpace(ToLisp(g) + close, []);
    GeneralReadsBack(g, close);
    TrimLeftStops(close);
    QuantifiedBodyParts(q, " " + (ToLisp(g) + close), g, close, rest);
  }

  /** The parameters a general expression reads are appended to those its attribute already holds. */
  lemma {:induction false} GeneralKeepsInit(t: string, init: seq<Expression>)
    ensures General(t, init).Some? <==> General(t, []).Some?
    ensures General(t, init).Some? ==>
      General(t, init).value.rest == General(t, []).value.rest
      && General(t, init).value.value
         == Expression(General(t, []).value.value.name, init + General(t, []).value.value.parameters)
  {
    match Punct(t, '(')
    case None =>
    case Some(u) => OpenedKeepsInit(u, init);
  }

  lemma {:induction false} OpenedKeepsInit(u: string, init: seq<Expression>)
    ensures Opened(u, init).Some? <==> Opened(u, []).Some?
    ensures Opened(u, init).Some? ==>
      Opened(u, init).value.rest == Opened(u, []).value.rest
      && Opened(u, init).value.value
         == Expression(Opened(u, []).value.value.name, init + Opened(u, []).value.value.parameters)
  {
    assert [] + Items(u).value == Items(u).value;
    match Label(TrimLeft(u))
    case None =>
    case Some(l) =>
      assert [] + Items(l.rest).value == Items(l.rest).value;
  }

  /** Where the quantifier form leaves nothing behind, the rule as written and the corrected rule agree. */
  lemma {:induction false} AsWrittenAgreesWithoutLeak(t: string)
    requires !(QuantifierExpression(t).NoQuantifier? && |QuantifierExpression(t).leaked| > 0)
    ensures ExprAsWritten(t) == Expr(t)
  {
  }

  /**
   * Where the quantifier form fails only at its closing parenthesis, the rule
   * as written puts the general expression it had read in front of the
   * parameters of the general expression that succeeds.
   */
  lemma {:induction false} LeakPrepends(t: string)
    requires QuantifierExpression(t).NoQuantifier? && Expr(t).Some?
    ensures ExprAsWritten(t).Some?
    ensures ExprAsWritten(t).value.value.parameters == QuantifierExpression(t).leaked + Expr(t).value.value.parameters
  {
    GeneralKeepsInit(t, QuantifierExpression(t).leaked);
  }

  /** Where the body is read but no ")" follows, the quantifier form leaves that body behind. */
  lemma {:induction false} QuantifiedBodyLeaks(quantifier: string, c: string, g: Expression, d: string)
    requires General(c, []) == Some(Parsed(g, d))
    requires Punct(d, ')') == None
    ensures QuantifiedBody(quantifier, c) == NoQuantifier([g])
  {
  }

  /** `(a - ty)`: a compound expression that the quantifier form also reads as a typed item. */
  function TypedShape(a: string, ty: string): Expression
  {
    Expression(a, [Atom("-"), Atom(ty)])
  }

  /** `(a - ty)` is printed with its dash between spaces. */
  lemma {:induction false} TypedShapePrinted(a: string, ty: string)
    ensures ToLisp(TypedShape(a, ty)) == "(" + a + " - " + ty + ")"
  {
    var ps := [Atom("-"), Atom(ty)];
    ParametersLispFront(ps);
    ParametersLispFront(ps[1..]);
    assert ps[1..][1..] == [];
  }

  /** Three printed parameters, read from the front. */
  lemma {:induction false} ThreeParametersPrinted(x: Expression, y: Expression, z: Expression)
    ensures ParametersLisp([x, y, z]) == " " + ToLisp(x) + (" " + ToLisp(y) + (" " + ToLisp(z)))
  {
    var ps := [x, y, z];
    ParametersLispFront(ps);
    ParametersLispFront(ps[1..]);
    ParametersLispFront(ps[1..][1..]);
    assert ps[1..][1..][1..] == [];
  }

  /** The TypedItem rule put together from its parts. */
  lemma {:induction false} TypedItemParts(t: string, n: Parsed<string>, ty: Parsed<string>)
    requires Or(Label(TrimLeft(t)), Variable(TrimLeft(t))) == Some(n)
    requires TypeSuffixes(n.rest, "") == ty
    ensures TypedItemRule(t) == Some(Parsed(TypedItem(n.value, ty.value), ty.rest))
  {
  }

  /** One `- type` step of the type suffixes. */
  lemma {:induction false} TypeSuffixStep(t: string, typeName: string, u: string, l: Parsed<string>)
    requires Punct(t, '-') == Some(u)
    requires Label(TrimLeft(u)) == Some(l)
    ensures TypeSuffixes(t, typeName) == TypeSuffixes(l.rest, l.value)
  {
  }

  /** The type suffixes end where no "-" follows. */
  lemma {:induction false} TypeSuffixEnd(t: string, typeName: string)
    requires Punct(t, '-') == None
    ensures TypeSuffixes(t, typeName) == Parsed(typeName, t)
  {
  }

  /** `a - ty)` is read as the typed item `a` of type `ty`, up to its ")". */
  lemma {:induction false} TypedLabel(a: string, ty: string, close: string)
    requires IsWordLabel(a) && IsWordLabel(ty) && |close| > 0 && close[0] == ')'
    ensures TypedItemRule(a + (" " + ("- " + ty + close))) == Some(Parsed(TypedItem(a, ty), close))
  {
    var dashed := "- " + ty + close;
    var b := a + (" " + dashed);
    TypedLabelName(a, dashed);
    TypedLabelType(ty, close);
    TypedItemParts(b, Parsed(a, " " + dashed), Parsed(ty, close));
  }

  /** The name of a typed item given as a label. */
  lemma {:induction false} TypedLabelName(a: string, dashed: string)
    requires IsWordLabel(a) && |dashed| > 0 && dashed[0] == '-'
    ensures Or(Label(TrimLeft(a + (" " + dashed))), Variable(TrimLeft(a + (" " + dashed))))
      == Some(Parsed(a, " " + dashed))
  {
    WordStart(a);
    TrimLeftStops(a + (" " + dashed));
    LabelReadsBack(a, " " + dashed);
  }

  /** The type of a typed item: ` - ty` and then no further "-". */
  lemma {:induction false} TypedLabelType(ty: string, close: string)
    requires IsWordLabel(ty) && |close| > 0 && close[0] == ')'
    ensures TypeSuffixes(" " + ("- " + ty + close), "") == Parsed(ty, close)
  {
    TypedDash(ty, close);
    NoDashAtClose(close);
    TypeSuffixEnd(close, ty);
  }

  /** ` - ty)` is one type suffix. */
  lemma {:induction false} TypedDash(ty: string, close: string)
    requires IsWordLabel(ty) && |close| > 0 && close[0] == ')'
    ensures TypeSuffixes(" " + ("- " + ty + close), "") == TypeSuffixes(close, ty)
  {
    var dashed := "- " + ty + close;
    var afterDash := " " + (ty + close);
    TrimLeftSkipsSpace(dashed);
    TrimLeftStops(dashed);
    assert dashed[1..] == afterDash;
    TrimLeftSkipsSpace(ty + close);
    WordStart(ty);
    TrimLeftStops(ty + close);
    Delimiter(')');
    LabelReadsBack(ty, close);
    TypeSuffixStep(" " + dashed, "", afterDash, Parsed(ty, close));
  }

  /**
   * The attribute leak: the quantifier form reads `(q (a - ty) g` and stops
   * where `r` stands instead of ")"; the rule as written then reads the whole
   * input as a general expression with g in front of its parameters, while the
   * corrected rule reads it back exactly as printed.
   */
  lemma {:induction false} LeakShown(q: string, a: string, ty: string, g: Expression, r: Expression)
    requires q == FORALL || q == EXISTS
    requires IsWordLabel(a) && IsWordLabel(ty)
    requires WellFormed(g) && !IsAtomic(g) && WellFormed(r)
    ensures var e := Expression(q, [TypedShape(a, ty), g, r]);
      Expr(ToLisp(e)) == Some(Parsed(e, ""))
      && ExprAsWritten(ToLisp(e)) == Some(Parsed(Expression(q, [g, TypedShape(a, ty), g, r]), ""))
  {
    var e := Expression(q, [TypedShape(a, ty), g, r]);
    var t := ToLisp(e);
    var tailR := " " + (ToLisp(r) + ")");
    var c := " " + (ToLisp(g) + tailR);
    var b := a + (" " + ("- " + ty + (")" + c)));
    LeakPrinted(q, a, ty, g, r);
    LeakHead(q, a, ty, t, b, c);
    LeakBody(q, g, r);
    LeakReadsBack(q, a, ty, g, r);
  }

  /** The quantifier and its typed item are read from the front of the leak input. */
  lemma {:induction false} LeakHead(q: string, a: string, ty: string, t: string, b: string, c: string)
    requires q == FORALL || q == EXISTS
    requires IsWordLabel(a) && IsWordLabel(ty)
    requires b == a + (" " + ("- " + ty + (")" + c)))
    requires t == "(" + (q + " " + ("(" + b))
    ensures QuantifierExpression(t) == QuantifiedBody(q, c)
  {
    QuantifierHead(q, b);
    TypedLabel(a, ty, ")" + c);
    ClosingParenthesis(c);
    QuantifierParts(t, q + " " + ("(" + b), Parsed(q, " " + ("(" + b)), b, Parsed(TypedItem(a, ty), ")" + c), c);
  }

  lemma {:induction false} ClosingParenthesis(c: string)
    ensures Punct(")" + c, ')') == Some(c)
  {
    TrimLeftStops(")" + c);
    assert (")" + c)[1..] == c;
  }

  /** The printed leak input, spelled out around its parts. */
  lemma {:induction false} LeakPrinted(q: string, a: string, ty: string, g: Expression, r: Expression)
    ensures ToLisp(Expression(q, [TypedShape(a, ty), g, r]))
         == "(" + (q + " " + ("(" + (a + (" " + ("- " + ty + (")" + (" " + (ToLisp(g) + (" " + (ToLisp(r) + ")"))))))))))
  {
    TypedShapePrinted(a, ty);
    ThreeParametersPrinted(TypedShape(a, ty), g, r);
  }

  /** After the typed item, the body g is read and then r stands where ")" should. */
  lemma {:induction false} LeakBody(q: string, g: Expression, r: Expression)
    requires WellFormed(g) && !IsAtomic(g) && WellFormed(r)
    ensures QuantifiedBody(q, " " + (ToLisp(g) + (" " + (ToLisp(r) + ")")))) == NoQuantifier([g])
  {
    var tailR := " " + (ToLisp(r) + ")");
    GeneralSkipsSpace(ToLisp(g) + tailR, []);
    GeneralReadsBack(g, tailR);
    PrintedStart(r);
    PunctMissing(ToLisp(r) + ")");
    QuantifiedBodyLeaks(q, " " + (ToLisp(g) + tailR), g, tailR);
  }

  /** A ")" is missing where, after a space, something else stands. */
  lemma {:induction false} PunctMissing(x: string)
    requires |x| > 0 && !IsSpace(x[0]) && x[0] != ')'
    ensures Punct(" " + x, ')') == None
  {
    TrimLeftSkipsSpace(x);
    TrimLeftStops(x);
  }

  /** A printed well-formed expression starts with neither whitespace nor ")". */
  lemma {:induction false} PrintedStart(e: Expression)
    requires WellFormed(e)
    ensures |ToLisp(e)| > 0 && !IsSpace(ToLisp(e)[0]) && ToLisp(e)[0] != ')'
  {
    if IsAtomic(e) {
      WordStart(e.name);
    }
  }

  /** Both readings of the leak input, given what the quantifier form left behind. */
  lemma {:induction false} LeakReadsBack(q: string, a: string, ty: string, g: Expression, r: Expression)
    requires q == FORALL || q == EXISTS
    requires IsWordLabel(a) && IsWordLabel(ty)
    requires WellFormed(g) && WellFormed(r)
    requires QuantifierExpression(ToLisp(Expression(q, [TypedShape(a, ty), g, r]))) == NoQuantifier([g])
    ensures var e := Expression(q, [TypedShape(a, ty), g, r]);
      Expr(ToLisp(e)) == Some(Parsed(e, ""))
      && ExprAsWritten(ToLisp(e)) == Some(Parsed(Expression(q, [g, TypedShape(a, ty), g, r]), ""))
  {
    var e := Expression(q, [TypedShape(a, ty), g, r]);
    var t := ToLisp(e);
    LeakWellFormed(q, a, ty, g, r);
    GeneralReadsBack(e, "");
    EmptyRest(t);
    FallsBack(t);
    GeneralKeepsInit(t, [g]);
    PrependOne(g, TypedShape(a, ty), g, r);
  }

  lemma {:induction false} EmptyRest(t: string)
    ensures t + "" == t
  {
  }

  /** Where the quantifier form fails, both readings fall back to the general expression. */
  lemma {:induction false} FallsBack(t: string)
    requires QuantifierExpression(t).NoQuantifier?
    ensures Expr(t) == General(t, [])
    ensures ExprAsWritten(t) == General(t, QuantifierExpression(t).leaked)
  {
  }

  lemma {:induction false} PrependOne<T>(x: T, a: T, b: T, c: T)
    ensures [x] + [a, b, c] == [x, a, b, c]
  {
  }

  /** The leak input is well formed and compound. */
  lemma {:induction false} LeakWellFormed(q: string, a: string, ty: string, g: Expression, r: Expression)
    requires q == FORALL || q == EXISTS
    requires IsWordLabel(a) && IsWordLabel(ty)
    requires WellFormed(g) && WellFormed(r)
    ensures WellFormed(Expression(q, [TypedShape(a, ty), g, r]))
    ensures !IsAtomic(Expression(q, [TypedShape(a, ty), g, r]))
  {
    var e := Expression(q, [TypedShape(a, ty), g, r]);
    assert IsSymbolLabel("-");
    assert WellFormed(TypedShape(a, ty).parameters[0]);
    assert WellFormed(TypedShape(a, ty).parameters[1]);
    assert WellFormed(TypedShape(a, ty));
    assert IsWordLabel(q);
    assert forall k :: 0 <= k < |e.parameters| ==> WellFormed(e.parameters[k]);
  }

  /** The leak on `(forall (ab - cd) (pp qq) rr)`. */
  lemma {:induction false} LeakExample()
    ensures var e := Expression(FORALL, [TypedShape("ab", "cd"), Expression("pp", [Atom("qq")]), Atom("rr")]);
      ExprAsWritten(ToLisp(e)).Some? && ExprAsWritten(ToLisp(e)).value.value != e
  {
    var g := Expression("pp", [Atom("qq")]);
    assert IsWordLabel("pp") && IsWordLabel("qq") && IsWordLabel("rr") && IsWordLabel("ab") && IsWordLabel("cd");
    assert WellFormed(g.parameters[0]);
    LeakShown(FORALL, "ab", "cd", g, Atom("rr"));
  }

  /** Where no parameter starts, the repetition reads none. */
  lemma {:induction false} ItemsEmpty(t: string)
    requires Item(t) == None
    ensures Items(t) == Parsed([], t)
  {
  }

  /** Where no quantifier form opens after the first parenthesis, it leaves nothing behind. */
  lemma {:induction false} NoQuantifierAhead(t: string, u: string)
    requires Punct(t, '(') == Some(u)
    requires NoQuantifierOpens(TrimLeft(u))
    ensures QuantifierExpression(t) == NoQuantifier([])
  {
  }

  /** A space, then ")". */
  predicate SpacedClose(close: string)
  {
    |close| == 2 && close[0] == ' ' && close[1] == ')'
  }

  /** Nothing more is read at a spaced ")", and the ")" comes next. */
  lemma {:induction false} AtSpacedClose(close: string)
    requires SpacedClose(close)
    ensures Items(close) == Parsed([], close)
    ensures Punct(close, ')') == Some([])
  {
    assert close == " " + close[1..];
    TrimLeftSkipsSpace(close[1..]);
    TrimLeftStops(close[1..]);
    NothingAtClose(close);
    ItemsEmpty(close);
  }

  /**
   * `( name x y )`, with whitespace on both sides of each parenthesis, is read
   * as `name` with the atoms x and y.
   */
  lemma {:induction false} SpacedExpressionRead(t: string, name: string, x: string, y: string, close: string)
    requires IsLabelWord(name) && name != FORALL && name != EXISTS
    requires IsLabelWord(x) && IsLabelWord(y) && SpacedClose(close)
    requires t == "(" + (" " + (name + (" " + (x + (" " + (y + close))))))
    ensures Expr(t) == Some(Parsed(Expression(name, [Atom(x), Atom(y)]), []))
    ensures ExprAsWritten(t) == Expr(t)
  {
    var tailX := " " + (x + (" " + (y + close)));
    var u := " " + (name + tailX);
    TrimLeftStops(t);
    assert t[1..] == u;
    WordStart(name);
    StartsAfterSpace(name + tailX);
    Delimiter(' ');
    LabelReadsBack(name, tailX);
    SpacedItems(x, y, close);
    AtSpacedClose(close);
    GeneralParts(t, u, name, tailX, [Atom(x), Atom(y)], close, []);
    SpacedNoQuantifier(t, u, name, tailX);
    FallsBack(t);
    AsWrittenAgreesWithoutLeak(t);
  }

  /** A label that is no quantifier word, after "(", leaves the quantifier form with nothing. */
  lemma {:induction false} SpacedNoQuantifier(t: string, u: string, name: string, tailX: string)
    requires Punct(t, '(') == Some(u) && TrimLeft(u) == name + tailX
    requires IsLabelWord(name) && name != FORALL && name != EXISTS
    requires |tailX| > 0 && tailX[0] == ' '
    ensures QuantifierExpression(t) == NoQuantifier([])
  {
    NotQuantifierWord(name, tailX);
    NoQuantifierAhead(t, u);
  }

  /** A label that is no quantifier word, followed by a space, does not open the quantifier form. */
  lemma {:induction false} NotQuantifierWord(name: string, tailX: string)
    requires IsLabelWord(name) && name != FORALL && name != EXISTS
    requires |tailX| > 0 && tailX[0] == ' '
    ensures NoQuantifierOpens(name + tailX)
  {
    if StartsWith(name, FORALL) {
      QuantifierPrefixStops(name, tailX, FORALL);
    } else if StartsWith(name, EXISTS) {
      QuantifierPrefixStops(name, tailX, EXISTS);
    } else {
      QuantifierExact(name + tailX);
      NoSpacePrefix(name, tailX, FORALL);
      NoSpacePrefix(name, tailX, EXISTS);
    }
  }

  /** ` x y )` is read as the atoms x and y, up to the spaced ")". */
  lemma {:induction false} SpacedItems(x: string, y: string, close: string)
    requires IsLabelWord(x) && IsLabelWord(y) && SpacedClose(close)
    ensures Items(" " + (x + (" " + (y + close)))) == Parsed([Atom(x), Atom(y)], close)
  {
    SpacedLastAtom(y, close);
    SpacedAtom(x, " " + (y + close), [Atom(y)], close);
    assert [Atom(x)] + [Atom(y)] == [Atom(x), Atom(y)];
  }

  /** The last atom before the spaced closing parenthesis. */
  lemma {:induction false} SpacedLastAtom(y: string, close: string)
    requires IsLabelWord(y) && SpacedClose(close)
    ensures Items(" " + (y + close)) == Parsed([Atom(y)], close)
  {
    AtSpacedClose(close);
    SpacedAtom(y, close, [], close);
    assert [Atom(y)] + [] == [Atom(y)];
  }

  /** An atom after a space, then what is read after it. */
  lemma {:induction false} SpacedAtom(x: string, tail: string, more: seq<Expression>, rest: string)
    requires IsLabelWord(x) && |tail| > 0 && (tail[0] == ' ' || tail[0] == ')')
    requires Items(tail) == Parsed(more, rest)
    ensures Items(" " + (x + tail)) == Parsed([Atom(x)] + more, rest)
  {
    var p := Atom(x);
    assert WellFormed(p) && ToLisp(p) == x;
    ItemThenItems(p, tail, more, rest);
    Associative(" ", x, tail);
  }

  /** Two printed parameters. */
  lemma {:induction false} TwoParametersPrinted(x: Expression, y: Expression)
    ensures ParametersLisp([x, y]) == " " + ToLisp(x) + (" " + ToLisp(y))
  {
    var ps := [x, y];
    ParametersLispFront(ps);
    ParametersLispFront(ps[1..]);
    assert ps[1..][1..] == [];
  }

  /** `( at robot location )` is read as `at` with the atoms `robot` and `location`. */
  lemma {:induction false} AtRobotLocation(t: string)
    requires t == "( at robot location )"
    ensures Expr(t) == Some(Parsed(Expression("at", [Atom("robot"), Atom("location")]), ""))
    ensures ExprAsWritten(t) == Expr(t)
  {
    var at, robot, location, close := "at", "robot", "location", " )";
    AtRobotWords(at, robot, location, close);
    AtRobotSplit(t, at, robot, location, close);
    SpacedExpressionRead(t, at, robot, location, close);
  }

  lemma {:induction false} AtRobotWords(at: string, robot: string, location: string, close: string)
    requires at == "at" && robot == "robot" && location == "location" && close == " )"
    ensures IsWordLabel(at) && IsWordLabel(robot) && IsWordLabel(location) && SpacedClose(close)
    ensures at != FORALL && at != EXISTS
  {
  }

  lemma {:induction false} AtRobotSplit(t: string, at: string, robot: string, location: string, close: string)
    requires t == "( at robot location )"
    requires at == "at" && robot == "robot" && location == "location" && close == " )"
    ensures t == "(" + (" " + (at + (" " + (robot + (" " + (location + close))))))
  {
  }

  /** That expression is printed as `(at robot location)`. */
  lemma {:induction false} AtRobotLocationPrinted(e: Expression)
    requires e == Expression("at", [Atom("robot"), Atom("location")])
    ensures ToLisp(e) == "(at robot location)"
  {
    assert e.parameters == [e.parameters[0], e.parameters[1]];
    TwoParametersPrinted(e.parameters[0], e.parameters[1]);
    assert ToLisp(e.parameters[0]) == "robot" && ToLisp(e.parameters[1]) == "location";
  }

  /** `(= (distance location_c0 location_p0) 10)` is printed and read back as itself. */
  lemma {:induction false} DistanceComparison(d: Expression, e: Expression)
    requires d == Expression("distance", [Atom("location_c0"), Atom("location_p0")])
    requires e == Expression("=", [d, Atom("10")])
    ensures ToLisp(e) == "(= " + "(distance location_c0 location_p0)" + " 10)"
    ensures Expr(ToLisp(e)) == Some(Parsed(e, ""))
    ensures ExprAsWritten(ToLisp(e)) == Expr(ToLisp(e))
  {
    DistancePrinted(d, e);
    DistanceWellFormed(d, e);
    ExprReadsBack(e, "");
    EmptyRest(ToLisp(e));
  }

  lemma {:induction false} DistancePrinted(d: Expression, e: Expression)
    requires d == Expression("distance", [Atom("location_c0"), Atom("location_p0")])
    requires e == Expression("=", [d, Atom("10")])
    ensures ToLisp(e) == "(= " + "(distance location_c0 location_p0)" + " 10)"
  {
    DistanceInnerPrinted(d);
    assert e.parameters == [d, e.parameters[1]];
    TwoParametersPrinted(d, e.parameters[1]);
    ComparisonText(e.name, ToLisp(d), ToLisp(e.parameters[1]));
  }

  lemma {:induction false} DistanceInnerPrinted(d: Expression)
    requires d == Expression("distance", [Atom("location_c0"), Atom("location_p0")])
    ensures ToLisp(d) == "(distance location_c0 location_p0)"
  {
    assert d.parameters == [d.parameters[0], d.parameters[1]];
    TwoParametersPrinted(d.parameters[0], d.parameters[1]);
    DistanceText(d.name, ToLisp(d.parameters[0]), ToLisp(d.parameters[1]));
  }

  lemma {:induction false} DistanceText(n: string, x: string, y: string)
    requires n == "distance" && x == "location_c0" && y == "location_p0"
    ensures "(" + n + (" " + x + (" " + y)) + ")" == "(distance location_c0 location_p0)"
  {
  }

  lemma {:induction false} ComparisonText(n: string, inner: string, z: string)
    requires n == "=" && z == "10"
    ensures "(" + n + (" " + inner + (" " + z)) + ")" == "(= " + inner + " 10)"
  {
  }

  lemma {:induction false} DistanceWellFormed(d: Expression, e: Expression)
    requires d == Expression("distance", [Atom("location_c0"), Atom("location_p0")])
    requires e == Expression("=", [d, Atom("10")])
    ensures WellFormed(e) && !IsAtomic(e) && e.name != FORALL && e.name != EXISTS
  {
    DistanceWords(d.name, d.parameters[0].name, d.parameters[1].name, e.parameters[1].name, e.name);
    assert WellFormed(d.parameters[0]) && WellFormed(d.parameters[1]);
    assert WellFormed(d);
    assert WellFormed(e.parameters[1]);
    assert forall k :: 0 <= k < |e.parameters| ==> WellFormed(e.parameters[k]);
  }

  lemma {:induction false} DistanceWords(n: string, x: string, y: string, z: string, eq: string)
    requires n == "distance" && x == "location_c0" && y == "location_p0" && z == "10" && eq == "="
    ensures IsWordLabel(n) && IsWordLabel(x) && IsWordLabel(y) && IsWordLabel(z) && IsSymbolLabel(eq)
    ensures eq != FORALL && eq != EXISTS
  {
  }

  /** ExpressionList needs one expression: input that does not open a parenthesis gives none. */
  lemma {:induction false} ListNeedsAnExpression(t: string)
    requires |TrimLeft(t)| == 0 || TrimLeft(t)[0] != '('
    ensures ExpressionList(t) == None
  {
  }

  /** A compound expression whose label is no quantifier word, as the round trips need it. */
  predicate ListItem(e: Expression)
  {
    WellFormed(e) && !IsAtomic(e) && e.name != FORALL && e.name != EXISTS
  }

  /** The printed expressions, one after the other. */
  function ListLisp(es: seq<Expression>): string
  {
    if |es| == 0 then "" else ToLisp(es[0]) + ListLisp(es[1..])
  }

  /** At the end of the input no expression is read. */
  lemma {:induction false} NothingAtEnd()
    ensures ExprAsWritten("") == None
    ensures MoreExpressions("") == Parsed([], "")
  {
    assert TrimLeft("") == "";
  }

  /** One expression read, then the rest read by the repetition. */
  lemma {:induction false} MoreExpressionsStep(t: string, e: Expression, tail: string, more: seq<Expression>)
    requires ExprAsWritten(t) == Some(Parsed(e, tail))
    requires MoreExpressions(tail) == Parsed(more, "")
    ensures MoreExpressions(t) == Parsed([e] + more, "")
    ensures ExpressionList(t) == Some(Parsed([e] + more, ""))
  {
  }

  /** The first printed expression, then the others. */
  lemma {:induction false} ListLispFront(es: seq<Expression>)
    requires |es| >= 1
    requires forall k :: 0 <= k < |es| ==> ListItem(es[k])
    ensures ListLisp(es) == ToLisp(es[0]) + ListLisp(es[1..])
    ensures ListItem(es[0])
    ensures forall k :: 0 <= k < |es[1..]| ==> ListItem(es[1..][k])
    ensures [es[0]] + es[1..] == es
  {
    forall k | 0 <= k < |es[1..]| ensures ListItem(es[1..][k]) {
      assert es[1..][k] == es[k + 1];
    }
  }

  /** The printed expressions are read back by the repetition, each as itself, in order. */
  lemma {:induction false} MoreExpressionsReadBack(es: seq<Expression>)
    requires forall k :: 0 <= k < |es| ==> ListItem(es[k])
    ensures MoreExpressions(ListLisp(es)) == Parsed(es, "")
    decreases |es|
  {
    if |es| == 0 {
      NothingAtEnd();
    } else {
      ListLispFront(es);
      ExprReadsBack(es[0], ListLisp(es[1..]));
      MoreExpressionsReadBack(es[1..]);
      MoreExpressionsStep(ListLisp(es), es[0], ListLisp(es[1..]), es[1..]);
    }
  }

  /** Round trip of the ExpressionList rule: one or more printed expressions read back as that list. */
  lemma {:induction false} ExpressionListReadsBack(es: seq<Expression>)
    requires |es| >= 1
    requires forall k :: 0 <= k < |es| ==> ListItem(es[k])
    ensures ExpressionList(ListLisp(es)) == Some(Parsed(es, ""))
  {
    ListLispFront(es);
    ExprReadsBack(es[0], ListLisp(es[1..]));
    MoreExpressionsReadBack(es[1..]);
    MoreExpressionsStep(ListLisp(es), es[0], ListLisp(es[1..]), es[1..]);
  }
}
