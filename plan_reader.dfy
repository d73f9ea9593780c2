/**
 * Reading a planner's result file into a Plan, and collecting the plans of
 * all result files in a workspace. PDDLPlannerInterface, AbstractPlanner and
 * the Randward planner each carry an identical copy of this reader; the only
 * difference is the name at the head of the "could not open" message, which
 * is a parameter here.
 *
 * A file's contents are its bytes, one Dafny character per byte, so the
 * lengths below count bytes as the C++ code does.
 * The file is read with fgets into a 2048-character buffer, so each read
 * returns at most 2047 characters and stops after a newline. The chunk is
 * converted to std::string, which stops at the first NUL. From each chunk the
 * text after the first '(' is cut out with `substr(pos + 1, endpos - 1)`,
 * where `endpos` is the position of the last ')', and that text is split on
 * single spaces: the first token is the action name, the others its
 * arguments.
 */
module PlanReader {
  import opened Wrappers
  import opened StdString
  import opened PlannerTypes

  /** The size of the fgets buffer. */
  const BUFFER_SIZE: nat := 2048
  /** The size of the buffer the "could not open" message is formatted into. */
  const MESSAGE_BUFFER_SIZE: nat := 512

  // ---------------------------------------------------------------------
  // fgets chunks

  /** How many characters one fgets call consumes from a non-empty rest of file. */
  function ChunkLength(rest: string): (n: nat)
    requires |rest| > 0
    ensures 0 < n <= |rest| && n < BUFFER_SIZE
    ensures '\n' !in rest[..n - 1]
    ensures n == |rest| || n == BUFFER_SIZE - 1 || rest[n - 1] == '\n'
  {
    var window := rest[..Min(BUFFER_SIZE - 1, |rest|)];
    if '\n' in window then
      var i := IndexOf(window, '\n');
      assert rest[..i] == window[..i];
      i + 1
    else
      assert rest[..|window| - 1] == window[..|window| - 1];
      |window|
  }

  /** The successive chunks fgets returns for a file's content. */
  function Chunks(content: string): (r: seq<string>)
    ensures forall k :: 0 <= k < |r| ==> 0 < |r[k]| < BUFFER_SIZE
    decreases |content|
  {
    if |content| == 0 then []
    else
      var n := ChunkLength(content);
      [content[..n]] + Chunks(content[n..])
  }

  function Concat(parts: seq<string>): string
  {
    if |parts| == 0 then "" else parts[0] + Concat(parts[1..])
  }

  /** The chunks cover the file: together they are exactly its content, in order. */
  lemma {:induction false} ChunksCoverContent(content: string)
    ensures Concat(Chunks(content)) == content
    decreases |content|
  {
    if |content| > 0 {
      var n := ChunkLength(content);
      ChunksCoverContent(content[n..]);
      assert content == content[..n] + content[n..];
    }
  }

  // ---------------------------------------------------------------------
  // One line

  /** `readline.substr(pos + 1, endpos - 1)` with both positions from find_*_of. */
  function Extracted(line: string): (r: string)
    requires |line| < BUFFER_SIZE
    ensures |r| <= |line|
  {
    var pos := FindFirstOf(line, '(');
    var endpos := FindLastOf(line, ')');
    Substr(line, SizeAdd(pos, 1), SizeSub(endpos, 1))
  }

  /** The text split at every single space; an empty piece is kept as a token. */
  function SplitSpaces(s: string): (r: seq<string>)
    ensures |r| > 0
    ensures forall k :: 0 <= k < |r| ==> ' ' !in r[k]
    decreases |s|
  {
    if ' ' !in s then [s]
    else
      var i := IndexOf(s, ' ');
      [s[..i]] + SplitSpaces(s[i + 1..])
  }

  /** The action of a text split on single spaces: the first token names it, the rest are its arguments. */
  function TokensAction(text: string): (a: Action)
  {
    var tokens := SplitSpaces(text);
    Action(tokens[0], tokens[1..])
  }

  /** The Action one chunk (after NUL truncation) turns into. */
  function ParseLine(line: string): (a: Action)
    requires |line| < BUFFER_SIZE
  {
    TokensAction(Extracted(line))
  }

  /** The actions readPlan produces for a file's content: one per chunk, in file order. */
  function ActionsOf(content: string): (r: seq<Action>)
    decreases |content|
  {
    if |content| == 0 then []
    else
      var n := ChunkLength(content);
      [ParseLine(CString(content[..n]))] + ActionsOf(content[n..])
  }

  /** The message of the exception thrown when the file cannot be opened, cut to the buffer. */
  function OpenFailureMessage(owner: string, filename: string): (m: string)
    ensures |m| < MESSAGE_BUFFER_SIZE
  {
    var full := CString(owner) + ": could not open '" + CString(filename) + "'";
    full[..Min(|full|, MESSAGE_BUFFER_SIZE - 1)]
  }

  /** What readPlan returns: the plan of an opened file, the open failure otherwise. */
  function ReadResult(owner: string, filename: string, file: Option<string>): (r: Result<Plan, Error>)
    ensures r.Failure? <==> file.None?
    ensures r.Failure? ==> r.error.PlanGenerationException?
  {
    match file
    case None => Failure(PlanGenerationException(OpenFailureMessage(owner, filename)))
    case Some(content) => Success(Plan(ActionsOf(content)))
  }

  /** The body of the read loop for one chunk: cut out the parenthesised text and split it. */
  method ParseChunk(line: string) returns (action: Action)
    requires |line| < BUFFER_SIZE
    ensures action == ParseLine(line)
  {
    var readline := line;
    var pos := FindFirstOf(readline, '(');
    var endpos := FindLastOf(readline, ')');
    readline := Substr(readline, SizeAdd(pos, 1), SizeSub(endpos, 1));
    assert readline == Extracted(line);
    action := SplitAction(readline);
  }

  /** The splitting of the reader, over the cut-out text of one chunk. */
  method SplitAction(text: string) returns (action: Action)
    requires |text| < BUFFER_SIZE
    ensures action == TokensAction(text)
  {
    var readline := text;
    var pos := FindFirstOf(readline, ' ');
    action := NewAction("");
    if pos == NPOS {
      action := action.(name := readline);
      TokensWithoutSpace(text);
      return;
    }
    action := action.(name := readline[..pos]);
    FirstToken(action, readline, pos);
    action := SplitArguments(action, readline, pos, text);
    TokensOfAction(action, text);
  }

  /** A text without a space is one token: the name, with no arguments. */
  lemma {:induction false} TokensWithoutSpace(text: string)
    requires ' ' !in text
    ensures TokensAction(text) == Action(text, [])
  {
    assert SplitSpaces(text) == [text];
  }

  /** An action whose name and arguments are the tokens of a text is that text's action. */
  lemma {:induction false} TokensOfAction(a: Action, text: string)
    requires [a.name] + a.arguments == SplitSpaces(text)
    ensures a == TokensAction(text)
  {
    var tokens := SplitSpaces(text);
    assert tokens[0] == a.name;
    assert tokens[1..] == a.arguments;
  }

  /**
   * The `while (true)` loop of the reader: each round cuts the text after the
   * space at pos and adds one argument, the last one when no space is left.
   */
  method SplitArguments(start: Action, cut: string, first: nat, ghost text: string) returns (action: Action)
    requires |cut| < BUFFER_SIZE && first < |cut| && cut[first] == ' '
    requires [start.name] + start.arguments + SplitSpaces(cut[first + 1..]) == SplitSpaces(text)
    ensures [action.name] + action.arguments == SplitSpaces(text)
  {
    action := start;
    var readline := cut;
    var pos: nat := first;
    ghost var done := [action.name] + action.arguments;
    while true
      invariant |readline| < BUFFER_SIZE
      invariant pos < |readline| && readline[pos] == ' '
      invariant done == [action.name] + action.arguments
      invariant done + SplitSpaces(readline[pos + 1..]) == SplitSpaces(text)
      decreases |readline|
    {
      readline := readline[pos + 1..];
      pos := FindFirstOf(readline, ' ');
      if pos == NPOS {
        LastToken(done, readline);
        AddedToken(action, done, readline);
        action := AddArgument(action, readline);
        done := done + [readline];
        break;
      }
      NextToken(done, readline, pos);
      AddedToken(action, done, readline[..pos]);
      action := AddArgument(action, readline[..pos]);
      done := done + [readline[..pos]];
    }
  }

  /** The name split off at the first space, then the tokens after it. */
  lemma {:induction false} FirstToken(a: Action, s: string, pos: nat)
    requires pos < |s| && s[pos] == ' ' && ' ' !in s[..pos]
    requires a.name == s[..pos] && a.arguments == []
    ensures [a.name] + a.arguments + SplitSpaces(s[pos + 1..]) == SplitSpaces(s)
  {
    SplitAtFirst(s, pos);
    assert [a.name] + a.arguments == [s[..pos]];
  }

  /** Adding an argument adds it after the tokens already split off. */
  lemma {:induction false} AddedToken(a: Action, done: seq<string>, w: string)
    requires done == [a.name] + a.arguments
    ensures done + [w] == [AddArgument(a, w).name] + AddArgument(a, w).arguments
  {
    assert AddArgument(a, w).arguments == a.arguments + [w];
  }

  /** One more token split off at the first space. */
  lemma NextToken(done: seq<string>, s: string, pos: nat)
    requires pos < |s| && s[pos] == ' ' && ' ' !in s[..pos]
    ensures done + SplitSpaces(s) == (done + [s[..pos]]) + SplitSpaces(s[pos + 1..])
  {
    SplitAtFirst(s, pos);
  }

  /** The text after the last space is the last token. */
  lemma LastToken(done: seq<string>, s: string)
    requires ' ' !in s
    ensures done + SplitSpaces(s) == done + [s]
  {
  }

  lemma SplitAtFirst(s: string, pos: nat)
    requires pos < |s| && s[pos] == ' ' && ' ' !in s[..pos]
    ensures SplitSpaces(s) == [s[..pos]] + SplitSpaces(s[pos + 1..])
  {
    assert IndexOf(s, ' ') == pos;
  }

  /**
   * `readPlan`. `file` is the content of the file, or None when fopen fails.
   * The exception is thrown only for a file that cannot be opened; every
   * chunk of an opened file yields one action, whatever it holds.
   */
  method ReadPlan(owner: string, filename: string, file: Option<string>) returns (r: Result<Plan, Error>)
    ensures r == ReadResult(owner, filename, file)
  {
    if file.None? {
      return Failure(PlanGenerationException(OpenFailureMessage(owner, filename)));
    }
    var content := file.value;
    var plan := Plan([]);
    var rest := content;
    while |rest| > 0
      invariant plan.actions + ActionsOf(rest) == ActionsOf(content)
      decreases |rest|
    {
      var n := ChunkLength(rest);
      var action := ParseChunk(CString(rest[..n]));
      assert ActionsOf(rest) == [action] + ActionsOf(rest[n..]);
      assert (plan.actions + [action]) + ActionsOf(rest[n..]) == plan.actions + ([action] + ActionsOf(rest[n..]));
      plan := AddAction(plan, action);
      rest := rest[n..];
    }
    assert plan.actions + ActionsOf(rest) == plan.actions;
    return Success(plan);
  }

  // ---------------------------------------------------------------------
  // What the reader makes of particular lines

  /** readPlan appends exactly one action per fgets chunk, in file order. */
  lemma {:induction false} OneActionPerChunk(content: string)
    ensures |ActionsOf(content)| == |Chunks(content)|
    ensures forall k :: 0 <= k < |Chunks(content)| ==> ActionsOf(content)[k] == ParseLine(CString(Chunks(content)[k]))
    decreases |content|
  {
    if |content| > 0 {
      var n := ChunkLength(content);
      OneActionPerChunk(content[n..]);
      ActionsOfFront(content);
      ChunksFront(content);
      ChunkActionsCons(ActionsOf(content[n..]), Chunks(content[n..]), content[..n]);
    }
  }

  lemma {:induction false} ActionsOfFront(content: string)
    requires |content| > 0
    ensures ActionsOf(content)
         == [ParseLine(CString(content[..ChunkLength(content)]))] + ActionsOf(content[ChunkLength(content)..])
  {
  }

  lemma {:induction false} ChunksFront(content: string)
    requires |content| > 0
    ensures Chunks(content) == [content[..ChunkLength(content)]] + Chunks(content[ChunkLength(content)..])
  {
  }

  /** One action per chunk is kept when one more chunk and its action go in front. */
  lemma {:induction false} ChunkActionsCons(actions: seq<Action>, chunks: seq<string>, c: string)
    requires |c| < BUFFER_SIZE && forall k :: 0 <= k < |chunks| ==> |chunks[k]| < BUFFER_SIZE
    requires |actions| == |chunks|
    requires forall k :: 0 <= k < |chunks| ==> actions[k] == ParseLine(CString(chunks[k]))
    ensures var all := [c] + chunks;
      forall k :: 0 <= k < |all| ==> ([ParseLine(CString(c))] + actions)[k] == ParseLine(CString(all[k]))
  {
  }

  /** A file of zero bytes is an empty plan, not an error. */
  lemma EmptyFileIsEmptyPlan(owner: string, filename: string)
    ensures ReadResult(owner, filename, Some("")) == Success(Plan([]))
  {
  }

  /** A line starting with '(' yields the text up to the last ')'. */
  lemma {:induction false} ExtractedFromColumnZero(line: string, e: nat)
    requires |line| < BUFFER_SIZE && |line| > 0 && line[0] == '('
    requires e < |line| && line[e] == ')' && ')' !in line[e + 1..]
    ensures Extracted(line) == line[1..e]
  {
    assert FindFirstOf(line, '(') == 0;
    assert FindLastOf(line, ')') == e;
  }

  /** `(noop)` with its newline gives the action noop without arguments. */
  lemma NoopLine()
    ensures ParseLine("(noop)\n") == Action("noop", [])
  {
    ExtractedFromColumnZero("(noop)\n", 5);
    assert "(noop)\n"[1..5] == "noop";
  }

  /** A word followed by a space: the word is the first token, the rest is split on. */
  lemma SplitHead(word: string, rest: string)
    requires ' ' !in word
    ensures SplitSpaces(word + " " + rest) == [word] + SplitSpaces(rest)
  {
    var s := word + " " + rest;
    SplitAtFirst(s, |word|);
    assert s[..|word|] == word && s[|word| + 1..] == rest;
  }

  /** Four words separated by single spaces split into those four tokens. */
  lemma SplitFourWords(w: string, x: string, y: string, z: string)
    requires ' ' !in w && ' ' !in x && ' ' !in y && ' ' !in z
    ensures SplitSpaces(w + " " + (x + " " + (y + " " + z))) == [w, x, y, z]
  {
    SplitHead(y, z);
    SplitHead(x, y + " " + z);
    SplitHead(w, x + " " + (y + " " + z));
  }

  lemma MoveExtracted(line: string)
    requires line == "(move a b c)\n"
    ensures Extracted(line) == "move" + " " + ("a" + " " + ("b" + " " + "c"))
  {
    ExtractedFromColumnZero(line, 11);
    assert line[1..11] == "move" + " " + ("a" + " " + ("b" + " " + "c"));
  }

  /** `(move a b c)` gives move with the arguments a, b, c in order. */
  lemma MoveLine(line: string)
    requires line == "(move a b c)\n"
    ensures ParseLine(line) == Action("move", ["a", "b", "c"])
  {
    MoveExtracted(line);
    SplitFourWords("move", "a", "b", "c");
  }

  /** A line without parentheses is taken whole, newline included, as an action name. */
  lemma {:induction false} LineWithoutParentheses(line: string)
    requires |line| < BUFFER_SIZE && '(' !in line && ')' !in line && ' ' !in line
    ensures ParseLine(line) == Action(line, [])
  {
    NposWrapsAround();
    assert Extracted(line) == line;
  }

  /**
   * The count `endpos - 1` is right only when '(' is the first character:
   * an indented line keeps the characters after ')' in the action name.
   */
  lemma IndentedLineKeepsTail(line: string)
    requires line == "  (noop)\n"
    ensures ParseLine(line) == Action("noop)\n", [])
  {
    assert FindFirstOf(line, '(') == 2;
    assert FindLastOf(line, ')') == 7;
    assert Extracted(line) == line[3..9];
    assert line[3..9] == "noop)\n";
    assert ' ' !in "noop)\n";
  }

  // ---------------------------------------------------------------------
  // Round trip with Action::toString

  lemma {:induction false} SpacedArgumentsCons(a: string, rest: seq<string>)
    ensures SpacedArguments([a] + rest) == " " + a + SpacedArguments(rest)
    decreases |rest|
  {
    if |rest| > 0 {
      var all := [a] + rest;
      assert all[..|all| - 1] == [a] + rest[..|rest| - 1];
      SpacedArgumentsCons(a, rest[..|rest| - 1]);
    } else {
      assert [a] + rest == [a];
      assert SpacedArguments([a]) == SpacedArguments([]) + " " + a;
    }
  }

  /** Splitting a first token followed by space-prefixed arguments gives the tokens back. */
  lemma {:induction false} SplitJoined(first: string, args: seq<string>)
    requires ' ' !in first
    requires forall k :: 0 <= k < |args| ==> ' ' !in args[k]
    ensures SplitSpaces(first + SpacedArguments(args)) == [first] + args
    decreases |args|
  {
    if |args| == 0 {
      assert first + SpacedArguments(args) == first;
    } else {
      SpacedArgumentsCons(args[0], args[1..]);
      assert args == [args[0]] + args[1..];
      var s := first + SpacedArguments(args);
      assert s == first + " " + (args[0] + SpacedArguments(args[1..]));
      assert s[|first|] == ' ';
      assert s[..|first|] == first;
      assert IndexOf(s, ' ') == |first|;
      assert s[|first| + 1..] == args[0] + SpacedArguments(args[1..]);
      SplitJoined(args[0], args[1..]);
    }
  }

  lemma WordHasNoBlank(t: string)
    requires NoSpace(t)
    ensures ' ' !in t
  {
  }

  /**
   * Parsing `"(" + a.toString() + ")"`, followed by any text without ')' such
   * as the newline of a result file, gives back the action a when its name and
   * arguments are non-empty and free of whitespace.
   */
  lemma {:induction false} ParseActionText(a: Action, tail: string)
    requires WellFormed(a) && ')' !in tail
    requires |"(" + ActionText(a) + ")" + tail| < BUFFER_SIZE
    ensures ParseLine("(" + ActionText(a) + ")" + tail) == a
  {
    ActionTextOfWords(a);
    WordHasNoBlank(a.name);
    forall k | 0 <= k < |a.arguments| ensures ' ' !in a.arguments[k] {
      WordHasNoBlank(a.arguments[k]);
    }
    ParseJoinedLine(ActionText(a), a.name, a.arguments, tail);
  }

  /** A line holding a name and space-prefixed arguments between parentheses gives them back. */
  lemma {:induction false} ParseJoinedLine(text: string, name: string, args: seq<string>, tail: string)
    requires text == name + SpacedArguments(args)
    requires ' ' !in name && forall k :: 0 <= k < |args| ==> ' ' !in args[k]
    requires ')' !in tail && |"(" + text + ")" + tail| < BUFFER_SIZE
    ensures ParseLine("(" + text + ")" + tail) == Action(name, args)
  {
    var line := "(" + text + ")" + tail;
    var e := |text| + 1;
    assert line[e] == ')' && line[e + 1..] == tail;
    ExtractedFromColumnZero(line, e);
    assert line[1..e] == text;
    SplitJoined(name, args);
  }

  /** The line a planner writes for one action. */
  function PlanLine(a: Action): string
  {
    "(" + ActionText(a) + ")" + "\n"
  }

  /** A result file listing the actions one per line. */
  function PlanFile(actions: seq<Action>): string
  {
    if |actions| == 0 then "" else PlanLine(actions[0]) + PlanFile(actions[1..])
  }

  /** An action a result file can carry on one line and the reader gives back. */
  predicate Writable(a: Action)
  {
    WellFormed(a) && '\0' !in ActionText(a) && |PlanLine(a)| < BUFFER_SIZE
  }

  lemma {:induction false} ActionTextHasNoNewline(a: Action)
    requires WellFormed(a)
    ensures '\n' !in ActionText(a)
  {
    ActionTextOfWords(a);
    var s := a.name + SpacedArguments(a.arguments);
    SpacedArgumentsNoNewline(a.arguments);
  }

  lemma {:induction false} SpacedArgumentsNoNewline(args: seq<string>)
    requires forall k :: 0 <= k < |args| ==> Word(args[k])
    ensures '\n' !in SpacedArguments(args)
  {
    if |args| > 0 {
      SpacedArgumentsNoNewline(args[..|args| - 1]);
    }
  }

  /** One fgets call returns exactly one written line. */
  lemma {:induction false} ChunkOfLine(a: Action, rest: string)
    requires Writable(a)
    ensures ChunkLength(PlanLine(a) + rest) == |PlanLine(a)|
  {
    ActionTextHasNoNewline(a);
    ChunkOfText(ActionText(a), rest);
  }

  /** A line that fits the buffer and holds its only newline at the end is one fgets chunk. */
  lemma {:induction false} ChunkOfText(text: string, rest: string)
    requires '\n' !in text && |"(" + text + ")" + "\n"| < BUFFER_SIZE
    ensures ChunkLength("(" + text + ")" + "\n" + rest) == |"(" + text + ")" + "\n"|
  {
    var line := "(" + text + ")" + "\n";
    var s := line + rest;
    var window := s[..Min(BUFFER_SIZE - 1, |s|)];
    assert window[..|line|] == line;
    assert window[|line| - 1] == '\n';
    assert '\n' !in line[..|line| - 1] by {
      assert line[..|line| - 1] == "(" + text + ")";
    }
    assert IndexOf(window, '\n') == |line| - 1 by {
      assert window[..|line| - 1] == line[..|line| - 1];
    }
  }

  lemma ActionsOfFirstChunk(line: string, rest: string)
    requires |line| > 0 && ChunkLength(line + rest) == |line|
    ensures ActionsOf(line + rest) == [ParseLine(CString(line))] + ActionsOf(rest)
  {
    assert (line + rest)[..|line|] == line;
    assert (line + rest)[|line|..] == rest;
  }

  /**
   * A result file written one action per line reads back as exactly those
   * actions, in order, for actions whose tokens are non-empty, free of
   * whitespace and NUL, and whose line fits the fgets buffer.
   */
  lemma {:induction false} ReadPlanFile(actions: seq<Action>)
    requires forall k :: 0 <= k < |actions| ==> Writable(actions[k])
    ensures ActionsOf(PlanFile(actions)) == actions
    decreases |actions|
  {
    if |actions| > 0 {
      ReadPlanFile(actions[1..]);
      ReadPlanFileStep(actions);
    }
  }

  /** The first line read back, then the lines after it. */
  lemma {:induction false} ReadPlanFileStep(actions: seq<Action>)
    requires |actions| > 0 && Writable(actions[0])
    requires ActionsOf(PlanFile(actions[1..])) == actions[1..]
    ensures ActionsOf(PlanFile(actions)) == actions
  {
    var a := actions[0];
    PlanFileFront(actions);
    ReadPlanLine(a, PlanFile(actions[1..]));
    FrontAndTail(actions);
  }

  lemma {:induction false} PlanFileFront(actions: seq<Action>)
    requires |actions| > 0
    ensures PlanFile(actions) == PlanLine(actions[0]) + PlanFile(actions[1..])
  {
  }

  lemma {:induction false} FrontAndTail<T>(xs: seq<T>)
    requires |xs| > 0
    ensures [xs[0]] + xs[1..] == xs
  {
  }

  /** The first line of a result file gives its action, and the reading goes on after it. */
  lemma {:induction false} ReadPlanLine(a: Action, rest: string)
    requires Writable(a)
    ensures ActionsOf(PlanLine(a) + rest) == [a] + ActionsOf(rest)
  {
    ChunkOfLine(a, rest);
    LineOfAction(a);
    ReadFirstLine(PlanLine(a), rest, a);
  }

  /** The line written for an action parses back to it and holds no NUL. */
  lemma {:induction false} LineOfAction(a: Action)
    requires Writable(a)
    ensures |PlanLine(a)| > 0 && '\0' !in PlanLine(a) && ParseLine(PlanLine(a)) == a
  {
    LineParsesBack(a);
    NoNulInLine(ActionText(a));
  }

  lemma {:induction false} LineParsesBack(a: Action)
    requires Writable(a)
    ensures ParseLine(PlanLine(a)) == a
  {
    ParseActionText(a, "\n");
  }

  lemma {:induction false} NoNulInLine(text: string)
    requires '\0' !in text
    ensures '\0' !in "(" + text + ")" + "\n"
  {
  }

  /** A first chunk that holds no NUL is parsed as it stands. */
  lemma {:induction false} ReadFirstLine(line: string, rest: string, a: Action)
    requires |line| > 0 && |line| < BUFFER_SIZE && ChunkLength(line + rest) == |line|
    requires '\0' !in line && ParseLine(line) == a
    ensures ActionsOf(line + rest) == [a] + ActionsOf(rest)
  {
    ActionsOfFirstChunk(line, rest);
  }

  // ---------------------------------------------------------------------
  // Harvest

  /** The plan an entry of the workspace contributes, if any. */
  function Contribution(owner: string, entry: string, resultFilename: string, files: string -> Option<string>): seq<Plan>
  {
    if FindFirst(entry, resultFilename) then
      match ReadResult(owner, entry, files(entry))
      case Success(p) => [p]
      case Failure(_) => []
    else []
  }

  /** The plans harvested from a directory listing, in enumeration order. */
  function Harvested(owner: string, entries: seq<string>, resultFilename: string, files: string -> Option<string>): (r: seq<Plan>)
    ensures |r| <= |entries|
  {
    if |entries| == 0 then []
    else
      Harvested(owner, entries[..|entries| - 1], resultFilename, files)
        + Contribution(owner, entries[|entries| - 1], resultFilename, files)
  }

  /**
   * The harvest loop: for each directory entry whose path contains the result
   * file name, read it and keep the plan; a file that cannot be read is skipped.
   */
  method Harvest(owner: string, entries: seq<string>, resultFilename: string, files: string -> Option<string>)
    returns (candidates: PlanCandidates)
    ensures candidates.plans == Harvested(owner, entries, resultFilename, files)
  {
    candidates := PlanCandidates([]);
    for i := 0 to |entries|
      invariant candidates.plans == Harvested(owner, entries[..i], resultFilename, files)
    {
      assert entries[..i + 1][..i] == entries[..i];
      var file := entries[i];
      if FindFirst(file, resultFilename) {
        var r := ReadPlan(owner, file, files(file));
        if r.Success? {
          candidates := AddPlan(candidates, r.value);
        }
      }
    }
    assert entries[..|entries|] == entries;
  }

  /** Harvesting a listing in two parts harvests each part in turn. */
  lemma {:induction false} HarvestedSplit(owner: string, xs: seq<string>, ys: seq<string>, resultFilename: string, files: string -> Option<string>)
    ensures Harvested(owner, xs + ys, resultFilename, files)
         == Harvested(owner, xs, resultFilename, files) + Harvested(owner, ys, resultFilename, files)
    decreases |ys|
  {
    if |ys| == 0 {
      assert xs + ys == xs;
    } else {
      var ys' := ys[..|ys| - 1];
      assert (xs + ys)[..|xs + ys| - 1] == xs + ys';
      HarvestedSplit(owner, xs, ys', resultFilename, files);
    }
  }

  /** An empty result file name matches no entry: the harvest is empty. */
  lemma {:induction false} HarvestedEmptyName(owner: string, entries: seq<string>, files: string -> Option<string>)
    ensures Harvested(owner, entries, "", files) == []
  {
    if |entries| > 0 {
      HarvestedEmptyName(owner, entries[..|entries| - 1], files);
    }
  }

  /**
   * When every entry carries the result file name and opens, each one gives
   * its plan, in enumeration order.
   */
  lemma {:induction false} HarvestedAllReadable(owner: string, entries: seq<string>, resultFilename: string, files: string -> Option<string>)
    requires forall k :: 0 <= k < |entries| ==> FindFirst(entries[k], resultFilename) && files(entries[k]).Some?
    ensures |Harvested(owner, entries, resultFilename, files)| == |entries|
    ensures forall k :: 0 <= k < |entries| ==>
      Harvested(owner, entries, resultFilename, files)[k] == Plan(ActionsOf(files(entries[k]).value))
  {
    if |entries| > 0 {
      var init := entries[..|entries| - 1];
      var last := entries[|entries| - 1];
      HarvestedAllReadable(owner, init, resultFilename, files);
      ReadableContribution(owner, last, resultFilename, files);
      HarvestedLastEntry(owner, entries, resultFilename, files);
      AppendedPlans(entries, init, Harvested(owner, init, resultFilename, files), files);
    }
  }

  /** The harvest of a non-empty listing is the harvest before its last entry, then that entry's contribution. */
  lemma {:induction false} HarvestedLastEntry(owner: string, entries: seq<string>, resultFilename: string, files: string -> Option<string>)
    requires |entries| > 0
    ensures Harvested(owner, entries, resultFilename, files)
         == Harvested(owner, entries[..|entries| - 1], resultFilename, files)
            + Contribution(owner, entries[|entries| - 1], resultFilename, files)
  {
  }

  /** Plans read for all entries but the last, then the plan read for the last, are read for all entries. */
  lemma {:induction false} AppendedPlans(entries: seq<string>, init: seq<string>, h: seq<Plan>, files: string -> Option<string>)
    requires |entries| > 0 && init == entries[..|entries| - 1] && |h| == |init|
    requires forall k :: 0 <= k < |init| ==> files(init[k]).Some? && h[k] == Plan(ActionsOf(files(init[k]).value))
    requires files(entries[|init|]).Some?
    ensures forall k :: 0 <= k < |entries| ==>
      files(entries[k]).Some? && (h + [Plan(ActionsOf(files(entries[|init|]).value))])[k] == Plan(ActionsOf(files(entries[k]).value))
  {
    forall k | 0 <= k < |entries|
      ensures files(entries[k]).Some? && (h + [Plan(ActionsOf(files(entries[|init|]).value))])[k] == Plan(ActionsOf(files(entries[k]).value))
    {
      if k < |init| {
        assert entries[k] == init[k];
      }
    }
  }

  /** An entry that carries the result file name and opens contributes its plan. */
  lemma {:induction false} ReadableContribution(owner: string, entry: string, resultFilename: string, files: string -> Option<string>)
    requires FindFirst(entry, resultFilename) && files(entry).Some?
    ensures Contribution(owner, entry, resultFilename, files) == [Plan(ActionsOf(files(entry).value))]
  {
  }

  /** An entry that does not carry the result file name, or does not open, contributes nothing. */
  lemma SkippedEntry(owner: string, entry: string, resultFilename: string, files: string -> Option<string>)
    requires !FindFirst(entry, resultFilename) || files(entry).None?
    ensures Contribution(owner, entry, resultFilename, files) == []
  {
  }
}
