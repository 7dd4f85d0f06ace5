/** The `Calculator` class of js/calculator.js: one calculator's history and
    its variables, the command words, and `calculate`, which runs an
    expression through the whole engine — tokenizer, parser, compiler and
    stack machine — with the calculator's variables as the starting symbol
    table, and keeps the table the machine leaves only when the run
    succeeds. A thrown error is an `Err` value here; the source's
    "Calculation error: " prefix on the message is not represented. */
module Calculation {
  import opened Errors
  import Ast
  import Lexer
  import Parser
  import ParserNames
  import Bytecode
  import Machine
  import Semantics
  import CompilerCorrectness
  import Numerics

  /** What `calculate` returns: a number, or a command's message. */
  datatype Outcome = Value(number: real) | Message(text: string)

  /** One history record, `{expression, result}`. */
  datatype Entry = Entry(expression: string, result: Outcome)

  datatype Calculator = Calculator(history: seq<Entry>, variables: map<string, real>)

  /** A new calculator: no history, no variables. */
  const Fresh := Calculator([], map[])

  // ----- command words ------------------------------------------------------

  datatype Command = ShowHistory | ClearDisplay | EndSession

  /** The message `calculate` returns for a command. */
  function CommandMessage(cmd: Command): string {
    match cmd
    case ShowHistory => "Command: Show History"
    case ClearDisplay => "Command: Clear Display"
    case EndSession => "Command: End Session"
  }

  /** `toLowerCase` on the letters A-Z. The command words are plain ASCII
      without a 'k', and the only non-ASCII character whose lower case is
      ASCII is the Kelvin sign (lowering to 'k'), so ASCII lowering decides
      the command comparisons exactly as the full Unicode mapping does. */
  function LowerChar(c: char): char {
    if 'A' <= c <= 'Z' then (c as int + 32) as char else c
  }

  function Lower(s: string): (r: string)
    ensures |r| == |s|
    ensures forall i :: 0 <= i < |s| ==> r[i] == LowerChar(s[i])
  {
    if s == [] then [] else [LowerChar(s[0])] + Lower(s[1..])
  }

  /** The command an input names, compared case-insensitively. */
  function CommandOf(expression: string): (r: Option<Command>)
    ensures r == Some(ShowHistory) <==> Lower(expression) == "history"
    ensures r == Some(ClearDisplay) <==> Lower(expression) == "clear"
    ensures r == Some(EndSession) <==> Lower(expression) in {"exit", "end"}
  {
    var w := Lower(expression);
    if w == "history" then Some(ShowHistory)
    else if w == "clear" then Some(ClearDisplay)
    else if w == "exit" || w == "end" then Some(EndSession)
    else None
  }

  /** Lowering twice is lowering once, so whether an input is a command does
      not depend on the case it was typed in. */
  lemma CommandIgnoresCase(expression: string)
    ensures CommandOf(Lower(expression)) == CommandOf(expression)
  {
    var w := Lower(expression);
    assert Lower(w) == w;
  }

  // ----- the engine pipeline ------------------------------------------------

  /** Tokenize, parse, compile and run `expression` with `variables` as the
      symbol table (declaring every variable into an empty table gives the
      same map). The value and the table the machine leaves. */
  function Evaluate(prim: Numerics.Primitives, expression: string, variables: map<string, real>): (r: Result<(real, map<string, real>)>)
    ensures r.Ok? ==> variables.Keys <= r.value.1.Keys
    ensures r.Err? ==> r.error != InvalidExpression && r.error != StackUnderflow
  {
    var tokens :- Lexer.Tokenize(prim.parseFloat, expression);
    var ast :- Parser.Parse(tokens);
    var code :- Bytecode.Compile(ast);
    CompilerCorrectness.ProgramCorrect(prim, ast, variables);
    Machine.RunProgram(prim, code, variables)
  }

  /** The tree the parser builds for `expression`, when it lexes and parses. */
  function Tree(prim: Numerics.Primitives, expression: string): Result<Ast.Expr> {
    var tokens :- Lexer.Tokenize(prim.parseFloat, expression);
    Parser.Parse(tokens)
  }

  /** The engine computes the direct left-to-right meaning of the tree the
      parser built; compiling can only fail on a function name the compiler
      has no opcode for. */
  lemma EvaluateMeansEval(prim: Numerics.Primitives, expression: string, variables: map<string, real>)
    ensures Tree(prim, expression).Err? ==> Evaluate(prim, expression, variables) == Err(Tree(prim, expression).error)
    ensures Tree(prim, expression).Ok? ==>
              var e := Tree(prim, expression).value;
              Evaluate(prim, expression, variables) ==
                (if Ast.FunctionNames(e) <= Ast.KnownFunctions then Semantics.Eval(prim, e, variables)
                 else Err(Bytecode.Compile(e).error))
  {
    if Tree(prim, expression).Ok? {
      var e := Tree(prim, expression).value;
      if Bytecode.Compile(e).Ok? {
        CompilerCorrectness.ProgramCorrect(prim, e, variables);
      }
    }
  }

  /** The one way a line that parses can still fail before it runs: it
      calls `if`, the function keyword the compiler has no opcode for. */
  lemma OnlyIfFailsToCompile(prim: Numerics.Primitives, expression: string)
    ensures Tree(prim, expression).Ok? ==>
              Ast.FunctionNames(Tree(prim, expression).value) - Ast.KnownFunctions <= {"if"}
    ensures Tree(prim, expression).Ok? && Bytecode.Compile(Tree(prim, expression).value).Err? ==>
              Bytecode.Compile(Tree(prim, expression).value).error == UnknownFunction("if")
  {
    var tokens := Lexer.Tokenize(prim.parseFloat, expression);
    if tokens.Ok? {
      ParserNames.LexedNamesAreKeywords(prim.parseFloat, tokens.value);
    }
  }

  // ----- calculate ----------------------------------------------------------

  /** `calculate`: a command word answers with its message; anything else is
      evaluated, and on success every entry of the final table is copied
      into the calculator's variables. A failure leaves them untouched. */
  function Calculate(prim: Numerics.Primitives, c: Calculator, expression: string): (r: (Calculator, Result<Outcome>))
    ensures r.0.history == c.history
    ensures r.1.Err? ==> r.0 == c
    ensures CommandOf(expression).Some? <==> r.1.Ok? && r.1.value.Message?
    ensures CommandOf(expression).Some? ==> r == (c, Ok(Message(CommandMessage(CommandOf(expression).value))))
    ensures r.1.Ok? ==> c.variables.Keys <= r.0.variables.Keys
  {
    match CommandOf(expression)
    case Some(cmd) => (c, Ok(Message(CommandMessage(cmd))))
    case None =>
      match Evaluate(prim, expression, c.variables)
      case Err(k) => (c, Err(k))
      case Ok(vt) =>
        var variables := map x | x in c.variables.Keys + vt.1.Keys ::
                           if x in vt.1 then vt.1[x] else c.variables[x];
        (c.(variables := variables), Ok(Value(vt.0)))
  }

  /** What a successful non-command calculation commits: exactly the
      variables of the direct evaluation — the old ones, plus the names the
      expression assigns, holding the values assigned; every other name
      keeps its value. */
  lemma CalculateCommits(prim: Numerics.Primitives, c: Calculator, expression: string)
    requires CommandOf(expression).None?
    requires Tree(prim, expression).Ok?
    ensures var e := Tree(prim, expression).value;
            var r := Calculate(prim, c, expression);
            (r.1.Ok? <==> Ast.FunctionNames(e) <= Ast.KnownFunctions && Semantics.Eval(prim, e, c.variables).Ok?) &&
            (r.1.Ok? ==>
               r.1.value == Value(Semantics.Eval(prim, e, c.variables).value.0) &&
               r.0.variables == Semantics.Eval(prim, e, c.variables).value.1 &&
               r.0.variables.Keys == c.variables.Keys + Ast.AssignedNames(e) &&
               forall x :: x in c.variables && x !in Ast.AssignedNames(e) ==> r.0.variables[x] == c.variables[x])
  {
    EvaluateMeansEval(prim, expression, c.variables);
    var r := Calculate(prim, c, expression);
    if r.1.Ok? {
      var vt := Evaluate(prim, expression, c.variables).value;
      assert r.0.variables == vt.1;
    }
  }

  // ----- history and variables ----------------------------------------------

  /** No two neighbouring records share an expression. */
  predicate AdjacentDistinct(history: seq<Entry>) {
    forall i :: 0 < i < |history| ==> history[i - 1].expression != history[i].expression
  }

  /** `addToHistory`: append the record unless the last one has the same
      expression (the result is not compared). */
  function AddToHistory(c: Calculator, expression: string, result: Outcome): (r: Calculator)
    ensures r.variables == c.variables
    ensures (c.history == [] || c.history[|c.history| - 1].expression != expression) <==>
            r.history == c.history + [Entry(expression, result)]
    ensures r.history == c.history || r.history == c.history + [Entry(expression, result)]
    ensures r.history != [] && r.history[|r.history| - 1].expression == expression
  {
    if c.history == [] || c.history[|c.history| - 1].expression != expression then
      c.(history := c.history + [Entry(expression, result)])
    else c
  }

  /** Adding through `addToHistory` never puts two equal expressions next to
      each other. */
  lemma AddKeepsAdjacentDistinct(c: Calculator, expression: string, result: Outcome)
    requires AdjacentDistinct(c.history)
    ensures AdjacentDistinct(AddToHistory(c, expression, result).history)
  {
  }

  /** Entering the same expression twice in a row records it once. */
  lemma AddTwiceIsAddOnce(c: Calculator, expression: string, first: Outcome, second: Outcome)
    ensures AddToHistory(AddToHistory(c, expression, first), expression, second) == AddToHistory(c, expression, first)
  {
  }

  /** `setHistory`: a copy of the given array, or an empty history for
      anything that is not an array (`None`). */
  function SetHistory(c: Calculator, history: Option<seq<Entry>>): (r: Calculator)
    ensures r.variables == c.variables
    ensures history.Some? ==> r.history == history.value
    ensures history.None? ==> r.history == []
  {
    c.(history := if history.Some? then history.value else [])
  }

  /** `clearHistory`. */
  function ClearHistory(c: Calculator): (r: Calculator)
    ensures r.history == [] && r.variables == c.variables
  {
    c.(history := [])
  }

  /** `clearVariables`. */
  function ClearVariables(c: Calculator): (r: Calculator)
    ensures r.variables == map[] && r.history == c.history
  {
    c.(variables := map[])
  }

  /** After `clearVariables` every variable reference fails again. */
  lemma ClearedVariablesAreUndefined(prim: Numerics.Primitives, c: Calculator, x: string)
    ensures Semantics.Eval(prim, Ast.Variable(x), ClearVariables(c).variables) == Err(UndefinedVariable(x))
  {
  }
}
