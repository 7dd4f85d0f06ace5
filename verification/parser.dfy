/** The recursive-descent parser of js/parser.js (`Parser`). Each grammar
    level is a function of the token sequence and a position, returning the
    node it built and the position after it; the `while` loops of `term`,
    `factor` and `power` become the tail-recursive `...Rest` functions, which
    carry the tree built so far. Lowest precedence first:

      expression := term
      term       := factor (('+' | '-') factor)*
      factor     := power (('*' | '/') power)*
      power      := unary ('^' unary)*            (folds to the left)
      unary      := ('+' | '-') unary | atom
      atom       := NUMBER | IDENTIFIER ['=' expression] | 'pi' | 'e'
                  | KEYWORD '(' expression ')' | '(' expression ')'

    Every successful parse consumes at least one token; that fact is what
    makes the loops and the mutual recursion terminate. */
module Parser {
  import opened Errors
  import opened Ast
  import Lexer

  type Token = Lexer.Token

  /** The token at `pos` is the operator `symbol`. */
  predicate IsOp(toks: seq<Token>, pos: nat, symbol: string) {
    pos < |toks| && toks[pos] == Lexer.Operator(symbol)
  }

  /** The token at `pos` is an opening (`open`) or closing parenthesis. */
  predicate IsParen(toks: seq<Token>, pos: nat, open: bool) {
    pos < |toks| && toks[pos] == Lexer.Paren(open)
  }

  /** `statement`: the tree of the longest prefix the grammar accepts. The
      position reached is dropped, so tokens after that prefix are ignored. */
  function Parse(toks: seq<Token>): (r: Result<Expr>)
    ensures r.Err? ==> r.error.IsSyntaxError()
  {
    var ep :- Expression(toks, 0);
    Ok(ep.0)
  }

  function Expression(toks: seq<Token>, pos: nat): (r: Result<(Expr, nat)>)
    requires pos <= |toks|
    ensures r.Ok? ==> pos < r.value.1 <= |toks|
    ensures r.Err? ==> r.error.IsSyntaxError()
    decreases |toks| - pos, 5
  {
    Term(toks, pos)
  }

  function Term(toks: seq<Token>, pos: nat): (r: Result<(Expr, nat)>)
    requires pos <= |toks|
    ensures r.Ok? ==> pos < r.value.1 <= |toks|
    ensures r.Err? ==> r.error.IsSyntaxError()
    decreases |toks| - pos, 4
  {
    var lp :- Factor(toks, pos);
    TermRest(toks, lp.0, lp.1)
  }

  /** The loop of `term`: while the next token is '+' or '-', parse one more
      factor and make it the right operand of a node whose left operand is
      everything parsed so far. */
  function TermRest(toks: seq<Token>, left: Expr, pos: nat): (r: Result<(Expr, nat)>)
    requires pos <= |toks|
    ensures r.Ok? ==> pos <= r.value.1 <= |toks|
    ensures r.Err? ==> r.error.IsSyntaxError()
    decreases |toks| - pos, 4
  {
    if IsOp(toks, pos, "+") || IsOp(toks, pos, "-") then
      var op := if IsOp(toks, pos, "+") then Add else Sub;
      var rp :- Factor(toks, pos + 1);
      TermRest(toks, BinaryOp(op, left, rp.0), rp.1)
    else
      Ok((left, pos))
  }

  function Factor(toks: seq<Token>, pos: nat): (r: Result<(Expr, nat)>)
    requires pos <= |toks|
    ensures r.Ok? ==> pos < r.value.1 <= |toks|
    ensures r.Err? ==> r.error.IsSyntaxError()
    decreases |toks| - pos, 3
  {
    var lp :- Power(toks, pos);
    FactorRest(toks, lp.0, lp.1)
  }

  /** The loop of `factor`, over '*' and '/'. */
  function FactorRest(toks: seq<Token>, left: Expr, pos: nat): (r: Result<(Expr, nat)>)
    requires pos <= |toks|
    ensures r.Ok? ==> pos <= r.value.1 <= |toks|
    ensures r.Err? ==> r.error.IsSyntaxError()
    decreases |toks| - pos, 3
  {
    if IsOp(toks, pos, "*") || IsOp(toks, pos, "/") then
      var op := if IsOp(toks, pos, "*") then Mul else Div;
      var rp :- Power(toks, pos + 1);
      FactorRest(toks, BinaryOp(op, left, rp.0), rp.1)
    else
      Ok((left, pos))
  }

  function Power(toks: seq<Token>, pos: nat): (r: Result<(Expr, nat)>)
    requires pos <= |toks|
    ensures r.Ok? ==> pos < r.value.1 <= |toks|
    ensures r.Err? ==> r.error.IsSyntaxError()
    decreases |toks| - pos, 2
  {
    var lp :- Unary(toks, pos);
    PowerRest(toks, lp.0, lp.1)
  }

  /** The loop of `power`, over '^'. It folds to the left like the others. */
  function PowerRest(toks: seq<Token>, left: Expr, pos: nat): (r: Result<(Expr, nat)>)
    requires pos <= |toks|
    ensures r.Ok? ==> pos <= r.value.1 <= |toks|
    ensures r.Err? ==> r.error.IsSyntaxError()
    decreases |toks| - pos, 2
  {
    if IsOp(toks, pos, "^") then
      var rp :- Unary(toks, pos + 1);
      PowerRest(toks, BinaryOp(Pow, left, rp.0), rp.1)
    else
      Ok((left, pos))
  }

  /** A sign binds tighter than '^': its operand is another `unary`. */
  function Unary(toks: seq<Token>, pos: nat): (r: Result<(Expr, nat)>)
    requires pos <= |toks|
    ensures r.Ok? ==> pos < r.value.1 <= |toks|
    ensures r.Err? ==> r.error.IsSyntaxError()
    decreases |toks| - pos, 1
  {
    if IsOp(toks, pos, "+") || IsOp(toks, pos, "-") then
      var op := if IsOp(toks, pos, "+") then Plus else Minus;
      var xp :- Unary(toks, pos + 1);
      Ok((UnaryOp(op, xp.0), xp.1))
    else
      Atom(toks, pos)
  }

  function Atom(toks: seq<Token>, pos: nat): (r: Result<(Expr, nat)>)
    requires pos <= |toks|
    ensures r.Ok? ==> pos < r.value.1 <= |toks|
    ensures r.Err? ==> r.error.IsSyntaxError()
    decreases |toks| - pos, 0
  {
    if pos == |toks| then Err(UnexpectedEndOfInput)
    else
      match toks[pos]
      case Number(_, v) => Ok((Number(v), pos + 1))
      case Identifier(name) =>
        if IsOp(toks, pos + 1, "=") then
          var vp :- Expression(toks, pos + 2);
          Ok((Assignment(name, vp.0), vp.1))
        else
          Ok((Variable(name), pos + 1))
      case Keyword(word) =>
        if word == "pi" then Ok((Constant(Pi), pos + 1))
        else if word == "e" then Ok((Constant(E), pos + 1))
        else if !IsParen(toks, pos + 1, true) then Err(ExpectedOpenParen(word))
        else
          var ap :- Expression(toks, pos + 2);
          if !IsParen(toks, ap.1, false) then Err(ExpectedCloseParenAfterArgument)
          else Ok((Function(word, ap.0), ap.1 + 1))
      case Paren(open) =>
        if !open then Err(UnexpectedToken(")"))
        else
          var ep :- Expression(toks, pos + 1);
          if !IsParen(toks, ep.1, false) then Err(ExpectedCloseParen)
          else Ok((ep.0, ep.1 + 1))
      case Operator(symbol) => Err(UnexpectedToken(symbol))
  }
}
