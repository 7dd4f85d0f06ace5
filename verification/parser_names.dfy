/** Which function names a parsed tree can hold. The parser builds a
    Function node only from a keyword token followed by '(', and it reads
    `pi` and `e` as constants before that test; so every function name of a
    tree is the word of a keyword token of the input, and neither of those
    two. Each lemma follows one function of the parser. */
module ParserNames {
  import opened Errors
  import opened Ast
  import opened Parser
  import Lexer

  /** Every name in `names` is the word of a keyword token of `toks`, and
      neither `pi` nor `e`. */
  predicate NamedIn(toks: seq<Token>, names: set<string>) {
    forall f :: f in names ==> Lexer.Keyword(f) in toks && f != "pi" && f != "e"
  }

  lemma {:induction false} ParseNames(toks: seq<Token>)
    ensures Parse(toks).Ok? ==> NamedIn(toks, FunctionNames(Parse(toks).value))
  {
    ExpressionNames(toks, 0);
  }

  lemma {:induction false} ExpressionNames(toks: seq<Token>, pos: nat)
    requires pos <= |toks|
    ensures Expression(toks, pos).Ok? ==> NamedIn(toks, FunctionNames(Expression(toks, pos).value.0))
    decreases |toks| - pos, 5
  {
    TermNames(toks, pos);
  }

  lemma {:induction false} TermNames(toks: seq<Token>, pos: nat)
    requires pos <= |toks|
    ensures Term(toks, pos).Ok? ==> NamedIn(toks, FunctionNames(Term(toks, pos).value.0))
    decreases |toks| - pos, 4
  {
    FactorNames(toks, pos);
    if Factor(toks, pos).Ok? {
      var lp := Factor(toks, pos).value;
      TermRestNames(toks, lp.0, lp.1);
    }
  }

  lemma {:induction false} TermRestNames(toks: seq<Token>, left: Expr, pos: nat)
    requires pos <= |toks|
    ensures TermRest(toks, left, pos).Ok? && NamedIn(toks, FunctionNames(left)) ==>
              NamedIn(toks, FunctionNames(TermRest(toks, left, pos).value.0))
    decreases |toks| - pos, 4
  {
    if IsOp(toks, pos, "+") || IsOp(toks, pos, "-") {
      var op := if IsOp(toks, pos, "+") then Add else Sub;
      FactorNames(toks, pos + 1);
      if Factor(toks, pos + 1).Ok? {
        var rp := Factor(toks, pos + 1).value;
        TermRestNames(toks, BinaryOp(op, left, rp.0), rp.1);
      }
    }
  }

  lemma {:induction false} FactorNames(toks: seq<Token>, pos: nat)
    requires pos <= |toks|
    ensures Factor(toks, pos).Ok? ==> NamedIn(toks, FunctionNames(Factor(toks, pos).value.0))
    decreases |toks| - pos, 3
  {
    PowerNames(toks, pos);
    if Power(toks, pos).Ok? {
      var lp := Power(toks, pos).value;
      FactorRestNames(toks, lp.0, lp.1);
    }
  }

  lemma {:induction false} FactorRestNames(toks: seq<Token>, left: Expr, pos: nat)
    requires pos <= |toks|
    ensures FactorRest(toks, left, pos).Ok? && NamedIn(toks, FunctionNames(left)) ==>
              NamedIn(toks, FunctionNames(FactorRest(toks, left, pos).value.0))
    decreases |toks| - pos, 3
  {
    if IsOp(toks, pos, "*") || IsOp(toks, pos, "/") {
      var op := if IsOp(toks, pos, "*") then Mul else Div;
      PowerNames(toks, pos + 1);
      if Power(toks, pos + 1).Ok? {
        var rp := Power(toks, pos + 1).value;
        FactorRestNames(toks, BinaryOp(op, left, rp.0), rp.1);
      }
    }
  }

  lemma {:induction false} PowerNames(toks: seq<Token>, pos: nat)
    requires pos <= |toks|
    ensures Power(toks, pos).Ok? ==> NamedIn(toks, FunctionNames(Power(toks, pos).value.0))
    decreases |toks| - pos, 2
  {
    UnaryNames(toks, pos);
    if Unary(toks, pos).Ok? {
      var lp := Unary(toks, pos).value;
      PowerRestNames(toks, lp.0, lp.1);
    }
  }

  lemma {:induction false} PowerRestNames(toks: seq<Token>, left: Expr, pos: nat)
    requires pos <= |toks|
    ensures PowerRest(toks, left, pos).Ok? && NamedIn(toks, FunctionNames(left)) ==>
              NamedIn(toks, FunctionNames(PowerRest(toks, left, pos).value.0))
    decreases |toks| - pos, 2
  {
    if IsOp(toks, pos, "^") {
      UnaryNames(toks, pos + 1);
      if Unary(toks, pos + 1).Ok? {
        var rp := Unary(toks, pos + 1).value;
        PowerRestNames(toks, BinaryOp(Pow, left, rp.0), rp.1);
      }
    }
  }

  lemma {:induction false} UnaryNames(toks: seq<Token>, pos: nat)
    requires pos <= |toks|
    ensures Unary(toks, pos).Ok? ==> NamedIn(toks, FunctionNames(Unary(toks, pos).value.0))
    decreases |toks| - pos, 1
  {
    if IsOp(toks, pos, "+") || IsOp(toks, pos, "-") {
      UnaryNames(toks, pos + 1);
    } else {
      AtomNames(toks, pos);
    }
  }

  lemma {:induction false} AtomNames(toks: seq<Token>, pos: nat)
    requires pos <= |toks|
    ensures Atom(toks, pos).Ok? ==> NamedIn(toks, FunctionNames(Atom(toks, pos).value.0))
    decreases |toks| - pos, 0
  {
    if pos < |toks| {
      match toks[pos]
      case Identifier(name) =>
        if IsOp(toks, pos + 1, "=") {
          ExpressionNames(toks, pos + 2);
        }
      case Keyword(word) =>
        if word != "pi" && word != "e" && IsParen(toks, pos + 1, true) {
          ExpressionNames(toks, pos + 2);
        }
      case Paren(open) =>
        if open {
          ExpressionNames(toks, pos + 1);
        }
      case _ =>
    }
  }

  /** A tree parsed from the tokenizer's output names no function other than
      the keywords `sin`, `cos`, `tan`, `sqrt`, `log`, `ln` and `if`; so of
      the names the compiler has no opcode for, `if` is the only one a
      tree can hold. */
  lemma LexedNamesAreKeywords(parseFloat: string -> real, toks: seq<Token>)
    requires forall i :: 0 <= i < |toks| ==> Lexer.WellFormed(toks[i], parseFloat)
    ensures Parse(toks).Ok? ==> FunctionNames(Parse(toks).value) - KnownFunctions <= {"if"}
  {
    ParseNames(toks);
    if Parse(toks).Ok? {
      forall f | f in FunctionNames(Parse(toks).value)
        ensures f in KnownFunctions || f == "if"
      {
        var i :| 0 <= i < |toks| && toks[i] == Lexer.Keyword(f);
        assert Lexer.WellFormed(toks[i], parseFloat);
      }
    }
  }
}
