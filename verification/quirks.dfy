/** Concrete inputs that pin down the quirks of the engine. */
module Quirks {
  import opened Errors
  import opened Ast
  import Lexer
  import opened Parser
  import opened ParserProperties
  import opened ParserGrouping
  import Calculation
  import Bytecode
  import Semantics
  import Numerics

  const Two := Lexer.Number("2", 2.0)
  const Three := Lexer.Number("3", 3.0)
  const Caret := Lexer.Operator("^")
  const Dash := Lexer.Operator("-")

  /** From a complete `power` result to the parse of the whole input, when
      no '*', '/', '+' or '-' follows. */
  lemma LiftPower(toks: seq<Token>, e: Expr, end: nat)
    requires end <= |toks|
    requires Power(toks, 0) == Ok((e, end))
    requires !IsOp(toks, end, "*") && !IsOp(toks, end, "/") && !IsOp(toks, end, "+") && !IsOp(toks, end, "-")
    ensures Parse(toks) == Ok(e)
  {
    assert FactorRest(toks, e, end) == Ok((e, end));
    assert Factor(toks, 0) == Ok((e, end));
    assert TermRest(toks, e, end) == Ok((e, end));
    assert Expression(toks, 0) == Ok((e, end));
  }

  /** `^` groups to the left: a^b^c is (a^b)^c, for any three numbers. */
  lemma PowerFoldsLeft(a: Token, b: Token, c: Token)
    requires a.Number? && b.Number? && c.Number?
    ensures Parse([a, Caret, b, Caret, c]) ==
            Ok(BinaryOp(Pow, BinaryOp(Pow, Number(a.value), Number(b.value)), Number(c.value)))
  {
    var toks := [a, Caret, b, Caret, c];
    var na, nb, nc := Number(a.value), Number(b.value), Number(c.value);
    assert Unary(toks, 0) == Ok((na, 1));
    assert Unary(toks, 2) == Ok((nb, 3));
    assert Unary(toks, 4) == Ok((nc, 5));
    var whole := BinaryOp(Pow, BinaryOp(Pow, na, nb), nc);
    assert PowerRest(toks, whole, 5) == Ok((whole, 5));
    assert PowerRest(toks, BinaryOp(Pow, na, nb), 3) == Ok((whole, 5));
    assert PowerRest(toks, na, 1) == Ok((whole, 5));
    LiftPower(toks, whole, 5);
  }

  /** A sign binds tighter than `^`: -a^b is (-a)^b, for any two numbers. */
  lemma SignBindsTighter(a: Token, b: Token)
    requires a.Number? && b.Number?
    ensures Parse([Dash, a, Caret, b]) ==
            Ok(BinaryOp(Pow, UnaryOp(Minus, Number(a.value)), Number(b.value)))
  {
    var toks := [Dash, a, Caret, b];
    var na, nb := Number(a.value), Number(b.value);
    assert Unary(toks, 1) == Ok((na, 2));
    assert Unary(toks, 0) == Ok((UnaryOp(Minus, na), 2));
    assert Unary(toks, 3) == Ok((nb, 4));
    var whole := BinaryOp(Pow, UnaryOp(Minus, na), nb);
    assert PowerRest(toks, whole, 4) == Ok((whole, 4));
    assert PowerRest(toks, UnaryOp(Minus, na), 2) == Ok((whole, 4));
    LiftPower(toks, whole, 4);
  }

  /** One digit, when no digit or '.' follows, is a NUMBER token by itself. */
  lemma Digit(pf: string -> real, d: char, rest: string)
    requires Lexer.IsDigit(d)
    requires rest == [] || !Lexer.IsNumberChar(rest[0])
    ensures Lexer.Tokenize(pf, [d] + rest) == Lexer.Prepend(Lexer.Number([d], pf([d])), Lexer.Tokenize(pf, rest))
  {
    var s := [d] + rest;
    Lexer.SpanOfPrefix([d], rest, Lexer.IsNumberChar);
    assert s[0] == d && s[..1] == [d] && s[1..] == rest;
    assert Lexer.Dots([d]) == 0;
  }

  /** "^2" lexes to ^ 2. */
  lemma LexCaretTwo(pf: string -> real)
    ensures Lexer.Tokenize(pf, "^2") == Ok([Caret, Lexer.Number("2", pf("2"))])
  {
    var two := Lexer.Number("2", pf("2"));
    Digit(pf, '2', "");
    assert "2" == ['2'] + "";
    assert [two] + [] == [two];
    assert Lexer.Tokenize(pf, "2") == Ok([two]);
    Lexer.SingleOperator(pf, '^', "2");
    assert "^2" == ['^'] + "2";
    assert [Caret] + [two] == [Caret, two];
  }

  /** The line "2^3^2" taken apart one character at a time. */
  lemma PowerSplits()
    ensures "2^3^2" == ['2'] + "^3^2" && "^3^2" == ['^'] + "3^2" && "3^2" == ['3'] + "^2"
  {
  }

  /** "2^3^2" lexes to 2 ^ 3 ^ 2. */
  lemma LexPowers(pf: string -> real)
    ensures Lexer.Tokenize(pf, "2^3^2") ==
            Ok([Lexer.Number("2", pf("2")), Caret, Lexer.Number("3", pf("3")), Caret, Lexer.Number("2", pf("2"))])
  {
    var two, three := Lexer.Number("2", pf("2")), Lexer.Number("3", pf("3"));
    LexCaretTwo(pf);
    PowerSplits();
    Digit(pf, '3', "^2");
    Lexer.SingleOperator(pf, '^', "3^2");
    Digit(pf, '2', "^3^2");
    PrependThreeOnTwo(two, Caret, three, Caret, two);
  }

  /** Three tokens put in front of two, one at a time. */
  lemma PrependThreeOnTwo(a: Token, b: Token, c: Token, d: Token, e: Token)
    ensures [a] + ([b] + ([c] + [d, e])) == [a, b, c, d, e]
  {
  }

  /** The text "2^3^2" reaches the parser as 2 ^ 3 ^ 2 and becomes (2^3)^2;
      the numbers are whatever `parseFloat` makes of "2" and "3". */
  lemma PowerFoldsLeftInText(prim: Numerics.Primitives)
    ensures Calculation.Tree(prim, "2^3^2") ==
            Ok(BinaryOp(Pow, BinaryOp(Pow, Number(prim.parseFloat("2")), Number(prim.parseFloat("3"))),
                        Number(prim.parseFloat("2"))))
  {
    var pf := prim.parseFloat;
    var two, three := Lexer.Number("2", pf("2")), Lexer.Number("3", pf("3"));
    LexPowers(pf);
    PowerFoldsLeft(two, three, two);
  }

  /** "-2^2" lexes to - 2 ^ 2. */
  lemma LexSignedPower(pf: string -> real)
    ensures Lexer.Tokenize(pf, "-2^2") == Ok([Dash, Lexer.Number("2", pf("2")), Caret, Lexer.Number("2", pf("2"))])
  {
    var two := Lexer.Number("2", pf("2"));
    LexCaretTwo(pf);
    Digit(pf, '2', "^2");
    assert "2^2" == ['2'] + "^2";
    assert [two] + [Caret, two] == [two, Caret, two];
    assert Lexer.Tokenize(pf, "2^2") == Ok([two, Caret, two]);
    Lexer.SingleOperator(pf, '-', "2^2");
    assert "-2^2" == ['-'] + "2^2";
    assert [Dash] + [two, Caret, two] == [Dash, two, Caret, two];
    assert Lexer.Tokenize(pf, "-2^2") == Ok([Dash, two, Caret, two]);
  }

  /** The text "-2^2" reaches the parser as - 2 ^ 2 and becomes (-2)^2. */
  lemma SignBindsTighterInText(prim: Numerics.Primitives)
    ensures Calculation.Tree(prim, "-2^2") ==
            Ok(BinaryOp(Pow, UnaryOp(Minus, Number(prim.parseFloat("2"))), Number(prim.parseFloat("2"))))
  {
    var two := Lexer.Number("2", prim.parseFloat("2"));
    LexSignedPower(prim.parseFloat);
    SignBindsTighter(two, two);
  }

  /** Tokens after the longest parsable prefix are dropped without an
      error: "2 3" and "2 == 3" are both 2. */
  lemma TrailingTokensIgnored()
    ensures Parse([Two, Three]) == Ok(Number(2.0))
    ensures Parse([Two, Lexer.Operator("=="), Three]) == Ok(Number(2.0))
  {
    var n2 := Number(2.0);
    assert Unary([Two, Three], 0) == Ok((n2, 1));
    assert PowerRest([Two, Three], n2, 1) == Ok((n2, 1));
    LiftPower([Two, Three], n2, 1);
    var toks := [Two, Lexer.Operator("=="), Three];
    assert Unary(toks, 0) == Ok((n2, 1));
    assert PowerRest(toks, n2, 1) == Ok((n2, 1));
    LiftPower(toks, n2, 1);
  }

  /** A name followed by "==" is a plain variable, not an assignment. */
  lemma DoubleEqualsIsNotAssignment()
    ensures Parse([Lexer.Identifier("x"), Lexer.Operator("=="), Three]) == Ok(Variable("x"))
  {
    var toks := [Lexer.Identifier("x"), Lexer.Operator("=="), Three];
    assert !IsOp(toks, 1, "=");
    assert Unary(toks, 0) == Ok((Variable("x"), 1));
    assert PowerRest(toks, Variable("x"), 1) == Ok((Variable("x"), 1));
    LiftPower(toks, Variable("x"), 1);
  }

  /** `if` is a keyword, so "if(1)" parses as a call, which the compiler
      then rejects. */
  lemma IfParsesThenFailsToCompile()
    ensures Parse([Lexer.Keyword("if"), Lexer.Paren(true), Lexer.Number("1", 1.0), Lexer.Paren(false)]) ==
            Ok(Function("if", Number(1.0)))
    ensures Bytecode.Compile(Function("if", Number(1.0))) == Err(UnknownFunction("if"))
  {
    var toks := [Lexer.Keyword("if"), Lexer.Paren(true), Lexer.Number("1", 1.0), Lexer.Paren(false)];
    var one := Number(1.0);
    assert Power(toks, 2) == Ok((one, 3));
    assert FactorRest(toks, one, 3) == Ok((one, 3));
    assert TermRest(toks, one, 3) == Ok((one, 3));
    assert Expression(toks, 2) == Ok((one, 3));
    assert Power(toks, 0) == Ok((Function("if", one), 4));
    LiftPower(toks, Function("if", one), 4);
  }

  /** A function keyword needs '(' right after it. */
  lemma FunctionNeedsParen()
    ensures Parse([Lexer.Keyword("sin"), Lexer.Number("1", 1.0)]) == Err(ExpectedOpenParen("sin"))
  {
    var toks := [Lexer.Keyword("sin"), Lexer.Number("1", 1.0)];
    assert Atom(toks, 0) == Err(ExpectedOpenParen("sin"));
  }

  /** Nothing to parse. */
  lemma EmptyInput()
    ensures Parse([]) == Err(UnexpectedEndOfInput)
  {
    assert Atom([], 0) == Err(UnexpectedEndOfInput);
  }

  lemma DoubleDotRejected(pf: string -> real)
    ensures Lexer.Tokenize(pf, "1..2") == Err(InvalidNumber("1..2"))
  {
    Lexer.SpanOfPrefix("1..2", [], Lexer.IsNumberChar);
    assert "1..2"[..4] == "1..2";
  }

  lemma NotEqualsRejected(pf: string -> real)
    ensures Lexer.Tokenize(pf, "a!=b") == Err(UnknownCharacter('!'))
  {
    Lexer.SpanOfPrefix("a", "!=b", Lexer.IsWordChar);
    assert "a!=b" == "a" + "!=b";
    assert "a!=b"[1..] == "!=b";
  }

  /** One letter other than `e`, when no letter or digit follows, is an
      IDENTIFIER token by itself. */
  lemma Letter(pf: string -> real, c: char, rest: string)
    requires Lexer.IsLetter(c) && c != 'e'
    requires rest == [] || !Lexer.IsWordChar(rest[0])
    ensures Lexer.Tokenize(pf, [c] + rest) == Lexer.Prepend(Lexer.Identifier([c]), Lexer.Tokenize(pf, rest))
  {
    var s := [c] + rest;
    Lexer.SpanOfPrefix([c], rest, Lexer.IsWordChar);
    assert s[0] == c && s[..1] == [c] && s[1..] == rest;
    assert [c] !in Lexer.Keywords;
  }

  const Equals := Lexer.Operator("=")
  const Plus := Lexer.Operator("+")

  /** The line "y=(x=3)+1" taken apart one character at a time. */
  lemma NestedSplits()
    ensures "y=(x=3)+1" == ['y'] + "=(x=3)+1" && "=(x=3)+1" == ['='] + "(x=3)+1"
    ensures "(x=3)+1" == ['('] + "x=3)+1" && "x=3)+1" == ['x'] + "=3)+1"
    ensures "=3)+1" == ['='] + "3)+1" && "3)+1" == ['3'] + ")+1"
    ensures ")+1" == [')'] + "+1" && "+1" == ['+'] + "1" && "1" == ['1'] + ""
  {
  }

  /** "3)+1" lexes to 3 ) + 1. */
  lemma LexNestedTail(pf: string -> real)
    ensures Lexer.Tokenize(pf, "3)+1") == Ok([Lexer.Number("3", pf("3")), RP, Plus, Lexer.Number("1", pf("1"))])
  {
    var one, three := Lexer.Number("1", pf("1")), Lexer.Number("3", pf("3"));
    NestedSplits();
    Digit(pf, '1', "");
    assert [one] + [] == [one];
    Lexer.SingleOperator(pf, '+', "1");
    assert [Plus] + [one] == [Plus, one];
    Lexer.ParenChar(pf, ')', "+1");
    assert [RP] + [Plus, one] == [RP, Plus, one];
    Digit(pf, '3', ")+1");
    assert [three] + [RP, Plus, one] == [three, RP, Plus, one];
  }

  /** Two tokens put in front of four, one at a time. */
  lemma PrependTwo(a: Token, b: Token, c: Token, d: Token, e: Token, f: Token)
    ensures [a] + ([b] + [c, d, e, f]) == [a, b, c, d, e, f]
  {
  }

  /** Three tokens put in front of six, one at a time. */
  lemma PrependThree(a: Token, b: Token, c: Token, d: Token, e: Token, f: Token, g: Token, h: Token, i: Token)
    ensures [a] + ([b] + ([c] + [d, e, f, g, h, i])) == [a, b, c, d, e, f, g, h, i]
  {
  }

  /** "x=3)+1" lexes to x = 3 ) + 1. */
  lemma LexNestedInner(pf: string -> real)
    ensures Lexer.Tokenize(pf, "x=3)+1") ==
            Ok([Lexer.Identifier("x"), Equals, Lexer.Number("3", pf("3")), RP, Plus, Lexer.Number("1", pf("1"))])
  {
    var three, one := Lexer.Number("3", pf("3")), Lexer.Number("1", pf("1"));
    LexNestedTail(pf);
    NestedSplits();
    Lexer.SingleOperator(pf, '=', "3)+1");
    Letter(pf, 'x', "=3)+1");
    PrependTwo(Lexer.Identifier("x"), Equals, three, RP, Plus, one);
  }

  /** "y=(x=3)+1" lexes to y = ( x = 3 ) + 1. */
  lemma LexNested(pf: string -> real)
    ensures Lexer.Tokenize(pf, "y=(x=3)+1") ==
            Ok([Lexer.Identifier("y"), Equals, LP, Lexer.Identifier("x"), Equals,
                Lexer.Number("3", pf("3")), RP, Plus, Lexer.Number("1", pf("1"))])
  {
    var x, three, one := Lexer.Identifier("x"), Lexer.Number("3", pf("3")), Lexer.Number("1", pf("1"));
    LexNestedInner(pf);
    NestedSplits();
    Lexer.ParenChar(pf, '(', "x=3)+1");
    Lexer.SingleOperator(pf, '=', "(x=3)+1");
    Letter(pf, 'y', "=(x=3)+1");
    PrependThree(Lexer.Identifier("y"), Equals, LP, x, Equals, three, RP, Plus, one);
  }

  /** y = ( x = a ) + b: the parenthesised assignment is the left operand of
      '+', and the whole sum is the value of y. */
  lemma ParseNested(a: real, b: real)
    ensures Parse([Lexer.Identifier("y"), Equals, LP, Lexer.Identifier("x"), Equals,
                   Lexer.Number("3", a), RP, Plus, Lexer.Number("1", b)]) ==
            Ok(Assignment("y", BinaryOp(Add, Assignment("x", Number(a)), Number(b))))
  {
    var toks := [Lexer.Identifier("y"), Equals, LP, Lexer.Identifier("x"), Equals,
                 Lexer.Number("3", a), RP, Plus, Lexer.Number("1", b)];
    var ax := Assignment("x", Number(a));
    var sum := BinaryOp(Add, ax, Number(b));
    ExpressionOfAtom(toks, 5, Number(a), 6);
    assert Atom(toks, 3) == Ok((ax, 6));
    ExpressionOfAtom(toks, 3, ax, 6);
    assert Atom(toks, 2) == Ok((ax, 7));
    PowerOfAtom(toks, 2, ax, 7);
    FactorOfPower(toks, 2, ax, 7);
    PowerOfAtom(toks, 8, Number(b), 9);
    FactorOfPower(toks, 8, Number(b), 9);
    TermRestStep(toks, ax, 7, Add, Number(b), 9);
    assert TermRest(toks, sum, 9) == Ok((sum, 9));
    assert Expression(toks, 2) == Ok((sum, 9));
    assert Atom(toks, 0) == Ok((Assignment("y", sum), 9));
    ExpressionOfAtom(toks, 0, Assignment("y", sum), 9);
  }

  /** y = (x = a) + b, on no variables, is a + b and sets x to a and y to
      a + b. */
  lemma NestedValue(prim: Numerics.Primitives, a: real, b: real)
    ensures Semantics.Eval(prim, Assignment("y", BinaryOp(Add, Assignment("x", Number(a)), Number(b))), map[]) ==
            Ok((a + b, map["x" := a, "y" := a + b]))
  {
    var empty: map<string, real> := map[];
    var xa := empty["x" := a];
    assert Semantics.Eval(prim, Number(a), empty) == Ok((a, empty));
    assert Semantics.Eval(prim, Assignment("x", Number(a)), empty) == Ok((a, xa));
    assert Semantics.Eval(prim, Number(b), xa) == Ok((b, xa));
    var sum := BinaryOp(Add, Assignment("x", Number(a)), Number(b));
    assert Semantics.Eval(prim, sum, empty) == Ok((a + b, xa));
    assert xa["y" := a + b] == map["x" := a, "y" := a + b];
  }

  /** The input line "y=(x=3)+1" reaches the parser as y = ( x = 3 ) + 1
      and becomes y = ((x = 3) + 1). */
  lemma NestedTree(prim: Numerics.Primitives)
    ensures Calculation.Tree(prim, "y=(x=3)+1") ==
            Ok(Assignment("y", BinaryOp(Add, Assignment("x", Number(prim.parseFloat("3"))), Number(prim.parseFloat("1")))))
  {
    LexNested(prim.parseFloat);
    ParseNested(prim.parseFloat("3"), prim.parseFloat("1"));
  }

  /** Any line read as y = ((x = a) + b) evaluates, on no variables, to
      a + b and sets x to a and y to a + b. */
  lemma EvaluateNested(prim: Numerics.Primitives, line: string, a: real, b: real)
    requires Calculation.Tree(prim, line) == Ok(Assignment("y", BinaryOp(Add, Assignment("x", Number(a)), Number(b))))
    ensures Calculation.Evaluate(prim, line, map[]) == Ok((a + b, map["x" := a, "y" := a + b]))
  {
    var tree := Assignment("y", BinaryOp(Add, Assignment("x", Number(a)), Number(b)));
    assert Ast.FunctionNames(Assignment("x", Number(a))) == {};
    assert Ast.FunctionNames(BinaryOp(Add, Assignment("x", Number(a)), Number(b))) == {};
    assert Ast.FunctionNames(tree) == {};
    Calculation.EvaluateMeansEval(prim, line, map[]);
    NestedValue(prim, a, b);
  }

  /** The input line "y=(x=3)+1": the assignment in parentheses is itself a
      value, the sum is what y gets, and both names are set. The numbers
      are whatever `parseFloat` makes of "3" and "1". */
  lemma NestedAssignment(prim: Numerics.Primitives)
    ensures Calculation.Evaluate(prim, "y=(x=3)+1", map[]) ==
            Ok((prim.parseFloat("3") + prim.parseFloat("1"),
                map["x" := prim.parseFloat("3"), "y" := prim.parseFloat("3") + prim.parseFloat("1")]))
  {
    NestedTree(prim);
    EvaluateNested(prim, "y=(x=3)+1", prim.parseFloat("3"), prim.parseFloat("1"));
  }

  /** The line "x=y=5" taken apart one character at a time. */
  lemma ChainedSplits()
    ensures "x=y=5" == ['x'] + "=y=5" && "=y=5" == ['='] + "y=5" && "y=5" == ['y'] + "=5"
    ensures "=5" == ['='] + "5" && "5" == ['5'] + ""
  {
  }

  /** Four tokens put in front of one, one at a time. */
  lemma PrependFour(a: Token, b: Token, c: Token, d: Token, e: Token)
    ensures [a] + ([b] + ([c] + ([d] + ([e] + [])))) == [a, b, c, d, e]
  {
  }

  /** "x=y=5" lexes to x = y = 5. */
  lemma LexChained(pf: string -> real)
    ensures Lexer.Tokenize(pf, "x=y=5") ==
            Ok([Lexer.Identifier("x"), Equals, Lexer.Identifier("y"), Equals, Lexer.Number("5", pf("5"))])
  {
    ChainedSplits();
    Digit(pf, '5', "");
    Lexer.SingleOperator(pf, '=', "5");
    Letter(pf, 'y', "=5");
    Lexer.SingleOperator(pf, '=', "y=5");
    Letter(pf, 'x', "=y=5");
    PrependFour(Lexer.Identifier("x"), Equals, Lexer.Identifier("y"), Equals, Lexer.Number("5", pf("5")));
  }

  /** x = y = a parses as x = (y = a). */
  lemma ParseChained(a: real)
    ensures Parse([Lexer.Identifier("x"), Equals, Lexer.Identifier("y"), Equals, Lexer.Number("5", a)]) ==
            Ok(Assignment("x", Assignment("y", Number(a))))
  {
    var toks := [Lexer.Identifier("x"), Equals, Lexer.Identifier("y"), Equals, Lexer.Number("5", a)];
    ExpressionOfAtom(toks, 4, Number(a), 5);
    assert Atom(toks, 2) == Ok((Assignment("y", Number(a)), 5));
    ExpressionOfAtom(toks, 2, Assignment("y", Number(a)), 5);
    assert Atom(toks, 0) == Ok((Assignment("x", Assignment("y", Number(a))), 5));
    ExpressionOfAtom(toks, 0, Assignment("x", Assignment("y", Number(a))), 5);
  }

  /** The input line "x=y=5" reaches the parser as x = y = 5 and becomes
      x = (y = 5). */
  lemma ChainedTree(prim: Numerics.Primitives)
    ensures Calculation.Tree(prim, "x=y=5") == Ok(Assignment("x", Assignment("y", Number(prim.parseFloat("5")))))
  {
    LexChained(prim.parseFloat);
    ParseChained(prim.parseFloat("5"));
  }

  /** Any line read as x = (y = a) evaluates, on any variables, to a and
      sets both x and y to a. */
  lemma EvaluateChained(prim: Numerics.Primitives, line: string, variables: map<string, real>, a: real)
    requires Calculation.Tree(prim, line) == Ok(Assignment("x", Assignment("y", Number(a))))
    ensures Calculation.Evaluate(prim, line, variables) == Ok((a, variables["y" := a]["x" := a]))
  {
    var inner := Assignment("y", Number(a));
    assert Ast.FunctionNames(inner) == {};
    assert Ast.FunctionNames(Assignment("x", inner)) == {};
    Calculation.EvaluateMeansEval(prim, line, variables);
    assert Semantics.Eval(prim, Number(a), variables) == Ok((a, variables));
    assert Semantics.Eval(prim, inner, variables) == Ok((a, variables["y" := a]));
  }

  /** The input line "x=y=5": both names get the number, on no variables. */
  lemma ChainedAssignmentInText(prim: Numerics.Primitives)
    ensures Calculation.Evaluate(prim, "x=y=5", map[]) ==
            Ok((prim.parseFloat("5"), map["x" := prim.parseFloat("5"), "y" := prim.parseFloat("5")]))
  {
    var a := prim.parseFloat("5");
    var empty: map<string, real> := map[];
    ChainedTree(prim);
    EvaluateChained(prim, "x=y=5", empty, a);
    assert empty["y" := a]["x" := a] == map["x" := a, "y" := a];
  }

  /** The tree of "x + (x=v)" with x = a: the left operand is read before
      the right one assigns, so the value is a + v and x ends as v. */
  lemma LeftOperandFirst(prim: Numerics.Primitives, a: real, v: real)
    ensures Semantics.Eval(prim, BinaryOp(Add, Variable("x"), Assignment("x", Number(v))), map["x" := a]) ==
            Ok((a + v, map["x" := v]))
  {
    var env := map["x" := a];
    assert Semantics.Eval(prim, Variable("x"), env) == Ok((a, env));
    assert Semantics.Eval(prim, Number(v), env) == Ok((v, env));
    assert env["x" := v] == map["x" := v];
    assert Semantics.Eval(prim, Assignment("x", Number(v)), env) == Ok((v, map["x" := v]));
  }

  /** The tree of "x = n/0" fails on any variables, so the calculator does
      not learn x. */
  lemma FailedAssignmentCommitsNothing(prim: Numerics.Primitives, n: real, variables: map<string, real>)
    ensures Semantics.Eval(prim, Assignment("x", BinaryOp(Div, Number(n), Number(0.0))), variables) == Err(DivisionByZero)
  {
    assert Semantics.Eval(prim, Number(n), variables) == Ok((n, variables));
    assert Semantics.Eval(prim, Number(0.0), variables) == Ok((0.0, variables));
    assert Semantics.Eval(prim, BinaryOp(Div, Number(n), Number(0.0)), variables) == Err(DivisionByZero);
  }
}
