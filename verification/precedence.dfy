/** Precedence between the levels of the parser: of two operators of
    different levels, the one of the higher level groups its operands first,
    whichever side it stands on; and a sign takes only the first operand of
    a '^' chain. The operands are any printed trees, and whatever follows
    is ignored as long as it does not continue a loop. */
module ParserPrecedence {
  import opened Errors
  import opened Ast
  import opened Parser
  import opened ParserProperties
  import opened ParserGrouping
  import Lexer

  /** `x op1 y op2 z` laid out in `toks`: each operand read by `atom` and
      not starting with an operator, ending at `q1`, `q2`, `q3`, and no
      loop continuing after the last. */
  predicate ThreeAt(toks: seq<Token>, x: Expr, op1: BinOp, y: Expr, op2: BinOp, z: Expr, q1: nat, q2: nat, q3: nat) {
    0 < q1 && q1 + 1 < q2 && q2 + 1 < q3 <= |toks| &&
    !toks[0].Operator? && Atom(toks, 0) == Ok((x, q1)) &&
    toks[q1] == Lexer.Operator(OpSymbol(op1)) &&
    !toks[q1 + 1].Operator? && Atom(toks, q1 + 1) == Ok((y, q2)) &&
    toks[q2] == Lexer.Operator(OpSymbol(op2)) &&
    !toks[q2 + 1].Operator? && Atom(toks, q2 + 1) == Ok((z, q3)) &&
    Stops(toks, q3)
  }

  lemma TwoLinks(op1: BinOp, y: Expr, op2: BinOp, z: Expr)
    ensures Links([(op1, y), (op2, z)]) ==
            [Lexer.Operator(OpSymbol(op1))] + Print(y) + [Lexer.Operator(OpSymbol(op2))] + Print(z)
  {
    var links := [(op1, y), (op2, z)];
    assert links[1..] == [(op2, z)];
    assert links[1..][1..] == [];
    assert Links([(op2, z)]) == [Lexer.Operator(OpSymbol(op2))] + Print(z);
  }

  lemma Flatten(a: seq<Token>, b: seq<Token>, c: seq<Token>, d: seq<Token>, e: seq<Token>, f: seq<Token>)
    ensures a + (b + c + d + e) + f == a + b + c + d + e + f
  {
  }

  /** The two links of `x op1 y op2 z`, read from the end of `x`. */
  lemma TwoLinksAt(toks: seq<Token>, q1: nat, op1: BinOp, y: Expr, op2: BinOp, z: Expr) returns (q2: nat, q3: nat)
    requires ChainAt(toks, q1, [(op1, y), (op2, z)])
    ensures q1 + 1 < q2 && q2 + 1 < q3 <= |toks|
    ensures toks[q1] == Lexer.Operator(OpSymbol(op1))
    ensures !toks[q1 + 1].Operator? && Atom(toks, q1 + 1) == Ok((y, q2))
    ensures toks[q2] == Lexer.Operator(OpSymbol(op2))
    ensures !toks[q2 + 1].Operator? && Atom(toks, q2 + 1) == Ok((z, q3))
    ensures Stops(toks, q3)
  {
    assert [(op1, y), (op2, z)][1..] == [(op2, z)];
    q2 := q1 + 1 + |Print(y)|;
    assert ChainAt(toks, q2, [(op2, z)]);
    assert [(op2, z)][1..] == [];
    q3 := q2 + 1 + |Print(z)|;
    assert ChainAt(toks, q3, []);
  }

  /** The printed tokens of `x op1 y op2 z` followed by `post`. */
  lemma ThreeOperands(x: Expr, op1: BinOp, y: Expr, op2: BinOp, z: Expr, post: seq<Token>)
    returns (toks: seq<Token>, q1: nat, q2: nat, q3: nat)
    requires Printable(x) && Printable(y) && Printable(z) && EndsChain(post)
    ensures toks == Print(x) + [Lexer.Operator(OpSymbol(op1))] + Print(y) + [Lexer.Operator(OpSymbol(op2))] + Print(z) + post
    ensures ThreeAt(toks, x, op1, y, op2, z, q1, q2, q3)
  {
    var links := [(op1, y), (op2, z)];
    toks, q1 := FirstOperand([], x, links, post);
    assert [] + Print(x) + Links(links) + post == Print(x) + Links(links) + post;
    q2, q3 := TwoLinksAt(toks, q1, op1, y, op2, z);
    assert toks == Print(x) + [Lexer.Operator(OpSymbol(op1))] + Print(y) + [Lexer.Operator(OpSymbol(op2))] + Print(z) + post by {
      TwoLinks(op1, y, op2, z);
      Flatten(Print(x), [Lexer.Operator(OpSymbol(op1))], Print(y), [Lexer.Operator(OpSymbol(op2))], Print(z), post);
    }
  }

  // ----- the higher level on the right --------------------------------------

  /** `x + y * z` is `x + (y * z)`. */
  lemma SumOfProduct(toks: seq<Token>, x: Expr, op1: BinOp, y: Expr, op2: BinOp, z: Expr, q1: nat, q2: nat, q3: nat)
    requires ThreeAt(toks, x, op1, y, op2, z, q1, q2, q3)
    requires (op1 == Add || op1 == Sub) && (op2 == Mul || op2 == Div)
    ensures Parse(toks) == Ok(BinaryOp(op1, x, BinaryOp(op2, y, z)))
  {
    PowerOfAtom(toks, 0, x, q1);
    FactorOfPower(toks, 0, x, q1);
    PowerOfAtom(toks, q1 + 1, y, q2);
    PowerOfAtom(toks, q2 + 1, z, q3);
    var inner := BinaryOp(op2, y, z);
    FactorRestStep(toks, y, q2, op2, z, q3);
    assert FactorRest(toks, inner, q3) == Ok((inner, q3));
    assert Factor(toks, q1 + 1) == Ok((inner, q3));
    TermRestStep(toks, x, q1, op1, inner, q3);
    var whole := BinaryOp(op1, x, inner);
    assert TermRest(toks, whole, q3) == Ok((whole, q3));
    assert Term(toks, 0) == Ok((whole, q3));
    assert Expression(toks, 0) == Ok((whole, q3));
  }

  /** `y ^ z` read from `q1 + 1`, ending at `q3` where nothing continues. */
  lemma PowerOfTwo(toks: seq<Token>, x: Expr, op1: BinOp, y: Expr, z: Expr, q1: nat, q2: nat, q3: nat)
    requires ThreeAt(toks, x, op1, y, Pow, z, q1, q2, q3)
    ensures Power(toks, q1 + 1) == Ok((BinaryOp(Pow, y, z), q3))
  {
    assert Unary(toks, q1 + 1) == Ok((y, q2));
    assert Unary(toks, q2 + 1) == Ok((z, q3));
    PowerRestStep(toks, y, q2, z, q3);
    assert PowerRest(toks, BinaryOp(Pow, y, z), q3) == Ok((BinaryOp(Pow, y, z), q3));
  }

  /** `x + y ^ z` is `x + (y ^ z)`. */
  lemma SumOfPower(toks: seq<Token>, x: Expr, op1: BinOp, y: Expr, z: Expr, q1: nat, q2: nat, q3: nat)
    requires ThreeAt(toks, x, op1, y, Pow, z, q1, q2, q3)
    requires op1 == Add || op1 == Sub
    ensures Parse(toks) == Ok(BinaryOp(op1, x, BinaryOp(Pow, y, z)))
  {
    PowerOfAtom(toks, 0, x, q1);
    FactorOfPower(toks, 0, x, q1);
    var inner := BinaryOp(Pow, y, z);
    PowerOfTwo(toks, x, op1, y, z, q1, q2, q3);
    FactorOfPower(toks, q1 + 1, inner, q3);
    TermRestStep(toks, x, q1, op1, inner, q3);
    var whole := BinaryOp(op1, x, inner);
    assert TermRest(toks, whole, q3) == Ok((whole, q3));
    assert Term(toks, 0) == Ok((whole, q3));
    assert Expression(toks, 0) == Ok((whole, q3));
  }

  /** `x * y ^ z` is `x * (y ^ z)`. */
  lemma ProductOfPower(toks: seq<Token>, x: Expr, op1: BinOp, y: Expr, z: Expr, q1: nat, q2: nat, q3: nat)
    requires ThreeAt(toks, x, op1, y, Pow, z, q1, q2, q3)
    requires op1 == Mul || op1 == Div
    ensures Parse(toks) == Ok(BinaryOp(op1, x, BinaryOp(Pow, y, z)))
  {
    PowerOfAtom(toks, 0, x, q1);
    var inner := BinaryOp(Pow, y, z);
    PowerOfTwo(toks, x, op1, y, z, q1, q2, q3);
    FactorRestStep(toks, x, q1, op1, inner, q3);
    var whole := BinaryOp(op1, x, inner);
    assert FactorRest(toks, whole, q3) == Ok((whole, q3));
    ExpressionOfFactor(toks, 0, whole, q3);
  }

  /** Of two operators, the one of the higher level on the right takes the
      middle operand: `x + y * z` is `x + (y * z)`, `x - y ^ z` is
      `x - (y ^ z)` and `x / y ^ z` is `x / (y ^ z)`. */
  lemma HigherRightGroupsFirst(x: Expr, op1: BinOp, y: Expr, op2: BinOp, z: Expr, post: seq<Token>)
    requires Printable(x) && Printable(y) && Printable(z) && EndsChain(post)
    requires Level(op1) < Level(op2)
    ensures Parse(Print(x) + [Lexer.Operator(OpSymbol(op1))] + Print(y) + [Lexer.Operator(OpSymbol(op2))] + Print(z) + post) ==
            Ok(BinaryOp(op1, x, BinaryOp(op2, y, z)))
  {
    var toks, q1, q2, q3 := ThreeOperands(x, op1, y, op2, z, post);
    if op2 == Pow {
      if op1 == Add || op1 == Sub {
        SumOfPower(toks, x, op1, y, z, q1, q2, q3);
      } else {
        ProductOfPower(toks, x, op1, y, z, q1, q2, q3);
      }
    } else {
      SumOfProduct(toks, x, op1, y, op2, z, q1, q2, q3);
    }
  }

  // ----- the higher level on the left ---------------------------------------

  /** `x ^ y` read from 0, ending at `q2` where `op2` stands. */
  lemma PowerFirst(toks: seq<Token>, x: Expr, y: Expr, op2: BinOp, z: Expr, q1: nat, q2: nat, q3: nat)
    requires ThreeAt(toks, x, Pow, y, op2, z, q1, q2, q3)
    requires op2 != Pow
    ensures Power(toks, 0) == Ok((BinaryOp(Pow, x, y), q2))
  {
    assert Unary(toks, 0) == Ok((x, q1));
    assert Unary(toks, q1 + 1) == Ok((y, q2));
    PowerRestStep(toks, x, q1, y, q2);
    assert PowerRest(toks, BinaryOp(Pow, x, y), q2) == Ok((BinaryOp(Pow, x, y), q2));
  }

  /** `x * y` read from 0, ending at `q2` where a '+' or '-' stands. */
  lemma ProductFirst(toks: seq<Token>, x: Expr, op1: BinOp, y: Expr, op2: BinOp, z: Expr, q1: nat, q2: nat, q3: nat)
    requires ThreeAt(toks, x, op1, y, op2, z, q1, q2, q3)
    requires (op1 == Mul || op1 == Div) && (op2 == Add || op2 == Sub)
    ensures Factor(toks, 0) == Ok((BinaryOp(op1, x, y), q2))
  {
    PowerOfAtom(toks, 0, x, q1);
    PowerOfAtom(toks, q1 + 1, y, q2);
    FactorRestStep(toks, x, q1, op1, y, q2);
    assert FactorRest(toks, BinaryOp(op1, x, y), q2) == Ok((BinaryOp(op1, x, y), q2));
  }

  /** A '+' or '-' after a finished first factor `left`. */
  lemma ThenSum(toks: seq<Token>, x: Expr, op1: BinOp, y: Expr, op2: BinOp, z: Expr, q1: nat, q2: nat, q3: nat, left: Expr)
    requires ThreeAt(toks, x, op1, y, op2, z, q1, q2, q3)
    requires op2 == Add || op2 == Sub
    requires Factor(toks, 0) == Ok((left, q2))
    ensures Parse(toks) == Ok(BinaryOp(op2, left, z))
  {
    PowerOfAtom(toks, q2 + 1, z, q3);
    FactorOfPower(toks, q2 + 1, z, q3);
    TermRestStep(toks, left, q2, op2, z, q3);
    var whole := BinaryOp(op2, left, z);
    assert TermRest(toks, whole, q3) == Ok((whole, q3));
    assert Term(toks, 0) == Ok((whole, q3));
    assert Expression(toks, 0) == Ok((whole, q3));
  }

  /** `x ^ y * z` is `(x ^ y) * z`. */
  lemma PowerThenProduct(toks: seq<Token>, x: Expr, y: Expr, op2: BinOp, z: Expr, q1: nat, q2: nat, q3: nat)
    requires ThreeAt(toks, x, Pow, y, op2, z, q1, q2, q3)
    requires op2 == Mul || op2 == Div
    ensures Parse(toks) == Ok(BinaryOp(op2, BinaryOp(Pow, x, y), z))
  {
    var left := BinaryOp(Pow, x, y);
    PowerFirst(toks, x, y, op2, z, q1, q2, q3);
    PowerOfAtom(toks, q2 + 1, z, q3);
    FactorRestStep(toks, left, q2, op2, z, q3);
    var whole := BinaryOp(op2, left, z);
    assert FactorRest(toks, whole, q3) == Ok((whole, q3));
    ExpressionOfFactor(toks, 0, whole, q3);
  }

  /** Of two operators, the one of the higher level on the left takes the
      middle operand: `x * y + z` is `(x * y) + z`, `x ^ y - z` is
      `(x ^ y) - z` and `x ^ y / z` is `(x ^ y) / z`. */
  lemma HigherLeftGroupsFirst(x: Expr, op1: BinOp, y: Expr, op2: BinOp, z: Expr, post: seq<Token>)
    requires Printable(x) && Printable(y) && Printable(z) && EndsChain(post)
    requires Level(op1) > Level(op2)
    ensures Parse(Print(x) + [Lexer.Operator(OpSymbol(op1))] + Print(y) + [Lexer.Operator(OpSymbol(op2))] + Print(z) + post) ==
            Ok(BinaryOp(op2, BinaryOp(op1, x, y), z))
  {
    var toks, q1, q2, q3 := ThreeOperands(x, op1, y, op2, z, post);
    if op1 == Pow {
      if op2 == Mul || op2 == Div {
        PowerThenProduct(toks, x, y, op2, z, q1, q2, q3);
      } else {
        PowerFirst(toks, x, y, op2, z, q1, q2, q3);
        FactorOfPower(toks, 0, BinaryOp(Pow, x, y), q2);
        ThenSum(toks, x, op1, y, op2, z, q1, q2, q3, BinaryOp(Pow, x, y));
      }
    } else {
      ProductFirst(toks, x, op1, y, op2, z, q1, q2, q3);
      ThenSum(toks, x, op1, y, op2, z, q1, q2, q3, BinaryOp(op1, x, y));
    }
  }

  // ----- signs ----------------------------------------------------------------

  /** A sign followed by a '^' chain, as tokens: the signed first operand
      ends at `q`, and the chain follows. */
  lemma SignedChain(op: UnOp, first: Expr, links: seq<(BinOp, Expr)>, post: seq<Token>)
    returns (toks: seq<Token>, q: nat)
    requires Printable(first) && Chain(links, 2) && EndsChain(post)
    ensures toks == [Lexer.Operator(SignSymbol(op))] + Print(first) + Links(links) + post
    ensures q == 1 + |Print(first)| && After(q, links) <= |toks|
    ensures Unary(toks, 0) == Ok((UnaryOp(op, first), q))
    ensures ChainAt(toks, q, links) && Stops(toks, After(q, links))
  {
    var sign := Lexer.Operator(SignSymbol(op));
    var rest := Links(links) + post;
    toks := OperandAt([sign], first, rest);
    assert |[sign]| == 1;
    q := 1 + |Print(first)|;
    assert toks == [sign] + Print(first) + Links(links) + post;
    assert Unary(toks, 1) == Ok((first, q));
    assert IsOp(toks, 0, SignSymbol(op)) by { assert toks[0] == sign; }
    ChainOperands(links, 2);
    PrintedChainAt(toks, [sign] + Print(first), links, post);
    AfterLinks(q, links);
    var end := After(q, links);
    if end < |toks| {
      assert toks[end] == post[0];
    }
  }

  /** A sign binds tighter than '^' and takes only the first operand of
      the chain: `-x ^ y ^ z` is `((-x) ^ y) ^ z`. */
  lemma SignTakesFirstPowerOperand(op: UnOp, first: Expr, links: seq<(BinOp, Expr)>, post: seq<Token>)
    requires Printable(first) && Chain(links, 2) && EndsChain(post)
    ensures Parse([Lexer.Operator(SignSymbol(op))] + Print(first) + Links(links) + post) ==
            Ok(FoldLeft(UnaryOp(op, first), links))
  {
    var toks, q := SignedChain(op, first, links, post);
    var end := After(q, links);
    var whole := FoldLeft(UnaryOp(op, first), links);
    PowerChain(toks, q, UnaryOp(op, first), links);
    assert Power(toks, 0) == Ok((whole, end));
    FactorOfPower(toks, 0, whole, end);
    ExpressionOfFactor(toks, 0, whole, end);
  }
}
