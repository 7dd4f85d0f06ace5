/** How the parser fails. Each loop of `term`, `factor` and `power` leaves
    only where no operator of its level follows, so an operator with
    nothing after it is an error rather than the end of the loop; a
    function argument or a group that is not closed by ')' is an error;
    and a function keyword other than `pi` and `e` needs '(' right after
    it. */
module ParserErrors {
  import opened Errors
  import opened Ast
  import opened Parser
  import opened ParserProperties
  import opened ParserGrouping
  import Lexer

  /** The `+`/`-` loop stops only before a token that is neither `+` nor
      `-`. */
  lemma {:induction false} TermRestStops(toks: seq<Token>, left: Expr, pos: nat)
    requires pos <= |toks|
    ensures TermRest(toks, left, pos).Ok? ==>
              !IsOp(toks, TermRest(toks, left, pos).value.1, "+") && !IsOp(toks, TermRest(toks, left, pos).value.1, "-")
    decreases |toks| - pos
  {
    if IsOp(toks, pos, "+") || IsOp(toks, pos, "-") {
      var op := if IsOp(toks, pos, "+") then Add else Sub;
      if Factor(toks, pos + 1).Ok? {
        var rp := Factor(toks, pos + 1).value;
        TermRestStops(toks, BinaryOp(op, left, rp.0), rp.1);
      }
    }
  }

  /** The `*`/`/` loop stops only before a token that is neither `*` nor
      `/`. */
  lemma {:induction false} FactorRestStops(toks: seq<Token>, left: Expr, pos: nat)
    requires pos <= |toks|
    ensures FactorRest(toks, left, pos).Ok? ==>
              !IsOp(toks, FactorRest(toks, left, pos).value.1, "*") && !IsOp(toks, FactorRest(toks, left, pos).value.1, "/")
    decreases |toks| - pos
  {
    if IsOp(toks, pos, "*") || IsOp(toks, pos, "/") {
      var op := if IsOp(toks, pos, "*") then Mul else Div;
      if Power(toks, pos + 1).Ok? {
        var rp := Power(toks, pos + 1).value;
        FactorRestStops(toks, BinaryOp(op, left, rp.0), rp.1);
      }
    }
  }

  /** The `^` loop stops only before a token that is not `^`. */
  lemma {:induction false} PowerRestStops(toks: seq<Token>, left: Expr, pos: nat)
    requires pos <= |toks|
    ensures PowerRest(toks, left, pos).Ok? ==> !IsOp(toks, PowerRest(toks, left, pos).value.1, "^")
    decreases |toks| - pos
  {
    if IsOp(toks, pos, "^") && Unary(toks, pos + 1).Ok? {
      var rp := Unary(toks, pos + 1).value;
      PowerRestStops(toks, BinaryOp(Pow, left, rp.0), rp.1);
    }
  }

  /** A function call or a group that `atom` reads ends on its ')'. */
  lemma AtomClosesParen(toks: seq<Token>, pos: nat)
    requires pos < |toks|
    requires toks[pos].Paren? || (toks[pos].Keyword? && toks[pos].word != "pi" && toks[pos].word != "e")
    ensures Atom(toks, pos).Ok? ==> IsParen(toks, Atom(toks, pos).value.1 - 1, false)
  {
  }

  /** An atom that fails at the first token fails the whole parse with the
      same error. */
  lemma AtomErrorIsParseError(toks: seq<Token>)
    requires !IsOp(toks, 0, "+") && !IsOp(toks, 0, "-")
    requires Atom(toks, 0).Err?
    ensures Parse(toks) == Err(Atom(toks, 0).error)
  {
    assert Unary(toks, 0) == Atom(toks, 0);
    assert Power(toks, 0) == Atom(toks, 0);
    assert Factor(toks, 0) == Atom(toks, 0);
    assert Expression(toks, 0) == Atom(toks, 0);
  }

  /** A function keyword other than `pi` and `e` that is not followed by
      '(' is refused, whatever follows it. */
  lemma MissingOpenParen(f: string, rest: seq<Token>)
    requires f != "pi" && f != "e"
    requires rest == [] || rest[0] != LP
    ensures Parse([Lexer.Keyword(f)] + rest) == Err(ExpectedOpenParen(f))
  {
    var toks := [Lexer.Keyword(f)] + rest;
    assert toks[0] == Lexer.Keyword(f);
    assert !IsParen(toks, 1, true) by {
      if 1 < |toks| {
        assert toks[1] == rest[0];
      }
    }
    AtomErrorIsParseError(toks);
  }

  /** The argument of `f ( c` is read whole; when no ')' follows it, the
      call is refused. */
  lemma FunctionWithoutClose(f: string, first: Expr, links: seq<(BinOp, Expr)>, level: nat, post: seq<Token>)
    requires f != "pi" && f != "e"
    requires Printable(first) && Chain(links, level) && EndsChain(post)
    requires post == [] || post[0] != RP
    ensures Parse([Lexer.Keyword(f), LP] + Print(first) + Links(links) + post) == Err(ExpectedCloseParenAfterArgument)
  {
    var pre := [Lexer.Keyword(f), LP];
    var toks := pre + Print(first) + Links(links) + post;
    var end := 2 + |Print(first)| + |Links(links)|;
    ChainReads(toks, pre, first, links, level, post);
    assert Expression(toks, 2) == Ok((FoldLeft(first, links), end));
    assert toks[0] == Lexer.Keyword(f) && toks[1] == LP;
    assert !IsParen(toks, end, false) by {
      if end < |toks| {
        assert toks[end] == post[0];
      }
    }
    assert Atom(toks, 0) == Err(ExpectedCloseParenAfterArgument);
    AtomErrorIsParseError(toks);
  }

  /** The contents of `( c` are read whole; when no ')' follows them, the
      group is refused. */
  lemma GroupWithoutClose(first: Expr, links: seq<(BinOp, Expr)>, level: nat, post: seq<Token>)
    requires Printable(first) && Chain(links, level) && EndsChain(post)
    requires post == [] || post[0] != RP
    ensures Parse([LP] + Print(first) + Links(links) + post) == Err(ExpectedCloseParen)
  {
    var pre := [LP];
    var toks := pre + Print(first) + Links(links) + post;
    var end := 1 + |Print(first)| + |Links(links)|;
    ChainReads(toks, pre, first, links, level, post);
    assert Expression(toks, 1) == Ok((FoldLeft(first, links), end));
    assert toks[0] == LP;
    assert !IsParen(toks, end, false) by {
      if end < |toks| {
        assert toks[end] == post[0];
      }
    }
    assert Atom(toks, 0) == Err(ExpectedCloseParen);
    AtomErrorIsParseError(toks);
  }

  /** An operand read by `atom` and then one loop operator as the last
      token: the operator finds no operand. */
  lemma DanglingAfter(toks: seq<Token>, e: Expr, q: nat)
    requires 0 < q && q + 1 == |toks| && Continues(toks[q])
    requires Atom(toks, 0) == Ok((e, q)) && !toks[0].Operator?
    ensures Parse(toks) == Err(UnexpectedEndOfInput)
  {
    var end: Result<(Expr, nat)> := Err(UnexpectedEndOfInput);
    assert Unary(toks, q + 1) == end;
    assert Power(toks, q + 1) == end;
    assert Factor(toks, q + 1) == end;
    assert Unary(toks, 0) == Ok((e, q));
    if IsOp(toks, q, "^") {
      assert PowerRest(toks, e, q) == end;
      assert Power(toks, 0) == end;
    } else {
      PowerOfAtom(toks, 0, e, q);
      if IsOp(toks, q, "*") || IsOp(toks, q, "/") {
        assert FactorRest(toks, e, q) == end;
      } else {
        FactorOfPower(toks, 0, e, q);
        assert TermRest(toks, e, q) == end;
      }
    }
    assert Factor(toks, 0) == end || Factor(toks, 0) == Ok((e, q));
    assert Term(toks, 0) == end;
  }

  /** A binary operator with nothing after it, as in `1 +`, is an
      unexpected end of input, whichever of the five it is. */
  lemma DanglingOperator(e: Expr, op: BinOp)
    requires Printable(e)
    ensures Parse(Print(e) + [Lexer.Operator(OpSymbol(op))]) == Err(UnexpectedEndOfInput)
  {
    var toks := OperandAt([], e, [Lexer.Operator(OpSymbol(op))]);
    assert toks == Print(e) + [Lexer.Operator(OpSymbol(op))];
    var q := |Print(e)|;
    assert toks[q] == Lexer.Operator(OpSymbol(op));
    DanglingAfter(toks, e, q);
  }
}
