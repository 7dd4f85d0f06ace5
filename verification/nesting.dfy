/** What `atom` reads after `name =`, after `f (` and after `(`: a whole
    `expression`, not a single operand. So `x = 1 + 2` assigns the sum, and
    `sin(1 + 2)` takes the sum as its argument. The value is any printed
    chain of operators of one level, and it is read as the left fold. */
module ParserNesting {
  import opened Errors
  import opened Ast
  import opened Parser
  import opened ParserProperties
  import opened ParserGrouping
  import Lexer

  /** The tokens after a value that ends the input or is followed by tokens
      that end a chain: no loop goes on at `end`. */
  lemma StopsAt(toks: seq<Token>, front: seq<Token>, post: seq<Token>, end: nat)
    requires toks == front + post && end == |front| && EndsChain(post)
    ensures Stops(toks, end)
  {
    if end < |toks| {
      assert toks[end] == post[0];
    }
  }

  /** `x = c`, for a chain `c` of one level, is an assignment of the whole
      chain to `x`, whatever ends the input. */
  lemma AssignmentTakesChain(x: string, first: Expr, links: seq<(BinOp, Expr)>, level: nat, post: seq<Token>)
    requires Printable(first) && Chain(links, level) && EndsChain(post)
    ensures Parse([Lexer.Identifier(x), Lexer.Operator("=")] + Print(first) + Links(links) + post) ==
            Ok(Assignment(x, FoldLeft(first, links)))
  {
    var pre := [Lexer.Identifier(x), Lexer.Operator("=")];
    var toks := pre + Print(first) + Links(links) + post;
    var v := FoldLeft(first, links);
    var end := 2 + |Print(first)| + |Links(links)|;
    ChainReads(toks, pre, first, links, level, post);
    assert Expression(toks, 2) == Ok((v, end));
    assert toks[0] == Lexer.Identifier(x) && toks[1] == Lexer.Operator("=");
    assert Atom(toks, 0) == Ok((Assignment(x, v), end));
    StopsAt(toks, pre + Print(first) + Links(links), post, end);
    ExpressionOfAtom(toks, 0, Assignment(x, v), end);
  }

  /** `x = y = c`, with no parentheses, nests to the right: `y` gets the
      whole chain and `x` gets the assignment to `y`. */
  lemma ChainedAssignment(x: string, y: string, first: Expr, links: seq<(BinOp, Expr)>, level: nat, post: seq<Token>)
    requires Printable(first) && Chain(links, level) && EndsChain(post)
    ensures Parse([Lexer.Identifier(x), Lexer.Operator("="), Lexer.Identifier(y), Lexer.Operator("=")] +
                  Print(first) + Links(links) + post) ==
            Ok(Assignment(x, Assignment(y, FoldLeft(first, links))))
  {
    var pre := [Lexer.Identifier(x), Lexer.Operator("="), Lexer.Identifier(y), Lexer.Operator("=")];
    var toks := pre + Print(first) + Links(links) + post;
    var v := FoldLeft(first, links);
    var end := 4 + |Print(first)| + |Links(links)|;
    ChainReads(toks, pre, first, links, level, post);
    assert Expression(toks, 4) == Ok((v, end));
    assert toks[2] == Lexer.Identifier(y) && toks[3] == Lexer.Operator("=");
    assert Atom(toks, 2) == Ok((Assignment(y, v), end));
    StopsAt(toks, pre + Print(first) + Links(links), post, end);
    ExpressionOfAtom(toks, 2, Assignment(y, v), end);
    assert toks[0] == Lexer.Identifier(x) && toks[1] == Lexer.Operator("=");
    assert Atom(toks, 0) == Ok((Assignment(x, Assignment(y, v)), end));
    ExpressionOfAtom(toks, 0, Assignment(x, Assignment(y, v)), end);
  }

  /** `f ( c )`, for a chain `c` of one level, is a call of `f` on the whole
      chain. */
  lemma FunctionTakesChain(f: string, first: Expr, links: seq<(BinOp, Expr)>, level: nat, post: seq<Token>)
    requires f != "pi" && f != "e"
    requires Printable(first) && Chain(links, level) && EndsChain(post)
    ensures Parse([Lexer.Keyword(f), LP] + Print(first) + Links(links) + [RP] + post) ==
            Ok(Function(f, FoldLeft(first, links)))
  {
    var pre := [Lexer.Keyword(f), LP];
    var toks := pre + Print(first) + Links(links) + [RP] + post;
    var v := FoldLeft(first, links);
    var end := 2 + |Print(first)| + |Links(links)|;
    assert toks == pre + Print(first) + Links(links) + ([RP] + post);
    ChainReads(toks, pre, first, links, level, [RP] + post);
    assert Expression(toks, 2) == Ok((v, end));
    assert toks[0] == Lexer.Keyword(f) && toks[1] == LP && toks[end] == RP;
    assert Atom(toks, 0) == Ok((Function(f, v), end + 1));
    StopsAt(toks, pre + Print(first) + Links(links) + [RP], post, end + 1);
    ExpressionOfAtom(toks, 0, Function(f, v), end + 1);
  }

  /** `( c )`, for a chain `c` of one level, is the chain itself. */
  lemma GroupTakesChain(first: Expr, links: seq<(BinOp, Expr)>, level: nat, post: seq<Token>)
    requires Printable(first) && Chain(links, level) && EndsChain(post)
    ensures Parse([LP] + Print(first) + Links(links) + [RP] + post) == Ok(FoldLeft(first, links))
  {
    var pre := [LP];
    var toks := pre + Print(first) + Links(links) + [RP] + post;
    var v := FoldLeft(first, links);
    var end := 1 + |Print(first)| + |Links(links)|;
    assert toks == pre + Print(first) + Links(links) + ([RP] + post);
    ChainReads(toks, pre, first, links, level, [RP] + post);
    assert Expression(toks, 1) == Ok((v, end));
    assert toks[0] == LP && toks[end] == RP;
    assert Atom(toks, 0) == Ok((v, end + 1));
    StopsAt(toks, pre + Print(first) + Links(links) + [RP], post, end + 1);
    ExpressionOfAtom(toks, 0, v, end + 1);
  }
}
