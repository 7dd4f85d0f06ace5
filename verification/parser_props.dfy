/** What the parser promises, proved against two independent descriptions:
    a printer that writes every tree back as fully parenthesised tokens
    (the parser reads it back, and ignores whatever follows), and a left
    fold that says how a chain of same-level operators groups. */
module ParserProperties {
  import opened Errors
  import opened Ast
  import opened Parser
  import Lexer

  const LP: Token := Lexer.Paren(true)
  const RP: Token := Lexer.Paren(false)

  function OpSymbol(op: BinOp): string {
    match op
    case Add => "+"
    case Sub => "-"
    case Mul => "*"
    case Div => "/"
    case Pow => "^"
  }

  function SignSymbol(op: UnOp): string {
    match op
    case Plus => "+"
    case Minus => "-"
  }

  /** A token that would make one of the loops of `term`, `factor` or
      `power` continue. */
  predicate Continues(t: Token) {
    t.Operator? && t.symbol in {"+", "-", "*", "/", "^"}
  }

  /** No loop continues at `pos`. */
  predicate Stops(toks: seq<Token>, pos: nat) {
    pos >= |toks| || !Continues(toks[pos])
  }

  /** Fully parenthesised tokens for `e`. The parser never reads the text
      of a NUMBER token, so the printer leaves it empty. */
  function Print(e: Expr): seq<Token> {
    match e
    case Number(v) => [Lexer.Number("", v)]
    case Variable(x) => [LP, Lexer.Identifier(x), RP]
    case Constant(c) => [Lexer.Keyword(if c == Pi then "pi" else "e")]
    case UnaryOp(op, x) => [LP, Lexer.Operator(SignSymbol(op))] + Print(x) + [RP]
    case BinaryOp(op, l, r) => [LP] + Print(l) + [Lexer.Operator(OpSymbol(op))] + Print(r) + [RP]
    case Assignment(x, v) => [LP, Lexer.Identifier(x), Lexer.Operator("=")] + Print(v) + [RP]
    case Function(f, a) => [Lexer.Keyword(f), LP] + Print(a) + [RP]
  }

  /** A Function node named `pi` or `e` has no token form: those keywords
      always parse as constants. */
  predicate Printable(e: Expr) {
    "pi" !in FunctionNames(e) && "e" !in FunctionNames(e)
  }

  // ----- lifting an atom through the precedence levels ---------------------

  lemma PowerOfUnary(toks: seq<Token>, pos: nat, e: Expr, q: nat)
    requires pos <= |toks|
    requires Unary(toks, pos) == Ok((e, q))
    requires !IsOp(toks, q, "^")
    ensures Power(toks, pos) == Ok((e, q))
  {
    assert PowerRest(toks, e, q) == Ok((e, q));
  }

  lemma PowerOfAtom(toks: seq<Token>, pos: nat, e: Expr, q: nat)
    requires pos <= |toks|
    requires Atom(toks, pos) == Ok((e, q))
    requires !IsOp(toks, pos, "+") && !IsOp(toks, pos, "-")
    requires !IsOp(toks, q, "^")
    ensures Power(toks, pos) == Ok((e, q))
  {
    assert Unary(toks, pos) == Ok((e, q));
    PowerOfUnary(toks, pos, e, q);
  }

  lemma FactorOfPower(toks: seq<Token>, pos: nat, e: Expr, q: nat)
    requires pos <= |toks|
    requires Power(toks, pos) == Ok((e, q))
    requires !IsOp(toks, q, "*") && !IsOp(toks, q, "/")
    ensures Factor(toks, pos) == Ok((e, q))
  {
    assert FactorRest(toks, e, q) == Ok((e, q));
  }

  lemma ExpressionOfFactor(toks: seq<Token>, pos: nat, e: Expr, q: nat)
    requires pos <= |toks|
    requires Factor(toks, pos) == Ok((e, q))
    requires !IsOp(toks, q, "+") && !IsOp(toks, q, "-")
    ensures Expression(toks, pos) == Ok((e, q))
  {
    assert TermRest(toks, e, q) == Ok((e, q));
  }

  lemma ExpressionOfUnary(toks: seq<Token>, pos: nat, e: Expr, q: nat)
    requires pos <= |toks|
    requires Unary(toks, pos) == Ok((e, q))
    requires Stops(toks, q)
    ensures Expression(toks, pos) == Ok((e, q))
  {
    PowerOfUnary(toks, pos, e, q);
    FactorOfPower(toks, pos, e, q);
    ExpressionOfFactor(toks, pos, e, q);
  }

  lemma ExpressionOfAtom(toks: seq<Token>, pos: nat, e: Expr, q: nat)
    requires pos <= |toks|
    requires Atom(toks, pos) == Ok((e, q))
    requires !IsOp(toks, pos, "+") && !IsOp(toks, pos, "-")
    requires Stops(toks, q)
    ensures Expression(toks, pos) == Ok((e, q))
  {
    assert Unary(toks, pos) == Ok((e, q));
    ExpressionOfUnary(toks, pos, e, q);
  }

  // ----- the printer round trip --------------------------------------------

  lemma PrintStartsWithOperand(e: Expr)
    ensures !Print(e)[0].Operator?
  {
  }

  /** `atom` reads a printed tree back, whatever follows it. */
  lemma {:induction false} AtomReadsPrint(e: Expr, pre: seq<Token>, post: seq<Token>)
    requires Printable(e)
    ensures Atom(pre + Print(e) + post, |pre|) == Ok((e, |pre| + |Print(e)|))
    decreases e, 2
  {
    var toks := pre + Print(e) + post;
    var p := |pre|;
    match e
    case Number(v) =>
      assert toks[p] == Lexer.Number("", v);
    case Constant(c) =>
      assert toks[p] == Print(e)[0];
    case Variable(x) =>
      assert toks[p] == LP && toks[p + 1] == Lexer.Identifier(x) && toks[p + 2] == RP;
      AtomReadsVariable(toks, p, x);
    case UnaryOp(op, x) => PrintedSigned(op, x, pre, post);
    case Assignment(x, v) => PrintedAssignment(x, v, pre, post);
    case Function(f, a) => PrintedFunction(f, a, pre, post);
    case BinaryOp(op, l, r) => PrintedBinary(op, l, r, pre, post);
  }

  lemma {:induction false} PrintedSigned(op: UnOp, x: Expr, pre: seq<Token>, post: seq<Token>)
    requires Printable(UnaryOp(op, x))
    ensures Atom(pre + Print(UnaryOp(op, x)) + post, |pre|) == Ok((UnaryOp(op, x), |pre| + |Print(UnaryOp(op, x))|))
    decreases UnaryOp(op, x), 1
  {
    var sign := Lexer.Operator(SignSymbol(op));
    var toks := pre + Print(UnaryOp(op, x)) + post;
    var open := [LP, sign];
    var pre1 := pre + open;
    assert toks == pre1 + Print(x) + ([RP] + post) by {
      assert Print(UnaryOp(op, x)) == open + Print(x) + [RP];
      Regroup(pre, open, Print(x), [RP], post);
    }
    var q := Inner(x, pre, pre1, [RP] + post, toks);
    assert toks[|pre|] == LP && toks[|pre| + 1] == sign by {
      assert pre1[|pre|] == LP && pre1[|pre| + 1] == sign;
    }
    assert q + 1 == |pre| + |Print(UnaryOp(op, x))|;
    AtomReadsSigned(toks, |pre|, op, x, q);
  }

  lemma {:induction false} PrintedAssignment(x: string, v: Expr, pre: seq<Token>, post: seq<Token>)
    requires Printable(Assignment(x, v))
    ensures Atom(pre + Print(Assignment(x, v)) + post, |pre|) == Ok((Assignment(x, v), |pre| + |Print(Assignment(x, v))|))
    decreases Assignment(x, v), 1
  {
    var toks := pre + Print(Assignment(x, v)) + post;
    var open := [LP, Lexer.Identifier(x), Lexer.Operator("=")];
    var pre1 := pre + open;
    assert toks == pre1 + Print(v) + ([RP] + post) by {
      assert Print(Assignment(x, v)) == open + Print(v) + [RP];
      Regroup(pre, open, Print(v), [RP], post);
    }
    var q := Inner(v, pre, pre1, [RP] + post, toks);
    var p := |pre|;
    assert toks[p] == LP && toks[p + 1] == Lexer.Identifier(x) && toks[p + 2] == Lexer.Operator("=") by {
      assert pre1[p] == LP && pre1[p + 1] == Lexer.Identifier(x) && pre1[p + 2] == Lexer.Operator("=");
    }
    assert q + 1 == p + |Print(Assignment(x, v))|;
    AtomReadsAssignment(toks, p, x, v, q);
  }

  lemma {:induction false} PrintedFunction(f: string, a: Expr, pre: seq<Token>, post: seq<Token>)
    requires Printable(Function(f, a))
    ensures Atom(pre + Print(Function(f, a)) + post, |pre|) == Ok((Function(f, a), |pre| + |Print(Function(f, a))|))
    decreases Function(f, a), 1
  {
    var toks := pre + Print(Function(f, a)) + post;
    var open := [Lexer.Keyword(f), LP];
    var pre1 := pre + open;
    assert toks == pre1 + Print(a) + ([RP] + post) by {
      assert Print(Function(f, a)) == open + Print(a) + [RP];
      Regroup(pre, open, Print(a), [RP], post);
    }
    assert Printable(a);
    var q := Inner(a, pre, pre1, [RP] + post, toks);
    assert toks[|pre|] == Lexer.Keyword(f) && toks[|pre| + 1] == LP by {
      assert pre1[|pre|] == Lexer.Keyword(f) && pre1[|pre| + 1] == LP;
    }
    assert q + 1 == |pre| + |Print(Function(f, a))|;
    AtomReadsFunction(toks, |pre|, f, a, q);
  }

  lemma {:induction false} PrintedBinary(op: BinOp, l: Expr, r: Expr, pre: seq<Token>, post: seq<Token>)
    requires Printable(BinaryOp(op, l, r))
    ensures Atom(pre + Print(BinaryOp(op, l, r)) + post, |pre|) == Ok((BinaryOp(op, l, r), |pre| + |Print(BinaryOp(op, l, r))|))
    decreases BinaryOp(op, l, r), 1
  {
    var toks, pre1, post1, pre2 := BinaryTokens(op, l, r, pre, post);
    var q1 := Inner(l, pre, pre1, post1, toks);
    var q2 := Inner(r, pre, pre2, [RP] + post, toks);
    AtomReadsBinary(toks, |pre|, op, l, r, q1, q2);
  }

  /** Where the parts of a printed binary node sit among other tokens. */
  lemma BinaryTokens(op: BinOp, l: Expr, r: Expr, pre: seq<Token>, post: seq<Token>)
    returns (toks: seq<Token>, pre1: seq<Token>, post1: seq<Token>, pre2: seq<Token>)
    ensures toks == pre + Print(BinaryOp(op, l, r)) + post
    ensures toks == pre1 + Print(l) + post1 && toks == pre2 + Print(r) + ([RP] + post)
    ensures |pre1| == |pre| + 1 && |pre2| == |pre1| + |Print(l)| + 1
    ensures |pre2| + |Print(r)| + 1 == |pre| + |Print(BinaryOp(op, l, r))|
    ensures post1 != [] && post1[0] == Lexer.Operator(OpSymbol(op)) && toks[|pre|] == LP
  {
    var sym := Lexer.Operator(OpSymbol(op));
    toks := pre + Print(BinaryOp(op, l, r)) + post;
    pre1 := pre + [LP];
    post1 := [sym] + Print(r) + [RP] + post;
    pre2 := pre + [LP] + Print(l) + [sym];
    assert Print(BinaryOp(op, l, r)) == [LP] + Print(l) + [sym] + Print(r) + [RP];
    BinaryShape(pre, [LP], Print(l), [sym], Print(r), [RP], post);
    assert toks[|pre|] == pre1[|pre|];
  }

  /** Tokens around one printed operand, regrouped. */
  lemma Regroup(a: seq<Token>, b: seq<Token>, c: seq<Token>, d: seq<Token>, e: seq<Token>)
    ensures (a + b) + c + (d + e) == a + (b + c + d) + e
  {
  }

  /** The two ways the tokens of a printed binary node split around its
      operands. */
  lemma BinaryShape(pre: seq<Token>, a: seq<Token>, l: seq<Token>, s: seq<Token>, r: seq<Token>, b: seq<Token>, post: seq<Token>)
    ensures pre + (a + l + s + r + b) + post == (pre + a) + l + (s + r + b + post)
    ensures pre + (a + l + s + r + b) + post == (pre + a + l + s) + r + (b + post)
  {
  }

  /** A printed subtree placed at `|inner|` inside `toks`: `atom` reads it
      (by the induction hypothesis) and the token after it is `post[0]`. */
  lemma {:induction false} Inner(x: Expr, pre: seq<Token>, inner: seq<Token>, post: seq<Token>, toks: seq<Token>)
    returns (q: nat)
    requires Printable(x)
    requires toks == inner + Print(x) + post
    requires |pre| < |inner|
    requires post != []
    ensures q == |inner| + |Print(x)| < |toks|
    ensures Atom(toks, |inner|) == Ok((x, q))
    ensures toks[q] == post[0]
    ensures !toks[|inner|].Operator?
    decreases x, 3
  {
    AtomReadsPrint(x, inner, post);
    q := |inner| + |Print(x)|;
    PrintStartsWithOperand(x);
    assert toks[|inner|] == Print(x)[0];
  }

  lemma AtomReadsVariable(toks: seq<Token>, p: nat, x: string)
    requires p + 3 <= |toks|
    requires toks[p] == LP && toks[p + 1] == Lexer.Identifier(x) && toks[p + 2] == RP
    ensures Atom(toks, p) == Ok((Variable(x), p + 3))
  {
    assert Atom(toks, p + 1) == Ok((Variable(x), p + 2));
    ExpressionOfAtom(toks, p + 1, Variable(x), p + 2);
  }

  lemma AtomReadsSigned(toks: seq<Token>, p: nat, op: UnOp, x: Expr, q: nat)
    requires p + 2 < q < |toks|
    requires toks[p] == LP && toks[p + 1] == Lexer.Operator(SignSymbol(op))
    requires Atom(toks, p + 2) == Ok((x, q)) && !toks[p + 2].Operator?
    requires toks[q] == RP
    ensures Atom(toks, p) == Ok((UnaryOp(op, x), q + 1))
  {
    assert Unary(toks, p + 2) == Ok((x, q));
    assert Unary(toks, p + 1) == Ok((UnaryOp(op, x), q));
    ExpressionOfUnary(toks, p + 1, UnaryOp(op, x), q);
  }

  lemma AtomReadsAssignment(toks: seq<Token>, p: nat, x: string, v: Expr, q: nat)
    requires p + 3 < q < |toks|
    requires toks[p] == LP && toks[p + 1] == Lexer.Identifier(x) && toks[p + 2] == Lexer.Operator("=")
    requires Atom(toks, p + 3) == Ok((v, q)) && !toks[p + 3].Operator?
    requires toks[q] == RP
    ensures Atom(toks, p) == Ok((Assignment(x, v), q + 1))
  {
    ExpressionOfAtom(toks, p + 3, v, q);
    assert Atom(toks, p + 1) == Ok((Assignment(x, v), q));
    ExpressionOfAtom(toks, p + 1, Assignment(x, v), q);
  }

  lemma AtomReadsFunction(toks: seq<Token>, p: nat, f: string, a: Expr, q: nat)
    requires f != "pi" && f != "e"
    requires p + 2 < q < |toks|
    requires toks[p] == Lexer.Keyword(f) && toks[p + 1] == LP
    requires Atom(toks, p + 2) == Ok((a, q)) && !toks[p + 2].Operator?
    requires toks[q] == RP
    ensures Atom(toks, p) == Ok((Function(f, a), q + 1))
  {
    ExpressionOfAtom(toks, p + 2, a, q);
  }

  lemma AtomReadsBinary(toks: seq<Token>, p: nat, op: BinOp, l: Expr, r: Expr, q1: nat, q2: nat)
    requires p + 1 < q1 < q2 < |toks|
    requires toks[p] == LP
    requires Atom(toks, p + 1) == Ok((l, q1)) && !toks[p + 1].Operator?
    requires toks[q1] == Lexer.Operator(OpSymbol(op))
    requires Atom(toks, q1 + 1) == Ok((r, q2)) && !toks[q1 + 1].Operator?
    requires toks[q2] == RP
    ensures Atom(toks, p) == Ok((BinaryOp(op, l, r), q2 + 1))
  {
    BinaryReadsOperands(toks, p + 1, op, l, r, q1, q2);
  }

  /** `left op right` between positions `pos` and `q2`, with both operands
      read by `atom`, is read by `expression` as one BinaryOp node. */
  lemma BinaryReadsOperands(toks: seq<Token>, pos: nat, op: BinOp, l: Expr, r: Expr, q1: nat, q2: nat)
    requires pos <= q1 < q2 <= |toks|
    requires Atom(toks, pos) == Ok((l, q1))
    requires Atom(toks, q1 + 1) == Ok((r, q2))
    requires !IsOp(toks, pos, "+") && !IsOp(toks, pos, "-")
    requires !IsOp(toks, q1 + 1, "+") && !IsOp(toks, q1 + 1, "-")
    requires toks[q1] == Lexer.Operator(OpSymbol(op))
    requires Stops(toks, q2)
    ensures Expression(toks, pos) == Ok((BinaryOp(op, l, r), q2))
  {
    if op == Pow {
      PowerReadsOperands(toks, pos, op, l, r, q1, q2);
    } else if op == Mul || op == Div {
      FactorReadsOperands(toks, pos, op, l, r, q1, q2);
    } else {
      TermReadsOperands(toks, pos, op, l, r, q1, q2);
    }
  }

  lemma PowerReadsOperands(toks: seq<Token>, pos: nat, op: BinOp, l: Expr, r: Expr, q1: nat, q2: nat)
    requires op == Pow
    requires pos <= q1 < q2 <= |toks|
    requires Atom(toks, pos) == Ok((l, q1))
    requires Atom(toks, q1 + 1) == Ok((r, q2))
    requires !IsOp(toks, pos, "+") && !IsOp(toks, pos, "-")
    requires !IsOp(toks, q1 + 1, "+") && !IsOp(toks, q1 + 1, "-")
    requires toks[q1] == Lexer.Operator(OpSymbol(op))
    requires Stops(toks, q2)
    ensures Expression(toks, pos) == Ok((BinaryOp(op, l, r), q2))
  {
    var b := BinaryOp(op, l, r);
    assert Unary(toks, pos) == Ok((l, q1));
    assert Unary(toks, q1 + 1) == Ok((r, q2));
    assert PowerRest(toks, b, q2) == Ok((b, q2));
    assert PowerRest(toks, l, q1) == Ok((b, q2));
    assert Power(toks, pos) == Ok((b, q2));
    FactorOfPower(toks, pos, b, q2);
    ExpressionOfFactor(toks, pos, b, q2);
  }

  lemma FactorReadsOperands(toks: seq<Token>, pos: nat, op: BinOp, l: Expr, r: Expr, q1: nat, q2: nat)
    requires op == Mul || op == Div
    requires pos <= q1 < q2 <= |toks|
    requires Atom(toks, pos) == Ok((l, q1))
    requires Atom(toks, q1 + 1) == Ok((r, q2))
    requires !IsOp(toks, pos, "+") && !IsOp(toks, pos, "-")
    requires !IsOp(toks, q1 + 1, "+") && !IsOp(toks, q1 + 1, "-")
    requires toks[q1] == Lexer.Operator(OpSymbol(op))
    requires Stops(toks, q2)
    ensures Expression(toks, pos) == Ok((BinaryOp(op, l, r), q2))
  {
    var b := BinaryOp(op, l, r);
    PowerOfAtom(toks, pos, l, q1);
    PowerOfAtom(toks, q1 + 1, r, q2);
    assert FactorRest(toks, b, q2) == Ok((b, q2));
    assert FactorRest(toks, l, q1) == Ok((b, q2));
    ExpressionOfFactor(toks, pos, b, q2);
  }

  lemma TermReadsOperands(toks: seq<Token>, pos: nat, op: BinOp, l: Expr, r: Expr, q1: nat, q2: nat)
    requires op == Add || op == Sub
    requires pos <= q1 < q2 <= |toks|
    requires Atom(toks, pos) == Ok((l, q1))
    requires Atom(toks, q1 + 1) == Ok((r, q2))
    requires !IsOp(toks, pos, "+") && !IsOp(toks, pos, "-")
    requires !IsOp(toks, q1 + 1, "+") && !IsOp(toks, q1 + 1, "-")
    requires toks[q1] == Lexer.Operator(OpSymbol(op))
    requires Stops(toks, q2)
    ensures Expression(toks, pos) == Ok((BinaryOp(op, l, r), q2))
  {
    var b := BinaryOp(op, l, r);
    PowerOfAtom(toks, pos, l, q1);
    FactorOfPower(toks, pos, l, q1);
    PowerOfAtom(toks, q1 + 1, r, q2);
    FactorOfPower(toks, q1 + 1, r, q2);
    assert TermRest(toks, b, q2) == Ok((b, q2));
    assert TermRest(toks, l, q1) == Ok((b, q2));
  }

  /** Every printable tree is read back from its printed tokens, and the
      parser stops right after them: whatever tokens follow (short of one
      that continues a loop) are silently ignored. */
  lemma ParsePrintIgnoresRest(e: Expr, rest: seq<Token>)
    requires Printable(e)
    requires rest == [] || !Continues(rest[0])
    ensures Parse(Print(e) + rest) == Ok(e)
  {
    AtomReadsPrint(e, [], rest);
    var toks := [] + Print(e) + rest;
    assert toks == Print(e) + rest;
    PrintStartsWithOperand(e);
    assert Stops(toks, |Print(e)|) by {
      if |Print(e)| < |toks| {
        assert toks[|Print(e)|] == rest[0];
      }
    }
    ExpressionOfAtom(toks, 0, e, |Print(e)|);
  }

  lemma ParseReadsPrint(e: Expr)
    requires Printable(e)
    ensures Parse(Print(e)) == Ok(e)
  {
    ParsePrintIgnoresRest(e, []);
    assert Print(e) + [] == Print(e);
  }
}

/** Grouping of operator chains: every loop of the parser folds to the left. */
module ParserGrouping {
  import opened Errors
  import opened Ast
  import opened Parser
  import opened ParserProperties
  import Lexer

  /** Binding strength: '+' '-' < '*' '/' < '^'. */
  function Level(op: BinOp): nat {
    match op
    case Add => 0
    case Sub => 0
    case Mul => 1
    case Div => 1
    case Pow => 2
  }

  /** The tokens `op1 x1 op2 x2 ...` that follow the first operand of a chain. */
  function Links(links: seq<(BinOp, Expr)>): seq<Token> {
    if links == [] then []
    else [Lexer.Operator(OpSymbol(links[0].0))] + Print(links[0].1) + Links(links[1..])
  }

  /** The tree a left-to-right loop builds: each link becomes the right
      operand of a node whose left operand is everything before it. */
  function FoldLeft(acc: Expr, links: seq<(BinOp, Expr)>): Expr
    decreases |links|
  {
    if links == [] then acc else FoldLeft(BinaryOp(links[0].0, acc, links[0].1), links[1..])
  }

  /** All links use operators of one level, and every operand prints. */
  predicate Chain(links: seq<(BinOp, Expr)>, level: nat) {
    forall i :: 0 <= i < |links| ==> Level(links[i].0) == level && Printable(links[i].1)
  }

  /** Every operand of the links prints. */
  predicate Operands(links: seq<(BinOp, Expr)>) {
    forall i :: 0 <= i < |links| ==> Printable(links[i].1)
  }

  lemma ChainOperands(links: seq<(BinOp, Expr)>, level: nat)
    requires Chain(links, level)
    ensures Operands(links)
  {
  }

  predicate EndsChain(post: seq<Token>) {
    post == [] || !Continues(post[0])
  }

  /** The position just after the links, read from `pos`. */
  function After(pos: nat, links: seq<(BinOp, Expr)>): nat
    decreases |links|
  {
    if links == [] then pos else After(pos + 1 + |Print(links[0].1)|, links[1..])
  }

  /** `toks` holds the links from `pos` on — each an operator token and an
      operand that `atom` reads — and no loop continues after the last. */
  predicate ChainAt(toks: seq<Token>, pos: nat, links: seq<(BinOp, Expr)>)
    decreases |links|
  {
    if links == [] then pos <= |toks| && Stops(toks, pos)
    else
      var q := pos + 1 + |Print(links[0].1)|;
      pos + 1 < |toks| && q <= |toks| &&
      toks[pos] == Lexer.Operator(OpSymbol(links[0].0)) && !toks[pos + 1].Operator? &&
      Atom(toks, pos + 1) == Ok((links[0].1, q)) && ChainAt(toks, q, links[1..])
  }

  /** A printed operand inside other tokens: `atom` reads it, and it does
      not start with an operator. */
  lemma OperandAt(pre: seq<Token>, x: Expr, post: seq<Token>) returns (toks: seq<Token>)
    requires Printable(x)
    ensures toks == pre + Print(x) + post
    ensures |pre| + |Print(x)| <= |toks|
    ensures Atom(toks, |pre|) == Ok((x, |pre| + |Print(x)|))
    ensures !toks[|pre|].Operator?
  {
    toks := pre + Print(x) + post;
    AtomReadsPrint(x, pre, post);
    PrintStartsWithOperand(x);
    assert toks[|pre|] == Print(x)[0];
  }

  /** The first link of printed links. */
  lemma AfterOperand(pre: seq<Token>, links: seq<(BinOp, Expr)>, post: seq<Token>) returns (toks: seq<Token>, q: nat)
    requires links != [] && Printable(links[0].1)
    ensures toks == pre + Links(links) + post
    ensures q == |pre| + 1 + |Print(links[0].1)| <= |toks|
    ensures toks[|pre|] == Lexer.Operator(OpSymbol(links[0].0))
    ensures Atom(toks, |pre| + 1) == Ok((links[0].1, q))
    ensures !toks[|pre| + 1].Operator?
  {
    var sym := Lexer.Operator(OpSymbol(links[0].0));
    var x := links[0].1;
    toks := OperandAt(pre + [sym], x, Links(links[1..]) + post);
    assert |pre + [sym]| == |pre| + 1;
    q := |pre| + 1 + |Print(x)|;
    Regroup(pre, [sym], Print(x), Links(links[1..]), post);
    assert Links(links) == [sym] + Print(x) + Links(links[1..]);
  }

  /** The tokens of a chain, cut after its first link. */
  lemma LinkShape(pre: seq<Token>, links: seq<(BinOp, Expr)>, post: seq<Token>) returns (pre': seq<Token>)
    requires links != []
    ensures pre' == pre + [Lexer.Operator(OpSymbol(links[0].0))] + Print(links[0].1)
    ensures pre + Links(links) + post == pre' + Links(links[1..]) + post
    ensures |pre| + |Links(links)| == |pre'| + |Links(links[1..])|
  {
    pre' := pre + [Lexer.Operator(OpSymbol(links[0].0))] + Print(links[0].1);
    assert Links(links) == [Lexer.Operator(OpSymbol(links[0].0))] + Print(links[0].1) + Links(links[1..]);
  }

  /** The links end after their printed tokens. */
  lemma {:induction false} AfterLinks(pos: nat, links: seq<(BinOp, Expr)>)
    ensures After(pos, links) == pos + |Links(links)|
    decreases |links|
  {
    if links != [] {
      var x := links[0].1;
      assert |Links(links)| == 1 + |Print(x)| + |Links(links[1..])|;
      AfterLinks(pos + 1 + |Print(x)|, links[1..]);
    }
  }

  /** Printed links followed by tokens that end a chain are a chain the
      parser can read, ending after the last printed token. */
  lemma {:induction false} PrintedChainAt(toks: seq<Token>, pre: seq<Token>, links: seq<(BinOp, Expr)>, post: seq<Token>)
    requires Operands(links) && EndsChain(post)
    requires toks == pre + Links(links) + post
    ensures ChainAt(toks, |pre|, links)
    decreases |links|
  {
    if links == [] {
      assert toks == pre + post;
      if |pre| < |toks| {
        assert toks[|pre|] == post[0];
      }
    } else {
      var toks', q := AfterOperand(pre, links, post);
      var pre' := LinkShape(pre, links, post);
      assert |pre'| == q;
      assert Operands(links[1..]);
      PrintedChainAt(toks, pre', links[1..], post);
    }
  }

  /** Where a chain of one level goes on, no loop of another level does. */
  lemma NextAt(toks: seq<Token>, pos: nat, links: seq<(BinOp, Expr)>, level: nat)
    requires Chain(links, level) && ChainAt(toks, pos, links)
    ensures level != 2 ==> !IsOp(toks, pos, "^")
    ensures level != 1 ==> !IsOp(toks, pos, "*") && !IsOp(toks, pos, "/")
    ensures level != 0 ==> !IsOp(toks, pos, "+") && !IsOp(toks, pos, "-")
  {
    if links != [] {
      assert Level(links[0].0) == level;
    }
  }

  /** One turn of each loop: an operator of its level, then an operand. */
  lemma PowerRestStep(toks: seq<Token>, acc: Expr, pos: nat, x: Expr, q: nat)
    requires pos < |toks| && IsOp(toks, pos, "^") && Unary(toks, pos + 1) == Ok((x, q))
    ensures PowerRest(toks, acc, pos) == PowerRest(toks, BinaryOp(Pow, acc, x), q)
  {
  }

  lemma FactorRestStep(toks: seq<Token>, acc: Expr, pos: nat, op: BinOp, x: Expr, q: nat)
    requires op == Mul || op == Div
    requires pos < |toks| && IsOp(toks, pos, OpSymbol(op)) && Power(toks, pos + 1) == Ok((x, q))
    ensures FactorRest(toks, acc, pos) == FactorRest(toks, BinaryOp(op, acc, x), q)
  {
  }

  lemma TermRestStep(toks: seq<Token>, acc: Expr, pos: nat, op: BinOp, x: Expr, q: nat)
    requires op == Add || op == Sub
    requires pos < |toks| && IsOp(toks, pos, OpSymbol(op)) && Factor(toks, pos + 1) == Ok((x, q))
    ensures TermRest(toks, acc, pos) == TermRest(toks, BinaryOp(op, acc, x), q)
  {
  }

  /** The loop of each level reads its chain into the left fold. */
  lemma {:induction false} PowerChain(toks: seq<Token>, pos: nat, acc: Expr, links: seq<(BinOp, Expr)>)
    requires Chain(links, 2) && ChainAt(toks, pos, links)
    ensures PowerRest(toks, acc, pos) == Ok((FoldLeft(acc, links), After(pos, links)))
    decreases |links|
  {
    if links != [] {
      var x := links[0].1;
      var q := pos + 1 + |Print(x)|;
      assert links[0].0 == Pow by { assert Level(links[0].0) == 2; }
      assert Chain(links[1..], 2);
      NextAt(toks, q, links[1..], 2);
      assert Unary(toks, pos + 1) == Ok((x, q));
      PowerRestStep(toks, acc, pos, x, q);
      PowerChain(toks, q, BinaryOp(Pow, acc, x), links[1..]);
    }
  }

  lemma {:induction false} FactorChain(toks: seq<Token>, pos: nat, acc: Expr, links: seq<(BinOp, Expr)>)
    requires Chain(links, 1) && ChainAt(toks, pos, links)
    ensures FactorRest(toks, acc, pos) == Ok((FoldLeft(acc, links), After(pos, links)))
    decreases |links|
  {
    if links != [] {
      var x := links[0].1;
      var op := links[0].0;
      var q := pos + 1 + |Print(x)|;
      assert op == Mul || op == Div by { assert Level(op) == 1; }
      assert Chain(links[1..], 1);
      NextAt(toks, q, links[1..], 1);
      PowerOfAtom(toks, pos + 1, x, q);
      FactorRestStep(toks, acc, pos, op, x, q);
      FactorChain(toks, q, BinaryOp(op, acc, x), links[1..]);
    }
  }

  lemma {:induction false} TermChain(toks: seq<Token>, pos: nat, acc: Expr, links: seq<(BinOp, Expr)>)
    requires Chain(links, 0) && ChainAt(toks, pos, links)
    ensures TermRest(toks, acc, pos) == Ok((FoldLeft(acc, links), After(pos, links)))
    decreases |links|
  {
    if links != [] {
      var x := links[0].1;
      var op := links[0].0;
      var q := pos + 1 + |Print(x)|;
      assert op == Add || op == Sub by { assert Level(op) == 0; }
      assert Chain(links[1..], 0);
      NextAt(toks, q, links[1..], 0);
      PowerOfAtom(toks, pos + 1, x, q);
      FactorOfPower(toks, pos + 1, x, q);
      TermRestStep(toks, acc, pos, op, x, q);
      TermChain(toks, q, BinaryOp(op, acc, x), links[1..]);
    }
  }

  /** Where the first operand of a chain ends, what `atom` reads there, and
      the chain that follows it, after any tokens `pre`. */
  lemma FirstOperand(pre: seq<Token>, first: Expr, links: seq<(BinOp, Expr)>, post: seq<Token>)
    returns (toks: seq<Token>, q: nat)
    requires Printable(first) && Operands(links) && EndsChain(post)
    ensures toks == pre + Print(first) + Links(links) + post
    ensures q == |pre| + |Print(first)| && After(q, links) == q + |Links(links)| <= |toks|
    ensures Atom(toks, |pre|) == Ok((first, q)) && !toks[|pre|].Operator?
    ensures ChainAt(toks, q, links) && Stops(toks, After(q, links))
    ensures OperandThenChain(toks, |pre|, first, q, links)
  {
    var rest := Links(links) + post;
    toks := OperandAt(pre, first, rest);
    assert toks == pre + Print(first) + Links(links) + post;
    q := |pre| + |Print(first)|;
    PrintedChainAt(toks, pre + Print(first), links, post);
    AfterLinks(q, links);
    var end := After(q, links);
    if end < |toks| {
      assert toks[end] == post[0];
    }
  }

  /** An operand that `atom` reads from `p` to `q`, not starting with an
      operator, followed by links that end where no loop continues. */
  predicate OperandThenChain(toks: seq<Token>, p: nat, first: Expr, q: nat, links: seq<(BinOp, Expr)>) {
    p < |toks| && Atom(toks, p) == Ok((first, q)) && !toks[p].Operator? && ChainAt(toks, q, links)
  }

  /** Each level's `expression` reads a chain of its operators into the
      left fold, ending after the last operand. */
  lemma PowerChainFrom(toks: seq<Token>, p: nat, first: Expr, q: nat, links: seq<(BinOp, Expr)>)
    requires OperandThenChain(toks, p, first, q, links) && Chain(links, 2)
    ensures Expression(toks, p) == Ok((FoldLeft(first, links), After(q, links)))
  {
    var end := After(q, links);
    PowerChain(toks, q, first, links);
    assert Unary(toks, p) == Ok((first, q));
    assert Power(toks, p) == Ok((FoldLeft(first, links), end));
    ChainEnds(toks, q, links);
    FactorOfPower(toks, p, FoldLeft(first, links), end);
    ExpressionOfFactor(toks, p, FoldLeft(first, links), end);
  }

  lemma FactorChainFrom(toks: seq<Token>, p: nat, first: Expr, q: nat, links: seq<(BinOp, Expr)>)
    requires OperandThenChain(toks, p, first, q, links) && Chain(links, 1)
    ensures Expression(toks, p) == Ok((FoldLeft(first, links), After(q, links)))
  {
    var end := After(q, links);
    FactorChain(toks, q, first, links);
    NextAt(toks, q, links, 1);
    PowerOfAtom(toks, p, first, q);
    assert Factor(toks, p) == Ok((FoldLeft(first, links), end));
    ChainEnds(toks, q, links);
    ExpressionOfFactor(toks, p, FoldLeft(first, links), end);
  }

  lemma TermChainFrom(toks: seq<Token>, p: nat, first: Expr, q: nat, links: seq<(BinOp, Expr)>)
    requires OperandThenChain(toks, p, first, q, links) && Chain(links, 0)
    ensures Expression(toks, p) == Ok((FoldLeft(first, links), After(q, links)))
  {
    var end := After(q, links);
    TermChain(toks, q, first, links);
    NextAt(toks, q, links, 0);
    PowerOfAtom(toks, p, first, q);
    FactorOfPower(toks, p, first, q);
    assert Term(toks, p) == Ok((FoldLeft(first, links), end));
  }

  /** No loop continues where a chain ends. */
  lemma {:induction false} ChainEnds(toks: seq<Token>, pos: nat, links: seq<(BinOp, Expr)>)
    requires ChainAt(toks, pos, links)
    ensures After(pos, links) <= |toks| && Stops(toks, After(pos, links))
    decreases |links|
  {
    if links != [] {
      ChainEnds(toks, pos + 1 + |Print(links[0].1)|, links[1..]);
    }
  }

  /** `expression` reads a chain of operators of one level into the left
      fold. */
  lemma ChainFrom(toks: seq<Token>, p: nat, first: Expr, q: nat, links: seq<(BinOp, Expr)>, level: nat)
    requires OperandThenChain(toks, p, first, q, links) && Chain(links, level)
    ensures Expression(toks, p) == Ok((FoldLeft(first, links), After(q, links)))
  {
    if links == [] {
      ExpressionOfAtom(toks, p, first, q);
    } else {
      assert Level(links[0].0) == level;
      if level == 2 {
        PowerChainFrom(toks, p, first, q, links);
      } else if level == 1 {
        FactorChainFrom(toks, p, first, q, links);
      } else {
        TermChainFrom(toks, p, first, q, links);
      }
    }
  }

  /** `expression`, started after any tokens `pre`, reads a printed chain of
      operators of one level to its end, as the left fold. */
  lemma ChainReads(toks: seq<Token>, pre: seq<Token>, first: Expr, links: seq<(BinOp, Expr)>, level: nat, post: seq<Token>)
    requires Printable(first) && Chain(links, level) && EndsChain(post)
    requires toks == pre + Print(first) + Links(links) + post
    ensures Expression(toks, |pre|) == Ok((FoldLeft(first, links), |pre| + |Print(first)| + |Links(links)|))
  {
    ChainOperands(links, level);
    var t, q := FirstOperand(pre, first, links, post);
    ChainFrom(t, |pre|, first, q, links, level);
  }

  /** A chain of operators of one level, `x0 op1 x1 op2 x2 ...`, parses as
      `((x0 op1 x1) op2 x2) ...`: '-', '/' and also '^' group to the left. */
  lemma ChainsFoldLeft(first: Expr, links: seq<(BinOp, Expr)>, level: nat, post: seq<Token>)
    requires Printable(first) && Chain(links, level) && EndsChain(post)
    ensures Parse(Print(first) + Links(links) + post) == Ok(FoldLeft(first, links))
  {
    var toks := Print(first) + Links(links) + post;
    assert toks == [] + Print(first) + Links(links) + post;
    ChainReads(toks, [], first, links, level, post);
  }
}
