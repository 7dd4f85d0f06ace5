/** Compiler correctness: running the code compiled from a tree, on any
    stack, pushes exactly the value the direct evaluation gives and leaves
    the same variables — so the machine never underflows on compiled code
    and the final "stack size must be 1" check never fires. */
module CompilerCorrectness {
  import opened Errors
  import opened Ast
  import opened Bytecode
  import opened Machine
  import opened Semantics
  import Numerics

  /** The machine state after pushing the evaluated value onto `stack`. */
  function Pushed(res: Result<(real, map<string, real>)>, stack: seq<real>): Result<State> {
    match res
    case Ok(ve) => Ok(State(stack + [ve.0], ve.1))
    case Err(k) => Err(k)
  }

  /** Running two pieces of code one after the other. */
  lemma {:induction false} RunAppend(prim: Numerics.Primitives, a: seq<Instr>, b: seq<Instr>, st: State)
    ensures Run(prim, a + b, st) ==
            (match Run(prim, a, st) case Ok(mid) => Run(prim, b, mid) case Err(k) => Err(k))
    decreases |a|
  {
    if a != [] {
      assert (a + b)[0] == a[0];
      assert (a + b)[1..] == a[1..] + b;
      match Exec(prim, a[0], st)
      case Ok(next) => RunAppend(prim, a[1..], b, next);
      case Err(_) =>
    } else {
      assert a + b == b;
    }
  }

  lemma RunOne(prim: Numerics.Primitives, i: Instr, st: State)
    ensures Run(prim, [i], st) == Exec(prim, i, st)
  {
    assert [i][1..] == [];
  }

  /** `code` followed by one instruction. */
  lemma RunThen(prim: Numerics.Primitives, code: seq<Instr>, i: Instr, st: State)
    ensures Run(prim, code + [i], st) ==
            (match Run(prim, code, st) case Ok(mid) => Exec(prim, i, mid) case Err(k) => Err(k))
  {
    RunAppend(prim, code, [i], st);
    if Run(prim, code, st).Ok? {
      RunOne(prim, i, Run(prim, code, st).value);
    }
  }

  /** An instruction whose operands sit on top of `below` leaves `below`
      untouched and the value it produces on top. */
  lemma ExecOnTop(prim: Numerics.Primitives, i: Instr, below: seq<real>, args: seq<real>, symbols: map<string, real>)
    requires |args| == Arity(i)
    ensures Exec(prim, i, State(below + args, symbols)) ==
            (match Produced(prim, i, State(below + args, symbols))
             case Ok(v) => Ok(State(below + [v], if i.Store? then Declare(symbols, i.name, v) else symbols))
             case Err(k) => Err(k))
  {
    assert (below + args)[..|below|] == below;
    if i.Store? {
      assert below + args == below + [args[0]];
    }
  }

  /** The headline theorem. */
  lemma {:induction false} CompileCorrect(prim: Numerics.Primitives, e: Expr, st: State)
    requires Compile(e).Ok?
    ensures Run(prim, Compile(e).value, st) == Pushed(Eval(prim, e, st.symbols), st.stack)
    decreases e, 1
  {
    match e
    case Number(v) =>
      RunOne(prim, Push(v), st);
      ExecOnTop(prim, Push(v), st.stack, [], st.symbols);
      assert st.stack + [] == st.stack;
    case Variable(x) =>
      RunOne(prim, Load(x), st);
      ExecOnTop(prim, Load(x), st.stack, [], st.symbols);
      assert st.stack + [] == st.stack;
    case Constant(c) =>
      var i := Compile(e).value[0];
      RunOne(prim, i, st);
      ExecOnTop(prim, i, st.stack, [], st.symbols);
      assert st.stack + [] == st.stack;
    case UnaryOp(op, x) => UnaryCorrect(prim, op, x, st);
    case Assignment(x, v) => AssignmentCorrect(prim, x, v, st);
    case Function(f, a) => FunctionCorrect(prim, f, a, st);
    case BinaryOp(op, l, r) => BinaryCorrect(prim, op, l, r, st);
  }

  /** What a one-operand instruction makes of an evaluation result. */
  function ThenProduce(prim: Numerics.Primitives, i: Instr, below: seq<real>, inner: Result<(real, map<string, real>)>): Result<(real, map<string, real>)>
    requires Arity(i) == 1
  {
    match inner
    case Err(k) => Err(k)
    case Ok(ve) =>
      match Produced(prim, i, State(below + [ve.0], ve.1))
      case Ok(w) => Ok((w, if i.Store? then Declare(ve.1, i.name, w) else ve.1))
      case Err(k) => Err(k)
  }

  /** Code that pushes `inner`, followed by one one-operand instruction. */
  lemma ThenOne(prim: Numerics.Primitives, code: seq<Instr>, i: Instr, st: State, inner: Result<(real, map<string, real>)>)
    requires Arity(i) == 1
    requires Run(prim, code, st) == Pushed(inner, st.stack)
    ensures Run(prim, code + [i], st) == Pushed(ThenProduce(prim, i, st.stack, inner), st.stack)
  {
    RunThen(prim, code, i, st);
    if inner.Ok? {
      ExecOnTop(prim, i, st.stack, [inner.value.0], inner.value.1);
    }
  }

  lemma {:induction false} UnaryCorrect(prim: Numerics.Primitives, op: UnOp, x: Expr, st: State)
    requires Compile(UnaryOp(op, x)).Ok?
    ensures Run(prim, Compile(UnaryOp(op, x)).value, st) ==
            Pushed(Eval(prim, UnaryOp(op, x), st.symbols), st.stack)
    decreases UnaryOp(op, x), 0
  {
    CompileCorrect(prim, x, st);
    if op == Minus {
      MinusCorrect(prim, op, x, st);
    } else {
      assert Compile(UnaryOp(op, x)).value == Compile(x).value;
      assert Eval(prim, UnaryOp(op, x), st.symbols) == Eval(prim, x, st.symbols);
    }
  }

  /** A minus sign compiles to NEG after its operand. */
  lemma MinusCorrect(prim: Numerics.Primitives, op: UnOp, x: Expr, st: State)
    requires op == Minus && Compile(UnaryOp(op, x)).Ok?
    requires Run(prim, Compile(x).value, st) == Pushed(Eval(prim, x, st.symbols), st.stack)
    ensures Run(prim, Compile(UnaryOp(op, x)).value, st) ==
            Pushed(Eval(prim, UnaryOp(op, x), st.symbols), st.stack)
  {
    MinusCode(op, x);
    MinusEval(prim, op, x, st.symbols);
    NegThen(prim, Compile(x).value, st, Eval(prim, x, st.symbols));
  }

  lemma MinusCode(op: UnOp, x: Expr)
    requires op == Minus && Compile(UnaryOp(op, x)).Ok?
    ensures Compile(x).Ok? && Compile(UnaryOp(op, x)).value == Compile(x).value + [Neg]
  {
  }

  lemma MinusEval(prim: Numerics.Primitives, op: UnOp, x: Expr, env: map<string, real>)
    requires op == Minus
    ensures Eval(prim, UnaryOp(op, x), env) == Negated(Eval(prim, x, env))
  {
  }

  /** An evaluation result with its value negated. */
  function Negated(ev: Result<(real, map<string, real>)>): Result<(real, map<string, real>)> {
    match ev
    case Err(k) => Err(k)
    case Ok(ve) => Ok((-ve.0, ve.1))
  }

  /** Code that pushes `ev`, followed by NEG, pushes `ev` negated. */
  lemma NegThen(prim: Numerics.Primitives, code: seq<Instr>, st: State, ev: Result<(real, map<string, real>)>)
    requires Run(prim, code, st) == Pushed(ev, st.stack)
    ensures Run(prim, code + [Neg], st) == Pushed(Negated(ev), st.stack)
  {
    ThenOne(prim, code, Neg, st, ev);
    NegAgrees(prim, st.stack, ev);
  }

  lemma NegAgrees(prim: Numerics.Primitives, below: seq<real>, ev: Result<(real, map<string, real>)>)
    ensures ThenProduce(prim, Neg, below, ev) == Negated(ev)
  {
    if ev.Ok? {
      assert Produced(prim, Neg, State(below + [ev.value.0], ev.value.1)) == Ok(-ev.value.0);
    }
  }

  lemma {:induction false} AssignmentCorrect(prim: Numerics.Primitives, x: string, v: Expr, st: State)
    requires Compile(Assignment(x, v)).Ok?
    ensures Run(prim, Compile(Assignment(x, v)).value, st) ==
            Pushed(Eval(prim, Assignment(x, v), st.symbols), st.stack)
    decreases Assignment(x, v), 0
  {
    var code := Compile(v).value;
    assert Compile(Assignment(x, v)).value == code + [Store(x)];
    CompileCorrect(prim, v, st);
    var ev := Eval(prim, v, st.symbols);
    ThenOne(prim, code, Store(x), st, ev);
    assert ThenProduce(prim, Store(x), st.stack, ev) == Eval(prim, Assignment(x, v), st.symbols);
  }

  lemma {:induction false} FunctionCorrect(prim: Numerics.Primitives, f: string, a: Expr, st: State)
    requires Compile(Function(f, a)).Ok?
    ensures Run(prim, Compile(Function(f, a)).value, st) ==
            Pushed(Eval(prim, Function(f, a), st.symbols), st.stack)
    decreases Function(f, a), 0
  {
    var code := Compile(a).value;
    var i := FunctionOpcode(f).value;
    assert Compile(Function(f, a)).value == code + [i];
    CompileCorrect(prim, a, st);
    var ev := Eval(prim, a, st.symbols);
    ThenOne(prim, code, i, st, ev);
    FunctionAgrees(prim, f, st.stack, ev);
  }

  lemma FunctionAgrees(prim: Numerics.Primitives, f: string, below: seq<real>, ev: Result<(real, map<string, real>)>)
    requires f in KnownFunctions
    ensures ThenProduce(prim, FunctionOpcode(f).value, below, ev) ==
            (match ev
             case Err(k) => Err(k)
             case Ok(ve) =>
               match ApplyFunction(prim, f, ve.0)
               case Ok(w) => Ok((w, ve.1))
               case Err(k) => Err(k))
  {
    if ev.Ok? {
      assert Unary(prim, FunctionOpcode(f).value, ev.value.0) == ApplyFunction(prim, f, ev.value.0);
    }
  }

  /** What a two-operand instruction makes of two evaluation results. */
  lemma ThenTwo(prim: Numerics.Primitives, op: BinOp, code: seq<Instr>, st: State, a: real, b: real, env: map<string, real>)
    requires Run(prim, code, st) == Ok(State(st.stack + [a] + [b], env))
    ensures Run(prim, code + [BinaryOpcode(op)], st) ==
            (match ApplyBinary(prim, op, a, b)
             case Ok(w) => Ok(State(st.stack + [w], env))
             case Err(k) => Err(k))
  {
    var i := BinaryOpcode(op);
    BinaryArity(op);
    var top := State(st.stack + [a, b], env);
    assert Run(prim, code + [i], st) == Exec(prim, i, top) by {
      RunThen(prim, code, i, st);
      assert st.stack + [a] + [b] == st.stack + [a, b];
    }
    assert Produced(prim, i, top) == ApplyBinary(prim, op, a, b) by {
      BinaryAgrees(prim, op, st.stack, a, b, env);
    }
    ExecOnTop(prim, i, st.stack, [a, b], env);
  }

  lemma BinaryArity(op: BinOp)
    ensures Arity(BinaryOpcode(op)) == 2 && !BinaryOpcode(op).Store?
  {
  }

  lemma BinaryAgrees(prim: Numerics.Primitives, op: BinOp, below: seq<real>, a: real, b: real, env: map<string, real>)
    ensures Produced(prim, BinaryOpcode(op), State(below + [a, b], env)) == ApplyBinary(prim, op, a, b)
  {
    var s := below + [a, b];
    assert s[|s| - 2] == a && s[|s| - 1] == b;
    assert Produced(prim, BinaryOpcode(op), State(s, env)) == Binary(prim, BinaryOpcode(op), a, b);
  }

  lemma {:induction false} BinaryCorrect(prim: Numerics.Primitives, op: BinOp, l: Expr, r: Expr, st: State)
    requires Compile(BinaryOp(op, l, r)).Ok?
    ensures Run(prim, Compile(BinaryOp(op, l, r)).value, st) ==
            Pushed(Eval(prim, BinaryOp(op, l, r), st.symbols), st.stack)
    decreases BinaryOp(op, l, r), 0
  {
    var cl := Compile(l).value;
    var cr := Compile(r).value;
    assert Compile(BinaryOp(op, l, r)).value == (cl + cr) + [BinaryOpcode(op)];
    RunThen(prim, cl + cr, BinaryOpcode(op), st);
    RunAppend(prim, cl, cr, st);
    CompileCorrect(prim, l, st);
    var le := Eval(prim, l, st.symbols);
    if le.Ok? {
      var a := le.value.0;
      var mid := State(st.stack + [a], le.value.1);
      CompileCorrect(prim, r, mid);
      var re := Eval(prim, r, le.value.1);
      if re.Ok? {
        ThenTwo(prim, op, cl + cr, st, a, re.value.0, re.value.1);
      }
    }
  }

  /** On a fresh stack, compiled code returns what direct evaluation
      returns: the final stack-size check cannot fail. */
  lemma ProgramCorrect(prim: Numerics.Primitives, e: Expr, symbols: map<string, real>)
    requires Compile(e).Ok?
    ensures RunProgram(prim, Compile(e).value, symbols) == Eval(prim, e, symbols)
    ensures RunProgram(prim, Compile(e).value, symbols) != Err(InvalidExpression)
  {
    CompileCorrect(prim, e, State([], symbols));
    assert [] + [0.0] == [0.0];
    if Eval(prim, e, symbols).Ok? {
      var ve := Eval(prim, e, symbols).value;
      assert [] + [ve.0] == [ve.0];
    }
  }
}
