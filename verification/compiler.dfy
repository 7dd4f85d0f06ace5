/** The bytecode compiler of js/parser.js (`generateBytecode`): a post-order
    walk of the tree. The source's `symbolTable` argument is passed along
    but never read, so here the compiler is a function of the tree alone. */
module Bytecode {
  import opened Errors
  import Ast
  import Numerics

  datatype Instr =
    | Push(value: real)
    | Load(name: string)
    | Store(name: string)
    | Add | Sub | Mul | Div | Pow
    | Neg
    | Sin | Cos | Tan | Sqrt | Log | Ln

  /** The opcode of a binary operator. */
  function BinaryOpcode(op: Ast.BinOp): Instr {
    match op
    case Add => Add
    case Sub => Sub
    case Mul => Mul
    case Div => Div
    case Pow => Pow
  }

  /** The opcode of a function name, if the compiler knows one. */
  function FunctionOpcode(name: string): (r: Errors.Option<Instr>)
    ensures r.Some? <==> name in Ast.KnownFunctions
  {
    if name == "sin" then Some(Sin)
    else if name == "cos" then Some(Cos)
    else if name == "tan" then Some(Tan)
    else if name == "sqrt" then Some(Sqrt)
    else if name == "log" then Some(Log)
    else if name == "ln" then Some(Ln)
    else None
  }

  /** Left operand's code, right operand's code, then the operator; a unary
      '+' emits nothing of its own; an assignment ends with STORE. The only
      failure is a Function node whose name has no opcode (`if`, which the
      parser accepts like any other function keyword). */
  function Compile(e: Ast.Expr): (r: Result<seq<Instr>>)
    ensures r.Ok? <==> Ast.FunctionNames(e) <= Ast.KnownFunctions
    ensures r.Err? ==> r.error.UnknownFunction? &&
                       r.error.name in Ast.FunctionNames(e) - Ast.KnownFunctions
  {
    match e
    case Number(v) => Ok([Push(v)])
    case Variable(x) => Ok([Load(x)])
    case Constant(c) => Ok([Push(if c == Ast.Pi then Numerics.PI else Numerics.E)])
    case BinaryOp(op, l, r) =>
      var left :- Compile(l);
      var right :- Compile(r);
      Ok(left + right + [BinaryOpcode(op)])
    case UnaryOp(op, x) =>
      var operand :- Compile(x);
      Ok(if op == Ast.Minus then operand + [Neg] else operand)
    case Assignment(x, v) =>
      var value :- Compile(v);
      Ok(value + [Store(x)])
    case Function(f, a) =>
      var argument :- Compile(a);
      match FunctionOpcode(f)
      case Some(i) => Ok(argument + [i])
      case None => Err(UnknownFunction(f))
  }
}
