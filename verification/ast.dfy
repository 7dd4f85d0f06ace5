/** The abstract syntax tree the parser of js/parser.js builds. The source's
    nodes are records tagged by a `type` string; here each node kind is a
    constructor, and the operator fields are closed enumerations because the
    parser only ever fills them from a fixed set of symbols. */
module Ast {

  datatype BinOp = Add | Sub | Mul | Div | Pow

  datatype UnOp = Plus | Minus

  datatype ConstName = Pi | E

  datatype Expr =
    | Number(value: real)
    | Variable(name: string)
    | Constant(constant: ConstName)
    | UnaryOp(unOp: UnOp, operand: Expr)
    | BinaryOp(binOp: BinOp, left: Expr, right: Expr)
    | Assignment(target: string, rhs: Expr)
    | Function(fname: string, argument: Expr)

  /** The names the compiler knows an opcode for. */
  const KnownFunctions: set<string> := {"sin", "cos", "tan", "sqrt", "log", "ln"}

  /** Every name an Assignment node in `e` writes. */
  function AssignedNames(e: Expr): set<string> {
    match e
    case Number(_) => {}
    case Variable(_) => {}
    case Constant(_) => {}
    case UnaryOp(_, x) => AssignedNames(x)
    case BinaryOp(_, l, r) => AssignedNames(l) + AssignedNames(r)
    case Assignment(x, v) => {x} + AssignedNames(v)
    case Function(_, a) => AssignedNames(a)
  }

  /** Every name a Function node in `e` carries. */
  function FunctionNames(e: Expr): set<string> {
    match e
    case Number(_) => {}
    case Variable(_) => {}
    case Constant(_) => {}
    case UnaryOp(_, x) => FunctionNames(x)
    case BinaryOp(_, l, r) => FunctionNames(l) + FunctionNames(r)
    case Assignment(_, v) => FunctionNames(v)
    case Function(f, a) => {f} + FunctionNames(a)
  }
}
