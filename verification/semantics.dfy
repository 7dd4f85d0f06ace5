/** A direct, recursive meaning for expression trees: operands left to
    right, each seeing the variables as the ones before it left them. It is
    the reference the compiled code is proved against. */
module Semantics {
  import opened Errors
  import opened Ast
  import Numerics

  /** The value of `e` and the variables after it, starting from `env`. */
  function Eval(prim: Numerics.Primitives, e: Expr, env: map<string, real>): (r: Result<(real, map<string, real>)>)
    ensures r.Ok? ==> r.value.1.Keys == env.Keys + AssignedNames(e)
    ensures r.Ok? ==> forall x :: x in env && x !in AssignedNames(e) ==> r.value.1[x] == env[x]
    ensures r.Ok? && e.Assignment? ==> r.value.1[e.target] == r.value.0
    ensures r.Ok? ==> FunctionNames(e) <= KnownFunctions
    ensures r.Err? ==> !r.error.InvalidExpression? && !r.error.StackUnderflow?
  {
    match e
    case Number(v) => Ok((v, env))
    case Variable(x) =>
      if x in env then Ok((env[x], env)) else Err(UndefinedVariable(x))
    case Constant(c) => Ok((if c == Pi then Numerics.PI else Numerics.E, env))
    case UnaryOp(op, x) =>
      var ve :- Eval(prim, x, env);
      Ok((if op == Minus then -ve.0 else ve.0, ve.1))
    case BinaryOp(op, l, r) =>
      var le :- Eval(prim, l, env);
      var re :- Eval(prim, r, le.1);
      var v :- ApplyBinary(prim, op, le.0, re.0);
      Ok((v, re.1))
    case Assignment(x, rhs) =>
      var ve :- Eval(prim, rhs, env);
      Ok((ve.0, ve.1[x := ve.0]))
    case Function(f, a) =>
      var ve :- Eval(prim, a, env);
      var v :- ApplyFunction(prim, f, ve.0);
      Ok((v, ve.1))
  }

  function ApplyBinary(prim: Numerics.Primitives, op: BinOp, a: real, b: real): (r: Result<real>)
    ensures r.Err? <==> op == Div && b == 0.0
    ensures r.Err? ==> r.error == DivisionByZero
  {
    match op
    case Add => Ok(a + b)
    case Sub => Ok(a - b)
    case Mul => Ok(a * b)
    case Div => if b == 0.0 then Err(DivisionByZero) else Ok(a / b)
    case Pow => Ok(prim.pow(a, b))
  }

  function ApplyFunction(prim: Numerics.Primitives, f: string, a: real): (r: Result<real>)
    ensures r.Ok? ==> f in KnownFunctions
    ensures f == "sqrt" ==> (r.Err? <==> a < 0.0)
    ensures f == "log" || f == "ln" ==> (r.Err? <==> a <= 0.0)
    ensures f in {"sin", "cos", "tan"} ==> r.Ok?
    ensures r.Err? ==> !r.error.InvalidExpression? && !r.error.StackUnderflow?
  {
    if f == "sin" then Ok(prim.sin(a))
    else if f == "cos" then Ok(prim.cos(a))
    else if f == "tan" then Ok(prim.tan(a))
    else if f == "sqrt" then (if a < 0.0 then Err(NegativeSquareRoot) else Ok(prim.sqrt(a)))
    else if f == "log" then (if a <= 0.0 then Err(NonPositiveLogarithm) else Ok(prim.log10(a)))
    else if f == "ln" then (if a <= 0.0 then Err(NonPositiveNaturalLogarithm) else Ok(prim.ln(a)))
    else Err(UnknownFunction(f))
  }
}
