/** The stack machine of js/parser.js (`VM`) together with the flat
    `SymbolTable` it reads and writes. The machine state is the value stack
    (top at the end) and the name-to-value map. */
module Machine {
  import opened Errors
  import opened Bytecode
  import Numerics
  import JsObjects

  datatype State = State(stack: seq<real>, symbols: map<string, real>)

  // ----- the symbol table ---------------------------------------------------

  /** `SymbolTable.declare`: insert or overwrite one name. */
  function Declare(symbols: map<string, real>, name: string, value: real): (r: map<string, real>)
    ensures r.Keys == symbols.Keys + {name}
    ensures r[name] == value
    ensures forall y :: y in symbols && y != name ==> r[y] == symbols[y]
  {
    symbols[name := value]
  }

  /** `SymbolTable.lookup`: the value, or an error for an undeclared name. */
  function Lookup(symbols: map<string, real>, name: string): (r: Result<real>)
    ensures r.Ok? <==> name in symbols
    ensures r.Ok? ==> r.value == symbols[name]
    ensures r.Err? ==> r.error == UndefinedVariable(name)
  {
    if name in symbols then Ok(symbols[name]) else Err(UndefinedVariable(name))
  }

  /** `SymbolTable.lookup` as written: the `in` test also sees the names the
      table object inherits, and for those `.value` of the inherited member
      is `undefined` (`None`) instead of the "Undefined variable" error. */
  function LookupAsWritten(symbols: map<string, real>, name: string): (r: Result<Option<real>>)
    ensures name !in JsObjects.InheritedNames ==>
              r == (match Lookup(symbols, name) case Ok(v) => Ok(Some(v)) case Err(k) => Err(k))
  {
    if name in symbols then Ok(Some(symbols[name]))
    else if name in JsObjects.InheritedNames then Ok(None)
    else Err(UndefinedVariable(name))
  }

  /** An undeclared `constructor` is found by the written lookup, which
      yields `undefined`; the corrected `Lookup` reports it as undefined. */
  lemma ConstructorLooksDeclared(symbols: map<string, real>)
    requires "constructor" !in symbols
    ensures LookupAsWritten(symbols, "constructor") == Ok(None)
    ensures Lookup(symbols, "constructor") == Err(UndefinedVariable("constructor"))
  {
  }

  // ----- one instruction ----------------------------------------------------

  /** How many values an instruction takes from the top of the stack. Every
      instruction then leaves exactly one value in their place (STORE takes
      the top and leaves it where it was). */
  function Arity(i: Instr): nat {
    match i
    case Push(_) => 0
    case Load(_) => 0
    case Store(_) => 1
    case Add => 2
    case Sub => 2
    case Mul => 2
    case Div => 2
    case Pow => 2
    case Neg => 1
    case Sin => 1
    case Cos => 1
    case Tan => 1
    case Sqrt => 1
    case Log => 1
    case Ln => 1
  }

  /** The top of a non-empty stack. */
  function Top(stack: seq<real>): real
    requires stack != []
  {
    stack[|stack| - 1]
  }

  /** The arithmetic of a two-operand opcode: `a` was below `b` on the
      stack. */
  function Binary(prim: Numerics.Primitives, i: Instr, a: real, b: real): (r: Result<real>)
    requires Arity(i) == 2
    ensures r.Err? <==> i.Div? && b == 0.0
    ensures r.Err? ==> r.error == DivisionByZero
  {
    match i
    case Add => Ok(a + b)
    case Sub => Ok(a - b)
    case Mul => Ok(a * b)
    case Div => if b == 0.0 then Err(DivisionByZero) else Ok(a / b)
    case Pow => Ok(prim.pow(a, b))
  }

  /** The arithmetic of a one-operand opcode other than STORE. */
  function Unary(prim: Numerics.Primitives, i: Instr, a: real): (r: Result<real>)
    requires Arity(i) == 1 && !i.Store?
    ensures i.Sqrt? ==> (r.Err? <==> a < 0.0)
    ensures i.Log? || i.Ln? ==> (r.Err? <==> a <= 0.0)
    ensures !i.Sqrt? && !i.Log? && !i.Ln? ==> r.Ok?
  {
    match i
    case Neg => Ok(-a)
    case Sin => Ok(prim.sin(a))
    case Cos => Ok(prim.cos(a))
    case Tan => Ok(prim.tan(a))
    case Sqrt => if a < 0.0 then Err(NegativeSquareRoot) else Ok(prim.sqrt(a))
    case Log => if a <= 0.0 then Err(NonPositiveLogarithm) else Ok(prim.log10(a))
    case Ln => if a <= 0.0 then Err(NonPositiveNaturalLogarithm) else Ok(prim.ln(a))
  }

  /** The value an instruction leaves on top of the stack in place of the
      `Arity(i)` values it takes. */
  function Produced(prim: Numerics.Primitives, i: Instr, st: State): (r: Result<real>)
    requires |st.stack| >= Arity(i)
    ensures r.Err? ==> r.error != StackUnderflow
    ensures i.Load? ==> (r.Ok? <==> i.name in st.symbols)
    ensures i.Store? ==> r == Ok(Top(st.stack))
    ensures i.Div? ==> (r.Err? <==> Top(st.stack) == 0.0)
    ensures i.Sqrt? ==> (r.Err? <==> Top(st.stack) < 0.0)
    ensures i.Log? || i.Ln? ==> (r.Err? <==> Top(st.stack) <= 0.0)
    ensures Arity(i) == 2 && !i.Div? ==> r.Ok?
  {
    var s := st.stack;
    var n := |s|;
    match i
    case Push(v) => Ok(v)
    case Load(x) => Lookup(st.symbols, x)
    case Store(_) => Ok(s[n - 1])
    case Add => Binary(prim, i, s[n - 2], s[n - 1])
    case Sub => Binary(prim, i, s[n - 2], s[n - 1])
    case Mul => Binary(prim, i, s[n - 2], s[n - 1])
    case Div => Binary(prim, i, s[n - 2], s[n - 1])
    case Pow => Binary(prim, i, s[n - 2], s[n - 1])
    case _ => Unary(prim, i, s[n - 1])
  }

  /** `s` with its top `k` values replaced by `v`. */
  function Replace(s: seq<real>, k: nat, v: real): (r: seq<real>)
    requires k <= |s|
    ensures |r| == |s| - k + 1
    ensures r[..|s| - k] == s[..|s| - k]
    ensures r[|r| - 1] == v
  {
    s[..|s| - k] + [v]
  }

  /** `VM.execute`. Binary opcodes pop the right operand first, then the
      left one. An opcode that finds fewer operands than it takes fails with
      StackUnderflow; the source would pop `undefined` and compute NaN, which
      this model over reals does not represent. */
  function Exec(prim: Numerics.Primitives, i: Instr, st: State): (r: Result<State>)
    ensures |st.stack| < Arity(i) <==> r == Err(StackUnderflow)
    ensures r.Ok? ==> |r.value.stack| == |st.stack| - Arity(i) + 1
    ensures r.Ok? ==> r.value.stack[..|st.stack| - Arity(i)] == st.stack[..|st.stack| - Arity(i)]
    ensures r.Ok? && !i.Store? ==> r.value.symbols == st.symbols
    ensures i.Store? && r.Ok? ==>
              r.value.stack == st.stack && r.value.symbols == Declare(st.symbols, i.name, Top(st.stack))
    ensures i.Load? ==> (r.Ok? <==> i.name in st.symbols)
    ensures |st.stack| >= Arity(i) ==> (r.Ok? <==> Produced(prim, i, st).Ok?)
  {
    var s := st.stack;
    if |s| < Arity(i) then Err(StackUnderflow)
    else
      var v :- Produced(prim, i, st);
      var stack := Replace(s, Arity(i), v);
      if i.Store? then
        assert stack == s;
        Ok(State(stack, Declare(st.symbols, i.name, v)))
      else Ok(State(stack, st.symbols))
  }

  // ----- whole programs -----------------------------------------------------

  /** The loop of `VM.run`: instructions in order, stopping at the first
      failure. */
  function Run(prim: Numerics.Primitives, code: seq<Instr>, st: State): Result<State>
    decreases |code|
  {
    if code == [] then Ok(st)
    else
      var next :- Exec(prim, code[0], st);
      Run(prim, code[1..], next)
  }

  /** `VM.run` on a fresh stack: the single value left, with the symbol
      table as the instructions left it. */
  function RunProgram(prim: Numerics.Primitives, code: seq<Instr>, symbols: map<string, real>): (r: Result<(real, map<string, real>)>)
    ensures r.Ok? <==> Run(prim, code, State([], symbols)).Ok? && |Run(prim, code, State([], symbols)).value.stack| == 1
    ensures r.Ok? ==> Run(prim, code, State([], symbols)) == Ok(State([r.value.0], r.value.1))
  {
    var st :- Run(prim, code, State([], symbols));
    if |st.stack| != 1 then Err(InvalidExpression)
    else
      assert st.stack == [st.stack[0]];
      Ok((st.stack[0], st.symbols))
  }
}
