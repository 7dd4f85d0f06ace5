/** The engine's error taxonomy and the failure-compatible result type every
    stage returns instead of throwing. One constructor per `throw` site of
    js/parser.js that a well-typed input can reach. */
module Errors {

  datatype Error =
    | InvalidNumber(text: string)           // a number run with more than one '.'
    | UnknownCharacter(found: char)         // a character no lexing rule accepts
    | UnexpectedEndOfInput                  // `atom` found no token
    | ExpectedOpenParen(keyword: string)   // function keyword not followed by '('
    | ExpectedCloseParenAfterArgument       // function argument not followed by ')'
    | ExpectedCloseParen                    // parenthesised expression not closed
    | UnexpectedToken(text: string)         // a token no `atom` rule accepts
    | UnknownFunction(name: string)         // compiler: Function node with an unknown name
    | UndefinedVariable(name: string)       // LOAD of an undeclared name
    | DivisionByZero
    | NegativeSquareRoot
    | NonPositiveLogarithm
    | NonPositiveNaturalLogarithm
    | InvalidExpression                     // final stack does not hold exactly one value
    | StackUnderflow                        // an opcode found too few operands
  {
    /** Errors the parser reports. */
    predicate IsSyntaxError() {
      UnexpectedEndOfInput? || ExpectedOpenParen? || ExpectedCloseParenAfterArgument? ||
      ExpectedCloseParen? || UnexpectedToken?
    }
  }

  datatype Result<+T> = Ok(value: T) | Err(error: Error) {

    predicate IsFailure() {
      Err?
    }

    function PropagateFailure<U>(): Result<U>
      requires Err?
    {
      Err(error)
    }

    function Extract(): T
      requires Ok?
    {
      value
    }
  }

  datatype Option<+T> = None | Some(value: T)
}

/** The host's floating-point primitives. The model treats each as an
    uninterpreted total function over reals; the engine is parameterised by
    one `Primitives` value instead of calling `Math.*` and `parseFloat`. */
module Numerics {

  datatype Primitives = Primitives(
    parseFloat: string -> real,
    pow: (real, real) -> real,
    sin: real -> real,
    cos: real -> real,
    tan: real -> real,
    sqrt: real -> real,
    log10: real -> real,
    ln: real -> real)

  /** `Math.PI` and `Math.E`, as the shortest decimals that denote them. */
  const PI: real := 3.141592653589793
  const E: real := 2.718281828459045
}

/** Property names every plain JavaScript object inherits from
    `Object.prototype`. `name in obj` and `obj[name]` see them even on an
    object created as `{}`, and each one reads as a truthy value. */
module JsObjects {
  const InheritedNames: set<string> := {
    "constructor", "hasOwnProperty", "isPrototypeOf", "propertyIsEnumerable",
    "toLocaleString", "toString", "valueOf",
    "__proto__", "__defineGetter__", "__defineSetter__", "__lookupGetter__", "__lookupSetter__"
  }
}
