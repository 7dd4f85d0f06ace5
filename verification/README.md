# Calculator engine in Dafny

A model of the expression engine behind a browser calculator, and of the
calculator profiles it keeps. The engine is a small compiler pipeline:
`tokenize` turns the input line into tokens, a recursive-descent `Parser`
builds a tree, `generateBytecode` flattens the tree into stack-machine code,
and a `VM` runs that code against a flat `SymbolTable` of variables.
`Calculator.calculate` drives the pipeline. It recognises the command words,
and it keeps the variables a run assigns only when the run succeeds.
`CalculatorStorage` holds named calculator profiles, each a saved history,
together with the name of the current profile.

The modules follow the program:

| module | file | models |
|---|---|---|
| `Errors`, `Numerics`, `JsObjects` | errors.dfy | the thrown errors as a `Result` type, the host's floating-point primitives, the property names every JavaScript object inherits |
| `Lexer` | lexer.dfy | `tokenize` |
| `Ast`, `Parser` | ast.dfy, parser.dfy | the tree and the parser |
| `ParserProperties`, `ParserGrouping` | parser_props.dfy | a printer that the parser inverts, and the left fold that says how operator chains group |
| `ParserNesting` | nesting.dfy | that an assignment's value, a function's argument and a parenthesised group are each a whole expression |
| `ParserErrors` | parser_errors.dfy | how the parser fails: a loop operator with nothing after it, an unclosed call or group, a function keyword without '(' |
| `ParserPrecedence` | precedence.dfy | how two operators of different precedence levels group, and how a sign groups with `^` |
| `ParserNames` | parser_names.dfy | which function names a parsed tree can hold |
| `Bytecode` | compiler.dfy | `generateBytecode` |
| `Machine` | machine.dfy | `SymbolTable` and `VM` |
| `Semantics` | semantics.dfy | a direct left-to-right evaluator, the reference for the compiler |
| `CompilerCorrectness` | correctness.dfy | compiled code pushes exactly the value of the direct evaluation |
| `Calculation` | calculator.dfy | `Calculator` |
| `Storage` | storage.dfy | `CalculatorStorage`, in memory |
| `Quirks` | quirks.dfy | concrete inputs that pin down the engine's surprising behaviour |

Numbers are reals. `parseFloat`, `Math.pow`, `Math.sin`, `Math.cos`,
`Math.tan`, `Math.sqrt`, `Math.log10` and `Math.log` are the fields of one
`Numerics.Primitives` value. The engine takes that value as a parameter, so
every proof holds for any choice of these functions. Every `throw` is an
`Err` value, and every `try`/`catch` is a match on that value.

The central result is `CompilerCorrectness.CompileCorrect`. For every tree
the compiler accepts, and on any starting stack, the compiled code leaves
that stack untouched and pushes exactly the value `Semantics.Eval` computes,
and it leaves the same variables. As a consequence the machine never runs
out of operands on compiled code. The final "stack must hold one value"
check never fires. `Calculation.EvaluateMeansEval` lifts this to the whole
pipeline. For any input line, the engine's answer is the direct meaning of
the tree the parser built. The only other possibility is the compiler's
rejection of a function name it has no opcode for; that name can only be
`if` (`Calculation.OnlyIfFailsToCompile`).

## Model

| member | source | states |
|---|---|---|
| Lexer.Span | js/parser.js:36-39 | the length of the longest prefix of characters of one class: all of them are in the class, and the next one is not |
| Lexer.Tokenize | js/parser.js:20-108 | every token emitted is well formed: a number run of digits with at most one '.', carrying parseFloat of its text; a letter-digit word that is not a keyword as an identifier; a keyword; an operator from the fixed set. Lexing fails only on a number run with two or more dots, or on a character of the input that no rule accepts |
| Lexer.RenderRoundTrip | js/parser.js:20-108 | lexing well-formed tokens, written out with a space after each, gives the same tokens back |
| Lexer.TokenizeKeepsText | js/parser.js:24-105 | lexing loses nothing but whitespace: the token texts, glued, are the input with its whitespace removed |
| Lexer.FirstToken | js/parser.js:33-101 | when the input does not start with whitespace, the first token's text is exactly the input's first characters, and the remaining tokens lex the rest of the input; a number takes the longest run of digits and dots, a word the longest run of letters and digits, and `=`, `>` or `<` takes a following `=` |
| Lexer.LeadingToken | js/parser.js:33-101 | the first token of a successful lexing, and its length: the longest number or word run, or one or two operator characters |
| Lexer.LeadingNumber | js/parser.js:34-47 | a number starting the input takes the longest run of digits and dots, which has at most one dot, and carries parseFloat of that run |
| Lexer.LeadingWord | js/parser.js:51-64 | a word starting the input takes the longest run of letters and digits, and is a keyword exactly when that whole run is one |
| Lexer.LeadingSymbol | js/parser.js:67-100 | an operator takes two characters exactly for `==`, `>=` and `<=`, one otherwise; a parenthesis takes one |
| Lexer.ManyDotsRejected | js/parser.js:34-44 | a number run with more than one dot makes lexing fail with that run as the invalid number, whatever follows it |
| Lexer.ManyDotsRejectedAfter | js/parser.js:24-44 | the same failure after any text that lexes to well-formed tokens |
| Lexer.TokenizeOnlyLexable | js/parser.js:103-104 | lexing succeeds only on text whose every character some rule accepts |
| Lexer.BangNeverLexes | js/parser.js:68-89 | an input with a '!' anywhere fails to lex, because '!' is not in the operator class; so the branch for `!=` can never be taken |
| Parser.Parse | js/parser.js:127-129 | a failing parse reports a syntax error, never an evaluation error |
| Parser.Term | js/parser.js:136-147 | a successful `term` consumes at least one token and stops inside the input; a failure is a syntax error |
| Parser.TermRest | js/parser.js:139-145 | the `+`/`-` loop never moves backwards and stops inside the input; a failure is a syntax error |
| Parser.Factor | js/parser.js:150-162 | a successful `factor` consumes at least one token and stops inside the input |
| Parser.FactorRest | js/parser.js:153-159 | the `*`/`/` loop never moves backwards and stops inside the input |
| Parser.Power | js/parser.js:164-175 | a successful `power` consumes at least one token and stops inside the input |
| Parser.PowerRest | js/parser.js:167-172 | the `^` loop never moves backwards and stops inside the input |
| Parser.Unary | js/parser.js:177-187 | a successful `unary` consumes at least one token and stops inside the input |
| Parser.Atom | js/parser.js:189-251 | a successful `atom` consumes at least one token and stops inside the input; every failure is one of the parser's errors |
| ParserProperties.AtomReadsPrint | js/parser.js:189-251 | `atom` reads a fully parenthesised printed tree back as the same tree, ending right after it, whatever tokens come before or after |
| ParserProperties.ParsePrintIgnoresRest | js/parser.js:127-251 | parsing is a left inverse of printing, and any tokens after the printed tree are silently dropped unless the first of them is a `+ - * / ^` operator |
| ParserProperties.ParseReadsPrint | js/parser.js:127-251 | parsing the printed form of a tree gives the tree back |
| ParserGrouping.PowerChain | js/parser.js:167-172 | the `^` loop, run over a chain of `^` operands, returns the left fold of the chain and stops after its last operand |
| ParserGrouping.FactorChain | js/parser.js:153-159 | the `*`/`/` loop, run over a chain of `*`/`/` operands, returns the left fold and stops after the last operand |
| ParserGrouping.TermChain | js/parser.js:139-145 | the `+`/`-` loop, run over a chain of `+`/`-` operands, returns the left fold and stops after the last operand |
| ParserGrouping.ChainsFoldLeft | js/parser.js:136-175 | a chain `x0 op1 x1 op2 x2 ...` of operators of one precedence level parses as `((x0 op1 x1) op2 x2) ...`; this holds for `-` and `/`, and also for `^` |
| ParserGrouping.ChainReads | js/parser.js:132-175 | `expression`, started on the first token of a printed one-level chain at any position after any tokens, returns the chain's left fold and stops right after its last operand |
| ParserNesting.AssignmentTakesChain | js/parser.js:204-211 | `x = c`, for any printed one-level chain `c` and anything after it that ends a chain, assigns the whole left fold of `c` to `x`, not just its first operand |
| ParserNesting.FunctionTakesChain | js/parser.js:214-236 | `f ( c )`, for any name `f` other than `pi` and `e` and any printed one-level chain `c`, is a call of `f` on the whole left fold of `c` |
| ParserNesting.GroupTakesChain | js/parser.js:238-247 | `( c )`, for any printed one-level chain `c`, is the left fold of `c` itself |
| ParserNesting.ChainedAssignment | js/parser.js:204-211 | `x = y = c`, without parentheses, nests to the right: `y` gets the whole left fold of `c` and `x` gets that assignment |
| ParserErrors.TermRestStops | js/parser.js:139-145 | the `+`/`-` loop returns only at a token that is neither `+` nor `-`: a `+` or `-` whose factor fails is never where the loop ends |
| ParserErrors.FactorRestStops | js/parser.js:153-159 | the `*`/`/` loop returns only at a token that is neither `*` nor `/` |
| ParserErrors.PowerRestStops | js/parser.js:167-172 | the `^` loop returns only at a token that is not `^` |
| ParserErrors.AtomClosesParen | js/parser.js:228-247 | a function call or a group that `atom` reads ends on its ')' |
| ParserErrors.AtomErrorIsParseError | js/parser.js:127-129 | an `atom` that fails on the first token fails the whole parse with the same error |
| ParserErrors.MissingOpenParen | js/parser.js:214-226 | a function keyword other than `pi` and `e` not followed by '(' is refused with "Expected '('", whatever follows |
| ParserErrors.FunctionWithoutClose | js/parser.js:228-233 | `f ( c` followed by anything but ')' is refused for the missing ')' after the argument, for any printed one-level chain `c` |
| ParserErrors.GroupWithoutClose | js/parser.js:238-245 | `( c` followed by anything but ')' is refused for the missing ')', for any printed one-level chain `c` |
| ParserErrors.DanglingOperator | js/parser.js:139-175 | any printed operand followed by one of `+ - * / ^` and nothing else is an unexpected end of input: the loop reads the operator and finds no operand |
| ParserPrecedence.HigherRightGroupsFirst | js/parser.js:136-175 | for any printed operands, `x op1 y op2 z` with `op2` of a higher level than `op1` parses as `x op1 (y op2 z)`: `*` and `/` above `+` and `-`, and `^` above both |
| ParserPrecedence.HigherLeftGroupsFirst | js/parser.js:136-175 | for any printed operands, `x op1 y op2 z` with `op1` of a higher level than `op2` parses as `(x op1 y) op2 z` |
| ParserPrecedence.SignTakesFirstPowerOperand | js/parser.js:164-187 | for any printed operands, a sign before a `^` chain applies to its first operand only: `-x ^ y ^ z` parses as `((-x) ^ y) ^ z`, and `-x ^ y` as `(-x) ^ y` |
| ParserNames.ParseNames | js/parser.js:127-251 | every function name in a parsed tree is the word of a keyword token of the input, and neither `pi` nor `e` |
| ParserNames.LexedNamesAreKeywords | js/parser.js:59-63 | a tree parsed from lexed tokens calls only sin, cos, tan, sqrt, log, ln and `if` |
| Bytecode.FunctionOpcode | js/parser.js:342-350 | a function name has an opcode exactly when it is one of sin, cos, tan, sqrt, log, ln |
| Bytecode.Compile | js/parser.js:294-356 | compiling succeeds exactly when every function name in the tree is one of the six known ones; otherwise the error names a function of the tree that is not known |
| Machine.Declare | js/parser.js:263-265 | declaring a name adds it (or overwrites it) with the given value, and every other name keeps its value |
| Machine.Lookup | js/parser.js:267-272 | a lookup succeeds exactly for a declared name and yields its value; otherwise it reports that name as undefined |
| Machine.LookupAsWritten | js/parser.js:267-272 | for any name an object does not inherit, the lookup as written agrees with `Lookup` |
| Machine.ConstructorLooksDeclared | js/parser.js:267-272 | with no variable called `constructor`, the lookup as written finds one and yields `undefined`, where `Lookup` reports it undefined |
| Machine.Binary | js/parser.js:389-425 | a two-operand opcode fails only for DIV by zero, and then with the division-by-zero error |
| Machine.Unary | js/parser.js:427-476 | SQRT fails exactly on a negative operand, LOG and LN exactly on a non-positive one, and NEG, SIN, COS, TAN never fail |
| Machine.Produced | js/parser.js:379-488 | the value an opcode produces: LOAD succeeds exactly for a declared name, STORE yields the top of the stack, and the DIV, SQRT, LOG and LN failures are the ones of the source |
| Machine.Exec | js/parser.js:379-493 | an opcode fails with underflow exactly when the stack holds fewer values than it takes; otherwise it replaces its operands by one value and leaves everything below them alone; only STORE changes the variables, declaring the name with the top of the stack |
| Machine.RunProgram | js/parser.js:367-377 | the run succeeds exactly when every opcode succeeds and exactly one value is left, which is the result |
| Semantics.ApplyBinary | js/parser.js:389-425 | the reference arithmetic fails only on division by zero |
| Semantics.ApplyFunction | js/parser.js:433-476 | the reference functions: sqrt fails exactly below zero, log and ln exactly at or below zero, and sin, cos, tan never fail; only the six known names succeed |
| Semantics.Eval | js/parser.js:312-351 | after a successful evaluation the variables are the old ones plus exactly the names the tree assigns; every other name keeps its value; an assignment's value is what it stores; every function name of the tree is a known one |
| CompilerCorrectness.RunAppend | js/parser.js:367-370 | running two pieces of code one after the other is running their concatenation |
| CompilerCorrectness.ExecOnTop | js/parser.js:379-493 | an opcode whose operands sit on top of a stack leaves the rest of that stack untouched and puts its value on top |
| CompilerCorrectness.UnaryCorrect | js/parser.js:326-332 | the code of a signed expression pushes the operand's value, negated for '-' and unchanged for '+' |
| CompilerCorrectness.AssignmentCorrect | js/parser.js:334-337 | the code of an assignment pushes the value and declares the name with it |
| CompilerCorrectness.FunctionCorrect | js/parser.js:339-351 | the code of a function call pushes the function of the argument's value, or fails as the function does |
| CompilerCorrectness.BinaryCorrect | js/parser.js:312-324 | the code of a binary node runs the left operand, then the right one against the variables the left one left, and pushes the combined value |
| CompilerCorrectness.CompileCorrect | js/parser.js:294-493 | on any starting stack, compiled code leaves that stack untouched and pushes exactly the value the direct left-to-right evaluation gives, with the same variables, or fails with the same error |
| CompilerCorrectness.ProgramCorrect | js/parser.js:367-377 | on a fresh stack, compiled code returns what direct evaluation returns; the "Invalid expression" check never fires |
| Calculation.Lower | js/calculator.js:18-26 | lower-casing keeps the length and lowers each character on its own |
| Calculation.CommandOf | js/calculator.js:18-28 | an input is the history, clear or end-session command exactly when its lower-cased form is "history", "clear", or "exit"/"end" |
| Calculation.CommandIgnoresCase | js/calculator.js:18-28 | whether an input is a command, and which one, does not depend on the case it was typed in |
| Calculation.Evaluate | js/calculator.js:30-45 | a successful run keeps every variable the calculator had; a failure is never a stack-shape error |
| Calculation.EvaluateMeansEval | js/calculator.js:30-45 | the pipeline gives the lexer's or parser's error if there is one; otherwise it gives the direct evaluation of the parsed tree, unless the tree calls a function with no opcode |
| Calculation.OnlyIfFailsToCompile | js/calculator.js:30-45 | when an input line parses, the only function the compiler can reject in it is `if` |
| Calculation.Calculate | js/calculator.js:15-56 | a command word answers with its message and changes nothing; a failure changes nothing; a success keeps every old variable; the history is never touched |
| Calculation.CalculateCommits | js/calculator.js:36-50 | a calculation succeeds exactly when the tree's functions are known and it evaluates; then the variables become those of the direct evaluation: the old names plus the assigned ones, and every other name keeps its value |
| Calculation.AddToHistory | js/calculator.js:63-67 | a record is appended exactly when the history is empty or its last expression differs; otherwise nothing changes; either way the last record then has this expression |
| Calculation.AddKeepsAdjacentDistinct | js/calculator.js:63-67 | adding never puts two records with the same expression next to each other |
| Calculation.AddTwiceIsAddOnce | js/calculator.js:63-67 | entering the same expression twice in a row records it once, with the first result |
| Calculation.SetHistory | js/calculator.js:88-90 | the history becomes a copy of the given array, or empty for anything that is not an array; the variables stay |
| Calculation.ClearHistory | js/calculator.js:72-74 | the history becomes empty and the variables stay |
| Calculation.ClearVariables | js/calculator.js:95-97 | the variables become empty and the history stays |
| Calculation.ClearedVariablesAreUndefined | js/calculator.js:95-97 | after clearing, every variable reference fails as undefined |
| Storage.Load | js/storage.js:14-33 | the loaded profiles always include "default"; a saved map is kept with "default" added; the saved current name is taken unless the map failed to parse; the result is valid exactly when the current name is "default" or a saved profile |
| Storage.LoadTrustsSavedCurrent | js/storage.js:21-24 | a saved current name with no profile is loaded into a state where the current name has no profile |
| Storage.Names | js/storage.js:51-53 | the names are exactly the profiles, and in a valid state they include "default" and the current name |
| Storage.HistoryOf | js/storage.js:60-62 | a profile's saved history, or an empty one for a name with no profile |
| Storage.SetHistory | js/storage.js:69-72 | the profile `name` holds exactly the given history afterwards, created if needed; every other profile and the current name stay; the invariant is kept |
| Storage.SetThenGetHistory | js/storage.js:60-72 | a history that was set is read back, and every other profile reads as before |
| Storage.Create | js/storage.js:79-88 | creating succeeds exactly for a non-empty name with no profile; it then adds an empty profile and makes it current; a refusal changes nothing; the invariant is kept |
| Storage.Delete | js/storage.js:95-108 | deleting succeeds exactly for an existing profile other than "default"; it removes only that profile, and falls back to "default" if that profile was current; the invariant is kept |
| Storage.SetCurrent | js/storage.js:115-123 | switching succeeds exactly for an existing profile; the profiles never change; the invariant is kept |
| Storage.CreateThenDelete | js/storage.js:79-108 | creating a profile and deleting it restores the profiles, with "default" current |
| Storage.CreateAsWritten | js/storage.js:79-88 | for a name an object does not inherit, creating as written agrees with `Create` |
| Storage.DeleteAsWritten | js/storage.js:95-108 | for a name an object does not inherit, deleting as written agrees with `Delete` |
| Storage.SetCurrentAsWritten | js/storage.js:115-123 | for a name an object does not inherit, switching as written agrees with `SetCurrent` |
| Storage.CreateConstructorRefused | js/storage.js:79-88 | a new profile called "constructor" is refused as written, though `Create` accepts it |
| Storage.SetCurrentToStringBreaksInvariant | js/storage.js:115-123 | switching to "toString" succeeds as written and leaves a current name with no profile; `SetCurrent` refuses it |
| Storage.DeleteToStringReportsSuccess | js/storage.js:95-108 | deleting "toString" reports success as written though no profile is removed; `Delete` refuses it |
| Quirks.PowerFoldsLeft | js/parser.js:164-175 | for any three numbers, `a ^ b ^ c` parses as `(a ^ b) ^ c` |
| Quirks.SignBindsTighter | js/parser.js:177-187 | for any two numbers, `- a ^ b` parses as `(-a) ^ b` |
| Quirks.PowerFoldsLeftInText | js/parser.js:164-175 | the input line `2^3^2` is lexed and parsed as `(2^3)^2` |
| Quirks.SignBindsTighterInText | js/parser.js:177-187 | the input line `-2^2` is lexed and parsed as `(-2)^2` |
| Quirks.TrailingTokensIgnored | js/parser.js:127-129 | `2 3` and `2 == 3` both parse as `2`, without an error |
| Quirks.DoubleEqualsIsNotAssignment | js/parser.js:204-211 | `x == 3` parses as the variable `x` |
| Quirks.IfParsesThenFailsToCompile | js/parser.js:214-236 | `if(1)` parses as a call of `if`, which the compiler rejects as an unknown function |
| Quirks.FunctionNeedsParen | js/parser.js:223-226 | `sin 1` is refused for the missing '(' |
| Quirks.EmptyInput | js/parser.js:190-192 | no tokens is an unexpected end of input |
| Quirks.DoubleDotRejected | js/parser.js:41-44 | `1..2` is an invalid number |
| Quirks.NotEqualsRejected | js/parser.js:85-104 | `a!=b` fails on the character '!' |
| Quirks.NestedTree | js/parser.js:204-211 | the input line `y=(x=3)+1` is lexed and parsed as `y = ((x = 3) + 1)`: the parenthesised assignment is the left operand of `+` |
| Quirks.NestedValue | js/parser.js:333-336 | for any numbers a and b, `y = ((x = a) + b)` on no variables is `a + b`, and sets x to `a` and y to `a + b` |
| Quirks.NestedAssignment | js/calculator.js:30-45 | evaluating the input line `y=(x=3)+1` with no variables gives 3 + 1, and sets x to 3 and y to 3 + 1, with 3 and 1 as `parseFloat` reads them |
| Quirks.ChainedTree | js/parser.js:204-211 | the input line `x=y=5` is lexed and parsed as `x = (y = 5)` |
| Quirks.EvaluateChained | js/parser.js:333-336 | any line read as `x = (y = a)` evaluates, on any variables, to `a`, sets both x and y to `a`, and keeps the other variables |
| Quirks.ChainedAssignmentInText | js/calculator.js:30-45 | evaluating the input line `x=y=5` with no variables gives 5 and sets both x and y to 5, with 5 as `parseFloat` reads it |
| Quirks.LeftOperandFirst | js/parser.js:312-314 | for the tree of `x + (x=v)` with x = a, the value is a + v and x ends as v: the left operand is read before the right one assigns |
| Quirks.FailedAssignmentCommitsNothing | js/parser.js:410-415 | the tree of `x = n/0` fails with division by zero on any variables, so there is nothing to commit |

## Left out

- The browser side: the DOM, ui.js, utils.js and main.js are not part of this model.
- `saveCalculators` and the `localStorage` reads and writes: the profiles live in memory; what the constructor would read is the argument of `Storage.Load`.
- Floating point: numbers are reals, so NaN, the infinities and -0 are not represented, and neither is rounding.
- The host's numeric functions (`parseFloat`, `Math.pow`, `Math.sin`, `Math.cos`, `Math.tan`, `Math.sqrt`, `Math.log10`, `Math.log`): they are uninterpreted parameters. `Math.PI` and `Math.E` are the decimal constants that denote them.
- The VM's `POP` opcode and its "Unknown operation" error: the compiler never emits them.
- The compiler's "Unknown operator" and "Unknown AST node type" errors: the parser only builds the five operators and the seven node kinds, which the datatypes make closed.
- The `symbolTable` argument of `generateBytecode`: it is passed along but never read.
- Error message texts and the "Calculation error: " prefix: errors are constructors of `Errors.Error`.
- The `Token.toString` text inside the "Unexpected token" message: `UnexpectedToken` keeps the token's text only.
- `getHistory` and `getCurrentCalculator`: plain field reads of `Calculator` and `Profiles`.
- Parser.Term: its own contract states only progress and the error kind. Precedence is stated by `ParserPrecedence.HigherRightGroupsFirst` and `HigherLeftGroupsFirst` for two operators with any printed operands, and left grouping within a level by `ParserGrouping.ChainsFoldLeft`. Longer mixed chains are not stated in general.
- Parser.Factor: as for `Parser.Term`; precedence against `+`, `-` and `^` is stated by the `ParserPrecedence` lemmas.
- Parser.Atom: its own contract states only progress and the error kind. That an assignment's value, a function's argument and a group are read as a whole expression is stated by the `ParserNesting` lemmas, for any printed chain of one precedence level; values that mix levels are not stated in general. Its failures are stated by the `ParserErrors` lemmas: the missing ')' after an argument or a group (for printed one-level chains), the missing '(' after any function keyword, and an unexpected end of input.
- Parser.Unary: its own contract states only progress. That a sign takes only the first operand of a `^` chain is stated by `ParserPrecedence.SignTakesFirstPowerOperand`.
- Machine.Exec: an opcode short of operands fails with `StackUnderflow`, where the source pops `undefined` and computes NaN; likewise a STORE on an empty stack fails here, where the source stores `undefined`. Compiled code never does either (`CompilerCorrectness.CompileCorrect`).
- Lexer.Tokenize: a NUMBER token keeps its text beside its value, which the source drops; the parser reads only the value. Its own contract does not state the longest-match rule or the converse of its error clause; `Lexer.LeadingToken`, `Lexer.ManyDotsRejected` and `Lexer.ManyDotsRejectedAfter` do.
- Calculation.Lower: lowers A-Z only. The command words contain no 'k', and the Kelvin sign is the only non-ASCII character whose lower case is ASCII, so the command comparisons come out as with full Unicode lower-casing.
- Storage.Names: a set; the order `Object.keys` lists the names in is not modelled.
- Storage.HistoryOf: for a name an object inherits, such as "toString", the source returns the inherited member instead of an array; the model returns an empty history.
- Storage.Load: a saved map whose values are not arrays, or saved JSON that is not an object (a number, `null`), is not modelled. Such a store makes the source keep a non-array profile or throw outside its `try`.
- Storage.SetHistory: the name `__proto__` is an ordinary key here, where the source's assignment replaces the object's prototype.
- The lookup as written (`Machine.LookupAsWritten`) is only used to state the finding below; the machine, and so the whole pipeline, uses the corrected `Machine.Lookup`.

## Findings

The source tests membership on plain objects (`{}`) with `in` or by truthiness. Both also see the members every object inherits, such as `constructor` and `toString`. The "as written" functions keep that behaviour. The rest of the model uses the corrected functions, which test own keys only.

| source | as written | input that shows it | evidently intended | confidence | as-written member | corrected member |
|---|---|---|---|---|---|---|
| js/parser.js:267-272 | `lookup` tests `name in this.symbols`, which is true for inherited names, and then returns `.value` of the inherited member | evaluating `constructor` with no such variable | an "Undefined variable: constructor" error | high; not executed | Machine.ConstructorLooksDeclared | Machine.Lookup |
| js/storage.js:79-88 | `createCalculator` refuses when `this.calculators[name]` is truthy, which an inherited member is | `createCalculator("constructor")` on profiles without it | a new, empty profile called "constructor" | high; not executed | Storage.CreateConstructorRefused | Storage.Create |
| js/storage.js:115-123 | `setCurrentCalculator` accepts any truthy `this.calculators[name]` | `setCurrentCalculator("toString")` | refused, since there is no such profile; as written the current name then has no profile | high; not executed | Storage.SetCurrentToStringBreaksInvariant | Storage.SetCurrent |
| js/storage.js:95-108 | `deleteCalculator` proceeds when `this.calculators[name]` is truthy, and `delete` of an inherited member does nothing | `deleteCalculator("toString")` | refused, returning false; as written it returns true and removes nothing | high; not executed | Storage.DeleteToStringReportsSuccess | Storage.Delete |
