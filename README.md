# risp in Dafny

A model of the interpreter core of risp, a small Lisp written in Rust, with
proofs about that model. The model covers two interpreters.

**The live pipeline.** Source text is lexed into tokens (`Lexer::next`).
The tokens are parsed into an AST by a recursive-descent parser
(`parse_exprs`, `parse_expr`, `parse_list`, `parse_atom`). `to_ast` wires
the two together. The AST is evaluated by the `vm` interpreter against a
symbol table. The table holds the native functions, the special forms of
`stdlib/macros.rs` (`set`, `block`, `if`, `while`) and the two booleans.
Values carry `repr`, `display`, and the binary operators of `vm/types.rs`.

**The runtime snapshot.** `src/risp/runtime/` is an uncompiled second
interpreter. Its values are `WrappedType`, and each type has its own
operator methods (`add`, `radd`, `eq`, ...). An operator step first asks
the left operand. When that answers `None`, it asks the right operand's
reflected method. Its special forms are `set`, `list`, `block` and `if`.

Each stateful entity of the source is a Dafny `class` whose methods are
proved to follow a pure specification function:

- `Lexer.Next` follows `LexAt`;
- `Parser.ParseExpr` follows `ParseExprF`;
- `Interpreter.Eval` follows `EvalF`.

Lemmas then prove what the source promises about those functions.

Modules, one per file:

| file | module | source |
|---|---|---|
| wrappers.dfy | `Wrappers` | `Result`/`Option` as used by `?` |
| shared.dfy | `Shared` | `Op` from `src/risp/shared.rs`, `ErrorKind` from `src/risp/vm/mod.rs` |
| rust_int.dfy | `RustInt` | `i32` checked arithmetic |
| numerals.dfy | `Numerals` | `i32::to_string` and `str::parse::<i32>` |
| token.dfy | `AstToken` | `src/risp/ast/token.rs` |
| ast.dfy | `Ast` | `AstNode` and `SyntaxError` from `src/risp/ast/mod.rs` |
| lexer.dfy | `AstLexer` | `src/risp/ast/lexer.rs` |
| parser.dfy | `AstParser` | `src/risp/ast/parser.rs` |
| risp.dfy | `Risp` | `to_ast` in `src/risp.rs` |
| vm_types.dfy | `VmTypes` | `src/risp/vm/types.rs` |
| vm_interpreter.dfy | `VmInterpreter` | `src/risp/vm/interpreter.rs`, `src/risp/stdlib/macros.rs` |
| vm_properties.dfy | `VmProperties` | lemmas about the `vm` interpreter |
| runtime_types.dfy | `RuntimeTypes` | `src/risp/runtime/types.rs`, `types/num.rs`, `types/misc.rs` |
| runtime_interpreter.dfy | `RuntimeInterpreter` | `src/risp/runtime/interpreter.rs`, `src/risp/runtime/macros.rs` |
| runtime_properties.dfy | `RuntimeProperties` | lemmas about the runtime interpreter |

Where the code behaves differently from what its comments or documentation
suggest, the model follows the code. The differences are:

- **Final atom dropped.** `parse_exprs` stops as soon as the lexer reports
  end of input. At that point only the lookahead token has been lexed, and
  it has not been parsed yet. So a final expression that is a single token
  (an atom) ending exactly at the end of the text is lost: `"5"` parses to
  no expressions, while `"5 "` parses to `[Int(5)]`
  (`AstParser.TrailingTokenDropped`). A final list such as `(1)` is kept,
  because its closing `)` is parsed before end of input is reported.
- **Swapped retry in the `vm`.** `binary_op` retries with the operands
  swapped under the same operator. So `(- 1 true)` is computed as
  `true - 1`.
- **Comparisons differ between the interpreters.** In the `vm`, a
  comparison chain is the AND of all adjacent pairs. In the runtime, the
  loop overwrites its result with each pair, so only the last pair counts:
  `(< 3 1 2)` is `true`.
- **`set` never binds in the `vm`.** `set` is registered as a native
  function, so its arguments are evaluated first, and no evaluation
  produces a `Symbol`. A `set` therefore fails with its argument's own
  error (an unbound name such as the `x` of `(set x 5)` is a NameError,
  `VmProperties.SetUnboundArgument`), with "expected 2 arguments, found n",
  or with "first argument must be a name" (`VmProperties.SetNonSymbol`).
  No evaluation ever changes the symbol table
  (`VmProperties.EvalKeepsFrame`).
- **`while` body includes the condition.** The `vm`'s `while` runs `block`
  over all of its arguments, including the condition, on every round.
- **Runtime `set` typo and panic.** The error text reads "first argument
  must eb a name". The value's evaluation is `unwrap`ped, so an evaluation
  error there is a panic rather than a returned error.

## Model

| member | source | states |
|---|---|---|
| AstToken.Span.Range | src/risp/ast/token.rs:18-20 | the range has `end - start` positions (none when empty), the i-th being `start + i` |
| AstToken.KindNameInjective | src/risp/ast/token.rs:25-44 | two token kinds print the same `Debug` name exactly when they are the same kind |
| AstToken.Content | src/risp/ast/parser.rs:49 | slicing the source by a token's span yields `end - start` characters, the i-th being the source at the span's i-th position |
| Shared.OpTextInjective | src/risp/shared.rs:2-10 | two operators print the same text exactly when they are the same operator |
| Shared.RepeatNat | src/risp/vm/types.rs:104-108 | repeating `a` n times is n times as long as `a`, starts with `a`, and repeats with the length of `a` as its period |
| RustInt.TruncDiv | src/risp/runtime/types/num.rs:42-48 | `i32` division rounds toward zero: the magnitude is the quotient of the magnitudes, and the sign is negative exactly when the operand signs differ |
| RustInt.Arith | src/risp/runtime/types/num.rs:18-48 | checked `i32` arithmetic: division by zero gives "attempt to divide by zero"; otherwise success exactly when the exact result fits in `i32`, and then equals it |
| RustInt.DivOverflowOnlyAtMin | src/risp/runtime/types/num.rs:42-48 | the only non-zero division that overflows is `i32::MIN / -1` |
| Numerals.DigitChar | src/risp/vm/types.rs:52 | a decimal digit's character is a digit |
| Numerals.DigitValue | src/risp/ast/parser.rs:58 | a digit character's value is below 10 |
| Numerals.NatToString | src/risp/vm/types.rs:52 | a natural's decimal text is non-empty, all digits, and has no leading zero |
| Numerals.ParseInt | src/risp/ast/parser.rs:58 | parsing succeeds exactly on an optional sign followed by one or more digits |
| Numerals.DigitsOfNat | src/risp/vm/types.rs:52 | the digits of a natural's text read back as that natural |
| Numerals.ParseDigits | src/risp/ast/parser.rs:58 | a digit string, with or without a leading `-`, parses to its value or its negation |
| Numerals.ParseIntOfString | src/risp/vm/types.rs:52 | an integer's text parses back to the same integer (round trip) |
| AstLexer.MunchEnd | src/risp/ast/lexer.rs:57-74 | the end of the longest run from `i` whose characters satisfy the predicate |
| AstLexer.LexAt | src/risp/ast/lexer.rs:80-181 | a lexing step never moves backwards and stays in bounds; it stays put exactly at end of input; a token's span lies between the start and the new position; EOF is the empty span at the end |
| AstLexer.LexEof | src/risp/ast/lexer.rs:100-102 | at end of input the lexer returns EOF with the empty span and does not move |
| AstLexer.LexSkipsWhitespace | src/risp/ast/lexer.rs:105-108 | leading whitespace is skipped as a whole run, and lexing from its end gives the same result |
| AstLexer.LexConsumes | src/risp/ast/lexer.rs:80-181 | a token starts after whitespace only; a non-EOF token starts at a non-whitespace character; every token except a string ends where the lexer stops |
| AstLexer.IntTokenText | src/risp/ast/lexer.rs:111-123 | an Int token's text is an optional sign and digits, followed by neither a digit nor a `.` |
| AstLexer.FloatTokenText | src/risp/ast/lexer.rs:111-123 | a Float token's text is an optional sign, digits, a `.` and digits, followed by no digit |
| AstLexer.UnsignedFloat | src/risp/ast/lexer.rs:111-123 | lexing at a digit yields an unsigned Int or Float spanning exactly the consumed text |
| AstLexer.NameTokenText | src/risp/ast/lexer.rs:127-130 | a Name token is a name-start character and then name characters, as long as possible |
| AstLexer.OperatorTokenText | src/risp/ast/lexer.rs:134-146 | an Operator token is one character from `+-*/=><` |
| AstLexer.SignFolds | src/risp/ast/lexer.rs:134-146 | a sign directly before a digit is folded into the number, and the span starts at the sign |
| AstLexer.SignAlone | src/risp/ast/lexer.rs:134-146 | a sign not followed by a digit is a one-character operator |
| AstLexer.StringTokenText | src/risp/ast/lexer.rs:151-157 | a String token's span excludes the quotes and holds no `"`; the lexer stops after the closing quote, or at end of input |
| AstLexer.UnterminatedString | src/risp/ast/lexer.rs:151-157 | an unterminated string runs to the end of input without an error |
| AstLexer.SingleCharTokens | src/risp/ast/lexer.rs:160-177 | `(`, `)`, `'` and `*/><=` are one-character tokens, and any other character `c` is the error "did not expect character 'c'" |
| AstLexer.Lexer.constructor | src/risp/ast/lexer.rs:16-21 | a new lexer is at position 0 of its source |
| AstLexer.Lexer.CurrentChar | src/risp/ast/lexer.rs:26-28 | the character at the position, or `'\0'` at end of input |
| AstLexer.Lexer.Eof | src/risp/ast/lexer.rs:33-35 | true exactly when the position is at the end of the source |
| AstLexer.Lexer.Adv | src/risp/ast/lexer.rs:39-44 | moves one character forward, except at end of input |
| AstLexer.Lexer.TakeWhile | src/risp/ast/lexer.rs:57-74 | moves to `MunchEnd` and returns the span of the run it passed |
| AstLexer.Lexer.Number | src/risp/ast/lexer.rs:111-123 | consumes a number from a digit, exactly as `LexAt` specifies |
| AstLexer.Lexer.Quoted | src/risp/ast/lexer.rs:151-157 | consumes a string from its opening quote, exactly as `LexAt` specifies |
| AstLexer.Lexer.Next | src/risp/ast/lexer.rs:80-181 | the token (or error) and the new position are those of `LexAt` |
| AstParser.AdvanceF | src/risp/ast/parser.rs:28-31 | advancing never moves back, and strictly shrinks the remaining input when not at EOF |
| AstParser.ExpectF | src/risp/ast/parser.rs:35-41 | when the kind matches, the step is an advance; otherwise the error is "expected K, found J" and the parser does not move |
| AstParser.ParseAtomF | src/risp/ast/parser.rs:45-106 | a successful atom consumes input |
| AstParser.ParseListF | src/risp/ast/parser.rs:110-128 | a successful list consumes input |
| AstParser.ListLoopF | src/risp/ast/parser.rs:110-128 | a successful list consumes input and extends what was already collected |
| AstParser.ParseExprF | src/risp/ast/parser.rs:131-142 | a successful expression consumes input |
| AstParser.ParseExprsF | src/risp/ast/parser.rs:145-153 | a successful program ends at end of input and extends what was already collected |
| AstParser.OperatorOfText | src/risp/ast/parser.rs:67-83 | the operator read from a text is the one whose text it is |
| AstParser.AtomStep | src/risp/ast/parser.rs:45-64 | an atom is the node built from the current token's text, in the state after one advance |
| AstParser.IntAtom | src/risp/ast/parser.rs:58 | an Int token's text parses; the node exists exactly when the value fits in `i32`, and then carries it; otherwise `unwrap` panics with "called `Result::unwrap()` on an `Err` value" |
| AstParser.FloatAtom | src/risp/ast/parser.rs:59 | a Float token becomes a float literal of its text, which has float shape |
| AstParser.StringAtom | src/risp/ast/parser.rs:64 | a String token becomes a string node of its quote-free text |
| AstParser.NameAtom | src/risp/ast/parser.rs:99-102 | a Name token becomes a name node of its non-empty text |
| AstParser.OperatorAtom | src/risp/ast/parser.rs:67-83 | an Operator token always becomes the operator whose text it is, so the unreachable arm is never taken |
| AstParser.OperatorOfChar | src/risp/ast/parser.rs:67-83 | each of `+-*/=><` names an operator with that text |
| AstParser.QuoteRule | src/risp/ast/parser.rs:89-96 | `'` before a list gives a List node of its elements; before a name, a Symbol; before anything else, "cannot quote"; errors pass through |
| AstParser.NoExpressionAtCloseOrEof | src/risp/ast/parser.rs:45-106 | an expression cannot start at `)` (`UnexpectedToken(CloseParen)`, "unexpected CloseParen while parsing atom") or at EOF (`UnexpectedEof`, "unexpected EOF while parsing atom") |
| AstParser.UnclosedList | src/risp/ast/parser.rs:110-128 | a list still open at EOF fails with "expected CloseParen, found EOF" |
| AstParser.MunchTo | src/risp/ast/lexer.rs:57-74 | any end that satisfies the run conditions is the one `MunchEnd` computes |
| AstParser.LexIntText | src/risp/ast/lexer.rs:111-123 | an integer's text followed by the end of input or by a character that is neither a digit nor `.` lexes as one Int token covering exactly that text |
| AstParser.TrailingTokenDropped | src/risp/ast/parser.rs:145-153 | a program that is just an integer parses to nothing, and with a trailing space to that integer |
| AstParser.Parser.Init | src/risp/ast/parser.rs:19-23 | a parser holds the given lexer, current token and source text |
| AstParser.Parser.New | src/risp/ast/parser.rs:18-24 | creating a parser lexes the first token: it fails exactly when that token is an error, and otherwise holds it |
| AstParser.Parser.Advance | src/risp/ast/parser.rs:28-31 | result and new state are those of `AdvanceF` |
| AstParser.Parser.Expect | src/risp/ast/parser.rs:35-41 | result and new state are those of `ExpectF` |
| AstParser.Parser.ParseAtom | src/risp/ast/parser.rs:45-106 | result and new state are those of `ParseAtomF` |
| AstParser.Parser.ParseList | src/risp/ast/parser.rs:110-128 | result and new state are those of `ParseListF` |
| AstParser.Parser.ParseExpr | src/risp/ast/parser.rs:131-142 | result and new state are those of `ParseExprF` |
| AstParser.Parser.ParseExprs | src/risp/ast/parser.rs:145-153 | result and new state are those of `ParseExprsF` from an empty program |
| Risp.ToAst | src/risp.rs:10-15 | the program is what parsing the whole text yields |
| VmTypes.TypeNameDistinct | src/risp/vm/types.rs:34-48 | two values have the same type name exactly when they have the same variant |
| VmTypes.ReprReadsBack | src/risp/vm/types.rs:50-72 | an integer's repr parses back to it, and an operator's repr names exactly that operator |
| VmTypes.Repeat | src/risp/vm/types.rs:104-108 | `str * n` is n times as long as `s`, starts with `s` and repeats with the length of `s` as its period; a negative count panics "capacity overflow" unless the string is empty |
| VmTypes.IntStep | src/risp/vm/types.rs:96 | comparing integers gives a bool, and integer arithmetic gives an int |
| VmTypes.FloatStep | src/risp/vm/types.rs:98 | comparing floats gives a bool, and float arithmetic gives a float |
| VmTypes.OnesideDomain | src/risp/vm/types.rs:78-117 | one-sided application is unsupported exactly outside (int/bool/float op int), (str + str) and (str * int); comparisons give bools; arithmetic keeps the left numeric type; strings give strings; other errors are panics |
| VmTypes.RelationalYieldsBool | src/risp/vm/types.rs:119-124 | a comparison that succeeds gives a bool |
| VmTypes.MixedOperandsSwap | src/risp/vm/types.rs:119-124 | with an int on the left and a bool, float or str on the right, the retry computes `other op int` with the operands swapped |
| VmTypes.IntArithmetic | src/risp/vm/types.rs:96 | int arithmetic succeeds exactly when the exact result fits in `i32` (for division: divisor non-zero and not `MIN / -1`, rounding toward zero), and its errors are panics |
| VmTypes.BinaryOpUnsupported | src/risp/vm/types.rs:119-124 | `binary_op` is unsupported exactly when both orders are |
| VmInterpreter.DefaultFrame | src/risp/vm/interpreter.rs:23-37 | the initial table binds exactly `println`, `print`, `input` and `set` to their native functions, `block`, `if` and `while` to their macros, and `true` and `false` to the booleans |
| VmInterpreter.GetNameF | src/risp/vm/interpreter.rs:42-47 | lookup succeeds exactly for bound names and returns the binding; otherwise NameError "X is not defined" |
| VmInterpreter.SetThenGet | src/risp/vm/interpreter.rs:52-54 | after binding a name, looking it up gives the new value and other names are unchanged |
| VmInterpreter.Collapse | src/risp/vm/interpreter.rs:57-74 | no values give null, one value itself, several a list of them |
| VmInterpreter.Interpreter.constructor | src/risp/vm/interpreter.rs:23-37 | a new interpreter starts from the default table |
| VmInterpreter.Interpreter.GetName | src/risp/vm/interpreter.rs:42-47 | returns `GetNameF` of the current table |
| VmInterpreter.Interpreter.SetName | src/risp/vm/interpreter.rs:52-54 | the table is the old one with the name rebound |
| VmInterpreter.Interpreter.CallRustFn | src/risp/vm/interpreter.rs:57-74 | result and new table are those of `CallRustFnF` |
| VmInterpreter.Interpreter.CallOperator | src/risp/vm/interpreter.rs:84-108 | returns `CallOperatorF` |
| VmInterpreter.Interpreter.CallBooleanOp | src/risp/vm/interpreter.rs:115-131 | returns `CallOperatorF` for a comparison |
| VmInterpreter.Interpreter.Eval | src/risp/vm/interpreter.rs:134-178 | result and new table are those of `EvalF` |
| VmInterpreter.CallNative | src/risp/stdlib/macros.rs:14-29 | result and new table are those of `NativeF` |
| VmInterpreter.CallMacro | src/risp/vm/interpreter.rs:171-175 | result and new table are those of `MacroF` |
| VmInterpreter.Block | src/risp/stdlib/macros.rs:31-38 | result and new table are those of `BlockF` |
| VmInterpreter.IfElse | src/risp/stdlib/macros.rs:40-61 | result and new table are those of `IfF` |
| VmInterpreter.WhileLoop | src/risp/stdlib/macros.rs:63-76 | result and new table are those of the `while` macro |
| VmInterpreter.WhileRound | src/risp/stdlib/macros.rs:63-76 | one round either leaves the loop with the loop's result, or runs the body and leaves the rest of the loop equal to the whole |
| VmProperties.IntChain | src/risp/vm/interpreter.rs:115-131 | over integers, the chain is the initial flag AND the relation on every adjacent pair |
| VmProperties.IntComparison | src/risp/vm/interpreter.rs:115-131 | an integer comparison is true exactly when every adjacent pair is related |
| VmProperties.ArithmeticExamples | src/risp/vm/interpreter.rs:84-108 | `(+ 1 2 3 4)` is 10, `(- 10 1 2)` is 7, `(/ 7 -2)` is -3; `(+)` is "expected at least 1 argument"; `(<)` is true |
| VmProperties.ArgsCons | src/risp/vm/interpreter.rs:165-168 | an argument that evaluates to a value without effect is appended and the rest continues |
| VmProperties.SumArgs | src/risp/vm/interpreter.rs:165-168 | integer literals evaluate to themselves as arguments |
| VmProperties.EvalSum | src/risp/vm/interpreter.rs:134-178 | `(+ 1 2 3 4)` evaluates to 10 in any table |
| VmProperties.ErrorExamples | src/risp/vm/interpreter.rs:134-178 | `()` is "expression is empty", an unbound name is "x is not defined", `(1 2)` is "int is not callable" |
| VmProperties.WhileNeverRuns | src/risp/stdlib/macros.rs:63-76 | a loop whose condition is not `true` returns null after evaluating the condition once |
| VmProperties.IfSelects | src/risp/stdlib/macros.rs:40-61 | `if` evaluates the then-branch exactly when the condition is `true`, else the else-branch or null; `1` is not true |
| VmProperties.SetUnboundArgument | src/risp/vm/interpreter.rs:165-168 | `(set x 5)` from the initial table, with `x` unbound, stops with the NameError "x is not defined" and no binding |
| VmProperties.SetNonSymbol | src/risp/stdlib/macros.rs:14-29 | `(set 1 2)` from the initial table fails with "first argument must be a name" and leaves the table unchanged |
| VmProperties.DefaultFrameSymbolFree | src/risp/vm/interpreter.rs:23-37 | the initial table holds no symbol |
| VmProperties.OperatorNoSymbol | src/risp/vm/types.rs:78-124 | operators never produce a symbol from symbol-free operands |
| VmProperties.FoldNoSymbol | src/risp/vm/interpreter.rs:84-108 | folding an operator from a non-symbol never produces a symbol |
| VmProperties.NativeKeepsFrame | src/risp/stdlib/macros.rs:14-29 | with symbol-free arguments, a native call never changes the table and returns no symbol |
| VmProperties.EvalKeepsFrame | src/risp/vm/interpreter.rs:134-178 | evaluation from a symbol-free table never changes the table, so `set` can never bind |
| VmProperties.ArgsKeepFrame | src/risp/vm/interpreter.rs:165-168 | evaluating arguments never changes a symbol-free table and yields no symbol |
| VmProperties.MacroKeepsFrame | src/risp/stdlib/macros.rs:31-76 | the macros never change a symbol-free table |
| VmProperties.BlockKeepsFrame | src/risp/stdlib/macros.rs:31-38 | `block` never changes a symbol-free table |
| VmProperties.IfKeepsFrame | src/risp/stdlib/macros.rs:40-61 | `if` never changes a symbol-free table |
| VmProperties.WhileKeepsFrame | src/risp/stdlib/macros.rs:63-76 | `while` never changes a symbol-free table |
| VmProperties.EvalFuel | src/risp/vm/interpreter.rs:134-178 | an evaluation that does not run out of loop fuel gives the same outcome with more fuel |
| VmProperties.ArgsFuel | src/risp/vm/interpreter.rs:165-168 | the same for argument lists |
| VmProperties.MacroFuel | src/risp/stdlib/macros.rs:31-76 | the same for the macros |
| VmProperties.BlockFuel | src/risp/stdlib/macros.rs:31-38 | the same for `block` |
| VmProperties.IfFuel | src/risp/stdlib/macros.rs:40-61 | the same for `if` |
| VmProperties.WhileFuel | src/risp/stdlib/macros.rs:63-76 | the same for `while` |
| VmProperties.WhileFuelBody | src/risp/stdlib/macros.rs:63-76 | the same for a `while` round whose condition is `true` |
| RuntimeTypes.TypeNameDistinct | src/risp/runtime/types.rs:89-103 | two values have the same type name exactly when they have the same variant |
| RuntimeTypes.EscapeChar | src/risp/runtime/types/misc.rs:17-19 | a special character escapes to two characters, and any other character to itself |
| RuntimeTypes.EscapePlain | src/risp/runtime/types/misc.rs:17-19 | a string without special characters is unchanged by escaping |
| RuntimeTypes.EscapeLength | src/risp/runtime/types/misc.rs:17-19 | escaping never shortens a string, and lengthens any string with a special character |
| RuntimeTypes.DisplayForwardsToRepr | src/risp/runtime/types.rs:114-116 | a wrapped value displays as its repr: for a string this differs from the string's own display, null displays as empty text while its own display is "Null", and every other type agrees with its own display |
| RuntimeTypes.ReprExamples | src/risp/runtime/types/misc.rs:59-77 | the empty list's repr is `[]`, and `["a", 1, null]` lists each repr followed by `, ` except the last |
| RuntimeTypes.ListRepr | src/risp/runtime/types/misc.rs:59-77 | the loop builds exactly the list's repr |
| RuntimeTypes.ListDisplay | src/risp/runtime/types/misc.rs:79-94 | the loop builds exactly the list's own display |
| RuntimeTypes.ReprOf | src/risp/runtime/types.rs:110-112 | returns the repr of any value, lists included |
| RuntimeTypes.StrRepeat | src/risp/runtime/types/misc.rs:33-47 | `str * n` is n times as long as `s`, starts with `s` and repeats with the length of `s` as its period; a negative count aborts with "capacity overflow" unless the string is empty |
| RuntimeTypes.CycleTakeWhole | src/risp/runtime/types/misc.rs:108-132 | cycling through a list for `n` times its length is the list repeated n times |
| RuntimeTypes.ListRepeat | src/risp/runtime/types/misc.rs:108-132 | `list * n` for `n >= 0` is the list repeated n times; a negative count succeeds only for the empty list |
| RuntimeTypes.PrimaryDomain | src/risp/runtime/types.rs:21-58 | a value's own operator method answers `None` exactly outside the operand pairs its type defines |
| RuntimeTypes.ReflectedDomain | src/risp/runtime/types.rs:21-58 | the same for the reflected methods |
| RuntimeTypes.IntArithmetic | src/risp/runtime/types/num.rs:18-48 | int op int: division by zero aborts; otherwise it is defined exactly when the exact result fits in `i32`, and then equals it, with `MIN / -1` the only division overflow |
| RuntimeTypes.ListConcat | src/risp/runtime/types/misc.rs:100-106 | list + list is the first list followed by the second |
| RuntimeTypes.ListRepeatShape | src/risp/runtime/types/misc.rs:108-132 | list * n is n times as long as `l`, starts with `l`, repeats with the length of `l` as its period, and `n * list` is the same |
| RuntimeTypes.CompareDomain | src/risp/runtime/types/num.rs:50-297 | a comparison answers exactly on the operand pairs its type defines: the Int, Bool and Float methods of `num.rs`, and `=` between two strings or two lists (`eq` in `misc.rs`) |
| RuntimeTypes.EqualReflexive | src/risp/runtime/types/misc.rs:134-139 | every int, bool, string or list of such equals itself |
| RuntimeTypes.ListEqualLength | src/risp/runtime/types/misc.rs:134-139 | lists of different lengths are unequal, and a list compared with a non-list has no answer |
| RuntimeInterpreter.DefaultFrame | src/risp/runtime/interpreter.rs:26-39 | the initial table binds exactly `println`, `print` and `input` to their native functions, `set`, `list`, `block` and `if` to their macros, and `true` and `false` to the booleans |
| RuntimeInterpreter.GetNameF | src/risp/runtime/interpreter.rs:43-48 | lookup succeeds exactly for bound names and returns the binding; otherwise NameError "X is not defined" |
| RuntimeInterpreter.Collapse | src/risp/runtime/interpreter.rs:56-73 | no values give null, one value itself, several a list of them |
| RuntimeInterpreter.Mirror | src/risp/runtime/interpreter.rs:134-139 | the mirrored comparison with swapped operands holds exactly when the original does |
| RuntimeInterpreter.ArgsF | src/risp/runtime/interpreter.rs:194-197 | evaluated arguments keep the values already collected and add one per node |
| RuntimeInterpreter.Interpreter.constructor | src/risp/runtime/interpreter.rs:26-39 | a new interpreter starts from the default table |
| RuntimeInterpreter.Interpreter.GetName | src/risp/runtime/interpreter.rs:43-48 | returns `GetNameF` of the current table |
| RuntimeInterpreter.Interpreter.SetName | src/risp/runtime/interpreter.rs:50-52 | the table is the old one with the name rebound |
| RuntimeInterpreter.Interpreter.CallRustFn | src/risp/runtime/interpreter.rs:56-73 | returns the host's values, collapsed |
| RuntimeInterpreter.Interpreter.CallOperator | src/risp/runtime/interpreter.rs:79-127 | returns `CallOperatorF` |
| RuntimeInterpreter.Interpreter.CallBooleanOp | src/risp/runtime/interpreter.rs:129-168 | returns `CallOperatorF` for a comparison |
| RuntimeInterpreter.Interpreter.Eval | src/risp/runtime/interpreter.rs:170-209 | result and new table are those of `EvalF` |
| RuntimeInterpreter.CallMacro | src/risp/runtime/interpreter.rs:189-191 | result and new table are those of `MacroF` |
| RuntimeInterpreter.SetForm | src/risp/runtime/macros.rs:14-26 | result and new table are those of `SetF` |
| RuntimeInterpreter.ListForm | src/risp/runtime/macros.rs:28-35 | result and new table are those of `ListF` |
| RuntimeInterpreter.Block | src/risp/runtime/macros.rs:37-44 | result and new table are those of `BlockF` |
| RuntimeInterpreter.IfElse | src/risp/runtime/macros.rs:46-66 | result and new table are those of `IfF` |
| RuntimeProperties.WindowsOkTail | src/risp/runtime/interpreter.rs:143-165 | every adjacent pair compares exactly when the first pair does and every pair of the tail does |
| RuntimeProperties.ChainSucceeds | src/risp/runtime/interpreter.rs:143-165 | a comparison chain succeeds exactly when every adjacent pair compares |
| RuntimeProperties.ChainLastWindow | src/risp/runtime/interpreter.rs:143-165 | a successful chain's answer is that of the last pair alone (or the initial flag with fewer than two operands) |
| RuntimeProperties.ChainExamples | src/risp/runtime/interpreter.rs:129-168 | `(= 1 2 2)` and `(< 3 1 2)` are true because only the last pair counts; `(> 3)` is true |
| RuntimeProperties.NumericArithmetic | src/risp/runtime/types/num.rs:18-160 | on ints and bools, an operator step is checked `i32` arithmetic on their numeric values, with its errors as panics |
| RuntimeProperties.NumericComparison | src/risp/runtime/types/num.rs:50-190 | on ints and bools, a comparison is the relation on their numeric values |
| RuntimeProperties.NumericExamples | src/risp/runtime/interpreter.rs:79-127 | `(- 5 true)` is 4, `(/ true 0)` panics "attempt to divide by zero", `(< false true)` is true, `(+ 1 2 3)` is 6 |
| RuntimeProperties.FoldTwo | src/risp/runtime/interpreter.rs:104-124 | folding over one more operand is one operator step |
| RuntimeProperties.OperandTypeError | src/risp/runtime/interpreter.rs:104-124 | an operator step raises exactly when neither the left operand's method nor the right operand's reflected method is defined, and then the error is "invalid operand types for OP: A and B" |
| RuntimeProperties.TypeErrorExamples | src/risp/runtime/interpreter.rs:79-127 | `(+ 1 "a")` and `(- "a" "b")` are operand type errors; `(+)` is "expected at least 1 argument" |
| RuntimeProperties.RepeatEitherSide | src/risp/runtime/types/misc.rs:33-47 | `n * x` equals `x * n` for a string or list `x` |
| RuntimeProperties.ListFold | src/risp/runtime/types/misc.rs:100-106 | adding lists onto a list concatenates them all |
| RuntimeProperties.ListSum | src/risp/runtime/interpreter.rs:79-127 | `(+ l1 l2 ...)` over lists is their concatenation |
| RuntimeProperties.RepeatExamples | src/risp/runtime/types/misc.rs:33-47 | `(* "ab" 2)` is "abab", `(* 2 [1])` is `[1, 1]`, `(* "ab" -1)` panics "capacity overflow" |
| RuntimeProperties.SetBinds | src/risp/runtime/macros.rs:14-26 | `(set name e)` binds the name to e's value in the table e leaves, returns the value, and a lookup then finds it |
| RuntimeProperties.SetErrors | src/risp/runtime/macros.rs:14-26 | a wrong argument count raises without changing the table; a non-name target is "first argument must eb a name"; an evaluation error panics |
| RuntimeProperties.SetThenLookup | src/risp/runtime/macros.rs:14-26 | from the initial table, `(set x 5)` gives 5 and then `x` evaluates to 5 |
| RuntimeProperties.ListLength | src/risp/runtime/macros.rs:28-35 | `(list ...)` gives a list with one element per argument |
| RuntimeProperties.ArgsCons | src/risp/runtime/interpreter.rs:194-197 | an argument that evaluates to a value without effect is appended and the rest continues |
| RuntimeProperties.SumExample | src/risp/runtime/interpreter.rs:170-209 | `(+ 1 2)` evaluates to 3 in any table |
| RuntimeProperties.ListArgsExample | src/risp/runtime/interpreter.rs:194-197 | the arguments `1 "a" (+ 1 2)` evaluate to `[1, "a", 3]` |
| RuntimeProperties.ListExample | src/risp/runtime/macros.rs:28-35 | `(list 1 "a" (+ 1 2))` is the list `[1, "a", 3]` |
| RuntimeProperties.IfSelects | src/risp/runtime/macros.rs:46-66 | `if` evaluates the then-branch exactly when the condition is `true`, else the else-branch or null |
| RuntimeProperties.BlockLast | src/risp/runtime/macros.rs:37-44 | an empty block is null, and a one-expression block is that expression |
| RuntimeProperties.EvalKeepsNames | src/risp/runtime/interpreter.rs:170-209 | evaluation never unbinds a name |
| RuntimeProperties.ArgsKeepNames | src/risp/runtime/interpreter.rs:194-197 | evaluating arguments never unbinds a name |
| RuntimeProperties.MacroKeepsNames | src/risp/runtime/macros.rs:14-66 | the special forms never unbind a name |
| RuntimeProperties.BlockKeepsNames | src/risp/runtime/macros.rs:37-44 | `block` never unbinds a name |

## Left out

- Input and output: `print`, `println` and `input` (`src/risp/stdlib/functions.rs`, and the runtime's copies) call into the terminal. Their results come from the host's `io` function, and what they write is not modelled.
- `f64`: float literals are symbolic terms. Float arithmetic, comparison and formatting come from the host's `FloatHost`, so nothing is proved about float values.
- Debug formatting (`{:?}`) is modelled only where it reaches a message. That covers token kinds, operators, error kinds and AST nodes in "can not be quoted".
- RuntimeTypes.EscapeChar: the runtime's string `repr` escapes only `"`, `\`, newline, carriage return, tab and NUL. Rust's `{:?}` also escapes other control and non-printable characters.
- Ast.NodeDebug: strings inside a node (`Str`, `Name`, `Symbol`) are quoted but not escaped. For `'"a\b"` Rust prints `Str("a\\b") can not be quoted`, while the model keeps one backslash.
- Ast.Message: the character in "did not expect character 'c'" is quoted but not escaped. Rust's `{:?}` of a `char` would escape a single quote, a backslash or a control character.
- VmInterpreter.EvalF: a `while` loop may run forever, so evaluation carries a fuel bound on loop rounds. Running out gives `OutOfFuel`, which the source does not have. The fuel lemmas show that more fuel never changes a finished outcome.
- VmInterpreter.EvalF: requires `NoQuoted`. Neither interpreter's `eval` has an arm for `Symbol` or `List` nodes (a Rust compile error in the source), so quoted nodes are not evaluated.
- RuntimeInterpreter.EvalF: requires `NoQuoted`, for the same reason.
- Panics (overflow, division by zero, `unwrap`, and capacity overflow in `repeat`) are error outcomes with their message. They do not abort a process. The `unwrap` message, in the parser's integer literal and in the runtime `set`, leaves out the debug text of the error: for `99999999999` Rust adds `ParseIntError { kind: PosOverflow }`.
- `usize` overflow in positions and lengths, and allocation failure, are not modelled.
- Positions count characters, not UTF-8 bytes, so spans of non-ASCII text differ from the source's byte offsets.
- `RispFn` values exist in the `vm` value type but are never built, so calling one is not modelled.
- VmInterpreter.NativeF: the `vm`'s native-function signature is inconsistent in the source. `RustFn` at `src/risp/vm/types.rs:23` takes `(&mut Interpreter, Vec<Value>)`, as `set` at `src/risp/stdlib/macros.rs:14` does. `call_rustfn` at `src/risp/vm/interpreter.rs:57-61` takes `fn(Vec<Value>)` and holds only `&self`. The model follows `types.rs:23`, so a native call (`NativeF`, `CallRustFnF`, `CallNative`, `Interpreter.CallRustFn`) may update the symbol table. Under the `call_rustfn` signature, `set` could not reach the table at all.
- The runtime snapshot does not type-check, and its mismatches are not modelled. `src/risp/runtime/interpreter.rs:190` passes a slice `&nodes[1..]` where the macro type takes `Vec<AstNode>`. `src/risp/runtime/macros.rs` passes an owned `AstNode` to `eval`, which borrows one. `src/risp/runtime/rispstd.rs` returns `Result<Vec<Type>, ErrorKind>` where `src/risp/runtime/types/misc.rs:7` expects `Result<List, RuntimeError>`. Each form is modelled with the arguments it actually reads.
- RustInt.Arith: models a debug build, where overflow panics. In a release build, `+`, `-` and `*` on `i32` wrap around instead. Division by zero and `i32::MIN / -1` panic in both builds.
- The older copies in the repository are not part of this model: `src/risp/lexer.rs`, the `astgen` sources and the REPL in `src/main.rs`.
