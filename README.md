# rust-math-parser, modelled in Dafny

A model of the interpreter in `rust-math-parser`, a small scripting language with `let`,
`func`, `if`/`else` and `return`, arithmetic, comparisons, and short-circuit `&&` and `||`. The
model covers the whole pipeline from program text to evaluation:

- **The lexer** (`Lexer`, `LexerProperties`). `TokenParser` runs a character loop over `pos`,
  `line` and `line_pos` and emits a token vector ending in `Eof`. `LexFrom` states the whole
  loop as a function of the cursor, and `TokenParser.Parse` is proved to compute it.
- **The parser** (`Parser`, `ParserProperties`). It is recursive descent with binding-power
  climbing over a token cursor. Each parse routine is a method of the `Parser` class. Each
  method is proved to compute a function `...At(tokens, pos)`: the node and the position after
  it, or the `ParserError`.
- **The scope arena** (`Scopes`). It is a vector of scopes linked by parent index. Every scope
  has a variable map, and lookups walk the parent chain. The execution context also defines
  and looks up functions in scopes, so the model gives every scope a second map for functions,
  with the same discipline.
- **The runtime** (`RuntimeErrors`, `CallStacks`, `ExecutionContexts`). It holds:
  - the function depth and its stack of return slots;
  - the current scope;
  - the frame stack that errors copy;
  - the displayed form of a runtime error.

  `Ctx` is the state of an `ExecutionContext` at one moment, and each method of the class is
  proved to perform the `Ctx` operation of the same name.
- **The evaluator** (`Semantics`, `SemanticsProperties`, `Interpreters`). `Semantics` gives each
  `evaluate_*` routine of `src/interpreter/core.rs` as a function from a node and a context to
  an outcome and the context afterwards. The `Interpreter` class runs the same routines by
  updating its context in place, and each of its methods is proved to agree with the function
  of the same name.
- **The string built-ins** (`StringMethods`): `str_concat` and `to_number`.

Runtime values are `Boolean`, `Integer`, `Float` (kept as a 32-bit pattern) and `String`. The
operations on values (`add_value`, `to_bool`, the comparisons, `to_string`,
`convert_to_number`) are supplied as a `ValueOps` record of functions and are not interpreted.
Built-in methods are a map from name to function. User functions can recurse without end, so
every evaluation carries `fuel`. One unit is spent per user-function call, and running out is
the `OutOfFuel` outcome.

The model keeps several behaviours of the source that a reader may not expect. Each has a lemma:

- **The lexer's `l` branch** only recognises `let`. On any other `l` it consumes nothing, so the
  loop never advances (`LetBranch`, `DeclaringLenHangs`). An `l` among the last two characters
  panics on `unwrap` (`TrailingLPanics`).
- **Unterminated strings**: a string without a closing quote emits no token
  (`UnterminatedStringVanishes`).
- **Calls skip the operator loop**: an expression that starts with `name(` is the call alone, so
  `f() + 1;` is a parse error (`CallSkipsOperatorLoop`).
- **Trailing commas**: argument and parameter lists accept a comma before `)`
  (`TrailingCommaAccepted`).
- **`return` inside `if`**: an `if` always yields `Continue`. A `return` inside an `if` therefore
  does not leave the function, and a later `return` overwrites the value
  (`ConditionalNeverBreaks`, `ReturnInsideIfDoesNotStop`).
- **Dynamic scoping**: a user function's scope is a child of the caller's current scope, so its
  body sees the caller's variables (`CallBodyContext`, `CalleeSeesCallerVariable`).
- **Built-in errors**: an error raised by a built-in carries the caller's frames but not the
  built-in's own frame (`BuiltinErrorOmitsOwnFrame`).
- **No cleanup after an error**: an error inside a block or a call leaves the scope, frame and
  return slot it entered in place. The model returns the context as the error leaves it.

## Model

| member | source | states |
|---|---|---|
| Tokens.Precedence | src/lexer.rs:33-40 | binding power 3 exactly for `^`, 2 exactly for `*` and `/`, 1 exactly for `+` and `-`, and 0 for every other text |
| Tokens.PrecedenceOrder | src/lexer.rs:33-40 | `^` binds tighter than `*` and `/`, which share a level above `+` and `-`, which share a level above every other text |
| Tokens.OperatorPrecedence | src/parser.rs:267 | no precedence exactly when the token has no text; otherwise the power of its text, and right-associative exactly for `^` |
| Lexer.CharAt | src/lexer.rs:88-100 | `peek`/`peek_with_offset` give a character exactly when the index is inside the program, and then the character at that index |
| Lexer.TokenParser.Peek | src/lexer.rs:88-93 | the character under the cursor exactly when the cursor is inside the program |
| Lexer.TokenParser.PeekWithOffset | src/lexer.rs:94-100 | the character `offset` places on exactly when that index is inside the program |
| Lexer.OperatorTypeOf | src/lexer.rs:224-238 | an operator character gets a class whose rank equals the binding power `operator_predecende` reads from its text |
| Lexer.CommentEnd | src/lexer.rs:111-121 | the comment loop stops at a valid cursor no earlier than its start |
| Lexer.StringScan | src/lexer.rs:162-182 | the string loop ends at a valid cursor no earlier than its start |
| Lexer.IdentifierScan | src/lexer.rs:183-201 | the identifier loop ends at a valid cursor no earlier than its start |
| Lexer.NumberScan | src/lexer.rs:202-223 | the numeral loop ends at a valid cursor, or fails at a `.` inside the program |
| Lexer.NumeralStep | src/lexer.rs:202-223 | the numeral branch emits exactly one well-formed token and consumes at least one character |
| Lexer.EofToken | src/lexer.rs:277-284 | the closing token is `Eof`, has no text and no class, and sits at zero width at the cursor's line and column |
| Lexer.LexFrom | src/lexer.rs:101-286 | a lexed output from any cursor is never empty (its last token is its only `Eof`: `LexFromEndsWithEof`) |
| Lexer.Lex | src/lexer.rs:61-286 | the empty program lexes to the single `Eof` at line 1, column 1, and no lexed output is empty |
| Lexer.Step | src/lexer.rs:104-275 | every branch of the main loop consumes at least one character and emits at most one well-formed non-`Eof` token, or fails; only the `l` branch can hang, and it hangs at its own position |
| Lexer.TokenParser.constructor | src/lexer.rs:61-68 | a fresh lexer is at position 0, line 1, column 1 |
| Lexer.Advance | src/lexer.rs:76-87 | one character on; the line changes exactly after a newline, to the next line at column 1, and otherwise the column grows by one |
| Lexer.TokenParser.Digest | src/lexer.rs:76-87 | returns the character under the cursor and moves the cursor one character on, to the next line at column 1 after a newline |
| Lexer.TokenParser.SkipComment | src/lexer.rs:111-121 | the comment loop leaves the cursor where `CommentEnd` says |
| Lexer.TokenParser.ReadString | src/lexer.rs:164-181 | the string loop returns the text and the closed flag and leaves the cursor as `StringScan` says |
| Lexer.TokenParser.ReadIdentifier | src/lexer.rs:186-200 | the identifier loop returns the text and leaves the cursor as `IdentifierScan` says |
| Lexer.TokenParser.ReadNumber | src/lexer.rs:204-221 | the numeral loop returns the text and the float flag, or the position of the second `.`, as `NumberScan` says |
| Lexer.TokenParser.Next | src/lexer.rs:104-275 | one pass of the main loop pushes the tokens `Step` gives and moves the cursor to its next position |
| Lexer.TokenParser.Parse | src/lexer.rs:101-286 | the whole loop returns what `LexFrom` gives from the starting cursor |
| LexerProperties.LexFromEndsWithEof | src/lexer.rs:277-285 | the output ends in an `Eof` token without text, and every earlier token is well formed |
| LexerProperties.PrependEmitted | src/lexer.rs:277-285 | tokens the main loop pushes in front of an output that ends in `Eof` keep it ending in `Eof` with every earlier token well formed |
| LexerProperties.LexEndsWithEof | src/lexer.rs:277-285 | the last token is the only `Eof`, and its value is `None` |
| LexerProperties.LexedOperatorPrecedence | src/lexer.rs:33-40 | every operator token carries an operator class whose rank equals the power read from its text, and only `^` is right-associative |
| LexerProperties.Walk | src/lexer.rs:76-87 | `n` calls of `digest` from a fresh lexer reach position `n` |
| LexerProperties.WalkCountsLines | src/lexer.rs:76-87 | the line counter is one more than the newlines consumed, and the column resets to 1 after a newline and otherwise grows by one |
| LexerProperties.SkippedCharactersEmitNothing | src/lexer.rs:105-121 | spaces, newlines and `//` comments emit no token |
| LexerProperties.CommentEndsAfterNewline | src/lexer.rs:111-121 | a comment runs up to and including the first newline, or to the end of the program |
| LexerProperties.NumberScanOk | src/lexer.rs:204-221 | a successful numeral scan covers the maximal run of digits and dots with at most one dot, and the float flag is set exactly when there is one |
| LexerProperties.NumberScanRun | src/lexer.rs:204-221 | a successful numeral scan's text is exactly the maximal run of digits and dots at the cursor |
| LexerProperties.NumberScanDots | src/lexer.rs:204-221 | the run of a successful numeral scan has at most one dot, counting one already seen, and the float flag is set exactly when there is one |
| LexerProperties.NumberScanErr | src/lexer.rs:204-221 | a numeral scan fails exactly at the second dot of the run |
| LexerProperties.NumberScanErrRun | src/lexer.rs:204-221 | the run before the failing dot is made of digits and dots |
| LexerProperties.NumberScanErrDots | src/lexer.rs:204-221 | the run before the failing dot has exactly one dot, counting one already seen |
| LexerProperties.NumeralLiteralIsConsumedText | src/lexer.rs:202-223 | a digit starts one `NumeralLiteral` whose value is exactly the consumed run, a float exactly when the run has a dot; a second dot fails the lexer |
| LexerProperties.NumeralStepEmits | src/lexer.rs:202-223 | an emitting numeral branch pushes one `NumeralLiteral` whose value is the consumed maximal run, a float exactly when the run has a dot |
| LexerProperties.NumeralStepFails | src/lexer.rs:202-223 | a failing numeral branch is `MalformedNumberLiteral`, at a dot that is the second dot of the run |
| LexerProperties.StringScanStopsAtQuote | src/lexer.rs:164-181 | the string scan stops after the first closing quote, or runs to the end of the program |
| LexerProperties.StringLiteralBetweenQuotes | src/lexer.rs:162-182 | a string token's value is the characters strictly between its quotes; an unterminated string emits nothing and consumes the rest |
| LexerProperties.IdentifierScanIsMaximal | src/lexer.rs:186-200 | the identifier scan covers exactly the maximal run of letters, digits and `_` |
| LexerProperties.SymbolIsMaximalRun | src/lexer.rs:183-201 | an ASCII letter other than `l` starts one `Symbol` covering the maximal following run of identifier characters |
| LexerProperties.LetBranch | src/lexer.rs:144-161 | `let` is consumed whole; an `l` among the last two characters panics; any other `l` consumes nothing |
| LexerProperties.DeclaringLenHangs | src/lexer.rs:144-161 | `let len = 1;` never finishes lexing |
| LexerProperties.TrailingLPanics | src/lexer.rs:146-147 | a program ending in `l` panics in the lexer |
| LexerProperties.UnterminatedStringVanishes | src/lexer.rs:162-182 | `"abc` lexes to `Eof` alone |
| Parser.DigestAt | src/parser.rs:49-61 | succeeds exactly when the current token has the expected type, and then returns it and moves on by one; otherwise `UnexpectedToken` with that token, or `UnexpectedEOF` past the end |
| Parser.SeparatorAt | src/parser.rs:98-105 | after a list item, accepts exactly `)` (not consumed) or `,` (consumed) |
| Parser.TerminatorAt | src/parser.rs:67-75 | `if` and `func` need nothing after them; every other statement must be followed by `;`, which is consumed |
| Parser.ProgramAt | src/parser.rs:63-65 | a program node exactly when the top-level block parses |
| Parser.Leaf | src/parser.rs:304-310 | a leaf token gives a node exactly when it carries text, `UnexpectedEmptyValue` otherwise, and a name node exactly for a symbol |
| Parser.BlockAt | src/parser.rs:126-145 | a block stops at the end, before `}`, or just after the `Eof` it consumed, and every element is wrapped as a `Statement` |
| Parser.DelimitedBlockAt | src/parser.rs:118-124 | a braced block consumes at least its opening brace |
| Parser.StatementAt | src/parser.rs:147-164 | a statement consumes at least one token |
| Parser.DeclarationAt | src/parser.rs:165-171 | a `let` parses to a `Declaration` |
| Parser.ReturnAt | src/parser.rs:173-176 | a `return` parses to a `Return` |
| Parser.ConditionalAt | src/parser.rs:178-194 | an `if` parses to an `IfConditional` |
| Parser.ElseBranchAt | src/parser.rs:186-193 | there is an `else` branch only when the next token is `else` |
| Parser.StatementOrBlockAt | src/parser.rs:196-208 | a branch consumes at least one token |
| Parser.ParamsAt | src/parser.rs:86-106 | the parameter list stays inside the tokens |
| Parser.FunctionDeclarationAt | src/parser.rs:77-116 | a `func` parses to a `FunctionDeclaration` |
| Parser.ExpressionAt | src/parser.rs:211-224 | an expression consumes at least one token |
| Parser.MethodCallAt | src/parser.rs:226-233 | a call parses to a `FunctionCall` |
| Parser.MethodArgsAt | src/parser.rs:235-256 | the argument list stays inside the tokens |
| Parser.BinaryAt | src/parser.rs:258-282 | a binary expression consumes at least one token |
| Parser.OperatorLoop | src/parser.rs:262-281 | the operator loop never moves the cursor back |
| Parser.RightPrecedence | src/parser.rs:275 | the right operand is parsed at the operator's own power for `^` and one level higher for every other operator |
| Parser.TermAt | src/parser.rs:284-321 | a term consumes at least one token |
| Parser.Parser.constructor | src/parser.rs:37-39 | a fresh parser is at the first token |
| Parser.Parser.Peek | src/parser.rs:41-43 | a token exactly when the index is inside the token vector, and then the token at that index |
| Parser.Parser.PeekTypeIs | src/parser.rs:45-47 | true exactly when there is a current token and it has the expected type |
| Parser.Parser.Digest | src/parser.rs:49-61 | computes `DigestAt`; the cursor moves by one on success and stays on failure |
| Parser.Parser.Parse | src/parser.rs:63-65 | computes `ProgramAt` |
| Parser.Parser.ConsumeStatementTerminator | src/parser.rs:67-75 | computes `TerminatorAt` |
| Parser.Parser.ParseFunctionDeclaration | src/parser.rs:77-116 | computes `FunctionDeclarationAt` |
| Parser.Parser.ParseParameters | src/parser.rs:84-106 | the parameter loop computes `ParamsAt` |
| Parser.Parser.ParseBlockWithDelimiters | src/parser.rs:118-124 | computes `DelimitedBlockAt` |
| Parser.Parser.ParseBlock | src/parser.rs:126-145 | the statement loop computes `BlockAt` |
| Parser.Parser.ParseStatement | src/parser.rs:147-164 | computes `StatementAt` |
| Parser.Parser.ParseDeclaration | src/parser.rs:165-171 | computes `DeclarationAt` |
| Parser.Parser.ParseReturn | src/parser.rs:173-176 | computes `ReturnAt` |
| Parser.Parser.ParseConditional | src/parser.rs:178-194 | computes `ConditionalAt` |
| Parser.Parser.ParseElseBranch | src/parser.rs:186-193 | computes `ElseBranchAt` |
| Parser.Parser.ParseStatementOrBlock | src/parser.rs:196-208 | computes `StatementOrBlockAt` |
| Parser.Parser.ParseExpression | src/parser.rs:211-224 | computes `ExpressionAt` |
| Parser.Parser.ParseMethodCall | src/parser.rs:226-233 | computes `MethodCallAt` |
| Parser.Parser.ParseMethodArgs | src/parser.rs:235-256 | the argument loop computes `MethodArgsAt` |
| Parser.Parser.ParseBinaryExpression | src/parser.rs:258-282 | the operator loop, reassigning `left`, computes `BinaryAt` |
| Parser.Parser.ParseTerm | src/parser.rs:284-321 | dispatching on the token at the cursor, computes `TermAt` |
| Parser.Parser.ParsePrefixed | src/parser.rs:288-302 | the `-` and `!` branches compute `TermAt` |
| Parser.Parser.ParseParenthesised | src/parser.rs:312-317 | the `(` branch computes `TermAt` |
| ParserProperties.LoneLeaf | src/parser.rs:211-224 | a name or literal followed by neither an operator nor `(` is an expression on its own |
| ParserProperties.LexedTokensAreComplete | src/parser.rs:267 | every operator token the lexer emits has text and an operator class, as the parser's precedence lookup needs |
| ParserProperties.TwoOperatorGrouping | src/parser.rs:258-282 | in `a o1 b o2 c`, `o2` goes into the right operand of `o1` exactly when its power reaches `o1`'s power plus one, or `o1`'s power for `^` |
| ParserProperties.SubtractionNestsLeft | src/parser.rs:258-282 | `a - b - c` is `(a - b) - c` |
| ParserProperties.PowerNestsRight | tests/end_to_end.rs:79 | `a ^ b ^ c` is `a ^ (b ^ c)` |
| ParserProperties.ProductBindsTighterThanSum | src/parser.rs:258-282 | `a + b * c` is `a + (b * c)` and `a * b + c` is `(a * b) + c` |
| ParserProperties.PrefixAppliesToOneTerm | src/parser.rs:284-301 | a prefix `-` or `!` applies to the single term after it, giving `UnaryOperation(Min or Not, term)` |
| ParserProperties.CallSkipsOperatorLoop | src/parser.rs:215-223 | after `f()` the operator is not consumed, so `f() o b;` fails where `;` was expected |
| ParserProperties.CallAsRightOperand | src/parser.rs:258-282 | as a right operand a call still ends the operand: `x + f() * z` is `(x + f()) * z` |
| ParserProperties.TrailingCommaAccepted | src/parser.rs:235-256 | a comma before `)` is accepted in arguments and in parameters |
| ParserProperties.ParamListAccepted | src/parser.rs:84-106 | a parameter list of any length, with or without a trailing comma, gives its names in order and stops at `)` |
| ParserProperties.ArgListAccepted | src/parser.rs:235-256 | an argument list of names of any length, with or without a trailing comma, gives them as identifiers in order and stops at `)` |
| ParserProperties.MissingCommaRejected | src/parser.rs:86-106 | in a parameter or argument list of any length, a name not followed by a comma or `)` fails with `UnexpectedToken` expecting the separator, at the token after that name |
| ParserProperties.BranchIsBlockOrOneStatement | src/parser.rs:196-208 | a branch is the braced block, or one unwrapped statement as a block of one |
| ParserProperties.StatementStartRejected | src/parser.rs:147-164 | a statement starting with any other token is `UnrecognizedToken` |
| ParserProperties.ReturnNeedsExpression | src/parser.rs:173-176 | `return` followed by a token no term starts with (such as `;`) is rejected at that token, and `return` at the end of the tokens is an early end |
| ParserProperties.StrayBraceEndsProgram | src/parser.rs:126-145 | a stray `}` ends the program and what follows is never parsed |
| Scopes.Resolve | src/interpreter/scope.rs:48-59 | the scope found is no later than the start, exists, and binds the name |
| Scopes.ChainGoesDown | src/interpreter/scope.rs:53-56 | every scope on a parent chain is no later than its start and exists |
| Scopes.ResolveFindsNearest | src/interpreter/scope.rs:48-59 | lookup finds the nearest scope on the chain that binds the name, and finds nothing only when no scope on the chain binds it |
| Scopes.LookupOutOfRange | src/interpreter/scope.rs:49 | a lookup from a scope id out of range finds nothing |
| Scopes.ResolveIgnoresOffChain | src/interpreter/scope.rs:48-59 | scopes off the chain do not affect a lookup |
| Scopes.DefineOffChainInvisible | src/interpreter/scope.rs:37-46 | a define in a scope off the chain, such as a child, is invisible from the parent: shadowing is local |
| Scopes.ChildOffParentChain | src/interpreter/scope.rs:26-34 | a scope created later is never on the chain of an earlier one |
| Scopes.DefineVisibleLocally | src/interpreter/scope.rs:37-46 | a define is found from its own scope, overriding outer bindings |
| Scopes.DefineOtherNameResolve | src/interpreter/scope.rs:37-46 | defining one name changes no lookup of another name, from any scope |
| Scopes.DefineOtherNameInvisible | src/interpreter/scope.rs:37-46 | defining one variable changes no variable lookup of another name and no function lookup |
| Scopes.ExtendKeepsResolve | src/interpreter/scope.rs:26-34 | adding scopes, and changing only scopes created later, keeps every lookup from an existing scope |
| Scopes.AppendKeepsResolve | src/interpreter/scope.rs:26-34 | `new_scope` keeps every lookup from the existing scopes |
| Scopes.ExtendKeepsLookups | src/interpreter/scope.rs:26-34 | the same, for variable and function lookups |
| Scopes.NewScopeWellFormed | src/interpreter/scope.rs:26-34 | parents stay older than their children exactly when the new scope's parent exists |
| Scopes.ScopeArena.constructor | src/interpreter/scope.rs:21-23 | a new arena has no scopes |
| Scopes.ScopeArena.NewScope | src/interpreter/scope.rs:26-34 | appends an empty scope with the given parent and returns its index, the old length; a parent older than the new scope keeps the arena well formed |
| Scopes.ScopeArena.DefineVariable | src/interpreter/scope.rs:37-46 | binds the name in exactly that scope's variable map; every other scope is unchanged and the arena stays well formed |
| Scopes.ScopeArena.DefineFunction | src/interpreter/execution_context.rs:51-54 | `define_function` as `define_function_in_scope` calls it, following `define` (scope.rs:37-46) on the function map: binds in exactly that scope, every other scope is unchanged and the arena stays well formed |
| Scopes.ScopeArena.Find | src/interpreter/scope.rs:48-59 | the lookup loop, reassigning `scope_id`, returns the scope `Resolve` finds |
| Scopes.VariableLookup | src/interpreter/scope.rs:48-58 | a value exactly when the walk finds a scope binding the name; never from a scope id outside the arena |
| Scopes.FunctionLookup | src/interpreter/execution_context.rs:56-58 | `lookup_function` as `lookup_function_in_scope` calls it, following `lookup` (scope.rs:48-58): a definition exactly when the walk finds a scope binding the name; never from a scope id outside the arena |
| Scopes.ScopeArena.LookupVariable | src/interpreter/scope.rs:48-59 | returns the nearest variable binding on the chain |
| Scopes.ScopeArena.LookupFunction | src/interpreter/execution_context.rs:56-58 | `lookup_function`, following the walk of `lookup` (scope.rs:48-59): returns the nearest function binding on the chain |
| RuntimeErrors.NewError | src/interpreter/runtime_errors.rs:23-28 | the message with an empty stack |
| RuntimeErrors.WithFrame | src/interpreter/runtime_errors.rs:16-19 | exactly one frame added at the end; the message unchanged |
| RuntimeErrors.DecimalText | src/interpreter/runtime_errors.rs:39 | a location is written as digits only, without leading zeros |
| RuntimeErrors.DecimalTextRoundTrip | src/interpreter/runtime_errors.rs:39 | the written digits read back as the location |
| RuntimeErrors.FrameLine | src/interpreter/runtime_errors.rs:37-41 | a frame's line opens with `  at ` and ends in a newline |
| RuntimeErrors.FramesText | src/interpreter/runtime_errors.rs:36-42 | empty exactly for an empty stack, and otherwise ending in a newline |
| RuntimeErrors.Render | src/interpreter/runtime_errors.rs:31-46 | the display is never empty and ends in a newline |
| RuntimeErrors.LocationText | src/interpreter/runtime_errors.rs:37-40 | `?` exactly for a frame without location; otherwise the digits of the location |
| RuntimeErrors.WithFrameShowsFirst | src/interpreter/runtime_errors.rs:36-41 | a frame added last is shown first, right after the `Call stack:` line |
| RuntimeErrors.FramesTextOutermostLast | src/interpreter/runtime_errors.rs:36-42 | frames are shown in reverse, the outermost last |
| RuntimeErrors.RenderStartsWithMessage | src/interpreter/runtime_errors.rs:33 | the display opens with `Runtime Error: ` and the message |
| RuntimeErrors.RenderHasStackSectionIff | src/interpreter/runtime_errors.rs:34-35 | a `Call stack:` section follows exactly when the stack is non-empty |
| RuntimeErrors.RenderWithoutStack | src/interpreter/runtime_errors.rs:31-46 | an error without frames displays as its message line alone |
| CallStacks.Pushed | src/interpreter/call_stack.rs:19-21 | the frame is added on top and the rest is unchanged |
| CallStacks.Popped | src/interpreter/call_stack.rs:23-25 | the top frame is removed; an empty stack stays empty |
| CallStacks.PopUndoesPush | src/interpreter/call_stack.rs:19-25 | a pop after a push restores the frames |
| CallStacks.Attached | src/interpreter/call_stack.rs:27-35 | every frame is added to the error's stack, bottom first; the message is unchanged |
| CallStacks.AttachedRender | src/interpreter/call_stack.rs:27-35 | a fresh error with the stack attached displays every frame, innermost first |
| CallStacks.CallStack.constructor | src/interpreter/call_stack.rs:15-17 | no frames |
| CallStacks.CallStack.Push | src/interpreter/call_stack.rs:19-21 | the frames become `Pushed` of the old ones |
| CallStacks.CallStack.Pop | src/interpreter/call_stack.rs:23-25 | the frames become `Popped` of the old ones |
| CallStacks.CallStack.AttachToError | src/interpreter/call_stack.rs:27-35 | the loop, reassigning `err`, appends every frame bottom to top and leaves the stack unchanged |
| ExecutionContexts.Ctx.EnterFunction | src/interpreter/execution_context.rs:25-28 | one level deeper with an empty slot on top, keeping one slot per level |
| ExecutionContexts.Ctx.IsInFunction | src/interpreter/execution_context.rs:68-70 | in a valid context, inside a function exactly when a return slot exists |
| ExecutionContexts.Ctx.LookupVariable | src/interpreter/execution_context.rs:60-62 | a value exactly when the walk from the current scope finds a binding (`NewScopeSeesParent`, `BlockScopeIsLocal`) |
| ExecutionContexts.Ctx.LookupFunction | src/interpreter/execution_context.rs:56-58 | the same, for functions |
| ExecutionContexts.Ctx.ExitFunction | src/interpreter/execution_context.rs:30-36 | at depth 0 no value and no change; otherwise one level up, returning and popping the top slot |
| ExecutionContexts.Ctx.SetReturnValue | src/interpreter/execution_context.rs:72-78 | only the top slot changes, to the value |
| ExecutionContexts.Ctx.EnterNewScope | src/interpreter/execution_context.rs:39-44 | returns the old current scope and the new scope, whose parent is the old current scope and which becomes current |
| ExecutionContexts.Ctx.RestoreScope | src/interpreter/execution_context.rs:64-66 | the current scope becomes exactly the given id; nothing else changes |
| ExecutionContexts.Ctx.DefineVariable | src/interpreter/execution_context.rs:46-49 | binds in the current scope; nothing else changes |
| ExecutionContexts.Ctx.DefineFunction | src/interpreter/execution_context.rs:51-54 | binds the function in the current scope; nothing else changes |
| ExecutionContexts.Ctx.PushFrame | src/interpreter/execution_context.rs:82-84 | pushes a frame with that name and location |
| ExecutionContexts.Ctx.PopFrame | src/interpreter/execution_context.rs:86-88 | pops the top frame |
| ExecutionContexts.Ctx.AttachStack | src/interpreter/execution_context.rs:90-92 | the error with every frame appended |
| ExecutionContexts.NewContext | src/interpreter/execution_context.rs:12-23 | one root scope, current, with depth 0, no slots and no frames |
| ExecutionContexts.NewScopeWellFormedFromCurrent | src/interpreter/execution_context.rs:39-44 | a child of the current scope keeps the arena well formed |
| ExecutionContexts.EnterThenExit | src/interpreter/execution_context.rs:25-36 | leaving a function just entered yields no value and the context before entry |
| ExecutionContexts.ExitYieldsStoredValue | src/interpreter/execution_context.rs:25-36 | the value stored by `set_return_value` is what leaving the function yields |
| ExecutionContexts.LastReturnWins | src/interpreter/execution_context.rs:72-78 | a second stored value replaces the first |
| ExecutionContexts.EnterThenRestoreScope | src/interpreter/execution_context.rs:39-66 | entering a scope and restoring the returned parent gives back every lookup |
| ExecutionContexts.NewScopeSeesParent | src/interpreter/execution_context.rs:39-44 | a new scope sees exactly what its parent sees |
| ExecutionContexts.PushedFrameAttachedLast | src/interpreter/execution_context.rs:82-92 | a frame pushed last is attached last |
| ExecutionContexts.AttachedIsUnique | src/interpreter/call_stack.rs:27-35 | any error with the message kept and the frames appended is `Attached` |
| ExecutionContexts.ExecutionContext.constructor | src/interpreter/execution_context.rs:12-23 | the state is `NewContext` |
| ExecutionContexts.ExecutionContext.EnterFunction | src/interpreter/execution_context.rs:25-28 | performs `Ctx.EnterFunction` |
| ExecutionContexts.ExecutionContext.ExitFunctionWithReturn | src/interpreter/execution_context.rs:30-36 | performs `Ctx.ExitFunction` |
| ExecutionContexts.ExecutionContext.EnterNewScope | src/interpreter/execution_context.rs:39-44 | performs `Ctx.EnterNewScope` |
| ExecutionContexts.ExecutionContext.DefineVariableInScope | src/interpreter/execution_context.rs:46-49 | performs `Ctx.DefineVariable` |
| ExecutionContexts.ExecutionContext.DefineFunctionInScope | src/interpreter/execution_context.rs:51-54 | performs `Ctx.DefineFunction` |
| ExecutionContexts.ExecutionContext.LookupFunctionInScope | src/interpreter/execution_context.rs:56-58 | the function binding seen from the current scope |
| ExecutionContexts.ExecutionContext.LookupVariableInScope | src/interpreter/execution_context.rs:60-62 | the variable binding seen from the current scope |
| ExecutionContexts.ExecutionContext.RestoreScope | src/interpreter/execution_context.rs:64-66 | performs `Ctx.RestoreScope` |
| ExecutionContexts.ExecutionContext.IsInFunction | src/interpreter/execution_context.rs:68-70 | true exactly when the depth is positive |
| ExecutionContexts.ExecutionContext.SetReturnValue | src/interpreter/execution_context.rs:72-78 | performs `Ctx.SetReturnValue` |
| ExecutionContexts.ExecutionContext.PushFrame | src/interpreter/execution_context.rs:82-84 | performs `Ctx.PushFrame` |
| ExecutionContexts.ExecutionContext.PopFrame | src/interpreter/execution_context.rs:86-88 | performs `Ctx.PopFrame` |
| ExecutionContexts.ExecutionContext.AttachStack | src/interpreter/execution_context.rs:90-92 | performs `Ctx.AttachStack` |
| Semantics.ErrorWithStack | src/interpreter/core.rs:307-309 | a runtime error with the message and the current frames |
| Semantics.ArityMessage | src/interpreter/core.rs:167-172 | the arity message opens with the function's name and `expected` |
| Semantics.LiteralValue | src/interpreter/core.rs:232-237 | a boolean or text literal is that boolean or text; a numeral is converted by the numeral conversion |
| Semantics.BinaryOp | src/interpreter/core.rs:274-295 | each arithmetic and logical class selects its value operation (`+` add, `-` sub, `*` mul, `/` div, `^` power) |
| Semantics.GetMethod | src/interpreter/methods/mod.rs:20-28 | the registered method's result, or `Method not found: ` and the name |
| Semantics.BindParams | src/interpreter/core.rs:179-182 | binds in the current scope only; depth, slots, frames and the other scopes are unchanged |
| Semantics.Run | src/interpreter/core.rs:28-31 | no node does nothing; the context stays valid and no scope is removed |
| Semantics.Evaluate | src/interpreter/core.rs:33-66 | on success, the same function level, the same current scope, and only the current scope's bindings changed |
| Semantics.EvalProgram | src/interpreter/core.rs:68-71 | on success, every existing scope and the current scope are as before |
| Semantics.EvalReturn | src/interpreter/core.rs:73-85 | on success, only the top return slot and current bindings may change |
| Semantics.EvalBlock | src/interpreter/core.rs:87-102 | on success, the previous scope is current again and every existing scope is as before |
| Semantics.EvalStatements | src/interpreter/core.rs:89-99 | on success, the same function level and current scope |
| Semantics.EvalStatement | src/interpreter/core.rs:104-120 | on success, the same function level and current scope |
| Semantics.EvalConditional | src/interpreter/core.rs:122-135 | on success, every existing scope and the current scope are as before |
| Semantics.EvalAssignment | src/interpreter/core.rs:137-146 | on success, only the current scope's bindings change |
| Semantics.EvalFunctionDefinition | src/interpreter/core.rs:148-155 | the function is then found under its name from the current scope |
| Semantics.EvalCall | src/interpreter/core.rs:157-210 | after a successful call, the depth, return slots, frames, current scope and every existing scope are as before |
| Semantics.InvokeUser | src/interpreter/core.rs:167-197 | after a successful invocation of a user function, the depth, return slots, frames, current scope and every existing scope are as before |
| Semantics.EvalArgs | src/interpreter/core.rs:212-218 | on success, one value per argument and the context as before but for new scopes |
| Semantics.EvalExpr | src/interpreter/core.rs:220-305 | on success, the context as before but for new scopes |
| SemanticsProperties.BlockScopeIsLocal | src/interpreter/core.rs:87-102 | after a successful block, the previous scope is current and every lookup from it is as before |
| SemanticsProperties.OnlyReturnBreaks | src/interpreter/core.rs:33-66 | `evaluate` yields `Break` only for a `return`, a program, or a statement wrapping one |
| SemanticsProperties.ConditionalNeverBreaks | src/interpreter/core.rs:46-49 | an `if` never yields `Break`, even when its branch returned |
| SemanticsProperties.BreakSkipsRest | src/interpreter/core.rs:89-99 | a block stops at the first statement that yields `Break` and yields it |
| SemanticsProperties.BlockBreaksOnlyOnReturn | src/interpreter/core.rs:89-101 | a block yields `Break` only when one of its statements can |
| SemanticsProperties.ReturnOutsideFunction | src/interpreter/core.rs:73-85 | `return` outside a function is an error carrying the frames, and the context is unchanged |
| SemanticsProperties.ReturnInsideFunction | src/interpreter/core.rs:50-54 | `return` inside a function stores the value in the top slot only and yields `Break` |
| SemanticsProperties.AndShortCircuits | src/interpreter/core.rs:256-262 | a conjunction with a falsy left operand is `false` without evaluating the right; otherwise it combines both |
| SemanticsProperties.OrShortCircuits | src/interpreter/core.rs:264-270 | a disjunction with a truthy left operand is `true` without evaluating the right; otherwise it combines both |
| SemanticsProperties.LexedOperatorApplies | src/interpreter/core.rs:274-287 | the class the lexer attaches to `+ - * / ^` selects addition, subtraction, multiplication, division and power respectively |
| SemanticsProperties.LetReadsOuterBinding | src/interpreter/core.rs:137-146 | in `let x = x + 1` the initializer reads the binding already visible, and `x` is then bound to the sum |
| SemanticsProperties.BindParamsBinds | src/interpreter/core.rs:179-182 | each distinct parameter is bound to the argument in its position, and other names resolve as before |
| SemanticsProperties.CallBodyContext | src/interpreter/core.rs:176-186 | the body runs one level deeper with an empty slot and the call's frame pushed, in a new scope whose parent is the caller's current scope, with parameters bound and other names resolving as at the call site |
| SemanticsProperties.ArityCheckedFirst | src/interpreter/core.rs:165-174 | an arity mismatch is an error with the caller's frames only, after the arguments and before any scope or frame is set up |
| SemanticsProperties.BuiltinErrorOmitsOwnFrame | src/interpreter/core.rs:199-209 | a built-in's error gets the caller's frames, not its own |
| SemanticsProperties.UnknownFunction | src/interpreter/core.rs:199-209 | calling a name that is neither a user function in scope nor a built-in is `Method not found` with the caller's frames |
| SemanticsProperties.ReturnFreeKeepsSlots | src/interpreter/core.rs:33-66 | a statement without `return` leaves every return slot as it was |
| SemanticsProperties.ConditionalKeepsSlots | src/interpreter/core.rs:122-135 | the same, for an `if` |
| SemanticsProperties.BlockReturnFreeKeepsSlots | src/interpreter/core.rs:87-102 | the same, for a block |
| SemanticsProperties.StatementsReturnFreeKeepSlots | src/interpreter/core.rs:89-99 | the same, for a statement loop |
| SemanticsProperties.FunctionWithoutReturnYieldsZero | src/interpreter/core.rs:188-198 | a function without `return` yields `Integer(0)`, and the caller's slots, frames and current scope are as before |
| SemanticsProperties.InvokeWithoutReturnYieldsZero | src/interpreter/core.rs:176-197 | the same, once the arguments are evaluated |
| SemanticsProperties.ReturnInsideIfDoesNotStop | src/interpreter/core.rs:46-49 | in `if (true) { return a; } return b;` the second `return` runs and its value replaces the first |
| SemanticsProperties.CalleeSeesCallerVariable | src/interpreter/core.rs:176 | a function whose body is `return x;` yields the caller's `x`, wherever it was declared |
| SemanticsProperties.InvokeSeesCallerVariable | src/interpreter/core.rs:176-197 | a parameterless body `return x;` whose context sees `x` yields its value, and the caller's slots, frames and current scope are as before |
| Interpreters.Interpreter.constructor | src/interpreter/core.rs:22-26 | the context is `NewContext` |
| Interpreters.Interpreter.Run | src/interpreter/core.rs:28-31 | computes `Semantics.Run` on the context |
| Interpreters.Interpreter.Evaluate | src/interpreter/core.rs:33-66 | computes `Semantics.Evaluate` on the context |
| Interpreters.Interpreter.EvaluateProgram | src/interpreter/core.rs:68-71 | computes `Semantics.EvalProgram` |
| Interpreters.Interpreter.EvaluateReturn | src/interpreter/core.rs:73-85 | computes `Semantics.EvalReturn` |
| Interpreters.Interpreter.EvaluateBlock | src/interpreter/core.rs:87-102 | the statement loop with its `break_invoked` flag computes `Semantics.EvalBlock` |
| Interpreters.Interpreter.EvaluateStatement | src/interpreter/core.rs:104-120 | computes `Semantics.EvalStatement` |
| Interpreters.Interpreter.EvaluateConditional | src/interpreter/core.rs:122-135 | computes `Semantics.EvalConditional` |
| Interpreters.Interpreter.EvaluateAssignment | src/interpreter/core.rs:137-146 | computes `Semantics.EvalAssignment` |
| Interpreters.Interpreter.EvaluateFunctionDefinition | src/interpreter/core.rs:148-155 | computes `Semantics.EvalFunctionDefinition` |
| Interpreters.Interpreter.EvaluateFunctionCall | src/interpreter/core.rs:157-210 | computes `Semantics.EvalCall` |
| Interpreters.Interpreter.CallUserFunction | src/interpreter/core.rs:159-165 | the user-function branch computes `Semantics.EvalCall` |
| Interpreters.Interpreter.InvokeUserFunction | src/interpreter/core.rs:167-197 | the rest of the user-function branch computes `Semantics.InvokeUser` |
| Interpreters.Interpreter.BindParameters | src/interpreter/core.rs:179-182 | the parameter loop computes `Semantics.BindParams` |
| Interpreters.Interpreter.CallBuiltin | src/interpreter/core.rs:199-209 | the built-in branch computes `Semantics.EvalCall` |
| Interpreters.Interpreter.EvaluateArguments | src/interpreter/core.rs:212-218 | the argument loop computes `Semantics.EvalArgs` |
| Interpreters.Interpreter.EvaluateExpression | src/interpreter/core.rs:220-305 | computes `Semantics.EvalExpr` |
| Interpreters.Interpreter.EvaluateUnaryOperation | src/interpreter/core.rs:239-251 | the unary branch computes `Semantics.EvalExpr` |
| Interpreters.Interpreter.EvaluateBinaryOperation | src/interpreter/core.rs:252-302 | the binary branch, with its short circuits, computes `Semantics.EvalExpr` |
| Interpreters.Interpreter.ErrorWithStack | src/interpreter/core.rs:307-309 | computes `Semantics.ErrorWithStack` and changes nothing |
| StringMethods.ConcatText | src/interpreter/methods/string.rs:3-12 | no arguments give the empty text and one argument gives its own text |
| StringMethods.ConcatTextAppend | src/interpreter/methods/string.rs:3-12 | the text of two argument lists is the two texts joined |
| StringMethods.ConcatTextOneByOne | src/interpreter/methods/string.rs:6-9 | each argument contributes its text in its position |
| StringMethods.ConcatTextLength | src/interpreter/methods/string.rs:3-12 | the length is the sum of the texts' lengths |
| StringMethods.StrConcat | src/interpreter/methods/string.rs:3-12 | the loop returns a `String` of the arguments' texts in order, empty for no arguments |
| StringMethods.ToNumber | src/interpreter/methods/string.rs:14-17 | fails, by a panic, exactly when there are no arguments; otherwise converts the first |
| StringMethods.ToNumberReadsFirstOnly | src/interpreter/methods/string.rs:14-17 | only the first argument matters |

## Left out

- Floating-point arithmetic and the value operations of `src/interpreter/value.rs`
  (`add_value`, `to_bool`, the comparisons, `to_string`, `convert_to_number`). They are
  parameters of the model (`ValueOps`), and a float is only its bit pattern. `Float(-1.0)`,
  which unary minus multiplies by, is the pattern `0xBF800000`.
- The conversion of numeral text to a value (`build_node` in `src/node.rs`) is `ops.numeral`.
  `src/node.rs` itself, with its float evaluator and tree printing, is not part of this model.
  The expression tree is declared from its uses in the parser and the evaluator.
- `String::convert(...).unwrap()` in `fn_str_concat` is taken to give back the text unchanged.
- The built-in registry of `src/interpreter/methods/mod.rs` (the link-time `inventory`) is a
  name-to-function map. The console built-ins (`print`, `println`, `readln`) and the `f32`
  built-ins of `math.rs` are left out as I/O and float maths.
- `src/interpreter/interpreter.rs`, `src/interpreter.rs` and
  `src/interpreter/node_interpreted.rs` are earlier evaluators that the interpreter module does
  not declare. `src/main.rs` and `src/error.rs` only print and exit. None of these is part of
  this model. `parser_errors.rs` and `lexer_errors.rs` only format messages; their error kinds
  are constructors.
- `token_parse_error` prints and exits the process. The model returns the failure
  (`MalformedNumberLiteral`, `UnrecognizedCharacter`). A loop that would never end is the
  `Hangs` outcome, and a panic is `UnwrapPanic`.
- `char::is_numeric` accepts every Unicode numeric character. The model takes the ASCII digits.
- The lexer shown never emits the keyword tokens (`if`, `else`, `func`, `return`, `{`, `}`,
  booleans) that the parser consumes. The parser is modelled over one token type that covers
  everything it matches.
- Lexer.OperatorTypeOf: `src/lexer.rs` attaches one of three classes without sub-types
  (`Additive` for `+` and `-`, `Factorial` for `*` and `/`, `Exponential` for `^`). The parser
  and the evaluator dispatch on classes with sub-types, so the model attaches the class with the
  sub-type the character denotes (`Additive(Sub)` for `-`, `Multiplicative(Div)` for `/`).
- `src/interpreter/scope.rs` has one map per scope, for variables, with `define` and `lookup`.
  `src/interpreter/execution_context.rs:46-62` calls `define_variable`, `define_function`,
  `lookup_variable` and `lookup_function` on the arena, which that file does not define. The
  model gives every scope a second map for function declarations. It is defined and looked up
  with the same discipline as `define` and `lookup` on variables (`Namespace`).
- Lexer.NumeralStep: `src/lexer.rs:214-221` pushes a bare `NumeralLiteral`, while the parser
  (`src/parser.rs:307`) matches a `NumeralLiteral(_)` with a payload. The model reconciles the
  two: the lexer's numeral token carries a kind derived from its `is_floating` flag,
  `FloatNumeral` exactly when the text has a dot. The same holds for `Lexer.TokenParser.Next`.
- Parser.Leaf: `build_node` is not part of this model. The leaf branch of `parse_term` cannot
  fail in the source; the model fails with `UnexpectedEmptyValue` for a leaf token without text
  and reads a boolean literal as true exactly when its text is `true`. The lexer emits neither a
  leaf without text nor a boolean literal.
- `operator_predecende` returns a single number in the lexer, while the parser reads a pair
  with an associativity flag. `Tokens.OperatorPrecedence`: right associativity is assumed for
  `^` only, which `2^3^2 == 512` in the end-to-end tests requires.
- Parser.OperatorsComplete: the parser routines require every operator token to carry its
  text and class, because the source unwraps the text and would panic. The lexer's output always
  satisfies this (`LexedTokensAreComplete`).
- ExecutionContexts.Ctx.SetReturnValue: it requires a return slot, where the source panics
  without one. Every caller checks `is_in_function` first.
- Scopes.ScopeArena.DefineVariable: it requires an existing scope id, where the source would
  panic on the index. The same holds for `DefineFunction`.
- `define_variable_in_scope` and `define_function_in_scope` always return `Ok(())`. They are
  modelled without a result.
- The `Debug` text of the node in `Unrecognized node ...` is a parameter (`env.describe`).
- `Option<Block>` for the `else` branch is the datatype `ElseBranch`.
- `StackFrame` is declared with the runtime errors rather than the call stack, to keep the
  modules acyclic.
- Recursion depth: a user call spends one unit of fuel. With no fuel left the outcome is
  `OutOfFuel`, which the source does not have. The source would recurse until the Rust stack
  overflows.
- Semantics.EvalCall: success is specified; the contents of the context after an error are
  only bounded (it stays valid and keeps its scopes), matching a source that skips its cleanup
  on errors.
- Semantics.InvokeUser: the same as `EvalCall`, for the part after the arguments are evaluated.
