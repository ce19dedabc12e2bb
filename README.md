# tamago core, modelled in Dafny

tamago is a small Go compiler. It reads one line at a time and lowers the
integer arithmetic on that line (`+ - * /` over decimal literals, statements
separated by `;`) to LLVM IR. This project models its three stages and proves
what they promise:

- **lexer** (`lexer/lexer.go`): a byte cursor that turns a line into tokens.
  The cursor is the class `Lexer.Lexer`. Each of its methods is proved
  against `Lexer.Scan`, a pure function that gives the token and the new
  cursor position of one `NextToken` call.
- **parser** (`parser/parser.go`): a Pratt parser with one token of
  lookahead. The parser object is the class `Parser.Parser`. Each method is
  proved equal to a state-passing function over `PState`, which holds the
  current and peek tokens, the lexer's cursor and the errors so far.
  `Parser.Parse` is the whole line. The functions take the lexer as a
  parameter of type `Parser.Scanner`: any function from a cursor position to
  a token and a new position that meets what the parser relies on of
  `NextToken` (`Parser.Scans`). `Lexer.Scan` meets it, and `Parse` uses it.
  Most of the parser's lemmas are stated for every such scanner.
- **compiler** (`compiler/compiler.go`): lowers a program into one function
  `main` returning `i64`. That function has one block `entry`; the block
  holds each statement's instructions in order and returns the value of the
  last statement. The compiler object is the class `Compiler.Compiler`. It
  drives small classes standing for the IR builder (`Ir.Module`, `Ir.Func`,
  `Ir.Block`). Its methods are proved to append exactly what the pure
  functions `Compiler.Lower` and `Compiler.LowerStatements` say. The builder
  takes an instruction's type from its left operand, so a nil left operand
  panics while building. A nil right operand is stored in the instruction,
  and the panic comes only when `Compile` prints the module. Printing
  covers every function the object has built, so it also panics on the
  unterminated `main` that an earlier failed `Compile` left behind.

The main results:

- Every parse error stands for exactly one nil slot in the tree. So an empty
  error list means every tree is complete
  (`ParserProperties.ErrorsCountMissingNodes`).
- A tree parsed without errors groups operators by precedence and associates
  to the left (`ParserProperties.ParsedWithoutErrors`).
- A line parsed without errors holds exactly its tokens. The statements'
  tokens in source order, each followed by the `;` it consumed, are what the
  lexer gives for the line before EOF. Every literal's value and every
  operator's text is read from its own token
  (`ParserTokens.ParsedTokens`).
- The statement loop ends: a line yields at most as many statements as it
  has bytes (`ParserProperties.StatementsBoundedByInput`).
- Lowering fails exactly on trees with a nil left operand or an operator
  outside the four (`CompilerProperties.LowerFails`). A successful lowering
  prints exactly when no right operand is nil either
  (`CompilerProperties.LowerPrintable`).
- The emitted instructions compute the same number as evaluating the tree,
  for every reading of the four opcodes (`CompilerProperties.LowerComputes`).
- A line the parser accepts always compiles and prints, without a panic, and
  `main` returns the value of its last statement
  (`CompilerProperties.AcceptedLinesCompile`).

Three behaviours of the code worth knowing:

- An unrecognised byte is not skipped. `NextToken` returns the
  zero-valued token (empty kind, empty literal) and moves past the byte. The
  parser then reports that token as an expression that cannot start
  (`LexerProperties.ScanUnknownByte`).
- An empty program compiles. `compileProgram` emits `ret` with
  a nil value, which the builder prints as `ret void` inside a function
  declared to return `i64` (`CompilerExamples.EmptyLine`).
- A NUL byte inside the line reads as end of input, as it does past the end
  (`LexerProperties.ScanNul`).

## Model

| member | source | states |
|---|---|---|
| Lexer.SkipWhitespace | lexer/lexer.go:87-91 | the cursor stops at the first byte at or after the start that is not space, tab, newline or carriage return; every byte skipped is one of those and inside the line |
| Lexer.DigitRunEnd | lexer/lexer.go:75-85 | the cursor stops at the first byte that is not a decimal digit; every byte passed is a digit inside the line |
| Token.DigitCharacters | lexer/lexer.go:83-85 | a byte is a digit exactly when it is one of the ten characters `0` to `9` |
| Lexer.NewToken | lexer/lexer.go:49-55 | the token has the kind given; an EOF token has an empty literal and any other kind the one character given; a one-character token made from its own character, and EOF, are well formed |
| Lexer.Scan | lexer/lexer.go:19-55 | one `NextToken` always moves the cursor forward; every token but EOF lies inside the line; every token is well formed: an operator or `;` carries its own character, EOF an empty literal, INT a non-empty digit run |
| Lexer.Lexer.constructor | lexer/lexer.go:13-17 | a new lexer holds the line, with the cursor on its first byte and the cursor invariant established |
| Lexer.Lexer.ReadChar | lexer/lexer.go:58-66 | loads the byte at `readPosition`, or NUL past the end, and moves both positions on by one |
| Lexer.Lexer.SkipWhiteSpace | lexer/lexer.go:87-91 | the loop leaves the cursor where `SkipWhitespace` says and keeps the cursor invariant |
| Lexer.Lexer.ReadNumber | lexer/lexer.go:75-81 | consumes the digit run and returns exactly the slice of the line it covers |
| Lexer.Lexer.NextToken | lexer/lexer.go:19-47 | returns the token `Scan` gives and leaves the cursor where `Scan` says |
| LexerProperties.ScanIntegerLiteral | lexer/lexer.go:37-42 | a digit starts one INT token whose literal is the maximal digit run; the cursor is left on the first byte after it, not on a digit |
| LexerProperties.ScanSingleCharacter | lexer/lexer.go:25-36 | each of `; + - * /` is a token of its own kind, its literal is that character, and it consumes exactly one byte |
| LexerProperties.ScanNul | lexer/lexer.go:27-28 | NUL, past the end or inside the line, is EOF with an empty literal |
| LexerProperties.ScanUnknownByte | lexer/lexer.go:37-46 | any other byte gives the zero-valued token and consumes exactly that byte, so the lexer never fails |
| LexerProperties.EndOfInputForever | lexer/lexer.go:58-63 | once the line is exhausted, every further call returns EOF with an empty literal |
| LexerProperties.DigitRunToEnd | lexer/lexer.go:75-81 | on a line of digits the digit run reaches the end of the line |
| LexerProperties.DigitsTokenize | lexer/lexer.go:19-47 | a non-empty run of digits tokenizes to one INT token holding exactly that text, followed by EOF |
| LexerProperties.NewlineSeparatedIntegers | lexer/lexer_test.go:8-37 | the line `\n7\n773\n` gives INT 7, INT 773 and EOF |
| Strconv.ParseInt | parser/parser.go:176 | `strconv.ParseInt(lit, 0, 64)` on a digit string never yields a negative value |
| Strconv.Decimal | parser/parser_test.go:128 | the `%d` text of a number is a non-empty digit run |
| Strconv.DecimalValue | parser/parser_test.go:128 | the digits of `%d` spell back the number |
| Strconv.DecimalRoundTrip | parser/parser.go:176-181 | parsing the `%d` text of a number gives the number back when it fits 64 bits, and fails for every larger number |
| Strconv.LeadingZeroIsOctal | parser/parser.go:176 | with base 0 a leading zero means octal: `010` is 8, `08` fails, `0` is 0 |
| Parser.Precedence | parser/parser.go:42-54 | every precedence lies between LOWEST and INDEX; `+ -` are SUM and `* /` PRODUCT, both ways; a kind missing from the table is LOWEST, both ways |
| Parser.Messages | parser/parser.go:154-157 | one message per error, in order, each the rendering of that error |
| Parser.Advance | parser/parser.go:187-190 | `nextToken` shifts the peek token into the current one, leaves the errors alone, moves the lexer's cursor forward and keeps the state well formed |
| Parser.Start | parser/parser.go:56-73 | a new parser is in a well-formed state with no errors |
| Parser.ParseIntegerLiteralFrom | parser/parser.go:173-185 | the token window and the cursor stay put; a literal node holding the current token and the value `ParseInt` reads comes back exactly when no error is recorded; otherwise the result is nil and the one error `NotAnInteger` of that literal is appended |
| Parser.ParseExpressionFrom | parser/parser.go:133-152 | `parseExpression` keeps the state well formed, never moves the cursor back and only appends errors |
| Parser.InfixLoopFrom | parser/parser.go:141-151 | the loop keeps the state well formed, never moves the cursor back and only appends errors |
| Parser.ParseInfixFrom | parser/parser.go:118-131 | `parseInfixExpression` consumes at least the operator, so the cursor moves strictly forward; the state stays well formed and errors are only appended |
| Parser.ParseExpressionStatementFrom | parser/parser.go:106-116 | a statement keeps the state well formed, never moves the cursor back and only appends errors |
| Parser.ParseProgramFrom | parser/parser.go:75-88 | the statement loop ends on EOF in a well-formed state, having only appended errors |
| Parser.Parse | parser/parser.go:75-88 | a line yields no statements exactly when the first token a new parser sees is EOF |
| Parser.Parser.constructor | parser/parser.go:56-73 | `New` reads two tokens: the parser's state is `Start` from the lexer's cursor |
| Parser.Parser.Errors | parser/parser.go:90-92 | one message per recorded error, in the order recorded, each the rendering of its error |
| Parser.Parser.PeekPrecedence | parser/parser.go:159-164 | the lookahead binds at SUM exactly for `+ -` and at PRODUCT exactly for `* /`; every operator with an infix rule binds above LOWEST; EOF, INT, `;` and the zero kind bind at LOWEST |
| Parser.Parser.CurPrecedence | parser/parser.go:166-171 | the same for the current token |
| Parser.Parser.NextToken | parser/parser.go:187-190 | the new state is `Advance` of the old one |
| Parser.Parser.NoPrefixParseFnError | parser/parser.go:154-157 | appends one error naming the token kind and changes no token |
| Parser.Parser.ParseIntegerLiteral | parser/parser.go:173-185 | the literal node with the parsed value, or nil and one error when the literal does not parse |
| Parser.Parser.ParseExpression | parser/parser.go:133-152 | the object's new state and result are those of `ParseExpressionFrom` |
| Parser.Parser.ParseInfixExpression | parser/parser.go:118-131 | the object's new state and result are those of `ParseInfixFrom` |
| Parser.Parser.ParseExpressionStatement | parser/parser.go:106-116 | the object's new state and result are those of `ParseExpressionStatementFrom` |
| Parser.Parser.ParseProgram | parser/parser.go:75-88 | the object's new state and statements are those of `ParseProgramFrom` |
| Parser.ParseLine | main.go:26-29 | a new lexer and parser on one line produce exactly `Parse` of that line: its program, and the messages of its errors as `Errors` gives them |
| ParserProperties.CompleteIffNothingMissing | parser/parser.go:133-138 | a tree is complete exactly when it has no nil slot |
| ParserProperties.DecimalLiteral | parser/parser.go:173-185 | an INT token spelling a number as `%d` does reads back as that number when it fits 64 bits, with the state unchanged; a larger one gives nil and records `could not parse "<n>" as integer` |
| ParserProperties.ExpressionShape | parser/parser.go:133-152 | `parseExpression` records exactly as many errors as it leaves nil slots; with none, the tree is sound, its root binds more tightly than the precedence given, and the lookahead left cannot extend it |
| ParserProperties.InfixLoopShape | parser/parser.go:141-151 | the loop's new errors match the nil slots it adds; starting from a sound operand it keeps the operand sound and stops where the lookahead cannot extend it |
| ParserProperties.InfixShape | parser/parser.go:118-131 | the node holds the operator token, its literal and the left operand given; its errors match its nil slots; with a sound left operand that binds at least as tightly as the operator, the node is sound |
| ParserProperties.ProgramShape | parser/parser.go:75-88 | the program's errors match its nil slots, and the loop makes at most one statement per position left |
| ParserProperties.NothingMissingInStatements | parser/parser.go:75-88 | statements have no nil slot exactly when each has an expression and every tree is complete |
| ParserProperties.ErrorsCountMissingNodes | parser/parser.go:133-138 | the number of errors is the number of nil slots, so the error list is empty exactly when every statement and every infix node is complete |
| ParserProperties.SoundWithoutErrors | parser/parser.go:75-88 | statements parsed without new errors are all present and sound |
| ParserProperties.ParsedWithoutErrors | main.go:29-33 | a line with no parse errors yields only sound trees: complete, grouped by precedence, left-associative, over the four operators |
| ParserProperties.StatementsBoundedByInput | parser/parser.go:79-85 | the statement loop ends: a line yields at most as many statements as it has bytes |
| ParserExamples.IntegerLiteralStatement | parser/parser_test.go:10-43 | `773;` is one statement holding the literal 773, with no errors |
| ParserExamples.SingleInfixStatement | parser/parser_test.go:45-78 | `5 + 5`, `5 - 5`, `5 * 5` and `5 / 5` are one infix statement with 5 on both sides, with no errors |
| ParserExamples.ProductBindsTighter | parser/parser.go:42-54 | `1 + 2 * 3` parses as `1 + (2 * 3)` |
| ParserExamples.SubtractionAssociatesLeft | parser/parser.go:141 | `43 - 1 - 1` parses as `(43 - 1) - 1` |
| ParserExamples.ErrorsAccumulate | parser/parser.go:133-138 | `+;+` gives two statements without expressions and two errors, in order, and the loop still ends |
| ParserExamples.PlusSemicolonPlusMessages | parser/parser.go:90-92 | on the lexer and parser objects, `Errors` after `+;+` is `no prefix parse function for + found`, twice |
| ParserTokens.ExpressionRead | parser/parser.go:133-152 | `parseExpression` without new errors builds a tree whose every literal holds an INT token and the value `ParseInt` reads from it, and whose every operator is its token's text |
| ParserTokens.InfixLoopRead | parser/parser.go:141-151 | the loop without new errors keeps a tree read that way |
| ParserTokens.InfixRead | parser/parser.go:118-131 | an infix node built without new errors on a left operand read that way is read that way |
| ParserTokens.ExpressionTokens | parser/parser.go:133-152 | `parseExpression` without new errors builds a tree whose tokens, in order, are exactly the tokens the parser moves over, and leaves the state those moves reach |
| ParserTokens.InfixLoopTokens | parser/parser.go:141-151 | the loop without new errors appends to the left operand's tokens exactly the tokens it moves over |
| ParserTokens.InfixLoopRound | parser/parser.go:141-149 | one round of the loop and the rest after it append exactly the tokens they move over |
| ParserTokens.InfixTokens | parser/parser.go:118-131 | an infix node built without new errors holds the left operand's tokens, then the operator and the tokens moved over after it |
| ParserTokens.StatementTokens | parser/parser.go:106-116 | a statement parsed without new errors has an expression read from its tokens, starts at its first token and holds no EOF; the tokens moved over are the expression's, followed by the `;` when one was consumed |
| ParserTokens.ProgramTokens | parser/parser.go:75-88 | the statement loop without new errors moves over tokens that the statements spell in order, with their `;`, holding no EOF, and every statement reads its tokens |
| ParserTokens.StreamTokenize | parser/parser.go:187-190 | the tokens a parser state in step with the lexer moves over, up to EOF, are what `Tokenize` gives from that position |
| ParserTokens.ParsedTokens | parser/parser.go:75-88 | a line parsed without errors: its statements spell the line's tokens before EOF, in order, each followed by the `;` it consumed, and every statement reads its tokens |
| Ir.Block.NewInstruction | compiler/compiler.go:90-97 | `NewAdd`/`NewSub`/`NewMul`/`NewSDiv` append one instruction to the block, a nil right operand included, and return the value it defines |
| Ir.Block.NewRet | compiler/compiler.go:55 | `NewRet` sets the block's terminator and leaves its instructions alone |
| Ir.Func.NewBlock | compiler/compiler.go:41 | `NewBlock` appends a fresh empty block with that name |
| Ir.Module.NewFunc | compiler/compiler.go:40 | `NewFunc` appends a fresh function without blocks |
| Compiler.OpcodeOf | compiler/compiler.go:89-99 | `+ - * /` select `add sub mul sdiv`, each in both directions, and every other string selects nothing |
| Compiler.Lower | compiler/compiler.go:68-104 | lowering only appends to the block; on success it appends one instruction per infix node, gives a value exactly when there is an expression, and that value refers only to instructions already emitted; a block whose instructions use only earlier results stays so |
| Compiler.LowerProgram | compiler/compiler.go:39-58 | the block of `main` uses only constants and earlier results, and the value it returns is defined in it |
| Compiler.LowerStatements | compiler/compiler.go:46-53 | the statement loop only appends to the block, keeps every instruction using only earlier results, and leaves a value that refers to emitted instructions |
| Compiler.Report | compiler/compiler.go:99 | the error for an unknown operator is `invalid operator` followed by that operator; a value passes through |
| Compiler.Compiler.constructor | compiler/compiler.go:18-24 | `New` makes an empty module and no current function or block |
| Compiler.Compiler.Compile | compiler/compiler.go:26-37 | a node other than a program is refused with `node must be *ast.Program` and nothing changes; a program is compiled as `compileProgram` says, and the module is returned unless that failed; a returned module prints, every block of every function having a terminator and both operands of every instruction |
| Compiler.Compiler.CompileProgram | compiler/compiler.go:39-58 | appends one fresh function `main` returning `i64` with one block `entry`; the block holds what `LowerStatements` emits and, on success, returns the last statement's value; the error is returned otherwise |
| Compiler.Compiler.CompileStatement | compiler/compiler.go:60-66 | an expression statement appends what `Lower` gives for its expression and returns its result |
| Compiler.Compiler.CompileExpression | compiler/compiler.go:68-86 | appends exactly what `Lower` says to the current block, leaves its terminator alone and returns the value or the error |
| Compiler.Compiler.CompileInfixExpression | compiler/compiler.go:88-100 | one of the four operators appends its instruction on the two operands, a nil right one included, and returns its value; any other operator emits nothing and returns `invalid operator <op>`, whatever the operands |
| Compiler.Compiler.CompileIntegerLiteral | compiler/compiler.go:102-104 | a literal is the `i64` constant of its value |
| CompilerProperties.Run | compiler/compiler.go:88-100 | running a block that prints gives one number per instruction |
| CompilerProperties.RunExtends | compiler/compiler.go:46-53 | appending instructions does not change what the earlier ones compute |
| CompilerProperties.LowerComputes | compiler/compiler.go:68-104 | a complete tree over the four operators lowers successfully onto a block that prints, the block still prints, and its value, once the block has run, is the tree's value, for every reading of the opcodes |
| CompilerProperties.LowerFails | compiler/compiler.go:68-100 | lowering succeeds exactly on trees over the four operators in which every infix node has a left operand; a nil left operand under one of the four is the builder's panic; the error names an operator outside the four; each failure happens whenever only its own cause is present |
| CompilerProperties.LowerPrintable | compiler/compiler.go:36 | after a successful lowering the block prints exactly when it printed before and the tree has every operand: a nil right operand is an instruction the module cannot print |
| CompilerProperties.LowerStatementsComputes | compiler/compiler.go:46-55 | statements with complete arithmetic trees compile, and the value left is the last statement's value; with no statements the value given is kept and nothing is emitted |
| CompilerProperties.AcceptedLinesCompile | main.go:29-36 | a line without parse errors always compiles and prints without a panic; the block uses only earlier results, and `main` returns the value of the last statement, or nil when there is none |
| CompilerProperties.LowerStatementsSize | compiler/compiler.go:46-53 | a successful compilation emits exactly one instruction per infix node |
| CompilerExamples.SingleInfixCompiles | compiler/compiler.go:88-100 | `5 op 5` compiles to one instruction of that op on two constants, and `main` returns its result |
| CompilerExamples.SingleInfixResults | compiler/compiler.go:90-97 | on `i64`, `5 + 5`, `5 - 5`, `5 * 5` and `5 / 5` compute 10, 0, 25 and 1 |
| CompilerExamples.PrecedenceCompiles | compiler/compiler.go:68-81 | `1 + 2 * 3` emits the `mul` first and the `add` on its result |
| CompilerExamples.PrecedenceResult | compiler/compiler.go:90-95 | that code computes 6 and then 7 |
| CompilerExamples.SubtractionCompiles | compiler/compiler.go:68-81 | `43 - 1 - 1` emits the inner `sub` first and the outer one on its result |
| CompilerExamples.SubtractionResult | compiler/compiler.go:92-93 | that code computes 42 and then 41 |
| CompilerExamples.UnusualTrees | compiler/compiler.go:68-100 | an unknown operator is reported only after its operands are lowered, keeping what they emitted; a statement without an expression leaves a nil value as the return |
| CompilerExamples.NilOperands | compiler/compiler.go:88-99 | a nil left operand under `+` is the builder's panic, but under an unknown operator the operator error comes first; a nil right operand is emitted, and the module then cannot be printed |
| CompilerExamples.NilRightThenModuloLowers | compiler/compiler.go:46-53 | a statement with a nil right operand followed by one with `%` lowers to the first instruction and the operator error, with no panic |
| CompilerExamples.CompileNilRightThenModulo | compiler/compiler.go:26-37 | `Compile` on that program returns `invalid operator %` |
| CompilerExamples.FailureLeavesUnprintableMain | compiler/compiler.go:36-58 | a failed `Compile` of `1 % 2` returns `invalid operator %` and leaves its `main` in the module without a terminator, so the module no longer prints |
| CompilerExamples.DivisionOverflowWraps | compiler/compiler.go:96-97 | the machine reading wraps MinInt64 divided by -1 to MinInt64 |
| CompilerExamples.EmptyLine | compiler/compiler.go:46-55 | an empty line parses without errors to no statements, and `main` returns a nil value |
| CompilerExamples.CompileOnObject | compiler/compiler.go:26-37 | on the object, the tree of `5 * 5` compiles into the one function `main` whose block holds exactly one `mul` of 5 by 5 and `ret` of its result; a statement node is then refused with `node must be *ast.Program` and the module's functions unchanged |

## Left out

- Bytes are modelled as `char`, one per byte of the line. Go indexes a string by byte, so the model has no Unicode and no encoding.
- `peekChar` (lexer/lexer.go:68-73) has no caller in the core, so it is not modelled.
- The `token` and `ast` packages are not part of this model. The token kinds are the ones the lexer and the parser name. `Token.KindName` uses the conventional spellings of their Go constants, which error messages print with `%s`.
- Strconv.ParseInt: only digit strings are modelled, because the lexer makes no other literals. Signs, `0x`/`0b`/`0o` prefixes and `_` separators are left out.
- The parser's error list is kept as structured errors. `Parser.Parser.Errors` renders them as the Go strings.
- `registerPrefix`, `registerInfix` and the two dispatch maps are modelled as the fixed predicates `HasPrefixRule` and `HasInfixRule`. `parseStatement`, `curTokenIs` and `peekTokenIs` are one-line wrappers and are inlined.
- The IR builder library is not part of this model. `Ir` keeps only the structure the compiler builds: functions, blocks, instructions and terminators.
- `Module.String()` is modelled only as whether it panics. `Ir.Prints` holds when it does not: every block of every function has a terminator, and every instruction has its right operand (`Ir.Printable`). `Compiler.Compiler.Compile` returns the module's functions in place of their printed text.
- Instructions refer to earlier results by position in the block. The builder's `%N` names are not modelled.
- Compiler.Compiler.CompileExpression: the builder panics when an arithmetic instruction gets a nil left operand. The model cannot crash, so the compiler's methods require that lowering does not reach that panic (`!Panics(...)`).
- Compiler.Compiler.Compile: printing panics on an instruction with a nil right operand or a block without a terminator, in any function of the module. `Compile` prints only a module that compiled, so on that path it requires that the new block prints (`!PrintPanics(...)`) and that the functions of earlier calls print (`Ir.Prints`). A `Compiler` reused after a failed `Compile` breaks the second condition (`CompilerExamples.FailureLeavesUnprintableMain`); `main.go` builds a fresh compiler for each line, so it never reuses one. `CompilerProperties.AcceptedLinesCompile` proves that no panic can happen on a line the parser accepts.
- `compileStatement` and `compileExpression` return nil for other node types. The model has no other statement or expression kinds, so those branches cannot be written.
- Runtime meaning of `i64` arithmetic: the main theorems hold for every reading of the four opcodes. `CompilerProperties.MachineApply` is one such reading, with two's-complement wrap-around and `sdiv` truncating toward zero. It returns 0 on division by zero, and it wraps `MachineApply(SDiv, MinInt64, -1)` to MinInt64 (`CompilerExamples.DivisionOverflowWraps`). LLVM leaves both results undefined.
- The read–print loop in `main.go` (standard input and output, printing errors and IR) is I/O and is left out. Its one decision is kept: a line with parse errors is not compiled. `Parser.ParseLine` and `CompilerProperties.AcceptedLinesCompile` state what happens on the other path.
