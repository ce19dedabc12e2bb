/** Lines taken through the parser and the compiler, stated as lemmas and as
  * a client of the `Compiler` object. */
module CompilerExamples {
  import opened Wrappers
  import opened Token
  import opened Strconv
  import opened Ast
  import opened Ir
  import opened Compiler
  import opened Parser
  import opened CompilerProperties
  import opened ParserExamples
  import Lexer

  function OpcodeFor(c: char): Opcode
    requires c in "+-*/"
  {
    OpcodeOf([c]).value
  }

  /** A program of one statement compiles to what its expression lowers to. */
  lemma OneStatement(stmt: Statement, code: seq<Instruction>, last: Option<Value>)
    ensures LowerStatements([stmt], code, last) == Lower(stmt.expression, code)
  {
    assert [stmt][1..] == [];
  }

  /** A line that parses to one statement compiles to what that statement's
    * expression lowers to. */
  lemma OneStatementLine(input: string, stmt: Statement)
    requires Parse(input).0.statements == [stmt]
    ensures LowerProgram(Parse(input).0) == Lower(stmt.expression, [])
  {
    OneStatement(stmt, [], None);
  }

  /** `5 + 5`, `5 - 5`, `5 * 5` and `5 / 5` each become one instruction on
    * two constants, and `main` returns its result. */
  lemma SingleInfixCompiles(c: char)
    requires c in "+-*/"
    ensures LowerProgram(Parse("5 " + [c] + " 5").0) ==
              Lowered([Instruction(OpcodeFor(c), Const(5), Some(Const(5)))], Ok(Some(Ref(0))))
  {
    SingleInfixStatement(c);
    var e := Infix(c, Lit("5", 5), Lit("5", 5));
    OneStatement(ExpressionStatement(Token(Int, "5"), e), [], None);
    assert Lower(e, []) == Lowered([Instruction(OpcodeFor(c), Const(5), Some(Const(5)))], Ok(Some(Ref(0))));
  }

  /** On `i64` those lines return 10, 0, 25 and 1. */
  lemma SingleInfixResults()
    ensures Run([Instruction(Add, Const(5), Some(Const(5)))], MachineApply) == [10]
    ensures Run([Instruction(Sub, Const(5), Some(Const(5)))], MachineApply) == [0]
    ensures Run([Instruction(Mul, Const(5), Some(Const(5)))], MachineApply) == [25]
    ensures Run([Instruction(SDiv, Const(5), Some(Const(5)))], MachineApply) == [1]
  {
    assert TruncatedDiv(5, 5) == 1;
  }

  /** The one overflowing division: `MachineApply` wraps MinInt64 / -1 to
    * MinInt64, a case LLVM leaves undefined for `sdiv`. */
  lemma DivisionOverflowWraps()
    ensures MachineApply(SDiv, MinInt64, -1) == MinInt64
  {
    assert TruncatedDiv(MinInt64, -1) == -MinInt64;
  }

  lemma RunTwo(first: Instruction, second: Instruction, apply: (Opcode, int, int) -> int)
    requires first.y.Some? && second.y.Some?
    ensures var v := apply(first.op, Operand(first.x, []), Operand(first.y.value, []));
            Run([first, second], apply) == [v, apply(second.op, Operand(second.x, [v]), Operand(second.y.value, [v]))]
  {
    assert [first, second][..1] == [first];
    assert [first][..0] == [];
  }

  lemma LowerProductInSum()
    ensures Lower(Infix('+', Lit("1", 1), Infix('*', Lit("2", 2), Lit("3", 3))), []) ==
              Lowered([Instruction(Mul, Const(2), Some(Const(3))), Instruction(Add, Const(1), Some(Ref(0)))], Ok(Some(Ref(1))))
  {
    var product := Infix('*', Lit("2", 2), Lit("3", 3));
    assert Lower(product, []) == Lowered([Instruction(Mul, Const(2), Some(Const(3)))], Ok(Some(Ref(0))));
  }

  /** `1 + 2 * 3`: the product is computed first and the sum uses its
    * result. */
  lemma PrecedenceCompiles()
    ensures LowerProgram(Parse("1 + 2 * 3").0) ==
              Lowered([Instruction(Mul, Const(2), Some(Const(3))), Instruction(Add, Const(1), Some(Ref(0)))], Ok(Some(Ref(1))))
  {
    ProductBindsTighter();
    var sum := Infix('+', Lit("1", 1), Infix('*', Lit("2", 2), Lit("3", 3)));
    OneStatementLine("1 + 2 * 3", ExpressionStatement(Token(Int, "1"), sum));
    LowerProductInSum();
  }

  /** On `i64` that code computes 6 and then 7, the value `main` returns. */
  lemma PrecedenceResult()
    ensures Run([Instruction(Mul, Const(2), Some(Const(3))), Instruction(Add, Const(1), Some(Ref(0)))], MachineApply) == [6, 7]
  {
    RunTwo(Instruction(Mul, Const(2), Some(Const(3))), Instruction(Add, Const(1), Some(Ref(0))), MachineApply);
  }

  lemma LowerDifferenceOfDifference()
    ensures Lower(Infix('-', Infix('-', Lit("43", 43), Lit("1", 1)), Lit("1", 1)), []) ==
              Lowered([Instruction(Sub, Const(43), Some(Const(1))), Instruction(Sub, Ref(0), Some(Const(1)))], Ok(Some(Ref(1))))
  {
    var inner := Infix('-', Lit("43", 43), Lit("1", 1));
    assert Lower(inner, []) == Lowered([Instruction(Sub, Const(43), Some(Const(1)))], Ok(Some(Ref(0))));
  }

  /** `43 - 1 - 1` subtracts in source order. */
  lemma SubtractionCompiles()
    ensures LowerProgram(Parse("43 - 1 - 1").0) ==
              Lowered([Instruction(Sub, Const(43), Some(Const(1))), Instruction(Sub, Ref(0), Some(Const(1)))], Ok(Some(Ref(1))))
  {
    SubtractionAssociatesLeft();
    var outer := Infix('-', Infix('-', Lit("43", 43), Lit("1", 1)), Lit("1", 1));
    OneStatementLine("43 - 1 - 1", ExpressionStatement(Token(Int, "43"), outer));
    LowerDifferenceOfDifference();
  }

  /** On `i64` that code computes 42 and then 41. */
  lemma SubtractionResult()
    ensures Run([Instruction(Sub, Const(43), Some(Const(1))), Instruction(Sub, Ref(0), Some(Const(1)))], MachineApply) == [42, 41]
  {
    RunTwo(Instruction(Sub, Const(43), Some(Const(1))), Instruction(Sub, Ref(0), Some(Const(1))), MachineApply);
  }

  /** The compiler on trees the parser cannot build: an unknown operator is
    * reported after its operands are lowered, and a statement without an
    * expression leaves a nil value, so `main` ends in `ret void`. */
  lemma UnusualTrees()
    ensures var modulo := Some(InfixExpression(Token(Empty, ""), "%", Lit("1", 1), Lit("2", 2)));
            Lower(modulo, []) == Lowered([], Err(InvalidOperator("%")))
    ensures var nested := Some(InfixExpression(Token(Empty, ""), "%",
                          Infix('+', Lit("1", 1), Lit("2", 2)), Lit("3", 3)));
            Lower(nested, []) == Lowered([Instruction(Add, Const(1), Some(Const(2)))], Err(InvalidOperator("%")))
    ensures LowerProgram(Program([ExpressionStatement(Token(Int, "7"), Lit("7", 7)),
                                  ExpressionStatement(Token(Empty, ""), None)])) ==
              Lowered([], Ok(None))
  {
    var stmts := [ExpressionStatement(Token(Int, "7"), Lit("7", 7)), ExpressionStatement(Token(Empty, ""), None)];
    assert stmts[1..][1..] == [];
  }

  /** Nil operands, which the parser leaves after an error: a nil left
    * operand makes the builder panic, unless the operator is unknown and
    * is reported first; a nil right operand is emitted as it is, and the
    * module then cannot be printed. */
  lemma NilOperands()
    ensures Lower(Infix('+', None, Lit("2", 2)), []) == Lowered([], Err(NilOperand))
    ensures Lower(Some(InfixExpression(Token(Empty, ""), "%", None, Lit("2", 2))), []) ==
              Lowered([], Err(InvalidOperator("%")))
    ensures var program := Program([ExpressionStatement(Token(Int, "1"), Infix('+', Lit("1", 1), None))]);
            && LowerProgram(program) == Lowered([Instruction(Add, Const(1), None)], Ok(Some(Ref(0))))
            && PrintPanics(LowerProgram(program))
  {
    OneStatement(ExpressionStatement(Token(Int, "1"), Infix('+', Lit("1", 1), None)), [], None);
    assert [Instruction(Add, Const(1), None)][0].y == None;
  }

  /** The program of a statement with a nil right operand followed by an
    * unknown operator: the first statement emits its instruction, the
    * second reports the operator, and nothing panics, since the module is
    * not printed. */
  function NilRightThenModulo(): Program {
    Program([ExpressionStatement(Token(Int, "1"), Infix('+', Lit("1", 1), None)),
             ExpressionStatement(Token(Int, "1"),
               Some(InfixExpression(Token(Empty, ""), "%", Lit("1", 1), Lit("2", 2))))])
  }

  lemma NilRightThenModuloLowers()
    ensures LowerProgram(NilRightThenModulo()) == Lowered([Instruction(Add, Const(1), None)], Err(InvalidOperator("%")))
    ensures !Panics(LowerProgram(NilRightThenModulo())) && !PrintPanics(LowerProgram(NilRightThenModulo()))
  {
    var stmts := NilRightThenModulo().statements;
    assert stmts[1..][1..] == [];
  }

  /** `Compile` on that program returns the operator error. */
  method CompileNilRightThenModulo() returns (r: Result<seq<Func>, string>)
    ensures r == Err("invalid operator %")
  {
    NilRightThenModuloLowers();
    assert "invalid operator " + "%" == "invalid operator %";
    var c := new Compiler();
    r := c.Compile(ProgramNode(NilRightThenModulo()));
  }

  /** A failed `Compile` leaves its `main` in the module without a
    * terminator, so the module no longer prints: a later `Compile` on the
    * same object that succeeds would panic when it prints the module. */
  method FailureLeavesUnprintableMain() returns (r: Result<seq<Func>, string>, funcs: seq<Func>)
    ensures r == Err("invalid operator %")
    ensures |funcs| == 1 && funcs[0].name == "main"
    ensures !Prints(funcs)
  {
    UnusualTrees();
    var modulo := Some(InfixExpression(Token(Empty, ""), "%", Lit("1", 1), Lit("2", 2)));
    var stmt := ExpressionStatement(Token(Int, "1"), modulo);
    OneStatement(stmt, [], None);
    assert "invalid operator " + "%" == "invalid operator %";
    var c := new Compiler();
    r := c.Compile(ProgramNode(Program([stmt])));
    funcs := c.irModule.funcs;
    assert c.currentBlock in funcs[0].blocks && c.currentBlock.term == None;
  }

  /** An empty line parses without errors to no statements, and `main`
    * then returns a nil value: its block is just `ret void`, although the
    * function is declared to return `i64`. */
  lemma EmptyLine()
    ensures Parse("") == (Program([]), [])
    ensures LowerProgram(Parse("").0) == Lowered([], Ok(None))
  {
    assert Lexer.Scan("", 0) == (Token(Eof, ""), 1);
    assert Lexer.Scan("", 1) == (Token(Eof, ""), 2);
    assert Start(Lexer.Scan, "", 0) == PState(Token(Eof, ""), Token(Eof, ""), 2, []);
  }

  /** A client of the `Compiler` object: the tree of `5 * 5` is compiled
    * into the function `main` with one `mul`, and a statement node is
    * refused without touching the module. */
  method CompileOnObject()
    returns (funcs: seq<Func>, instructions: seq<Instruction>, term: Option<Terminator>,
             refused: Result<seq<Func>, string>, after: seq<Func>)
    ensures |funcs| == 1 && funcs[0].name == "main"
    ensures instructions == [Instruction(Mul, Const(5), Some(Const(5)))]
    ensures term == Some(Ret(Some(Ref(0))))
    ensures refused == Err("node must be *ast.Program")
    ensures after == funcs
  {
    var stmt := ExpressionStatement(Token(Int, "5"), Infix('*', Lit("5", 5), Lit("5", 5)));
    var program := Program([stmt]);
    OneStatement(stmt, [], None);
    assert LowerProgram(program) == Lowered([Instruction(Mul, Const(5), Some(Const(5)))], Ok(Some(Ref(0))));
    var c := new Compiler();
    var r := c.Compile(ProgramNode(program));
    instructions, term := c.currentBlock.instructions, c.currentBlock.term;
    funcs := r.value;
    refused := c.Compile(StatementNode(stmt));
    after := c.irModule.funcs;
  }
}
