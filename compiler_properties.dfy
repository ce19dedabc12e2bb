/**
 * What the compiler's output means. The instructions it emits compute, for
 * any reading of the four opcodes, the same number as evaluating the tree
 * with that reading; lowering fails exactly on trees with a missing left
 * operand or an unknown operator, and its output prints exactly when no
 * right operand is missing either; and a line the parser accepts always
 * compiles and prints.
 */
module CompilerProperties {
  import opened Wrappers
  import opened Token
  import opened Strconv
  import opened Ast
  import opened Ir
  import opened Compiler
  import opened Parser
  import ParserProperties

  /** The tree's value when each operator is read as `apply` reads its
    * opcode. */
  function Evaluate(e: Expression, apply: (Opcode, int, int) -> int): int
    requires Complete(e) && ArithmeticOperators(e)
  {
    match e
    case IntegerLiteral(_, value) => value
    case InfixExpression(_, operator, left, right) =>
      apply(OpcodeOf(operator).value, Evaluate(left.value, apply), Evaluate(right.value, apply))
  }

  /** An operand's number, given the numbers the instructions before it
    * computed. */
  function Operand(v: Value, results: seq<int>): int {
    match v
    case Const(n) => n
    case Ref(i) => if i < |results| then results[i] else 0
  }

  /** Running a block that prints: the number each instruction computes, in
    * order. */
  function Run(code: seq<Instruction>, apply: (Opcode, int, int) -> int): (r: seq<int>)
    requires Printable(code)
    ensures |r| == |code|
  {
    if code == [] then []
    else
      var before := Run(code[..|code| - 1], apply);
      var last := code[|code| - 1];
      before + [apply(last.op, Operand(last.x, before), Operand(last.y.value, before))]
  }

  /** Appending one instruction keeps a block printable exactly when the
    * instruction has its right operand. */
  lemma PrintableAppend(code: seq<Instruction>, more: seq<Instruction>)
    ensures Printable(code + more) <==> Printable(code) && Printable(more)
  {
    var all := code + more;
    assert forall i | 0 <= i < |code| :: all[i] == code[i];
    assert forall i | 0 <= i < |more| :: all[|code| + i] == more[i];
  }

  /** Appending instructions does not change what the earlier ones compute. */
  lemma {:induction false} RunExtends(code: seq<Instruction>, more: seq<Instruction>, apply: (Opcode, int, int) -> int)
    requires Printable(code + more)
    ensures Printable(code) && Run(code, apply) <= Run(code + more, apply)
    decreases |more|
  {
    PrintableAppend(code, more);
    if more != [] {
      var shorter := code + more[..|more| - 1];
      var full := code + more;
      assert full == shorter + [more[|more| - 1]];
      PrintableAppend(shorter, [more[|more| - 1]]);
      PrintableAppend(code, more[..|more| - 1]);
      RunExtends(code, more[..|more| - 1], apply);
      RunLast(shorter, more[|more| - 1], apply);
      var small, middle, big := Run(code, apply), Run(shorter, apply), Run(full, apply);
      assert small <= middle && middle <= big;
      assert small == big[..|small|];
    } else {
      assert code + more == code;
    }
  }

  lemma OperandStable(v: Value, code: seq<Instruction>, longer: seq<Instruction>, apply: (Opcode, int, int) -> int)
    requires code <= longer && InScope(v, |code|) && Printable(longer)
    ensures Printable(code) && Operand(v, Run(longer, apply)) == Operand(v, Run(code, apply))
  {
    assert code + longer[|code|..] == longer;
    RunExtends(code, longer[|code|..], apply);
  }

  /** Lowering a complete tree over the four operators onto a block that
    * prints succeeds, the block still prints, and the value it returns is,
    * once the block has run, the tree's value, for every reading of the
    * opcodes. */
  lemma {:induction false} LowerComputes(e: Expression, code: seq<Instruction>, apply: (Opcode, int, int) -> int)
    requires Complete(e) && ArithmeticOperators(e) && Printable(code)
    ensures var lowered := Lower(Some(e), code);
            && lowered.result.Ok? && lowered.result.value.Some? && Printable(lowered.code)
            && Operand(lowered.result.value.value, Run(lowered.code, apply)) == Evaluate(e, apply)
    decreases e
  {
    if e.InfixExpression? {
      var l := Lower(e.left, code);
      LowerComputes(e.left.value, code, apply);
      var r := Lower(e.right, l.code);
      LowerComputes(e.right.value, l.code, apply);
      var lv, rv, op := l.result.value.value, r.result.value.value, OpcodeOf(e.operator).value;
      OperandStable(lv, l.code, r.code, apply);
      LowerInfix(e, code);
      PrintableAppend(r.code, [Instruction(op, lv, Some(rv))]);
      RunLast(r.code, Instruction(op, lv, Some(rv)), apply);
    }
  }

  /** An unfolding step of `Lower`'s infix branch, used by `LowerComputes`:
    * one instruction on the two results, appended after theirs. */
  lemma LowerInfix(e: Expression, code: seq<Instruction>)
    requires e.InfixExpression? && OpcodeOf(e.operator).Some?
    requires Lower(e.left, code).result.Ok? && Lower(e.left, code).result.value.Some?
    requires var l := Lower(e.left, code);
             Lower(e.right, l.code).result.Ok?
    ensures var l := Lower(e.left, code);
            var r := Lower(e.right, l.code);
            Lower(Some(e), code) ==
              Lowered(r.code + [Instruction(OpcodeOf(e.operator).value, l.result.value.value, r.result.value)],
                      Ok(Some(Ref(|r.code|))))
  {
  }

  lemma RunLast(code: seq<Instruction>, last: Instruction, apply: (Opcode, int, int) -> int)
    requires Printable(code) && last.y.Some?
    ensures Printable(code + [last])
    ensures var before := Run(code, apply);
            Run(code + [last], apply) == before + [apply(last.op, Operand(last.x, before), Operand(last.y.value, before))]
  {
    PrintableAppend(code, [last]);
    assert (code + [last])[..|code|] == code;
  }

  /** Lowering fails exactly when the tree has a missing left operand or an
    * operator other than the four; a missing left operand under one of the
    * four operators is the panic, and the error names an operator that is
    * not one of the four. A missing right operand does not fail. */
  lemma {:induction false} LowerFails(e: Expression, code: seq<Instruction>)
    ensures var lowered := Lower(Some(e), code);
            && (lowered.result.Ok? <==> LeftOperands(e) && ArithmeticOperators(e))
            && (lowered.result == Err(NilOperand) ==> !LeftOperands(e))
            && (lowered.result.Err? && lowered.result.error.InvalidOperator? ==>
                  !ArithmeticOperators(e) && lowered.result.error.operator !in {"+", "-", "*", "/"})
            && (LeftOperands(e) && !ArithmeticOperators(e) ==> lowered.result.Err? && lowered.result.error.InvalidOperator?)
            && (!LeftOperands(e) && ArithmeticOperators(e) ==> lowered.result == Err(NilOperand))
    decreases e
  {
    match e
    case IntegerLiteral(_, _) =>
    case InfixExpression(_, operator, left, right) =>
      var l := Lower(left, code);
      if left.Some? { LowerFails(left.value, code); }
      if l.result.Ok? && right.Some? { LowerFails(right.value, l.code); }
  }

  /** A lowering that succeeds leaves a block that prints exactly when the
    * block printed before and the tree has every operand: each missing
    * right operand is an instruction `Module.String` cannot print. */
  lemma {:induction false} LowerPrintable(e: Expression, code: seq<Instruction>)
    requires Lower(Some(e), code).result.Ok?
    ensures Printable(Lower(Some(e), code).code) <==> Printable(code) && Complete(e)
    decreases e
  {
    match e
    case IntegerLiteral(_, _) =>
    case InfixExpression(_, operator, left, right) =>
      var l := Lower(left, code);
      LowerPrintable(left.value, code);
      var r := Lower(right, l.code);
      if right.Some? { LowerPrintable(right.value, l.code); }
      var ins := Instruction(OpcodeOf(operator).value, l.result.value.value, r.result.value);
      PrintableAppend(r.code, [ins]);
      assert [ins][0] == ins;
  }

  /** The value the last statement leaves, or `last` if there are none. */
  lemma {:induction false} LowerStatementsComputes(statements: seq<Statement>, code: seq<Instruction>, last: Option<Value>,
                                                 apply: (Opcode, int, int) -> int)
    requires forall s | s in statements :: s.expression.Some? && Complete(s.expression.value)
                                           && ArithmeticOperators(s.expression.value)
    requires Printable(code)
    ensures var lowered := LowerStatements(statements, code, last);
            && lowered.result.Ok? && Printable(lowered.code)
            && (statements == [] ==> lowered.result.value == last && lowered.code == code)
            && (statements != [] ==>
                  && lowered.result.value.Some?
                  && Operand(lowered.result.value.value, Run(lowered.code, apply))
                       == Evaluate(statements[|statements| - 1].expression.value, apply))
    decreases |statements|
  {
    if statements != [] {
      var first, rest := statements[0].expression, statements[1..];
      LowerComputes(first.value, code, apply);
      var r := Lower(first, code);
      assert LowerStatements(statements, code, last) == LowerStatements(rest, r.code, r.result.value);
      assert forall s | s in rest :: s in statements;
      LowerStatementsComputes(rest, r.code, r.result.value, apply);
      if |statements| == 1 {
        assert rest == [];
      } else {
        assert rest[|rest| - 1] == statements[|statements| - 1];
      }
    }
  }

  /** A line the parser accepts always compiles, and the builder never
    * panics on it, neither while building nor while printing: the block is
    * closed and prints, and the function returns the value of the line's
    * last statement, or nothing when there is none. */
  lemma AcceptedLinesCompile(input: string, apply: (Opcode, int, int) -> int)
    requires Parse(input).1 == []
    ensures var program := Parse(input).0;
            var lowered := LowerProgram(program);
            && lowered.result.Ok? && Closed(lowered.code) && Printable(lowered.code)
            && !Panics(lowered) && !PrintPanics(lowered)
            && (program.statements == [] ==> lowered.result.value == None && lowered.code == [])
            && (program.statements != [] ==>
                  var e := program.statements[|program.statements| - 1].expression;
                  && e.Some? && Complete(e.value) && ArithmeticOperators(e.value)
                  && lowered.result.value.Some?
                  && Operand(lowered.result.value.value, Run(lowered.code, apply)) == Evaluate(e.value, apply))
  {
    var program := Parse(input).0;
    ParserProperties.ParsedWithoutErrors(input);
    LowerStatementsComputes(program.statements, [], None, apply);
  }

  /** The size of an accepted line's code: one instruction per infix node,
    * whatever the operators read as. */
  lemma {:induction false} LowerStatementsSize(statements: seq<Statement>, code: seq<Instruction>, last: Option<Value>)
    requires LowerStatements(statements, code, last).result.Ok?
    ensures |LowerStatements(statements, code, last).code| == |code| + InfixTotal(statements)
    decreases |statements|
  {
    if statements != [] {
      var r := Lower(statements[0].expression, code);
      LowerStatementsSize(statements[1..], r.code, r.result.value);
    }
  }

  function InfixTotal(statements: seq<Statement>): nat {
    if statements == [] then 0 else Size(statements[0].expression) + InfixTotal(statements[1..])
  }

  /** The machine reading of the opcodes on `i64`: two's-complement
    * wrap-around, and `sdiv` truncating toward zero. */
  function Wrap(x: int): Int64 {
    (x - MinInt64) % 0x1_0000_0000_0000_0000 + MinInt64
  }

  function TruncatedDiv(a: int, b: int): int
    requires b != 0
  {
    var q := (if a < 0 then -a else a) / (if b < 0 then -b else b);
    if (a < 0) == (b < 0) then q else -q
  }

  function MachineApply(op: Opcode, a: int, b: int): int {
    match op
    case Add => Wrap(a + b)
    case Sub => Wrap(a - b)
    case Mul => Wrap(a * b)
    case SDiv => if b == 0 then 0 else Wrap(TruncatedDiv(a, b))
  }
}
