/**
 * The compiler: it lowers a program to one LLVM function `main` returning
 * `i64`, whose single block `entry` holds the instructions of every
 * statement in order and returns the value of the last one.
 *
 * `Lower` and `LowerStatements` say what the compiler's methods emit, as
 * functions of the block's instructions so far; the class `Compiler` is the
 * Go object, and each of its methods is proved to append exactly what the
 * functions say.
 */
module Compiler {
  import opened Wrappers
  import opened Strconv
  import opened Ast
  import opened Ir

  /** How lowering can go wrong. `InvalidOperator` is the error
    * `compileInfixExpression` returns; `NilOperand` is the builder's panic
    * when an arithmetic instruction gets a nil left operand (it takes the
    * instruction's type from that operand). */
  datatype Failure = InvalidOperator(operator: string) | NilOperand

  /** The block's instructions after lowering, and the value lowered (nil
    * is `None`) or the failure that stopped it. */
  datatype Lowered = Lowered(code: seq<Instruction>, result: Result<Option<Value>, Failure>)

  /** The switch of `compileInfixExpression`: the instruction for each of
    * the four operators, and none for any other string. */
  function OpcodeOf(operator: string): (r: Option<Opcode>)
    ensures r.Some? <==> operator in {"+", "-", "*", "/"}
    ensures r == Some(Add) <==> operator == "+"
    ensures r == Some(Sub) <==> operator == "-"
    ensures r == Some(Mul) <==> operator == "*"
    ensures r == Some(SDiv) <==> operator == "/"
  {
    match operator
    case "+" => Some(Add)
    case "-" => Some(Sub)
    case "*" => Some(Mul)
    case "/" => Some(SDiv)
    case _ => None
  }

  /** The number of instructions an expression lowers to. */
  function Size(e: Option<Expression>): nat {
    if e.Some? then InfixCount(e.value) else 0
  }

  /** `compileExpression` on a block holding `code`: a nil expression
    * lowers to a nil value and a literal to a constant, both emitting
    * nothing; an infix node lowers its left operand, then its right one,
    * stopping at the first failure, and then emits one instruction. The
    * operator is checked only once both operands are lowered; a nil left
    * operand then panics, and a nil right one is stored in the
    * instruction. */
  function Lower(e: Option<Expression>, code: seq<Instruction>): (r: Lowered)
    ensures code <= r.code
    ensures r.result.Ok? ==> |r.code| == |code| + Size(e)
    ensures r.result.Ok? ==> (r.result.value.Some? <==> e.Some?)
    ensures r.result.Ok? && r.result.value.Some? ==> InScope(r.result.value.value, |r.code|)
    ensures Closed(code) ==> Closed(r.code)
    decreases e
  {
    match e
    case None => Lowered(code, Ok(None))
    case Some(IntegerLiteral(_, value)) => Lowered(code, Ok(Some(Const(value))))
    case Some(InfixExpression(_, operator, left, right)) =>
      var l := Lower(left, code);
      if l.result.Err? then l
      else
        var r := Lower(right, l.code);
        if r.result.Err? then r
        else
          match OpcodeOf(operator)
          case None => Lowered(r.code, Err(InvalidOperator(operator)))
          case Some(op) =>
            if l.result.value.None? then Lowered(r.code, Err(NilOperand))
            else Lowered(r.code + [Instruction(op, l.result.value.value, r.result.value)], Ok(Some(Ref(|r.code|))))
  }

  /** The loop of `compileProgram` from `last`, the value of the statement
    * before: each statement is lowered in turn into the same block, the
    * first failure ends it, and the value left is the last statement's. */
  function LowerStatements(statements: seq<Statement>, code: seq<Instruction>, last: Option<Value>): (r: Lowered)
    ensures code <= r.code
    ensures Closed(code) ==> Closed(r.code)
    ensures r.result.Ok? && r.result.value.Some? && (last.Some? ==> InScope(last.value, |code|)) ==>
              InScope(r.result.value.value, |r.code|)
    decreases |statements|
  {
    if statements == [] then Lowered(code, Ok(last))
    else
      var r := Lower(statements[0].expression, code);
      if r.result.Err? then r
      else LowerStatements(statements[1..], r.code, r.result.value)
  }

  /** `compileProgram` on a program: what its block ends up holding. Every
    * instruction only uses constants and earlier results, and so does the
    * value `main` returns. */
  function LowerProgram(program: Program): (r: Lowered)
    ensures Closed(r.code)
    ensures r.result.Ok? && r.result.value.Some? ==> InScope(r.result.value.value, |r.code|)
  {
    LowerStatements(program.statements, [], None)
  }

  /** The lowering would have made the builder panic. */
  predicate Panics(l: Lowered) {
    l.result == Err(NilOperand)
  }

  /** Lowering succeeded, but printing the module would panic on a nil
    * right operand. */
  predicate PrintPanics(l: Lowered) {
    l.result.Ok? && !Printable(l.code)
  }

  /** The Go result of a lowering that did not panic: the value, or the
    * error `invalid operator <op>`. */
  function Report(result: Result<Option<Value>, Failure>): (r: Result<Option<Value>, string>)
    requires result != Err(NilOperand)
    ensures r.Ok? <==> result.Ok?
    ensures r.Ok? ==> r.value == result.value
    ensures r.Err? ==> r.error == "invalid operator " + result.error.operator
  {
    match result
    case Ok(v) => Ok(v)
    case Err(f) => Err("invalid operator " + f.operator)
  }

  class Compiler {
    const irModule: Module
    var currentFunc: Func?
    var currentBlock: Block?

    /** `New`: an empty module and no current function or block. */
    constructor()
      ensures fresh(irModule) && irModule.funcs == []
      ensures currentFunc == null && currentBlock == null
    {
      irModule := new Module();
      currentFunc := null;
      currentBlock := null;
    }

    /** `Compile`: anything but a program is refused without touching the
      * module; a program is compiled into a new function `main`, and the
      * module is handed back (in place of its printed text) unless
      * compilation failed. Only a module that compiled is printed, and
      * printing covers the functions of earlier calls too. */
    method Compile(node: Node) returns (r: Result<seq<Func>, string>)
      requires node.ProgramNode? ==> !Panics(LowerProgram(node.program)) && !PrintPanics(LowerProgram(node.program))
      requires node.ProgramNode? && LowerProgram(node.program).result.Ok? ==> Prints(irModule.funcs)
      modifies this, irModule
      ensures !node.ProgramNode? ==>
                r == Err("node must be *ast.Program") && unchanged(this, irModule)
      ensures node.ProgramNode? ==>
                var lowered := LowerProgram(node.program);
                && Compiled(old(irModule.funcs), lowered)
                && r == (if lowered.result.Ok? then Ok(irModule.funcs) else Err(Report(lowered.result).error))
      ensures r.Ok? ==> Prints(r.value)
    {
      if !node.ProgramNode? {
        return Err("node must be *ast.Program");
      }
      var err := CompileProgram(node.program);
      if err.Some? {
        return Err(err.value);
      }
      return Ok(irModule.funcs);
    }

    /** The state `compileProgram` leaves: one fresh function `main`
      * returning `i64` appended to the module, whose only block `entry`
      * holds the lowered code and, if lowering succeeded, returns its
      * value. */
    ghost predicate Compiled(before: seq<Func>, lowered: Lowered)
      reads this, irModule, currentFunc, currentBlock
    {
      && currentFunc != null && currentBlock != null
      && irModule.funcs == before + [currentFunc]
      && currentFunc.name == "main" && currentFunc.returnType == I64
      && currentFunc.blocks == [currentBlock]
      && currentBlock.name == "entry"
      && currentBlock.instructions == lowered.code
      && currentBlock.term == (if lowered.result.Ok? then Some(Ret(lowered.result.value)) else None)
    }

    /** `compileProgram`. */
    method CompileProgram(program: Program) returns (err: Option<string>)
      requires !Panics(LowerProgram(program))
      modifies this, irModule
      ensures Compiled(old(irModule.funcs), LowerProgram(program))
      ensures fresh(currentFunc) && fresh(currentBlock)
      ensures var lowered := LowerProgram(program);
              err == if lowered.result.Ok? then None else Some(Report(lowered.result).error)
    {
      var f := irModule.NewFunc("main", I64);
      var b := f.NewBlock("entry");
      currentFunc := f;
      currentBlock := b;
      var retVal: Option<Value> := None;
      var i := 0;
      while i < |program.statements|
        invariant 0 <= i <= |program.statements|
        invariant currentFunc == f && currentBlock == b && fresh(f) && fresh(b)
        invariant irModule.funcs == old(irModule.funcs) + [f]
        invariant f.name == "main" && f.returnType == I64 && f.blocks == [b]
        invariant b.name == "entry" && b.term == None
        invariant LowerStatements(program.statements[i..], b.instructions, retVal) == LowerProgram(program)
      {
        var r := CompileStatement(program.statements[i]);
        if r.Err? {
          return Some(r.error);
        }
        retVal := r.value;
        i := i + 1;
      }
      b.NewRet(retVal);
      return None;
    }

    /** `compileStatement`: an expression statement compiles its
      * expression (it is the only kind of statement). */
    method CompileStatement(statement: Statement) returns (r: Result<Option<Value>, string>)
      requires currentBlock != null
      requires !Panics(Lower(statement.expression, currentBlock.instructions))
      modifies currentBlock
      ensures var lowered := Lower(statement.expression, old(currentBlock.instructions));
              && currentBlock.instructions == lowered.code
              && currentBlock.term == old(currentBlock.term)
              && r == Report(lowered.result)
    {
      r := CompileExpression(statement.expression);
    }

    /** `compileExpression`: appends to the current block what `Lower`
      * says and returns its result. */
    method CompileExpression(e: Option<Expression>) returns (r: Result<Option<Value>, string>)
      requires currentBlock != null
      requires !Panics(Lower(e, currentBlock.instructions))
      modifies currentBlock
      ensures var lowered := Lower(e, old(currentBlock.instructions));
              && currentBlock.instructions == lowered.code
              && currentBlock.term == old(currentBlock.term)
              && r == Report(lowered.result)
      decreases e
    {
      match e
      case None =>
        return Ok(None);
      case Some(IntegerLiteral(_, _)) =>
        var v := CompileIntegerLiteral(e.value);
        return Ok(Some(v));
      case Some(InfixExpression(_, operator, left, right)) =>
        var l := CompileExpression(left);
        if l.Err? {
          return l;
        }
        var rr := CompileExpression(right);
        if rr.Err? {
          return rr;
        }
        r := CompileInfixExpression(operator, l.value, rr.value);
    }

    /** `compileInfixExpression`: one of the four operators appends its
      * instruction on the two operands (the left one must not be nil) and
      * returns the value it defines; any other operator is an error and
      * emits nothing. */
    method CompileInfixExpression(operator: string, left: Option<Value>, right: Option<Value>)
      returns (r: Result<Option<Value>, string>)
      requires currentBlock != null
      requires OpcodeOf(operator).Some? ==> left.Some?
      modifies currentBlock
      ensures currentBlock.term == old(currentBlock.term)
      ensures OpcodeOf(operator).Some? ==>
                && currentBlock.instructions ==
                     old(currentBlock.instructions) + [Instruction(OpcodeOf(operator).value, left.value, right)]
                && r == Ok(Some(Ref(|old(currentBlock.instructions)|)))
      ensures OpcodeOf(operator).None? ==>
                currentBlock.instructions == old(currentBlock.instructions) && r == Err("invalid operator " + operator)
    {
      match OpcodeOf(operator)
      case None =>
        return Err("invalid operator " + operator);
      case Some(op) =>
        var v := currentBlock.NewInstruction(op, left.value, right);
        return Ok(Some(v));
    }

    /** `compileIntegerLiteral`: the literal's value as an `i64` constant;
      * nothing is emitted. */
    method CompileIntegerLiteral(node: Expression) returns (v: Value)
      requires node.IntegerLiteral?
      ensures v == Const(node.value)
    {
      v := Const(node.value);
    }
  }
}
