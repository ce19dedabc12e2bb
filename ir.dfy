/**
 * The part of the LLVM IR builder (the Go library `llir/llvm`, which is not
 * part of this model) that the compiler drives: a module holds functions, a
 * function holds basic blocks, and a block holds a list of instructions and
 * an optional terminator. Each `New…` call appends to the object it is
 * called on.
 */
module Ir {
  import opened Wrappers
  import opened Strconv

  /** The four binary instructions the compiler emits: `add`, `sub`, `mul`
    * and `sdiv`. */
  datatype Opcode = Add | Sub | Mul | SDiv

  /** An `i64` operand: a constant, or the result of the instruction at
    * `index` in the same block. */
  datatype Value = Const(n: Int64) | Ref(index: nat)

  /** A binary instruction. The builder reads the instruction's type from
    * its left operand `x`, so `x` is never nil; a nil right operand is
    * stored as it is (`y == None`) and only fails once the module is
    * printed. */
  datatype Instruction = Instruction(op: Opcode, x: Value, y: Option<Value>)

  /** `ret`; `Ret(None)` is `ret void`, which is what the builder emits for
    * a nil value. */
  datatype Terminator = Ret(value: Option<Value>)

  datatype Type = I64

  /** An operand that a block of `count` instructions can use at its end. */
  predicate InScope(v: Value, count: nat) {
    v.Ref? ==> v.index < count
  }

  /** Every instruction only uses constants and the results of instructions
    * before it. */
  predicate Closed(code: seq<Instruction>) {
    forall i | 0 <= i < |code| :: InScope(code[i].x, i) && (code[i].y.Some? ==> InScope(code[i].y.value, i))
  }

  /** `Module.String` prints every operand of every instruction; a nil
    * right operand makes it panic, so a block's instructions print only
    * when every instruction has both operands. */
  predicate Printable(code: seq<Instruction>) {
    forall i | 0 <= i < |code| :: code[i].y.Some?
  }

  /** `Module.String` prints every block of every function of the module:
    * it panics on a block without a terminator as well as on a nil right
    * operand, so the module prints only when every block has both. */
  ghost predicate Prints(funcs: seq<Func>)
    reads set f | f in funcs, set f, b | f in funcs && b in f.blocks :: b
  {
    forall f, b | f in funcs && b in f.blocks :: b.term.Some? && Printable(b.instructions)
  }

  class Block {
    const name: string
    var instructions: seq<Instruction>
    var term: Option<Terminator>

    constructor(name: string)
      ensures this.name == name && instructions == [] && term == None
    {
      this.name := name;
      instructions := [];
      term := None;
    }

    /** `NewAdd`, `NewSub`, `NewMul` and `NewSDiv`: append the instruction
      * and return the value it defines. The right operand is not checked. */
    method NewInstruction(op: Opcode, x: Value, y: Option<Value>) returns (v: Value)
      modifies this
      ensures instructions == old(instructions) + [Instruction(op, x, y)]
      ensures v == Ref(|old(instructions)|)
      ensures term == old(term)
    {
      v := Ref(|instructions|);
      instructions := instructions + [Instruction(op, x, y)];
    }

    /** `NewRet`: set the block's terminator. */
    method NewRet(v: Option<Value>)
      modifies this
      ensures term == Some(Ret(v)) && instructions == old(instructions)
    {
      term := Some(Ret(v));
    }
  }

  class Func {
    const name: string
    const returnType: Type
    var blocks: seq<Block>

    constructor(name: string, returnType: Type)
      ensures this.name == name && this.returnType == returnType && blocks == []
    {
      this.name := name;
      this.returnType := returnType;
      blocks := [];
    }

    /** `NewBlock`: append a fresh, empty block with the given name. */
    method NewBlock(name: string) returns (b: Block)
      modifies this
      ensures fresh(b) && b.name == name && b.instructions == [] && b.term == None
      ensures blocks == old(blocks) + [b]
    {
      b := new Block(name);
      blocks := blocks + [b];
    }
  }

  class Module {
    var funcs: seq<Func>

    constructor()
      ensures funcs == []
    {
      funcs := [];
    }

    /** `NewFunc`: append a fresh function without blocks. */
    method NewFunc(name: string, returnType: Type) returns (f: Func)
      modifies this
      ensures fresh(f) && f.name == name && f.returnType == returnType && f.blocks == []
      ensures funcs == old(funcs) + [f]
    {
      f := new Func(name, returnType);
      funcs := funcs + [f];
    }
  }
}
