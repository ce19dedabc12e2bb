/**
 * What the parser promises about the trees it builds: every error it records
 * stands for exactly one missing node, so an empty error list means complete
 * trees; a tree built without errors groups operators by precedence and
 * associates to the left; and the statement loop stops.
 */
module ParserProperties {
  import opened Wrappers
  import opened Token
  import opened Ast
  import opened Parser
  import opened Strconv
  import Lexer

  /** The number of nil slots in a parse result: a missing expression, or a
    * missing operand anywhere below an infix node. */
  function Missing(e: Option<Expression>): nat {
    match e
    case None => 1
    case Some(IntegerLiteral(_, _)) => 0
    case Some(InfixExpression(_, _, left, right)) => Missing(left) + Missing(right)
  }

  function MissingInStatements(statements: seq<Statement>): nat {
    if statements == [] then 0
    else Missing(statements[0].expression) + MissingInStatements(statements[1..])
  }

  /** The loop of `parseExpression` at `precedence` does not continue past
    * this state's lookahead. */
  predicate Stops(s: PState, precedence: int) {
    || s.peek.tokenType == Semicolon
    || Precedence(s.peek.tokenType) <= precedence
    || !HasInfixRule(s.peek.tokenType)
  }

  predicate BindsAbove(e: Expression, precedence: int) {
    e.InfixExpression? ==> Precedence(e.token.tokenType) > precedence
  }

  predicate BindsAtLeast(e: Expression, precedence: int) {
    e.InfixExpression? ==> Precedence(e.token.tokenType) >= precedence
  }

  /** The grouping precedence climbing promises: the left operand of an infix
    * node binds at least as tightly as the node and the right operand
    * strictly more tightly. So `a - b - c` can only nest to the left, and a
    * sum can never be the right operand of a product. */
  predicate Grouped(e: Expression) {
    match e
    case IntegerLiteral(_, _) => true
    case InfixExpression(token, _, left, right) =>
      && (left.Some? ==> BindsAtLeast(left.value, Precedence(token.tokenType)) && Grouped(left.value))
      && (right.Some? ==> BindsAbove(right.value, Precedence(token.tokenType)) && Grouped(right.value))
  }

  /** A tree the lowering accepts and that groups as precedence says. */
  predicate Sound(e: Expression) {
    Complete(e) && Grouped(e) && ArithmeticOperators(e)
  }

  /** A left operand that the loop may still extend: if it is an infix node,
    * its own right operand stopped at the lookahead. */
  predicate Ready(left: Expression, s: PState) {
    left.InfixExpression? ==> Stops(s, Precedence(left.token.tokenType))
  }

  lemma PrefixSqueeze<T>(a: seq<T>, b: seq<T>, c: seq<T>)
    requires a <= b && b <= c && a == c
    ensures a == b
  {
    assert |a| == |b|;
  }

  lemma SoundCons(stmt: Statement, rest: seq<Statement>)
    requires stmt.expression.Some? && Sound(stmt.expression.value)
    requires forall i | 0 <= i < |rest| :: rest[i].expression.Some? && Sound(rest[i].expression.value)
    ensures var all := [stmt] + rest;
            forall i | 0 <= i < |all| :: all[i].expression.Some? && Sound(all[i].expression.value)
  {
    var all := [stmt] + rest;
    assert forall i | 1 <= i < |all| :: all[i] == rest[i - 1];
  }

  lemma {:induction false} CompleteIffNothingMissing(e: Expression)
    ensures Complete(e) <==> Missing(Some(e)) == 0
  {
    match e
    case IntegerLiteral(_, _) =>
    case InfixExpression(_, _, left, right) =>
      if left.Some? { CompleteIffNothingMissing(left.value); }
      if right.Some? { CompleteIffNothingMissing(right.value); }
  }

  /** An INT token spelling `n` as `%d` does reads back as `n` when it fits
    * 64 bits, leaving the state as it was; a larger one builds nothing and
    * records the message `could not parse "<n>" as integer`. */
  lemma DecimalLiteral(s: PState, n: nat)
    requires s.cur == Token(Int, Decimal(n))
    ensures var (s', e) := ParseIntegerLiteralFrom(s);
            && (n <= MaxInt64 ==> s' == s && e == Some(IntegerLiteral(s.cur, n)))
            && (n > MaxInt64 ==>
                  && e == None && |s'.errors| == |s.errors| + 1
                  && Message(s'.errors[|s.errors|]) == "could not parse \"" + Decimal(n) + "\" as integer")
  {
    DecimalRoundTrip(n);
  }

  /** `parseExpression`: it records exactly as many errors as it leaves nil
    * slots; and when it records none, the tree is sound, its root binds more
    * tightly than `precedence`, and the lookahead left over cannot extend it. */
  lemma {:induction false} ExpressionShape(scan: Scanner, input: string, s: PState, precedence: int)
    requires WellFormed(input, s)
    ensures var (s', e) := ParseExpressionFrom(scan, input, s, precedence);
            && |s'.errors| == |s.errors| + Missing(e)
            && (s'.errors == s.errors ==>
                  e.Some? && Sound(e.value) && BindsAbove(e.value, precedence) && Stops(s', precedence))
    decreases Fuel(input, s), 2
  {
    if HasPrefixRule(s.cur.tokenType) {
      var (s1, left) := ParseIntegerLiteralFrom(s);
      InfixLoopShape(scan, input, s1, precedence, left);
      var (s', e) := InfixLoopFrom(scan, input, s1, precedence, left);
      if s'.errors == s.errors {
        PrefixSqueeze(s.errors, s1.errors, s'.errors);
      }
    }
  }

  /** The loop: the errors it records match the nil slots it adds to `left`;
    * without errors it keeps the left operand sound and binding above
    * `precedence`, and stops where the lookahead cannot extend it. */
  lemma {:induction false} InfixLoopShape(scan: Scanner, input: string, s: PState, precedence: int, left: Option<Expression>)
    requires WellFormed(input, s)
    ensures var (s', e) := InfixLoopFrom(scan, input, s, precedence, left);
            && |s'.errors| - |s.errors| == Missing(e) - Missing(left)
            && (s'.errors == s.errors && left.Some? && Sound(left.value)
                && BindsAbove(left.value, precedence) && Ready(left.value, s) ==>
                  e.Some? && Sound(e.value) && BindsAbove(e.value, precedence) && Stops(s', precedence))
    decreases Fuel(input, s), 1
  {
    if s.peek.tokenType != Semicolon && precedence < Precedence(s.peek.tokenType) && HasInfixRule(s.peek.tokenType) {
      var s1 := Advance(scan, input, s);
      var (s2, e) := ParseInfixFrom(scan, input, s1, left);
      InfixShape(scan, input, s1, left);
      InfixLoopShape(scan, input, s2, precedence, Some(e));
      var (s', r) := InfixLoopFrom(scan, input, s2, precedence, Some(e));
      if s'.errors == s.errors {
        PrefixSqueeze(s.errors, s2.errors, s'.errors);
      }
    }
  }

  /** `parseInfixExpression`: the node holds `left` and the right operand;
    * without new errors and with a sound `left` that binds at least as
    * tightly as the operator, the node is sound and nothing after it binds
    * more tightly than the operator. */
  lemma {:induction false} InfixShape(scan: Scanner, input: string, s: PState, left: Option<Expression>)
    requires WellFormed(input, s) && HasInfixRule(s.cur.tokenType)
    ensures var (s', e) := ParseInfixFrom(scan, input, s, left);
            && e.InfixExpression? && e.token == s.cur && e.left == left
            && |s'.errors| - |s.errors| == Missing(Some(e)) - Missing(left)
            && (s'.errors == s.errors && left.Some? && Sound(left.value)
                && BindsAtLeast(left.value, Precedence(s.cur.tokenType)) ==>
                  Sound(e) && Stops(s', Precedence(s.cur.tokenType)))
    decreases Fuel(input, s), 0
  {
    ExpressionShape(scan, input, Advance(scan, input, s), Precedence(s.cur.tokenType));
  }

  lemma {:induction false} ProgramShape(scan: Scanner, input: string, s: PState)
    requires WellFormed(input, s)
    ensures var (s', statements) := ParseProgramFrom(scan, input, s);
            && |s'.errors| == |s.errors| + MissingInStatements(statements)
            && |statements| <= Fuel(input, s)
    decreases Fuel(input, s)
  {
    if s.cur.tokenType != Eof {
      var (s1, e) := ParseExpressionFrom(scan, input, s, LOWEST);
      ExpressionShape(scan, input, s, LOWEST);
      var (s2, stmt) := ParseExpressionStatementFrom(scan, input, s);
      assert stmt.expression == e && s2.errors == s1.errors;
      ProgramShape(scan, input, Advance(scan, input, s2));
      var (s3, rest) := ParseProgramFrom(scan, input, Advance(scan, input, s2));
      assert ([stmt] + rest)[1..] == rest;
    }
  }

  lemma {:induction false} NothingMissingInStatements(statements: seq<Statement>)
    ensures MissingInStatements(statements) == 0 <==>
              forall i | 0 <= i < |statements| ::
                statements[i].expression.Some? && Complete(statements[i].expression.value)
  {
    if statements != [] {
      NothingMissingInStatements(statements[1..]);
      if statements[0].expression.Some? {
        CompleteIffNothingMissing(statements[0].expression.value);
      }
      forall i | 1 <= i < |statements|
        ensures statements[i] == statements[1..][i - 1]
      {
      }
    }
  }

  /** The parser records exactly as many errors as the program has nil
    * slots, so its error list is empty exactly when every statement has an
    * expression and every infix node both operands. */
  lemma ErrorsCountMissingNodes(input: string)
    ensures var (program, errors) := Parse(input);
            && |errors| == MissingInStatements(program.statements)
            && (errors == [] <==>
                  forall i | 0 <= i < |program.statements| ::
                    program.statements[i].expression.Some?
                    && Complete(program.statements[i].expression.value))
  {
    ProgramShape(Lexer.Scan, input, Start(Lexer.Scan, input, 0));
    NothingMissingInStatements(Parse(input).0.statements);
  }

  lemma {:induction false} SoundWithoutErrors(scan: Scanner, input: string, s: PState)
    requires WellFormed(input, s)
    ensures var (s', statements) := ParseProgramFrom(scan, input, s);
            s'.errors == s.errors ==>
              forall i | 0 <= i < |statements| ::
                statements[i].expression.Some? && Sound(statements[i].expression.value)
    decreases Fuel(input, s)
  {
    if s.cur.tokenType != Eof {
      ExpressionShape(scan, input, s, LOWEST);
      var (s1, e) := ParseExpressionFrom(scan, input, s, LOWEST);
      var (s2, stmt) := ParseExpressionStatementFrom(scan, input, s);
      assert stmt.expression == e && s2.errors == s1.errors;
      var s3 := Advance(scan, input, s2);
      SoundWithoutErrors(scan, input, s3);
      var (s', rest) := ParseProgramFrom(scan, input, s3);
      assert ParseProgramFrom(scan, input, s) == (s', [stmt] + rest);
      if s'.errors == s.errors {
        PrefixSqueeze(s.errors, s2.errors, s'.errors);
        SoundCons(stmt, rest);
      }
    }
  }

  /** A line parsed without errors yields only sound trees: complete, grouped
    * by precedence and left-associative, over the four operators. */
  lemma ParsedWithoutErrors(input: string)
    requires Parse(input).1 == []
    ensures forall stmt | stmt in Parse(input).0.statements ::
              stmt.expression.Some? && Sound(stmt.expression.value)
  {
    SoundWithoutErrors(Lexer.Scan, input, Start(Lexer.Scan, input, 0));
  }

  /** The statement loop ends: each iteration consumes at least one byte, so
    * a line yields at most as many statements as it has bytes. */
  lemma StatementsBoundedByInput(input: string)
    ensures |Parse(input).0.statements| <= |input|
  {
    ProgramShape(Lexer.Scan, input, Start(Lexer.Scan, input, 0));
  }
}
