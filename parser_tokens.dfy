/**
 * What the parser's trees are made of. On a line it parses without errors,
 * the statements hold exactly the line's tokens, in source order, each
 * statement followed by the `;` it consumed, if any; and every literal's
 * value and every operator's text are read from their own token. (The token
 * order alone does not fix the grouping: `Sound` and the precedence lemmas
 * in ParserProperties say which tree is built.)
 */
module ParserTokens {
  import opened Wrappers
  import opened Token
  import opened Strconv
  import opened Ast
  import opened Parser
  import Lexer
  import ParserProperties

  /** The tokens of a tree in source order: a literal is its token; an infix
    * node is its left operand's tokens, its operator token, then its right
    * operand's. A nil slot holds none. */
  function Tokens(e: Option<Expression>): seq<Token>
    decreases e
  {
    match e
    case None => []
    case Some(IntegerLiteral(token, _)) => [token]
    case Some(InfixExpression(token, _, left, right)) => Tokens(left) + [token] + Tokens(right)
  }

  /** Every literal holds an INT token and the value `ParseInt` reads from
    * it; every infix node holds an operator token and that token's text. */
  predicate ReadFromTokens(e: Option<Expression>)
    decreases e
  {
    match e
    case None => true
    case Some(IntegerLiteral(token, value)) =>
      token.tokenType == Int && WellFormedToken(token) && ParseInt(token.literal) == Some(value)
    case Some(InfixExpression(token, operator, left, right)) =>
      && HasInfixRule(token.tokenType) && operator == token.literal
      && ReadFromTokens(left) && ReadFromTokens(right)
  }

  /** A statement read from its tokens: it has an expression, read from its
    * tokens, and the statement's token is the expression's first. */
  predicate StatementRead(stmt: Statement) {
    && stmt.expression.Some? && ReadFromTokens(stmt.expression)
    && stmt.token == Tokens(stmt.expression)[0]
  }

  predicate NoEof(tokens: seq<Token>) {
    forall i | 0 <= i < |tokens| :: tokens[i].tokenType != Eof
  }

  /** `tokens` is the statements' token sequences one after the other, each
    * followed by a `;` or by nothing. */
  predicate Spells(statements: seq<Statement>, tokens: seq<Token>)
    decreases |statements|
  {
    if statements == [] then tokens == []
    else
      var t := Tokens(statements[0].expression);
      && t <= tokens
      && (|| Spells(statements[1..], tokens[|t|..])
          || (&& |t| < |tokens| && tokens[|t|] == Token(Semicolon, ";")
              && Spells(statements[1..], tokens[|t| + 1..])))
  }

  /** The state after `n` calls of `nextToken`. */
  function Iterate(scan: Scanner, input: string, s: PState, n: nat): PState
    decreases n
  {
    if n == 0 then s else Iterate(scan, input, Advance(scan, input, s), n - 1)
  }

  /** The tokens the parser moves over in `n` calls of `nextToken` from
    * `s`: the current token of each state it leaves. */
  function Walk(scan: Scanner, input: string, s: PState, n: nat): (r: seq<Token>)
    ensures |r| == n
    decreases n
  {
    if n == 0 then [] else [s.cur] + Walk(scan, input, Advance(scan, input, s), n - 1)
  }

  /** `a` steps followed by `b` more. */
  lemma {:induction false} IterateAdd(scan: Scanner, input: string, s: PState, a: nat, b: nat)
    ensures Iterate(scan, input, Iterate(scan, input, s, a), b) == Iterate(scan, input, s, a + b)
    decreases a
  {
    if a > 0 {
      IterateAdd(scan, input, Advance(scan, input, s), a - 1, b);
    }
  }

  lemma {:induction false} WalkSplit(scan: Scanner, input: string, s: PState, a: nat, b: nat)
    ensures Walk(scan, input, s, a) + Walk(scan, input, Iterate(scan, input, s, a), b) == Walk(scan, input, s, a + b)
    decreases a
  {
    if a == 0 {
      assert Walk(scan, input, s, 0) + Walk(scan, input, s, b) == Walk(scan, input, s, b);
    } else {
      var next := Advance(scan, input, s);
      WalkSplit(scan, input, next, a - 1, b);
      var tail := Walk(scan, input, Iterate(scan, input, next, a - 1), b);
      assert Walk(scan, input, s, a) + tail == [s.cur] + (Walk(scan, input, next, a - 1) + tail);
    }
  }

  lemma Steps(scan: Scanner, input: string, s: PState, a: nat, b: nat)
    ensures Iterate(scan, input, Iterate(scan, input, s, a), b) == Iterate(scan, input, s, a + b)
    ensures Walk(scan, input, s, a) + Walk(scan, input, Iterate(scan, input, s, a), b) == Walk(scan, input, s, a + b)
  {
    IterateAdd(scan, input, s, a, b);
    WalkSplit(scan, input, s, a, b);
  }

  lemma OneMore(scan: Scanner, input: string, s: PState, n: nat)
    ensures Iterate(scan, input, s, n + 1) == Advance(scan, input, Iterate(scan, input, s, n))
    ensures Walk(scan, input, s, n + 1) == Walk(scan, input, s, n) + [Iterate(scan, input, s, n).cur]
  {
    Steps(scan, input, s, n, 1);
    var t := Iterate(scan, input, s, n);
    assert Iterate(scan, input, t, 1) == Advance(scan, input, t);
    assert Walk(scan, input, t, 1) == [t.cur];
  }

  /** One round of the loop of `parseExpression`, from `s1` (the state after
    * `s`) on, and the rest of the loop after it, told by the tokens each part
    * moves over. */
  lemma LoopJoin(scan: Scanner, input: string, s: PState, s1: PState, s2: PState, s3: PState,
                 left: seq<Token>, node: seq<Token>, all: seq<Token>, m: nat, k: nat)
    requires s1 == Advance(scan, input, s) && 0 < m
    requires node == left + Walk(scan, input, s1, m) && s2 == Iterate(scan, input, s1, m - 1)
    requires all == node + Walk(scan, input, Advance(scan, input, s2), k) && s3 == Iterate(scan, input, s2, k)
    ensures all == left + Walk(scan, input, s1, m + k)
    ensures s3 == Iterate(scan, input, s, m + k)
  {
    OneMore(scan, input, s1, m - 1);
    Steps(scan, input, s1, m, k);
    Steps(scan, input, s1, m - 1, k);
    assert Iterate(scan, input, s, m + k) == Iterate(scan, input, s1, m + k - 1);
  }

  /** `parseInfixExpression` without new errors, on a `left` read from its
    * tokens: the node is read from its tokens. */
  lemma {:induction false} InfixRead(scan: Scanner, input: string, s: PState, left: Option<Expression>)
    requires WellFormed(input, s) && HasInfixRule(s.cur.tokenType)
    ensures var (s', e) := ParseInfixFrom(scan, input, s, left);
            s'.errors == s.errors && ReadFromTokens(left) ==> ReadFromTokens(Some(e))
    decreases Fuel(input, s), 0
  {
    ExpressionRead(scan, input, Advance(scan, input, s), Precedence(s.cur.tokenType));
  }

  /** The loop of `parseExpression` without new errors keeps the tree read
    * from its tokens. */
  lemma {:induction false} InfixLoopRead(scan: Scanner, input: string, s: PState, precedence: int, left: Option<Expression>)
    requires WellFormed(input, s)
    ensures var (s', e) := InfixLoopFrom(scan, input, s, precedence, left);
            s'.errors == s.errors && ReadFromTokens(left) ==> ReadFromTokens(e)
    decreases Fuel(input, s), 1
  {
    if s.peek.tokenType != Semicolon && precedence < Precedence(s.peek.tokenType) && HasInfixRule(s.peek.tokenType) {
      var s1 := Advance(scan, input, s);
      var (s2, e) := ParseInfixFrom(scan, input, s1, left);
      InfixRead(scan, input, s1, left);
      InfixLoopRead(scan, input, s2, precedence, Some(e));
      var (s', f) := InfixLoopFrom(scan, input, s2, precedence, Some(e));
      if s'.errors == s.errors {
        ParserProperties.PrefixSqueeze(s.errors, s2.errors, s'.errors);
      }
    }
  }

  /** `parseExpression` without new errors builds a tree read from its
    * tokens. */
  lemma {:induction false} ExpressionRead(scan: Scanner, input: string, s: PState, precedence: int)
    requires WellFormed(input, s)
    ensures var (s', e) := ParseExpressionFrom(scan, input, s, precedence);
            s'.errors == s.errors ==> ReadFromTokens(e)
    decreases Fuel(input, s), 2
  {
    if HasPrefixRule(s.cur.tokenType) {
      var (s1, left) := ParseIntegerLiteralFrom(s);
      InfixLoopRead(scan, input, s1, precedence, left);
      var (s', e) := InfixLoopFrom(scan, input, s1, precedence, left);
      if s'.errors == s.errors {
        ParserProperties.PrefixSqueeze(s.errors, s1.errors, s'.errors);
      }
    }
  }

  /** `parseInfixExpression` without new errors: the node's tokens are
    * `left`'s followed by the `n` tokens the parser moves over from the
    * operator on, and it reads them. */
  lemma {:induction false} InfixTokens(scan: Scanner, input: string, s: PState,
                                       left: Option<Expression>) returns (n: nat)
    requires WellFormed(input, s) && HasInfixRule(s.cur.tokenType)
    ensures var (s', e) := ParseInfixFrom(scan, input, s, left);
            s'.errors == s.errors ==>
              && 0 < n
              && Tokens(Some(e)) == Tokens(left) + Walk(scan, input, s, n)
              && s' == Iterate(scan, input, s, n - 1)
    decreases Fuel(input, s), 0
  {
    var s1 := Advance(scan, input, s);
    var m := ExpressionTokens(scan, input, s1, Precedence(s.cur.tokenType));
    var (s2, right) := ParseExpressionFrom(scan, input, s1, Precedence(s.cur.tokenType));
    n := m + 1;
    if s2.errors == s.errors {
      InfixJoin(scan, input, s, s1, s2, left, right, m);
    }
  }

  /** An operator token between `left` and a right operand read in `m`
    * steps from the state after it. */
  lemma InfixJoin(scan: Scanner, input: string, s: PState, s1: PState, s2: PState,
                  left: Option<Expression>, right: Option<Expression>, m: nat)
    requires s1 == Advance(scan, input, s) && 0 < m
    requires Tokens(right) == Walk(scan, input, s1, m) && s2 == Iterate(scan, input, s1, m - 1)
    ensures Tokens(Some(InfixExpression(s.cur, s.cur.literal, left, right))) == Tokens(left) + Walk(scan, input, s, m + 1)
    ensures s2 == Iterate(scan, input, s, m)
  {
    assert Tokens(Some(InfixExpression(s.cur, s.cur.literal, left, right))) == Tokens(left) + ([s.cur] + Tokens(right));
  }

  /** The loop of `parseExpression` without new errors: what it folds into
    * `left` are the `n` tokens it moves over, in order. */
  lemma {:induction false} InfixLoopTokens(scan: Scanner, input: string, s: PState,
                                           precedence: int, left: Option<Expression>) returns (n: nat)
    requires WellFormed(input, s)
    ensures var (s', e) := InfixLoopFrom(scan, input, s, precedence, left);
            s'.errors == s.errors ==>
              && Tokens(e) == Tokens(left) + Walk(scan, input, Advance(scan, input, s), n)
              && s' == Iterate(scan, input, s, n)
    decreases Fuel(input, s), 2
  {
    if s.peek.tokenType != Semicolon && precedence < Precedence(s.peek.tokenType) && HasInfixRule(s.peek.tokenType) {
      n := InfixLoopRound(scan, input, s, precedence, left);
    } else {
      n := 0;
      assert Tokens(left) + Walk(scan, input, Advance(scan, input, s), 0) == Tokens(left);
    }
  }

  /** One round of that loop, and the rest of the loop after it. */
  lemma {:induction false} InfixLoopRound(scan: Scanner, input: string, s: PState,
                                          precedence: int, left: Option<Expression>) returns (n: nat)
    requires WellFormed(input, s)
    requires s.peek.tokenType != Semicolon && precedence < Precedence(s.peek.tokenType) && HasInfixRule(s.peek.tokenType)
    ensures var (s', e) := InfixLoopFrom(scan, input, s, precedence, left);
            s'.errors == s.errors ==>
              && Tokens(e) == Tokens(left) + Walk(scan, input, Advance(scan, input, s), n)
              && s' == Iterate(scan, input, s, n)
    decreases Fuel(input, s), 1
  {
    var s1 := Advance(scan, input, s);
    var (s2, e) := ParseInfixFrom(scan, input, s1, left);
    var m := InfixTokens(scan, input, s1, left);
    var k := InfixLoopTokens(scan, input, s2, precedence, Some(e));
    var (s', f) := InfixLoopFrom(scan, input, s2, precedence, Some(e));
    n := m + k;
    assert InfixLoopFrom(scan, input, s, precedence, left) == (s', f);
    if s'.errors == s.errors {
      ParserProperties.PrefixSqueeze(s.errors, s2.errors, s'.errors);
      LoopJoin(scan, input, s, s1, s2, s', Tokens(left), Tokens(Some(e)), Tokens(f), m, k);
    }
  }

  /** `parseExpression` without new errors: the tree's tokens are the `n`
    * tokens the parser moves over from the current one, and the tree reads
    * them. */
  lemma {:induction false} ExpressionTokens(scan: Scanner, input: string, s: PState,
                                            precedence: int) returns (n: nat)
    requires WellFormed(input, s)
    ensures var (s', e) := ParseExpressionFrom(scan, input, s, precedence);
            s'.errors == s.errors ==>
              && 0 < n
              && Tokens(e) == Walk(scan, input, s, n)
              && s' == Iterate(scan, input, s, n - 1)
    decreases Fuel(input, s), 3
  {
    n := 1;
    if HasPrefixRule(s.cur.tokenType) {
      var (s1, left) := ParseIntegerLiteralFrom(s);
      var k := InfixLoopTokens(scan, input, s1, precedence, left);
      var (s', e) := InfixLoopFrom(scan, input, s1, precedence, left);
      n := k + 1;
      if s'.errors == s.errors {
        ParserProperties.PrefixSqueeze(s.errors, s1.errors, s'.errors);
        assert Tokens(e) == [s.cur] + Walk(scan, input, Advance(scan, input, s), k);
      }
    }
  }

  /** `parseExpressionStatement` without new errors: the statement reads its
    * tokens, and the `n` tokens the parser moves over are those, followed by
    * the `;` when it consumed one. */
  lemma StatementTokens(scan: Scanner, input: string, s: PState) returns (n: nat)
    requires WellFormed(input, s)
    ensures var (s', stmt) := ParseExpressionStatementFrom(scan, input, s);
            var t := Tokens(stmt.expression);
            s'.errors == s.errors ==>
              && 0 < n && StatementRead(stmt) && NoEof(t)
              && s' == Iterate(scan, input, s, n - 1)
              && (Walk(scan, input, s, n) == t || Walk(scan, input, s, n) == t + [Token(Semicolon, ";")])
  {
    var m := ExpressionTokens(scan, input, s, LOWEST);
    ExpressionRead(scan, input, s, LOWEST);
    var (s1, e) := ParseExpressionFrom(scan, input, s, LOWEST);
    n := m;
    if s1.errors == s.errors {
      NoEofInTree(e);
      if s1.peek.tokenType == Semicolon {
        n := m + 1;
        SemicolonStep(scan, input, s, s1, Tokens(e), m);
      }
    }
  }

  /** Consuming the `;` after an expression moves over one more token. */
  lemma SemicolonStep(scan: Scanner, input: string, s: PState, s1: PState, t: seq<Token>, m: nat)
    requires 0 < m && s1 == Iterate(scan, input, s, m - 1) && Walk(scan, input, s, m) == t
    requires s1.peek.tokenType == Semicolon && WellFormedToken(s1.peek)
    ensures Advance(scan, input, s1) == Iterate(scan, input, s, m)
    ensures Walk(scan, input, s, m + 1) == t + [Token(Semicolon, ";")]
  {
    OneMore(scan, input, s, m - 1);
    OneMore(scan, input, s, m);
  }

  lemma {:induction false} NoEofInTree(e: Option<Expression>)
    requires ReadFromTokens(e)
    ensures NoEof(Tokens(e))
    decreases e
  {
    match e
    case None =>
    case Some(IntegerLiteral(_, _)) =>
    case Some(InfixExpression(token, _, left, right)) =>
      NoEofInTree(left);
      NoEofInTree(right);
      var l, r := Tokens(left), Tokens(right);
      assert forall i | 0 <= i < |l + [token] + r| ::
        (l + [token] + r)[i] == if i < |l| then l[i] else if i == |l| then token else r[i - |l| - 1];
  }

  lemma SpellsCons(stmt: Statement, rest: seq<Statement>, sep: seq<Token>, tail: seq<Token>)
    requires sep == [] || sep == [Token(Semicolon, ";")]
    requires Spells(rest, tail)
    ensures Spells([stmt] + rest, Tokens(stmt.expression) + sep + tail)
  {
    var t := Tokens(stmt.expression);
    var all := t + sep + tail;
    assert ([stmt] + rest)[1..] == rest;
    assert all[..|t|] == t;
    if sep == [] {
      assert all[|t|..] == tail;
    } else {
      assert all[|t|] == Token(Semicolon, ";");
      assert all[|t| + 1..] == tail;
    }
  }

  lemma NoEofJoin(t: seq<Token>, sep: seq<Token>, tail: seq<Token>)
    requires NoEof(t) && NoEof(sep) && NoEof(tail)
    ensures NoEof(t + sep + tail)
  {
    var all := t + sep + tail;
    forall i | 0 <= i < |all|
      ensures all[i].tokenType != Eof
    {
      if i < |t| {
        assert all[i] == t[i];
      } else if i < |t| + |sep| {
        assert all[i] == sep[i - |t|];
      } else {
        assert all[i] == tail[i - |t| - |sep|];
      }
    }
  }

  /** One statement and the statements after it, told by the tokens each
    * part moves over: the statement's walk from `s` ends in `s2`, and the
    * rest's walk starts one step later, in `s3`, and ends in `s4`. */
  lemma ProgramJoin(scan: Scanner, input: string, s: PState, s2: PState, s3: PState, s4: PState,
                    stmt: Statement, rest: seq<Statement>, m: nat, k: nat)
    requires 0 < m && s2 == Iterate(scan, input, s, m - 1) && s3 == Advance(scan, input, s2) && s4 == Iterate(scan, input, s3, k)
    requires var t := Tokens(stmt.expression);
             Walk(scan, input, s, m) == t || Walk(scan, input, s, m) == t + [Token(Semicolon, ";")]
    requires NoEof(Tokens(stmt.expression))
    requires NoEof(Walk(scan, input, s3, k)) && Spells(rest, Walk(scan, input, s3, k))
    ensures s4 == Iterate(scan, input, s, m + k)
    ensures NoEof(Walk(scan, input, s, m + k)) && Spells([stmt] + rest, Walk(scan, input, s, m + k))
  {
    var t := Tokens(stmt.expression);
    OneMore(scan, input, s, m - 1);
    Steps(scan, input, s, m, k);
    var tail := Walk(scan, input, s3, k);
    var sep := if Walk(scan, input, s, m) == t then [] else [Token(Semicolon, ";")];
    assert Walk(scan, input, s, m) == t + sep;
    SpellsCons(stmt, rest, sep, tail);
    NoEofJoin(t, sep, tail);
  }

  /** `ParseProgram` without new errors: the statements spell the `n`
    * tokens the parser moves over until the current token is EOF, and each
    * statement reads its own. */
  lemma {:induction false} ProgramTokens(scan: Scanner, input: string, s: PState) returns (n: nat)
    requires WellFormed(input, s)
    ensures var (s', statements) := ParseProgramFrom(scan, input, s);
            s'.errors == s.errors ==>
              && (forall stmt | stmt in statements :: StatementRead(stmt))
              && s' == Iterate(scan, input, s, n)
              && NoEof(Walk(scan, input, s, n))
              && Spells(statements, Walk(scan, input, s, n))
    decreases Fuel(input, s)
  {
    n := 0;
    var (s', statements) := ParseProgramFrom(scan, input, s);
    if s.cur.tokenType == Eof {
      assert Walk(scan, input, s, 0) == [];
    } else {
      var (s2, stmt) := ParseExpressionStatementFrom(scan, input, s);
      var s3 := Advance(scan, input, s2);
      var m := StatementTokens(scan, input, s);
      var k := ProgramTokens(scan, input, s3);
      var (_, rest) := ParseProgramFrom(scan, input, s3);
      n := m + k;
      assert ParseProgramFrom(scan, input, s) == (s', [stmt] + rest);
      if s'.errors == s.errors {
        ParserProperties.PrefixSqueeze(s.errors, s2.errors, s'.errors);
        ProgramJoin(scan, input, s, s2, s3, s', stmt, rest, m, k);
        assert forall x | x in statements :: x == stmt || x in rest;
      }
    }
  }

  /** A parser state in step with the lexer at `pos`: its current token is
    * the one scanned at `pos`, and its lookahead and cursor are the next
    * scan's. */
  predicate InStep(input: string, s: PState, pos: nat) {
    var (t0, p1) := Lexer.Scan(input, pos);
    var (t1, p2) := Lexer.Scan(input, p1);
    s.cur == t0 && s.peek == t1 && s.pos == p2
  }

  /** The tokens the parser's states move over, up to a first EOF, are what
    * `Tokenize` gives from the lexer position they are in step with. */
  lemma {:induction false} StreamTokenize(input: string, s: PState, pos: nat, n: nat)
    requires pos <= |input| && InStep(input, s, pos)
    requires NoEof(Walk(Lexer.Scan, input, s, n)) && Iterate(Lexer.Scan, input, s, n).cur.tokenType == Eof
    ensures Walk(Lexer.Scan, input, s, n) + [Token(Eof, "")] == Lexer.Tokenize(input, pos)
    decreases n
  {
    var (t, next) := Lexer.Scan(input, pos);
    if n == 0 {
      assert Lexer.Tokenize(input, pos) == [t];
    } else {
      assert Walk(Lexer.Scan, input, s, n)[0] == t;
      var tail := Walk(Lexer.Scan, input, Advance(Lexer.Scan, input, s), n - 1);
      assert Walk(Lexer.Scan, input, s, n) == [t] + tail;
      assert forall i | 0 <= i < |tail| :: tail[i] == Walk(Lexer.Scan, input, s, n)[i + 1];
      StreamTokenize(input, Advance(Lexer.Scan, input, s), next, n - 1);
      assert Walk(Lexer.Scan, input, s, n) + [Token(Eof, "")] == [t] + (tail + [Token(Eof, "")]);
    }
  }

  /** A line parsed without errors: its statements spell the line's tokens
    * (everything `Tokenize` gives before the final EOF), each statement
    * followed by the `;` it consumed, if any; and every statement reads its
    * tokens. So a parser that dropped, reordered or invented a token, or
    * swapped an operator's operands, would break this lemma. */
  lemma ParsedTokens(input: string)
    requires Parse(input).1 == []
    ensures var all := Lexer.Tokenize(input, 0);
            && 0 < |all| && all[|all| - 1] == Token(Eof, "")
            && Spells(Parse(input).0.statements, all[..|all| - 1])
            && forall stmt | stmt in Parse(input).0.statements :: StatementRead(stmt)
  {
    var s := Start(Lexer.Scan, input, 0);
    var n := ProgramTokens(Lexer.Scan, input, s);
    StreamTokenize(input, s, 0, n);
    var all := Lexer.Tokenize(input, 0);
    assert all[..|all| - 1] == Walk(Lexer.Scan, input, s, n);
  }
}
