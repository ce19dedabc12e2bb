/**
 * The Pratt parser. The first half is a pure specification: the parser's
 * state is a value `PState` (current token, lookahead token, the lexer's
 * cursor position and the error list), and each parsing routine is a
 * function from a state to the state it leaves and what it builds. The class
 * `Parser` is the parser itself, over a `Lexer` object; each of its methods
 * is proved to do exactly what its function says.
 */
module Parser {
  import opened Wrappers
  import opened Token
  import opened Strconv
  import opened Ast
  import Lexer

  // Precedence levels, lowest first.
  const LOWEST: int := 1
  const ASSIGN: int := 2
  const EQUALS: int := 3
  const LESSGREATER: int := 4
  const SUM: int := 5
  const PRODUCT: int := 6
  const PREFIX: int := 7
  const CALL: int := 8
  const INDEX: int := 9

  /** The precedence table; a kind it does not list binds at LOWEST. */
  function Precedence(t: TokenType): (r: int)
    ensures LOWEST <= r <= INDEX
    ensures r == SUM <==> t == Plus || t == Minus
    ensures r == PRODUCT <==> t == Asterisk || t == Slash
    ensures r == LOWEST <==> !(t in {Eq, NotEq, Lt, Gt, Plus, Minus, Slash, Asterisk, LParen, LBracket, Assign})
  {
    match t
    case Eq | NotEq => EQUALS
    case Lt | Gt => LESSGREATER
    case Plus | Minus => SUM
    case Slash | Asterisk => PRODUCT
    case LParen => CALL
    case LBracket => INDEX
    case Assign => ASSIGN
    case _ => LOWEST
  }

  /** The prefix dispatch table: only an integer can start an expression. */
  predicate HasPrefixRule(t: TokenType) {
    match t
    case Int => true
    case _ => false
  }

  /** The infix dispatch table: the four arithmetic operators. */
  predicate HasInfixRule(t: TokenType) {
    match t
    case Plus | Minus | Asterisk | Slash => true
    case _ => false
  }

  datatype ParseError =
    | NoPrefixParseFn(tokenType: TokenType)
    | NotAnInteger(literal: string)

  /** The text the parser records for an error. */
  function Message(e: ParseError): string {
    match e
    case NoPrefixParseFn(t) => "no prefix parse function for " + KindName(t) + " found"
    case NotAnInteger(literal) => "could not parse \"" + literal + "\" as integer"
  }

  function Messages(errors: seq<ParseError>): (r: seq<string>)
    ensures |r| == |errors|
    ensures forall i | 0 <= i < |errors| :: r[i] == Message(errors[i])
  {
    if errors == [] then [] else [Message(errors[0])] + Messages(errors[1..])
  }

  /** The parser's state: its token window, the position of the lexer's
    * cursor (where the next scan starts) and the errors so far. */
  datatype PState = PState(cur: Token, peek: Token, pos: nat, errors: seq<ParseError>)

  /** What holds of every state the parser reaches: both tokens are tokens
    * the lexer can make, a lookahead that is not EOF was scanned from inside
    * the input, and so was the token before a current token that is not EOF. */
  predicate WellFormed(input: string, s: PState) {
    && WellFormedToken(s.cur)
    && WellFormedToken(s.peek)
    && (s.peek.tokenType != Eof ==> s.pos <= |input|)
    && (s.cur.tokenType != Eof ==> s.pos <= |input| + 1)
  }

  /** The termination measure: how far the cursor is from the point where
    * every token is EOF. */
  function Fuel(input: string, s: PState): nat {
    if s.pos < |input| + 2 then |input| + 2 - s.pos else 0
  }

  /** What the parser relies on of the lexer's `NextToken`, as a function
    * from a cursor position to the token and the position it leaves: the
    * cursor moves forward, a token other than EOF lies inside the input, a
    * cursor inside the input stays at most one past its end, and every token
    * is well formed. `Lexer.Scan` is proved to meet it; the parsing functions
    * below are stated over any scanner that does, and `Parse` uses
    * `Lexer.Scan`. */
  ghost predicate Scans(scan: (string, nat) -> (Token, nat)) {
    forall input: string, pos: nat {:trigger scan(input, pos)} ::
      && pos < scan(input, pos).1
      && (scan(input, pos).0.tokenType != Eof ==> scan(input, pos).1 <= |input|)
      && (pos <= |input| ==> scan(input, pos).1 <= |input| + 1)
      && WellFormedToken(scan(input, pos).0)
  }

  type Scanner = scan: (string, nat) -> (Token, nat) | Scans(scan) witness Lexer.Scan

  /** `nextToken`: the lookahead becomes the current token and the lexer
    * scans a new lookahead. */
  function Advance(scan: Scanner, input: string, s: PState): (r: PState)
    ensures r.cur == s.peek && r.errors == s.errors && s.pos < r.pos
    ensures WellFormed(input, s) ==> WellFormed(input, r)
  {
    var (t, next) := scan(input, s.pos);
    PState(s.peek, t, next, s.errors)
  }

  /** The state `New` leaves: two tokens scanned from the lexer's position,
    * starting from zero-valued tokens and no errors. */
  function Start(scan: Scanner, input: string, pos: nat): (r: PState)
    ensures WellFormed(input, r) && r.errors == []
  {
    Advance(scan, input, Advance(scan, input, PState(Zero, Zero, pos, [])))
  }

  /** `parseIntegerLiteral` on the current INT token. */
  function ParseIntegerLiteralFrom(s: PState): (r: (PState, Option<Expression>))
    requires s.cur.tokenType == Int && WellFormedToken(s.cur)
    ensures r.0 == s.(errors := r.0.errors)
    ensures r.1.Some? <==> r.0.errors == s.errors
    ensures r.1.Some? ==> && r.1.value.IntegerLiteral? && r.1.value.token == s.cur
                          && ParseInt(s.cur.literal) == Some(r.1.value.value)
    ensures r.1.None? ==> ParseInt(s.cur.literal).None? && r.0.errors == s.errors + [NotAnInteger(s.cur.literal)]
  {
    match ParseInt(s.cur.literal)
    case Some(v) => (s, Some(IntegerLiteral(s.cur, v)))
    case None => (s.(errors := s.errors + [NotAnInteger(s.cur.literal)]), None)
  }

  /** `parseExpression(precedence)`. */
  function ParseExpressionFrom(scan: Scanner, input: string, s: PState, precedence: int): (r: (PState, Option<Expression>))
    requires WellFormed(input, s)
    ensures WellFormed(input, r.0) && s.pos <= r.0.pos && s.errors <= r.0.errors
    decreases Fuel(input, s), 2
  {
    if !HasPrefixRule(s.cur.tokenType) then
      (s.(errors := s.errors + [NoPrefixParseFn(s.cur.tokenType)]), None)
    else
      var (s1, left) := ParseIntegerLiteralFrom(s);
      InfixLoopFrom(scan, input, s1, precedence, left)
  }

  /** The loop of `parseExpression`: while the lookahead is not `;` and
    * binds more tightly than `precedence`, fold it into the left operand. */
  function InfixLoopFrom(scan: Scanner, input: string, s: PState, precedence: int, left: Option<Expression>): (r: (PState, Option<Expression>))
    requires WellFormed(input, s)
    ensures WellFormed(input, r.0) && s.pos <= r.0.pos && s.errors <= r.0.errors
    decreases Fuel(input, s), 1
  {
    if s.peek.tokenType != Semicolon && precedence < Precedence(s.peek.tokenType) then
      if !HasInfixRule(s.peek.tokenType) then
        (s, left)
      else
        var (s2, e) := ParseInfixFrom(scan, input, Advance(scan, input, s), left);
        InfixLoopFrom(scan, input, s2, precedence, Some(e))
    else
      (s, left)
  }

  /** `parseInfixExpression(left)`: the right operand is parsed at the
    * operator's own precedence. */
  function ParseInfixFrom(scan: Scanner, input: string, s: PState, left: Option<Expression>): (r: (PState, Expression))
    requires WellFormed(input, s) && HasInfixRule(s.cur.tokenType)
    ensures WellFormed(input, r.0) && s.pos < r.0.pos && s.errors <= r.0.errors
    decreases Fuel(input, s), 0
  {
    var precedence := Precedence(s.cur.tokenType);
    var (s2, right) := ParseExpressionFrom(scan, input, Advance(scan, input, s), precedence);
    (s2, InfixExpression(s.cur, s.cur.literal, left, right))
  }

  /** `parseExpressionStatement`: one expression and an optional `;`. */
  function ParseExpressionStatementFrom(scan: Scanner, input: string, s: PState): (r: (PState, Statement))
    requires WellFormed(input, s)
    ensures WellFormed(input, r.0) && s.pos <= r.0.pos && s.errors <= r.0.errors
  {
    var (s1, e) := ParseExpressionFrom(scan, input, s, LOWEST);
    var s2 := if s1.peek.tokenType == Semicolon then Advance(scan, input, s1) else s1;
    (s2, ExpressionStatement(s.cur, e))
  }

  /** `ParseProgram`: one statement per iteration until the current token
    * is EOF, each followed by one `nextToken`. */
  function ParseProgramFrom(scan: Scanner, input: string, s: PState): (r: (PState, seq<Statement>))
    requires WellFormed(input, s)
    ensures WellFormed(input, r.0) && r.0.cur.tokenType == Eof && s.errors <= r.0.errors
    decreases Fuel(input, s)
  {
    if s.cur.tokenType == Eof then
      (s, [])
    else
      var (s1, stmt) := ParseExpressionStatementFrom(scan, input, s);
      var (s2, rest) := ParseProgramFrom(scan, input, Advance(scan, input, s1));
      (s2, [stmt] + rest)
  }

  /** A fresh lexer and parser on one line, and `ParseProgram`: the program
    * and the errors recorded. */
  function Parse(input: string): (r: (Program, seq<ParseError>))
    ensures r.0.statements == [] <==> Start(Lexer.Scan, input, 0).cur.tokenType == Eof
  {
    var (s, statements) := ParseProgramFrom(Lexer.Scan, input, Start(Lexer.Scan, input, 0));
    (Program(statements), s.errors)
  }

  class Parser {
    const l: Lexer.Lexer
    var errors: seq<ParseError>
    var curToken: Token
    var peekToken: Token

    ghost function State(): PState
      reads this, l
    {
      PState(curToken, peekToken, l.position, errors)
    }

    ghost predicate Valid()
      reads this, l
    {
      l.Valid() && WellFormed(l.input, State())
    }

    /** `New`: reads two tokens so that the window is full. */
    constructor (l: Lexer.Lexer)
      requires l.Valid()
      modifies l
      ensures this.l == l && Valid()
      ensures State() == Start(Lexer.Scan, l.input, old(l.position))
    {
      this.l := l;
      errors := [];
      curToken, peekToken := Zero, Zero;
      new;
      NextToken();
      NextToken();
    }

    /** The error messages, one per error, in the order they were
      * recorded. */
    function Errors(): (r: seq<string>)
      reads this
      ensures |r| == |errors|
      ensures forall i | 0 <= i < |errors| :: r[i] == Message(errors[i])
    {
      Messages(errors)
    }

    /** The lookahead's precedence: SUM for `+` and `-`, PRODUCT for `*`
      * and `/`, LOWEST for a kind the table does not list. */
    function PeekPrecedence(): (r: int)
      reads this
      ensures r == SUM <==> peekToken.tokenType in {Plus, Minus}
      ensures r == PRODUCT <==> peekToken.tokenType in {Asterisk, Slash}
      ensures HasInfixRule(peekToken.tokenType) ==> LOWEST < r
      ensures peekToken.tokenType in {Eof, Int, Semicolon, Empty} ==> r == LOWEST
    {
      Precedence(peekToken.tokenType)
    }

    /** The current token's precedence, read from the same table. */
    function CurPrecedence(): (r: int)
      reads this
      ensures r == SUM <==> curToken.tokenType in {Plus, Minus}
      ensures r == PRODUCT <==> curToken.tokenType in {Asterisk, Slash}
      ensures HasInfixRule(curToken.tokenType) ==> LOWEST < r
      ensures curToken.tokenType in {Eof, Int, Semicolon, Empty} ==> r == LOWEST
    {
      Precedence(curToken.tokenType)
    }

    method NextToken()
      requires l.Valid()
      modifies this, l
      ensures l.Valid() && State() == Advance(Lexer.Scan, l.input, old(State()))
    {
      curToken := peekToken;
      peekToken := l.NextToken();
    }

    method NoPrefixParseFnError(t: TokenType)
      modifies this
      ensures errors == old(errors) + [NoPrefixParseFn(t)]
      ensures curToken == old(curToken) && peekToken == old(peekToken)
    {
      errors := errors + [NoPrefixParseFn(t)];
    }

    method ParseIntegerLiteral() returns (e: Option<Expression>)
      requires Valid() && curToken.tokenType == Int
      modifies this
      ensures Valid() && (State(), e) == ParseIntegerLiteralFrom(old(State()))
    {
      var value := ParseInt(curToken.literal);
      if value.None? {
        errors := errors + [NotAnInteger(curToken.literal)];
        return None;
      }
      e := Some(IntegerLiteral(curToken, value.value));
    }

    method ParseExpression(precedence: int) returns (e: Option<Expression>)
      requires Valid()
      modifies this, l
      ensures Valid() && (State(), e) == ParseExpressionFrom(Lexer.Scan, l.input, old(State()), precedence)
      decreases Fuel(l.input, State()), 2
    {
      if !HasPrefixRule(curToken.tokenType) {
        NoPrefixParseFnError(curToken.tokenType);
        return None;
      }
      var left := ParseIntegerLiteral();
      ghost var s1, left1 := State(), left;
      while peekToken.tokenType != Semicolon && precedence < PeekPrecedence()
        invariant Valid() && old(l.position) <= l.position
        invariant InfixLoopFrom(Lexer.Scan, l.input, State(), precedence, left) == InfixLoopFrom(Lexer.Scan, l.input, s1, precedence, left1)
        decreases Fuel(l.input, State())
      {
        if !HasInfixRule(peekToken.tokenType) {
          return left;
        }
        NextToken();
        var infix := ParseInfixExpression(left);
        left := Some(infix);
      }
      e := left;
    }

    method ParseInfixExpression(left: Option<Expression>) returns (e: Expression)
      requires Valid() && HasInfixRule(curToken.tokenType)
      modifies this, l
      ensures Valid() && (State(), e) == ParseInfixFrom(Lexer.Scan, l.input, old(State()), left)
      decreases Fuel(l.input, State()), 1
    {
      var token := curToken;
      var precedence := CurPrecedence();
      NextToken();
      var right := ParseExpression(precedence);
      e := InfixExpression(token, token.literal, left, right);
    }

    method ParseExpressionStatement() returns (stmt: Statement)
      requires Valid()
      modifies this, l
      ensures Valid() && (State(), stmt) == ParseExpressionStatementFrom(Lexer.Scan, l.input, old(State()))
    {
      var token := curToken;
      var e := ParseExpression(LOWEST);
      if peekToken.tokenType == Semicolon {
        NextToken();
      }
      stmt := ExpressionStatement(token, e);
    }

    method ParseProgram() returns (program: Program)
      requires Valid()
      modifies this, l
      ensures Valid() && (State(), program.statements) == ParseProgramFrom(Lexer.Scan, l.input, old(State()))
    {
      var statements: seq<Statement> := [];
      while curToken.tokenType != Eof
        invariant Valid()
        invariant ParseProgramFrom(Lexer.Scan, l.input, State()).0 == ParseProgramFrom(Lexer.Scan, l.input, old(State())).0
        invariant statements + ParseProgramFrom(Lexer.Scan, l.input, State()).1 == ParseProgramFrom(Lexer.Scan, l.input, old(State())).1
        decreases Fuel(l.input, State())
      {
        var stmt := ParseExpressionStatement();
        statements := statements + [stmt];
        NextToken();
      }
      assert ParseProgramFrom(Lexer.Scan, l.input, State()) == (State(), []);
      assert statements + [] == statements;
      program := Program(statements);
    }
  }

  /** One line through a new lexer and a new parser, as the read loop does
    * it: the program and the messages of `Errors`. The objects compute
    * exactly `Parse`. */
  method ParseLine(input: string) returns (program: Program, messages: seq<string>)
    ensures program == Parse(input).0 && messages == Messages(Parse(input).1)
  {
    var l := new Lexer.Lexer(input);
    var p := new Parser(l);
    program := p.ParseProgram();
    messages := p.Errors();
  }
}
