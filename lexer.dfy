/**
 * The lexer: a byte cursor over one line of input. `Scan` is the pure
 * specification of one `NextToken` call, as a function of the cursor
 * position; the class `Lexer` is the cursor itself, whose methods are proved
 * against it.
 */
module Lexer {
  import opened Token

  /** The byte `readChar` loads for index `i`: NUL once `i` is past the end. */
  function CharAt(input: string, i: nat): char {
    if i < |input| then input[i] else '\0'
  }

  predicate IsWhitespace(c: char) {
    c == ' ' || c == '\t' || c == '\n' || c == '\r'
  }

  /** Where `skipWhiteSpace` leaves a cursor that starts at `pos`. */
  function SkipWhitespace(input: string, pos: nat): (r: nat)
    ensures pos <= r
    ensures pos <= |input| ==> r <= |input|
    ensures forall i | pos <= i < r :: i < |input| && IsWhitespace(input[i])
    ensures !IsWhitespace(CharAt(input, r))
    decreases |input| - pos
  {
    if IsWhitespace(CharAt(input, pos)) then SkipWhitespace(input, pos + 1) else pos
  }

  /** Where `readNumber` leaves a cursor that starts at `pos`: the first
    * index at or after `pos` that does not hold a digit. */
  function DigitRunEnd(input: string, pos: nat): (r: nat)
    ensures pos <= r
    ensures pos <= |input| ==> r <= |input|
    ensures forall i | pos <= i < r :: i < |input| && IsDigit(input[i])
    ensures !IsDigit(CharAt(input, r))
    decreases |input| - pos
  {
    if IsDigit(CharAt(input, pos)) then DigitRunEnd(input, pos + 1) else pos
  }

  /** A one-character token; the end-of-input token has an empty literal. */
  function NewToken(tokenType: TokenType, c: char): (r: Token)
    ensures r.tokenType == tokenType
    ensures tokenType == Eof ==> r.literal == ""
    ensures tokenType != Eof ==> r.literal == [c]
    ensures tokenType == Eof || (tokenType in {Semicolon, Plus, Minus, Asterisk, Slash} && [c] == KindName(tokenType)) ==>
              WellFormedToken(r)
  {
    if tokenType == Eof then Token(Eof, "") else Token(tokenType, [c])
  }

  /**
   * One `NextToken` call from cursor position `pos`: the token and the
   * position it leaves the cursor at. The call always moves the cursor
   * forward, every token but end-of-input lies inside the input, and from a
   * position inside the input the cursor never goes more than one past its
   * end.
   */
  function Scan(input: string, pos: nat): (r: (Token, nat))
    ensures pos < r.1
    ensures r.0.tokenType != Eof ==> r.1 <= |input|
    ensures pos <= |input| ==> r.1 <= |input| + 1
    ensures WellFormedToken(r.0)
  {
    var p := SkipWhitespace(input, pos);
    var c := CharAt(input, p);
    match c
    case ';' => (NewToken(Semicolon, c), p + 1)
    case '\0' => (NewToken(Eof, c), p + 1)
    case '+' => (NewToken(Plus, c), p + 1)
    case '-' => (NewToken(Minus, c), p + 1)
    case '*' => (NewToken(Asterisk, c), p + 1)
    case '/' => (NewToken(Slash, c), p + 1)
    case _ =>
      if IsDigit(c) then
        var e := DigitRunEnd(input, p);
        (Token(Int, input[p..e]), e)
      else
        (Zero, p + 1)
  }

  /** The tokens of `input` from position `pos`, up to and including the
    * first end-of-input token: what a caller gets by calling `NextToken`
    * until it returns `EOF`. */
  function Tokenize(input: string, pos: nat): (r: seq<Token>)
    requires pos <= |input|
    decreases |input| - pos
  {
    var (t, next) := Scan(input, pos);
    if t.tokenType == Eof then [t] else [t] + Tokenize(input, next)
  }

  /** The tokens of `n` consecutive `NextToken` calls from position `pos`. */
  function ScanMany(input: string, pos: nat, n: nat): seq<Token>
    decreases n
  {
    if n == 0 then [] else [Scan(input, pos).0] + ScanMany(input, Scan(input, pos).1, n - 1)
  }

  class Lexer {
    const input: string
    var position: nat
    var readPosition: nat
    var ch: char

    /** The cursor invariant: `ch` is the byte at `position`, and
      * `readPosition` is the next one to load. */
    ghost predicate Valid()
      reads this
    {
      readPosition == position + 1 && ch == CharAt(input, position)
    }

    /** `New`: a lexer on `input` with the first byte loaded. */
    constructor (input: string)
      ensures Valid() && this.input == input && position == 0
    {
      this.input := input;
      position, readPosition, ch := 0, 0, '\0';
      new;
      ReadChar();
    }

    /** Loads the byte at `readPosition` (NUL past the end) and moves on. */
    method ReadChar()
      modifies this
      ensures position == old(readPosition) && readPosition == position + 1
      ensures ch == CharAt(input, position)
    {
      if readPosition >= |input| {
        ch := '\0';
      } else {
        ch := input[readPosition];
      }
      position := readPosition;
      readPosition := readPosition + 1;
    }

    method SkipWhiteSpace()
      requires Valid()
      modifies this
      ensures Valid() && position == SkipWhitespace(input, old(position))
    {
      while ch == ' ' || ch == '\t' || ch == '\n' || ch == '\r'
        invariant Valid()
        invariant SkipWhitespace(input, position) == SkipWhitespace(input, old(position))
        decreases |input| - position
      {
        ReadChar();
      }
    }

    /** Consumes the run of digits at the cursor and returns it. The slice
      * in the source needs the cursor to be inside the input. */
    method ReadNumber() returns (literal: string)
      requires Valid() && position <= |input|
      modifies this
      ensures Valid() && position == DigitRunEnd(input, old(position))
      ensures literal == input[old(position)..position]
    {
      var start := position;
      while IsDigit(ch)
        invariant Valid() && start <= position <= |input|
        invariant DigitRunEnd(input, position) == DigitRunEnd(input, start)
        decreases |input| - position
      {
        ReadChar();
      }
      literal := input[start..position];
    }

    method NextToken() returns (tok: Token)
      requires Valid()
      modifies this
      ensures Valid() && (tok, position) == Scan(input, old(position))
    {
      SkipWhiteSpace();
      if ch == ';' {
        tok := NewToken(Semicolon, ch);
      } else if ch == '\0' {
        tok := NewToken(Eof, ch);
      } else if ch == '+' {
        tok := NewToken(Plus, ch);
      } else if ch == '-' {
        tok := NewToken(Minus, ch);
      } else if ch == '*' {
        tok := NewToken(Asterisk, ch);
      } else if ch == '/' {
        tok := NewToken(Slash, ch);
      } else if IsDigit(ch) {
        var literal := ReadNumber();
        return Token(Int, literal);
      } else {
        tok := Zero;
      }
      ReadChar();
    }
  }
}
