/**
 * The token vocabulary shared by the lexer and the parser (the Go package
 * `token`, which is not part of this model: its kinds are the ones the lexer
 * and the parser name).
 */
module Token {

  /** The kinds of token. `Empty` is the kind of the zero-valued token, which
    * the lexer returns for a byte it does not recognise; the kinds after
    * `Semicolon` are reserved in the precedence table but never produced. */
  datatype TokenType =
    | Empty | Eof | Int | Plus | Minus | Asterisk | Slash | Semicolon
    | Eq | NotEq | Lt | Gt | LParen | LBracket | Assign

  datatype Token = Token(tokenType: TokenType, literal: string)

  /** The zero-valued token: empty kind, empty literal. */
  const Zero: Token := Token(Empty, "")

  predicate IsDigit(c: char) {
    '0' <= c <= '9'
  }

  /** The digits are exactly the ten characters `0` to `9`. */
  lemma DigitCharacters(c: char)
    ensures IsDigit(c) <==> c in "0123456789"
  {
  }

  predicate IsDigits(s: string) {
    forall i | 0 <= i < |s| :: IsDigit(s[i])
  }

  /** What the lexer guarantees of every token it makes: an operator or `;`
    * carries its own character, an integer a non-empty run of digits and
    * the end of input an empty literal. */
  predicate WellFormedToken(t: Token) {
    match t.tokenType
    case Plus => t.literal == "+"
    case Minus => t.literal == "-"
    case Asterisk => t.literal == "*"
    case Slash => t.literal == "/"
    case Semicolon => t.literal == ";"
    case Eof => t.literal == ""
    case Empty => t.literal == ""
    case Int => |t.literal| > 0 && IsDigits(t.literal)
    case _ => true
  }

  /** The text a Go `%s` prints for a token kind. The Go constants are not
    * part of this model; these are the conventional spellings. */
  function KindName(t: TokenType): string {
    match t
    case Empty => ""
    case Eof => "EOF"
    case Int => "INT"
    case Plus => "+"
    case Minus => "-"
    case Asterisk => "*"
    case Slash => "/"
    case Semicolon => ";"
    case Eq => "=="
    case NotEq => "!="
    case Lt => "<"
    case Gt => ">"
    case LParen => "("
    case LBracket => "["
    case Assign => ":="
  }
}
