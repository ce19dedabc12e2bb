/** What one `NextToken` call and a run of them produce, stated over `Scan`. */
module LexerProperties {
  import opened Token
  import opened Lexer

  /** The kind of a one-character token. */
  function SingleCharKind(c: char): TokenType {
    if c == ';' then Semicolon
    else if c == '+' then Plus
    else if c == '-' then Minus
    else if c == '*' then Asterisk
    else Slash
  }

  /** A digit after the skipped whitespace starts one INT token whose literal
    * is exactly the maximal run of digits there; the cursor is left on the
    * first byte that is not a digit. */
  lemma ScanIntegerLiteral(input: string, pos: nat)
    requires IsDigit(CharAt(input, SkipWhitespace(input, pos)))
    ensures var p := SkipWhitespace(input, pos);
            var (t, next) := Scan(input, pos);
            && p < next <= |input|
            && t == Token(Int, input[p..next])
            && IsDigits(t.literal)
            && !IsDigit(CharAt(input, next))
  {
  }

  /** Each of `;` `+` `-` `*` `/` is a token of its own kind whose literal is
    * that one character, and consumes exactly that byte. */
  lemma ScanSingleCharacter(input: string, pos: nat)
    requires CharAt(input, SkipWhitespace(input, pos)) in ";+-*/"
    ensures var p := SkipWhitespace(input, pos);
            var c := input[p];
            Scan(input, pos) == (Token(SingleCharKind(c), [c]), p + 1)
  {
  }

  /** NUL, whether past the end or embedded in the input, reads as the end of
    * input: an EOF token with an empty literal, one byte consumed. */
  lemma ScanNul(input: string, pos: nat)
    requires CharAt(input, SkipWhitespace(input, pos)) == '\0'
    ensures Scan(input, pos) == (Token(Eof, ""), SkipWhitespace(input, pos) + 1)
  {
  }

  /** Any other byte gives the zero token and consumes exactly that byte:
    * the lexer never fails. */
  lemma ScanUnknownByte(input: string, pos: nat)
    requires var c := CharAt(input, SkipWhitespace(input, pos));
             c != '\0' && !IsDigit(c) && c !in ";+-*/"
    ensures Scan(input, pos) == (Zero, SkipWhitespace(input, pos) + 1)
    ensures SkipWhitespace(input, pos) < |input|
  {
  }

  /** Once the input is exhausted, every further call returns EOF with an
    * empty literal. */
  lemma {:induction false} EndOfInputForever(input: string, pos: nat, n: nat)
    requires pos >= |input|
    ensures ScanMany(input, pos, n) == seq(n, _ => Token(Eof, ""))
    decreases n
  {
    if n > 0 {
      assert Scan(input, pos) == (Token(Eof, ""), pos + 1);
      EndOfInputForever(input, pos + 1, n - 1);
    }
  }

  lemma {:induction false} DigitRunToEnd(s: string, i: nat)
    requires IsDigits(s) && i <= |s|
    ensures DigitRunEnd(s, i) == |s|
    decreases |s| - i
  {
    if i < |s| {
      assert IsDigit(CharAt(s, i));
      DigitRunToEnd(s, i + 1);
    }
  }

  /** A non-empty run of digits tokenizes to one INT token holding exactly
    * that text, followed by EOF. */
  lemma DigitsTokenize(s: string)
    requires |s| > 0 && IsDigits(s)
    ensures Tokenize(s, 0) == [Token(Int, s), Token(Eof, "")]
  {
    assert IsDigit(CharAt(s, 0));
    assert SkipWhitespace(s, 0) == 0;
    DigitRunToEnd(s, 0);
    assert s[0..|s|] == s;
    assert Scan(s, 0) == (Token(Int, s), |s|);
    assert SkipWhitespace(s, |s|) == |s|;
    assert Scan(s, |s|) == (Token(Eof, ""), |s| + 1);
    assert Tokenize(s, |s|) == [Token(Eof, "")];
  }

  /** The lexer's unit test: leading, inner and trailing newlines are skipped. */
  lemma NewlineSeparatedIntegers()
    ensures Tokenize("\n7\n773\n", 0) == [Token(Int, "7"), Token(Int, "773"), Token(Eof, "")]
  {
    var input := "\n7\n773\n";
    assert SkipWhitespace(input, 0) == 1;
    assert DigitRunEnd(input, 1) == 2;
    assert input[1..2] == "7";
    assert Scan(input, 0) == (Token(Int, "7"), 2);
    assert SkipWhitespace(input, 2) == 3;
    assert DigitRunEnd(input, 3) == 6;
    assert input[3..6] == "773";
    assert Scan(input, 2) == (Token(Int, "773"), 6);
    assert SkipWhitespace(input, 6) == 7;
    assert Scan(input, 6) == (Token(Eof, ""), 8);
  }

  /** The same test, stated on the lexer object. */
  method NewlineSeparatedIntegersOnLexer()
  {
    var l := new Lexer("\n7\n773\n");
    NewlineSeparatedIntegers();
    var t := l.NextToken();
    assert t == Token(Int, "7");
    t := l.NextToken();
    assert t == Token(Int, "773");
    t := l.NextToken();
    assert t == Token(Eof, "");
    t := l.NextToken();
    assert t == Token(Eof, "");
  }
}
