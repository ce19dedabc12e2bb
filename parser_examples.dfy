/** The parser's unit tests and the grouping examples, as lemmas about `Parse`. */
module ParserExamples {
  import opened Wrappers
  import opened Token
  import opened Strconv
  import opened Ast
  import opened Lexer
  import opened Parser
  import LexerProperties

  function Lit(literal: string, value: Int64): Option<Expression> {
    Some(IntegerLiteral(Token(Int, literal), value))
  }

  function Op(c: char): Token {
    Token(LexerProperties.SingleCharKind(c), [c])
  }

  /** `773;` is one statement holding the literal 773; the `;` is consumed. */
  lemma IntegerLiteralStatement()
    ensures Parse("773;") ==
      (Program([ExpressionStatement(Token(Int, "773"), Lit("773", 773))]), [])
  {
    var input := "773;";
    assert DigitRunEnd(input, 0) == 3;
    assert input[0..3] == "773";
    assert Scan(input, 0) == (Token(Int, "773"), 3);
    assert Scan(input, 3) == (Token(Semicolon, ";"), 4);
    assert Scan(input, 4) == (Token(Eof, ""), 5);
    assert Scan(input, 5) == (Token(Eof, ""), 6);
    assert Value("773", 10) == 773 by {
      assert "773"[..2] == "77";
      assert "77"[..1] == "7";
      assert "7"[..0] == "";
    }
    assert ParseInt("773") == Some(773);
    var s0 := PState(Token(Int, "773"), Token(Semicolon, ";"), 4, []);
    assert Start(Scan, input, 0) == s0;
    assert ParseExpressionFrom(Scan, input, s0, LOWEST) == (s0, Lit("773", 773));
    var s1 := PState(Token(Semicolon, ";"), Token(Eof, ""), 5, []);
    assert ParseExpressionStatementFrom(Scan, input, s0) ==
      (s1, ExpressionStatement(Token(Int, "773"), Lit("773", 773)));
    var s2 := PState(Token(Eof, ""), Token(Eof, ""), 6, []);
    assert Advance(Scan, input, s1) == s2;
    assert ParseProgramFrom(Scan, input, s2) == (s2, []);
    var stmt := ExpressionStatement(Token(Int, "773"), Lit("773", 773));
    assert [stmt] + [] == [stmt];
    assert ParseProgramFrom(Scan, input, s0) ==
      (s2, [ExpressionStatement(Token(Int, "773"), Lit("773", 773))]);
  }

  function Infix(c: char, left: Option<Expression>, right: Option<Expression>): Option<Expression> {
    Some(InfixExpression(Op(c), [c], left, right))
  }

  lemma ValueFive()
    ensures ParseInt("5") == Some(5)
  {
    assert "5"[..0] == "";
  }

  /** `5 + 5`, `5 - 5`, `5 * 5` and `5 / 5`: one statement, an infix node
    * with the literal 5 on both sides, and no errors. */
  lemma SingleInfixStatement(c: char)
    requires c in "+-*/"
    ensures Parse("5 " + [c] + " 5") ==
      (Program([ExpressionStatement(Token(Int, "5"), Infix(c, Lit("5", 5), Lit("5", 5)))]), [])
  {
    var input := "5 " + [c] + " 5";
    assert input == ['5', ' ', c, ' ', '5'];
    assert input[0..1] == "5" && input[4..5] == "5";
    assert SkipWhitespace(input, 0) == 0;
    assert DigitRunEnd(input, 0) == 1;
    assert DigitRunEnd(input, 4) == 5;
    assert Scan(input, 0) == (Token(Int, "5"), 1);
    assert SkipWhitespace(input, 1) == 2;
    assert Scan(input, 1) == (Op(c), 3);
    assert SkipWhitespace(input, 3) == 4;
    assert Scan(input, 3) == (Token(Int, "5"), 5);
    assert Scan(input, 5) == (Token(Eof, ""), 6);
    assert Scan(input, 6) == (Token(Eof, ""), 7);
    ValueFive();
    var q := Precedence(Op(c).tokenType);
    assert HasInfixRule(Op(c).tokenType) && LOWEST < q;
    var s0 := PState(Token(Int, "5"), Op(c), 3, []);
    var s1 := PState(Op(c), Token(Int, "5"), 5, []);
    var s2 := PState(Token(Int, "5"), Token(Eof, ""), 6, []);
    var s3 := PState(Token(Eof, ""), Token(Eof, ""), 7, []);
    assert Start(Scan, input, 0) == s0;
    assert Advance(Scan, input, s0) == s1;
    assert Advance(Scan, input, s1) == s2;
    assert Advance(Scan, input, s2) == s3;
    assert ParseExpressionFrom(Scan, input, s2, q) == (s2, Lit("5", 5));
    var e := Infix(c, Lit("5", 5), Lit("5", 5));
    assert ParseInfixFrom(Scan, input, s1, Lit("5", 5)) == (s2, e.value);
    assert InfixLoopFrom(Scan, input, s2, LOWEST, e) == (s2, e);
    assert ParseExpressionFrom(Scan, input, s0, LOWEST) == (s2, e);
    var stmt := ExpressionStatement(Token(Int, "5"), e);
    assert ParseExpressionStatementFrom(Scan, input, s0) == (s2, stmt);
    assert ParseProgramFrom(Scan, input, s3) == (s3, []);
    assert [stmt] + [] == [stmt];
    assert ParseProgramFrom(Scan, input, s0) == (s3, [stmt]);
  }

  /** The token windows of `1 + 2 * 3` as the parser advances through it,
    * stated for any scanner so that the parse below does not unfold the
    * lexer again. */
  ghost predicate ProductWindows(scan: Scanner) {
    var input := "1 + 2 * 3";
    && Start(scan, input, 0) == PState(Token(Int, "1"), Op('+'), 3, [])
    && Advance(scan, input, PState(Token(Int, "1"), Op('+'), 3, [])) == PState(Op('+'), Token(Int, "2"), 5, [])
    && Advance(scan, input, PState(Op('+'), Token(Int, "2"), 5, [])) == PState(Token(Int, "2"), Op('*'), 7, [])
    && Advance(scan, input, PState(Token(Int, "2"), Op('*'), 7, [])) == PState(Op('*'), Token(Int, "3"), 9, [])
    && Advance(scan, input, PState(Op('*'), Token(Int, "3"), 9, [])) == PState(Token(Int, "3"), Token(Eof, ""), 10, [])
    && Advance(scan, input, PState(Token(Int, "3"), Token(Eof, ""), 10, [])) == PState(Token(Eof, ""), Token(Eof, ""), 11, [])
  }

  /** The lexer moves over `1 + 2 * 3` in those windows. */
  lemma ProductStates()
    ensures ProductWindows(Scan)
  {
    var input := "1 + 2 * 3";
    assert input[0..1] == "1" && input[4..5] == "2" && input[8..9] == "3";
    assert Scan(input, 0) == (Token(Int, "1"), 1);
    assert SkipWhitespace(input, 1) == 2;
    assert Scan(input, 1) == (Op('+'), 3);
    assert SkipWhitespace(input, 3) == 4;
    assert Scan(input, 3) == (Token(Int, "2"), 5);
    assert SkipWhitespace(input, 5) == 6;
    assert Scan(input, 5) == (Op('*'), 7);
    assert SkipWhitespace(input, 7) == 8;
    assert Scan(input, 7) == (Token(Int, "3"), 9);
    assert Scan(input, 9) == (Token(Eof, ""), 10);
    assert Scan(input, 10) == (Token(Eof, ""), 11);
  }

  /** The expression of `1 + 2 * 3`, read from the first token window. */
  lemma ProductExpression(scan: Scanner)
    requires ProductWindows(scan)
    ensures ParseExpressionFrom(scan, "1 + 2 * 3", PState(Token(Int, "1"), Op('+'), 3, []), LOWEST) ==
      (PState(Token(Int, "3"), Token(Eof, ""), 10, []),
       Infix('+', Lit("1", 1), Infix('*', Lit("2", 2), Lit("3", 3))))
  {
    var input := "1 + 2 * 3";
    assert ParseInt("1") == Some(1) by { assert "1"[..0] == ""; }
    assert ParseInt("2") == Some(2) by { assert "2"[..0] == ""; }
    assert ParseInt("3") == Some(3) by { assert "3"[..0] == ""; }
    var s1 := PState(Op('+'), Token(Int, "2"), 5, []);
    var a := PState(Token(Int, "2"), Op('*'), 7, []);
    var b := PState(Op('*'), Token(Int, "3"), 9, []);
    var c := PState(Token(Int, "3"), Token(Eof, ""), 10, []);
    var product := Infix('*', Lit("2", 2), Lit("3", 3));
    var sum := Infix('+', Lit("1", 1), product);
    assert ParseExpressionFrom(scan, input, c, PRODUCT) == (c, Lit("3", 3));
    assert ParseInfixFrom(scan, input, b, Lit("2", 2)) == (c, product.value);
    assert InfixLoopFrom(scan, input, c, SUM, product) == (c, product);
    assert ParseExpressionFrom(scan, input, a, SUM) == (c, product);
    assert ParseInfixFrom(scan, input, s1, Lit("1", 1)) == (c, sum.value);
    assert InfixLoopFrom(scan, input, c, LOWEST, sum) == (c, sum);
  }

  /** The program of `1 + 2 * 3`: one statement, no errors. */
  lemma ProductProgram(scan: Scanner)
    requires ProductWindows(scan)
    ensures ParseProgramFrom(scan, "1 + 2 * 3", Start(scan, "1 + 2 * 3", 0)) ==
      (PState(Token(Eof, ""), Token(Eof, ""), 11, []),
       [ExpressionStatement(Token(Int, "1"),
          Infix('+', Lit("1", 1), Infix('*', Lit("2", 2), Lit("3", 3))))])
  {
    var input := "1 + 2 * 3";
    ProductExpression(scan);
    var s0 := PState(Token(Int, "1"), Op('+'), 3, []);
    var c := PState(Token(Int, "3"), Token(Eof, ""), 10, []);
    var d := PState(Token(Eof, ""), Token(Eof, ""), 11, []);
    var sum := Infix('+', Lit("1", 1), Infix('*', Lit("2", 2), Lit("3", 3)));
    var stmt := ExpressionStatement(Token(Int, "1"), sum);
    assert ParseExpressionStatementFrom(scan, input, s0) == (c, stmt);
    assert ParseProgramFrom(scan, input, d) == (d, []);
    assert [stmt] + [] == [stmt];
    assert ParseProgramFrom(scan, input, s0) == (d, [stmt]);
  }

  /** `1 + 2 * 3`: the product binds more tightly and becomes the right
    * operand of the sum. */
  lemma ProductBindsTighter()
    ensures Parse("1 + 2 * 3").0.statements ==
      [ExpressionStatement(Token(Int, "1"),
         Infix('+', Lit("1", 1), Infix('*', Lit("2", 2), Lit("3", 3))))]
    ensures Parse("1 + 2 * 3").1 == []
  {
    ProductStates();
    ProductProgram(Scan);
  }

  /** The token windows of `43 - 1 - 1` as the parser advances through it. */
  ghost predicate SubtractionWindows(scan: Scanner) {
    var input := "43 - 1 - 1";
    && Start(scan, input, 0) == PState(Token(Int, "43"), Op('-'), 4, [])
    && Advance(scan, input, PState(Token(Int, "43"), Op('-'), 4, [])) == PState(Op('-'), Token(Int, "1"), 6, [])
    && Advance(scan, input, PState(Op('-'), Token(Int, "1"), 6, [])) == PState(Token(Int, "1"), Op('-'), 8, [])
    && Advance(scan, input, PState(Token(Int, "1"), Op('-'), 8, [])) == PState(Op('-'), Token(Int, "1"), 10, [])
    && Advance(scan, input, PState(Op('-'), Token(Int, "1"), 10, [])) == PState(Token(Int, "1"), Token(Eof, ""), 11, [])
    && Advance(scan, input, PState(Token(Int, "1"), Token(Eof, ""), 11, [])) == PState(Token(Eof, ""), Token(Eof, ""), 12, [])
  }

  /** The lexer moves over `43 - 1 - 1` in those windows. */
  lemma SubtractionStates()
    ensures SubtractionWindows(Scan)
  {
    var input := "43 - 1 - 1";
    assert input[0..2] == "43" && input[5..6] == "1" && input[9..10] == "1";
    assert DigitRunEnd(input, 0) == 2;
    assert Scan(input, 0) == (Token(Int, "43"), 2);
    assert SkipWhitespace(input, 2) == 3;
    assert Scan(input, 2) == (Op('-'), 4);
    assert SkipWhitespace(input, 4) == 5;
    assert Scan(input, 4) == (Token(Int, "1"), 6);
    assert SkipWhitespace(input, 6) == 7;
    assert Scan(input, 6) == (Op('-'), 8);
    assert SkipWhitespace(input, 8) == 9;
    assert Scan(input, 8) == (Token(Int, "1"), 10);
    assert Scan(input, 10) == (Token(Eof, ""), 11);
    assert Scan(input, 11) == (Token(Eof, ""), 12);
  }

  /** The expression of `43 - 1 - 1`, read from the first token window. */
  lemma SubtractionExpression(scan: Scanner)
    requires SubtractionWindows(scan)
    ensures ParseExpressionFrom(scan, "43 - 1 - 1", PState(Token(Int, "43"), Op('-'), 4, []), LOWEST) ==
      (PState(Token(Int, "1"), Token(Eof, ""), 11, []),
       Infix('-', Infix('-', Lit("43", 43), Lit("1", 1)), Lit("1", 1)))
  {
    var input := "43 - 1 - 1";
    assert ParseInt("43") == Some(43) by { assert "43"[..1] == "4"; assert "4"[..0] == ""; }
    assert ParseInt("1") == Some(1) by { assert "1"[..0] == ""; }
    var s1 := PState(Op('-'), Token(Int, "1"), 6, []);
    var a := PState(Token(Int, "1"), Op('-'), 8, []);
    var b := PState(Op('-'), Token(Int, "1"), 10, []);
    var c := PState(Token(Int, "1"), Token(Eof, ""), 11, []);
    var inner := Infix('-', Lit("43", 43), Lit("1", 1));
    var outer := Infix('-', inner, Lit("1", 1));
    assert ParseExpressionFrom(scan, input, a, SUM) == (a, Lit("1", 1));
    assert ParseInfixFrom(scan, input, s1, Lit("43", 43)) == (a, inner.value);
    assert ParseExpressionFrom(scan, input, c, SUM) == (c, Lit("1", 1));
    assert ParseInfixFrom(scan, input, b, inner) == (c, outer.value);
    assert InfixLoopFrom(scan, input, c, LOWEST, outer) == (c, outer);
    assert InfixLoopFrom(scan, input, a, LOWEST, inner) == (c, outer);
  }

  /** The program of `43 - 1 - 1`: one statement, no errors. */
  lemma SubtractionProgram(scan: Scanner)
    requires SubtractionWindows(scan)
    ensures ParseProgramFrom(scan, "43 - 1 - 1", Start(scan, "43 - 1 - 1", 0)) ==
      (PState(Token(Eof, ""), Token(Eof, ""), 12, []),
       [ExpressionStatement(Token(Int, "43"),
          Infix('-', Infix('-', Lit("43", 43), Lit("1", 1)), Lit("1", 1)))])
  {
    var input := "43 - 1 - 1";
    SubtractionExpression(scan);
    var s0 := PState(Token(Int, "43"), Op('-'), 4, []);
    var c := PState(Token(Int, "1"), Token(Eof, ""), 11, []);
    var d := PState(Token(Eof, ""), Token(Eof, ""), 12, []);
    var outer := Infix('-', Infix('-', Lit("43", 43), Lit("1", 1)), Lit("1", 1));
    var stmt := ExpressionStatement(Token(Int, "43"), outer);
    assert ParseExpressionStatementFrom(scan, input, s0) == (c, stmt);
    assert ParseProgramFrom(scan, input, d) == (d, []);
    assert [stmt] + [] == [stmt];
    assert ParseProgramFrom(scan, input, s0) == (d, [stmt]);
  }

  /** `43 - 1 - 1` groups as `(43 - 1) - 1`. */
  lemma SubtractionAssociatesLeft()
    ensures Parse("43 - 1 - 1").0.statements ==
      [ExpressionStatement(Token(Int, "43"),
         Infix('-', Infix('-', Lit("43", 43), Lit("1", 1)), Lit("1", 1)))]
    ensures Parse("43 - 1 - 1").1 == []
  {
    SubtractionStates();
    SubtractionProgram(Scan);
  }

  /** The token windows of `+;+` as the parser advances through it; an
    * error does not move the window. */
  ghost predicate PlusWindows(scan: Scanner) {
    var input := "+;+";
    var e1 := [NoPrefixParseFn(Plus)];
    && Start(scan, input, 0) == PState(Op('+'), Op(';'), 2, [])
    && Advance(scan, input, PState(Op('+'), Op(';'), 2, e1)) == PState(Op(';'), Op('+'), 3, e1)
    && Advance(scan, input, PState(Op(';'), Op('+'), 3, e1)) == PState(Op('+'), Token(Eof, ""), 4, e1)
    && Advance(scan, input, PState(Op('+'), Token(Eof, ""), 4, e1 + e1)) == PState(Token(Eof, ""), Token(Eof, ""), 5, e1 + e1)
  }

  /** The lexer moves over `+;+` in those windows. */
  lemma PlusStates()
    ensures PlusWindows(Scan)
  {
    var input := "+;+";
    assert Scan(input, 0) == (Op('+'), 1);
    assert Scan(input, 1) == (Op(';'), 2);
    assert Scan(input, 2) == (Op('+'), 3);
    assert Scan(input, 3) == (Token(Eof, ""), 4);
    assert Scan(input, 4) == (Token(Eof, ""), 5);
  }

  /** The program of `+;+`: two statements without an expression, one
    * error each. */
  lemma PlusProgram(scan: Scanner)
    requires PlusWindows(scan)
    ensures ParseProgramFrom(scan, "+;+", Start(scan, "+;+", 0)) ==
      (PState(Token(Eof, ""), Token(Eof, ""), 5, [NoPrefixParseFn(Plus), NoPrefixParseFn(Plus)]),
       [ExpressionStatement(Op('+'), None), ExpressionStatement(Op('+'), None)])
  {
    var input := "+;+";
    var e1 := [NoPrefixParseFn(Plus)];
    var e2 := e1 + e1;
    var s0 := PState(Op('+'), Op(';'), 2, []);
    var s1 := PState(Op(';'), Op('+'), 3, e1);
    var s2 := PState(Op('+'), Token(Eof, ""), 4, e1);
    var s3 := PState(Token(Eof, ""), Token(Eof, ""), 5, e2);
    var stmt := ExpressionStatement(Op('+'), None);
    assert Op('+') == Token(Plus, "+") && Op(';') == Token(Semicolon, ";");
    assert [] + e1 == e1;
    assert ParseExpressionFrom(scan, input, s0, LOWEST) == (s0.(errors := e1), None);
    assert ParseExpressionStatementFrom(scan, input, s0) == (s1, stmt);
    assert ParseExpressionFrom(scan, input, s2, LOWEST) == (s2.(errors := e2), None);
    assert ParseExpressionStatementFrom(scan, input, s2) == (s2.(errors := e2), stmt);
    assert ParseProgramFrom(scan, input, s3) == (s3, []);
    assert [stmt] + [] == [stmt];
    assert ParseProgramFrom(scan, input, s2) == (s3, [stmt]);
    assert [stmt] + [stmt] == [stmt, stmt];
    assert ParseProgramFrom(scan, input, s0) == (s3, [stmt, stmt]);
    assert e2 == [NoPrefixParseFn(Plus), NoPrefixParseFn(Plus)];
  }

  /** `+;+`: two statements that cannot start, two errors in order, and the
    * loop still ends. */
  lemma ErrorsAccumulate()
    ensures Parse("+;+") ==
      (Program([ExpressionStatement(Op('+'), None), ExpressionStatement(Op('+'), None)]),
       [NoPrefixParseFn(Plus), NoPrefixParseFn(Plus)])
    ensures Messages(Parse("+;+").1) ==
      ["no prefix parse function for + found", "no prefix parse function for + found"]
  {
    PlusStates();
    PlusProgram(Scan);
    assert Message(NoPrefixParseFn(Plus)) == "no prefix parse function for + found";
  }

  /** The same line through the lexer and parser objects: `Errors` hands
    * back both messages. */
  method PlusSemicolonPlusMessages() returns (messages: seq<string>)
    ensures messages == ["no prefix parse function for + found", "no prefix parse function for + found"]
  {
    ErrorsAccumulate();
    var program;
    program, messages := ParseLine("+;+");
  }

}
