/**
 * The token sequences of the scanner tests in scanner_test.go, derived from
 * Next. Each case is one lemma over the test's text; the lemmas it calls
 * evaluate one nextToken call each.
 */
module ScannerCases {
  import opened Wrappers
  import opened Decimal
  import opened Json
  import opened LexSpec
  import opened LexProps
  import opened ParseSpec
  const ScanObjectText: string := "{\"xx\":\"k\\\"ey\", \"value\":[" + "1, 2, true, null]}"

  /** scanner_test.go:29-49: an object holding an escaped quote and an array of numbers and keywords. */
  lemma ScanObject()
    ensures Tokens(ScanObjectText, Start, 18) ==
      [Token(TokenLBrace, "{"), Token(TokenString, "xx"), Token(TokenColon, ":"), Token(TokenString, "k\\\"ey"), Token(TokenComma, ","), Token(TokenString, "value"), Token(TokenColon, ":"), Token(TokenLBracket, "["), Token(TokenNumber, "1"), Token(TokenComma, ","), Token(TokenNumber, "2"), Token(TokenComma, ","), Token(TokenTrue, "true"), Token(TokenComma, ","), Token(TokenNull, "null"), Token(TokenRBracket, "]"), Token(TokenRBrace, "}"), Token(TokenEOF, "")]
  {
    ScanObjectCharsOf(ScanObjectText);
    ScanObjectStep20(ScanObjectText);
  }

  /** The characters of ScanObjectText, one by one. */
  predicate ScanObjectChars(s: string)
  {
    |s| == 42 && ScanObjectGroup1(s) && ScanObjectGroup2(s)
  }

  lemma ScanObjectChars1(input: string)
    requires input == "{\"xx\":\"k\\\"ey\", \"value\":[" + "1, 2, true, null]}"
    ensures input[0] == '{' && input[1] == '"' && input[2] == 'x' && input[3] == 'x' && input[4] == '"' && input[5] == ':'
  {
  }

  lemma ScanObjectChars2(input: string)
    requires input == "{\"xx\":\"k\\\"ey\", \"value\":[" + "1, 2, true, null]}"
    ensures input[6] == '"' && input[7] == 'k' && input[8] == '\\' && input[9] == '"' && input[10] == 'e' && input[11] == 'y'
  {
  }

  lemma ScanObjectChars3(input: string)
    requires input == "{\"xx\":\"k\\\"ey\", \"value\":[" + "1, 2, true, null]}"
    ensures input[12] == '"' && input[13] == ',' && input[14] == ' ' && input[15] == '"' && input[16] == 'v' && input[17] == 'a'
  {
  }

  lemma ScanObjectChars4(input: string)
    requires input == "{\"xx\":\"k\\\"ey\", \"value\":[" + "1, 2, true, null]}"
    ensures input[18] == 'l' && input[19] == 'u' && input[20] == 'e' && input[21] == '"' && input[22] == ':' && input[23] == '['
  {
  }

  lemma ScanObjectChars5(input: string)
    requires input == "{\"xx\":\"k\\\"ey\", \"value\":[" + "1, 2, true, null]}"
    ensures input[24] == '1' && input[25] == ',' && input[26] == ' ' && input[27] == '2' && input[28] == ',' && input[29] == ' '
  {
  }

  lemma ScanObjectChars6(input: string)
    requires input == "{\"xx\":\"k\\\"ey\", \"value\":[" + "1, 2, true, null]}"
    ensures input[30] == 't' && input[31] == 'r' && input[32] == 'u' && input[33] == 'e' && input[34] == ',' && input[35] == ' '
  {
  }

  predicate ScanObjectGroup1(s: string)
  {
    |s| == 42 &&
    s[0] == '{' && s[1] == '"' && s[2] == 'x' && s[3] == 'x' && s[4] == '"' && s[5] == ':' &&
    s[6] == '"' && s[7] == 'k' && s[8] == '\\' && s[9] == '"' && s[10] == 'e' && s[11] == 'y' &&
    s[12] == '"' && s[13] == ',' && s[14] == ' ' && s[15] == '"' && s[16] == 'v' && s[17] == 'a' &&
    s[18] == 'l' && s[19] == 'u' && s[20] == 'e' && s[21] == '"' && s[22] == ':' && s[23] == '[' &&
    s[24] == '1' && s[25] == ',' && s[26] == ' ' && s[27] == '2' && s[28] == ',' && s[29] == ' ' &&
    s[30] == 't' && s[31] == 'r' && s[32] == 'u' && s[33] == 'e' && s[34] == ',' && s[35] == ' '
  }

  lemma ScanObjectGroupOf1(input: string)
    requires input == "{\"xx\":\"k\\\"ey\", \"value\":[" + "1, 2, true, null]}"
    ensures ScanObjectGroup1(input)
  {
    ScanObjectChars1(input);
    ScanObjectChars2(input);
    ScanObjectChars3(input);
    ScanObjectChars4(input);
    ScanObjectChars5(input);
    ScanObjectChars6(input);
  }

  lemma ScanObjectChars7(input: string)
    requires input == "{\"xx\":\"k\\\"ey\", \"value\":[" + "1, 2, true, null]}"
    ensures input[36] == 'n' && input[37] == 'u' && input[38] == 'l' && input[39] == 'l' && input[40] == ']' && input[41] == '}'
  {
  }

  predicate ScanObjectGroup2(s: string)
  {
    |s| == 42 &&
    s[36] == 'n' && s[37] == 'u' && s[38] == 'l' && s[39] == 'l' && s[40] == ']' && s[41] == '}'
  }

  lemma ScanObjectGroupOf2(input: string)
    requires input == "{\"xx\":\"k\\\"ey\", \"value\":[" + "1, 2, true, null]}"
    ensures ScanObjectGroup2(input)
  {
    ScanObjectChars7(input);
  }

  lemma ScanObjectCharsOf(input: string)
    requires input == "{\"xx\":\"k\\\"ey\", \"value\":[" + "1, 2, true, null]}"
    ensures ScanObjectChars(input)
  {
    ScanObjectGroupOf1(input);
    ScanObjectGroupOf2(input);
  }

  lemma ScanObjectToken1(input: string)
    requires |input| == 42
    requires input[0] == '{' && input[1] == '"'
    ensures Next(input, Lexer(0, "", 1, None)) == (Token(TokenLBrace, "{"), Lexer(1, "", 1, None))
  {
    assert input[0] == '{';
    assert Next(input, Lexer(0, "", 1, None)) == (Token(TokenLBrace, "{"), Lexer(1, "", 1, None));
  }

  lemma ScanObjectToken2(input: string)
    requires |input| == 42
    requires input[1] == '"' && input[2] == 'x' && input[3] == 'x' && input[4] == '"' && input[5] == ':'
    ensures Next(input, Lexer(1, "", 1, None)) == (Token(TokenString, "xx"), Lexer(5, "xx", 1, None))
  {
    assert StringBody(input, 4, "xx") == Scan(Done, 5, "xx");
    assert "x" + [input[3]] == "xx";
    assert StringBody(input, 3, "x") == Scan(Done, 5, "xx");
    assert "" + [input[2]] == "x";
    assert StringBody(input, 2, []) == Scan(Done, 5, "xx");
    assert input[1] == '"';
    assert Next(input, Lexer(1, "", 1, None)) == (Token(TokenString, "xx"), Lexer(5, "xx", 1, None));
  }

  lemma ScanObjectToken3(input: string)
    requires |input| == 42
    requires input[5] == ':' && input[6] == '"'
    ensures Next(input, Lexer(5, "xx", 1, None)) == (Token(TokenColon, ":"), Lexer(6, "xx", 1, None))
  {
    assert input[5] == ':';
    assert Next(input, Lexer(5, "xx", 1, None)) == (Token(TokenColon, ":"), Lexer(6, "xx", 1, None));
  }

  lemma ScanObjectToken4(input: string)
    requires |input| == 42
    requires input[6] == '"' && input[7] == 'k' && input[8] == '\\' && input[9] == '"' && input[10] == 'e' && input[11] == 'y' &&
      input[12] == '"' && input[13] == ','
    ensures Next(input, Lexer(6, "xx", 1, None)) == (Token(TokenString, "k\\\"ey"), Lexer(13, "k\\\"ey", 1, None))
  {
    assert StringBody(input, 12, "k\\\"ey") == Scan(Done, 13, "k\\\"ey");
    assert "k\\\"e" + [input[11]] == "k\\\"ey";
    assert StringBody(input, 11, "k\\\"e") == Scan(Done, 13, "k\\\"ey");
    assert "k\\\"" + [input[10]] == "k\\\"e";
    assert StringBody(input, 10, "k\\\"") == Scan(Done, 13, "k\\\"ey");
    assert "k" + ['\\', input[9]] == "k\\\"";
    assert StringBody(input, 8, "k") == Scan(Done, 13, "k\\\"ey");
    assert "" + [input[7]] == "k";
    assert StringBody(input, 7, []) == Scan(Done, 13, "k\\\"ey");
    assert input[6] == '"';
    assert Next(input, Lexer(6, "xx", 1, None)) == (Token(TokenString, "k\\\"ey"), Lexer(13, "k\\\"ey", 1, None));
  }

  lemma ScanObjectToken5(input: string)
    requires |input| == 42
    requires input[13] == ',' && input[14] == ' '
    ensures Next(input, Lexer(13, "k\\\"ey", 1, None)) == (Token(TokenComma, ","), Lexer(14, "k\\\"ey", 1, None))
  {
    assert input[13] == ',';
    assert Next(input, Lexer(13, "k\\\"ey", 1, None)) == (Token(TokenComma, ","), Lexer(14, "k\\\"ey", 1, None));
  }

  lemma ScanObjectToken6(input: string)
    requires |input| == 42
    requires input[14] == ' ' && input[15] == '"' && input[16] == 'v' && input[17] == 'a' && input[18] == 'l' && input[19] == 'u' &&
      input[20] == 'e' && input[21] == '"' && input[22] == ':'
    ensures Next(input, Lexer(14, "k\\\"ey", 1, None)) == (Token(TokenString, "value"), Lexer(22, "value", 1, None))
  {
    assert StringBody(input, 21, "value") == Scan(Done, 22, "value");
    assert "valu" + [input[20]] == "value";
    assert StringBody(input, 20, "valu") == Scan(Done, 22, "value");
    assert "val" + [input[19]] == "valu";
    assert StringBody(input, 19, "val") == Scan(Done, 22, "value");
    assert "va" + [input[18]] == "val";
    assert StringBody(input, 18, "va") == Scan(Done, 22, "value");
    assert "v" + [input[17]] == "va";
    assert StringBody(input, 17, "v") == Scan(Done, 22, "value");
    assert "" + [input[16]] == "v";
    assert StringBody(input, 16, []) == Scan(Done, 22, "value");
    assert input[15] == '"';
    assert Next(input, Lexer(15, "k\\\"ey", 1, None)) == (Token(TokenString, "value"), Lexer(22, "value", 1, None));
    assert Next(input, Lexer(14, "k\\\"ey", 1, None)) == (Token(TokenString, "value"), Lexer(22, "value", 1, None));
  }

  lemma ScanObjectToken7(input: string)
    requires |input| == 42
    requires input[22] == ':' && input[23] == '['
    ensures Next(input, Lexer(22, "value", 1, None)) == (Token(TokenColon, ":"), Lexer(23, "value", 1, None))
  {
    assert input[22] == ':';
    assert Next(input, Lexer(22, "value", 1, None)) == (Token(TokenColon, ":"), Lexer(23, "value", 1, None));
  }

  lemma ScanObjectToken8(input: string)
    requires |input| == 42
    requires input[23] == '[' && input[24] == '1'
    ensures Next(input, Lexer(23, "value", 1, None)) == (Token(TokenLBracket, "["), Lexer(24, "value", 1, None))
  {
    assert input[23] == '[';
    assert Next(input, Lexer(23, "value", 1, None)) == (Token(TokenLBracket, "["), Lexer(24, "value", 1, None));
  }

  lemma ScanObjectToken9(input: string)
    requires |input| == 42
    requires input[24] == '1' && input[25] == ','
    ensures Next(input, Lexer(24, "value", 1, None)) == (Token(TokenNumber, "1"), Lexer(25, "1", 1, None))
  {
    assert NumberRun(input, 25, "1") == Scan(Done, 25, "1");
    assert "" + [input[24]] == "1";
    assert NumberRun(input, 24, []) == Scan(Done, 25, "1");
    assert input[24] == '1';
    DigitStartsNumber(input, Lexer(24, "value", 1, None), 25, "1");
  }

  lemma ScanObjectToken10(input: string)
    requires |input| == 42
    requires input[25] == ',' && input[26] == ' '
    ensures Next(input, Lexer(25, "1", 1, None)) == (Token(TokenComma, ","), Lexer(26, "1", 1, None))
  {
    assert input[25] == ',';
    assert Next(input, Lexer(25, "1", 1, None)) == (Token(TokenComma, ","), Lexer(26, "1", 1, None));
  }

  lemma ScanObjectToken11(input: string)
    requires |input| == 42
    requires input[26] == ' ' && input[27] == '2' && input[28] == ','
    ensures Next(input, Lexer(26, "1", 1, None)) == (Token(TokenNumber, "2"), Lexer(28, "2", 1, None))
  {
    assert NumberRun(input, 28, "2") == Scan(Done, 28, "2");
    assert "" + [input[27]] == "2";
    assert NumberRun(input, 27, []) == Scan(Done, 28, "2");
    assert input[27] == '2';
    DigitStartsNumber(input, Lexer(27, "1", 1, None), 28, "2");
    assert Next(input, Lexer(26, "1", 1, None)) == (Token(TokenNumber, "2"), Lexer(28, "2", 1, None));
  }

  lemma ScanObjectToken12(input: string)
    requires |input| == 42
    requires input[28] == ',' && input[29] == ' '
    ensures Next(input, Lexer(28, "2", 1, None)) == (Token(TokenComma, ","), Lexer(29, "2", 1, None))
  {
    assert input[28] == ',';
    assert Next(input, Lexer(28, "2", 1, None)) == (Token(TokenComma, ","), Lexer(29, "2", 1, None));
  }

  lemma ScanObjectToken13(input: string)
    requires |input| == 42
    requires input[29] == ' ' && input[30] == 't' && input[31] == 'r' && input[32] == 'u' && input[33] == 'e' && input[34] == ','
    ensures Next(input, Lexer(29, "2", 1, None)) == (Token(TokenTrue, "true"), Lexer(34, "true", 1, None))
  {
    assert IdentRun(input, 34, "true") == Scan(Done, 34, "true");
    assert "tru" + [input[33]] == "true";
    assert IdentRun(input, 33, "tru") == Scan(Done, 34, "true");
    assert "tr" + [input[32]] == "tru";
    assert IdentRun(input, 32, "tr") == Scan(Done, 34, "true");
    assert "t" + [input[31]] == "tr";
    assert IdentRun(input, 31, "t") == Scan(Done, 34, "true");
    assert "" + [input[30]] == "t";
    assert IdentRun(input, 30, []) == Scan(Done, 34, "true");
    assert input[30] == 't';
    assert Next(input, Lexer(30, "2", 1, None)) == (Token(TokenTrue, "true"), Lexer(34, "true", 1, None));
    assert Next(input, Lexer(29, "2", 1, None)) == (Token(TokenTrue, "true"), Lexer(34, "true", 1, None));
  }

  lemma ScanObjectToken14(input: string)
    requires |input| == 42
    requires input[34] == ',' && input[35] == ' '
    ensures Next(input, Lexer(34, "true", 1, None)) == (Token(TokenComma, ","), Lexer(35, "true", 1, None))
  {
    assert input[34] == ',';
    assert Next(input, Lexer(34, "true", 1, None)) == (Token(TokenComma, ","), Lexer(35, "true", 1, None));
  }

  lemma ScanObjectToken15(input: string)
    requires |input| == 42
    requires input[35] == ' ' && input[36] == 'n' && input[37] == 'u' && input[38] == 'l' && input[39] == 'l' && input[40] == ']'
    ensures Next(input, Lexer(35, "true", 1, None)) == (Token(TokenNull, "null"), Lexer(40, "null", 1, None))
  {
    assert IdentRun(input, 40, "null") == Scan(Done, 40, "null");
    assert "nul" + [input[39]] == "null";
    assert IdentRun(input, 39, "nul") == Scan(Done, 40, "null");
    assert "nu" + [input[38]] == "nul";
    assert IdentRun(input, 38, "nu") == Scan(Done, 40, "null");
    assert "n" + [input[37]] == "nu";
    assert IdentRun(input, 37, "n") == Scan(Done, 40, "null");
    assert "" + [input[36]] == "n";
    assert IdentRun(input, 36, []) == Scan(Done, 40, "null");
    assert input[36] == 'n';
    assert Next(input, Lexer(36, "true", 1, None)) == (Token(TokenNull, "null"), Lexer(40, "null", 1, None));
    assert Next(input, Lexer(35, "true", 1, None)) == (Token(TokenNull, "null"), Lexer(40, "null", 1, None));
  }

  lemma ScanObjectToken16(input: string)
    requires |input| == 42
    requires input[40] == ']' && input[41] == '}'
    ensures Next(input, Lexer(40, "null", 1, None)) == (Token(TokenRBracket, "]"), Lexer(41, "null", 1, None))
  {
    assert input[40] == ']';
    assert Next(input, Lexer(40, "null", 1, None)) == (Token(TokenRBracket, "]"), Lexer(41, "null", 1, None));
  }

  lemma ScanObjectToken17(input: string)
    requires |input| == 42
    requires input[41] == '}'
    ensures Next(input, Lexer(41, "null", 1, None)) == (Token(TokenRBrace, "}"), Lexer(42, "null", 1, None))
  {
    assert input[41] == '}';
    assert Next(input, Lexer(41, "null", 1, None)) == (Token(TokenRBrace, "}"), Lexer(42, "null", 1, None));
  }

  lemma ScanObjectToken18(input: string)
    requires |input| == 42
    ensures Next(input, Lexer(42, "null", 1, None)) == (Token(TokenEOF, ""), Lexer(42, "null", 1, None))
  {
    assert Next(input, Lexer(42, "null", 1, None)) == (Token(TokenEOF, ""), Lexer(42, "null", 1, None));
  }

  lemma ScanObjectStep19(input: string)
    requires ScanObjectChars(input)
    ensures Tokens(input, Lexer(25, "1", 1, None), 9) ==
      [Token(TokenComma, ","), Token(TokenNumber, "2"), Token(TokenComma, ","), Token(TokenTrue, "true"), Token(TokenComma, ","), Token(TokenNull, "null"), Token(TokenRBracket, "]"), Token(TokenRBrace, "}"), Token(TokenEOF, "")]
  {
    ScanObjectToken10(input);
    ScanObjectToken11(input);
    ScanObjectToken12(input);
    ScanObjectToken13(input);
    ScanObjectToken14(input);
    ScanObjectToken15(input);
    ScanObjectToken16(input);
    ScanObjectToken17(input);
    ScanObjectToken18(input);
    var rest: seq<Token> := [];
    TokensStep(input, Lexer(42, "null", 1, None), 0, Token(TokenEOF, ""), Lexer(42, "null", 1, None), rest);
    rest := [Token(TokenEOF, "")] + rest;
    TokensStep(input, Lexer(41, "null", 1, None), 1, Token(TokenRBrace, "}"), Lexer(42, "null", 1, None), rest);
    rest := [Token(TokenRBrace, "}")] + rest;
    TokensStep(input, Lexer(40, "null", 1, None), 2, Token(TokenRBracket, "]"), Lexer(41, "null", 1, None), rest);
    rest := [Token(TokenRBracket, "]")] + rest;
    TokensStep(input, Lexer(35, "true", 1, None), 3, Token(TokenNull, "null"), Lexer(40, "null", 1, None), rest);
    rest := [Token(TokenNull, "null")] + rest;
    TokensStep(input, Lexer(34, "true", 1, None), 4, Token(TokenComma, ","), Lexer(35, "true", 1, None), rest);
    rest := [Token(TokenComma, ",")] + rest;
    TokensStep(input, Lexer(29, "2", 1, None), 5, Token(TokenTrue, "true"), Lexer(34, "true", 1, None), rest);
    rest := [Token(TokenTrue, "true")] + rest;
    TokensStep(input, Lexer(28, "2", 1, None), 6, Token(TokenComma, ","), Lexer(29, "2", 1, None), rest);
    rest := [Token(TokenComma, ",")] + rest;
    TokensStep(input, Lexer(26, "1", 1, None), 7, Token(TokenNumber, "2"), Lexer(28, "2", 1, None), rest);
    rest := [Token(TokenNumber, "2")] + rest;
    TokensStep(input, Lexer(25, "1", 1, None), 8, Token(TokenComma, ","), Lexer(26, "1", 1, None), rest);
    rest := [Token(TokenComma, ",")] + rest;
    Prepended9(Token(TokenComma, ","), Token(TokenNumber, "2"), Token(TokenComma, ","), Token(TokenTrue, "true"), Token(TokenComma, ","), Token(TokenNull, "null"), Token(TokenRBracket, "]"), Token(TokenRBrace, "}"), Token(TokenEOF, ""), []);
  }

  lemma ScanObjectStep20(input: string)
    requires ScanObjectChars(input)
    ensures Tokens(input, Start, 18) ==
      [Token(TokenLBrace, "{"), Token(TokenString, "xx"), Token(TokenColon, ":"), Token(TokenString, "k\\\"ey"), Token(TokenComma, ","), Token(TokenString, "value"), Token(TokenColon, ":"), Token(TokenLBracket, "["), Token(TokenNumber, "1"), Token(TokenComma, ","), Token(TokenNumber, "2"), Token(TokenComma, ","), Token(TokenTrue, "true"), Token(TokenComma, ","), Token(TokenNull, "null"), Token(TokenRBracket, "]"), Token(TokenRBrace, "}"), Token(TokenEOF, "")]
  {
    ScanObjectToken1(input);
    ScanObjectToken2(input);
    ScanObjectToken3(input);
    ScanObjectToken4(input);
    ScanObjectToken5(input);
    ScanObjectToken6(input);
    ScanObjectToken7(input);
    ScanObjectToken8(input);
    ScanObjectToken9(input);
    ScanObjectStep19(input);
    var rest: seq<Token> := [Token(TokenComma, ","), Token(TokenNumber, "2"), Token(TokenComma, ","), Token(TokenTrue, "true"), Token(TokenComma, ","), Token(TokenNull, "null"), Token(TokenRBracket, "]"), Token(TokenRBrace, "}"), Token(TokenEOF, "")];
    TokensStep(input, Lexer(24, "value", 1, None), 9, Token(TokenNumber, "1"), Lexer(25, "1", 1, None), rest);
    rest := [Token(TokenNumber, "1")] + rest;
    TokensStep(input, Lexer(23, "value", 1, None), 10, Token(TokenLBracket, "["), Lexer(24, "value", 1, None), rest);
    rest := [Token(TokenLBracket, "[")] + rest;
    TokensStep(input, Lexer(22, "value", 1, None), 11, Token(TokenColon, ":"), Lexer(23, "value", 1, None), rest);
    rest := [Token(TokenColon, ":")] + rest;
    TokensStep(input, Lexer(14, "k\\\"ey", 1, None), 12, Token(TokenString, "value"), Lexer(22, "value", 1, None), rest);
    rest := [Token(TokenString, "value")] + rest;
    TokensStep(input, Lexer(13, "k\\\"ey", 1, None), 13, Token(TokenComma, ","), Lexer(14, "k\\\"ey", 1, None), rest);
    rest := [Token(TokenComma, ",")] + rest;
    TokensStep(input, Lexer(6, "xx", 1, None), 14, Token(TokenString, "k\\\"ey"), Lexer(13, "k\\\"ey", 1, None), rest);
    rest := [Token(TokenString, "k\\\"ey")] + rest;
    TokensStep(input, Lexer(5, "xx", 1, None), 15, Token(TokenColon, ":"), Lexer(6, "xx", 1, None), rest);
    rest := [Token(TokenColon, ":")] + rest;
    TokensStep(input, Lexer(1, "", 1, None), 16, Token(TokenString, "xx"), Lexer(5, "xx", 1, None), rest);
    rest := [Token(TokenString, "xx")] + rest;
    TokensStep(input, Lexer(0, "", 1, None), 17, Token(TokenLBrace, "{"), Lexer(1, "", 1, None), rest);
    rest := [Token(TokenLBrace, "{")] + rest;
    Prepended9(Token(TokenLBrace, "{"), Token(TokenString, "xx"), Token(TokenColon, ":"), Token(TokenString, "k\\\"ey"), Token(TokenComma, ","), Token(TokenString, "value"), Token(TokenColon, ":"), Token(TokenLBracket, "["), Token(TokenNumber, "1"), [Token(TokenComma, ","), Token(TokenNumber, "2"), Token(TokenComma, ","), Token(TokenTrue, "true"), Token(TokenComma, ","), Token(TokenNull, "null"), Token(TokenRBracket, "]"), Token(TokenRBrace, "}"), Token(TokenEOF, "")]);
  }

  const ScanEscapesText: string := "{\"key\":\"\\\"\\\\ha\\/\\b\\f\\n\\r" + "\\t\"}"

  /** scanner_test.go:51-59: every simple escape is accepted and kept undecoded in the literal. */
  lemma ScanEscapes()
    ensures Tokens(ScanEscapesText, Start, 5) ==
      [Token(TokenLBrace, "{"), Token(TokenString, "key"), Token(TokenColon, ":"), Token(TokenString, "\\\"\\\\ha\\/\\b\\f\\n\\r\\t"), Token(TokenRBrace, "}")]
  {
    ScanEscapesCharsOf(ScanEscapesText);
    ScanEscapesStep7(ScanEscapesText);
  }

  /** The characters of ScanEscapesText, one by one. */
  predicate ScanEscapesChars(s: string)
  {
    |s| == 28 &&
    s[0] == '{' && s[1] == '"' && s[2] == 'k' && s[3] == 'e' && s[4] == 'y' && s[5] == '"' &&
    s[6] == ':' && s[7] == '"' && s[8] == '\\' && s[9] == '"' && s[10] == '\\' && s[11] == '\\' &&
    s[12] == 'h' && s[13] == 'a' && s[14] == '\\' && s[15] == '/' && s[16] == '\\' && s[17] == 'b' &&
    s[18] == '\\' && s[19] == 'f' && s[20] == '\\' && s[21] == 'n' && s[22] == '\\' && s[23] == 'r' &&
    s[24] == '\\' && s[25] == 't' && s[26] == '"' && s[27] == '}'
  }

  lemma ScanEscapesChars1(input: string)
    requires input == "{\"key\":\"\\\"\\\\ha\\/\\b\\f\\n\\r" + "\\t\"}"
    ensures input[0] == '{' && input[1] == '"' && input[2] == 'k' && input[3] == 'e' && input[4] == 'y' && input[5] == '"'
  {
  }

  lemma ScanEscapesChars2(input: string)
    requires input == "{\"key\":\"\\\"\\\\ha\\/\\b\\f\\n\\r" + "\\t\"}"
    ensures input[6] == ':' && input[7] == '"' && input[8] == '\\' && input[9] == '"' && input[10] == '\\' && input[11] == '\\'
  {
  }

  lemma ScanEscapesChars3(input: string)
    requires input == "{\"key\":\"\\\"\\\\ha\\/\\b\\f\\n\\r" + "\\t\"}"
    ensures input[12] == 'h' && input[13] == 'a' && input[14] == '\\' && input[15] == '/' && input[16] == '\\' && input[17] == 'b'
  {
  }

  lemma ScanEscapesChars4(input: string)
    requires input == "{\"key\":\"\\\"\\\\ha\\/\\b\\f\\n\\r" + "\\t\"}"
    ensures input[18] == '\\' && input[19] == 'f' && input[20] == '\\' && input[21] == 'n' && input[22] == '\\' && input[23] == 'r'
  {
  }

  lemma ScanEscapesChars5(input: string)
    requires input == "{\"key\":\"\\\"\\\\ha\\/\\b\\f\\n\\r" + "\\t\"}"
    ensures input[24] == '\\' && input[25] == 't' && input[26] == '"' && input[27] == '}'
  {
  }

  lemma ScanEscapesCharsOf(input: string)
    requires input == "{\"key\":\"\\\"\\\\ha\\/\\b\\f\\n\\r" + "\\t\"}"
    ensures ScanEscapesChars(input)
  {
    ScanEscapesChars1(input);
    ScanEscapesChars2(input);
    ScanEscapesChars3(input);
    ScanEscapesChars4(input);
    ScanEscapesChars5(input);
  }

  lemma ScanEscapesToken1(input: string)
    requires |input| == 28
    requires input[0] == '{' && input[1] == '"'
    ensures Next(input, Lexer(0, "", 1, None)) == (Token(TokenLBrace, "{"), Lexer(1, "", 1, None))
  {
    assert input[0] == '{';
    assert Next(input, Lexer(0, "", 1, None)) == (Token(TokenLBrace, "{"), Lexer(1, "", 1, None));
  }

  lemma ScanEscapesToken2(input: string)
    requires |input| == 28
    requires input[1] == '"' && input[2] == 'k' && input[3] == 'e' && input[4] == 'y' && input[5] == '"' && input[6] == ':'
    ensures Next(input, Lexer(1, "", 1, None)) == (Token(TokenString, "key"), Lexer(6, "key", 1, None))
  {
    assert StringBody(input, 5, "key") == Scan(Done, 6, "key");
    assert "ke" + [input[4]] == "key";
    assert StringBody(input, 4, "ke") == Scan(Done, 6, "key");
    assert "k" + [input[3]] == "ke";
    assert StringBody(input, 3, "k") == Scan(Done, 6, "key");
    assert "" + [input[2]] == "k";
    assert StringBody(input, 2, []) == Scan(Done, 6, "key");
    assert input[1] == '"';
    assert Next(input, Lexer(1, "", 1, None)) == (Token(TokenString, "key"), Lexer(6, "key", 1, None));
  }

  lemma ScanEscapesToken3(input: string)
    requires |input| == 28
    requires input[6] == ':' && input[7] == '"'
    ensures Next(input, Lexer(6, "key", 1, None)) == (Token(TokenColon, ":"), Lexer(7, "key", 1, None))
  {
    assert input[6] == ':';
    assert Next(input, Lexer(6, "key", 1, None)) == (Token(TokenColon, ":"), Lexer(7, "key", 1, None));
  }

  lemma ScanEscapesString5(input: string)
    requires |input| == 28
    requires input[16] == '\\' && input[17] == 'b' && input[18] == '\\' && input[19] == 'f' && input[20] == '\\' && input[21] == 'n' &&
      input[22] == '\\' && input[23] == 'r' && input[24] == '\\' && input[25] == 't' && input[26] == '"' && input[27] == '}'
    ensures StringBody(input, 16, "\\\"\\\\ha\\/") == Scan(Done, 27, "\\\"\\\\ha\\/\\b\\f\\n\\r\\t")
  {
    assert StringBody(input, 26, "\\\"\\\\ha\\/\\b\\f\\n\\r\\t") == Scan(Done, 27, "\\\"\\\\ha\\/\\b\\f\\n\\r\\t");
    assert "\\\"\\\\ha\\/\\b\\f\\n\\r" + ['\\', input[25]] == "\\\"\\\\ha\\/\\b\\f\\n\\r\\t";
    assert StringBody(input, 24, "\\\"\\\\ha\\/\\b\\f\\n\\r") == Scan(Done, 27, "\\\"\\\\ha\\/\\b\\f\\n\\r\\t");
    assert "\\\"\\\\ha\\/\\b\\f\\n" + ['\\', input[23]] == "\\\"\\\\ha\\/\\b\\f\\n\\r";
    assert StringBody(input, 22, "\\\"\\\\ha\\/\\b\\f\\n") == Scan(Done, 27, "\\\"\\\\ha\\/\\b\\f\\n\\r\\t");
    assert "\\\"\\\\ha\\/\\b\\f" + ['\\', input[21]] == "\\\"\\\\ha\\/\\b\\f\\n";
    assert StringBody(input, 20, "\\\"\\\\ha\\/\\b\\f") == Scan(Done, 27, "\\\"\\\\ha\\/\\b\\f\\n\\r\\t");
    assert "\\\"\\\\ha\\/\\b" + ['\\', input[19]] == "\\\"\\\\ha\\/\\b\\f";
    assert StringBody(input, 18, "\\\"\\\\ha\\/\\b") == Scan(Done, 27, "\\\"\\\\ha\\/\\b\\f\\n\\r\\t");
    assert "\\\"\\\\ha\\/" + ['\\', input[17]] == "\\\"\\\\ha\\/\\b";
    assert StringBody(input, 16, "\\\"\\\\ha\\/") == Scan(Done, 27, "\\\"\\\\ha\\/\\b\\f\\n\\r\\t");
  }

  lemma ScanEscapesToken4(input: string)
    requires |input| == 28
    requires input[7] == '"' && input[8] == '\\' && input[9] == '"' && input[10] == '\\' && input[11] == '\\' && input[12] == 'h' &&
      input[13] == 'a' && input[14] == '\\' && input[15] == '/' && input[16] == '\\' && input[17] == 'b' && input[18] == '\\' &&
      input[19] == 'f' && input[20] == '\\' && input[21] == 'n' && input[22] == '\\' && input[23] == 'r' && input[24] == '\\' &&
      input[25] == 't' && input[26] == '"' && input[27] == '}'
    ensures Next(input, Lexer(7, "key", 1, None)) == (Token(TokenString, "\\\"\\\\ha\\/\\b\\f\\n\\r\\t"), Lexer(27, "\\\"\\\\ha\\/\\b\\f\\n\\r\\t", 1, None))
  {
    ScanEscapesString5(input);
    assert "\\\"\\\\ha" + ['\\', input[15]] == "\\\"\\\\ha\\/";
    assert StringBody(input, 14, "\\\"\\\\ha") == Scan(Done, 27, "\\\"\\\\ha\\/\\b\\f\\n\\r\\t");
    assert "\\\"\\\\h" + [input[13]] == "\\\"\\\\ha";
    assert StringBody(input, 13, "\\\"\\\\h") == Scan(Done, 27, "\\\"\\\\ha\\/\\b\\f\\n\\r\\t");
    assert "\\\"\\\\" + [input[12]] == "\\\"\\\\h";
    assert StringBody(input, 12, "\\\"\\\\") == Scan(Done, 27, "\\\"\\\\ha\\/\\b\\f\\n\\r\\t");
    assert "\\\"" + ['\\', input[11]] == "\\\"\\\\";
    assert StringBody(input, 10, "\\\"") == Scan(Done, 27, "\\\"\\\\ha\\/\\b\\f\\n\\r\\t");
    assert "" + ['\\', input[9]] == "\\\"";
    assert StringBody(input, 8, []) == Scan(Done, 27, "\\\"\\\\ha\\/\\b\\f\\n\\r\\t");
    assert input[7] == '"';
    assert Next(input, Lexer(7, "key", 1, None)) == (Token(TokenString, "\\\"\\\\ha\\/\\b\\f\\n\\r\\t"), Lexer(27, "\\\"\\\\ha\\/\\b\\f\\n\\r\\t", 1, None));
  }

  lemma ScanEscapesToken6(input: string)
    requires |input| == 28
    requires input[27] == '}'
    ensures Next(input, Lexer(27, "\\\"\\\\ha\\/\\b\\f\\n\\r\\t", 1, None)) == (Token(TokenRBrace, "}"), Lexer(28, "\\\"\\\\ha\\/\\b\\f\\n\\r\\t", 1, None))
  {
    assert input[27] == '}';
    assert Next(input, Lexer(27, "\\\"\\\\ha\\/\\b\\f\\n\\r\\t", 1, None)) == (Token(TokenRBrace, "}"), Lexer(28, "\\\"\\\\ha\\/\\b\\f\\n\\r\\t", 1, None));
  }

  lemma ScanEscapesStep7(input: string)
    requires ScanEscapesChars(input)
    ensures Tokens(input, Start, 5) ==
      [Token(TokenLBrace, "{"), Token(TokenString, "key"), Token(TokenColon, ":"), Token(TokenString, "\\\"\\\\ha\\/\\b\\f\\n\\r\\t"), Token(TokenRBrace, "}")]
  {
    ScanEscapesToken1(input);
    ScanEscapesToken2(input);
    ScanEscapesToken3(input);
    ScanEscapesToken4(input);
    ScanEscapesToken6(input);
    var rest: seq<Token> := [];
    TokensStep(input, Lexer(27, "\\\"\\\\ha\\/\\b\\f\\n\\r\\t", 1, None), 0, Token(TokenRBrace, "}"), Lexer(28, "\\\"\\\\ha\\/\\b\\f\\n\\r\\t", 1, None), rest);
    rest := [Token(TokenRBrace, "}")] + rest;
    TokensStep(input, Lexer(7, "key", 1, None), 1, Token(TokenString, "\\\"\\\\ha\\/\\b\\f\\n\\r\\t"), Lexer(27, "\\\"\\\\ha\\/\\b\\f\\n\\r\\t", 1, None), rest);
    rest := [Token(TokenString, "\\\"\\\\ha\\/\\b\\f\\n\\r\\t")] + rest;
    TokensStep(input, Lexer(6, "key", 1, None), 2, Token(TokenColon, ":"), Lexer(7, "key", 1, None), rest);
    rest := [Token(TokenColon, ":")] + rest;
    TokensStep(input, Lexer(1, "", 1, None), 3, Token(TokenString, "key"), Lexer(6, "key", 1, None), rest);
    rest := [Token(TokenString, "key")] + rest;
    TokensStep(input, Lexer(0, "", 1, None), 4, Token(TokenLBrace, "{"), Lexer(1, "", 1, None), rest);
    rest := [Token(TokenLBrace, "{")] + rest;
    Prepended5(Token(TokenLBrace, "{"), Token(TokenString, "key"), Token(TokenColon, ":"), Token(TokenString, "\\\"\\\\ha\\/\\b\\f\\n\\r\\t"), Token(TokenRBrace, "}"), []);
  }

  const ScanQuoteText: string := "{\"key\":\"\\\"hh\"}"

  /** scanner_test.go:61-69: an escaped quote does not end the string. */
  lemma ScanQuote()
    ensures Tokens(ScanQuoteText, Start, 5) ==
      [Token(TokenLBrace, "{"), Token(TokenString, "key"), Token(TokenColon, ":"), Token(TokenString, "\\\"hh"), Token(TokenRBrace, "}")]
  {
    ScanQuoteCharsOf(ScanQuoteText);
    ScanQuoteStep6(ScanQuoteText);
  }

  /** The characters of ScanQuoteText, one by one. */
  predicate ScanQuoteChars(s: string)
  {
    |s| == 14 &&
    s[0] == '{' && s[1] == '"' && s[2] == 'k' && s[3] == 'e' && s[4] == 'y' && s[5] == '"' &&
    s[6] == ':' && s[7] == '"' && s[8] == '\\' && s[9] == '"' && s[10] == 'h' && s[11] == 'h' &&
    s[12] == '"' && s[13] == '}'
  }

  lemma ScanQuoteChars1(input: string)
    requires input == "{\"key\":\"\\\"hh\"}"
    ensures input[0] == '{' && input[1] == '"' && input[2] == 'k' && input[3] == 'e' && input[4] == 'y' && input[5] == '"'
  {
  }

  lemma ScanQuoteChars2(input: string)
    requires input == "{\"key\":\"\\\"hh\"}"
    ensures input[6] == ':' && input[7] == '"' && input[8] == '\\' && input[9] == '"' && input[10] == 'h' && input[11] == 'h'
  {
  }

  lemma ScanQuoteChars3(input: string)
    requires input == "{\"key\":\"\\\"hh\"}"
    ensures input[12] == '"' && input[13] == '}'
  {
  }

  lemma ScanQuoteCharsOf(input: string)
    requires input == "{\"key\":\"\\\"hh\"}"
    ensures ScanQuoteChars(input)
  {
    ScanQuoteChars1(input);
    ScanQuoteChars2(input);
    ScanQuoteChars3(input);
  }

  lemma ScanQuoteToken1(input: string)
    requires |input| == 14
    requires input[0] == '{' && input[1] == '"'
    ensures Next(input, Lexer(0, "", 1, None)) == (Token(TokenLBrace, "{"), Lexer(1, "", 1, None))
  {
    assert input[0] == '{';
    assert Next(input, Lexer(0, "", 1, None)) == (Token(TokenLBrace, "{"), Lexer(1, "", 1, None));
  }

  lemma ScanQuoteToken2(input: string)
    requires |input| == 14
    requires input[1] == '"' && input[2] == 'k' && input[3] == 'e' && input[4] == 'y' && input[5] == '"' && input[6] == ':'
    ensures Next(input, Lexer(1, "", 1, None)) == (Token(TokenString, "key"), Lexer(6, "key", 1, None))
  {
    assert StringBody(input, 5, "key") == Scan(Done, 6, "key");
    assert "ke" + [input[4]] == "key";
    assert StringBody(input, 4, "ke") == Scan(Done, 6, "key");
    assert "k" + [input[3]] == "ke";
    assert StringBody(input, 3, "k") == Scan(Done, 6, "key");
    assert "" + [input[2]] == "k";
    assert StringBody(input, 2, []) == Scan(Done, 6, "key");
    assert input[1] == '"';
    assert Next(input, Lexer(1, "", 1, None)) == (Token(TokenString, "key"), Lexer(6, "key", 1, None));
  }

  lemma ScanQuoteToken3(input: string)
    requires |input| == 14
    requires input[6] == ':' && input[7] == '"'
    ensures Next(input, Lexer(6, "key", 1, None)) == (Token(TokenColon, ":"), Lexer(7, "key", 1, None))
  {
    assert input[6] == ':';
    assert Next(input, Lexer(6, "key", 1, None)) == (Token(TokenColon, ":"), Lexer(7, "key", 1, None));
  }

  lemma ScanQuoteToken4(input: string)
    requires |input| == 14
    requires input[7] == '"' && input[8] == '\\' && input[9] == '"' && input[10] == 'h' && input[11] == 'h' && input[12] == '"' &&
      input[13] == '}'
    ensures Next(input, Lexer(7, "key", 1, None)) == (Token(TokenString, "\\\"hh"), Lexer(13, "\\\"hh", 1, None))
  {
    assert StringBody(input, 12, "\\\"hh") == Scan(Done, 13, "\\\"hh");
    assert "\\\"h" + [input[11]] == "\\\"hh";
    assert StringBody(input, 11, "\\\"h") == Scan(Done, 13, "\\\"hh");
    assert "\\\"" + [input[10]] == "\\\"h";
    assert StringBody(input, 10, "\\\"") == Scan(Done, 13, "\\\"hh");
    assert "" + ['\\', input[9]] == "\\\"";
    assert StringBody(input, 8, []) == Scan(Done, 13, "\\\"hh");
    assert input[7] == '"';
    assert Next(input, Lexer(7, "key", 1, None)) == (Token(TokenString, "\\\"hh"), Lexer(13, "\\\"hh", 1, None));
  }

  lemma ScanQuoteToken5(input: string)
    requires |input| == 14
    requires input[13] == '}'
    ensures Next(input, Lexer(13, "\\\"hh", 1, None)) == (Token(TokenRBrace, "}"), Lexer(14, "\\\"hh", 1, None))
  {
    assert input[13] == '}';
    assert Next(input, Lexer(13, "\\\"hh", 1, None)) == (Token(TokenRBrace, "}"), Lexer(14, "\\\"hh", 1, None));
  }

  lemma ScanQuoteStep6(input: string)
    requires ScanQuoteChars(input)
    ensures Tokens(input, Start, 5) ==
      [Token(TokenLBrace, "{"), Token(TokenString, "key"), Token(TokenColon, ":"), Token(TokenString, "\\\"hh"), Token(TokenRBrace, "}")]
  {
    ScanQuoteToken1(input);
    ScanQuoteToken2(input);
    ScanQuoteToken3(input);
    ScanQuoteToken4(input);
    ScanQuoteToken5(input);
    var rest: seq<Token> := [];
    TokensStep(input, Lexer(13, "\\\"hh", 1, None), 0, Token(TokenRBrace, "}"), Lexer(14, "\\\"hh", 1, None), rest);
    rest := [Token(TokenRBrace, "}")] + rest;
    TokensStep(input, Lexer(7, "key", 1, None), 1, Token(TokenString, "\\\"hh"), Lexer(13, "\\\"hh", 1, None), rest);
    rest := [Token(TokenString, "\\\"hh")] + rest;
    TokensStep(input, Lexer(6, "key", 1, None), 2, Token(TokenColon, ":"), Lexer(7, "key", 1, None), rest);
    rest := [Token(TokenColon, ":")] + rest;
    TokensStep(input, Lexer(1, "", 1, None), 3, Token(TokenString, "key"), Lexer(6, "key", 1, None), rest);
    rest := [Token(TokenString, "key")] + rest;
    TokensStep(input, Lexer(0, "", 1, None), 4, Token(TokenLBrace, "{"), Lexer(1, "", 1, None), rest);
    rest := [Token(TokenLBrace, "{")] + rest;
    Prepended5(Token(TokenLBrace, "{"), Token(TokenString, "key"), Token(TokenColon, ":"), Token(TokenString, "\\\"hh"), Token(TokenRBrace, "}"), []);
  }

  const ScanNumbersText: string := "[12,12.12, 12e+1, 12e-1," + "12.12e+1]"

  /** scanner_test.go:71-89: integers, fractions and exponents are single number tokens. */
  lemma ScanNumbers()
    ensures Tokens(ScanNumbersText, Start, 12) ==
      [Token(TokenLBracket, "["), Token(TokenNumber, "12"), Token(TokenComma, ","), Token(TokenNumber, "12.12"), Token(TokenComma, ","), Token(TokenNumber, "12e+1"), Token(TokenComma, ","), Token(TokenNumber, "12e-1"), Token(TokenComma, ","), Token(TokenNumber, "12.12e+1"), Token(TokenRBracket, "]"), Token(TokenEOF, "")]
  {
    ScanNumbersCharsOf(ScanNumbersText);
    ScanNumbersStep14(ScanNumbersText);
  }

  /** The characters of ScanNumbersText, one by one. */
  predicate ScanNumbersChars(s: string)
  {
    |s| == 33 &&
    s[0] == '[' && s[1] == '1' && s[2] == '2' && s[3] == ',' && s[4] == '1' && s[5] == '2' &&
    s[6] == '.' && s[7] == '1' && s[8] == '2' && s[9] == ',' && s[10] == ' ' && s[11] == '1' &&
    s[12] == '2' && s[13] == 'e' && s[14] == '+' && s[15] == '1' && s[16] == ',' && s[17] == ' ' &&
    s[18] == '1' && s[19] == '2' && s[20] == 'e' && s[21] == '-' && s[22] == '1' && s[23] == ',' &&
    s[24] == '1' && s[25] == '2' && s[26] == '.' && s[27] == '1' && s[28] == '2' && s[29] == 'e' &&
    s[30] == '+' && s[31] == '1' && s[32] == ']'
  }

  lemma ScanNumbersChars1(input: string)
    requires input == "[12,12.12, 12e+1, 12e-1," + "12.12e+1]"
    ensures input[0] == '[' && input[1] == '1' && input[2] == '2' && input[3] == ',' && input[4] == '1' && input[5] == '2'
  {
  }

  lemma ScanNumbersChars2(input: string)
    requires input == "[12,12.12, 12e+1, 12e-1," + "12.12e+1]"
    ensures input[6] == '.' && input[7] == '1' && input[8] == '2' && input[9] == ',' && input[10] == ' ' && input[11] == '1'
  {
  }

  lemma ScanNumbersChars3(input: string)
    requires input == "[12,12.12, 12e+1, 12e-1," + "12.12e+1]"
    ensures input[12] == '2' && input[13] == 'e' && input[14] == '+' && input[15] == '1' && input[16] == ',' && input[17] == ' '
  {
  }

  lemma ScanNumbersChars4(input: string)
    requires input == "[12,12.12, 12e+1, 12e-1," + "12.12e+1]"
    ensures input[18] == '1' && input[19] == '2' && input[20] == 'e' && input[21] == '-' && input[22] == '1' && input[23] == ','
  {
  }

  lemma ScanNumbersChars5(input: string)
    requires input == "[12,12.12, 12e+1, 12e-1," + "12.12e+1]"
    ensures input[24] == '1' && input[25] == '2' && input[26] == '.' && input[27] == '1' && input[28] == '2' && input[29] == 'e'
  {
  }

  lemma ScanNumbersChars6(input: string)
    requires input == "[12,12.12, 12e+1, 12e-1," + "12.12e+1]"
    ensures input[30] == '+' && input[31] == '1' && input[32] == ']'
  {
  }

  lemma ScanNumbersCharsOf(input: string)
    requires input == "[12,12.12, 12e+1, 12e-1," + "12.12e+1]"
    ensures ScanNumbersChars(input)
  {
    ScanNumbersChars1(input);
    ScanNumbersChars2(input);
    ScanNumbersChars3(input);
    ScanNumbersChars4(input);
    ScanNumbersChars5(input);
    ScanNumbersChars6(input);
  }

  lemma ScanNumbersToken1(input: string)
    requires |input| == 33
    requires input[0] == '[' && input[1] == '1'
    ensures Next(input, Lexer(0, "", 1, None)) == (Token(TokenLBracket, "["), Lexer(1, "", 1, None))
  {
    assert input[0] == '[';
    assert Next(input, Lexer(0, "", 1, None)) == (Token(TokenLBracket, "["), Lexer(1, "", 1, None));
  }

  lemma ScanNumbersToken2(input: string)
    requires |input| == 33
    requires input[1] == '1' && input[2] == '2' && input[3] == ','
    ensures Next(input, Lexer(1, "", 1, None)) == (Token(TokenNumber, "12"), Lexer(3, "12", 1, None))
  {
    assert NumberRun(input, 3, "12") == Scan(Done, 3, "12");
    assert "1" + [input[2]] == "12";
    assert NumberRun(input, 2, "1") == Scan(Done, 3, "12");
    assert "" + [input[1]] == "1";
    assert NumberRun(input, 1, []) == Scan(Done, 3, "12");
    assert input[1] == '1';
    DigitStartsNumber(input, Lexer(1, "", 1, None), 3, "12");
  }

  lemma ScanNumbersToken3(input: string)
    requires |input| == 33
    requires input[3] == ',' && input[4] == '1'
    ensures Next(input, Lexer(3, "12", 1, None)) == (Token(TokenComma, ","), Lexer(4, "12", 1, None))
  {
    assert input[3] == ',';
    assert Next(input, Lexer(3, "12", 1, None)) == (Token(TokenComma, ","), Lexer(4, "12", 1, None));
  }

  lemma ScanNumbersToken4(input: string)
    requires |input| == 33
    requires input[4] == '1' && input[5] == '2' && input[6] == '.' && input[7] == '1' && input[8] == '2' && input[9] == ','
    ensures Next(input, Lexer(4, "12", 1, None)) == (Token(TokenNumber, "12.12"), Lexer(9, "12.12", 1, None))
  {
    assert FractionRun(input, 9, "12.12", false, false) == Scan(Done, 9, "12.12");
    assert "12.1" + [input[8]] == "12.12";
    assert FractionRun(input, 8, "12.1", false, false) == Scan(Done, 9, "12.12");
    assert "12." + [input[7]] == "12.1";
    assert FractionRun(input, 7, "12.", false, false) == Scan(Done, 9, "12.12");
    assert "12" + [input[6]] == "12.";
    assert NumberRun(input, 6, "12") == Scan(Done, 9, "12.12");
    assert "1" + [input[5]] == "12";
    assert NumberRun(input, 5, "1") == Scan(Done, 9, "12.12");
    assert "" + [input[4]] == "1";
    assert NumberRun(input, 4, []) == Scan(Done, 9, "12.12");
    assert input[4] == '1';
    DigitStartsNumber(input, Lexer(4, "12", 1, None), 9, "12.12");
  }

  lemma ScanNumbersToken5(input: string)
    requires |input| == 33
    requires input[9] == ',' && input[10] == ' '
    ensures Next(input, Lexer(9, "12.12", 1, None)) == (Token(TokenComma, ","), Lexer(10, "12.12", 1, None))
  {
    assert input[9] == ',';
    assert Next(input, Lexer(9, "12.12", 1, None)) == (Token(TokenComma, ","), Lexer(10, "12.12", 1, None));
  }

  lemma ScanNumbersToken6(input: string)
    requires |input| == 33
    requires input[10] == ' ' && input[11] == '1' && input[12] == '2' && input[13] == 'e' && input[14] == '+' && input[15] == '1' &&
      input[16] == ','
    ensures Next(input, Lexer(10, "12.12", 1, None)) == (Token(TokenNumber, "12e+1"), Lexer(16, "12e+1", 1, None))
  {
    assert FractionRun(input, 16, "12e+1", false, true) == Scan(Done, 16, "12e+1");
    assert "12e+" + [input[15]] == "12e+1";
    assert FractionRun(input, 15, "12e+", false, true) == Scan(Done, 16, "12e+1");
    assert "12e" + [input[14]] == "12e+";
    assert FractionRun(input, 14, "12e", false, false) == Scan(Done, 16, "12e+1");
    assert "12" + [input[13]] == "12e";
    assert NumberRun(input, 13, "12") == Scan(Done, 16, "12e+1");
    assert "1" + [input[12]] == "12";
    assert NumberRun(input, 12, "1") == Scan(Done, 16, "12e+1");
    assert "" + [input[11]] == "1";
    assert NumberRun(input, 11, []) == Scan(Done, 16, "12e+1");
    assert input[11] == '1';
    DigitStartsNumber(input, Lexer(11, "12.12", 1, None), 16, "12e+1");
    assert Next(input, Lexer(10, "12.12", 1, None)) == (Token(TokenNumber, "12e+1"), Lexer(16, "12e+1", 1, None));
  }

  lemma ScanNumbersToken7(input: string)
    requires |input| == 33
    requires input[16] == ',' && input[17] == ' '
    ensures Next(input, Lexer(16, "12e+1", 1, None)) == (Token(TokenComma, ","), Lexer(17, "12e+1", 1, None))
  {
    assert input[16] == ',';
    assert Next(input, Lexer(16, "12e+1", 1, None)) == (Token(TokenComma, ","), Lexer(17, "12e+1", 1, None));
  }

  lemma ScanNumbersToken8(input: string)
    requires |input| == 33
    requires input[17] == ' ' && input[18] == '1' && input[19] == '2' && input[20] == 'e' && input[21] == '-' && input[22] == '1' &&
      input[23] == ','
    ensures Next(input, Lexer(17, "12e+1", 1, None)) == (Token(TokenNumber, "12e-1"), Lexer(23, "12e-1", 1, None))
  {
    assert FractionRun(input, 23, "12e-1", false, true) == Scan(Done, 23, "12e-1");
    assert "12e-" + [input[22]] == "12e-1";
    assert FractionRun(input, 22, "12e-", false, true) == Scan(Done, 23, "12e-1");
    assert "12e" + [input[21]] == "12e-";
    assert FractionRun(input, 21, "12e", false, false) == Scan(Done, 23, "12e-1");
    assert "12" + [input[20]] == "12e";
    assert NumberRun(input, 20, "12") == Scan(Done, 23, "12e-1");
    assert "1" + [input[19]] == "12";
    assert NumberRun(input, 19, "1") == Scan(Done, 23, "12e-1");
    assert "" + [input[18]] == "1";
    assert NumberRun(input, 18, []) == Scan(Done, 23, "12e-1");
    assert input[18] == '1';
    DigitStartsNumber(input, Lexer(18, "12e+1", 1, None), 23, "12e-1");
    assert Next(input, Lexer(17, "12e+1", 1, None)) == (Token(TokenNumber, "12e-1"), Lexer(23, "12e-1", 1, None));
  }

  lemma ScanNumbersToken9(input: string)
    requires |input| == 33
    requires input[23] == ',' && input[24] == '1'
    ensures Next(input, Lexer(23, "12e-1", 1, None)) == (Token(TokenComma, ","), Lexer(24, "12e-1", 1, None))
  {
    assert input[23] == ',';
    assert Next(input, Lexer(23, "12e-1", 1, None)) == (Token(TokenComma, ","), Lexer(24, "12e-1", 1, None));
  }

  lemma ScanNumbersToken10(input: string)
    requires |input| == 33
    requires input[24] == '1' && input[25] == '2' && input[26] == '.' && input[27] == '1' && input[28] == '2' && input[29] == 'e' &&
      input[30] == '+' && input[31] == '1' && input[32] == ']'
    ensures Next(input, Lexer(24, "12e-1", 1, None)) == (Token(TokenNumber, "12.12e+1"), Lexer(32, "12.12e+1", 1, None))
  {
    assert FractionRun(input, 32, "12.12e+1", true, true) == Scan(Done, 32, "12.12e+1");
    assert "12.12e+" + [input[31]] == "12.12e+1";
    assert FractionRun(input, 31, "12.12e+", true, true) == Scan(Done, 32, "12.12e+1");
    assert "12.12e" + [input[30]] == "12.12e+";
    assert FractionRun(input, 30, "12.12e", true, false) == Scan(Done, 32, "12.12e+1");
    assert "12.12" + [input[29]] == "12.12e";
    assert FractionRun(input, 29, "12.12", false, false) == Scan(Done, 32, "12.12e+1");
    assert "12.1" + [input[28]] == "12.12";
    assert FractionRun(input, 28, "12.1", false, false) == Scan(Done, 32, "12.12e+1");
    assert "12." + [input[27]] == "12.1";
    assert FractionRun(input, 27, "12.", false, false) == Scan(Done, 32, "12.12e+1");
    assert "12" + [input[26]] == "12.";
    assert NumberRun(input, 26, "12") == Scan(Done, 32, "12.12e+1");
    assert "1" + [input[25]] == "12";
    assert NumberRun(input, 25, "1") == Scan(Done, 32, "12.12e+1");
    assert "" + [input[24]] == "1";
    assert NumberRun(input, 24, []) == Scan(Done, 32, "12.12e+1");
    assert input[24] == '1';
    DigitStartsNumber(input, Lexer(24, "12e-1", 1, None), 32, "12.12e+1");
  }

  lemma ScanNumbersToken11(input: string)
    requires |input| == 33
    requires input[32] == ']'
    ensures Next(input, Lexer(32, "12.12e+1", 1, None)) == (Token(TokenRBracket, "]"), Lexer(33, "12.12e+1", 1, None))
  {
    assert input[32] == ']';
    assert Next(input, Lexer(32, "12.12e+1", 1, None)) == (Token(TokenRBracket, "]"), Lexer(33, "12.12e+1", 1, None));
  }

  lemma ScanNumbersToken12(input: string)
    requires |input| == 33
    ensures Next(input, Lexer(33, "12.12e+1", 1, None)) == (Token(TokenEOF, ""), Lexer(33, "12.12e+1", 1, None))
  {
    assert Next(input, Lexer(33, "12.12e+1", 1, None)) == (Token(TokenEOF, ""), Lexer(33, "12.12e+1", 1, None));
  }

  lemma ScanNumbersStep13(input: string)
    requires ScanNumbersChars(input)
    ensures Tokens(input, Lexer(24, "12e-1", 1, None), 3) ==
      [Token(TokenNumber, "12.12e+1"), Token(TokenRBracket, "]"), Token(TokenEOF, "")]
  {
    ScanNumbersToken10(input);
    ScanNumbersToken11(input);
    ScanNumbersToken12(input);
    var rest: seq<Token> := [];
    TokensStep(input, Lexer(33, "12.12e+1", 1, None), 0, Token(TokenEOF, ""), Lexer(33, "12.12e+1", 1, None), rest);
    rest := [Token(TokenEOF, "")] + rest;
    TokensStep(input, Lexer(32, "12.12e+1", 1, None), 1, Token(TokenRBracket, "]"), Lexer(33, "12.12e+1", 1, None), rest);
    rest := [Token(TokenRBracket, "]")] + rest;
    TokensStep(input, Lexer(24, "12e-1", 1, None), 2, Token(TokenNumber, "12.12e+1"), Lexer(32, "12.12e+1", 1, None), rest);
    rest := [Token(TokenNumber, "12.12e+1")] + rest;
    Prepended3(Token(TokenNumber, "12.12e+1"), Token(TokenRBracket, "]"), Token(TokenEOF, ""), []);
  }

  lemma ScanNumbersStep14(input: string)
    requires ScanNumbersChars(input)
    ensures Tokens(input, Start, 12) ==
      [Token(TokenLBracket, "["), Token(TokenNumber, "12"), Token(TokenComma, ","), Token(TokenNumber, "12.12"), Token(TokenComma, ","), Token(TokenNumber, "12e+1"), Token(TokenComma, ","), Token(TokenNumber, "12e-1"), Token(TokenComma, ","), Token(TokenNumber, "12.12e+1"), Token(TokenRBracket, "]"), Token(TokenEOF, "")]
  {
    ScanNumbersToken1(input);
    ScanNumbersToken2(input);
    ScanNumbersToken3(input);
    ScanNumbersToken4(input);
    ScanNumbersToken5(input);
    ScanNumbersToken6(input);
    ScanNumbersToken7(input);
    ScanNumbersToken8(input);
    ScanNumbersToken9(input);
    ScanNumbersStep13(input);
    var rest: seq<Token> := [Token(TokenNumber, "12.12e+1"), Token(TokenRBracket, "]"), Token(TokenEOF, "")];
    TokensStep(input, Lexer(23, "12e-1", 1, None), 3, Token(TokenComma, ","), Lexer(24, "12e-1", 1, None), rest);
    rest := [Token(TokenComma, ",")] + rest;
    TokensStep(input, Lexer(17, "12e+1", 1, None), 4, Token(TokenNumber, "12e-1"), Lexer(23, "12e-1", 1, None), rest);
    rest := [Token(TokenNumber, "12e-1")] + rest;
    TokensStep(input, Lexer(16, "12e+1", 1, None), 5, Token(TokenComma, ","), Lexer(17, "12e+1", 1, None), rest);
    rest := [Token(TokenComma, ",")] + rest;
    TokensStep(input, Lexer(10, "12.12", 1, None), 6, Token(TokenNumber, "12e+1"), Lexer(16, "12e+1", 1, None), rest);
    rest := [Token(TokenNumber, "12e+1")] + rest;
    TokensStep(input, Lexer(9, "12.12", 1, None), 7, Token(TokenComma, ","), Lexer(10, "12.12", 1, None), rest);
    rest := [Token(TokenComma, ",")] + rest;
    TokensStep(input, Lexer(4, "12", 1, None), 8, Token(TokenNumber, "12.12"), Lexer(9, "12.12", 1, None), rest);
    rest := [Token(TokenNumber, "12.12")] + rest;
    TokensStep(input, Lexer(3, "12", 1, None), 9, Token(TokenComma, ","), Lexer(4, "12", 1, None), rest);
    rest := [Token(TokenComma, ",")] + rest;
    TokensStep(input, Lexer(1, "", 1, None), 10, Token(TokenNumber, "12"), Lexer(3, "12", 1, None), rest);
    rest := [Token(TokenNumber, "12")] + rest;
    TokensStep(input, Lexer(0, "", 1, None), 11, Token(TokenLBracket, "["), Lexer(1, "", 1, None), rest);
    rest := [Token(TokenLBracket, "[")] + rest;
    Prepended9(Token(TokenLBracket, "["), Token(TokenNumber, "12"), Token(TokenComma, ","), Token(TokenNumber, "12.12"), Token(TokenComma, ","), Token(TokenNumber, "12e+1"), Token(TokenComma, ","), Token(TokenNumber, "12e-1"), Token(TokenComma, ","), [Token(TokenNumber, "12.12e+1"), Token(TokenRBracket, "]"), Token(TokenEOF, "")]);
  }

  /** A list built by prepending one item at a time is those items followed by the rest. */
  lemma Prepended3<T>(a: T, b: T, c: T, rest: seq<T>)
    ensures [a] + ([b] + ([c] + rest)) == [a, b, c] + rest
  {
  }

  lemma Prepended5<T>(a: T, b: T, c: T, d: T, e: T, rest: seq<T>)
    ensures [a] + ([b] + ([c] + ([d] + ([e] + rest)))) == [a, b, c, d, e] + rest
  {
  }

  lemma Prepended9<T>(a: T, b: T, c: T, d: T, e: T, f: T, g: T, h: T, i: T, rest: seq<T>)
    ensures [a] + ([b] + ([c] + ([d] + ([e] + ([f] + ([g] + ([h] + ([i] + rest)))))))) == [a, b, c, d, e, f, g, h, i] + rest
  {
  }
}
