/**
 * The documents of the parser tests in parser_test.go and further documents
 * that show the parser's behaviour at its edges, each with the outcome Parse
 * gives it. Each case is one lemma; the lemmas it calls evaluate one
 * parse function or one nextToken call each.
 */
module ParserCases {
  import opened Wrappers
  import opened Decimal
  import opened Json
  import opened LexSpec
  import opened LexProps
  import opened ParseSpec
  import ScannerCases

  /** A digit followed by a comma is a one-digit number token. */
  lemma DigitBeforeComma(input: string, lx: Lexer)
    requires lx.pos + 1 < |input| && IsDigit(input[lx.pos]) && input[lx.pos + 1] == ','
    ensures Next(input, lx) == (Token(TokenNumber, [input[lx.pos]]), lx.(pos := lx.pos + 1, buf := [input[lx.pos]]))
  {
    var p := lx.pos;
    assert NumberRun(input, p + 1, [input[p]]) == Scan(Done, p + 1, [input[p]]);
    assert [] + [input[p]] == [input[p]];
    assert NumberRun(input, p, []) == Scan(Done, p + 1, [input[p]]);
    DigitStartsNumber(input, lx, p + 1, [input[p]]);
  }

  const ObjectTestText: string := "{\"key\":null,\n\t\t\t\t\"key1\":" + "false,\n\t\t\t\t\"key2\":true,\n" + "\t\t\t\t\"key3\":2,\n\t\t\t\t\"key4\"" + ":\"hello parser\",\n\t\t\t\t\"ke" + "y5\":[null,true, false, \"" + "key\", \"key\",[1, 2],{\"key" + "\":\"hello\"}],\n\t\t\t\t\"key6\":" + "{\"key7\":\"hello\"}}"

  /** parser_test.go:10-72: an object with a member of every kind, on several lines. */
  lemma ObjectTest()
    ensures Parse(ObjectTestText) == Parsed(Object([Member("key", Null), Member("key1", Bool(false)), Member("key2", Bool(true)), Member("key3", Number(2)), Member("key4", String("hello parser")), Member("key5", Array([Null, Bool(true), Bool(false), String("key"), String("key"), Array([Number(1), Number(2)]), Object([Member("key", String("hello"))])])), Member("key6", Object([Member("key7", String("hello"))]))]))
  {
    ObjectTestCharsOf(ObjectTestText);
    ObjectTestOutcome81(ObjectTestText);
  }

  /** The characters of ObjectTestText, one by one. */
  predicate ObjectTestChars(s: string)
  {
    |s| == 185 && ObjectTestGroup1(s) && ObjectTestGroup2(s) && ObjectTestGroup3(s) && ObjectTestGroup4(s) && ObjectTestGroup5(s) && ObjectTestGroup6(s)
  }

  lemma ObjectTestChars1(input: string)
    requires input == "{\"key\":null,\n\t\t\t\t\"key1\":" + "false,\n\t\t\t\t\"key2\":true,\n" + "\t\t\t\t\"key3\":2,\n\t\t\t\t\"key4\"" + ":\"hello parser\",\n\t\t\t\t\"ke" + "y5\":[null,true, false, \"" + "key\", \"key\",[1, 2],{\"key" + "\":\"hello\"}],\n\t\t\t\t\"key6\":" + "{\"key7\":\"hello\"}}"
    ensures input[0] == '{' && input[1] == '"' && input[2] == 'k' && input[3] == 'e' && input[4] == 'y' && input[5] == '"'
  {
  }

  lemma ObjectTestChars2(input: string)
    requires input == "{\"key\":null,\n\t\t\t\t\"key1\":" + "false,\n\t\t\t\t\"key2\":true,\n" + "\t\t\t\t\"key3\":2,\n\t\t\t\t\"key4\"" + ":\"hello parser\",\n\t\t\t\t\"ke" + "y5\":[null,true, false, \"" + "key\", \"key\",[1, 2],{\"key" + "\":\"hello\"}],\n\t\t\t\t\"key6\":" + "{\"key7\":\"hello\"}}"
    ensures input[6] == ':' && input[7] == 'n' && input[8] == 'u' && input[9] == 'l' && input[10] == 'l' && input[11] == ','
  {
  }

  lemma ObjectTestChars3(input: string)
    requires input == "{\"key\":null,\n\t\t\t\t\"key1\":" + "false,\n\t\t\t\t\"key2\":true,\n" + "\t\t\t\t\"key3\":2,\n\t\t\t\t\"key4\"" + ":\"hello parser\",\n\t\t\t\t\"ke" + "y5\":[null,true, false, \"" + "key\", \"key\",[1, 2],{\"key" + "\":\"hello\"}],\n\t\t\t\t\"key6\":" + "{\"key7\":\"hello\"}}"
    ensures input[12] == '\n' && input[13] == '\t' && input[14] == '\t' && input[15] == '\t' && input[16] == '\t' && input[17] == '"'
  {
  }

  lemma ObjectTestChars4(input: string)
    requires input == "{\"key\":null,\n\t\t\t\t\"key1\":" + "false,\n\t\t\t\t\"key2\":true,\n" + "\t\t\t\t\"key3\":2,\n\t\t\t\t\"key4\"" + ":\"hello parser\",\n\t\t\t\t\"ke" + "y5\":[null,true, false, \"" + "key\", \"key\",[1, 2],{\"key" + "\":\"hello\"}],\n\t\t\t\t\"key6\":" + "{\"key7\":\"hello\"}}"
    ensures input[18] == 'k' && input[19] == 'e' && input[20] == 'y' && input[21] == '1' && input[22] == '"' && input[23] == ':'
  {
  }

  lemma ObjectTestChars5(input: string)
    requires input == "{\"key\":null,\n\t\t\t\t\"key1\":" + "false,\n\t\t\t\t\"key2\":true,\n" + "\t\t\t\t\"key3\":2,\n\t\t\t\t\"key4\"" + ":\"hello parser\",\n\t\t\t\t\"ke" + "y5\":[null,true, false, \"" + "key\", \"key\",[1, 2],{\"key" + "\":\"hello\"}],\n\t\t\t\t\"key6\":" + "{\"key7\":\"hello\"}}"
    ensures input[24] == 'f' && input[25] == 'a' && input[26] == 'l' && input[27] == 's' && input[28] == 'e' && input[29] == ','
  {
  }

  lemma ObjectTestChars6(input: string)
    requires input == "{\"key\":null,\n\t\t\t\t\"key1\":" + "false,\n\t\t\t\t\"key2\":true,\n" + "\t\t\t\t\"key3\":2,\n\t\t\t\t\"key4\"" + ":\"hello parser\",\n\t\t\t\t\"ke" + "y5\":[null,true, false, \"" + "key\", \"key\",[1, 2],{\"key" + "\":\"hello\"}],\n\t\t\t\t\"key6\":" + "{\"key7\":\"hello\"}}"
    ensures input[30] == '\n' && input[31] == '\t' && input[32] == '\t' && input[33] == '\t' && input[34] == '\t' && input[35] == '"'
  {
  }

  predicate ObjectTestGroup1(s: string)
  {
    |s| == 185 &&
    s[0] == '{' && s[1] == '"' && s[2] == 'k' && s[3] == 'e' && s[4] == 'y' && s[5] == '"' &&
    s[6] == ':' && s[7] == 'n' && s[8] == 'u' && s[9] == 'l' && s[10] == 'l' && s[11] == ',' &&
    s[12] == '\n' && s[13] == '\t' && s[14] == '\t' && s[15] == '\t' && s[16] == '\t' && s[17] == '"' &&
    s[18] == 'k' && s[19] == 'e' && s[20] == 'y' && s[21] == '1' && s[22] == '"' && s[23] == ':' &&
    s[24] == 'f' && s[25] == 'a' && s[26] == 'l' && s[27] == 's' && s[28] == 'e' && s[29] == ',' &&
    s[30] == '\n' && s[31] == '\t' && s[32] == '\t' && s[33] == '\t' && s[34] == '\t' && s[35] == '"'
  }

  lemma ObjectTestGroupOf1(input: string)
    requires input == "{\"key\":null,\n\t\t\t\t\"key1\":" + "false,\n\t\t\t\t\"key2\":true,\n" + "\t\t\t\t\"key3\":2,\n\t\t\t\t\"key4\"" + ":\"hello parser\",\n\t\t\t\t\"ke" + "y5\":[null,true, false, \"" + "key\", \"key\",[1, 2],{\"key" + "\":\"hello\"}],\n\t\t\t\t\"key6\":" + "{\"key7\":\"hello\"}}"
    ensures ObjectTestGroup1(input)
  {
    ObjectTestChars1(input);
    ObjectTestChars2(input);
    ObjectTestChars3(input);
    ObjectTestChars4(input);
    ObjectTestChars5(input);
    ObjectTestChars6(input);
  }

  lemma ObjectTestChars7(input: string)
    requires input == "{\"key\":null,\n\t\t\t\t\"key1\":" + "false,\n\t\t\t\t\"key2\":true,\n" + "\t\t\t\t\"key3\":2,\n\t\t\t\t\"key4\"" + ":\"hello parser\",\n\t\t\t\t\"ke" + "y5\":[null,true, false, \"" + "key\", \"key\",[1, 2],{\"key" + "\":\"hello\"}],\n\t\t\t\t\"key6\":" + "{\"key7\":\"hello\"}}"
    ensures input[36] == 'k' && input[37] == 'e' && input[38] == 'y' && input[39] == '2' && input[40] == '"' && input[41] == ':'
  {
  }

  lemma ObjectTestChars8(input: string)
    requires input == "{\"key\":null,\n\t\t\t\t\"key1\":" + "false,\n\t\t\t\t\"key2\":true,\n" + "\t\t\t\t\"key3\":2,\n\t\t\t\t\"key4\"" + ":\"hello parser\",\n\t\t\t\t\"ke" + "y5\":[null,true, false, \"" + "key\", \"key\",[1, 2],{\"key" + "\":\"hello\"}],\n\t\t\t\t\"key6\":" + "{\"key7\":\"hello\"}}"
    ensures input[42] == 't' && input[43] == 'r' && input[44] == 'u' && input[45] == 'e' && input[46] == ',' && input[47] == '\n'
  {
  }

  lemma ObjectTestChars9(input: string)
    requires input == "{\"key\":null,\n\t\t\t\t\"key1\":" + "false,\n\t\t\t\t\"key2\":true,\n" + "\t\t\t\t\"key3\":2,\n\t\t\t\t\"key4\"" + ":\"hello parser\",\n\t\t\t\t\"ke" + "y5\":[null,true, false, \"" + "key\", \"key\",[1, 2],{\"key" + "\":\"hello\"}],\n\t\t\t\t\"key6\":" + "{\"key7\":\"hello\"}}"
    ensures input[48] == '\t' && input[49] == '\t' && input[50] == '\t' && input[51] == '\t' && input[52] == '"' && input[53] == 'k'
  {
  }

  lemma ObjectTestChars10(input: string)
    requires input == "{\"key\":null,\n\t\t\t\t\"key1\":" + "false,\n\t\t\t\t\"key2\":true,\n" + "\t\t\t\t\"key3\":2,\n\t\t\t\t\"key4\"" + ":\"hello parser\",\n\t\t\t\t\"ke" + "y5\":[null,true, false, \"" + "key\", \"key\",[1, 2],{\"key" + "\":\"hello\"}],\n\t\t\t\t\"key6\":" + "{\"key7\":\"hello\"}}"
    ensures input[54] == 'e' && input[55] == 'y' && input[56] == '3' && input[57] == '"' && input[58] == ':' && input[59] == '2'
  {
  }

  lemma ObjectTestChars11(input: string)
    requires input == "{\"key\":null,\n\t\t\t\t\"key1\":" + "false,\n\t\t\t\t\"key2\":true,\n" + "\t\t\t\t\"key3\":2,\n\t\t\t\t\"key4\"" + ":\"hello parser\",\n\t\t\t\t\"ke" + "y5\":[null,true, false, \"" + "key\", \"key\",[1, 2],{\"key" + "\":\"hello\"}],\n\t\t\t\t\"key6\":" + "{\"key7\":\"hello\"}}"
    ensures input[60] == ',' && input[61] == '\n' && input[62] == '\t' && input[63] == '\t' && input[64] == '\t' && input[65] == '\t'
  {
  }

  lemma ObjectTestChars12(input: string)
    requires input == "{\"key\":null,\n\t\t\t\t\"key1\":" + "false,\n\t\t\t\t\"key2\":true,\n" + "\t\t\t\t\"key3\":2,\n\t\t\t\t\"key4\"" + ":\"hello parser\",\n\t\t\t\t\"ke" + "y5\":[null,true, false, \"" + "key\", \"key\",[1, 2],{\"key" + "\":\"hello\"}],\n\t\t\t\t\"key6\":" + "{\"key7\":\"hello\"}}"
    ensures input[66] == '"' && input[67] == 'k' && input[68] == 'e' && input[69] == 'y' && input[70] == '4' && input[71] == '"'
  {
  }

  predicate ObjectTestGroup2(s: string)
  {
    |s| == 185 &&
    s[36] == 'k' && s[37] == 'e' && s[38] == 'y' && s[39] == '2' && s[40] == '"' && s[41] == ':' &&
    s[42] == 't' && s[43] == 'r' && s[44] == 'u' && s[45] == 'e' && s[46] == ',' && s[47] == '\n' &&
    s[48] == '\t' && s[49] == '\t' && s[50] == '\t' && s[51] == '\t' && s[52] == '"' && s[53] == 'k' &&
    s[54] == 'e' && s[55] == 'y' && s[56] == '3' && s[57] == '"' && s[58] == ':' && s[59] == '2' &&
    s[60] == ',' && s[61] == '\n' && s[62] == '\t' && s[63] == '\t' && s[64] == '\t' && s[65] == '\t' &&
    s[66] == '"' && s[67] == 'k' && s[68] == 'e' && s[69] == 'y' && s[70] == '4' && s[71] == '"'
  }

  lemma ObjectTestGroupOf2(input: string)
    requires input == "{\"key\":null,\n\t\t\t\t\"key1\":" + "false,\n\t\t\t\t\"key2\":true,\n" + "\t\t\t\t\"key3\":2,\n\t\t\t\t\"key4\"" + ":\"hello parser\",\n\t\t\t\t\"ke" + "y5\":[null,true, false, \"" + "key\", \"key\",[1, 2],{\"key" + "\":\"hello\"}],\n\t\t\t\t\"key6\":" + "{\"key7\":\"hello\"}}"
    ensures ObjectTestGroup2(input)
  {
    ObjectTestChars7(input);
    ObjectTestChars8(input);
    ObjectTestChars9(input);
    ObjectTestChars10(input);
    ObjectTestChars11(input);
    ObjectTestChars12(input);
  }

  lemma ObjectTestChars13(input: string)
    requires input == "{\"key\":null,\n\t\t\t\t\"key1\":" + "false,\n\t\t\t\t\"key2\":true,\n" + "\t\t\t\t\"key3\":2,\n\t\t\t\t\"key4\"" + ":\"hello parser\",\n\t\t\t\t\"ke" + "y5\":[null,true, false, \"" + "key\", \"key\",[1, 2],{\"key" + "\":\"hello\"}],\n\t\t\t\t\"key6\":" + "{\"key7\":\"hello\"}}"
    ensures input[72] == ':' && input[73] == '"' && input[74] == 'h' && input[75] == 'e' && input[76] == 'l' && input[77] == 'l'
  {
  }

  lemma ObjectTestChars14(input: string)
    requires input == "{\"key\":null,\n\t\t\t\t\"key1\":" + "false,\n\t\t\t\t\"key2\":true,\n" + "\t\t\t\t\"key3\":2,\n\t\t\t\t\"key4\"" + ":\"hello parser\",\n\t\t\t\t\"ke" + "y5\":[null,true, false, \"" + "key\", \"key\",[1, 2],{\"key" + "\":\"hello\"}],\n\t\t\t\t\"key6\":" + "{\"key7\":\"hello\"}}"
    ensures input[78] == 'o' && input[79] == ' ' && input[80] == 'p' && input[81] == 'a' && input[82] == 'r' && input[83] == 's'
  {
  }

  lemma ObjectTestChars15(input: string)
    requires input == "{\"key\":null,\n\t\t\t\t\"key1\":" + "false,\n\t\t\t\t\"key2\":true,\n" + "\t\t\t\t\"key3\":2,\n\t\t\t\t\"key4\"" + ":\"hello parser\",\n\t\t\t\t\"ke" + "y5\":[null,true, false, \"" + "key\", \"key\",[1, 2],{\"key" + "\":\"hello\"}],\n\t\t\t\t\"key6\":" + "{\"key7\":\"hello\"}}"
    ensures input[84] == 'e' && input[85] == 'r' && input[86] == '"' && input[87] == ',' && input[88] == '\n' && input[89] == '\t'
  {
  }

  lemma ObjectTestChars16(input: string)
    requires input == "{\"key\":null,\n\t\t\t\t\"key1\":" + "false,\n\t\t\t\t\"key2\":true,\n" + "\t\t\t\t\"key3\":2,\n\t\t\t\t\"key4\"" + ":\"hello parser\",\n\t\t\t\t\"ke" + "y5\":[null,true, false, \"" + "key\", \"key\",[1, 2],{\"key" + "\":\"hello\"}],\n\t\t\t\t\"key6\":" + "{\"key7\":\"hello\"}}"
    ensures input[90] == '\t' && input[91] == '\t' && input[92] == '\t' && input[93] == '"' && input[94] == 'k' && input[95] == 'e'
  {
  }

  lemma ObjectTestChars17(input: string)
    requires input == "{\"key\":null,\n\t\t\t\t\"key1\":" + "false,\n\t\t\t\t\"key2\":true,\n" + "\t\t\t\t\"key3\":2,\n\t\t\t\t\"key4\"" + ":\"hello parser\",\n\t\t\t\t\"ke" + "y5\":[null,true, false, \"" + "key\", \"key\",[1, 2],{\"key" + "\":\"hello\"}],\n\t\t\t\t\"key6\":" + "{\"key7\":\"hello\"}}"
    ensures input[96] == 'y' && input[97] == '5' && input[98] == '"' && input[99] == ':' && input[100] == '[' && input[101] == 'n'
  {
  }

  lemma ObjectTestChars18(input: string)
    requires input == "{\"key\":null,\n\t\t\t\t\"key1\":" + "false,\n\t\t\t\t\"key2\":true,\n" + "\t\t\t\t\"key3\":2,\n\t\t\t\t\"key4\"" + ":\"hello parser\",\n\t\t\t\t\"ke" + "y5\":[null,true, false, \"" + "key\", \"key\",[1, 2],{\"key" + "\":\"hello\"}],\n\t\t\t\t\"key6\":" + "{\"key7\":\"hello\"}}"
    ensures input[102] == 'u' && input[103] == 'l' && input[104] == 'l' && input[105] == ',' && input[106] == 't' && input[107] == 'r'
  {
  }

  predicate ObjectTestGroup3(s: string)
  {
    |s| == 185 &&
    s[72] == ':' && s[73] == '"' && s[74] == 'h' && s[75] == 'e' && s[76] == 'l' && s[77] == 'l' &&
    s[78] == 'o' && s[79] == ' ' && s[80] == 'p' && s[81] == 'a' && s[82] == 'r' && s[83] == 's' &&
    s[84] == 'e' && s[85] == 'r' && s[86] == '"' && s[87] == ',' && s[88] == '\n' && s[89] == '\t' &&
    s[90] == '\t' && s[91] == '\t' && s[92] == '\t' && s[93] == '"' && s[94] == 'k' && s[95] == 'e' &&
    s[96] == 'y' && s[97] == '5' && s[98] == '"' && s[99] == ':' && s[100] == '[' && s[101] == 'n' &&
    s[102] == 'u' && s[103] == 'l' && s[104] == 'l' && s[105] == ',' && s[106] == 't' && s[107] == 'r'
  }

  lemma ObjectTestGroupOf3(input: string)
    requires input == "{\"key\":null,\n\t\t\t\t\"key1\":" + "false,\n\t\t\t\t\"key2\":true,\n" + "\t\t\t\t\"key3\":2,\n\t\t\t\t\"key4\"" + ":\"hello parser\",\n\t\t\t\t\"ke" + "y5\":[null,true, false, \"" + "key\", \"key\",[1, 2],{\"key" + "\":\"hello\"}],\n\t\t\t\t\"key6\":" + "{\"key7\":\"hello\"}}"
    ensures ObjectTestGroup3(input)
  {
    ObjectTestChars13(input);
    ObjectTestChars14(input);
    ObjectTestChars15(input);
    ObjectTestChars16(input);
    ObjectTestChars17(input);
    ObjectTestChars18(input);
  }

  lemma ObjectTestChars19(input: string)
    requires input == "{\"key\":null,\n\t\t\t\t\"key1\":" + "false,\n\t\t\t\t\"key2\":true,\n" + "\t\t\t\t\"key3\":2,\n\t\t\t\t\"key4\"" + ":\"hello parser\",\n\t\t\t\t\"ke" + "y5\":[null,true, false, \"" + "key\", \"key\",[1, 2],{\"key" + "\":\"hello\"}],\n\t\t\t\t\"key6\":" + "{\"key7\":\"hello\"}}"
    ensures input[108] == 'u' && input[109] == 'e' && input[110] == ',' && input[111] == ' ' && input[112] == 'f' && input[113] == 'a'
  {
  }

  lemma ObjectTestChars20(input: string)
    requires input == "{\"key\":null,\n\t\t\t\t\"key1\":" + "false,\n\t\t\t\t\"key2\":true,\n" + "\t\t\t\t\"key3\":2,\n\t\t\t\t\"key4\"" + ":\"hello parser\",\n\t\t\t\t\"ke" + "y5\":[null,true, false, \"" + "key\", \"key\",[1, 2],{\"key" + "\":\"hello\"}],\n\t\t\t\t\"key6\":" + "{\"key7\":\"hello\"}}"
    ensures input[114] == 'l' && input[115] == 's' && input[116] == 'e' && input[117] == ',' && input[118] == ' ' && input[119] == '"'
  {
  }

  lemma ObjectTestChars21(input: string)
    requires input == "{\"key\":null,\n\t\t\t\t\"key1\":" + "false,\n\t\t\t\t\"key2\":true,\n" + "\t\t\t\t\"key3\":2,\n\t\t\t\t\"key4\"" + ":\"hello parser\",\n\t\t\t\t\"ke" + "y5\":[null,true, false, \"" + "key\", \"key\",[1, 2],{\"key" + "\":\"hello\"}],\n\t\t\t\t\"key6\":" + "{\"key7\":\"hello\"}}"
    ensures input[120] == 'k' && input[121] == 'e' && input[122] == 'y' && input[123] == '"' && input[124] == ',' && input[125] == ' '
  {
  }

  lemma ObjectTestChars22(input: string)
    requires input == "{\"key\":null,\n\t\t\t\t\"key1\":" + "false,\n\t\t\t\t\"key2\":true,\n" + "\t\t\t\t\"key3\":2,\n\t\t\t\t\"key4\"" + ":\"hello parser\",\n\t\t\t\t\"ke" + "y5\":[null,true, false, \"" + "key\", \"key\",[1, 2],{\"key" + "\":\"hello\"}],\n\t\t\t\t\"key6\":" + "{\"key7\":\"hello\"}}"
    ensures input[126] == '"' && input[127] == 'k' && input[128] == 'e' && input[129] == 'y' && input[130] == '"' && input[131] == ','
  {
  }

  lemma ObjectTestChars23(input: string)
    requires input == "{\"key\":null,\n\t\t\t\t\"key1\":" + "false,\n\t\t\t\t\"key2\":true,\n" + "\t\t\t\t\"key3\":2,\n\t\t\t\t\"key4\"" + ":\"hello parser\",\n\t\t\t\t\"ke" + "y5\":[null,true, false, \"" + "key\", \"key\",[1, 2],{\"key" + "\":\"hello\"}],\n\t\t\t\t\"key6\":" + "{\"key7\":\"hello\"}}"
    ensures input[132] == '[' && input[133] == '1' && input[134] == ',' && input[135] == ' ' && input[136] == '2' && input[137] == ']'
  {
  }

  lemma ObjectTestChars24(input: string)
    requires input == "{\"key\":null,\n\t\t\t\t\"key1\":" + "false,\n\t\t\t\t\"key2\":true,\n" + "\t\t\t\t\"key3\":2,\n\t\t\t\t\"key4\"" + ":\"hello parser\",\n\t\t\t\t\"ke" + "y5\":[null,true, false, \"" + "key\", \"key\",[1, 2],{\"key" + "\":\"hello\"}],\n\t\t\t\t\"key6\":" + "{\"key7\":\"hello\"}}"
    ensures input[138] == ',' && input[139] == '{' && input[140] == '"' && input[141] == 'k' && input[142] == 'e' && input[143] == 'y'
  {
  }

  predicate ObjectTestGroup4(s: string)
  {
    |s| == 185 &&
    s[108] == 'u' && s[109] == 'e' && s[110] == ',' && s[111] == ' ' && s[112] == 'f' && s[113] == 'a' &&
    s[114] == 'l' && s[115] == 's' && s[116] == 'e' && s[117] == ',' && s[118] == ' ' && s[119] == '"' &&
    s[120] == 'k' && s[121] == 'e' && s[122] == 'y' && s[123] == '"' && s[124] == ',' && s[125] == ' ' &&
    s[126] == '"' && s[127] == 'k' && s[128] == 'e' && s[129] == 'y' && s[130] == '"' && s[131] == ',' &&
    s[132] == '[' && s[133] == '1' && s[134] == ',' && s[135] == ' ' && s[136] == '2' && s[137] == ']' &&
    s[138] == ',' && s[139] == '{' && s[140] == '"' && s[141] == 'k' && s[142] == 'e' && s[143] == 'y'
  }

  lemma ObjectTestGroupOf4(input: string)
    requires input == "{\"key\":null,\n\t\t\t\t\"key1\":" + "false,\n\t\t\t\t\"key2\":true,\n" + "\t\t\t\t\"key3\":2,\n\t\t\t\t\"key4\"" + ":\"hello parser\",\n\t\t\t\t\"ke" + "y5\":[null,true, false, \"" + "key\", \"key\",[1, 2],{\"key" + "\":\"hello\"}],\n\t\t\t\t\"key6\":" + "{\"key7\":\"hello\"}}"
    ensures ObjectTestGroup4(input)
  {
    ObjectTestChars19(input);
    ObjectTestChars20(input);
    ObjectTestChars21(input);
    ObjectTestChars22(input);
    ObjectTestChars23(input);
    ObjectTestChars24(input);
  }

  lemma ObjectTestChars25(input: string)
    requires input == "{\"key\":null,\n\t\t\t\t\"key1\":" + "false,\n\t\t\t\t\"key2\":true,\n" + "\t\t\t\t\"key3\":2,\n\t\t\t\t\"key4\"" + ":\"hello parser\",\n\t\t\t\t\"ke" + "y5\":[null,true, false, \"" + "key\", \"key\",[1, 2],{\"key" + "\":\"hello\"}],\n\t\t\t\t\"key6\":" + "{\"key7\":\"hello\"}}"
    ensures input[144] == '"' && input[145] == ':' && input[146] == '"' && input[147] == 'h' && input[148] == 'e' && input[149] == 'l'
  {
  }

  lemma ObjectTestChars26(input: string)
    requires input == "{\"key\":null,\n\t\t\t\t\"key1\":" + "false,\n\t\t\t\t\"key2\":true,\n" + "\t\t\t\t\"key3\":2,\n\t\t\t\t\"key4\"" + ":\"hello parser\",\n\t\t\t\t\"ke" + "y5\":[null,true, false, \"" + "key\", \"key\",[1, 2],{\"key" + "\":\"hello\"}],\n\t\t\t\t\"key6\":" + "{\"key7\":\"hello\"}}"
    ensures input[150] == 'l' && input[151] == 'o' && input[152] == '"' && input[153] == '}' && input[154] == ']' && input[155] == ','
  {
  }

  lemma ObjectTestChars27(input: string)
    requires input == "{\"key\":null,\n\t\t\t\t\"key1\":" + "false,\n\t\t\t\t\"key2\":true,\n" + "\t\t\t\t\"key3\":2,\n\t\t\t\t\"key4\"" + ":\"hello parser\",\n\t\t\t\t\"ke" + "y5\":[null,true, false, \"" + "key\", \"key\",[1, 2],{\"key" + "\":\"hello\"}],\n\t\t\t\t\"key6\":" + "{\"key7\":\"hello\"}}"
    ensures input[156] == '\n' && input[157] == '\t' && input[158] == '\t' && input[159] == '\t' && input[160] == '\t' && input[161] == '"'
  {
  }

  lemma ObjectTestChars28(input: string)
    requires input == "{\"key\":null,\n\t\t\t\t\"key1\":" + "false,\n\t\t\t\t\"key2\":true,\n" + "\t\t\t\t\"key3\":2,\n\t\t\t\t\"key4\"" + ":\"hello parser\",\n\t\t\t\t\"ke" + "y5\":[null,true, false, \"" + "key\", \"key\",[1, 2],{\"key" + "\":\"hello\"}],\n\t\t\t\t\"key6\":" + "{\"key7\":\"hello\"}}"
    ensures input[162] == 'k' && input[163] == 'e' && input[164] == 'y' && input[165] == '6' && input[166] == '"' && input[167] == ':'
  {
  }

  lemma ObjectTestChars29(input: string)
    requires input == "{\"key\":null,\n\t\t\t\t\"key1\":" + "false,\n\t\t\t\t\"key2\":true,\n" + "\t\t\t\t\"key3\":2,\n\t\t\t\t\"key4\"" + ":\"hello parser\",\n\t\t\t\t\"ke" + "y5\":[null,true, false, \"" + "key\", \"key\",[1, 2],{\"key" + "\":\"hello\"}],\n\t\t\t\t\"key6\":" + "{\"key7\":\"hello\"}}"
    ensures input[168] == '{' && input[169] == '"' && input[170] == 'k' && input[171] == 'e' && input[172] == 'y' && input[173] == '7'
  {
  }

  lemma ObjectTestChars30(input: string)
    requires input == "{\"key\":null,\n\t\t\t\t\"key1\":" + "false,\n\t\t\t\t\"key2\":true,\n" + "\t\t\t\t\"key3\":2,\n\t\t\t\t\"key4\"" + ":\"hello parser\",\n\t\t\t\t\"ke" + "y5\":[null,true, false, \"" + "key\", \"key\",[1, 2],{\"key" + "\":\"hello\"}],\n\t\t\t\t\"key6\":" + "{\"key7\":\"hello\"}}"
    ensures input[174] == '"' && input[175] == ':' && input[176] == '"' && input[177] == 'h' && input[178] == 'e' && input[179] == 'l'
  {
  }

  predicate ObjectTestGroup5(s: string)
  {
    |s| == 185 &&
    s[144] == '"' && s[145] == ':' && s[146] == '"' && s[147] == 'h' && s[148] == 'e' && s[149] == 'l' &&
    s[150] == 'l' && s[151] == 'o' && s[152] == '"' && s[153] == '}' && s[154] == ']' && s[155] == ',' &&
    s[156] == '\n' && s[157] == '\t' && s[158] == '\t' && s[159] == '\t' && s[160] == '\t' && s[161] == '"' &&
    s[162] == 'k' && s[163] == 'e' && s[164] == 'y' && s[165] == '6' && s[166] == '"' && s[167] == ':' &&
    s[168] == '{' && s[169] == '"' && s[170] == 'k' && s[171] == 'e' && s[172] == 'y' && s[173] == '7' &&
    s[174] == '"' && s[175] == ':' && s[176] == '"' && s[177] == 'h' && s[178] == 'e' && s[179] == 'l'
  }

  lemma ObjectTestGroupOf5(input: string)
    requires input == "{\"key\":null,\n\t\t\t\t\"key1\":" + "false,\n\t\t\t\t\"key2\":true,\n" + "\t\t\t\t\"key3\":2,\n\t\t\t\t\"key4\"" + ":\"hello parser\",\n\t\t\t\t\"ke" + "y5\":[null,true, false, \"" + "key\", \"key\",[1, 2],{\"key" + "\":\"hello\"}],\n\t\t\t\t\"key6\":" + "{\"key7\":\"hello\"}}"
    ensures ObjectTestGroup5(input)
  {
    ObjectTestChars25(input);
    ObjectTestChars26(input);
    ObjectTestChars27(input);
    ObjectTestChars28(input);
    ObjectTestChars29(input);
    ObjectTestChars30(input);
  }

  lemma ObjectTestChars31(input: string)
    requires input == "{\"key\":null,\n\t\t\t\t\"key1\":" + "false,\n\t\t\t\t\"key2\":true,\n" + "\t\t\t\t\"key3\":2,\n\t\t\t\t\"key4\"" + ":\"hello parser\",\n\t\t\t\t\"ke" + "y5\":[null,true, false, \"" + "key\", \"key\",[1, 2],{\"key" + "\":\"hello\"}],\n\t\t\t\t\"key6\":" + "{\"key7\":\"hello\"}}"
    ensures input[180] == 'l' && input[181] == 'o' && input[182] == '"' && input[183] == '}' && input[184] == '}'
  {
  }

  predicate ObjectTestGroup6(s: string)
  {
    |s| == 185 &&
    s[180] == 'l' && s[181] == 'o' && s[182] == '"' && s[183] == '}' && s[184] == '}'
  }

  lemma ObjectTestGroupOf6(input: string)
    requires input == "{\"key\":null,\n\t\t\t\t\"key1\":" + "false,\n\t\t\t\t\"key2\":true,\n" + "\t\t\t\t\"key3\":2,\n\t\t\t\t\"key4\"" + ":\"hello parser\",\n\t\t\t\t\"ke" + "y5\":[null,true, false, \"" + "key\", \"key\",[1, 2],{\"key" + "\":\"hello\"}],\n\t\t\t\t\"key6\":" + "{\"key7\":\"hello\"}}"
    ensures ObjectTestGroup6(input)
  {
    ObjectTestChars31(input);
  }

  lemma ObjectTestCharsOf(input: string)
    requires input == "{\"key\":null,\n\t\t\t\t\"key1\":" + "false,\n\t\t\t\t\"key2\":true,\n" + "\t\t\t\t\"key3\":2,\n\t\t\t\t\"key4\"" + ":\"hello parser\",\n\t\t\t\t\"ke" + "y5\":[null,true, false, \"" + "key\", \"key\",[1, 2],{\"key" + "\":\"hello\"}],\n\t\t\t\t\"key6\":" + "{\"key7\":\"hello\"}}"
    ensures ObjectTestChars(input)
  {
    ObjectTestGroupOf1(input);
    ObjectTestGroupOf2(input);
    ObjectTestGroupOf3(input);
    ObjectTestGroupOf4(input);
    ObjectTestGroupOf5(input);
    ObjectTestGroupOf6(input);
  }

  lemma ObjectTestToken1(input: string)
    requires |input| == 185
    requires input[0] == '{' && input[1] == '"'
    ensures Next(input, Lexer(0, "", 1, None)) == (Token(TokenLBrace, "{"), Lexer(1, "", 1, None))
  {
    assert input[0] == '{';
    assert Next(input, Lexer(0, "", 1, None)) == (Token(TokenLBrace, "{"), Lexer(1, "", 1, None));
  }

  lemma ObjectTestToken2(input: string)
    requires |input| == 185
    requires input[1] == '"' && input[2] == 'k' && input[3] == 'e' && input[4] == 'y' && input[5] == '"' && input[6] == ':'
    ensures Next(input, Lexer(1, "", 1, None)) == (Token(TokenString, "key"), Lexer(6, "key", 1, None))
  {
    assert StringBody(input, 5, "key") == Scan(Done, 6, "key");
    assert "ke" + [input[4]] == "key";
    assert StringBody(input, 4, "ke") == Scan(Done, 6, "key");
    assert "k" + [input[3]] == "ke";
    assert StringBody(input, 3, "k") == Scan(Done, 6, "key");
    assert "" + [input[2]] == "k";
    assert StringBody(input, 2, []) == Scan(Done, 6, "key");
    assert input[1] == '"';
    assert Next(input, Lexer(1, "", 1, None)) == (Token(TokenString, "key"), Lexer(6, "key", 1, None));
  }

  lemma ObjectTestToken3(input: string)
    requires |input| == 185
    requires input[6] == ':' && input[7] == 'n'
    ensures Next(input, Lexer(6, "key", 1, None)) == (Token(TokenColon, ":"), Lexer(7, "key", 1, None))
  {
    assert input[6] == ':';
    assert Next(input, Lexer(6, "key", 1, None)) == (Token(TokenColon, ":"), Lexer(7, "key", 1, None));
  }

  lemma ObjectTestToken4(input: string)
    requires |input| == 185
    requires input[7] == 'n' && input[8] == 'u' && input[9] == 'l' && input[10] == 'l' && input[11] == ','
    ensures Next(input, Lexer(7, "key", 1, None)) == (Token(TokenNull, "null"), Lexer(11, "null", 1, None))
  {
    assert IdentRun(input, 11, "null") == Scan(Done, 11, "null");
    assert "nul" + [input[10]] == "null";
    assert IdentRun(input, 10, "nul") == Scan(Done, 11, "null");
    assert "nu" + [input[9]] == "nul";
    assert IdentRun(input, 9, "nu") == Scan(Done, 11, "null");
    assert "n" + [input[8]] == "nu";
    assert IdentRun(input, 8, "n") == Scan(Done, 11, "null");
    assert "" + [input[7]] == "n";
    assert IdentRun(input, 7, []) == Scan(Done, 11, "null");
    assert input[7] == 'n';
    assert Next(input, Lexer(7, "key", 1, None)) == (Token(TokenNull, "null"), Lexer(11, "null", 1, None));
  }

  lemma ObjectTestToken5(input: string)
    requires |input| == 185
    requires input[11] == ',' && input[12] == '\n'
    ensures Next(input, Lexer(11, "null", 1, None)) == (Token(TokenComma, ","), Lexer(12, "null", 1, None))
  {
    assert input[11] == ',';
    assert Next(input, Lexer(11, "null", 1, None)) == (Token(TokenComma, ","), Lexer(12, "null", 1, None));
  }

  lemma ObjectTestToken6(input: string)
    requires |input| == 185
    requires input[12] == '\n' && input[13] == '\t' && input[14] == '\t' && input[15] == '\t' && input[16] == '\t' && input[17] == '"' &&
      input[18] == 'k' && input[19] == 'e' && input[20] == 'y' && input[21] == '1' && input[22] == '"' && input[23] == ':'
    ensures Next(input, Lexer(12, "null", 1, None)) == (Token(TokenString, "key1"), Lexer(23, "key1", 2, None))
  {
    assert StringBody(input, 22, "key1") == Scan(Done, 23, "key1");
    assert "key" + [input[21]] == "key1";
    assert StringBody(input, 21, "key") == Scan(Done, 23, "key1");
    assert "ke" + [input[20]] == "key";
    assert StringBody(input, 20, "ke") == Scan(Done, 23, "key1");
    assert "k" + [input[19]] == "ke";
    assert StringBody(input, 19, "k") == Scan(Done, 23, "key1");
    assert "" + [input[18]] == "k";
    assert StringBody(input, 18, []) == Scan(Done, 23, "key1");
    assert input[17] == '"';
    assert Next(input, Lexer(17, "null", 2, None)) == (Token(TokenString, "key1"), Lexer(23, "key1", 2, None));
    assert Next(input, Lexer(16, "null", 2, None)) == (Token(TokenString, "key1"), Lexer(23, "key1", 2, None));
    assert Next(input, Lexer(15, "null", 2, None)) == (Token(TokenString, "key1"), Lexer(23, "key1", 2, None));
    assert Next(input, Lexer(14, "null", 2, None)) == (Token(TokenString, "key1"), Lexer(23, "key1", 2, None));
    assert Next(input, Lexer(13, "null", 2, None)) == (Token(TokenString, "key1"), Lexer(23, "key1", 2, None));
    assert Next(input, Lexer(12, "null", 1, None)) == (Token(TokenString, "key1"), Lexer(23, "key1", 2, None));
  }

  lemma ObjectTestToken7(input: string)
    requires |input| == 185
    requires input[23] == ':' && input[24] == 'f'
    ensures Next(input, Lexer(23, "key1", 2, None)) == (Token(TokenColon, ":"), Lexer(24, "key1", 2, None))
  {
    assert input[23] == ':';
    assert Next(input, Lexer(23, "key1", 2, None)) == (Token(TokenColon, ":"), Lexer(24, "key1", 2, None));
  }

  lemma ObjectTestToken8(input: string)
    requires |input| == 185
    requires input[24] == 'f' && input[25] == 'a' && input[26] == 'l' && input[27] == 's' && input[28] == 'e' && input[29] == ','
    ensures Next(input, Lexer(24, "key1", 2, None)) == (Token(TokenFalse, "false"), Lexer(29, "false", 2, None))
  {
    assert IdentRun(input, 29, "false") == Scan(Done, 29, "false");
    assert "fals" + [input[28]] == "false";
    assert IdentRun(input, 28, "fals") == Scan(Done, 29, "false");
    assert "fal" + [input[27]] == "fals";
    assert IdentRun(input, 27, "fal") == Scan(Done, 29, "false");
    assert "fa" + [input[26]] == "fal";
    assert IdentRun(input, 26, "fa") == Scan(Done, 29, "false");
    assert "f" + [input[25]] == "fa";
    assert IdentRun(input, 25, "f") == Scan(Done, 29, "false");
    assert "" + [input[24]] == "f";
    assert IdentRun(input, 24, []) == Scan(Done, 29, "false");
    assert input[24] == 'f';
    assert Next(input, Lexer(24, "key1", 2, None)) == (Token(TokenFalse, "false"), Lexer(29, "false", 2, None));
  }

  lemma ObjectTestToken9(input: string)
    requires |input| == 185
    requires input[29] == ',' && input[30] == '\n'
    ensures Next(input, Lexer(29, "false", 2, None)) == (Token(TokenComma, ","), Lexer(30, "false", 2, None))
  {
    assert input[29] == ',';
    assert Next(input, Lexer(29, "false", 2, None)) == (Token(TokenComma, ","), Lexer(30, "false", 2, None));
  }

  lemma ObjectTestToken10(input: string)
    requires |input| == 185
    requires input[30] == '\n' && input[31] == '\t' && input[32] == '\t' && input[33] == '\t' && input[34] == '\t' && input[35] == '"' &&
      input[36] == 'k' && input[37] == 'e' && input[38] == 'y' && input[39] == '2' && input[40] == '"' && input[41] == ':'
    ensures Next(input, Lexer(30, "false", 2, None)) == (Token(TokenString, "key2"), Lexer(41, "key2", 3, None))
  {
    assert StringBody(input, 40, "key2") == Scan(Done, 41, "key2");
    assert "key" + [input[39]] == "key2";
    assert StringBody(input, 39, "key") == Scan(Done, 41, "key2");
    assert "ke" + [input[38]] == "key";
    assert StringBody(input, 38, "ke") == Scan(Done, 41, "key2");
    assert "k" + [input[37]] == "ke";
    assert StringBody(input, 37, "k") == Scan(Done, 41, "key2");
    assert "" + [input[36]] == "k";
    assert StringBody(input, 36, []) == Scan(Done, 41, "key2");
    assert input[35] == '"';
    assert Next(input, Lexer(35, "false", 3, None)) == (Token(TokenString, "key2"), Lexer(41, "key2", 3, None));
    assert Next(input, Lexer(34, "false", 3, None)) == (Token(TokenString, "key2"), Lexer(41, "key2", 3, None));
    assert Next(input, Lexer(33, "false", 3, None)) == (Token(TokenString, "key2"), Lexer(41, "key2", 3, None));
    assert Next(input, Lexer(32, "false", 3, None)) == (Token(TokenString, "key2"), Lexer(41, "key2", 3, None));
    assert Next(input, Lexer(31, "false", 3, None)) == (Token(TokenString, "key2"), Lexer(41, "key2", 3, None));
    assert Next(input, Lexer(30, "false", 2, None)) == (Token(TokenString, "key2"), Lexer(41, "key2", 3, None));
  }

  lemma ObjectTestToken11(input: string)
    requires |input| == 185
    requires input[41] == ':' && input[42] == 't'
    ensures Next(input, Lexer(41, "key2", 3, None)) == (Token(TokenColon, ":"), Lexer(42, "key2", 3, None))
  {
    assert input[41] == ':';
    assert Next(input, Lexer(41, "key2", 3, None)) == (Token(TokenColon, ":"), Lexer(42, "key2", 3, None));
  }

  lemma ObjectTestToken12(input: string)
    requires |input| == 185
    requires input[42] == 't' && input[43] == 'r' && input[44] == 'u' && input[45] == 'e' && input[46] == ','
    ensures Next(input, Lexer(42, "key2", 3, None)) == (Token(TokenTrue, "true"), Lexer(46, "true", 3, None))
  {
    assert IdentRun(input, 46, "true") == Scan(Done, 46, "true");
    assert "tru" + [input[45]] == "true";
    assert IdentRun(input, 45, "tru") == Scan(Done, 46, "true");
    assert "tr" + [input[44]] == "tru";
    assert IdentRun(input, 44, "tr") == Scan(Done, 46, "true");
    assert "t" + [input[43]] == "tr";
    assert IdentRun(input, 43, "t") == Scan(Done, 46, "true");
    assert "" + [input[42]] == "t";
    assert IdentRun(input, 42, []) == Scan(Done, 46, "true");
    assert input[42] == 't';
    assert Next(input, Lexer(42, "key2", 3, None)) == (Token(TokenTrue, "true"), Lexer(46, "true", 3, None));
  }

  lemma ObjectTestToken13(input: string)
    requires |input| == 185
    requires input[46] == ',' && input[47] == '\n'
    ensures Next(input, Lexer(46, "true", 3, None)) == (Token(TokenComma, ","), Lexer(47, "true", 3, None))
  {
    assert input[46] == ',';
    assert Next(input, Lexer(46, "true", 3, None)) == (Token(TokenComma, ","), Lexer(47, "true", 3, None));
  }

  lemma ObjectTestToken14(input: string)
    requires |input| == 185
    requires input[47] == '\n' && input[48] == '\t' && input[49] == '\t' && input[50] == '\t' && input[51] == '\t' && input[52] == '"' &&
      input[53] == 'k' && input[54] == 'e' && input[55] == 'y' && input[56] == '3' && input[57] == '"' && input[58] == ':'
    ensures Next(input, Lexer(47, "true", 3, None)) == (Token(TokenString, "key3"), Lexer(58, "key3", 4, None))
  {
    assert StringBody(input, 57, "key3") == Scan(Done, 58, "key3");
    assert "key" + [input[56]] == "key3";
    assert StringBody(input, 56, "key") == Scan(Done, 58, "key3");
    assert "ke" + [input[55]] == "key";
    assert StringBody(input, 55, "ke") == Scan(Done, 58, "key3");
    assert "k" + [input[54]] == "ke";
    assert StringBody(input, 54, "k") == Scan(Done, 58, "key3");
    assert "" + [input[53]] == "k";
    assert StringBody(input, 53, []) == Scan(Done, 58, "key3");
    assert input[52] == '"';
    assert Next(input, Lexer(52, "true", 4, None)) == (Token(TokenString, "key3"), Lexer(58, "key3", 4, None));
    assert Next(input, Lexer(51, "true", 4, None)) == (Token(TokenString, "key3"), Lexer(58, "key3", 4, None));
    assert Next(input, Lexer(50, "true", 4, None)) == (Token(TokenString, "key3"), Lexer(58, "key3", 4, None));
    assert Next(input, Lexer(49, "true", 4, None)) == (Token(TokenString, "key3"), Lexer(58, "key3", 4, None));
    assert Next(input, Lexer(48, "true", 4, None)) == (Token(TokenString, "key3"), Lexer(58, "key3", 4, None));
    assert Next(input, Lexer(47, "true", 3, None)) == (Token(TokenString, "key3"), Lexer(58, "key3", 4, None));
  }

  lemma ObjectTestToken15(input: string)
    requires |input| == 185
    requires input[58] == ':' && input[59] == '2'
    ensures Next(input, Lexer(58, "key3", 4, None)) == (Token(TokenColon, ":"), Lexer(59, "key3", 4, None))
  {
    assert input[58] == ':';
    assert Next(input, Lexer(58, "key3", 4, None)) == (Token(TokenColon, ":"), Lexer(59, "key3", 4, None));
  }

  lemma ObjectTestToken16(input: string)
    requires |input| == 185
    requires input[59] == '2' && input[60] == ','
    ensures Next(input, Lexer(59, "key3", 4, None)) == (Token(TokenNumber, "2"), Lexer(60, "2", 4, None))
  {
    assert NumberRun(input, 60, "2") == Scan(Done, 60, "2");
    assert "" + [input[59]] == "2";
    assert NumberRun(input, 59, []) == Scan(Done, 60, "2");
    assert input[59] == '2';
    DigitStartsNumber(input, Lexer(59, "key3", 4, None), 60, "2");
  }

  lemma ObjectTestToken17(input: string)
    requires |input| == 185
    requires input[60] == ',' && input[61] == '\n'
    ensures Next(input, Lexer(60, "2", 4, None)) == (Token(TokenComma, ","), Lexer(61, "2", 4, None))
  {
    assert input[60] == ',';
    assert Next(input, Lexer(60, "2", 4, None)) == (Token(TokenComma, ","), Lexer(61, "2", 4, None));
  }

  lemma ObjectTestToken18(input: string)
    requires |input| == 185
    requires input[61] == '\n' && input[62] == '\t' && input[63] == '\t' && input[64] == '\t' && input[65] == '\t' && input[66] == '"' &&
      input[67] == 'k' && input[68] == 'e' && input[69] == 'y' && input[70] == '4' && input[71] == '"' && input[72] == ':'
    ensures Next(input, Lexer(61, "2", 4, None)) == (Token(TokenString, "key4"), Lexer(72, "key4", 5, None))
  {
    assert StringBody(input, 71, "key4") == Scan(Done, 72, "key4");
    assert "key" + [input[70]] == "key4";
    assert StringBody(input, 70, "key") == Scan(Done, 72, "key4");
    assert "ke" + [input[69]] == "key";
    assert StringBody(input, 69, "ke") == Scan(Done, 72, "key4");
    assert "k" + [input[68]] == "ke";
    assert StringBody(input, 68, "k") == Scan(Done, 72, "key4");
    assert "" + [input[67]] == "k";
    assert StringBody(input, 67, []) == Scan(Done, 72, "key4");
    assert input[66] == '"';
    assert Next(input, Lexer(66, "2", 5, None)) == (Token(TokenString, "key4"), Lexer(72, "key4", 5, None));
    assert Next(input, Lexer(65, "2", 5, None)) == (Token(TokenString, "key4"), Lexer(72, "key4", 5, None));
    assert Next(input, Lexer(64, "2", 5, None)) == (Token(TokenString, "key4"), Lexer(72, "key4", 5, None));
    assert Next(input, Lexer(63, "2", 5, None)) == (Token(TokenString, "key4"), Lexer(72, "key4", 5, None));
    assert Next(input, Lexer(62, "2", 5, None)) == (Token(TokenString, "key4"), Lexer(72, "key4", 5, None));
    assert Next(input, Lexer(61, "2", 4, None)) == (Token(TokenString, "key4"), Lexer(72, "key4", 5, None));
  }

  lemma ObjectTestToken19(input: string)
    requires |input| == 185
    requires input[72] == ':' && input[73] == '"'
    ensures Next(input, Lexer(72, "key4", 5, None)) == (Token(TokenColon, ":"), Lexer(73, "key4", 5, None))
  {
    assert input[72] == ':';
    assert Next(input, Lexer(72, "key4", 5, None)) == (Token(TokenColon, ":"), Lexer(73, "key4", 5, None));
  }

  lemma ObjectTestString21(input: string)
    requires |input| == 185
    requires input[80] == 'p' && input[81] == 'a' && input[82] == 'r' && input[83] == 's' && input[84] == 'e' && input[85] == 'r' &&
      input[86] == '"' && input[87] == ','
    ensures StringBody(input, 80, "hello ") == Scan(Done, 87, "hello parser")
  {
    assert StringBody(input, 86, "hello parser") == Scan(Done, 87, "hello parser");
    assert "hello parse" + [input[85]] == "hello parser";
    assert StringBody(input, 85, "hello parse") == Scan(Done, 87, "hello parser");
    assert "hello pars" + [input[84]] == "hello parse";
    assert StringBody(input, 84, "hello pars") == Scan(Done, 87, "hello parser");
    assert "hello par" + [input[83]] == "hello pars";
    assert StringBody(input, 83, "hello par") == Scan(Done, 87, "hello parser");
    assert "hello pa" + [input[82]] == "hello par";
    assert StringBody(input, 82, "hello pa") == Scan(Done, 87, "hello parser");
    assert "hello p" + [input[81]] == "hello pa";
    assert StringBody(input, 81, "hello p") == Scan(Done, 87, "hello parser");
    assert "hello " + [input[80]] == "hello p";
    assert StringBody(input, 80, "hello ") == Scan(Done, 87, "hello parser");
  }

  lemma ObjectTestToken20(input: string)
    requires |input| == 185
    requires input[73] == '"' && input[74] == 'h' && input[75] == 'e' && input[76] == 'l' && input[77] == 'l' && input[78] == 'o' &&
      input[79] == ' ' && input[80] == 'p' && input[81] == 'a' && input[82] == 'r' && input[83] == 's' && input[84] == 'e' &&
      input[85] == 'r' && input[86] == '"' && input[87] == ','
    ensures Next(input, Lexer(73, "key4", 5, None)) == (Token(TokenString, "hello parser"), Lexer(87, "hello parser", 5, None))
  {
    ObjectTestString21(input);
    assert "hello" + [input[79]] == "hello ";
    assert StringBody(input, 79, "hello") == Scan(Done, 87, "hello parser");
    assert "hell" + [input[78]] == "hello";
    assert StringBody(input, 78, "hell") == Scan(Done, 87, "hello parser");
    assert "hel" + [input[77]] == "hell";
    assert StringBody(input, 77, "hel") == Scan(Done, 87, "hello parser");
    assert "he" + [input[76]] == "hel";
    assert StringBody(input, 76, "he") == Scan(Done, 87, "hello parser");
    assert "h" + [input[75]] == "he";
    assert StringBody(input, 75, "h") == Scan(Done, 87, "hello parser");
    assert "" + [input[74]] == "h";
    assert StringBody(input, 74, []) == Scan(Done, 87, "hello parser");
    assert input[73] == '"';
    assert Next(input, Lexer(73, "key4", 5, None)) == (Token(TokenString, "hello parser"), Lexer(87, "hello parser", 5, None));
  }

  lemma ObjectTestToken22(input: string)
    requires |input| == 185
    requires input[87] == ',' && input[88] == '\n'
    ensures Next(input, Lexer(87, "hello parser", 5, None)) == (Token(TokenComma, ","), Lexer(88, "hello parser", 5, None))
  {
    assert input[87] == ',';
    assert Next(input, Lexer(87, "hello parser", 5, None)) == (Token(TokenComma, ","), Lexer(88, "hello parser", 5, None));
  }

  lemma ObjectTestToken23(input: string)
    requires |input| == 185
    requires input[88] == '\n' && input[89] == '\t' && input[90] == '\t' && input[91] == '\t' && input[92] == '\t' && input[93] == '"' &&
      input[94] == 'k' && input[95] == 'e' && input[96] == 'y' && input[97] == '5' && input[98] == '"' && input[99] == ':'
    ensures Next(input, Lexer(88, "hello parser", 5, None)) == (Token(TokenString, "key5"), Lexer(99, "key5", 6, None))
  {
    assert StringBody(input, 98, "key5") == Scan(Done, 99, "key5");
    assert "key" + [input[97]] == "key5";
    assert StringBody(input, 97, "key") == Scan(Done, 99, "key5");
    assert "ke" + [input[96]] == "key";
    assert StringBody(input, 96, "ke") == Scan(Done, 99, "key5");
    assert "k" + [input[95]] == "ke";
    assert StringBody(input, 95, "k") == Scan(Done, 99, "key5");
    assert "" + [input[94]] == "k";
    assert StringBody(input, 94, []) == Scan(Done, 99, "key5");
    assert input[93] == '"';
    assert Next(input, Lexer(93, "hello parser", 6, None)) == (Token(TokenString, "key5"), Lexer(99, "key5", 6, None));
    assert Next(input, Lexer(92, "hello parser", 6, None)) == (Token(TokenString, "key5"), Lexer(99, "key5", 6, None));
    assert Next(input, Lexer(91, "hello parser", 6, None)) == (Token(TokenString, "key5"), Lexer(99, "key5", 6, None));
    assert Next(input, Lexer(90, "hello parser", 6, None)) == (Token(TokenString, "key5"), Lexer(99, "key5", 6, None));
    assert Next(input, Lexer(89, "hello parser", 6, None)) == (Token(TokenString, "key5"), Lexer(99, "key5", 6, None));
    assert Next(input, Lexer(88, "hello parser", 5, None)) == (Token(TokenString, "key5"), Lexer(99, "key5", 6, None));
  }

  lemma ObjectTestToken24(input: string)
    requires |input| == 185
    requires input[99] == ':' && input[100] == '['
    ensures Next(input, Lexer(99, "key5", 6, None)) == (Token(TokenColon, ":"), Lexer(100, "key5", 6, None))
  {
    assert input[99] == ':';
    assert Next(input, Lexer(99, "key5", 6, None)) == (Token(TokenColon, ":"), Lexer(100, "key5", 6, None));
  }

  lemma ObjectTestToken25(input: string)
    requires |input| == 185
    requires input[100] == '[' && input[101] == 'n'
    ensures Next(input, Lexer(100, "key5", 6, None)) == (Token(TokenLBracket, "["), Lexer(101, "key5", 6, None))
  {
    assert input[100] == '[';
    assert Next(input, Lexer(100, "key5", 6, None)) == (Token(TokenLBracket, "["), Lexer(101, "key5", 6, None));
  }

  lemma ObjectTestToken26(input: string)
    requires |input| == 185
    requires input[101] == 'n' && input[102] == 'u' && input[103] == 'l' && input[104] == 'l' && input[105] == ','
    ensures Next(input, Lexer(101, "key5", 6, None)) == (Token(TokenNull, "null"), Lexer(105, "null", 6, None))
  {
    assert IdentRun(input, 105, "null") == Scan(Done, 105, "null");
    assert "nul" + [input[104]] == "null";
    assert IdentRun(input, 104, "nul") == Scan(Done, 105, "null");
    assert "nu" + [input[103]] == "nul";
    assert IdentRun(input, 103, "nu") == Scan(Done, 105, "null");
    assert "n" + [input[102]] == "nu";
    assert IdentRun(input, 102, "n") == Scan(Done, 105, "null");
    assert "" + [input[101]] == "n";
    assert IdentRun(input, 101, []) == Scan(Done, 105, "null");
    assert input[101] == 'n';
    assert Next(input, Lexer(101, "key5", 6, None)) == (Token(TokenNull, "null"), Lexer(105, "null", 6, None));
  }

  lemma ObjectTestToken27(input: string)
    requires |input| == 185
    requires input[105] == ',' && input[106] == 't'
    ensures Next(input, Lexer(105, "null", 6, None)) == (Token(TokenComma, ","), Lexer(106, "null", 6, None))
  {
    assert input[105] == ',';
    assert Next(input, Lexer(105, "null", 6, None)) == (Token(TokenComma, ","), Lexer(106, "null", 6, None));
  }

  lemma ObjectTestToken28(input: string)
    requires |input| == 185
    requires input[106] == 't' && input[107] == 'r' && input[108] == 'u' && input[109] == 'e' && input[110] == ','
    ensures Next(input, Lexer(106, "null", 6, None)) == (Token(TokenTrue, "true"), Lexer(110, "true", 6, None))
  {
    assert IdentRun(input, 110, "true") == Scan(Done, 110, "true");
    assert "tru" + [input[109]] == "true";
    assert IdentRun(input, 109, "tru") == Scan(Done, 110, "true");
    assert "tr" + [input[108]] == "tru";
    assert IdentRun(input, 108, "tr") == Scan(Done, 110, "true");
    assert "t" + [input[107]] == "tr";
    assert IdentRun(input, 107, "t") == Scan(Done, 110, "true");
    assert "" + [input[106]] == "t";
    assert IdentRun(input, 106, []) == Scan(Done, 110, "true");
    assert input[106] == 't';
    assert Next(input, Lexer(106, "null", 6, None)) == (Token(TokenTrue, "true"), Lexer(110, "true", 6, None));
  }

  lemma ObjectTestToken29(input: string)
    requires |input| == 185
    requires input[110] == ',' && input[111] == ' '
    ensures Next(input, Lexer(110, "true", 6, None)) == (Token(TokenComma, ","), Lexer(111, "true", 6, None))
  {
    assert input[110] == ',';
    assert Next(input, Lexer(110, "true", 6, None)) == (Token(TokenComma, ","), Lexer(111, "true", 6, None));
  }

  lemma ObjectTestToken30(input: string)
    requires |input| == 185
    requires input[111] == ' ' && input[112] == 'f' && input[113] == 'a' && input[114] == 'l' && input[115] == 's' && input[116] == 'e' &&
      input[117] == ','
    ensures Next(input, Lexer(111, "true", 6, None)) == (Token(TokenFalse, "false"), Lexer(117, "false", 6, None))
  {
    assert IdentRun(input, 117, "false") == Scan(Done, 117, "false");
    assert "fals" + [input[116]] == "false";
    assert IdentRun(input, 116, "fals") == Scan(Done, 117, "false");
    assert "fal" + [input[115]] == "fals";
    assert IdentRun(input, 115, "fal") == Scan(Done, 117, "false");
    assert "fa" + [input[114]] == "fal";
    assert IdentRun(input, 114, "fa") == Scan(Done, 117, "false");
    assert "f" + [input[113]] == "fa";
    assert IdentRun(input, 113, "f") == Scan(Done, 117, "false");
    assert "" + [input[112]] == "f";
    assert IdentRun(input, 112, []) == Scan(Done, 117, "false");
    assert input[112] == 'f';
    assert Next(input, Lexer(112, "true", 6, None)) == (Token(TokenFalse, "false"), Lexer(117, "false", 6, None));
    assert Next(input, Lexer(111, "true", 6, None)) == (Token(TokenFalse, "false"), Lexer(117, "false", 6, None));
  }

  lemma ObjectTestToken31(input: string)
    requires |input| == 185
    requires input[117] == ',' && input[118] == ' '
    ensures Next(input, Lexer(117, "false", 6, None)) == (Token(TokenComma, ","), Lexer(118, "false", 6, None))
  {
    assert input[117] == ',';
    assert Next(input, Lexer(117, "false", 6, None)) == (Token(TokenComma, ","), Lexer(118, "false", 6, None));
  }

  lemma ObjectTestToken32(input: string)
    requires |input| == 185
    requires input[118] == ' ' && input[119] == '"' && input[120] == 'k' && input[121] == 'e' && input[122] == 'y' && input[123] == '"' &&
      input[124] == ','
    ensures Next(input, Lexer(118, "false", 6, None)) == (Token(TokenString, "key"), Lexer(124, "key", 6, None))
  {
    assert StringBody(input, 123, "key") == Scan(Done, 124, "key");
    assert "ke" + [input[122]] == "key";
    assert StringBody(input, 122, "ke") == Scan(Done, 124, "key");
    assert "k" + [input[121]] == "ke";
    assert StringBody(input, 121, "k") == Scan(Done, 124, "key");
    assert "" + [input[120]] == "k";
    assert StringBody(input, 120, []) == Scan(Done, 124, "key");
    assert input[119] == '"';
    assert Next(input, Lexer(119, "false", 6, None)) == (Token(TokenString, "key"), Lexer(124, "key", 6, None));
    assert Next(input, Lexer(118, "false", 6, None)) == (Token(TokenString, "key"), Lexer(124, "key", 6, None));
  }

  lemma ObjectTestToken33(input: string)
    requires |input| == 185
    requires input[124] == ',' && input[125] == ' '
    ensures Next(input, Lexer(124, "key", 6, None)) == (Token(TokenComma, ","), Lexer(125, "key", 6, None))
  {
    assert input[124] == ',';
    assert Next(input, Lexer(124, "key", 6, None)) == (Token(TokenComma, ","), Lexer(125, "key", 6, None));
  }

  lemma ObjectTestToken34(input: string)
    requires |input| == 185
    requires input[125] == ' ' && input[126] == '"' && input[127] == 'k' && input[128] == 'e' && input[129] == 'y' && input[130] == '"' &&
      input[131] == ','
    ensures Next(input, Lexer(125, "key", 6, None)) == (Token(TokenString, "key"), Lexer(131, "key", 6, None))
  {
    assert StringBody(input, 130, "key") == Scan(Done, 131, "key");
    assert "ke" + [input[129]] == "key";
    assert StringBody(input, 129, "ke") == Scan(Done, 131, "key");
    assert "k" + [input[128]] == "ke";
    assert StringBody(input, 128, "k") == Scan(Done, 131, "key");
    assert "" + [input[127]] == "k";
    assert StringBody(input, 127, []) == Scan(Done, 131, "key");
    assert input[126] == '"';
    assert Next(input, Lexer(126, "key", 6, None)) == (Token(TokenString, "key"), Lexer(131, "key", 6, None));
    assert Next(input, Lexer(125, "key", 6, None)) == (Token(TokenString, "key"), Lexer(131, "key", 6, None));
  }

  lemma ObjectTestToken35(input: string)
    requires |input| == 185
    requires input[131] == ',' && input[132] == '['
    ensures Next(input, Lexer(131, "key", 6, None)) == (Token(TokenComma, ","), Lexer(132, "key", 6, None))
  {
    assert input[131] == ',';
    assert Next(input, Lexer(131, "key", 6, None)) == (Token(TokenComma, ","), Lexer(132, "key", 6, None));
  }

  lemma ObjectTestToken36(input: string)
    requires |input| == 185
    requires input[132] == '[' && input[133] == '1'
    ensures Next(input, Lexer(132, "key", 6, None)) == (Token(TokenLBracket, "["), Lexer(133, "key", 6, None))
  {
    assert input[132] == '[';
    assert Next(input, Lexer(132, "key", 6, None)) == (Token(TokenLBracket, "["), Lexer(133, "key", 6, None));
  }

  lemma ObjectTestToken37(input: string)
    requires |input| == 185
    requires input[133] == '1' && input[134] == ','
    ensures Next(input, Lexer(133, "key", 6, None)) == (Token(TokenNumber, "1"), Lexer(134, "1", 6, None))
  {
    assert NumberRun(input, 134, "1") == Scan(Done, 134, "1");
    assert "" + [input[133]] == "1";
    assert NumberRun(input, 133, []) == Scan(Done, 134, "1");
    assert input[133] == '1';
    DigitStartsNumber(input, Lexer(133, "key", 6, None), 134, "1");
  }

  lemma ObjectTestToken38(input: string)
    requires |input| == 185
    requires input[134] == ',' && input[135] == ' '
    ensures Next(input, Lexer(134, "1", 6, None)) == (Token(TokenComma, ","), Lexer(135, "1", 6, None))
  {
    assert input[134] == ',';
    assert Next(input, Lexer(134, "1", 6, None)) == (Token(TokenComma, ","), Lexer(135, "1", 6, None));
  }

  lemma ObjectTestToken39(input: string)
    requires |input| == 185
    requires input[135] == ' ' && input[136] == '2' && input[137] == ']'
    ensures Next(input, Lexer(135, "1", 6, None)) == (Token(TokenNumber, "2"), Lexer(137, "2", 6, None))
  {
    assert NumberRun(input, 137, "2") == Scan(Done, 137, "2");
    assert "" + [input[136]] == "2";
    assert NumberRun(input, 136, []) == Scan(Done, 137, "2");
    assert input[136] == '2';
    DigitStartsNumber(input, Lexer(136, "1", 6, None), 137, "2");
    assert Next(input, Lexer(135, "1", 6, None)) == (Token(TokenNumber, "2"), Lexer(137, "2", 6, None));
  }

  lemma ObjectTestToken40(input: string)
    requires |input| == 185
    requires input[137] == ']' && input[138] == ','
    ensures Next(input, Lexer(137, "2", 6, None)) == (Token(TokenRBracket, "]"), Lexer(138, "2", 6, None))
  {
    assert input[137] == ']';
    assert Next(input, Lexer(137, "2", 6, None)) == (Token(TokenRBracket, "]"), Lexer(138, "2", 6, None));
  }

  lemma ObjectTestToken41(input: string)
    requires |input| == 185
    requires input[138] == ',' && input[139] == '{'
    ensures Next(input, Lexer(138, "2", 6, None)) == (Token(TokenComma, ","), Lexer(139, "2", 6, None))
  {
    assert input[138] == ',';
    assert Next(input, Lexer(138, "2", 6, None)) == (Token(TokenComma, ","), Lexer(139, "2", 6, None));
  }

  lemma ObjectTestElements42(input: string, es: seq<Value>)
    requires ObjectTestChars(input)
    ensures ArrayElements(input, PState(Lexer(137, "2", 6, None), Token(TokenNumber, "2")), es) ==
      (Ok(Array(es + [Number(2)])), PState(Lexer(139, "2", 6, None), Token(TokenComma, ",")))
  {
    assert Itoa(2) == "2";
    AtoiItoa(2);
    ObjectTestToken40(input);
    ObjectTestToken41(input);
    assert CloseArray(input, PState(Lexer(138, "2", 6, None), Token(TokenRBracket, "]")), es + [Number(2)]) == (Ok(Array(es + [Number(2)])), PState(Lexer(139, "2", 6, None), Token(TokenComma, ",")));
    assert ArrayNext(input, PState(Lexer(138, "2", 6, None), Token(TokenRBracket, "]")), es + [Number(2)]) == (Ok(Array(es + [Number(2)])), PState(Lexer(139, "2", 6, None), Token(TokenComma, ",")));
  }

  lemma ObjectTestElements43(input: string, es: seq<Value>)
    requires ObjectTestChars(input)
    ensures ArrayElements(input, PState(Lexer(134, "1", 6, None), Token(TokenNumber, "1")), es) ==
      (Ok(Array(es + [Number(1)] + [Number(2)])), PState(Lexer(139, "2", 6, None), Token(TokenComma, ",")))
  {
    assert Itoa(1) == "1";
    AtoiItoa(1);
    ObjectTestToken38(input);
    ObjectTestToken39(input);
    ObjectTestElements42(input, es + [Number(1)]);
    assert ArrayNext(input, PState(Lexer(135, "1", 6, None), Token(TokenComma, ",")), es + [Number(1)]) == (Ok(Array(es + [Number(1)] + [Number(2)])), PState(Lexer(139, "2", 6, None), Token(TokenComma, ",")));
  }

  lemma ObjectTestArray44(input: string)
    requires ObjectTestChars(input)
    ensures ParseArray(input, PState(Lexer(133, "key", 6, None), Token(TokenLBracket, "["))) ==
      (Ok(Array([Number(1), Number(2)])), PState(Lexer(139, "2", 6, None), Token(TokenComma, ",")))
  {
    ObjectTestToken37(input);
    ObjectTestElements43(input, []);
    Appended2(Number(1), Number(2));
  }

  lemma ObjectTestToken45(input: string)
    requires |input| == 185
    requires input[139] == '{' && input[140] == '"'
    ensures Next(input, Lexer(139, "2", 6, None)) == (Token(TokenLBrace, "{"), Lexer(140, "2", 6, None))
  {
    assert input[139] == '{';
    assert Next(input, Lexer(139, "2", 6, None)) == (Token(TokenLBrace, "{"), Lexer(140, "2", 6, None));
  }

  lemma ObjectTestToken46(input: string)
    requires |input| == 185
    requires input[140] == '"' && input[141] == 'k' && input[142] == 'e' && input[143] == 'y' && input[144] == '"' && input[145] == ':'
    ensures Next(input, Lexer(140, "2", 6, None)) == (Token(TokenString, "key"), Lexer(145, "key", 6, None))
  {
    assert StringBody(input, 144, "key") == Scan(Done, 145, "key");
    assert "ke" + [input[143]] == "key";
    assert StringBody(input, 143, "ke") == Scan(Done, 145, "key");
    assert "k" + [input[142]] == "ke";
    assert StringBody(input, 142, "k") == Scan(Done, 145, "key");
    assert "" + [input[141]] == "k";
    assert StringBody(input, 141, []) == Scan(Done, 145, "key");
    assert input[140] == '"';
    assert Next(input, Lexer(140, "2", 6, None)) == (Token(TokenString, "key"), Lexer(145, "key", 6, None));
  }

  lemma ObjectTestToken47(input: string)
    requires |input| == 185
    requires input[145] == ':' && input[146] == '"'
    ensures Next(input, Lexer(145, "key", 6, None)) == (Token(TokenColon, ":"), Lexer(146, "key", 6, None))
  {
    assert input[145] == ':';
    assert Next(input, Lexer(145, "key", 6, None)) == (Token(TokenColon, ":"), Lexer(146, "key", 6, None));
  }

  lemma ObjectTestToken48(input: string)
    requires |input| == 185
    requires input[146] == '"' && input[147] == 'h' && input[148] == 'e' && input[149] == 'l' && input[150] == 'l' && input[151] == 'o' &&
      input[152] == '"' && input[153] == '}'
    ensures Next(input, Lexer(146, "key", 6, None)) == (Token(TokenString, "hello"), Lexer(153, "hello", 6, None))
  {
    assert StringBody(input, 152, "hello") == Scan(Done, 153, "hello");
    assert "hell" + [input[151]] == "hello";
    assert StringBody(input, 151, "hell") == Scan(Done, 153, "hello");
    assert "hel" + [input[150]] == "hell";
    assert StringBody(input, 150, "hel") == Scan(Done, 153, "hello");
    assert "he" + [input[149]] == "hel";
    assert StringBody(input, 149, "he") == Scan(Done, 153, "hello");
    assert "h" + [input[148]] == "he";
    assert StringBody(input, 148, "h") == Scan(Done, 153, "hello");
    assert "" + [input[147]] == "h";
    assert StringBody(input, 147, []) == Scan(Done, 153, "hello");
    assert input[146] == '"';
    assert Next(input, Lexer(146, "key", 6, None)) == (Token(TokenString, "hello"), Lexer(153, "hello", 6, None));
  }

  lemma ObjectTestToken49(input: string)
    requires |input| == 185
    requires input[153] == '}' && input[154] == ']'
    ensures Next(input, Lexer(153, "hello", 6, None)) == (Token(TokenRBrace, "}"), Lexer(154, "hello", 6, None))
  {
    assert input[153] == '}';
    assert Next(input, Lexer(153, "hello", 6, None)) == (Token(TokenRBrace, "}"), Lexer(154, "hello", 6, None));
  }

  lemma ObjectTestToken50(input: string)
    requires |input| == 185
    requires input[154] == ']' && input[155] == ','
    ensures Next(input, Lexer(154, "hello", 6, None)) == (Token(TokenRBracket, "]"), Lexer(155, "hello", 6, None))
  {
    assert input[154] == ']';
    assert Next(input, Lexer(154, "hello", 6, None)) == (Token(TokenRBracket, "]"), Lexer(155, "hello", 6, None));
  }

  lemma ObjectTestMembers51(input: string, ms: seq<Member>)
    requires ObjectTestChars(input)
    requires "key" !in Keys(ms)
    ensures ObjectMembers(input, PState(Lexer(145, "key", 6, None), Token(TokenString, "key")), ms) ==
      (Ok(Object(ms + [Member("key", String("hello"))])), PState(Lexer(155, "hello", 6, None), Token(TokenRBracket, "]")))
  {
    ObjectTestToken47(input);
    ObjectTestToken48(input);
    ObjectTestToken49(input);
    assert ParseValue(input, PState(Lexer(153, "hello", 6, None), Token(TokenString, "hello"))) == (Ok(String("hello")), PState(Lexer(154, "hello", 6, None), Token(TokenRBrace, "}")));
    SetFieldAppend(ms, "key", String("hello"), ms + [Member("key", String("hello"))]);
    ObjectTestToken50(input);
    assert CloseObject(input, PState(Lexer(154, "hello", 6, None), Token(TokenRBrace, "}")), ms + [Member("key", String("hello"))]) == (Ok(Object(ms + [Member("key", String("hello"))])), PState(Lexer(155, "hello", 6, None), Token(TokenRBracket, "]")));
  }

  lemma ObjectTestObject52(input: string)
    requires ObjectTestChars(input)
    ensures ParseObject(input, PState(Lexer(140, "2", 6, None), Token(TokenLBrace, "{"))) ==
      (Ok(Object([Member("key", String("hello"))])), PState(Lexer(155, "hello", 6, None), Token(TokenRBracket, "]")))
  {
    ObjectTestToken46(input);
    ObjectTestMembers51(input, []);
    Appended1(Member("key", String("hello")));
  }

  lemma ObjectTestToken53(input: string)
    requires |input| == 185
    requires input[155] == ',' && input[156] == '\n'
    ensures Next(input, Lexer(155, "hello", 6, None)) == (Token(TokenComma, ","), Lexer(156, "hello", 6, None))
  {
    assert input[155] == ',';
    assert Next(input, Lexer(155, "hello", 6, None)) == (Token(TokenComma, ","), Lexer(156, "hello", 6, None));
  }

  lemma ObjectTestElements54(input: string, es: seq<Value>)
    requires ObjectTestChars(input)
    ensures ArrayElements(input, PState(Lexer(140, "2", 6, None), Token(TokenLBrace, "{")), es) ==
      (Ok(Array(es + [Object([Member("key", String("hello"))])])), PState(Lexer(156, "hello", 6, None), Token(TokenComma, ",")))
  {
    ObjectTestObject52(input);
    ObjectTestToken53(input);
    assert CloseArray(input, PState(Lexer(155, "hello", 6, None), Token(TokenRBracket, "]")), es + [Object([Member("key", String("hello"))])]) == (Ok(Array(es + [Object([Member("key", String("hello"))])])), PState(Lexer(156, "hello", 6, None), Token(TokenComma, ",")));
    assert ArrayNext(input, PState(Lexer(155, "hello", 6, None), Token(TokenRBracket, "]")), es + [Object([Member("key", String("hello"))])]) == (Ok(Array(es + [Object([Member("key", String("hello"))])])), PState(Lexer(156, "hello", 6, None), Token(TokenComma, ",")));
  }

  lemma ObjectTestElements55(input: string, es: seq<Value>)
    requires ObjectTestChars(input)
    ensures ArrayElements(input, PState(Lexer(133, "key", 6, None), Token(TokenLBracket, "[")), es) ==
      (Ok(Array(es + [Array([Number(1), Number(2)])] + [Object([Member("key", String("hello"))])])), PState(Lexer(156, "hello", 6, None), Token(TokenComma, ",")))
  {
    ObjectTestArray44(input);
    ObjectTestToken45(input);
    ObjectTestElements54(input, es + [Array([Number(1), Number(2)])]);
    assert ArrayNext(input, PState(Lexer(139, "2", 6, None), Token(TokenComma, ",")), es + [Array([Number(1), Number(2)])]) == (Ok(Array(es + [Array([Number(1), Number(2)])] + [Object([Member("key", String("hello"))])])), PState(Lexer(156, "hello", 6, None), Token(TokenComma, ",")));
  }

  lemma ObjectTestElements56(input: string, es: seq<Value>)
    requires ObjectTestChars(input)
    ensures ArrayElements(input, PState(Lexer(131, "key", 6, None), Token(TokenString, "key")), es) ==
      (Ok(Array(es + [String("key")] + [Array([Number(1), Number(2)])] + [Object([Member("key", String("hello"))])])), PState(Lexer(156, "hello", 6, None), Token(TokenComma, ",")))
  {
    ObjectTestToken35(input);
    ObjectTestToken36(input);
    ObjectTestElements55(input, es + [String("key")]);
    assert ArrayNext(input, PState(Lexer(132, "key", 6, None), Token(TokenComma, ",")), es + [String("key")]) == (Ok(Array(es + [String("key")] + [Array([Number(1), Number(2)])] + [Object([Member("key", String("hello"))])])), PState(Lexer(156, "hello", 6, None), Token(TokenComma, ",")));
  }

  lemma ObjectTestElements57(input: string, es: seq<Value>)
    requires ObjectTestChars(input)
    ensures ArrayElements(input, PState(Lexer(124, "key", 6, None), Token(TokenString, "key")), es) ==
      (Ok(Array(es + [String("key")] + [String("key")] + [Array([Number(1), Number(2)])] + [Object([Member("key", String("hello"))])])), PState(Lexer(156, "hello", 6, None), Token(TokenComma, ",")))
  {
    ObjectTestToken33(input);
    ObjectTestToken34(input);
    ObjectTestElements56(input, es + [String("key")]);
    assert ArrayNext(input, PState(Lexer(125, "key", 6, None), Token(TokenComma, ",")), es + [String("key")]) == (Ok(Array(es + [String("key")] + [String("key")] + [Array([Number(1), Number(2)])] + [Object([Member("key", String("hello"))])])), PState(Lexer(156, "hello", 6, None), Token(TokenComma, ",")));
  }

  lemma ObjectTestElements58(input: string, es: seq<Value>)
    requires ObjectTestChars(input)
    ensures ArrayElements(input, PState(Lexer(117, "false", 6, None), Token(TokenFalse, "false")), es) ==
      (Ok(Array(es + [Bool(false)] + [String("key")] + [String("key")] + [Array([Number(1), Number(2)])] + [Object([Member("key", String("hello"))])])), PState(Lexer(156, "hello", 6, None), Token(TokenComma, ",")))
  {
    ObjectTestToken31(input);
    ObjectTestToken32(input);
    ObjectTestElements57(input, es + [Bool(false)]);
    assert ArrayNext(input, PState(Lexer(118, "false", 6, None), Token(TokenComma, ",")), es + [Bool(false)]) == (Ok(Array(es + [Bool(false)] + [String("key")] + [String("key")] + [Array([Number(1), Number(2)])] + [Object([Member("key", String("hello"))])])), PState(Lexer(156, "hello", 6, None), Token(TokenComma, ",")));
  }

  lemma ObjectTestElements59(input: string, es: seq<Value>)
    requires ObjectTestChars(input)
    ensures ArrayElements(input, PState(Lexer(110, "true", 6, None), Token(TokenTrue, "true")), es) ==
      (Ok(Array(es + [Bool(true)] + [Bool(false)] + [String("key")] + [String("key")] + [Array([Number(1), Number(2)])] + [Object([Member("key", String("hello"))])])), PState(Lexer(156, "hello", 6, None), Token(TokenComma, ",")))
  {
    ObjectTestToken29(input);
    ObjectTestToken30(input);
    ObjectTestElements58(input, es + [Bool(true)]);
    assert ArrayNext(input, PState(Lexer(111, "true", 6, None), Token(TokenComma, ",")), es + [Bool(true)]) == (Ok(Array(es + [Bool(true)] + [Bool(false)] + [String("key")] + [String("key")] + [Array([Number(1), Number(2)])] + [Object([Member("key", String("hello"))])])), PState(Lexer(156, "hello", 6, None), Token(TokenComma, ",")));
  }

  lemma ObjectTestElements60(input: string, es: seq<Value>)
    requires ObjectTestChars(input)
    ensures ArrayElements(input, PState(Lexer(105, "null", 6, None), Token(TokenNull, "null")), es) ==
      (Ok(Array(es + [Null] + [Bool(true)] + [Bool(false)] + [String("key")] + [String("key")] + [Array([Number(1), Number(2)])] + [Object([Member("key", String("hello"))])])), PState(Lexer(156, "hello", 6, None), Token(TokenComma, ",")))
  {
    ObjectTestToken27(input);
    ObjectTestToken28(input);
    ObjectTestElements59(input, es + [Null]);
    assert ArrayNext(input, PState(Lexer(106, "null", 6, None), Token(TokenComma, ",")), es + [Null]) == (Ok(Array(es + [Null] + [Bool(true)] + [Bool(false)] + [String("key")] + [String("key")] + [Array([Number(1), Number(2)])] + [Object([Member("key", String("hello"))])])), PState(Lexer(156, "hello", 6, None), Token(TokenComma, ",")));
  }

  lemma ObjectTestArray61(input: string)
    requires ObjectTestChars(input)
    ensures ParseArray(input, PState(Lexer(101, "key5", 6, None), Token(TokenLBracket, "["))) ==
      (Ok(Array([Null, Bool(true), Bool(false), String("key"), String("key"), Array([Number(1), Number(2)]), Object([Member("key", String("hello"))])])), PState(Lexer(156, "hello", 6, None), Token(TokenComma, ",")))
  {
    ObjectTestToken26(input);
    ObjectTestElements60(input, []);
    Appended7(Null, Bool(true), Bool(false), String("key"), String("key"), Array([Number(1), Number(2)]), Object([Member("key", String("hello"))]));
  }

  lemma ObjectTestToken62(input: string)
    requires |input| == 185
    requires input[156] == '\n' && input[157] == '\t' && input[158] == '\t' && input[159] == '\t' && input[160] == '\t' && input[161] == '"' &&
      input[162] == 'k' && input[163] == 'e' && input[164] == 'y' && input[165] == '6' && input[166] == '"' && input[167] == ':'
    ensures Next(input, Lexer(156, "hello", 6, None)) == (Token(TokenString, "key6"), Lexer(167, "key6", 7, None))
  {
    assert StringBody(input, 166, "key6") == Scan(Done, 167, "key6");
    assert "key" + [input[165]] == "key6";
    assert StringBody(input, 165, "key") == Scan(Done, 167, "key6");
    assert "ke" + [input[164]] == "key";
    assert StringBody(input, 164, "ke") == Scan(Done, 167, "key6");
    assert "k" + [input[163]] == "ke";
    assert StringBody(input, 163, "k") == Scan(Done, 167, "key6");
    assert "" + [input[162]] == "k";
    assert StringBody(input, 162, []) == Scan(Done, 167, "key6");
    assert input[161] == '"';
    assert Next(input, Lexer(161, "hello", 7, None)) == (Token(TokenString, "key6"), Lexer(167, "key6", 7, None));
    assert Next(input, Lexer(160, "hello", 7, None)) == (Token(TokenString, "key6"), Lexer(167, "key6", 7, None));
    assert Next(input, Lexer(159, "hello", 7, None)) == (Token(TokenString, "key6"), Lexer(167, "key6", 7, None));
    assert Next(input, Lexer(158, "hello", 7, None)) == (Token(TokenString, "key6"), Lexer(167, "key6", 7, None));
    assert Next(input, Lexer(157, "hello", 7, None)) == (Token(TokenString, "key6"), Lexer(167, "key6", 7, None));
    assert Next(input, Lexer(156, "hello", 6, None)) == (Token(TokenString, "key6"), Lexer(167, "key6", 7, None));
  }

  lemma ObjectTestToken63(input: string)
    requires |input| == 185
    requires input[167] == ':' && input[168] == '{'
    ensures Next(input, Lexer(167, "key6", 7, None)) == (Token(TokenColon, ":"), Lexer(168, "key6", 7, None))
  {
    assert input[167] == ':';
    assert Next(input, Lexer(167, "key6", 7, None)) == (Token(TokenColon, ":"), Lexer(168, "key6", 7, None));
  }

  lemma ObjectTestToken64(input: string)
    requires |input| == 185
    requires input[168] == '{' && input[169] == '"'
    ensures Next(input, Lexer(168, "key6", 7, None)) == (Token(TokenLBrace, "{"), Lexer(169, "key6", 7, None))
  {
    assert input[168] == '{';
    assert Next(input, Lexer(168, "key6", 7, None)) == (Token(TokenLBrace, "{"), Lexer(169, "key6", 7, None));
  }

  lemma ObjectTestToken65(input: string)
    requires |input| == 185
    requires input[169] == '"' && input[170] == 'k' && input[171] == 'e' && input[172] == 'y' && input[173] == '7' && input[174] == '"' &&
      input[175] == ':'
    ensures Next(input, Lexer(169, "key6", 7, None)) == (Token(TokenString, "key7"), Lexer(175, "key7", 7, None))
  {
    assert StringBody(input, 174, "key7") == Scan(Done, 175, "key7");
    assert "key" + [input[173]] == "key7";
    assert StringBody(input, 173, "key") == Scan(Done, 175, "key7");
    assert "ke" + [input[172]] == "key";
    assert StringBody(input, 172, "ke") == Scan(Done, 175, "key7");
    assert "k" + [input[171]] == "ke";
    assert StringBody(input, 171, "k") == Scan(Done, 175, "key7");
    assert "" + [input[170]] == "k";
    assert StringBody(input, 170, []) == Scan(Done, 175, "key7");
    assert input[169] == '"';
    assert Next(input, Lexer(169, "key6", 7, None)) == (Token(TokenString, "key7"), Lexer(175, "key7", 7, None));
  }

  lemma ObjectTestToken66(input: string)
    requires |input| == 185
    requires input[175] == ':' && input[176] == '"'
    ensures Next(input, Lexer(175, "key7", 7, None)) == (Token(TokenColon, ":"), Lexer(176, "key7", 7, None))
  {
    assert input[175] == ':';
    assert Next(input, Lexer(175, "key7", 7, None)) == (Token(TokenColon, ":"), Lexer(176, "key7", 7, None));
  }

  lemma ObjectTestToken67(input: string)
    requires |input| == 185
    requires input[176] == '"' && input[177] == 'h' && input[178] == 'e' && input[179] == 'l' && input[180] == 'l' && input[181] == 'o' &&
      input[182] == '"' && input[183] == '}'
    ensures Next(input, Lexer(176, "key7", 7, None)) == (Token(TokenString, "hello"), Lexer(183, "hello", 7, None))
  {
    assert StringBody(input, 182, "hello") == Scan(Done, 183, "hello");
    assert "hell" + [input[181]] == "hello";
    assert StringBody(input, 181, "hell") == Scan(Done, 183, "hello");
    assert "hel" + [input[180]] == "hell";
    assert StringBody(input, 180, "hel") == Scan(Done, 183, "hello");
    assert "he" + [input[179]] == "hel";
    assert StringBody(input, 179, "he") == Scan(Done, 183, "hello");
    assert "h" + [input[178]] == "he";
    assert StringBody(input, 178, "h") == Scan(Done, 183, "hello");
    assert "" + [input[177]] == "h";
    assert StringBody(input, 177, []) == Scan(Done, 183, "hello");
    assert input[176] == '"';
    assert Next(input, Lexer(176, "key7", 7, None)) == (Token(TokenString, "hello"), Lexer(183, "hello", 7, None));
  }

  lemma ObjectTestToken68(input: string)
    requires |input| == 185
    requires input[183] == '}' && input[184] == '}'
    ensures Next(input, Lexer(183, "hello", 7, None)) == (Token(TokenRBrace, "}"), Lexer(184, "hello", 7, None))
  {
    assert input[183] == '}';
    assert Next(input, Lexer(183, "hello", 7, None)) == (Token(TokenRBrace, "}"), Lexer(184, "hello", 7, None));
  }

  lemma ObjectTestToken69(input: string)
    requires |input| == 185
    requires input[184] == '}'
    ensures Next(input, Lexer(184, "hello", 7, None)) == (Token(TokenRBrace, "}"), Lexer(185, "hello", 7, None))
  {
    assert input[184] == '}';
    assert Next(input, Lexer(184, "hello", 7, None)) == (Token(TokenRBrace, "}"), Lexer(185, "hello", 7, None));
  }

  lemma ObjectTestMembers70(input: string, ms: seq<Member>)
    requires ObjectTestChars(input)
    requires "key7" !in Keys(ms)
    ensures ObjectMembers(input, PState(Lexer(175, "key7", 7, None), Token(TokenString, "key7")), ms) ==
      (Ok(Object(ms + [Member("key7", String("hello"))])), PState(Lexer(185, "hello", 7, None), Token(TokenRBrace, "}")))
  {
    ObjectTestToken66(input);
    ObjectTestToken67(input);
    ObjectTestToken68(input);
    assert ParseValue(input, PState(Lexer(183, "hello", 7, None), Token(TokenString, "hello"))) == (Ok(String("hello")), PState(Lexer(184, "hello", 7, None), Token(TokenRBrace, "}")));
    SetFieldAppend(ms, "key7", String("hello"), ms + [Member("key7", String("hello"))]);
    ObjectTestToken69(input);
    assert CloseObject(input, PState(Lexer(184, "hello", 7, None), Token(TokenRBrace, "}")), ms + [Member("key7", String("hello"))]) == (Ok(Object(ms + [Member("key7", String("hello"))])), PState(Lexer(185, "hello", 7, None), Token(TokenRBrace, "}")));
  }

  lemma ObjectTestObject71(input: string)
    requires ObjectTestChars(input)
    ensures ParseObject(input, PState(Lexer(169, "key6", 7, None), Token(TokenLBrace, "{"))) ==
      (Ok(Object([Member("key7", String("hello"))])), PState(Lexer(185, "hello", 7, None), Token(TokenRBrace, "}")))
  {
    ObjectTestToken65(input);
    ObjectTestMembers70(input, []);
    Appended1(Member("key7", String("hello")));
  }

  lemma ObjectTestToken72(input: string)
    requires |input| == 185
    ensures Next(input, Lexer(185, "hello", 7, None)) == (Token(TokenEOF, ""), Lexer(185, "hello", 7, None))
  {
    assert Next(input, Lexer(185, "hello", 7, None)) == (Token(TokenEOF, ""), Lexer(185, "hello", 7, None));
  }

  lemma ObjectTestMembers73(input: string, ms: seq<Member>)
    requires ObjectTestChars(input)
    requires "key6" !in Keys(ms)
    ensures ObjectMembers(input, PState(Lexer(167, "key6", 7, None), Token(TokenString, "key6")), ms) ==
      (Ok(Object(ms + [Member("key6", Object([Member("key7", String("hello"))]))])), PState(Lexer(185, "hello", 7, None), Token(TokenEOF, "")))
  {
    ObjectTestToken63(input);
    ObjectTestToken64(input);
    ObjectTestObject71(input);
    assert ParseValue(input, PState(Lexer(169, "key6", 7, None), Token(TokenLBrace, "{"))) == (Ok(Object([Member("key7", String("hello"))])), PState(Lexer(185, "hello", 7, None), Token(TokenRBrace, "}")));
    SetFieldAppend(ms, "key6", Object([Member("key7", String("hello"))]), ms + [Member("key6", Object([Member("key7", String("hello"))]))]);
    ObjectTestToken72(input);
    assert CloseObject(input, PState(Lexer(185, "hello", 7, None), Token(TokenRBrace, "}")), ms + [Member("key6", Object([Member("key7", String("hello"))]))]) == (Ok(Object(ms + [Member("key6", Object([Member("key7", String("hello"))]))])), PState(Lexer(185, "hello", 7, None), Token(TokenEOF, "")));
  }

  lemma ObjectTestMembers74(input: string, ms: seq<Member>)
    requires ObjectTestChars(input)
    requires "key5" !in Keys(ms) && "key6" !in Keys(ms)
    ensures ObjectMembers(input, PState(Lexer(99, "key5", 6, None), Token(TokenString, "key5")), ms) ==
      (Ok(Object(ms + [Member("key5", Array([Null, Bool(true), Bool(false), String("key"), String("key"), Array([Number(1), Number(2)]), Object([Member("key", String("hello"))])]))] + [Member("key6", Object([Member("key7", String("hello"))]))])), PState(Lexer(185, "hello", 7, None), Token(TokenEOF, "")))
  {
    ObjectTestToken24(input);
    ObjectTestToken25(input);
    ObjectTestArray61(input);
    assert ParseValue(input, PState(Lexer(101, "key5", 6, None), Token(TokenLBracket, "["))) == (Ok(Array([Null, Bool(true), Bool(false), String("key"), String("key"), Array([Number(1), Number(2)]), Object([Member("key", String("hello"))])])), PState(Lexer(156, "hello", 6, None), Token(TokenComma, ",")));
    SetFieldAppend(ms, "key5", Array([Null, Bool(true), Bool(false), String("key"), String("key"), Array([Number(1), Number(2)]), Object([Member("key", String("hello"))])]), ms + [Member("key5", Array([Null, Bool(true), Bool(false), String("key"), String("key"), Array([Number(1), Number(2)]), Object([Member("key", String("hello"))])]))]);
    ObjectTestToken62(input);
    ObjectTestMembers73(input, ms + [Member("key5", Array([Null, Bool(true), Bool(false), String("key"), String("key"), Array([Number(1), Number(2)]), Object([Member("key", String("hello"))])]))]);
  }

  lemma ObjectTestMembers75(input: string, ms: seq<Member>)
    requires ObjectTestChars(input)
    requires "key4" !in Keys(ms) && "key5" !in Keys(ms) && "key6" !in Keys(ms)
    ensures ObjectMembers(input, PState(Lexer(72, "key4", 5, None), Token(TokenString, "key4")), ms) ==
      (Ok(Object(ms + [Member("key4", String("hello parser"))] + [Member("key5", Array([Null, Bool(true), Bool(false), String("key"), String("key"), Array([Number(1), Number(2)]), Object([Member("key", String("hello"))])]))] + [Member("key6", Object([Member("key7", String("hello"))]))])), PState(Lexer(185, "hello", 7, None), Token(TokenEOF, "")))
  {
    ObjectTestToken19(input);
    ObjectTestToken20(input);
    ObjectTestToken22(input);
    assert ParseValue(input, PState(Lexer(87, "hello parser", 5, None), Token(TokenString, "hello parser"))) == (Ok(String("hello parser")), PState(Lexer(88, "hello parser", 5, None), Token(TokenComma, ",")));
    SetFieldAppend(ms, "key4", String("hello parser"), ms + [Member("key4", String("hello parser"))]);
    ObjectTestToken23(input);
    ObjectTestMembers74(input, ms + [Member("key4", String("hello parser"))]);
  }

  lemma ObjectTestMembers76(input: string, ms: seq<Member>)
    requires ObjectTestChars(input)
    requires "key3" !in Keys(ms) && "key4" !in Keys(ms) && "key5" !in Keys(ms) && "key6" !in Keys(ms)
    ensures ObjectMembers(input, PState(Lexer(58, "key3", 4, None), Token(TokenString, "key3")), ms) ==
      (Ok(Object(ms + [Member("key3", Number(2))] + [Member("key4", String("hello parser"))] + [Member("key5", Array([Null, Bool(true), Bool(false), String("key"), String("key"), Array([Number(1), Number(2)]), Object([Member("key", String("hello"))])]))] + [Member("key6", Object([Member("key7", String("hello"))]))])), PState(Lexer(185, "hello", 7, None), Token(TokenEOF, "")))
  {
    ObjectTestToken15(input);
    ObjectTestToken16(input);
    assert Itoa(2) == "2";
    AtoiItoa(2);
    ObjectTestToken17(input);
    assert ParseValue(input, PState(Lexer(60, "2", 4, None), Token(TokenNumber, "2"))) == (Ok(Number(2)), PState(Lexer(61, "2", 4, None), Token(TokenComma, ",")));
    SetFieldAppend(ms, "key3", Number(2), ms + [Member("key3", Number(2))]);
    ObjectTestToken18(input);
    ObjectTestMembers75(input, ms + [Member("key3", Number(2))]);
  }

  lemma ObjectTestMembers77(input: string, ms: seq<Member>)
    requires ObjectTestChars(input)
    requires "key2" !in Keys(ms) && "key3" !in Keys(ms) && "key4" !in Keys(ms) && "key5" !in Keys(ms) && "key6" !in Keys(ms)
    ensures ObjectMembers(input, PState(Lexer(41, "key2", 3, None), Token(TokenString, "key2")), ms) ==
      (Ok(Object(ms + [Member("key2", Bool(true))] + [Member("key3", Number(2))] + [Member("key4", String("hello parser"))] + [Member("key5", Array([Null, Bool(true), Bool(false), String("key"), String("key"), Array([Number(1), Number(2)]), Object([Member("key", String("hello"))])]))] + [Member("key6", Object([Member("key7", String("hello"))]))])), PState(Lexer(185, "hello", 7, None), Token(TokenEOF, "")))
  {
    ObjectTestToken11(input);
    ObjectTestToken12(input);
    ObjectTestToken13(input);
    assert ParseValue(input, PState(Lexer(46, "true", 3, None), Token(TokenTrue, "true"))) == (Ok(Bool(true)), PState(Lexer(47, "true", 3, None), Token(TokenComma, ",")));
    SetFieldAppend(ms, "key2", Bool(true), ms + [Member("key2", Bool(true))]);
    ObjectTestToken14(input);
    ObjectTestMembers76(input, ms + [Member("key2", Bool(true))]);
  }

  lemma ObjectTestMembers78(input: string, ms: seq<Member>)
    requires ObjectTestChars(input)
    requires "key1" !in Keys(ms) && "key2" !in Keys(ms) && "key3" !in Keys(ms) && "key4" !in Keys(ms) && "key5" !in Keys(ms) && "key6" !in Keys(ms)
    ensures ObjectMembers(input, PState(Lexer(23, "key1", 2, None), Token(TokenString, "key1")), ms) ==
      (Ok(Object(ms + [Member("key1", Bool(false))] + [Member("key2", Bool(true))] + [Member("key3", Number(2))] + [Member("key4", String("hello parser"))] + [Member("key5", Array([Null, Bool(true), Bool(false), String("key"), String("key"), Array([Number(1), Number(2)]), Object([Member("key", String("hello"))])]))] + [Member("key6", Object([Member("key7", String("hello"))]))])), PState(Lexer(185, "hello", 7, None), Token(TokenEOF, "")))
  {
    ObjectTestToken7(input);
    ObjectTestToken8(input);
    ObjectTestToken9(input);
    assert ParseValue(input, PState(Lexer(29, "false", 2, None), Token(TokenFalse, "false"))) == (Ok(Bool(false)), PState(Lexer(30, "false", 2, None), Token(TokenComma, ",")));
    SetFieldAppend(ms, "key1", Bool(false), ms + [Member("key1", Bool(false))]);
    ObjectTestToken10(input);
    ObjectTestMembers77(input, ms + [Member("key1", Bool(false))]);
  }

  lemma ObjectTestMembers79(input: string, ms: seq<Member>)
    requires ObjectTestChars(input)
    requires "key" !in Keys(ms) && "key1" !in Keys(ms) && "key2" !in Keys(ms) && "key3" !in Keys(ms) && "key4" !in Keys(ms) && "key5" !in Keys(ms) && "key6" !in Keys(ms)
    ensures ObjectMembers(input, PState(Lexer(6, "key", 1, None), Token(TokenString, "key")), ms) ==
      (Ok(Object(ms + [Member("key", Null)] + [Member("key1", Bool(false))] + [Member("key2", Bool(true))] + [Member("key3", Number(2))] + [Member("key4", String("hello parser"))] + [Member("key5", Array([Null, Bool(true), Bool(false), String("key"), String("key"), Array([Number(1), Number(2)]), Object([Member("key", String("hello"))])]))] + [Member("key6", Object([Member("key7", String("hello"))]))])), PState(Lexer(185, "hello", 7, None), Token(TokenEOF, "")))
  {
    ObjectTestToken3(input);
    ObjectTestToken4(input);
    ObjectTestToken5(input);
    assert ParseValue(input, PState(Lexer(11, "null", 1, None), Token(TokenNull, "null"))) == (Ok(Null), PState(Lexer(12, "null", 1, None), Token(TokenComma, ",")));
    SetFieldAppend(ms, "key", Null, ms + [Member("key", Null)]);
    ObjectTestToken6(input);
    ObjectTestMembers78(input, ms + [Member("key", Null)]);
  }

  lemma ObjectTestObject80(input: string)
    requires ObjectTestChars(input)
    ensures ParseObject(input, PState(Lexer(1, "", 1, None), Token(TokenLBrace, "{"))) ==
      (Ok(Object([Member("key", Null), Member("key1", Bool(false)), Member("key2", Bool(true)), Member("key3", Number(2)), Member("key4", String("hello parser")), Member("key5", Array([Null, Bool(true), Bool(false), String("key"), String("key"), Array([Number(1), Number(2)]), Object([Member("key", String("hello"))])])), Member("key6", Object([Member("key7", String("hello"))]))])), PState(Lexer(185, "hello", 7, None), Token(TokenEOF, "")))
  {
    ObjectTestToken2(input);
    ObjectTestMembers79(input, []);
    Appended7(Member("key", Null), Member("key1", Bool(false)), Member("key2", Bool(true)), Member("key3", Number(2)), Member("key4", String("hello parser")), Member("key5", Array([Null, Bool(true), Bool(false), String("key"), String("key"), Array([Number(1), Number(2)]), Object([Member("key", String("hello"))])])), Member("key6", Object([Member("key7", String("hello"))])));
  }

  lemma ObjectTestOutcome81(input: string)
    requires ObjectTestChars(input)
    ensures ParseFrom(input, Start) == Parsed(Object([Member("key", Null), Member("key1", Bool(false)), Member("key2", Bool(true)), Member("key3", Number(2)), Member("key4", String("hello parser")), Member("key5", Array([Null, Bool(true), Bool(false), String("key"), String("key"), Array([Number(1), Number(2)]), Object([Member("key", String("hello"))])])), Member("key6", Object([Member("key7", String("hello"))]))]))
  {
    ObjectTestToken1(input);
    ObjectTestObject80(input);
  }

  const ArrayTestText: string := "[null,true, false, \"key\"" + ", \"key\",[1, 2],{\"key\":\"h" + "ello\"}]"

  /** parser_test.go:74-116: an array with elements of every kind. */
  lemma ArrayTest()
    ensures Parse(ArrayTestText) == Parsed(Array([Null, Bool(true), Bool(false), String("key"), String("key"), Array([Number(1), Number(2)]), Object([Member("key", String("hello"))])]))
  {
    ArrayTestCharsOf(ArrayTestText);
    ArrayTestOutcome38(ArrayTestText);
  }

  /** The characters of ArrayTestText, one by one. */
  predicate ArrayTestChars(s: string)
  {
    |s| == 55 && ArrayTestGroup1(s) && ArrayTestGroup2(s)
  }

  lemma ArrayTestChars1(input: string)
    requires input == "[null,true, false, \"key\"" + ", \"key\",[1, 2],{\"key\":\"h" + "ello\"}]"
    ensures input[0] == '[' && input[1] == 'n' && input[2] == 'u' && input[3] == 'l' && input[4] == 'l' && input[5] == ','
  {
  }

  lemma ArrayTestChars2(input: string)
    requires input == "[null,true, false, \"key\"" + ", \"key\",[1, 2],{\"key\":\"h" + "ello\"}]"
    ensures input[6] == 't' && input[7] == 'r' && input[8] == 'u' && input[9] == 'e' && input[10] == ',' && input[11] == ' '
  {
  }

  lemma ArrayTestChars3(input: string)
    requires input == "[null,true, false, \"key\"" + ", \"key\",[1, 2],{\"key\":\"h" + "ello\"}]"
    ensures input[12] == 'f' && input[13] == 'a' && input[14] == 'l' && input[15] == 's' && input[16] == 'e' && input[17] == ','
  {
  }

  lemma ArrayTestChars4(input: string)
    requires input == "[null,true, false, \"key\"" + ", \"key\",[1, 2],{\"key\":\"h" + "ello\"}]"
    ensures input[18] == ' ' && input[19] == '"' && input[20] == 'k' && input[21] == 'e' && input[22] == 'y' && input[23] == '"'
  {
  }

  lemma ArrayTestChars5(input: string)
    requires input == "[null,true, false, \"key\"" + ", \"key\",[1, 2],{\"key\":\"h" + "ello\"}]"
    ensures input[24] == ',' && input[25] == ' ' && input[26] == '"' && input[27] == 'k' && input[28] == 'e' && input[29] == 'y'
  {
  }

  lemma ArrayTestChars6(input: string)
    requires input == "[null,true, false, \"key\"" + ", \"key\",[1, 2],{\"key\":\"h" + "ello\"}]"
    ensures input[30] == '"' && input[31] == ',' && input[32] == '[' && input[33] == '1' && input[34] == ',' && input[35] == ' '
  {
  }

  predicate ArrayTestGroup1(s: string)
  {
    |s| == 55 &&
    s[0] == '[' && s[1] == 'n' && s[2] == 'u' && s[3] == 'l' && s[4] == 'l' && s[5] == ',' &&
    s[6] == 't' && s[7] == 'r' && s[8] == 'u' && s[9] == 'e' && s[10] == ',' && s[11] == ' ' &&
    s[12] == 'f' && s[13] == 'a' && s[14] == 'l' && s[15] == 's' && s[16] == 'e' && s[17] == ',' &&
    s[18] == ' ' && s[19] == '"' && s[20] == 'k' && s[21] == 'e' && s[22] == 'y' && s[23] == '"' &&
    s[24] == ',' && s[25] == ' ' && s[26] == '"' && s[27] == 'k' && s[28] == 'e' && s[29] == 'y' &&
    s[30] == '"' && s[31] == ',' && s[32] == '[' && s[33] == '1' && s[34] == ',' && s[35] == ' '
  }

  lemma ArrayTestGroupOf1(input: string)
    requires input == "[null,true, false, \"key\"" + ", \"key\",[1, 2],{\"key\":\"h" + "ello\"}]"
    ensures ArrayTestGroup1(input)
  {
    ArrayTestChars1(input);
    ArrayTestChars2(input);
    ArrayTestChars3(input);
    ArrayTestChars4(input);
    ArrayTestChars5(input);
    ArrayTestChars6(input);
  }

  lemma ArrayTestChars7(input: string)
    requires input == "[null,true, false, \"key\"" + ", \"key\",[1, 2],{\"key\":\"h" + "ello\"}]"
    ensures input[36] == '2' && input[37] == ']' && input[38] == ',' && input[39] == '{' && input[40] == '"' && input[41] == 'k'
  {
  }

  lemma ArrayTestChars8(input: string)
    requires input == "[null,true, false, \"key\"" + ", \"key\",[1, 2],{\"key\":\"h" + "ello\"}]"
    ensures input[42] == 'e' && input[43] == 'y' && input[44] == '"' && input[45] == ':' && input[46] == '"' && input[47] == 'h'
  {
  }

  lemma ArrayTestChars9(input: string)
    requires input == "[null,true, false, \"key\"" + ", \"key\",[1, 2],{\"key\":\"h" + "ello\"}]"
    ensures input[48] == 'e' && input[49] == 'l' && input[50] == 'l' && input[51] == 'o' && input[52] == '"' && input[53] == '}'
  {
  }

  lemma ArrayTestChars10(input: string)
    requires input == "[null,true, false, \"key\"" + ", \"key\",[1, 2],{\"key\":\"h" + "ello\"}]"
    ensures input[54] == ']'
  {
  }

  predicate ArrayTestGroup2(s: string)
  {
    |s| == 55 &&
    s[36] == '2' && s[37] == ']' && s[38] == ',' && s[39] == '{' && s[40] == '"' && s[41] == 'k' &&
    s[42] == 'e' && s[43] == 'y' && s[44] == '"' && s[45] == ':' && s[46] == '"' && s[47] == 'h' &&
    s[48] == 'e' && s[49] == 'l' && s[50] == 'l' && s[51] == 'o' && s[52] == '"' && s[53] == '}' &&
    s[54] == ']'
  }

  lemma ArrayTestGroupOf2(input: string)
    requires input == "[null,true, false, \"key\"" + ", \"key\",[1, 2],{\"key\":\"h" + "ello\"}]"
    ensures ArrayTestGroup2(input)
  {
    ArrayTestChars7(input);
    ArrayTestChars8(input);
    ArrayTestChars9(input);
    ArrayTestChars10(input);
  }

  lemma ArrayTestCharsOf(input: string)
    requires input == "[null,true, false, \"key\"" + ", \"key\",[1, 2],{\"key\":\"h" + "ello\"}]"
    ensures ArrayTestChars(input)
  {
    ArrayTestGroupOf1(input);
    ArrayTestGroupOf2(input);
  }

  lemma ArrayTestToken1(input: string)
    requires |input| == 55
    requires input[0] == '[' && input[1] == 'n'
    ensures Next(input, Lexer(0, "", 1, None)) == (Token(TokenLBracket, "["), Lexer(1, "", 1, None))
  {
    assert input[0] == '[';
    assert Next(input, Lexer(0, "", 1, None)) == (Token(TokenLBracket, "["), Lexer(1, "", 1, None));
  }

  lemma ArrayTestToken2(input: string)
    requires |input| == 55
    requires input[1] == 'n' && input[2] == 'u' && input[3] == 'l' && input[4] == 'l' && input[5] == ','
    ensures Next(input, Lexer(1, "", 1, None)) == (Token(TokenNull, "null"), Lexer(5, "null", 1, None))
  {
    assert IdentRun(input, 5, "null") == Scan(Done, 5, "null");
    assert "nul" + [input[4]] == "null";
    assert IdentRun(input, 4, "nul") == Scan(Done, 5, "null");
    assert "nu" + [input[3]] == "nul";
    assert IdentRun(input, 3, "nu") == Scan(Done, 5, "null");
    assert "n" + [input[2]] == "nu";
    assert IdentRun(input, 2, "n") == Scan(Done, 5, "null");
    assert "" + [input[1]] == "n";
    assert IdentRun(input, 1, []) == Scan(Done, 5, "null");
    assert input[1] == 'n';
    assert Next(input, Lexer(1, "", 1, None)) == (Token(TokenNull, "null"), Lexer(5, "null", 1, None));
  }

  lemma ArrayTestToken3(input: string)
    requires |input| == 55
    requires input[5] == ',' && input[6] == 't'
    ensures Next(input, Lexer(5, "null", 1, None)) == (Token(TokenComma, ","), Lexer(6, "null", 1, None))
  {
    assert input[5] == ',';
    assert Next(input, Lexer(5, "null", 1, None)) == (Token(TokenComma, ","), Lexer(6, "null", 1, None));
  }

  lemma ArrayTestToken4(input: string)
    requires |input| == 55
    requires input[6] == 't' && input[7] == 'r' && input[8] == 'u' && input[9] == 'e' && input[10] == ','
    ensures Next(input, Lexer(6, "null", 1, None)) == (Token(TokenTrue, "true"), Lexer(10, "true", 1, None))
  {
    assert IdentRun(input, 10, "true") == Scan(Done, 10, "true");
    assert "tru" + [input[9]] == "true";
    assert IdentRun(input, 9, "tru") == Scan(Done, 10, "true");
    assert "tr" + [input[8]] == "tru";
    assert IdentRun(input, 8, "tr") == Scan(Done, 10, "true");
    assert "t" + [input[7]] == "tr";
    assert IdentRun(input, 7, "t") == Scan(Done, 10, "true");
    assert "" + [input[6]] == "t";
    assert IdentRun(input, 6, []) == Scan(Done, 10, "true");
    assert input[6] == 't';
    assert Next(input, Lexer(6, "null", 1, None)) == (Token(TokenTrue, "true"), Lexer(10, "true", 1, None));
  }

  lemma ArrayTestToken5(input: string)
    requires |input| == 55
    requires input[10] == ',' && input[11] == ' '
    ensures Next(input, Lexer(10, "true", 1, None)) == (Token(TokenComma, ","), Lexer(11, "true", 1, None))
  {
    assert input[10] == ',';
    assert Next(input, Lexer(10, "true", 1, None)) == (Token(TokenComma, ","), Lexer(11, "true", 1, None));
  }

  lemma ArrayTestToken6(input: string)
    requires |input| == 55
    requires input[11] == ' ' && input[12] == 'f' && input[13] == 'a' && input[14] == 'l' && input[15] == 's' && input[16] == 'e' &&
      input[17] == ','
    ensures Next(input, Lexer(11, "true", 1, None)) == (Token(TokenFalse, "false"), Lexer(17, "false", 1, None))
  {
    assert IdentRun(input, 17, "false") == Scan(Done, 17, "false");
    assert "fals" + [input[16]] == "false";
    assert IdentRun(input, 16, "fals") == Scan(Done, 17, "false");
    assert "fal" + [input[15]] == "fals";
    assert IdentRun(input, 15, "fal") == Scan(Done, 17, "false");
    assert "fa" + [input[14]] == "fal";
    assert IdentRun(input, 14, "fa") == Scan(Done, 17, "false");
    assert "f" + [input[13]] == "fa";
    assert IdentRun(input, 13, "f") == Scan(Done, 17, "false");
    assert "" + [input[12]] == "f";
    assert IdentRun(input, 12, []) == Scan(Done, 17, "false");
    assert input[12] == 'f';
    assert Next(input, Lexer(12, "true", 1, None)) == (Token(TokenFalse, "false"), Lexer(17, "false", 1, None));
    assert Next(input, Lexer(11, "true", 1, None)) == (Token(TokenFalse, "false"), Lexer(17, "false", 1, None));
  }

  lemma ArrayTestToken7(input: string)
    requires |input| == 55
    requires input[17] == ',' && input[18] == ' '
    ensures Next(input, Lexer(17, "false", 1, None)) == (Token(TokenComma, ","), Lexer(18, "false", 1, None))
  {
    assert input[17] == ',';
    assert Next(input, Lexer(17, "false", 1, None)) == (Token(TokenComma, ","), Lexer(18, "false", 1, None));
  }

  lemma ArrayTestToken8(input: string)
    requires |input| == 55
    requires input[18] == ' ' && input[19] == '"' && input[20] == 'k' && input[21] == 'e' && input[22] == 'y' && input[23] == '"' &&
      input[24] == ','
    ensures Next(input, Lexer(18, "false", 1, None)) == (Token(TokenString, "key"), Lexer(24, "key", 1, None))
  {
    assert StringBody(input, 23, "key") == Scan(Done, 24, "key");
    assert "ke" + [input[22]] == "key";
    assert StringBody(input, 22, "ke") == Scan(Done, 24, "key");
    assert "k" + [input[21]] == "ke";
    assert StringBody(input, 21, "k") == Scan(Done, 24, "key");
    assert "" + [input[20]] == "k";
    assert StringBody(input, 20, []) == Scan(Done, 24, "key");
    assert input[19] == '"';
    assert Next(input, Lexer(19, "false", 1, None)) == (Token(TokenString, "key"), Lexer(24, "key", 1, None));
    assert Next(input, Lexer(18, "false", 1, None)) == (Token(TokenString, "key"), Lexer(24, "key", 1, None));
  }

  lemma ArrayTestToken9(input: string)
    requires |input| == 55
    requires input[24] == ',' && input[25] == ' '
    ensures Next(input, Lexer(24, "key", 1, None)) == (Token(TokenComma, ","), Lexer(25, "key", 1, None))
  {
    assert input[24] == ',';
    assert Next(input, Lexer(24, "key", 1, None)) == (Token(TokenComma, ","), Lexer(25, "key", 1, None));
  }

  lemma ArrayTestToken10(input: string)
    requires |input| == 55
    requires input[25] == ' ' && input[26] == '"' && input[27] == 'k' && input[28] == 'e' && input[29] == 'y' && input[30] == '"' &&
      input[31] == ','
    ensures Next(input, Lexer(25, "key", 1, None)) == (Token(TokenString, "key"), Lexer(31, "key", 1, None))
  {
    assert StringBody(input, 30, "key") == Scan(Done, 31, "key");
    assert "ke" + [input[29]] == "key";
    assert StringBody(input, 29, "ke") == Scan(Done, 31, "key");
    assert "k" + [input[28]] == "ke";
    assert StringBody(input, 28, "k") == Scan(Done, 31, "key");
    assert "" + [input[27]] == "k";
    assert StringBody(input, 27, []) == Scan(Done, 31, "key");
    assert input[26] == '"';
    assert Next(input, Lexer(26, "key", 1, None)) == (Token(TokenString, "key"), Lexer(31, "key", 1, None));
    assert Next(input, Lexer(25, "key", 1, None)) == (Token(TokenString, "key"), Lexer(31, "key", 1, None));
  }

  lemma ArrayTestToken11(input: string)
    requires |input| == 55
    requires input[31] == ',' && input[32] == '['
    ensures Next(input, Lexer(31, "key", 1, None)) == (Token(TokenComma, ","), Lexer(32, "key", 1, None))
  {
    assert input[31] == ',';
    assert Next(input, Lexer(31, "key", 1, None)) == (Token(TokenComma, ","), Lexer(32, "key", 1, None));
  }

  lemma ArrayTestToken12(input: string)
    requires |input| == 55
    requires input[32] == '[' && input[33] == '1'
    ensures Next(input, Lexer(32, "key", 1, None)) == (Token(TokenLBracket, "["), Lexer(33, "key", 1, None))
  {
    assert input[32] == '[';
    assert Next(input, Lexer(32, "key", 1, None)) == (Token(TokenLBracket, "["), Lexer(33, "key", 1, None));
  }

  lemma ArrayTestToken13(input: string)
    requires |input| == 55
    requires input[33] == '1' && input[34] == ','
    ensures Next(input, Lexer(33, "key", 1, None)) == (Token(TokenNumber, "1"), Lexer(34, "1", 1, None))
  {
    assert NumberRun(input, 34, "1") == Scan(Done, 34, "1");
    assert "" + [input[33]] == "1";
    assert NumberRun(input, 33, []) == Scan(Done, 34, "1");
    assert input[33] == '1';
    DigitStartsNumber(input, Lexer(33, "key", 1, None), 34, "1");
  }

  lemma ArrayTestToken14(input: string)
    requires |input| == 55
    requires input[34] == ',' && input[35] == ' '
    ensures Next(input, Lexer(34, "1", 1, None)) == (Token(TokenComma, ","), Lexer(35, "1", 1, None))
  {
    assert input[34] == ',';
    assert Next(input, Lexer(34, "1", 1, None)) == (Token(TokenComma, ","), Lexer(35, "1", 1, None));
  }

  lemma ArrayTestToken15(input: string)
    requires |input| == 55
    requires input[35] == ' ' && input[36] == '2' && input[37] == ']'
    ensures Next(input, Lexer(35, "1", 1, None)) == (Token(TokenNumber, "2"), Lexer(37, "2", 1, None))
  {
    assert NumberRun(input, 37, "2") == Scan(Done, 37, "2");
    assert "" + [input[36]] == "2";
    assert NumberRun(input, 36, []) == Scan(Done, 37, "2");
    assert input[36] == '2';
    DigitStartsNumber(input, Lexer(36, "1", 1, None), 37, "2");
    assert Next(input, Lexer(35, "1", 1, None)) == (Token(TokenNumber, "2"), Lexer(37, "2", 1, None));
  }

  lemma ArrayTestToken16(input: string)
    requires |input| == 55
    requires input[37] == ']' && input[38] == ','
    ensures Next(input, Lexer(37, "2", 1, None)) == (Token(TokenRBracket, "]"), Lexer(38, "2", 1, None))
  {
    assert input[37] == ']';
    assert Next(input, Lexer(37, "2", 1, None)) == (Token(TokenRBracket, "]"), Lexer(38, "2", 1, None));
  }

  lemma ArrayTestToken17(input: string)
    requires |input| == 55
    requires input[38] == ',' && input[39] == '{'
    ensures Next(input, Lexer(38, "2", 1, None)) == (Token(TokenComma, ","), Lexer(39, "2", 1, None))
  {
    assert input[38] == ',';
    assert Next(input, Lexer(38, "2", 1, None)) == (Token(TokenComma, ","), Lexer(39, "2", 1, None));
  }

  lemma ArrayTestElements18(input: string, es: seq<Value>)
    requires ArrayTestChars(input)
    ensures ArrayElements(input, PState(Lexer(37, "2", 1, None), Token(TokenNumber, "2")), es) ==
      (Ok(Array(es + [Number(2)])), PState(Lexer(39, "2", 1, None), Token(TokenComma, ",")))
  {
    assert Itoa(2) == "2";
    AtoiItoa(2);
    ArrayTestToken16(input);
    ArrayTestToken17(input);
    assert CloseArray(input, PState(Lexer(38, "2", 1, None), Token(TokenRBracket, "]")), es + [Number(2)]) == (Ok(Array(es + [Number(2)])), PState(Lexer(39, "2", 1, None), Token(TokenComma, ",")));
    assert ArrayNext(input, PState(Lexer(38, "2", 1, None), Token(TokenRBracket, "]")), es + [Number(2)]) == (Ok(Array(es + [Number(2)])), PState(Lexer(39, "2", 1, None), Token(TokenComma, ",")));
  }

  lemma ArrayTestElements19(input: string, es: seq<Value>)
    requires ArrayTestChars(input)
    ensures ArrayElements(input, PState(Lexer(34, "1", 1, None), Token(TokenNumber, "1")), es) ==
      (Ok(Array(es + [Number(1)] + [Number(2)])), PState(Lexer(39, "2", 1, None), Token(TokenComma, ",")))
  {
    assert Itoa(1) == "1";
    AtoiItoa(1);
    ArrayTestToken14(input);
    ArrayTestToken15(input);
    ArrayTestElements18(input, es + [Number(1)]);
    assert ArrayNext(input, PState(Lexer(35, "1", 1, None), Token(TokenComma, ",")), es + [Number(1)]) == (Ok(Array(es + [Number(1)] + [Number(2)])), PState(Lexer(39, "2", 1, None), Token(TokenComma, ",")));
  }

  lemma ArrayTestArray20(input: string)
    requires ArrayTestChars(input)
    ensures ParseArray(input, PState(Lexer(33, "key", 1, None), Token(TokenLBracket, "["))) ==
      (Ok(Array([Number(1), Number(2)])), PState(Lexer(39, "2", 1, None), Token(TokenComma, ",")))
  {
    ArrayTestToken13(input);
    ArrayTestElements19(input, []);
    Appended2(Number(1), Number(2));
  }

  lemma ArrayTestToken21(input: string)
    requires |input| == 55
    requires input[39] == '{' && input[40] == '"'
    ensures Next(input, Lexer(39, "2", 1, None)) == (Token(TokenLBrace, "{"), Lexer(40, "2", 1, None))
  {
    assert input[39] == '{';
    assert Next(input, Lexer(39, "2", 1, None)) == (Token(TokenLBrace, "{"), Lexer(40, "2", 1, None));
  }

  lemma ArrayTestToken22(input: string)
    requires |input| == 55
    requires input[40] == '"' && input[41] == 'k' && input[42] == 'e' && input[43] == 'y' && input[44] == '"' && input[45] == ':'
    ensures Next(input, Lexer(40, "2", 1, None)) == (Token(TokenString, "key"), Lexer(45, "key", 1, None))
  {
    assert StringBody(input, 44, "key") == Scan(Done, 45, "key");
    assert "ke" + [input[43]] == "key";
    assert StringBody(input, 43, "ke") == Scan(Done, 45, "key");
    assert "k" + [input[42]] == "ke";
    assert StringBody(input, 42, "k") == Scan(Done, 45, "key");
    assert "" + [input[41]] == "k";
    assert StringBody(input, 41, []) == Scan(Done, 45, "key");
    assert input[40] == '"';
    assert Next(input, Lexer(40, "2", 1, None)) == (Token(TokenString, "key"), Lexer(45, "key", 1, None));
  }

  lemma ArrayTestToken23(input: string)
    requires |input| == 55
    requires input[45] == ':' && input[46] == '"'
    ensures Next(input, Lexer(45, "key", 1, None)) == (Token(TokenColon, ":"), Lexer(46, "key", 1, None))
  {
    assert input[45] == ':';
    assert Next(input, Lexer(45, "key", 1, None)) == (Token(TokenColon, ":"), Lexer(46, "key", 1, None));
  }

  lemma ArrayTestToken24(input: string)
    requires |input| == 55
    requires input[46] == '"' && input[47] == 'h' && input[48] == 'e' && input[49] == 'l' && input[50] == 'l' && input[51] == 'o' &&
      input[52] == '"' && input[53] == '}'
    ensures Next(input, Lexer(46, "key", 1, None)) == (Token(TokenString, "hello"), Lexer(53, "hello", 1, None))
  {
    assert StringBody(input, 52, "hello") == Scan(Done, 53, "hello");
    assert "hell" + [input[51]] == "hello";
    assert StringBody(input, 51, "hell") == Scan(Done, 53, "hello");
    assert "hel" + [input[50]] == "hell";
    assert StringBody(input, 50, "hel") == Scan(Done, 53, "hello");
    assert "he" + [input[49]] == "hel";
    assert StringBody(input, 49, "he") == Scan(Done, 53, "hello");
    assert "h" + [input[48]] == "he";
    assert StringBody(input, 48, "h") == Scan(Done, 53, "hello");
    assert "" + [input[47]] == "h";
    assert StringBody(input, 47, []) == Scan(Done, 53, "hello");
    assert input[46] == '"';
    assert Next(input, Lexer(46, "key", 1, None)) == (Token(TokenString, "hello"), Lexer(53, "hello", 1, None));
  }

  lemma ArrayTestToken25(input: string)
    requires |input| == 55
    requires input[53] == '}' && input[54] == ']'
    ensures Next(input, Lexer(53, "hello", 1, None)) == (Token(TokenRBrace, "}"), Lexer(54, "hello", 1, None))
  {
    assert input[53] == '}';
    assert Next(input, Lexer(53, "hello", 1, None)) == (Token(TokenRBrace, "}"), Lexer(54, "hello", 1, None));
  }

  lemma ArrayTestToken26(input: string)
    requires |input| == 55
    requires input[54] == ']'
    ensures Next(input, Lexer(54, "hello", 1, None)) == (Token(TokenRBracket, "]"), Lexer(55, "hello", 1, None))
  {
    assert input[54] == ']';
    assert Next(input, Lexer(54, "hello", 1, None)) == (Token(TokenRBracket, "]"), Lexer(55, "hello", 1, None));
  }

  lemma ArrayTestMembers27(input: string, ms: seq<Member>)
    requires ArrayTestChars(input)
    requires "key" !in Keys(ms)
    ensures ObjectMembers(input, PState(Lexer(45, "key", 1, None), Token(TokenString, "key")), ms) ==
      (Ok(Object(ms + [Member("key", String("hello"))])), PState(Lexer(55, "hello", 1, None), Token(TokenRBracket, "]")))
  {
    ArrayTestToken23(input);
    ArrayTestToken24(input);
    ArrayTestToken25(input);
    assert ParseValue(input, PState(Lexer(53, "hello", 1, None), Token(TokenString, "hello"))) == (Ok(String("hello")), PState(Lexer(54, "hello", 1, None), Token(TokenRBrace, "}")));
    SetFieldAppend(ms, "key", String("hello"), ms + [Member("key", String("hello"))]);
    ArrayTestToken26(input);
    assert CloseObject(input, PState(Lexer(54, "hello", 1, None), Token(TokenRBrace, "}")), ms + [Member("key", String("hello"))]) == (Ok(Object(ms + [Member("key", String("hello"))])), PState(Lexer(55, "hello", 1, None), Token(TokenRBracket, "]")));
  }

  lemma ArrayTestObject28(input: string)
    requires ArrayTestChars(input)
    ensures ParseObject(input, PState(Lexer(40, "2", 1, None), Token(TokenLBrace, "{"))) ==
      (Ok(Object([Member("key", String("hello"))])), PState(Lexer(55, "hello", 1, None), Token(TokenRBracket, "]")))
  {
    ArrayTestToken22(input);
    ArrayTestMembers27(input, []);
    Appended1(Member("key", String("hello")));
  }

  lemma ArrayTestToken29(input: string)
    requires |input| == 55
    ensures Next(input, Lexer(55, "hello", 1, None)) == (Token(TokenEOF, ""), Lexer(55, "hello", 1, None))
  {
    assert Next(input, Lexer(55, "hello", 1, None)) == (Token(TokenEOF, ""), Lexer(55, "hello", 1, None));
  }

  lemma ArrayTestElements30(input: string, es: seq<Value>)
    requires ArrayTestChars(input)
    ensures ArrayElements(input, PState(Lexer(40, "2", 1, None), Token(TokenLBrace, "{")), es) ==
      (Ok(Array(es + [Object([Member("key", String("hello"))])])), PState(Lexer(55, "hello", 1, None), Token(TokenEOF, "")))
  {
    ArrayTestObject28(input);
    ArrayTestToken29(input);
    assert CloseArray(input, PState(Lexer(55, "hello", 1, None), Token(TokenRBracket, "]")), es + [Object([Member("key", String("hello"))])]) == (Ok(Array(es + [Object([Member("key", String("hello"))])])), PState(Lexer(55, "hello", 1, None), Token(TokenEOF, "")));
    assert ArrayNext(input, PState(Lexer(55, "hello", 1, None), Token(TokenRBracket, "]")), es + [Object([Member("key", String("hello"))])]) == (Ok(Array(es + [Object([Member("key", String("hello"))])])), PState(Lexer(55, "hello", 1, None), Token(TokenEOF, "")));
  }

  lemma ArrayTestElements31(input: string, es: seq<Value>)
    requires ArrayTestChars(input)
    ensures ArrayElements(input, PState(Lexer(33, "key", 1, None), Token(TokenLBracket, "[")), es) ==
      (Ok(Array(es + [Array([Number(1), Number(2)])] + [Object([Member("key", String("hello"))])])), PState(Lexer(55, "hello", 1, None), Token(TokenEOF, "")))
  {
    ArrayTestArray20(input);
    ArrayTestToken21(input);
    ArrayTestElements30(input, es + [Array([Number(1), Number(2)])]);
    assert ArrayNext(input, PState(Lexer(39, "2", 1, None), Token(TokenComma, ",")), es + [Array([Number(1), Number(2)])]) == (Ok(Array(es + [Array([Number(1), Number(2)])] + [Object([Member("key", String("hello"))])])), PState(Lexer(55, "hello", 1, None), Token(TokenEOF, "")));
  }

  lemma ArrayTestElements32(input: string, es: seq<Value>)
    requires ArrayTestChars(input)
    ensures ArrayElements(input, PState(Lexer(31, "key", 1, None), Token(TokenString, "key")), es) ==
      (Ok(Array(es + [String("key")] + [Array([Number(1), Number(2)])] + [Object([Member("key", String("hello"))])])), PState(Lexer(55, "hello", 1, None), Token(TokenEOF, "")))
  {
    ArrayTestToken11(input);
    ArrayTestToken12(input);
    ArrayTestElements31(input, es + [String("key")]);
    assert ArrayNext(input, PState(Lexer(32, "key", 1, None), Token(TokenComma, ",")), es + [String("key")]) == (Ok(Array(es + [String("key")] + [Array([Number(1), Number(2)])] + [Object([Member("key", String("hello"))])])), PState(Lexer(55, "hello", 1, None), Token(TokenEOF, "")));
  }

  lemma ArrayTestElements33(input: string, es: seq<Value>)
    requires ArrayTestChars(input)
    ensures ArrayElements(input, PState(Lexer(24, "key", 1, None), Token(TokenString, "key")), es) ==
      (Ok(Array(es + [String("key")] + [String("key")] + [Array([Number(1), Number(2)])] + [Object([Member("key", String("hello"))])])), PState(Lexer(55, "hello", 1, None), Token(TokenEOF, "")))
  {
    ArrayTestToken9(input);
    ArrayTestToken10(input);
    ArrayTestElements32(input, es + [String("key")]);
    assert ArrayNext(input, PState(Lexer(25, "key", 1, None), Token(TokenComma, ",")), es + [String("key")]) == (Ok(Array(es + [String("key")] + [String("key")] + [Array([Number(1), Number(2)])] + [Object([Member("key", String("hello"))])])), PState(Lexer(55, "hello", 1, None), Token(TokenEOF, "")));
  }

  lemma ArrayTestElements34(input: string, es: seq<Value>)
    requires ArrayTestChars(input)
    ensures ArrayElements(input, PState(Lexer(17, "false", 1, None), Token(TokenFalse, "false")), es) ==
      (Ok(Array(es + [Bool(false)] + [String("key")] + [String("key")] + [Array([Number(1), Number(2)])] + [Object([Member("key", String("hello"))])])), PState(Lexer(55, "hello", 1, None), Token(TokenEOF, "")))
  {
    ArrayTestToken7(input);
    ArrayTestToken8(input);
    ArrayTestElements33(input, es + [Bool(false)]);
    assert ArrayNext(input, PState(Lexer(18, "false", 1, None), Token(TokenComma, ",")), es + [Bool(false)]) == (Ok(Array(es + [Bool(false)] + [String("key")] + [String("key")] + [Array([Number(1), Number(2)])] + [Object([Member("key", String("hello"))])])), PState(Lexer(55, "hello", 1, None), Token(TokenEOF, "")));
  }

  lemma ArrayTestElements35(input: string, es: seq<Value>)
    requires ArrayTestChars(input)
    ensures ArrayElements(input, PState(Lexer(10, "true", 1, None), Token(TokenTrue, "true")), es) ==
      (Ok(Array(es + [Bool(true)] + [Bool(false)] + [String("key")] + [String("key")] + [Array([Number(1), Number(2)])] + [Object([Member("key", String("hello"))])])), PState(Lexer(55, "hello", 1, None), Token(TokenEOF, "")))
  {
    ArrayTestToken5(input);
    ArrayTestToken6(input);
    ArrayTestElements34(input, es + [Bool(true)]);
    assert ArrayNext(input, PState(Lexer(11, "true", 1, None), Token(TokenComma, ",")), es + [Bool(true)]) == (Ok(Array(es + [Bool(true)] + [Bool(false)] + [String("key")] + [String("key")] + [Array([Number(1), Number(2)])] + [Object([Member("key", String("hello"))])])), PState(Lexer(55, "hello", 1, None), Token(TokenEOF, "")));
  }

  lemma ArrayTestElements36(input: string, es: seq<Value>)
    requires ArrayTestChars(input)
    ensures ArrayElements(input, PState(Lexer(5, "null", 1, None), Token(TokenNull, "null")), es) ==
      (Ok(Array(es + [Null] + [Bool(true)] + [Bool(false)] + [String("key")] + [String("key")] + [Array([Number(1), Number(2)])] + [Object([Member("key", String("hello"))])])), PState(Lexer(55, "hello", 1, None), Token(TokenEOF, "")))
  {
    ArrayTestToken3(input);
    ArrayTestToken4(input);
    ArrayTestElements35(input, es + [Null]);
    assert ArrayNext(input, PState(Lexer(6, "null", 1, None), Token(TokenComma, ",")), es + [Null]) == (Ok(Array(es + [Null] + [Bool(true)] + [Bool(false)] + [String("key")] + [String("key")] + [Array([Number(1), Number(2)])] + [Object([Member("key", String("hello"))])])), PState(Lexer(55, "hello", 1, None), Token(TokenEOF, "")));
  }

  lemma ArrayTestArray37(input: string)
    requires ArrayTestChars(input)
    ensures ParseArray(input, PState(Lexer(1, "", 1, None), Token(TokenLBracket, "["))) ==
      (Ok(Array([Null, Bool(true), Bool(false), String("key"), String("key"), Array([Number(1), Number(2)]), Object([Member("key", String("hello"))])])), PState(Lexer(55, "hello", 1, None), Token(TokenEOF, "")))
  {
    ArrayTestToken2(input);
    ArrayTestElements36(input, []);
    Appended7(Null, Bool(true), Bool(false), String("key"), String("key"), Array([Number(1), Number(2)]), Object([Member("key", String("hello"))]));
  }

  lemma ArrayTestOutcome38(input: string)
    requires ArrayTestChars(input)
    ensures ParseFrom(input, Start) == Parsed(Array([Null, Bool(true), Bool(false), String("key"), String("key"), Array([Number(1), Number(2)]), Object([Member("key", String("hello"))])]))
  {
    ArrayTestToken1(input);
    ArrayTestArray37(input);
  }

  const EmptyTextText: string := ""

  /** parser_test.go:169-186: the empty text has no value at all. */
  lemma EmptyText()
    ensures Parse(EmptyTextText) == Rejected(UnexpectedEOF)
  {
    EmptyTextCharsOf(EmptyTextText);
    EmptyTextOutcome2(EmptyTextText);
  }

  /** The characters of EmptyTextText, one by one. */
  predicate EmptyTextChars(s: string)
  {
    |s| == 0
  }

  lemma EmptyTextCharsOf(input: string)
    requires input == ""
    ensures EmptyTextChars(input)
  {
  }

  lemma EmptyTextToken1(input: string)
    requires |input| == 0
    ensures Next(input, Lexer(0, "", 1, None)) == (Token(TokenEOF, ""), Lexer(0, "", 1, None))
  {
    assert Next(input, Lexer(0, "", 1, None)) == (Token(TokenEOF, ""), Lexer(0, "", 1, None));
  }

  lemma EmptyTextOutcome2(input: string)
    requires EmptyTextChars(input)
    ensures ParseFrom(input, Start) == Rejected(UnexpectedEOF)
  {
    EmptyTextToken1(input);
  }

  const BareNumberText: string := "1"

  /** parser_test.go:169-186: a bare number is not an object or an array. */
  lemma BareNumber()
    ensures Parse(BareNumberText) == Rejected(ExpectedRoot("1"))
  {
    BareNumberCharsOf(BareNumberText);
    BareNumberOutcome2(BareNumberText);
  }

  /** The characters of BareNumberText, one by one. */
  predicate BareNumberChars(s: string)
  {
    |s| == 1 &&
    s[0] == '1'
  }

  lemma BareNumberChars1(input: string)
    requires input == "1"
    ensures input[0] == '1'
  {
  }

  lemma BareNumberCharsOf(input: string)
    requires input == "1"
    ensures BareNumberChars(input)
  {
    BareNumberChars1(input);
  }

  lemma BareNumberToken1(input: string)
    requires |input| == 1
    requires input[0] == '1'
    ensures Next(input, Lexer(0, "", 1, None)) == (Token(TokenNumber, "1"), Lexer(1, "1", 1, None))
  {
    assert NumberRun(input, 1, "1") == Scan(Done, 1, "1");
    assert "" + [input[0]] == "1";
    assert NumberRun(input, 0, []) == Scan(Done, 1, "1");
    assert input[0] == '1';
    DigitStartsNumber(input, Lexer(0, "", 1, None), 1, "1");
  }

  lemma BareNumberOutcome2(input: string)
    requires BareNumberChars(input)
    ensures ParseFrom(input, Start) == Rejected(ExpectedRoot("1"))
  {
    BareNumberToken1(input);
  }

  const KeyWithoutValueText: string := "{\"key\"}"

  /** parser_test.go:169-186: a key must be followed by a colon. */
  lemma KeyWithoutValue()
    ensures Parse(KeyWithoutValueText) == Rejected(ExpectedColon("}"))
  {
    KeyWithoutValueCharsOf(KeyWithoutValueText);
    KeyWithoutValueOutcome6(KeyWithoutValueText);
  }

  /** The characters of KeyWithoutValueText, one by one. */
  predicate KeyWithoutValueChars(s: string)
  {
    |s| == 7 &&
    s[0] == '{' && s[1] == '"' && s[2] == 'k' && s[3] == 'e' && s[4] == 'y' && s[5] == '"' &&
    s[6] == '}'
  }

  lemma KeyWithoutValueChars1(input: string)
    requires input == "{\"key\"}"
    ensures input[0] == '{' && input[1] == '"' && input[2] == 'k' && input[3] == 'e' && input[4] == 'y' && input[5] == '"'
  {
  }

  lemma KeyWithoutValueChars2(input: string)
    requires input == "{\"key\"}"
    ensures input[6] == '}'
  {
  }

  lemma KeyWithoutValueCharsOf(input: string)
    requires input == "{\"key\"}"
    ensures KeyWithoutValueChars(input)
  {
    KeyWithoutValueChars1(input);
    KeyWithoutValueChars2(input);
  }

  lemma KeyWithoutValueToken1(input: string)
    requires |input| == 7
    requires input[0] == '{' && input[1] == '"'
    ensures Next(input, Lexer(0, "", 1, None)) == (Token(TokenLBrace, "{"), Lexer(1, "", 1, None))
  {
    assert input[0] == '{';
    assert Next(input, Lexer(0, "", 1, None)) == (Token(TokenLBrace, "{"), Lexer(1, "", 1, None));
  }

  lemma KeyWithoutValueToken2(input: string)
    requires |input| == 7
    requires input[1] == '"' && input[2] == 'k' && input[3] == 'e' && input[4] == 'y' && input[5] == '"' && input[6] == '}'
    ensures Next(input, Lexer(1, "", 1, None)) == (Token(TokenString, "key"), Lexer(6, "key", 1, None))
  {
    assert StringBody(input, 5, "key") == Scan(Done, 6, "key");
    assert "ke" + [input[4]] == "key";
    assert StringBody(input, 4, "ke") == Scan(Done, 6, "key");
    assert "k" + [input[3]] == "ke";
    assert StringBody(input, 3, "k") == Scan(Done, 6, "key");
    assert "" + [input[2]] == "k";
    assert StringBody(input, 2, []) == Scan(Done, 6, "key");
    assert input[1] == '"';
    assert Next(input, Lexer(1, "", 1, None)) == (Token(TokenString, "key"), Lexer(6, "key", 1, None));
  }

  lemma KeyWithoutValueToken3(input: string)
    requires |input| == 7
    requires input[6] == '}'
    ensures Next(input, Lexer(6, "key", 1, None)) == (Token(TokenRBrace, "}"), Lexer(7, "key", 1, None))
  {
    assert input[6] == '}';
    assert Next(input, Lexer(6, "key", 1, None)) == (Token(TokenRBrace, "}"), Lexer(7, "key", 1, None));
  }

  lemma KeyWithoutValueMembers4(input: string, ms: seq<Member>)
    requires KeyWithoutValueChars(input)
    requires "key" !in Keys(ms)
    ensures ObjectMembers(input, PState(Lexer(6, "key", 1, None), Token(TokenString, "key")), ms) ==
      (Err(ExpectedColon("}")), PState(Lexer(7, "key", 1, None), Token(TokenRBrace, "}")))
  {
    KeyWithoutValueToken3(input);
  }

  lemma KeyWithoutValueObject5(input: string)
    requires KeyWithoutValueChars(input)
    ensures ParseObject(input, PState(Lexer(1, "", 1, None), Token(TokenLBrace, "{"))) ==
      (Err(ExpectedColon("}")), PState(Lexer(7, "key", 1, None), Token(TokenRBrace, "}")))
  {
    KeyWithoutValueToken2(input);
    KeyWithoutValueMembers4(input, []);
  }

  lemma KeyWithoutValueOutcome6(input: string)
    requires KeyWithoutValueChars(input)
    ensures ParseFrom(input, Start) == Rejected(ExpectedColon("}"))
  {
    KeyWithoutValueToken1(input);
    KeyWithoutValueObject5(input);
  }

  const UnquotedKeyText: string := "{key:123}"

  /** parser_test.go:169-186: a key must be a string. */
  lemma UnquotedKey()
    ensures Parse(UnquotedKeyText) == Rejected(ExpectedMember("key"))
  {
    UnquotedKeyCharsOf(UnquotedKeyText);
    UnquotedKeyOutcome5(UnquotedKeyText);
  }

  /** The characters of UnquotedKeyText, one by one. */
  predicate UnquotedKeyChars(s: string)
  {
    |s| == 9 &&
    s[0] == '{' && s[1] == 'k' && s[2] == 'e' && s[3] == 'y' && s[4] == ':' && s[5] == '1' &&
    s[6] == '2' && s[7] == '3' && s[8] == '}'
  }

  lemma UnquotedKeyChars1(input: string)
    requires input == "{key:123}"
    ensures input[0] == '{' && input[1] == 'k' && input[2] == 'e' && input[3] == 'y' && input[4] == ':' && input[5] == '1'
  {
  }

  lemma UnquotedKeyChars2(input: string)
    requires input == "{key:123}"
    ensures input[6] == '2' && input[7] == '3' && input[8] == '}'
  {
  }

  lemma UnquotedKeyCharsOf(input: string)
    requires input == "{key:123}"
    ensures UnquotedKeyChars(input)
  {
    UnquotedKeyChars1(input);
    UnquotedKeyChars2(input);
  }

  lemma UnquotedKeyToken1(input: string)
    requires |input| == 9
    requires input[0] == '{' && input[1] == 'k'
    ensures Next(input, Lexer(0, "", 1, None)) == (Token(TokenLBrace, "{"), Lexer(1, "", 1, None))
  {
    assert input[0] == '{';
    assert Next(input, Lexer(0, "", 1, None)) == (Token(TokenLBrace, "{"), Lexer(1, "", 1, None));
  }

  lemma UnquotedKeyToken2(input: string)
    requires |input| == 9
    requires input[1] == 'k' && input[2] == 'e' && input[3] == 'y' && input[4] == ':'
    ensures Next(input, Lexer(1, "", 1, None)) == (Token(TokenInvalid, "key"), Lexer(4, "key", 1, None))
  {
    assert IdentRun(input, 4, "key") == Scan(Done, 4, "key");
    assert "ke" + [input[3]] == "key";
    assert IdentRun(input, 3, "ke") == Scan(Done, 4, "key");
    assert "k" + [input[2]] == "ke";
    assert IdentRun(input, 2, "k") == Scan(Done, 4, "key");
    assert "" + [input[1]] == "k";
    assert IdentRun(input, 1, []) == Scan(Done, 4, "key");
    assert input[1] == 'k';
    assert Next(input, Lexer(1, "", 1, None)) == (Token(TokenInvalid, "key"), Lexer(4, "key", 1, None));
  }

  lemma UnquotedKeyMembers3(input: string, ms: seq<Member>)
    requires UnquotedKeyChars(input)
    ensures ObjectMembers(input, PState(Lexer(4, "key", 1, None), Token(TokenInvalid, "key")), ms) ==
      (Err(ExpectedMember("key")), PState(Lexer(4, "key", 1, None), Token(TokenInvalid, "key")))
  {
    assert CloseObject(input, PState(Lexer(4, "key", 1, None), Token(TokenInvalid, "key")), ms) == (Err(ExpectedMember("key")), PState(Lexer(4, "key", 1, None), Token(TokenInvalid, "key")));
  }

  lemma UnquotedKeyObject4(input: string)
    requires UnquotedKeyChars(input)
    ensures ParseObject(input, PState(Lexer(1, "", 1, None), Token(TokenLBrace, "{"))) ==
      (Err(ExpectedMember("key")), PState(Lexer(4, "key", 1, None), Token(TokenInvalid, "key")))
  {
    UnquotedKeyToken2(input);
    UnquotedKeyMembers3(input, []);
  }

  lemma UnquotedKeyOutcome5(input: string)
    requires UnquotedKeyChars(input)
    ensures ParseFrom(input, Start) == Rejected(ExpectedMember("key"))
  {
    UnquotedKeyToken1(input);
    UnquotedKeyObject4(input);
  }

  const LettersAfterNumberText: string := "{\"key\":123df}"

  /** parser_test.go:169-186: letters after a number are a stray word. */
  lemma LettersAfterNumber()
    ensures Parse(LettersAfterNumberText) == Rejected(ExpectedMember("df"))
  {
    LettersAfterNumberCharsOf(LettersAfterNumberText);
    LettersAfterNumberOutcome8(LettersAfterNumberText);
  }

  /** The characters of LettersAfterNumberText, one by one. */
  predicate LettersAfterNumberChars(s: string)
  {
    |s| == 13 &&
    s[0] == '{' && s[1] == '"' && s[2] == 'k' && s[3] == 'e' && s[4] == 'y' && s[5] == '"' &&
    s[6] == ':' && s[7] == '1' && s[8] == '2' && s[9] == '3' && s[10] == 'd' && s[11] == 'f' &&
    s[12] == '}'
  }

  lemma LettersAfterNumberChars1(input: string)
    requires input == "{\"key\":123df}"
    ensures input[0] == '{' && input[1] == '"' && input[2] == 'k' && input[3] == 'e' && input[4] == 'y' && input[5] == '"'
  {
  }

  lemma LettersAfterNumberChars2(input: string)
    requires input == "{\"key\":123df}"
    ensures input[6] == ':' && input[7] == '1' && input[8] == '2' && input[9] == '3' && input[10] == 'd' && input[11] == 'f'
  {
  }

  lemma LettersAfterNumberChars3(input: string)
    requires input == "{\"key\":123df}"
    ensures input[12] == '}'
  {
  }

  lemma LettersAfterNumberCharsOf(input: string)
    requires input == "{\"key\":123df}"
    ensures LettersAfterNumberChars(input)
  {
    LettersAfterNumberChars1(input);
    LettersAfterNumberChars2(input);
    LettersAfterNumberChars3(input);
  }

  lemma LettersAfterNumberToken1(input: string)
    requires |input| == 13
    requires input[0] == '{' && input[1] == '"'
    ensures Next(input, Lexer(0, "", 1, None)) == (Token(TokenLBrace, "{"), Lexer(1, "", 1, None))
  {
    assert input[0] == '{';
    assert Next(input, Lexer(0, "", 1, None)) == (Token(TokenLBrace, "{"), Lexer(1, "", 1, None));
  }

  lemma LettersAfterNumberToken2(input: string)
    requires |input| == 13
    requires input[1] == '"' && input[2] == 'k' && input[3] == 'e' && input[4] == 'y' && input[5] == '"' && input[6] == ':'
    ensures Next(input, Lexer(1, "", 1, None)) == (Token(TokenString, "key"), Lexer(6, "key", 1, None))
  {
    assert StringBody(input, 5, "key") == Scan(Done, 6, "key");
    assert "ke" + [input[4]] == "key";
    assert StringBody(input, 4, "ke") == Scan(Done, 6, "key");
    assert "k" + [input[3]] == "ke";
    assert StringBody(input, 3, "k") == Scan(Done, 6, "key");
    assert "" + [input[2]] == "k";
    assert StringBody(input, 2, []) == Scan(Done, 6, "key");
    assert input[1] == '"';
    assert Next(input, Lexer(1, "", 1, None)) == (Token(TokenString, "key"), Lexer(6, "key", 1, None));
  }

  lemma LettersAfterNumberToken3(input: string)
    requires |input| == 13
    requires input[6] == ':' && input[7] == '1'
    ensures Next(input, Lexer(6, "key", 1, None)) == (Token(TokenColon, ":"), Lexer(7, "key", 1, None))
  {
    assert input[6] == ':';
    assert Next(input, Lexer(6, "key", 1, None)) == (Token(TokenColon, ":"), Lexer(7, "key", 1, None));
  }

  lemma LettersAfterNumberToken4(input: string)
    requires |input| == 13
    requires input[7] == '1' && input[8] == '2' && input[9] == '3' && input[10] == 'd'
    ensures Next(input, Lexer(7, "key", 1, None)) == (Token(TokenNumber, "123"), Lexer(10, "123", 1, None))
  {
    assert NumberRun(input, 10, "123") == Scan(Done, 10, "123");
    assert "12" + [input[9]] == "123";
    assert NumberRun(input, 9, "12") == Scan(Done, 10, "123");
    assert "1" + [input[8]] == "12";
    assert NumberRun(input, 8, "1") == Scan(Done, 10, "123");
    assert "" + [input[7]] == "1";
    assert NumberRun(input, 7, []) == Scan(Done, 10, "123");
    assert input[7] == '1';
    DigitStartsNumber(input, Lexer(7, "key", 1, None), 10, "123");
  }

  lemma LettersAfterNumberToken5(input: string)
    requires |input| == 13
    requires input[10] == 'd' && input[11] == 'f' && input[12] == '}'
    ensures Next(input, Lexer(10, "123", 1, None)) == (Token(TokenInvalid, "df"), Lexer(12, "df", 1, None))
  {
    assert IdentRun(input, 12, "df") == Scan(Done, 12, "df");
    assert "d" + [input[11]] == "df";
    assert IdentRun(input, 11, "d") == Scan(Done, 12, "df");
    assert "" + [input[10]] == "d";
    assert IdentRun(input, 10, []) == Scan(Done, 12, "df");
    assert input[10] == 'd';
    assert Next(input, Lexer(10, "123", 1, None)) == (Token(TokenInvalid, "df"), Lexer(12, "df", 1, None));
  }

  lemma LettersAfterNumberMembers6(input: string, ms: seq<Member>)
    requires LettersAfterNumberChars(input)
    requires "key" !in Keys(ms)
    ensures ObjectMembers(input, PState(Lexer(6, "key", 1, None), Token(TokenString, "key")), ms) ==
      (Err(ExpectedMember("df")), PState(Lexer(12, "df", 1, None), Token(TokenInvalid, "df")))
  {
    LettersAfterNumberToken3(input);
    LettersAfterNumberToken4(input);
    assert Itoa(123) == "123";
    AtoiItoa(123);
    LettersAfterNumberToken5(input);
    assert ParseValue(input, PState(Lexer(10, "123", 1, None), Token(TokenNumber, "123"))) == (Ok(Number(123)), PState(Lexer(12, "df", 1, None), Token(TokenInvalid, "df")));
    SetFieldAppend(ms, "key", Number(123), ms + [Member("key", Number(123))]);
    assert CloseObject(input, PState(Lexer(12, "df", 1, None), Token(TokenInvalid, "df")), ms + [Member("key", Number(123))]) == (Err(ExpectedMember("df")), PState(Lexer(12, "df", 1, None), Token(TokenInvalid, "df")));
  }

  lemma LettersAfterNumberObject7(input: string)
    requires LettersAfterNumberChars(input)
    ensures ParseObject(input, PState(Lexer(1, "", 1, None), Token(TokenLBrace, "{"))) ==
      (Err(ExpectedMember("df")), PState(Lexer(12, "df", 1, None), Token(TokenInvalid, "df")))
  {
    LettersAfterNumberToken2(input);
    LettersAfterNumberMembers6(input, []);
  }

  lemma LettersAfterNumberOutcome8(input: string)
    requires LettersAfterNumberChars(input)
    ensures ParseFrom(input, Start) == Rejected(ExpectedMember("df"))
  {
    LettersAfterNumberToken1(input);
    LettersAfterNumberObject7(input);
  }

  const BadEscapeText: string := "{\"key\":\"kk\\h\"}"

  /** parser_test.go:169-186: an invalid escape is the scanner error. */
  lemma BadEscape()
    ensures Parse(BadEscapeText) == Rejected(Lexical(InvalidEscape('h')))
  {
    BadEscapeCharsOf(BadEscapeText);
    BadEscapeOutcome7(BadEscapeText);
  }

  /** The characters of BadEscapeText, one by one. */
  predicate BadEscapeChars(s: string)
  {
    |s| == 14 &&
    s[0] == '{' && s[1] == '"' && s[2] == 'k' && s[3] == 'e' && s[4] == 'y' && s[5] == '"' &&
    s[6] == ':' && s[7] == '"' && s[8] == 'k' && s[9] == 'k' && s[10] == '\\' && s[11] == 'h' &&
    s[12] == '"' && s[13] == '}'
  }

  lemma BadEscapeChars1(input: string)
    requires input == "{\"key\":\"kk\\h\"}"
    ensures input[0] == '{' && input[1] == '"' && input[2] == 'k' && input[3] == 'e' && input[4] == 'y' && input[5] == '"'
  {
  }

  lemma BadEscapeChars2(input: string)
    requires input == "{\"key\":\"kk\\h\"}"
    ensures input[6] == ':' && input[7] == '"' && input[8] == 'k' && input[9] == 'k' && input[10] == '\\' && input[11] == 'h'
  {
  }

  lemma BadEscapeChars3(input: string)
    requires input == "{\"key\":\"kk\\h\"}"
    ensures input[12] == '"' && input[13] == '}'
  {
  }

  lemma BadEscapeCharsOf(input: string)
    requires input == "{\"key\":\"kk\\h\"}"
    ensures BadEscapeChars(input)
  {
    BadEscapeChars1(input);
    BadEscapeChars2(input);
    BadEscapeChars3(input);
  }

  lemma BadEscapeToken1(input: string)
    requires |input| == 14
    requires input[0] == '{' && input[1] == '"'
    ensures Next(input, Lexer(0, "", 1, None)) == (Token(TokenLBrace, "{"), Lexer(1, "", 1, None))
  {
    assert input[0] == '{';
    assert Next(input, Lexer(0, "", 1, None)) == (Token(TokenLBrace, "{"), Lexer(1, "", 1, None));
  }

  lemma BadEscapeToken3(input: string)
    requires |input| == 14
    requires input[6] == ':' && input[7] == '"'
    ensures Next(input, Lexer(6, "key", 1, None)) == (Token(TokenColon, ":"), Lexer(7, "key", 1, None))
  {
    assert input[6] == ':';
    assert Next(input, Lexer(6, "key", 1, None)) == (Token(TokenColon, ":"), Lexer(7, "key", 1, None));
  }

  lemma BadEscapeToken4(input: string)
    requires |input| == 14
    requires input[7] == '"' && input[8] == 'k' && input[9] == 'k' && input[10] == '\\' && input[11] == 'h' && input[12] == '"'
    ensures Next(input, Lexer(7, "key", 1, None)) == (Token(TokenInvalid, "kk\\"), Lexer(12, "kk\\", 1, Some(InvalidEscape('h'))))
  {
    assert "kk" + ['\\'] == "kk\\";
    assert StringBody(input, 10, "kk") == Scan(Failed(InvalidEscape('h')), 12, "kk\\");
    assert "k" + [input[9]] == "kk";
    assert StringBody(input, 9, "k") == Scan(Failed(InvalidEscape('h')), 12, "kk\\");
    assert "" + [input[8]] == "k";
    assert StringBody(input, 8, []) == Scan(Failed(InvalidEscape('h')), 12, "kk\\");
    assert input[7] == '"';
    assert Next(input, Lexer(7, "key", 1, None)) == (Token(TokenInvalid, "kk\\"), Lexer(12, "kk\\", 1, Some(InvalidEscape('h'))));
  }

  lemma BadEscapeMembers5(input: string, ms: seq<Member>)
    requires BadEscapeChars(input)
    requires "key" !in Keys(ms)
    ensures ObjectMembers(input, PState(Lexer(6, "key", 1, None), Token(TokenString, "key")), ms) ==
      (Err(Lexical(InvalidEscape('h'))), PState(Lexer(12, "kk\\", 1, Some(InvalidEscape('h'))), Token(TokenInvalid, "kk\\")))
  {
    BadEscapeToken3(input);
    BadEscapeToken4(input);
    assert ParseValue(input, PState(Lexer(12, "kk\\", 1, Some(InvalidEscape('h'))), Token(TokenInvalid, "kk\\"))) == (Err(Lexical(InvalidEscape('h'))), PState(Lexer(12, "kk\\", 1, Some(InvalidEscape('h'))), Token(TokenInvalid, "kk\\")));
  }

  lemma BadEscapeObject6(input: string)
    requires BadEscapeChars(input)
    ensures ParseObject(input, PState(Lexer(1, "", 1, None), Token(TokenLBrace, "{"))) ==
      (Err(Lexical(InvalidEscape('h'))), PState(Lexer(12, "kk\\", 1, Some(InvalidEscape('h'))), Token(TokenInvalid, "kk\\")))
  {
    ScannerCases.ScanQuoteToken2(input);
    BadEscapeMembers5(input, []);
  }

  lemma BadEscapeOutcome7(input: string)
    requires BadEscapeChars(input)
    ensures ParseFrom(input, Start) == Rejected(Lexical(InvalidEscape('h')))
  {
    BadEscapeToken1(input);
    BadEscapeObject6(input);
  }

  const UnclosedStringText: string := "{\"key\":\"kk"

  /** parser_test.go:169-186: a string cut off by the end of the text. */
  lemma UnclosedString()
    ensures Parse(UnclosedStringText) == Rejected(ExpectedMember(""))
  {
    UnclosedStringCharsOf(UnclosedStringText);
    UnclosedStringOutcome8(UnclosedStringText);
  }

  /** The characters of UnclosedStringText, one by one. */
  predicate UnclosedStringChars(s: string)
  {
    |s| == 10 &&
    s[0] == '{' && s[1] == '"' && s[2] == 'k' && s[3] == 'e' && s[4] == 'y' && s[5] == '"' &&
    s[6] == ':' && s[7] == '"' && s[8] == 'k' && s[9] == 'k'
  }

  lemma UnclosedStringChars1(input: string)
    requires input == "{\"key\":\"kk"
    ensures input[0] == '{' && input[1] == '"' && input[2] == 'k' && input[3] == 'e' && input[4] == 'y' && input[5] == '"'
  {
  }

  lemma UnclosedStringChars2(input: string)
    requires input == "{\"key\":\"kk"
    ensures input[6] == ':' && input[7] == '"' && input[8] == 'k' && input[9] == 'k'
  {
  }

  lemma UnclosedStringCharsOf(input: string)
    requires input == "{\"key\":\"kk"
    ensures UnclosedStringChars(input)
  {
    UnclosedStringChars1(input);
    UnclosedStringChars2(input);
  }

  lemma UnclosedStringToken1(input: string)
    requires |input| == 10
    requires input[0] == '{' && input[1] == '"'
    ensures Next(input, Lexer(0, "", 1, None)) == (Token(TokenLBrace, "{"), Lexer(1, "", 1, None))
  {
    assert input[0] == '{';
    assert Next(input, Lexer(0, "", 1, None)) == (Token(TokenLBrace, "{"), Lexer(1, "", 1, None));
  }

  lemma UnclosedStringToken2(input: string)
    requires |input| == 10
    requires input[1] == '"' && input[2] == 'k' && input[3] == 'e' && input[4] == 'y' && input[5] == '"' && input[6] == ':'
    ensures Next(input, Lexer(1, "", 1, None)) == (Token(TokenString, "key"), Lexer(6, "key", 1, None))
  {
    assert StringBody(input, 5, "key") == Scan(Done, 6, "key");
    assert "ke" + [input[4]] == "key";
    assert StringBody(input, 4, "ke") == Scan(Done, 6, "key");
    assert "k" + [input[3]] == "ke";
    assert StringBody(input, 3, "k") == Scan(Done, 6, "key");
    assert "" + [input[2]] == "k";
    assert StringBody(input, 2, []) == Scan(Done, 6, "key");
    assert input[1] == '"';
    assert Next(input, Lexer(1, "", 1, None)) == (Token(TokenString, "key"), Lexer(6, "key", 1, None));
  }

  lemma UnclosedStringToken3(input: string)
    requires |input| == 10
    requires input[6] == ':' && input[7] == '"'
    ensures Next(input, Lexer(6, "key", 1, None)) == (Token(TokenColon, ":"), Lexer(7, "key", 1, None))
  {
    assert input[6] == ':';
    assert Next(input, Lexer(6, "key", 1, None)) == (Token(TokenColon, ":"), Lexer(7, "key", 1, None));
  }

  lemma UnclosedStringToken4(input: string)
    requires |input| == 10
    requires input[7] == '"' && input[8] == 'k' && input[9] == 'k'
    ensures Next(input, Lexer(7, "key", 1, None)) == (Token(TokenString, "kk"), Lexer(10, "kk", 1, None))
  {
    assert StringBody(input, 10, "kk") == Scan(Done, 10, "kk");
    assert "k" + [input[9]] == "kk";
    assert StringBody(input, 9, "k") == Scan(Done, 10, "kk");
    assert "" + [input[8]] == "k";
    assert StringBody(input, 8, []) == Scan(Done, 10, "kk");
    assert input[7] == '"';
    assert Next(input, Lexer(7, "key", 1, None)) == (Token(TokenString, "kk"), Lexer(10, "kk", 1, None));
  }

  lemma UnclosedStringToken5(input: string)
    requires |input| == 10
    ensures Next(input, Lexer(10, "kk", 1, None)) == (Token(TokenEOF, ""), Lexer(10, "kk", 1, None))
  {
    assert Next(input, Lexer(10, "kk", 1, None)) == (Token(TokenEOF, ""), Lexer(10, "kk", 1, None));
  }

  lemma UnclosedStringMembers6(input: string, ms: seq<Member>)
    requires UnclosedStringChars(input)
    requires "key" !in Keys(ms)
    ensures ObjectMembers(input, PState(Lexer(6, "key", 1, None), Token(TokenString, "key")), ms) ==
      (Err(ExpectedMember("")), PState(Lexer(10, "kk", 1, None), Token(TokenEOF, "")))
  {
    UnclosedStringToken3(input);
    UnclosedStringToken4(input);
    UnclosedStringToken5(input);
    assert ParseValue(input, PState(Lexer(10, "kk", 1, None), Token(TokenString, "kk"))) == (Ok(String("kk")), PState(Lexer(10, "kk", 1, None), Token(TokenEOF, "")));
    SetFieldAppend(ms, "key", String("kk"), ms + [Member("key", String("kk"))]);
    assert CloseObject(input, PState(Lexer(10, "kk", 1, None), Token(TokenEOF, "")), ms + [Member("key", String("kk"))]) == (Err(ExpectedMember("")), PState(Lexer(10, "kk", 1, None), Token(TokenEOF, "")));
  }

  lemma UnclosedStringObject7(input: string)
    requires UnclosedStringChars(input)
    ensures ParseObject(input, PState(Lexer(1, "", 1, None), Token(TokenLBrace, "{"))) ==
      (Err(ExpectedMember("")), PState(Lexer(10, "kk", 1, None), Token(TokenEOF, "")))
  {
    UnclosedStringToken2(input);
    UnclosedStringMembers6(input, []);
  }

  lemma UnclosedStringOutcome8(input: string)
    requires UnclosedStringChars(input)
    ensures ParseFrom(input, Start) == Rejected(ExpectedMember(""))
  {
    UnclosedStringToken1(input);
    UnclosedStringObject7(input);
  }

  const UnclosedObjectText: string := "{"

  /** parser_test.go:169-186: an object cut off by the end of the text. */
  lemma UnclosedObject()
    ensures Parse(UnclosedObjectText) == Rejected(ExpectedMember(""))
  {
    UnclosedObjectCharsOf(UnclosedObjectText);
    UnclosedObjectOutcome5(UnclosedObjectText);
  }

  /** The characters of UnclosedObjectText, one by one. */
  predicate UnclosedObjectChars(s: string)
  {
    |s| == 1 &&
    s[0] == '{'
  }

  lemma UnclosedObjectChars1(input: string)
    requires input == "{"
    ensures input[0] == '{'
  {
  }

  lemma UnclosedObjectCharsOf(input: string)
    requires input == "{"
    ensures UnclosedObjectChars(input)
  {
    UnclosedObjectChars1(input);
  }

  lemma UnclosedObjectToken1(input: string)
    requires |input| == 1
    requires input[0] == '{'
    ensures Next(input, Lexer(0, "", 1, None)) == (Token(TokenLBrace, "{"), Lexer(1, "", 1, None))
  {
    assert input[0] == '{';
    assert Next(input, Lexer(0, "", 1, None)) == (Token(TokenLBrace, "{"), Lexer(1, "", 1, None));
  }

  lemma UnclosedObjectToken2(input: string)
    requires |input| == 1
    ensures Next(input, Lexer(1, "", 1, None)) == (Token(TokenEOF, ""), Lexer(1, "", 1, None))
  {
    assert Next(input, Lexer(1, "", 1, None)) == (Token(TokenEOF, ""), Lexer(1, "", 1, None));
  }

  lemma UnclosedObjectMembers3(input: string, ms: seq<Member>)
    requires UnclosedObjectChars(input)
    ensures ObjectMembers(input, PState(Lexer(1, "", 1, None), Token(TokenEOF, "")), ms) ==
      (Err(ExpectedMember("")), PState(Lexer(1, "", 1, None), Token(TokenEOF, "")))
  {
    assert CloseObject(input, PState(Lexer(1, "", 1, None), Token(TokenEOF, "")), ms) == (Err(ExpectedMember("")), PState(Lexer(1, "", 1, None), Token(TokenEOF, "")));
  }

  lemma UnclosedObjectObject4(input: string)
    requires UnclosedObjectChars(input)
    ensures ParseObject(input, PState(Lexer(1, "", 1, None), Token(TokenLBrace, "{"))) ==
      (Err(ExpectedMember("")), PState(Lexer(1, "", 1, None), Token(TokenEOF, "")))
  {
    UnclosedObjectToken2(input);
    UnclosedObjectMembers3(input, []);
  }

  lemma UnclosedObjectOutcome5(input: string)
    requires UnclosedObjectChars(input)
    ensures ParseFrom(input, Start) == Rejected(ExpectedMember(""))
  {
    UnclosedObjectToken1(input);
    UnclosedObjectObject4(input);
  }

  const RepeatedKeyText: string := "{\"a\":1,\"a\":2}"

  /** parser.go:55-58: the second occurrence of a key is an error. */
  lemma RepeatedKeyCase()
    ensures Parse(RepeatedKeyText) == Rejected(RepeatedKey("a"))
  {
    RepeatedKeyCaseCharsOf(RepeatedKeyText);
    RepeatedKeyCaseOutcome10(RepeatedKeyText);
  }

  /** The characters of RepeatedKeyText, one by one. */
  predicate RepeatedKeyCaseChars(s: string)
  {
    |s| == 13 &&
    s[0] == '{' && s[1] == '"' && s[2] == 'a' && s[3] == '"' && s[4] == ':' && s[5] == '1' &&
    s[6] == ',' && s[7] == '"' && s[8] == 'a' && s[9] == '"' && s[10] == ':' && s[11] == '2' &&
    s[12] == '}'
  }

  lemma RepeatedKeyCaseChars1(input: string)
    requires input == "{\"a\":1,\"a\":2}"
    ensures input[0] == '{' && input[1] == '"' && input[2] == 'a' && input[3] == '"' && input[4] == ':' && input[5] == '1'
  {
  }

  lemma RepeatedKeyCaseChars2(input: string)
    requires input == "{\"a\":1,\"a\":2}"
    ensures input[6] == ',' && input[7] == '"' && input[8] == 'a' && input[9] == '"' && input[10] == ':' && input[11] == '2'
  {
  }

  lemma RepeatedKeyCaseChars3(input: string)
    requires input == "{\"a\":1,\"a\":2}"
    ensures input[12] == '}'
  {
  }

  lemma RepeatedKeyCaseCharsOf(input: string)
    requires input == "{\"a\":1,\"a\":2}"
    ensures RepeatedKeyCaseChars(input)
  {
    RepeatedKeyCaseChars1(input);
    RepeatedKeyCaseChars2(input);
    RepeatedKeyCaseChars3(input);
  }

  lemma RepeatedKeyCaseToken1(input: string)
    requires |input| == 13
    requires input[0] == '{' && input[1] == '"'
    ensures Next(input, Lexer(0, "", 1, None)) == (Token(TokenLBrace, "{"), Lexer(1, "", 1, None))
  {
    assert input[0] == '{';
    assert Next(input, Lexer(0, "", 1, None)) == (Token(TokenLBrace, "{"), Lexer(1, "", 1, None));
  }

  lemma RepeatedKeyCaseToken2(input: string)
    requires |input| == 13
    requires input[1] == '"' && input[2] == 'a' && input[3] == '"' && input[4] == ':'
    ensures Next(input, Lexer(1, "", 1, None)) == (Token(TokenString, "a"), Lexer(4, "a", 1, None))
  {
    assert StringBody(input, 3, "a") == Scan(Done, 4, "a");
    assert "" + [input[2]] == "a";
    assert StringBody(input, 2, []) == Scan(Done, 4, "a");
    assert input[1] == '"';
    assert Next(input, Lexer(1, "", 1, None)) == (Token(TokenString, "a"), Lexer(4, "a", 1, None));
  }

  lemma RepeatedKeyCaseToken3(input: string)
    requires |input| == 13
    requires input[4] == ':' && input[5] == '1'
    ensures Next(input, Lexer(4, "a", 1, None)) == (Token(TokenColon, ":"), Lexer(5, "a", 1, None))
  {
    assert input[4] == ':';
    assert Next(input, Lexer(4, "a", 1, None)) == (Token(TokenColon, ":"), Lexer(5, "a", 1, None));
  }

  lemma RepeatedKeyCaseToken4(input: string)
    requires |input| == 13
    requires input[5] == '1' && input[6] == ','
    ensures Next(input, Lexer(5, "a", 1, None)) == (Token(TokenNumber, "1"), Lexer(6, "1", 1, None))
  {
    assert NumberRun(input, 6, "1") == Scan(Done, 6, "1");
    assert "" + [input[5]] == "1";
    assert NumberRun(input, 5, []) == Scan(Done, 6, "1");
    assert input[5] == '1';
    DigitStartsNumber(input, Lexer(5, "a", 1, None), 6, "1");
  }

  lemma RepeatedKeyCaseToken5(input: string)
    requires |input| == 13
    requires input[6] == ',' && input[7] == '"'
    ensures Next(input, Lexer(6, "1", 1, None)) == (Token(TokenComma, ","), Lexer(7, "1", 1, None))
  {
    assert input[6] == ',';
    assert Next(input, Lexer(6, "1", 1, None)) == (Token(TokenComma, ","), Lexer(7, "1", 1, None));
  }

  lemma RepeatedKeyCaseToken6(input: string)
    requires |input| == 13
    requires input[7] == '"' && input[8] == 'a' && input[9] == '"' && input[10] == ':'
    ensures Next(input, Lexer(7, "1", 1, None)) == (Token(TokenString, "a"), Lexer(10, "a", 1, None))
  {
    assert StringBody(input, 9, "a") == Scan(Done, 10, "a");
    assert "" + [input[8]] == "a";
    assert StringBody(input, 8, []) == Scan(Done, 10, "a");
    assert input[7] == '"';
    assert Next(input, Lexer(7, "1", 1, None)) == (Token(TokenString, "a"), Lexer(10, "a", 1, None));
  }

  lemma RepeatedKeyCaseMembers7(input: string, ms: seq<Member>)
    requires RepeatedKeyCaseChars(input)
    requires "a" in Keys(ms)
    ensures ObjectMembers(input, PState(Lexer(10, "a", 1, None), Token(TokenString, "a")), ms) ==
      (Err(RepeatedKey("a")), PState(Lexer(10, "a", 1, None), Token(TokenString, "a")))
  {
  }

  lemma RepeatedKeyCaseMembers8(input: string, ms: seq<Member>)
    requires RepeatedKeyCaseChars(input)
    requires "a" !in Keys(ms)
    ensures ObjectMembers(input, PState(Lexer(4, "a", 1, None), Token(TokenString, "a")), ms) ==
      (Err(RepeatedKey("a")), PState(Lexer(10, "a", 1, None), Token(TokenString, "a")))
  {
    RepeatedKeyCaseToken3(input);
    RepeatedKeyCaseToken4(input);
    assert Itoa(1) == "1";
    AtoiItoa(1);
    RepeatedKeyCaseToken5(input);
    assert ParseValue(input, PState(Lexer(6, "1", 1, None), Token(TokenNumber, "1"))) == (Ok(Number(1)), PState(Lexer(7, "1", 1, None), Token(TokenComma, ",")));
    SetFieldAppend(ms, "a", Number(1), ms + [Member("a", Number(1))]);
    RepeatedKeyCaseToken6(input);
    RepeatedKeyCaseMembers7(input, ms + [Member("a", Number(1))]);
  }

  lemma RepeatedKeyCaseObject9(input: string)
    requires RepeatedKeyCaseChars(input)
    ensures ParseObject(input, PState(Lexer(1, "", 1, None), Token(TokenLBrace, "{"))) ==
      (Err(RepeatedKey("a")), PState(Lexer(10, "a", 1, None), Token(TokenString, "a")))
  {
    RepeatedKeyCaseToken2(input);
    RepeatedKeyCaseMembers8(input, []);
  }

  lemma RepeatedKeyCaseOutcome10(input: string)
    requires RepeatedKeyCaseChars(input)
    ensures ParseFrom(input, Start) == Rejected(RepeatedKey("a"))
  {
    RepeatedKeyCaseToken1(input);
    RepeatedKeyCaseObject9(input);
  }

  const TrailingMemberCommaText: string := "{\"a\":1,}"

  /** parser.go:68-76: a comma before the closing brace is accepted. */
  lemma TrailingMemberComma()
    ensures Parse(TrailingMemberCommaText) == Parsed(Object([Member("a", Number(1))]))
  {
    TrailingMemberCommaCharsOf(TrailingMemberCommaText);
    TrailingMemberCommaOutcome11(TrailingMemberCommaText);
  }

  /** The characters of TrailingMemberCommaText, one by one. */
  predicate TrailingMemberCommaChars(s: string)
  {
    |s| == 8 &&
    s[0] == '{' && s[1] == '"' && s[2] == 'a' && s[3] == '"' && s[4] == ':' && s[5] == '1' &&
    s[6] == ',' && s[7] == '}'
  }

  lemma TrailingMemberCommaChars1(input: string)
    requires input == "{\"a\":1,}"
    ensures input[0] == '{' && input[1] == '"' && input[2] == 'a' && input[3] == '"' && input[4] == ':' && input[5] == '1'
  {
  }

  lemma TrailingMemberCommaChars2(input: string)
    requires input == "{\"a\":1,}"
    ensures input[6] == ',' && input[7] == '}'
  {
  }

  lemma TrailingMemberCommaCharsOf(input: string)
    requires input == "{\"a\":1,}"
    ensures TrailingMemberCommaChars(input)
  {
    TrailingMemberCommaChars1(input);
    TrailingMemberCommaChars2(input);
  }

  lemma TrailingMemberCommaToken1(input: string)
    requires |input| == 8
    requires input[0] == '{' && input[1] == '"'
    ensures Next(input, Lexer(0, "", 1, None)) == (Token(TokenLBrace, "{"), Lexer(1, "", 1, None))
  {
    assert input[0] == '{';
    assert Next(input, Lexer(0, "", 1, None)) == (Token(TokenLBrace, "{"), Lexer(1, "", 1, None));
  }

  lemma TrailingMemberCommaToken2(input: string)
    requires |input| == 8
    requires input[1] == '"' && input[2] == 'a' && input[3] == '"' && input[4] == ':'
    ensures Next(input, Lexer(1, "", 1, None)) == (Token(TokenString, "a"), Lexer(4, "a", 1, None))
  {
    assert StringBody(input, 3, "a") == Scan(Done, 4, "a");
    assert "" + [input[2]] == "a";
    assert StringBody(input, 2, []) == Scan(Done, 4, "a");
    assert input[1] == '"';
    assert Next(input, Lexer(1, "", 1, None)) == (Token(TokenString, "a"), Lexer(4, "a", 1, None));
  }

  lemma TrailingMemberCommaToken3(input: string)
    requires |input| == 8
    requires input[4] == ':' && input[5] == '1'
    ensures Next(input, Lexer(4, "a", 1, None)) == (Token(TokenColon, ":"), Lexer(5, "a", 1, None))
  {
    assert input[4] == ':';
    assert Next(input, Lexer(4, "a", 1, None)) == (Token(TokenColon, ":"), Lexer(5, "a", 1, None));
  }

  lemma TrailingMemberCommaToken5(input: string)
    requires |input| == 8
    requires input[6] == ',' && input[7] == '}'
    ensures Next(input, Lexer(6, "1", 1, None)) == (Token(TokenComma, ","), Lexer(7, "1", 1, None))
  {
    assert input[6] == ',';
    assert Next(input, Lexer(6, "1", 1, None)) == (Token(TokenComma, ","), Lexer(7, "1", 1, None));
  }

  lemma TrailingMemberCommaToken6(input: string)
    requires |input| == 8
    requires input[7] == '}'
    ensures Next(input, Lexer(7, "1", 1, None)) == (Token(TokenRBrace, "}"), Lexer(8, "1", 1, None))
  {
    assert input[7] == '}';
    assert Next(input, Lexer(7, "1", 1, None)) == (Token(TokenRBrace, "}"), Lexer(8, "1", 1, None));
  }

  lemma TrailingMemberCommaToken7(input: string)
    requires |input| == 8
    ensures Next(input, Lexer(8, "1", 1, None)) == (Token(TokenEOF, ""), Lexer(8, "1", 1, None))
  {
    assert Next(input, Lexer(8, "1", 1, None)) == (Token(TokenEOF, ""), Lexer(8, "1", 1, None));
  }

  lemma TrailingMemberCommaMembers8(input: string, ms: seq<Member>)
    requires TrailingMemberCommaChars(input)
    ensures ObjectMembers(input, PState(Lexer(8, "1", 1, None), Token(TokenRBrace, "}")), ms) ==
      (Ok(Object(ms)), PState(Lexer(8, "1", 1, None), Token(TokenEOF, "")))
  {
    TrailingMemberCommaToken7(input);
    assert CloseObject(input, PState(Lexer(8, "1", 1, None), Token(TokenRBrace, "}")), ms) == (Ok(Object(ms)), PState(Lexer(8, "1", 1, None), Token(TokenEOF, "")));
  }

  lemma TrailingMemberCommaMembers9(input: string, ms: seq<Member>)
    requires TrailingMemberCommaChars(input)
    requires "a" !in Keys(ms)
    ensures ObjectMembers(input, PState(Lexer(4, "a", 1, None), Token(TokenString, "a")), ms) ==
      (Ok(Object(ms + [Member("a", Number(1))])), PState(Lexer(8, "1", 1, None), Token(TokenEOF, "")))
  {
    TrailingMemberCommaToken3(input);
    DigitBeforeComma(input, Lexer(5, "a", 1, None));
    assert Itoa(1) == "1";
    AtoiItoa(1);
    TrailingMemberCommaToken5(input);
    assert ParseValue(input, PState(Lexer(6, "1", 1, None), Token(TokenNumber, "1"))) == (Ok(Number(1)), PState(Lexer(7, "1", 1, None), Token(TokenComma, ",")));
    SetFieldAppend(ms, "a", Number(1), ms + [Member("a", Number(1))]);
    TrailingMemberCommaToken6(input);
    TrailingMemberCommaMembers8(input, ms + [Member("a", Number(1))]);
  }

  lemma TrailingMemberCommaObject10(input: string)
    requires TrailingMemberCommaChars(input)
    ensures ParseObject(input, PState(Lexer(1, "", 1, None), Token(TokenLBrace, "{"))) ==
      (Ok(Object([Member("a", Number(1))])), PState(Lexer(8, "1", 1, None), Token(TokenEOF, "")))
  {
    TrailingMemberCommaToken2(input);
    TrailingMemberCommaMembers9(input, []);
    Appended1(Member("a", Number(1)));
  }

  lemma TrailingMemberCommaOutcome11(input: string)
    requires TrailingMemberCommaChars(input)
    ensures ParseFrom(input, Start) == Parsed(Object([Member("a", Number(1))]))
  {
    TrailingMemberCommaToken1(input);
    TrailingMemberCommaObject10(input);
  }

  const LooseArrayCommasText: string := "[,1,,2,]"

  /** parser.go:106-150: stray commas in an array are skipped. */
  lemma LooseArrayCommas()
    ensures Parse(LooseArrayCommasText) == Parsed(Array([Number(1), Number(2)]))
  {
    LooseArrayCommasCharsOf(LooseArrayCommasText);
    LooseArrayCommasOutcome16(LooseArrayCommasText);
  }

  /** The characters of LooseArrayCommasText, one by one. */
  predicate LooseArrayCommasChars(s: string)
  {
    |s| == 8 &&
    s[0] == '[' && s[1] == ',' && s[2] == '1' && s[3] == ',' && s[4] == ',' && s[5] == '2' &&
    s[6] == ',' && s[7] == ']'
  }

  lemma LooseArrayCommasChars1(input: string)
    requires input == "[,1,,2,]"
    ensures input[0] == '[' && input[1] == ',' && input[2] == '1' && input[3] == ',' && input[4] == ',' && input[5] == '2'
  {
  }

  lemma LooseArrayCommasChars2(input: string)
    requires input == "[,1,,2,]"
    ensures input[6] == ',' && input[7] == ']'
  {
  }

  lemma LooseArrayCommasCharsOf(input: string)
    requires input == "[,1,,2,]"
    ensures LooseArrayCommasChars(input)
  {
    LooseArrayCommasChars1(input);
    LooseArrayCommasChars2(input);
  }

  lemma LooseArrayCommasToken1(input: string)
    requires |input| == 8
    requires input[0] == '[' && input[1] == ','
    ensures Next(input, Lexer(0, "", 1, None)) == (Token(TokenLBracket, "["), Lexer(1, "", 1, None))
  {
    assert input[0] == '[';
    assert Next(input, Lexer(0, "", 1, None)) == (Token(TokenLBracket, "["), Lexer(1, "", 1, None));
  }

  lemma LooseArrayCommasToken2(input: string)
    requires |input| == 8
    requires input[1] == ',' && input[2] == '1'
    ensures Next(input, Lexer(1, "", 1, None)) == (Token(TokenComma, ","), Lexer(2, "", 1, None))
  {
    assert input[1] == ',';
    assert Next(input, Lexer(1, "", 1, None)) == (Token(TokenComma, ","), Lexer(2, "", 1, None));
  }

  lemma LooseArrayCommasToken3(input: string)
    requires |input| == 8
    requires input[2] == '1' && input[3] == ','
    ensures Next(input, Lexer(2, "", 1, None)) == (Token(TokenNumber, "1"), Lexer(3, "1", 1, None))
  {
    assert NumberRun(input, 3, "1") == Scan(Done, 3, "1");
    assert "" + [input[2]] == "1";
    assert NumberRun(input, 2, []) == Scan(Done, 3, "1");
    assert input[2] == '1';
    DigitStartsNumber(input, Lexer(2, "", 1, None), 3, "1");
  }

  lemma LooseArrayCommasToken4(input: string)
    requires |input| == 8
    requires input[3] == ',' && input[4] == ','
    ensures Next(input, Lexer(3, "1", 1, None)) == (Token(TokenComma, ","), Lexer(4, "1", 1, None))
  {
    assert input[3] == ',';
    assert Next(input, Lexer(3, "1", 1, None)) == (Token(TokenComma, ","), Lexer(4, "1", 1, None));
  }

  lemma LooseArrayCommasToken5(input: string)
    requires |input| == 8
    requires input[4] == ',' && input[5] == '2'
    ensures Next(input, Lexer(4, "1", 1, None)) == (Token(TokenComma, ","), Lexer(5, "1", 1, None))
  {
    assert input[4] == ',';
    assert Next(input, Lexer(4, "1", 1, None)) == (Token(TokenComma, ","), Lexer(5, "1", 1, None));
  }

  lemma LooseArrayCommasToken7(input: string)
    requires |input| == 8
    requires input[6] == ',' && input[7] == ']'
    ensures Next(input, Lexer(6, "2", 1, None)) == (Token(TokenComma, ","), Lexer(7, "2", 1, None))
  {
    assert input[6] == ',';
    assert Next(input, Lexer(6, "2", 1, None)) == (Token(TokenComma, ","), Lexer(7, "2", 1, None));
  }

  lemma LooseArrayCommasToken8(input: string)
    requires |input| == 8
    requires input[7] == ']'
    ensures Next(input, Lexer(7, "2", 1, None)) == (Token(TokenRBracket, "]"), Lexer(8, "2", 1, None))
  {
    assert input[7] == ']';
    assert Next(input, Lexer(7, "2", 1, None)) == (Token(TokenRBracket, "]"), Lexer(8, "2", 1, None));
  }

  lemma LooseArrayCommasToken9(input: string)
    requires |input| == 8
    ensures Next(input, Lexer(8, "2", 1, None)) == (Token(TokenEOF, ""), Lexer(8, "2", 1, None))
  {
    assert Next(input, Lexer(8, "2", 1, None)) == (Token(TokenEOF, ""), Lexer(8, "2", 1, None));
  }

  lemma LooseArrayCommasElements10(input: string, es: seq<Value>)
    requires LooseArrayCommasChars(input)
    ensures ArrayElements(input, PState(Lexer(8, "2", 1, None), Token(TokenRBracket, "]")), es) ==
      (Ok(Array(es)), PState(Lexer(8, "2", 1, None), Token(TokenEOF, "")))
  {
    LooseArrayCommasToken9(input);
    assert CloseArray(input, PState(Lexer(8, "2", 1, None), Token(TokenRBracket, "]")), es) == (Ok(Array(es)), PState(Lexer(8, "2", 1, None), Token(TokenEOF, "")));
    assert ArrayNext(input, PState(Lexer(8, "2", 1, None), Token(TokenRBracket, "]")), es) == (Ok(Array(es)), PState(Lexer(8, "2", 1, None), Token(TokenEOF, "")));
  }

  lemma LooseArrayCommasElements11(input: string, es: seq<Value>)
    requires LooseArrayCommasChars(input)
    ensures ArrayElements(input, PState(Lexer(6, "2", 1, None), Token(TokenNumber, "2")), es) ==
      (Ok(Array(es + [Number(2)])), PState(Lexer(8, "2", 1, None), Token(TokenEOF, "")))
  {
    assert Itoa(2) == "2";
    AtoiItoa(2);
    LooseArrayCommasToken7(input);
    LooseArrayCommasToken8(input);
    LooseArrayCommasElements10(input, es + [Number(2)]);
    assert ArrayNext(input, PState(Lexer(7, "2", 1, None), Token(TokenComma, ",")), es + [Number(2)]) == (Ok(Array(es + [Number(2)])), PState(Lexer(8, "2", 1, None), Token(TokenEOF, "")));
  }

  lemma LooseArrayCommasElements12(input: string, es: seq<Value>)
    requires LooseArrayCommasChars(input)
    ensures ArrayElements(input, PState(Lexer(5, "1", 1, None), Token(TokenComma, ",")), es) ==
      (Ok(Array(es + [Number(2)])), PState(Lexer(8, "2", 1, None), Token(TokenEOF, "")))
  {
    DigitBeforeComma(input, Lexer(5, "1", 1, None));
    LooseArrayCommasElements11(input, es);
    assert ArrayNext(input, PState(Lexer(5, "1", 1, None), Token(TokenComma, ",")), es) == (Ok(Array(es + [Number(2)])), PState(Lexer(8, "2", 1, None), Token(TokenEOF, "")));
  }

  lemma LooseArrayCommasElements13(input: string, es: seq<Value>)
    requires LooseArrayCommasChars(input)
    ensures ArrayElements(input, PState(Lexer(3, "1", 1, None), Token(TokenNumber, "1")), es) ==
      (Ok(Array(es + [Number(1)] + [Number(2)])), PState(Lexer(8, "2", 1, None), Token(TokenEOF, "")))
  {
    assert Itoa(1) == "1";
    AtoiItoa(1);
    LooseArrayCommasToken4(input);
    LooseArrayCommasToken5(input);
    LooseArrayCommasElements12(input, es + [Number(1)]);
    assert ArrayNext(input, PState(Lexer(4, "1", 1, None), Token(TokenComma, ",")), es + [Number(1)]) == (Ok(Array(es + [Number(1)] + [Number(2)])), PState(Lexer(8, "2", 1, None), Token(TokenEOF, "")));
  }

  lemma LooseArrayCommasElements14(input: string, es: seq<Value>)
    requires LooseArrayCommasChars(input)
    ensures ArrayElements(input, PState(Lexer(2, "", 1, None), Token(TokenComma, ",")), es) ==
      (Ok(Array(es + [Number(1)] + [Number(2)])), PState(Lexer(8, "2", 1, None), Token(TokenEOF, "")))
  {
    LooseArrayCommasToken3(input);
    LooseArrayCommasElements13(input, es);
    assert ArrayNext(input, PState(Lexer(2, "", 1, None), Token(TokenComma, ",")), es) == (Ok(Array(es + [Number(1)] + [Number(2)])), PState(Lexer(8, "2", 1, None), Token(TokenEOF, "")));
  }

  lemma LooseArrayCommasArray15(input: string)
    requires LooseArrayCommasChars(input)
    ensures ParseArray(input, PState(Lexer(1, "", 1, None), Token(TokenLBracket, "["))) ==
      (Ok(Array([Number(1), Number(2)])), PState(Lexer(8, "2", 1, None), Token(TokenEOF, "")))
  {
    LooseArrayCommasToken2(input);
    LooseArrayCommasElements14(input, []);
    Appended2(Number(1), Number(2));
  }

  lemma LooseArrayCommasOutcome16(input: string)
    requires LooseArrayCommasChars(input)
    ensures ParseFrom(input, Start) == Parsed(Array([Number(1), Number(2)]))
  {
    LooseArrayCommasToken1(input);
    LooseArrayCommasArray15(input);
  }

  const NonIntegerNumbersText: string := "[12.5, 12e+1]"

  /** parser.go:152-156: a number literal that is not an integer yields 0. */
  lemma NonIntegerNumbers()
    ensures Parse(NonIntegerNumbersText) == Parsed(Array([Number(0), Number(0)]))
  {
    NonIntegerNumbersCharsOf(NonIntegerNumbersText);
    NonIntegerNumbersOutcome10(NonIntegerNumbersText);
  }

  /** The characters of NonIntegerNumbersText, one by one. */
  predicate NonIntegerNumbersChars(s: string)
  {
    |s| == 13 &&
    s[0] == '[' && s[1] == '1' && s[2] == '2' && s[3] == '.' && s[4] == '5' && s[5] == ',' &&
    s[6] == ' ' && s[7] == '1' && s[8] == '2' && s[9] == 'e' && s[10] == '+' && s[11] == '1' &&
    s[12] == ']'
  }

  lemma NonIntegerNumbersChars1(input: string)
    requires input == "[12.5, 12e+1]"
    ensures input[0] == '[' && input[1] == '1' && input[2] == '2' && input[3] == '.' && input[4] == '5' && input[5] == ','
  {
  }

  lemma NonIntegerNumbersChars2(input: string)
    requires input == "[12.5, 12e+1]"
    ensures input[6] == ' ' && input[7] == '1' && input[8] == '2' && input[9] == 'e' && input[10] == '+' && input[11] == '1'
  {
  }

  lemma NonIntegerNumbersChars3(input: string)
    requires input == "[12.5, 12e+1]"
    ensures input[12] == ']'
  {
  }

  lemma NonIntegerNumbersCharsOf(input: string)
    requires input == "[12.5, 12e+1]"
    ensures NonIntegerNumbersChars(input)
  {
    NonIntegerNumbersChars1(input);
    NonIntegerNumbersChars2(input);
    NonIntegerNumbersChars3(input);
  }

  lemma NonIntegerNumbersToken1(input: string)
    requires |input| == 13
    requires input[0] == '[' && input[1] == '1'
    ensures Next(input, Lexer(0, "", 1, None)) == (Token(TokenLBracket, "["), Lexer(1, "", 1, None))
  {
    assert input[0] == '[';
    assert Next(input, Lexer(0, "", 1, None)) == (Token(TokenLBracket, "["), Lexer(1, "", 1, None));
  }

  lemma NonIntegerNumbersToken2(input: string)
    requires |input| == 13
    requires input[1] == '1' && input[2] == '2' && input[3] == '.' && input[4] == '5' && input[5] == ','
    ensures Next(input, Lexer(1, "", 1, None)) == (Token(TokenNumber, "12.5"), Lexer(5, "12.5", 1, None))
  {
    assert FractionRun(input, 5, "12.5", false, false) == Scan(Done, 5, "12.5");
    assert "12." + [input[4]] == "12.5";
    assert FractionRun(input, 4, "12.", false, false) == Scan(Done, 5, "12.5");
    assert "12" + [input[3]] == "12.";
    assert NumberRun(input, 3, "12") == Scan(Done, 5, "12.5");
    assert "1" + [input[2]] == "12";
    assert NumberRun(input, 2, "1") == Scan(Done, 5, "12.5");
    assert "" + [input[1]] == "1";
    assert NumberRun(input, 1, []) == Scan(Done, 5, "12.5");
    assert input[1] == '1';
    DigitStartsNumber(input, Lexer(1, "", 1, None), 5, "12.5");
  }

  lemma NonIntegerNumbersToken3(input: string)
    requires |input| == 13
    requires input[5] == ',' && input[6] == ' '
    ensures Next(input, Lexer(5, "12.5", 1, None)) == (Token(TokenComma, ","), Lexer(6, "12.5", 1, None))
  {
    assert input[5] == ',';
    assert Next(input, Lexer(5, "12.5", 1, None)) == (Token(TokenComma, ","), Lexer(6, "12.5", 1, None));
  }

  lemma NonIntegerNumbersToken4(input: string)
    requires |input| == 13
    requires input[6] == ' ' && input[7] == '1' && input[8] == '2' && input[9] == 'e' && input[10] == '+' && input[11] == '1' &&
      input[12] == ']'
    ensures Next(input, Lexer(6, "12.5", 1, None)) == (Token(TokenNumber, "12e+1"), Lexer(12, "12e+1", 1, None))
  {
    assert FractionRun(input, 12, "12e+1", false, true) == Scan(Done, 12, "12e+1");
    assert "12e+" + [input[11]] == "12e+1";
    assert FractionRun(input, 11, "12e+", false, true) == Scan(Done, 12, "12e+1");
    assert "12e" + [input[10]] == "12e+";
    assert FractionRun(input, 10, "12e", false, false) == Scan(Done, 12, "12e+1");
    assert "12" + [input[9]] == "12e";
    assert NumberRun(input, 9, "12") == Scan(Done, 12, "12e+1");
    assert "1" + [input[8]] == "12";
    assert NumberRun(input, 8, "1") == Scan(Done, 12, "12e+1");
    assert "" + [input[7]] == "1";
    assert NumberRun(input, 7, []) == Scan(Done, 12, "12e+1");
    assert input[7] == '1';
    DigitStartsNumber(input, Lexer(7, "12.5", 1, None), 12, "12e+1");
    assert Next(input, Lexer(6, "12.5", 1, None)) == (Token(TokenNumber, "12e+1"), Lexer(12, "12e+1", 1, None));
  }

  lemma NonIntegerNumbersToken5(input: string)
    requires |input| == 13
    requires input[12] == ']'
    ensures Next(input, Lexer(12, "12e+1", 1, None)) == (Token(TokenRBracket, "]"), Lexer(13, "12e+1", 1, None))
  {
    assert input[12] == ']';
    assert Next(input, Lexer(12, "12e+1", 1, None)) == (Token(TokenRBracket, "]"), Lexer(13, "12e+1", 1, None));
  }

  lemma NonIntegerNumbersToken6(input: string)
    requires |input| == 13
    ensures Next(input, Lexer(13, "12e+1", 1, None)) == (Token(TokenEOF, ""), Lexer(13, "12e+1", 1, None))
  {
    assert Next(input, Lexer(13, "12e+1", 1, None)) == (Token(TokenEOF, ""), Lexer(13, "12e+1", 1, None));
  }

  /** Both literals of the case have the integer part 12, so Atoi's syntax error gives 0. */
  lemma NonIntegerLiteralsZero()
    ensures Atoi("12e+1") == 0 && Atoi("12.5") == 0
  {
    DigitRunIs("12e+1", 2);
    DigitRunIs("12.5", 2);
    assert "12e+1"[..2] == "12" && "12.5"[..2] == "12";
    assert "12"[..1] == "1" && "1"[..0] == [];
    assert ValueOf("12") == 12;
    AtoiNotInteger("12e+1");
    AtoiNotInteger("12.5");
  }

  lemma NonIntegerNumbersElements7(input: string, es: seq<Value>)
    requires NonIntegerNumbersChars(input)
    ensures ArrayElements(input, PState(Lexer(12, "12e+1", 1, None), Token(TokenNumber, "12e+1")), es) ==
      (Ok(Array(es + [Number(0)])), PState(Lexer(13, "12e+1", 1, None), Token(TokenEOF, "")))
  {
    NonIntegerLiteralsZero();
    ScalarStep(input, PState(Lexer(12, "12e+1", 1, None), Token(TokenNumber, "12e+1")), es);
    NonIntegerNumbersToken5(input);
    NonIntegerNumbersToken6(input);
    assert CloseArray(input, PState(Lexer(13, "12e+1", 1, None), Token(TokenRBracket, "]")), es + [Number(0)]) == (Ok(Array(es + [Number(0)])), PState(Lexer(13, "12e+1", 1, None), Token(TokenEOF, "")));
    assert ArrayNext(input, PState(Lexer(13, "12e+1", 1, None), Token(TokenRBracket, "]")), es + [Number(0)]) == (Ok(Array(es + [Number(0)])), PState(Lexer(13, "12e+1", 1, None), Token(TokenEOF, "")));
  }

  lemma NonIntegerNumbersElements8(input: string, es: seq<Value>)
    requires NonIntegerNumbersChars(input)
    ensures ArrayElements(input, PState(Lexer(5, "12.5", 1, None), Token(TokenNumber, "12.5")), es) ==
      (Ok(Array(es + [Number(0)] + [Number(0)])), PState(Lexer(13, "12e+1", 1, None), Token(TokenEOF, "")))
  {
    NonIntegerLiteralsZero();
    ScalarStep(input, PState(Lexer(5, "12.5", 1, None), Token(TokenNumber, "12.5")), es);
    NonIntegerNumbersToken3(input);
    NonIntegerNumbersToken4(input);
    NonIntegerNumbersElements7(input, es + [Number(0)]);
    assert ArrayNext(input, PState(Lexer(6, "12.5", 1, None), Token(TokenComma, ",")), es + [Number(0)]) == (Ok(Array(es + [Number(0)] + [Number(0)])), PState(Lexer(13, "12e+1", 1, None), Token(TokenEOF, "")));
  }

  lemma NonIntegerNumbersArray9(input: string)
    requires NonIntegerNumbersChars(input)
    ensures ParseArray(input, PState(Lexer(1, "", 1, None), Token(TokenLBracket, "["))) ==
      (Ok(Array([Number(0), Number(0)])), PState(Lexer(13, "12e+1", 1, None), Token(TokenEOF, "")))
  {
    NonIntegerNumbersToken2(input);
    NonIntegerNumbersElements8(input, []);
    Appended2(Number(0), Number(0));
  }

  lemma NonIntegerNumbersOutcome10(input: string)
    requires NonIntegerNumbersChars(input)
    ensures ParseFrom(input, Start) == Parsed(Array([Number(0), Number(0)]))
  {
    NonIntegerNumbersToken1(input);
    NonIntegerNumbersArray9(input);
  }

  const NegativeNumberText: string := "[-1]"

  /** scanner.go:66-123: a minus sign is no token, so the array is not closed. */
  lemma NegativeNumber()
    ensures Parse(NegativeNumberText) == Rejected(ExpectedRBracket(""))
  {
    NegativeNumberCharsOf(NegativeNumberText);
    NegativeNumberOutcome5(NegativeNumberText);
  }

  /** The characters of NegativeNumberText, one by one. */
  predicate NegativeNumberChars(s: string)
  {
    |s| == 4 &&
    s[0] == '[' && s[1] == '-' && s[2] == '1' && s[3] == ']'
  }

  lemma NegativeNumberChars1(input: string)
    requires input == "[-1]"
    ensures input[0] == '[' && input[1] == '-' && input[2] == '1' && input[3] == ']'
  {
  }

  lemma NegativeNumberCharsOf(input: string)
    requires input == "[-1]"
    ensures NegativeNumberChars(input)
  {
    NegativeNumberChars1(input);
  }

  lemma NegativeNumberToken1(input: string)
    requires |input| == 4
    requires input[0] == '[' && input[1] == '-'
    ensures Next(input, Lexer(0, "", 1, None)) == (Token(TokenLBracket, "["), Lexer(1, "", 1, None))
  {
    assert input[0] == '[';
    assert Next(input, Lexer(0, "", 1, None)) == (Token(TokenLBracket, "["), Lexer(1, "", 1, None));
  }

  lemma NegativeNumberToken2(input: string)
    requires |input| == 4
    requires input[1] == '-'
    ensures Next(input, Lexer(1, "", 1, None)) == (Token(TokenInvalid, ""), Lexer(1, "", 1, None))
  {
    assert IdentRun(input, 1, []) == Scan(Done, 1, "");
    assert input[1] == '-';
    assert Next(input, Lexer(1, "", 1, None)) == (Token(TokenInvalid, ""), Lexer(1, "", 1, None));
  }

  lemma NegativeNumberElements3(input: string, es: seq<Value>)
    requires NegativeNumberChars(input)
    ensures ArrayElements(input, PState(Lexer(1, "", 1, None), Token(TokenInvalid, "")), es) ==
      (Err(ExpectedRBracket("")), PState(Lexer(1, "", 1, None), Token(TokenInvalid, "")))
  {
    assert CloseArray(input, PState(Lexer(1, "", 1, None), Token(TokenInvalid, "")), es) == (Err(ExpectedRBracket("")), PState(Lexer(1, "", 1, None), Token(TokenInvalid, "")));
    assert ArrayNext(input, PState(Lexer(1, "", 1, None), Token(TokenInvalid, "")), es) == (Err(ExpectedRBracket("")), PState(Lexer(1, "", 1, None), Token(TokenInvalid, "")));
  }

  lemma NegativeNumberArray4(input: string)
    requires NegativeNumberChars(input)
    ensures ParseArray(input, PState(Lexer(1, "", 1, None), Token(TokenLBracket, "["))) ==
      (Err(ExpectedRBracket("")), PState(Lexer(1, "", 1, None), Token(TokenInvalid, "")))
  {
    NegativeNumberToken2(input);
    NegativeNumberElements3(input, []);
  }

  lemma NegativeNumberOutcome5(input: string)
    requires NegativeNumberChars(input)
    ensures ParseFrom(input, Start) == Rejected(ExpectedRBracket(""))
  {
    NegativeNumberToken1(input);
    NegativeNumberArray4(input);
  }

  const BareWordText: string := "abc "

  /** parser.go:41-42: an unknown word at the top yields no value and no error. */
  lemma BareWord()
    ensures Parse(BareWordText) == NoValue
  {
    BareWordCharsOf(BareWordText);
    BareWordOutcome2(BareWordText);
  }

  /** The characters of BareWordText, one by one. */
  predicate BareWordChars(s: string)
  {
    |s| == 4 &&
    s[0] == 'a' && s[1] == 'b' && s[2] == 'c' && s[3] == ' '
  }

  lemma BareWordChars1(input: string)
    requires input == "abc "
    ensures input[0] == 'a' && input[1] == 'b' && input[2] == 'c' && input[3] == ' '
  {
  }

  lemma BareWordCharsOf(input: string)
    requires input == "abc "
    ensures BareWordChars(input)
  {
    BareWordChars1(input);
  }

  lemma BareWordToken1(input: string)
    requires |input| == 4
    requires input[0] == 'a' && input[1] == 'b' && input[2] == 'c' && input[3] == ' '
    ensures Next(input, Lexer(0, "", 1, None)) == (Token(TokenInvalid, "abc"), Lexer(3, "abc", 1, None))
  {
    assert IdentRun(input, 3, "abc") == Scan(Done, 3, "abc");
    assert "ab" + [input[2]] == "abc";
    assert IdentRun(input, 2, "ab") == Scan(Done, 3, "abc");
    assert "a" + [input[1]] == "ab";
    assert IdentRun(input, 1, "a") == Scan(Done, 3, "abc");
    assert "" + [input[0]] == "a";
    assert IdentRun(input, 0, []) == Scan(Done, 3, "abc");
    assert input[0] == 'a';
    assert Next(input, Lexer(0, "", 1, None)) == (Token(TokenInvalid, "abc"), Lexer(3, "abc", 1, None));
  }

  lemma BareWordOutcome2(input: string)
    requires BareWordChars(input)
    ensures ParseFrom(input, Start) == NoValue
  {
    BareWordToken1(input);
  }

  const NestedMissingColonText: string := "[[1,{\"a\"}]]"

  /** parser.go:106-150: an error inside a nested value is the error of the whole. */
  lemma NestedMissingColon()
    ensures Parse(NestedMissingColonText) == Rejected(ExpectedColon("}"))
  {
    NestedMissingColonCharsOf(NestedMissingColonText);
    NestedMissingColonOutcome15(NestedMissingColonText);
  }

  /** The characters of NestedMissingColonText, one by one. */
  predicate NestedMissingColonChars(s: string)
  {
    |s| == 11 &&
    s[0] == '[' && s[1] == '[' && s[2] == '1' && s[3] == ',' && s[4] == '{' && s[5] == '"' &&
    s[6] == 'a' && s[7] == '"' && s[8] == '}' && s[9] == ']' && s[10] == ']'
  }

  lemma NestedMissingColonChars1(input: string)
    requires input == "[[1,{\"a\"}]]"
    ensures input[0] == '[' && input[1] == '[' && input[2] == '1' && input[3] == ',' && input[4] == '{' && input[5] == '"'
  {
  }

  lemma NestedMissingColonChars2(input: string)
    requires input == "[[1,{\"a\"}]]"
    ensures input[6] == 'a' && input[7] == '"' && input[8] == '}' && input[9] == ']' && input[10] == ']'
  {
  }

  lemma NestedMissingColonCharsOf(input: string)
    requires input == "[[1,{\"a\"}]]"
    ensures NestedMissingColonChars(input)
  {
    NestedMissingColonChars1(input);
    NestedMissingColonChars2(input);
  }

  lemma NestedMissingColonToken1(input: string)
    requires |input| == 11
    requires input[0] == '[' && input[1] == '['
    ensures Next(input, Lexer(0, "", 1, None)) == (Token(TokenLBracket, "["), Lexer(1, "", 1, None))
  {
    assert input[0] == '[';
    assert Next(input, Lexer(0, "", 1, None)) == (Token(TokenLBracket, "["), Lexer(1, "", 1, None));
  }

  lemma NestedMissingColonToken2(input: string)
    requires |input| == 11
    requires input[1] == '[' && input[2] == '1'
    ensures Next(input, Lexer(1, "", 1, None)) == (Token(TokenLBracket, "["), Lexer(2, "", 1, None))
  {
    assert input[1] == '[';
    assert Next(input, Lexer(1, "", 1, None)) == (Token(TokenLBracket, "["), Lexer(2, "", 1, None));
  }

  lemma NestedMissingColonToken3(input: string)
    requires |input| == 11
    requires input[2] == '1' && input[3] == ','
    ensures Next(input, Lexer(2, "", 1, None)) == (Token(TokenNumber, "1"), Lexer(3, "1", 1, None))
  {
    assert NumberRun(input, 3, "1") == Scan(Done, 3, "1");
    assert "" + [input[2]] == "1";
    assert NumberRun(input, 2, []) == Scan(Done, 3, "1");
    assert input[2] == '1';
    DigitStartsNumber(input, Lexer(2, "", 1, None), 3, "1");
  }

  lemma NestedMissingColonToken4(input: string)
    requires |input| == 11
    requires input[3] == ',' && input[4] == '{'
    ensures Next(input, Lexer(3, "1", 1, None)) == (Token(TokenComma, ","), Lexer(4, "1", 1, None))
  {
    assert input[3] == ',';
    assert Next(input, Lexer(3, "1", 1, None)) == (Token(TokenComma, ","), Lexer(4, "1", 1, None));
  }

  lemma NestedMissingColonToken5(input: string)
    requires |input| == 11
    requires input[4] == '{' && input[5] == '"'
    ensures Next(input, Lexer(4, "1", 1, None)) == (Token(TokenLBrace, "{"), Lexer(5, "1", 1, None))
  {
    assert input[4] == '{';
    assert Next(input, Lexer(4, "1", 1, None)) == (Token(TokenLBrace, "{"), Lexer(5, "1", 1, None));
  }

  lemma NestedMissingColonToken6(input: string)
    requires |input| == 11
    requires input[5] == '"' && input[6] == 'a' && input[7] == '"' && input[8] == '}'
    ensures Next(input, Lexer(5, "1", 1, None)) == (Token(TokenString, "a"), Lexer(8, "a", 1, None))
  {
    assert StringBody(input, 7, "a") == Scan(Done, 8, "a");
    assert "" + [input[6]] == "a";
    assert StringBody(input, 6, []) == Scan(Done, 8, "a");
    assert input[5] == '"';
    assert Next(input, Lexer(5, "1", 1, None)) == (Token(TokenString, "a"), Lexer(8, "a", 1, None));
  }

  lemma NestedMissingColonToken7(input: string)
    requires |input| == 11
    requires input[8] == '}' && input[9] == ']'
    ensures Next(input, Lexer(8, "a", 1, None)) == (Token(TokenRBrace, "}"), Lexer(9, "a", 1, None))
  {
    assert input[8] == '}';
    assert Next(input, Lexer(8, "a", 1, None)) == (Token(TokenRBrace, "}"), Lexer(9, "a", 1, None));
  }

  lemma NestedMissingColonMembers8(input: string, ms: seq<Member>)
    requires NestedMissingColonChars(input)
    requires "a" !in Keys(ms)
    ensures ObjectMembers(input, PState(Lexer(8, "a", 1, None), Token(TokenString, "a")), ms) ==
      (Err(ExpectedColon("}")), PState(Lexer(9, "a", 1, None), Token(TokenRBrace, "}")))
  {
    NestedMissingColonToken7(input);
  }

  lemma NestedMissingColonObject9(input: string)
    requires NestedMissingColonChars(input)
    ensures ParseObject(input, PState(Lexer(5, "1", 1, None), Token(TokenLBrace, "{"))) ==
      (Err(ExpectedColon("}")), PState(Lexer(9, "a", 1, None), Token(TokenRBrace, "}")))
  {
    NestedMissingColonToken6(input);
    NestedMissingColonMembers8(input, []);
  }

  lemma NestedMissingColonElements10(input: string, es: seq<Value>)
    requires NestedMissingColonChars(input)
    ensures ArrayElements(input, PState(Lexer(5, "1", 1, None), Token(TokenLBrace, "{")), es) ==
      (Err(ExpectedColon("}")), PState(Lexer(9, "a", 1, None), Token(TokenRBrace, "}")))
  {
    NestedMissingColonObject9(input);
  }

  lemma NestedMissingColonElements11(input: string, es: seq<Value>)
    requires NestedMissingColonChars(input)
    ensures ArrayElements(input, PState(Lexer(3, "1", 1, None), Token(TokenNumber, "1")), es) ==
      (Err(ExpectedColon("}")), PState(Lexer(9, "a", 1, None), Token(TokenRBrace, "}")))
  {
    assert Itoa(1) == "1";
    AtoiItoa(1);
    NestedMissingColonToken4(input);
    NestedMissingColonToken5(input);
    NestedMissingColonElements10(input, es + [Number(1)]);
    assert ArrayNext(input, PState(Lexer(4, "1", 1, None), Token(TokenComma, ",")), es + [Number(1)]) == (Err(ExpectedColon("}")), PState(Lexer(9, "a", 1, None), Token(TokenRBrace, "}")));
  }

  lemma NestedMissingColonArray12(input: string)
    requires NestedMissingColonChars(input)
    ensures ParseArray(input, PState(Lexer(2, "", 1, None), Token(TokenLBracket, "["))) ==
      (Err(ExpectedColon("}")), PState(Lexer(9, "a", 1, None), Token(TokenRBrace, "}")))
  {
    NestedMissingColonToken3(input);
    NestedMissingColonElements11(input, []);
  }

  lemma NestedMissingColonElements13(input: string, es: seq<Value>)
    requires NestedMissingColonChars(input)
    ensures ArrayElements(input, PState(Lexer(2, "", 1, None), Token(TokenLBracket, "[")), es) ==
      (Err(ExpectedColon("}")), PState(Lexer(9, "a", 1, None), Token(TokenRBrace, "}")))
  {
    NestedMissingColonArray12(input);
  }

  lemma NestedMissingColonArray14(input: string)
    requires NestedMissingColonChars(input)
    ensures ParseArray(input, PState(Lexer(1, "", 1, None), Token(TokenLBracket, "["))) ==
      (Err(ExpectedColon("}")), PState(Lexer(9, "a", 1, None), Token(TokenRBrace, "}")))
  {
    NestedMissingColonToken2(input);
    NestedMissingColonElements13(input, []);
  }

  lemma NestedMissingColonOutcome15(input: string)
    requires NestedMissingColonChars(input)
    ensures ParseFrom(input, Start) == Rejected(ExpectedColon("}"))
  {
    NestedMissingColonToken1(input);
    NestedMissingColonArray14(input);
  }

  /** parser_test.go:169-186: every malformed text is rejected with an error. */
  lemma MalformedCorpus()
    ensures Parse(EmptyTextText).Rejected?
    ensures Parse(BareNumberText).Rejected?
    ensures Parse(KeyWithoutValueText).Rejected?
    ensures Parse(UnquotedKeyText).Rejected?
    ensures Parse(LettersAfterNumberText).Rejected?
    ensures Parse(BadEscapeText).Rejected?
    ensures Parse(UnclosedStringText).Rejected?
    ensures Parse(UnclosedObjectText).Rejected?
  {
    EmptyText();
    BareNumber();
    KeyWithoutValue();
    UnquotedKey();
    LettersAfterNumber();
    BadEscape();
    UnclosedString();
    UnclosedObject();
  }

  /** A list built by appending one item at a time is the list of those items. */
  lemma Appended1<T>(a: T)
    ensures [] + [a] == [a]
  {
  }

  lemma Appended2<T>(a: T, b: T)
    ensures [] + [a] + [b] == [a, b]
  {
  }

  lemma Appended7<T>(a: T, b: T, c: T, d: T, e: T, f: T, g: T)
    ensures [] + [a] + [b] + [c] + [d] + [e] + [f] + [g] == [a, b, c, d, e, f, g]
  {
  }
}
