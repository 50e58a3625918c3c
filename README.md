# hjson core in Dafny

This project models the core of the Go package `hjson`, a small JSON reader and writer:

- **the scanner** (`scanner.go`): turns a character stream into tokens.
  - Punctuation is one token per character.
  - Strings are copied with their escapes undecoded.
  - Numbers are taken with a loose fraction and exponent suffix.
  - Words are null, true or false; any other word is invalid.
  - Lexical errors are recorded in a sticky error field.
- **the recursive-descent parser** (`parser.go`): builds a value tree from the tokens, with one token of lookahead.
- **the value tree and its programmatic API** (`json.go`).
- **the visitor that renders a tree as compact text** (`visitor.go`).

The project is in four layers:

- **Specification functions.** `LexSpec` has one function per sub-scanner and one for `nextToken`. `ParseSpec` has one per parse routine, each returning the result and the parser state the Go method leaves behind. `Walk.Render` is the rendering.
- **Imperative classes.** The Go types that change in place are classes: `Lex.Scanner`, `Syntax.Parser`, `Json.JArray`, `Json.JObject` and `Walk.NodeVisitor`. Each of their methods is proved to compute exactly what its specification function computes.
- **Properties over all inputs.** These are the lemmas in `LexProps`, `ParseProps`, `Suffix`, `Json`, `Decimal` and `Walk`.
- **The repository's test cases.** These are proved as concrete lemmas in `ScannerCases` and `ParserCases`, next to cases that pin down the code's edge behaviour.

Go's `bufio.Reader` is the input string with a read cursor. Reading at the end is the reader's end-of-input error, and `UnreadRune` steps the cursor back by one.

A `JObject`'s map is a list of members with distinct keys, kept in insertion order.

`JNumber` is declared `int64` (json.go:36) and is the `int64` newtype. The model takes Go's `int` to be 64 bits wide where the code converts: the `int` result of `strconv.Atoi` (parser.go:153) and `strconv.Itoa(int(n))` (json.go:95).

## Model

| member | source | states |
|---|---|---|
| Decimal.Itoa | json.go:94-96 | the decimal text of n has a leading '-' exactly when n is negative and starts with a digit otherwise |
| Decimal.Digits | json.go:94-96 | the text of a natural number is a non-empty digit run with no leading zero whose value is the number |
| Decimal.Clamp | parser.go:153 | an in-range value is kept; an out-of-range value becomes the nearest int64 bound, as strconv.Atoi returns on a range error |
| Decimal.AtoiItoa | parser.go:152-156 | reading back the text of any int64 gives the same int64 |
| Decimal.Atoi | parser.go:153 | only a text with a leading '-' reads as negative; a text that starts with no digit or sign reads as 0; an unsigned digit run reads as its value, clamped to MaxInt64 past the range |
| Decimal.DigitsValueOf | parser.go:152-156 | a canonical digit run is exactly the text of its own value |
| Decimal.ItoaAtoi | parser.go:153 | on a canonical digit run whose value fits in an int64, formatting what Atoi reads gives the text back |
| Decimal.ItoaAtoiPastMax | parser.go:153 | past MaxInt64 Atoi reads MaxInt64, and formatting it does not give the text back |
| Decimal.AtoiNotInteger | parser.go:152-156 | a literal that starts with a digit but is not all digits parses to 0 when its leading digit run fits in a uint64: the syntax error is dropped |
| Decimal.AtoiOverflow | parser.go:153 | a literal whose leading digit run is past 2^64 - 1 parses to MaxInt64 whatever follows the run, because strconv's range error comes before the syntax error |
| Decimal.AtoiOverflowExample | parser.go:153 | the text of 2^64 followed by ".5" parses to MaxInt64, not 0 |
| Decimal.DigitRunIs | scanner.go:229-236 | a digit run of length k followed by the end or a non-digit is the leading run |
| Decimal.RunIsAll | scanner.go:229-236 | the leading run is the whole text exactly when the text is all digits |
| Json.TypeOf | json.go:45-63 | every variant reports a type tag and none reports Invalid |
| Json.TypeOfDistinguishes | json.go:45-63 | two values report the same tag exactly when they are the same variant |
| Json.Find | json.go:241-244 | the map read finds a value exactly when the key is present, and the value found is stored under that key |
| Json.SetField | json.go:236-238 | the map write: the key then maps to the new value, every other key keeps its lookup, the key set grows by that key, a new key is appended last, and distinct keys stay distinct |
| Json.SetFieldReplace | json.go:236-238 | overwriting a present key keeps the key set and the other lookups, and the key then maps to the new value |
| Json.SetFieldAppend | json.go:236-238 | writing an absent key adds it to the key set and keeps the other lookups |
| Json.JArray.constructor | json.go:71-75 | NewArray is empty |
| Json.JArray.AddValue | json.go:77-79 | addValue appends exactly one element at the end |
| Json.JObject.constructor | json.go:65-69 | NewObject is empty and has distinct keys |
| Json.JObject.Set | parser.go:67 | `values[key] = value` is the map write SetField, and keys stay distinct |
| Json.AddArrayElement | json.go:230-233 | the array grows by one, its last element is the value, and the old elements are unchanged |
| Json.AddValue | json.go:236-238 | afterwards GetObjField finds the value under key; every other key reads as before; the key set grows by key; it never fails |
| Json.AddValueCase | json_test.go:10-27 | the five AddValue calls of the first test case, on a new object, give exactly the five expected members |
| Json.GetObjField | json.go:241-244 | the result is present exactly when the key is; with distinct keys it is the value stored under that key |
| Json.Index | json.go:247-252 | a value comes back exactly for 0 <= index < len, and it is that element; the guard's index == len case, which panics on the slice access, is absent like the other out-of-range indexes |
| LexSpec.Lookup | scanner.go:125-135 | each keyword gives its own kind exactly for its own text, and every other text is invalid |
| LexSpec.HexDigits | scanner.go:137-150 | scanHex moves the cursor only forward and stays within the input |
| LexSpec.StringChar | scanner.go:158-185 | one step of scanString always consumes at least one character |
| LexSpec.StringBody | scanner.go:151-189 | scanString moves the cursor only forward and stays within the input |
| LexSpec.FractionRun | scanner.go:192-226 | scanFraction moves the cursor only forward and stays within the input |
| LexSpec.NumberRun | scanner.go:228-250 | scanNumber moves the cursor only forward and stays within the input |
| LexSpec.IdentRun | scanner.go:251-265 | scanIdent moves the cursor only forward and stays within the input |
| LexSpec.Next | scanner.go:66-123 | nextToken moves the cursor only forward and stays within the input |
| Lex.Scanner.constructor | scanner.go:57-64 | newScanner starts at the beginning of the input with an empty buffer, line 1 and no error |
| Lex.Scanner.ReadRune | scanner.go:68-71 | a character is read and the cursor advances exactly when input remains; at the end nothing moves |
| Lex.Scanner.UnreadRune | scanner.go:102 | the cursor steps back by one |
| Lex.Scanner.ScanHex | scanner.go:137-150 | the loop leaves the status, cursor and buffer that HexDigits gives for four digits |
| Lex.Scanner.ScanString | scanner.go:151-189 | the loop leaves the status, cursor and buffer of StringBody |
| Lex.Scanner.ScanFraction | scanner.go:192-226 | the loop leaves the status, cursor and buffer of FractionRun, starting with no exponent and no sign seen |
| Lex.Scanner.ScanNumber | scanner.go:228-250 | the loop leaves the status, cursor and buffer of NumberRun |
| Lex.Scanner.ScanIdent | scanner.go:251-265 | the loop leaves the status, cursor and buffer of IdentRun |
| Lex.Scanner.NextToken | scanner.go:66-123 | the token returned and the scanner state left are those of Next |
| LexProps.WhitespaceStartsNoToken | scanner.go:266-271 | a character isWhitespace accepts is not a newline and starts no token: no quote, digit, letter or punctuation |
| LexProps.WhitespaceSkipped | scanner.go:72-74 | nextToken skips such a character without counting a line and without touching the buffer |
| LexProps.HexDigitsCopies | scanner.go:137-150 | on success exactly n hex digits are consumed and copied; errEOF only when the input ends first; on failure the offending non-hex character is consumed, named in the error and not copied |
| LexProps.HexDigitsAccept | scanner.go:137-150 | four hex digits are accepted and copied verbatim |
| LexProps.StringCharCopies | scanner.go:158-185 | a completed step copies exactly what it consumed; a failed one copies all but the rejected character and reports an escape or hex-digit error |
| LexProps.StringBodyCopies | scanner.go:151-189 | a completed scan copies the body verbatim, up to a closing quote (consumed, not copied) or to the end of input; a failure copies up to the character that caused it |
| LexProps.FractionRunCopies | scanner.go:192-226 | a normal stop leaves a non-digit unread and has copied everything consumed; a failure names the rejected character and does not copy it |
| LexProps.NumberRunCopies | scanner.go:228-250 | a normal stop is at the end of input or before a non-digit, with everything consumed copied; a failure names the rejected character and does not copy it |
| LexProps.IdentRunCopies | scanner.go:251-265 | scanIdent never fails, copies exactly the letters it consumed, and ends with errEOF exactly at the end of input, otherwise before a non-letter |
| LexProps.StringCharValid | scanner.go:158-185 | a string body is valid up to q exactly when its first character or escape is copied whole and the rest up to q is valid |
| LexProps.StringBodyOvershoot | scanner.go:151-189 | a step that already passes q means scanString cannot stop right after q with only the text before q copied |
| LexProps.StringBodyClosed | scanner.go:151-189 | scanString stops just after a quote at q, with the body copied verbatim, exactly when input[q] is a quote and the text before it is a valid string body (section 7 of RFC 8259, control characters allowed) |
| LexProps.StringBodyUnclosed | scanner.go:151-157 | scanString reaches the end of input with no error exactly when the rest is a valid body: an unterminated string scans as a string |
| LexProps.AdmitsCons | scanner.go:192-226 | the grammar of fraction suffixes, one character at a time: a digit, a first sign, or a first exponent letter before any sign |
| LexProps.FractionRunDone | scanner.go:192-226 | scanFraction ends normally at q with the text copied exactly when the suffix is admitted and input[q] ends the number |
| Decimal.DigitRun | scanner.go:229-236 | the leading digit run is all digits and is not followed by a digit |
| LexProps.NumberRunDone | scanner.go:228-250 | scanNumber ends normally at q with the text copied exactly when NumberAt describes input[pos..q] |
| LexProps.NextProgress | scanner.go:66-123 | a string, number, word or punctuation token consumes input; end of input comes only at the end, with an empty literal; the line count only grows; the error changes only with an invalid token |
| LexProps.EofAbsorbs | scanner.go:68-71 | after the end-of-input token, nextToken keeps returning it and changes nothing |
| LexProps.SkipBlanks | scanner.go:67-99 | blanks before a token are skipped, and each line feed among them adds one line |
| LexProps.NextString | scanner.go:76-85 | a quoted valid body is one string token whose literal is the body verbatim |
| LexProps.NextNumber | scanner.go:103-111 | a number of the NumberAt shape is one number token whose literal is its text |
| LexProps.NextWord | scanner.go:112-117 | a letter run ended by a non-letter is one word token with its lookup kind, and no error is recorded |
| LexProps.NextWordAtEnd | scanner.go:113-115 | a letter run that reaches the end of input gives the end-of-input token |
| LexProps.DigitStartsNumber | scanner.go:100-111 | a token starting with a digit is the number token of scanNumber's text |
| LexProps.LetterStartsWord | scanner.go:112-118 | a token starting with a letter is scanIdent's word, or end of input |
| LexProps.NextStray | scanner.go:100-118 | a character that starts no token gives an invalid token with an empty literal; it is not consumed and no error is recorded |
| LexProps.NextPunct | scanner.go:86-97 | each punctuation character is its own token, with that character as its literal |
| LexProps.NextBadEscape | scanner.go:76-84 | an unknown escape letter gives an invalid token whose literal ends at the backslash, and records the error |
| LexProps.BadEscapeAt | scanner.go:176-181 | after a valid body, an unknown escape letter fails scanString with that letter, after copying up to the backslash |
| LexProps.TokensStep | scanner.go:66-123 | the token sequence is the next token followed by the tokens after it |
| LexProps.PunctStep | scanner.go:86-97 | the token sequence from a punctuation character starts with that character's token |
| LexProps.ScanArray | scanner_test.go:17-27 | the first scanner test gives exactly its six tokens |
| LexProps.NumberBeforeComma | scanner.go:228-250 | a digit run, '.' or 'e'/'E', and an admitted suffix, followed by a comma, is scanned whole |
| LexProps.ScannerTestNumbers | scanner_test.go:71-89 | each number literal of the scanner test scans as one number token |
| LexProps.LooseNumbers | scanner.go:192-226 | "12e", "1e2e3" and "1.5-3" are number tokens; "1.5e" at the end of input is end of input; "12df" stops at the letter; "1e+5e" fails on the second 'e' |
| ParseSpec.Advance | parser.go:162-168 | the next token never moves the state backwards, and consuming a live token strictly shrinks what is left |
| ParseSpec.Match | parser.go:162-168 | match advances exactly when the current token has the kind asked for; otherwise nothing changes |
| ParseSpec.GetErr | parser.go:170-175 | the scanner's recorded error takes precedence over the parser's own |
| ParseSpec.ParseNumber | parser.go:152-156 | the value is strconv.Atoi of the literal, its error dropped, and the token is always consumed |
| ParseSpec.ParseValue | parser.go:79-104 | a value never moves the parser past the input, and every object in the result has distinct keys |
| ParseSpec.ParseObject | parser.go:48-77 | a success is an object whose keys are distinct at every level |
| ParseSpec.ObjectMembers | parser.go:51-72 | the loop only adds members and keeps keys distinct at every level |
| ParseSpec.CloseObject | parser.go:73-76 | the object closes exactly on '}'; otherwise the error is getErr of "expected member", naming the token |
| ParseSpec.ParseArray | parser.go:106-150 | a success is an array whose objects have distinct keys |
| ParseSpec.ArrayElements | parser.go:110-140 | one pass of the loop only adds elements and keeps them well formed |
| ParseSpec.AppendWellFormed | parser.go:113 | appending a well-formed value keeps an array well formed |
| ParseSpec.ArrayNext | parser.go:141-145 | the comma test only adds elements and keeps them well formed |
| ParseSpec.CloseArray | parser.go:146-149 | the array closes exactly on ']'; otherwise the error is "expected ]" naming the token, not passed through getErr |
| ParseSpec.Finish | parser.go:35-38 | a parse routine's result becomes a value exactly when it succeeds, and otherwise its own error; never the outcome with neither |
| ParseSpec.ParseFrom | parser.go:29-46 | a document that parses is an object or an array whose keys are distinct at every level |
| ParseSpec.Parse | json.go:254-261 | ToValue's successful results are well-formed objects or arrays |
| Syntax.Parser.constructor | parser.go:21-28 | newParser starts a new scanner, with no current token |
| Syntax.Parser.Match | parser.go:162-168 | the method's result and new state are those of Match |
| Syntax.Parser.ParseNumber | parser.go:152-156 | the method's value and new state are those of ParseNumber |
| Syntax.Parser.ParseValue | parser.go:79-104 | the method's result and new state are those of ParseValue |
| Syntax.Parser.ParseObject | parser.go:48-77 | the method fills a JObject in place; its result and new state are those of ParseObject |
| Syntax.Parser.ParseArray | parser.go:106-150 | the method fills a JArray in place through addValue; its result and new state are those of ParseArray |
| Syntax.Parser.ArrayElement | parser.go:110-140 | one pass of the switch appends to the JArray in place; the array and the state it leaves are those from which ArrayNext gives the result of ArrayElements, or it ends with ArrayElements' error |
| Syntax.Parser.ScalarElement | parser.go:111-125 | a number, string, null, true or false token is appended to the JArray in place as the value it stands for, and the loop goes on from the next token exactly as ArrayElements does |
| Syntax.Parser.ObjectMember | parser.go:55-67 | one key-value pair is read and stored in the JObject in place; a repeated key, a missing colon or a failing value ends with ObjectMembers' error, otherwise the object and state are those from which ObjectMembers continues (after a comma) or closes |
| Syntax.Parser.Parse | parser.go:29-46 | the outcome is that of ParseFrom from the scanner's state |
| Syntax.ToValue | json.go:254-261 | the outcome is Parse of the data |
| ParseProps.ElementsShift | parser.go:106-150 | the array loop only appends: running it with pre in front of what it holds gives the same run with pre in front, or the same error |
| ParseProps.NextShift | parser.go:141-145 | the same for the comma test at the end of each pass |
| ParseProps.ElementsFromEmpty | parser.go:106-150 | the elements collected so far are a prefix of the array returned |
| ParseProps.MembersKeepPrefix | parser.go:51-72 | the object loop keeps the members it has read, in front of any it adds |
| ParseProps.ArraySkipsComma | parser.go:141-144 | a comma where a value is expected is skipped, so stray commas are accepted |
| ParseProps.ArrayIgnoresScannerError | parser.go:146-148 | an invalid, ':' or '}' token inside an array is "expected ]" naming it; the scanner's recorded error is not reported |
| ParseProps.ArrayAtEOF | parser.go:138-139 | the end of input where the array expects a value is errEOF |
| ParseProps.ArrayPropagatesError | parser.go:126-137 | a nested container that fails fails the array with the same error and state |
| ParseProps.ValueRejects | parser.go:103 | a token that starts no value is the scanner's error if one was recorded, otherwise "expected a value" |
| ParseProps.RepeatedKeyFirst | parser.go:55-58 | a key already present is refused before it is consumed |
| ParseProps.ObjectClosesOnBrace | parser.go:52-54 | where a key is expected, '}' closes the object with its members; any other non-string is getErr of "expected member" |
| ParseProps.ObjectPropagatesError | parser.go:63-66 | a value that fails after a new key and colon fails the object the same way |
| ParseProps.NumberLiteralValue | parser.go:152-156 | a number token whose literal is the text of n parses to n |
| ParseProps.FractionLiteralZero | parser.go:152-156 | a number token with a fraction or an exponent parses to 0, not to its integer part, when that part fits in a uint64 |
| ParseProps.FractionLiteralOverflow | parser.go:152-156 | a number token whose integer part is past 2^64 - 1 parses to MaxInt64 whatever fraction or exponent follows |
| ParseProps.BlankDocument | parser.go:39-40 | a document of blanks only is errEOF |
| ParseProps.WordDocument | parser.go:41-45 | a document starting with a word is "expected { or [" for a keyword, and neither value nor error for any other word |
| ParseProps.EmptyArrayDocument | parser.go:37-38 | "[]" parses to the empty array, whatever text follows it (a case of Suffix.TrailingTextIgnored) |
| ParseProps.EmptyObjectDocument | parser.go:35-36 | "{}" parses to the empty object, whatever text follows it (a case of Suffix.TrailingTextIgnored) |
| Suffix.HexLocal | scanner.go:137-150 | when scanHex stops before the end of the input, appending text to the input changes nothing it returns |
| Suffix.StringCharLocal | scanner.go:158-185 | the same for one step of scanString |
| Suffix.StringBodyLocal | scanner.go:151-189 | the same for scanString |
| Suffix.FractionLocal | scanner.go:192-226 | the same for scanFraction |
| Suffix.NumberLocal | scanner.go:228-250 | the same for scanNumber |
| Suffix.IdentLocal | scanner.go:251-265 | the same for scanIdent |
| Suffix.NextLocal | scanner.go:66-123 | a token that is punctuation, or that ends before the end of the input, is the same token with the same scanner state whatever text is appended |
| Suffix.AdvanceLocal | parser.go:162-168 | reading the next token is unaffected by appended text when the state it leads to has input left or a punctuation token |
| Suffix.MatchLocal | parser.go:162-168 | the same for match |
| Suffix.ValueLocal | parser.go:79-104 | parseValues gives the same result and state on any extension of the input, when the state it leaves has input left or a punctuation token |
| Suffix.ObjectLocal | parser.go:48-77 | the same for parseObject, and a successful object is the same on any extension of the input |
| Suffix.MembersLocal | parser.go:51-72 | the same for the object loop |
| Suffix.MemberLocal | parser.go:55-67 | the same for one key-value pair and the loop after it |
| Suffix.AfterValueLocal | parser.go:68-76 | the same for the comma test and the close after a member |
| Suffix.ArrayLocal | parser.go:106-150 | the same for parseArray |
| Suffix.ElementsLocal | parser.go:110-140 | the same for the array loop |
| Suffix.ScalarLocal | parser.go:111-125 | the same for a scalar element and the loop after it |
| Suffix.NestedLocal | parser.go:126-137 | the same for a nested container element and the loop after it |
| Suffix.ArrayNextLocal | parser.go:141-149 | the same for the comma test and the close of the array |
| Suffix.TrailingTextIgnored | parser.go:29-46 | a document that parses gives the same value whatever text is appended to it: parse returns once the root value is closed |
| ScannerCases.ScanObject | scanner_test.go:29-49 | the second scanner test gives exactly its eighteen tokens |
| ScannerCases.ScanEscapes | scanner_test.go:51-59 | every simple escape is accepted and kept undecoded in the literal |
| ScannerCases.ScanQuote | scanner_test.go:61-69 | an escaped quote does not end the string |
| ScannerCases.ScanNumbers | scanner_test.go:71-89 | integers, fractions and exponents are single number tokens, with the expected twelve tokens |
| ParserCases.ObjectTest | parser_test.go:10-72 | the multi-line object of the test parses to exactly its members, nested array and object included |
| ParserCases.ArrayTest | parser_test.go:74-116 | the test array parses to exactly its seven elements |
| ParserCases.EmptyText | parser_test.go:171 | the empty document is errEOF |
| ParserCases.BareNumber | parser_test.go:172 | `1` is "expected { or [" naming "1" |
| ParserCases.KeyWithoutValue | parser_test.go:173 | `{"key"}` is "expected ':'" naming "}" |
| ParserCases.UnquotedKey | parser_test.go:174 | `{key:123}` is "expected member" naming "key" |
| ParserCases.LettersAfterNumber | parser_test.go:175 | `{"key":123df}` is "expected member" naming "df" |
| ParserCases.BadEscape | parser_test.go:176 | `{"key":"kk\h"}` is the scanner's invalid-escape error for 'h' |
| ParserCases.UnclosedString | parser_test.go:177 | `{"key":"kk` is "expected member" naming the empty end-of-input literal |
| ParserCases.UnclosedObject | parser_test.go:178 | `{` is "expected member" naming the empty end-of-input literal |
| ParserCases.MalformedCorpus | parser_test.go:169-186 | every text of the malformed corpus is rejected with an error |
| ParserCases.RepeatedKeyCase | parser.go:55-58 | `{"a":1,"a":2}` is the repeated-key error naming "a" |
| ParserCases.TrailingMemberComma | parser.go:68-76 | `{"a":1,}` is accepted as the object a:1 |
| ParserCases.LooseArrayCommas | parser.go:106-150 | `[,1,,2,]` is accepted as [1,2] |
| ParserCases.NonIntegerNumbers | parser.go:152-156 | `[12.5, 12e+1]` is [0,0] |
| ParserCases.NegativeNumber | scanner.go:100-118 | `[-1]` is "expected ]" naming the empty literal of the stray '-' |
| ParserCases.BareWord | parser.go:41-42 | `abc ` is neither a value nor an error |
| ParserCases.NestedMissingColon | parser.go:126-137 | a missing colon deep inside nested containers reaches the caller unchanged |
| Walk.BoolText | visitor.go:82-84 | the text written for a boolean is the keyword the scanner reads back as that boolean |
| Walk.Render | visitor.go:47-87 | only a string renders as nothing; objects are in braces and arrays in brackets; a number reads back through Atoi as itself; true, false and null read back as their keywords |
| Walk.RenderElements | visitor.go:63-74 | the elements render to nothing exactly for no elements or one empty string |
| Walk.RenderMember | visitor.go:52-54 | a member renders as its key, then ':', then the value |
| Walk.RenderMembers | visitor.go:47-62 | the members render to nothing exactly when there are none |
| Walk.NodeVisitor.constructor | visitor.go:42-46 | newNodeVisitor starts with an empty buffer |
| Walk.NodeVisitor.Accept | visitor.go:18-35 | accept appends the rendering of the value |
| Walk.NodeVisitor.WalkObject | visitor.go:47-62 | walkObject appends '{', the `key:value` pairs separated by ',' and '}' |
| Walk.NodeVisitor.WalkArray | visitor.go:63-74 | walkArray appends '[', the elements separated by ',' and ']' |
| Walk.NodeVisitor.WalkString | visitor.go:76-78 | the string is appended raw, with no quotes and no escaping |
| Walk.NodeVisitor.WalkNumber | visitor.go:79-81 | the appended text is the decimal text of the number and reads back as the same number |
| Walk.NodeVisitor.WalkBool | visitor.go:82-84 | "true" or "false" is appended |
| Walk.NodeVisitor.WalkNull | visitor.go:85-87 | "null" is appended |
| Walk.ToString | json.go:81-105 | every String() method, whether it formats itself or runs a fresh walker, gives the walker's rendering |
| Walk.CountConcat | visitor.go:47-74 | counting a character in a concatenation adds the two counts |
| Walk.ElementSeparators | visitor.go:63-74 | an array of n >= 1 elements gets exactly n - 1 separating commas besides those inside the elements |
| Walk.MemberSeparators | visitor.go:47-62 | an object of n >= 1 members gets exactly n - 1 separating commas besides those inside the members |
| Walk.ContainerBrackets | visitor.go:47-74 | containers are bracketed; "{}" is exactly the empty object, and the empty array renders as "[]" |
| Walk.RenderMembersSuffix | visitor.go:47-62 | a non-empty member list renders to a non-empty text |
| Walk.EmptyStringElementLooksEmpty | visitor.go:76-78 | strings are raw, so `[""]` renders like `[]`: the rendering does not determine the value |
| Walk.RenderNumberReadsBack | json.go:94-96 | a rendered number reads back with Atoi as the same number |

## Where the code differs from the package's description

The model follows the code in each of these cases.

- **Escapes.** String escapes are checked but not decoded. The token's literal keeps the backslash and the letter, and `\u` keeps its four digits (ScannerCases.ScanEscapes).
- **Loose numbers.** The number suffix is looser than "one sign, right after the exponent letter". `12e`, `1e2e3` and `1.5-3` are number tokens. scanNumber does not tell scanFraction that it has seen an 'e' (LexProps.LooseNumbers).
- **Non-integer numbers parse to 0.** A number with a fraction or an exponent parses to 0, not to its integer digits: Atoi fails and its error is dropped (ParseProps.FractionLiteralZero, ParserCases.NonIntegerNumbers). The exception is an integer part past 2^64 - 1: strconv reads digits left to right and reports the range error before it reaches the '.', 'e' or 'E', so the number is MaxInt64 (ParseProps.FractionLiteralOverflow, Decimal.AtoiOverflowExample).
- **A trailing comma is accepted in an object.** The loop breaks on '}' and then matches it (ParserCases.TrailingMemberComma).
- **Stray commas are accepted in an array.** Leading, doubled and trailing commas are all skipped (ParseProps.ArraySkipsComma, ParserCases.LooseArrayCommas).
- **A character that starts no token records no lexical error.** It gives an invalid token with an empty literal and is not consumed:
  - `-` inside an array gives "expected ]";
  - at the top level the outcome is neither a value nor an error (ParserCases.NegativeNumber, ParserCases.BareWord).
- **End of input inside a number suffix, or at the end of a word, is the end-of-input token.** It is not an error token.
- **Text after the root value is ignored.** parse returns once the root is closed. Matching the closing bracket scans the first token after it, which may record a lexical error, but nothing reads that token or error, so the outcome is the same whatever text follows (Suffix.TrailingTextIgnored).
- **The rendering cannot be parsed back.** Strings and keys are emitted raw, so the rendering is not a JSON text and different values can render alike (Walk.EmptyStringElementLooksEmpty). No parse-of-render round trip is stated.

## Left out

- Reflection-based conversion of arbitrary Go values, `toJSONValue` and friends (json.go:111-217): it relies on Go's `reflect` package. The API methods take an already built `Value` instead.
- Json.AddValueCase: it fixes one iteration order of the test's Go map, because Go's map order is unspecified.
- Go map iteration order: objects keep insertion order, so walkObject renders the members in that order. Go's order is unspecified.
- Json.Index: the panic is the absent result. The panic message is not modelled.
- The Unicode letter and digit classes of `unicode.IsLetter` and `unicode.IsDigit`: only ASCII letters and digits are modelled.
- UTF-8 decoding and `bufio`'s reader errors other than end of input: the input is a sequence of characters.
- Aliasing between value trees: the containers hold values, so the shared substructure that Go pointers allow is not modelled.
- Error message texts: each error is a constructor of `ParseError` or `ScanError` carrying the literal or character the message names.
- `tokenQuota` and `tokenTable`: the first is never produced, and the second only names kinds in messages.
- The scanner's `pos` field and the visitor's `indent` field: neither is ever read.
- `parseString` (parser.go:157-160): an unused stub.
- The tests' use of `encoding/json` and the `check` helper: they are outside the package's core.
