/**
 * scanner.go as functions: what each sub-scanner and nextToken do to the read
 * cursor, the literal buffer, the line counter and the sticky error.
 *
 * The bufio.Reader is the input text with a cursor `pos`; ReadRune reads
 * input[pos] and advances, UnreadRune steps back by one, and reading at
 * pos == |input| is the reader's end-of-input error.
 */
module LexSpec {
  import opened Wrappers
  import opened Decimal

  /** The token kinds; tokenQuota is declared but never produced and is left out. */
  datatype Kind =
    | TokenInvalid | TokenComma | TokenColon | TokenLBrace | TokenRBrace | TokenLBracket | TokenRBracket
    | TokenNumber | TokenString | TokenNull | TokenTrue | TokenFalse | TokenEOF

  /** A token that stands for input text: neither end of input nor invalid. */
  predicate Live(k: Kind)
  {
    k != TokenInvalid && k != TokenEOF
  }

  datatype Token = Token(kind: Kind, literal: string)

  /** The lexical errors the scanner records in its `err` field. */
  datatype ScanError =
    | InvalidHexDigit(c: char)
    | InvalidEscape(c: char)
    | InvalidNumberChar(c: char)

  /** How a sub-scanner ended: normally, with errEOF, or with a lexical error. */
  datatype Status = Done | AtEOF | Failed(error: ScanError)

  /** The outcome of a sub-scanner together with the cursor and buffer it leaves. */
  datatype Scan = Scan(status: Status, pos: nat, buf: string)

  /** The scanner's state between two nextToken calls. */
  datatype Lexer = Lexer(pos: nat, buf: string, line: int, err: Option<ScanError>)

  /** newScanner: cursor at the start, empty buffer, line 1, no error. */
  const Start := Lexer(0, [], 1, None)

  /** isWhitespace: space, tab and carriage return; line feed is handled apart. */
  predicate IsWhitespace(c: char)
  {
    c == ' ' || c == '\t' || c == '\r'
  }

  /** ASCII letters; the Unicode letter classes of unicode.IsLetter are not modelled. */
  predicate IsLetter(c: char)
  {
    'a' <= c <= 'z' || 'A' <= c <= 'Z'
  }

  predicate IsHex(c: char)
  {
    '0' <= c <= '9' || 'a' <= c <= 'f' || 'A' <= c <= 'F'
  }

  /** The escape letters accepted after a backslash, other than 'u'. */
  predicate IsSimpleEscape(c: char)
  {
    c == '"' || c == '\\' || c == '/' || c == 'b' || c == 'f' || c == 'n' || c == 'r' || c == 't'
  }

  /** lookup: the three keywords, anything else is invalid. */
  function Lookup(lit: string): (k: Kind)
    ensures k == TokenNull <==> lit == "null"
    ensures k == TokenTrue <==> lit == "true"
    ensures k == TokenFalse <==> lit == "false"
    ensures k == TokenInvalid <==> lit != "null" && lit != "true" && lit != "false"
  {
    if lit == "null" then TokenNull
    else if lit == "true" then TokenTrue
    else if lit == "false" then TokenFalse
    else TokenInvalid
  }

  /** scanHex: n more hex digits are copied to the buffer. */
  function HexDigits(input: string, pos: nat, buf: string, n: nat): (r: Scan)
    requires pos <= |input|
    ensures pos <= r.pos <= |input|
    decreases n
  {
    if n == 0 then Scan(Done, pos, buf)
    else if pos == |input| then Scan(AtEOF, pos, buf)
    else if IsHex(input[pos]) then HexDigits(input, pos + 1, buf + [input[pos]], n - 1)
    else Scan(Failed(InvalidHexDigit(input[pos])), pos + 1, buf)
  }

  /**
   * One step of scanString's loop on a character other than the closing
   * quote: a plain character is copied; a backslash is copied with a simple
   * escape letter, or with 'u' and four hex digits (scanHex); any other letter
   * is an invalid escape, with only the backslash copied.
   */
  function StringChar(input: string, pos: nat, buf: string): (r: Scan)
    requires pos < |input| && input[pos] != '"'
    ensures pos < r.pos <= |input|
  {
    if input[pos] != '\\' then Scan(Done, pos + 1, buf + [input[pos]])
    else if pos + 1 == |input| then Scan(AtEOF, pos + 1, buf + ['\\'])
    else
      var e := input[pos + 1];
      if e == 'u' then HexDigits(input, pos + 2, buf + ['\\', 'u'], 4)
      else if IsSimpleEscape(e) then Scan(Done, pos + 2, buf + ['\\', e])
      else Scan(Failed(InvalidEscape(e)), pos + 2, buf + ['\\'])
  }

  /**
   * scanString, after the opening quote: characters are copied verbatim.
   * A closing quote ends the string (status Done, quote consumed, not copied);
   * so does end of input inside the body.
   */
  function StringBody(input: string, pos: nat, buf: string): (r: Scan)
    requires pos <= |input|
    ensures pos <= r.pos <= |input|
    decreases |input| - pos
  {
    if pos == |input| then Scan(Done, pos, buf)
    else if input[pos] == '"' then Scan(Done, pos + 1, buf)
    else
      var s := StringChar(input, pos, buf);
      if s.status.Done? then StringBody(input, s.pos, s.buf) else s
  }

  /**
   * scanFraction: the loose suffix after '.', 'e' or 'E'. Digits are copied;
   * one sign is allowed; one further 'e'/'E' is allowed, but not after a sign.
   * Any other character ends the number and is left unread.
   */
  function FractionRun(input: string, pos: nat, buf: string, sawE: bool, sawSign: bool): (r: Scan)
    requires pos <= |input|
    ensures pos <= r.pos <= |input|
    decreases |input| - pos
  {
    if pos == |input| then Scan(AtEOF, pos, buf)
    else
      var c := input[pos];
      var sign := c == '-' || c == '+';
      var exp := c == 'e' || c == 'E';
      var rejected :=
        if sign then sawSign
        else if exp then (sawSign && !sawE) || sawE
        else false;
      if rejected then Scan(Failed(InvalidNumberChar(c)), pos + 1, buf)
      else if sign || exp || IsDigit(c) then FractionRun(input, pos + 1, buf + [c], sawE || exp, sawSign || sign)
      else Scan(Done, pos, buf)
  }

  /**
   * scanNumber: a digit run, ended by end of input or a non-digit that is left
   * unread; '.', 'e' or 'E' is copied and continues with scanFraction.
   */
  function NumberRun(input: string, pos: nat, buf: string): (r: Scan)
    requires pos <= |input|
    ensures pos <= r.pos <= |input|
    decreases |input| - pos
  {
    if pos == |input| then Scan(Done, pos, buf)
    else
      var c := input[pos];
      if IsDigit(c) then NumberRun(input, pos + 1, buf + [c])
      else if c == '.' || c == 'e' || c == 'E' then FractionRun(input, pos + 1, buf + [c], false, false)
      else Scan(Done, pos, buf)
  }

  /** scanIdent: a letter run; end of input inside it is errEOF. */
  function IdentRun(input: string, pos: nat, buf: string): (r: Scan)
    requires pos <= |input|
    ensures pos <= r.pos <= |input|
    decreases |input| - pos
  {
    if pos == |input| then Scan(AtEOF, pos, buf)
    else if IsLetter(input[pos]) then IdentRun(input, pos + 1, buf + [input[pos]])
    else Scan(Done, pos, buf)
  }

  /**
   * nextToken: skip blanks (counting line feeds), then dispatch on the first
   * character. The returned state's buffer is the scanner's `buf` field.
   */
  function Next(input: string, lx: Lexer): (r: (Token, Lexer))
    requires lx.pos <= |input|
    ensures lx.pos <= r.1.pos <= |input|
    decreases |input| - lx.pos
  {
    if lx.pos == |input| then (Token(TokenEOF, ""), lx)
    else
      var c := input[lx.pos];
      var p := lx.pos + 1;
      if IsWhitespace(c) then Next(input, lx.(pos := p))
      else if c == '"' then
        var s := StringBody(input, p, []);
        match s.status
        case AtEOF => (Token(TokenEOF, ""), lx.(pos := s.pos, buf := s.buf))
        case Failed(e) => (Token(TokenInvalid, s.buf), lx.(pos := s.pos, buf := s.buf, err := Some(e)))
        case Done => (Token(TokenString, s.buf), lx.(pos := s.pos, buf := s.buf))
      else if c == ',' then (Token(TokenComma, ","), lx.(pos := p))
      else if c == ':' then (Token(TokenColon, ":"), lx.(pos := p))
      else if c == '{' then (Token(TokenLBrace, "{"), lx.(pos := p))
      else if c == '}' then (Token(TokenRBrace, "}"), lx.(pos := p))
      else if c == '[' then (Token(TokenLBracket, "["), lx.(pos := p))
      else if c == ']' then (Token(TokenRBracket, "]"), lx.(pos := p))
      else if c == '\n' then Next(input, lx.(pos := p, line := lx.line + 1))
      else if IsDigit(c) then
        var s := NumberRun(input, lx.pos, []);
        match s.status
        case AtEOF => (Token(TokenEOF, ""), lx.(pos := s.pos, buf := s.buf))
        case Failed(e) => (Token(TokenInvalid, s.buf), lx.(pos := s.pos, buf := s.buf, err := Some(e)))
        case Done => (Token(TokenNumber, s.buf), lx.(pos := s.pos, buf := s.buf))
      else
        var s := IdentRun(input, lx.pos, []);
        if !s.status.Done? then (Token(TokenEOF, ""), lx.(pos := s.pos, buf := s.buf))
        else
          (Token(Lookup(s.buf), s.buf), lx.(pos := s.pos, buf := s.buf))
  }
}
