/**
 * parser.go as functions over the parser's state: the scanner state and the
 * current token (the `token` and `literal` fields). Each function returns the
 * parse result and the state the Go method leaves behind.
 */
module ParseSpec {
  import opened Wrappers
  import opened Decimal
  import opened Json
  import opened LexSpec
  import LexProps

  /** The errors the parser reports; the message texts are not modelled. */
  datatype ParseError =
    | UnexpectedEOF              // errEOF
    | Lexical(e: ScanError)      // the scanner's recorded error, through getErr or parse
    | ExpectedRoot(got: string)  // "expected: '{', '[' got: ..."
    | RepeatedKey(key: string)   // "repeated key:... in object"
    | ExpectedColon(got: string) // "expect: ':' got:..."
    | ExpectedMember(got: string) // "expect: key-value pair or '}' got:..."
    | ExpectedValue              // "expect: STRING, NUMBER, TRUE, FALSE, NULL, {, ["
    | ExpectedRBracket(got: string) // "expected:], got: ..."

  /** The parser's state: the scanner's state and the current token. */
  datatype PState = PState(lx: Lexer, tok: Token)

  /** What parse returns: a value, an error, or (nil, nil) for an invalid first token with no scanner error. */
  datatype Outcome = Parsed(v: Value) | Rejected(e: ParseError) | NoValue

  type Parsing = (Result<Value, ParseError>, PState)

  predicate Within(input: string, ps: PState)
  {
    ps.lx.pos <= |input|
  }

  /** Twice the unread input, plus one while the current token stands for text. */
  function Measure(input: string, ps: PState): nat
    requires Within(input, ps)
  {
    2 * (|input| - ps.lx.pos) + (if Live(ps.tok.kind) then 1 else 0)
  }

  /** The measure on entry to parseObject and parseArray, which first match their own bracket. */
  function Entry(input: string, ps: PState, open: Kind): nat
    requires Within(input, ps)
  {
    Measure(input, ps) + (if ps.tok.kind == open then 0 else 1)
  }

  /** The next token from the scanner becomes the current token. */
  function Advance(input: string, ps: PState): (r: PState)
    requires Within(input, ps)
    ensures Within(input, r)
    ensures Measure(input, r) <= Measure(input, ps)
    ensures Live(ps.tok.kind) ==> Measure(input, r) < Measure(input, ps)
  {
    LexProps.NextProgress(input, ps.lx);
    var (tok, lx) := Next(input, ps.lx);
    PState(lx, tok)
  }

  /** match: advance exactly when the current token has kind k. */
  function Match(input: string, ps: PState, k: Kind): (r: (bool, PState))
    requires Within(input, ps)
    ensures r.0 <==> ps.tok.kind == k
    ensures r.0 ==> r.1 == Advance(input, ps)
    ensures !r.0 ==> r.1 == ps
  {
    if ps.tok.kind == k then (true, Advance(input, ps)) else (false, ps)
  }

  /** getErr: the scanner's recorded error takes precedence over the parser's own. */
  function GetErr(recorded: Option<ScanError>, e: ParseError): (r: ParseError)
    ensures recorded.Some? ==> r == Lexical(recorded.value)
    ensures recorded.None? ==> r == e
  {
    if recorded.Some? then Lexical(recorded.value) else e
  }

  /** parseNumber: strconv.Atoi on the literal, its error dropped; the token is always consumed. */
  function ParseNumber(input: string, ps: PState): (r: (Value, PState))
    requires Within(input, ps) && ps.tok.kind == TokenNumber
    ensures r.0 == Number(Atoi(ps.tok.literal))
    ensures r.1 == Advance(input, ps)
  {
    var v := Number(Atoi(ps.tok.literal));
    (v, Match(input, ps, TokenNumber).1)
  }

  /** Results of the parse functions carry a state within the input, no further from the end. */
  predicate Step(input: string, ps: PState, r: Parsing)
    requires Within(input, ps)
  {
    Within(input, r.1) && Measure(input, r.1) <= Measure(input, ps)
  }

  /** parseValues */
  function ParseValue(input: string, ps: PState): (r: Parsing)
    requires Within(input, ps)
    ensures Step(input, ps, r)
    ensures r.0.Ok? ==> WellFormed(r.0.value)
    decreases Measure(input, ps), 2
  {
    match ps.tok.kind
    case TokenLBrace => ParseObject(input, ps)
    case TokenLBracket => ParseArray(input, ps)
    case TokenString => (Ok(String(ps.tok.literal)), Advance(input, ps))
    case TokenNumber =>
      var (v, ps1) := ParseNumber(input, ps);
      (Ok(v), ps1)
    case TokenNull => (Ok(Null), Advance(input, ps))
    case TokenTrue => (Ok(Bool(true)), Advance(input, ps))
    case TokenFalse => (Ok(Bool(false)), Advance(input, ps))
    case TokenEOF => (Err(UnexpectedEOF), ps)
    case _ => (Err(GetErr(ps.lx.err, ExpectedValue)), ps)
  }

  /** parseObject: match '{', then the members. */
  function ParseObject(input: string, ps: PState): (r: Parsing)
    requires Within(input, ps)
    ensures Step(input, ps, r)
    ensures r.0.Ok? ==> r.0.value.Object? && WellFormed(r.0.value)
    decreases Entry(input, ps, TokenLBrace), 1
  {
    var (_, ps1) := Match(input, ps, TokenLBrace);
    ObjectMembers(input, ps1, [])
  }

  /**
   * The loop of parseObject with the members read so far: while the current
   * token is a string, reject a repeated key, match the key and the colon,
   * parse the value and store it; go on after a comma.
   */
  function ObjectMembers(input: string, ps: PState, members: seq<Member>): (r: Parsing)
    requires Within(input, ps)
    ensures Step(input, ps, r)
    ensures r.0.Ok? ==> r.0.value.Object? && |r.0.value.members| >= |members|
    ensures r.0.Ok? && WellFormed(Object(members)) ==> WellFormed(r.0.value)
    decreases Measure(input, ps), 0
  {
    if ps.tok.kind != TokenString then CloseObject(input, ps, members)
    else
      var key := ps.tok.literal;
      if Find(members, key).Some? then (Err(RepeatedKey(key)), ps)
      else
        var ps1 := Match(input, ps, TokenString).1;
        var (colon, ps2) := Match(input, ps1, TokenColon);
        if !colon then (Err(GetErr(ps2.lx.err, ExpectedColon(ps2.tok.literal))), ps2)
        else
          var (v, ps3) := ParseValue(input, ps2);
          if v.Err? then (v, ps3)
          else
            var more := SetField(members, key, v.value);
            assert more == members + [Member(key, v.value)];
            if ps3.tok.kind != TokenComma then CloseObject(input, ps3, more)
            else ObjectMembers(input, Advance(input, ps3), more)
  }

  /** The end of parseObject: match '}'. */
  function CloseObject(input: string, ps: PState, members: seq<Member>): (r: Parsing)
    requires Within(input, ps)
    ensures Step(input, ps, r)
    ensures r.0.Ok? <==> ps.tok.kind == TokenRBrace
    ensures r.0.Ok? ==> r.0.value == Object(members)
    ensures r.0.Err? ==> r == (Err(GetErr(ps.lx.err, ExpectedMember(ps.tok.literal))), ps)
  {
    var (closed, ps1) := Match(input, ps, TokenRBrace);
    if !closed then (Err(GetErr(ps1.lx.err, ExpectedMember(ps1.tok.literal))), ps1)
    else (Ok(Object(members)), ps1)
  }

  /** parseArray: match '[', then the elements. */
  function ParseArray(input: string, ps: PState): (r: Parsing)
    requires Within(input, ps)
    ensures Step(input, ps, r)
    ensures r.0.Ok? ==> r.0.value.Array? && WellFormed(r.0.value)
    decreases Entry(input, ps, TokenLBracket), 1
  {
    var (_, ps1) := Match(input, ps, TokenLBracket);
    ArrayElements(input, ps1, [])
  }

  /**
   * One pass of parseArray's loop: numbers, strings, literals and nested
   * containers are appended; the end of input is an error; any other token
   * is skipped over without being consumed.
   */
  function ArrayElements(input: string, ps: PState, elements: seq<Value>): (r: Parsing)
    requires Within(input, ps)
    ensures Step(input, ps, r)
    ensures r.0.Ok? ==> r.0.value.Array? && |r.0.value.elements| >= |elements|
    ensures r.0.Ok? && WellFormed(Array(elements)) ==> WellFormed(r.0.value)
    decreases Measure(input, ps), 3
  {
    match ps.tok.kind
    case TokenNumber =>
      var (v, ps1) := ParseNumber(input, ps);
      AppendWellFormed(elements, v);
      ArrayNext(input, ps1, elements + [v])
    case TokenString =>
      AppendWellFormed(elements, String(ps.tok.literal));
      ArrayNext(input, Advance(input, ps), elements + [String(ps.tok.literal)])
    case TokenNull =>
      AppendWellFormed(elements, Null);
      ArrayNext(input, Advance(input, ps), elements + [Null])
    case TokenTrue =>
      AppendWellFormed(elements, Bool(true));
      ArrayNext(input, Advance(input, ps), elements + [Bool(true)])
    case TokenFalse =>
      AppendWellFormed(elements, Bool(false));
      ArrayNext(input, Advance(input, ps), elements + [Bool(false)])
    case TokenLBrace =>
      var (v, ps1) := ParseObject(input, ps);
      if v.Err? then (v, ps1)
      else
        AppendWellFormed(elements, v.value);
        ArrayNext(input, ps1, elements + [v.value])
    case TokenLBracket =>
      var (v, ps1) := ParseArray(input, ps);
      if v.Err? then (v, ps1)
      else
        AppendWellFormed(elements, v.value);
        ArrayNext(input, ps1, elements + [v.value])
    case TokenEOF => (Err(UnexpectedEOF), ps)
    case _ => ArrayNext(input, ps, elements)
  }

  /** A token that parseArray's switch appends as it stands: a number, a string or a keyword. */
  predicate IsScalar(k: Kind)
  {
    k in {TokenNumber, TokenString, TokenNull, TokenTrue, TokenFalse}
  }

  /** The value a scalar token stands for. */
  function ScalarOf(tok: Token): (v: Value)
    requires IsScalar(tok.kind)
    ensures v.Number? <==> tok.kind == TokenNumber
    ensures v.String? ==> v.s == tok.literal
  {
    match tok.kind
    case TokenNumber => Number(Atoi(tok.literal))
    case TokenString => String(tok.literal)
    case TokenNull => Null
    case TokenTrue => Bool(true)
    case TokenFalse => Bool(false)
  }

  /** A scalar token is appended and the loop goes on with the token after it. */
  lemma ScalarStep(input: string, ps: PState, elements: seq<Value>)
    requires Within(input, ps) && IsScalar(ps.tok.kind)
    ensures ArrayElements(input, ps, elements) ==
      ArrayNext(input, Advance(input, ps), elements + [ScalarOf(ps.tok)])
  {
  }

  /** Appending a well-formed value keeps an array well-formed. */
  lemma AppendWellFormed(elements: seq<Value>, v: Value)
    ensures WellFormed(Array(elements)) && WellFormed(v) ==> WellFormed(Array(elements + [v]))
  {
  }

  /** The end of one pass of parseArray's loop: go on after a comma, otherwise close. */
  function ArrayNext(input: string, ps: PState, elements: seq<Value>): (r: Parsing)
    requires Within(input, ps)
    ensures Step(input, ps, r)
    ensures r.0.Ok? ==> r.0.value.Array? && |r.0.value.elements| >= |elements|
    ensures r.0.Ok? && WellFormed(Array(elements)) ==> WellFormed(r.0.value)
    decreases Measure(input, ps), 2
  {
    if ps.tok.kind != TokenComma then CloseArray(input, ps, elements)
    else ArrayElements(input, Advance(input, ps), elements)
  }

  /** The end of parseArray: match ']'; this error does not go through getErr. */
  function CloseArray(input: string, ps: PState, elements: seq<Value>): (r: Parsing)
    requires Within(input, ps)
    ensures Step(input, ps, r)
    ensures r.0.Ok? <==> ps.tok.kind == TokenRBracket
    ensures r.0.Ok? ==> r.0.value == Array(elements)
    ensures r.0.Err? ==> r == (Err(ExpectedRBracket(ps.tok.literal)), ps)
  {
    var (closed, ps1) := Match(input, ps, TokenRBracket);
    if !closed then (Err(ExpectedRBracket(ps1.tok.literal)), ps1)
    else (Ok(Array(elements)), ps1)
  }

  /** A parse function's result as parse returns it. */
  function Finish(r: Result<Value, ParseError>): (o: Outcome)
    ensures o.Parsed? <==> r.Ok?
    ensures o.Parsed? ==> o.v == r.value
    ensures !o.Parsed? ==> o == Rejected(r.error)
  {
    if r.Ok? then Parsed(r.value) else Rejected(r.error)
  }

  /** parse, from the scanner state lx: the first token decides. */
  function ParseFrom(input: string, lx: Lexer): (r: Outcome)
    requires lx.pos <= |input|
    ensures r.Parsed? ==> WellFormed(r.v) && (r.v.Object? || r.v.Array?)
  {
    var (tok, lx1) := Next(input, lx);
    var ps := PState(lx1, tok);
    match tok.kind
    case TokenLBrace => Finish(ParseObject(input, ps).0)
    case TokenLBracket => Finish(ParseArray(input, ps).0)
    case TokenEOF => Rejected(UnexpectedEOF)
    case TokenInvalid => if lx1.err.Some? then Rejected(Lexical(lx1.err.value)) else NoValue
    case _ => Rejected(ExpectedRoot(tok.literal))
  }

  /** ToValue: parse a whole document with a new scanner. */
  function Parse(input: string): (r: Outcome)
    ensures r.Parsed? ==> WellFormed(r.v) && (r.v.Object? || r.v.Array?)
  {
    ParseFrom(input, Start)
  }
}
