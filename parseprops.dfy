/**
 * Properties of the parser over all inputs: parseArray's loop only appends
 * and does not depend on what it read before, it skips stray commas and
 * drops the scanner's error, parseObject's loop keeps the members it has and
 * refuses a repeated key before reading it, nested errors reach the caller
 * unchanged, number literals become what strconv.Atoi makes of them, and what
 * whole documents of a few shapes parse to.
 */
module ParseProps {
  import opened Wrappers
  import opened Decimal
  import opened Json
  import opened LexSpec
  import LexProps
  import opened ParseSpec

  /** A parse result with pre put in front of the elements when it is an array. */
  function Prefixed(pre: seq<Value>, r: Parsing): Parsing
  {
    if r.0.Ok? && r.0.value.Array? then (Ok(Array(pre + r.0.value.elements)), r.1) else r
  }

  /**
   * parseArray's loop appends after whatever it holds already: running it on
   * pre + es gives the run on es with pre in front, or the same error.
   */
  lemma {:induction false} ElementsShift(input: string, ps: PState, pre: seq<Value>, es: seq<Value>)
    requires Within(input, ps)
    ensures ArrayElements(input, ps, pre + es) == Prefixed(pre, ArrayElements(input, ps, es))
    decreases Measure(input, ps), 3
  {
    match ps.tok.kind
    case TokenNumber =>
      var (v, ps1) := ParseNumber(input, ps);
      assert (pre + es) + [v] == pre + (es + [v]);
      NextShift(input, ps1, pre, es + [v]);
    case TokenString =>
      var v := String(ps.tok.literal);
      assert (pre + es) + [v] == pre + (es + [v]);
      NextShift(input, Advance(input, ps), pre, es + [v]);
    case TokenNull =>
      assert (pre + es) + [Null] == pre + (es + [Null]);
      NextShift(input, Advance(input, ps), pre, es + [Null]);
    case TokenTrue =>
      assert (pre + es) + [Bool(true)] == pre + (es + [Bool(true)]);
      NextShift(input, Advance(input, ps), pre, es + [Bool(true)]);
    case TokenFalse =>
      assert (pre + es) + [Bool(false)] == pre + (es + [Bool(false)]);
      NextShift(input, Advance(input, ps), pre, es + [Bool(false)]);
    case TokenLBrace =>
      var (v, ps1) := ParseObject(input, ps);
      if v.Ok? {
        assert (pre + es) + [v.value] == pre + (es + [v.value]);
        NextShift(input, ps1, pre, es + [v.value]);
      }
    case TokenLBracket =>
      var (v, ps1) := ParseArray(input, ps);
      if v.Ok? {
        assert (pre + es) + [v.value] == pre + (es + [v.value]);
        NextShift(input, ps1, pre, es + [v.value]);
      }
    case TokenEOF =>
    case _ => NextShift(input, ps, pre, es);
  }

  /** The same for the comma test that ends each pass of the loop. */
  lemma {:induction false} NextShift(input: string, ps: PState, pre: seq<Value>, es: seq<Value>)
    requires Within(input, ps)
    ensures ArrayNext(input, ps, pre + es) == Prefixed(pre, ArrayNext(input, ps, es))
    decreases Measure(input, ps), 2
  {
    if ps.tok.kind == TokenComma {
      ElementsShift(input, Advance(input, ps), pre, es);
    }
  }

  /** The elements parseArray has collected are a prefix of the array it returns. */
  lemma ElementsFromEmpty(input: string, ps: PState, es: seq<Value>)
    requires Within(input, ps)
    ensures ArrayElements(input, ps, es) == Prefixed(es, ArrayElements(input, ps, []))
  {
    assert es + [] == es;
    ElementsShift(input, ps, es, []);
  }

  /** parseObject's loop keeps the members it has read; it only adds after them. */
  lemma {:induction false} MembersKeepPrefix(input: string, ps: PState, ms: seq<Member>)
    requires Within(input, ps)
    ensures var r := ObjectMembers(input, ps, ms);
      r.0.Ok? ==> |ms| <= |r.0.value.members| && r.0.value.members[..|ms|] == ms
    decreases Measure(input, ps)
  {
    if ps.tok.kind == TokenString && Find(ms, ps.tok.literal).None? {
      var key := ps.tok.literal;
      var ps1 := Match(input, ps, TokenString).1;
      var (colon, ps2) := Match(input, ps1, TokenColon);
      if colon {
        var (v, ps3) := ParseValue(input, ps2);
        if v.Ok? && ps3.tok.kind == TokenComma {
          var more := SetField(ms, key, v.value);
          MembersKeepPrefix(input, Advance(input, ps3), more);
          var r := ObjectMembers(input, Advance(input, ps3), more);
          if r.0.Ok? {
            assert r.0.value.members[..|ms|] == r.0.value.members[..|more|][..|ms|];
          }
        }
      }
    }
  }

  /** A comma where parseArray expects a value is skipped: the pass starts over after it. */
  lemma ArraySkipsComma(input: string, ps: PState, es: seq<Value>)
    requires Within(input, ps) && ps.tok.kind == TokenComma
    ensures ArrayElements(input, ps, es) == ArrayElements(input, Advance(input, ps), es)
  {
  }

  /**
   * Any other token that is no value ends the array with "expected ]" naming
   * its literal; an error the scanner recorded for it is not reported.
   */
  lemma ArrayIgnoresScannerError(input: string, ps: PState, es: seq<Value>)
    requires Within(input, ps)
    requires ps.tok.kind in {TokenInvalid, TokenColon, TokenRBrace}
    ensures ArrayElements(input, ps, es) == (Err(ExpectedRBracket(ps.tok.literal)), ps)
  {
  }

  /** The end of input where parseArray expects a value is errEOF. */
  lemma ArrayAtEOF(input: string, ps: PState, es: seq<Value>)
    requires Within(input, ps) && ps.tok.kind == TokenEOF
    ensures ArrayElements(input, ps, es) == (Err(UnexpectedEOF), ps)
  {
  }

  /** A value that fails to parse inside an array fails the array with the same error and state. */
  lemma ArrayPropagatesError(input: string, ps: PState, es: seq<Value>)
    requires Within(input, ps) && (ps.tok.kind == TokenLBrace || ps.tok.kind == TokenLBracket)
    requires ParseValue(input, ps).0.Err?
    ensures ArrayElements(input, ps, es) == ParseValue(input, ps)
  {
  }

  /**
   * Where parseValues expects a value, a token that starts none is an error:
   * the scanner's recorded error if there is one, otherwise "expected a value".
   */
  lemma ValueRejects(input: string, ps: PState)
    requires Within(input, ps)
    requires ps.tok.kind in {TokenInvalid, TokenComma, TokenColon, TokenRBrace, TokenRBracket}
    ensures ParseValue(input, ps) == (Err(GetErr(ps.lx.err, ExpectedValue)), ps)
  {
  }

  /** A key the object already has is refused as soon as it is the current token, before it is consumed. */
  lemma RepeatedKeyFirst(input: string, ps: PState, ms: seq<Member>)
    requires Within(input, ps) && ps.tok.kind == TokenString && ps.tok.literal in Keys(ms)
    ensures ObjectMembers(input, ps, ms) == (Err(RepeatedKey(ps.tok.literal)), ps)
  {
  }

  /**
   * Where parseObject's loop expects a key, '}' closes the object with the
   * members read so far; any other token that is no string is "expected a
   * key-value pair or '}'", unless the scanner recorded an error first.
   */
  lemma ObjectClosesOnBrace(input: string, ps: PState, ms: seq<Member>)
    requires Within(input, ps) && ps.tok.kind != TokenString
    ensures ps.tok.kind == TokenRBrace ==> ObjectMembers(input, ps, ms) == (Ok(Object(ms)), Advance(input, ps))
    ensures ps.tok.kind != TokenRBrace ==>
      ObjectMembers(input, ps, ms) == (Err(GetErr(ps.lx.err, ExpectedMember(ps.tok.literal))), ps)
  {
  }

  /** A new key followed by a colon and a value that fails to parse fails the object the same way. */
  lemma ObjectPropagatesError(input: string, ps: PState, ms: seq<Member>)
    requires Within(input, ps) && ps.tok.kind == TokenString && ps.tok.literal !in Keys(ms)
    requires Advance(input, ps).tok.kind == TokenColon
    requires ParseValue(input, Advance(input, Advance(input, ps))).0.Err?
    ensures ObjectMembers(input, ps, ms) == ParseValue(input, Advance(input, Advance(input, ps)))
  {
  }

  /** A number token whose literal is Itoa of n is the number n. */
  lemma NumberLiteralValue(input: string, ps: PState, n: int64)
    requires Within(input, ps) && ps.tok == Token(TokenNumber, Itoa(n as int))
    ensures ParseValue(input, ps) == (Ok(Number(n)), Advance(input, ps))
  {
    AtoiItoa(n);
    var (v, ps1) := ParseNumber(input, ps);
    assert v == Number(n);
    assert ParseValue(input, ps) == (Ok(v), ps1);
  }

  /**
   * A number token with a fraction or an exponent is the number 0 when its
   * integer part fits in a uint64: Atoi's syntax error is dropped.
   */
  lemma FractionLiteralZero(input: string, ps: PState)
    requires Within(input, ps) && ps.tok.kind == TokenNumber
    requires var lit := ps.tok.literal; |lit| >= 1 && IsDigit(lit[0]) && !AllDigits(lit)
    requires var lit := ps.tok.literal; ValueOf(lit[..DigitRun(lit)]) <= MaxUint64
    ensures ParseValue(input, ps) == (Ok(Number(0)), Advance(input, ps))
  {
    AtoiNotInteger(ps.tok.literal);
  }

  /**
   * A number token whose integer part is past 2^64 - 1 is MaxInt64, whatever
   * fraction or exponent follows: Atoi's range error comes first.
   */
  lemma FractionLiteralOverflow(input: string, ps: PState)
    requires Within(input, ps) && ps.tok.kind == TokenNumber
    requires var lit := ps.tok.literal; |lit| >= 1 && IsDigit(lit[0]) && ValueOf(lit[..DigitRun(lit)]) > MaxUint64
    ensures ParseValue(input, ps) == (Ok(Number(MaxInt64 as int64)), Advance(input, ps))
  {
    AtoiOverflow(ps.tok.literal);
  }

  /** A document of blanks only is errEOF. */
  lemma BlankDocument(input: string)
    requires forall i :: 0 <= i < |input| ==> LexProps.IsBlank(input[i])
    ensures Parse(input) == Rejected(UnexpectedEOF)
  {
    LexProps.SkipBlanks(input, Start, |input|);
  }

  /**
   * A document that starts with a word is not a container: a keyword is
   * "expected { or [" naming it, any other word is neither value nor error.
   */
  lemma WordDocument(input: string, q: nat)
    requires 0 < q < |input| && !IsLetter(input[q])
    requires forall i :: 0 <= i < q ==> IsLetter(input[i])
    ensures var w := input[..q];
      Parse(input) == if Lookup(w) == TokenInvalid then NoValue else Rejected(ExpectedRoot(w))
  {
    LexProps.NextWord(input, Start, q);
    assert input[0..q] == input[..q];
  }

  /** "[]" parses to the empty array, whatever follows it. */
  lemma EmptyArrayDocument(rest: string)
    ensures Parse("[]" + rest) == Parsed(Array([]))
  {
    var input := "[]" + rest;
    assert input[0] == '[' && input[1] == ']';
    LexProps.NextPunct(input, Start);
    LexProps.NextPunct(input, Start.(pos := 1));
    var ps := PState(Start.(pos := 1), Token(TokenLBracket, "["));
    var ps1 := PState(Start.(pos := 2), Token(TokenRBracket, "]"));
    assert Advance(input, ps) == ps1;
    assert ArrayNext(input, ps1, []).0 == Ok(Array([]));
    assert ParseArray(input, ps).0 == Ok(Array([]));
  }

  /** "{}" parses to the empty object, whatever follows it. */
  lemma EmptyObjectDocument(rest: string)
    ensures Parse("{}" + rest) == Parsed(Object([]))
  {
    var input := "{}" + rest;
    assert input[0] == '{' && input[1] == '}';
    LexProps.NextPunct(input, Start);
    LexProps.NextPunct(input, Start.(pos := 1));
    var ps := PState(Start.(pos := 1), Token(TokenLBrace, "{"));
    assert ParseObject(input, ps).0 == Ok(Object([]));
  }
}
