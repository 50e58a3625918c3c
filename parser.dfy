/**
 * The parser of parser.go: a class holding the scanner and the current token,
 * whose methods build JObject and JArray containers in place. Every method
 * is proved to return what the matching function of ParseSpec returns and to
 * leave the state it describes.
 */
module Syntax {
  import opened Wrappers
  import opened Decimal
  import opened Json
  import opened LexSpec
  import opened Lex
  import opened ParseSpec

  class Parser {
    const scanner: Scanner
    var token: Kind
    var literal: string

    ghost predicate Valid()
      reads this, scanner
    {
      scanner.Valid()
    }

    ghost function State(): PState
      reads this, scanner
    {
      PState(scanner.State(), Token(token, literal))
    }

    /** newParser (and NewParser): a new scanner and, until parse starts, an invalid token. */
    constructor(input: string)
      ensures fresh(scanner) && scanner.input == input && Valid()
      ensures State() == PState(Start, Token(TokenInvalid, ""))
    {
      scanner := new Scanner(input);
      token := TokenInvalid;
      literal := "";
    }

    /** match */
    method Match(k: Kind) returns (matched: bool)
      requires Valid()
      modifies this, scanner
      ensures Valid()
      ensures (matched, State()) == ParseSpec.Match(scanner.input, old(State()), k)
    {
      if token == k {
        token, literal := scanner.NextToken();
        return true;
      }
      return false;
    }

    /** parseNumber */
    method ParseNumber() returns (v: Value)
      requires Valid() && token == TokenNumber
      modifies this, scanner
      ensures Valid()
      ensures (v, State()) == ParseSpec.ParseNumber(scanner.input, old(State()))
    {
      v := Number(Atoi(literal));
      var _ := Match(TokenNumber);
    }

    /** parseValues */
    method ParseValue() returns (r: Result<Value, ParseError>)
      requires Valid()
      modifies this, scanner
      ensures Valid()
      ensures (r, State()) == ParseSpec.ParseValue(scanner.input, old(State()))
      decreases Measure(scanner.input, State()), 2
    {
      match token
      case TokenLBrace =>
        r := ParseObject();
      case TokenLBracket =>
        r := ParseArray();
      case TokenString =>
        var value := literal;
        var _ := Match(TokenString);
        r := Ok(String(value));
      case TokenNumber =>
        var v := ParseNumber();
        r := Ok(v);
      case TokenNull =>
        var _ := Match(TokenNull);
        r := Ok(Null);
      case TokenTrue =>
        var _ := Match(TokenTrue);
        r := Ok(Bool(true));
      case TokenFalse =>
        var _ := Match(TokenFalse);
        r := Ok(Bool(false));
      case TokenEOF =>
        r := Err(UnexpectedEOF);
      case _ =>
        r := Err(GetErr(scanner.err, ExpectedValue));
    }

    /** parseObject: the members go into a new JObject, one `values[key] = value` at a time. */
    method ParseObject() returns (r: Result<Value, ParseError>)
      requires Valid()
      modifies this, scanner
      ensures Valid()
      ensures (r, State()) == ParseSpec.ParseObject(scanner.input, old(State()))
      decreases Entry(scanner.input, State(), TokenLBrace), 1
    {
      var obj := new JObject();
      var _ := Match(TokenLBrace);
      ghost var whole := ObjectMembers(scanner.input, State(), []);
      while true
        invariant Valid() && fresh(obj) && obj.Valid()
        invariant Measure(scanner.input, State()) < Entry(scanner.input, old(State()), TokenLBrace)
        invariant forall i :: 0 <= i < |obj.values| ==> WellFormed(obj.values[i].value)
        invariant ObjectMembers(scanner.input, State(), obj.values) == whole
        decreases Measure(scanner.input, State())
      {
        if token != TokenString {
          break;
        }
        var err := ObjectMember(obj);
        if err.Some? {
          return Err(err.value);
        }
        if token != TokenComma {
          break;
        }
        ghost var s1 := State();
        var _ := Match(TokenComma);
        assert State() == Advance(scanner.input, s1);
      }
      assert CloseObject(scanner.input, State(), obj.values) == whole;
      var closed := Match(TokenRBrace);
      if !closed {
        return Err(GetErr(scanner.err, ExpectedMember(literal)));
      }
      return Ok(obj.AsValue());
    }

    /**
     * One pass of parseObject's loop on a string token: refuse a repeated key,
     * match the key and the colon, parse the value and store it in obj.
     */
    method ObjectMember(obj: JObject) returns (err: Option<ParseError>)
      requires Valid() && obj.Valid() && token == TokenString
      requires forall i :: 0 <= i < |obj.values| ==> WellFormed(obj.values[i].value)
      modifies this, scanner, obj
      ensures Valid() && obj.Valid()
      ensures forall i :: 0 <= i < |obj.values| ==> WellFormed(obj.values[i].value)
      ensures Measure(scanner.input, State()) <= Measure(scanner.input, old(State()))
      ensures err.Some? ==>
        ObjectMembers(scanner.input, old(State()), old(obj.values)) == (Err(err.value), State())
      ensures err.None? ==>
        ObjectMembers(scanner.input, old(State()), old(obj.values)) ==
        if token != TokenComma then CloseObject(scanner.input, State(), obj.values)
        else ObjectMembers(scanner.input, Advance(scanner.input, State()), obj.values)
      decreases Measure(scanner.input, State()), 3
    {
      var key := literal;
      if GetObjField(obj, key).Some? {
        return Some(RepeatedKey(key));
      }
      var _ := Match(TokenString);
      var colon := Match(TokenColon);
      if !colon {
        return Some(GetErr(scanner.err, ExpectedColon(literal)));
      }
      var value := ParseValue();
      if value.Err? {
        return Some(value.error);
      }
      obj.Set(key, value.value);
      return None;
    }

    /** parseArray: the elements go into a new JArray through addValue. */
    method ParseArray() returns (r: Result<Value, ParseError>)
      requires Valid()
      modifies this, scanner
      ensures Valid()
      ensures (r, State()) == ParseSpec.ParseArray(scanner.input, old(State()))
      decreases Entry(scanner.input, State(), TokenLBracket), 1
    {
      var _ := Match(TokenLBracket);
      var arr := new JArray();
      ghost var whole := ArrayElements(scanner.input, State(), []);
      while true
        invariant Valid() && fresh(arr)
        invariant Measure(scanner.input, State()) < Entry(scanner.input, old(State()), TokenLBracket)
        invariant forall i :: 0 <= i < |arr.elements| ==> WellFormed(arr.elements[i])
        invariant ArrayElements(scanner.input, State(), arr.elements) == whole
        decreases Measure(scanner.input, State())
      {
        var err := ArrayElement(arr);
        if err.Some? {
          return Err(err.value);
        }
        if token != TokenComma {
          break;
        }
        ghost var s1 := State();
        var _ := Match(TokenComma);
        assert State() == Advance(scanner.input, s1);
      }
      var closed := Match(TokenRBracket);
      if !closed {
        return Err(ExpectedRBracket(literal));
      }
      return Ok(arr.AsValue());
    }

    /**
     * The switch in parseArray's loop: append the current element to arr and
     * move past it, or report the error that ends the array.
     */
    method ArrayElement(arr: JArray) returns (err: Option<ParseError>)
      requires Valid() && forall i :: 0 <= i < |arr.elements| ==> WellFormed(arr.elements[i])
      modifies this, scanner, arr
      ensures Valid() && forall i :: 0 <= i < |arr.elements| ==> WellFormed(arr.elements[i])
      ensures Measure(scanner.input, State()) <= Measure(scanner.input, old(State()))
      ensures err.Some? ==>
        ArrayElements(scanner.input, old(State()), old(arr.elements)) == (Err(err.value), State())
      ensures err.None? ==>
        ArrayElements(scanner.input, old(State()), old(arr.elements)) ==
        ArrayNext(scanner.input, State(), arr.elements)
      decreases Measure(scanner.input, State()), 3
    {
      err := None;
      if IsScalar(token) {
        ScalarElement(arr);
        return;
      }
      match token
      case TokenLBrace =>
        var v := ParseObject();
        if v.Err? {
          return Some(v.error);
        }
        arr.AddValue(v.value);
      case TokenLBracket =>
        var v := ParseArray();
        if v.Err? {
          return Some(v.error);
        }
        arr.AddValue(v.value);
      case TokenEOF =>
        return Some(UnexpectedEOF);
      case _ =>
    }

    /** The scalar cases of parseArray's switch: append the value and move past its token. */
    method ScalarElement(arr: JArray)
      requires Valid() && forall i :: 0 <= i < |arr.elements| ==> WellFormed(arr.elements[i])
      requires IsScalar(token)
      modifies this, scanner, arr
      ensures Valid() && forall i :: 0 <= i < |arr.elements| ==> WellFormed(arr.elements[i])
      ensures Measure(scanner.input, State()) <= Measure(scanner.input, old(State()))
      ensures ArrayElements(scanner.input, old(State()), old(arr.elements)) ==
        ArrayNext(scanner.input, State(), arr.elements)
    {
      ScalarStep(scanner.input, State(), arr.elements);
      arr.AddValue(ScalarOf(Token(token, literal)));
      var _ := Match(token);
    }

    /** parse: read the first token; only an object or an array may follow. */
    method Parse() returns (r: Outcome)
      requires Valid()
      modifies this, scanner
      ensures r == ParseFrom(scanner.input, old(scanner.State()))
    {
      token, literal := scanner.NextToken();
      match token
      case TokenLBrace =>
        var v := ParseObject();
        r := Finish(v);
      case TokenLBracket =>
        var v := ParseArray();
        r := Finish(v);
      case TokenEOF =>
        r := Rejected(UnexpectedEOF);
      case TokenInvalid =>
        r := if scanner.err.Some? then Rejected(Lexical(scanner.err.value)) else NoValue;
      case _ =>
        r := Rejected(ExpectedRoot(literal));
    }
  }

  /** ToValue: parse a document; the result is the value or the error of parse. */
  method ToValue(data: string) returns (r: Outcome)
    ensures r == ParseSpec.Parse(data)
  {
    var p := new Parser(data);
    r := p.Parse();
  }
}
