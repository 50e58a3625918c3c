/**
 * parse() returns as soon as the root value is closed: text after the root
 * does not change a document that parses. The scanner does read the first
 * token after the root (matching the closing bracket calls nextToken, which
 * may even record a lexical error), but nothing looks at that token.
 *
 * The proof has two halves. Each sub-scanner, and nextToken, gives the same
 * result on a + rest as on a when what it returns ends before the end of a
 * (it looked at no character past it), or is punctuation (which needs no
 * lookahead). Each parse function then gives the same result when the token
 * it leaves current was so scanned, and a container that parses gives the
 * same value whatever follows it.
 */
module Suffix {
  import opened Wrappers
  import opened Decimal
  import opened Json
  import opened LexSpec
  import LexProps
  import opened ParseSpec

  /** The kinds of the one-character punctuation tokens. */
  predicate IsPunct(k: Kind)
  {
    k == TokenComma || k == TokenColon || k == TokenLBrace || k == TokenRBrace ||
    k == TokenLBracket || k == TokenRBracket
  }

  /** scanHex reads nothing past a when it stops before a's end. */
  lemma {:induction false} HexLocal(a: string, rest: string, pos: nat, buf: string, n: nat)
    requires pos <= |a|
    ensures var r := HexDigits(a, pos, buf, n);
      r.pos < |a| ==> HexDigits(a + rest, pos, buf, n) == r
    decreases n
  {
    if n > 0 && pos < |a| {
      assert (a + rest)[pos] == a[pos];
      if IsHex(a[pos]) {
        HexLocal(a, rest, pos + 1, buf + [a[pos]], n - 1);
      }
    }
  }

  /** One step of scanString reads nothing past a when it stops before a's end. */
  lemma StringCharLocal(a: string, rest: string, pos: nat, buf: string)
    requires pos < |a| && a[pos] != '"'
    ensures var r := StringChar(a, pos, buf);
      r.pos < |a| ==> StringChar(a + rest, pos, buf) == r
  {
    assert (a + rest)[pos] == a[pos];
    if a[pos] == '\\' && pos + 1 < |a| {
      assert (a + rest)[pos + 1] == a[pos + 1];
      if a[pos + 1] == 'u' {
        HexLocal(a, rest, pos + 2, buf + ['\\', 'u'], 4);
      }
    }
  }

  /** scanString reads nothing past a when it stops before a's end. */
  lemma {:induction false} StringBodyLocal(a: string, rest: string, pos: nat, buf: string)
    requires pos <= |a|
    ensures var r := StringBody(a, pos, buf);
      r.pos < |a| ==> StringBody(a + rest, pos, buf) == r
    decreases |a| - pos
  {
    if pos < |a| {
      assert (a + rest)[pos] == a[pos];
      if a[pos] != '"' {
        var s := StringChar(a, pos, buf);
        StringCharLocal(a, rest, pos, buf);
        if s.status.Done? {
          StringBodyLocal(a, rest, s.pos, s.buf);
        }
      }
    }
  }

  /** scanFraction reads nothing past a when it stops before a's end. */
  lemma {:induction false} FractionLocal(a: string, rest: string, pos: nat, buf: string, sawE: bool, sawSign: bool)
    requires pos <= |a|
    ensures var r := FractionRun(a, pos, buf, sawE, sawSign);
      r.pos < |a| ==> FractionRun(a + rest, pos, buf, sawE, sawSign) == r
    decreases |a| - pos
  {
    if pos < |a| {
      var c := a[pos];
      assert (a + rest)[pos] == c;
      var sign := c == '-' || c == '+';
      var exp := c == 'e' || c == 'E';
      FractionLocal(a, rest, pos + 1, buf + [c], sawE || exp, sawSign || sign);
    }
  }

  /** scanNumber reads nothing past a when it stops before a's end. */
  lemma {:induction false} NumberLocal(a: string, rest: string, pos: nat, buf: string)
    requires pos <= |a|
    ensures var r := NumberRun(a, pos, buf);
      r.pos < |a| ==> NumberRun(a + rest, pos, buf) == r
    decreases |a| - pos
  {
    if pos < |a| {
      var c := a[pos];
      assert (a + rest)[pos] == c;
      if IsDigit(c) {
        NumberLocal(a, rest, pos + 1, buf + [c]);
      } else if c == '.' || c == 'e' || c == 'E' {
        FractionLocal(a, rest, pos + 1, buf + [c], false, false);
      }
    }
  }

  /** scanIdent reads nothing past a when it stops before a's end. */
  lemma {:induction false} IdentLocal(a: string, rest: string, pos: nat, buf: string)
    requires pos <= |a|
    ensures var r := IdentRun(a, pos, buf);
      r.pos < |a| ==> IdentRun(a + rest, pos, buf) == r
    decreases |a| - pos
  {
    if pos < |a| {
      assert (a + rest)[pos] == a[pos];
      if IsLetter(a[pos]) {
        IdentLocal(a, rest, pos + 1, buf + [a[pos]]);
      }
    }
  }

  /**
   * nextToken gives the same token and state on a + rest as on a when the
   * token ends before the end of a or is punctuation.
   */
  lemma {:induction false} NextLocal(a: string, rest: string, lx: Lexer)
    requires lx.pos <= |a|
    ensures var (tok, nx) := Next(a, lx);
      nx.pos < |a| || IsPunct(tok.kind) ==> Next(a + rest, lx) == (tok, nx)
    decreases |a| - lx.pos
  {
    if lx.pos < |a| {
      var c := a[lx.pos];
      var p := lx.pos + 1;
      assert (a + rest)[lx.pos] == c;
      if IsWhitespace(c) {
        NextLocal(a, rest, lx.(pos := p));
      } else if c == '"' {
        StringBodyLocal(a, rest, p, []);
        LexProps.QuoteStartsString(a, lx);
        LexProps.QuoteStartsString(a + rest, lx);
      } else if c == '\n' {
        NextLocal(a, rest, lx.(pos := p, line := lx.line + 1));
      } else if IsDigit(c) {
        NumberLocal(a, rest, lx.pos, []);
        LexProps.DigitStartsRun(a, lx);
        LexProps.DigitStartsRun(a + rest, lx);
      } else if !(c in ",:{}[]") {
        IdentLocal(a, rest, lx.pos, []);
        LexProps.OtherStartsWord(a, lx);
        LexProps.OtherStartsWord(a + rest, lx);
      }
    }
  }

  /**
   * The current token was scanned without looking past the end of a: it ends
   * before the end of a, or it is punctuation.
   */
  predicate Local(a: string, ps: PState)
  {
    ps.lx.pos < |a| || IsPunct(ps.tok.kind)
  }

  /**
   * Reading the next token: when the token read is local, so was the one
   * before (at the end of a only the end-of-input token follows), and the
   * read is the same on a + rest.
   */
  lemma AdvanceLocal(a: string, rest: string, ps: PState)
    requires Within(a, ps)
    ensures Local(a, Advance(a, ps)) ==> Local(a, ps) && Advance(a + rest, ps) == Advance(a, ps)
  {
    NextLocal(a, rest, ps.lx);
  }

  /** match, likewise. */
  lemma MatchLocal(a: string, rest: string, ps: PState, k: Kind)
    requires Within(a, ps)
    ensures Local(a, Match(a, ps, k).1) ==> Local(a, ps) && Match(a + rest, ps, k) == Match(a, ps, k)
  {
    AdvanceLocal(a, rest, ps);
  }

  /** parseValues gives the same result on a + rest when the token it leaves is local. */
  lemma {:induction false} ValueLocal(a: string, rest: string, ps: PState)
    requires Within(a, ps)
    ensures var r := ParseValue(a, ps);
      Local(a, r.1) ==> Local(a, ps) && ParseValue(a + rest, ps) == r
    decreases Measure(a, ps), 2
  {
    match ps.tok.kind
    case TokenLBrace => ObjectLocal(a, rest, ps);
    case TokenLBracket => ArrayLocal(a, rest, ps);
    case TokenEOF =>
    case TokenInvalid =>
    case TokenComma =>
    case TokenColon =>
    case TokenRBrace =>
    case TokenRBracket =>
    case _ => AdvanceLocal(a, rest, ps);
  }

  /**
   * parseObject gives the same result on a + rest when the token it leaves
   * is local, and the same object whenever it returns one.
   */
  lemma {:induction false} ObjectLocal(a: string, rest: string, ps: PState)
    requires Within(a, ps)
    ensures var r := ParseObject(a, ps);
      Local(a, r.1) ==> Local(a, ps) && ParseObject(a + rest, ps) == r
    ensures var r := ParseObject(a, ps);
      r.0.Ok? ==> Local(a, ps) && ParseObject(a + rest, ps).0 == r.0
    decreases Entry(a, ps, TokenLBrace), 1
  {
    var ps1 := Match(a, ps, TokenLBrace).1;
    MatchLocal(a, rest, ps, TokenLBrace);
    MembersLocal(a, rest, ps1, []);
  }

  /** The loop of parseObject, likewise. */
  lemma {:induction false} MembersLocal(a: string, rest: string, ps: PState, ms: seq<Member>)
    requires Within(a, ps)
    ensures var r := ObjectMembers(a, ps, ms);
      Local(a, r.1) ==> Local(a, ps) && ObjectMembers(a + rest, ps, ms) == r
    ensures var r := ObjectMembers(a, ps, ms);
      r.0.Ok? ==> Local(a, ps) && ObjectMembers(a + rest, ps, ms).0 == r.0
    decreases Measure(a, ps), 2
  {
    if ps.tok.kind != TokenString {
      MatchLocal(a, rest, ps, TokenRBrace);
    } else if Find(ms, ps.tok.literal).None? {
      MemberLocal(a, rest, ps, ms);
    }
  }

  /** MembersLocal for a new key: the key, the colon, the value and what follows it. */
  lemma {:induction false} MemberLocal(a: string, rest: string, ps: PState, ms: seq<Member>)
    requires Within(a, ps) && ps.tok.kind == TokenString && Find(ms, ps.tok.literal).None?
    ensures var r := ObjectMembers(a, ps, ms);
      Local(a, r.1) ==> Local(a, ps) && ObjectMembers(a + rest, ps, ms) == r
    ensures var r := ObjectMembers(a, ps, ms);
      r.0.Ok? ==> Local(a, ps) && ObjectMembers(a + rest, ps, ms).0 == r.0
    decreases Measure(a, ps), 1
  {
    var ps1 := Advance(a, ps);
    AdvanceLocal(a, rest, ps);
    var ps2 := Match(a, ps1, TokenColon).1;
    MatchLocal(a, rest, ps1, TokenColon);
    if ps1.tok.kind == TokenColon {
      var (v, ps3) := ParseValue(a, ps2);
      ValueLocal(a, rest, ps2);
      if v.Ok? {
        AfterValueLocal(a, rest, ps3, SetField(ms, ps.tok.literal, v.value));
      }
    }
  }

  /** The rest of a pass of parseObject's loop once a value is stored: close the object, or go on after a comma. */
  function AfterValue(input: string, ps: PState, ms: seq<Member>): Parsing
    requires Within(input, ps)
  {
    if ps.tok.kind != TokenComma then CloseObject(input, ps, ms)
    else ObjectMembers(input, Advance(input, ps), ms)
  }

  /** AfterValue, likewise. */
  lemma {:induction false} AfterValueLocal(a: string, rest: string, ps: PState, ms: seq<Member>)
    requires Within(a, ps)
    ensures var r := AfterValue(a, ps, ms);
      Local(a, r.1) ==> Local(a, ps) && AfterValue(a + rest, ps, ms) == r
    ensures var r := AfterValue(a, ps, ms);
      r.0.Ok? ==> Local(a, ps) && AfterValue(a + rest, ps, ms).0 == r.0
    decreases Measure(a, ps), 1
  {
    if ps.tok.kind != TokenComma {
      MatchLocal(a, rest, ps, TokenRBrace);
    } else {
      AdvanceLocal(a, rest, ps);
      MembersLocal(a, rest, Advance(a, ps), ms);
    }
  }

  /** parseArray gives the same result on a + rest when the token it leaves is local, and the same array whenever it returns one. */
  lemma {:induction false} ArrayLocal(a: string, rest: string, ps: PState)
    requires Within(a, ps)
    ensures var r := ParseArray(a, ps);
      Local(a, r.1) ==> Local(a, ps) && ParseArray(a + rest, ps) == r
    ensures var r := ParseArray(a, ps);
      r.0.Ok? ==> Local(a, ps) && ParseArray(a + rest, ps).0 == r.0
    decreases Entry(a, ps, TokenLBracket), 1
  {
    var ps1 := Match(a, ps, TokenLBracket).1;
    MatchLocal(a, rest, ps, TokenLBracket);
    ElementsLocal(a, rest, ps1, []);
  }

  /** One pass of parseArray's loop, likewise. */
  lemma {:induction false} ElementsLocal(a: string, rest: string, ps: PState, es: seq<Value>)
    requires Within(a, ps)
    ensures var r := ArrayElements(a, ps, es);
      Local(a, r.1) ==> Local(a, ps) && ArrayElements(a + rest, ps, es) == r
    ensures var r := ArrayElements(a, ps, es);
      r.0.Ok? ==> Local(a, ps) && ArrayElements(a + rest, ps, es).0 == r.0
    decreases Measure(a, ps), 4
  {
    if IsScalar(ps.tok.kind) {
      ScalarLocal(a, rest, ps, es);
    } else if ps.tok.kind == TokenLBrace || ps.tok.kind == TokenLBracket {
      NestedLocal(a, rest, ps, es);
    } else if ps.tok.kind != TokenEOF {
      ArrayNextLocal(a, rest, ps, es);
    }
  }

  /** ElementsLocal for a number, a string or a keyword. */
  lemma {:induction false} ScalarLocal(a: string, rest: string, ps: PState, es: seq<Value>)
    requires Within(a, ps) && IsScalar(ps.tok.kind)
    ensures var r := ArrayElements(a, ps, es);
      Local(a, r.1) ==> Local(a, ps) && ArrayElements(a + rest, ps, es) == r
    ensures var r := ArrayElements(a, ps, es);
      r.0.Ok? ==> Local(a, ps) && ArrayElements(a + rest, ps, es).0 == r.0
    decreases Measure(a, ps), 3
  {
    ScalarStep(a, ps, es);
    ScalarStep(a + rest, ps, es);
    AdvanceLocal(a, rest, ps);
    ArrayNextLocal(a, rest, Advance(a, ps), es + [ScalarOf(ps.tok)]);
  }

  /** ElementsLocal for a nested object or array. */
  lemma {:induction false} NestedLocal(a: string, rest: string, ps: PState, es: seq<Value>)
    requires Within(a, ps) && (ps.tok.kind == TokenLBrace || ps.tok.kind == TokenLBracket)
    ensures var r := ArrayElements(a, ps, es);
      Local(a, r.1) ==> Local(a, ps) && ArrayElements(a + rest, ps, es) == r
    ensures var r := ArrayElements(a, ps, es);
      r.0.Ok? ==> Local(a, ps) && ArrayElements(a + rest, ps, es).0 == r.0
    decreases Measure(a, ps), 3
  {
    var (v, ps1) := ParseValue(a, ps);
    ValueLocal(a, rest, ps);
    if v.Ok? {
      ArrayNextLocal(a, rest, ps1, es + [v.value]);
    }
  }

  /** The comma test that ends each pass, likewise. */
  lemma {:induction false} ArrayNextLocal(a: string, rest: string, ps: PState, es: seq<Value>)
    requires Within(a, ps)
    ensures var r := ArrayNext(a, ps, es);
      Local(a, r.1) ==> Local(a, ps) && ArrayNext(a + rest, ps, es) == r
    ensures var r := ArrayNext(a, ps, es);
      r.0.Ok? ==> Local(a, ps) && ArrayNext(a + rest, ps, es).0 == r.0
    decreases Measure(a, ps), 2
  {
    if ps.tok.kind == TokenComma {
      AdvanceLocal(a, rest, ps);
      ElementsLocal(a, rest, Advance(a, ps), es);
    } else {
      MatchLocal(a, rest, ps, TokenRBracket);
    }
  }

  /**
   * A document that parses parses to the same value whatever text follows
   * it: parse() returns once the root is closed, and the token after the
   * root, which it does scan, decides nothing.
   */
  lemma TrailingTextIgnored(a: string, rest: string)
    requires Parse(a).Parsed?
    ensures Parse(a + rest) == Parse(a)
  {
    var (tok, lx1) := Next(a, Start);
    NextLocal(a, rest, Start);
    var ps := PState(lx1, tok);
    if tok.kind == TokenLBrace {
      ObjectLocal(a, rest, ps);
    } else {
      ArrayLocal(a, rest, ps);
    }
  }
}
