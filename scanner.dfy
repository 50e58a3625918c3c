/**
 * The scanner of scanner.go as a class over the input text. Every method is
 * proved to do exactly what the matching function of LexSpec says.
 */
module Lex {
  import opened Wrappers
  import opened Decimal
  import opened LexSpec

  class Scanner {
    /** The text behind the bufio.Reader. */
    const input: string
    /** The reader's cursor: the index of the next rune ReadRune returns. */
    var pos: nat
    /** The literal buffer (bytes.Buffer). */
    var buf: string
    var line: int
    /** The last lexical error; it stays set until a later error replaces it. */
    var err: Option<ScanError>

    ghost predicate Valid()
      reads this
    {
      pos <= |input|
    }

    ghost function State(): Lexer
      reads this
    {
      Lexer(pos, buf, line, err)
    }

    /** newScanner */
    constructor(input: string)
      ensures this.input == input && Valid() && State() == Start
    {
      this.input := input;
      pos := 0;
      buf := [];
      line := 1;
      err := None;
    }

    /** bufio.Reader.ReadRune; ok is false at end of input. */
    method ReadRune() returns (r: char, ok: bool)
      requires Valid()
      modifies this`pos
      ensures Valid()
      ensures ok <==> old(pos) < |input|
      ensures ok ==> r == input[old(pos)] && pos == old(pos) + 1
      ensures !ok ==> pos == old(pos)
    {
      if pos == |input| {
        return ' ', false;
      }
      r := input[pos];
      pos := pos + 1;
      ok := true;
    }

    /** bufio.Reader.UnreadRune, always right after a successful ReadRune. */
    method UnreadRune()
      requires Valid() && 0 < pos
      modifies this`pos
      ensures Valid() && pos == old(pos) - 1
    {
      pos := pos - 1;
    }

    /** scanHex */
    method ScanHex() returns (st: Status)
      requires Valid()
      modifies this`pos, this`buf
      ensures Valid()
      ensures Scan(st, pos, buf) == HexDigits(input, old(pos), old(buf), 4)
    {
      var i := 0;
      while i < 4
        invariant 0 <= i <= 4 && Valid()
        invariant HexDigits(input, pos, buf, 4 - i) == HexDigits(input, old(pos), old(buf), 4)
      {
        var r, ok := ReadRune();
        if !ok {
          return AtEOF;
        }
        if IsHex(r) {
          buf := buf + [r];
          i := i + 1;
          continue;
        }
        return Failed(InvalidHexDigit(r));
      }
      return Done;
    }

    /** scanString, called after the opening quote was read. */
    method ScanString() returns (st: Status)
      requires Valid()
      modifies this`pos, this`buf
      ensures Valid()
      ensures Scan(st, pos, buf) == StringBody(input, old(pos), old(buf))
    {
      while true
        invariant Valid()
        invariant StringBody(input, pos, buf) == StringBody(input, old(pos), old(buf))
        decreases |input| - pos
      {
        ghost var pos0, buf0 := pos, buf;
        var r, ok := ReadRune();
        if !ok {
          return Done;
        }
        // what the body of the loop does with a character other than the closing quote
        ghost var step := if r == '"' then Scan(Done, pos, buf) else StringChar(input, pos0, buf0);
        assert r != '"' ==>
          StringBody(input, pos0, buf0) == if step.status.Done? then StringBody(input, step.pos, step.buf) else step;
        if r == '\\' {
          buf := buf + [r];
          r, ok := ReadRune();
          if !ok {
            return AtEOF;
          }
          if r == 'u' {
            buf := buf + [r];
            assert buf == buf0 + ['\\', 'u'];
            var hs := ScanHex();
            assert step == Scan(hs, pos, buf);
            if hs != Done {
              return hs;
            }
            continue;
          } else if !IsSimpleEscape(r) {
            return Failed(InvalidEscape(r));
          }
          assert buf + [r] == buf0 + ['\\', r];
        } else if r == '"' {
          return Done;
        }
        buf := buf + [r];
        assert step == Scan(Done, pos, buf);
      }
    }

    /** scanFraction, called after '.', 'e' or 'E' was copied. */
    method ScanFraction() returns (st: Status)
      requires Valid()
      modifies this`pos, this`buf
      ensures Valid()
      ensures Scan(st, pos, buf) == FractionRun(input, old(pos), old(buf), false, false)
    {
      var sawE := false;
      var sawSign := false;
      while true
        invariant Valid()
        invariant FractionRun(input, pos, buf, sawE, sawSign) == FractionRun(input, old(pos), old(buf), false, false)
        decreases |input| - pos
      {
        var r, ok := ReadRune();
        if !ok {
          return AtEOF;
        }
        if r == '-' || r == '+' {
          if !sawSign {
            buf := buf + [r];
            sawSign := true;
          } else {
            return Failed(InvalidNumberChar(r));
          }
        } else if r == 'e' || r == 'E' {
          if sawSign && !sawE {
            return Failed(InvalidNumberChar(r));
          } else if !sawE {
            buf := buf + [r];
            sawE := true;
          } else {
            return Failed(InvalidNumberChar(r));
          }
        } else if IsDigit(r) {
          buf := buf + [r];
        } else {
          UnreadRune();
          return Done;
        }
      }
    }

    /** scanNumber, called with the first digit still unread. */
    method ScanNumber() returns (st: Status)
      requires Valid()
      modifies this`pos, this`buf
      ensures Valid()
      ensures Scan(st, pos, buf) == NumberRun(input, old(pos), old(buf))
    {
      while true
        invariant Valid()
        invariant NumberRun(input, pos, buf) == NumberRun(input, old(pos), old(buf))
        decreases |input| - pos
      {
        var r, ok := ReadRune();
        if !ok {
          return Done;
        }
        if IsDigit(r) {
          buf := buf + [r];
        } else if r == '.' {
          buf := buf + [r];
          st := ScanFraction();
          return;
        } else if r == 'e' || r == 'E' {
          buf := buf + [r];
          st := ScanFraction();
          return;
        } else {
          UnreadRune();
          return Done;
        }
      }
    }

    /** scanIdent, called with the first character still unread. */
    method ScanIdent() returns (st: Status)
      requires Valid()
      modifies this`pos, this`buf
      ensures Valid()
      ensures Scan(st, pos, buf) == IdentRun(input, old(pos), old(buf))
    {
      while true
        invariant Valid()
        invariant IdentRun(input, pos, buf) == IdentRun(input, old(pos), old(buf))
        decreases |input| - pos
      {
        var r, ok := ReadRune();
        if !ok {
          return AtEOF;
        }
        if IsLetter(r) {
          buf := buf + [r];
        } else {
          UnreadRune();
          return Done;
        }
      }
    }

    /**
     * nextToken: the next token and its literal. Each `goto out` of the
     * source returns the end-of-input token at once.
     */
    method NextToken() returns (kind: Kind, lit: string)
      requires Valid()
      modifies this
      ensures Valid()
      ensures (Token(kind, lit), State()) == Next(input, old(State()))
    {
      while true
        invariant Valid()
        invariant Next(input, State()) == Next(input, old(State()))
        decreases |input| - pos
      {
        var r, ok := ReadRune();
        if !ok {
          break;
        }
        if IsWhitespace(r) {
          continue;
        }
        if r == '"' {
          buf := [];
          var st := ScanString();
          match st
          case AtEOF =>
            return TokenEOF, "";
          case Failed(e) =>
            err := Some(e);
            return TokenInvalid, buf;
          case Done =>
            return TokenString, buf;
        } else if r == ',' {
          return TokenComma, ",";
        } else if r == ':' {
          return TokenColon, ":";
        } else if r == '{' {
          return TokenLBrace, "{";
        } else if r == '}' {
          return TokenRBrace, "}";
        } else if r == '[' {
          return TokenLBracket, "[";
        } else if r == ']' {
          return TokenRBracket, "]";
        } else if r == '\n' {
          line := line + 1;
        } else {
          buf := [];
          UnreadRune();
          if IsDigit(r) {
            var st := ScanNumber();
            match st
            case AtEOF =>
              break;
            case Failed(e) =>
              err := Some(e);
              return TokenInvalid, buf;
            case Done =>
              return TokenNumber, buf;
          } else {
            var st := ScanIdent();
            if st != Done {
              return TokenEOF, "";
            }
            lit := buf;
            return Lookup(lit), lit;
          }
        }
      }
      // the label `out` of nextToken
      return TokenEOF, "";
    }
  }
}
