/**
 * Properties of the scanner of scanner.go, stated over the functions of
 * LexSpec (and so, through the ensures of Lex.Scanner, over the scanner).
 */
module LexProps {
  import opened Wrappers
  import opened Decimal
  import opened LexSpec

  /** A skipped character is not a newline and starts no token. */
  lemma WhitespaceStartsNoToken(c: char)
    requires IsWhitespace(c)
    ensures c != '\n' && c != '"' && !IsDigit(c) && !IsLetter(c) && c !in ",:{}[]"
  {
  }

  /** nextToken skips a blank without counting a line and without touching the buffer. */
  lemma WhitespaceSkipped(input: string, lx: Lexer)
    requires lx.pos < |input| && IsWhitespace(input[lx.pos])
    ensures Next(input, lx) == Next(input, lx.(pos := lx.pos + 1))
  {
  }

  /** Copying input[pos] to the buffer and then input[pos + 1..q] copies input[pos..q]. */
  lemma CopyStep(input: string, pos: nat, q: nat, buf: string)
    requires pos < q <= |input|
    ensures buf + [input[pos]] + input[pos + 1..q] == buf + input[pos..q]
  {
    assert input[pos..q] == [input[pos]] + input[pos + 1..q];
  }

  /** What a sub-scanner copied after input[pos] it copied from input[pos] on. */
  lemma CopiedAfter(input: string, pos: nat, buf: string, r: Scan)
    requires pos < |input|
    requires r.status.Done? ==> pos < r.pos <= |input| && r.buf == buf + [input[pos]] + input[pos + 1..r.pos]
    requires r.status.Failed? ==> pos + 1 < r.pos <= |input| && r.buf == buf + [input[pos]] + input[pos + 1..r.pos - 1]
    ensures r.status.Done? ==> r.buf == buf + input[pos..r.pos]
    ensures r.status.Failed? ==> r.buf == buf + input[pos..r.pos - 1]
  {
    if r.status.Done? {
      CopyStep(input, pos, r.pos, buf);
    } else if r.status.Failed? {
      CopyStep(input, pos, r.pos - 1, buf);
    }
  }

  /** scanHex copies the hex digits it reads, and stops at the first other character. */
  lemma {:induction false} HexDigitsCopies(input: string, pos: nat, buf: string, n: nat)
    requires pos <= |input|
    ensures var r := HexDigits(input, pos, buf, n);
      (r.status.Done? ==>
        r.pos == pos + n && r.buf == buf + input[pos..r.pos] && forall i :: pos <= i < r.pos ==> IsHex(input[i])) &&
      (r.status.AtEOF? ==> r.pos == |input| < pos + n) &&
      (r.status.Failed? ==>
        pos < r.pos <= pos + n && r.status.error == InvalidHexDigit(input[r.pos - 1]) &&
        !IsHex(input[r.pos - 1]) && r.buf == buf + input[pos..r.pos - 1])
    decreases n
  {
    if n == 0 || pos == |input| {
    } else if IsHex(input[pos]) {
      var r := HexDigits(input, pos + 1, buf + [input[pos]], n - 1);
      HexDigitsCopies(input, pos + 1, buf + [input[pos]], n - 1);
      if r.status.Done? {
        CopyStep(input, pos, r.pos, buf);
      } else if r.status.Failed? {
        CopyStep(input, pos, r.pos - 1, buf);
      }
    } else {
      assert buf + input[pos..pos] == buf;
    }
  }

  /** One step of scanString copies what it consumed, less a rejected escape letter. */
  lemma StringCharCopies(input: string, pos: nat, buf: string)
    requires pos < |input| && input[pos] != '"'
    ensures var r := StringChar(input, pos, buf);
      (r.status.Done? ==> r.buf == buf + input[pos..r.pos]) &&
      (r.status.AtEOF? ==> r.pos == |input|) &&
      (r.status.Failed? ==>
        r.buf == buf + input[pos..r.pos - 1] && (r.status.error.InvalidEscape? || r.status.error.InvalidHexDigit?))
  {
    if input[pos] != '\\' {
      assert buf + [input[pos]] == buf + input[pos..pos + 1];
    } else if pos + 1 < |input| {
      var e := input[pos + 1];
      assert input[pos..pos + 2] == ['\\', e];
      if e == 'u' {
        UnicodeEscapeCopies(input, pos, buf);
      } else if !IsSimpleEscape(e) {
        assert buf + ['\\'] == buf + input[pos..pos + 1];
      }
    }
  }

  /** StringCharCopies for a \u escape, whose four hex digits scanString reads with scanHex. */
  lemma UnicodeEscapeCopies(input: string, pos: nat, buf: string)
    requires pos + 1 < |input| && input[pos] == '\\' && input[pos + 1] == 'u'
    ensures var r := HexDigits(input, pos + 2, buf + ['\\', 'u'], 4);
      (r.status.Done? ==> r.buf == buf + input[pos..r.pos]) &&
      (r.status.AtEOF? ==> r.pos == |input|) &&
      (r.status.Failed? ==> r.buf == buf + input[pos..r.pos - 1] && r.status.error.InvalidHexDigit?)
  {
    assert input[pos..pos + 2] == ['\\', 'u'];
    var h := HexDigits(input, pos + 2, buf + ['\\', 'u'], 4);
    HexDigitsCopies(input, pos + 2, buf + ['\\', 'u'], 4);
    if h.status.Done? {
      assert input[pos..pos + 2] + input[pos + 2..h.pos] == input[pos..h.pos];
    } else if h.status.Failed? {
      assert input[pos..pos + 2] + input[pos + 2..h.pos - 1] == input[pos..h.pos - 1];
    }
  }

  /**
   * scanString copies the string body verbatim: up to the closing quote, or
   * to the end of input when there is none; on an error, up to the character
   * that caused it.
   */
  lemma {:induction false} StringBodyCopies(input: string, pos: nat, buf: string)
    requires pos <= |input|
    ensures var r := StringBody(input, pos, buf);
      (r.status.Done? ==>
        (r.pos == |input| && r.buf == buf + input[pos..]) ||
        (pos < r.pos && input[r.pos - 1] == '"' && r.buf == buf + input[pos..r.pos - 1])) &&
      (r.status.AtEOF? ==> r.pos == |input|) &&
      (r.status.Failed? ==>
        pos < r.pos && r.buf == buf + input[pos..r.pos - 1] &&
        (r.status.error.InvalidEscape? || r.status.error.InvalidHexDigit?))
    decreases |input| - pos
  {
    if pos == |input| {
    } else if input[pos] == '"' {
      assert buf + input[pos..pos] == buf;
    } else {
      var s := StringChar(input, pos, buf);
      StringCharCopies(input, pos, buf);
      if s.status.Done? {
        var r := StringBody(input, s.pos, s.buf);
        assert StringBody(input, pos, buf) == r;
        StringBodyCopies(input, s.pos, s.buf);
        StringBodyStep(input, pos, buf, s.pos, s.buf, r);
      }
    }
  }

  /** The copy facts of the rest of a string body carry over to the whole body. */
  lemma StringBodyStep(input: string, pos: nat, buf: string, p: nat, b: string, r: Scan)
    requires pos < p <= |input| && b == buf + input[pos..p]
    requires (r.status.Done? || r.status.Failed?) ==> p < r.pos <= |input| || r.pos == |input|
    ensures r.status.Done? && r.pos == |input| && r.buf == b + input[p..] ==> r.buf == buf + input[pos..]
    ensures p < r.pos <= |input| && r.buf == b + input[p..r.pos - 1] ==> r.buf == buf + input[pos..r.pos - 1]
  {
    if r.pos == |input| {
      assert input[pos..p] + input[p..] == input[pos..];
    }
    if p < r.pos <= |input| {
      assert input[pos..p] + input[p..r.pos - 1] == input[pos..r.pos - 1];
    }
  }

  /** scanFraction copies the characters it accepts and stops before a non-digit. */
  lemma {:induction false} FractionRunCopies(input: string, pos: nat, buf: string, sawE: bool, sawSign: bool)
    requires pos <= |input|
    ensures var r := FractionRun(input, pos, buf, sawE, sawSign);
      (r.status.Done? ==> r.pos < |input| && !IsDigit(input[r.pos]) && r.buf == buf + input[pos..r.pos]) &&
      (r.status.AtEOF? ==> r.pos == |input|) &&
      (r.status.Failed? ==>
        pos < r.pos && r.status.error == InvalidNumberChar(input[r.pos - 1]) && r.buf == buf + input[pos..r.pos - 1])
    decreases |input| - pos
  {
    if pos < |input| {
      var c := input[pos];
      var sign := c == '-' || c == '+';
      var exp := c == 'e' || c == 'E';
      var rejected := if sign then sawSign else if exp then (sawSign && !sawE) || sawE else false;
      if rejected {
        assert buf + input[pos..pos] == buf;
      } else if sign || exp || IsDigit(c) {
        var r := FractionRun(input, pos + 1, buf + [c], sawE || exp, sawSign || sign);
        FractionRunCopies(input, pos + 1, buf + [c], sawE || exp, sawSign || sign);
        assert FractionRun(input, pos, buf, sawE, sawSign) == r;
        CopiedAfter(input, pos, buf, r);
      } else {
        assert buf + input[pos..pos] == buf;
      }
    }
  }

  /** scanNumber copies the number it reads and stops at end of input or before a non-digit. */
  lemma {:induction false} NumberRunCopies(input: string, pos: nat, buf: string)
    requires pos <= |input|
    ensures var r := NumberRun(input, pos, buf);
      (r.status.Done? ==> (r.pos == |input| || !IsDigit(input[r.pos])) && r.buf == buf + input[pos..r.pos]) &&
      (r.status.AtEOF? ==> r.pos == |input|) &&
      (r.status.Failed? ==>
        pos < r.pos && r.status.error == InvalidNumberChar(input[r.pos - 1]) && r.buf == buf + input[pos..r.pos - 1])
    decreases |input| - pos
  {
    if pos == |input| {
      assert buf + input[pos..pos] == buf;
    } else {
      var c := input[pos];
      if IsDigit(c) {
        var r := NumberRun(input, pos + 1, buf + [c]);
        NumberRunCopies(input, pos + 1, buf + [c]);
        assert NumberRun(input, pos, buf) == r;
        CopiedAfter(input, pos, buf, r);
      } else if c == '.' || c == 'e' || c == 'E' {
        var r := FractionRun(input, pos + 1, buf + [c], false, false);
        FractionRunCopies(input, pos + 1, buf + [c], false, false);
        assert NumberRun(input, pos, buf) == r;
        CopiedAfter(input, pos, buf, r);
      } else {
        assert buf + input[pos..pos] == buf;
      }
    }
  }

  /** scanIdent copies the letters it reads; it ends before a non-letter or with errEOF. */
  lemma {:induction false} IdentRunCopies(input: string, pos: nat, buf: string)
    requires pos <= |input|
    ensures var r := IdentRun(input, pos, buf);
      !r.status.Failed? &&
      r.buf == buf + input[pos..r.pos] && (forall i :: pos <= i < r.pos ==> IsLetter(input[i])) &&
      (r.status.AtEOF? <==> r.pos == |input|) &&
      (r.status.Done? ==> !IsLetter(input[r.pos]))
    decreases |input| - pos
  {
    if pos == |input| || !IsLetter(input[pos]) {
      assert buf + input[pos..pos] == buf;
    } else {
      var r := IdentRun(input, pos + 1, buf + [input[pos]]);
      IdentRunCopies(input, pos + 1, buf + [input[pos]]);
      CopyStep(input, pos, r.pos, buf);
    }
  }

  /** Four hex digits at p: scanHex succeeds and copies them. */
  lemma {:induction false} HexDigitsAccept(input: string, pos: nat, buf: string, n: nat)
    requires pos + n <= |input|
    requires forall i :: pos <= i < pos + n ==> IsHex(input[i])
    ensures HexDigits(input, pos, buf, n) == Scan(Done, pos + n, buf + input[pos..pos + n])
    decreases n
  {
    if n == 0 {
      assert buf + input[pos..pos] == buf;
    } else {
      HexDigitsAccept(input, pos + 1, buf + [input[pos]], n - 1);
      CopyStep(input, pos, pos + n, buf);
    }
  }

  /**
   * The string bodies of the JSON grammar (section 7 of RFC 8259) as the
   * scanner spells them: no bare quote, and each backslash starts a simple
   * escape or 'u' with four hex digits. Characters below U+0020 are allowed,
   * as the scanner does not reject them.
   */
  predicate ValidBody(s: string)
    decreases |s|
  {
    if s == [] then true
    else if s[0] == '"' then false
    else if s[0] != '\\' then ValidBody(s[1..])
    else if |s| >= 2 && IsSimpleEscape(s[1]) then ValidBody(s[2..])
    else |s| >= 6 && s[1] == 'u' && IsHex(s[2]) && IsHex(s[3]) && IsHex(s[4]) && IsHex(s[5]) && ValidBody(s[6..])
  }

  /**
   * One step of scanString against the grammar: a body that is valid up to q
   * starts with one character or escape that StringChar copies whole, and the
   * rest up to q is valid; and conversely.
   */
  lemma StringCharValid(input: string, pos: nat, buf: string, q: nat)
    requires pos < q <= |input| && input[pos] != '"'
    ensures var s := StringChar(input, pos, buf);
      ValidBody(input[pos..q]) <==> s.status.Done? && s.pos <= q && ValidBody(input[s.pos..q])
  {
    var body := input[pos..q];
    assert body[0] == input[pos];
    if input[pos] != '\\' {
      assert body[1..] == input[pos + 1..q];
    } else if pos + 1 < |input| {
      var e := input[pos + 1];
      if q > pos + 1 {
        assert body[1] == e;
      }
      if e == 'u' {
        if pos + 6 <= q {
          assert body[6..] == input[pos + 6..q];
          assert forall i :: 2 <= i < 6 ==> body[i] == input[pos + i];
          if forall i :: pos + 2 <= i < pos + 6 ==> IsHex(input[i]) {
            HexDigitsAccept(input, pos + 2, buf + ['\\', 'u'], 4);
          } else {
            HexDigitsCopies(input, pos + 2, buf + ['\\', 'u'], 4);
          }
        } else {
          HexDigitsCopies(input, pos + 2, buf + ['\\', 'u'], 4);
        }
      } else if IsSimpleEscape(e) && q >= pos + 2 {
        assert body[2..] == input[pos + 2..q];
      }
    }
  }

  /**
   * When the step at pos already passes q, scanString cannot stop right after
   * q with only input[pos..q] copied.
   */
  lemma StringBodyOvershoot(input: string, pos: nat, buf: string, q: nat)
    requires pos <= q < |input| && input[pos] != '"'
    requires StringChar(input, pos, buf).status.Done? && StringChar(input, pos, buf).pos > q
    ensures StringBody(input, pos, buf) != Scan(Done, q + 1, buf + input[pos..q])
  {
    var s := StringChar(input, pos, buf);
    StringCharCopies(input, pos, buf);
    var r := StringBody(input, s.pos, s.buf);
    StringBodyCopies(input, s.pos, s.buf);
    assert StringBody(input, pos, buf) == r;
    if r.status.Done? && r.pos == q + 1 {
      assert r.pos == s.pos;
      assert |r.buf| >= |s.buf| > |buf + input[pos..q]|;
    }
  }

  /**
   * scanString stops at a closing quote at q, with the body copied, exactly
   * when the text before q is a valid string body and input[q] is a quote.
   */
  lemma {:induction false} StringBodyClosed(input: string, pos: nat, buf: string, q: nat)
    requires pos <= q < |input|
    ensures StringBody(input, pos, buf) == Scan(Done, q + 1, buf + input[pos..q]) <==>
      input[q] == '"' && ValidBody(input[pos..q])
    decreases q - pos
  {
    if input[pos] == '"' {
      assert buf + input[pos..pos] == buf;
      if pos < q {
        assert input[pos..q][0] == '"';
      }
    } else {
      var s := StringChar(input, pos, buf);
      assert StringBody(input, pos, buf) == if s.status.Done? then StringBody(input, s.pos, s.buf) else s;
      if pos == q {
        if s.status.Done? {
          StringBodyOvershoot(input, pos, buf, q);
        }
      } else {
        if s.status.Done? && s.pos <= q {
          StringBodyClosed(input, s.pos, s.buf, q);
          ClosedStep(input, pos, buf, q, s);
        } else {
          StringCharValid(input, pos, buf, q);
          if s.status.Done? {
            StringBodyOvershoot(input, pos, buf, q);
          }
        }
      }
    }
  }

  /** StringBodyClosed, one step of scanString further on. */
  lemma ClosedStep(input: string, pos: nat, buf: string, q: nat, s: Scan)
    requires pos < q < |input| && input[pos] != '"'
    requires s == StringChar(input, pos, buf) && s.status.Done? && s.pos <= q
    requires StringBody(input, s.pos, s.buf) == Scan(Done, q + 1, s.buf + input[s.pos..q]) <==>
      input[q] == '"' && ValidBody(input[s.pos..q])
    ensures StringBody(input, pos, buf) == Scan(Done, q + 1, buf + input[pos..q]) <==>
      input[q] == '"' && ValidBody(input[pos..q])
  {
    StringCharValid(input, pos, buf, q);
    StringCharCopies(input, pos, buf);
    assert StringBody(input, pos, buf) == StringBody(input, s.pos, s.buf);
    assert s.buf + input[s.pos..q] == buf + input[pos..q] by {
      assert input[pos..s.pos] + input[s.pos..q] == input[pos..q];
    }
  }

  /**
   * scanString reaches the end of input without an error or a closing quote
   * exactly when the rest of the input is a valid string body: an unterminated
   * string is still a string token.
   */
  lemma {:induction false} StringBodyUnclosed(input: string, pos: nat, buf: string)
    requires pos <= |input|
    ensures StringBody(input, pos, buf) == Scan(Done, |input|, buf + input[pos..]) <==> ValidBody(input[pos..])
    decreases |input| - pos
  {
    if pos == |input| {
      assert buf + input[pos..] == buf;
    } else if input[pos] == '"' {
      assert input[pos..][0] == '"';
      assert |buf + input[pos..]| > |buf|;
    } else {
      var s := StringChar(input, pos, buf);
      if s.status.Done? {
        StringBodyUnclosed(input, s.pos, s.buf);
        UnclosedStep(input, pos, buf, s);
      } else {
        StringCharValid(input, pos, buf, |input|);
        assert input[pos..|input|] == input[pos..];
        assert StringBody(input, pos, buf) == s;
      }
    }
  }

  /** StringBodyUnclosed, one step of scanString further on. */
  lemma UnclosedStep(input: string, pos: nat, buf: string, s: Scan)
    requires pos < |input| && input[pos] != '"'
    requires s == StringChar(input, pos, buf) && s.status.Done?
    requires StringBody(input, s.pos, s.buf) == Scan(Done, |input|, s.buf + input[s.pos..]) <==> ValidBody(input[s.pos..])
    ensures StringBody(input, pos, buf) == Scan(Done, |input|, buf + input[pos..]) <==> ValidBody(input[pos..])
  {
    StringCharValid(input, pos, buf, |input|);
    StringCharCopies(input, pos, buf);
    assert StringBody(input, pos, buf) == StringBody(input, s.pos, s.buf);
    assert s.buf + input[s.pos..] == buf + input[pos..] by {
      assert input[pos..s.pos] + input[s.pos..] == input[pos..];
    }
    assert input[pos..|input|] == input[pos..];
    assert input[s.pos..|input|] == input[s.pos..];
  }

  predicate IsSign(c: char)
  {
    c == '-' || c == '+'
  }

  predicate IsExp(c: char)
  {
    c == 'e' || c == 'E'
  }

  /**
   * The suffixes scanFraction accepts, having already seen an exponent letter
   * (sawE) or a sign (sawSign): digits, signs and exponent letters; at most
   * one sign; at most one exponent letter; no exponent letter after a sign.
   */
  predicate Admits(f: string, sawE: bool, sawSign: bool)
  {
    (forall i :: 0 <= i < |f| ==> IsDigit(f[i]) || IsSign(f[i]) || IsExp(f[i])) &&
    (sawSign ==> forall i :: 0 <= i < |f| ==> !IsSign(f[i]) && !IsExp(f[i])) &&
    (sawE ==> forall i :: 0 <= i < |f| ==> !IsExp(f[i])) &&
    (forall i, j :: 0 <= i < j < |f| && IsSign(f[i]) ==> !IsSign(f[j]) && !IsExp(f[j])) &&
    (forall i, j :: 0 <= i < j < |f| && IsExp(f[i]) ==> !IsExp(f[j]))
  }

  /** A character that ends a number: not a digit, a sign or an exponent letter. */
  predicate EndsFraction(c: char)
  {
    !IsDigit(c) && !IsSign(c) && !IsExp(c)
  }

  /** A character that ends the integer part: not a digit, '.', or an exponent letter. */
  predicate EndsInteger(c: char)
  {
    !IsDigit(c) && c != '.' && !IsExp(c)
  }

  /** Admits, one character at a time. */
  lemma AdmitsCons(c: char, f: string, sawE: bool, sawSign: bool)
    ensures Admits([c] + f, sawE, sawSign) <==>
      (IsDigit(c) || (IsSign(c) && !sawSign) || (IsExp(c) && !sawE && !sawSign)) &&
      Admits(f, sawE || IsExp(c), sawSign || IsSign(c))
  {
    if Admits([c] + f, sawE, sawSign) {
      AdmitsTail(c, f, sawE, sawSign);
    }
    if (IsDigit(c) || (IsSign(c) && !sawSign) || (IsExp(c) && !sawE && !sawSign)) &&
      Admits(f, sawE || IsExp(c), sawSign || IsSign(c))
    {
      AdmitsPrepend(c, f, sawE, sawSign);
    }
  }

  /** AdmitsCons from left to right: what follows an admitted character is admitted after it. */
  lemma AdmitsTail(c: char, f: string, sawE: bool, sawSign: bool)
    requires Admits([c] + f, sawE, sawSign)
    ensures IsDigit(c) || (IsSign(c) && !sawSign) || (IsExp(c) && !sawE && !sawSign)
    ensures Admits(f, sawE || IsExp(c), sawSign || IsSign(c))
  {
    var g := [c] + f;
    assert g[0] == c;
    assert forall i :: 0 <= i < |f| ==> g[i + 1] == f[i];
    forall i, j | 0 <= i < j < |f| && IsSign(f[i])
      ensures !IsSign(f[j]) && !IsExp(f[j])
    {
      assert g[i + 1] == f[i] && g[j + 1] == f[j];
    }
    forall i, j | 0 <= i < j < |f| && IsExp(f[i])
      ensures !IsExp(f[j])
    {
      assert g[i + 1] == f[i] && g[j + 1] == f[j];
    }
    forall j | 0 <= j < |f| && IsSign(c)
      ensures !IsSign(f[j]) && !IsExp(f[j])
    {
      assert 0 < j + 1 < |g| && g[j + 1] == f[j];
    }
    forall j | 0 <= j < |f| && IsExp(c)
      ensures !IsExp(f[j])
    {
      assert 0 < j + 1 < |g| && g[j + 1] == f[j];
    }
  }

  /** AdmitsCons from right to left: an admitted character in front of what it admits. */
  lemma AdmitsPrepend(c: char, f: string, sawE: bool, sawSign: bool)
    requires IsDigit(c) || (IsSign(c) && !sawSign) || (IsExp(c) && !sawE && !sawSign)
    requires Admits(f, sawE || IsExp(c), sawSign || IsSign(c))
    ensures Admits([c] + f, sawE, sawSign)
  {
    var g := [c] + f;
    assert g[0] == c;
    assert forall i :: 0 < i < |g| ==> g[i] == f[i - 1];
    forall i, j | 0 <= i < j < |g| && IsSign(g[i])
      ensures !IsSign(g[j]) && !IsExp(g[j])
    {
      if i > 0 {
        assert g[i] == f[i - 1] && g[j] == f[j - 1];
      } else {
        assert g[j] == f[j - 1];
      }
    }
    forall i, j | 0 <= i < j < |g| && IsExp(g[i])
      ensures !IsExp(g[j])
    {
      if i > 0 {
        assert g[i] == f[i - 1] && g[j] == f[j - 1];
      } else {
        assert g[j] == f[j - 1];
      }
    }
  }

  /**
   * scanFraction stops normally at q, with input[pos..q] copied, exactly when
   * it admits input[pos..q] and input[q] ends the number.
   */
  lemma {:induction false} FractionRunDone(input: string, pos: nat, buf: string, sawE: bool, sawSign: bool, q: nat)
    requires pos <= q <= |input|
    ensures FractionRun(input, pos, buf, sawE, sawSign) == Scan(Done, q, buf + input[pos..q]) <==>
      q < |input| && Admits(input[pos..q], sawE, sawSign) && EndsFraction(input[q])
    decreases q - pos
  {
    if pos == q {
      assert buf + input[pos..pos] == buf;
      assert input[pos..q] == [];
    } else {
      var c := input[pos];
      assert input[pos..q] == [c] + input[pos + 1..q];
      AdmitsCons(c, input[pos + 1..q], sawE, sawSign);
      FractionRunDone(input, pos + 1, buf + [c], sawE || IsExp(c), sawSign || IsSign(c), q);
      CopyStep(input, pos, q, buf);
    }
  }

  /**
   * The literals scanNumber produces at pos, ending at q: a digit run ended by
   * the end of input or a character that ends the integer part; or a digit
   * run, '.', 'e' or 'E', and a suffix scanFraction admits, ended by a
   * character that ends the number.
   */
  predicate NumberAt(input: string, pos: nat, q: nat)
    requires pos <= q <= |input|
  {
    var k := pos + DigitRun(input[pos..q]);
    if k == q then q == |input| || EndsInteger(input[q])
    else
      (input[k] == '.' || IsExp(input[k])) && q < |input| &&
      Admits(input[k + 1..q], false, false) && EndsFraction(input[q])
  }

  /** scanNumber stops normally at q, with input[pos..q] copied, exactly when NumberAt holds. */
  lemma {:induction false} NumberRunDone(input: string, pos: nat, buf: string, q: nat)
    requires pos <= q <= |input|
    ensures NumberRun(input, pos, buf) == Scan(Done, q, buf + input[pos..q]) <==> NumberAt(input, pos, q)
    decreases q - pos
  {
    if pos == q {
      assert buf + input[pos..pos] == buf;
      assert input[pos..q] == [];
    } else {
      var c := input[pos];
      var s := input[pos..q];
      assert s[0] == c && s[1..] == input[pos + 1..q];
      CopyStep(input, pos, q, buf);
      if IsDigit(c) {
        NumberRunDone(input, pos + 1, buf + [c], q);
      } else if c == '.' || IsExp(c) {
        FractionRunDone(input, pos + 1, buf + [c], false, false, q);
      }
    }
  }

  /**
   * nextToken never moves backwards; a token that stands for text consumed
   * some; end of input comes only at the end, with an empty literal; the line
   * count only grows; the error field changes only with an invalid token.
   */
  lemma {:induction false} NextProgress(input: string, lx: Lexer)
    requires lx.pos <= |input|
    ensures var (tok, nx) := Next(input, lx);
      (Live(tok.kind) ==> lx.pos < nx.pos) &&
      (tok.kind == TokenEOF ==> nx.pos == |input| && tok.literal == "") &&
      nx.line >= lx.line &&
      (nx.err == lx.err || (tok.kind == TokenInvalid && nx.err.Some?))
    decreases |input| - lx.pos
  {
    if lx.pos < |input| {
      var c := input[lx.pos];
      var p := lx.pos + 1;
      if IsWhitespace(c) {
        NextProgress(input, lx.(pos := p));
      } else if c == '"' {
        StringProgress(input, lx);
      } else if c == '\n' {
        NextProgress(input, lx.(pos := p, line := lx.line + 1));
      } else if IsDigit(c) {
        NumberProgress(input, lx);
      } else if !(c in ",:{}[]") {
        WordProgress(input, lx);
      }
    }
  }

  /** What NextProgress states about one call of nextToken. */
  predicate Progress(input: string, lx: Lexer)
    requires lx.pos <= |input|
  {
    var (tok, nx) := Next(input, lx);
    (Live(tok.kind) ==> lx.pos < nx.pos) &&
    (tok.kind == TokenEOF ==> nx.pos == |input| && tok.literal == "") &&
    nx.line >= lx.line &&
    (nx.err == lx.err || (tok.kind == TokenInvalid && nx.err.Some?))
  }

  /** nextToken hands a quote to scanString. */
  lemma QuoteStartsString(input: string, lx: Lexer)
    requires lx.pos < |input| && input[lx.pos] == '"'
    ensures var s := StringBody(input, lx.pos + 1, []);
      Next(input, lx) ==
        match s.status
        case AtEOF => (Token(TokenEOF, ""), lx.(pos := s.pos, buf := s.buf))
        case Failed(e) => (Token(TokenInvalid, s.buf), lx.(pos := s.pos, buf := s.buf, err := Some(e)))
        case Done => (Token(TokenString, s.buf), lx.(pos := s.pos, buf := s.buf))
  {
  }

  /** NextProgress for a token that starts with a quote. */
  lemma StringProgress(input: string, lx: Lexer)
    requires lx.pos < |input| && input[lx.pos] == '"'
    ensures Progress(input, lx)
  {
    StringBodyCopies(input, lx.pos + 1, []);
    QuoteStartsString(input, lx);
  }

  /** nextToken hands a digit to scanNumber. */
  lemma DigitStartsRun(input: string, lx: Lexer)
    requires lx.pos < |input| && IsDigit(input[lx.pos])
    ensures var s := NumberRun(input, lx.pos, []);
      Next(input, lx) ==
        match s.status
        case AtEOF => (Token(TokenEOF, ""), lx.(pos := s.pos, buf := s.buf))
        case Failed(e) => (Token(TokenInvalid, s.buf), lx.(pos := s.pos, buf := s.buf, err := Some(e)))
        case Done => (Token(TokenNumber, s.buf), lx.(pos := s.pos, buf := s.buf))
  {
    var c := input[lx.pos];
    assert !IsWhitespace(c) && c != '"' && !(c in ",:{}[]") && c != '\n';
  }

  /** NextProgress for a token that starts with a digit. */
  lemma NumberProgress(input: string, lx: Lexer)
    requires lx.pos < |input| && IsDigit(input[lx.pos])
    ensures Progress(input, lx)
  {
    NumberRunCopies(input, lx.pos, []);
    DigitStartsRun(input, lx);
  }

  /** nextToken hands any character it has no other case for to scanIdent. */
  lemma OtherStartsWord(input: string, lx: Lexer)
    requires lx.pos < |input|
    requires var c := input[lx.pos];
      !IsWhitespace(c) && c != '"' && !(c in ",:{}[]") && c != '\n' && !IsDigit(c)
    ensures var s := IdentRun(input, lx.pos, []);
      Next(input, lx) ==
        if !s.status.Done? then (Token(TokenEOF, ""), lx.(pos := s.pos, buf := s.buf))
        else (Token(Lookup(s.buf), s.buf), lx.(pos := s.pos, buf := s.buf))
  {
  }

  /** NextProgress for a token that starts with any other character. */
  lemma WordProgress(input: string, lx: Lexer)
    requires lx.pos < |input|
    requires var c := input[lx.pos];
      !IsWhitespace(c) && c != '"' && !(c in ",:{}[]") && c != '\n' && !IsDigit(c)
    ensures Progress(input, lx)
  {
    IdentRunCopies(input, lx.pos, []);
    OtherStartsWord(input, lx);
    var s := IdentRun(input, lx.pos, []);
    assert Live(Lookup(s.buf)) ==> s.buf != [];
  }

  /** Once nextToken has returned the end-of-input token, it keeps returning it and changes nothing. */
  lemma EofAbsorbs(input: string, lx: Lexer)
    requires lx.pos <= |input|
    requires Next(input, lx).0.kind == TokenEOF
    ensures var nx := Next(input, lx).1; Next(input, nx) == (Token(TokenEOF, ""), nx)
  {
    NextProgress(input, lx);
  }

  predicate IsBlank(c: char)
  {
    IsWhitespace(c) || c == '\n'
  }

  function Newlines(s: string): nat
  {
    if s == [] then 0 else (if s[0] == '\n' then 1 else 0) + Newlines(s[1..])
  }

  /** Newlines, one character further on. */
  lemma NewlinesCons(input: string, p: nat, q: nat)
    requires p < q <= |input|
    ensures Newlines(input[p..q]) == (if input[p] == '\n' then 1 else 0) + Newlines(input[p + 1..q])
  {
    assert input[p..q][1..] == input[p + 1..q];
  }

  /** One blank is skipped; a line feed counts one line. */
  lemma NextBlank(input: string, lx: Lexer)
    requires lx.pos < |input| && IsBlank(input[lx.pos])
    ensures Next(input, lx) ==
      Next(input, lx.(pos := lx.pos + 1, line := lx.line + (if input[lx.pos] == '\n' then 1 else 0)))
  {
    if input[lx.pos] != '\n' {
      assert lx.(pos := lx.pos + 1, line := lx.line + 0) == lx.(pos := lx.pos + 1);
    }
  }

  /** Blanks before a token are skipped, and each line feed among them counts one line. */
  lemma {:induction false} SkipBlanks(input: string, lx: Lexer, q: nat)
    requires lx.pos <= q <= |input|
    requires forall i :: lx.pos <= i < q ==> IsBlank(input[i])
    ensures Next(input, lx) == Next(input, lx.(pos := q, line := lx.line + Newlines(input[lx.pos..q])))
    decreases q - lx.pos
  {
    if lx.pos < q {
      var nl := if input[lx.pos] == '\n' then 1 else 0;
      var lx1 := lx.(pos := lx.pos + 1, line := lx.line + nl);
      NextBlank(input, lx);
      SkipBlanks(input, lx1, q);
      NewlinesCons(input, lx.pos, q);
      assert lx1.(pos := q, line := lx1.line + Newlines(input[lx.pos + 1..q])) ==
        lx.(pos := q, line := lx.line + Newlines(input[lx.pos..q]));
    } else {
      assert lx.(pos := q, line := lx.line + Newlines(input[lx.pos..q])) == lx;
    }
  }

  /** A valid quoted string is one string token whose literal is its body, verbatim. */
  lemma NextString(input: string, lx: Lexer, q: nat)
    requires lx.pos < q < |input| && input[lx.pos] == '"' && input[q] == '"'
    requires ValidBody(input[lx.pos + 1..q])
    ensures Next(input, lx) ==
      (Token(TokenString, input[lx.pos + 1..q]), lx.(pos := q + 1, buf := input[lx.pos + 1..q]))
  {
    var body := input[lx.pos + 1..q];
    StringBodyClosed(input, lx.pos + 1, [], q);
    assert StringBody(input, lx.pos + 1, []) == Scan(Done, q + 1, body) by {
      assert [] + body == body;
    }
  }

  /** A number in the shape NumberAt describes is one number token, verbatim. */
  lemma NextNumber(input: string, lx: Lexer, q: nat)
    requires lx.pos < q <= |input| && IsDigit(input[lx.pos])
    requires NumberAt(input, lx.pos, q)
    ensures Next(input, lx) == (Token(TokenNumber, input[lx.pos..q]), lx.(pos := q, buf := input[lx.pos..q]))
  {
    NumberRunDone(input, lx.pos, [], q);
    assert [] + input[lx.pos..q] == input[lx.pos..q];
  }

  /**
   * A letter run ended by a non-letter is one word token: a keyword for null,
   * true and false, otherwise invalid; either way no error is recorded.
   */
  lemma NextWord(input: string, lx: Lexer, q: nat)
    requires lx.pos < q < |input| && !IsLetter(input[q])
    requires forall i :: lx.pos <= i < q ==> IsLetter(input[i])
    ensures var w := input[lx.pos..q];
      Next(input, lx) == (Token(Lookup(w), w), lx.(pos := q, buf := w))
  {
    IdentRunCopies(input, lx.pos, []);
    var s := IdentRun(input, lx.pos, []);
    assert s.pos == q;
    assert s == Scan(Done, q, input[lx.pos..q]) by {
      assert [] + input[lx.pos..q] == input[lx.pos..q];
    }
    LetterStartsWord(input, lx);
  }

  /** A letter run that reaches the end of input is the end-of-input token. */
  lemma NextWordAtEnd(input: string, lx: Lexer)
    requires lx.pos < |input|
    requires forall i :: lx.pos <= i < |input| ==> IsLetter(input[i])
    ensures Next(input, lx) == (Token(TokenEOF, ""), lx.(pos := |input|, buf := input[lx.pos..]))
  {
    IdentRunCopies(input, lx.pos, []);
    var s := IdentRun(input, lx.pos, []);
    assert s.pos == |input|;
    assert s == Scan(AtEOF, |input|, input[lx.pos..]) by {
      assert [] + input[lx.pos..] == input[lx.pos..];
    }
    LetterStartsWord(input, lx);
  }

  /** A token that starts with a digit is whatever scanNumber made of it. */
  lemma DigitStartsNumber(input: string, lx: Lexer, q: nat, b: string)
    requires lx.pos < |input| && IsDigit(input[lx.pos])
    requires NumberRun(input, lx.pos, []) == Scan(Done, q, b)
    ensures Next(input, lx) == (Token(TokenNumber, b), lx.(pos := q, buf := b))
  {
  }

  /** nextToken hands a letter to scanIdent. */
  lemma LetterStartsWord(input: string, lx: Lexer)
    requires lx.pos < |input| && IsLetter(input[lx.pos])
    ensures var s := IdentRun(input, lx.pos, []);
      Next(input, lx) ==
        if !s.status.Done? then (Token(TokenEOF, ""), lx.(pos := s.pos, buf := s.buf))
        else (Token(Lookup(s.buf), s.buf), lx.(pos := s.pos, buf := s.buf))
  {
    var c := input[lx.pos];
    assert !IsWhitespace(c) && c != '"' && !(c in ",:{}[]") && c != '\n' && !IsDigit(c);
  }

  /** A character that starts no token is an invalid token with an empty literal, and is not consumed. */
  lemma NextStray(input: string, lx: Lexer)
    requires lx.pos < |input|
    requires var c := input[lx.pos];
      !IsBlank(c) && c != '"' && !(c in ",:{}[]") && !IsDigit(c) && !IsLetter(c)
    ensures Next(input, lx) == (Token(TokenInvalid, ""), lx.(buf := ""))
  {
  }

  /** Each punctuation character is its own token, with that character as literal. */
  lemma NextPunct(input: string, lx: Lexer)
    requires lx.pos < |input| && input[lx.pos] in ",:{}[]"
    ensures Next(input, lx) == (Token(PunctKind(input[lx.pos]), [input[lx.pos]]), lx.(pos := lx.pos + 1))
  {
  }

  /**
   * An escape letter other than the simple ones and 'u' gives an invalid token
   * whose literal is the text up to and including the backslash, and records
   * the error.
   */
  lemma NextBadEscape(input: string, lx: Lexer, q: nat)
    requires lx.pos < q && q + 1 < |input| && input[lx.pos] == '"' && input[q] == '\\'
    requires ValidBody(input[lx.pos + 1..q])
    requires !IsSimpleEscape(input[q + 1]) && input[q + 1] != 'u'
    ensures var lit := input[lx.pos + 1..q + 1];
      Next(input, lx) ==
        (Token(TokenInvalid, lit), lx.(pos := q + 2, buf := lit, err := Some(InvalidEscape(input[q + 1]))))
    decreases q - lx.pos
  {
    BadEscapeAt(input, lx.pos + 1, [], q);
    assert [] + input[lx.pos + 1..q + 1] == input[lx.pos + 1..q + 1];
    QuoteStartsString(input, lx);
  }

  lemma {:induction false} BadEscapeAt(input: string, pos: nat, buf: string, q: nat)
    requires pos <= q && q + 1 < |input| && input[q] == '\\'
    requires ValidBody(input[pos..q])
    requires !IsSimpleEscape(input[q + 1]) && input[q + 1] != 'u'
    ensures StringBody(input, pos, buf) == Scan(Failed(InvalidEscape(input[q + 1])), q + 2, buf + input[pos..q + 1])
    decreases q - pos
  {
    if pos == q {
      BadEscapeHere(input, q, buf);
    } else {
      var s := StringChar(input, pos, buf);
      ValidStep(input, pos, buf, q);
      BadEscapeAt(input, s.pos, s.buf, q);
      calc {
        s.buf + input[s.pos..q + 1];
        buf + input[pos..s.pos] + input[s.pos..q + 1];
        { assert input[pos..s.pos] + input[s.pos..q + 1] == input[pos..q + 1]; }
        buf + input[pos..q + 1];
      }
    }
  }

  /** Before q, a valid body is scanned one whole character or escape at a time. */
  lemma ValidStep(input: string, pos: nat, buf: string, q: nat)
    requires pos < q <= |input| && ValidBody(input[pos..q])
    ensures input[pos] != '"'
    ensures var s := StringChar(input, pos, buf);
      s.status.Done? && s.pos <= q && ValidBody(input[s.pos..q]) && s.buf == buf + input[pos..s.pos] &&
      StringBody(input, pos, buf) == StringBody(input, s.pos, s.buf)
  {
    assert input[pos..q][0] == input[pos];
    StringCharValid(input, pos, buf, q);
    StringCharCopies(input, pos, buf);
  }

  /** scanString fails at a backslash followed by a letter that is no escape. */
  lemma BadEscapeHere(input: string, q: nat, buf: string)
    requires q + 1 < |input| && input[q] == '\\'
    requires !IsSimpleEscape(input[q + 1]) && input[q + 1] != 'u'
    ensures StringBody(input, q, buf) == Scan(Failed(InvalidEscape(input[q + 1])), q + 2, buf + input[q..q + 1])
  {
    assert input[q..q + 1] == ['\\'];
  }

  /** The first n tokens nextToken returns from state lx. */
  function Tokens(input: string, lx: Lexer, n: nat): seq<Token>
    requires lx.pos <= |input|
    decreases n
  {
    if n == 0 then []
    else
      var (tok, nx) := Next(input, lx);
      [tok] + Tokens(input, nx, n - 1)
  }

  /** Tokens, one step: the token nextToken returns, then the ones after it. */
  lemma TokensStep(input: string, lx: Lexer, n: nat, tok: Token, nx: Lexer, rest: seq<Token>)
    requires lx.pos <= |input| && Next(input, lx) == (tok, nx) && Tokens(input, nx, n) == rest
    ensures Tokens(input, lx, n + 1) == [tok] + rest
  {
  }

  /** The first case of scanner_test.go. */
  lemma ScanArray()
    ensures Tokens("[123, \"token\"]", Start, 6) ==
      [Token(TokenLBracket, "["), Token(TokenNumber, "123"), Token(TokenComma, ","),
       Token(TokenString, "token"), Token(TokenRBracket, "]"), Token(TokenEOF, "")]
  {
    ScanArrayTokens("[123, \"token\"]");
  }

  /** ScanArray, for an input known only through its characters. */
  lemma ScanArrayTokens(input: string)
    requires input == "[123, \"token\"]"
    ensures Tokens(input, Start, 6) ==
      [Token(TokenLBracket, "["), Token(TokenNumber, "123"), Token(TokenComma, ","),
       Token(TokenString, "token"), Token(TokenRBracket, "]"), Token(TokenEOF, "")]
  {
    var l1 := Start.(pos := 1);
    var l2 := l1.(pos := 4, buf := "123");
    var rest := ScanArrayRest(input);
    NumberToken(input, l1);
    TokensStep(input, l1, 4, Token(TokenNumber, "123"), l2, rest);
    rest := [Token(TokenNumber, "123")] + rest;
    rest := PunctStep(input, Start, 5, rest);
  }

  /** The tokens of the first case of scanner_test.go after its number. */
  lemma ScanArrayRest(input: string) returns (rest: seq<Token>)
    requires input == "[123, \"token\"]"
    ensures rest == [Token(TokenComma, ","), Token(TokenString, "token"), Token(TokenRBracket, "]"), Token(TokenEOF, "")]
    ensures Tokens(input, Start.(pos := 4, buf := "123"), 4) == rest
  {
    var l2 := Start.(pos := 4, buf := "123");
    var l3 := l2.(pos := 5);
    var l4 := l3.(pos := 13, buf := "token");
    var l5 := l4.(pos := 14);
    rest := [Token(TokenEOF, "")];
    TokensStep(input, l5, 0, Token(TokenEOF, ""), l5, []);
    rest := PunctStep(input, l4, 1, rest);
    StringToken(input, l3);
    TokensStep(input, l3, 2, Token(TokenString, "token"), l4, rest);
    rest := [Token(TokenString, "token")] + rest;
    rest := PunctStep(input, l2, 3, rest);
  }

  /** The punctuation tokens, each with its character as literal. */
  function PunctKind(c: char): Kind
  {
    match c
    case ',' => TokenComma
    case ':' => TokenColon
    case '{' => TokenLBrace
    case '}' => TokenRBrace
    case '[' => TokenLBracket
    case _ => TokenRBracket
  }

  /** Tokens, one step over a punctuation character. */
  lemma PunctStep(input: string, lx: Lexer, n: nat, rest: seq<Token>) returns (all: seq<Token>)
    requires lx.pos < |input| && input[lx.pos] in ",:{}[]"
    requires Tokens(input, lx.(pos := lx.pos + 1), n) == rest
    ensures all == [Token(PunctKind(input[lx.pos]), [input[lx.pos]])] + rest
    ensures Tokens(input, lx, n + 1) == all
  {
    all := [Token(PunctKind(input[lx.pos]), [input[lx.pos]])] + rest;
  }

  lemma NumberToken(input: string, lx: Lexer)
    requires input == "[123, \"token\"]" && lx == Start.(pos := 1)
    ensures Next(input, lx) == (Token(TokenNumber, "123"), lx.(pos := 4, buf := "123"))
  {
    assert input[1..4] == "123";
    assert DigitRun("123") == 3;
    NextNumber(input, lx, 4);
  }

  lemma StringToken(input: string, lx: Lexer)
    requires input == "[123, \"token\"]" && lx == Start.(pos := 5, buf := "123")
    ensures Next(input, lx) == (Token(TokenString, "token"), lx.(pos := 13, buf := "token"))
  {
    assert input[7..12] == "token";
    assert ValidBody("token");
    assert Next(input, lx) == Next(input, lx.(pos := 6));
    NextString(input, lx.(pos := 6), 12);
  }
  /** A number literal s followed by a comma is scanned whole. */
  lemma NumberBeforeComma(s: string, k: nat)
    requires 0 < k < |s| && AllDigits(s[..k]) && (s[k] == '.' || IsExp(s[k]))
    requires Admits(s[k + 1..], false, false)
    ensures NumberRun(s + ",", 0, []) == Scan(Done, |s|, s)
  {
    var input := s + ",";
    NumberAtComma(s, k);
    NumberRunDone(input, 0, [], |s|);
    assert [] + input[0..|s|] == s;
  }

  /** Such a literal, followed by a comma, has the shape NumberAt describes. */
  lemma NumberAtComma(s: string, k: nat)
    requires 0 < k < |s| && AllDigits(s[..k]) && (s[k] == '.' || IsExp(s[k]))
    requires Admits(s[k + 1..], false, false)
    ensures NumberAt(s + ",", 0, |s|)
  {
    var input := s + ",";
    assert input[0..|s|] == s;
    DigitRunIs(s, k);
    assert input[k + 1..|s|] == s[k + 1..];
  }

  /** The number literals of scanner_test.go each scan as one number token. */
  lemma ScannerTestNumbers()
    ensures NumberRun("12,", 0, []) == Scan(Done, 2, "12")
    ensures NumberRun("12.12,", 0, []) == Scan(Done, 5, "12.12")
    ensures NumberRun("12e+1,", 0, []) == Scan(Done, 5, "12e+1")
    ensures NumberRun("12e-1,", 0, []) == Scan(Done, 5, "12e-1")
    ensures NumberRun("12.12e+1]", 0, []) == Scan(Done, 8, "12.12e+1")
  {
    ScannerTestNumber1();
    ScannerTestNumber2();
    ScannerTestNumber3();
    ScannerTestNumber4();
    ScannerTestNumber5();
  }

  /**
   * The scanner is looser than the JSON number grammar: an exponent letter
   * with no digits, a second exponent after `e` (scanNumber does not tell
   * scanFraction it saw one), and a sign after the fraction digits are all
   * part of a number token.
   */
  lemma LooseNumbers()
    ensures NumberRun("12e,", 0, []) == Scan(Done, 3, "12e")
    ensures NumberRun("1e2e3,", 0, []) == Scan(Done, 5, "1e2e3")
    ensures NumberRun("1.5-3,", 0, []) == Scan(Done, 5, "1.5-3")
    ensures NumberRun("1.5e", 0, []) == Scan(AtEOF, 4, "1.5e")
    ensures NumberRun("12df", 0, []) == Scan(Done, 2, "12")
    ensures NumberRun("1e+5e", 0, []).status == Failed(InvalidNumberChar('e'))
  {
    LooseNumber1();
    LooseNumber2();
    LooseNumber3();
    LooseNumber4();
    LooseNumber5();
    LooseNumber6();
  }

  /** The cases of ScannerTestNumbers and LooseNumbers, one literal each. */
  lemma ScannerTestNumber1()
    ensures NumberRun("12,", 0, []) == Scan(Done, 2, "12")
  {
  }

  lemma ScannerTestNumber2()
    ensures NumberRun("12.12,", 0, []) == Scan(Done, 5, "12.12")
  {
  }

  lemma ScannerTestNumber3()
    ensures NumberRun("12e+1,", 0, []) == Scan(Done, 5, "12e+1")
  {
  }

  lemma ScannerTestNumber4()
    ensures NumberRun("12e-1,", 0, []) == Scan(Done, 5, "12e-1")
  {
  }

  lemma ScannerTestNumber5()
    ensures NumberRun("12.12e+1]", 0, []) == Scan(Done, 8, "12.12e+1")
  {
  }

  lemma LooseNumber1()
    ensures NumberRun("12e,", 0, []) == Scan(Done, 3, "12e")
  {
  }

  lemma LooseNumber2()
    ensures NumberRun("1e2e3,", 0, []) == Scan(Done, 5, "1e2e3")
  {
  }

  lemma LooseNumber3()
    ensures NumberRun("1.5-3,", 0, []) == Scan(Done, 5, "1.5-3")
  {
  }

  lemma LooseNumber4()
    ensures NumberRun("1.5e", 0, []) == Scan(AtEOF, 4, "1.5e")
  {
  }

  lemma LooseNumber5()
    ensures NumberRun("12df", 0, []) == Scan(Done, 2, "12")
  {
  }

  lemma LooseNumber6()
    ensures NumberRun("1e+5e", 0, []).status == Failed(InvalidNumberChar('e'))
  {
  }
}
