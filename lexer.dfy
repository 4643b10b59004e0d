/** The lexer: a forward-only scan over the text with one character of
    lookahead. `NextToken` is the specification of one call of
    `get_next_token`; the class `Lexer` is the scanner itself, whose methods
    are proved to follow it. */
module Lexing {
  import opened Numbers
  import opened Tokens

  // ASCII character classes (Python's str.isspace, isdigit, isalpha, isalnum
  // restricted to ASCII).

  predicate IsSpace(c: char) {
    c == ' ' || c == '\t' || c == '\n' || c == '\r'
    || ('\U{000B}' <= c <= '\U{000C}') || ('\U{001C}' <= c <= '\U{001F}')
  }

  predicate IsDigit(c: char) {
    '0' <= c <= '9'
  }

  predicate IsAlpha(c: char) {
    ('a' <= c <= 'z') || ('A' <= c <= 'Z')
  }

  predicate IsAlnum(c: char) {
    IsAlpha(c) || IsDigit(c)
  }

  /** Characters the number scanner accepts. */
  predicate IsNumberChar(c: char) {
    IsDigit(c) || c == '.'
  }

  /** Characters the identifier scanner accepts. */
  predicate IsIdentChar(c: char) {
    IsAlnum(c) || c == '_'
  }

  /** Characters that begin a token. */
  predicate StartsToken(c: char) {
    IsDigit(c) || IsAlpha(c) || c == '_' || c in "+-*/=()"
  }

  /** The lexer's `current_char` at a position: None past the end. */
  function CharAt(text: string, pos: nat): Option<char> {
    if pos < |text| then Some(text[pos]) else None
  }

  /** The three runs the scanner reads: whitespace, a number, a name. */
  datatype CharClass = Spaces | NumberChars | IdentChars

  predicate InClass(cls: CharClass, c: char) {
    match cls
    case Spaces => IsSpace(c)
    case NumberChars => IsNumberChar(c)
    case IdentChars => IsIdentChar(c)
  }

  /** Where a maximal run of characters of class `cls` that starts at `pos`
      ends: everything before is in the run, the character there is not. */
  function ScanWhile(text: string, pos: nat, cls: CharClass): (end: nat)
    requires pos <= |text|
    ensures pos <= end <= |text|
    decreases |text| - pos
  {
    if pos < |text| && InClass(cls, text[pos]) then ScanWhile(text, pos + 1, cls) else pos
  }

  /** The run ScanWhile finds is maximal: every character in it is of the
      class and the one after it is not. */
  lemma {:induction false} ScanWhileSpec(text: string, pos: nat, cls: CharClass)
    requires pos <= |text|
    ensures forall i | pos <= i < ScanWhile(text, pos, cls) :: InClass(cls, text[i])
    ensures ScanWhile(text, pos, cls) == |text| || !InClass(cls, text[ScanWhile(text, pos, cls)])
    decreases |text| - pos
  {
    if pos < |text| && InClass(cls, text[pos]) {
      ScanWhileSpec(text, pos + 1, cls);
    }
  }

  /** The characterisation of ScanWhile determines it. */
  lemma {:induction false} ScanWhileAt(text: string, pos: nat, end: nat, cls: CharClass)
    requires pos <= end <= |text|
    requires forall i | pos <= i < end :: InClass(cls, text[i])
    requires end == |text| || !InClass(cls, text[end])
    ensures ScanWhile(text, pos, cls) == end
    decreases end - pos
  {
    if pos < end {
      ScanWhileAt(text, pos + 1, end, cls);
    }
  }

  function DigitValue(c: char): nat
    requires IsDigit(c)
  {
    (c as int - '0' as int) as nat
  }

  /** The integer a string of decimal digits denotes (Python's int()). */
  function DigitsValue(s: string): nat
    requires forall i | 0 <= i < |s| :: IsDigit(s[i])
  {
    if s == [] then 0 else DigitsValue(s[..|s| - 1]) * 10 + DigitValue(s[|s| - 1])
  }

  function Pow10(n: nat): (r: nat)
    ensures r > 0
  {
    if n == 0 then 1 else 10 * Pow10(n - 1)
  }

  /** The index of the first '.' of a string that has one. */
  function FirstDot(s: string): (k: nat)
    requires '.' in s
    ensures k < |s| && s[k] == '.' && '.' !in s[..k]
  {
    if s[0] == '.' then 0 else 1 + FirstDot(s[1..])
  }

  /** A run of digits and dots without a dot is a run of digits. */
  lemma NoDotDigits(s: string)
    requires forall i | 0 <= i < |s| :: IsNumberChar(s[i])
    requires '.' !in s
    ensures forall i | 0 <= i < |s| :: IsDigit(s[i])
  {
    forall i | 0 <= i < |s| ensures IsDigit(s[i]) {
      assert s[i] in s;
    }
  }

  /** The string has two dots or more. */
  predicate TwoDots(s: string) {
    exists i, j | 0 <= i < j < |s| :: s[i] == '.' && s[j] == '.'
  }

  /** A string has a second dot exactly when one follows its first dot. */
  lemma TwoDotsAfterFirst(s: string, k: nat)
    requires k < |s| && s[k] == '.' && '.' !in s[..k]
    ensures TwoDots(s) <==> '.' in s[k + 1..]
  {
    if '.' in s[k + 1..] {
      var m :| 0 <= m < |s| - k - 1 && s[k + 1..][m] == '.';
      assert s[k] == '.' && s[k + 1 + m] == '.';
    }
    if TwoDots(s) {
      var i, j :| 0 <= i < j < |s| && s[i] == '.' && s[j] == '.';
      if k < j {
        assert s[k + 1..][j - k - 1] == '.';
      }
    }
  }

  /** The number a scanned run of digits and dots denotes: an int when it
      has no dot (`int(result)`), a float when it has one (`float(result)`),
      and the ValueError Python raises otherwise (an empty run, a lone dot,
      two dots). */
  function ParseNumber(lit: string): (r: Result<Number>)
    requires forall i | 0 <= i < |lit| :: IsNumberChar(lit[i])
    ensures r.Ok? ==> (r.value.Int? <==> '.' !in lit)
    ensures r.Err? <==> lit == [] || lit == "." || TwoDots(lit)
    ensures r.Err? ==> r.error == InvalidNumber(lit)
  {
    if '.' !in lit then
      NoDotDigits(lit);
      if lit == [] then Err(InvalidNumber(lit)) else Ok(Int(DigitsValue(lit)))
    else
      var k := FirstDot(lit);
      var whole, frac := lit[..k], lit[k + 1..];
      TwoDotsAfterFirst(lit, k);
      if '.' in frac || (whole == [] && frac == []) then
        Err(InvalidNumber(lit))
      else
        assert lit == whole + ['.'] + frac;
        NoDotDigits(whole);
        NoDotDigits(frac);
        Ok(Float(DigitsValue(whole) as real + DigitsValue(frac) as real / Pow10(|frac|) as real))
  }

  /** One token and the position just after it. */
  datatype Lexed = Lexed(tok: Token, next: nat)

  /** What one call of `get_next_token` returns when the cursor is at `pos`:
      whitespace is skipped, the token starting at the first other character
      is recognised, or the character is refused. */
  function NextToken(text: string, pos: nat): (r: Result<Lexed>)
    ensures r.Ok? ==> pos <= r.value.next && WellFormed(r.value.tok)
    ensures r.Ok? && r.value.tok.kind != EOF ==> pos < r.value.next <= |text|
    ensures r.Ok? && r.value.tok.kind == EOF ==> r.value.tok == Sym(EOF)
    ensures r.Ok? && r.value.tok.kind == EOF && pos <= |text| ==> r.value.next == |text|
    ensures r.Ok? && pos > |text| ==> r.value == Lexed(Sym(EOF), pos)
    decreases if pos <= |text| then |text| - pos else 0
  {
    if pos >= |text| then Ok(Lexed(Sym(EOF), pos))
    else
      var c := text[pos];
      if IsSpace(c) then
        NextToken(text, ScanWhile(text, pos, Spaces))
      else if IsDigit(c) then
        var end := ScanWhile(text, pos, NumberChars);
        ScanWhileSpec(text, pos, NumberChars);
        var v :- ParseNumber(text[pos..end]);
        Ok(Lexed(Token(NUMBER, Numeric(v)), end))
      else if IsAlpha(c) || c == '_' then
        var end := ScanWhile(text, pos, IdentChars);
        Ok(Lexed(Token(IDENTIFIER, Text(text[pos..end])), end))
      else if c == '+' then Ok(Lexed(Sym(PLUS), pos + 1))
      else if c == '-' then Ok(Lexed(Sym(MINUS), pos + 1))
      else if c == '*' then
        if pos + 1 < |text| && text[pos + 1] == '*' then Ok(Lexed(Sym(POWER), pos + 2))
        else Ok(Lexed(Sym(MULTIPLY), pos + 1))
      else if c == '/' then Ok(Lexed(Sym(DIVIDE), pos + 1))
      else if c == '=' then Ok(Lexed(Sym(ASSIGN), pos + 1))
      else if c == '(' then Ok(Lexed(Sym(LPAREN), pos + 1))
      else if c == ')' then Ok(Lexed(Sym(RPAREN), pos + 1))
      else Err(InvalidCharacter(pos))
  }

  // Properties of the token stream.

  /** Whitespace never produces a token: lexing from anywhere inside a run
      of whitespace gives what lexing from its end gives. */
  lemma SpacesAreSkipped(text: string, pos: nat, q: nat)
    requires pos <= q <= |text|
    requires forall i | pos <= i < q :: IsSpace(text[i])
    ensures NextToken(text, pos) == NextToken(text, q)
  {
    if pos < q {
      var s := ScanWhile(text, pos, Spaces);
      ScanWhileSpec(text, pos, Spaces);
      if q < s {
        ScanWhileAt(text, q, s, Spaces);
      } else if s < q {
        assert false;
      }
    }
  }

  /** The lexer answers EOF exactly when nothing but whitespace is left, and
      once it has, every further call answers EOF again at the same place. */
  lemma EofIffBlank(text: string, pos: nat)
    requires pos <= |text|
    ensures NextToken(text, pos) == Ok(Lexed(Sym(EOF), |text|))
            <==> forall i | pos <= i < |text| :: IsSpace(text[i])
    ensures NextToken(text, |text|) == Ok(Lexed(Sym(EOF), |text|))
  {
    var s := ScanWhile(text, pos, Spaces);
    ScanWhileSpec(text, pos, Spaces);
    SpacesAreSkipped(text, pos, s);
    if s < |text| {
      assert !IsSpace(text[s]);
      assert NextToken(text, s) != Ok(Lexed(Sym(EOF), |text|));
    }
  }

  /** The first character that is not whitespace, from `pos` on. */
  function TokenStart(text: string, pos: nat): nat
    requires pos <= |text|
  {
    ScanWhile(text, pos, Spaces)
  }

  /** A character that starts no token is refused where it stands, and only
      such a character is refused that way. */
  lemma InvalidCharacterIff(text: string, pos: nat)
    requires pos <= |text|
    ensures var s := TokenStart(text, pos);
            (NextToken(text, pos).Err? && NextToken(text, pos).error.InvalidCharacter?)
            <==> s < |text| && !StartsToken(text[s])
    ensures var s := TokenStart(text, pos);
            NextToken(text, pos).Err? && NextToken(text, pos).error.InvalidCharacter? ==>
            NextToken(text, pos).error.pos == s
  {
    var s := TokenStart(text, pos);
    ScanWhileSpec(text, pos, Spaces);
    SpacesAreSkipped(text, pos, s);
  }

  /** A name as the lexer reads it: a letter or underscore, then letters,
      digits and underscores. */
  predicate IsIdentifier(name: string) {
    && |name| > 0
    && (IsAlpha(name[0]) || name[0] == '_')
    && forall i | 0 <= i < |name| :: IsIdentChar(name[i])
  }

  /** An IDENTIFIER token is the maximal identifier starting at the first
      character that is not whitespace. */
  lemma IdentifierIsMaximal(text: string, pos: nat)
    requires pos <= |text|
    requires NextToken(text, pos).Ok? && NextToken(text, pos).value.tok.kind == IDENTIFIER
    ensures var l := NextToken(text, pos).value;
            var s := TokenStart(text, pos);
            && s < l.next <= |text|
            && l.tok.value == Text(text[s..l.next])
            && IsIdentifier(text[s..l.next])
            && (l.next == |text| || !IsIdentChar(text[l.next]))
  {
    var s := TokenStart(text, pos);
    ScanWhileSpec(text, pos, Spaces);
    SpacesAreSkipped(text, pos, s);
    ScanWhileSpec(text, s, IdentChars);
  }

  /** A NUMBER token is the value of the maximal run of digits and dots
      starting at the first character that is not whitespace, which begins
      with a digit; it is an int exactly when the run has no dot. */
  lemma NumberIsMaximal(text: string, pos: nat)
    requires pos <= |text|
    requires NextToken(text, pos).Ok? && NextToken(text, pos).value.tok.kind == NUMBER
    ensures var l := NextToken(text, pos).value;
            var s := TokenStart(text, pos);
            && s < l.next <= |text|
            && IsDigit(text[s])
            && (forall i | s <= i < l.next :: IsNumberChar(text[i]))
            && (l.next == |text| || !IsNumberChar(text[l.next]))
            && ParseNumber(text[s..l.next]) == Ok(l.tok.value.number)
            && (l.tok.value.number.Int? <==> '.' !in text[s..l.next])
  {
    var s := TokenStart(text, pos);
    ScanWhileSpec(text, pos, Spaces);
    SpacesAreSkipped(text, pos, s);
    ScanWhileSpec(text, s, NumberChars);
  }

  /** A run of stars is cut into pairs from its left end: lexing from the
      start of the run, each pair is one POWER token and the next call
      starts after it; a star left over at the end of the run is MULTIPLY. */
  lemma StarRunTokens(text: string, pos: nat, end: nat)
    requires pos <= end <= |text|
    requires forall i | pos <= i < end :: text[i] == '*'
    requires end == |text| || text[end] != '*'
    ensures forall i | pos <= i < end - 1 && (i - pos) % 2 == 0 ::
              NextToken(text, i) == Ok(Lexed(Sym(POWER), i + 2))
    ensures (end - pos) % 2 == 1 ==> NextToken(text, end - 1) == Ok(Lexed(Sym(MULTIPLY), end))
  {
  }

  function DigitChar(d: nat): (c: char)
    requires d < 10
    ensures IsDigit(c) && DigitValue(c) == d
  {
    ('0' as int + d) as char
  }

  /** The decimal text of a natural number. */
  function Numeral(n: nat): (s: string)
    ensures |s| > 0 && forall i | 0 <= i < |s| :: IsDigit(s[i])
  {
    if n < 10 then [DigitChar(n)] else Numeral(n / 10) + [DigitChar(n % 10)]
  }

  /** Reading the decimal text of a number gives the number back. */
  lemma {:induction false} NumeralValue(n: nat)
    ensures DigitsValue(Numeral(n)) == n
  {
    if n >= 10 {
      var s := Numeral(n);
      assert s[..|s| - 1] == Numeral(n / 10);
      NumeralValue(n / 10);
    }
  }

  /** The decimal text of `n`, when nothing that continues a number follows
      it, is lexed as one NUMBER token of the int `n`. */
  lemma LexNumeral(text: string, q: nat, n: nat)
    requires q <= |text|
    requires q + |Numeral(n)| <= |text| && text[q..q + |Numeral(n)|] == Numeral(n)
    requires q + |Numeral(n)| == |text| || !IsNumberChar(text[q + |Numeral(n)|])
    ensures NextToken(text, q) == Ok(Lexed(Token(NUMBER, Numeric(Int(n))), q + |Numeral(n)|))
  {
    var d := Numeral(n);
    var end := q + |d|;
    forall i | q <= i < end ensures IsNumberChar(text[i]) {
      assert text[i] == d[i - q];
    }
    ScanWhileAt(text, q, end, NumberChars);
    assert text[q..end] == d;
    assert IsDigit(text[q]) by { assert text[q] == d[0]; }
    NumeralValue(n);
    assert '.' !in d by {
      forall i | 0 <= i < |d| ensures d[i] != '.' {
        assert IsDigit(d[i]);
      }
    }
  }

  /** An identifier, when nothing that continues a name follows it, is
      lexed as one IDENTIFIER token carrying it. */
  lemma LexIdentifier(text: string, q: nat, name: string)
    requires IsIdentifier(name)
    requires q + |name| <= |text| && text[q..q + |name|] == name
    requires q + |name| == |text| || !IsIdentChar(text[q + |name|])
    ensures NextToken(text, q) == Ok(Lexed(Token(IDENTIFIER, Text(name)), q + |name|))
  {
    var end := q + |name|;
    forall i | q <= i < end ensures IsIdentChar(text[i]) {
      assert text[i] == name[i - q];
    }
    ScanWhileAt(text, q, end, IdentChars);
    assert text[q] == name[0];
    assert !IsSpace(text[q]) && !IsDigit(text[q]) by {
      assert IsAlpha(name[0]) || name[0] == '_';
    }
  }

  /** The scanner. `text`, `pos` and `current_char` are the source's fields;
      `Valid` ties the current character to the cursor. */
  class Lexer {
    const text: string
    var pos: nat
    var currentChar: Option<char>

    ghost predicate Valid()
      reads this
    {
      pos <= |text| && currentChar == CharAt(text, pos)
    }

    constructor (text: string)
      ensures Valid() && this.text == text && pos == 0
    {
      this.text := text;
      pos := 0;
      currentChar := if text != [] then Some(text[0]) else None;
    }

    /** Moves the cursor one character on. */
    method Advance()
      requires Valid() && currentChar.Some?
      modifies this
      ensures Valid() && pos == old(pos) + 1
    {
      pos := pos + 1;
      if pos >= |text| {
        currentChar := None;
      } else {
        currentChar := Some(text[pos]);
      }
    }

    /** Moves the cursor past a run of whitespace. */
    method SkipWhitespace()
      requires Valid()
      modifies this
      ensures Valid() && pos == ScanWhile(text, old(pos), Spaces)
    {
      while currentChar.Some? && IsSpace(currentChar.value)
        invariant Valid() && old(pos) <= pos
        invariant ScanWhile(text, pos, Spaces) == ScanWhile(text, old(pos), Spaces)
        decreases |text| - pos
      {
        Advance();
      }
    }

    /** Scans a run of digits and dots and converts it. */
    method Number() returns (r: Result<Number>)
      requires Valid()
      modifies this
      ensures Valid() && pos == ScanWhile(text, old(pos), NumberChars)
      ensures forall i | old(pos) <= i < pos :: IsNumberChar(text[i])
      ensures r == ParseNumber(text[old(pos)..pos])
    {
      var result := "";
      while currentChar.Some? && IsNumberChar(currentChar.value)
        invariant Valid() && old(pos) <= pos
        invariant result == text[old(pos)..pos]
        invariant forall i | old(pos) <= i < pos :: IsNumberChar(text[i])
        invariant ScanWhile(text, pos, NumberChars) == ScanWhile(text, old(pos), NumberChars)
        decreases |text| - pos
      {
        result := result + [currentChar.value];
        Advance();
      }
      r := ParseNumber(result);
    }

    /** Scans a run of letters, digits and underscores. */
    method Identifier() returns (name: string)
      requires Valid()
      modifies this
      ensures Valid() && pos == ScanWhile(text, old(pos), IdentChars)
      ensures name == text[old(pos)..pos]
    {
      name := "";
      while currentChar.Some? && IsIdentChar(currentChar.value)
        invariant Valid() && old(pos) <= pos
        invariant name == text[old(pos)..pos]
        invariant ScanWhile(text, pos, IdentChars) == ScanWhile(text, old(pos), IdentChars)
        decreases |text| - pos
      {
        name := name + [currentChar.value];
        Advance();
      }
    }

    /** Returns the next token and leaves the cursor just after it, as
        NextToken says; on an error the cursor stays on the offending
        character. */
    method GetNextToken() returns (r: Result<Token>)
      requires Valid()
      modifies this
      ensures Valid()
      ensures match NextToken(text, old(pos))
              case Ok(l) => r == Ok(l.tok) && pos == l.next
              case Err(e) => r == Err(e) && (e.InvalidCharacter? ==> pos == e.pos)
    {
      while currentChar.Some?
        invariant Valid()
        invariant NextToken(text, pos) == NextToken(text, old(pos))
        decreases |text| - pos
      {
        var c := currentChar.value;
        if IsSpace(c) {
          SkipWhitespace();
          continue;
        }
        if IsDigit(c) {
          var n :- Number();
          return Ok(Token(NUMBER, Numeric(n)));
        }
        if IsAlpha(c) || c == '_' {
          var name := Identifier();
          return Ok(Token(IDENTIFIER, Text(name)));
        }
        if c == '+' {
          Advance();
          return Ok(Sym(PLUS));
        }
        if c == '-' {
          Advance();
          return Ok(Sym(MINUS));
        }
        if c == '*' {
          Advance();
          if currentChar == Some('*') {
            Advance();
            return Ok(Sym(POWER));
          }
          return Ok(Sym(MULTIPLY));
        }
        if c == '/' {
          Advance();
          return Ok(Sym(DIVIDE));
        }
        if c == '=' {
          Advance();
          return Ok(Sym(ASSIGN));
        }
        if c == '(' {
          Advance();
          return Ok(Sym(LPAREN));
        }
        if c == ')' {
          Advance();
          return Ok(Sym(RPAREN));
        }
        return Err(InvalidCharacter(pos));
      }
      return Ok(Sym(EOF));
    }
  }
}
