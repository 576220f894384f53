/**
 * The scanner: a single left-to-right pass over the source with a start and
 * a current cursor, a line counter and a token buffer.
 *
 * The first half gives the meaning of one scanning step and of a whole scan
 * as functions of the source text and a position; the `Scanner` class then
 * performs the scan in place, step by step, and each of its methods is proved
 * to do what those functions say.
 */
module Lexer {
  import opened Wrappers
  import opened Tokens

  // ---------------------------------------------------------------------
  // Character classes (ASCII)
  // ---------------------------------------------------------------------

  predicate IsDigit(c: char) { '0' <= c <= '9' }

  predicate IsLetter(c: char) { 'a' <= c <= 'z' || 'A' <= c <= 'Z' }

  /** Characters that continue an identifier or keyword. */
  predicate IsIdentifierCharacter(c: char) { IsDigit(c) || IsLetter(c) || c == '_' }

  // ---------------------------------------------------------------------
  // Line counting
  // ---------------------------------------------------------------------

  /** The newlines the cursor has landed on once it stands at `k`: those at
      positions 1 through `k` that lie before the end. Position 0 is never
      landed on, because the cursor starts there. */
  function NewlinesUpTo(src: seq<char>, k: nat): nat
  {
    if k == 0 then 0
    else NewlinesUpTo(src, k - 1) + (if k < |src| && src[k] == '\n' then 1 else 0)
  }

  /** The value of the line counter when the cursor stands at `k`. */
  function LineAt(src: seq<char>, k: nat): int
  {
    1 + NewlinesUpTo(src, k)
  }

  // ---------------------------------------------------------------------
  // Where each kind of lexeme ends
  // ---------------------------------------------------------------------

  /** The end of the run of digits that starts at `p`. */
  function DigitsEnd(src: seq<char>, p: nat): (q: nat)
    requires p <= |src|
    ensures p <= q <= |src|
    ensures forall i :: p <= i < q ==> IsDigit(src[i])
    ensures q < |src| ==> !IsDigit(src[q])
    decreases |src| - p
  {
    if p < |src| && IsDigit(src[p]) then DigitsEnd(src, p + 1) else p
  }

  /** The end of a number whose digits continue at `p`: the digits, then a
      `.` only if a digit follows it, then the fraction digits. What is
      taken is digits with at most one `.`, and that `.` has a digit after
      it; what follows is no digit, nor a `.` and a digit after a part
      without one. */
  function NumberEnd(src: seq<char>, p: nat): (q: nat)
    requires p <= |src|
    ensures p <= q <= |src|
    ensures forall i :: p <= i < q && !IsDigit(src[i]) ==> src[i] == '.' && i + 1 < q && IsDigit(src[i + 1])
    ensures forall i, j :: p <= i < j < q ==> IsDigit(src[i]) || IsDigit(src[j])
    ensures q < |src| ==> !IsDigit(src[q])
    ensures (forall i :: p <= i < q ==> IsDigit(src[i])) ==>
      !(q + 1 < |src| && src[q] == '.' && IsDigit(src[q + 1]))
  {
    var a := DigitsEnd(src, p);
    if a < |src| && src[a] == '.' && a + 1 < |src| && IsDigit(src[a + 1])
    then DigitsEnd(src, a + 1)
    else a
  }

  /** The end of the run of identifier characters that starts at `p`. */
  function IdentifierEnd(src: seq<char>, p: nat): (q: nat)
    requires p <= |src|
    ensures p <= q <= |src|
    ensures forall i :: p <= i < q ==> IsIdentifierCharacter(src[i])
    ensures q < |src| ==> !IsIdentifierCharacter(src[q])
    decreases |src| - p
  {
    if p < |src| && IsIdentifierCharacter(src[p]) then IdentifierEnd(src, p + 1) else p
  }

  /** The first position at or after `p` holding `c`, or the end of the
      source when there is none: where a scan that advances until it stands
      on `c` or reaches the end stops. */
  function FirstFrom(src: seq<char>, p: nat, c: char): (q: nat)
    requires p <= |src|
    ensures p <= q <= |src|
    ensures forall i :: p <= i < q ==> src[i] != c
    ensures q < |src| ==> src[q] == c
    decreases |src| - p
  {
    if p == |src| || src[p] == c then p else FirstFrom(src, p + 1, c)
  }

  /** The position of the closing quote of a string whose body continues at
      `p`, or the end of the source when there is none. */
  function StringEnd(src: seq<char>, p: nat): nat
    requires p <= |src|
  {
    FirstFrom(src, p, '"')
  }

  /** Where a `//` comment stops: the cursor is at `p`, having just advanced,
      and keeps advancing until it stands on a newline or at the end. */
  function LineCommentEnd(src: seq<char>, p: nat): nat
    requires p <= |src|
  {
    FirstFrom(src, p, '\n')
  }

  /** A block comment stops with the cursor at `i`: a star is under it or a slash follows it. */
  predicate BlockCommentStops(src: seq<char>, i: nat)
    requires i < |src|
  {
    src[i] == '*' || (i + 1 < |src| && src[i + 1] == '/')
  }

  /** Where a block comment stops: the cursor is at `p`, having just advanced,
      and keeps advancing while the current character is not `*`, the next
      one is not `/`, and the end is not reached. Looking at the next
      character with the cursor at the end is a trap (None). */
  function BlockCommentEnd(src: seq<char>, p: nat): (q: Option<nat>)
    requires p <= |src|
    ensures q.Some? ==> p <= q.value < |src| && BlockCommentStops(src, q.value)
    ensures q.Some? ==> forall i :: p <= i < q.value ==> !BlockCommentStops(src, i)
    ensures q.None? ==> forall i :: p <= i < |src| ==> !BlockCommentStops(src, i)
    decreases |src| - p
  {
    if p < |src| && src[p] == '*' then Some(p)
    else if p == |src| then None
    else if p + 1 < |src| && src[p + 1] == '/' then Some(p)
    else BlockCommentEnd(src, p + 1)
  }

  // ---------------------------------------------------------------------
  // Number values
  // ---------------------------------------------------------------------

  function Pow10(n: nat): (r: nat)
    ensures r >= 1
  {
    if n == 0 then 1 else 10 * Pow10(n - 1)
  }

  /** The value of a string of decimal digits, most significant first. */
  function DigitsValue(ds: seq<char>): nat
  {
    if ds == [] then 0
    else
      var d := ds[|ds| - 1] as int - '0' as int;
      DigitsValue(ds[..|ds| - 1]) * 10 + (if 0 <= d then d else 0)
  }

  /** The value of the digits after a decimal point. */
  function FractionValue(ds: seq<char>): real
  {
    DigitsValue(ds) as real / Pow10(|ds|) as real
  }

  /** `Double(numberString)`, exactly: the integer digits, plus the fraction
      digits when the text has a `.`. */
  function DecimalValue(text: seq<char>): real
  {
    var d := DigitsEnd(text, 0);
    if d < |text| then DigitsValue(text[..d]) as real + FractionValue(text[d + 1..])
    else DigitsValue(text) as real
  }

  // ---------------------------------------------------------------------
  // One scanning step
  // ---------------------------------------------------------------------

  /** What one call of `scanToken` does, started with the cursor at `start`. */
  datatype Step =
    | Produce(end: nat, kind: TokenType, literal: Option<TokenLiteral>)  // one token, start..end
    | Skip(end: nat)                                                     // whitespace or a comment
    | Unexpected(end: nat)                                               // an error, no token
    | Unterminated(end: nat)                                             // an error and a `"` token
    | Trap                                                               // the program traps

  /** `=`, `!`, `<` or `>` just consumed; a following `=` makes it two characters long. */
  function OneOrTwo(src: seq<char>, cur: nat, single: TokenType, double: TokenType): (s: Step)
    requires 0 < cur <= |src|
    ensures s.Produce? && cur <= s.end <= |src|
  {
    if cur < |src| && src[cur] == '=' then Produce(cur + 1, double, None)
    else Produce(cur, single, None)
  }

  /** The kind of an identifier-like lexeme: the kind with that raw value if
      there is one, an identifier otherwise. */
  function KeywordOrIdentifier(text: string): TokenType
  {
    match FromRawValue(text)
    case Some(k) => k
    case None => Identifier
  }

  function UnexpectedMessage(c: char): string
  {
    "Unexpected character: '" + [c] + "'"
  }

  const UnterminatedMessage: string := "Unterminated string."

  /** The step `scanToken` takes from `start`. */
  function StepAt(src: seq<char>, start: nat): (s: Step)
    requires start < |src|
    ensures !s.Trap? ==> start < s.end <= |src|
  {
    var c := src[start];
    var cur := start + 1;
    if c == '(' then Produce(cur, LeftParenthesis, None)
    else if c == ')' then Produce(cur, RightParenthesis, None)
    else if c == '{' then Produce(cur, LeftBrace, None)
    else if c == '}' then Produce(cur, RightBrace, None)
    else if c == ',' then Produce(cur, Comma, None)
    else if c == '.' then Produce(cur, Dot, None)
    else if c == '-' then Produce(cur, Minus, None)
    else if c == '+' then Produce(cur, Plus, None)
    else if c == ';' then Produce(cur, Semicolon, None)
    else if c == '*' then Produce(cur, Star, None)
    else if c == '=' then OneOrTwo(src, cur, Equal, EqualEqual)
    else if c == '!' then OneOrTwo(src, cur, Bang, BangEqual)
    else if c == '<' then OneOrTwo(src, cur, Less, LessEqual)
    else if c == '>' then OneOrTwo(src, cur, Greater, GreaterEqual)
    else if c == '/' then
      if cur < |src| && src[cur] == '/' then Skip(LineCommentEnd(src, cur + 1))
      else if cur < |src| && src[cur] == '*' then
        match BlockCommentEnd(src, cur + 1)
        case None => Trap
        case Some(e) => Skip(e)
      else Produce(cur, Slash, None)
    else if c == '"' then
      var q := StringEnd(src, cur);
      if q == |src| then Unterminated(q)
      else Produce(q + 1, String, Some(StringLiteral(src[start + 1..q])))
    else if IsDigit(c) then
      var e := NumberEnd(src, cur);
      Produce(e, Number, Some(NumberLiteral(DecimalValue(src[start..e]))))
    else if IsLetter(c) || c == '_' then
      var e := IdentifierEnd(src, cur);
      Produce(e, KeywordOrIdentifier(src[start..e]), None)
    else if c == ' ' || c == '\r' || c == '\t' then Skip(cur)
    else Unexpected(cur)
  }

  /** The tokens a step appends: its lexeme is the text it consumed and its
      line the line counter once the cursor stands at its end. */
  function StepTokens(src: seq<char>, start: nat, s: Step): seq<Token>
    requires !s.Trap? && start <= s.end <= |src|
  {
    match s
    case Produce(e, k, l) => [Token(k, src[start..e], l, LineAt(src, e))]
    case Unterminated(e) => [Token(DoubleQuote, src[start..e], None, LineAt(src, e))]
    case _ => []
  }

  /** The diagnostics a step reports. */
  function StepReports(src: seq<char>, start: nat, s: Step): seq<Diagnostic>
    requires !s.Trap? && start < s.end <= |src|
  {
    match s
    case Unexpected(e) => [LineError(LineAt(src, e), UnexpectedMessage(src[start]))]
    case Unterminated(e) => [LineError(LineAt(src, e), UnterminatedMessage)]
    case _ => []
  }

  /** The final token: an empty `eof` on the final line. */
  function EofToken(src: seq<char>): Token
  {
    Token(Eof, "", None, LineAt(src, |src|))
  }

  // ---------------------------------------------------------------------
  // A whole scan
  // ---------------------------------------------------------------------

  /** The tokens scanned from position `i` to the end, the final `eof`
      included; None when the scan traps. */
  function TokensFrom(src: seq<char>, i: nat): Option<seq<Token>>
    requires i <= |src|
    decreases |src| - i
  {
    if i == |src| then Some([EofToken(src)])
    else
      var s := StepAt(src, i);
      if s.Trap? then None
      else match TokensFrom(src, s.end)
        case None => None
        case Some(rest) => Some(StepTokens(src, i, s) + rest)
  }

  /** The diagnostics reported while scanning from position `i`. */
  function ReportsFrom(src: seq<char>, i: nat): seq<Diagnostic>
    requires i <= |src|
    decreases |src| - i
  {
    if i == |src| then []
    else
      var s := StepAt(src, i);
      if s.Trap? then [] else StepReports(src, i, s) + ReportsFrom(src, s.end)
  }

  /** `scanTokens` on a fresh scanner. */
  function Scan(src: seq<char>): Option<seq<Token>>
  {
    TokensFrom(src, 0)
  }

  /** `prefix` followed by the scanned tokens, keeping a trap a trap. */
  function Prepend(prefix: seq<Token>, scanned: Option<seq<Token>>): Option<seq<Token>>
  {
    match scanned
    case None => None
    case Some(ts) => Some(prefix + ts)
  }

  /** A scan from `i` that does not trap at once: the step's tokens, then the rest. */
  lemma {:induction false} TokensFromStep(src: seq<char>, i: nat, done: seq<Token>)
    requires i < |src| && !StepAt(src, i).Trap?
    ensures var s := StepAt(src, i);
      Prepend(done + StepTokens(src, i, s), TokensFrom(src, s.end)) == Prepend(done, TokensFrom(src, i))
  {
    var s := StepAt(src, i);
    var here := StepTokens(src, i, s);
    assert TokensFrom(src, i) == Prepend(here, TokensFrom(src, s.end));
    match TokensFrom(src, s.end)
    case None =>
    case Some(rest) =>
      assert (done + here) + rest == done + (here + rest);
  }

  /** The same for the diagnostics. */
  lemma {:induction false} ReportsFromStep(src: seq<char>, i: nat, reported: seq<Diagnostic>)
    requires i < |src| && !StepAt(src, i).Trap?
    ensures var s := StepAt(src, i);
      (reported + StepReports(src, i, s)) + ReportsFrom(src, s.end) == reported + ReportsFrom(src, i)
  {
    var s := StepAt(src, i);
    assert ReportsFrom(src, i) == StepReports(src, i, s) + ReportsFrom(src, s.end);
  }

  // ---------------------------------------------------------------------
  // The scanner object
  // ---------------------------------------------------------------------

  class Scanner {
    const source: seq<char>
    var tokens: seq<Token>
    var startIndex: nat
    var currentIndex: nat
    var line: int
    /** Everything reported through `Lox.error` so far. */
    ghost var diagnostics: seq<Diagnostic>

    /** The cursors lie within the source and the line counter has counted
        exactly the newlines the cursor has landed on. */
    ghost predicate Valid()
      reads this
    {
      startIndex <= currentIndex <= |source| && line == LineAt(source, currentIndex)
    }

    /** A new scanner; the initialiser sets the cursor without counting. */
    constructor (source: seq<char>)
      ensures this.source == source && tokens == [] && diagnostics == []
      ensures startIndex == 0 && currentIndex == 0 && line == 1
      ensures Valid()
    {
      this.source := source;
      tokens := [];
      startIndex := 0;
      currentIndex := 0;
      line := 1;
      diagnostics := [];
    }

    predicate ReachedEnd()
      reads this
    {
      currentIndex >= |source|
    }

    /** The character under the cursor, `'\0'` at the end. */
    function LatestCharacter(): (c: char)
      reads this
    {
      if ReachedEnd() then '\0' else source[currentIndex]
    }

    /** The character after the cursor, `'\0'` if that is the end. Stepping
        past the end index traps, hence the precondition. */
    function UpcomingCharacter(): (c: char)
      reads this
      requires currentIndex < |source|
    {
      if currentIndex + 1 < |source| then source[currentIndex + 1] else '\0'
    }

    /** The `currentIndex` setter: a newline is counted when the cursor lands on it. */
    method SetCurrentIndex(newValue: nat)
      requires newValue <= |source|
      modifies this`currentIndex, this`line
      ensures currentIndex == newValue
      ensures line == old(line) + (if newValue < |source| && source[newValue] == '\n' then 1 else 0)
    {
      if newValue < |source| && source[newValue] == '\n' {
        line := line + 1;
      }
      currentIndex := newValue;
    }

    /** Moves the cursor one character on and returns the character it lands on. */
    method Advance() returns (c: char)
      requires Valid() && currentIndex < |source|
      modifies this`currentIndex, this`line
      ensures Valid() && currentIndex == old(currentIndex) + 1
      ensures c == LatestCharacter()
    {
      SetCurrentIndex(currentIndex + 1);
      c := if currentIndex < |source| then source[currentIndex] else '\0';
    }

    /** Appends a token whose lexeme is the text between the two cursors. */
    method AddToken(kind: TokenType, literal: Option<TokenLiteral>)
      requires Valid()
      modifies this`tokens
      ensures tokens == old(tokens) + [Token(kind, source[startIndex..currentIndex], literal, line)]
    {
      var text := source[startIndex..currentIndex];
      tokens := tokens + [Token(kind, text, literal, line)];
    }

    /** Consumes the current character when it is `expected`. */
    method MatchThenAdvance(expected: char) returns (matched: bool)
      requires Valid()
      modifies this`currentIndex, this`line
      ensures Valid()
      ensures matched == (old(currentIndex) < |source| && source[old(currentIndex)] == expected)
      ensures currentIndex == old(currentIndex) + (if matched then 1 else 0)
    {
      if ReachedEnd() {
        return false;
      }
      matched := source[currentIndex] == expected;
      if matched {
        var _ := Advance();
      }
    }

    /** Scans the rest of a string literal, one character per recursive call. */
    method ScanString()
      requires Valid() && startIndex < currentIndex
      modifies this`currentIndex, this`line, this`tokens, this`diagnostics
      decreases |source| - currentIndex
      ensures Valid() && startIndex == old(startIndex)
      ensures var q := StringEnd(source, old(currentIndex));
        if q == |source| then
          && currentIndex == q
          && tokens == old(tokens) + [Token(DoubleQuote, source[startIndex..q], None, LineAt(source, q))]
          && diagnostics == old(diagnostics) + [LineError(LineAt(source, q), UnterminatedMessage)]
        else
          && currentIndex == q + 1
          && tokens == old(tokens) + [Token(String, source[startIndex..q + 1],
                                            Some(StringLiteral(source[startIndex + 1..q])), LineAt(source, q + 1))]
          && diagnostics == old(diagnostics)
    {
      if ReachedEnd() {
        diagnostics := diagnostics + [LineError(line, UnterminatedMessage)];
        AddToken(DoubleQuote, None);
        return;
      }
      if LatestCharacter() == '"' {
        var _ := Advance();
        var value := source[startIndex + 1..currentIndex - 1];
        AddToken(String, Some(StringLiteral(value)));
        return;
      }
      var _ := Advance();
      ScanString();
    }

    /** Moves the cursor over a run of digits. */
    method SkipDigits()
      requires Valid()
      modifies this`currentIndex, this`line
      ensures Valid() && currentIndex == DigitsEnd(source, old(currentIndex))
    {
      while IsDigit(LatestCharacter())
        invariant Valid() && old(currentIndex) <= currentIndex
        invariant DigitsEnd(source, currentIndex) == DigitsEnd(source, old(currentIndex))
        decreases |source| - currentIndex
      {
        var _ := Advance();
      }
    }

    /** Scans a number literal whose first digit is already consumed. */
    method ScanNumber()
      requires Valid() && startIndex < currentIndex
      modifies this`currentIndex, this`line, this`tokens
      ensures Valid() && startIndex == old(startIndex)
      ensures currentIndex == NumberEnd(source, old(currentIndex))
      ensures tokens == old(tokens) + [Token(Number, source[startIndex..currentIndex],
                                             Some(NumberLiteral(DecimalValue(source[startIndex..currentIndex]))),
                                             LineAt(source, currentIndex))]
    {
      SkipDigits();
      if LatestCharacter() == '.' && IsDigit(UpcomingCharacter()) {
        var _ := Advance();
      }
      SkipDigits();
      var numberString := source[startIndex..currentIndex];
      AddToken(Number, Some(NumberLiteral(DecimalValue(numberString))));
    }

    /** Scans an identifier or keyword whose first character is already consumed. */
    method ScanKeywordAndIdentifier()
      requires Valid() && startIndex < currentIndex
      modifies this`currentIndex, this`line, this`tokens
      ensures Valid() && startIndex == old(startIndex)
      ensures currentIndex == IdentifierEnd(source, old(currentIndex))
      ensures tokens == old(tokens) + [Token(KeywordOrIdentifier(source[startIndex..currentIndex]),
                                             source[startIndex..currentIndex], None, LineAt(source, currentIndex))]
    {
      while IsIdentifierCharacter(LatestCharacter())
        invariant Valid() && old(currentIndex) <= currentIndex && tokens == old(tokens)
        invariant IdentifierEnd(source, currentIndex) == IdentifierEnd(source, old(currentIndex))
        decreases |source| - currentIndex
      {
        var _ := Advance();
      }
      var text := source[startIndex..currentIndex];
      var kind := KeywordOrIdentifier(text);
      AddToken(kind, None);
    }

    /** Skips a line comment: advances at least once, then until a newline or the end. */
    method SkipLineComment()
      requires Valid() && currentIndex < |source|
      modifies this`currentIndex, this`line
      ensures Valid() && currentIndex == LineCommentEnd(source, old(currentIndex) + 1)
    {
      var _ := Advance();
      while LatestCharacter() != '\n' && !ReachedEnd()
        invariant Valid() && old(currentIndex) < currentIndex
        invariant LineCommentEnd(source, currentIndex) == LineCommentEnd(source, old(currentIndex) + 1)
        decreases |source| - currentIndex
      {
        var _ := Advance();
      }
    }

    /** Skips a block comment: advances at least once, then until the current
        character is a star, the next one is a slash, or the end; false when the loop asks for the character after the end, where the
        program traps. */
    method SkipBlockComment() returns (ok: bool)
      requires Valid() && currentIndex < |source|
      modifies this`currentIndex, this`line
      ensures Valid()
      ensures var e := BlockCommentEnd(source, old(currentIndex) + 1);
        ok == e.Some? && (ok ==> currentIndex == e.value)
    {
      var _ := Advance();
      while LatestCharacter() != '*'
        invariant Valid() && old(currentIndex) < currentIndex
        invariant BlockCommentEnd(source, currentIndex) == BlockCommentEnd(source, old(currentIndex) + 1)
        decreases |source| - currentIndex
      {
        if ReachedEnd() {
          return false;  // upcomingCharacter steps past the end index
        }
        if UpcomingCharacter() == '/' {
          break;
        }
        var _ := Advance();
      }
      ok := true;
    }

    /** The punctuation and operator cases of `scanToken`: one character,
        or two when `=` follows `=`, `!`, `<` or `>`. */
    method ScanOperator(targetCharacter: char)
      requires Valid() && startIndex < |source| && currentIndex == startIndex + 1
      requires targetCharacter == source[startIndex] && targetCharacter in "(){},.-+;*=!<>"
      modifies this`currentIndex, this`line, this`tokens
      ensures Valid() && startIndex == old(startIndex)
      ensures var s := StepAt(source, startIndex);
        && s.Produce?
        && currentIndex == s.end
        && tokens == old(tokens) + StepTokens(source, startIndex, s)
    {
      if targetCharacter == '(' {
        AddToken(LeftParenthesis, None);
      } else if targetCharacter == ')' {
        AddToken(RightParenthesis, None);
      } else if targetCharacter == '{' {
        AddToken(LeftBrace, None);
      } else if targetCharacter == '}' {
        AddToken(RightBrace, None);
      } else if targetCharacter == ',' {
        AddToken(Comma, None);
      } else if targetCharacter == '.' {
        AddToken(Dot, None);
      } else if targetCharacter == '-' {
        AddToken(Minus, None);
      } else if targetCharacter == '+' {
        AddToken(Plus, None);
      } else if targetCharacter == ';' {
        AddToken(Semicolon, None);
      } else if targetCharacter == '*' {
        AddToken(Star, None);
      } else if targetCharacter == '=' {
        var m := MatchThenAdvance('=');
        if m { AddToken(EqualEqual, None); } else { AddToken(Equal, None); }
      } else if targetCharacter == '!' {
        var m := MatchThenAdvance('=');
        if m { AddToken(BangEqual, None); } else { AddToken(Bang, None); }
      } else if targetCharacter == '<' {
        var m := MatchThenAdvance('=');
        if m { AddToken(LessEqual, None); } else { AddToken(Less, None); }
      } else {
        var m := MatchThenAdvance('=');
        if m { AddToken(GreaterEqual, None); } else { AddToken(Greater, None); }
      }
    }

    /** Scans one token starting at the cursor; false when the scan traps. */
    method ScanToken() returns (ok: bool)
      requires Valid() && startIndex == currentIndex < |source|
      modifies this`currentIndex, this`line, this`tokens, this`diagnostics
      ensures Valid() && startIndex == old(startIndex)
      ensures var s := StepAt(source, old(currentIndex));
        && ok == !s.Trap?
        && (ok ==> && currentIndex == s.end
                   && tokens == old(tokens) + StepTokens(source, old(currentIndex), s)
                   && diagnostics == old(diagnostics) + StepReports(source, old(currentIndex), s))
        && (!ok ==> tokens == old(tokens) && diagnostics == old(diagnostics))
    {
      var targetCharacter := LatestCharacter();
      var _ := Advance();
      ok := true;
      if targetCharacter in "(){},.-+;*=!<>" {
        ScanOperator(targetCharacter);
      } else if targetCharacter == '/' {
        var latest := LatestCharacter();
        if latest == '/' {
          SkipLineComment();
        } else if latest == '*' {
          ok := SkipBlockComment();
        } else {
          AddToken(Slash, None);
        }
      } else if targetCharacter == '"' {
        ScanString();
      } else if IsDigit(targetCharacter) {
        ScanNumber();
      } else if IsLetter(targetCharacter) || targetCharacter == '_' {
        ScanKeywordAndIdentifier();
      } else if targetCharacter == ' ' || targetCharacter == '\r' || targetCharacter == '\t' {
        // whitespace is ignored
      } else {
        diagnostics := diagnostics + [LineError(line, UnexpectedMessage(targetCharacter))];
      }
    }

    /** Scans from the cursor to the end and appends the final `eof`; None
        when the scan traps. */
    method ScanTokens() returns (result: Option<seq<Token>>)
      requires Valid()
      modifies this`currentIndex, this`line, this`tokens, this`diagnostics, this`startIndex
      ensures result == Prepend(old(tokens), TokensFrom(source, old(currentIndex)))
      ensures result.Some? ==> tokens == result.value
      ensures diagnostics == old(diagnostics) + ReportsFrom(source, old(currentIndex))
    {
      while !ReachedEnd()
        invariant Valid()
        invariant Prepend(tokens, TokensFrom(source, currentIndex))
               == Prepend(old(tokens), TokensFrom(source, old(currentIndex)))
        invariant diagnostics + ReportsFrom(source, currentIndex)
               == old(diagnostics) + ReportsFrom(source, old(currentIndex))
        decreases |source| - currentIndex
      {
        startIndex := currentIndex;
        ghost var before, reportedBefore := tokens, diagnostics;
        var ok := ScanToken();
        if !ok {
          return None;
        }
        TokensFromStep(source, startIndex, before);
        ReportsFromStep(source, startIndex, reportedBefore);
      }
      var finalToken := Token(Eof, "", None, line);
      tokens := tokens + [finalToken];
      result := Some(tokens);
    }
  }
}
