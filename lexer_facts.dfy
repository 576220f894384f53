/**
 * Properties of the scanner: the shape of a whole scan (final `eof`, line
 * numbers, lexemes as slices), what each kind of step produces, the value
 * of number literals, and the scanner's own test cases.
 */
module LexerFacts {
  import opened Wrappers
  import opened Tokens
  import opened Lexer

  // ---------------------------------------------------------------------
  // The whole scan
  // ---------------------------------------------------------------------

  /** A scan that does not trap ends with the `eof` token on the final line. */
  lemma {:induction false} ScanEndsWithEof(src: seq<char>, i: nat)
    requires i <= |src|
    ensures TokensFrom(src, i).Some? ==>
      var ts := TokensFrom(src, i).value;
      |ts| >= 1 && ts[|ts| - 1] == EofToken(src)
    decreases |src| - i
  {
    if i < |src| {
      var s := StepAt(src, i);
      if !s.Trap? {
        ScanEndsWithEof(src, s.end);
      }
    }
  }

  /** The empty source scans to exactly one `eof` on line 1. */
  lemma EmptySourceScan()
    ensures Scan("") == Some([Token(Eof, "", None, 1)])
  {
  }

  lemma {:induction false} NewlinesMonotone(src: seq<char>, j: nat, k: nat)
    requires j <= k
    ensures NewlinesUpTo(src, j) <= NewlinesUpTo(src, k)
    decreases k - j
  {
    if j < k {
      NewlinesMonotone(src, j, k - 1);
    }
  }

  /** The line counter counts the newlines at positions 1 through `k`. */
  lemma {:induction false} NewlinesCounted(src: seq<char>, k: nat)
    requires k < |src|
    ensures NewlinesUpTo(src, k) == multiset(src[1..k + 1])['\n']
  {
    if k > 0 {
      NewlinesCounted(src, k - 1);
      assert src[1..k + 1] == src[1..k] + [src[k]];
    }
  }

  /** The final line is one more than the number of newlines after the first
      character; a newline in the first position is never counted. */
  lemma {:induction false} FinalLine(src: seq<char>)
    requires |src| > 0
    ensures LineAt(src, |src|) == 1 + multiset(src[1..])['\n']
  {
    NewlinesCounted(src, |src| - 1);
    assert src[1..|src|] == src[1..];
  }

  /** Tokens carry non-decreasing line numbers, all between the line where the
      scan started and the final line. */
  lemma {:induction false} ScanLinesOrdered(src: seq<char>, i: nat)
    requires i <= |src|
    ensures TokensFrom(src, i).Some? ==>
      var ts := TokensFrom(src, i).value;
      && (forall j :: 0 <= j < |ts| ==> LineAt(src, i) <= ts[j].line <= LineAt(src, |src|))
      && (forall j, k :: 0 <= j < k < |ts| ==> ts[j].line <= ts[k].line)
    decreases |src| - i
  {
    if i < |src| {
      var s := StepAt(src, i);
      if !s.Trap? && TokensFrom(src, s.end).Some? {
        var e := s.end;
        ScanLinesOrdered(src, e);
        assert TokensFrom(src, e).Some?;
        var rest := TokensFrom(src, e).value;
        NewlinesMonotone(src, i, e);
        NewlinesMonotone(src, e, |src|);
        var here := StepTokens(src, i, s);
        assert forall t :: t in here ==> t.line == LineAt(src, e);
        assert TokensFrom(src, i).value == here + rest;
        LinesPrepend(here, rest, LineAt(src, i), LineAt(src, e), LineAt(src, |src|));
      }
    }
  }

  lemma {:induction false} LinesPrepend(here: seq<Token>, rest: seq<Token>, low: int, mid: int, high: int)
    requires low <= mid <= high
    requires forall t :: t in here ==> t.line == mid
    requires forall j :: 0 <= j < |rest| ==> mid <= rest[j].line <= high
    requires forall j, k :: 0 <= j < k < |rest| ==> rest[j].line <= rest[k].line
    ensures forall j :: 0 <= j < |here + rest| ==> low <= (here + rest)[j].line <= high
    ensures forall j, k :: 0 <= j < k < |here + rest| ==> (here + rest)[j].line <= (here + rest)[k].line
  {
    var ts := here + rest;
    forall j | 0 <= j < |ts|
      ensures mid <= ts[j].line <= high
    {
      if j < |here| {
        assert ts[j] in here;
      } else {
        assert ts[j] == rest[j - |here|];
      }
    }
    forall j, k | 0 <= j < k < |ts|
      ensures ts[j].line <= ts[k].line
    {
      if j < |here| {
        assert ts[j] in here;
      } else {
        assert ts[j] == rest[j - |here|] && ts[k] == rest[k - |here|];
      }
    }
  }

  /** Where the tokens of a scan come from: the source positions each
      token-producing step consumed, in order. */
  ghost function TokenSpans(src: seq<char>, i: nat): seq<(nat, nat)>
    requires i <= |src|
    decreases |src| - i
  {
    if i == |src| then []
    else
      var s := StepAt(src, i);
      if s.Trap? then []
      else if s.Produce? || s.Unterminated? then [(i, s.end)] + TokenSpans(src, s.end)
      else TokenSpans(src, s.end)
  }

  /** The tokens `ts` but the last have the lexemes cut from `src` at `spans`:
      non-empty slices at or after `i`, in order and without overlap. */
  ghost predicate Sliced(src: seq<char>, i: nat, ts: seq<Token>, spans: seq<(nat, nat)>)
  {
    && |spans| == |ts| - 1
    && (forall j :: 0 <= j < |spans| ==>
          i <= spans[j].0 < spans[j].1 <= |src| && ts[j].lexeme == src[spans[j].0..spans[j].1])
    && (forall j :: 0 <= j < |spans| - 1 ==> spans[j].1 <= spans[j + 1].0)
  }

  /** Every token but the final `eof` has as lexeme a non-empty slice of the
      source, and the slices do not overlap and come in source order. */
  lemma {:induction false} LexemesAreSlices(src: seq<char>, i: nat)
    requires i <= |src|
    ensures TokensFrom(src, i).Some? ==> Sliced(src, i, TokensFrom(src, i).value, TokenSpans(src, i))
    decreases |src| - i
  {
    if i < |src| {
      var s := StepAt(src, i);
      if !s.Trap? && TokensFrom(src, s.end).Some? {
        LexemesAreSlices(src, s.end);
        var rest := TokensFrom(src, s.end).value;
        assert TokensFrom(src, i).value == StepTokens(src, i, s) + rest;
        if s.Produce? || s.Unterminated? {
          SlicesPrepend(src, i, s.end, StepTokens(src, i, s)[0], rest, TokenSpans(src, s.end));
        } else {
          SlicesWiden(src, i, s.end, rest, TokenSpans(src, s.end));
        }
      }
    }
  }

  lemma {:induction false} SlicesPrepend(src: seq<char>, i: nat, e: nat, t: Token, rest: seq<Token>, spans: seq<(nat, nat)>)
    requires i < e <= |src| && t.lexeme == src[i..e] && Sliced(src, e, rest, spans)
    ensures Sliced(src, i, [t] + rest, [(i, e)] + spans)
  {
    var ts, sp := [t] + rest, [(i, e)] + spans;
    forall j | 0 <= j < |sp|
      ensures i <= sp[j].0 < sp[j].1 <= |src| && ts[j].lexeme == src[sp[j].0..sp[j].1]
    {
      if j > 0 {
        assert sp[j] == spans[j - 1] && ts[j] == rest[j - 1];
      }
    }
    forall j | 0 <= j < |sp| - 1
      ensures sp[j].1 <= sp[j + 1].0
    {
      if j > 0 {
        assert sp[j] == spans[j - 1] && sp[j + 1] == spans[j];
      }
    }
  }

  lemma {:induction false} SlicesWiden(src: seq<char>, i: nat, e: nat, ts: seq<Token>, spans: seq<(nat, nat)>)
    requires i <= e && Sliced(src, e, ts, spans)
    ensures Sliced(src, i, ts, spans)
  {
  }

  /** Every scanned token is well formed (a string literal on `string`
      tokens, a number literal on `number` tokens, no literal elsewhere),
      except the words `string` and `number` themselves, which look up as
      those kinds without a literal. */
  lemma {:induction false} ScannedTokensWellFormed(src: seq<char>, i: nat)
    requires i <= |src|
    ensures TokensFrom(src, i).Some? ==>
      forall t :: t in TokensFrom(src, i).value ==>
        WellFormed(t) || t.lexeme == "string" || t.lexeme == "number"
    decreases |src| - i
  {
    if i < |src| {
      var s := StepAt(src, i);
      if !s.Trap? && TokensFrom(src, s.end).Some? {
        ScannedTokensWellFormed(src, s.end);
        StepWellFormed(src, i);
        assert TokensFrom(src, i).value == StepTokens(src, i, s) + TokensFrom(src, s.end).value;
      }
    }
  }

  lemma {:induction false} StepWellFormed(src: seq<char>, i: nat)
    requires i < |src| && !StepAt(src, i).Trap?
    ensures forall t :: t in StepTokens(src, i, StepAt(src, i)) ==>
      WellFormed(t) || t.lexeme == "string" || t.lexeme == "number"
  {
    var c := src[i];
    var s := StepAt(src, i);
    if IsLetter(c) || c == '_' {
      IdentifierStep(src, i);
      var text := src[i..s.end];
      if s.kind == String || s.kind == Number {
        LookupIsInverse(text, s.kind);
      }
    }
  }

  // ---------------------------------------------------------------------
  // One step, kind by kind
  // ---------------------------------------------------------------------

  /** A punctuation character is a one-character token whose lexeme is its kind's raw value. */
  lemma {:induction false} PunctuationStep(src: seq<char>, start: nat)
    requires start < |src| && src[start] in "(){},.-+;*"
    ensures var s := StepAt(src, start);
      && s.Produce? && s.end == start + 1 && s.literal.None?
      && src[start..s.end] == RawValue(s.kind)
  {
    assert src[start..start + 1] == [src[start]];
  }

  /** `=`, `!`, `<` and `>` take a following `=` when there is one (maximal
      munch); either way the lexeme is the kind's raw value. */
  lemma {:induction false} MaximalMunch(src: seq<char>, start: nat)
    requires start < |src| && src[start] in "=!<>"
    ensures var s := StepAt(src, start);
      && s.Produce? && s.literal.None?
      && src[start..s.end] == RawValue(s.kind)
      && (s.end == start + 2 <==> start + 1 < |src| && src[start + 1] == '=')
      && (s.end == start + 1 <==> !(start + 1 < |src| && src[start + 1] == '='))
  {
    assert src[start..start + 1] == [src[start]];
    if start + 1 < |src| {
      assert src[start..start + 2] == [src[start], src[start + 1]];
    }
  }

  lemma {:induction false} NoQuoteInBody(src: seq<char>, p: nat)
    requires p <= |src|
    ensures '"' !in src[p..StringEnd(src, p)]
  {
    var q := StringEnd(src, p);
    assert forall k :: 0 <= k < q - p ==> src[p..q][k] == src[p + k];
  }

  /** A terminated string is a `string` token whose lexeme is its literal
      between quotes. */
  lemma {:induction false} TerminatedStringStep(src: seq<char>, start: nat)
    requires start < |src| && src[start] == '"'
    requires StringEnd(src, start + 1) < |src|
    ensures var s := StepAt(src, start);
      var q := StringEnd(src, start + 1);
      && s.Produce? && s.kind == String && s.end == q + 1
      && s.literal == Some(StringLiteral(src[start + 1..q]))
      && '"' !in src[start + 1..q]
      && src[start..s.end] == ['"'] + src[start + 1..q] + ['"']
  {
    var q := StringEnd(src, start + 1);
    assert StepAt(src, start) == Produce(q + 1, String, Some(StringLiteral(src[start + 1..q])));
    NoQuoteInBody(src, start + 1);
    QuotedSlice(src, start, q);
  }

  lemma {:induction false} QuotedSlice(src: seq<char>, start: nat, q: nat)
    requires start < q < |src| && src[start] == '"' && src[q] == '"'
    ensures src[start..q + 1] == ['"'] + src[start + 1..q] + ['"']
  {
  }

  /** An unterminated string is a `"` token running to the end, with an
      error reported on the final line. */
  lemma {:induction false} UnterminatedStringStep(src: seq<char>, start: nat)
    requires start < |src| && src[start] == '"'
    requires StringEnd(src, start + 1) == |src|
    ensures var s := StepAt(src, start);
      && s.Unterminated? && s.end == |src|
      && StepTokens(src, start, s) == [Token(DoubleQuote, src[start..], None, LineAt(src, |src|))]
      && StepReports(src, start, s) == [LineError(LineAt(src, |src|), UnterminatedMessage)]
  {
    assert src[start..|src|] == src[start..];
  }

  predicate AllDigits(t: seq<char>)
  {
    forall i :: 0 <= i < |t| ==> IsDigit(t[i])
  }

  /** Digits, optionally followed by a `.` and more digits. */
  predicate IsNumberText(t: seq<char>)
  {
    || (|t| > 0 && AllDigits(t))
    || exists d :: 0 < d < |t| - 1 && t[d] == '.' && AllDigits(t[..d]) && AllDigits(t[d + 1..])
  }

  /** A digit starts a number token whose lexeme is the longest number text
      there, and whose literal is the lexeme's decimal value. */
  lemma {:induction false} NumberStep(src: seq<char>, start: nat)
    requires start < |src| && IsDigit(src[start])
    ensures var s := StepAt(src, start);
      && s.Produce? && s.kind == Number
      && IsNumberText(src[start..s.end])
      && s.literal == Some(NumberLiteral(DecimalValue(src[start..s.end])))
      && (forall e :: s.end < e <= |src| ==> !IsNumberText(src[start..e]))
  {
    var s := StepAt(src, start);
    var a := DigitsEnd(src, start + 1);
    if a < |src| && src[a] == '.' && a + 1 < |src| && IsDigit(src[a + 1]) {
      FractionShape(src, start, a, s.end);
    } else {
      assert AllDigits(src[start..s.end]);
    }
    forall e | s.end < e <= |src|
      ensures !IsNumberText(src[start..e])
    {
      NotLongerNumber(src, start, s.end, e);
    }
  }

  /** A number text holds at most one character that is not a digit, and that
      one is a `.` with a digit after it. */
  lemma {:induction false} NumberTextCharacters(t: seq<char>)
    requires IsNumberText(t)
    ensures forall i :: 0 <= i < |t| && !IsDigit(t[i]) ==> t[i] == '.' && i + 1 < |t| && IsDigit(t[i + 1])
    ensures forall i, j :: 0 <= i < j < |t| ==> IsDigit(t[i]) || IsDigit(t[j])
  {
    if !(|t| > 0 && AllDigits(t)) {
      var d :| 0 < d < |t| - 1 && t[d] == '.' && AllDigits(t[..d]) && AllDigits(t[d + 1..]);
      forall i | 0 <= i < |t| && i != d
        ensures IsDigit(t[i])
      {
        if i < d {
          assert t[..d][i] == t[i];
        } else {
          assert t[d + 1..][i - d - 1] == t[i];
        }
      }
      assert IsDigit(t[d + 1..][0]);
    }
  }

  /** The text from `start` to any position past the end of the number
      starting there is no number text. */
  lemma {:induction false} NotLongerNumber(src: seq<char>, start: nat, end: nat, e: nat)
    requires start < |src| && IsDigit(src[start])
    requires end == NumberEnd(src, start + 1) && end < e <= |src|
    ensures !IsNumberText(src[start..e])
  {
    var t := src[start..e];
    assert t[end - start] == src[end];
    if forall i :: start + 1 <= i < end ==> IsDigit(src[i]) {
      if src[end] == '.' && end + 1 < e && IsDigit(src[end + 1]) {
        assert false;
      }
      assert end + 1 < e ==> t[end - start + 1] == src[end + 1];
      StrayCharacter(t, end - start);
    } else {
      var i :| start + 1 <= i < end && !IsDigit(src[i]);
      assert t[i - start] == src[i];
      TwoNonDigits(t, i - start, end - start);
    }
  }

  /** A non-digit that is not a `.` with a digit after it rules out a number text. */
  lemma {:induction false} StrayCharacter(t: seq<char>, c: nat)
    requires c < |t| && !IsDigit(t[c])
    requires !(t[c] == '.' && c + 1 < |t| && IsDigit(t[c + 1]))
    ensures !IsNumberText(t)
  {
    if IsNumberText(t) {
      NumberTextCharacters(t);
      assert false;
    }
  }

  /** Two non-digits rule out a number text. */
  lemma {:induction false} TwoNonDigits(t: seq<char>, i: nat, j: nat)
    requires i < j < |t| && !IsDigit(t[i]) && !IsDigit(t[j])
    ensures !IsNumberText(t)
  {
    if IsNumberText(t) {
      NumberTextCharacters(t);
      assert false;
    }
  }

  /** Digits from `start` to `a`, a `.` at `a`, digits from `a + 1` to `e`: the shape of a number. */
  lemma {:induction false} FractionShape(src: seq<char>, start: nat, a: nat, e: nat)
    requires start < a && a + 1 < e <= |src| && src[a] == '.'
    requires forall i :: start <= i < a ==> IsDigit(src[i])
    requires forall i :: a < i < e ==> IsDigit(src[i])
    ensures IsNumberText(src[start..e])
  {
    var t := src[start..e];
    var d := a - start;
    assert t[..d] == src[start..a];
    assert t[d + 1..] == src[a + 1..e];
    assert t[d] == '.';
    assert AllDigits(t[..d]) && AllDigits(t[d + 1..]);
  }

  /** A letter or `_` starts a maximal run of identifier characters, whose
      kind is the kind with that raw value, or `identifier` when none has it. */
  lemma {:induction false} IdentifierStep(src: seq<char>, start: nat)
    requires start < |src| && (IsLetter(src[start]) || src[start] == '_')
    ensures var s := StepAt(src, start);
      var text := src[start..s.end];
      && s.Produce? && s.literal.None?
      && (forall i :: start <= i < s.end ==> IsIdentifierCharacter(src[i]))
      && (s.end < |src| ==> !IsIdentifierCharacter(src[s.end]))
      && (FromRawValue(text) == Some(s.kind) || (FromRawValue(text) == None && s.kind == Identifier))
  {
  }

  /** Blanks, carriage returns and tabs are skipped. */
  lemma {:induction false} WhitespaceStep(src: seq<char>, start: nat)
    requires start < |src| && src[start] in " \r\t"
    ensures StepAt(src, start) == Skip(start + 1)
  {
  }

  /** Any other character, the newline included, is reported and produces no token. */
  lemma {:induction false} UnexpectedStep(src: seq<char>, start: nat)
    requires start < |src|
    requires src[start] !in "(){},.-+;*=!<>/\" \r\t"
    requires !IsDigit(src[start]) && !IsLetter(src[start]) && src[start] != '_'
    ensures var s := StepAt(src, start);
      && s == Unexpected(start + 1)
      && StepTokens(src, start, s) == []
      && StepReports(src, start, s) == [LineError(LineAt(src, start + 1), UnexpectedMessage(src[start]))]
  {
  }

  /** In particular a newline outside a string or comment is reported. */
  lemma {:induction false} NewlineIsUnexpected(src: seq<char>, start: nat)
    requires start < |src| && src[start] == '\n'
    ensures StepAt(src, start) == Unexpected(start + 1)
  {
    UnexpectedStep(src, start);
  }

  /** A line comment runs up to, but not over, the next newline. */
  lemma {:induction false} LineCommentStep(src: seq<char>, start: nat)
    requires start + 1 < |src| && src[start] == '/' && src[start + 1] == '/'
    ensures var s := StepAt(src, start);
      && s.Skip? && start + 2 <= s.end
      && (forall i :: start + 2 <= i < s.end ==> src[i] != '\n')
      && (s.end == |src| || src[s.end] == '\n')
  {
  }

  /** A block comment stops at the first position holding a star or followed
      by a slash and leaves that terminator to be scanned; with no such
      position the scan traps. */
  lemma {:induction false} BlockCommentStep(src: seq<char>, start: nat)
    requires start + 1 < |src| && src[start] == '/' && src[start + 1] == '*'
    ensures var s := StepAt(src, start);
      && (s.Trap? <==> forall i :: start + 2 <= i < |src| ==> !BlockCommentStops(src, i))
      && (!s.Trap? ==>
            && s.Skip? && start + 2 <= s.end < |src| && BlockCommentStops(src, s.end)
            && forall i :: start + 2 <= i < s.end ==> !BlockCommentStops(src, i))
  {
    var s := StepAt(src, start);
    if !s.Trap? {
      assert BlockCommentStops(src, s.end);
    }
  }

  // ---------------------------------------------------------------------
  // Number values
  // ---------------------------------------------------------------------

  lemma {:induction false} Pow10Add(a: nat, b: nat)
    ensures Pow10(a + b) == Pow10(a) * Pow10(b)
    decreases b
  {
    if b > 0 {
      Pow10Add(a, b - 1);
      assert Pow10(a + b) == 10 * Pow10(a + b - 1);
    }
  }

  /** Appending digits shifts the value of the leading digits. */
  lemma {:induction false} DigitsValueAppend(lead: seq<char>, tail: seq<char>)
    ensures DigitsValue(lead + tail) == DigitsValue(lead) * Pow10(|tail|) + DigitsValue(tail)
    decreases |tail|
  {
    if tail == [] {
      assert lead + tail == lead;
    } else {
      var init := tail[..|tail| - 1];
      DigitsValueAppend(lead, init);
      assert (lead + tail)[..|lead + tail| - 1] == lead + init;
      var d := tail[|tail| - 1] as int - '0' as int;
      var last := if 0 <= d then d else 0;
      assert (lead + tail)[|lead + tail| - 1] == tail[|tail| - 1];
      assert DigitsValue(tail) == DigitsValue(init) * 10 + last;
      assert DigitsValue(lead + tail) == DigitsValue(lead + init) * 10 + last;
      ShiftByOneDigit(DigitsValue(lead), Pow10(|init|), DigitsValue(init), last);
    }
  }

  lemma {:induction false} ShiftByOneDigit(a: int, p: int, b: int, last: int)
    ensures (a * p + b) * 10 + last == a * (10 * p) + (b * 10 + last)
  {
  }

  lemma {:induction false} DigitsEndOfDigits(t: seq<char>, p: nat, q: nat)
    requires p <= q <= |t|
    requires forall i :: p <= i < q ==> IsDigit(t[i])
    requires q == |t| || !IsDigit(t[q])
    ensures DigitsEnd(t, p) == q
    decreases q - p
  {
    if p < q {
      DigitsEndOfDigits(t, p + 1, q);
    }
  }

  /** A number's value is the integer formed by all its digits, divided by
      ten to the number of fraction digits. */
  lemma {:induction false} DecimalValueScaled(whole: seq<char>, fraction: seq<char>)
    requires AllDigits(whole) && AllDigits(fraction)
    ensures DecimalValue(whole + ['.'] + fraction)
         == DigitsValue(whole + fraction) as real / Pow10(|fraction|) as real
  {
    var t := whole + ['.'] + fraction;
    DigitsEndOfDigits(t, 0, |whole|);
    assert t[..|whole|] == whole;
    assert t[|whole| + 1..] == fraction;
    DigitsValueAppend(whole, fraction);
    ShiftedSum(DigitsValue(whole), DigitsValue(fraction), Pow10(|fraction|));
  }

  lemma {:induction false} ShiftedSum(w: nat, f: nat, p: nat)
    requires p > 0
    ensures (w * p + f) as real / p as real == w as real + f as real / p as real
  {
    assert (w * p + f) as real == w as real * p as real + f as real;
  }

  lemma {:induction false} ScaleCancels(v: nat, p: nat, z: nat)
    requires p > 0 && z > 0
    ensures (v * z) as real / (p * z) as real == v as real / p as real
  {
    assert (v * z) as real == v as real * z as real;
    assert (p * z) as real == p as real * z as real;
  }

  /** A number without a fraction has the value of its digits. */
  lemma {:induction false} IntegerValue(whole: seq<char>)
    requires AllDigits(whole)
    ensures DecimalValue(whole) == DigitsValue(whole) as real
  {
    DigitsEndOfDigits(whole, 0, |whole|);
  }

  function Zeros(n: nat): (z: seq<char>)
    ensures |z| == n && AllDigits(z)
  {
    if n == 0 then [] else Zeros(n - 1) + ['0']
  }

  lemma {:induction false} ZerosValue(n: nat)
    ensures DigitsValue(Zeros(n)) == 0
  {
    if n > 0 {
      ZerosValue(n - 1);
      assert Zeros(n)[..n - 1] == Zeros(n - 1);
    }
  }

  /** Trailing zeros in the fraction do not change a number's value. */
  lemma {:induction false} TrailingZerosIgnored(whole: seq<char>, fraction: seq<char>, n: nat)
    requires AllDigits(whole) && AllDigits(fraction)
    ensures DecimalValue(whole + ['.'] + (fraction + Zeros(n))) == DecimalValue(whole + ['.'] + fraction)
  {
    var longer := fraction + Zeros(n);
    assert AllDigits(longer);
    DecimalValueScaled(whole, longer);
    DecimalValueScaled(whole, fraction);
    PaddedDigits(whole + fraction, n);
    assert whole + longer == (whole + fraction) + Zeros(n);
    Pow10Add(|fraction|, n);
    ScaleCancels(DigitsValue(whole + fraction), Pow10(|fraction|), Pow10(n));
  }

  /** Zeros appended to digits multiply their value by a power of ten. */
  lemma {:induction false} PaddedDigits(ds: seq<char>, n: nat)
    ensures DigitsValue(ds + Zeros(n)) == DigitsValue(ds) * Pow10(n)
  {
    DigitsValueAppend(ds, Zeros(n));
    ZerosValue(n);
  }

  lemma {:induction false} DigitsValueSnoc(ds: seq<char>, c: char)
    requires IsDigit(c)
    ensures DigitsValue(ds + [c]) == DigitsValue(ds) * 10 + (c as int - '0' as int)
  {
    assert (ds + [c])[..|ds|] == ds;
  }

  /** The value of a number text from the value of its digits and the scale of its fraction. */
  lemma {:induction false} DecimalOf(text: seq<char>, whole: seq<char>, fraction: seq<char>, digits: seq<char>, v: nat, scale: nat)
    requires AllDigits(whole) && AllDigits(fraction)
    requires text == whole + ['.'] + fraction && digits == whole + fraction
    requires DigitsValue(digits) == v && Pow10(|fraction|) == scale
    ensures DecimalValue(text) == v as real / scale as real
  {
    DecimalValueScaled(whole, fraction);
  }

  lemma DigitsOf1234()
    ensures DigitsValue("1234") == 1234
  {
    DigitsValueSnoc("", '1');
    assert "1" == "" + ['1'];
    DigitsValueSnoc("1", '2');
    assert "12" == "1" + ['2'];
    DigitsValueSnoc("12", '3');
    assert "123" == "12" + ['3'];
    DigitsValueSnoc("123", '4');
    assert "1234" == "123" + ['4'];
  }

  lemma IntegerTest()
    ensures DecimalValue("1234") == 1234.0
  {
    DigitsOf1234();
    assert AllDigits("1234");
    IntegerValue("1234");
  }

  /** The scanner tests' numbers: `1234` and `1234.0000` have the same value. */
  lemma TrailingZerosTest()
    ensures DecimalValue("1234") == 1234.0
    ensures DecimalValue("1234.0000") == 1234.0
  {
    IntegerTest();
    PointTest();
    PaddedTest();
  }

  lemma PointTest()
    ensures DecimalValue("1234.") == 1234.0
  {
    DigitsOf1234();
    DecimalOf("1234.", "1234", "", "1234", 1234, 1);
  }

  lemma PaddedTest()
    ensures DecimalValue("1234.0000") == DecimalValue("1234.")
  {
    FourZeros();
    TrailingZerosIgnored("1234", "", 4);
  }

  lemma FourZeros()
    ensures "1234" + ['.'] + ("" + Zeros(4)) == "1234.0000"
    ensures "1234" + ['.'] + "" == "1234."
  {
    assert Zeros(4) == "0000";
  }

  lemma DigitsOf00()
    ensures DigitsValue("00") == 0
  {
    DigitsValueSnoc("", '0');
    assert "0" == "" + ['0'];
    DigitsValueSnoc("0", '0');
    assert "00" == "0" + ['0'];
  }

  /** The other numbers of the scanner tests. */
  lemma ZeroTest()
    ensures DecimalValue("0.0") == 0.0
  {
    DigitsOf00();
    DecimalOf("0.0", "0", "0", "00", 0, 10);
  }

  lemma DigitsOf01111()
    ensures DigitsValue("01111") == 1111
  {
    DigitsValueSnoc("", '0');
    assert "0" == "" + ['0'];
    DigitsValueSnoc("0", '1');
    assert "01" == "0" + ['1'];
    DigitsValueSnoc("01", '1');
    assert "011" == "01" + ['1'];
    DigitsValueSnoc("011", '1');
    assert "0111" == "011" + ['1'];
    DigitsValueSnoc("0111", '1');
    assert "01111" == "0111" + ['1'];
  }

  lemma SmallFractionTest()
    ensures DecimalValue("0.1111") == 0.1111
  {
    DigitsOf01111();
    assert "0.1111" == "0" + ['.'] + "1111" && "01111" == "0" + "1111";
    assert Pow10(4) == 10000;
    DecimalOf("0.1111", "0", "1111", "01111", 1111, 10000);
  }

  lemma DigitsOf11110()
    ensures DigitsValue("11110") == 11110
  {
    DigitsValueSnoc("", '1');
    assert "1" == "" + ['1'];
    DigitsValueSnoc("1", '1');
    assert "11" == "1" + ['1'];
    DigitsValueSnoc("11", '1');
    assert "111" == "11" + ['1'];
    DigitsValueSnoc("111", '1');
    assert "1111" == "111" + ['1'];
    DigitsValueSnoc("1111", '0');
    assert "11110" == "1111" + ['0'];
  }

  lemma WholeFractionTest()
    ensures DecimalValue("1111.0") == 1111.0
  {
    DigitsOf11110();
    DecimalOf("1111.0", "1111", "0", "11110", 11110, 10);
  }

  lemma DigitsOf31415926()
    ensures DigitsValue("31415926") == 31415926
  {
    DigitsValueSnoc("", '3');
    assert "3" == "" + ['3'];
    DigitsValueSnoc("3", '1');
    assert "31" == "3" + ['1'];
    DigitsValueSnoc("31", '4');
    assert "314" == "31" + ['4'];
    DigitsValueSnoc("314", '1');
    assert "3141" == "314" + ['1'];
    DigitsValueSnoc("3141", '5');
    assert "31415" == "3141" + ['5'];
    DigitsValueSnoc("31415", '9');
    assert "314159" == "31415" + ['9'];
    DigitsValueSnoc("314159", '2');
    assert "3141592" == "314159" + ['2'];
    DigitsValueSnoc("3141592", '6');
    assert "31415926" == "3141592" + ['6'];
  }

  lemma LongFractionTest()
    ensures DecimalValue("3.1415926") == 3.1415926
  {
    DigitsOf31415926();
    assert "3.1415926" == "3" + ['.'] + "1415926" && "31415926" == "3" + "1415926";
    assert Pow10(7) == 10000000;
    DecimalOf("3.1415926", "3", "1415926", "31415926", 31415926, 10000000);
  }

  // ---------------------------------------------------------------------
  // Whole sources
  // ---------------------------------------------------------------------

  /** A source without newlines stays on line 1. */
  lemma {:induction false} SingleLine(src: seq<char>)
    requires '\n' !in src
    ensures LineAt(src, |src|) == 1
  {
    if |src| > 0 {
      FinalLine(src);
      assert '\n' !in src[1..];
    }
  }

  /** A source consumed by a single token-producing step scans to that token and `eof`. */
  lemma {:induction false} OneStepScan(src: seq<char>, kind: TokenType, literal: Option<TokenLiteral>)
    requires |src| > 0 && StepAt(src, 0) == Produce(|src|, kind, literal)
    ensures Scan(src) == Some([Token(kind, src, literal, LineAt(src, |src|)), EofToken(src)])
  {
    assert src[0..|src|] == src;
    var s := StepAt(src, 0);
    assert TokensFrom(src, |src|) == Some([EofToken(src)]);
    assert StepTokens(src, 0, s) == [Token(kind, src, literal, LineAt(src, |src|))];
    assert TokensFrom(src, 0) == Some(StepTokens(src, 0, s) + [EofToken(src)]);
    assert StepTokens(src, 0, s) + [EofToken(src)] == [Token(kind, src, literal, LineAt(src, |src|)), EofToken(src)];
    assert Scan(src) == TokensFrom(src, 0);
  }

  /** A letter or `_` followed by identifier characters. */
  predicate IsWord(text: seq<char>)
  {
    && |text| > 0 && (IsLetter(text[0]) || text[0] == '_')
    && forall i :: 0 <= i < |text| ==> IsIdentifierCharacter(text[i])
  }

  /** A source that is one word scans to the kind that word looks up to. */
  lemma {:induction false} WordScan(text: seq<char>)
    requires IsWord(text)
    ensures Scan(text) == Some([Token(KeywordOrIdentifier(text), text, None, 1), Token(Eof, "", None, 1)])
  {
    SingleLine(text);
    assert IdentifierEnd(text, 1) == |text|;
    assert text[0..|text|] == text;
    OneStepScan(text, KeywordOrIdentifier(text), None);
  }

  /** The identifier test: `Hello` is an identifier. */
  lemma IdentifierTest()
    ensures Scan("Hello") == Some([Token(Identifier, "Hello", None, 1), Token(Eof, "", None, 1)])
  {
    HelloIsIdentifier();
    WordScan("Hello");
  }

  lemma HelloIsIdentifier()
    ensures IsWord("Hello") && KeywordOrIdentifier("Hello") == Identifier
  {
  }

  /** A quoted text without quotes scans to one `string` token carrying the
      text, on the line after the newlines the text holds. */
  lemma {:induction false} StringSourceScan(body: seq<char>)
    requires '"' !in body
    ensures var src := ['"'] + body + ['"'];
      var line := 1 + multiset(body)['\n'];
      Scan(src) == Some([Token(String, src, Some(StringLiteral(body)), line), Token(Eof, "", None, line)])
  {
    var src := ['"'] + body + ['"'];
    var q := StringEnd(src, 1);
    assert forall i :: 1 <= i < |src| - 1 ==> src[i] == body[i - 1];
    assert forall i :: 1 <= i < |src| - 1 ==> src[i] != '"' by {
      forall i | 1 <= i < |src| - 1 ensures src[i] != '"' {
        assert src[i] == body[i - 1];
      }
    }
    assert src[|src| - 1] == '"';
    assert q == |src| - 1;
    assert src[1..q] == body;
    OneStepScan(src, String, Some(StringLiteral(body)));
    FinalLine(src);
    assert src[1..] == body + ['"'];
  }

  /** A number text is consumed whole by the number scanner. */
  lemma {:induction false} NumberTextEnd(text: seq<char>)
    requires IsNumberText(text)
    ensures NumberEnd(text, 1) == |text| && IsDigit(text[0]) && '\n' !in text
  {
    if AllDigits(text) {
      DigitsEndOfDigits(text, 1, |text|);
    } else {
      var d :| 0 < d < |text| - 1 && text[d] == '.' && AllDigits(text[..d]) && AllDigits(text[d + 1..]);
      assert forall i :: 0 <= i < d ==> text[i] == text[..d][i];
      DigitsEndOfDigits(text, 1, d);
      assert forall i :: d + 1 <= i < |text| ==> text[i] == text[d + 1..][i - d - 1];
      DigitsEndOfDigits(text, d + 1, |text|);
      assert text[0] == text[..d][0];
    }
  }

  /** A source that is one number scans to one `number` token carrying its value. */
  lemma {:induction false} NumberSourceScan(text: seq<char>)
    requires IsNumberText(text)
    ensures Scan(text) == Some([Token(Number, text, Some(NumberLiteral(DecimalValue(text))), 1), Token(Eof, "", None, 1)])
  {
    NumberTextEnd(text);
    SingleLine(text);
    assert text[0..|text|] == text;
    OneStepScan(text, Number, Some(NumberLiteral(DecimalValue(text))));
  }

  /** A lone quote is an unterminated string: a `"` token. */
  lemma LoneQuoteScan()
    ensures Scan("\"") == Some([Token(DoubleQuote, "\"", None, 1), Token(Eof, "", None, 1)])
  {
    var src := "\"";
    assert StepAt(src, 0) == Unterminated(1);
    assert src[0..1] == src;
    assert LineAt(src, 1) == 1;
    assert TokensFrom(src, 1) == Some([EofToken(src)]);
    assert StepTokens(src, 0, Unterminated(1)) == [Token(DoubleQuote, src, None, 1)];
    assert TokensFrom(src, 0) == Some([Token(DoubleQuote, src, None, 1)] + [EofToken(src)]);
    assert [Token(DoubleQuote, src, None, 1)] + [EofToken(src)] == [Token(DoubleQuote, src, None, 1), EofToken(src)];
    assert Scan(src) == TokensFrom(src, 0);
  }

  /** The kinds whose raw value is one punctuation character that never starts a longer lexeme. */
  predicate IsPunctuationKind(k: TokenType)
  {
    k in {LeftParenthesis, RightParenthesis, LeftBrace, RightBrace, Comma, Dot, Minus, Plus, Semicolon, Slash, Star}
  }

  /** The comparison, equality and negation kinds. */
  predicate IsOperatorKind(k: TokenType)
  {
    k in {Bang, BangEqual, Equal, EqualEqual, Greater, GreaterEqual, Less, LessEqual}
  }

  /** The scanner's single-character and keyword tests, for every kind: the
      raw value of a kind scans to one token of that kind, whose lexeme is
      the raw value. This includes `"` (an unterminated string), `_`, and the
      words `identifier`, `string`, `number` and `eof`. */
  lemma {:induction false} KindScan(k: TokenType)
    ensures Scan(RawValue(k)) == Some([Token(k, RawValue(k), None, 1), Token(Eof, "", None, 1)])
  {
    if k == DoubleQuote {
      LoneQuoteScan();
    } else if IsPunctuationKind(k) {
      PunctuationKindScan(k);
    } else if IsOperatorKind(k) {
      OperatorKindScan(k);
    } else {
      OtherKindsAreWords(k);
      WordKindScan(k);
    }
  }

  lemma {:induction false} OtherKindsAreWords(k: TokenType)
    requires k != DoubleQuote && !IsPunctuationKind(k) && !IsOperatorKind(k)
    ensures IsWord(RawValue(k))
  {
  }

  lemma {:induction false} PunctuationKindScan(k: TokenType)
    requires IsPunctuationKind(k)
    ensures Scan(RawValue(k)) == Some([Token(k, RawValue(k), None, 1), Token(Eof, "", None, 1)])
  {
    SingleLine(RawValue(k));
    if k == LeftParenthesis {
      OneStepScan("(", k, None);
    } else if k == RightParenthesis {
      OneStepScan(")", k, None);
    } else if k == LeftBrace {
      OneStepScan("{", k, None);
    } else if k == RightBrace {
      OneStepScan("}", k, None);
    } else if k == Comma {
      OneStepScan(",", k, None);
    } else if k == Dot {
      OneStepScan(".", k, None);
    } else if k == Minus {
      OneStepScan("-", k, None);
    } else if k == Plus {
      OneStepScan("+", k, None);
    } else if k == Semicolon {
      OneStepScan(";", k, None);
    } else if k == Slash {
      OneStepScan("/", k, None);
    } else {
      OneStepScan("*", k, None);
    }
  }

  lemma {:induction false} OperatorKindScan(k: TokenType)
    requires IsOperatorKind(k)
    ensures Scan(RawValue(k)) == Some([Token(k, RawValue(k), None, 1), Token(Eof, "", None, 1)])
  {
    SingleLine(RawValue(k));
    if k == Bang {
      OneStepScan("!", k, None);
    } else if k == BangEqual {
      OneStepScan("!=", k, None);
    } else if k == Equal {
      OneStepScan("=", k, None);
    } else if k == EqualEqual {
      OneStepScan("==", k, None);
    } else if k == Greater {
      OneStepScan(">", k, None);
    } else if k == GreaterEqual {
      OneStepScan(">=", k, None);
    } else if k == Less {
      OneStepScan("<", k, None);
    } else {
      OneStepScan("<=", k, None);
    }
  }

  lemma {:induction false} WordKindScan(k: TokenType)
    requires IsWord(RawValue(k))
    ensures Scan(RawValue(k)) == Some([Token(k, RawValue(k), None, 1), Token(Eof, "", None, 1)])
  {
    RawValueRoundTrip(k);
    WordScan(RawValue(k));
  }

  /** One step of a scan, spelled out. */
  lemma {:induction false} Unfold(src: seq<char>, i: nat, e: nat)
    requires i < |src| && !StepAt(src, i).Trap? && StepAt(src, i).end == e
    ensures TokensFrom(src, i) == Prepend(StepTokens(src, i, StepAt(src, i)), TokensFrom(src, e))
    ensures ReportsFrom(src, i) == StepReports(src, i, StepAt(src, i)) + ReportsFrom(src, e)
  {
  }

  /** A `.` not followed by a digit is not part of the number before it. */
  lemma TrailingDotSteps()
    ensures StepAt("1.", 0) == Produce(1, Number, Some(NumberLiteral(1.0)))
    ensures StepAt("1.", 1) == Produce(2, Dot, None)
  {
  }

  /** A block comment stops on the star of its closing pair, which is then
      scanned as a star, and the slash after it as a slash. */
  lemma BlockCommentSteps()
    ensures StepAt("/* a */", 0) == Skip(5)
    ensures StepAt("/* a */", 5) == Produce(6, Star, None)
    ensures StepAt("/* a */", 6) == Produce(7, Slash, None)
  {
    assert BlockCommentEnd("/* a */", 2) == Some(5);
  }

  /** A block comment also stops on the character before a slash. */
  lemma SlashEndsBlockCommentSteps()
    ensures StepAt("/*x/", 0) == Skip(2)
    ensures StepAt("/*x/", 2) == Produce(3, Identifier, None)
  {
    assert BlockCommentEnd("/*x/", 2) == Some(2);
  }

  /** An unterminated block comment traps. */
  lemma UnterminatedBlockCommentTraps()
    ensures Scan("/*") == None
    ensures Scan("/* a") == None
  {
    assert StepAt("/*", 0) == Trap;
    assert BlockCommentEnd("/* a", 2) == None;
    assert StepAt("/* a", 0) == Trap;
  }

  /** A token just before a newline already carries the next line, and the
      newline itself is reported as an unexpected character. */
  lemma NewlineSteps()
    ensures StepAt("a\nb", 0) == Produce(1, Identifier, None) && LineAt("a\nb", 1) == 2
    ensures StepAt("a\nb", 1) == Unexpected(2)
    ensures StepReports("a\nb", 1, Unexpected(2)) == [LineError(2, "Unexpected character: '\n'")]
  {
    assert LineAt("a\nb", 2) == 2;
    assert UnexpectedMessage('\n') == "Unexpected character: '\n'";
  }

  /** A newline in the first position is reported on line 1 and not counted. */
  lemma LeadingNewlineSteps()
    ensures StepAt("\na", 0) == Unexpected(1)
    ensures StepReports("\na", 0, Unexpected(1)) == [LineError(1, "Unexpected character: '\n'")]
    ensures LineAt("\na", 2) == 1
  {
    assert LineAt("\na", 1) == 1;
    assert UnexpectedMessage('\n') == "Unexpected character: '\n'";
  }

  /** A line comment leaves its newline behind, to be reported. */
  lemma LineCommentSteps()
    ensures StepAt("//x\n1", 0) == Skip(3)
    ensures StepAt("//x\n1", 3) == Unexpected(4)
  {
    assert LineCommentEnd("//x\n1", 2) == 3;
  }
}
