/**
 * Properties of the expression parser: how operator chains nest, what
 * happens to tokens after a complete expression, the reported errors, and
 * the tree the parser builds for the program's sample input.
 */
module ParserFacts {
  import opened Wrappers
  import opened Tokens
  import opened Syntax
  import opened Parsing

  function NumberToken(n: real, text: string): Token {
    NumberOn(n, text, 1)
  }

  function OperatorToken(k: TokenType): Token {
    OperatorOn(k, 1)
  }

  const EofToken := Token(Eof, "", None, 1)

  function NumberOn(n: real, text: string, line: int): Token {
    Token(Number, text, Some(NumberLiteral(n)), line)
  }

  function OperatorOn(k: TokenType, line: int): Token {
    Token(k, RawValue(k), None, line)
  }

  function NumberLiteralExpr(n: real): Expr {
    Literal(NumberValue(n))
  }

  /** Every position of a token sequence ending in end of file has end of file ahead. */
  lemma {:induction false} EofEverywhere(ts: seq<Token>)
    requires |ts| > 0 && ts[|ts| - 1].kind == Eof
    ensures forall p: nat | p < |ts| :: EofAhead(ts, p)
  {
    forall p: nat | p < |ts|
      ensures EofAhead(ts, p)
    {
      assert ts[|ts| - 1].kind == Eof;
    }
  }

  // One grammar rule at a time.

  lemma {:induction false} LiteralOperand(ts: seq<Token>, p: nat)
    requires EofAhead(ts, p + 1) && ts[p].kind in {Number, String}
    ensures EofAhead(ts, p) && UnaryAt(ts, p) == Parsed(Literal(LiteralOf(ts[p].literal)), p + 1)
  {
    assert UnaryAt(ts, p) == PrimaryAt(ts, p);
  }

  /** `false`, `true` and `nil` are literals of their own. */
  lemma {:induction false} KeywordLiteral(ts: seq<Token>, p: nat)
    requires EofAhead(ts, p + 1) && ts[p].kind in {False, True, Nil}
    ensures EofAhead(ts, p)
    ensures PrimaryAt(ts, p) == Parsed(Literal(
      if ts[p].kind == False then BoolValue(false)
      else if ts[p].kind == True then BoolValue(true)
      else NilValue), p + 1)
    ensures UnaryAt(ts, p) == PrimaryAt(ts, p)
  {
  }

  /** A token that cannot start an operand, end of file included, is
      reported as an unexpected expression where it stands. */
  lemma {:induction false} UnexpectedOperand(ts: seq<Token>, p: nat)
    requires EofAhead(ts, p)
    requires ts[p].kind !in {False, True, Nil, Number, String, LeftParenthesis}
    ensures PrimaryAt(ts, p) == Failed(UnexpectedExpressionMessage, p)
    ensures ts[p].kind !in {Bang, Minus} ==> UnaryAt(ts, p) == Failed(UnexpectedExpressionMessage, p)
  {
  }

  /** `!` and `-` apply to the unary expression after them. */
  lemma {:induction false} Negation(ts: seq<Token>, p: nat, e: Expr, q: nat)
    requires EofAhead(ts, p) && ts[p].kind in {Bang, Minus}
    requires EofAhead(ts, p + 1) && UnaryAt(ts, p + 1) == Parsed(e, q)
    ensures UnaryAt(ts, p) == Parsed(Unary(ts[p], e), q)
  {
  }

  lemma {:induction false} Group(ts: seq<Token>, p: nat, e: Expr, q: nat)
    requires EofAhead(ts, p) && ts[p].kind == LeftParenthesis
    requires EofAhead(ts, p + 1) && ExpressionAt(ts, p + 1) == Parsed(e, q)
    requires ts[q].kind == RightParenthesis
    ensures UnaryAt(ts, p) == Parsed(Grouping(e), q + 1)
  {
    assert UnaryAt(ts, p) == PrimaryAt(ts, p);
  }

  lemma {:induction false} FactorFrom(ts: seq<Token>, p: nat, e: Expr, q: nat)
    requires EofAhead(ts, p) && UnaryAt(ts, p) == Parsed(e, q)
    ensures FactorAt(ts, p) == LeftAssociativeAt(ts, e, e, [Slash, Star], q)
  {
  }

  lemma {:induction false} TermFrom(ts: seq<Token>, p: nat, e: Expr, q: nat)
    requires EofAhead(ts, p) && FactorAt(ts, p) == Parsed(e, q)
    ensures TermAt(ts, p) == LeftAssociativeAt(ts, e, e, [Minus, Plus], q)
  {
  }

  lemma {:induction false} ComparisonFrom(ts: seq<Token>, p: nat, e: Expr, q: nat)
    requires EofAhead(ts, p) && TermAt(ts, p) == Parsed(e, q)
    ensures ComparisonAt(ts, p) == LeftAssociativeAt(ts, e, e, [Greater, GreaterEqual, Less, LessEqual], q)
  {
  }

  lemma {:induction false} EqualityFrom(ts: seq<Token>, p: nat, e: Expr, q: nat)
    requires EofAhead(ts, p) && ComparisonAt(ts, p) == Parsed(e, q)
    ensures ExpressionAt(ts, p) == LeftAssociativeAt(ts, e, e, [BangEqual, EqualEqual], q)
  {
  }

  /** A binary level ends where the token is not one of its operators. */
  lemma {:induction false} LevelEnds(ts: seq<Token>, lhs: Expr, acc: Expr, kinds: seq<TokenType>, q: nat)
    requires EofAhead(ts, q) && !Matches(ts, q, kinds)
    ensures LeftAssociativeAt(ts, lhs, acc, kinds, q) == Parsed(acc, q)
  {
  }

  /** A binary level that meets one of its operators builds a node from its first left operand. */
  lemma {:induction false} LevelStep(ts: seq<Token>, lhs: Expr, acc: Expr, kinds: seq<TokenType>, p: nat, rhs: Expr, q: nat)
    requires EofAhead(ts, p) && Matches(ts, p, kinds)
    requires EofAhead(ts, p + 1) && ComparisonAt(ts, p + 1) == Parsed(rhs, q)
    ensures LeftAssociativeAt(ts, lhs, acc, kinds, p) == LeftAssociativeAt(ts, lhs, Binary(lhs, ts[p], rhs), kinds, q)
  {
  }

  /** A token that is no binary operator matches none of the binary levels. */
  lemma {:induction false} NoLevelMatches(ts: seq<Token>, q: nat)
    requires q < |ts| && !IsBinaryOperator(ts[q].kind)
    ensures !Matches(ts, q, [Slash, Star]) && !Matches(ts, q, [Minus, Plus])
    ensures !Matches(ts, q, [Greater, GreaterEqual, Less, LessEqual]) && !Matches(ts, q, [BangEqual, EqualEqual])
  {
  }

  /** A term followed by a token that is no binary operator is complete at the levels above it. */
  lemma {:induction false} AboveTerm(ts: seq<Token>, p: nat, e: Expr, r: nat)
    requires EofAhead(ts, p) && TermAt(ts, p) == Parsed(e, r)
    requires EofAhead(ts, r) && !IsBinaryOperator(ts[r].kind)
    ensures ComparisonAt(ts, p) == Parsed(e, r) && ExpressionAt(ts, p) == Parsed(e, r)
  {
    NoLevelMatches(ts, r);
    ComparisonFrom(ts, p, e, r);
    LevelEnds(ts, e, e, [Greater, GreaterEqual, Less, LessEqual], r);
    EqualityFrom(ts, p, e, r);
    LevelEnds(ts, e, e, [BangEqual, EqualEqual], r);
  }

  /** A tree followed by a token that is no binary operator is complete at every level above its own. */
  lemma {:induction false} Complete(ts: seq<Token>, p: nat, e: Expr, q: nat)
    requires EofAhead(ts, p) && UnaryAt(ts, p) == Parsed(e, q) && !IsBinaryOperator(ts[q].kind)
    ensures FactorAt(ts, p) == Parsed(e, q) && TermAt(ts, p) == Parsed(e, q)
    ensures ComparisonAt(ts, p) == Parsed(e, q) && ExpressionAt(ts, p) == Parsed(e, q)
  {
    NoLevelMatches(ts, q);
    FactorFrom(ts, p, e, q);
    LevelEnds(ts, e, e, [Slash, Star], q);
    TermFrom(ts, p, e, q);
    LevelEnds(ts, e, e, [Minus, Plus], q);
    AboveTerm(ts, p, e, q);
  }

  /** An equality operator matches none of the levels below equality. */
  lemma {:induction false} OnlyEqualityMatches(ts: seq<Token>, q: nat)
    requires q < |ts| && (ts[q].kind == BangEqual || ts[q].kind == EqualEqual)
    ensures !Matches(ts, q, [Slash, Star]) && !Matches(ts, q, [Minus, Plus])
    ensures !Matches(ts, q, [Greater, GreaterEqual, Less, LessEqual])
  {
  }

  /** An operand followed by an equality operator is complete up to the comparison level. */
  lemma {:induction false} CompleteBelowEquality(ts: seq<Token>, p: nat, e: Expr, q: nat)
    requires EofAhead(ts, p) && EofAhead(ts, q) && (ts[q].kind == BangEqual || ts[q].kind == EqualEqual)
    requires UnaryAt(ts, p) == Parsed(e, q)
    ensures ComparisonAt(ts, p) == Parsed(e, q)
  {
    OnlyEqualityMatches(ts, q);
    FactorFrom(ts, p, e, q);
    LevelEnds(ts, e, e, [Slash, Star], q);
    TermFrom(ts, p, e, q);
    LevelEnds(ts, e, e, [Minus, Plus], q);
    ComparisonFrom(ts, p, e, q);
    LevelEnds(ts, e, e, [Greater, GreaterEqual, Less, LessEqual], q);
  }

  /** `a == b == c` keeps only `a` and `c`: the middle operand is dropped. */
  lemma {:induction false} EqualityChainDropsMiddle(a: real, b: real, c: real)
    ensures var ts := [NumberToken(a, "a"), OperatorToken(EqualEqual), NumberToken(b, "b"),
                       OperatorToken(EqualEqual), NumberToken(c, "c"), EofToken];
      EofAhead(ts, 0) && ExpressionAt(ts, 0)
      == Parsed(Binary(NumberLiteralExpr(a), OperatorToken(EqualEqual), NumberLiteralExpr(c)), 5)
  {
    var ts := [NumberToken(a, "a"), OperatorToken(EqualEqual), NumberToken(b, "b"),
               OperatorToken(EqualEqual), NumberToken(c, "c"), EofToken];
    EofEverywhere(ts);
    var ea, eb, ec := NumberLiteralExpr(a), NumberLiteralExpr(b), NumberLiteralExpr(c);
    LiteralOperand(ts, 0);
    LiteralOperand(ts, 2);
    LiteralOperand(ts, 4);
    CompleteBelowEquality(ts, 0, ea, 1);
    CompleteBelowEquality(ts, 2, eb, 3);
    Complete(ts, 4, ec, 5);
    var kinds := [BangEqual, EqualEqual];
    EqualityFrom(ts, 0, ea, 1);
    LevelStep(ts, ea, ea, kinds, 1, eb, 3);
    LevelStep(ts, ea, Binary(ea, ts[1], eb), kinds, 3, ec, 5);
    LevelEnds(ts, ea, Binary(ea, ts[3], ec), kinds, 5);
  }

  /** `a - b - c` nests to the right, as `a - (b - c)`. */
  lemma {:induction false} SubtractionNestsRight(a: real, b: real, c: real)
    ensures var ts := [NumberToken(a, "a"), OperatorToken(Minus), NumberToken(b, "b"),
                       OperatorToken(Minus), NumberToken(c, "c"), EofToken];
      EofAhead(ts, 0) && ExpressionAt(ts, 0)
      == Parsed(Binary(NumberLiteralExpr(a), OperatorToken(Minus),
                       Binary(NumberLiteralExpr(b), OperatorToken(Minus), NumberLiteralExpr(c))), 5)
  {
    var ts := [NumberToken(a, "a"), OperatorToken(Minus), NumberToken(b, "b"),
               OperatorToken(Minus), NumberToken(c, "c"), EofToken];
    EofEverywhere(ts);
    var ea, eb, ec := NumberLiteralExpr(a), NumberLiteralExpr(b), NumberLiteralExpr(c);
    LiteralOperand(ts, 4);
    Complete(ts, 4, ec, 5);
    LiteralOperand(ts, 2);
    TailTerm(ts, 2, eb, 3, ec, 5);
    LiteralOperand(ts, 0);
    TailTerm(ts, 0, ea, 1, Binary(eb, OperatorToken(Minus), ec), 5);
  }

  /**
   * An operand, an additive operator, and a right side that the comparison
   * level takes up to a token that is no binary operator: the expression is
   * the operand and that whole right side.
   */
  lemma {:induction false} TailTerm(ts: seq<Token>, p: nat, e: Expr, q: nat, rhs: Expr, r: nat)
    requires EofAhead(ts, p) && UnaryAt(ts, p) == Parsed(e, q) && ts[q].kind in {Minus, Plus}
    requires EofAhead(ts, q + 1) && ComparisonAt(ts, q + 1) == Parsed(rhs, r) && !IsBinaryOperator(ts[r].kind)
    ensures ComparisonAt(ts, p) == Parsed(Binary(e, ts[q], rhs), r)
    ensures ExpressionAt(ts, p) == Parsed(Binary(e, ts[q], rhs), r)
  {
    var sum := Binary(e, ts[q], rhs);
    assert !Matches(ts, q, [Slash, Star]);
    FactorFrom(ts, p, e, q);
    LevelEnds(ts, e, e, [Slash, Star], q);
    TermFrom(ts, p, e, q);
    LevelStep(ts, e, e, [Minus, Plus], q, rhs, r);
    NoLevelMatches(ts, r);
    LevelEnds(ts, e, sum, [Minus, Plus], r);
    AboveTerm(ts, p, sum, r);
  }

  /** `a * b + c` parses as `a * (b + c)`: the right operand of `*` is parsed at the comparison level. */
  lemma {:induction false} ProductTakesWholeSum(a: real, b: real, c: real)
    ensures var ts := [NumberToken(a, "a"), OperatorToken(Star), NumberToken(b, "b"),
                       OperatorToken(Plus), NumberToken(c, "c"), EofToken];
      EofAhead(ts, 0) && ExpressionAt(ts, 0)
      == Parsed(Binary(NumberLiteralExpr(a), OperatorToken(Star),
                       Binary(NumberLiteralExpr(b), OperatorToken(Plus), NumberLiteralExpr(c))), 5)
  {
    var ts := [NumberToken(a, "a"), OperatorToken(Star), NumberToken(b, "b"),
               OperatorToken(Plus), NumberToken(c, "c"), EofToken];
    EofEverywhere(ts);
    var ea, eb, ec := NumberLiteralExpr(a), NumberLiteralExpr(b), NumberLiteralExpr(c);
    LiteralOperand(ts, 4);
    Complete(ts, 4, ec, 5);
    LiteralOperand(ts, 2);
    TailTerm(ts, 2, eb, 3, ec, 5);
    LiteralOperand(ts, 0);
    TailFactor(ts, 0, ea, 1, Binary(eb, OperatorToken(Plus), ec), 5);
  }

  /** As `TailTerm`, for a multiplicative operator. */
  lemma {:induction false} TailFactor(ts: seq<Token>, p: nat, e: Expr, q: nat, rhs: Expr, r: nat)
    requires EofAhead(ts, p) && UnaryAt(ts, p) == Parsed(e, q) && ts[q].kind in {Slash, Star}
    requires EofAhead(ts, q + 1) && ComparisonAt(ts, q + 1) == Parsed(rhs, r) && !IsBinaryOperator(ts[r].kind)
    ensures ComparisonAt(ts, p) == Parsed(Binary(e, ts[q], rhs), r)
    ensures ExpressionAt(ts, p) == Parsed(Binary(e, ts[q], rhs), r)
  {
    var product := Binary(e, ts[q], rhs);
    FactorFrom(ts, p, e, q);
    LevelStep(ts, e, e, [Slash, Star], q, rhs, r);
    NoLevelMatches(ts, r);
    LevelEnds(ts, e, product, [Slash, Star], r);
    TermFrom(ts, p, product, r);
    LevelEnds(ts, product, product, [Minus, Plus], r);
    AboveTerm(ts, p, product, r);
  }

  /** Parsing stops after a complete expression; the tokens after it are not looked at. */
  lemma {:induction false} TrailingTokensIgnored(a: real, b: real)
    ensures var ts := [NumberToken(a, "a"), NumberToken(b, "b"), EofToken];
      EofAhead(ts, 0) && ExpressionAt(ts, 0) == Parsed(NumberLiteralExpr(a), 1)
  {
    var ts := [NumberToken(a, "a"), NumberToken(b, "b"), EofToken];
    EofEverywhere(ts);
    LiteralOperand(ts, 0);
    Complete(ts, 0, NumberLiteralExpr(a), 1);
  }

  /** A rule that fails at the unary level fails at every level, at the same token. */
  lemma {:induction false} FailsThrough(ts: seq<Token>, p: nat, message: string, q: nat)
    requires EofAhead(ts, p) && UnaryAt(ts, p) == Failed(message, q)
    ensures ExpressionAt(ts, p) == Failed(message, q)
  {
    assert FactorAt(ts, p) == Failed(message, q);
    assert TermAt(ts, p) == Failed(message, q);
    assert ComparisonAt(ts, p) == Failed(message, q);
  }

  /** With no tokens but end of file, "Unexpected expression" is reported at the end-of-file token. */
  lemma EmptyInputReported()
    ensures EofAhead([EofToken], 0) && ExpressionAt([EofToken], 0) == Failed(UnexpectedExpressionMessage, 0)
  {
    EofEverywhere([EofToken]);
    assert UnaryAt([EofToken], 0) == PrimaryAt([EofToken], 0);
    FailsThrough([EofToken], 0, UnexpectedExpressionMessage, 0);
  }

  /** An unclosed group reports the missing `)` at the token where it was expected. */
  lemma {:induction false} UnclosedGroupReported(a: real)
    ensures var ts := [OperatorToken(LeftParenthesis), NumberToken(a, "a"), EofToken];
      EofAhead(ts, 0) && ExpressionAt(ts, 0) == Failed(UnmatchedParenthesisMessage, 2)
  {
    var ts := [OperatorToken(LeftParenthesis), NumberToken(a, "a"), EofToken];
    EofEverywhere(ts);
    LiteralOperand(ts, 1);
    Complete(ts, 1, NumberLiteralExpr(a), 2);
    assert UnaryAt(ts, 0) == PrimaryAt(ts, 0);
    FailsThrough(ts, 0, UnmatchedParenthesisMessage, 2);
  }

  /** The tokens of the parser test's source `1 + 2.0 * (-2.0 + 0.555) `, written out by hand
      rather than derived from a scan: numbers carry their exact values and
      every token is on `line`. */
  function SampleTokens(line: int): seq<Token> {
    [NumberOn(1.0, "1", line), OperatorOn(Plus, line), NumberOn(2.0, "2.0", line), OperatorOn(Star, line),
     OperatorOn(LeftParenthesis, line), OperatorOn(Minus, line), NumberOn(2.0, "2.0", line), OperatorOn(Plus, line),
     NumberOn(0.555, "0.555", line), OperatorOn(RightParenthesis, line), Token(Eof, "", None, line)]
  }

  function SampleGroupTree(line: int): (e: Expr)
    ensures BasicExpr(e)
  {
    var negated := Unary(OperatorOn(Minus, line), NumberLiteralExpr(2.0));
    var sum := Binary(negated, OperatorOn(Plus, line), NumberLiteralExpr(0.555));
    assert BasicExpr(negated) && BasicExpr(sum);
    Grouping(sum)
  }

  function SampleTree(line: int): (e: Expr)
    ensures BasicExpr(e)
  {
    var product := Binary(NumberLiteralExpr(2.0), OperatorOn(Star, line), SampleGroupTree(line));
    assert BasicExpr(product);
    Binary(NumberLiteralExpr(1.0), OperatorOn(Plus, line), product)
  }

  lemma {:induction false} SampleGroup(line: int)
    ensures EofAhead(SampleTokens(line), 4) && UnaryAt(SampleTokens(line), 4) == Parsed(SampleGroupTree(line), 10)
  {
    var ts := SampleTokens(line);
    EofEverywhere(ts);
    var two, fraction := NumberLiteralExpr(2.0), NumberLiteralExpr(0.555);
    var negated := Unary(OperatorOn(Minus, line), two);
    LiteralOperand(ts, 8);
    Complete(ts, 8, fraction, 9);
    LiteralOperand(ts, 6);
    Negation(ts, 5, two, 7);
    TailTerm(ts, 5, negated, 7, fraction, 9);
    Group(ts, 4, Binary(negated, OperatorOn(Plus, line), fraction), 9);
  }

  /** `2.0 * (-2.0 + 0.555)`, from the third token of the sample on. */
  lemma {:induction false} SampleProduct(line: int)
    ensures EofAhead(SampleTokens(line), 2)
    ensures ComparisonAt(SampleTokens(line), 2) == Parsed(Binary(NumberLiteralExpr(2.0), OperatorOn(Star, line), SampleGroupTree(line)), 10)
  {
    var ts := SampleTokens(line);
    EofEverywhere(ts);
    SampleGroup(line);
    Complete(ts, 4, SampleGroupTree(line), 10);
    LiteralOperand(ts, 2);
    TailFactor(ts, 2, NumberLiteralExpr(2.0), 3, SampleGroupTree(line), 10);
  }

  lemma {:induction false} SampleParse(line: int)
    ensures EofAhead(SampleTokens(line), 0) && ExpressionAt(SampleTokens(line), 0) == Parsed(SampleTree(line), 10)
  {
    var ts := SampleTokens(line);
    EofEverywhere(ts);
    SampleProduct(line);
    LiteralOperand(ts, 0);
    TailTerm(ts, 0, NumberLiteralExpr(1.0), 1, Binary(NumberLiteralExpr(2.0), OperatorOn(Star, line), SampleGroupTree(line)), 10);
  }
}
