/**
 * The recursive-descent expression parser.  The grammar is given twice: as
 * functions from a token sequence and a position to an `Outcome` (the
 * reference definition), and as the methods of the `Parser` class, which
 * move a `currentPosition` cursor over its tokens and are proved to follow
 * those functions.
 *
 * Every binary level hands its operators to `LeftAssociativeAt`, which, as
 * in the program, parses each right operand at the comparison level and
 * rebuilds the node from the ORIGINAL left operand.  Chains therefore nest to
 * the right and a chain of `==` keeps only its first and last operands.
 */
module Parsing {
  import opened Wrappers
  import opened Tokens
  import opened Syntax

  const UnexpectedExpressionMessage := "Unexpected expression"
  const UnmatchedParenthesisMessage := "unexpected ')' after expression"

  /** Some token at position `p` or later is the end-of-file token. */
  predicate EofAhead(ts: seq<Token>, p: nat) {
    exists j | p <= j < |ts| :: ts[j].kind == Eof
  }

  /** The token at `p` is one of `kinds`; the end-of-file token never matches. */
  predicate Matches(ts: seq<Token>, p: nat, kinds: seq<TokenType>)
    requires p < |ts|
  {
    ts[p].kind != Eof && ts[p].kind in kinds
  }

  /** Where advancing from `p` lands: one further, unless `p` holds the end-of-file token. */
  function NextPosition(ts: seq<Token>, p: nat): nat
    requires p < |ts|
  {
    if ts[p].kind == Eof then p else p + 1
  }

  predicate IsBinaryOperator(k: TokenType) {
    k in {BangEqual, EqualEqual, Greater, GreaterEqual, Less, LessEqual, Minus, Plus, Slash, Star}
  }

  /**
   * The trees the parser can build: basic expressions whose unary operators
   * are `!` or `-` and whose binary operators are comparison or arithmetic
   * operators.
   */
  predicate ParserShaped(e: Expr) {
    match e
    case Literal(_) => true
    case Grouping(inner) => ParserShaped(inner)
    case Unary(op, rhs) => op.kind in {Bang, Minus} && ParserShaped(rhs)
    case Binary(lhs, op, rhs) => IsBinaryOperator(op.kind) && ParserShaped(lhs) && ParserShaped(rhs)
    case _ => false
  }

  lemma {:induction false} ShapedIsBasic(e: Expr)
    requires ParserShaped(e)
    ensures BasicExpr(e)
  {
    match e
    case Literal(_) =>
    case Grouping(inner) => ShapedIsBasic(inner);
    case Unary(_, rhs) => ShapedIsBasic(rhs);
    case Binary(lhs, _, rhs) => ShapedIsBasic(lhs); ShapedIsBasic(rhs);
  }

  /**
   * The result of a grammar rule: the tree and the position after it, or the
   * message of the error reported at the token at `next`.
   */
  datatype Outcome =
    | Parsed(expr: Expr, next: nat)
    | Failed(message: string, next: nat)

  function ResultOf(o: Outcome): Result<Expr, string> {
    match o
    case Parsed(e, _) => Success(e)
    case Failed(m, _) => Failure(m)
  }

  /** The diagnostic a failed rule has reported: the message at the token where parsing stopped. */
  function Reported(ts: seq<Token>, o: Outcome): seq<Diagnostic>
    requires o.Failed? ==> o.next < |ts|
  {
    if o.Failed? then [TokenError(ts[o.next], o.message)] else []
  }

  function ExpressionAt(ts: seq<Token>, p: nat): (r: Outcome)
    requires EofAhead(ts, p)
    ensures p <= r.next && EofAhead(ts, r.next)
    ensures r.Parsed? ==> p < r.next
    decreases |ts| - p, 7
  {
    EqualityAt(ts, p)
  }

  function EqualityAt(ts: seq<Token>, p: nat): (r: Outcome)
    requires EofAhead(ts, p)
    ensures p <= r.next && EofAhead(ts, r.next)
    ensures r.Parsed? ==> p < r.next
    decreases |ts| - p, 6
  {
    var lhs := ComparisonAt(ts, p);
    if lhs.Failed? then lhs
    else LeftAssociativeAt(ts, lhs.expr, lhs.expr, [BangEqual, EqualEqual], lhs.next)
  }

  function ComparisonAt(ts: seq<Token>, p: nat): (r: Outcome)
    requires EofAhead(ts, p)
    ensures p <= r.next && EofAhead(ts, r.next)
    ensures r.Parsed? ==> p < r.next
    decreases |ts| - p, 5
  {
    var lhs := TermAt(ts, p);
    if lhs.Failed? then lhs
    else LeftAssociativeAt(ts, lhs.expr, lhs.expr, [Greater, GreaterEqual, Less, LessEqual], lhs.next)
  }

  function TermAt(ts: seq<Token>, p: nat): (r: Outcome)
    requires EofAhead(ts, p)
    ensures p <= r.next && EofAhead(ts, r.next)
    ensures r.Parsed? ==> p < r.next
    decreases |ts| - p, 4
  {
    var lhs := FactorAt(ts, p);
    if lhs.Failed? then lhs
    else LeftAssociativeAt(ts, lhs.expr, lhs.expr, [Minus, Plus], lhs.next)
  }

  function FactorAt(ts: seq<Token>, p: nat): (r: Outcome)
    requires EofAhead(ts, p)
    ensures p <= r.next && EofAhead(ts, r.next)
    ensures r.Parsed? ==> p < r.next
    decreases |ts| - p, 3
  {
    var lhs := UnaryAt(ts, p);
    if lhs.Failed? then lhs
    else LeftAssociativeAt(ts, lhs.expr, lhs.expr, [Slash, Star], lhs.next)
  }

  function UnaryAt(ts: seq<Token>, p: nat): (r: Outcome)
    requires EofAhead(ts, p)
    ensures p <= r.next && EofAhead(ts, r.next)
    ensures r.Parsed? ==> p < r.next
    decreases |ts| - p, 2
  {
    if Matches(ts, p, [Bang, Minus]) then
      var rhs := UnaryAt(ts, p + 1);
      if rhs.Failed? then rhs else Parsed(Unary(ts[p], rhs.expr), rhs.next)
    else
      PrimaryAt(ts, p)
  }

  function PrimaryAt(ts: seq<Token>, p: nat): (r: Outcome)
    requires EofAhead(ts, p)
    ensures p <= r.next && EofAhead(ts, r.next)
    ensures r.Parsed? ==> p < r.next
    decreases |ts| - p, 1
  {
    if Matches(ts, p, [False]) then Parsed(Literal(BoolValue(false)), p + 1)
    else if Matches(ts, p, [True]) then Parsed(Literal(BoolValue(true)), p + 1)
    else if Matches(ts, p, [Nil]) then Parsed(Literal(NilValue), p + 1)
    else if Matches(ts, p, [Number, String]) then Parsed(Literal(LiteralOf(ts[p].literal)), p + 1)
    else if Matches(ts, p, [LeftParenthesis]) then
      var inner := ExpressionAt(ts, p + 1);
      if inner.Failed? then inner
      else if Matches(ts, inner.next, [RightParenthesis]) then Parsed(Grouping(inner.expr), inner.next + 1)
      else Failed(UnmatchedParenthesisMessage, inner.next)
    else
      Failed(UnexpectedExpressionMessage, p)
  }

  /**
   * The loop over a binary level: `acc` is the tree so far and `lhs` the left
   * operand the level started with.
   */
  function LeftAssociativeAt(ts: seq<Token>, lhs: Expr, acc: Expr, kinds: seq<TokenType>, p: nat): (r: Outcome)
    requires EofAhead(ts, p)
    ensures p <= r.next && EofAhead(ts, r.next)
    decreases |ts| - p, 0
  {
    if Matches(ts, p, kinds) then
      var rhs := ComparisonAt(ts, p + 1);
      if rhs.Failed? then rhs
      else LeftAssociativeAt(ts, lhs, Binary(lhs, ts[p], rhs.expr), kinds, rhs.next)
    else
      Parsed(acc, p)
  }

  // Every tree the grammar builds is parser-shaped; one lemma per rule, by
  // the same recursion as the rules themselves.

  lemma {:induction false} ExpressionShaped(ts: seq<Token>, p: nat)
    requires EofAhead(ts, p)
    ensures ExpressionAt(ts, p).Parsed? ==> ParserShaped(ExpressionAt(ts, p).expr)
    decreases |ts| - p, 7
  {
    EqualityShaped(ts, p);
  }

  lemma {:induction false} EqualityShaped(ts: seq<Token>, p: nat)
    requires EofAhead(ts, p)
    ensures EqualityAt(ts, p).Parsed? ==> ParserShaped(EqualityAt(ts, p).expr)
    decreases |ts| - p, 6
  {
    ComparisonShaped(ts, p);
    var lhs := ComparisonAt(ts, p);
    if lhs.Parsed? {
      LevelShaped(ts, lhs.expr, lhs.expr, [BangEqual, EqualEqual], lhs.next);
    }
  }

  lemma {:induction false} ComparisonShaped(ts: seq<Token>, p: nat)
    requires EofAhead(ts, p)
    ensures ComparisonAt(ts, p).Parsed? ==> ParserShaped(ComparisonAt(ts, p).expr)
    decreases |ts| - p, 5
  {
    TermShaped(ts, p);
    var lhs := TermAt(ts, p);
    if lhs.Parsed? {
      LevelShaped(ts, lhs.expr, lhs.expr, [Greater, GreaterEqual, Less, LessEqual], lhs.next);
    }
  }

  lemma {:induction false} TermShaped(ts: seq<Token>, p: nat)
    requires EofAhead(ts, p)
    ensures TermAt(ts, p).Parsed? ==> ParserShaped(TermAt(ts, p).expr)
    decreases |ts| - p, 4
  {
    FactorShaped(ts, p);
    var lhs := FactorAt(ts, p);
    if lhs.Parsed? {
      LevelShaped(ts, lhs.expr, lhs.expr, [Minus, Plus], lhs.next);
    }
  }

  lemma {:induction false} FactorShaped(ts: seq<Token>, p: nat)
    requires EofAhead(ts, p)
    ensures FactorAt(ts, p).Parsed? ==> ParserShaped(FactorAt(ts, p).expr)
    decreases |ts| - p, 3
  {
    UnaryShaped(ts, p);
    var lhs := UnaryAt(ts, p);
    if lhs.Parsed? {
      LevelShaped(ts, lhs.expr, lhs.expr, [Slash, Star], lhs.next);
    }
  }

  lemma {:induction false} UnaryShaped(ts: seq<Token>, p: nat)
    requires EofAhead(ts, p)
    ensures UnaryAt(ts, p).Parsed? ==> ParserShaped(UnaryAt(ts, p).expr)
    decreases |ts| - p, 2
  {
    if Matches(ts, p, [Bang, Minus]) {
      UnaryShaped(ts, p + 1);
    } else {
      PrimaryShaped(ts, p);
    }
  }

  lemma {:induction false} PrimaryShaped(ts: seq<Token>, p: nat)
    requires EofAhead(ts, p)
    ensures PrimaryAt(ts, p).Parsed? ==> ParserShaped(PrimaryAt(ts, p).expr)
    decreases |ts| - p, 1
  {
    if !Matches(ts, p, [False]) && !Matches(ts, p, [True]) && !Matches(ts, p, [Nil])
      && !Matches(ts, p, [Number, String]) && Matches(ts, p, [LeftParenthesis])
    {
      ExpressionShaped(ts, p + 1);
    }
  }

  lemma {:induction false} LevelShaped(ts: seq<Token>, lhs: Expr, acc: Expr, kinds: seq<TokenType>, p: nat)
    requires EofAhead(ts, p)
    requires ParserShaped(lhs) && ParserShaped(acc) && forall k | k in kinds :: IsBinaryOperator(k)
    ensures LeftAssociativeAt(ts, lhs, acc, kinds, p).Parsed? ==> ParserShaped(LeftAssociativeAt(ts, lhs, acc, kinds, p).expr)
    decreases |ts| - p, 0
  {
    if Matches(ts, p, kinds) {
      ComparisonShaped(ts, p + 1);
      var rhs := ComparisonAt(ts, p + 1);
      if rhs.Parsed? {
        LevelShaped(ts, lhs, Binary(lhs, ts[p], rhs.expr), kinds, rhs.next);
      }
    }
  }

  class Parser {
    const tokens: seq<Token>
    var currentPosition: nat
    /** The errors reported so far, in order. */
    ghost var diagnostics: seq<Diagnostic>

    /** The cursor is at or before the first end-of-file token. */
    ghost predicate Valid()
      reads this
    {
      EofAhead(tokens, currentPosition)
    }

    /** The state after a grammar method: it is the one the reference definition describes. */
    ghost predicate Follows(o: Outcome, r: Result<Expr, string>, before: seq<Diagnostic>)
      reads this
    {
      Valid() && o.next == currentPosition && r == ResultOf(o)
      && diagnostics == before + Reported(tokens, o)
    }

    constructor (tokens: seq<Token>)
      ensures this.tokens == tokens && currentPosition == 0 && diagnostics == []
    {
      this.tokens := tokens;
      currentPosition := 0;
      diagnostics := [];
    }

    function PreviousToken(): Token
      reads this
      requires 0 < currentPosition <= |tokens|
    {
      tokens[currentPosition - 1]
    }

    function LatestToken(): Token
      reads this
      requires currentPosition < |tokens|
    {
      tokens[currentPosition]
    }

    predicate ReachedEOF()
      reads this
      requires currentPosition < |tokens|
    {
      LatestToken().kind == Eof
    }

    /** Moves one token on, except at end of file, and returns the token before the cursor. */
    method Advance() returns (previous: Token)
      requires Valid()
      requires 0 < currentPosition || !ReachedEOF()
      modifies this
      ensures Valid() && diagnostics == old(diagnostics)
      ensures currentPosition == NextPosition(tokens, old(currentPosition))
      ensures 0 < currentPosition && previous == tokens[currentPosition - 1]
    {
      if !ReachedEOF() {
        currentPosition := currentPosition + 1;
      }
      previous := PreviousToken();
    }

    method MatchLatest(kind: TokenType) returns (b: bool)
      requires Valid()
      ensures b <==> Matches(tokens, currentPosition, [kind])
    {
      if ReachedEOF() {
        return false;
      }
      b := LatestToken().kind == kind;
    }

    /** Steps over the latest token when it is one of `kinds` and advancing is allowed. */
    method Match(kinds: seq<TokenType>, advanceWhenMatched: bool) returns (matched: bool)
      requires Valid()
      modifies this
      ensures Valid() && diagnostics == old(diagnostics)
      ensures matched <==> advanceWhenMatched && Matches(tokens, old(currentPosition), kinds)
      ensures currentPosition == if matched then old(currentPosition) + 1 else old(currentPosition)
    {
      for i := 0 to |kinds|
        invariant currentPosition == old(currentPosition) && diagnostics == old(diagnostics)
        invariant !(advanceWhenMatched && Matches(tokens, currentPosition, kinds[..i]))
      {
        var latest := MatchLatest(kinds[i]);
        if latest && advanceWhenMatched {
          var _ := Advance();
          return true;
        }
        assert kinds[..i + 1] == kinds[..i] + [kinds[i]];
      }
      assert kinds[..|kinds|] == kinds;
      return false;
    }

    /** Steps over a token of the given kind, or gives `None` without moving. */
    method Consume(kind: TokenType) returns (consumed: Option<Token>)
      requires Valid()
      modifies this
      ensures Valid() && diagnostics == old(diagnostics)
      ensures Matches(tokens, old(currentPosition), [kind]) ==>
        consumed == Some(tokens[old(currentPosition)]) && currentPosition == old(currentPosition) + 1
      ensures !Matches(tokens, old(currentPosition), [kind]) ==>
        consumed == None && currentPosition == old(currentPosition)
    {
      var latest := MatchLatest(kind);
      if latest {
        var previous := Advance();
        return Some(previous);
      }
      return None;
    }

    /** Records the error in the diagnostics and gives it as the failure. */
    method ReportError(message: string) returns (r: Result<Expr, string>)
      requires Valid()
      modifies this
      ensures Follows(Failed(message, old(currentPosition)), r, old(diagnostics))
    {
      diagnostics := diagnostics + [TokenError(LatestToken(), message)];
      r := Failure(message);
    }

    /** Parses an expression; `None` when a grammar error was reported. */
    method Parse() returns (r: Option<Expr>)
      requires Valid()
      modifies this
      ensures var o := ExpressionAt(tokens, old(currentPosition));
        Valid() && currentPosition == o.next && diagnostics == old(diagnostics) + Reported(tokens, o)
        && (r.Some? <==> o.Parsed?) && (o.Parsed? ==> r.value == o.expr)
      ensures r.Some? ==> ParserShaped(r.value) && BasicExpr(r.value)
    {
      ExpressionShaped(tokens, currentPosition);
      var e := Expression();
      if e.Failure? {
        return None;
      }
      ShapedIsBasic(e.value);
      return Some(e.value);
    }

    method Expression() returns (r: Result<Expr, string>)
      requires Valid()
      modifies this
      ensures Follows(ExpressionAt(tokens, old(currentPosition)), r, old(diagnostics))
      decreases |tokens| - currentPosition, 7
    {
      r := Equality();
    }

    method Equality() returns (r: Result<Expr, string>)
      requires Valid()
      modifies this
      ensures Follows(EqualityAt(tokens, old(currentPosition)), r, old(diagnostics))
      decreases |tokens| - currentPosition, 6
    {
      var lhs := Comparison();
      if lhs.Failure? {
        return lhs;
      }
      r := LeftAssociativeBinary(lhs.value, [BangEqual, EqualEqual]);
    }

    method Comparison() returns (r: Result<Expr, string>)
      requires Valid()
      modifies this
      ensures Follows(ComparisonAt(tokens, old(currentPosition)), r, old(diagnostics))
      decreases |tokens| - currentPosition, 5
    {
      var lhs := Term();
      if lhs.Failure? {
        return lhs;
      }
      r := LeftAssociativeBinary(lhs.value, [Greater, GreaterEqual, Less, LessEqual]);
    }

    method Term() returns (r: Result<Expr, string>)
      requires Valid()
      modifies this
      ensures Follows(TermAt(tokens, old(currentPosition)), r, old(diagnostics))
      decreases |tokens| - currentPosition, 4
    {
      var lhs := Factor();
      if lhs.Failure? {
        return lhs;
      }
      r := LeftAssociativeBinary(lhs.value, [Minus, Plus]);
    }

    method Factor() returns (r: Result<Expr, string>)
      requires Valid()
      modifies this
      ensures Follows(FactorAt(tokens, old(currentPosition)), r, old(diagnostics))
      decreases |tokens| - currentPosition, 3
    {
      var lhs := Unary();
      if lhs.Failure? {
        return lhs;
      }
      r := LeftAssociativeBinary(lhs.value, [Slash, Star]);
    }

    method Unary() returns (r: Result<Expr, string>)
      requires Valid()
      modifies this
      ensures Follows(UnaryAt(tokens, old(currentPosition)), r, old(diagnostics))
      decreases |tokens| - currentPosition, 2
    {
      var matched := Match([Bang, Minus], true);
      if matched {
        var operator := PreviousToken();
        var rhs := Unary();
        if rhs.Failure? {
          return rhs;
        }
        return Success(Expr.Unary(operator, rhs.value));
      }
      r := Primary();
    }

    method Primary() returns (r: Result<Expr, string>)
      requires Valid()
      modifies this
      ensures Follows(PrimaryAt(tokens, old(currentPosition)), r, old(diagnostics))
      decreases |tokens| - currentPosition, 1
    {
      var matched := Match([False], true);
      if matched {
        return Success(Literal(BoolValue(false)));
      }
      matched := Match([True], true);
      if matched {
        return Success(Literal(BoolValue(true)));
      }
      matched := Match([Nil], true);
      if matched {
        return Success(Literal(NilValue));
      }
      matched := Match([Number, String], true);
      if matched {
        return Success(Literal(LiteralOf(PreviousToken().literal)));
      }
      matched := Match([LeftParenthesis], true);
      if matched {
        var inner := Expression();
        if inner.Failure? {
          return inner;
        }
        var closing := Consume(RightParenthesis);
        if closing.None? {
          r := ReportError(UnmatchedParenthesisMessage);
          return;
        }
        return Success(Grouping(inner.value));
      }
      r := ReportError(UnexpectedExpressionMessage);
    }

    method LeftAssociativeBinary(lhs: Expr, kinds: seq<TokenType>) returns (r: Result<Expr, string>)
      requires Valid()
      modifies this
      ensures Follows(LeftAssociativeAt(tokens, lhs, lhs, kinds, old(currentPosition)), r, old(diagnostics))
      decreases |tokens| - currentPosition, 0
    {
      var expression := lhs;
      while true
        invariant Valid() && old(currentPosition) <= currentPosition && diagnostics == old(diagnostics)
        invariant LeftAssociativeAt(tokens, lhs, expression, kinds, currentPosition)
               == LeftAssociativeAt(tokens, lhs, lhs, kinds, old(currentPosition))
        decreases |tokens| - currentPosition
      {
        var matched := Match(kinds, true);
        if !matched {
          return Success(expression);
        }
        var operator := PreviousToken();
        var rhs := Comparison();
        if rhs.Failure? {
          return rhs;
        }
        expression := Binary(lhs, operator, rhs.value);
      }
    }

    /**
     * Error recovery: steps over the latest token, then keeps stepping until
     * end of file or a token that starts a statement.  When the token it
     * started on was a `;` it stops right after it.
     */
    method Synchronize()
      requires Valid()
      requires 0 < currentPosition || !ReachedEOF()
      modifies this
      ensures Valid() && diagnostics == old(diagnostics)
      ensures tokens[old(currentPosition)].kind == Semicolon ==> currentPosition == old(currentPosition) + 1
      ensures tokens[old(currentPosition)].kind != Semicolon ==>
        && NextPosition(tokens, old(currentPosition)) <= currentPosition
        && (tokens[currentPosition].kind == Eof || IsStatementStart(tokens[currentPosition].kind))
        && forall j | NextPosition(tokens, old(currentPosition)) <= j < currentPosition ::
             tokens[j].kind != Eof && !IsStatementStart(tokens[j].kind)
    {
      var target := LatestToken();
      var _ := Advance();
      while !ReachedEOF()
        invariant Valid() && diagnostics == old(diagnostics)
        invariant NextPosition(tokens, old(currentPosition)) <= currentPosition
        invariant target.kind == Semicolon ==> currentPosition == old(currentPosition) + 1
        invariant forall j | NextPosition(tokens, old(currentPosition)) <= j < currentPosition ::
          tokens[j].kind != Eof && !IsStatementStart(tokens[j].kind)
        decreases |tokens| - currentPosition
      {
        if target.kind == Semicolon {
          return;
        }
        if IsStatementStart(LatestToken().kind) {
          return;
        }
        var _ := Advance();
      }
    }
  }

  /** The keywords `Synchronize` stops before. */
  predicate IsStatementStart(k: TokenType) {
    k in {Class, Fun, Var, For, If, While, Print, Return}
  }
}
