/**
 * Properties of the evaluator: `!=` is the negation of `==`, groupings are
 * transparent, number-only arithmetic never fails, double negation is
 * truthiness, and what the right-nesting parser's trees evaluate to.
 */
module EvaluatorFacts {
  import opened Wrappers
  import opened Tokens
  import opened Syntax
  import opened Evaluation
  import opened Parsing
  import ParserFacts

  /** `a != b` and `a == b` always succeed, with opposite booleans. */
  lemma {:induction false} NotEqualNegatesEqual(lhs: Expr, notEqual: Token, equal: Token, rhs: Expr, divide: (real, real) -> real)
    requires BasicExpr(lhs) && BasicExpr(rhs)
    requires notEqual.kind == BangEqual && equal.kind == EqualEqual
    ensures var ne := Evaluate(Binary(lhs, notEqual, rhs), divide);
            var eq := Evaluate(Binary(lhs, equal, rhs), divide);
      && ne.Some? && ne.value.Success? && ne.value.value.BoolObject?
      && eq.Some? && eq.value.Success? && eq.value.value.BoolObject?
      && ne.value.value.boolean == !eq.value.value.boolean
  {
    var l, r := Evaluate(lhs, divide), Evaluate(rhs, divide);
    assert Evaluate(Binary(lhs, notEqual, rhs), divide) == BinaryValue(notEqual, l, r, divide);
    assert Evaluate(Binary(lhs, equal, rhs), divide) == BinaryValue(equal, l, r, divide);
  }

  /** A failing left operand makes `==` false rather than passing the failure on. */
  lemma {:induction false} FailureComparesUnequal(lhs: Expr, op: Token, rhs: Expr, divide: (real, real) -> real)
    requires BasicExpr(lhs) && BasicExpr(rhs)
    requires op.kind == EqualEqual
    requires var l := Evaluate(lhs, divide); l.Some? && l.value.Failure?
    ensures Evaluate(Binary(lhs, op, rhs), divide) == Some(Success(BoolObject(false)))
  {
    assert Evaluate(Binary(lhs, op, rhs), divide) == BinaryValue(op, Evaluate(lhs, divide), Evaluate(rhs, divide), divide);
  }

  /** The tree with every grouping removed. */
  function Ungroup(e: Expr): (u: Expr)
    requires BasicExpr(e)
    ensures BasicExpr(u)
  {
    match e
    case Literal(_) => e
    case Grouping(inner) => Ungroup(inner)
    case Unary(op, rhs) => Unary(op, Ungroup(rhs))
    case Binary(lhs, op, rhs) => Binary(Ungroup(lhs), op, Ungroup(rhs))
  }

  /** Groupings change nothing about a tree's result. */
  lemma {:induction false} GroupingIsTransparent(e: Expr, divide: (real, real) -> real)
    requires BasicExpr(e)
    ensures Evaluate(Ungroup(e), divide) == Evaluate(e, divide)
  {
    match e
    case Literal(_) =>
    case Grouping(inner) =>
      GroupingIsTransparent(inner, divide);
    case Unary(op, rhs) =>
      GroupingIsTransparent(rhs, divide);
    case Binary(lhs, op, rhs) =>
      GroupingIsTransparent(lhs, divide);
      GroupingIsTransparent(rhs, divide);
  }

  /** Trees built only from number literals, groupings, negation and `+ - * /`. */
  predicate Arithmetic(e: Expr) {
    match e
    case Literal(v) => v.NumberValue?
    case Grouping(inner) => Arithmetic(inner)
    case Unary(op, rhs) => op.kind == Minus && Arithmetic(rhs)
    case Binary(lhs, op, rhs) => op.kind in {Plus, Minus, Star, Slash} && Arithmetic(lhs) && Arithmetic(rhs)
    case _ => false
  }

  lemma {:induction false} ArithmeticIsBasic(e: Expr)
    requires Arithmetic(e)
    ensures BasicExpr(e)
  {
    match e
    case Literal(_) =>
    case Grouping(inner) => ArithmeticIsBasic(inner);
    case Unary(_, rhs) => ArithmeticIsBasic(rhs);
    case Binary(lhs, _, rhs) =>
      ArithmeticIsBasic(lhs);
      ArithmeticIsBasic(rhs);
  }

  /** Arithmetic on numbers never fails: it always yields a number. */
  lemma {:induction false} ArithmeticSucceeds(e: Expr, divide: (real, real) -> real)
    requires Arithmetic(e)
    ensures BasicExpr(e)
    ensures var r := Evaluate(e, divide); r.Some? && r.value.Success? && r.value.value.NumberObject?
  {
    ArithmeticIsBasic(e);
    match e
    case Literal(_) =>
    case Grouping(inner) =>
      ArithmeticSucceeds(inner, divide);
    case Unary(op, rhs) =>
      ArithmeticSucceeds(rhs, divide);
    case Binary(lhs, op, rhs) =>
      ArithmeticSucceeds(lhs, divide);
      ArithmeticSucceeds(rhs, divide);
      var a, b := Evaluate(lhs, divide).value.value, Evaluate(rhs, divide).value.value;
      assert Operable(op.kind, a, b);
  }

  /** `!!e` is the truthiness of `e` whenever `e` succeeds; otherwise `e`'s result passes through. */
  lemma {:induction false} DoubleNegationIsTruthiness(bang: Token, e: Expr, divide: (real, real) -> real)
    requires BasicExpr(e) && bang.kind == Bang
    ensures var r, inner := Evaluate(Unary(bang, Unary(bang, e)), divide), Evaluate(e, divide);
      if inner.Some? && inner.value.Success? then r == Some(Success(BoolObject(Truthy(inner))))
      else r == inner
  {
    var inner := Evaluate(e, divide);
    assert Evaluate(Unary(bang, e), divide) == UnaryValue(bang, inner);
    assert Evaluate(Unary(bang, Unary(bang, e)), divide) == UnaryValue(bang, UnaryValue(bang, inner));
  }

  /** Because `a - b - c` parses as `a - (b - c)`, it evaluates to `a - b + c`. */
  lemma {:induction false} SubtractionChainValue(a: real, b: real, c: real, divide: (real, real) -> real)
    ensures var ts := [ParserFacts.NumberToken(a, "a"), ParserFacts.OperatorToken(Minus), ParserFacts.NumberToken(b, "b"),
                       ParserFacts.OperatorToken(Minus), ParserFacts.NumberToken(c, "c"), ParserFacts.EofToken];
      EofAhead(ts, 0) && ExpressionAt(ts, 0).Parsed? && BasicExpr(ExpressionAt(ts, 0).expr)
      && Evaluate(ExpressionAt(ts, 0).expr, divide) == Some(Success(NumberObject(a - b + c)))
  {
    ParserFacts.SubtractionNestsRight(a, b, c);
    var ea, eb, ec := ParserFacts.NumberLiteralExpr(a), ParserFacts.NumberLiteralExpr(b), ParserFacts.NumberLiteralExpr(c);
    var minus := ParserFacts.OperatorToken(Minus);
    assert Evaluate(Binary(eb, minus, ec), divide) == Some(Success(NumberObject(b - c)));
  }

  /** Because `a == b == c` parses as `a == c`, it is true exactly when `a` equals `c`, whatever `b` is. */
  lemma {:induction false} EqualityChainValue(a: real, b: real, c: real, divide: (real, real) -> real)
    ensures var ts := [ParserFacts.NumberToken(a, "a"), ParserFacts.OperatorToken(EqualEqual), ParserFacts.NumberToken(b, "b"),
                       ParserFacts.OperatorToken(EqualEqual), ParserFacts.NumberToken(c, "c"), ParserFacts.EofToken];
      EofAhead(ts, 0) && ExpressionAt(ts, 0).Parsed? && BasicExpr(ExpressionAt(ts, 0).expr)
      && Evaluate(ExpressionAt(ts, 0).expr, divide) == Some(Success(BoolObject(a == c)))
  {
    ParserFacts.EqualityChainDropsMiddle(a, b, c);
  }
}
