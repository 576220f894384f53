/**
 * Properties of the tree printer: the printed form of the program's sample
 * trees, and that printed trees have balanced parentheses.
 */
module PrinterFacts {
  import opened Tokens
  import opened Syntax
  import opened AstPrinter
  import opened ParserFacts

  lemma {:induction false} SpacedOne(x: string)
    ensures Spaced([x]) == " " + x
  {
    assert [x][..0] == [];
  }

  lemma {:induction false} SpacedTwo(x: string, y: string)
    ensures Spaced([x, y]) == " " + x + " " + y
  {
    assert [x, y][..1] == [x];
    SpacedOne(x);
  }

  lemma {:induction false} SampleGroupText(line: int, showNumber: real -> string)
    requires showNumber(2.0) == "2.0" && showNumber(0.555) == "0.555"
    ensures Render(SampleGroupTree(line), showNumber) == "(group (+ (- 2.0) 0.555))"
  {
    var negated := Unary(OperatorOn(Minus, line), NumberLiteralExpr(2.0));
    NegatedText(line, showNumber);
    BinaryText(negated, OperatorOn(Plus, line), NumberLiteralExpr(0.555), showNumber, "(- 2.0)", "0.555");
    SumTextSplits();
    var sum := Binary(negated, OperatorOn(Plus, line), NumberLiteralExpr(0.555));
    SpacedOne("(+ (- 2.0) 0.555)");
    assert Render(Grouping(sum), showNumber) == "(" + "group" + " " + "(+ (- 2.0) 0.555)" + ")";
    GroupTextSplits();
  }

  lemma GroupTextSplits()
    ensures "(" + "group" + " " + "(+ (- 2.0) 0.555)" + ")" == "(group (+ (- 2.0) 0.555))"
  {
  }

  lemma {:induction false} NegatedText(line: int, showNumber: real -> string)
    requires showNumber(2.0) == "2.0"
    ensures Render(Unary(OperatorOn(Minus, line), NumberLiteralExpr(2.0)), showNumber) == "(- 2.0)"
  {
    SpacedOne("2.0");
  }

  lemma SumTextSplits()
    ensures "(" + "+" + " " + "(- 2.0)" + " " + "0.555" + ")" == "(+ (- 2.0) 0.555)"
  {
  }

  lemma {:induction false} SampleProductText(line: int, showNumber: real -> string)
    requires showNumber(2.0) == "2.0" && showNumber(0.555) == "0.555"
    ensures Render(Binary(NumberLiteralExpr(2.0), OperatorOn(Star, line), SampleGroupTree(line)), showNumber)
         == "(* 2.0 (group (+ (- 2.0) 0.555)))"
  {
    var group := "(group (+ (- 2.0) 0.555))";
    SampleGroupText(line, showNumber);
    BinaryText(NumberLiteralExpr(2.0), OperatorOn(Star, line), SampleGroupTree(line), showNumber, "2.0", group);
    ProductTextSplits();
  }

  lemma ProductTextSplits()
    ensures "(" + "*" + " " + "2.0" + " " + "(group (+ (- 2.0) 0.555))" + ")" == "(* 2.0 (group (+ (- 2.0) 0.555)))"
  {
  }

  /**
   * The tree parsed from `1 + 2.0 * (-2.0 + 0.555)` prints as
   * `(+ 1.0 (* 2.0 (group (+ (- 2.0) 0.555))))` when numbers print with a fraction part.
   */
  lemma {:induction false} SampleTreeText(line: int, showNumber: real -> string)
    requires showNumber(1.0) == "1.0" && showNumber(2.0) == "2.0" && showNumber(0.555) == "0.555"
    ensures Render(SampleTree(line), showNumber) == "(+ 1.0 (* 2.0 (group (+ (- 2.0) 0.555))))"
  {
    var product := "(* 2.0 (group (+ (- 2.0) 0.555)))";
    SampleProductText(line, showNumber);
    BinaryText(NumberLiteralExpr(1.0), OperatorOn(Plus, line),
               Binary(NumberLiteralExpr(2.0), OperatorOn(Star, line), SampleGroupTree(line)), showNumber, "1.0", product);
    SampleTextSplits();
  }

  lemma SampleTextSplits()
    ensures "(" + "+" + " " + "1.0" + " " + "(* 2.0 (group (+ (- 2.0) 0.555)))" + ")"
         == "(+ 1.0 (* 2.0 (group (+ (- 2.0) 0.555))))"
  {
  }

  /** The text of a binary node, from the texts of its operands. */
  lemma {:induction false} BinaryText(lhs: Expr, op: Token, rhs: Expr, showNumber: real -> string, left: string, right: string)
    requires BasicExpr(lhs) && BasicExpr(rhs)
    requires Render(lhs, showNumber) == left && Render(rhs, showNumber) == right
    ensures Render(Binary(lhs, op, rhs), showNumber) == "(" + op.lexeme + " " + left + " " + right + ")"
  {
    SpacedTwo(left, right);
  }

  /**
   * The sample tree `-123 * (45.67)` prints as `(* (- 123) (group 45.67))`.
   * Only the operator's lexeme is printed, so this holds whatever kind the
   * negation token has (the sample gives it the kind `!` with lexeme `-`).
   */
  lemma {:induction false} SampleTreePrints(negation: Token, showNumber: real -> string)
    requires negation.lexeme == "-"
    requires showNumber(123.0) == "123" && showNumber(45.67) == "45.67"
    ensures Render(Binary(Unary(negation, NumberLiteralExpr(123.0)), OperatorToken(Star),
                          Grouping(NumberLiteralExpr(45.67))), showNumber)
         == "(* (- 123) (group 45.67))"
  {
    SpacedOne("123");
    assert Render(Unary(negation, NumberLiteralExpr(123.0)), showNumber) == "(- 123)";
    SpacedOne("45.67");
    assert Render(Grouping(NumberLiteralExpr(45.67)), showNumber) == "(group 45.67)";
    BinaryText(Unary(negation, NumberLiteralExpr(123.0)), OperatorToken(Star),
               Grouping(NumberLiteralExpr(45.67)), showNumber, "(- 123)", "(group 45.67)");
    SecondSampleSplits();
  }

  lemma SecondSampleSplits()
    ensures "(" + "*" + " " + "(- 123)" + " " + "(group 45.67)" + ")" == "(* (- 123) (group 45.67))"
  {
  }

  /** Every literal text and operator lexeme of `e` is free of parentheses. */
  predicate ParenFree(e: Expr, showNumber: real -> string)
    requires BasicExpr(e)
  {
    match e
    case Literal(v) => Count(LiteralValueText(v, showNumber), '(') == 0 && Count(LiteralValueText(v, showNumber), ')') == 0
    case Grouping(inner) => ParenFree(inner, showNumber)
    case Unary(op, rhs) => Count(op.lexeme, '(') == 0 && Count(op.lexeme, ')') == 0 && ParenFree(rhs, showNumber)
    case Binary(lhs, op, rhs) =>
      Count(op.lexeme, '(') == 0 && Count(op.lexeme, ')') == 0 && ParenFree(lhs, showNumber) && ParenFree(rhs, showNumber)
  }

  function Count(s: string, c: char): nat {
    multiset(s)[c]
  }

  /** A printed tree has as many closing as opening parentheses. */
  lemma {:induction false} RenderBalanced(e: Expr, showNumber: real -> string)
    requires BasicExpr(e) && ParenFree(e, showNumber)
    ensures Count(Render(e, showNumber), '(') == Count(Render(e, showNumber), ')')
  {
    match e
    case Literal(_) =>
    case Grouping(inner) =>
      RenderBalanced(inner, showNumber);
      OneChildBalanced("group", Render(inner, showNumber));
    case Unary(op, rhs) =>
      RenderBalanced(rhs, showNumber);
      OneChildBalanced(op.lexeme, Render(rhs, showNumber));
    case Binary(lhs, op, rhs) =>
      RenderBalanced(lhs, showNumber);
      RenderBalanced(rhs, showNumber);
      TwoChildrenBalanced(op.lexeme, Render(lhs, showNumber), Render(rhs, showNumber));
  }

  lemma {:induction false} OneChildBalanced(name: string, text: string)
    requires Count(name, '(') == 0 && Count(name, ')') == 0 && Count(text, '(') == Count(text, ')')
    ensures Count(Parenthesized(name, [text]), '(') == Count(Parenthesized(name, [text]), ')')
  {
    ParenthesizedCounts(name, [text]);
    CountAllOne(text);
  }

  lemma {:induction false} TwoChildrenBalanced(name: string, left: string, right: string)
    requires Count(name, '(') == 0 && Count(name, ')') == 0
    requires Count(left, '(') == Count(left, ')') && Count(right, '(') == Count(right, ')')
    ensures Count(Parenthesized(name, [left, right]), '(') == Count(Parenthesized(name, [left, right]), ')')
  {
    ParenthesizedCounts(name, [left, right]);
    CountAllTwo(left, right);
  }

  lemma {:induction false} CountAllOne(x: string)
    ensures CountAll([x], '(') == Count(x, '(') && CountAll([x], ')') == Count(x, ')')
  {
    assert [x][..0] == [];
  }

  lemma {:induction false} CountAllTwo(x: string, y: string)
    ensures CountAll([x, y], '(') == Count(x, '(') + Count(y, '(')
    ensures CountAll([x, y], ')') == Count(x, ')') + Count(y, ')')
  {
    assert [x, y][..1] == [x];
    CountAllOne(x);
  }

  function CountAll(parts: seq<string>, c: char): nat {
    if parts == [] then 0 else CountAll(parts[..|parts| - 1], c) + Count(parts[|parts| - 1], c)
  }

  lemma {:induction false} SpacedCounts(parts: seq<string>, c: char)
    requires c != ' '
    ensures Count(Spaced(parts), c) == CountAll(parts, c)
  {
    if parts != [] {
      SpacedCounts(parts[..|parts| - 1], c);
      assert multiset(Spaced(parts))
          == multiset(Spaced(parts[..|parts| - 1])) + multiset(" ") + multiset(parts[|parts| - 1]);
    }
  }

  lemma {:induction false} ParenthesizedCounts(name: string, parts: seq<string>)
    requires Count(name, '(') == 0 && Count(name, ')') == 0
    ensures Count(Parenthesized(name, parts), '(') == 1 + CountAll(parts, '(')
    ensures Count(Parenthesized(name, parts), ')') == 1 + CountAll(parts, ')')
  {
    SpacedCounts(parts, '(');
    SpacedCounts(parts, ')');
    assert multiset(Parenthesized(name, parts)) == multiset("(") + multiset(name) + multiset(Spaced(parts)) + multiset(")");
  }
}
