/**
 * The Lisp-style tree printer.  `Render` is the reference definition of a
 * tree's text; the `TreePrinter` methods build the same text the way the
 * program does, `Parenthesize` appending piece by piece in a loop.
 *
 * How a number is written is a parameter `showNumber`: the program uses the
 * host's rendering of a double, which is not part of this model.
 */
module AstPrinter {
  import opened Tokens
  import opened Syntax

  function LiteralValueText(v: LiteralValue, showNumber: real -> string): string {
    match v
    case NilValue => "nil"
    case BoolValue(b) => if b then "true" else "false"
    case NumberValue(n) => showNumber(n)
    case StringValue(s) => s
  }

  /** Each part preceded by a space, in order. */
  function Spaced(parts: seq<string>): string {
    if parts == [] then "" else Spaced(parts[..|parts| - 1]) + " " + parts[|parts| - 1]
  }

  function Parenthesized(name: string, parts: seq<string>): string {
    "(" + name + Spaced(parts) + ")"
  }

  function Render(e: Expr, showNumber: real -> string): string
    requires BasicExpr(e)
  {
    match e
    case Literal(v) => LiteralValueText(v, showNumber)
    case Binary(lhs, op, rhs) => Parenthesized(op.lexeme, [Render(lhs, showNumber), Render(rhs, showNumber)])
    case Grouping(inner) => Parenthesized("group", [Render(inner, showNumber)])
    case Unary(op, rhs) => Parenthesized(op.lexeme, [Render(rhs, showNumber)])
  }

  function RenderAll(es: seq<Expr>, showNumber: real -> string): (parts: seq<string>)
    requires forall e | e in es :: BasicExpr(e)
    ensures |parts| == |es|
    ensures forall i | 0 <= i < |es| :: parts[i] == Render(es[i], showNumber)
  {
    if es == [] then [] else [Render(es[0], showNumber)] + RenderAll(es[1..], showNumber)
  }

  /** A measure that drops from a node to the list of its children. */
  function Size(e: Expr): nat {
    match e
    case Literal(_) => 1
    case Grouping(inner) => 1 + Size(inner)
    case Unary(_, rhs) => 1 + Size(rhs)
    case Binary(lhs, _, rhs) => 1 + Size(lhs) + Size(rhs)
    case _ => 1
  }

  function SizeAll(es: seq<Expr>): nat {
    if es == [] then 0 else Size(es[0]) + SizeAll(es[1..])
  }

  lemma {:induction false} SizeAllBounds(es: seq<Expr>, i: nat)
    requires i < |es|
    ensures Size(es[i]) <= SizeAll(es)
  {
    if i > 0 {
      SizeAllBounds(es[1..], i - 1);
    }
  }

  class TreePrinter {
    const showNumber: real -> string

    constructor (showNumber: real -> string)
      ensures this.showNumber == showNumber
    {
      this.showNumber := showNumber;
    }

    /** The text of a tree, built by visiting it. */
    method ToString(e: Expr) returns (s: string)
      requires BasicExpr(e)
      ensures s == Render(e, showNumber)
      decreases Size(e), 1
    {
      match e
      case Literal(v) =>
        s := LiteralValueText(v, showNumber);
      case Binary(lhs, op, rhs) =>
        assert [lhs, rhs][1..] == [rhs];
        assert [rhs][1..] == [];
        assert SizeAll([rhs]) == Size(rhs);
        assert SizeAll([lhs, rhs]) == Size(lhs) + Size(rhs);
        s := Parenthesize(op.lexeme, [lhs, rhs]);
        assert RenderAll([lhs, rhs], showNumber) == [Render(lhs, showNumber), Render(rhs, showNumber)];
      case Grouping(inner) =>
        assert SizeAll([inner]) == Size(inner);
        s := Parenthesize("group", [inner]);
        assert RenderAll([inner], showNumber) == [Render(inner, showNumber)];
      case Unary(op, rhs) =>
        assert SizeAll([rhs]) == Size(rhs);
        s := Parenthesize(op.lexeme, [rhs]);
        assert RenderAll([rhs], showNumber) == [Render(rhs, showNumber)];
    }

    /** `(name`, then a space and the text of each expression in order, then `)`. */
    method Parenthesize(name: string, expressions: seq<Expr>) returns (output: string)
      requires forall e | e in expressions :: BasicExpr(e)
      ensures output == Parenthesized(name, RenderAll(expressions, showNumber))
      decreases SizeAll(expressions), 2
    {
      output := "";
      output := output + "(" + name;
      for i := 0 to |expressions|
        invariant output == "(" + name + Spaced(RenderAll(expressions, showNumber)[..i])
      {
        SizeAllBounds(expressions, i);
        output := output + " ";
        var text := ToString(expressions[i]);
        output := output + text;
        assert RenderAll(expressions, showNumber)[..i + 1][..i] == RenderAll(expressions, showNumber)[..i];
      }
      assert RenderAll(expressions, showNumber)[..|expressions|] == RenderAll(expressions, showNumber);
      output := output + ")";
    }
  }
}
