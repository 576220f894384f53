/**
 * The expression evaluator: literals, groupings, unary and binary operations
 * over a tagged value that is absent, a number, a string or a boolean.  An
 * evaluation yields `None` (absent), a success carrying an object, or a
 * runtime error carrying a message, a line and an optional location.
 *
 * Numbers are exact reals.  Division is a parameter `divide`, since the
 * program divides doubles (where dividing by zero is not an error), and how a
 * number is written is a parameter `showNumber`.
 */
module Evaluation {
  import opened Wrappers
  import opened Tokens
  import opened Syntax

  datatype Object =
    | NumberObject(number: real)
    | StringObject(text: string)
    | BoolObject(boolean: bool)

  datatype RuntimeError = RuntimeError(message: string, line: int, location: Option<string>)

  type Value = Result<Object, RuntimeError>

  /** The object a literal node stands for; `nil` stands for no object. */
  function LiteralObject(v: LiteralValue): (r: Option<Object>)
    ensures r.None? <==> v.NilValue?
  {
    match v
    case NilValue => None
    case BoolValue(b) => Some(BoolObject(b))
    case NumberValue(n) => Some(NumberObject(n))
    case StringValue(s) => Some(StringObject(s))
  }

  /**
   * Equality of two evaluation results: two absent results are equal, and two
   * successes are equal when they hold the same kind of object with the same
   * value; anything involving a failure is unequal.
   */
  function Equalish(lhs: Option<Value>, rhs: Option<Value>): (equal: bool)
    ensures equal <==> lhs == rhs && (lhs.None? || lhs.value.Success?)
  {
    if lhs.None? && rhs.None? then true
    else if lhs.None? || rhs.None? then false
    else if lhs.value.Failure? || rhs.value.Failure? then false
    else
      match (lhs.value.value, rhs.value.value)
      case (StringObject(a), StringObject(b)) => a == b
      case (BoolObject(a), BoolObject(b)) => a == b
      case (NumberObject(a), NumberObject(b)) => a == b
      case _ => false
  }

  /** Every object is truthy except the boolean `false`. */
  function TruthyObject(o: Object): (truthy: bool)
    ensures !truthy <==> o == BoolObject(false)
  {
    match o
    case BoolObject(b) => b
    case _ => true
  }

  /** An absent result and a failure are falsy; a success is as truthy as its object. */
  function Truthy(v: Option<Value>): (truthy: bool)
    ensures truthy <==> v.Some? && v.value.Success? && v.value.value != BoolObject(false)
  {
    match v
    case None => false
    case Some(Success(o)) => TruthyObject(o)
    case Some(Failure(_)) => false
  }

  predicate IsEquality(k: TokenType) {
    k == BangEqual || k == EqualEqual
  }

  predicate IsNumberOperator(k: TokenType) {
    k in {Minus, Slash, Star, Plus, Greater, GreaterEqual, Less, LessEqual}
  }

  predicate IsComparison(k: TokenType) {
    k in {Greater, GreaterEqual, Less, LessEqual}
  }

  /** The operand pairs a non-equality operator accepts. */
  predicate Operable(k: TokenType, a: Object, b: Object) {
    (a.NumberObject? && b.NumberObject? && IsNumberOperator(k))
    || (a.StringObject? && b.StringObject? && k == Plus)
  }

  function InternalErrorMessage(k: TokenType): string {
    "An internal error occurred - " + RawValue(k) + " is not an unary, please submit a report"
  }

  function NotUnaryMessage(k: TokenType): string {
    RawValue(k) + " is not an unary"
  }

  function NumberOperation(k: TokenType, a: real, b: real, divide: (real, real) -> real): (r: Object)
    requires IsNumberOperator(k)
    ensures IsComparison(k) <==> r.BoolObject?
  {
    match k
    case Minus => NumberObject(a - b)
    case Slash => NumberObject(divide(a, b))
    case Star => NumberObject(a * b)
    case Plus => NumberObject(a + b)
    case Greater => BoolObject(a > b)
    case GreaterEqual => BoolObject(a >= b)
    case Less => BoolObject(a < b)
    case LessEqual => BoolObject(a <= b)
  }

  /**
   * A binary operation applied to the results of both operands, which are
   * always both evaluated first.  Equality is decided on the results as they
   * are; every other operator first needs two present results, then returns
   * the left failure before the right one, and finally applies the operator.
   */
  function BinaryValue(op: Token, lhs: Option<Value>, rhs: Option<Value>, divide: (real, real) -> real): (r: Option<Value>)
    ensures r.Some?
    ensures IsEquality(op.kind) ==>
      && r.value.Success? && r.value.value.BoolObject?
      && (r.value.value.boolean <==> (op.kind == EqualEqual) == (lhs == rhs && (lhs.None? || lhs.value.Success?)))
    ensures !IsEquality(op.kind) && (lhs.None? || rhs.None?)
      ==> r.value == Failure(RuntimeError("Operand can't be evaluated", op.line, None))
    ensures !IsEquality(op.kind) && lhs.Some? && rhs.Some? && lhs.value.Failure? ==> r == lhs
    ensures !IsEquality(op.kind) && lhs.Some? && rhs.Some? && lhs.value.Success? && rhs.value.Failure? ==> r == rhs
    ensures !IsEquality(op.kind) && lhs.Some? && rhs.Some? && lhs.value.Success? && rhs.value.Success? ==>
      var a, b := lhs.value.value, rhs.value.value;
      && (r.value.Success? <==> Operable(op.kind, a, b))
      && (r.value.Success? && IsComparison(op.kind) ==> r.value.value.BoolObject?)
      && (a.StringObject? && b.StringObject? && op.kind == Plus ==> r.value.value == StringObject(a.text + b.text))
      && (!Operable(op.kind, a, b) ==>
            r.value.error == RuntimeError(InternalErrorMessage(op.kind), op.line, Some("at " + op.lexeme)))
  {
    if op.kind == BangEqual then Some(Success(BoolObject(!Equalish(lhs, rhs))))
    else if op.kind == EqualEqual then Some(Success(BoolObject(Equalish(lhs, rhs))))
    else if lhs.None? || rhs.None? then
      Some(Failure(RuntimeError("Operand can't be evaluated", op.line, None)))
    else if lhs.value.Failure? then lhs
    else if rhs.value.Failure? then rhs
    else
      var a, b := lhs.value.value, rhs.value.value;
      if a.NumberObject? && b.NumberObject? && IsNumberOperator(op.kind) then
        Some(Success(NumberOperation(op.kind, a.number, b.number, divide)))
      else if a.StringObject? && b.StringObject? && op.kind == Plus then
        Some(Success(StringObject(a.text + b.text)))
      else
        Some(Failure(RuntimeError(InternalErrorMessage(op.kind), op.line, Some("at " + op.lexeme))))
  }

  /**
   * A unary operation applied to its operand's result: anything but a success
   * is passed on as it is; `!` negates truthiness and `-` needs a number.
   */
  function UnaryValue(op: Token, rhs: Option<Value>): (r: Option<Value>)
    ensures rhs.None? ==> r.None?
    ensures rhs.Some? ==> r.Some?
    ensures rhs.Some? && rhs.value.Failure? ==> r == rhs
    ensures op.kind == Bang && rhs.Some? && rhs.value.Success? ==>
      r == Some(Success(BoolObject(!TruthyObject(rhs.value.value))))
    ensures op.kind == Minus && rhs.Some? && rhs.value.Success? ==>
      if rhs.value.value.NumberObject? then r == Some(Success(NumberObject(-rhs.value.value.number)))
      else r == Some(Failure(RuntimeError("Operand must be number", op.line, None)))
    ensures op.kind != Bang && op.kind != Minus && rhs.Some? && rhs.value.Success? ==>
      r == Some(Failure(RuntimeError(NotUnaryMessage(op.kind), op.line, Some("at " + op.lexeme))))
  {
    match rhs
    case None => rhs
    case Some(Failure(_)) => rhs
    case Some(Success(o)) =>
      if op.kind == Bang then Some(Success(BoolObject(!TruthyObject(o))))
      else if op.kind == Minus then
        if o.NumberObject? then Some(Success(NumberObject(-o.number)))
        else Some(Failure(RuntimeError("Operand must be number", op.line, None)))
      else Some(Failure(RuntimeError(NotUnaryMessage(op.kind), op.line, Some("at " + op.lexeme))))
  }

  /** The lines of the operator tokens in a tree. */
  function OperatorLines(e: Expr): set<int> {
    match e
    case Grouping(inner) => OperatorLines(inner)
    case Unary(op, rhs) => {op.line} + OperatorLines(rhs)
    case Binary(lhs, op, rhs) => OperatorLines(lhs) + {op.line} + OperatorLines(rhs)
    case _ => {}
  }

  /** The trees that evaluate to nothing: `nil`, possibly grouped or under unary operators. */
  predicate Absent(e: Expr) {
    match e
    case Literal(v) => v.NilValue?
    case Grouping(inner) => Absent(inner)
    case Unary(_, rhs) => Absent(rhs)
    case _ => false
  }

  /**
   * The result of evaluating a tree.  Only a `nil` that no binary operator
   * consumes evaluates to nothing, and every runtime error is reported on the
   * line of one of the tree's operators.
   */
  function Evaluate(e: Expr, divide: (real, real) -> real): (r: Option<Value>)
    requires BasicExpr(e)
    ensures r.None? <==> Absent(e)
    ensures r.Some? && r.value.Failure? ==> r.value.error.line in OperatorLines(e)
  {
    match e
    case Literal(v) =>
      (match LiteralObject(v)
       case None => None
       case Some(o) => Some(Success(o)))
    case Grouping(inner) => Evaluate(inner, divide)
    case Unary(op, rhs) => UnaryValue(op, Evaluate(rhs, divide))
    case Binary(lhs, op, rhs) => BinaryValue(op, Evaluate(lhs, divide), Evaluate(rhs, divide), divide)
  }

  /** The text of a number's rendering without a trailing `.0`. */
  function DropPointZero(text: string): (r: string)
    ensures if |text| >= 2 && text[|text| - 2..] == ".0" then r + ".0" == text else r == text
  {
    if |text| >= 2 && text[|text| - 2..] == ".0" then text[..|text| - 2] else text
  }

  /** How a value is shown: nothing is `nil`, a whole number loses its `.0`. */
  function Stringify(value: Option<Object>, showNumber: real -> string): (s: string)
    ensures value.None? ==> s == "nil"
    ensures value.Some? && value.value.StringObject? ==> s == value.value.text
    ensures value.Some? && value.value.BoolObject? ==> s == (if value.value.boolean then "true" else "false")
    ensures value.Some? && value.value.NumberObject? ==>
      var shown := showNumber(value.value.number);
      s == shown || s + ".0" == shown
  {
    match value
    case None => "nil"
    case Some(NumberObject(n)) => DropPointZero(showNumber(n))
    case Some(StringObject(t)) => t
    case Some(BoolObject(b)) => if b then "true" else "false"
  }
}
