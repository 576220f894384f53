/**
 * The token vocabulary of Lox: the `TokenType` raw-value table, the single
 * character a kind stands for, the `Token` record, its textual description,
 * and the structural equality the scanner tests compare tokens with.
 */
module Tokens {
  import opened Wrappers

  /** Every kind of token. Punctuation and operators carry their text as raw
      value; every other case uses its own case name as raw value. */
  datatype TokenType =
    // single-character tokens
    | LeftParenthesis | RightParenthesis | LeftBrace | RightBrace
    | Comma | Dot | Minus | Plus | Semicolon | Slash | Star
    | DoubleQuote | UnderScore
    // one or two character tokens
    | Bang | BangEqual | Equal | EqualEqual
    | Greater | GreaterEqual | Less | LessEqual
    // literals
    | Identifier | String | Number
    // keywords
    | And | Class | Else | False | Fun | For | If | Nil | Or | Print
    | Return | Super | This | True | Var | While | Eof

  /** The raw value of each kind. */
  function RawValue(k: TokenType): string
  {
    match k
    case LeftParenthesis => "("
    case RightParenthesis => ")"
    case LeftBrace => "{"
    case RightBrace => "}"
    case Comma => ","
    case Dot => "."
    case Minus => "-"
    case Plus => "+"
    case Semicolon => ";"
    case Slash => "/"
    case Star => "*"
    case DoubleQuote => "\""
    case UnderScore => "_"
    case Bang => "!"
    case BangEqual => "!="
    case Equal => "="
    case EqualEqual => "=="
    case Greater => ">"
    case GreaterEqual => ">="
    case Less => "<"
    case LessEqual => "<="
    case Identifier => "identifier"
    case String => "string"
    case Number => "number"
    case And => "and"
    case Class => "class"
    case Else => "else"
    case False => "false"
    case Fun => "fun"
    case For => "for"
    case If => "if"
    case Nil => "nil"
    case Or => "or"
    case Print => "print"
    case Return => "return"
    case Super => "super"
    case This => "this"
    case True => "true"
    case Var => "var"
    case While => "while"
    case Eof => "eof"
  }

  /** The Swift case name of each kind, which is what string interpolation of
      a kind prints (it differs from the raw value for punctuation). */
  function CaseName(k: TokenType): string
  {
    match k
    case LeftParenthesis => "leftParenthesis"
    case RightParenthesis => "rightParenthesis"
    case LeftBrace => "leftBrace"
    case RightBrace => "rightBrace"
    case Comma => "comma"
    case Dot => "dot"
    case Minus => "minus"
    case Plus => "plus"
    case Semicolon => "semicolon"
    case Slash => "slash"
    case Star => "star"
    case DoubleQuote => "doubleQuote"
    case UnderScore => "underScore"
    case Bang => "bang"
    case BangEqual => "bangEqual"
    case Equal => "equal"
    case EqualEqual => "equalEqual"
    case Greater => "greater"
    case GreaterEqual => "greaterEqual"
    case Less => "less"
    case LessEqual => "lessEqual"
    case _ => RawValue(k)
  }

  /** The kind whose raw value is the single character `c`, if any. */
  function SingleCharacterKind(c: char): (r: Option<TokenType>)
    ensures r.Some? ==> RawValue(r.value) == [c]
  {
    if c == '(' then Some(LeftParenthesis)
    else if c == ')' then Some(RightParenthesis)
    else if c == '{' then Some(LeftBrace)
    else if c == '}' then Some(RightBrace)
    else if c == ',' then Some(Comma)
    else if c == '.' then Some(Dot)
    else if c == '-' then Some(Minus)
    else if c == '+' then Some(Plus)
    else if c == ';' then Some(Semicolon)
    else if c == '/' then Some(Slash)
    else if c == '*' then Some(Star)
    else if c == '"' then Some(DoubleQuote)
    else if c == '_' then Some(UnderScore)
    else if c == '!' then Some(Bang)
    else if c == '=' then Some(Equal)
    else if c == '>' then Some(Greater)
    else if c == '<' then Some(Less)
    else None
  }

  /** The kind whose raw value is `c` followed by `=`, if any. */
  function EqualSuffixedKind(c: char): (r: Option<TokenType>)
    ensures r.Some? ==> RawValue(r.value) == [c, '=']
  {
    if c == '!' then Some(BangEqual)
    else if c == '=' then Some(EqualEqual)
    else if c == '>' then Some(GreaterEqual)
    else if c == '<' then Some(LessEqual)
    else None
  }

  /** The literal kind whose case name is `s`, if any. */
  function LiteralKind(s: string): (r: Option<TokenType>)
    ensures r.Some? ==> RawValue(r.value) == s
  {
    if s == "identifier" then Some(Identifier)
    else if s == "string" then Some(String)
    else if s == "number" then Some(Number)
    else None
  }

  /** The keyword kind from `and` to `nil` whose case name is `s`, if any. */
  function EarlyKeywordKind(s: string): (r: Option<TokenType>)
    ensures r.Some? ==> RawValue(r.value) == s
  {
    if s == "and" then Some(And)
    else if s == "class" then Some(Class)
    else if s == "else" then Some(Else)
    else if s == "false" then Some(False)
    else if s == "fun" then Some(Fun)
    else if s == "for" then Some(For)
    else if s == "if" then Some(If)
    else if s == "nil" then Some(Nil)
    else None
  }

  /** The keyword kind from `or` to `super` whose case name is `s`, if any. */
  function LateKeywordKind(s: string): (r: Option<TokenType>)
    ensures r.Some? ==> RawValue(r.value) == s
  {
    if s == "or" then Some(Or)
    else if s == "print" then Some(Print)
    else if s == "return" then Some(Return)
    else if s == "super" then Some(Super)
    else None
  }

  /** The kind from `this` to `eof` whose case name is `s`, if any. */
  function LastNamedKind(s: string): (r: Option<TokenType>)
    ensures r.Some? ==> RawValue(r.value) == s
  {
    if s == "this" then Some(This)
    else if s == "true" then Some(True)
    else if s == "var" then Some(Var)
    else if s == "while" then Some(While)
    else if s == "eof" then Some(Eof)
    else None
  }

  /** The kind whose raw value is its case name and equals `s`, if any. */
  function NamedKind(s: string): (r: Option<TokenType>)
    ensures r.Some? ==> RawValue(r.value) == s
  {
    if LiteralKind(s).Some? then LiteralKind(s)
    else if EarlyKeywordKind(s).Some? then EarlyKeywordKind(s)
    else if LateKeywordKind(s).Some? then LateKeywordKind(s)
    else LastNamedKind(s)
  }

  /** `TokenType(rawValue:)`: the kind whose raw value is `s`, if any. The
      table is searched by the length of `s` first; no raw value of a named
      kind is shorter than two characters or has `=` as its second one. */
  function FromRawValue(s: string): (r: Option<TokenType>)
    ensures r.Some? ==> RawValue(r.value) == s
  {
    if |s| == 1 then SingleCharacterKind(s[0])
    else if |s| == 2 && s[1] == '=' then EqualSuffixedKind(s[0])
    else NamedKind(s)
  }

  /** The literal kinds and the keywords from `and` to `nil`. */
  predicate EarlyNamed(k: TokenType) {
    match k
    case Identifier | String | Number | And | Class | Else | False | Fun | For | If | Nil => true
    case _ => false
  }

  /** The keywords from `or` to `while`, and end of file. */
  predicate LateNamed(k: TokenType) {
    match k
    case Or | Print | Return | Super | This | True | Var | While | Eof => true
    case _ => false
  }

  /** The round trip for punctuation and operators. */
  lemma {:induction false} SymbolRoundTrip(k: TokenType)
    requires !EarlyNamed(k) && !LateNamed(k)
    ensures FromRawValue(RawValue(k)) == Some(k)
  {
    match k
    case LeftParenthesis =>
    case RightParenthesis =>
    case LeftBrace =>
    case RightBrace =>
    case Comma =>
    case Dot =>
    case Minus =>
    case Plus =>
    case Semicolon =>
    case Slash =>
    case Star =>
    case DoubleQuote =>
    case UnderScore =>
    case Bang =>
    case BangEqual =>
    case Equal =>
    case EqualEqual =>
    case Greater =>
    case GreaterEqual =>
    case Less =>
    case LessEqual =>
    case _ =>
  }

  /** The round trip for literal kinds and the keywords from `and` to `nil`. */
  lemma {:induction false} EarlyNamedRoundTrip(k: TokenType)
    requires EarlyNamed(k)
    ensures FromRawValue(RawValue(k)) == Some(k)
  {
    match k
    case Identifier =>
    case String =>
    case Number =>
    case And =>
    case Class =>
    case Else =>
    case False =>
    case Fun =>
    case For =>
    case If =>
    case Nil =>
    case _ =>
  }

  /** The round trip for the keywords from `or` on. */
  lemma {:induction false} LateNamedRoundTrip(k: TokenType)
    requires LateNamed(k)
    ensures FromRawValue(RawValue(k)) == Some(k)
  {
    match k
    case Or =>
    case Print =>
    case Return =>
    case Super =>
    case This =>
    case True =>
    case Var =>
    case While =>
    case Eof =>
    case _ =>
  }

  /** Raw values are pairwise distinct, so looking up a kind's raw value gives
      that kind back. */
  lemma {:induction false} RawValueRoundTrip(k: TokenType)
    ensures FromRawValue(RawValue(k)) == Some(k)
  {
    if EarlyNamed(k) {
      EarlyNamedRoundTrip(k);
    } else if LateNamed(k) {
      LateNamedRoundTrip(k);
    } else {
      SymbolRoundTrip(k);
    }
  }

  /** The lookup is exact: it finds a kind only for that kind's raw value, so
      together with RawValueRoundTrip it is the inverse of RawValue. */
  lemma {:induction false} LookupIsInverse(s: string, k: TokenType)
    ensures FromRawValue(s) == Some(k) <==> RawValue(k) == s
  {
    if RawValue(k) == s {
      RawValueRoundTrip(k);
    } else if FromRawValue(s) == Some(k) {
      assert false;
    }
  }

  /** `character`: the single character of a one-character raw value, and
      `'\0'` for every longer raw value. */
  function Character(k: TokenType): (c: char)
    ensures |RawValue(k)| == 1 ==> c == RawValue(k)[0]
    ensures |RawValue(k)| != 1 ==> c == '\0'
  {
    var raw := RawValue(k);
    if |raw| == 1 then raw[0] else '\0'
  }

  /** No raw value is the NUL character, so `character` is `'\0'` exactly for
      the two-character operators, the literal kinds and the keywords. */
  lemma {:induction false} CharacterIsNulIffLong(k: TokenType)
    ensures Character(k) == '\0' <==> |RawValue(k)| > 1
  {
    match k
    case LeftParenthesis =>
    case RightParenthesis =>
    case LeftBrace =>
    case RightBrace =>
    case Comma =>
    case Dot =>
    case Minus =>
    case Plus =>
    case Semicolon =>
    case Slash =>
    case Star =>
    case DoubleQuote =>
    case UnderScore =>
    case Bang =>
    case Equal =>
    case Greater =>
    case Less =>
    case _ =>
  }

  /** The literal a token may carry: a number or the text of a string. */
  datatype TokenLiteral = NumberLiteral(number: real) | StringLiteral(text: string)

  /** A scanned token. The datatype constructor stores kind, lexeme, literal
      and line exactly as given, as the Swift initialiser does. */
  datatype Token = Token(kind: TokenType, lexeme: string, literal: Option<TokenLiteral>, line: int)

  /** `"\(literal)"`: a string literal renders as its text, a number through
      the host's number formatting, which is a parameter of the model. */
  function LiteralText(l: TokenLiteral, showNumber: real -> string): string
  {
    match l
    case NumberLiteral(n) => showNumber(n)
    case StringLiteral(s) => s
  }

  /** `description`: kind, a space, the lexeme, a space, then the literal part. */
  function Description(t: Token, showNumber: real -> string): string
  {
    var literalText := match t.literal
      case Some(l) => " -> '" + LiteralText(l, showNumber) + "'"
      case None => "";
    CaseName(t.kind) + " " + t.lexeme + " " + literalText
  }

  /** The equality the scanner tests use for tokens: same kind, lexeme, line
      and literal presence; string and number tokens must moreover both carry
      a literal of their own type, and equal ones. */
  predicate TestEquals(a: Token, b: Token)
  {
    && (a.kind == String ==>
          a.literal.Some? && a.literal.value.StringLiteral? &&
          b.literal.Some? && b.literal.value.StringLiteral? &&
          a.literal.value.text == b.literal.value.text)
    && (a.kind == Number ==>
          a.literal.Some? && a.literal.value.NumberLiteral? &&
          b.literal.Some? && b.literal.value.NumberLiteral? &&
          a.literal.value.number == b.literal.value.number)
    && a.kind == b.kind
    && a.lexeme == b.lexeme
    && a.line == b.line
    && a.literal.Some? == b.literal.Some?
  }

  /** A token whose literal agrees with its kind: string tokens carry a string
      literal, number tokens a number literal, and no other token a literal. */
  predicate WellFormed(t: Token)
  {
    match t.kind
    case String => t.literal.Some? && t.literal.value.StringLiteral?
    case Number => t.literal.Some? && t.literal.value.NumberLiteral?
    case _ => t.literal.None?
  }

  /** On well-formed tokens the test equality is exactly structural equality,
      so the tests pin the scanner's output down completely. */
  lemma {:induction false} TestEqualsIsEquality(a: Token, b: Token)
    requires WellFormed(a) && WellFormed(b)
    ensures TestEquals(a, b) <==> a == b
  {
    if TestEquals(a, b) {
      match a.literal
      case None =>
      case Some(la) =>
        match la
        case NumberLiteral(_) =>
        case StringLiteral(_) =>
    }
  }

  /** A string token whose literal is missing is not even equal to itself. */
  lemma TestEqualsNotReflexive()
    ensures !TestEquals(Token(String, "\"\"", None, 1), Token(String, "\"\"", None, 1))
  {
  }

  /** The diagnostics sink: `Lox.error(_, on:)` reports a message on a line,
      `Lox.reportError(_, at:)` a message at a token. */
  datatype Diagnostic =
    | LineError(line: int, message: string)
    | TokenError(token: Token, message: string)
}
