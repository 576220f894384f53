# slox core in Dafny

A model of the core of **slox**, a Lox interpreter written in Swift, with
proofs about it.  The model covers:

- the token table;
- the scanner, which turns source text into tokens;
- the recursive-descent expression parser;
- the Lisp-style tree printer;
- the expression evaluator;
- the static resolver, which computes binding depths;
- the run-time entities: environment, function, class and instance;
- the code generator, which writes the Swift source of a syntax tree
  through an indenting text printer.

| file | module | models |
|---|---|---|
| `wrappers.dfy` | `Wrappers` | `Option` and `Result` |
| `tokens.dfy` | `Tokens` | `TokenType` with its raw values, `character`, `Token`, `description`, the test equality on tokens |
| `lexer.dfy` | `Lexer` | the `Scanner` class; one step and a whole scan as reference functions |
| `lexer_facts.dfy` | `LexerFacts` | line counting, lexeme slices, per-character behaviour, number values, the scanner tests |
| `syntax.dfy` | `Syntax` | expression and statement trees, with node ids |
| `parser.dfy` | `Parsing` | the `Parser` class; the grammar as reference functions |
| `parser_facts.dfy` | `ParserFacts` | associativity quirks, error reporting, the parser test |
| `printer.dfy` | `AstPrinter` | the tree printer and `parenthesize` |
| `printer_facts.dfy` | `PrinterFacts` | sample texts, balanced parentheses |
| `evaluator.dfy` | `Evaluation` | equality, truthiness, the unary and binary operators, `toString` |
| `evaluator_facts.dfy` | `EvaluatorFacts` | `!=` against `==`, groupings, arithmetic, chains |
| `runtime.dfy` | `Runtime` | `Environment`, `LoxFunction`, `LoxClass`, `LoxInstance` |
| `resolver.dfy` | `Resolution` | the `Resolver` class; one walk as reference functions |
| `resolver_facts.dfy` | `ResolverFacts` | scope balance, restored kinds, error checks, binding depths |
| `codegen.dfy` | `CodeGeneration` | `CodePrinter` and the `write*` methods of the generator |
| `codegen_facts.dfy` | `CodeGenerationFacts` | splitting and joining, names, one line per item, line breaks |

Six components of slox update state in place, and each is a class in the
model whose methods update the same fields as the source:

- the `Scanner`: its cursors, line counter and token list;
- the `Parser`: its cursor;
- the `Resolver`: its scope stack, enclosing kinds and side table;
- the `Environment`: its bindings;
- the `LoxInstance`: its fields;
- the `CodePrinter`: its output and indentation level, written through by
  the generator.

The scanner, parser and resolver methods are each proved to end in the
state that a reference function of the old state gives.  The properties are
then proved about the reference functions.  `define` and `set` are proved
to change exactly one binding or field.  Each writer of the code generator
is proved to append exactly the rendering of a list of lines and to leave
the indentation level as it found it.  Each line in that list sits at a
depth relative to the writer's starting level.

The evaluator, the token table and the printer's `visit` methods are pure.
They are modelled as functions.

Numbers are exact reals.  Two operations are parameters of the model:
`divide`, because the program divides IEEE doubles, and `showNumber`,
which is how Swift writes a double.  The diagnostics that `Lox.error` and
`Lox.reportError` would print are appended to a `diagnostics` sequence.

The two copies of the scanner, `Sources/Lox/Scanner.swift` and
`Sources/Scanner.swift`, have the same logic.  One model serves both.

Where slox departs from the usual Lox semantics, the model follows the code:

- A newline is counted when the cursor lands on it.  A newline at
  position 0 is never counted.
- A newline outside strings and comments is reported as an unexpected
  character.
- A token carries the line the cursor has reached when the token ends, not
  the line where it starts.
- An unterminated `/*` comment makes the scan trap; it is not reported.
- The parser parses expressions only.  The right operand of every binary
  level is parsed at the comparison level, and the node is built from the
  first left operand.  So `a - b - c` is `a - (b - c)`, and `a == b == c`
  is `a == c`.
- A class's arity is always 0.
- `Environment.get` consults only its own bindings.
- A binary operator applied to the wrong operand types fails with the
  "internal error … is not an unary" message.

## Model

| member | source | states |
|---|---|---|
| Tokens.FromRawValue | Sources/Lox/Token.swift:11-59 | `TokenType(rawValue:)`: a kind is found only for a text that is its raw value |
| Tokens.SymbolRoundTrip | Sources/Lox/Token.swift:13-35 | each punctuation or operator kind is found again from its own raw value |
| Tokens.EarlyNamedRoundTrip | Sources/Lox/Token.swift:38-50 | each literal kind and each keyword from `and` to `nil` is found again from its case name |
| Tokens.LateNamedRoundTrip | Sources/Lox/Token.swift:51-59 | each keyword from `or` to `while`, and `eof`, is found again from its case name |
| Tokens.RawValueRoundTrip | Sources/Lox/Token.swift:11-59 | raw values are pairwise distinct: `TokenType(rawValue: k.rawValue) == k` for every kind |
| Tokens.LookupIsInverse | Sources/Lox/Token.swift:11-59 | the lookup finds `k` from `s` if and only if `s` is `k`'s raw value |
| Tokens.Character | Sources/Lox/Token.swift:64-66 | `character` is the raw value's only character when it has one character, and `'\0'` otherwise |
| Tokens.CharacterIsNulIffLong | Sources/Lox/Token.swift:61-66 | `character` is `'\0'` exactly for the kinds with raw values longer than one character |
| Tokens.TestEqualsIsEquality | Tests/LoxTests/LoxTests.swift:195-228 | on well-formed tokens, the tests' `==` holds exactly for identical tokens |
| Tokens.TestEqualsNotReflexive | Tests/LoxTests/LoxTests.swift:198-204 | a `string` token without a literal is not equal to itself under the tests' `==` |
| Lexer.DigitsEnd | Sources/Lox/Scanner.swift:152-154 | the end of the maximal run of digits from a position |
| Lexer.NumberEnd | Sources/Lox/Scanner.swift:151-163 | what a number takes is digits with at most one `.`, which has a digit after it; it stops before a non-digit, and it does not stop before a `.` and a digit when it has taken no `.` yet |
| Lexer.IdentifierEnd | Sources/Lox/Scanner.swift:173-176 | the end of the maximal run of letters, digits and `_` |
| Lexer.FirstFrom | Sources/Lox/Scanner.swift:112-148 | where advancing until a given character stops: its first occurrence from the cursor, or the end; this ends a string at its closing `"` and a `//` comment before its newline |
| Lexer.BlockCommentEnd | Sources/Lox/Scanner.swift:115-117 | a `/*` comment stops at the first position holding `*` or followed by `/`; none means the scan traps |
| Lexer.OneOrTwo | Sources/Lox/Scanner.swift:98-109 | `=`, `!`, `<`, `>` produce a token one or two characters long, within the source |
| Lexer.StepAt | Sources/Lox/Scanner.swift:72-129 | every `scanToken` step that does not trap consumes at least one character and stays within the source |
| Lexer.TokensFromStep | Sources/Lox/Scanner.swift:59-63 | the tokens of a scan are the first step's tokens followed by the tokens of the rest |
| Lexer.ReportsFromStep | Sources/Lox/Scanner.swift:59-63 | the diagnostics of a scan are the first step's followed by those of the rest |
| Lexer.Scanner.constructor | Sources/Lox/Scanner.swift:34-38 | a new scanner stands at position 0 on line 1, with no tokens; the newline setter is bypassed |
| Lexer.Scanner.SetCurrentIndex | Sources/Lox/Scanner.swift:20-28 | moving the cursor counts one line exactly when it lands on a newline inside the source |
| Lexer.Scanner.Advance | Sources/Lox/Scanner.swift:185-188 | the cursor moves one on and the character under it is returned |
| Lexer.Scanner.AddToken | Sources/Lox/Scanner.swift:194-198 | appends one token whose lexeme is the text between the cursors, on the current line |
| Lexer.Scanner.MatchThenAdvance | Sources/Lox/Scanner.swift:203-211 | consumes the character under the cursor exactly when it is the expected one |
| Lexer.Scanner.ScanString | Sources/Lox/Scanner.swift:132-148 | a terminated string adds a `string` token carrying the text between the quotes; otherwise it reports and adds a `"` token |
| Lexer.Scanner.SkipDigits | Sources/Lox/Scanner.swift:152-154 | the cursor ends at the end of the run of digits |
| Lexer.Scanner.ScanNumber | Sources/Lox/Scanner.swift:151-170 | adds one `number` token whose lexeme is the number text and whose literal is its decimal value |
| Lexer.Scanner.ScanKeywordAndIdentifier | Sources/Lox/Scanner.swift:173-181 | adds one token whose kind is the raw-value lookup of the word, else `identifier` |
| Lexer.Scanner.SkipLineComment | Sources/Lox/Scanner.swift:112-114 | the cursor ends at the next newline or the end |
| Lexer.Scanner.SkipBlockComment | Sources/Lox/Scanner.swift:115-117 | the cursor ends where the comment stops, or the scan traps when it never does |
| Lexer.Scanner.ScanOperator | Sources/Lox/Scanner.swift:78-109 | the punctuation and operator cases take exactly the step the reference function gives |
| Lexer.Scanner.ScanToken | Sources/Lox/Scanner.swift:72-129 | one call takes exactly the reference step: its tokens, its diagnostics, its new position and line |
| Lexer.Scanner.ScanTokens | Sources/Lox/Scanner.swift:59-69 | the result and the diagnostics are exactly the reference scan from the cursor, ending with `eof` |
| LexerFacts.ScanEndsWithEof | Sources/Lox/Scanner.swift:65-68 | a scan that does not trap ends with an empty `eof` token on the final line |
| LexerFacts.EmptySourceScan | Sources/Scanner.swift:54-64 | the empty source scans to exactly `[eof]` on line 1 |
| LexerFacts.NewlinesCounted | Sources/Lox/Scanner.swift:20-38 | at position k the counter holds 1 plus the newlines at positions 1 through k |
| LexerFacts.FinalLine | Sources/Scanner.swift:19-35 | the final line is 1 plus the newlines after position 0 |
| LexerFacts.ScanLinesOrdered | Sources/Lox/Scanner.swift:59-69 | token lines never decrease and lie between the starting line and the final line |
| LexerFacts.LexemesAreSlices | Sources/Lox/Scanner.swift:194-198 | every lexeme but `eof`'s is a non-empty slice of the source; the slices do not overlap and are in source order |
| LexerFacts.ScannedTokensWellFormed | Sources/Lox/Scanner.swift:132-180 | every scanned token is well formed (a string literal on `string` tokens, a number literal on `number` tokens, no literal elsewhere), except tokens whose lexeme is the word `string` or `number`: the keyword lookup of Scanner.swift:179 turns those into `string`/`number` tokens without a literal |
| LexerFacts.PunctuationStep | Sources/Lox/Scanner.swift:78-97 | a punctuation character is a one-character token of its kind |
| LexerFacts.MaximalMunch | Sources/Scanner.swift:92-103 | `=`, `!`, `<`, `>` followed by `=` give the two-character kind, otherwise the one-character kind |
| LexerFacts.TerminatedStringStep | Sources/Lox/Scanner.swift:138-145 | a terminated string is a `string` token whose lexeme is `"` + literal + `"` |
| LexerFacts.UnterminatedStringStep | Sources/Lox/Scanner.swift:133-137 | an unterminated string reports "Unterminated string." and gives a `"` token running to the end |
| LexerFacts.NumberStep | Sources/Lox/Scanner.swift:151-170 | a digit starts a `number` token whose lexeme is the longest text there of the shape digits, optionally `.` and more digits, and whose literal is its decimal value |
| LexerFacts.NumberTextCharacters | Sources/Lox/Scanner.swift:151-163 | a number text holds at most one non-digit, a `.` with a digit after it |
| LexerFacts.IdentifierStep | Sources/Lox/Scanner.swift:173-181 | a letter or `_` starts a maximal word, whose kind is its lookup or `identifier` |
| LexerFacts.WhitespaceStep | Sources/Lox/Scanner.swift:126 | a blank, carriage return or tab is skipped |
| LexerFacts.UnexpectedStep | Sources/Lox/Scanner.swift:127 | any other character is reported and adds no token |
| LexerFacts.NewlineIsUnexpected | Sources/Lox/Scanner.swift:126-127 | a newline outside a string or comment is an unexpected character |
| LexerFacts.LineCommentStep | Sources/Lox/Scanner.swift:112-114 | `//` skips up to, but not over, the next newline |
| LexerFacts.BlockCommentStep | Sources/Lox/Scanner.swift:115-117 | `/*` skips to its stopping position without consuming a `*/`, or traps |
| LexerFacts.DecimalValueScaled | Sources/Lox/Scanner.swift:164-169 | a number's value is the integer of all its digits divided by ten to the fraction's length |
| LexerFacts.IntegerValue | Sources/Lox/Scanner.swift:164-169 | a number without a fraction has the value of its digits |
| LexerFacts.TrailingZerosIgnored | Sources/Lox/Scanner.swift:164-169 | trailing zeros in the fraction do not change the value |
| LexerFacts.TrailingZerosTest | Tests/LoxTests/LoxTests.swift:160-161 | `1234` and `1234.0000` both have the value 1234 |
| LexerFacts.ZeroTest | Tests/LoxTests/LoxTests.swift:156 | `0.0` has the value 0 |
| LexerFacts.LongFractionTest | Tests/LoxTests/LoxTests.swift:157 | `3.1415926` has the value 3.1415926 |
| LexerFacts.SmallFractionTest | Tests/LoxTests/LoxTests.swift:158 | `0.1111` has the value 0.1111 |
| LexerFacts.WholeFractionTest | Tests/LoxTests/LoxTests.swift:159 | `1111.0` has the value 1111 |
| LexerFacts.SingleLine | Sources/Lox/Scanner.swift:20-28 | a source without newlines stays on line 1 |
| LexerFacts.OneStepScan | Sources/Lox/Scanner.swift:59-69 | a source consumed by one token-producing step scans to that token and `eof` |
| LexerFacts.WordScan | Sources/Lox/Scanner.swift:173-181 | a source that is one word scans to the kind that word looks up to, then `eof` |
| LexerFacts.IdentifierTest | Tests/LoxTests/LoxTests.swift:83-100 | `Hello` scans to one `identifier` token and `eof` on line 1 |
| LexerFacts.StringSourceScan | Tests/LoxTests/LoxTests.swift:103-152 | a quoted text without quotes scans to one `string` token carrying that text, on line 1 + its newlines, and `eof` on the same line |
| LexerFacts.NumberSourceScan | Tests/LoxTests/LoxTests.swift:154-176 | a source that is one number scans to one `number` token carrying its value, and `eof` |
| LexerFacts.LoneQuoteScan | Tests/LoxTests/LoxTests.swift:25 | a lone `"` scans to a `"` token and `eof` |
| LexerFacts.KindScan | Tests/LoxTests/LoxTests.swift:12-81 | every kind's raw value scanned alone gives that kind with that lexeme on line 1, then `eof` |
| LexerFacts.PunctuationKindScan | Tests/LoxTests/LoxTests.swift:12-48 | the same for the single-character kinds |
| LexerFacts.OperatorKindScan | Tests/LoxTests/LoxTests.swift:27-34 | the same for the one- or two-character operator kinds |
| LexerFacts.WordKindScan | Tests/LoxTests/LoxTests.swift:50-81 | the same for the keywords and the other named kinds |
| LexerFacts.TrailingDotSteps | Sources/Lox/Scanner.swift:156-158 | in `1.` the `.` is not part of the number; it becomes a `dot` token |
| LexerFacts.BlockCommentSteps | Sources/Lox/Scanner.swift:115-117 | `/* a */` stops on the closing `*`, which is then scanned as `*` and `/` tokens |
| LexerFacts.SlashEndsBlockCommentSteps | Sources/Lox/Scanner.swift:117 | a block comment also stops on the character before a `/` |
| LexerFacts.UnterminatedBlockCommentTraps | Sources/Lox/Scanner.swift:49-55 | `/*` with no stopping position reaches the end inside `upcomingCharacter` and traps |
| LexerFacts.NewlineSteps | Sources/Lox/Scanner.swift:20-28 | a token just before a newline already carries the next line; the newline is then reported on that line |
| LexerFacts.LeadingNewlineSteps | Sources/Lox/Scanner.swift:34-38 | a newline at position 0 is reported on line 1 and never counted |
| LexerFacts.LineCommentSteps | Sources/Lox/Scanner.swift:112-114 | a line comment leaves its newline behind, to be reported |
| Parsing.ExpressionAt | Sources/Lox/Parser.swift:36-38 | `expression` never moves before its start or past end of file; a success consumes at least one token |
| Parsing.EqualityAt | Sources/Lox/Parser.swift:40-42 | the same bounds for `equality` |
| Parsing.ComparisonAt | Sources/Lox/Parser.swift:44-46 | the same bounds for `comparison` |
| Parsing.TermAt | Sources/Lox/Parser.swift:48-50 | the same bounds for `term` |
| Parsing.FactorAt | Sources/Lox/Parser.swift:52-54 | the same bounds for `factor` |
| Parsing.UnaryAt | Sources/Lox/Parser.swift:56-64 | the same bounds for `unary` |
| Parsing.PrimaryAt | Sources/Lox/Parser.swift:67-94 | the same bounds for `primary` |
| Parsing.LeftAssociativeAt | Sources/Lox/Parser.swift:96-107 | the binary loop never moves before its start or past end of file |
| Parsing.ExpressionShaped | Sources/Lox/Parser.swift:36-107 | every tree the grammar builds is made of literals, groupings, `!`/`-` nodes and binary operator nodes |
| Parsing.LevelShaped | Sources/Lox/Parser.swift:96-107 | the binary loop builds only binary operator nodes over such trees |
| Parsing.Parser.constructor | Sources/Lox/Parser.swift:24-26 | a new parser stands at the first token, with nothing reported |
| Parsing.Parser.Advance | Sources/Lox/Parser.swift:115-120 | moves one token on except at end of file, and returns the token before the cursor |
| Parsing.Parser.MatchLatest | Sources/Lox/Parser.swift:131-134 | true exactly when the latest token has the kind and is not end of file |
| Parsing.Parser.Match | Sources/Lox/Parser.swift:136-152 | advances exactly one token if and only if advancing is allowed and the latest token is one of the kinds |
| Parsing.Parser.Consume | Sources/Lox/Parser.swift:122-128 | on a kind match it advances one token and returns it; otherwise it fails without moving |
| Parsing.Parser.ReportError | Sources/Lox/Parser.swift:168-171 | records the message at the latest token and returns it as the failure |
| Parsing.Parser.Parse | Sources/Lox/Parser.swift:28-34 | `None` exactly when the grammar failed; it does not require every token to be consumed |
| Parsing.Parser.Expression | Sources/Lox/Parser.swift:36-38 | ends in the state, result and diagnostics that `ExpressionAt` gives |
| Parsing.Parser.Equality | Sources/Lox/Parser.swift:40-42 | ends as `EqualityAt` gives |
| Parsing.Parser.Comparison | Sources/Lox/Parser.swift:44-46 | ends as `ComparisonAt` gives |
| Parsing.Parser.Term | Sources/Lox/Parser.swift:48-50 | ends as `TermAt` gives |
| Parsing.Parser.Factor | Sources/Lox/Parser.swift:52-54 | ends as `FactorAt` gives |
| Parsing.Parser.Unary | Sources/Lox/Parser.swift:56-64 | ends as `UnaryAt` gives |
| Parsing.Parser.Primary | Sources/Lox/Parser.swift:67-94 | ends as `PrimaryAt` gives |
| Parsing.Parser.LeftAssociativeBinary | Sources/Lox/Parser.swift:96-107 | ends as `LeftAssociativeAt` gives, from the original left operand |
| Parsing.Parser.Synchronize | Sources/Lox/Parser.swift:174-190 | from `;` it advances exactly one; otherwise it stops at the first statement keyword or end of file after the entry token |
| ParserFacts.LiteralOperand | Sources/Lox/Parser.swift:77-79 | a number token parses to a literal carrying its value |
| ParserFacts.KeywordLiteral | Sources/Lox/Parser.swift:68-76 | `false`, `true` and `nil` each parse to their own literal, consuming one token |
| ParserFacts.UnexpectedOperand | Sources/Lox/Parser.swift:93 | any token that cannot start an operand, end of file included, fails with "Unexpected expression" where it stands, at the unary level too unless it is `!` or `-` |
| ParserFacts.Negation | Sources/Lox/Parser.swift:56-61 | `!` or `-` followed by a unary gives a unary node over it |
| ParserFacts.Group | Sources/Lox/Parser.swift:80-91 | `(` expression `)` gives a grouping |
| ParserFacts.LevelStep | Sources/Lox/Parser.swift:100-105 | a level that meets its operator builds the node from its first left operand and a comparison |
| ParserFacts.EqualityChainDropsMiddle | Sources/Lox/Parser.swift:100-105 | `a == b == c` parses to `a == c`: the middle operand is dropped |
| ParserFacts.SubtractionNestsRight | Sources/Lox/Parser.swift:103-104 | `a - b - c` parses to `a - (b - c)` |
| ParserFacts.ProductTakesWholeSum | Sources/Lox/Parser.swift:103 | `a * b + c` parses to `a * (b + c)` |
| ParserFacts.TrailingTokensIgnored | Sources/Lox/Parser.swift:28-34 | parsing succeeds after a complete expression without looking at the tokens after it |
| ParserFacts.FailsThrough | Sources/Lox/Parser.swift:36-64 | a failure at the unary level is the failure of the whole expression, at the same token |
| ParserFacts.EmptyInputReported | Sources/Lox/Parser.swift:93 | a source that is only end of file reports "Unexpected expression" at that token |
| ParserFacts.UnclosedGroupReported | Sources/Lox/Parser.swift:83-88 | an unclosed group reports the missing `)` at the token where it was expected |
| ParserFacts.SampleParse | Tests/LoxTests/ParserTest.swift:15-20 | the tokens of `1 + 2.0 * (-2.0 + 0.555)`, written out by hand, parse to the tree the test prints |
| AstPrinter.RenderAll | Sources/Lox/AbstractSyntaxTreePrinter.swift:41-44 | one text per expression, in order, each the expression's own text |
| AstPrinter.TreePrinter.ToString | Sources/Lox/AbstractSyntaxTreePrinter.swift:13-34 | visiting a tree gives its text: `nil`, `(op lhs rhs)`, `(group e)`, `(op e)` |
| AstPrinter.TreePrinter.Parenthesize | Sources/Lox/AbstractSyntaxTreePrinter.swift:36-49 | `(name`, then a space and each expression's text in order, then `)` |
| PrinterFacts.BinaryText | Sources/Lox/AbstractSyntaxTreePrinter.swift:24-26 | a binary node prints as `(` lexeme, space, left text, space, right text `)` |
| PrinterFacts.NegatedText | Sources/Lox/AbstractSyntaxTreePrinter.swift:32-34 | `-2.0` prints as `(- 2.0)`, using only the operator's lexeme |
| PrinterFacts.SampleGroupText | Sources/Lox/AbstractSyntaxTreePrinter.swift:28-30 | the sample grouping prints as `(group (+ (- 2.0) 0.555))` |
| PrinterFacts.SampleTreeText | Tests/LoxTests/ParserTest.swift:32 | the parsed sample prints as `(+ 1.0 (* 2.0 (group (+ (- 2.0) 0.555))))` |
| PrinterFacts.SampleTreePrints | Tests/LoxTests/AbstractSyntaxTreeTest.swift:13-26 | `-123 * (45.67)` prints as `(* (- 123) (group 45.67))`, whatever kind the `-` token has |
| PrinterFacts.RenderBalanced | Sources/Lox/AbstractSyntaxTreePrinter.swift:36-49 | a printed tree has as many `(` as `)` when its lexemes and literals hold none |
| PrinterFacts.SpacedCounts | Sources/Lox/AbstractSyntaxTreePrinter.swift:41-44 | the space-separated parts hold exactly the parentheses of the parts |
| PrinterFacts.ParenthesizedCounts | Sources/Lox/AbstractSyntaxTreePrinter.swift:36-49 | `parenthesize` adds exactly one `(` and one `)` |
| Evaluation.LiteralObject | Sources/Lox/Interpreter.swift:98-103 | a literal is absent exactly when it is `nil` |
| Evaluation.Equalish | Sources/Lox/Interpreter.swift:154-187 | equal exactly when both are absent, or both are the same successful object; a failure is never equal |
| Evaluation.TruthyObject | Sources/Lox/Interpreter.swift:202-210 | an object is falsy exactly when it is `false` |
| Evaluation.Truthy | Sources/Lox/Interpreter.swift:189-200 | truthy exactly for a success whose object is not `false`; absence and failure are falsy |
| Evaluation.NumberOperation | Sources/Lox/Interpreter.swift:54-75 | on two numbers, the comparisons give booleans and `- / * +` give numbers |
| Evaluation.BinaryValue | Sources/Lox/Interpreter.swift:22-92 | `==`/`!=` always succeed; otherwise absence fails, the left failure wins, then the right; operable operands succeed; anything else fails on the operator's line at its lexeme |
| Evaluation.UnaryValue | Sources/Lox/Interpreter.swift:105-128 | absence stays absent, a failure passes through, `!` negates truthiness, `-` needs a number, other operators fail |
| Evaluation.Evaluate | Sources/Lox/Interpreter.swift:22-128 | a tree is absent exactly when it is `nil` under groupings and unary operators; every failure is on the line of one of its operators |
| Evaluation.DropPointZero | Sources/Lox/Interpreter.swift:138-144 | a trailing `.0` is removed, and only that |
| Evaluation.Stringify | Sources/Lox/Interpreter.swift:135-148 | absence is `nil`; strings and booleans show as themselves; a number shows as its rendering, possibly without `.0` |
| EvaluatorFacts.NotEqualNegatesEqual | Sources/Lox/Interpreter.swift:30-37 | `a != b` and `a == b` both succeed, with opposite booleans |
| EvaluatorFacts.FailureComparesUnequal | Sources/Lox/Interpreter.swift:33-34 | a failing left operand makes `==` false instead of propagating |
| EvaluatorFacts.GroupingIsTransparent | Sources/Lox/Interpreter.swift:94-96 | removing every grouping leaves the result unchanged |
| EvaluatorFacts.ArithmeticSucceeds | Sources/Lox/Interpreter.swift:53-75 | arithmetic on number literals never fails and always gives a number |
| EvaluatorFacts.DoubleNegationIsTruthiness | Sources/Lox/Interpreter.swift:114-116 | `!!e` is the truthiness of a successful `e`; otherwise `e`'s result passes through |
| EvaluatorFacts.SubtractionChainValue | Sources/Lox/Interpreter.swift:56-57 | parsed and evaluated, `a - b - c` is `a - b + c` |
| EvaluatorFacts.EqualityChainValue | Sources/Lox/Interpreter.swift:33-34 | parsed and evaluated, `a == b == c` is true exactly when `a` equals `c` |
| Runtime.Lookup | Sources/Lox/Environment.swift:26-35 | succeeds exactly for a bound name, with its value; otherwise "Undefined variable NAME." on the token's line |
| Runtime.Environment.constructor | Sources/Lox/Environment.swift:19 | a new environment binds nothing |
| Runtime.Environment.Enclosing | Sources/Lox/Definitions/LoxFunction.swift:22 | an environment enclosing another starts empty and remembers the enclosing one |
| Runtime.Environment.Define | Sources/Lox/Environment.swift:21-24 | binds or rebinds exactly one name, refuses results, and leaves every other lookup as it was |
| Runtime.Environment.Get | Sources/Lox/Environment.swift:26-35 | gives the lookup in its own bindings and changes nothing |
| Runtime.GetAfterDefine | Sources/Lox/Environment.swift:21-32 | a lookup after `define(n, v)` gives `v` |
| Runtime.DefineThenGet | Sources/Lox/Environment.swift:21-32 | the same, through the methods |
| Runtime.BindingsDomain | Sources/Lox/Definitions/LoxFunction.swift:24-26 | a call binds exactly the parameter names |
| Runtime.BindingsBindEachParameter | Sources/Lox/Definitions/LoxFunction.swift:24-26 | a parameter that no later one shadows is bound to the argument at its position |
| Runtime.ReturnUnwrapped | Sources/Lox/Definitions/LoxFunction.swift:29-36 | a successful return carrying a value becomes that value; every other result passes unchanged |
| Runtime.LoxFunction.Call | Sources/Lox/Definitions/LoxFunction.swift:21-37 | with at least `arity` arguments, the first `arity` of them plain values, runs the body in a fresh environment that encloses the closure and binds the parameters, then unwraps a return |
| Runtime.LoxFunction.Binded | Sources/Lox/Definitions/LoxFunction.swift:39-43 | the same declaration over a fresh closure that encloses the old one and binds only `this` |
| Runtime.LoxClass.Call | Sources/Lox/Definitions/LoxClass.swift:19-23 | ignores its arguments and always succeeds with a fresh instance of this class without fields |
| Runtime.LoxInstance.constructor | Sources/Lox/Definitions/LoxInstance.swift:12-14 | a new instance of a class has no fields |
| Runtime.LoxInstance.Get | Sources/Lox/Definitions/LoxInstance.swift:16-27 | a field first; else the class's method bound to this instance; else "Undefined property 'NAME'" on the token's line |
| Runtime.LoxInstance.Set | Sources/Lox/Definitions/LoxInstance.swift:29-31 | overwrites exactly one field |
| Runtime.SetThenGet | Sources/Lox/Definitions/LoxInstance.swift:16-31 | a `get` after `set(n, v)` gives `v`, even when the class has a method `n` |
| Resolution.MarkInnermost | Sources/Lox/Resolver.swift:181 | marks a name in the innermost scope and leaves the outer scopes alone |
| Resolution.InnermostHolding | Sources/Lox/Resolver.swift:192-197 | the innermost scope holding the name, or none exactly when no scope holds it |
| Resolution.Resolver.constructor | Sources/Lox/Resolver.swift:15-21 | no scopes, outside every function and class, nothing recorded |
| Resolution.Resolver.ReportError | Sources/Lox/Resolver.swift:95 | appends one diagnostic at the token and changes nothing else |
| Resolution.Resolver.Declare | Sources/Lox/Resolver.swift:174-182 | nothing at global level; otherwise reports a name the innermost scope already holds, then marks it not yet defined |
| Resolution.Resolver.Define | Sources/Lox/Resolver.swift:184-189 | nothing at global level; otherwise marks the name defined |
| Resolution.Resolver.BeginScope | Sources/Lox/Resolver.swift:218-220 | pushes an empty scope |
| Resolution.Resolver.EndScope | Sources/Lox/Resolver.swift:222-226 | pops a scope when there is one |
| Resolution.Resolver.ResolveLocal | Sources/Lox/Resolver.swift:191-199 | records `count - 1 - i` for the innermost scope `i` holding the name, and nothing when none does |
| Resolution.Resolver.ResolveExpr | Sources/Lox/Resolver.swift:116-170 | ends in the state `ResolvedExpr` gives |
| Resolution.Resolver.ResolveStmts | Sources/Lox/Resolver.swift:23-27 | resolves the statements in order, as `ResolvedStmts` gives |
| Resolution.Resolver.ResolveStmt | Sources/Lox/Resolver.swift:38-113 | ends in the state `ResolvedStmt` gives |
| Resolution.Resolver.ResolveClass | Sources/Lox/Resolver.swift:44-64 | ends in the state `ResolvedClass` gives |
| Resolution.Resolver.BindParameters | Sources/Lox/Resolver.swift:210-213 | each parameter declared and defined in turn |
| Resolution.Resolver.ResolveFunction | Sources/Lox/Resolver.swift:201-216 | ends in the state `ResolvedFunction` gives |
| ResolverFacts.ExprKeeps | Sources/Lox/Resolver.swift:116-170 | resolving an expression never changes the scopes or the enclosing kinds; diagnostics and side table only grow |
| ResolverFacts.ExprsKeep | Sources/Lox/Resolver.swift:134-139 | the same for a list of expressions |
| ResolverFacts.DeclaredExtends | Sources/Lox/Resolver.swift:174-182 | `declare` changes at most the innermost scope |
| ResolverFacts.DefinedExtends | Sources/Lox/Resolver.swift:184-189 | `define` changes at most the innermost scope |
| ResolverFacts.VariableExtends | Sources/Lox/Resolver.swift:66-72 | a variable declaration changes at most the innermost scope |
| ResolverFacts.StmtExtends | Sources/Lox/Resolver.swift:38-113 | any statement leaves the scope stack as deep as before, changes at most its innermost scope, and restores the function and class kinds |
| ResolverFacts.StmtsExtend | Sources/Lox/Resolver.swift:23-27 | the same for a list of statements |
| ResolverFacts.BlockRestoresScopes | Sources/Lox/Resolver.swift:38-42 | a block pushes and pops one scope: the scopes end exactly as they began |
| ResolverFacts.ParametersExtend | Sources/Lox/Resolver.swift:210-213 | binding parameters changes at most the innermost scope |
| ResolverFacts.FunctionKeeps | Sources/Lox/Resolver.swift:201-216 | after a function body the scopes and the function kind are exactly as before |
| ResolverFacts.MethodsKeep | Sources/Lox/Resolver.swift:55-61 | the same after all the methods of a class |
| ResolverFacts.ClassExtends | Sources/Lox/Resolver.swift:44-64 | a class changes at most the innermost scope and restores the class kind |
| ResolverFacts.FunctionWithoutParameters | Sources/Lox/Resolver.swift:201-216 | a function's body is resolved in one fresh scope, inside a function of the given kind |
| ResolverFacts.ClassWithOneMethod | Sources/Lox/Resolver.swift:44-64 | a method is resolved in its own scope inside a scope that binds only `this`, with `init` as initializer |
| ResolverFacts.MarkTwice | Sources/Lox/Resolver.swift:178-188 | declaring then defining leaves only the second mark |
| ResolverFacts.OwnInitializerReported | Sources/Lox/Resolver.swift:116-122 | reading a name in its own initializer is reported, and the read is still resolved |
| ResolverFacts.DeclaredThenReadIsLocal | Sources/Lox/Resolver.swift:191-199 | a name declared in the innermost scope and read next is found zero scopes out |
| ResolverFacts.NestedBlockReadsOneOut | Sources/Lox/Resolver.swift:191-199 | from a nested block the same name is found one scope out, and nothing else changes |
| ResolverFacts.ReturnChecked | Sources/Lox/Resolver.swift:93-104 | `return` at top level is reported; `return value` in an initializer is reported; nothing else is |
| ResolverFacts.ThisChecked | Sources/Lox/Resolver.swift:150-155 | `this` outside a class is reported; inside one it is not; the scopes are untouched |
| ResolverFacts.ThisInMethod | Sources/Lox/Resolver.swift:52-60 | in a method of a class, `this` is found one scope out |
| ResolverFacts.ReturnThisInMethod | Sources/Lox/Resolver.swift:150-155 | `return this;` directly in a method's scope finds `this` one scope out |
| ResolverFacts.GlobalVariablesAreNotTracked | Sources/Lox/Resolver.swift:174-189 | outside every scope a variable declaration changes nothing |
| CodeGeneration.IndentationIsSpaces | Sources/AbstractSyntaxTreeGenerator/CodePrinter.swift:42 | `count` levels of indentation are exactly `4 * count` spaces |
| CodeGeneration.CodePrinter.constructor | Sources/AbstractSyntaxTreeGenerator/CodePrinter.swift:12-14 | a new printer has empty output at level 0 |
| CodeGeneration.CodePrinter.AddFileHeader | Sources/AbstractSyntaxTreeGenerator/CodePrinter.swift:20-32 | appends the header comment naming the file, the creator and the date; the level is unchanged |
| CodeGeneration.CodePrinter.EmptyLine | Sources/AbstractSyntaxTreeGenerator/CodePrinter.swift:35-37 | appends exactly one line break |
| CodeGeneration.CodePrinter.WriteLine | Sources/AbstractSyntaxTreeGenerator/CodePrinter.swift:41-44 | appends the indentation of the current level, the line and a line break; earlier output is kept |
| CodeGeneration.CodePrinter.Indent | Sources/AbstractSyntaxTreeGenerator/CodePrinter.swift:47-49 | one level more; the output is unchanged |
| CodeGeneration.CodePrinter.Detent | Sources/AbstractSyntaxTreeGenerator/CodePrinter.swift:52-58 | one level less when above zero, unchanged at zero; the level never goes negative |
| CodeGeneration.Components | Sources/AbstractSyntaxTreeGenerator/AbstractSyntaxTreeGenerator.swift:65 | splitting always gives at least one piece |
| CodeGeneration.NonEmptyKeepsPieces | Sources/AbstractSyntaxTreeGenerator/AbstractSyntaxTreeGenerator.swift:65 | the filter keeps exactly the non-empty pieces and adds none |
| CodeGeneration.TrimStartDropsBlanks | Sources/AbstractSyntaxTreeGenerator/AbstractSyntaxTreeGenerator.swift:81 | trimming the front drops a run of blanks and stops at the first other character |
| CodeGeneration.TrimEndDropsBlanks | Sources/AbstractSyntaxTreeGenerator/AbstractSyntaxTreeGenerator.swift:81 | trimming the end drops a run of blanks and stops at the last other character |
| CodeGeneration.TrimIsInnerSlice | Sources/AbstractSyntaxTreeGenerator/AbstractSyntaxTreeGenerator.swift:81 | the trimmed text is the slice between a blank prefix and a blank suffix, with non-blank ends |
| CodeGeneration.RenderAppend | Sources/AbstractSyntaxTreeGenerator/CodePrinter.swift:41-44 | writing two lists of lines in turn writes their concatenation |
| CodeGeneration.RenderIndented | Sources/AbstractSyntaxTreeGenerator/CodePrinter.swift:47-49 | lines indented once, written at a level, are the lines written one level further in |
| CodeGeneration.Generator.New | Sources/AbstractSyntaxTreeGenerator/AbstractSyntaxTreeGenerator.swift:18-21 | a generator for the tree with a fresh printer |
| CodeGeneration.Generator.WriteTree | Sources/AbstractSyntaxTreeGenerator/AbstractSyntaxTreeGenerator.swift:24-44 | appends the header, three line breaks and the declarations; the level ends where it began |
| CodeGeneration.Generator.WriteDeclarations | Sources/AbstractSyntaxTreeGenerator/AbstractSyntaxTreeGenerator.swift:32-43 | the base protocol, the visitor protocol and the types, with an empty line after each protocol |
| CodeGeneration.Generator.WriteTypes | Sources/AbstractSyntaxTreeGenerator/AbstractSyntaxTreeGenerator.swift:40-43 | one type block per entry, in order, each followed by an empty line; the level is unchanged |
| CodeGeneration.Generator.WriteProtocol | Sources/AbstractSyntaxTreeGenerator/AbstractSyntaxTreeGenerator.swift:49-59 | the base protocol with `accept` one level in; the level is unchanged |
| CodeGeneration.Generator.WriteType | Sources/AbstractSyntaxTreeGenerator/AbstractSyntaxTreeGenerator.swift:62-106 | a structure holding its members one level in; indents and detents are balanced |
| CodeGeneration.Generator.WriteMembers | Sources/AbstractSyntaxTreeGenerator/AbstractSyntaxTreeGenerator.swift:69-101 | the fields, the initialiser and `accept`, with an empty line between each two |
| CodeGeneration.Generator.WriteFields | Sources/AbstractSyntaxTreeGenerator/AbstractSyntaxTreeGenerator.swift:69-71 | one `let` line per parameter, in order |
| CodeGeneration.Generator.WriteInitializer | Sources/AbstractSyntaxTreeGenerator/AbstractSyntaxTreeGenerator.swift:75-89 | no lines without parameters; otherwise `init(field) {`, the assignments one level in, and `}` |
| CodeGeneration.Generator.WriteAssignments | Sources/AbstractSyntaxTreeGenerator/AbstractSyntaxTreeGenerator.swift:80-84 | one `self.n = n` line per parameter, in order |
| CodeGeneration.Generator.WriteAccept | Sources/AbstractSyntaxTreeGenerator/AbstractSyntaxTreeGenerator.swift:93-101 | the `accept` implementation with its body one level in |
| CodeGeneration.Generator.WriteVisitorProtocol | Sources/AbstractSyntaxTreeGenerator/AbstractSyntaxTreeGenerator.swift:109-126 | the visitor protocol holding its associated type, an empty line and the visits, one level in |
| CodeGeneration.Generator.WriteVisits | Sources/AbstractSyntaxTreeGenerator/AbstractSyntaxTreeGenerator.swift:119-121 | one `visit` line per type, in order |
| CodeGeneration.Generate | Sources/AbstractSyntaxTreeGenerator/CodePrinter.swift:73-75 | the whole file text, with the level back at 0 when it would be saved |
| CodeGenerationFacts.JoinedComponents | Sources/AbstractSyntaxTreeGenerator/AbstractSyntaxTreeGenerator.swift:65 | joining the pieces of a split with the separator gives the text back |
| CodeGenerationFacts.ComponentsOfPlain | Sources/AbstractSyntaxTreeGenerator/AbstractSyntaxTreeGenerator.swift:65 | a text without the separator's first character is one piece |
| CodeGenerationFacts.ComponentsSplitFirst | Sources/AbstractSyntaxTreeGenerator/AbstractSyntaxTreeGenerator.swift:81 | the first piece of `a + separator + b` is `a` when `a` holds no character that starts the separator |
| CodeGenerationFacts.ComponentsOfJoined | Sources/AbstractSyntaxTreeGenerator/AbstractSyntaxTreeGenerator.swift:65 | splitting a joined list gives the list back |
| CodeGenerationFacts.ParametersOfList | Sources/AbstractSyntaxTreeGenerator/AbstractSyntaxTreeGenerator.swift:65 | a field written as a `, `-separated list of non-empty declarations without commas has exactly those parameters |
| CodeGenerationFacts.ParameterNameOfDeclaration | Sources/AbstractSyntaxTreeGenerator/AbstractSyntaxTreeGenerator.swift:81-83 | `name: Type` is named `name` and assigned by `self.name = name` |
| CodeGenerationFacts.VisitorNamesDistinct | Sources/AbstractSyntaxTreeGenerator/AbstractSyntaxTreeGenerator.swift:134-141 | different base names give different visitor and associated type names |
| CodeGenerationFacts.FieldLinesEach | Sources/AbstractSyntaxTreeGenerator/AbstractSyntaxTreeGenerator.swift:69-71 | line `i` of the fields is `let` + parameter `i`, and there are as many lines as parameters |
| CodeGenerationFacts.AssignmentLinesEach | Sources/AbstractSyntaxTreeGenerator/AbstractSyntaxTreeGenerator.swift:80-84 | line `i` of the initialiser body assigns parameter `i`, and there are as many lines as parameters |
| CodeGenerationFacts.VisitLinesEach | Sources/AbstractSyntaxTreeGenerator/AbstractSyntaxTreeGenerator.swift:119-121 | line `i` of the visits names type `i`, and there are as many lines as types |
| CodeGenerationFacts.IndentedEach | Sources/AbstractSyntaxTreeGenerator/CodePrinter.swift:47-49 | indenting keeps every line and moves each line of code exactly one level in |
| CodeGenerationFacts.VisitorProtocolCoversTypes | Sources/AbstractSyntaxTreeGenerator/AbstractSyntaxTreeGenerator.swift:109-126 | the visitor protocol has `types + 4` lines: the associated type, then one `visit` per type in order, one level in |
| CodeGenerationFacts.IndentationUnbroken | Sources/AbstractSyntaxTreeGenerator/CodePrinter.swift:42 | indentation holds no line break |
| CodeGenerationFacts.OneLineBreak | Sources/AbstractSyntaxTreeGenerator/CodePrinter.swift:41-44 | a written line holds exactly one line break when its text holds none |
| CodeGenerationFacts.RenderLineBreaks | Sources/AbstractSyntaxTreeGenerator/CodePrinter.swift:35-44 | written lines hold one line break each, when their texts hold none |

## Left out

- Command-line and REPL drivers, file reading, exit codes and the formatting of reports (`Sources/Lox/Lox.swift`, `Sources/Lox.swift`, `Sources/Slox/Slox.swift`, `Sources/Slox.swift`): these are I/O.  Reports are appended to a diagnostics sequence instead.
- The generator's command-line tools, JSON decoding and bundle lookups (`TreeGenerator.swift`, `DefinitionGenerator.swift`, `Sources/LoxTool/AbstractSyntaxTreeGenerator.swift`): these are I/O.
- `CodePrinter.save`: a file write.  `Generate` states instead that the level is back at 0 when the text is complete, which is the condition `save` warns about.
- The current date in `addFileHeader`: it is a parameter of the model.
- `Interpreter.intercept` and the OSLog and `print` logging: output only.
- `NativeFunction` and the `Callable` protocol: function and class values are separate variants of the run-time value type.
- The visitor and `accept` plumbing of `Statement.swift` and `Expression.swift`: trees are datatypes, and the code uses `match` on them.
- Object identity of expression nodes (`HashableExpression.swift`): every node the resolver records carries a node id, and the side table is keyed by that id.
- Collaborators whose code is not shown: `executeBlock`, `Interpreter.resolve(_:depth:)`, `InterpreterReturn`, `LoxClass.findMethod` and the lookup through the enclosing chain.  `executeBlock` and `findMethod` are parameters.  The side table is a map in the resolver.  A return is the `ReturnSignal` value.  The enclosing environment is stored but never consulted, as in the shown `get`.
- The `NilAny` branch of `Environment.get`: `get` reaches it only after finding the key, and a present key always has a stored value, so the branch cannot be reached.
- IEEE-754 doubles: arithmetic, NaN, division by zero, `Double(String)` parsing and `String(describing:)`.  Numbers are exact reals.  A scanned number has the exact decimal value of its digits.  Division and number rendering are parameters.
- Unicode classification (`isDecimalDigit`, `isLetter`) and grapheme clusters such as `"\r\n"`: characters are ASCII.
- Evaluation.Stringify: for a number the contract states only that the text is the rendering with or without a final `.0`.  `DropPointZero` states exactly when the `.0` goes.
- CodeGeneration.Trim: trims only spaces and tabs, not every Unicode whitespace character that `trimmingCharacters(in: .whitespaces)` removes.
- `description` of `Token` and `debugDescription` of `LoxFunction`, `LoxClass` and `LoxInstance` are plain functions.  So are the arities of functions and classes.  Each is its definition, with no further contract.
- The loops of `writeTree` and `writeType` are separate writer methods (`WriteTypes`, `WriteFields`, `WriteAssignments`, `WriteVisits`).  Each is specified by its list of lines.
- ParserFacts.SampleParse: starts from the parser test's tokens written out by hand.  That scanning the test's source yields exactly these tokens is not proved.
