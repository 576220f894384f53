/**
 * The generator that writes the Swift source of a syntax tree: a printer
 * that appends lines to a text buffer at an indentation level, and the
 * writers that drive it from a tree description (a base name and, per node
 * type, a name and a comma-separated parameter field).
 *
 * What each writer produces is given as a list of lines, each at a depth
 * relative to the level the writer starts at; the writers are proved to
 * append exactly those lines rendered at that level and to leave the
 * indentation level as they found it.
 */
module CodeGeneration {

  // ------------------------------------------------------------- lines

  /** One level of indentation: four spaces. */
  const IndentUnit: string := "    "

  /** `count` levels of indentation. */
  function Indentation(count: nat): string {
    if count == 0 then "" else Indentation(count - 1) + IndentUnit
  }

  /** `count` levels are `4 * count` spaces. */
  lemma {:induction false} IndentationIsSpaces(count: nat)
    ensures |Indentation(count)| == 4 * count
    ensures forall i | 0 <= i < |Indentation(count)| :: Indentation(count)[i] == ' '
  {
    if count > 0 {
      IndentationIsSpaces(count - 1);
    }
  }

  /** A line as the printer writes it at `level`: the indentation, the text and a line break. */
  function Line(level: nat, text: string): string {
    Indentation(level) + text + "\n"
  }

  /** The comment block that opens a generated file; `date` is the day it is written, as month/day/year. */
  function FileHeader(fileName: string, creatorInfo: string, date: string): string {
    "//\n// " + fileName + "\n//\n//\n// " + creatorInfo + " on " + date + "\n//"
  }

  // ------------------------------------------------------------- the printer

  class CodePrinter {
    var output: string
    var indentCount: nat

    constructor ()
      ensures output == "" && indentCount == 0
    {
      output := "";
      indentCount := 0;
    }

    method AddFileHeader(fileName: string, creatorInfo: string, date: string)
      modifies this
      ensures output == old(output) + FileHeader(fileName, creatorInfo, date)
      ensures indentCount == old(indentCount)
    {
      output := output + FileHeader(fileName, creatorInfo, date);
    }

    method EmptyLine()
      modifies this
      ensures output == old(output) + "\n"
      ensures indentCount == old(indentCount)
    {
      output := output + "\n";
    }

    method WriteLine(line: string)
      modifies this
      ensures output == old(output) + Line(indentCount, line)
      ensures indentCount == old(indentCount)
    {
      var indentation := Indentation(indentCount);
      output := output + (indentation + line + "\n");
    }

    method Indent()
      modifies this
      ensures indentCount == old(indentCount) + 1
      ensures output == old(output)
    {
      indentCount := indentCount + 1;
    }

    /** One level less; at level 0 nothing changes, so the level never goes below zero. */
    method Detent()
      modifies this
      ensures indentCount == if old(indentCount) > 0 then old(indentCount) - 1 else 0
      ensures output == old(output)
    {
      if indentCount > 0 {
        indentCount := indentCount - 1;
      }
    }
  }

  // ------------------------------------------------------------- text helpers

  /** Splits `s` at every occurrence of `separator`, scanning left to right; empty pieces are kept. */
  function Components(s: string, separator: string): (pieces: seq<string>)
    requires separator != []
    ensures pieces != []
    decreases |s|
  {
    if |s| < |separator| then [s]
    else if s[..|separator|] == separator then [""] + Components(s[|separator|..], separator)
    else
      var rest := Components(s[1..], separator);
      [[s[0]] + rest[0]] + rest[1..]
  }

  /** The pieces put back together with `separator` between each two. */
  function Joined(pieces: seq<string>, separator: string): string
    requires pieces != []
  {
    if |pieces| == 1 then pieces[0] else pieces[0] + separator + Joined(pieces[1..], separator)
  }

  /** The pieces that are not empty, in order. */
  function NonEmpty(pieces: seq<string>): seq<string> {
    if |pieces| == 0 then []
    else if |pieces[0]| == 0 then NonEmpty(pieces[1..])
    else [pieces[0]] + NonEmpty(pieces[1..])
  }

  /** Filtering keeps exactly the non-empty pieces: nothing empty, nothing new, nothing non-empty lost. */
  lemma {:induction false} NonEmptyKeepsPieces(pieces: seq<string>)
    ensures |NonEmpty(pieces)| <= |pieces|
    ensures forall p :: p in NonEmpty(pieces) <==> p in pieces && p != []
  {
    if pieces != [] {
      NonEmptyKeepsPieces(pieces[1..]);
      assert pieces == [pieces[0]] + pieces[1..];
    }
  }

  /** A space or a tab. */
  predicate Blank(c: char) {
    c == ' ' || c == '\t'
  }

  function TrimStart(s: string): string {
    if s != [] && Blank(s[0]) then TrimStart(s[1..]) else s
  }

  function TrimEnd(s: string): string {
    if s != [] && Blank(s[|s| - 1]) then TrimEnd(s[..|s| - 1]) else s
  }

  /** `s` without its leading and trailing blanks. */
  function Trim(s: string): string {
    TrimEnd(TrimStart(s))
  }

  /** Trimming the front drops a run of blanks and stops at the first other character. */
  lemma {:induction false} TrimStartDropsBlanks(s: string)
    ensures |TrimStart(s)| <= |s| && TrimStart(s) == s[|s| - |TrimStart(s)|..]
    ensures forall i | 0 <= i < |s| - |TrimStart(s)| :: Blank(s[i])
    ensures TrimStart(s) != [] ==> !Blank(TrimStart(s)[0])
  {
    if s != [] && Blank(s[0]) {
      TrimStartDropsBlanks(s[1..]);
      assert TrimStart(s) == TrimStart(s[1..]);
      assert s[1..][|s| - 1 - |TrimStart(s)|..] == s[|s| - |TrimStart(s)|..];
    }
  }

  /** Trimming the end drops a run of blanks and stops at the last other character. */
  lemma {:induction false} TrimEndDropsBlanks(s: string)
    ensures |TrimEnd(s)| <= |s| && TrimEnd(s) == s[..|TrimEnd(s)|]
    ensures forall i | |TrimEnd(s)| <= i < |s| :: Blank(s[i])
    ensures TrimEnd(s) != [] ==> !Blank(TrimEnd(s)[|TrimEnd(s)| - 1])
  {
    if s != [] && Blank(s[|s| - 1]) {
      TrimEndDropsBlanks(s[..|s| - 1]);
    }
  }

  /** The trimmed text is the slice of `s` between a blank prefix and a blank suffix, and starts and ends with a non-blank. */
  lemma {:induction false} TrimIsInnerSlice(s: string)
    ensures exists i, j | 0 <= i <= j <= |s| ::
      && Trim(s) == s[i..j]
      && (forall k | 0 <= k < i :: Blank(s[k]))
      && (forall k | j <= k < |s| :: Blank(s[k]))
    ensures Trim(s) != [] ==> !Blank(Trim(s)[0]) && !Blank(Trim(s)[|Trim(s)| - 1])
  {
    var front := TrimStart(s);
    TrimStartDropsBlanks(s);
    TrimEndDropsBlanks(front);
    var r := TrimEnd(front);
    var i := |s| - |front|;
    assert r == s[i..i + |r|];
    assert forall k | i + |r| <= k < |s| :: s[k] == front[k - i];
  }

  // ------------------------------------------------------------- names and texts

  datatype TypeDefinition = TypeDefinition(name: string, parameterField: string)

  datatype Tree = Tree(baseName: string, types: seq<TypeDefinition>)

  function VisitorProtocolName(baseName: string): string {
    baseName + "Visitor"
  }

  function AssociatedTypeName(baseName: string): string {
    VisitorProtocolName(baseName) + "Return"
  }

  function AcceptFunctionDefinition(baseName: string): string {
    "func accept<V: " + VisitorProtocolName(baseName) + ", R>(visitor: V) -> R where R == V." + AssociatedTypeName(baseName)
  }

  /** The stored properties of a node type: the non-empty pieces of its field between `", "`. */
  function Parameters(parameterField: string): seq<string> {
    NonEmpty(Components(parameterField, ", "))
  }

  /** A parameter's name: the text before its first `": "`, without surrounding blanks. */
  function ParameterName(parameter: string): string {
    Trim(Components(parameter, ": ")[0])
  }

  // ------------------------------------------------------------- the lines a writer produces

  /**
   * A line of generated code: a text at a depth counted from the level the
   * writer that produces it starts at, or an empty line, which carries no
   * indentation.
   */
  datatype PrintedLine = Code(depth: nat, text: string) | Gap

  /** What a line becomes when it is written at `level`. */
  function LineText(level: nat, line: PrintedLine): string {
    match line
    case Code(depth, text) => Line(level + depth, text)
    case Gap => "\n"
  }

  /** Lines written one after another, starting at `level`. */
  function Render(level: nat, lines: seq<PrintedLine>): string {
    if |lines| == 0 then "" else Render(level, lines[..|lines| - 1]) + LineText(level, lines[|lines| - 1])
  }

  /** The same lines one level further in. */
  function Indented(lines: seq<PrintedLine>): seq<PrintedLine> {
    if |lines| == 0 then []
    else
      var last := lines[|lines| - 1];
      Indented(lines[..|lines| - 1]) + [if last.Code? then Code(last.depth + 1, last.text) else Gap]
  }

  lemma {:induction false} Regrouped(a: string, b: string, c: string)
    ensures a + (b + c) == a + b + c
  {
  }

  /** Writing two runs of lines one after the other is writing their concatenation. */
  lemma {:induction false} RenderAppend(level: nat, a: seq<PrintedLine>, b: seq<PrintedLine>)
    ensures Render(level, a + b) == Render(level, a) + Render(level, b)
    decreases |b|
  {
    if |b| == 0 {
      assert a + b == a;
    } else {
      var last := |b| - 1;
      RenderAppend(level, a, b[..last]);
      assert (a + b)[..|a + b| - 1] == a + b[..last];
      Regrouped(Render(level, a), Render(level, b[..last]), LineText(level, b[last]));
    }
  }

  /** Indenting lines and writing them at `level` is writing them one level deeper. */
  lemma {:induction false} RenderIndented(level: nat, lines: seq<PrintedLine>)
    ensures |Indented(lines)| == |lines|
    ensures Render(level, Indented(lines)) == Render(level + 1, lines)
    decreases |lines|
  {
    if |lines| > 0 {
      var last := |lines| - 1;
      RenderIndented(level, lines[..last]);
      var shifted := Indented(lines);
      assert shifted[..last] == Indented(lines[..last]);
    }
  }

  /** One line written at `level`. */
  lemma {:induction false} RenderOne(level: nat, line: PrintedLine)
    ensures Render(level, [line]) == LineText(level, line)
  {
    assert [line][..0] == [];
  }

  /** Two runs of lines appended one after the other add up to their concatenation. */
  lemma {:induction false} RenderedAfter(level: nat, start: string, a: seq<PrintedLine>, b: seq<PrintedLine>, first: string, second: string)
    requires first == start + Render(level, a) && second == first + Render(level, b)
    ensures second == start + Render(level, a + b)
  {
    RenderAppend(level, a, b);
    Regrouped(start, Render(level, a), Render(level, b));
  }

  /** Three runs of lines appended one after another add up to their concatenation. */
  lemma {:induction false} RenderedInTurn(level: nat, start: string, a: seq<PrintedLine>, b: seq<PrintedLine>, c: seq<PrintedLine>,
    first: string, second: string, third: string)
    requires first == start + Render(level, a) && second == first + Render(level, b) && third == second + Render(level, c)
    ensures third == start + Render(level, a + b + c)
  {
    RenderedAfter(level, start, a, b, first, second);
    RenderedAfter(level, start, a + b, c, second, third);
  }

  /** Writing one more line after a run of lines. */
  lemma {:induction false} LineAppended(level: nat, start: string, lines: seq<PrintedLine>, text: string, first: string, second: string)
    requires first == start + Render(level, lines) && second == first + Line(level, text)
    ensures second == start + Render(level, lines + [Code(0, text)])
  {
    RenderOne(level, Code(0, text));
    RenderedAfter(level, start, lines, [Code(0, text)], first, second);
  }

  /** Two runs of lines with an empty line between them. */
  lemma {:induction false} AroundGap(level: nat, start: string, a: seq<PrintedLine>, b: seq<PrintedLine>,
    first: string, second: string, third: string)
    requires first == start + Render(level, a) && second == first + "\n" && third == second + Render(level, b)
    ensures third == start + Render(level, a + [Gap] + b)
  {
    RenderOne(level, Gap);
    RenderedInTurn(level, start, a, [Gap], b, first, second, third);
  }

  /** Two runs of lines followed by an empty line. */
  lemma {:induction false} FollowedByGap(level: nat, start: string, a: seq<PrintedLine>, b: seq<PrintedLine>,
    first: string, second: string, third: string)
    requires first == start + Render(level, a) && second == first + Render(level, b) && third == second + "\n"
    ensures third == start + Render(level, a + b + [Gap])
  {
    RenderOne(level, Gap);
    RenderedInTurn(level, start, a, b, [Gap], first, second, third);
  }

  /** An opening line, one line a level in and a closing line. */
  lemma {:induction false} LinesWritten(level: nat, start: string, opening: string, inner: string, closing: string,
    first: string, second: string, third: string)
    requires first == start + Line(level, opening) && second == first + Line(level + 1, inner) && third == second + Line(level, closing)
    ensures third == start + Render(level, [Code(0, opening), Code(1, inner), Code(0, closing)])
  {
    var lines := [Code(0, opening), Code(1, inner), Code(0, closing)];
    assert lines[..2] == [Code(0, opening), Code(1, inner)];
    assert lines[..2][..1] == [Code(0, opening)];
    RenderOne(level, Code(0, opening));
    Regrouped(start, Line(level, opening), Line(level + 1, inner));
    Regrouped(start, Line(level, opening) + Line(level + 1, inner), Line(level, closing));
  }

  /** An opening line, a run of lines written one level in and a closing line. */
  lemma {:induction false} Enclosed(level: nat, inner: nat, outer: nat, start: string, opening: string, middle: seq<PrintedLine>, closing: string,
    first: string, second: string, third: string)
    requires inner == level + 1 && outer == level
    requires first == start + Line(level, opening) && second == first + Render(inner, middle) && third == second + Line(outer, closing)
    ensures third == start + Render(level, [Code(0, opening)] + Indented(middle) + [Code(0, closing)])
  {
    RenderOne(level, Code(0, opening));
    RenderOne(level, Code(0, closing));
    RenderIndented(level, middle);
    RenderedInTurn(level, start, [Code(0, opening)], Indented(middle), [Code(0, closing)], first, second, third);
  }

  /** A line and an empty line, then a run of lines. */
  lemma {:induction false} Preceded(level: nat, start: string, text: string, rest: seq<PrintedLine>,
    first: string, second: string, third: string)
    requires first == start + Line(level, text) && second == first + "\n" && third == second + Render(level, rest)
    ensures third == start + Render(level, [Code(0, text), Gap] + rest)
  {
    RenderOne(level, Code(0, text));
    AroundGap(level, start, [Code(0, text)], rest, first, second, third);
    assert [Code(0, text)] + [Gap] == [Code(0, text), Gap];
  }

  /** The stored properties, one `let` line each, in order. */
  function FieldLines(parameters: seq<string>): seq<PrintedLine> {
    if |parameters| == 0 then []
    else FieldLines(parameters[..|parameters| - 1]) + [Code(0, "let " + parameters[|parameters| - 1])]
  }

  function AssignmentLine(parameter: string): string {
    var name := ParameterName(parameter);
    "self." + name + " = " + name
  }

  /** The initialiser's body, one assignment per parameter, in order. */
  function AssignmentLines(parameters: seq<string>): seq<PrintedLine> {
    if |parameters| == 0 then []
    else AssignmentLines(parameters[..|parameters| - 1]) + [Code(0, AssignmentLine(parameters[|parameters| - 1]))]
  }

  function VisitLine(typeName: string, returnName: string): string {
    "func visit(_ expr: " + typeName + ") -> " + returnName
  }

  /** One `visit` requirement per node type, in order. */
  function VisitLines(types: seq<TypeDefinition>, returnName: string): seq<PrintedLine> {
    if |types| == 0 then []
    else VisitLines(types[..|types| - 1], returnName) + [Code(0, VisitLine(types[|types| - 1].name, returnName))]
  }

  /** The base protocol, declaring `accept`. */
  function ProtocolLines(baseName: string): seq<PrintedLine> {
    [Code(0, "protocol " + baseName + " {"), Code(1, AcceptFunctionDefinition(baseName)), Code(0, "}")]
  }

  /** The body of the visitor protocol: its associated type, an empty line, then one `visit` per node type. */
  function VisitorBodyLines(tree: Tree): seq<PrintedLine> {
    var returnName := AssociatedTypeName(tree.baseName);
    [Code(0, "associatedtype " + returnName), Gap] + VisitLines(tree.types, returnName)
  }

  /** The visitor protocol, holding its body one level in. */
  function VisitorProtocolLines(tree: Tree): seq<PrintedLine> {
    [Code(0, "protocol " + VisitorProtocolName(tree.baseName) + " {")] + Indented(VisitorBodyLines(tree)) + [Code(0, "}")]
  }

  /** The memberwise initialiser over the field's parameters, written only when there is one. */
  function InitializerLines(parameterField: string, parameters: seq<string>): seq<PrintedLine> {
    if |parameters| == 0 then []
    else [Code(0, "init(" + parameterField + ") {")] + Indented(AssignmentLines(parameters)) + [Code(0, "}")]
  }

  /** The `accept` implementation of a node type. */
  function AcceptLines(baseName: string): seq<PrintedLine> {
    [Code(0, AcceptFunctionDefinition(baseName) + " {"), Code(1, "return visitor.visit(self)"), Code(0, "}")]
  }

  /** The members of a node type: its stored properties, its initialiser and its `accept`, an empty line between each two. */
  function MemberLines(baseName: string, parameterField: string, parameters: seq<string>): seq<PrintedLine> {
    FieldLines(parameters) + [Gap] + InitializerLines(parameterField, parameters) + [Gap] + AcceptLines(baseName)
  }

  /** A node type: a structure conforming to the base protocol, holding its members one level in. */
  function TypeLines(baseName: string, definition: TypeDefinition): seq<PrintedLine> {
    [Code(0, "struct " + definition.name + ": " + baseName + " {")]
    + Indented(MemberLines(baseName, definition.parameterField, Parameters(definition.parameterField)))
    + [Code(0, "}")]
  }

  /** Every node type in order, each followed by an empty line. */
  function TypesLines(baseName: string, types: seq<TypeDefinition>): seq<PrintedLine> {
    if |types| == 0 then []
    else TypesLines(baseName, types[..|types| - 1]) + TypeLines(baseName, types[|types| - 1]) + [Gap]
  }

  /** The declarations of a generated file: the two protocols, then the node types. */
  function DeclarationLines(tree: Tree): seq<PrintedLine> {
    ProtocolLines(tree.baseName) + [Gap] + VisitorProtocolLines(tree) + [Gap] + TypesLines(tree.baseName, tree.types)
  }

  /** Who the header names as the file's creator. */
  const CreatorInfo: string := "Generated by AbstractSyntaxTreeGenerator"

  /** A whole generated file: the header, three line breaks and the declarations. */
  function TreeText(level: nat, tree: Tree, date: string): string {
    FileHeader(tree.baseName + ".swift", CreatorInfo, date) + "\n\n\n" + Render(level, DeclarationLines(tree))
  }

  // ------------------------------------------------------------- the writers

  /** Three texts appended one after another add up to their concatenation. */
  lemma {:induction false} AppendedInTurn(start: string, a: string, b: string, c: string, first: string, second: string, third: string)
    requires first == start + a && second == first + b && third == second + c
    ensures third == start + (a + b + c)
  {
  }

  /** A generator for one tree, writing to its own printer. */
  datatype Generator = Generator(tree: Tree, printer: CodePrinter)
  {
    static method New(tree: Tree) returns (g: Generator)
      ensures g.tree == tree && fresh(g.printer)
      ensures g.printer.output == "" && g.printer.indentCount == 0
    {
      var printer := new CodePrinter();
      g := Generator(tree, printer);
    }

    method WriteTree(date: string)
      modifies printer
      ensures printer.output == old(printer.output) + TreeText(old(printer.indentCount), tree, date)
      ensures printer.indentCount == old(printer.indentCount)
    {
      ghost var start := printer.output;
      printer.AddFileHeader(tree.baseName + ".swift", CreatorInfo, date);
      ghost var header := printer.output;
      printer.EmptyLine();
      ghost var one := printer.output;
      printer.EmptyLine();
      ghost var two := printer.output;
      printer.EmptyLine();
      ghost var three := printer.output;
      AppendedInTurn(header, "\n", "\n", "\n", one, two, three);
      ghost var declarations := Render(printer.indentCount, DeclarationLines(tree));
      WriteDeclarations();
      AppendedInTurn(start, FileHeader(tree.baseName + ".swift", CreatorInfo, date), "\n\n\n", declarations,
        header, three, printer.output);
    }

    /** The part of `WriteTree` after the header: the protocols and every node type, an empty line after each protocol. */
    method WriteDeclarations()
      modifies printer
      ensures printer.output == old(printer.output) + Render(old(printer.indentCount), DeclarationLines(tree))
      ensures printer.indentCount == old(printer.indentCount)
    {
      ghost var start, level := printer.output, printer.indentCount;
      WriteProtocol();
      ghost var first := printer.output;
      printer.EmptyLine();
      ghost var second := printer.output;
      WriteVisitorProtocol();
      ghost var third := printer.output;
      AroundGap(level, start, ProtocolLines(tree.baseName), VisitorProtocolLines(tree), first, second, third);
      printer.EmptyLine();
      ghost var fourth := printer.output;
      WriteTypes(tree.types);
      AroundGap(level, start, ProtocolLines(tree.baseName) + [Gap] + VisitorProtocolLines(tree), TypesLines(tree.baseName, tree.types),
        third, fourth, printer.output);
    }

    /** The loop of `WriteTree`: each node type, then an empty line. */
    method WriteTypes(types: seq<TypeDefinition>)
      modifies printer
      ensures printer.output == old(printer.output) + Render(old(printer.indentCount), TypesLines(tree.baseName, types))
      ensures printer.indentCount == old(printer.indentCount)
    {
      ghost var start, level := printer.output, printer.indentCount;
      for i := 0 to |types|
        invariant printer.indentCount == level
        invariant printer.output == start + Render(level, TypesLines(tree.baseName, types[..i]))
      {
        assert types[..i + 1][..i] == types[..i];
        ghost var written := printer.output;
        WriteType(types[i].name, types[i].parameterField);
        ghost var typeWritten := printer.output;
        printer.EmptyLine();
        FollowedByGap(level, start, TypesLines(tree.baseName, types[..i]), TypeLines(tree.baseName, types[i]),
          written, typeWritten, printer.output);
      }
      assert types[..|types|] == types;
    }

    method WriteProtocol()
      modifies printer
      ensures printer.output == old(printer.output) + Render(old(printer.indentCount), ProtocolLines(tree.baseName))
      ensures printer.indentCount == old(printer.indentCount)
    {
      ghost var start, level := printer.output, printer.indentCount;
      printer.WriteLine("protocol " + tree.baseName + " {");
      ghost var first := printer.output;
      printer.Indent();
      printer.WriteLine(AcceptFunctionDefinition(tree.baseName));
      ghost var second := printer.output;
      printer.Detent();
      printer.WriteLine("}");
      LinesWritten(level, start, "protocol " + tree.baseName + " {", AcceptFunctionDefinition(tree.baseName), "}",
        first, second, printer.output);
    }

    method WriteType(name: string, parameterField: string)
      modifies printer
      ensures printer.output == old(printer.output) + Render(old(printer.indentCount), TypeLines(tree.baseName, TypeDefinition(name, parameterField)))
      ensures printer.indentCount == old(printer.indentCount)
    {
      ghost var start, level := printer.output, printer.indentCount;
      printer.WriteLine("struct " + name + ": " + tree.baseName + " {");
      ghost var first := printer.output;
      var parameters := Parameters(parameterField);
      printer.Indent();
      ghost var inner := printer.indentCount;
      WriteMembers(parameterField, parameters);
      ghost var second := printer.output;
      printer.Detent();
      ghost var outer := printer.indentCount;
      printer.WriteLine("}");
      Enclosed(level, inner, outer, start, "struct " + name + ": " + tree.baseName + " {", MemberLines(tree.baseName, parameterField, parameters), "}",
        first, second, printer.output);
    }

    /** The part of `WriteType` inside the structure: fields, initialiser and `accept`. */
    method WriteMembers(parameterField: string, parameters: seq<string>)
      modifies printer
      ensures printer.output == old(printer.output) + Render(old(printer.indentCount), MemberLines(tree.baseName, parameterField, parameters))
      ensures printer.indentCount == old(printer.indentCount)
    {
      ghost var start, level := printer.output, printer.indentCount;
      ghost var fields, initializer := FieldLines(parameters), InitializerLines(parameterField, parameters);
      WriteFields(parameters);
      ghost var first := printer.output;
      printer.EmptyLine();
      ghost var second := printer.output;
      WriteInitializer(parameterField, parameters);
      ghost var third := printer.output;
      AroundGap(level, start, fields, initializer, first, second, third);
      printer.EmptyLine();
      ghost var fourth := printer.output;
      WriteAccept();
      AroundGap(level, start, fields + [Gap] + initializer, AcceptLines(tree.baseName), third, fourth, printer.output);
    }

    /** The first loop of `WriteType`: one `let` per parameter. */
    method WriteFields(parameters: seq<string>)
      modifies printer
      ensures printer.output == old(printer.output) + Render(old(printer.indentCount), FieldLines(parameters))
      ensures printer.indentCount == old(printer.indentCount)
    {
      ghost var start, level := printer.output, printer.indentCount;
      for i := 0 to |parameters|
        invariant printer.indentCount == level
        invariant printer.output == start + Render(level, FieldLines(parameters[..i]))
      {
        assert parameters[..i + 1][..i] == parameters[..i];
        ghost var written := printer.output;
        printer.WriteLine("let " + parameters[i]);
        LineAppended(level, start, FieldLines(parameters[..i]), "let " + parameters[i], written, printer.output);
      }
      assert parameters[..|parameters|] == parameters;
    }

    /** The part of `WriteType` that writes the initialiser, when there are parameters. */
    method WriteInitializer(parameterField: string, parameters: seq<string>)
      modifies printer
      ensures printer.output == old(printer.output) + Render(old(printer.indentCount), InitializerLines(parameterField, parameters))
      ensures printer.indentCount == old(printer.indentCount)
    {
      if |parameters| > 0 {
        ghost var start, level := printer.output, printer.indentCount;
        printer.WriteLine("init(" + parameterField + ") {");
        ghost var first := printer.output;
        printer.Indent();
        ghost var inner := printer.indentCount;
        WriteAssignments(parameters);
        ghost var second := printer.output;
        printer.Detent();
        ghost var outer := printer.indentCount;
        printer.WriteLine("}");
        Enclosed(level, inner, outer, start, "init(" + parameterField + ") {", AssignmentLines(parameters), "}", first, second, printer.output);
      }
    }

    /** The second loop of `WriteType`: `self.n = n` for each parameter's name `n`. */
    method WriteAssignments(parameters: seq<string>)
      modifies printer
      ensures printer.output == old(printer.output) + Render(old(printer.indentCount), AssignmentLines(parameters))
      ensures printer.indentCount == old(printer.indentCount)
    {
      ghost var start, level := printer.output, printer.indentCount;
      for i := 0 to |parameters|
        invariant printer.indentCount == level
        invariant printer.output == start + Render(level, AssignmentLines(parameters[..i]))
      {
        assert parameters[..i + 1][..i] == parameters[..i];
        ghost var written := printer.output;
        var name := ParameterName(parameters[i]);
        printer.WriteLine("self." + name + " = " + name);
        LineAppended(level, start, AssignmentLines(parameters[..i]), AssignmentLine(parameters[i]), written, printer.output);
      }
      assert parameters[..|parameters|] == parameters;
    }

    /** The part of `WriteType` that writes `accept`. */
    method WriteAccept()
      modifies printer
      ensures printer.output == old(printer.output) + Render(old(printer.indentCount), AcceptLines(tree.baseName))
      ensures printer.indentCount == old(printer.indentCount)
    {
      ghost var start, level := printer.output, printer.indentCount;
      printer.WriteLine(AcceptFunctionDefinition(tree.baseName) + " {");
      ghost var first := printer.output;
      printer.Indent();
      printer.WriteLine("return visitor.visit(self)");
      ghost var second := printer.output;
      printer.Detent();
      printer.WriteLine("}");
      LinesWritten(level, start, AcceptFunctionDefinition(tree.baseName) + " {", "return visitor.visit(self)", "}",
        first, second, printer.output);
    }

    method WriteVisitorProtocol()
      modifies printer
      ensures printer.output == old(printer.output) + Render(old(printer.indentCount), VisitorProtocolLines(tree))
      ensures printer.indentCount == old(printer.indentCount)
    {
      ghost var start, level := printer.output, printer.indentCount;
      printer.WriteLine("protocol " + VisitorProtocolName(tree.baseName) + " {");
      ghost var first := printer.output;
      printer.Indent();
      var returnName := AssociatedTypeName(tree.baseName);
      printer.WriteLine("associatedtype " + returnName);
      ghost var associated := printer.output;
      printer.EmptyLine();
      ghost var gap := printer.output;
      WriteVisits(tree.types, returnName);
      ghost var second := printer.output;
      Preceded(level + 1, first, "associatedtype " + returnName, VisitLines(tree.types, returnName), associated, gap, second);
      printer.Detent();
      ghost var outer := printer.indentCount;
      printer.WriteLine("}");
      Enclosed(level, level + 1, outer, start, "protocol " + VisitorProtocolName(tree.baseName) + " {", VisitorBodyLines(tree), "}",
        first, second, printer.output);
    }

    /** The loop of `WriteVisitorProtocol`: one `visit` per node type. */
    method WriteVisits(types: seq<TypeDefinition>, returnName: string)
      modifies printer
      ensures printer.output == old(printer.output) + Render(old(printer.indentCount), VisitLines(types, returnName))
      ensures printer.indentCount == old(printer.indentCount)
    {
      ghost var start, level := printer.output, printer.indentCount;
      for i := 0 to |types|
        invariant printer.indentCount == level
        invariant printer.output == start + Render(level, VisitLines(types[..i], returnName))
      {
        assert types[..i + 1][..i] == types[..i];
        ghost var written := printer.output;
        printer.WriteLine("func visit(_ expr: " + types[i].name + ") -> " + returnName);
        LineAppended(level, start, VisitLines(types[..i], returnName), VisitLine(types[i].name, returnName), written, printer.output);
      }
      assert types[..|types|] == types;
    }
  }

  /** Generating a file from a fresh printer gives the tree's text at level 0, and the level is back at 0 for saving. */
  method Generate(tree: Tree, date: string) returns (text: string, level: nat)
    ensures text == TreeText(0, tree, date)
    ensures level == 0
  {
    var g := Generator.New(tree);
    g.WriteTree(date);
    text, level := g.printer.output, g.printer.indentCount;
  }
}
