/**
 * Properties of the generator's texts: splitting at a separator and joining
 * again are inverse, a parameter written as `name: Type` is named `name`,
 * every parameter and every node type gets its own line, and every printed
 * line is exactly one line of output.
 */
module CodeGenerationFacts {
  import opened CodeGeneration

  // ------------------------------------------------------------- splitting and joining

  /** Joining the pieces of a split with the same separator gives the text back. */
  lemma {:induction false} JoinedComponents(s: string, separator: string)
    requires separator != []
    ensures Joined(Components(s, separator), separator) == s
    decreases |s|
  {
    if |s| < |separator| {
    } else if s[..|separator|] == separator {
      var rest := s[|separator|..];
      JoinedComponents(rest, separator);
      assert Components(s, separator) == [""] + Components(rest, separator);
      assert s == separator + rest;
    } else {
      var rest := Components(s[1..], separator);
      JoinedComponents(s[1..], separator);
      assert s == [s[0]] + s[1..];
      if |rest| == 1 {
        assert Components(s, separator) == [[s[0]] + rest[0]];
      } else {
        assert rest == [rest[0]] + rest[1..];
        assert Joined(rest, separator) == rest[0] + separator + Joined(rest[1..], separator);
        assert Components(s, separator)[1..] == rest[1..];
      }
    }
  }

  /** A text without the separator's first character is one piece. */
  lemma {:induction false} ComponentsOfPlain(a: string, separator: string)
    requires separator != [] && separator[0] !in a
    ensures Components(a, separator) == [a]
    decreases |a|
  {
    if |a| >= |separator| {
      assert a[..|separator|][0] != separator[0];
      ComponentsOfPlain(a[1..], separator);
      assert a == [a[0]] + a[1..];
    }
  }

  /** The first piece of `a + separator + b` is `a` when `a` holds no character that starts the separator. */
  lemma {:induction false} ComponentsSplitFirst(a: string, b: string, separator: string)
    requires separator != [] && separator[0] !in a
    ensures Components(a + separator + b, separator) == [a] + Components(b, separator)
    decreases |a|
  {
    var s := a + separator + b;
    if a == [] {
      assert s[..|separator|] == separator && s[|separator|..] == b;
    } else {
      assert s[..|separator|][0] == a[0] != separator[0];
      assert s[1..] == a[1..] + separator + b;
      ComponentsSplitFirst(a[1..], b, separator);
      assert a == [a[0]] + a[1..];
    }
  }

  /** Splitting a joined list gives the list back when no piece holds the separator's first character. */
  lemma {:induction false} ComponentsOfJoined(pieces: seq<string>, separator: string)
    requires pieces != [] && separator != []
    requires forall i | 0 <= i < |pieces| :: separator[0] !in pieces[i]
    ensures Components(Joined(pieces, separator), separator) == pieces
    decreases |pieces|
  {
    if |pieces| == 1 {
      ComponentsOfPlain(pieces[0], separator);
    } else {
      ComponentsOfJoined(pieces[1..], separator);
      ComponentsSplitFirst(pieces[0], Joined(pieces[1..], separator), separator);
      assert pieces == [pieces[0]] + pieces[1..];
    }
  }

  /** Filtering keeps a list whose pieces are all non-empty. */
  lemma {:induction false} NonEmptyKeepsAll(pieces: seq<string>)
    requires forall i | 0 <= i < |pieces| :: pieces[i] != []
    ensures NonEmpty(pieces) == pieces
    decreases |pieces|
  {
    if |pieces| > 0 {
      NonEmptyKeepsAll(pieces[1..]);
      assert pieces == [pieces[0]] + pieces[1..];
    }
  }

  /** A field written as a comma-separated list of non-empty declarations without commas has exactly those parameters. */
  lemma {:induction false} ParametersOfList(declarations: seq<string>)
    requires declarations != []
    requires forall i | 0 <= i < |declarations| :: declarations[i] != [] && ',' !in declarations[i]
    ensures Parameters(Joined(declarations, ", ")) == declarations
  {
    ComponentsOfJoined(declarations, ", ");
    NonEmptyKeepsAll(declarations);
  }

  // ------------------------------------------------------------- names

  /** A declaration `name: Type` is named `name` when the name holds no colon and has no blank at either end. */
  lemma {:induction false} ParameterNameOfDeclaration(name: string, typeName: string)
    requires ':' !in name
    requires name != [] ==> !Blank(name[0]) && !Blank(name[|name| - 1])
    ensures ParameterName(name + ": " + typeName) == name
    ensures AssignmentLine(name + ": " + typeName) == "self." + name + " = " + name
  {
    ComponentsSplitFirst(name, typeName, ": ");
    assert TrimStart(name) == name;
    assert TrimEnd(name) == name;
  }

  /** Different base names give different visitor protocols and different associated types. */
  lemma {:induction false} VisitorNamesDistinct(a: string, b: string)
    requires a != b
    ensures VisitorProtocolName(a) != VisitorProtocolName(b)
    ensures AssociatedTypeName(a) != AssociatedTypeName(b)
  {
    if |a| == |b| {
      var i :| 0 <= i < |a| && a[i] != b[i];
      assert VisitorProtocolName(a)[i] == a[i] && VisitorProtocolName(b)[i] == b[i];
      assert AssociatedTypeName(a)[i] == a[i] && AssociatedTypeName(b)[i] == b[i];
    } else {
      assert |VisitorProtocolName(a)| != |VisitorProtocolName(b)|;
    }
  }

  // ------------------------------------------------------------- one line per item

  /** One `let` line per parameter, in order. */
  lemma {:induction false} FieldLinesEach(parameters: seq<string>)
    ensures |FieldLines(parameters)| == |parameters|
    ensures forall i | 0 <= i < |parameters| :: FieldLines(parameters)[i] == Code(0, "let " + parameters[i])
    decreases |parameters|
  {
    if |parameters| > 0 {
      FieldLinesEach(parameters[..|parameters| - 1]);
    }
  }

  /** One assignment per parameter, in order. */
  lemma {:induction false} AssignmentLinesEach(parameters: seq<string>)
    ensures |AssignmentLines(parameters)| == |parameters|
    ensures forall i | 0 <= i < |parameters| :: AssignmentLines(parameters)[i] == Code(0, AssignmentLine(parameters[i]))
    decreases |parameters|
  {
    if |parameters| > 0 {
      AssignmentLinesEach(parameters[..|parameters| - 1]);
    }
  }

  /** One `visit` requirement per node type, in order. */
  lemma {:induction false} VisitLinesEach(types: seq<TypeDefinition>, returnName: string)
    ensures |VisitLines(types, returnName)| == |types|
    ensures forall i | 0 <= i < |types| :: VisitLines(types, returnName)[i] == Code(0, VisitLine(types[i].name, returnName))
    decreases |types|
  {
    if |types| > 0 {
      VisitLinesEach(types[..|types| - 1], returnName);
    }
  }

  /** Indenting keeps every line and moves each line of code one level in. */
  lemma {:induction false} IndentedEach(lines: seq<PrintedLine>)
    ensures |Indented(lines)| == |lines|
    ensures forall i | 0 <= i < |lines| ::
      Indented(lines)[i] == if lines[i].Code? then Code(lines[i].depth + 1, lines[i].text) else Gap
    decreases |lines|
  {
    if |lines| > 0 {
      IndentedEach(lines[..|lines| - 1]);
    }
  }

  /** The visitor protocol holds its associated type and then one `visit` per node type, one level in. */
  lemma {:induction false} VisitorProtocolCoversTypes(tree: Tree)
    ensures |VisitorProtocolLines(tree)| == |tree.types| + 4
    ensures VisitorProtocolLines(tree)[1] == Code(1, "associatedtype " + AssociatedTypeName(tree.baseName))
    ensures forall i | 0 <= i < |tree.types| ::
      VisitorProtocolLines(tree)[i + 3] == Code(1, VisitLine(tree.types[i].name, AssociatedTypeName(tree.baseName)))
  {
    var returnName := AssociatedTypeName(tree.baseName);
    var body := VisitorBodyLines(tree);
    VisitLinesEach(tree.types, returnName);
    IndentedEach(body);
    forall i | 0 <= i < |tree.types|
      ensures VisitorProtocolLines(tree)[i + 3] == Code(1, VisitLine(tree.types[i].name, returnName))
    {
      assert body[i + 2] == VisitLines(tree.types, returnName)[i];
    }
  }

  // ------------------------------------------------------------- printed lines

  /** Indentation holds no line break. */
  lemma {:induction false} IndentationUnbroken(count: nat)
    ensures multiset(Indentation(count))['\n'] == 0
  {
    if count > 0 {
      IndentationUnbroken(count - 1);
      assert multiset(Indentation(count)) == multiset(Indentation(count - 1)) + multiset(IndentUnit);
    }
  }

  /** A written line holds exactly one line break when its text holds none. */
  lemma {:induction false} OneLineBreak(level: nat, line: PrintedLine)
    requires line.Code? ==> '\n' !in line.text
    ensures multiset(LineText(level, line))['\n'] == 1
  {
    if line.Code? {
      var indentation := Indentation(level + line.depth);
      IndentationUnbroken(level + line.depth);
      assert multiset(line.text)['\n'] == 0;
      assert LineText(level, line) == indentation + line.text + "\n";
      assert multiset(indentation + line.text + "\n") == multiset(indentation) + multiset(line.text) + multiset("\n");
    }
  }

  /** Rendered lines hold one line break each and no other, as long as their texts hold none. */
  lemma {:induction false} RenderLineBreaks(level: nat, lines: seq<PrintedLine>)
    requires forall i | 0 <= i < |lines| :: lines[i].Code? ==> '\n' !in lines[i].text
    ensures multiset(Render(level, lines))['\n'] == |lines|
    decreases |lines|
  {
    if |lines| > 0 {
      var front := lines[..|lines| - 1];
      var last := lines[|lines| - 1];
      RenderLineBreaks(level, front);
      OneLineBreak(level, last);
      assert Render(level, lines) == Render(level, front) + LineText(level, last);
      assert multiset(Render(level, lines)) == multiset(Render(level, front)) + multiset(LineText(level, last));
    }
  }
}
