/**
 * Properties of the resolver: expressions never touch the scopes, any
 * statement leaves every scope but the innermost as it found it and restores
 * the enclosing function and class kinds, a block restores the scopes
 * exactly, diagnostics and the side table only grow; and the problems and
 * depths reported for small programs.
 */
module ResolverFacts {
  import opened Wrappers
  import opened Tokens
  import opened Syntax
  import opened Resolution

  /** Same number of scopes, and all but the innermost one equal. */
  predicate SameOuterScopes(a: seq<Scope>, b: seq<Scope>) {
    |a| == |b| && (|a| > 0 ==> a[..|a| - 1] == b[..|b| - 1])
  }

  /** What resolving never undoes: diagnostics are only appended, side-table entries only added. */
  predicate Grows(before: ResolverState, after: ResolverState) {
    && before.diagnostics <= after.diagnostics
    && before.locals.Keys <= after.locals.Keys
  }

  /** The scopes and the enclosing kinds are exactly as before, and the rest only grows. */
  predicate Keeps(before: ResolverState, after: ResolverState) {
    && after.scopes == before.scopes
    && after.classType == before.classType
    && after.functionType == before.functionType
    && Grows(before, after)
  }

  /** Only the innermost scope may differ, the enclosing kinds are as before, and the rest only grows. */
  predicate Extends(before: ResolverState, after: ResolverState) {
    && SameOuterScopes(before.scopes, after.scopes)
    && after.classType == before.classType
    && after.functionType == before.functionType
    && Grows(before, after)
  }

  lemma {:induction false} GrowsTransitive(a: ResolverState, b: ResolverState, c: ResolverState)
    requires Grows(a, b) && Grows(b, c)
    ensures Grows(a, c)
  {
    assert a.diagnostics == b.diagnostics[..|a.diagnostics|];
    assert b.diagnostics == c.diagnostics[..|b.diagnostics|];
    assert a.diagnostics == c.diagnostics[..|a.diagnostics|];
  }

  lemma {:induction false} ReportGrows(st: ResolverState, at: Token, message: string)
    ensures Keeps(st, Report(st, at, message))
  {
    assert st.diagnostics <= st.diagnostics + [TokenError(at, message)];
  }

  lemma {:induction false} LocalGrows(st: ResolverState, id: nat, name: Token)
    ensures Keeps(st, ResolvedLocal(st, id, name))
  {
  }

  /** Resolving an expression never changes the scopes or the enclosing kinds. */
  lemma {:induction false} ExprKeeps(st: ResolverState, e: Expr)
    ensures Keeps(st, ResolvedExpr(st, e))
    decreases ExprSize(e), 0
  {
    match e
    case Literal(_) =>
    case Grouping(inner) =>
      ExprKeeps(st, inner);
    case Unary(_, rhs) =>
      ExprKeeps(st, rhs);
    case Binary(lhs, _, rhs) =>
      ExprKeeps(st, lhs);
      ExprKeeps(ResolvedExpr(st, lhs), rhs);
      GrowsTransitive(st, ResolvedExpr(st, lhs), ResolvedExpr(ResolvedExpr(st, lhs), rhs));
    case Logical(lhs, rhs) =>
      ExprKeeps(st, lhs);
      ExprKeeps(ResolvedExpr(st, lhs), rhs);
      GrowsTransitive(st, ResolvedExpr(st, lhs), ResolvedExpr(ResolvedExpr(st, lhs), rhs));
    case Variable(id, name) =>
      var checked := if InOwnInitializer(st.scopes, name.lexeme) then Report(st, name, OwnInitializerMessage) else st;
      ReportGrows(st, name, OwnInitializerMessage);
      LocalGrows(checked, id, name);
      GrowsTransitive(st, checked, ResolvedLocal(checked, id, name));
    case Assignment(id, name, value) =>
      ExprKeeps(st, value);
      LocalGrows(ResolvedExpr(st, value), id, name);
      GrowsTransitive(st, ResolvedExpr(st, value), ResolvedLocal(ResolvedExpr(st, value), id, name));
    case Call(callee, arguments) =>
      ExprKeeps(st, callee);
      ExprsKeep(ResolvedExpr(st, callee), arguments);
      GrowsTransitive(st, ResolvedExpr(st, callee), ResolvedExprs(ResolvedExpr(st, callee), arguments));
    case Get(receiver) =>
      ExprKeeps(st, receiver);
    case Set(receiver, value) =>
      ExprKeeps(st, value);
      ExprKeeps(ResolvedExpr(st, value), receiver);
      GrowsTransitive(st, ResolvedExpr(st, value), ResolvedExpr(ResolvedExpr(st, value), receiver));
    case This(id, keyword) =>
      var checked := if st.classType == NoClass then Report(st, keyword, ThisOutsideClassMessage) else st;
      ReportGrows(st, keyword, ThisOutsideClassMessage);
      LocalGrows(checked, id, keyword);
      GrowsTransitive(st, checked, ResolvedLocal(checked, id, keyword));
  }

  lemma {:induction false} ExprsKeep(st: ResolverState, es: seq<Expr>)
    ensures Keeps(st, ResolvedExprs(st, es))
    decreases ExprsSize(es), 1
  {
    if es != [] {
      var prefix := ResolvedExprs(st, es[..|es| - 1]);
      ExprsKeep(st, es[..|es| - 1]);
      ExprKeeps(prefix, es[|es| - 1]);
      GrowsTransitive(st, prefix, ResolvedExpr(prefix, es[|es| - 1]));
    }
  }

  lemma {:induction false} DeclaredExtends(st: ResolverState, name: Token)
    ensures Extends(st, Declared(st, name))
  {
    if st.scopes != [] {
      ReportGrows(st, name, AlreadyDeclaredMessage);
    }
  }

  lemma {:induction false} DefinedExtends(st: ResolverState, name: Token)
    ensures Extends(st, Defined(st, name))
  {
  }

  lemma {:induction false} ExtendsTransitive(a: ResolverState, b: ResolverState, c: ResolverState)
    requires Extends(a, b) && Extends(b, c)
    ensures Extends(a, c)
  {
    GrowsTransitive(a, b, c);
  }

  /** A variable declaration changes at most the innermost scope. */
  lemma {:induction false} VariableExtends(st: ResolverState, name: Token, initializer: Option<Expr>)
    ensures Extends(st, ResolvedStmt(st, VarStmt(name, initializer)))
  {
    var declared := Declared(st, name);
    DeclaredExtends(st, name);
    var initialized := if initializer.Some? then ResolvedExpr(declared, initializer.value) else declared;
    if initializer.Some? {
      ExprKeeps(declared, initializer.value);
    }
    ExtendsTransitive(st, declared, initialized);
    DefinedExtends(initialized, name);
    ExtendsTransitive(st, initialized, Defined(initialized, name));
  }

  /** Resolving a statement changes at most the innermost scope and restores the enclosing kinds. */
  lemma {:induction false} StmtExtends(st: ResolverState, s: Stmt)
    ensures Extends(st, ResolvedStmt(st, s))
    decreases StmtSize(s), 1
  {
    match s
    case ExpressionStmt(e) =>
      ExprKeeps(st, e);
    case PrintStmt(e) =>
      ExprKeeps(st, e);
    case VarStmt(name, initializer) =>
      VariableExtends(st, name, initializer);
    case BlockStmt(statements) =>
      BlockRestoresScopes(st, statements);
    case ClassStmt(name, methods) =>
      ClassExtends(st, name, methods);
    case FunctionStmt(declaration) =>
      var named := Defined(Declared(st, declaration.name), declaration.name);
      DeclaredExtends(st, declaration.name);
      DefinedExtends(Declared(st, declaration.name), declaration.name);
      ExtendsTransitive(st, Declared(st, declaration.name), named);
      FunctionKeeps(named, declaration, PlainFunction);
      ExtendsTransitive(st, named, ResolvedFunction(named, declaration, PlainFunction));
    case IfStmt(condition, thenBranch, elseBranch) =>
      var checked := ResolvedExpr(st, condition);
      ExprKeeps(st, condition);
      StmtExtends(checked, thenBranch);
      var taken := ResolvedStmt(checked, thenBranch);
      ExtendsTransitive(st, checked, taken);
      if elseBranch.Some? {
        StmtExtends(taken, elseBranch.value);
        ExtendsTransitive(st, taken, ResolvedStmt(taken, elseBranch.value));
      }
    case ReturnStmt(keyword, value) =>
      ReturnChecked(st, keyword, value);
    case WhileStmt(condition, body) =>
      ExprKeeps(st, condition);
      StmtExtends(ResolvedExpr(st, condition), body);
      ExtendsTransitive(st, ResolvedExpr(st, condition), ResolvedStmt(ResolvedExpr(st, condition), body));
  }

  lemma {:induction false} StmtsExtend(st: ResolverState, ss: seq<Stmt>)
    ensures Extends(st, ResolvedStmts(st, ss))
    decreases StmtsSize(ss), 2
  {
    if ss != [] {
      var prefix := ResolvedStmts(st, ss[..|ss| - 1]);
      StmtsExtend(st, ss[..|ss| - 1]);
      StmtExtends(prefix, ss[|ss| - 1]);
      ExtendsTransitive(st, prefix, ResolvedStmt(prefix, ss[|ss| - 1]));
    }
  }

  /** A block pushes a scope and pops it again: the scopes end exactly as they began. */
  lemma {:induction false} BlockRestoresScopes(st: ResolverState, statements: seq<Stmt>)
    ensures Keeps(st, ResolvedStmt(st, BlockStmt(statements)))
    decreases StmtSize(BlockStmt(statements)), 0
  {
    var inner := ScopeBegun(st);
    StmtsExtend(inner, statements);
    var body := ResolvedStmts(inner, statements);
    assert body.scopes[..|body.scopes| - 1] == st.scopes;
  }

  lemma {:induction false} ParametersExtend(st: ResolverState, parameters: seq<Token>)
    ensures Extends(st, BoundParameters(st, parameters))
  {
    if parameters != [] {
      var last := parameters[|parameters| - 1];
      var prefix := BoundParameters(st, parameters[..|parameters| - 1]);
      ParametersExtend(st, parameters[..|parameters| - 1]);
      DeclaredExtends(prefix, last);
      DefinedExtends(Declared(prefix, last), last);
      ExtendsTransitive(prefix, Declared(prefix, last), Defined(Declared(prefix, last), last));
      ExtendsTransitive(st, prefix, Defined(Declared(prefix, last), last));
    }
  }

  /** A function body is resolved in its own scope: afterwards the scopes and kinds are exactly as before. */
  lemma {:induction false} FunctionKeeps(st: ResolverState, f: FunctionDecl, kind: FunctionType)
    ensures Keeps(st, ResolvedFunction(st, f, kind))
    decreases DeclSize(f), 1
  {
    var entered := ScopeBegun(st.(functionType := kind));
    ParametersExtend(entered, f.parameters);
    var bound := BoundParameters(entered, f.parameters);
    StmtsExtend(bound, f.body);
    var body := ResolvedStmts(bound, f.body);
    GrowsTransitive(entered, bound, body);
    assert body.scopes[..|body.scopes| - 1] == st.scopes;
  }

  lemma {:induction false} MethodsKeep(st: ResolverState, methods: seq<FunctionDecl>)
    ensures Keeps(st, ResolvedMethods(st, methods))
    decreases DeclsSize(methods), 2
  {
    if methods != [] {
      var last := methods[|methods| - 1];
      var prefix := ResolvedMethods(st, methods[..|methods| - 1]);
      MethodsKeep(st, methods[..|methods| - 1]);
      FunctionKeeps(prefix, last, MethodKind(last));
      GrowsTransitive(st, prefix, ResolvedFunction(prefix, last, MethodKind(last)));
    }
  }

  lemma {:induction false} ClassExtends(st: ResolverState, name: Token, methods: seq<FunctionDecl>)
    ensures Extends(st, ResolvedClass(st, name, methods))
    decreases StmtSize(ClassStmt(name, methods)), 0
  {
    var named := Defined(Declared(st, name), name);
    DeclaredExtends(st, name);
    DefinedExtends(Declared(st, name), name);
    ExtendsTransitive(st, Declared(st, name), named);
    var entered := ScopeBegun(named.(classType := InClass));
    var withThis := entered.(scopes := MarkInnermost(entered.scopes, "this", true));
    MethodsKeep(withThis, methods);
    var resolved := ResolvedMethods(withThis, methods);
    assert resolved.scopes[..|resolved.scopes| - 1] == named.scopes;
    GrowsTransitive(st, named, ResolvedClass(st, name, methods));
  }

  // ------------------------------------------------------- small programs

  function Name(text: string, line: int): Token {
    Token(Identifier, text, None, line)
  }

  lemma {:induction false} OneStatement(st: ResolverState, s: Stmt)
    ensures ResolvedStmts(st, [s]) == ResolvedStmt(st, s)
  {
    assert [s][..0] == [];
  }

  lemma {:induction false} TwoStatements(st: ResolverState, s: Stmt, t: Stmt)
    ensures ResolvedStmts(st, [s, t]) == ResolvedStmt(ResolvedStmt(st, s), t)
  {
    assert [s, t][..1] == [s];
    OneStatement(st, s);
  }

  lemma {:induction false} OneMethod(st: ResolverState, f: FunctionDecl)
    ensures ResolvedMethods(st, [f]) == ResolvedFunction(st, f, MethodKind(f))
  {
    assert [f][..0] == [];
  }

  /** A function without parameters: its body is resolved in one fresh scope, inside a function of the given kind. */
  lemma {:induction false} FunctionWithoutParameters(st: ResolverState, f: FunctionDecl, kind: FunctionType)
    requires f.parameters == []
    ensures ResolvedFunction(st, f, kind)
      == ScopeEnded(ResolvedStmts(ScopeBegun(st.(functionType := kind)), f.body)).(functionType := st.functionType)
  {
  }

  /** A class holding one method: the method is resolved in a scope of its own, inside a scope that binds only `this`. */
  lemma {:induction false} ClassWithOneMethod(st: ResolverState, name: Token, f: FunctionDecl)
    requires st.scopes == []
    ensures ResolvedStmt(st, ClassStmt(name, [f]))
      == ScopeEnded(ResolvedFunction(st.(scopes := [map["this" := true]], classType := InClass), f, MethodKind(f))).(classType := st.classType)
  {
    var entered := ScopeBegun(st.(classType := InClass));
    assert entered.scopes == [map[]];
    var withThis := st.(scopes := [map["this" := true]], classType := InClass);
    assert entered.(scopes := MarkInnermost(entered.scopes, "this", true)) == withThis;
    OneMethod(withThis, f);
  }

  /** Marking a name twice in the innermost scope leaves the second mark. */
  lemma {:induction false} MarkTwice(scopes: seq<Scope>, name: string, first: bool, second: bool)
    requires scopes != []
    ensures MarkInnermost(MarkInnermost(scopes, name, first), name, second) == MarkInnermost(scopes, name, second)
  {
    var last := scopes[|scopes| - 1];
    assert last[name := first][name := second] == last[name := second];
  }

  /** Reading a name in its own initialiser is reported, and the read is still resolved to the innermost scope. */
  lemma {:induction false} OwnInitializerReported(st: ResolverState, a: Token, id: nat)
    requires st.scopes != []
    ensures var after := ResolvedStmt(st, VarStmt(a, Some(Variable(id, a))));
      var redeclared := if a.lexeme in st.scopes[|st.scopes| - 1] then [TokenError(a, AlreadyDeclaredMessage)] else [];
      && after.diagnostics == st.diagnostics + redeclared + [TokenError(a, OwnInitializerMessage)]
      && after.locals == st.locals[id := 0]
      && after.scopes == MarkInnermost(st.scopes, a.lexeme, true)
  {
    var declared := Declared(st, a);
    assert InOwnInitializer(declared.scopes, a.lexeme);
    assert InnermostHolding(declared.scopes, a.lexeme) == Some(|st.scopes| - 1);
    MarkTwice(st.scopes, a.lexeme, false, true);
  }

  /** A name declared in the innermost scope and read right after is found zero scopes out. */
  lemma {:induction false} DeclaredThenReadIsLocal(st: ResolverState, a: Token, id: nat)
    requires st.scopes != []
    ensures var after := ResolvedStmts(st, [VarStmt(a, None), ExpressionStmt(Variable(id, a))]);
      && after.locals == st.locals[id := 0]
      && after.diagnostics == st.diagnostics + if a.lexeme in st.scopes[|st.scopes| - 1] then [TokenError(a, AlreadyDeclaredMessage)] else []
  {
    var declaration := VarStmt(a, None);
    TwoStatements(st, declaration, ExpressionStmt(Variable(id, a)));
    var defined := ResolvedStmt(st, declaration);
    assert defined.scopes[|defined.scopes| - 1] == st.scopes[|st.scopes| - 1][a.lexeme := true];
    assert !InOwnInitializer(defined.scopes, a.lexeme);
    assert InnermostHolding(defined.scopes, a.lexeme) == Some(|st.scopes| - 1);
  }

  /** A name the innermost scope holds is found one scope out from inside a nested block, and nothing else changes. */
  lemma {:induction false} NestedBlockReadsOneOut(st: ResolverState, a: Token, id: nat)
    requires st.scopes != [] && a.lexeme in st.scopes[|st.scopes| - 1]
    ensures ResolvedStmt(st, BlockStmt([ExpressionStmt(Variable(id, a))])) == st.(locals := st.locals[id := 1])
  {
    var nested := ScopeBegun(st);
    assert !InOwnInitializer(nested.scopes, a.lexeme);
    assert InnermostHolding(nested.scopes, a.lexeme) == Some(|st.scopes| - 1);
    OneStatement(nested, ExpressionStmt(Variable(id, a)));
    assert nested.scopes[..|st.scopes|] == st.scopes;
  }

  /**
   * `return` checks the enclosing function: outside every function it is
   * reported, with a value inside an initialiser it is reported, and
   * elsewhere only the value is resolved.
   */
  lemma {:induction false} ReturnChecked(st: ResolverState, keyword: Token, value: Option<Expr>)
    ensures var after := ResolvedStmt(st, ReturnStmt(keyword, value));
      var n := |st.diagnostics|;
      && Keeps(st, after)
      && (st.functionType == NoFunction ==> n < |after.diagnostics| && after.diagnostics[n] == TokenError(keyword, TopLevelReturnMessage))
      && (st.functionType == Initializer && value.Some? ==>
            n < |after.diagnostics| && after.diagnostics[n] == TokenError(keyword, InitializerReturnMessage))
      && (st.functionType in {PlainFunction, Method} || (value.None? && st.functionType != NoFunction) ==>
            after == if value.Some? then ResolvedExpr(st, value.value) else st)
  {
    var checked := if st.functionType == NoFunction then Report(st, keyword, TopLevelReturnMessage) else st;
    ReportGrows(st, keyword, TopLevelReturnMessage);
    if value.Some? {
      var inInitializer := if st.functionType == Initializer then Report(checked, keyword, InitializerReturnMessage) else checked;
      ReportGrows(checked, keyword, InitializerReturnMessage);
      GrowsTransitive(st, checked, inInitializer);
      ExprKeeps(inInitializer, value.value);
      GrowsTransitive(st, inInitializer, ResolvedExpr(inInitializer, value.value));
      assert inInitializer.diagnostics <= ResolvedExpr(inInitializer, value.value).diagnostics;
    }
  }

  /** `this` outside a class is reported; inside one nothing is reported, and either way the scopes are untouched. */
  lemma {:induction false} ThisChecked(st: ResolverState, id: nat, keyword: Token)
    ensures var after := ResolvedExpr(st, Expr.This(id, keyword));
      && after.scopes == st.scopes
      && after.diagnostics == st.diagnostics + if st.classType == NoClass then [TokenError(keyword, ThisOutsideClassMessage)] else []
  {
  }

  /** In a method without parameters of a class declared outside every scope, `this` is found one scope out. */
  lemma {:induction false} ThisInMethod(st: ResolverState, name: Token, decl: FunctionDecl, keyword: Token, self: Token, id: nat)
    requires st.scopes == [] && self.lexeme == "this" && decl.name.lexeme != "init"
    requires decl.parameters == [] && decl.body == [ReturnStmt(keyword, Some(Expr.This(id, self)))]
    ensures var after := ResolvedStmt(st, ClassStmt(name, [decl]));
      after.locals == st.locals[id := 1] && after.diagnostics == st.diagnostics
  {
    var withThis := st.(scopes := [map["this" := true]], classType := InClass);
    ClassWithOneMethod(st, name, decl);
    FunctionWithoutParameters(withThis, decl, Method);
    var entered := ScopeBegun(withThis.(functionType := Method));
    var body := ResolvedStmts(entered, decl.body);
    ReturnThisInMethod(entered, keyword, self, id);
    assert body.locals == st.locals[id := 1] && body.diagnostics == st.diagnostics;
  }

  /** `return this;` in a method's own scope, directly inside the class scope, finds `this` one scope out. */
  lemma {:induction false} ReturnThisInMethod(st: ResolverState, keyword: Token, self: Token, id: nat)
    requires |st.scopes| == 2 && "this" in st.scopes[0] && st.scopes[1] == map[]
    requires st.classType == InClass && st.functionType == Method && self.lexeme == "this"
    ensures ResolvedStmts(st, [ReturnStmt(keyword, Some(Expr.This(id, self)))]) == st.(locals := st.locals[id := 1])
  {
    assert InnermostHolding(st.scopes, "this") == Some(0);
    OneStatement(st, ReturnStmt(keyword, Some(Expr.This(id, self))));
  }

  /** Outside every scope, a variable declaration changes nothing. */
  lemma {:induction false} GlobalVariablesAreNotTracked(st: ResolverState, name: Token)
    requires st.scopes == []
    ensures ResolvedStmt(st, VarStmt(name, None)) == st
  {
  }
}
