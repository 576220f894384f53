/**
 * The static resolver.  It walks statements and expressions keeping a stack
 * of scopes (each maps a name to whether its initialiser has finished), the
 * kind of function and of class it is inside, and a side table from
 * expression node ids to the number of scopes between the use and the
 * binding.  Problems are reported as diagnostics and never stop the walk.
 *
 * The `Resolved*` functions are the reference definition of one walk; the
 * `Resolver` class performs it by updating its fields, and each of its
 * methods is proved to end in the state the reference definition gives.
 */
module Resolution {
  import opened Wrappers
  import opened Tokens
  import opened Syntax

  datatype FunctionType = NoFunction | PlainFunction | Initializer | Method
  datatype ClassType = NoClass | InClass

  /** A scope maps each declared name to whether it is defined yet. */
  type Scope = map<string, bool>

  datatype ResolverState = ResolverState(
    scopes: seq<Scope>,
    classType: ClassType,
    functionType: FunctionType,
    locals: map<nat, nat>,
    diagnostics: seq<Diagnostic>)

  const AlreadyDeclaredMessage := "Variable with this name already declared in this scope"
  const OwnInitializerMessage := "Can't read local variable in its own initializer"
  const ThisOutsideClassMessage := "Can't use 'this' outside of a class"
  const TopLevelReturnMessage := "Can't return from top-level code."
  const InitializerReturnMessage := "Can't return a value from an initializer"

  const Initial := ResolverState([], NoClass, NoFunction, map[], [])

  // ---------------------------------------------------------------- measures

  function ExprSize(e: Expr): (n: nat)
    ensures n > 0
  {
    match e
    case Literal(_) => 1
    case Grouping(inner) => 1 + ExprSize(inner)
    case Unary(_, rhs) => 1 + ExprSize(rhs)
    case Binary(lhs, _, rhs) => 1 + ExprSize(lhs) + ExprSize(rhs)
    case Logical(lhs, rhs) => 1 + ExprSize(lhs) + ExprSize(rhs)
    case Variable(_, _) => 1
    case Assignment(_, _, value) => 1 + ExprSize(value)
    case Call(callee, arguments) => 1 + ExprSize(callee) + ExprsSize(arguments)
    case Get(receiver) => 1 + ExprSize(receiver)
    case Set(receiver, value) => 1 + ExprSize(receiver) + ExprSize(value)
    case This(_, _) => 1
  }

  function ExprsSize(es: seq<Expr>): nat {
    if es == [] then 0 else ExprsSize(es[..|es| - 1]) + ExprSize(es[|es| - 1])
  }

  function StmtSize(s: Stmt): (n: nat)
    ensures n > 0
  {
    match s
    case ExpressionStmt(_) => 1
    case VarStmt(_, _) => 1
    case PrintStmt(_) => 1
    case BlockStmt(statements) => 1 + StmtsSize(statements)
    case ClassStmt(_, methods) => 1 + DeclsSize(methods)
    case FunctionStmt(declaration) => 1 + DeclSize(declaration)
    case IfStmt(_, thenBranch, elseBranch) =>
      1 + StmtSize(thenBranch) + (if elseBranch.Some? then StmtSize(elseBranch.value) else 0)
    case ReturnStmt(_, _) => 1
    case WhileStmt(_, body) => 1 + StmtSize(body)
  }

  function StmtsSize(ss: seq<Stmt>): nat {
    if ss == [] then 0 else StmtsSize(ss[..|ss| - 1]) + StmtSize(ss[|ss| - 1])
  }

  function DeclSize(f: FunctionDecl): (n: nat)
    ensures n > 0
  {
    1 + StmtsSize(f.body)
  }

  function DeclsSize(fs: seq<FunctionDecl>): nat {
    if fs == [] then 0 else DeclsSize(fs[..|fs| - 1]) + DeclSize(fs[|fs| - 1])
  }

  lemma {:induction false} ExprsSizeBound(es: seq<Expr>, i: nat)
    requires i < |es|
    ensures ExprSize(es[i]) <= ExprsSize(es)
  {
    if i < |es| - 1 {
      ExprsSizeBound(es[..|es| - 1], i);
    }
  }

  lemma {:induction false} StmtsSizeBound(ss: seq<Stmt>, i: nat)
    requires i < |ss|
    ensures StmtSize(ss[i]) <= StmtsSize(ss)
  {
    if i < |ss| - 1 {
      StmtsSizeBound(ss[..|ss| - 1], i);
    }
  }

  lemma {:induction false} DeclsSizeBound(fs: seq<FunctionDecl>, i: nat)
    requires i < |fs|
    ensures DeclSize(fs[i]) <= DeclsSize(fs)
  {
    if i < |fs| - 1 {
      DeclsSizeBound(fs[..|fs| - 1], i);
    }
  }

  // ------------------------------------------------------ scope operations

  function Report(st: ResolverState, at: Token, message: string): ResolverState {
    st.(diagnostics := st.diagnostics + [TokenError(at, message)])
  }

  /** The scopes with `name` marked in the innermost one. */
  function MarkInnermost(scopes: seq<Scope>, name: string, ready: bool): (r: seq<Scope>)
    requires scopes != []
    ensures |r| == |scopes| && r[..|r| - 1] == scopes[..|scopes| - 1]
    ensures r[|r| - 1] == scopes[|scopes| - 1][name := ready]
  {
    scopes[..|scopes| - 1] + [scopes[|scopes| - 1][name := ready]]
  }

  /** Declaring outside every scope does nothing; inside, a name already in the innermost scope is reported, and the name becomes not yet defined. */
  function Declared(st: ResolverState, name: Token): ResolverState {
    if st.scopes == [] then st
    else
      var reported := if name.lexeme in st.scopes[|st.scopes| - 1] then Report(st, name, AlreadyDeclaredMessage) else st;
      reported.(scopes := MarkInnermost(st.scopes, name.lexeme, false))
  }

  /** Defining outside every scope does nothing; inside, the name becomes defined. */
  function Defined(st: ResolverState, name: Token): ResolverState {
    if st.scopes == [] then st
    else st.(scopes := MarkInnermost(st.scopes, name.lexeme, true))
  }

  function ScopeBegun(st: ResolverState): ResolverState {
    st.(scopes := st.scopes + [map[]])
  }

  function ScopeEnded(st: ResolverState): ResolverState {
    if st.scopes == [] then st else st.(scopes := st.scopes[..|st.scopes| - 1])
  }

  /** The index of the innermost scope that holds `name`, if any does. */
  function InnermostHolding(scopes: seq<Scope>, name: string): (r: Option<nat>)
    ensures r.Some? ==> r.value < |scopes| && name in scopes[r.value]
    ensures r.Some? ==> forall j | r.value < j < |scopes| :: name !in scopes[j]
    ensures r.None? <==> forall j | 0 <= j < |scopes| :: name !in scopes[j]
  {
    if scopes == [] then None
    else if name in scopes[|scopes| - 1] then Some(|scopes| - 1)
    else InnermostHolding(scopes[..|scopes| - 1], name)
  }

  /** Records, for node `id`, how many scopes out the innermost binding of `name` is; records nothing for a global. */
  function ResolvedLocal(st: ResolverState, id: nat, name: Token): ResolverState {
    match InnermostHolding(st.scopes, name.lexeme)
    case None => st
    case Some(i) => st.(locals := st.locals[id := |st.scopes| - 1 - i])
  }

  /** True when the innermost scope holds `name` and its initialiser has not finished. */
  predicate InOwnInitializer(scopes: seq<Scope>, name: string) {
    scopes != [] && name in scopes[|scopes| - 1] && !scopes[|scopes| - 1][name]
  }

  // ------------------------------------------------------------- the walk

  function ResolvedExpr(st: ResolverState, e: Expr): ResolverState
    decreases ExprSize(e), 0
  {
    match e
    case Literal(_) => st
    case Grouping(inner) => ResolvedExpr(st, inner)
    case Unary(_, rhs) => ResolvedExpr(st, rhs)
    case Binary(lhs, _, rhs) => ResolvedExpr(ResolvedExpr(st, lhs), rhs)
    case Logical(lhs, rhs) => ResolvedExpr(ResolvedExpr(st, lhs), rhs)
    case Variable(id, name) =>
      var checked := if InOwnInitializer(st.scopes, name.lexeme) then Report(st, name, OwnInitializerMessage) else st;
      ResolvedLocal(checked, id, name)
    case Assignment(id, name, value) => ResolvedLocal(ResolvedExpr(st, value), id, name)
    case Call(callee, arguments) => ResolvedExprs(ResolvedExpr(st, callee), arguments)
    case Get(receiver) => ResolvedExpr(st, receiver)
    case Set(receiver, value) => ResolvedExpr(ResolvedExpr(st, value), receiver)
    case This(id, keyword) =>
      var checked := if st.classType == NoClass then Report(st, keyword, ThisOutsideClassMessage) else st;
      ResolvedLocal(checked, id, keyword)
  }

  /** The expressions resolved in order. */
  function ResolvedExprs(st: ResolverState, es: seq<Expr>): ResolverState
    decreases ExprsSize(es), 1
  {
    if es == [] then st else ResolvedExpr(ResolvedExprs(st, es[..|es| - 1]), es[|es| - 1])
  }

  /**
   * A class: its name is declared and defined, then its methods are resolved
   * inside a class, in a scope that already defines `this`.
   */
  function ResolvedClass(st: ResolverState, name: Token, methods: seq<FunctionDecl>): ResolverState
    decreases StmtSize(ClassStmt(name, methods)), 0
  {
    var named := Defined(Declared(st, name), name);
    var entered := ScopeBegun(named.(classType := InClass));
    var withThis := entered.(scopes := MarkInnermost(entered.scopes, "this", true));
    ScopeEnded(ResolvedMethods(withThis, methods)).(classType := named.classType)
  }

  function ResolvedStmt(st: ResolverState, s: Stmt): ResolverState
    decreases StmtSize(s), 1
  {
    match s
    case ExpressionStmt(e) => ResolvedExpr(st, e)
    case PrintStmt(e) => ResolvedExpr(st, e)
    case VarStmt(name, initializer) =>
      var declared := Declared(st, name);
      var initialized := if initializer.Some? then ResolvedExpr(declared, initializer.value) else declared;
      Defined(initialized, name)
    case BlockStmt(statements) => ScopeEnded(ResolvedStmts(ScopeBegun(st), statements))
    case ClassStmt(name, methods) => ResolvedClass(st, name, methods)
    case FunctionStmt(declaration) =>
      ResolvedFunction(Defined(Declared(st, declaration.name), declaration.name), declaration, PlainFunction)
    case IfStmt(condition, thenBranch, elseBranch) =>
      var taken := ResolvedStmt(ResolvedExpr(st, condition), thenBranch);
      if elseBranch.Some? then ResolvedStmt(taken, elseBranch.value) else taken
    case ReturnStmt(keyword, value) =>
      var checked := if st.functionType == NoFunction then Report(st, keyword, TopLevelReturnMessage) else st;
      if value.None? then checked
      else
        var inInitializer := if st.functionType == Initializer then Report(checked, keyword, InitializerReturnMessage) else checked;
        ResolvedExpr(inInitializer, value.value)
    case WhileStmt(condition, body) => ResolvedStmt(ResolvedExpr(st, condition), body)
  }

  /** The statements resolved in order. */
  function ResolvedStmts(st: ResolverState, ss: seq<Stmt>): ResolverState
    decreases StmtsSize(ss), 2
  {
    if ss == [] then st else ResolvedStmt(ResolvedStmts(st, ss[..|ss| - 1]), ss[|ss| - 1])
  }

  /** Each parameter declared and defined in turn. */
  function BoundParameters(st: ResolverState, parameters: seq<Token>): ResolverState {
    if parameters == [] then st
    else
      var last := parameters[|parameters| - 1];
      Defined(Declared(BoundParameters(st, parameters[..|parameters| - 1]), last), last)
  }

  /** A function body in a fresh scope holding its parameters, inside a function of the given kind. */
  function ResolvedFunction(st: ResolverState, f: FunctionDecl, kind: FunctionType): ResolverState
    decreases DeclSize(f), 1
  {
    var entered := ScopeBegun(st.(functionType := kind));
    var body := ResolvedStmts(BoundParameters(entered, f.parameters), f.body);
    ScopeEnded(body).(functionType := st.functionType)
  }

  /** A method named `init` is an initialiser; every other one is a plain method. */
  function MethodKind(f: FunctionDecl): FunctionType {
    if f.name.lexeme == "init" then Initializer else Method
  }

  /** A class's methods resolved in order. */
  function ResolvedMethods(st: ResolverState, methods: seq<FunctionDecl>): ResolverState
    decreases DeclsSize(methods), 2
  {
    if methods == [] then st
    else
      var last := methods[|methods| - 1];
      ResolvedFunction(ResolvedMethods(st, methods[..|methods| - 1]), last, MethodKind(last))
  }

  // --------------------------------------------------------- the resolver

  class Resolver {
    var scopes: seq<Scope>
    var currentClassType: ClassType
    var currentFunctionType: FunctionType
    /** The interpreter's side table: binding depth by expression node id. */
    var locals: map<nat, nat>
    /** The problems reported so far, in order. */
    ghost var diagnostics: seq<Diagnostic>

    ghost function State(): ResolverState
      reads this
    {
      ResolverState(scopes, currentClassType, currentFunctionType, locals, diagnostics)
    }

    constructor ()
      ensures State() == Initial
    {
      scopes := [];
      currentClassType := NoClass;
      currentFunctionType := NoFunction;
      locals := map[];
      diagnostics := [];
    }

    method ReportError(message: string, at: Token)
      modifies this
      ensures State() == Report(old(State()), at, message)
    {
      diagnostics := diagnostics + [TokenError(at, message)];
    }

    method Declare(name: Token)
      modifies this
      ensures State() == Declared(old(State()), name)
    {
      if scopes == [] {
        return;
      }
      if name.lexeme in scopes[|scopes| - 1] {
        ReportError(AlreadyDeclaredMessage, name);
      }
      scopes := scopes[..|scopes| - 1] + [scopes[|scopes| - 1][name.lexeme := false]];
    }

    method Define(name: Token)
      modifies this
      ensures State() == Defined(old(State()), name)
    {
      if scopes == [] {
        return;
      }
      scopes := scopes[..|scopes| - 1] + [scopes[|scopes| - 1][name.lexeme := true]];
    }

    method BeginScope()
      modifies this
      ensures State() == ScopeBegun(old(State()))
    {
      scopes := scopes + [map[]];
    }

    method EndScope()
      modifies this
      ensures State() == ScopeEnded(old(State()))
    {
      if scopes != [] {
        scopes := scopes[..|scopes| - 1];
      }
    }

    /** Searches the scopes from the innermost out and records the first hit's distance. */
    method ResolveLocal(id: nat, name: Token)
      modifies this
      ensures State() == ResolvedLocal(old(State()), id, name)
    {
      var i := |scopes|;
      while i > 0
        invariant 0 <= i <= |scopes|
        invariant forall j | i <= j < |scopes| :: name.lexeme !in scopes[j]
        invariant State() == old(State())
      {
        i := i - 1;
        if name.lexeme in scopes[i] {
          locals := locals[id := |scopes| - 1 - i];
          return;
        }
      }
    }

    method ResolveExpr(e: Expr)
      modifies this
      ensures State() == ResolvedExpr(old(State()), e)
      decreases ExprSize(e), 0
    {
      match e
      case Literal(_) =>
      case Grouping(inner) =>
        ResolveExpr(inner);
      case Unary(_, rhs) =>
        ResolveExpr(rhs);
      case Binary(lhs, _, rhs) =>
        ResolveExpr(lhs);
        ResolveExpr(rhs);
      case Logical(lhs, rhs) =>
        ResolveExpr(lhs);
        ResolveExpr(rhs);
      case Variable(id, name) =>
        if scopes != [] && name.lexeme in scopes[|scopes| - 1] && !scopes[|scopes| - 1][name.lexeme] {
          ReportError(OwnInitializerMessage, name);
        }
        ResolveLocal(id, name);
      case Assignment(id, name, value) =>
        ResolveExpr(value);
        ResolveLocal(id, name);
      case Call(callee, arguments) =>
        ResolveExpr(callee);
        ghost var afterCallee := State();
        for i := 0 to |arguments|
          invariant State() == ResolvedExprs(afterCallee, arguments[..i])
        {
          ExprsSizeBound(arguments, i);
          assert arguments[..i + 1][..i] == arguments[..i];
          ResolveExpr(arguments[i]);
        }
        assert arguments[..|arguments|] == arguments;
      case Get(receiver) =>
        ResolveExpr(receiver);
      case Set(receiver, value) =>
        ResolveExpr(value);
        ResolveExpr(receiver);
      case This(id, keyword) =>
        if currentClassType == NoClass {
          ReportError(ThisOutsideClassMessage, keyword);
        }
        ResolveLocal(id, keyword);
    }

    /** Resolves the statements in order. */
    method ResolveStmts(statements: seq<Stmt>)
      modifies this
      ensures State() == ResolvedStmts(old(State()), statements)
      decreases StmtsSize(statements), 2
    {
      for i := 0 to |statements|
        invariant State() == ResolvedStmts(old(State()), statements[..i])
      {
        StmtsSizeBound(statements, i);
        assert statements[..i + 1][..i] == statements[..i];
        ResolveStmt(statements[i]);
      }
      assert statements[..|statements|] == statements;
    }

    method ResolveStmt(s: Stmt)
      modifies this
      ensures State() == ResolvedStmt(old(State()), s)
      decreases StmtSize(s), 1
    {
      match s
      case ExpressionStmt(e) =>
        ResolveExpr(e);
      case PrintStmt(e) =>
        ResolveExpr(e);
      case VarStmt(name, initializer) =>
        Declare(name);
        if initializer.Some? {
          ResolveExpr(initializer.value);
        }
        Define(name);
      case BlockStmt(statements) =>
        BeginScope();
        ResolveStmts(statements);
        EndScope();
      case ClassStmt(name, methods) =>
        ResolveClass(name, methods);
      case FunctionStmt(declaration) =>
        Declare(declaration.name);
        Define(declaration.name);
        ResolveFunction(declaration, PlainFunction);
      case IfStmt(condition, thenBranch, elseBranch) =>
        ResolveExpr(condition);
        ResolveStmt(thenBranch);
        if elseBranch.Some? {
          ResolveStmt(elseBranch.value);
        }
      case ReturnStmt(keyword, value) =>
        if currentFunctionType == NoFunction {
          ReportError(TopLevelReturnMessage, keyword);
        }
        if value.Some? {
          if currentFunctionType == Initializer {
            ReportError(InitializerReturnMessage, keyword);
          }
          ResolveExpr(value.value);
        }
      case WhileStmt(condition, body) =>
        ResolveExpr(condition);
        ResolveStmt(body);
    }

    /** A class: its name, then a scope predefining `this` that holds its methods. */
    method ResolveClass(name: Token, methods: seq<FunctionDecl>)
      modifies this
      ensures State() == ResolvedClass(old(State()), name, methods)
      decreases StmtSize(ClassStmt(name, methods)), 0
    {
      Declare(name);
      Define(name);
      var enclosingClassType := currentClassType;
      currentClassType := InClass;
      BeginScope();
      scopes := scopes[..|scopes| - 1] + [scopes[|scopes| - 1]["this" := true]];
      ghost var withThis := State();
      for i := 0 to |methods|
        invariant State() == ResolvedMethods(withThis, methods[..i])
      {
        DeclsSizeBound(methods, i);
        assert methods[..i + 1][..i] == methods[..i];
        var kind := if methods[i].name.lexeme == "init" then Initializer else Method;
        ResolveFunction(methods[i], kind);
      }
      assert methods[..|methods|] == methods;
      EndScope();
      currentClassType := enclosingClassType;
    }

    /** Declares and defines each parameter in turn. */
    method BindParameters(parameters: seq<Token>)
      modifies this
      ensures State() == BoundParameters(old(State()), parameters)
    {
      for i := 0 to |parameters|
        invariant State() == BoundParameters(old(State()), parameters[..i])
      {
        assert parameters[..i + 1][..i] == parameters[..i];
        Declare(parameters[i]);
        Define(parameters[i]);
      }
      assert parameters[..|parameters|] == parameters;
    }

    /** A function body in a fresh scope that first declares and defines every parameter. */
    method ResolveFunction(f: FunctionDecl, kind: FunctionType)
      modifies this
      ensures State() == ResolvedFunction(old(State()), f, kind)
      decreases DeclSize(f), 0
    {
      var enclosingFunctionType := currentFunctionType;
      currentFunctionType := kind;
      BeginScope();
      BindParameters(f.parameters);
      ResolveStmts(f.body);
      EndScope();
      currentFunctionType := enclosingFunctionType;
    }
  }
}
