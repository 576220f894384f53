/**
 * The run-time entities: the environment that maps names to values, user
 * functions with their closures, classes, and class instances with their
 * fields.
 *
 * Collaborators whose code is not part of this model are parameters: the
 * interpreter's `executeBlock` (a function from a body, the new bindings and
 * the closure to the body's result) and a class's method lookup (a function
 * from a name to an optional method).  A `return` signal is a value
 * `ReturnSignal` holding the optional returned value.
 */
module Runtime {
  import opened Wrappers
  import opened Tokens
  import opened Syntax
  import opened Evaluation

  /** Everything an environment, a field or an argument can hold. */
  datatype RuntimeValue =
    | NilObject
    | Plain(object: Object)
    | FunctionValue(callee: LoxFunction)
    | ClassValue(loxClass: LoxClass)
    | InstanceValue(instance: LoxInstance)
    | ReturnSignal(returned: Option<RuntimeValue>)
    | Outcome(result: Result<RuntimeValue, RuntimeError>)

  type CallResult = Option<Result<RuntimeValue, RuntimeError>>

  /** The interpreter's block execution, which this model does not include. */
  type BlockExecutor = (seq<Stmt>, map<string, RuntimeValue>, Environment) -> CallResult

  /** What looking a name up in an environment's own bindings gives. */
  function Lookup(values: map<string, RuntimeValue>, name: Token): (r: Result<RuntimeValue, RuntimeError>)
    ensures r.Success? <==> name.lexeme in values
    ensures r.Success? ==> r.value == values[name.lexeme]
    ensures r.Failure? ==> r.error == RuntimeError("Undefined variable " + name.lexeme + ".", name.line, None)
  {
    if name.lexeme in values then Success(values[name.lexeme])
    else Failure(RuntimeError("Undefined variable " + name.lexeme + ".", name.line, None))
  }

  class Environment {
    var values: map<string, RuntimeValue>
    /** The enclosing environment; lookups never consult it. */
    const enclosing: Option<Environment>

    constructor ()
      ensures values == map[] && enclosing == None
    {
      values := map[];
      enclosing := None;
    }

    constructor Enclosing(enclosing: Environment)
      ensures values == map[] && this.enclosing == Some(enclosing)
    {
      values := map[];
      this.enclosing := Some(enclosing);
    }

    /** Binds `name` to `value`, replacing an earlier binding; a result may not be stored. */
    method Define(name: string, value: RuntimeValue)
      requires !value.Outcome?
      modifies this
      ensures values == old(values)[name := value]
      ensures forall t: Token :: Lookup(values, t) == if t.lexeme == name then Success(value) else old(Lookup(values, t))
    {
      values := values[name := value];
    }

    method Get(name: Token) returns (r: Result<RuntimeValue, RuntimeError>)
      ensures r == Lookup(values, name)
    {
      if name.lexeme in values {
        r := Success(values[name.lexeme]);
      } else {
        r := Failure(RuntimeError("Undefined variable " + name.lexeme + ".", name.line, None));
      }
    }
  }

  /** `define` then `get` of the same name gives the defined value. */
  lemma {:induction false} GetAfterDefine(values: map<string, RuntimeValue>, name: Token, value: RuntimeValue)
    ensures Lookup(values[name.lexeme := value], name) == Success(value)
  {
  }

  /**
   * The bindings a call makes: each parameter in turn is defined as the
   * argument at its position, so a later parameter with the same name wins.
   */
  function Bindings(parameters: seq<Token>, arguments: seq<RuntimeValue>): map<string, RuntimeValue>
    requires |parameters| <= |arguments|
  {
    if parameters == [] then map[]
    else
      var last := |parameters| - 1;
      Bindings(parameters[..last], arguments)[parameters[last].lexeme := arguments[last]]
  }

  /** Every parameter name is bound, and nothing else is. */
  lemma {:induction false} BindingsDomain(parameters: seq<Token>, arguments: seq<RuntimeValue>)
    requires |parameters| <= |arguments|
    ensures Bindings(parameters, arguments).Keys == set p | p in parameters :: p.lexeme
  {
    if parameters != [] {
      var last := |parameters| - 1;
      BindingsDomain(parameters[..last], arguments);
      assert parameters == parameters[..last] + [parameters[last]];
    }
  }

  /** A parameter that no later parameter shadows is bound to the argument at its position. */
  lemma {:induction false} BindingsBindEachParameter(parameters: seq<Token>, arguments: seq<RuntimeValue>, i: nat)
    requires |parameters| <= |arguments| && i < |parameters|
    requires forall j | i < j < |parameters| :: parameters[j].lexeme != parameters[i].lexeme
    ensures parameters[i].lexeme in Bindings(parameters, arguments)
    ensures Bindings(parameters, arguments)[parameters[i].lexeme] == arguments[i]
  {
    var last := |parameters| - 1;
    if i < last {
      BindingsBindEachParameter(parameters[..last], arguments, i);
    }
  }

  /**
   * A body's result as a call returns it: a success holding a return signal
   * with a value becomes a success holding that value; every other result,
   * a bare `return` included, is passed on unchanged.
   */
  function ReturnUnwrapped(result: CallResult): (r: CallResult)
    ensures result.Some? && result.value.Success? && result.value.value.ReturnSignal? && result.value.value.returned.Some?
      ==> r == Some(Success(result.value.value.returned.value))
    ensures !(result.Some? && result.value.Success? && result.value.value.ReturnSignal? && result.value.value.returned.Some?)
      ==> r == result
  {
    match result
    case Some(Success(ReturnSignal(Some(v)))) => Some(Success(v))
    case _ => result
  }

  /** A user function: its declaration and the environment it closes over. */
  datatype LoxFunction = LoxFunction(declaration: FunctionDecl, closure: Environment)
  {
    function Arity(): nat {
      |declaration.parameters|
    }

    /**
     * Calls the function: binds parameter i to argument i in a fresh
     * environment enclosing the closure, runs the body there and unwraps a
     * returned value.
     */
    method Call(arguments: seq<RuntimeValue>, execute: BlockExecutor) returns (r: CallResult, ghost environment: Environment)
      requires Arity() <= |arguments|
      requires forall i | 0 <= i < Arity() :: !arguments[i].Outcome?
      ensures fresh(environment) && environment.enclosing == Some(closure)
      ensures environment.values == Bindings(declaration.parameters, arguments)
      ensures r == ReturnUnwrapped(execute(declaration.body, environment.values, closure))
    {
      var scope := new Environment.Enclosing(closure);
      var parameters := declaration.parameters;
      for i := 0 to |parameters|
        invariant scope.values == Bindings(parameters[..i], arguments)
      {
        assert parameters[..i + 1][..i] == parameters[..i];
        scope.Define(parameters[i].lexeme, arguments[i]);
      }
      assert parameters[..|parameters|] == parameters;
      var result := execute(declaration.body, scope.values, closure);
      r := ReturnUnwrapped(result);
      environment := scope;
    }

    /** The same declaration over a fresh closure that encloses the old one and binds only `this`. */
    method Binded(instance: LoxInstance) returns (bound: LoxFunction)
      ensures bound.declaration == declaration
      ensures fresh(bound.closure) && bound.closure.enclosing == Some(closure)
      ensures bound.closure.values == map["this" := InstanceValue(instance)]
    {
      var scope := new Environment.Enclosing(closure);
      scope.Define("this", InstanceValue(instance));
      bound := LoxFunction(declaration, scope);
    }

    function Description(): string {
      "<fn " + declaration.name.lexeme + " >"
    }
  }

  /** A class: its name and the lookup of its methods by name. */
  datatype LoxClass = LoxClass(name: string, findMethod: string -> Option<LoxFunction>)
  {
    function Arity(): nat {
      0
    }

    /** Calling a class ignores the arguments and always yields a fresh instance without fields. */
    method Call(arguments: seq<RuntimeValue>) returns (r: CallResult)
      ensures r.Some? && r.value.Success? && r.value.value.InstanceValue?
      ensures fresh(r.value.value.instance)
      ensures r.value.value.instance.loxClass == this && r.value.value.instance.fields == map[]
    {
      var instance := new LoxInstance(this);
      r := Some(Success(InstanceValue(instance)));
    }

    function Description(): string {
      name
    }
  }

  class LoxInstance {
    const loxClass: LoxClass
    var fields: map<string, Result<RuntimeValue, RuntimeError>>

    constructor (loxClass: LoxClass)
      ensures this.loxClass == loxClass && fields == map[]
    {
      this.loxClass := loxClass;
      fields := map[];
    }

    /**
     * A stored field first, then the class's method bound to this instance,
     * then an error.
     */
    method Get(name: Token) returns (r: Result<RuntimeValue, RuntimeError>)
      ensures name.lexeme in fields ==> r == fields[name.lexeme]
      ensures name.lexeme !in fields && loxClass.findMethod(name.lexeme).Some? ==>
        var m := loxClass.findMethod(name.lexeme).value;
        && r.Success? && r.value.FunctionValue?
        && r.value.callee.declaration == m.declaration
        && fresh(r.value.callee.closure)
        && r.value.callee.closure.enclosing == Some(m.closure)
        && r.value.callee.closure.values == map["this" := InstanceValue(this)]
      ensures name.lexeme !in fields && loxClass.findMethod(name.lexeme).None? ==>
        r == Failure(RuntimeError("Undefined property '" + name.lexeme + "'", name.line, None))
    {
      if name.lexeme in fields {
        r := fields[name.lexeme];
        return;
      }
      var found := loxClass.findMethod(name.lexeme);
      if found.Some? {
        var bound := found.value.Binded(this);
        r := Success(FunctionValue(bound));
        return;
      }
      r := Failure(RuntimeError("Undefined property '" + name.lexeme + "'", name.line, None));
    }

    method Set(name: Token, value: Result<RuntimeValue, RuntimeError>)
      modifies this
      ensures fields == old(fields)[name.lexeme := value]
    {
      fields := fields[name.lexeme := value];
    }

    function Description(): string {
      loxClass.name + " instance"
    }
  }

  /** Setting a field and reading it back gives the value set, whatever methods the class has. */
  method SetThenGet(instance: LoxInstance, name: Token, value: Result<RuntimeValue, RuntimeError>)
    returns (r: Result<RuntimeValue, RuntimeError>)
    modifies instance
    ensures r == value
    ensures instance.fields == old(instance.fields)[name.lexeme := value]
  {
    instance.Set(name, value);
    r := instance.Get(name);
  }

  /** Defining a name and reading it back gives the value defined. */
  method DefineThenGet(environment: Environment, name: Token, value: RuntimeValue)
    returns (r: Result<RuntimeValue, RuntimeError>)
    requires !value.Outcome?
    modifies environment
    ensures r == Success(value)
  {
    environment.Define(name.lexeme, value);
    r := environment.Get(name);
  }
}
