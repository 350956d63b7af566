/** The runtime value model of the compute interpreter: the token/value tagged union
    that the parser produces and the evaluator consumes, the binary operator tags,
    variable bindings, function table entries, and the fallible-result wrapper that
    stands for the interpreter's "print an error and exit". */
module Values {

  /** Binary operator tags. `NullOp` is the fold's initial "no operator yet". */
  datatype Operator =
    | NullOp
    | Add
    | Sub
    | Divide
    | Multiply
    | Equal
    | NotEqual
    | Power
    | LogicalAnd
    | Modulo
    | Inferior
    | InferiorEqual
    | LogicalOr
    | Superior
    | SuperiorEqual

  /** One token of a flattened expression, one statement, or one runtime value.
      Integers are 64-bit in the interpreter; the payload here is an unbounded `int`
      and the places where the 64-bit width matters say so explicitly. */
  datatype Value =
    | Null
    | Integer(n: int)
    | String(s: string)
    | Bool(b: bool)
      /** `(isParsed, isSuite)`: (true, false) is an array literal whose elements are
          unevaluated, (false, true) is a chain `base[i][j]...` of bracket groups,
          (false, false) is a fully evaluated array. */
    | Array(elems: seq<Value>, isParsed: bool, isSuite: bool)
    | Or(orOperand: seq<Value>)
    | And(andOperand: seq<Value>)
    | Property(property: string)
    | PropertyFunction(member: string, memberArgs: seq<seq<Value>>)
    | VariableIdentifier(ident: string)
    | FunctionCall(callee: string, args: seq<seq<Value>>)
    | NamespaceFunctionCall(namespace: seq<string>, nsCallee: string, nsArgs: seq<seq<Value>>)
    | FunctionReturn(returned: seq<Value>)
    | Priority(inner: seq<Value>)
    | Operation(op: Operator)
    | VariableDeclaration(declName: string, init: seq<Value>)
    | VariableRedeclaration(redeclName: string, update: seq<Value>)
    | Condition(guard: seq<Value>, thenBranch: seq<seq<Value>>, elseBlocks: seq<ElseBlock>)
    | While(whileGuard: seq<Value>, whileBody: seq<seq<Value>>)
    | Loop(bound: string, iterable: seq<Value>, loopBody: seq<seq<Value>>)
    | File(path: string)

  /** An `else if guard { body }` block; an empty guard is a plain `else`. */
  datatype ElseBlock = ElseBlock(elseGuard: seq<Value>, elseBody: seq<seq<Value>>)

  /** Why evaluation stopped instead of producing a value. */
  datatype Error =
      /** The interpreter's `error(message, tip)`: message printed, process exits. */
    | Fatal(message: string)
      /** The argument-count check of a built-in or user function. */
    | ArgumentCount(fname: string, received: nat)
      /** A Rust panic: `unwrap` on nothing, an index out of range, `todo!()`. */
    | Panic(reason: string)
      /** Behaviour outside this model: floating point, console and file I/O, namespaces. */
    | Unmodelled(feature: string)
      /** The evaluation budget ran out (the interpreted program may not terminate). */
    | OutOfFuel

  datatype Option<+T> = None | Some(value: T)

  datatype Result<+T> = Ok(value: T) | Failure(error: Error) {
    predicate IsFailure() { Failure? }
    function PropagateFailure<U>(): Result<U> requires Failure? { Failure(error) }
    function Extract(): T requires Ok? { value }
  }

  /** A variable binding `(name, value)`. */
  datatype Binding = Binding(name: string, value: Value)

  /** A variable environment: later bindings are inner ones. */
  type Env = seq<Binding>

  /** A function table entry: name, parameter names, body as a sequence of lines. */
  datatype FunctionDef = FunctionDef(name: string, params: seq<string>, body: seq<seq<Value>>)

  function Names(env: Env): (r: seq<string>)
    ensures |r| == |env|
    ensures forall i | 0 <= i < |env| :: r[i] == env[i].name
  {
    seq(|env|, i requires 0 <= i < |env| => env[i].name)
  }

  /** `iter().position(..)` over a list of names: the first position holding `name`. */
  function Position(names: seq<string>, name: string): (r: Option<nat>)
    ensures r.Some? ==> r.value < |names| && names[r.value] == name
    ensures r.Some? ==> forall j | 0 <= j < r.value :: names[j] != name
    ensures r.None? ==> forall j | 0 <= j < |names| :: names[j] != name
  {
    if |names| == 0 then None
    else if names[0] == name then Some(0)
    else match Position(names[1..], name)
      case None => None
      case Some(k) => Some(k + 1)
  }

  /** `iter().position(|var| var.name == name)`: the first binding with that name. */
  function FirstIndex(env: Env, name: string): (r: Option<nat>)
    ensures r.Some? ==> r.value < |env| && env[r.value].name == name
    ensures r.Some? ==> forall j | 0 <= j < r.value :: env[j].name != name
    ensures r.None? ==> forall j | 0 <= j < |env| :: env[j].name != name
  {
    Position(Names(env), name)
  }

  /** Innermost-first lookup: the last binding with that name. */
  function LastIndex(env: Env, name: string): (r: Option<nat>)
    ensures r.Some? ==> r.value < |env| && env[r.value].name == name
    ensures r.Some? ==> forall j | r.value < j < |env| :: env[j].name != name
    ensures r.None? ==> forall j | 0 <= j < |env| :: env[j].name != name
  {
    if |env| == 0 then None
    else if env[|env| - 1].name == name then Some(|env| - 1)
    else LastIndex(env[..|env| - 1], name)
  }

  /** The arithmetic, comparison and member tables of each value type, and the
      grammar-driven parser; their code is not part of this model, so the evaluator
      takes them as parameters. */
  datatype Primitives = Primitives(
    integerOps: (int, Value, Operator) -> Result<Value>,
    stringOps: (string, Value, Operator) -> Result<Value>,
    arrayOps: (seq<Value>, Value, Operator) -> Result<Value>,
    memberCall: (Value, string, seq<Value>) -> Result<Value>,
    parseCode: string -> seq<seq<Value>>)

  /** A loaded program: its function table (own functions, then imported ones) and the primitives. */
  datatype Program = Program(functions: seq<FunctionDef>, prims: Primitives)
}
