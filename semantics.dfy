/** The evaluator as mutually recursive functions: the token reduction
    (`preprocess`), the left-to-right expression fold (`process_stack`) and the
    statement engine (`process_function`) with its touched-binding protocol.

    Programs may loop forever, so every function takes a `fuel` budget. A helper that
    walks a sequence (the `...From` functions) spends one unit of fuel on each call it
    makes to another function; the other functions pass their budget on unchanged to
    callees of lower rank (the second component of their `decreases` clause). When the
    budget is exhausted the outcome is `OutOfFuel`, never a wrong value. */
module Semantics {
  import opened Values
  import opened Text
  import opened Builtins

  /** What one statement tells the statement loop. */
  datatype Flow =
      /** go on with the next token of the same line */
    | Next(vars: Env, touched: Env)
      /** the whole line was evaluated as one expression; go on with the next line */
    | Break(vars: Env, touched: Env)
      /** leave the function with this `(value, touched)` pair */
    | Return(value: Value, touched: Env)

  /** How a nested block (an else branch, a loop) ends. */
  datatype Outcome =
    | Proceed(vars: Env)
    | Exit(value: Value, touched: Env)

  /** The thing a chain of bracket groups indexes. */
  datatype Indexable = ArrayBase(items: seq<Value>) | StringBase(text: string)

  /** Innermost-first variable lookup. */
  function Lookup(vars: Env, name: string): (r: Result<Value>)
    ensures r.Ok? <==> name in Names(vars)
    ensures r.Ok? ==> exists k | 0 <= k < |vars| :: vars[k] == Binding(name, r.value)
  {
    match LastIndex(vars, name)
    case Some(k) => Ok(vars[k].value)
    case None => Failure(Fatal("Unknown variable"))
  }

  /** Each element as a token sequence of its own, as `std::slice::from_ref` builds it. */
  function Singletons(elems: seq<Value>): (r: seq<seq<Value>>)
    ensures |r| == |elems|
    ensures forall k {:trigger r[k]} | 0 <= k < |elems| :: r[k] == [elems[k]]
  {
    seq(|elems|, k requires 0 <= k < |elems| => [elems[k]])
  }

  /** The characters of a string, each as a one-character String (`chars()`). */
  function Chars(s: string): (r: seq<Value>)
    ensures |r| == |s|
    ensures forall k {:trigger r[k]} | 0 <= k < |s| :: r[k] == String([s[k]])
  {
    seq(|s|, k requires 0 <= k < |s| => String([s[k]]))
  }

  /** Positional parameter binding. */
  function Bind(params: seq<string>, args: seq<Value>): (r: Env)
    requires |params| == |args|
    ensures |r| == |params|
    ensures forall k {:trigger r[k]} | 0 <= k < |params| :: r[k] == Binding(params[k], args[k])
  {
    seq(|params|, k requires 0 <= k < |params| => Binding(params[k], args[k]))
  }

  function FunctionNames(functions: seq<FunctionDef>): (r: seq<string>)
    ensures |r| == |functions|
    ensures forall i | 0 <= i < |functions| :: r[i] == functions[i].name
  {
    seq(|functions|, i requires 0 <= i < |functions| => functions[i].name)
  }

  /** The position of the first function of the table with that name. */
  function FindFunction(functions: seq<FunctionDef>, name: string): (r: Option<nat>)
    ensures r.Some? ==> r.value < |functions| && functions[r.value].name == name
    ensures r.Some? ==> forall j | 0 <= j < r.value :: functions[j].name != name
    ensures r.None? ==> forall j | 0 <= j < |functions| :: functions[j].name != name
  {
    Position(FunctionNames(functions), name)
  }

  /** Writes each touched binding, in order, over the first binding of `vars` with
      the same name; a name `vars` does not have makes `unwrap` panic. */
  function Merge(vars: Env, touched: Env): Result<Env>
    decreases |touched|
  {
    if |touched| == 0 then Ok(vars)
    else match FirstIndex(vars, touched[0].name)
      case None => Failure(Panic("called `Option::unwrap()` on a `None` value"))
      case Some(k) => Merge(vars[k := touched[0]], touched[1..])
  }

  /** The Bool-only `&&` / `||` of the fold. */
  function BoolJoin(left: Value, right: Value, isAnd: bool): (r: Result<Value>)
    ensures r.Ok? <==> left.Bool? && right.Bool?
    ensures r.Ok? ==> r.value == Bool(if isAnd then left.b && right.b else left.b || right.b)
    ensures r.Failure? ==> r.error == Fatal("is not a Boolean")
  {
    if !left.Bool? then Failure(Fatal("is not a Boolean"))
    else if !right.Bool? then Failure(Fatal("is not a Boolean"))
    else Ok(Bool(if isAnd then left.b && right.b else left.b || right.b))
  }

  /** `int(x)`: a String holding a decimal 64-bit integer converts; anything else is
      fatal. */
  function IntConversion(args: seq<Value>): Result<Value>
  {
    if |args| != 1 then Failure(ArgumentCount("int", |args|))
    else match args[0]
      case String(s) =>
        (match ParseI64(s)
         case Some(n) => Ok(Integer(n))
         case None => Failure(Fatal("Cannot convert String to Integer")))
      case _ => Failure(Fatal("Cannot convert to Integer"))
  }

  /** `str(x)`: an Integer's decimal text, a Bool's `true` / `false`; the text of an
      evaluated array is not part of this model; anything else is fatal. */
  function StrConversion(args: seq<Value>): Result<Value>
  {
    if |args| != 1 then Failure(ArgumentCount("str", |args|))
    else match args[0]
      case Integer(n) => Ok(String(Decimal(n)))
      case Bool(b) => Ok(String(if b then "true" else "false"))
      case Array(_, _, false) => Failure(Unmodelled("printable form of an array"))
      case _ => Failure(Fatal("Cannot convert to String"))
  }

  /** `float(x)`: the conversions themselves produce floating point. */
  function FloatConversion(args: seq<Value>): Result<Value>
  {
    if |args| != 1 then Failure(ArgumentCount("float", |args|))
    else if args[0].String? || args[0].Integer? then Failure(Unmodelled("floating point"))
    else Failure(Fatal("Cannot convert to Float"))
  }

  /** One index applied to a chain. While the running result is Null the index
      applies to the base; after that, to the running result. */
  function IndexStep(base: Indexable, out: Value, n: int): Result<Value>
  {
    if out == Null then
      match base
      case ArrayBase(items) =>
        if 0 <= n < |items| then Ok(items[n]) else Failure(Panic("index out of bounds"))
      case StringBase(s) =>
        if 0 <= n < |s| then Ok(String([s[n]])) else Failure(Fatal("Failed to get letter"))
    else
      match out
      case Array(sub, _, false) =>
        if 0 <= n < |sub| then Ok(sub[n]) else Failure(Panic("index out of bounds"))
      case String(t) =>
        if 0 <= n < |t| then Ok(String([t[n]]))
        else Failure(Fatal(if base.ArrayBase? then "Failed to get letter" else "Cannot index"))
      case _ => Failure(Fatal("Cannot index"))
  }

  /** The outcome of a nested block that ran on its own copy of the bindings: a
      value leaves at once, otherwise its touched bindings are merged into `vars`. */
  function Settle(vars: Env, out: (Value, Env)): Result<Outcome>
  {
    if out.0 != Null then Ok(Exit(out.0, out.1))
    else
      var merged :- Merge(vars, out.1);
      Ok(Proceed(merged))
  }

  /** An else branch or loop outcome seen from the statement loop. */
  function Continue(o: Outcome, touched: Env): Flow
  {
    match o
    case Proceed(v) => Next(v, touched)
    case Exit(v, t) => Return(v, t)
  }

  // ------------------------------------------------------------ the evaluator

  /** `preprocess`: a call becomes its value, a parenthesised group its value, an
      array literal the array of its elements' values, an index chain the indexed
      value and an identifier the value bound to it; other tokens pass unchanged. */
  function Reduce(p: Program, vars: Env, t: Value, fuel: nat): Result<Value>
    decreases fuel, 4, 0
  {
    match t
    case VariableIdentifier(x) => Lookup(vars, x)
    case FunctionCall(callee, args) =>
      var argv :- EvalArgs(p, vars, args, fuel);
      CallValue(p, vars, callee, argv, fuel)
    case NamespaceFunctionCall(_, _, args) =>
      var argv :- EvalArgs(p, vars, args, fuel);
      Failure(Unmodelled("namespace functions"))
    case Priority(inner) => EvalStack(p, vars, inner, fuel)
    case Array(elems, isParsed, isSuite) =>
      if isParsed && !isSuite then
        var values :- EvalArgs(p, vars, Singletons(elems), fuel);
        Ok(Array(values, false, false))
      else if !isParsed && isSuite then IndexSuite(p, vars, elems, fuel)
      else Ok(t)
    case _ => Ok(t)
  }

  /** A call in an expression: a built-in, then `executeline`, `int`, `str` and
      `float`, then the user function table. */
  function CallValue(p: Program, vars: Env, callee: string, argv: seq<Value>, fuel: nat): Result<Value>
    decreases fuel, 3, 0
  {
    var found :- Builtin(callee, argv);
    if found.1 then Ok(found.0)
    else if callee == "executeline" then
      if |argv| != 1 then Failure(ArgumentCount("executeline", |argv|))
      else if argv[0].String? then
        var code := p.prims.parseCode(argv[0].s);
        if |code| == 0 then Failure(Panic("index out of bounds"))
        else EvalStack(p, vars, code[0], fuel)
      else Failure(Fatal("Cannot execute"))
    else if callee == "int" then IntConversion(argv)
    else if callee == "str" then StrConversion(argv)
    else if callee == "float" then FloatConversion(argv)
    else InvokeUser(p, callee, argv, fuel)
  }

  /** A user function call: the first function of the table with that name, whose
      parameter count must equal the argument count, run on a fresh environment that
      binds its parameters positionally; the value is what the body returns. */
  function InvokeUser(p: Program, callee: string, argv: seq<Value>, fuel: nat): Result<Value>
    decreases fuel, 2, 0
  {
    match FindFunction(p.functions, callee)
    case None => Failure(Fatal("Unknown function"))
    case Some(k) =>
      var f := p.functions[k];
      if |argv| != |f.params| then Failure(ArgumentCount(callee, |argv|))
      else
        var env := Bind(f.params, argv);
        var out :- ProcessFunction(p, f.body, env, env, f.name, fuel);
        Ok(out.0)
  }

  /** Each argument token sequence evaluated, left to right. */
  function EvalArgs(p: Program, vars: Env, groups: seq<seq<Value>>, fuel: nat): Result<seq<Value>>
    decreases fuel, 1, 0
  {
    ArgsFrom(p, vars, groups, 0, [], fuel)
  }

  function ArgsFrom(p: Program, vars: Env, groups: seq<seq<Value>>, i: nat, acc: seq<Value>, fuel: nat)
    : Result<seq<Value>>
    requires i <= |groups|
    decreases fuel, 0, |groups| - i
  {
    if i == |groups| then Ok(acc)
    else if fuel == 0 then Failure(OutOfFuel)
    else
      var v :- EvalStack(p, vars, groups[i], fuel - 1);
      ArgsFrom(p, vars, groups, i + 1, acc + [v], fuel)
  }

  /** `process_stack`: the fold over a token sequence. */
  function EvalStack(p: Program, vars: Env, stack: seq<Value>, fuel: nat): Result<Value>
    decreases fuel, 1, 0
  {
    StackFrom(p, vars, stack, 0, Null, NullOp, fuel)
  }

  /** The fold from token `i` on, with the running `out` and operator `op`. */
  function StackFrom(p: Program, vars: Env, stack: seq<Value>, i: nat, out: Value, op: Operator, fuel: nat)
    : Result<Value>
    requires i <= |stack|
    decreases fuel, 0, |stack| - i
  {
    if i == |stack| then Ok(out)
    else if fuel == 0 then Failure(OutOfFuel)
    else
      var e :- Reduce(p, vars, stack[i], fuel - 1);
      if out == Null then StackFrom(p, vars, stack, i + 1, e, op, fuel)
      else
        match e
        case Operation(o) => StackFrom(p, vars, stack, i + 1, out, o, fuel)
        case Or(side) =>
          var right :- EvalStack(p, vars, side, fuel - 1);
          var joined :- BoolJoin(out, right, false);
          StackFrom(p, vars, stack, i + 1, joined, op, fuel)
        case And(side) =>
          var right :- EvalStack(p, vars, side, fuel - 1);
          var joined :- BoolJoin(out, right, true);
          StackFrom(p, vars, stack, i + 1, joined, op, fuel)
        case String(s) =>
          var v :- p.prims.stringOps(s, out, op);
          StackFrom(p, vars, stack, i + 1, v, op, fuel)
        case Integer(n) =>
          var v :- p.prims.integerOps(n, out, op);
          StackFrom(p, vars, stack, i + 1, v, op, fuel)
        case Array(elems, _, _) =>
          var v :- p.prims.arrayOps(elems, out, op);
          StackFrom(p, vars, stack, i + 1, v, op, fuel)
        case Null => StackFrom(p, vars, stack, i + 1, out, op, fuel)
        case Property(_) => Failure(Panic("Properties aren't implented yet!"))
        case PropertyFunction(m, args) =>
          var argv :- EvalArgs(p, vars, args, fuel - 1);
          if out.String? || out.Integer? || out.Array? || out.File? then
            var v :- p.prims.memberCall(out, m, argv);
            StackFrom(p, vars, stack, i + 1, v, op, fuel)
          else StackFrom(p, vars, stack, i + 1, out, op, fuel)
        case _ => Failure(Panic("not yet implemented"))
  }

  /** An index chain `base[i][j]...`: the base token's value must be an array or a
      string; each later group is one index. */
  function IndexSuite(p: Program, vars: Env, groups: seq<Value>, fuel: nat): Result<Value>
    decreases fuel, 2, 0
  {
    if |groups| == 0 then Failure(Panic("index out of bounds"))
    else
      var target :- EvalStack(p, vars, [groups[0]], fuel);
      match target
      case Array(items, true, false) =>
        var values :- EvalArgs(p, vars, Singletons(items), fuel);
        IndexFrom(p, vars, ArrayBase(values), groups, 1, Null, fuel)
      case Array(items, false, false) => IndexFrom(p, vars, ArrayBase(items), groups, 1, Null, fuel)
      case String(s) => IndexFrom(p, vars, StringBase(s), groups, 1, Null, fuel)
      case _ => Failure(Fatal("Cannot index"))
  }

  /** The index groups from `i` on: each must be an array literal of one token whose
      value is an Integer. */
  function IndexFrom(p: Program, vars: Env, base: Indexable, groups: seq<Value>, i: nat, out: Value, fuel: nat)
    : Result<Value>
    requires i <= |groups|
    decreases fuel, 0, |groups| - i
  {
    if i == |groups| then Ok(out)
    else if fuel == 0 then Failure(OutOfFuel)
    else
      match groups[i]
      case Array(g, true, false) =>
        var index :- EvalArgs(p, vars, Singletons(g), fuel - 1);
        if |index| != 1 || !index[0].Integer? then Failure(Fatal("is not a valid index"))
        else
          var next :- IndexStep(base, out, index[0].n);
          IndexFrom(p, vars, base, groups, i + 1, next, fuel)
      case _ => Failure(Fatal("is not a valid index"))
  }

  /** `process_function`: runs the lines on a copy of `included` and answers the
      returned value (Null when the end is reached) with the bindings of `included`
      that the body redeclared, in order. */
  function ProcessFunction(p: Program, lines: seq<seq<Value>>, included: Env, expected: Env, name: string, fuel: nat)
    : Result<(Value, Env)>
    decreases fuel, 1, 0
  {
    if |included| != |expected| then Failure(ArgumentCount(name, |included|))
    else LinesFrom(p, lines, included, name, 0, 0, included, [], fuel)
  }

  /** The statement loop from token `ii` of line `li` on. */
  function LinesFrom(p: Program, lines: seq<seq<Value>>, included: Env, name: string,
                     li: nat, ii: nat, vars: Env, touched: Env, fuel: nat): Result<(Value, Env)>
    requires li <= |lines| && (li < |lines| ==> ii <= |lines[li]|)
    decreases fuel, 0, |lines| - li, if li < |lines| then |lines[li]| - ii else 0
  {
    if li == |lines| then Ok((Null, touched))
    else if ii == |lines[li]| then LinesFrom(p, lines, included, name, li + 1, 0, vars, touched, fuel)
    else if fuel == 0 then Failure(OutOfFuel)
    else
      var flow :- Step(p, included, name, lines[li], lines[li][ii], vars, touched, fuel - 1);
      match flow
      case Next(v, t) => LinesFrom(p, lines, included, name, li, ii + 1, v, t, fuel)
      case Break(v, t) => LinesFrom(p, lines, included, name, li + 1, 0, v, t, fuel)
      case Return(v, t) => Ok((v, t))
  }

  /** One token `instr` of the line `line`, treated as a statement. */
  function Step(p: Program, included: Env, name: string, line: seq<Value>, instr: Value,
                vars: Env, touched: Env, fuel: nat): Result<Flow>
    decreases fuel, 3, 0
  {
    match instr
    case VariableDeclaration(x, init) =>
      var v :- EvalStack(p, vars, init, fuel);
      Ok(Next(vars + [Binding(x, v)], touched))
    case VariableRedeclaration(x, update) =>
      (match FirstIndex(vars, x)
       case None => Failure(Fatal("Variable does not exist"))
       case Some(k) =>
         var v :- EvalStack(p, vars, update, fuel);
         Ok(Next(vars[k := Binding(x, v)],
                 if x in Names(included) then touched + [Binding(x, v)] else touched)))
    case NamespaceFunctionCall(_, _, args) =>
      var argv :- EvalArgs(p, vars, args, fuel);
      Failure(Unmodelled("namespace functions"))
    case FunctionCall(callee, args) =>
      var argv :- EvalArgs(p, vars, args, fuel);
      var found :- Builtin(callee, argv);
      if found.1 then Ok(Next(vars, touched))
      else if callee == "executeline" then
        if |argv| != 1 then Failure(ArgumentCount("executeline", |argv|))
        else if argv[0].String? then
          var code := p.prims.parseCode(argv[0].s);
          if |code| == 0 then Failure(Panic("index out of bounds"))
          else
            var discarded :- EvalStack(p, vars, code[0], fuel);
            Ok(Next(vars, touched))
        else Failure(Fatal("Cannot execute line"))
      else
        var discarded :- InvokeUser(p, callee, argv, fuel);
        Ok(Next(vars, touched))
    case FunctionReturn(x) =>
      var v :- EvalStack(p, vars, x, fuel);
      Ok(Return(v, touched))
    case Condition(guard, thenBranch, elseBlocks) =>
      var g :- EvalStack(p, vars, guard, fuel);
      if g == Bool(true) then
        var out :- ProcessFunction(p, thenBranch, vars, vars, name, fuel);
        if out.0 != Null then Ok(Return(out.0, out.1)) else Ok(Next(vars, touched))
      else
        var o :- ElseFrom(p, elseBlocks, 0, name, vars, fuel);
        Ok(Continue(o, touched))
    case Loop(bound, iterable, body) =>
      var it :- EvalStack(p, vars, iterable, fuel);
      if it.Array? then
        var o :- ForFrom(p, bound, it.elems, 0, body, name, vars, fuel);
        Ok(Continue(o, touched))
      else if it.String? then
        var o :- ForFrom(p, bound, Chars(it.s), 0, body, name, vars, fuel);
        Ok(Continue(o, touched))
      else Ok(Next(vars, touched))
    case While(guard, body) =>
      var o :- WhileFrom(p, guard, body, name, vars, fuel);
      Ok(Continue(o, touched))
    case _ =>
      var discarded :- EvalStack(p, vars, line, fuel);
      Ok(Break(vars, touched))
  }

  /** The else blocks from `i` on: the first whose guard is empty or evaluates to
      `Bool(true)` runs, and the chain stops there. */
  function ElseFrom(p: Program, blocks: seq<ElseBlock>, i: nat, name: string, vars: Env, fuel: nat)
    : Result<Outcome>
    requires i <= |blocks|
    decreases fuel, 0, |blocks| - i
  {
    if i == |blocks| then Ok(Proceed(vars))
    else if fuel == 0 then Failure(OutOfFuel)
    else if |blocks[i].elseGuard| == 0 then
      var out :- ProcessFunction(p, blocks[i].elseBody, vars, vars, name, fuel - 1);
      Settle(vars, out)
    else
      var g :- EvalStack(p, vars, blocks[i].elseGuard, fuel - 1);
      if g == Bool(true) then
        var out :- ProcessFunction(p, blocks[i].elseBody, vars, vars, name, fuel - 1);
        Settle(vars, out)
      else ElseFrom(p, blocks, i + 1, name, vars, fuel)
  }

  /** A `for` loop from item `i` on: each iteration runs on a fresh copy of `vars`
      extended with the loop variable. */
  function ForFrom(p: Program, bound: string, items: seq<Value>, i: nat, body: seq<seq<Value>>,
                   name: string, vars: Env, fuel: nat): Result<Outcome>
    requires i <= |items|
    decreases fuel, 0, |items| - i
  {
    if i == |items| then Ok(Proceed(vars))
    else if fuel == 0 then Failure(OutOfFuel)
    else
      var scope := vars + [Binding(bound, items[i])];
      var out :- ProcessFunction(p, body, scope, scope, name, fuel - 1);
      var o :- Settle(vars, out);
      match o
      case Exit(_, _) => Ok(o)
      case Proceed(merged) => ForFrom(p, bound, items, i + 1, body, name, merged, fuel)
  }

  /** A `while` loop; each iteration spends one unit of fuel. */
  function WhileFrom(p: Program, guard: seq<Value>, body: seq<seq<Value>>, name: string, vars: Env, fuel: nat)
    : Result<Outcome>
    decreases fuel, 0, 0
  {
    if fuel == 0 then Failure(OutOfFuel)
    else
      var g :- EvalStack(p, vars, guard, fuel - 1);
      if g != Bool(true) then Ok(Proceed(vars))
      else
        var out :- ProcessFunction(p, body, vars, vars, name, fuel - 1);
        var o :- Settle(vars, out);
        match o
        case Exit(_, _) => Ok(o)
        case Proceed(merged) => WhileFrom(p, guard, body, name, merged, fuel - 1)
  }
}
