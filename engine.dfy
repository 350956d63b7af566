/** The evaluator as the interpreter runs it: methods whose loops update the running
    output, operator, bindings and touched list in place, each proved to compute
    exactly what the corresponding function of `Semantics` specifies. */
module Engine {
  import opened Values
  import opened Builtins
  import opened Semantics

  /** `preprocess`. */
  method Preprocess(p: Program, vars: Env, t: Value, fuel: nat) returns (r: Result<Value>)
    ensures r == Reduce(p, vars, t, fuel)
    decreases fuel, 4
  {
    match t {
      case VariableIdentifier(x) =>
        r := Lookup(vars, x);
      case FunctionCall(callee, args) =>
        var argv :- EvaluateArgs(p, vars, args, fuel);
        r := Call(p, vars, callee, argv, fuel);
      case NamespaceFunctionCall(_, _, args) =>
        var argv :- EvaluateArgs(p, vars, args, fuel);
        r := Failure(Unmodelled("namespace functions"));
      case Priority(inner) =>
        r := ProcessStack(p, vars, inner, fuel);
      case Array(elems, isParsed, isSuite) =>
        if isParsed && !isSuite {
          var values :- EvaluateElements(p, vars, elems, fuel);
          r := Ok(Array(values, false, false));
        } else if !isParsed && isSuite {
          r := IndexChain(p, vars, elems, fuel);
        } else {
          r := Ok(t);
        }
      case _ =>
        r := Ok(t);
    }
  }

  /** A call in an expression: built-ins first, then the conversions, then the
      user function table. */
  method Call(p: Program, vars: Env, callee: string, argv: seq<Value>, fuel: nat) returns (r: Result<Value>)
    ensures r == CallValue(p, vars, callee, argv, fuel)
    decreases fuel, 3
  {
    var found :- Builtin(callee, argv);
    if found.1 {
      return Ok(found.0);
    }
    if callee == "executeline" {
      if |argv| != 1 {
        return Failure(ArgumentCount("executeline", |argv|));
      }
      if !argv[0].String? {
        return Failure(Fatal("Cannot execute"));
      }
      var code := p.prims.parseCode(argv[0].s);
      if |code| == 0 {
        return Failure(Panic("index out of bounds"));
      }
      r := ProcessStack(p, vars, code[0], fuel);
    } else if callee == "int" {
      r := IntConversion(argv);
    } else if callee == "str" {
      r := StrConversion(argv);
    } else if callee == "float" {
      r := FloatConversion(argv);
    } else {
      r := CallUser(p, callee, argv, fuel);
    }
  }

  /** A user function call; its value is what the body returns. */
  method CallUser(p: Program, callee: string, argv: seq<Value>, fuel: nat) returns (r: Result<Value>)
    ensures r == InvokeUser(p, callee, argv, fuel)
    decreases fuel, 2
  {
    var position := FindFunction(p.functions, callee);
    if position.None? {
      return Failure(Fatal("Unknown function"));
    }
    var f := p.functions[position.value];
    if |argv| != |f.params| {
      return Failure(ArgumentCount(callee, |argv|));
    }
    var targetArgs := Bind(f.params, argv);
    var out :- RunFunction(p, f.body, targetArgs, targetArgs, f.name, fuel);
    return Ok(out.0);
  }

  /** The argument token sequences, evaluated left to right into a new vector. */
  method EvaluateArgs(p: Program, vars: Env, groups: seq<seq<Value>>, fuel: nat) returns (r: Result<seq<Value>>)
    ensures r == EvalArgs(p, vars, groups, fuel)
    decreases fuel, 1
  {
    var args: seq<Value> := [];
    for i := 0 to |groups|
      invariant ArgsFrom(p, vars, groups, i, args, fuel) == EvalArgs(p, vars, groups, fuel)
    {
      if fuel == 0 {
        return Failure(OutOfFuel);
      }
      var v :- ProcessStack(p, vars, groups[i], fuel - 1);
      args := args + [v];
    }
    return Ok(args);
  }

  /** The elements of an array literal, each evaluated on its own. */
  method EvaluateElements(p: Program, vars: Env, elems: seq<Value>, fuel: nat) returns (r: Result<seq<Value>>)
    ensures r == EvalArgs(p, vars, Singletons(elems), fuel)
    decreases fuel, 1
  {
    var newArray: seq<Value> := [];
    for i := 0 to |elems|
      invariant ArgsFrom(p, vars, Singletons(elems), i, newArray, fuel) == EvalArgs(p, vars, Singletons(elems), fuel)
    {
      if fuel == 0 {
        return Failure(OutOfFuel);
      }
      var v :- ProcessStack(p, vars, [elems[i]], fuel - 1);
      newArray := newArray + [v];
    }
    return Ok(newArray);
  }

  /** `process_stack`: the running output and operator updated token by token. */
  method ProcessStack(p: Program, vars: Env, stack: seq<Value>, fuel: nat) returns (r: Result<Value>)
    ensures r == EvalStack(p, vars, stack, fuel)
    decreases fuel, 1
  {
    var output := Null;
    var currentOperator := NullOp;
    for i := 0 to |stack|
      invariant StackFrom(p, vars, stack, i, output, currentOperator, fuel) == EvalStack(p, vars, stack, fuel)
    {
      if fuel == 0 {
        return Failure(OutOfFuel);
      }
      var element :- Preprocess(p, vars, stack[i], fuel - 1);
      if output == Null {
        output := element;
      } else {
        if element.Operation? {
          currentOperator := element.op;
        } else if element.Or? {
          var parsed :- ProcessStack(p, vars, element.orOperand, fuel - 1);
          output :- BoolJoin(output, parsed, false);
        } else if element.And? {
          var parsed :- ProcessStack(p, vars, element.andOperand, fuel - 1);
          output :- BoolJoin(output, parsed, true);
        } else if element.String? {
          output :- p.prims.stringOps(element.s, output, currentOperator);
        } else if element.Integer? {
          output :- p.prims.integerOps(element.n, output, currentOperator);
        } else if element.Array? {
          output :- p.prims.arrayOps(element.elems, output, currentOperator);
        } else if element.Null? {
        } else if element.Property? {
          return Failure(Panic("Properties aren't implented yet!"));
        } else if element.PropertyFunction? {
          var argv :- EvaluateArgs(p, vars, element.memberArgs, fuel - 1);
          if output.String? || output.Integer? || output.Array? || output.File? {
            output :- p.prims.memberCall(output, element.member, argv);
          }
        } else {
          return Failure(Panic("not yet implemented"));
        }
      }
    }
    return Ok(output);
  }

  /** An index chain: the base evaluated once, then each index group applied. */
  method IndexChain(p: Program, vars: Env, groups: seq<Value>, fuel: nat) returns (r: Result<Value>)
    ensures r == IndexSuite(p, vars, groups, fuel)
    decreases fuel, 2
  {
    if |groups| == 0 {
      return Failure(Panic("index out of bounds"));
    }
    var target :- ProcessStack(p, vars, [groups[0]], fuel);
    var base: Indexable;
    match target {
      case Array(items, true, false) =>
        var values :- EvaluateElements(p, vars, items, fuel);
        base := ArrayBase(values);
      case Array(items, false, false) =>
        base := ArrayBase(items);
      case String(s) =>
        base := StringBase(s);
      case _ =>
        return Failure(Fatal("Cannot index"));
    }
    var output := Null;
    for i := 1 to |groups|
      invariant IndexFrom(p, vars, base, groups, i, output, fuel) == IndexSuite(p, vars, groups, fuel)
    {
      if fuel == 0 {
        return Failure(OutOfFuel);
      }
      if !(groups[i].Array? && groups[i].isParsed && !groups[i].isSuite) {
        return Failure(Fatal("is not a valid index"));
      }
      var indexArray :- EvaluateElements(p, vars, groups[i].elems, fuel - 1);
      if |indexArray| != 1 || !indexArray[0].Integer? {
        return Failure(Fatal("is not a valid index"));
      }
      output :- IndexStep(base, output, indexArray[0].n);
    }
    return Ok(output);
  }

  /** Touched bindings written back over the first binding of the same name. */
  method MergeTouched(vars: Env, touched: Env) returns (r: Result<Env>)
    ensures r == Merge(vars, touched)
  {
    var variables := vars;
    for i := 0 to |touched|
      invariant Merge(variables, touched[i..]) == Merge(vars, touched)
    {
      var replaceVar := touched[i];
      var index := FirstIndex(variables, replaceVar.name);
      if index.None? {
        return Failure(Panic("called `Option::unwrap()` on a `None` value"));
      }
      assert touched[i..][1..] == touched[i + 1..];
      variables := variables[index.value := replaceVar];
    }
    return Ok(variables);
  }

  /** The end of a nested block: a value leaves at once, otherwise the touched
      bindings are merged. */
  method SettleBlock(vars: Env, out: (Value, Env)) returns (r: Result<Outcome>)
    ensures r == Settle(vars, out)
  {
    if out.0 != Null {
      return Ok(Exit(out.0, out.1));
    }
    var merged :- MergeTouched(vars, out.1);
    return Ok(Proceed(merged));
  }

  /** `process_function`: the bindings and the touched list updated statement by
      statement, with an early return. */
  method RunFunction(p: Program, lines: seq<seq<Value>>, included: Env, expected: Env, name: string, fuel: nat)
    returns (r: Result<(Value, Env)>)
    ensures r == ProcessFunction(p, lines, included, expected, name, fuel)
    decreases fuel, 1
  {
    if |included| != |expected| {
      return Failure(ArgumentCount(name, |included|));
    }
    var variables := included;
    var returnVariables: Env := [];
    for li := 0 to |lines|
      invariant LinesFrom(p, lines, included, name, li, 0, variables, returnVariables, fuel)
                == ProcessFunction(p, lines, included, expected, name, fuel)
    {
      var instructions := lines[li];
      var ii := 0;
      while ii < |instructions|
        invariant 0 <= ii <= |instructions|
        invariant LinesFrom(p, lines, included, name, li, ii, variables, returnVariables, fuel)
                  == ProcessFunction(p, lines, included, expected, name, fuel)
      {
        if fuel == 0 {
          return Failure(OutOfFuel);
        }
        var flow :- ExecStep(p, included, name, instructions, instructions[ii], variables, returnVariables, fuel - 1);
        match flow {
          case Next(v, t) =>
            variables, returnVariables := v, t;
            ii := ii + 1;
          case Break(v, t) =>
            variables, returnVariables := v, t;
            ii := |instructions|;
          case Return(v, t) =>
            return Ok((v, t));
        }
      }
    }
    return Ok((Null, returnVariables));
  }

  /** One statement. */
  method ExecStep(p: Program, included: Env, name: string, line: seq<Value>, instr: Value,
                  vars: Env, touched: Env, fuel: nat) returns (r: Result<Flow>)
    ensures r == Step(p, included, name, line, instr, vars, touched, fuel)
    decreases fuel, 4
  {
    if instr.VariableDeclaration? {
      var v :- ProcessStack(p, vars, instr.init, fuel);
      r := Ok(Next(vars + [Binding(instr.declName, v)], touched));
    } else if instr.VariableRedeclaration? {
      r := ExecRedeclaration(p, included, name, line, instr.redeclName, instr.update, vars, touched, fuel);
    } else if instr.NamespaceFunctionCall? {
      var argv :- EvaluateArgs(p, vars, instr.nsArgs, fuel);
      r := Failure(Unmodelled("namespace functions"));
    } else if instr.FunctionCall? {
      r := ExecCall(p, included, name, line, instr.callee, instr.args, vars, touched, fuel);
    } else if instr.FunctionReturn? {
      var v :- ProcessStack(p, vars, instr.returned, fuel);
      r := Ok(Return(v, touched));
    } else if instr.Condition? {
      r := ExecCondition(p, included, name, line, instr.guard, instr.thenBranch, instr.elseBlocks, vars, touched, fuel);
    } else if instr.Loop? {
      r := ExecLoop(p, included, name, line, instr.bound, instr.iterable, instr.loopBody, vars, touched, fuel);
    } else if instr.While? {
      var o :- RunWhile(p, instr.whileGuard, instr.whileBody, name, vars, fuel);
      r := Ok(Continue(o, touched));
    } else {
      // any other token: the whole line is an expression, evaluated and discarded
      var discarded :- ProcessStack(p, vars, line, fuel);
      r := Ok(Break(vars, touched));
    }
  }

  /** A redeclaration overwrites the first binding of the name, and joins the touched
      list when the caller passed that name in. */
  method ExecRedeclaration(p: Program, included: Env, name: string, line: seq<Value>, x: string, update: seq<Value>,
                           vars: Env, touched: Env, fuel: nat) returns (r: Result<Flow>)
    ensures r == Step(p, included, name, line, VariableRedeclaration(x, update), vars, touched, fuel)
    decreases fuel, 3
  {
    var position := FirstIndex(vars, x);
    if position.None? {
      return Failure(Fatal("Variable does not exist"));
    }
    var processed :- ProcessStack(p, vars, update, fuel);
    var variables := vars[position.value := Binding(x, processed)];
    var returnVariables := touched;
    if x in Names(included) {
      returnVariables := returnVariables + [Binding(x, processed)];
    }
    r := Ok(Next(variables, returnVariables));
  }

  /** An if statement with its else blocks. */
  method ExecCondition(p: Program, included: Env, name: string, line: seq<Value>, guard: seq<Value>,
                       thenBranch: seq<seq<Value>>, elseBlocks: seq<ElseBlock>, vars: Env, touched: Env, fuel: nat)
    returns (r: Result<Flow>)
    ensures r == Step(p, included, name, line, Condition(guard, thenBranch, elseBlocks), vars, touched, fuel)
    decreases fuel, 3
  {
    var g :- ProcessStack(p, vars, guard, fuel);
    if g == Bool(true) {
      var out :- RunFunction(p, thenBranch, vars, vars, name, fuel);
      if out.0 != Null {
        return Ok(Return(out.0, out.1));
      }
      return Ok(Next(vars, touched));
    }
    var o :- RunElse(p, elseBlocks, name, vars, fuel);
    r := Ok(Continue(o, touched));
  }

  /** A `for` statement over an array or the letters of a text; anything else is
      skipped. */
  method ExecLoop(p: Program, included: Env, name: string, line: seq<Value>, bound: string, iterable: seq<Value>,
                  body: seq<seq<Value>>, vars: Env, touched: Env, fuel: nat) returns (r: Result<Flow>)
    ensures r == Step(p, included, name, line, Loop(bound, iterable, body), vars, touched, fuel)
    decreases fuel, 3
  {
    var loopArray :- ProcessStack(p, vars, iterable, fuel);
    if loopArray.Array? {
      var o :- RunFor(p, bound, loopArray.elems, body, name, vars, fuel);
      return Ok(Continue(o, touched));
    }
    if loopArray.String? {
      var o :- RunFor(p, bound, Chars(loopArray.s), body, name, vars, fuel);
      return Ok(Continue(o, touched));
    }
    r := Ok(Next(vars, touched));
  }

  /** A call statement: the call runs and its value is discarded. */
  method ExecCall(p: Program, included: Env, name: string, line: seq<Value>, callee: string, args: seq<seq<Value>>,
                  vars: Env, touched: Env, fuel: nat) returns (r: Result<Flow>)
    ensures r == Step(p, included, name, line, FunctionCall(callee, args), vars, touched, fuel)
    decreases fuel, 3
  {
    var argv :- EvaluateArgs(p, vars, args, fuel);
    var found :- Builtin(callee, argv);
    if found.1 {
      return Ok(Next(vars, touched));
    }
    if callee == "executeline" {
      if |argv| != 1 {
        return Failure(ArgumentCount("executeline", |argv|));
      }
      if !argv[0].String? {
        return Failure(Fatal("Cannot execute line"));
      }
      var code := p.prims.parseCode(argv[0].s);
      if |code| == 0 {
        return Failure(Panic("index out of bounds"));
      }
      var discarded :- ProcessStack(p, vars, code[0], fuel);
      return Ok(Next(vars, touched));
    }
    var discarded :- CallUser(p, callee, argv, fuel);
    r := Ok(Next(vars, touched));
  }

  /** The else blocks in order, until one is taken. */
  method RunElse(p: Program, blocks: seq<ElseBlock>, name: string, vars: Env, fuel: nat) returns (r: Result<Outcome>)
    ensures r == ElseFrom(p, blocks, 0, name, vars, fuel)
    decreases fuel, 0
  {
    for i := 0 to |blocks|
      invariant ElseFrom(p, blocks, i, name, vars, fuel) == ElseFrom(p, blocks, 0, name, vars, fuel)
    {
      if fuel == 0 {
        return Failure(OutOfFuel);
      }
      var taken := true;
      if |blocks[i].elseGuard| != 0 {
        var g :- ProcessStack(p, vars, blocks[i].elseGuard, fuel - 1);
        taken := g == Bool(true);
      }
      if taken {
        var out :- RunFunction(p, blocks[i].elseBody, vars, vars, name, fuel - 1);
        r := SettleBlock(vars, out);
        return;
      }
    }
    return Ok(Proceed(vars));
  }

  /** A `for` loop over the given items. */
  method RunFor(p: Program, bound: string, items: seq<Value>, body: seq<seq<Value>>, name: string,
                vars: Env, fuel: nat) returns (r: Result<Outcome>)
    ensures r == ForFrom(p, bound, items, 0, body, name, vars, fuel)
    decreases fuel, 0
  {
    var variables := vars;
    for i := 0 to |items|
      invariant ForFrom(p, bound, items, i, body, name, variables, fuel) == ForFrom(p, bound, items, 0, body, name, vars, fuel)
    {
      if fuel == 0 {
        return Failure(OutOfFuel);
      }
      var tempVariables := variables + [Binding(bound, items[i])];
      var out :- RunFunction(p, body, tempVariables, tempVariables, name, fuel - 1);
      var o :- SettleBlock(variables, out);
      if o.Exit? {
        return Ok(o);
      }
      variables := o.vars;
    }
    return Ok(Proceed(variables));
  }

  /** A `while` loop; the remaining budget shrinks by one each iteration. */
  method RunWhile(p: Program, guard: seq<Value>, body: seq<seq<Value>>, name: string, vars: Env, fuel: nat)
    returns (r: Result<Outcome>)
    ensures r == WhileFrom(p, guard, body, name, vars, fuel)
    decreases fuel, 0
  {
    var variables := vars;
    var budget: nat := fuel;
    while true
      invariant budget <= fuel
      invariant WhileFrom(p, guard, body, name, variables, budget) == WhileFrom(p, guard, body, name, vars, fuel)
      decreases budget
    {
      if budget == 0 {
        return Failure(OutOfFuel);
      }
      var g :- ProcessStack(p, variables, guard, budget - 1);
      if g != Bool(true) {
        return Ok(Proceed(variables));
      }
      var out :- RunFunction(p, body, variables, variables, name, budget - 1);
      var o :- SettleBlock(variables, out);
      if o.Exit? {
        return Ok(o);
      }
      variables := o.vars;
      budget := budget - 1;
    }
  }
}
