/** What the evaluator promises: the fold's seeding and Boolean rules, the
    statement engine's binding and touched-list discipline, array literals and index
    chains, the conversions and the call dispatch order. */
module Properties {
  import opened Values
  import opened Text
  import opened Builtins
  import opened Semantics

  // ---------------------------------------------------------------- argument lists

  lemma {:induction false} ArgsFromElementwise(p: Program, vars: Env, groups: seq<seq<Value>>, i: nat,
                                               acc: seq<Value>, fuel: nat)
    requires i <= |groups|
    ensures var r := ArgsFrom(p, vars, groups, i, acc, fuel);
            && (r.Ok? <==> (i == |groups| || (fuel > 0 && forall k | i <= k < |groups| ::
                                                  EvalStack(p, vars, groups[k], fuel - 1).Ok?)))
            && (r.Ok? ==> |r.value| == |acc| + |groups| - i && r.value[..|acc|] == acc)
            && (r.Ok? ==> forall k | i <= k < |groups| ::
                            fuel > 0 && EvalStack(p, vars, groups[k], fuel - 1) == Ok(r.value[|acc| + k - i]))
    decreases |groups| - i
  {
    if i < |groups| && fuel > 0 {
      var e := EvalStack(p, vars, groups[i], fuel - 1);
      if e.Ok? {
        var acc' := acc + [e.value];
        ArgsFromElementwise(p, vars, groups, i + 1, acc', fuel);
        var r := ArgsFrom(p, vars, groups, i + 1, acc', fuel);
        if r.Ok? {
          assert r.value[..|acc'|] == acc';
          assert r.value[..|acc|] == acc' [..|acc|] == acc;
          assert r.value[|acc|] == acc'[|acc|] == e.value;
        }
      }
    }
  }

  /** Arguments are evaluated one by one: the list evaluates exactly when every
      argument does, and then holds one value per argument, each the value of that
      argument's tokens on their own. */
  lemma EvalArgsElementwise(p: Program, vars: Env, groups: seq<seq<Value>>, fuel: nat)
    ensures var r := EvalArgs(p, vars, groups, fuel);
            && (r.Ok? <==> (|groups| == 0 || (fuel > 0 && forall k | 0 <= k < |groups| ::
                                                  EvalStack(p, vars, groups[k], fuel - 1).Ok?)))
            && (r.Ok? ==> |r.value| == |groups|)
            && (r.Ok? ==> forall k | 0 <= k < |groups| ::
                            fuel > 0 && EvalStack(p, vars, groups[k], fuel - 1) == Ok(r.value[k]))
  {
    ArgsFromElementwise(p, vars, groups, 0, [], fuel);
  }

  /** An array literal evaluates to an evaluated array (flags `false, false`) of the
      same length, element `k` being the value of element `k` evaluated on its own. */
  lemma ArrayLiteralElementwise(p: Program, vars: Env, elems: seq<Value>, fuel: nat)
    ensures var r := Reduce(p, vars, Array(elems, true, false), fuel);
            && (r.Ok? <==> (|elems| == 0 || (fuel > 0 && forall k | 0 <= k < |elems| ::
                                                 EvalStack(p, vars, [elems[k]], fuel - 1).Ok?)))
            && (r.Ok? ==> r.value.Array? && !r.value.isParsed && !r.value.isSuite)
            && (r.Ok? ==> |r.value.elems| == |elems|)
            && (r.Ok? ==> forall k | 0 <= k < |elems| ::
                            fuel > 0 && EvalStack(p, vars, [elems[k]], fuel - 1) == Ok(r.value.elems[k]))
  {
    var groups := Singletons(elems);
    EvalArgsElementwise(p, vars, groups, fuel);
    var r := Reduce(p, vars, Array(elems, true, false), fuel);
    if (fuel > 0 && forall k | 0 <= k < |elems| :: EvalStack(p, vars, [elems[k]], fuel - 1).Ok?) {
      assert forall k | 0 <= k < |groups| :: EvalStack(p, vars, groups[k], fuel - 1).Ok?;
    }
    if r.Ok? && |elems| > 0 {
      forall k | 0 <= k < |elems| ensures EvalStack(p, vars, [elems[k]], fuel - 1).Ok? {
        assert groups[k] == [elems[k]];
      }
    }
  }

  // ---------------------------------------------------------------- the fold

  /** A single token evaluates to its reduced value. */
  lemma SingleToken(p: Program, vars: Env, t: Value, fuel: nat)
    requires fuel > 0
    ensures EvalStack(p, vars, [t], fuel) == Reduce(p, vars, t, fuel - 1)
  {
    var e := Reduce(p, vars, t, fuel - 1);
    if e.Ok? {
      assert StackFrom(p, vars, [t], 0, Null, NullOp, fuel) == StackFrom(p, vars, [t], 1, e.value, NullOp, fuel);
    }
  }

  /** While the running output is Null, the next reduced token becomes the output,
      whatever it is (an operator token included). */
  lemma FoldSeed(p: Program, vars: Env, stack: seq<Value>, i: nat, op: Operator, fuel: nat)
    requires i < |stack| && fuel > 0
    ensures var e := Reduce(p, vars, stack[i], fuel - 1);
            && (e.Ok? ==> StackFrom(p, vars, stack, i, Null, op, fuel) == StackFrom(p, vars, stack, i + 1, e.value, op, fuel))
            && (e.Failure? ==> StackFrom(p, vars, stack, i, Null, op, fuel) == Failure(e.error))
  {
  }

  /** After the seed, an operator token only selects the operator, and a Null token
      changes nothing. */
  lemma FoldOperatorAndNull(p: Program, vars: Env, stack: seq<Value>, i: nat, out: Value, op: Operator, fuel: nat)
    requires i < |stack| && fuel > 0 && out != Null
    ensures var e := Reduce(p, vars, stack[i], fuel - 1);
            && (e.Ok? && e.value.Operation? ==>
                  StackFrom(p, vars, stack, i, out, op, fuel) == StackFrom(p, vars, stack, i + 1, out, e.value.op, fuel))
            && (e == Ok(Null) ==>
                  StackFrom(p, vars, stack, i, out, op, fuel) == StackFrom(p, vars, stack, i + 1, out, op, fuel))
  {
  }

  /** `&&` and `||` groups: after the seed, the group is evaluated and joined with the
      output when both are Bools; any other operand is fatal. */
  lemma FoldLogic(p: Program, vars: Env, stack: seq<Value>, i: nat, out: Value, op: Operator, fuel: nat)
    requires i < |stack| && fuel > 0 && out != Null
    requires Reduce(p, vars, stack[i], fuel - 1).Ok?
    requires Reduce(p, vars, stack[i], fuel - 1).value.And? || Reduce(p, vars, stack[i], fuel - 1).value.Or?
    ensures var e := Reduce(p, vars, stack[i], fuel - 1).value;
            var side := if e.And? then e.andOperand else e.orOperand;
            var s := EvalStack(p, vars, side, fuel - 1);
            && (s.Ok? && out.Bool? && s.value.Bool? ==>
                  StackFrom(p, vars, stack, i, out, op, fuel)
                  == StackFrom(p, vars, stack, i + 1,
                               Bool(if e.And? then out.b && s.value.b else out.b || s.value.b), op, fuel))
            && (s.Ok? && !(out.Bool? && s.value.Bool?) ==>
                  StackFrom(p, vars, stack, i, out, op, fuel) == Failure(Fatal("is not a Boolean")))
  {
  }

  /** `x op y` on two Integer literals: the Integer operator table receives the right
      operand, the left one as running output, and the operator. */
  lemma BinaryIntegers(p: Program, vars: Env, x: int, o: Operator, y: int, fuel: nat)
    requires fuel > 0
    ensures EvalStack(p, vars, [Integer(x), Operation(o), Integer(y)], fuel) == p.prims.integerOps(y, Integer(x), o)
  {
    var stack := [Integer(x), Operation(o), Integer(y)];
    assert StackFrom(p, vars, stack, 0, Null, NullOp, fuel) == StackFrom(p, vars, stack, 1, Integer(x), NullOp, fuel);
    assert StackFrom(p, vars, stack, 1, Integer(x), NullOp, fuel) == StackFrom(p, vars, stack, 2, Integer(x), o, fuel);
    var v := p.prims.integerOps(y, Integer(x), o);
    if v.Ok? {
      assert StackFrom(p, vars, stack, 2, Integer(x), o, fuel) == StackFrom(p, vars, stack, 3, v.value, o, fuel);
    }
  }

  /** Because a Null output takes the next token as it is, `Null == Null` leaves the
      operator token itself as the value, and `x == Null` leaves `x`: the Null-with-Null
      comparison in the fold is never reached. */
  lemma NullComparisons(p: Program, vars: Env, x: int, fuel: nat)
    requires fuel > 0
    ensures EvalStack(p, vars, [Null, Operation(Equal), Null], fuel) == Ok(Operation(Equal))
    ensures EvalStack(p, vars, [Integer(x), Operation(Equal), Null], fuel) == Ok(Integer(x))
  {
    var s1 := [Null, Operation(Equal), Null];
    assert StackFrom(p, vars, s1, 0, Null, NullOp, fuel) == StackFrom(p, vars, s1, 1, Null, NullOp, fuel);
    assert StackFrom(p, vars, s1, 1, Null, NullOp, fuel) == StackFrom(p, vars, s1, 2, Operation(Equal), NullOp, fuel);
    assert StackFrom(p, vars, s1, 2, Operation(Equal), NullOp, fuel)
        == StackFrom(p, vars, s1, 3, Operation(Equal), NullOp, fuel);
    var s2 := [Integer(x), Operation(Equal), Null];
    assert StackFrom(p, vars, s2, 0, Null, NullOp, fuel) == StackFrom(p, vars, s2, 1, Integer(x), NullOp, fuel);
    assert StackFrom(p, vars, s2, 1, Integer(x), NullOp, fuel) == StackFrom(p, vars, s2, 2, Integer(x), Equal, fuel);
    assert StackFrom(p, vars, s2, 2, Integer(x), Equal, fuel) == StackFrom(p, vars, s2, 3, Integer(x), Equal, fuel);
  }

  // ---------------------------------------------------------------- merging touched bindings

  /** Every binding of `t` has a name that `scope` binds. */
  predicate NamesWithin(t: Env, scope: Env)
  {
    forall k | 0 <= k < |t| :: t[k].name in Names(scope)
  }

  /** Merging succeeds exactly when every touched name is bound, and then keeps the
      names, their order and their number. */
  lemma {:induction false} MergeKeepsNames(vars: Env, touched: Env)
    ensures Merge(vars, touched).Ok? <==> NamesWithin(touched, vars)
    ensures Merge(vars, touched).Ok? ==> Names(Merge(vars, touched).value) == Names(vars)
    decreases |touched|
  {
    if |touched| > 0 {
      var x := touched[0].name;
      match FirstIndex(vars, x)
      case None =>
        assert x !in Names(vars);
      case Some(k) =>
        var next := vars[k := touched[0]];
        assert Names(next) == Names(vars);
        MergeKeepsNames(next, touched[1..]);
        assert NamesWithin(touched, vars) <==> NamesWithin(touched[1..], next) by {
          if NamesWithin(touched[1..], next) {
            forall j | 0 <= j < |touched| ensures touched[j].name in Names(vars) {
              if j > 0 {
                assert touched[j] == touched[1..][j - 1];
              }
            }
          }
        }
    }
  }

  /** Merging one touched binding overwrites the first binding with that name and
      leaves every other binding, including later ones of the same name, as it was. */
  lemma MergeOne(vars: Env, x: string, v: Value)
    ensures Merge(vars, [Binding(x, v)]).Failure? <==> x !in Names(vars)
    ensures x in Names(vars) ==> exists k | 0 <= k < |vars| ::
              && vars[k].name == x
              && (forall j | 0 <= j < k :: vars[j].name != x)
              && Merge(vars, [Binding(x, v)]) == Ok(vars[k := Binding(x, v)])
  {
    MergeKeepsNames(vars, [Binding(x, v)]);
    if x in Names(vars) {
      var k := FirstIndex(vars, x).value;
      assert [Binding(x, v)][1..] == [];
      assert Merge(vars, [Binding(x, v)]) == Ok(vars[k := Binding(x, v)]);
    }
  }

  /** The first-binding search finds exactly the names that are bound. */
  lemma FoundIffNamed(vars: Env, x: string)
    ensures FirstIndex(vars, x).Some? <==> x in Names(vars)
  {
    if FirstIndex(vars, x).Some? {
      assert Names(vars)[FirstIndex(vars, x).value] == x;
    }
  }

  /** A nested block's outcome: a value leaves with the block's own touched list;
      otherwise the merge keeps the enclosing names, and succeeds exactly when
      everything touched is bound there. */
  lemma SettleShape(vars: Env, out: (Value, Env))
    ensures var o := Settle(vars, out);
            && (o.Ok? && o.value.Exit? ==> o.value.value != Null && o.value == Exit(out.0, out.1))
            && (o.Ok? && o.value.Proceed? ==> Names(o.value.vars) == Names(vars))
            && (out.0 == Null ==> (o.Ok? <==> NamesWithin(out.1, vars)))
  {
    MergeKeepsNames(vars, out.1);
  }

  /** A block outcome that keeps the enclosing names and leaves only with a value. */
  predicate KeepsNames(o: Result<Outcome>, vars: Env)
  {
    o.Ok? ==> match o.value
              case Proceed(v) => Names(v) == Names(vars)
              case Exit(v, _) => v != Null
  }

  lemma {:induction false} ElseKeepsNames(p: Program, blocks: seq<ElseBlock>, i: nat, name: string, vars: Env, fuel: nat)
    requires i <= |blocks|
    ensures KeepsNames(ElseFrom(p, blocks, i, name, vars, fuel), vars)
    decreases |blocks| - i
  {
    if i < |blocks| && fuel > 0 {
      var out := ProcessFunction(p, blocks[i].elseBody, vars, vars, name, fuel - 1);
      if out.Ok? {
        SettleShape(vars, out.value);
      }
      if |blocks[i].elseGuard| != 0 {
        ElseKeepsNames(p, blocks, i + 1, name, vars, fuel);
      }
    }
  }

  lemma {:induction false} ForKeepsNames(p: Program, bound: string, items: seq<Value>, i: nat,
                                         body: seq<seq<Value>>, name: string, vars: Env, fuel: nat)
    requires i <= |items|
    ensures KeepsNames(ForFrom(p, bound, items, i, body, name, vars, fuel), vars)
    decreases |items| - i
  {
    if i < |items| && fuel > 0 {
      var scope := vars + [Binding(bound, items[i])];
      var out := ProcessFunction(p, body, scope, scope, name, fuel - 1);
      if out.Ok? {
        SettleShape(vars, out.value);
        var o := Settle(vars, out.value);
        if o.Ok? && o.value.Proceed? {
          ForKeepsNames(p, bound, items, i + 1, body, name, o.value.vars, fuel);
        }
      }
    }
  }

  lemma {:induction false} WhileKeepsNames(p: Program, guard: seq<Value>, body: seq<seq<Value>>, name: string,
                                           vars: Env, fuel: nat)
    ensures KeepsNames(WhileFrom(p, guard, body, name, vars, fuel), vars)
    decreases fuel
  {
    if fuel > 0 {
      var out := ProcessFunction(p, body, vars, vars, name, fuel - 1);
      if out.Ok? {
        SettleShape(vars, out.value);
        var o := Settle(vars, out.value);
        if o.Ok? && o.value.Proceed? {
          WhileKeepsNames(p, guard, body, name, o.value.vars, fuel - 1);
        }
      }
    }
  }

  // ---------------------------------------------------------------- statements

  /** A declaration appends a binding; a redeclaration of an unbound name is fatal,
      otherwise it overwrites the first binding of that name and joins the touched
      list exactly when the caller passed that name in. */
  lemma Declarations(p: Program, included: Env, name: string, line: seq<Value>, x: string, e: seq<Value>,
                     vars: Env, touched: Env, fuel: nat)
    ensures var v := EvalStack(p, vars, e, fuel);
            v.Ok? ==> Step(p, included, name, line, VariableDeclaration(x, e), vars, touched, fuel)
                      == Ok(Next(vars + [Binding(x, v.value)], touched))
    ensures x !in Names(vars) ==>
              Step(p, included, name, line, VariableRedeclaration(x, e), vars, touched, fuel)
              == Failure(Fatal("Variable does not exist"))
    ensures var v := EvalStack(p, vars, e, fuel);
            var r := Step(p, included, name, line, VariableRedeclaration(x, e), vars, touched, fuel);
            x in Names(vars) && v.Ok? ==>
              exists k | 0 <= k < |vars| ::
                && vars[k].name == x
                && (forall j | 0 <= j < k :: vars[j].name != x)
                && r == Ok(Next(vars[k := Binding(x, v.value)],
                                if x in Names(included) then touched + [Binding(x, v.value)] else touched))
  {
    FoundIffNamed(vars, x);
    var v := EvalStack(p, vars, e, fuel);
    if x in Names(vars) && v.Ok? {
      var k := FirstIndex(vars, x).value;
      assert vars[k].name == x;
    }
  }

  /** A call statement runs the call and discards its value and touched list: the
      caller's bindings and touched list are unchanged. */
  lemma CallStatementKeepsBindings(p: Program, included: Env, name: string, line: seq<Value>, callee: string,
                                   args: seq<seq<Value>>, vars: Env, touched: Env, fuel: nat)
    ensures var r := Step(p, included, name, line, FunctionCall(callee, args), vars, touched, fuel);
            r.Ok? ==> r.value == Next(vars, touched)
  {
  }

  /** A return statement leaves with its value and the touched list so far; falling
      off the end of the lines leaves with Null. */
  lemma ReturnAndFallOff(p: Program, lines: seq<seq<Value>>, included: Env, name: string, line: seq<Value>,
                         e: seq<Value>, vars: Env, touched: Env, fuel: nat)
    ensures var v := EvalStack(p, vars, e, fuel);
            v.Ok? ==> Step(p, included, name, line, FunctionReturn(e), vars, touched, fuel) == Ok(Return(v.value, touched))
    ensures LinesFrom(p, lines, included, name, |lines|, 0, vars, touched, fuel) == Ok((Null, touched))
  {
  }

  /** The true branch of an `if` runs on a copy of the bindings and returns a
      non-Null value at once; when it ends without one its redeclarations are dropped. */
  lemma ThenBranchDoesNotMerge(p: Program, included: Env, name: string, line: seq<Value>, guard: seq<Value>,
                               thenBranch: seq<seq<Value>>, elseBlocks: seq<ElseBlock>, vars: Env, touched: Env, fuel: nat)
    requires EvalStack(p, vars, guard, fuel) == Ok(Bool(true))
    ensures var out := ProcessFunction(p, thenBranch, vars, vars, name, fuel);
            var r := Step(p, included, name, line, Condition(guard, thenBranch, elseBlocks), vars, touched, fuel);
            && (out.Ok? && out.value.0 == Null ==> r == Ok(Next(vars, touched)))
            && (out.Ok? && out.value.0 != Null ==> r == Ok(Return(out.value.0, out.value.1)))
  {
  }

  /** Each loop iteration runs on a fresh copy of the enclosing bindings extended with
      the loop variable, and a non-Null body value leaves the loop at once. */
  lemma ForIteration(p: Program, bound: string, items: seq<Value>, i: nat, body: seq<seq<Value>>, name: string,
                     vars: Env, fuel: nat)
    requires i < |items| && fuel > 0
    ensures var scope := vars + [Binding(bound, items[i])];
            var out := ProcessFunction(p, body, scope, scope, name, fuel - 1);
            && (out.Ok? && out.value.0 != Null ==>
                  ForFrom(p, bound, items, i, body, name, vars, fuel) == Ok(Exit(out.value.0, out.value.1)))
            && (out.Ok? && out.value.0 == Null && Merge(vars, out.value.1).Ok? ==>
                  ForFrom(p, bound, items, i, body, name, vars, fuel)
                  == ForFrom(p, bound, items, i + 1, body, name, Merge(vars, out.value.1).value, fuel))
  {
  }

  /** One `while` iteration: the guard is evaluated on the current bindings; anything
      but true leaves the loop with them unchanged; otherwise the body runs on a copy,
      a non-Null body value leaves the loop at once, and a Null one writes the touched
      values back before the guard is tried again. */
  lemma WhileIteration(p: Program, guard: seq<Value>, body: seq<seq<Value>>, name: string, vars: Env, fuel: nat)
    requires fuel > 0
    ensures var g := EvalStack(p, vars, guard, fuel - 1);
            var out := ProcessFunction(p, body, vars, vars, name, fuel - 1);
            var r := WhileFrom(p, guard, body, name, vars, fuel);
            && (g.Failure? ==> r == Failure(g.error))
            && (g.Ok? && g.value != Bool(true) ==> r == Ok(Proceed(vars)))
            && (g == Ok(Bool(true)) && out.Failure? ==> r == Failure(out.error))
            && (g == Ok(Bool(true)) && out.Ok? && out.value.0 != Null ==> r == Ok(Exit(out.value.0, out.value.1)))
            && (g == Ok(Bool(true)) && out.Ok? && out.value.0 == Null ==>
                  (Merge(vars, out.value.1).Failure? ==> r == Failure(Merge(vars, out.value.1).error))
                  && (Merge(vars, out.value.1).Ok? ==>
                        r == WhileFrom(p, guard, body, name, Merge(vars, out.value.1).value, fuel - 1)))
  {
  }

  /** A taken else block (an empty guard, or one that evaluates to true) runs its body
      on a copy of the bindings: a non-Null value leaves with it, a Null one writes the
      touched values back; the blocks after it are not looked at. A guard that
      evaluates to anything else moves on to the next block. */
  lemma ElseTaken(p: Program, blocks: seq<ElseBlock>, i: nat, name: string, vars: Env, fuel: nat)
    requires i < |blocks| && fuel > 0
    ensures var g := EvalStack(p, vars, blocks[i].elseGuard, fuel - 1);
            var out := ProcessFunction(p, blocks[i].elseBody, vars, vars, name, fuel - 1);
            var r := ElseFrom(p, blocks, i, name, vars, fuel);
            && (|blocks[i].elseGuard| == 0 || g == Ok(Bool(true)) ==>
                  && r == ElseFrom(p, blocks[..i + 1], i, name, vars, fuel)
                  && (out.Failure? ==> r == Failure(out.error))
                  && (out.Ok? && out.value.0 != Null ==> r == Ok(Exit(out.value.0, out.value.1)))
                  && (out.Ok? && out.value.0 == Null ==>
                        (Merge(vars, out.value.1).Failure? ==> r == Failure(Merge(vars, out.value.1).error))
                        && (Merge(vars, out.value.1).Ok? ==> r == Ok(Proceed(Merge(vars, out.value.1).value)))))
            && (|blocks[i].elseGuard| != 0 && g.Failure? ==> r == Failure(g.error))
            && (|blocks[i].elseGuard| != 0 && g.Ok? && g.value != Bool(true) ==>
                  r == ElseFrom(p, blocks, i + 1, name, vars, fuel))
  {
    assert blocks[..i + 1][i] == blocks[i];
  }

  /** Blocks whose guards are present and evaluate to something other than true are
      passed over: the first taken block decides, and none is taken when all are
      passed over. */
  lemma {:induction false} ElseSkips(p: Program, blocks: seq<ElseBlock>, i: nat, k: nat, name: string, vars: Env, fuel: nat)
    requires i <= k <= |blocks| && fuel > 0
    requires forall j | i <= j < k :: |blocks[j].elseGuard| != 0
    requires forall j | i <= j < k :: EvalStack(p, vars, blocks[j].elseGuard, fuel - 1).Ok?
                                       && EvalStack(p, vars, blocks[j].elseGuard, fuel - 1).value != Bool(true)
    ensures ElseFrom(p, blocks, i, name, vars, fuel) == ElseFrom(p, blocks, k, name, vars, fuel)
    ensures k == |blocks| ==> ElseFrom(p, blocks, i, name, vars, fuel) == Ok(Proceed(vars))
    decreases k - i
  {
    if i < k {
      ElseTaken(p, blocks, i, name, vars, fuel);
      ElseSkips(p, blocks, i + 1, k, name, vars, fuel);
    }
  }

  /** Only a declaration adds a binding (at the end); no statement removes, reorders
      or renames one: if-else, `for` and `while` write back values only. */
  lemma StepKeepsNames(p: Program, included: Env, name: string, line: seq<Value>, instr: Value,
                       vars: Env, touched: Env, fuel: nat)
    ensures var r := Step(p, included, name, line, instr, vars, touched, fuel);
            r.Ok? && !r.value.Return? ==>
              Names(r.value.vars) == (if instr.VariableDeclaration? then Names(vars) + [instr.declName] else Names(vars))
  {
    var r := Step(p, included, name, line, instr, vars, touched, fuel);
    if r.Ok? && !r.value.Return? {
      if instr.VariableDeclaration? {
        assert Names(r.value.vars) == Names(vars) + [instr.declName];
      } else if instr.VariableRedeclaration? {
        var k := FirstIndex(vars, instr.redeclName).value;
        assert Names(r.value.vars) == Names(vars);
      } else if instr.Condition? {
        ElseKeepsNames(p, instr.elseBlocks, 0, name, vars, fuel);
      } else if instr.Loop? {
        var it := EvalStack(p, vars, instr.iterable, fuel).value;
        if it.Array? {
          ForKeepsNames(p, instr.bound, it.elems, 0, instr.loopBody, name, vars, fuel);
        } else if it.String? {
          ForKeepsNames(p, instr.bound, Chars(it.s), 0, instr.loopBody, name, vars, fuel);
        }
      } else if instr.While? {
        WhileKeepsNames(p, instr.whileGuard, instr.whileBody, name, vars, fuel);
      }
    }
  }

  /** A statement keeps the touched list within the names the caller passed in; the
      only way to leave with a foreign touched list is a nested block's non-Null value. */
  lemma StepTouched(p: Program, included: Env, name: string, line: seq<Value>, instr: Value,
                    vars: Env, touched: Env, fuel: nat)
    requires NamesWithin(touched, included)
    ensures var r := Step(p, included, name, line, instr, vars, touched, fuel);
            r.Ok? ==> match r.value
                      case Next(_, t) => NamesWithin(t, included)
                      case Break(_, t) => NamesWithin(t, included)
                      case Return(v, t) => v == Null ==> NamesWithin(t, included)
  {
    var r := Step(p, included, name, line, instr, vars, touched, fuel);
    if r.Ok? {
      if instr.Condition? {
        ElseKeepsNames(p, instr.elseBlocks, 0, name, vars, fuel);
      } else if instr.Loop? {
        var it := EvalStack(p, vars, instr.iterable, fuel).value;
        if it.Array? {
          ForKeepsNames(p, instr.bound, it.elems, 0, instr.loopBody, name, vars, fuel);
        } else if it.String? {
          ForKeepsNames(p, instr.bound, Chars(it.s), 0, instr.loopBody, name, vars, fuel);
        }
      } else if instr.While? {
        WhileKeepsNames(p, instr.whileGuard, instr.whileBody, name, vars, fuel);
      }
    }
  }

  lemma {:induction false} LinesTouched(p: Program, lines: seq<seq<Value>>, included: Env, name: string,
                                        li: nat, ii: nat, vars: Env, touched: Env, fuel: nat)
    requires li <= |lines| && (li < |lines| ==> ii <= |lines[li]|)
    requires NamesWithin(touched, included)
    ensures var r := LinesFrom(p, lines, included, name, li, ii, vars, touched, fuel);
            r.Ok? && r.value.0 == Null ==> NamesWithin(r.value.1, included)
    decreases |lines| - li, if li < |lines| then |lines[li]| - ii else 0
  {
    if li < |lines| {
      if ii == |lines[li]| {
        LinesTouched(p, lines, included, name, li + 1, 0, vars, touched, fuel);
      } else if fuel > 0 {
        var flow := Step(p, included, name, lines[li], lines[li][ii], vars, touched, fuel - 1);
        StepTouched(p, included, name, lines[li], lines[li][ii], vars, touched, fuel - 1);
        if flow.Ok? {
          match flow.value
          case Next(v, t) => LinesTouched(p, lines, included, name, li, ii + 1, v, t, fuel);
          case Break(v, t) => LinesTouched(p, lines, included, name, li + 1, 0, v, t, fuel);
          case Return(_, _) =>
        }
      }
    }
  }

  /** A function body that ends without a value reports only bindings it was given:
      the touched list names only bindings of `included`. */
  lemma TouchedWithinIncluded(p: Program, lines: seq<seq<Value>>, included: Env, expected: Env, name: string, fuel: nat)
    ensures var r := ProcessFunction(p, lines, included, expected, name, fuel);
            r.Ok? && r.value.0 == Null ==> NamesWithin(r.value.1, included)
  {
    if |included| == |expected| {
      LinesTouched(p, lines, included, name, 0, 0, included, [], fuel);
    }
  }

  /** An else branch or a `while` body runs on the enclosing bindings themselves, so
      writing back what it touched never panics and keeps the enclosing names. */
  lemma BlockMergeSafe(p: Program, body: seq<seq<Value>>, vars: Env, name: string, fuel: nat)
    ensures var out := ProcessFunction(p, body, vars, vars, name, fuel);
            out.Ok? && out.value.0 == Null ==>
              Settle(vars, out.value).Ok? && Names(Settle(vars, out.value).value.vars) == Names(vars)
  {
    TouchedWithinIncluded(p, body, vars, vars, name, fuel);
    var out := ProcessFunction(p, body, vars, vars, name, fuel);
    if out.Ok? {
      SettleShape(vars, out.value);
    }
  }

  // ---------------------------------------------------------------- index chains

  /** The index chain over a base with each index already known. */
  function ApplyIndices(base: Indexable, out: Value, ns: seq<int>): Result<Value>
    decreases |ns|
  {
    if |ns| == 0 then Ok(out)
    else
      var next :- IndexStep(base, out, ns[0]);
      ApplyIndices(base, next, ns[1..])
  }

  /** An index group written as a literal integer. */
  function LiteralIndex(n: int): Value
  {
    Array([Integer(n)], true, false)
  }

  /** The elements of a literal index group evaluate to its one integer. */
  lemma LiteralIndexValue(p: Program, vars: Env, n: int, fuel: nat)
    requires fuel >= 2
    ensures EvalArgs(p, vars, Singletons([Integer(n)]), fuel) == Ok([Integer(n)])
  {
    SingleToken(p, vars, Integer(n), fuel - 1);
    assert Singletons([Integer(n)]) == [[Integer(n)]];
    EvalArgsElementwise(p, vars, [[Integer(n)]], fuel);
    var r := EvalArgs(p, vars, [[Integer(n)]], fuel);
    assert r.Ok? && |r.value| == 1;
    assert r.value[0] == Integer(n);
    assert r.value == [Integer(n)];
  }

  /** Literal index groups apply their integers left to right. */
  lemma {:induction false} IndexLiterals(p: Program, vars: Env, base: Indexable, groups: seq<Value>, ns: seq<int>,
                                         i: nat, out: Value, fuel: nat)
    requires fuel >= 3 && i <= |groups| == |ns|
    requires forall j | i <= j < |groups| :: groups[j] == LiteralIndex(ns[j])
    ensures IndexFrom(p, vars, base, groups, i, out, fuel) == ApplyIndices(base, out, ns[i..])
    decreases |groups| - i
  {
    if i < |groups| {
      var n := ns[i];
      LiteralIndexValue(p, vars, n, fuel - 1);
      assert ns[i..][1..] == ns[i + 1..];
      var next := IndexStep(base, out, n);
      if next.Ok? {
        IndexLiterals(p, vars, base, groups, ns, i + 1, next.value, fuel);
      }
    }
  }

  /** An index chain on an evaluated array or on a string literal, with literal
      indices, is the pure chain of index steps over that base. */
  lemma IndexChainOnLiterals(p: Program, vars: Env, target: Value, ns: seq<int>, fuel: nat)
    requires fuel >= 3
    requires (target.Array? && !target.isParsed && !target.isSuite) || target.String?
    ensures var groups := [target] + seq(|ns|, k requires 0 <= k < |ns| => LiteralIndex(ns[k]));
            Reduce(p, vars, Array(groups, false, true), fuel)
            == ApplyIndices(if target.String? then StringBase(target.s) else ArrayBase(target.elems), Null, ns)
  {
    var groups := [target] + seq(|ns|, k requires 0 <= k < |ns| => LiteralIndex(ns[k]));
    SingleToken(p, vars, target, fuel);
    var base := if target.String? then StringBase(target.s) else ArrayBase(target.elems);
    IndexLiterals(p, vars, base, groups, [0] + ns, 1, Null, fuel);
    assert ([0] + ns)[1..] == ns;
  }

  /** While the running result is Null the next index applies to the base again. */
  lemma NullRestartsChain(items: seq<Value>, i: int, j: int)
    requires 0 <= i < |items| && items[i] == Null
    ensures ApplyIndices(ArrayBase(items), Null, [i, j]) == ApplyIndices(ArrayBase(items), Null, [j])
  {
    assert [i, j][1..] == [j];
  }

  /** Two indices into a nested array select an element of a row. */
  lemma NestedArrayIndex(rows: seq<seq<Value>>, i: int, j: int)
    requires 0 <= i < |rows| && 0 <= j < |rows[i]|
    ensures var base := seq(|rows|, k requires 0 <= k < |rows| => Array(rows[k], false, false));
            ApplyIndices(ArrayBase(base), Null, [i, j]) == Ok(rows[i][j])
  {
    var base := seq(|rows|, k requires 0 <= k < |rows| => Array(rows[k], false, false));
    assert base[i] == Array(rows[i], false, false);
    assert [i, j][1..] == [j];
    assert ApplyIndices(ArrayBase(base), Array(rows[i], false, false), [j]) == Ok(rows[i][j]) by {
      assert [j][1..] == [];
    }
  }

  /** Indexing text selects a Unicode scalar, not a byte: `"héllo"[1]` is `"é"`
      while `len("héllo")` is 6. A second index on the one-letter result reads that
      letter again at 0 and is fatal beyond it. */
  lemma StringIndexExamples()
    ensures ApplyIndices(StringBase("héllo"), Null, [1]) == Ok(String("é"))
    ensures Builtin("len", [String("héllo")]) == Ok((Integer(6), true))
    ensures ApplyIndices(StringBase("héllo"), Null, [1, 0]) == Ok(String("é"))
    ensures ApplyIndices(StringBase("héllo"), Null, [1, 1]) == Failure(Fatal("Cannot index"))
    ensures ApplyIndices(StringBase("héllo"), Null, [5]) == Failure(Fatal("Failed to get letter"))
  {
    assert [1, 0][1..] == [0];
    assert [1, 1][1..] == [1];
    var s := "héllo";
    assert Utf8Len(s) == 6 by {
      assert s == "h" + "é" + "llo";
      Utf8LenConcat("h" + "é", "llo");
      Utf8LenConcat("h", "é");
    }
  }

  /** A group that is not a literal of one Integer is fatal, and so is a base that is
      neither an evaluated array, an array literal nor a string. */
  lemma InvalidIndexing(p: Program, vars: Env, base: Indexable, groups: seq<Value>, i: nat, out: Value, fuel: nat)
    requires i < |groups| && fuel > 0
    ensures !(groups[i].Array? && groups[i].isParsed && !groups[i].isSuite) ==>
              IndexFrom(p, vars, base, groups, i, out, fuel) == Failure(Fatal("is not a valid index"))
    ensures groups[i].Array? && groups[i].isParsed && !groups[i].isSuite ==>
              var idx := EvalArgs(p, vars, Singletons(groups[i].elems), fuel - 1);
              idx.Ok? && (|idx.value| != 1 || !idx.value[0].Integer?) ==>
                IndexFrom(p, vars, base, groups, i, out, fuel) == Failure(Fatal("is not a valid index"))
    ensures var t := EvalStack(p, vars, [groups[0]], fuel);
            t.Ok? && !t.value.String? && !(t.value.Array? && !t.value.isSuite) ==>
              IndexSuite(p, vars, groups, fuel) == Failure(Fatal("Cannot index"))
  {
  }

  // ---------------------------------------------------------------- conversions and calls

  /** `str` of a 64-bit Integer is its decimal text and `int` reads it back. */
  lemma IntOfStr(p: Program, vars: Env, n: int, fuel: nat)
    requires InI64(n)
    ensures CallValue(p, vars, "str", [Integer(n)], fuel) == Ok(String(Decimal(n)))
    ensures CallValue(p, vars, "int", [String(Decimal(n))], fuel) == Ok(Integer(n))
  {
    DecimalRoundTrip(n);
  }

  /** A call whose one argument is a single token that reduces: the call runs on the
      token's value. */
  lemma OneTokenCall(p: Program, vars: Env, callee: string, arg: Value, fuel: nat)
    requires fuel >= 2
    ensures var a := Reduce(p, vars, arg, fuel - 2);
            a.Ok? ==> Reduce(p, vars, FunctionCall(callee, [[arg]]), fuel) == CallValue(p, vars, callee, [a.value], fuel)
  {
    var a := Reduce(p, vars, arg, fuel - 2);
    if a.Ok? {
      SingleToken(p, vars, arg, fuel - 1);
      EvalArgsElementwise(p, vars, [[arg]], fuel);
      var argv := EvalArgs(p, vars, [[arg]], fuel);
      assert [[arg]][0] == [arg];
      assert argv.Ok?;
      assert argv.value == [a.value];
    }
  }

  /** The call `str(n)` in an expression evaluates to the decimal text of `n`. */
  lemma StrOfIntExpression(p: Program, vars: Env, n: int, fuel: nat)
    requires InI64(n) && fuel >= 2
    ensures Reduce(p, vars, FunctionCall("str", [[Integer(n)]]), fuel) == Ok(String(Decimal(n)))
  {
    IntOfStr(p, vars, n, fuel);
    OneTokenCall(p, vars, "str", Integer(n), fuel);
  }

  /** The same round trip through the evaluator: `int(str(n))` evaluates to `n`. */
  lemma IntOfStrExpression(p: Program, vars: Env, n: int, fuel: nat)
    requires InI64(n) && fuel >= 4
    ensures Reduce(p, vars, FunctionCall("int", [[FunctionCall("str", [[Integer(n)]])]]), fuel) == Ok(Integer(n))
  {
    StrOfIntExpression(p, vars, n, fuel - 2);
    IntOfStr(p, vars, n, fuel);
    OneTokenCall(p, vars, "int", FunctionCall("str", [[Integer(n)]]), fuel);
  }

  /** `str` of a Bool is `true` / `false`; of Null or of a String it is fatal, and
      `int` of text that is not a decimal 64-bit integer is fatal. */
  lemma ConversionEdges(p: Program, vars: Env, b: bool, s: string, fuel: nat)
    ensures CallValue(p, vars, "str", [Bool(b)], fuel) == Ok(String(if b then "true" else "false"))
    ensures CallValue(p, vars, "str", [Null], fuel) == Failure(Fatal("Cannot convert to String"))
    ensures CallValue(p, vars, "str", [String(s)], fuel) == Failure(Fatal("Cannot convert to String"))
    ensures ParseI64(s).None? ==>
              CallValue(p, vars, "int", [String(s)], fuel) == Failure(Fatal("Cannot convert String to Integer"))
  {
  }

  /** Built-ins take precedence over user functions of the same name. */
  lemma BuiltinsFirst(p: Program, vars: Env, callee: string, argv: seq<Value>, fuel: nat)
    requires callee in BuiltinNames && Builtin(callee, argv).Ok?
    ensures CallValue(p, vars, callee, argv, fuel) == Ok(Builtin(callee, argv).value.0)
  {
  }

  /** Any other name goes to the first function of the table with that name, which
      must take exactly as many parameters as there are arguments and runs on a fresh
      environment binding them positionally: the caller's bindings play no part. */
  lemma UserDispatch(p: Program, vars: Env, other: Env, callee: string, argv: seq<Value>, fuel: nat)
    requires callee !in BuiltinNames && callee != "executeline" && callee != "int"
    requires callee != "str" && callee != "float"
    ensures CallValue(p, vars, callee, argv, fuel) == CallValue(p, other, callee, argv, fuel)
    ensures (forall k | 0 <= k < |p.functions| :: p.functions[k].name != callee) ==>
              CallValue(p, vars, callee, argv, fuel) == Failure(Fatal("Unknown function"))
    ensures forall k | 0 <= k < |p.functions| && p.functions[k].name == callee
                       && (forall j | 0 <= j < k :: p.functions[j].name != callee) ::
              && (|argv| != |p.functions[k].params| ==>
                    CallValue(p, vars, callee, argv, fuel) == Failure(ArgumentCount(callee, |argv|)))
              && (|argv| == |p.functions[k].params| ==>
                    var env := Bind(p.functions[k].params, argv);
                    var out := ProcessFunction(p, p.functions[k].body, env, env, callee, fuel);
                    CallValue(p, vars, callee, argv, fuel) == (if out.Ok? then Ok(out.value.0) else Failure(out.error)))
  {
    var found := FindFunction(p.functions, callee);
    if found.None? {
      assert forall k | 0 <= k < |p.functions| :: p.functions[k].name != callee;
    }
    forall k | 0 <= k < |p.functions| && p.functions[k].name == callee
               && (forall j | 0 <= j < k :: p.functions[j].name != callee)
      ensures found == Some(k)
    {
    }
  }
}
