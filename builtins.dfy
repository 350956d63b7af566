/** The fixed built-in function table (`builtin_functions` in src/main.rs): from a
    name and already evaluated arguments to a `(value, matched)` pair, where an
    unknown name answers `(Null, false)` so that the caller can look further. */
module Builtins {
  import opened Values
  import opened Text

  /** The names the table answers. */
  const BuiltinNames: set<string> :=
    {"print", "abs", "round", "len", "input", "type", "hash", "sqrt", "the_answer", "range"}

  /** `i64::abs` with overflow checks off (a release build): the absolute value,
      except that the most negative integer wraps to itself. */
  function WrappingAbs(v: int): (r: int)
    requires InI64(v)
    ensures InI64(r)
    ensures v != I64Min ==> r >= 0 && (r == v || r == -v)
    ensures v == I64Min ==> r == v
  {
    if v == I64Min then v else if v < 0 then -v else v
  }

  /** The short type name a diagnostic or `type(x)` shows for a value. */
  function TypeName(v: Value): string
  {
    match v
    case Null => "Null"
    case Integer(_) => "Integer"
    case String(_) => "String"
    case Bool(_) => "Bool"
    case Array(_, _, _) => "Array"
    case File(_) => "File"
    case _ => "Expression"
  }

  /** The arithmetic progression `lo, lo + step, ...` of the values below `hi`: Rust's
      `(lo..hi).step_by(step)`. */
  function StepRange(lo: int, hi: int, step: int): seq<int>
    requires step > 0
    decreases hi - lo
  {
    if lo >= hi then [] else [lo] + StepRange(lo + step, hi, step)
  }

  /** The progression is exactly the values `lo + k * step` below `hi`: every listed
      value has that form and is below `hi`, and the next one would not be. */
  lemma {:induction false} StepRangeShape(lo: int, hi: int, step: int)
    requires step > 0
    ensures var r := StepRange(lo, hi, step);
            && (forall k | 0 <= k < |r| :: r[k] == lo + k * step && r[k] < hi)
            && lo + |r| * step >= hi
    decreases hi - lo
  {
    var r := StepRange(lo, hi, step);
    if lo < hi {
      var rest := StepRange(lo + step, hi, step);
      StepRangeShape(lo + step, hi, step);
      assert r == [lo] + rest;
      forall k | 0 <= k < |r| ensures r[k] == lo + k * step && r[k] < hi {
        if k > 0 {
          assert r[k] == rest[k - 1];
          assert (k - 1) * step + step == k * step;
        }
      }
      assert (|rest| + 1) * step == |rest| * step + step;
    }
  }

  /** The consecutive integers from `lo` up to, not including, `hi`. */
  lemma UnitStepRange(lo: int, hi: int)
    ensures var r := StepRange(lo, hi, 1);
            && |r| == (if hi > lo then hi - lo else 0)
            && forall k | 0 <= k < |r| :: r[k] == lo + k
  {
    var r := StepRange(lo, hi, 1);
    StepRangeShape(lo, hi, 1);
    assert lo + |r| * 1 >= hi;
    if |r| > 0 {
      assert r[|r| - 1] == lo + (|r| - 1) * 1 < hi;
    }
  }

  /** Integer values of a sequence of integers. */
  function Integers(xs: seq<int>): (r: seq<Value>)
    ensures |r| == |xs|
    ensures forall i {:trigger r[i]} | 0 <= i < |xs| :: r[i] == Integer(xs[i])
  {
    seq(|xs|, i requires 0 <= i < |xs| => Integer(xs[i]))
  }

  /** A fully evaluated array of integers. */
  function IntegerArray(xs: seq<int>): Value
  {
    Array(Integers(xs), false, false)
  }

  /** `range(stop)`, `range(start, stop)` and `range(start, stop, step)`. A negative
      step walks the interval `[stop, start)` upwards by `-step`. */
  function Range(args: seq<Value>): Result<Value>
    requires 1 <= |args| <= 3
  {
    if |args| == 1 then
      if args[0].Integer? then Ok(IntegerArray(StepRange(0, args[0].n, 1)))
      else Failure(Fatal("Invalid range limit"))
    else if |args| == 2 then
      if !args[0].Integer? then Failure(Fatal("Invalid range start"))
      else if !args[1].Integer? then Failure(Fatal("Invalid range limit"))
      else Ok(IntegerArray(StepRange(args[0].n, args[1].n, 1)))
    else
      if !args[0].Integer? then Failure(Fatal("Invalid range start"))
      else if !args[1].Integer? then Failure(Fatal("Invalid range limit"))
      else if !args[2].Integer? then Failure(Fatal("Invalid range step"))
      else
        var start, stop, step := args[0].n, args[1].n, args[2].n;
        if step == 0 then Failure(Fatal("Step cannot be zero"))
        else if step > 0 then Ok(IntegerArray(StepRange(start, stop, step)))
        else Ok(IntegerArray(StepRange(stop, start, -step)))
  }

  /** `builtin_functions`. Printing, reading a line, hashing and square roots are
      outside the model: `print` and `the_answer` keep their return value, the
      others stop as `Unmodelled` after their argument checks. */
  function Builtin(name: string, args: seq<Value>): (r: Result<(Value, bool)>)
    ensures name !in BuiltinNames ==> r == Ok((Null, false))
    ensures name in BuiltinNames && r.Ok? ==> r.value.1
  {
    if name == "print" then
      if |args| != 1 then Failure(ArgumentCount("print", |args|)) else Ok((Null, true))
    else if name == "abs" then
      if |args| != 1 then Failure(ArgumentCount("abs", |args|))
      else if args[0].Integer? && InI64(args[0].n) then Ok((Integer(WrappingAbs(args[0].n)), true))
      else if args[0].Integer? then Failure(Unmodelled("integer outside 64 bits"))
      else Failure(Fatal("Cannot get absolute value"))
    else if name == "round" then
      if |args| != 1 then Failure(ArgumentCount("round", |args|))
      else if args[0].Integer? then Ok((args[0], true))
      else Failure(Fatal("Cannot round"))
    else if name == "len" then
      if |args| != 1 then Failure(ArgumentCount("len", |args|))
      else match args[0]
        case String(s) => Ok((Integer(Utf8Len(s)), true))
        case Array(elems, _, _) => Ok((Integer(|elems|), true))
        case _ => Failure(Fatal("Cannot get length of type"))
    else if name == "input" then
      if |args| > 1 then Failure(ArgumentCount("input", |args|))
      else if |args| == 1 && !args[0].String? then Failure(Fatal("Cannot print"))
      else Failure(Unmodelled("console input"))
    else if name == "type" then
      if |args| != 1 then Failure(ArgumentCount("type", |args|))
      else Ok((String(TypeName(args[0])), true))
    else if name == "hash" then
      if |args| != 1 then Failure(ArgumentCount("hash", |args|))
      else Failure(Unmodelled("content hash"))
    else if name == "sqrt" then
      if |args| != 1 then Failure(ArgumentCount("sqrt", |args|))
      else if args[0].Integer? then Failure(Unmodelled("floating point"))
      else Failure(Fatal("Cannot calculate the square root"))
    else if name == "the_answer" then
      Ok((Integer(42), true))
    else if name == "range" then
      // the source's argument-count check for `range` names `sqrt`
      if |args| < 1 || |args| > 3 then Failure(ArgumentCount("sqrt", |args|))
      else match Range(args)
        case Ok(v) => Ok((v, true))
        case Failure(e) => Failure(e)
    else Ok((Null, false))
  }

  // ---------------------------------------------------------------- properties

  /** `range(n)` is `[0, 1, ..., n - 1]`, empty when `n <= 0`. */
  lemma RangeUpTo(n: int)
    ensures var r := Builtin("range", [Integer(n)]);
            && r.Ok? && r.value.1 && r.value.0.Array?
            && !r.value.0.isParsed && !r.value.0.isSuite
            && |r.value.0.elems| == (if n > 0 then n else 0)
            && forall k | 0 <= k < |r.value.0.elems| :: r.value.0.elems[k] == Integer(k)
  {
    UnitStepRange(0, n);
  }

  /** `range(a, b)` is `[a, a + 1, ..., b - 1]`. */
  lemma RangeBetween(a: int, b: int)
    ensures var r := Builtin("range", [Integer(a), Integer(b)]);
            && r.Ok? && r.value.1 && r.value.0.Array?
            && !r.value.0.isParsed && !r.value.0.isSuite
            && |r.value.0.elems| == (if b > a then b - a else 0)
            && forall k | 0 <= k < |r.value.0.elems| :: r.value.0.elems[k] == Integer(a + k)
  {
    UnitStepRange(a, b);
  }

  /** With a positive step, `range(start, stop, step)` lists `start + k * step` while
      below `stop`; with a negative step it lists `stop + k * (-step)` while below
      `start`, in ascending order. */
  lemma RangeStepped(start: int, stop: int, step: int)
    requires step != 0
    ensures var r := Builtin("range", [Integer(start), Integer(stop), Integer(step)]);
            var lo, hi, stride := if step > 0 then start else stop, if step > 0 then stop else start,
                                  if step > 0 then step else -step;
            && r.Ok? && r.value.1 && r.value.0.Array?
            && !r.value.0.isParsed && !r.value.0.isSuite
            && (forall k | 0 <= k < |r.value.0.elems| ::
                  r.value.0.elems[k] == Integer(lo + k * stride) && lo + k * stride < hi)
            && lo + |r.value.0.elems| * stride >= hi
  {
    if step > 0 {
      StepRangeShape(start, stop, step);
    } else {
      StepRangeShape(stop, start, -step);
    }
  }

  /** A zero step is fatal, whatever the bounds. */
  lemma RangeZeroStep(start: int, stop: int)
    ensures Builtin("range", [Integer(start), Integer(stop), Integer(0)]) == Failure(Fatal("Step cannot be zero"))
  {
  }

  /** A bound or step that is not an Integer is fatal. */
  lemma RangeNeedsIntegers(args: seq<Value>)
    requires 1 <= |args| <= 3
    requires exists i | 0 <= i < |args| :: !args[i].Integer?
    ensures Builtin("range", args).Failure?
    ensures Builtin("range", args).error.Fatal?
  {
  }

  /** The two worked examples: `range(0, 5, 2)` is `[0, 2, 4]`, and so is
      `range(5, 0, -2)`, because a negative step still counts upwards. */
  lemma RangeExamples()
    ensures Builtin("range", [Integer(0), Integer(5), Integer(2)]) == Ok((IntegerArray([0, 2, 4]), true))
    ensures Builtin("range", [Integer(5), Integer(0), Integer(-2)]) == Ok((IntegerArray([0, 2, 4]), true))
  {
    assert StepRange(0, 5, 2) == [0, 2, 4] by {
      assert StepRange(6, 5, 2) == [];
      assert StepRange(4, 5, 2) == [4];
      assert StepRange(2, 5, 2) == [2, 4];
    }
  }

  /** `abs` of an Integer is an Integer with the absolute value (the most negative
      integer wraps to itself); `round` of an Integer is that Integer; both are fatal
      on a value that is not a number. */
  lemma AbsAndRound(v: Value)
    ensures v.Integer? && InI64(v.n) && v.n != I64Min ==>
              Builtin("abs", [v]) == Ok((Integer(if v.n < 0 then -v.n else v.n), true))
    ensures v.Integer? ==> Builtin("round", [v]) == Ok((v, true))
    ensures !v.Integer? ==> Builtin("abs", [v]).Failure? && Builtin("abs", [v]).error.Fatal?
    ensures !v.Integer? ==> Builtin("round", [v]).Failure? && Builtin("round", [v]).error.Fatal?
  {
  }

  /** `len` of an Array counts its elements; `len` of a String counts the bytes of its
      UTF-8 encoding, which is at least its character count and equals it exactly for
      ASCII text; any other value is fatal. */
  lemma LenCounts(v: Value)
    ensures v.Array? ==> Builtin("len", [v]) == Ok((Integer(|v.elems|), true))
    ensures v.String? ==> Builtin("len", [v]) == Ok((Integer(Utf8Len(v.s)), true))
    ensures v.String? ==> var n := Builtin("len", [v]).value.0.n;
              |v.s| <= n <= 4 * |v.s| && (n == |v.s| <==> IsAscii(v.s))
    ensures !v.Array? && !v.String? ==> Builtin("len", [v]).Failure?
  {
    if v.String? {
      Utf8LenBounds(v.s);
    }
  }

  /** `type` names the variant of each evaluated value, differently for each. */
  lemma TypeNamesDistinct(a: Value, b: Value)
    requires a.Null? || a.Integer? || a.String? || a.Bool? || a.Array? || a.File?
    requires b.Null? || b.Integer? || b.String? || b.Bool? || b.Array? || b.File?
    ensures Builtin("type", [a]) == Ok((String(TypeName(a)), true))
    ensures TypeName(a) == TypeName(b) <==>
              ((a.Null? && b.Null?) || (a.Integer? && b.Integer?) || (a.String? && b.String?)
               || (a.Bool? && b.Bool?) || (a.Array? && b.Array?) || (a.File? && b.File?))
  {
  }
}
