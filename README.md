# The compute interpreter, modelled in Dafny

This project models the runtime core of "compute", a small tree-walking interpreter
written in Rust. It covers:

- the built-in function table (`builtin_functions`);
- the left-to-right expression fold (`process_stack`);
- the token reduction step (`preprocess`): calls, parenthesised groups, array
  literals and index chains, and the `int` / `str` conversions;
- the statement engine (`process_function`), with its environment of bindings and
  the list of "touched" bindings it hands back to the caller;
- the function-table loader (`parse_functions`): import lines, the content-hash
  cache, the line-terminator check, parameter splitting, table order and the
  `main` check;
- the leaf arms of the parse-tree walk (operator symbols, integer, string, bool and
  identifier literals, grouped tokens).

The source files come from two revisions: `main.rs` uses `Expr`, `preprocess.rs`
uses `Types`. The model has one closed `Value` datatype (`values.dfy`), shaped
after how `main.rs` uses it:

- an `Array` carries the `(isParsed, isSuite)` flags that `preprocess.rs` tests;
- a redeclaration is a separate variant;
- a `Condition` holds an ordered list of `(guard, body)` else blocks, where an
  empty guard is a plain `else`.

A fatal `error(...)` and a Rust panic become a `Failure` of a `Result`. Behaviour
outside the model (floating point, I/O, namespaces) stops as `Unmodelled`.
Programs may not terminate, so every evaluator function takes a `fuel` budget and
can stop with `OutOfFuel`. The argument-count check of `range` reports itself under
the name `sqrt`, as the source does, and the model keeps that name.

Layout:

- `values.dfy`: the values, errors, bindings and function-table entries.
- `text.dfy`: string helpers with their own contracts. These cover trimming,
  replacing, splitting and joining, UTF-8 length, and decimal text with `i64`
  parsing.
- `parser.dfy`: the leaf arms of `parse_expression`.
- `builtins.dfy`: `builtin_functions`, with the `range` progressions.
- `semantics.dfy`: the evaluator as mutually recursive functions. It is the
  reference definition.
- `engine.dfy`: the evaluator as the source runs it, with methods and loops that
  update the running output, operator, bindings and touched list. Each method is
  proved equal to its function in `semantics.dfy`.
- `properties.dfy`: lemmas about the evaluator.
- `function_table.dfy`: the loader. The cache directory is a class with a map
  field. The loader method is proved equal to the function `Load`. `Load` is
  compared with a cache-free reference loader `PureLoad`.

`Load` is written over an `Analysis`, which gives three things per unit text:
its hash, its import paths and its own table. `Analyse(fe)` is the analysis that
`parse_functions` performs, and the loader method is tied to it. The statements
about the cache hold for any analysis with a collision-free hash. Those that
mention `main` also need a `Sound` analysis, and `AnalyseSound` proves that
`Analyse(fe)` is one.

## Model

| member | source | states |
|---|---|---|
| Values.Position | src/main.rs:340-343 | the position found holds the name and no earlier position does; None exactly when no position holds it |
| Values.FirstIndex | src/main.rs:340-343 | the position found is the first binding with that name; no earlier binding has it; None exactly when no binding has it |
| Text.Utf8LenBounds | src/main.rs:67 | the UTF-8 byte length of a text is between its character count and four times that, and equals the character count exactly for ASCII text |
| Text.ParseI64 | src/preprocess.rs:38 | a successful parse yields a value inside the 64-bit signed range |
| Text.DigitsRoundTrip | src/preprocess.rs:55 | reading back the decimal digits of a natural number gives that number |
| Text.DecimalRoundTrip | src/preprocess.rs:35-55 | parsing the decimal text of any 64-bit integer gives that integer back, so `int(str(n)) == n` |
| Text.TrimStart | src/parser/parser_functions.rs:26 | the result is a suffix of the text that does not start with whitespace, and everything removed was whitespace |
| Text.TrimEnd | src/parser/parser_functions.rs:26 | the result is a prefix of the text that does not end with whitespace, and everything removed was whitespace |
| Text.TrimPadded | src/parser/parser_functions.rs:26 | trimming a text without edge whitespace, padded with whitespace on both sides, gives the text back |
| Text.ReplaceAbsent | src/parser/parser_functions.rs:26 | replacing a pattern that occurs nowhere leaves the text unchanged |
| Text.OccurrencesFrom | src/parser/parser_functions.rs:18 | every position listed is an occurrence of the pattern; positions are in increasing order and do not overlap |
| Text.OccurrencesComplete | src/parser/parser_functions.rs:18 | no occurrence is missed: every occurrence at or after the starting point lies inside a listed one |
| Text.Split | src/parser/parser_functions.rs:117 | splitting gives at least one piece, and no piece holds the separator |
| Text.SplitJoin | src/parser/parser_functions.rs:113-119 | pieces without the separator, joined by it, split back into the same pieces |
| Text.JoinSplit | src/parser/parser_functions.rs:113-119 | a text split at a separator and joined back by it is the same text |
| Text.TrimStartChar | src/parser/parser.rs:98 | the result is a suffix that does not start with the character, and only that character was removed |
| Text.TrimEndChar | src/parser/parser.rs:97 | the result is a prefix that does not end with the character, and only that character was removed |
| Parser.OperatorToken | src/parser/parser.rs:225-240 | a symbol gives an operator token exactly when it is one of the thirteen operator symbols, and the token's operator is written with that symbol; any other symbol panics |
| Parser.SymbolRoundTrip | src/parser/parser.rs:226-238 | every operator with a symbol is produced from exactly that symbol, so the table is one-to-one |
| Parser.IntegerToken | src/parser/parser.rs:93 | an integer literal becomes the Integer its text parses to as a 64-bit value, and fails exactly when it does not parse |
| Parser.StringToken | src/parser/parser.rs:95-101 | a string literal is a contiguous part of its text that neither starts nor ends with a quote |
| Parser.StringTokenQuoted | src/parser/parser.rs:95-101 | a quoted literal whose body neither starts nor ends with a quote reads back as that body |
| Parser.BoolToken | src/parser/parser.rs:102-108 | a bool literal is true exactly when its text is `true` |
| Parser.IdentifierToken | src/parser/parser.rs:210-216 | the text `Null` gives the Null value, and any other text gives a variable reference with its quotes trimmed |
| Parser.ConcatInOrder | src/parser/parser.rs:217-224 | a group's tokens are its children's tokens, each child kept whole and in order; the `and_operation` and `or_operation` arms (277-292) build the same concatenation |
| Builtins.WrappingAbs | src/main.rs:45 | `abs` of a 64-bit integer is its absolute value, except that the most negative integer wraps to itself |
| Builtins.StepRangeShape | src/main.rs:185-189 | a stepped progression holds exactly the values `lo + k * step` that lie below `hi`, and the next one would not |
| Builtins.UnitStepRange | src/main.rs:150 | the unit-step progression from `lo` to `hi` has `hi - lo` elements (none when `hi <= lo`), and element `k` is `lo + k` |
| Builtins.Builtin | src/main.rs:36-211 | an unknown name answers `(Null, false)`, and a known name that succeeds answers with `matched` set |
| Builtins.RangeUpTo | src/main.rs:147-156 | `range(n)` is the evaluated array `[0, ..., n - 1]`, which is empty when `n <= 0` |
| Builtins.RangeBetween | src/main.rs:157-176 | `range(a, b)` is the matched, evaluated Array `[a, ..., b - 1]`, empty when `b <= a` |
| Builtins.RangeStepped | src/main.rs:177-190 | the result is a matched, evaluated Array; with a positive step `range` lists `start + k * step` below `stop`; with a negative step it lists `stop + k * (-step)` below `start`, in ascending order |
| Builtins.RangeZeroStep | src/main.rs:181-183 | a zero step is fatal, "Step cannot be zero" |
| Builtins.RangeNeedsIntegers | src/main.rs:147-203 | a bound or step that is not an Integer is fatal |
| Builtins.RangeExamples | src/main.rs:185-190 | `range(0, 5, 2)` and `range(5, 0, -2)` are both `[0, 2, 4]` |
| Builtins.AbsAndRound | src/main.rs:41-62 | `abs` of an Integer is its absolute value, `round` of an Integer is that Integer, and both are fatal on a value that is not a number |
| Builtins.LenCounts | src/main.rs:63-80 | `len` of an Array counts its elements; `len` of a String is exactly its UTF-8 byte count `Utf8Len`, between its character count and four times it, and equal to the character count only for ASCII; other values are fatal |
| Builtins.TypeNamesDistinct | src/main.rs:107-112 | `type` answers the value's type name, and two evaluated values have the same type name exactly when they are the same variant |
| Semantics.Singletons | src/preprocess.rs:130-135 | each element becomes a token sequence of its own, in order |
| Semantics.Chars | src/main.rs:509-512 | a `for` loop over text binds each character in turn as a one-character String |
| Semantics.Bind | src/preprocess.rs:95-100 | parameter `k` is bound to argument `k`, and nothing else is bound |
| Semantics.FindFunction | src/preprocess.rs:87-93 | the function found is the first in the table with that name; None exactly when there is none |
| Semantics.BoolJoin | src/main.rs:230-253 | `&&` and `\|\|` succeed exactly on two Bools, giving their conjunction or disjunction; any other operand is fatal "is not a Boolean" |
| Engine.Preprocess | src/preprocess.rs:13-347 | the reduction method answers what the reference reduction `Reduce` defines |
| Engine.Call | src/preprocess.rs:19-101 | a call in an expression answers what `CallValue` defines: built-ins, then `executeline`, `int`, `str`, `float`, then user functions |
| Engine.CallUser | src/preprocess.rs:87-101 | a user call answers what `InvokeUser` defines |
| Engine.EvaluateArgs | src/preprocess.rs:21-24 | the argument loop answers what `EvalArgs` defines |
| Engine.EvaluateElements | src/preprocess.rs:127-137 | the array-literal loop answers `EvalArgs` over the elements taken one by one |
| Engine.ProcessStack | src/main.rs:213-308 | the fold loop, with its running output and operator, answers what `EvalStack` defines |
| Engine.IndexChain | src/preprocess.rs:139-342 | the index loop answers what `IndexSuite` defines |
| Engine.MergeTouched | src/main.rs:498-506 | the write-back loop answers what `Merge` defines |
| Engine.SettleBlock | src/main.rs:488-506 | the end of a nested block answers what `Settle` defines |
| Engine.RunFunction | src/main.rs:310-567 | the statement loop, with its bindings and touched list, answers what `ProcessFunction` defines |
| Engine.ExecStep | src/main.rs:334-560 | one statement answers what `Step` defines |
| Engine.RunElse | src/main.rs:424-473 | the else-block loop answers what `ElseFrom` defines |
| Engine.RunFor | src/main.rs:476-537 | the `for` loop answers what `ForFrom` defines |
| Engine.RunWhile | src/main.rs:538-555 | the `while` loop answers what `WhileFrom` defines |
| Properties.ArgsFromElementwise | src/preprocess.rs:21-24 | the argument loop from any position succeeds exactly when each remaining argument evaluates, and then appends their values in order |
| Properties.EvalArgsElementwise | src/preprocess.rs:21-24 | an argument list evaluates exactly when every argument does, and holds one value per argument, each the value of that argument's tokens on their own |
| Properties.ArrayLiteralElementwise | src/preprocess.rs:127-137 | an array literal evaluates to an evaluated array (flags false, false) of the same length, whose element `k` is element `k` evaluated on its own |
| Properties.SingleToken | src/main.rs:220-224 | a single token evaluates to its reduced value |
| Properties.FoldSeed | src/main.rs:223-224 | while the output is Null, the next reduced token becomes the output, even an operator token |
| Properties.FoldOperatorAndNull | src/main.rs:227-229 | after the seed, an operator token only selects the operator, and a Null token leaves the output alone |
| Properties.FoldLogic | src/main.rs:230-253 | after the seed, an `&&` / `\|\|` group is evaluated and joined with the output when both are Bools, and is fatal otherwise |
| Properties.BinaryIntegers | src/main.rs:260-262 | `x op y` on Integer literals hands the Integer table the right operand, the left one as output, and the operator |
| Properties.NullComparisons | src/main.rs:266-280 | `Null == Null` leaves the operator token itself as the value, and `x == Null` leaves `x`, so the Null-with-Null comparison is never reached |
| Properties.MergeKeepsNames | src/main.rs:498-506 | writing back touched bindings succeeds exactly when every touched name is bound, and then keeps the names, their order and their number |
| Properties.MergeOne | src/main.rs:498-506 | writing back one touched binding replaces the first binding with that name (no earlier binding has it) and nothing else, so a later binding of the same name keeps its value; it fails exactly when the name is unbound |
| Properties.FoundIffNamed | src/main.rs:340-343 | the first-binding search finds a position exactly when the name is bound |
| Properties.SettleShape | src/main.rs:495-506 | a nested block's non-Null value leaves with that block's touched list; otherwise the merge keeps the enclosing names, and succeeds exactly when everything touched is bound |
| Properties.ElseKeepsNames | src/main.rs:424-473 | the else blocks either leave with a non-Null value or keep the enclosing names |
| Properties.ForKeepsNames | src/main.rs:476-537 | a `for` loop either leaves with a non-Null value or keeps the enclosing names |
| Properties.WhileKeepsNames | src/main.rs:538-555 | a `while` loop either leaves with a non-Null value or keeps the enclosing names |
| Properties.Declarations | src/main.rs:335-358 | a declaration appends a binding; redeclaring an unbound name is fatal; otherwise it overwrites the first binding of the name and joins the touched list exactly when the caller passed that name in |
| Properties.CallStatementKeepsBindings | src/main.rs:372-413 | a call statement runs the call, then drops its value and its touched list, so the caller's bindings and touched list do not change |
| Properties.ReturnAndFallOff | src/main.rs:414-416 | `return` leaves at once with its value and the touched list so far, and falling off the end (line 565) leaves with Null |
| Properties.ThenBranchDoesNotMerge | src/main.rs:418-422 | the true branch runs on a copy of the bindings; a non-Null value returns at once, and otherwise its redeclarations are dropped |
| Properties.WhileIteration | src/main.rs:538-555 | a guard that fails or is not true ends the loop with the bindings unchanged; a true one runs the body on a copy, a non-Null body value leaves at once, and a Null one writes the touched values back before the next iteration (a failed write-back fails) |
| Properties.ElseTaken | src/main.rs:424-473 | a block whose guard is empty or true runs its body, leaves with a non-Null value or writes its touched values back, and its result does not depend on the later blocks; a guard that is not true moves on to the next block; a failing guard or body fails |
| Properties.ElseSkips | src/main.rs:424-473 | blocks whose guards are present and not true are passed over, so the first taken block decides, and none is taken when all are passed over |
| Properties.ForIteration | src/main.rs:480-506 | each iteration starts from the enclosing bindings plus the loop variable, and a non-Null body value leaves the loop at once |
| Properties.StepKeepsNames | src/main.rs:334-560 | only a declaration adds a binding (at the end); no statement removes, reorders or renames a binding |
| Properties.StepTouched | src/main.rs:347-358 | a statement keeps the touched list within the names the caller passed in; only a nested block's non-Null value can leave with another list |
| Properties.LinesTouched | src/main.rs:332-565 | the statement loop keeps the touched list within the names the caller passed in |
| Properties.TouchedWithinIncluded | src/main.rs:310-567 | a function body that ends without a value reports only bindings it was given |
| Properties.BlockMergeSafe | src/main.rs:541-553 | an else branch or `while` body runs on the enclosing bindings themselves, so writing back what it touched never panics and keeps the enclosing names |
| Properties.IndexLiterals | src/preprocess.rs:156-210 | literal index groups apply their integers left to right |
| Properties.IndexChainOnLiterals | src/preprocess.rs:212-270 | an index chain on an evaluated array or a string, with literal indices, equals the plain chain of index steps over that base |
| Properties.NullRestartsChain | src/preprocess.rs:228-229 | while the running result is Null, the next index applies to the base again |
| Properties.NestedArrayIndex | src/preprocess.rs:228-233 | two indices into a nested array select an element of a row |
| Properties.StringIndexExamples | src/preprocess.rs:286-316 | indexing text selects a Unicode scalar, not a byte (`"héllo"[1]` is `"é"`, while `len` is 6); a second index reads the one-letter result, and is fatal beyond it |
| Properties.InvalidIndexing | src/preprocess.rs:201-208 | an index group that is not a one-token literal evaluating to an Integer is fatal, and so is a base that is neither an array nor a string |
| Properties.IntOfStr | src/preprocess.rs:35-55 | `str` of a 64-bit Integer is its decimal text, and `int` reads it back |
| Properties.IntOfStrExpression | src/preprocess.rs:35-55 | the expression `int(str(n))` evaluates to `n` |
| Properties.ConversionEdges | src/preprocess.rs:52-70 | `str` of a Bool is `true` / `false`; `str` of Null or of a String is fatal; `int` of text that is not a decimal 64-bit integer is fatal |
| Properties.BuiltinsFirst | src/preprocess.rs:25-28 | a built-in name answers the built-in, even when a user function has that name |
| Properties.UserDispatch | src/preprocess.rs:87-101 | any other name goes to the first function with that name: an unknown name is fatal, a count mismatch is an argument-count error, and otherwise the body runs on the parameters bound positionally, whatever the caller's bindings |
| FunctionTable.Cache.Lookup | src/parser/parser_functions.rs:50-60 | a read finds a table exactly when the key is stored, and then returns the stored table |
| FunctionTable.Cache.Put | src/parser/parser_functions.rs:129-134 | a write stores the table under the key, replacing any table there, and leaves every other key as it was |
| FunctionTable.ImportLineEnd | src/parser/parser_functions.rs:35-40 | an import line ends just past the first newline at least seven characters in; a line without one panics |
| FunctionTable.FindImportLineEnd | src/parser/parser_functions.rs:35-40 | the growing-slice loop answers what `ImportLineEnd` defines |
| FunctionTable.ModulePath | src/parser/parser_functions.rs:41 | a module path always starts with `./` and ends with `.compute` |
| FunctionTable.ModuleName | src/parser/parser_functions.rs:42-45 | the reported name is a suffix of the path that no longer starts with `./`, and what was removed is `./` repeated, nothing else |
| FunctionTable.ModulePathOfImport | src/parser/parser_functions.rs:26 | `import m` at the start of the text, or after a newline, names `./m.compute` |
| FunctionTable.MissingModuleName | src/parser/parser_functions.rs:27-30 | a missing module `./m.compute` is reported as `m.compute` |
| FunctionTable.ImportMarkersApart | src/parser/parser_functions.rs:18 | no `\nimport` starts inside another one |
| FunctionTable.MarkersFound | src/parser/parser_functions.rs:18 | the scan lists every `\nimport` of the text |
| FunctionTable.ImportStarts | src/parser/parser_functions.rs:18-19 | import lines are taken at 0 when the text starts with `import`, then at each `\nimport`, in strictly increasing text order; position 0 is first when the text starts with `import`, and every `\nimport` is listed |
| FunctionTable.FirstImportNamesModule | src/parser/parser_functions.rs:19-26 | for a text starting `import m` and a newline, the first import line ends after that newline and names `./m.compute` |
| FunctionTable.ImportPath | src/parser/parser_functions.rs:33-41 | an import line names a path that starts with `./` and ends with `.compute`, and fails exactly when the line has no end |
| FunctionTable.ImportPaths | src/parser/parser_functions.rs:18-47 | there is one path per import line, and the only failures are panics |
| FunctionTable.ImportPathAt | src/parser/parser_functions.rs:33-41 | entry `k` is the path that import line `k` names |
| FunctionTable.LineErrorMissing | src/parser/parser_functions.rs:78-86 | an unterminated line is reported as a fatal message that starts with "Missing " and ends with the line number shown |
| FunctionTable.FirstBadLine | src/parser/parser_functions.rs:69-88 | the line found is neither exempt nor terminated, and every earlier line is one or the other |
| FunctionTable.CheckLines | src/parser/parser_functions.rs:68-90 | the check passes exactly when every line is blank, starts with `import` or `replace`, or ends with `{`, `}` or `;` |
| FunctionTable.CheckLinesReportsFirst | src/parser/parser_functions.rs:68-90 | the report names the first offending line by its 1-based number |
| FunctionTable.CheckLineTerminators | src/parser/parser_functions.rs:68-90 | the line loop with its counter answers what `CheckLines` defines |
| FunctionTable.Wrap8 | src/parser/parser_functions.rs:89 | `i8` wrap-around gives a value in [-128, 127], congruent to the input modulo 256 and equal to it when it is in range |
| FunctionTable.CheckLinesAsWritten | src/parser/parser_functions.rs:68-89 | the check with the source's `i8` counter passes exactly when every line is exempt or terminated, and otherwise fails with a fatal "Missing ..." report |
| FunctionTable.LineCounterWraps | src/parser/parser_functions.rs:68-89 | the `i8` counter reports the right number exactly when there is no bad line or the first one is among the first 127 |
| FunctionTable.LineCounterWrapsExample | src/parser/parser_functions.rs:68-89 | 127 good lines and then `y = 1` are reported as line -128, where line 128 is meant |
| FunctionTable.TrimEach | src/parser/parser_functions.rs:118 | each piece is trimmed in place, and the count is kept |
| FunctionTable.SplitParams | src/parser/parser_functions.rs:113-122 | no parameter name holds a comma |
| FunctionTable.ParamsRoundTrip | src/parser/parser_functions.rs:113-122 | pieces written with commas between them read back as the trimmed pieces |
| FunctionTable.ParamNamesRoundTrip | src/parser/parser_functions.rs:113-122 | names without edge whitespace, joined by commas, read back exactly |
| FunctionTable.SingleParam | src/parser/parser_functions.rs:113-122 | text without a comma is one parameter, its trimmed text, or none when it is blank |
| FunctionTable.Table | src/parser/parser_functions.rs:110-125 | there is one entry per extracted function, in extraction order, with the split parameters and the parsed, trimmed body |
| FunctionTable.BuildFunctions | src/parser/parser_functions.rs:110-125 | the `push` loop builds what `Table` defines |
| FunctionTable.TableNames | src/parser/parser_functions.rs:136-146 | the table keeps the extracted names in order, and has `main` exactly when extraction found a function of that name |
| FunctionTable.OwnFunctionsChecked | src/parser/parser_functions.rs:65-125 | a unit's own table fails exactly when a line is unterminated after comment stripping, with a "Missing ..." report; otherwise it is the table of the compacted text's functions |
| FunctionTable.OwnFunctionsHasNoMainError | src/parser/parser_functions.rs:68-90 | building a unit's own table never fails with "No main function" |
| FunctionTable.AnalyseSound | src/parser/parser_functions.rs:18-125 | the loader's own analysis fails only by panicking on import lines, and never with "No main function" for a unit's own table |
| FunctionTable.LoadImportLines | src/parser/parser_functions.rs:18-47 | the import loop answers, and leaves the cache in the state, that `LoadImports` defines over the import paths in text order |
| FunctionTable.FinishLoad | src/parser/parser_functions.rs:49-161 | the cache read, line check, table build, cache write and main check answer, and leave the cache in the state, that `Finish` defines |
| FunctionTable.ParseFunctions | src/parser/parser_functions.rs:11-162 | the loader method answers, and leaves the cache in the state, that `Load` defines from the cache contents before the call |
| FunctionTable.OwnThenImported | src/parser/parser_functions.rs:61 | a successful answer is the unit's stored table followed by the imported functions, on the hit and the miss path alike (lines 148-161); a miss stores only the unit's own table; a hit answers without any check |
| FunctionTable.StoreKeepsFaithful | src/parser/parser_functions.rs:129-134 | with a collision-free hash, storing a unit's own table under its hash keeps every stored table equal to the own table of its text |
| FunctionTable.MissingIsNotNoMain | src/parser/parser_functions.rs:42-45 | a missing module is never reported as a missing `main` |
| FunctionTable.ImportsKeep | src/parser/parser_functions.rs:33-47 | loading imports never drops a cache entry |
| FunctionTable.LoadKeeps | src/parser/parser_functions.rs:11-162 | loading never drops a cache entry |
| FunctionTable.ImportsNoMainError | src/parser/parser_functions.rs:31 | imported modules are loaded without the `main` check, so they never fail with "No main function" |
| FunctionTable.LoadNoMainError | src/parser/parser_functions.rs:136-146 | with the check off, loading never fails with "No main function" |
| FunctionTable.ImportsFaithful | src/parser/parser_functions.rs:33-47 | loading imports keeps a faithful cache faithful |
| FunctionTable.LoadFaithful | src/parser/parser_functions.rs:49-134 | loading keeps a faithful cache faithful |
| FunctionTable.CachedImports | src/parser/parser_functions.rs:18-47 | with a faithful cache and a collision-free hash, the imports load through the cache to what they load to without it |
| FunctionTable.CachedLoad | src/parser/parser_functions.rs:49-63 | with a faithful cache, loading through the cache answers what loading without it answers, except that a hit skips the `main` check; every table it answers is the cache-free table without that check |
| FunctionTable.StoreThenLoad | src/parser/parser_functions.rs:49-63 | once a unit has loaded, loading it again from the cache it left gives the same table |
| FunctionTable.SecondRunSkipsMainCheck | src/parser/parser_functions.rs:129-146 | the cache is written before the `main` check, so a program without `main` fails once and then, loaded from the cache it left, succeeds |

## Left out

- Floating point: the `Float` value, Float `abs` / `round` / `sqrt`, `float()`, `str` and `int` of a Float, and Float arithmetic. A built-in or conversion that would produce or consume a float stops as `Unmodelled`.
- Console and file I/O, and foreign code: `print` (kept as returning Null), `input`, `hash` (blake3 of a bincode encoding) and the text that `the_answer` prints. Also reading module files (given as a map from path to text), creating the cache directory, and the bincode encoding of stored tables. A stored table that fails to decode is not modelled.
- `namespace_functions` and namespace calls. Their arguments are evaluated, then they stop as `Unmodelled`.
- `integer_ops`, `string_ops`, `array_ops` and the member macros are not part of this model. They are parameters of the program (`Primitives`), as is `parse_code`. `executeline` runs the first line that `parse_code` gives.
- The pest parse-tree walk and the grammar. Only the leaf arms and the concatenation of grouped tokens are modelled.
- Comment stripping, `replace` macros and function extraction are regular expressions. They are parameters of the loader's front end. So is the content hash, which the cache theorems assume to be collision-free.
- Error messages keep their fixed wording but not the Debug rendering of the values inside them.
- The printable form of an array, which `str` of an evaluated array would produce (`Unmodelled`).
- `main()`: command-line flags, the banner, timing and the worker thread.
- Recursion and loops in interpreted programs are bounded by a fuel budget. A run that exhausts it stops as `OutOfFuel`, which the source never does. Each `while` iteration spends one unit.
- Import lines are found by character position. The source slices bytes, so a non-ASCII character on an import line would make its slice panic. That panic is not modelled.
- Identifier resolution: src/preprocess.rs as it stands has no arm for an identifier, so one falls through to Null (src/preprocess.rs:344). This model makes a choice of its own instead: an identifier resolves to its innermost binding, and an unbound name is fatal. Without that choice, no program that reads a variable would compute anything.
- Any other token that `preprocess` does not handle passes through unchanged instead of becoming Null. The fold in src/main.rs:221-224 needs literals to pass through.
- Engine.Preprocess: a user call in an expression runs the body through `process_function`, as in `main.rs`. src/preprocess.rs as it stands calls `process_lines` instead (src/preprocess.rs:101), which is not part of this model.
- Builtins.WrappingAbs: models a release build. `abs` of the most negative integer wraps to itself, where a debug build would panic.
- Builtins.RangeStepped: for a negative step, src/main.rs:185-189 walks `[stop, start)` upwards by the step's magnitude, and the model does the same, so `range(5, 0, -2)` is `[0, 2, 4]`. It does not count down from `start`.
- FunctionTable.OwnFunctions: numbers lines with an unbounded counter, so the corrected line number appears in a "Missing ..." report. The source's `i8` counter (src/parser/parser_functions.rs:68-89) reports line 128 as -128 in a release build and panics in a debug build. The as-written counter is `FunctionTable.CheckLinesAsWritten`, and the row under "## Findings" exhibits the difference. `FunctionTable.ParseFunctions` and the theorems built on `OwnFunctions` inherit the corrected numbering.
- Builtins.TypeNamesDistinct: the type-name strings are placeholders chosen by this model, because the `get_printable_type!` macro that src/main.rs:107-112 uses is not part of this model. Only what the contract states is meant to hold: each variant has one name, and distinct variants have distinct names.
- Semantics.Lookup: its contract states only that a bound name resolves to the value of one of its bindings and an unbound one fails. The innermost choice is made by `Values.LastIndex`.
- Negative or out-of-range array indices are Rust panics in the source (an index cast to `usize`). They are `Panic` failures here.

## Findings

| source | as written | input that shows it | evidently intended | confidence | as-written member | corrected member |
|---|---|---|---|---|---|---|
| src/parser/parser_functions.rs:68-89 | the line counter is an `i8`, incremented after every line, so line 128 and later are numbered after wrap-around in a release build (a debug build panics on the overflow instead) | 127 lines `x;` followed by `y = 1` is reported as "Missing semicolon at line -128" | the 1-based line number, "Missing semicolon at line 128" | not executed | FunctionTable.LineCounterWrapsExample | FunctionTable.CheckLineTerminators |
