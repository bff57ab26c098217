# web-calculator: a verified model of the calculator and the orchestrator core

This project models the arithmetic core of the web-calculator service:

- **the direct evaluator** (`pkg/calculator/calculator.go`). `Calc` removes the
  spaces, compares the bracket counts, tokenizes and runs a two-stack evaluator.
  The stacks hold numbers and operators under the priorities `+ -` = 1 and
  `* /` = 2;
- **the postfix converter** (`pkg/calculator/rpn.go`). `ToRPN` is
  shunting-yard with a "bracket level" bonus: each open `(` adds 2 to the
  priority of incoming operators;
- **the orchestrator's task compiler** (`internal/orchestrator/handlers/handlers.go`).
  `parseExpression` tokenizes, converts to postfix, computes per-operator
  bracket levels and walks the postfix form into a list of binary tasks. Each
  task has an id `<expr>-<n>`, two numeric arguments (0 stands for "result not
  yet known"), an operation, an operation time and a priority;
- **the orchestrator's store** (`handlers.go`), a class with the `expressions`
  and `tasks` maps. Its methods are the store steps of `HandleCalculate`
  (`Submit`), the GET branch of `HandleTask` (`NextTask`, the task of highest
  priority), `updateTaskArgs` and the POST branch of `HandleTask` (`ApplyResult`).

Every loop of the Go code is a Dafny `method` with a loop. Each token loop
is proved equal to a specification function of the form "run the remaining
tokens from this state". The store's loops are proved against the new state
of the maps. The properties are proved as lemmas about those functions.

The test tables of `calculator_test.go` are restated on their own inputs.
Each row of `TestCalc` is a lemma about `Calculation` of the input string,
which is what `Calc` returns (Calculator.Calc ensures exactly that). Each row
of `TestTokenize` is a lemma about `Tokenization` of the string. The proofs
read each string one character at a time into its tokens and bracket counts
(module `Reading`), then trace the two stacks over the tokens. The rows of
`TestToRPN` and `TestEvaluate` take token lists, as the tests do, and so do
their lemmas. The row of `handler_test.go` is stated on the expression string.

Modules:

- `Errors`: error kinds, `Result`, `Option`;
- `Strings`: space removal, counting, `HasPrefix`, the first field of `strings.Split`;
- `Strconv`: `ParseFloat` on digit/dot numerals, `%d` formatting;
- `Calculator`: `Tokenize`, `Evaluate`, `Calc` and their specification
  functions `Tokenization`, `Evaluation` and `Calculation`;
- `EvaluatorLaws`, `Rpn` and `ConversionLaws`;
- `TaskCompiler`, `TaskStore`;
- `Reading`: how a string is read into tokens and bracket counts, one character
  at a time;
- the case modules `ReadingCases` (the test strings read into their tokens),
  `CalculatorCases` (stack traces over tokens), `CalcCases` (the test rows on
  the strings), `RpnCases` and `HandlerCases`.

Behaviour the model records as the code has it:

- Inside brackets the converter never pops an operator, because the bonus
  lifts every incoming operator above every stacked one. So
  `(2 - 3 - 1)` is converted as `2 - (3 - 1)`.
- The `)` branch of `Evaluate` pops without checking the stacks. That is a Go
  panic, modelled as the error `IndexOutOfRange`.
- `Evaluate` also accepts a postfix expression of one operator:
  `1 2 +` is 3.
- A task's operand that is an earlier task's result is stored as 0.
  The literal `0` is stored as 0 too, so it is indistinguishable from "not yet
  known".
- `updateTaskArgs` fills *both* empty slots of every task whose expression id is
  a prefix of the finished task's id. A task of expression `1` is therefore
  also filled by a result of expression `10`.

## Model

| member | source | states |
|---|---|---|
| Calculator.OperatorPriority | pkg/calculator/calculator.go:58-60 | a character is an operator exactly when its priority is positive |
| Calculator.Priority | pkg/calculator/calculator.go:166-175 | priority is 1 exactly for `+ -`, 2 exactly for `* /`, 0 otherwise, always within 0..2 |
| Calculator.Resolve | pkg/calculator/calculator.go:62-78 | fails exactly on division by zero (DivisionByZero) or an unknown operator (OperatorNotSupported); otherwise the sum, difference, product or quotient |
| Calculator.ResolveInverses | pkg/calculator/calculator.go:62-78 | subtracting undoes adding; dividing by a non-zero number undoes multiplying |
| Calculator.Tokenization | pkg/calculator/calculator.go:32-56 | succeeds exactly when every character is a digit, `.`, an operator or a bracket, otherwise UnacceptableSymbol; the tokens concatenate back to the input and are well formed (maximal numbers, one-character symbols) |
| Calculator.LexConcat | pkg/calculator/calculator.go:32-56 | the reference tokenizer loses and adds no character |
| Calculator.LexWellFormed | pkg/calculator/calculator.go:32-56 | on acceptable input the reference tokenizer yields well-formed tokens |
| Calculator.LexOfWellFormed | pkg/calculator/calculator.go:32-56 | re-tokenizing the concatenation of well-formed tokens gives them back |
| Calculator.TokensUnique | pkg/calculator/calculator.go:32-56 | two well-formed tokenizations of the same text are equal |
| Calculator.Tokenize | pkg/calculator/calculator.go:32-56 | the scanning loop returns exactly the tokenization, error included |
| Calculator.ReduceTop | pkg/calculator/calculator.go:90-119 | the guarded pop reports ExtraOperator and the unguarded one IndexOutOfRange on fewer than two numbers; on success the top two numbers are replaced by their resolution and the top operator is gone |
| Calculator.ReduceAll | pkg/calculator/calculator.go:137-157 | a successful drain leaves no operator and one number fewer per operator; it fails when there are operators but no more numbers than operators |
| Calculator.Reduce | pkg/calculator/calculator.go:94-107 | pops two numbers and an operator and pushes their resolution, as ReduceTop |
| Calculator.ReduceNotLowerLoop | pkg/calculator/calculator.go:89-109 | the operator branch's loop computes ReduceNotLower |
| Calculator.ReduceToOpenLoop | pkg/calculator/calculator.go:114-130 | the `)` branch's loop computes ReduceToOpen |
| Calculator.ReduceAllLoop | pkg/calculator/calculator.go:137-157 | the final drain computes ReduceAll |
| Calculator.Evaluate | pkg/calculator/calculator.go:81-164 | the evaluator returns exactly Evaluation(tokens): number, operator, bracket and skip branches, the drain, and InvalidExpression unless exactly one number is left |
| Calculator.Calc | pkg/calculator/calculator.go:10-30 | returns exactly Calculation(expression): more `(` than `)` after space removal gives ExtraOpenBracket, fewer gives ExtraCloseBracket, an unacceptable character UnacceptableSymbol; otherwise the evaluation of the tokens |
| Reading.UptoEnd | pkg/calculator/calculator.go:10-56 | a string read completely into well-formed tokens with given bracket counts tokenizes to those tokens, and Calc gives the bracket error the counts call for, or else their evaluation |
| Reading.RefusedFirst | pkg/calculator/calculator.go:10-48 | a string without brackets whose first character is neither a space nor acceptable gives UnacceptableSymbol |
| EvaluatorLaws.DrainPair | pkg/calculator/calculator.go:137-157 | draining two numbers under one operator yields the resolution, or Resolve's error |
| EvaluatorLaws.SingleNumber | pkg/calculator/calculator.go:81-164 | a lone number evaluates to its value |
| EvaluatorLaws.BracketedNumber | pkg/calculator/calculator.go:111-133 | `( x )` evaluates to x |
| EvaluatorLaws.InfixBinary | pkg/calculator/calculator.go:81-164 | `a op b` evaluates to Resolve(a, b, op) for all numbers and operators, errors included |
| EvaluatorLaws.PostfixBinary | pkg/calculator/calculator_test.go:165-186 | `a b op` evaluates to Resolve(a, b, op) too (the postfix inputs the Evaluate test feeds) |
| EvaluatorLaws.InfixPostfixAgree | pkg/calculator/calculator.go:81-164 | the infix and postfix forms of one operation evaluate alike |
| EvaluatorLaws.AdjacentNumbers | pkg/calculator/calculator.go:159-163 | two numbers without an operator give InvalidExpression |
| Rpn.PopToOpenLoop | pkg/calculator/rpn.go:20-23 | the `)` loop moves operators to the output down to the nearest `(`, as PopToOpen |
| Rpn.PopNotLowerLoop | pkg/calculator/rpn.go:31-35 | the operator loop pops while the top's priority is at least the incoming one plus the bracket level, as PopNotLower |
| Rpn.ToRPN | pkg/calculator/rpn.go:8-48 | the converter returns exactly Conversion(tokens) |
| Rpn.ConversionShape | pkg/calculator/rpn.go:8-48 | succeeds exactly when the bracket scan does, with its error (InvalidExpression on an unmatched `)`, UnacceptableSymbol on another token); the output has no `)`, keeps the numbers in input order, holds the input's tokens minus one `(`-`)` pair per `)`, and is shorter by exactly two per `)` |
| Rpn.BracketScanCounts | pkg/calculator/rpn.go:16-28 | the scan's final depth is the surplus of `(` over `)` |
| Rpn.ConversionBalanced | pkg/calculator/rpn.go:8-48 | on balanced input the output holds no bracket and has one token per non-bracket input token |
| Rpn.ConversionFromInput | pkg/calculator/rpn.go:8-48 | every output token occurs in the input |
| Rpn.DepthInvariant | pkg/calculator/rpn.go:16-27 | the bracket level is twice the number of `(` on the stack, never negative |
| Rpn.NoPopInsideBrackets | pkg/calculator/rpn.go:29-36 | at bracket level 2 or more an operator pops nothing and is pushed |
| ConversionLaws.InfixToPostfix | pkg/calculator/rpn.go:8-48 | `a op b` becomes `a b op` for every pair of numbers and every operator |
| ConversionLaws.ConversionKeepsValue | pkg/calculator/rpn.go:8-48 | the evaluator gives the converted form of one operation the value of the original |
| TaskCompiler.OperationTime | internal/orchestrator/handlers/handlers.go:79-112 | 0 for an unknown operation; with no variables set, 100 ms for `+ -` and 200 ms for `* /` |
| TaskCompiler.TaskId | internal/orchestrator/handlers/handlers.go:256 | the id starts with the expression id, and when that holds no `-`, the part before the first `-` of the task id is the expression id |
| TaskCompiler.ResultKey | internal/orchestrator/handlers/handlers.go:279 | the placeholder is `task-` followed by the task id |
| TaskCompiler.TaskIdInjective | internal/orchestrator/handlers/handlers.go:256 | distinct counters give distinct task ids |
| TaskCompiler.TaskIdNotNumeral | internal/orchestrator/handlers/handlers.go:256 | a task id never parses as a number |
| TaskCompiler.ResultKeyNotNumeral | internal/orchestrator/handlers/handlers.go:279-282 | a result placeholder never parses as a number |
| TaskCompiler.ParseNumber | internal/orchestrator/handlers/handlers.go:316-322 | a numeral gives its value, anything else 0 |
| TaskCompiler.EarlierResultIsZero | internal/orchestrator/handlers/handlers.go:258-270 | an operand that names an earlier task is stored as 0 |
| TaskCompiler.GetBracketLevels | internal/orchestrator/handlers/handlers.go:291-314 | the two loops compute BracketLevels: for each postfix operator symbol, the depth at its last occurrence in the infix tokens |
| TaskCompiler.BracketLevelOfSymbol | internal/orchestrator/handlers/handlers.go:291-314 | an operator in both token lists is mapped, to its depth at its last infix occurrence |
| TaskCompiler.ParseExpression | internal/orchestrator/handlers/handlers.go:226-289 | the compiler returns exactly Compilation(expr, id, env) |
| TaskCompiler.Walk | internal/orchestrator/handlers/handlers.go:244-286 | the postfix walk succeeds exactly when CompileRun does, with its error or its tasks |
| TaskCompiler.EmitTask | internal/orchestrator/handlers/handlers.go:252-282 | one operator pops two operands, appends a task and pushes its placeholder, as Emit |
| TaskCompiler.PlanRunSucceeds | internal/orchestrator/handlers/handlers.go:244-286 | the walk succeeds exactly when the stack never runs short of two operands; the only failure is InvalidExpression; the final height is known |
| TaskCompiler.CompilationPlan | internal/orchestrator/handlers/handlers.go:226-289 | tokenizer and converter errors pass through; after them compilation succeeds exactly when the postfix form never runs short of operands, fails only with InvalidExpression, and yields one task per step of the reference data-flow plan |
| TaskCompiler.CompiledTasks | internal/orchestrator/handlers/handlers.go:256-282 | one task per postfix operator, numbered `<expr>-1`, `<expr>-2`, ... in order, each with its operator, the operation time and priority Priority(op) + depth at the symbol's last infix occurrence |
| TaskCompiler.CompiledIdsDistinct | internal/orchestrator/handlers/handlers.go:256-277 | the compiled tasks have pairwise distinct ids |
| TaskCompiler.SameSymbolSamePriority | internal/orchestrator/handlers/handlers.go:265 | two tasks with the same operation symbol get the same priority, whatever their own brackets |
| TaskCompiler.CompiledOperandsBackward | internal/orchestrator/handlers/handlers.go:252-282 | every operand is a number or the result of a strictly earlier task |
| TaskStore.AddAll | internal/orchestrator/handlers/handlers.go:69-72 | the old keys are kept, every new task's id is stored, and the last task of the list is stored under its id |
| TaskStore.AddAllStores | internal/orchestrator/handlers/handlers.go:69-72 | after storing a list of tasks with distinct ids, each is found under its id |
| TaskStore.AddAllKeySet | internal/orchestrator/handlers/handlers.go:69-72 | the stored keys are the old keys plus the new tasks' ids |
| TaskStore.AddAllKeeps | internal/orchestrator/handlers/handlers.go:69-72 | a task whose id is not among the new ones is left untouched |
| TaskStore.FillArgs | internal/orchestrator/handlers/handlers.go:216-222 | only the argument slots change; nothing changes without the prefix match; a non-zero slot is kept |
| TaskStore.FillArgsEffect | internal/orchestrator/handlers/handlers.go:216-222 | with the prefix match an empty slot becomes exactly the result; with a match and a non-zero result both slots end non-zero |
| TaskStore.FillAll | internal/orchestrator/handlers/handlers.go:215-224 | the same keys; a task without the prefix match is unchanged; ids and expression ids are kept |
| TaskStore.FillArgsIdempotent | internal/orchestrator/handlers/handlers.go:215-224 | applying the same result twice is the same as once |
| TaskStore.FirstResultFillsBoth | internal/orchestrator/handlers/handlers.go:215-224 | a task with two empty slots takes the first non-zero result in both, and a second result changes neither |
| TaskStore.PrefixCrossesExpressions | internal/orchestrator/handlers/handlers.go:217 | a result of task `10-1` fills an empty slot of a task of expression `1` |
| TaskStore.LiteralZeroIsSentinel | internal/orchestrator/handlers/handlers.go:316-322 | the literal `0` and a task-result placeholder are stored alike as 0 |
| TaskStore.UpdateArgsCase | internal/orchestrator/handlers/handler_test.go:51-76 | the result 3 of task `1-1` lands in `Arg1` of task `1-2` |
| TaskStore.SelectMax | internal/orchestrator/handlers/handlers.go:146-151 | none exactly for an empty map; otherwise a stored task whose priority no other task exceeds |
| TaskStore.AllTasksDone | internal/orchestrator/handlers/handlers.go:198-204 | true exactly when no task of the expression remains |
| TaskStore.Store.Submit | internal/orchestrator/handlers/handlers.go:50-73 | the expression is recorded as pending before compiling; on a compile error it is kept and no task is added; otherwise every compiled task is stored under its id; the store invariant is kept |
| TaskStore.Store.NextTask | internal/orchestrator/handlers/handlers.go:143-173 | NoTasksAvailable on an empty store; otherwise a stored task of maximal priority, removed from the store |
| TaskStore.Store.UpdateTaskArgs | internal/orchestrator/handlers/handlers.go:215-224 | every task is filled by FillArgs; the expressions are untouched |
| TaskStore.Store.ApplyResult | internal/orchestrator/handlers/handlers.go:187-209 | ExpressionNotFound, with nothing changed, when the id's part before `-` names no expression; otherwise the arguments are filled, and the expression becomes done with this result exactly when none of its tasks remains |
| TaskStore.SubmitValid | internal/orchestrator/handlers/handlers.go:50-73 | storing compiled tasks keeps every task under its own id and attached to a recorded expression |
| Strings.RemoveSpaces | pkg/calculator/calculator.go:11 | the result holds no space |
| Strings.RemoveSpacesKeeps | pkg/calculator/calculator.go:11 | every other character is kept as often as it occurs, and the result is shorter by exactly the number of spaces |
| Strings.RemoveSpacesAppend | pkg/calculator/calculator.go:11 | space removal commutes with concatenation, so the kept characters stay in order |
| Strings.RemoveSpacesIdempotent | pkg/calculator/calculator.go:11 | removing spaces twice is removing them once |
| Strings.NoSpacesFixed | pkg/calculator/calculator.go:33 | a string without spaces is left as it is (Tokenize's second removal changes nothing) |
| Strings.Count | pkg/calculator/calculator.go:12-17 | the number of occurrences of the character |
| Strings.HasPrefixIff | internal/orchestrator/handlers/handlers.go:217 | HasPrefix holds exactly when the string is the prefix followed by something |
| Strings.BeforeFirst | internal/orchestrator/handlers/handlers.go:188 | the result is a prefix of the id, holds no `-`, and is followed by `-` when shorter than the id |
| Strings.BeforeFirstJoin | internal/orchestrator/handlers/handlers.go:188 | the part before the first `-` of `a-rest` is `a` when `a` holds no `-` |
| Strconv.ParseFloat | internal/orchestrator/handlers/handlers.go:316-322 | a value exactly for a numeral, never negative |
| Strconv.ParseFloatFormatInt | internal/orchestrator/handlers/handlers.go:256 | the decimal form of a natural number parses back to it |
| Strconv.FormatIntInjective | internal/orchestrator/handlers/handlers.go:256 | distinct natural numbers have distinct decimal forms |
| CalcCases.DecimalCalc | pkg/calculator/calculator_test.go:12-17 | Calc of `1.2 + 1 * (2 + 1)` is 4.2 |
| CalcCases.PrecedenceCalc | pkg/calculator/calculator_test.go:18-23 | Calc of `2 * 3 + 4 * (2 - 1)` is 10 |
| CalcCases.ProductCalc | pkg/calculator/calculator_test.go:24-29 | Calc of `2 * 3 * 4 * (2 / 1)` is 48 |
| CalcCases.DifferenceCalc | pkg/calculator/calculator_test.go:30-35 | Calc of `2 - 3 + 4 * (2 - 1)` is 3 |
| CalcCases.SelfDifferenceCalc | pkg/calculator/calculator_test.go:36-41 | Calc of `1 - 1` is 0 |
| CalcCases.EmptyCalc | pkg/calculator/calculator_test.go:42-47 | Calc of the empty string gives InvalidExpression |
| CalcCases.BlankCalc | pkg/calculator/calculator_test.go:48-53 | Calc of three spaces gives InvalidExpression |
| CalcCases.ExtraOpenCalc | pkg/calculator/calculator_test.go:54-59 | Calc of `1 + (3 * ()` gives ExtraOpenBracket |
| CalcCases.ExtraCloseCalc | pkg/calculator/calculator_test.go:60-65 | Calc of `1 + 1 * (2 + 1))` gives ExtraCloseBracket |
| CalcCases.DivisionByZeroCalc | pkg/calculator/calculator_test.go:66-71 | Calc of `2 / 0` gives DivisionByZero |
| CalcCases.UnacceptableCalc | pkg/calculator/calculator_test.go:72-77 | Calc of `& j` gives UnacceptableSymbol |
| CalcCases.OperatorAfterOperatorCalc | pkg/calculator/calculator_test.go:78-83 | Calc of `2 / + 0` gives ExtraOperator |
| CalcCases.TrailingOperatorCalc | pkg/calculator/calculator_test.go:84-89 | Calc of `1 + *` gives ExtraOperator |
| CalcCases.MissingOperatorCalc | pkg/calculator/calculator_test.go:90-95 | Calc of `2 ( 8)` gives InvalidExpression |
| CalcCases.SumTokenize | pkg/calculator/calculator_test.go:116 | Tokenize of `1 + 2` is `1`, `+`, `2` |
| CalcCases.BracketedTokenize | pkg/calculator/calculator_test.go:117 | Tokenize of `(1 + 2) * 3` is `(`, `1`, `+`, `2`, `)`, `*`, `3` |
| CalcCases.DecimalProductTokenize | pkg/calculator/calculator_test.go:118 | Tokenize of `1.5 * (2 - 3)` is `1.5`, `*`, `(`, `2`, `-`, `3`, `)` |
| CalculatorCases.UncheckedPopCase | pkg/calculator/calculator.go:113-119 | `( + )` pops from a short number stack: IndexOutOfRange |
| CalculatorCases.PostfixSum | pkg/calculator/calculator_test.go:170 | `1 2 +` evaluates to 3 |
| RpnCases.SumCase | pkg/calculator/calculator_test.go:149 | `1 + 2` converts to `1 2 +` |
| RpnCases.BracketCase | pkg/calculator/calculator_test.go:150 | `( 1 + 2 ) * 3` converts to `1 2 + 3 *` |
| RpnCases.DecimalProductCase | pkg/calculator/calculator_test.go:151 | `1.5 * ( 2 - 3 )` converts to `1.5 2 3 - *` |
| RpnCases.InsideBracketCase | pkg/calculator/rpn.go:29-36 | `( 2 - 3 - 1 )` converts to `2 3 1 - -` |
| HandlerCases.ParseExpressionCase | internal/orchestrator/handlers/handler_test.go:16-28 | `1 + 2` of expression `1` compiles to the single task `1-1` = 1 + 2 with priority 1 |

## Left out

- HTTP: request decoding, status codes, JSON responses, and the `Done` channel
  of a task. `HandleGetExpressions` and `HandleGetExpression` are plain
  reads of the map and are left out too.
- The agent (`internal/agent/worker`) and the `cmd` mains are not part of this model.
- Logging (`fmt.Printf` at handlers.go line 70, `log.Printf` at line 154)
  has no effect on the state and is left out.
- The mutex and concurrency: each store method is one atomic step.
- Pointer aliasing. The Go maps hold `*Task` and `*Expression`; the model
  stores values and writes the updated value back.
- `time.Now().UnixNano()` as the expression id becomes the `id` parameter
  of `Submit`.
- `os.Getenv` becomes the `TimeSettings` parameter.
- TaskCompiler.OperationTime is stated exactly only when no variable is set.
  A set variable is read as a decimal number of milliseconds (`strconv.Atoi`),
  and an unreadable one falls back to the default. Durations are integer
  milliseconds.
- Go map iteration order. `NextTask` takes any task of maximal priority
  (the model's choice stands for Go's unspecified order), and
  `updateTaskArgs` and the "all done" test do not depend on the order.
- `float64` is modelled as exact `real`. Rounding, infinities and NaN are
  not modelled, and neither is the exact decimal-to-binary conversion.
- `strconv.ParseFloat` accepts exponents, signs, `Inf`, `NaN`, hex floats and
  `_`. The model only parses unsigned digit strings with at most one `.`.
  These are the only numerals the tokenizer can produce.
- `unicode.IsDigit` accepts non-ASCII digits; the model takes only `0`-`9`.
- A token that is the empty string would make `token[0]` panic in
  `Evaluate` and `ToRPN`. Calculator.Evaluate and Rpn.ToRPN require non-empty
  tokens. The tokenizer never yields an empty token.
- Calculator.Evaluate is not proved equal to evaluating `ToRPN`'s output on
  every input, because the two disagree (e.g. inside brackets). The agreement
  is proved for one binary operation.
- The numeric value of a compiled expression is not proved. Its data-flow
  plan (CompilationPlan, CompiledOperandsBackward) and the argument-filling
  rules are, and those rules let the pipeline differ from Calc.
