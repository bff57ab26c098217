/** internal/orchestrator/handlers/handlers.go, lines 79-112 and 226-322:
    the compiler that turns an expression into the binary tasks the agents
    compute. The expression is tokenized and converted to postfix; a walk
    over the postfix with a stack of operand strings emits one task per
    operator. An operand that is the result of an earlier task is not known
    yet and is sent as the sentinel 0, to be filled in when that result
    arrives. */
module TaskCompiler {
  import opened Errors
  import opened Strings
  import opened Strconv
  import opened Calculator
  import opened Rpn

  /** A task as the orchestrator stores it. The operation time is in
      milliseconds; the Done channel, which nothing reads, is left out. */
  datatype Task = Task(
    id: string,
    arg1: real,
    arg2: real,
    operation: string,
    operationTime: int,
    expressionId: string,
    priority: int)

  // ---------------------------------------------------------------------
  // Operation times

  /** The variables TIME_ADDITION_MS, TIME_SUBTRACTION_MS,
      TIME_MULTIPLICATIONS_MS and TIME_DIVISIONS_MS after strconv.Atoi:
      None where a variable is unset or not a number. */
  datatype TimeSettings = TimeSettings(
    addition: Option<int>,
    subtraction: Option<int>,
    multiplication: Option<int>,
    division: Option<int>)

  function OrDefault(setting: Option<int>, fallback: int): int
  {
    match setting
    case Some(ms) => ms
    case None => fallback
  }

  /** getOperationTime, in milliseconds: a configured time wins, otherwise
      100 for `+ -` and 200 for `* /`; any other operation takes 0. */
  function OperationTime(env: TimeSettings, op: string): (ms: int)
    ensures op !in {"+", "-", "*", "/"} ==> ms == 0
    ensures env == TimeSettings(None, None, None, None) ==>
      ms == (if op in {"+", "-"} then 100 else if op in {"*", "/"} then 200 else 0)
  {
    if op == "+" then OrDefault(env.addition, 100)
    else if op == "-" then OrDefault(env.subtraction, 100)
    else if op == "*" then OrDefault(env.multiplication, 200)
    else if op == "/" then OrDefault(env.division, 200)
    else 0
  }

  // ---------------------------------------------------------------------
  // Identifiers and operands

  /** fmt.Sprintf("%s-%d", exprID, n). */
  function TaskId(exprId: string, n: nat): (r: string)
    ensures HasPrefix(r, exprId)
    ensures '-' !in exprId ==> BeforeFirst(r, '-') == exprId
  {
    var id := exprId + "-" + FormatInt(n);
    assert id[..|exprId|] == exprId;
    if '-' !in exprId then
      BeforeFirstJoin(exprId, '-', FormatInt(n));
      id
    else
      id
  }

  /** fmt.Sprintf("task-%s", taskID): the stack entry standing for a
      task's result. */
  function ResultKey(taskId: string): (r: string)
    ensures HasPrefix(r, "task-") && r[5..] == taskId
  {
    "task-" + taskId
  }

  /** Task identifiers of one expression differ for different counters. */
  lemma TaskIdInjective(exprId: string, n: nat, m: nat)
    requires TaskId(exprId, n) == TaskId(exprId, m)
    ensures n == m
  {
    var k := |exprId| + 1;
    assert TaskId(exprId, n)[k..] == FormatInt(n);
    assert TaskId(exprId, m)[k..] == FormatInt(m);
    FormatIntInjective(n, m);
  }

  /** A task identifier is never a numeral: it holds a '-'. */
  lemma TaskIdNotNumeral(exprId: string, n: nat)
    ensures !IsNumeral(TaskId(exprId, n))
  {
    assert TaskId(exprId, n)[|exprId|] == '-';
  }

  /** A result key is never a numeral: it starts with 't'. */
  lemma ResultKeyNotNumeral(taskId: string)
    ensures !IsNumeral(ResultKey(taskId))
  {
    assert ResultKey(taskId)[0] == 't';
  }

  /** parseNumber: a "task-" entry is 0, anything else is what ParseFloat
      makes of it, and 0 where ParseFloat fails. So a numeral gives its
      value and everything else gives 0. */
  function ParseNumber(s: string): (v: real)
    ensures IsNumeral(s) ==> v == NumeralValue(s)
    ensures !IsNumeral(s) ==> v == 0.0
  {
    if HasPrefix(s, "task-") then
      assert s[0] == 't';
      0.0
    else
      match ParseFloat(s)
      case Some(x) => x
      case None => 0.0
  }

  /** The result of an earlier task reaches its consumer as 0. */
  lemma EarlierResultIsZero(exprId: string, n: nat)
    ensures ParseNumber(TaskId(exprId, n)) == 0.0
  {
    TaskIdNotNumeral(exprId, n);
  }

  predicate IsOperatorToken(t: string)
  {
    |t| > 0 && IsOperator(t[0])
  }

  lemma OperatorNotNumeral(t: string)
    requires IsOperatorToken(t)
    ensures !IsNumeral(t)
  {
    assert !IsNumChar(t[0]);
  }

  /** The operator tokens of `ts`, in order. */
  function Operators(ts: seq<string>): seq<string>
  {
    if ts == [] then [] else (if IsOperatorToken(ts[0]) then [ts[0]] else []) + Operators(ts[1..])
  }

  // ---------------------------------------------------------------------
  // Bracket levels (getBracketLevels)

  /** The bracket bonus after the tokens `ts`: 2 per "(" less 2 per ")". */
  function Depth(ts: seq<string>): int
  {
    2 * (multiset(ts)["("] as int - multiset(ts)[")"] as int)
  }

  /** The position of the last occurrence of `t` in `ts`. */
  function LastIndex(ts: seq<string>, t: string): (j: nat)
    requires t in ts
    ensures j < |ts| && ts[j] == t
    ensures forall k :: j < k < |ts| ==> ts[k] != t
    decreases |ts|
  {
    var n := |ts| - 1;
    if ts[n] == t then n
    else
      assert ts == ts[..n] + [ts[n]];
      LastIndex(ts[..n], t)
  }

  /** The depth at the last occurrence of `t`. */
  function LastDepth(ts: seq<string>, t: string): int
    requires t in ts
  {
    Depth(ts[..LastIndex(ts, t)])
  }

  /** The first loop of getBracketLevels: every operator symbol is mapped
      to the depth of its last occurrence. */
  function TokenLevels(tokens: seq<string>): map<string, int>
  {
    map t | t in tokens && IsOperatorToken(t) :: LastDepth(tokens, t)
  }

  /** A Go map read: the zero value for a missing key. */
  function Lookup(m: map<string, int>, k: string): int
  {
    if k in m then m[k] else 0
  }

  /** The second loop: the levels of the operator symbols of `rpn`. */
  function Restrict(levels: map<string, int>, rpn: seq<string>): map<string, int>
  {
    map t | t in rpn && IsOperatorToken(t) :: Lookup(levels, t)
  }

  /** What getBracketLevels returns. */
  function BracketLevels(tokens: seq<string>, rpn: seq<string>): map<string, int>
  {
    Restrict(TokenLevels(tokens), rpn)
  }

  lemma DepthSnoc(ts: seq<string>, t: string)
    ensures Depth(ts + [t]) == Depth(ts) + (if t == "(" then 2 else if t == ")" then -2 else 0)
  {
    assert multiset(ts + [t]) == multiset(ts) + multiset{t};
  }

  lemma LastIndexSnoc(ts: seq<string>, t: string, u: string)
    requires u in ts + [t]
    ensures u == t ==> LastIndex(ts + [t], u) == |ts|
    ensures u != t ==> u in ts && LastIndex(ts + [t], u) == LastIndex(ts, u)
  {
    if u != t {
      assert (ts + [t])[..|ts|] == ts;
    }
  }

  /** One token of the first loop. */
  lemma TokenLevelsSnoc(ts: seq<string>, t: string)
    ensures TokenLevels(ts + [t]) ==
      if IsOperatorToken(t) then TokenLevels(ts)[t := Depth(ts)] else TokenLevels(ts)
  {
    var next := ts + [t];
    var expected := if IsOperatorToken(t) then TokenLevels(ts)[t := Depth(ts)] else TokenLevels(ts);
    forall u | u in next && IsOperatorToken(u)
      ensures u in expected && TokenLevels(next)[u] == expected[u]
    {
      LastIndexSnoc(ts, t, u);
      if u != t {
        assert next[..LastIndex(ts, u)] == ts[..LastIndex(ts, u)];
      } else {
        assert next[..|ts|] == ts;
      }
    }
    assert TokenLevels(next).Keys == expected.Keys;
  }

  lemma RestrictSnoc(levels: map<string, int>, rs: seq<string>, t: string)
    ensures Restrict(levels, rs + [t]) ==
      if IsOperatorToken(t) then Restrict(levels, rs)[t := Lookup(levels, t)] else Restrict(levels, rs)
  {
    var expected := if IsOperatorToken(t) then Restrict(levels, rs)[t := Lookup(levels, t)] else Restrict(levels, rs);
    assert Restrict(levels, rs + [t]).Keys == expected.Keys;
  }

  /** getBracketLevels, with its two loops, proved to compute BracketLevels. */
  method GetBracketLevels(tokens: seq<string>, rpn: seq<string>) returns (bracketLevels: map<string, int>)
    requires forall i :: 0 <= i < |tokens| ==> |tokens[i]| > 0
    requires forall i :: 0 <= i < |rpn| ==> |rpn[i]| > 0
    ensures bracketLevels == BracketLevels(tokens, rpn)
  {
    var currentLevel := 0;
    var tokenLevels: map<string, int> := map[];
    for i := 0 to |tokens|
      invariant currentLevel == Depth(tokens[..i])
      invariant tokenLevels == TokenLevels(tokens[..i])
    {
      var token := tokens[i];
      assert tokens[..i + 1] == tokens[..i] + [token];
      DepthSnoc(tokens[..i], token);
      TokenLevelsSnoc(tokens[..i], token);
      if token == "(" {
        currentLevel := currentLevel + 2;
      } else if token == ")" {
        currentLevel := currentLevel - 2;
      } else if IsOperator(token[0]) {
        tokenLevels := tokenLevels[token := currentLevel];
      }
    }
    assert tokens[..|tokens|] == tokens;
    bracketLevels := map[];
    for i := 0 to |rpn|
      invariant bracketLevels == Restrict(tokenLevels, rpn[..i])
    {
      var token := rpn[i];
      assert rpn[..i + 1] == rpn[..i] + [token];
      RestrictSnoc(tokenLevels, rpn[..i], token);
      if IsOperator(token[0]) {
        bracketLevels := bracketLevels[token := Lookup(tokenLevels, token)];
      }
    }
    assert rpn[..|rpn|] == rpn;
  }

  /** The bonus of an operator of the postfix is the depth at the last
      occurrence of that symbol in the infix tokens, wherever the operator
      itself stands: the bonus is keyed by the symbol. */
  lemma BracketLevelOfSymbol(tokens: seq<string>, rpn: seq<string>, op: string)
    requires op in rpn && op in tokens && IsOperatorToken(op)
    ensures op in BracketLevels(tokens, rpn)
    ensures BracketLevels(tokens, rpn)[op] == LastDepth(tokens, op)
  {
  }

  // ---------------------------------------------------------------------
  // The walk over the postfix

  /** The loop state of parseExpression: the operand stack, the tasks
      emitted so far, the map from result keys to task identifiers and the
      counter of the next task. */
  datatype Compiler = Compiler(stack: seq<string>, tasks: seq<Task>, taskMap: map<string, string>, counter: nat)

  /** What the walk does not change: the expression id, the operation times
      and the bracket levels. */
  datatype Context = Context(exprId: string, env: TimeSettings, levels: map<string, int>)

  /** Reads a stack entry through the task map. */
  function Resolved(taskMap: map<string, string>, s: string): string
  {
    if s in taskMap then taskMap[s] else s
  }

  /** One postfix token: a number is pushed; an operator pops two entries
      (fewer is InvalidExpression), emits a task and pushes its result key;
      anything else (an unmatched "(") is skipped. */
  function CompileStep(ctx: Context, st: Compiler, token: string): Result<Compiler>
  {
    if ParseFloat(token).Some? then
      Ok(st.(stack := st.stack + [token]))
    else if IsOperatorToken(token) then
      if |st.stack| < 2 then Err(InvalidExpression) else Ok(Emit(ctx, st, token))
    else
      Ok(st)
  }

  /** The operator branch: pops two entries, emits the task and pushes its
      result key. */
  function Emit(ctx: Context, st: Compiler, token: string): Compiler
    requires |st.stack| >= 2
  {
    var n := |st.stack|;
    var taskId := TaskId(ctx.exprId, st.counter);
    var arg1 := Resolved(st.taskMap, st.stack[n - 2]);
    var arg2 := Resolved(st.taskMap, st.stack[n - 1]);
    var task := Task(taskId, ParseNumber(arg1), ParseNumber(arg2), token,
                     OperationTime(ctx.env, token), ctx.exprId,
                     Priority(token) + Lookup(ctx.levels, token));
    var key := ResultKey(taskId);
    Compiler(st.stack[..n - 2] + [key], st.tasks + [task], st.taskMap[key := taskId], st.counter + 1)
  }

  function CompileRun(ctx: Context, st: Compiler, rpn: seq<string>): Result<Compiler>
    decreases |rpn|
  {
    if rpn == [] then Ok(st)
    else
      var next :- CompileStep(ctx, st, rpn[0]);
      CompileRun(ctx, next, rpn[1..])
  }

  function Initial(): Compiler { Compiler([], [], map[], 1) }

  /** What parseExpression returns. */
  function Compilation(expr: string, exprId: string, env: TimeSettings): Result<seq<Task>>
  {
    var tokens :- Tokenization(expr);
    var rpn :- Conversion(tokens);
    var st :- CompileRun(Context(exprId, env, BracketLevels(tokens, rpn)), Initial(), rpn);
    Ok(st.tasks)
  }

  lemma CompileAdvance(ctx: Context, before: Compiler, rpn: seq<string>, i: nat, after: Compiler)
    requires i < |rpn| && CompileStep(ctx, before, rpn[i]) == Ok(after)
    ensures CompileRun(ctx, before, rpn[i..]) == CompileRun(ctx, after, rpn[i + 1..])
  {
    assert rpn[i..][0] == rpn[i] && rpn[i..][1..] == rpn[i + 1..];
  }

  lemma CompileStop(ctx: Context, before: Compiler, rpn: seq<string>, i: nat, e: Error)
    requires i < |rpn| && CompileStep(ctx, before, rpn[i]) == Err(e)
    ensures CompileRun(ctx, before, rpn[i..]) == Err(e)
  {
    assert rpn[i..][0] == rpn[i];
  }

  /** The tokens the tokenizer emits are never empty. */
  lemma WellFormedNonEmpty(ts: seq<string>)
    requires WellFormed(ts)
    ensures forall i :: 0 <= i < |ts| ==> |ts[i]| > 0
  {
  }

  /** parseExpression: tokenize, convert, compute the bracket levels, then
      walk the postfix. Proved to compute Compilation. */
  method ParseExpression(expr: string, exprId: string, env: TimeSettings) returns (r: Result<seq<Task>>)
    ensures r == Compilation(expr, exprId, env)
  {
    var tokens :- Tokenize(expr);
    WellFormedNonEmpty(tokens);
    var rpn :- ToRPN(tokens);
    ConversionFromInput(tokens);
    var bracketLevels := GetBracketLevels(tokens, rpn);
    r := Walk(Context(exprId, env, bracketLevels), rpn);
  }

  /** The loop of parseExpression over the postfix (lines 239-288). */
  method Walk(ctx: Context, rpn: seq<string>) returns (r: Result<seq<Task>>)
    requires forall i :: 0 <= i < |rpn| ==> |rpn[i]| > 0
    ensures r.Ok? <==> CompileRun(ctx, Initial(), rpn).Ok?
    ensures r.Err? ==> r.error == CompileRun(ctx, Initial(), rpn).error
    ensures r.Ok? ==> r.value == CompileRun(ctx, Initial(), rpn).value.tasks
  {
    var stack: seq<string> := [];
    var tasks: seq<Task> := [];
    var taskMap: map<string, string> := map[];
    var taskCounter: nat := 1;
    for i := 0 to |rpn|
      invariant CompileRun(ctx, Compiler(stack, tasks, taskMap, taskCounter), rpn[i..])
             == CompileRun(ctx, Initial(), rpn)
    {
      var token := rpn[i];
      ghost var before := Compiler(stack, tasks, taskMap, taskCounter);
      if ParseFloat(token).Some? {
        stack := stack + [token];
      } else if IsOperator(token[0]) {
        if |stack| < 2 {
          CompileStop(ctx, before, rpn, i, InvalidExpression);
          return Err(InvalidExpression);
        }
        stack, tasks, taskMap, taskCounter := EmitTask(ctx, stack, tasks, taskMap, taskCounter, token);
      }
      CompileAdvance(ctx, before, rpn, i, Compiler(stack, tasks, taskMap, taskCounter));
    }
    assert rpn[|rpn|..] == [];
    return Ok(tasks);
  }

  /** The operator branch of the walk (lines 252-284): pop two operands,
      read them through the task map, emit the task, push its result key. */
  method EmitTask(ctx: Context, stack0: seq<string>, tasks0: seq<Task>, taskMap0: map<string, string>,
                  taskCounter0: nat, token: string)
    returns (stack: seq<string>, tasks: seq<Task>, taskMap: map<string, string>, taskCounter: nat)
    requires |stack0| >= 2 && IsOperatorToken(token)
    ensures Emit(ctx, Compiler(stack0, tasks0, taskMap0, taskCounter0), token)
         == Compiler(stack, tasks, taskMap, taskCounter)
  {
    stack := stack0;
    var arg2 := stack[|stack| - 1];
    var arg1 := stack[|stack| - 2];
    stack := stack[..|stack| - 2];
    var taskId := TaskId(ctx.exprId, taskCounter0);
    if arg1 in taskMap0 {
      arg1 := taskMap0[arg1];
    }
    if arg2 in taskMap0 {
      arg2 := taskMap0[arg2];
    }
    var priority := Priority(token) + Lookup(ctx.levels, token);
    var task := Task(taskId, ParseNumber(arg1), ParseNumber(arg2), token,
                     OperationTime(ctx.env, token), ctx.exprId, priority);
    tasks := tasks0 + [task];
    var resultKey := ResultKey(taskId);
    taskMap := taskMap0[resultKey := taskId];
    stack := stack + [resultKey];
    taskCounter := taskCounter0 + 1;
  }

  // ---------------------------------------------------------------------
  // The data flow the walk encodes

  /** What a task operand stands for: a number of the expression, or the
      result of the task with the given (1-based) number. */
  datatype Operand = Number(value: real) | Earlier(index: nat)

  /** One binary operation of the data flow. */
  datatype Step = Step(left: Operand, right: Operand, op: string)

  datatype Planner = Planner(operands: seq<Operand>, steps: seq<Step>)

  /** The reference walk: a stack of operands instead of strings. */
  function PlanStep(p: Planner, token: string): Result<Planner>
  {
    if IsNumeral(token) then
      Ok(p.(operands := p.operands + [Number(NumeralValue(token))]))
    else if IsOperatorToken(token) then
      if |p.operands| < 2 then Err(InvalidExpression) else Ok(Apply(p, token))
    else
      Ok(p)
  }

  /** An operator combines the two top operands into the next step. */
  function Apply(p: Planner, token: string): Planner
    requires |p.operands| >= 2
  {
    var n := |p.operands|;
    Planner(p.operands[..n - 2] + [Earlier(|p.steps| + 1)],
            p.steps + [Step(p.operands[n - 2], p.operands[n - 1], token)])
  }

  function PlanRun(p: Planner, rpn: seq<string>): Result<Planner>
    decreases |rpn|
  {
    if rpn == [] then Ok(p)
    else
      var next :- PlanStep(p, rpn[0]);
      PlanRun(next, rpn[1..])
  }

  /** The value an operand is sent with: the zero sentinel for a result
      not computed yet. */
  function Sentinel(o: Operand): real
  {
    match o
    case Number(v) => v
    case Earlier(_) => 0.0
  }

  /** The task emitted for the `n`-th step. */
  function TaskOf(ctx: Context, n: nat, s: Step): Task
  {
    Task(TaskId(ctx.exprId, n), Sentinel(s.left), Sentinel(s.right), s.op,
         OperationTime(ctx.env, s.op), ctx.exprId, Priority(s.op) + Lookup(ctx.levels, s.op))
  }

  /** How a string on the compiler's stack stands for an operand. */
  ghost predicate Denotes(taskMap: map<string, string>, s: string, o: Operand)
  {
    (IsNumeral(s) && o == Number(NumeralValue(s))) || (o.Earlier? && s in taskMap)
  }

  /** The tasks emitted so far are those of the steps so far. */
  ghost predicate TasksMatch(ctx: Context, tasks: seq<Task>, steps: seq<Step>)
  {
    |tasks| == |steps| && forall k :: 0 <= k < |tasks| ==> tasks[k] == TaskOf(ctx, k + 1, steps[k])
  }

  ghost predicate StackMatch(taskMap: map<string, string>, stack: seq<string>, operands: seq<Operand>)
  {
    |stack| == |operands| && forall i :: 0 <= i < |stack| ==> Denotes(taskMap, stack[i], operands[i])
  }

  /** No key of the task map is a numeral, and every value parses to 0. */
  ghost predicate MapSound(taskMap: map<string, string>)
  {
    forall key :: key in taskMap ==> !IsNumeral(key) && ParseNumber(taskMap[key]) == 0.0
  }

  /** The simulation between the compiler's state and the reference walk. */
  ghost predicate Related(ctx: Context, c: Compiler, p: Planner)
  {
    && c.counter == |p.steps| + 1
    && TasksMatch(ctx, c.tasks, p.steps)
    && StackMatch(c.taskMap, c.stack, p.operands)
    && MapSound(c.taskMap)
  }

  /** A resolved stack entry parses to the operand's sentinel value. */
  lemma ArgumentValue(ctx: Context, c: Compiler, p: Planner, i: nat)
    requires Related(ctx, c, p) && i < |c.stack|
    ensures ParseNumber(Resolved(c.taskMap, c.stack[i])) == Sentinel(p.operands[i])
  {
    var s := c.stack[i];
    if IsNumeral(s) && p.operands[i] == Number(NumeralValue(s)) {
      assert s !in c.taskMap;
    }
  }

  lemma RelatedOperator(ctx: Context, c: Compiler, p: Planner, token: string)
    requires Related(ctx, c, p) && |c.stack| >= 2
    ensures Related(ctx, Emit(ctx, c, token), Apply(p, token))
  {
    var n := |c.stack|;
    assert |p.operands| == n;
    ArgumentValue(ctx, c, p, n - 2);
    ArgumentValue(ctx, c, p, n - 1);
    var step := Step(p.operands[n - 2], p.operands[n - 1], token);
    var taskId := TaskId(ctx.exprId, c.counter);
    var c' := Compiler(c.stack[..n - 2] + [ResultKey(taskId)], c.tasks + [TaskOf(ctx, c.counter, step)],
                       c.taskMap[ResultKey(taskId) := taskId], c.counter + 1);
    var p' := Planner(p.operands[..n - 2] + [Earlier(|p.steps| + 1)], p.steps + [step]);
    EmitShape(ctx, c, token, step);
    assert Emit(ctx, c, token) == c';
    assert Apply(p, token) == p';
    RelatedPush(ctx, c, p, step);
    assert Related(ctx, c', p');
  }

  /** The state after an operator, written out, is related again. */
  lemma RelatedPush(ctx: Context, c: Compiler, p: Planner, s: Step)
    requires Related(ctx, c, p) && |c.stack| >= 2
    ensures var n := |c.stack|;
      var taskId := TaskId(ctx.exprId, c.counter);
      Related(ctx,
              Compiler(c.stack[..n - 2] + [ResultKey(taskId)], c.tasks + [TaskOf(ctx, c.counter, s)],
                       c.taskMap[ResultKey(taskId) := taskId], c.counter + 1),
              Planner(p.operands[..n - 2] + [Earlier(|p.steps| + 1)], p.steps + [s]))
  {
    var n := |c.stack|;
    var taskId := TaskId(ctx.exprId, c.counter);
    var key := ResultKey(taskId);
    TaskIdNotNumeral(ctx.exprId, c.counter);
    ResultKeyNotNumeral(taskId);
    TasksAppend(ctx, c.tasks, p.steps, s);
    StackDrop(c.taskMap, c.stack, p.operands, n - 2);
    StackPush(c.taskMap, key, taskId, c.stack[..n - 2], p.operands[..n - 2], Earlier(|p.steps| + 1));
    MapExtended(c.taskMap, key, taskId);
  }

  /** Emit in terms of the step it encodes, once both operands are known to
      parse to the step's sentinel values. */
  lemma EmitShape(ctx: Context, c: Compiler, token: string, s: Step)
    requires |c.stack| >= 2 && s.op == token
    requires ParseNumber(Resolved(c.taskMap, c.stack[|c.stack| - 2])) == Sentinel(s.left)
    requires ParseNumber(Resolved(c.taskMap, c.stack[|c.stack| - 1])) == Sentinel(s.right)
    ensures var taskId := TaskId(ctx.exprId, c.counter);
      Emit(ctx, c, token) == Compiler(c.stack[..|c.stack| - 2] + [ResultKey(taskId)],
                                      c.tasks + [TaskOf(ctx, c.counter, s)],
                                      c.taskMap[ResultKey(taskId) := taskId], c.counter + 1)
  {
  }

  lemma TasksAppend(ctx: Context, tasks: seq<Task>, steps: seq<Step>, s: Step)
    requires TasksMatch(ctx, tasks, steps)
    ensures TasksMatch(ctx, tasks + [TaskOf(ctx, |steps| + 1, s)], steps + [s])
  {
  }

  /** Adding a key to the task map keeps what the stack entries denote, and
      the key pushed denotes the new result. */
  lemma StackPush(taskMap: map<string, string>, key: string, v: string, stack: seq<string>,
                  operands: seq<Operand>, o: Operand)
    requires StackMatch(taskMap, stack, operands) && o.Earlier?
    ensures StackMatch(taskMap[key := v], stack + [key], operands + [o])
  {
  }

  lemma StackDrop(taskMap: map<string, string>, stack: seq<string>, operands: seq<Operand>, k: nat)
    requires StackMatch(taskMap, stack, operands) && k <= |stack|
    ensures StackMatch(taskMap, stack[..k], operands[..k])
  {
  }

  lemma MapExtended(taskMap: map<string, string>, key: string, v: string)
    requires MapSound(taskMap) && !IsNumeral(key) && ParseNumber(v) == 0.0
    ensures MapSound(taskMap[key := v])
  {
  }

  /** The compiler and the reference walk go step by step together. */
  lemma RelatedStep(ctx: Context, c: Compiler, p: Planner, token: string)
    requires Related(ctx, c, p)
    ensures CompileStep(ctx, c, token).Ok? <==> PlanStep(p, token).Ok?
    ensures CompileStep(ctx, c, token).Err? ==>
      CompileStep(ctx, c, token) == Err(InvalidExpression) && PlanStep(p, token) == Err(InvalidExpression)
    ensures CompileStep(ctx, c, token).Ok? ==> Related(ctx, CompileStep(ctx, c, token).value, PlanStep(p, token).value)
  {
    if IsNumeral(token) {
      var c' := CompileStep(ctx, c, token).value;
      var p' := PlanStep(p, token).value;
      assert c'.stack == c.stack + [token];
      assert forall i :: 0 <= i < |c.stack| ==> c'.stack[i] == c.stack[i] && p'.operands[i] == p.operands[i];
    } else if IsOperatorToken(token) && |c.stack| >= 2 {
      OperatorNotNumeral(token);
      RelatedOperator(ctx, c, p, token);
    }
  }

  lemma {:induction false} RelatedRun(ctx: Context, c: Compiler, p: Planner, rpn: seq<string>)
    requires Related(ctx, c, p)
    ensures CompileRun(ctx, c, rpn).Ok? <==> PlanRun(p, rpn).Ok?
    ensures CompileRun(ctx, c, rpn).Err? ==>
      CompileRun(ctx, c, rpn) == Err(InvalidExpression) && PlanRun(p, rpn) == Err(InvalidExpression)
    ensures CompileRun(ctx, c, rpn).Ok? ==> Related(ctx, CompileRun(ctx, c, rpn).value, PlanRun(p, rpn).value)
    decreases |rpn|
  {
    if rpn != [] {
      RelatedStep(ctx, c, p, rpn[0]);
      if CompileStep(ctx, c, rpn[0]).Ok? {
        RelatedRun(ctx, CompileStep(ctx, c, rpn[0]).value, PlanStep(p, rpn[0]).value, rpn[1..]);
      }
    }
  }

  // ---------------------------------------------------------------------
  // Properties of the data flow

  /** The number of operands an operator meets. */
  function Delta(t: string): int
  {
    if IsNumeral(t) then 1 else if IsOperatorToken(t) then -1 else 0
  }

  /** The net change of the operand stack over `ts`. */
  function Height(ts: seq<string>): int
  {
    if ts == [] then 0 else Delta(ts[0]) + Height(ts[1..])
  }

  /** Starting from `h` operands, every operator of `ts` meets at least
      two. */
  ghost predicate Enough(h: int, ts: seq<string>)
  {
    forall j :: 0 <= j < |ts| && IsOperatorToken(ts[j]) ==> h + Height(ts[..j]) >= 2
  }

  lemma EnoughCons(h: int, ts: seq<string>)
    requires ts != []
    ensures Enough(h, ts) <==> (IsOperatorToken(ts[0]) ==> h >= 2) && Enough(h + Delta(ts[0]), ts[1..])
  {
    assert ts[..0] == [];
    forall j | 1 <= j <= |ts|
      ensures Height(ts[..j]) == Delta(ts[0]) + Height(ts[1..][..j - 1])
    {
      assert ts[..j][0] == ts[0] && ts[..j][1..] == ts[1..][..j - 1];
    }
    if Enough(h + Delta(ts[0]), ts[1..]) && (IsOperatorToken(ts[0]) ==> h >= 2) {
      forall j | 0 <= j < |ts| && IsOperatorToken(ts[j]) ensures h + Height(ts[..j]) >= 2 {
        if j > 0 {
          assert ts[1..][j - 1] == ts[j];
        }
      }
    }
    if Enough(h, ts) {
      forall j | 0 <= j < |ts| - 1 && IsOperatorToken(ts[1..][j])
        ensures h + Delta(ts[0]) + Height(ts[1..][..j]) >= 2
      {
        assert ts[j + 1] == ts[1..][j];
      }
    }
  }

  /** The walk fails, always with InvalidExpression, exactly when some
      operator meets fewer than two operands. */
  lemma {:induction false} PlanRunSucceeds(p: Planner, rpn: seq<string>)
    ensures PlanRun(p, rpn).Ok? <==> Enough(|p.operands|, rpn)
    ensures PlanRun(p, rpn).Err? ==> PlanRun(p, rpn).error == InvalidExpression
    ensures PlanRun(p, rpn).Ok? ==> |PlanRun(p, rpn).value.operands| == |p.operands| + Height(rpn)
    decreases |rpn|
  {
    if rpn != [] {
      var t := rpn[0];
      EnoughCons(|p.operands|, rpn);
      if IsOperatorToken(t) {
        OperatorNotNumeral(t);
      }
      if PlanStep(p, t).Ok? {
        PlanRunSucceeds(PlanStep(p, t).value, rpn[1..]);
      }
    }
  }

  function StepOps(steps: seq<Step>): seq<string>
  {
    seq(|steps|, k requires 0 <= k < |steps| => steps[k].op)
  }

  /** Every operand that is an earlier result names a task already
      emitted: on the stack, one of the first |steps|; inside step `k`
      (0-based), one of the first k. */
  ghost predicate Backward(p: Planner)
  {
    && (forall i :: 0 <= i < |p.operands| && p.operands[i].Earlier? ==> 1 <= p.operands[i].index <= |p.steps|)
    && (forall k :: 0 <= k < |p.steps| && p.steps[k].left.Earlier? ==> 1 <= p.steps[k].left.index <= k)
    && (forall k :: 0 <= k < |p.steps| && p.steps[k].right.Earlier? ==> 1 <= p.steps[k].right.index <= k)
  }

  lemma BackwardStep(p: Planner, token: string)
    requires Backward(p) && PlanStep(p, token).Ok?
    ensures Backward(PlanStep(p, token).value)
    ensures StepOps(PlanStep(p, token).value.steps) == StepOps(p.steps) + (if IsOperatorToken(token) then [token] else [])
  {
    var q := PlanStep(p, token).value;
    if IsOperatorToken(token) {
      OperatorNotNumeral(token);
      assert q.steps == p.steps + [q.steps[|p.steps|]];
    } else {
      assert q.steps == p.steps;
    }
  }

  /** The steps are emitted in the order of the postfix operators, and
      each one only reads numbers and results of steps before it. */
  lemma {:induction false} BackwardRun(p: Planner, rpn: seq<string>)
    requires Backward(p) && PlanRun(p, rpn).Ok?
    ensures Backward(PlanRun(p, rpn).value)
    ensures StepOps(PlanRun(p, rpn).value.steps) == StepOps(p.steps) + Operators(rpn)
    decreases |rpn|
  {
    if rpn != [] {
      var t := rpn[0];
      BackwardStep(p, t);
      var q := PlanStep(p, t).value;
      BackwardRun(q, rpn[1..]);
      assert Operators(rpn) == (if IsOperatorToken(t) then [t] else []) + Operators(rpn[1..]);
    }
  }

  // ---------------------------------------------------------------------
  // What parseExpression guarantees

  /** Errors: a tokenizer or conversion error comes back unchanged, an
      operator with fewer than two operands under it is InvalidExpression.
      Otherwise the tasks are exactly the steps of the reference walk, the
      k-th with identifier exprId-k, its operands' sentinel values, and the
      priority of its operator plus that symbol's bracket level. */
  lemma CompilationPlan(expr: string, exprId: string, env: TimeSettings)
    ensures Tokenization(expr).Err? ==> Compilation(expr, exprId, env) == Err(Tokenization(expr).error)
    ensures Tokenization(expr).Ok? && Conversion(Tokenization(expr).value).Err? ==>
      Compilation(expr, exprId, env) == Err(Conversion(Tokenization(expr).value).error)
    ensures Tokenization(expr).Ok? && Conversion(Tokenization(expr).value).Ok? ==>
      var tokens := Tokenization(expr).value;
      var rpn := Conversion(tokens).value;
      var plan := PlanRun(Planner([], []), rpn);
      var ctx := Context(exprId, env, BracketLevels(tokens, rpn));
      && (Compilation(expr, exprId, env).Ok? <==> Enough(0, rpn))
      && (Compilation(expr, exprId, env).Err? ==> Compilation(expr, exprId, env) == Err(InvalidExpression))
      && (Compilation(expr, exprId, env).Ok? ==>
            var tasks := Compilation(expr, exprId, env).value;
            && plan.Ok?
            && |tasks| == |plan.value.steps|
            && forall k :: 0 <= k < |tasks| ==> tasks[k] == TaskOf(ctx, k + 1, plan.value.steps[k]))
  {
    if Tokenization(expr).Ok? && Conversion(Tokenization(expr).value).Ok? {
      var tokens := Tokenization(expr).value;
      var rpn := Conversion(tokens).value;
      var ctx := Context(exprId, env, BracketLevels(tokens, rpn));
      assert Related(ctx, Initial(), Planner([], []));
      RelatedRun(ctx, Initial(), Planner([], []), rpn);
      PlanRunSucceeds(Planner([], []), rpn);
    }
  }

  /** One task per postfix operator, numbered exprId-1, exprId-2, ... in
      emission order, all of expression exprId; the k-th carries the k-th
      operator, its operation time, and priority Priority(op) plus the
      depth at the last occurrence of that symbol in the infix tokens; its
      operands are numbers or results of tasks before it. */
  lemma CompiledTasks(expr: string, exprId: string, env: TimeSettings)
    requires Compilation(expr, exprId, env).Ok?
    ensures var tokens := Tokenization(expr).value;
      var rpn := Conversion(tokens).value;
      var tasks := Compilation(expr, exprId, env).value;
      && |tasks| == |Operators(rpn)|
      && forall k :: 0 <= k < |tasks| ==>
           var op := Operators(rpn)[k];
           && op in tokens
           && tasks[k].id == TaskId(exprId, k + 1)
           && tasks[k].expressionId == exprId
           && tasks[k].operation == op
           && tasks[k].operationTime == OperationTime(env, op)
           && tasks[k].priority == Priority(op) + LastDepth(tokens, op)
  {
    CompilationPlan(expr, exprId, env);
    var tokens := Tokenization(expr).value;
    var rpn := Conversion(tokens).value;
    var plan := PlanRun(Planner([], []), rpn).value;
    assert Backward(Planner([], []));
    BackwardRun(Planner([], []), rpn);
    assert StepOps([]) == [];
    ConversionFromInput(tokens);
    OperatorsIn(rpn);
    var tasks := Compilation(expr, exprId, env).value;
    forall k | 0 <= k < |tasks|
      ensures Operators(rpn)[k] in tokens
      ensures tasks[k].operation == Operators(rpn)[k]
      ensures tasks[k].priority == Priority(Operators(rpn)[k]) + LastDepth(tokens, Operators(rpn)[k])
    {
      var op := Operators(rpn)[k];
      assert StepOps(plan.steps)[k] == plan.steps[k].op;
      BracketLevelOfSymbol(tokens, rpn, op);
    }
  }

  /** Operator tokens are taken from the list, in order. */
  lemma {:induction false} OperatorsIn(ts: seq<string>)
    ensures forall k :: 0 <= k < |Operators(ts)| ==> Operators(ts)[k] in ts && IsOperatorToken(Operators(ts)[k])
  {
    if ts != [] {
      OperatorsIn(ts[1..]);
    }
  }

  /** The emitted tasks have pairwise different identifiers. */
  lemma CompiledIdsDistinct(expr: string, exprId: string, env: TimeSettings)
    requires Compilation(expr, exprId, env).Ok?
    ensures var tasks := Compilation(expr, exprId, env).value;
      forall i, j :: 0 <= i < j < |tasks| ==> tasks[i].id != tasks[j].id
  {
    CompiledTasks(expr, exprId, env);
    NumberedIdsDistinct(Compilation(expr, exprId, env).value, exprId);
  }

  lemma NumberedIdsDistinct(tasks: seq<Task>, exprId: string)
    requires forall k :: 0 <= k < |tasks| ==> tasks[k].id == TaskId(exprId, k + 1)
    ensures forall i, j :: 0 <= i < j < |tasks| ==> tasks[i].id != tasks[j].id
  {
    forall i, j | 0 <= i < j < |tasks| ensures tasks[i].id != tasks[j].id {
      if tasks[i].id == tasks[j].id {
        TaskIdInjective(exprId, i + 1, j + 1);
      }
    }
  }

  /** Two tasks with the same operator symbol get the same priority,
      whatever their own bracket depth. */
  lemma SameSymbolSamePriority(expr: string, exprId: string, env: TimeSettings, i: nat, j: nat)
    requires Compilation(expr, exprId, env).Ok?
    requires i < |Compilation(expr, exprId, env).value| && j < |Compilation(expr, exprId, env).value|
    requires Compilation(expr, exprId, env).value[i].operation == Compilation(expr, exprId, env).value[j].operation
    ensures Compilation(expr, exprId, env).value[i].priority == Compilation(expr, exprId, env).value[j].priority
  {
    CompiledTasks(expr, exprId, env);
  }

  /** The operands of every task are numbers of the expression or results
      of tasks emitted before it. */
  lemma CompiledOperandsBackward(expr: string, exprId: string, env: TimeSettings)
    requires Compilation(expr, exprId, env).Ok?
    ensures var plan := PlanRun(Planner([], []), Conversion(Tokenization(expr).value).value);
      && plan.Ok?
      && forall k :: 0 <= k < |plan.value.steps| ==>
           (plan.value.steps[k].left.Earlier? ==> 1 <= plan.value.steps[k].left.index <= k)
           && (plan.value.steps[k].right.Earlier? ==> 1 <= plan.value.steps[k].right.index <= k)
  {
    CompilationPlan(expr, exprId, env);
    var rpn := Conversion(Tokenization(expr).value).value;
    assert Backward(Planner([], []));
    BackwardRun(Planner([], []), rpn);
  }
}
