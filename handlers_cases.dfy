/** The parseExpression case of
    internal/orchestrator/handlers/handler_test.go, stated on the model:
    "1 + 2" under expression id "1" becomes the single task "1-1". */
module HandlerCases {
  import opened Errors
  import opened Strconv
  import opened Calculator
  import opened Rpn
  import opened TaskCompiler
  import CalcCases
  import RpnCases

  /** The "+" of "1 + 2" is outside every bracket. */
  lemma SumLevels(tokens: seq<string>, rpn: seq<string>)
    requires tokens == ["1", "+", "2"] && rpn == ["1", "2", "+"]
    ensures Lookup(BracketLevels(tokens, rpn), "+") == 0
  {
    assert tokens[1] == "+" && rpn[2] == "+";
    BracketLevelOfSymbol(tokens, rpn, "+");
    assert LastIndex(tokens, "+") == 1;
    assert tokens[..1] == ["1"];
    assert multiset(tokens[..1]) == multiset{"1"};
  }

  /** "+" over "1" and "2" emits the task "1-1" and pushes its result key. */
  lemma SumEmit(ctx: Context, st: Compiler, after: Compiler)
    requires ctx.exprId == "1" && Lookup(ctx.levels, "+") == 0
    requires st == Compiler(["1", "2"], [], map[], 1)
    requires after == Compiler(["task-1-1"], [Task("1-1", 1.0, 2.0, "+", OperationTime(ctx.env, "+"), "1", 1)],
                               map["task-1-1" := "1-1"], 2)
    ensures CompileStep(ctx, st, "+") == Ok(after)
  {
    ParseFloatDigit('1');
    ParseFloatDigit('2');
    ParseFloatSymbol('+');
    assert FormatInt(1) == "1";
    assert TaskId("1", 1) == "1-1";
    assert ResultKey("1-1") == "task-1-1";
    assert ParseNumber("1") == 1.0 && ParseNumber("2") == 2.0;
    assert Emit(ctx, st, "+") == after;
  }

  /** The walk over "1 2 +": two pushes, then one task. */
  lemma SumWalk(ctx: Context, rpn: seq<string>)
    requires ctx.exprId == "1" && Lookup(ctx.levels, "+") == 0
    requires rpn == ["1", "2", "+"]
    ensures CompileRun(ctx, Initial(), rpn)
         == Ok(Compiler(["task-1-1"], [Task("1-1", 1.0, 2.0, "+", OperationTime(ctx.env, "+"), "1", 1)],
                        map["task-1-1" := "1-1"], 2))
  {
    assert rpn[0..] == rpn;
    ParseFloatDigit('1');
    ParseFloatDigit('2');
    var c0 := Initial();
    var c1 := Compiler(["1"], [], map[], 1);
    assert c0.(stack := c0.stack + ["1"]) == c1;
    assert CompileStep(ctx, c0, "1") == Ok(c1);
    CompileAdvance(ctx, c0, rpn, 0, c1);
    var c2 := Compiler(["1", "2"], [], map[], 1);
    assert c1.(stack := c1.stack + ["2"]) == c2;
    assert CompileStep(ctx, c1, "2") == Ok(c2);
    CompileAdvance(ctx, c1, rpn, 1, c2);
    var c3 := Compiler(["task-1-1"], [Task("1-1", 1.0, 2.0, "+", OperationTime(ctx.env, "+"), "1", 1)],
                       map["task-1-1" := "1-1"], 2);
    SumEmit(ctx, c2, c3);
    CompileAdvance(ctx, c2, rpn, 2, c3);
    assert rpn[3..] == [];
  }

  /** parseExpression("1 + 2", "1") gives the task "1-1" = 1 + 2 at
      priority 1. */
  lemma ParseExpressionCase(expr: string, env: TimeSettings)
    requires expr == "1 + 2"
    ensures Compilation(expr, "1", env) == Ok([Task("1-1", 1.0, 2.0, "+", OperationTime(env, "+"), "1", 1)])
  {
    var tokens, rpn := ["1", "+", "2"], ["1", "2", "+"];
    CalcCases.SumTokenize(expr);
    RpnCases.SumCase(tokens);
    SumLevels(tokens, rpn);
    SumWalk(Context("1", env, BracketLevels(tokens, rpn)), rpn);
  }
}
