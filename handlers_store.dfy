/** internal/orchestrator/handlers/handlers.go, lines 17-77 and 141-224:
    the orchestrator's two maps, of expressions and of pending tasks, and
    what the calculate and task handlers do to them. In the source every
    step below runs under one mutex; here each is a single method. */
module TaskStore {
  import opened Errors
  import opened Strings
  import opened Strconv
  import opened TaskCompiler

  datatype Status = Pending | Done

  /** An expression submitted by a client, with its status and result. */
  datatype Expression = Expression(id: string, expr: string, status: Status, result: real)

  /** tasks[task.ID] = task for every task of the list, in order. */
  function AddAll(m: map<string, Task>, list: seq<Task>): (r: map<string, Task>)
    ensures m.Keys <= r.Keys
    ensures forall k :: 0 <= k < |list| ==> list[k].id in r
    ensures list != [] ==> r[list[|list| - 1].id] == list[|list| - 1]
  {
    if list == [] then m
    else
      var last := list[|list| - 1];
      AddAll(m, list[..|list| - 1])[last.id := last]
  }

  predicate DistinctIds(list: seq<Task>)
  {
    forall i, j :: 0 <= i < j < |list| ==> list[i].id != list[j].id
  }

  /** Registering a list of tasks with distinct identifiers stores each
      task under its identifier. */
  lemma {:induction false} AddAllStores(m: map<string, Task>, list: seq<Task>)
    requires DistinctIds(list)
    ensures forall k :: 0 <= k < |list| ==> list[k].id in AddAll(m, list) && AddAll(m, list)[list[k].id] == list[k]
  {
    if list != [] {
      var init := list[..|list| - 1];
      assert DistinctIds(init);
      AddAllStores(m, init);
      forall k | 0 <= k < |init| ensures init[k] == list[k] && init[k].id != list[|list| - 1].id {
      }
    }
  }

  /** The keys after registering are the old keys and the new ids. */
  lemma {:induction false} AddAllKeySet(m: map<string, Task>, list: seq<Task>)
    ensures forall key :: key in AddAll(m, list) <==> key in m || exists k :: 0 <= k < |list| && list[k].id == key
  {
    if list != [] {
      var init := list[..|list| - 1];
      AddAllKeySet(m, init);
      forall key | key in m || exists k :: 0 <= k < |list| && list[k].id == key
        ensures key in AddAll(m, list)
      {
        if key !in m {
          var k :| 0 <= k < |list| && list[k].id == key;
          if k < |list| - 1 {
            assert init[k].id == key;
          }
        }
      }
      forall key | key in AddAll(m, list) && key !in m
        ensures exists k :: 0 <= k < |list| && list[k].id == key
      {
        if key != list[|list| - 1].id {
          var k :| 0 <= k < |init| && init[k].id == key;
          assert list[k].id == key;
        }
      }
    }
  }

  /** An entry whose key is no id of the list is left as it was. */
  lemma {:induction false} AddAllKeeps(m: map<string, Task>, list: seq<Task>, key: string)
    requires key in m && forall k :: 0 <= k < |list| ==> list[k].id != key
    ensures key in AddAll(m, list) && AddAll(m, list)[key] == m[key]
  {
    if list != [] {
      var init := list[..|list| - 1];
      assert forall k :: 0 <= k < |init| ==> init[k].id == list[k].id;
      AddAllKeeps(m, init, key);
    }
  }

  /** One argument of updateTaskArgs: a 0 in a task whose expression id is
      a prefix of the task id that reported is replaced by the result. */
  function FillArgs(t: Task, taskId: string, result: real): (r: Task)
    ensures r.(arg1 := t.arg1, arg2 := t.arg2) == t
    ensures !HasPrefix(taskId, t.expressionId) ==> r == t
    ensures t.arg1 != 0.0 ==> r.arg1 == t.arg1
    ensures t.arg2 != 0.0 ==> r.arg2 == t.arg2
  {
    t.(arg1 := if t.arg1 == 0.0 && HasPrefix(taskId, t.expressionId) then result else t.arg1,
       arg2 := if t.arg2 == 0.0 && HasPrefix(taskId, t.expressionId) then result else t.arg2)
  }

  /** What updateTaskArgs makes of the task map. */
  function FillAll(m: map<string, Task>, taskId: string, result: real): (r: map<string, Task>)
    ensures r.Keys == m.Keys
    ensures forall k :: k in m && !HasPrefix(taskId, m[k].expressionId) ==> r[k] == m[k]
    ensures forall k :: k in m ==> r[k].id == m[k].id && r[k].expressionId == m[k].expressionId
  {
    map k | k in m :: FillArgs(m[k], taskId, result)
  }

  /** In a task whose expression id is a prefix of the reporting task's
      id, every zero argument becomes the result; together with FillArgs'
      own contract this determines the filled task. */
  lemma FillArgsEffect(t: Task, taskId: string, result: real)
    ensures HasPrefix(taskId, t.expressionId) && t.arg1 == 0.0 ==> FillArgs(t, taskId, result).arg1 == result
    ensures HasPrefix(taskId, t.expressionId) && t.arg2 == 0.0 ==> FillArgs(t, taskId, result).arg2 == result
    ensures HasPrefix(taskId, t.expressionId) && result != 0.0 ==>
      FillArgs(t, taskId, result).arg1 != 0.0 && FillArgs(t, taskId, result).arg2 != 0.0
  {
  }

  /** Reporting the same result twice changes nothing the second time. */
  lemma FillArgsIdempotent(t: Task, taskId: string, result: real)
    ensures FillArgs(FillArgs(t, taskId, result), taskId, result) == FillArgs(t, taskId, result)
  {
  }

  /** One result fills every zero slot of a matching task: a task waiting
      for two earlier results gets the first of them in both places. */
  lemma FirstResultFillsBoth(t: Task, taskId: string, first: real, second: real)
    requires t.arg1 == 0.0 && t.arg2 == 0.0 && HasPrefix(taskId, t.expressionId)
    requires first != 0.0
    ensures FillArgs(FillArgs(t, taskId, first), taskId, second).arg1 == first
    ensures FillArgs(FillArgs(t, taskId, first), taskId, second).arg2 == first
  {
  }

  /** The match is by prefix, not by expression: a result of task "10-1"
      also fills the zero operands of a task of expression "1". */
  lemma PrefixCrossesExpressions()
    ensures FillArgs(Task("1-2", 0.0, 3.0, "*", 200, "1", 2), "10-1", 5.0).arg1 == 5.0
  {
    assert HasPrefix("10-1", "1") by {
      assert "10-1"[..1] == "1";
    }
  }

  /** A literal 0 operand and a result still to come are the same value,
      so a reported result overwrites a literal 0 too. */
  lemma LiteralZeroIsSentinel(exprId: string, n: nat)
    ensures ParseNumber("0") == ParseNumber(TaskId(exprId, n)) == 0.0
  {
    EarlierResultIsZero(exprId, n);
    assert IsNumeral("0") by {
      assert DigitCount("0") == 1 by {
        assert "0"[1..] == [];
      }
      assert DotCount("0") == 0 by {
        assert "0"[1..] == [];
      }
    }
    assert DotIndex("0") == 1;
    assert "0"[..1] == "0";
    assert DigitsValue("0") == 10 * DigitsValue([]) + 0 by {
      assert "0"[..0] == [];
    }
  }

  /** The update of the handler test: the first result of expression "1"
      fills the zero operand of its second task. */
  lemma UpdateArgsCase()
    ensures var tasks := map[
        "1-1" := Task("1-1", 0.0, 2.0, "+", 0, "1", 1),
        "1-2" := Task("1-2", 0.0, 3.0, "*", 0, "1", 2)];
      FillAll(tasks, "1-1", 3.0)["1-2"].arg1 == 3.0
  {
    assert HasPrefix("1-1", "1") by {
      assert "1-1"[..1] == "1";
    }
  }

  /** No pending task belongs to the expression. */
  predicate NoTaskOf(m: map<string, Task>, exprId: string)
  {
    forall k :: k in m ==> m[k].expressionId != exprId
  }

  /** The selection loop of the task handler (lines 146-151). The map's
      iteration order is unspecified, so each round picks any key not yet
      visited; a task replaces the current choice only with a strictly
      higher priority. */
  method SelectMax(m: map<string, Task>) returns (best: Option<Task>)
    ensures best.None? <==> m == map[]
    ensures best.Some? ==> best.value in m.Values
    ensures best.Some? ==> forall k :: k in m ==> m[k].priority <= best.value.priority
  {
    best := None;
    var remaining := m.Keys;
    while remaining != {}
      invariant remaining <= m.Keys
      invariant best.None? <==> remaining == m.Keys
      invariant best.Some? ==> best.value in m.Values
      invariant best.Some? ==> forall k :: k in m.Keys - remaining ==> m[k].priority <= best.value.priority
      decreases remaining
    {
      var k :| k in remaining;
      if best.None? || m[k].priority > best.value.priority {
        best := Some(m[k]);
      }
      remaining := remaining - {k};
    }
    if best.None? {
      assert m.Keys == {};
    }
  }

  /** The loop of lines 198-204. */
  method AllTasksDone(m: map<string, Task>, exprId: string) returns (done: bool)
    ensures done <==> NoTaskOf(m, exprId)
  {
    done := true;
    var remaining := m.Keys;
    while remaining != {}
      invariant remaining <= m.Keys
      invariant forall k :: k in m.Keys - remaining ==> m[k].expressionId != exprId
      decreases remaining
    {
      var k :| k in remaining;
      if m[k].expressionId == exprId {
        done := false;
        break;
      }
      remaining := remaining - {k};
    }
  }

  /** The orchestrator's state: the `expressions` and `tasks` maps. */
  class Store {
    var expressions: map<string, Expression>
    var tasks: map<string, Task>

    /** Every entry is stored under its own id, and every task belongs to a
        known expression. */
    ghost predicate Valid()
      reads this
    {
      && (forall k :: k in expressions ==> expressions[k].id == k)
      && (forall k :: k in tasks ==> tasks[k].id == k && tasks[k].expressionId in expressions)
    }

    constructor()
      ensures expressions == map[] && tasks == map[]
      ensures Valid()
    {
      expressions := map[];
      tasks := map[];
    }

    /** The store steps of HandleCalculate (lines 52-73): the expression is
        registered as pending first; if it does not compile, the error is
        returned and it stays pending with no task; otherwise every task is
        added under its id. `id` is the handler's time-based identifier. */
    method Submit(expression: string, id: string, env: TimeSettings) returns (r: Result<string>)
      modifies this
      ensures expressions == old(expressions)[id := Expression(id, expression, Pending, 0.0)]
      ensures Compilation(expression, id, env).Err? ==>
        r == Err(Compilation(expression, id, env).error) && tasks == old(tasks)
      ensures Compilation(expression, id, env).Ok? ==>
        r == Ok(id) && tasks == AddAll(old(tasks), Compilation(expression, id, env).value)
      ensures Compilation(expression, id, env).Ok? ==>
        forall t :: t in Compilation(expression, id, env).value ==> t.id in tasks && tasks[t.id] == t
      ensures old(Valid()) ==> Valid()
    {
      expressions := expressions[id := Expression(id, expression, Pending, 0.0)];
      var tasksList := ParseExpression(expression, id, env);
      if tasksList.Err? {
        return Err(tasksList.error);
      }
      ghost var before := tasks;
      for i := 0 to |tasksList.value|
        invariant tasks == AddAll(before, tasksList.value[..i])
        invariant expressions == old(expressions)[id := Expression(id, expression, Pending, 0.0)]
      {
        var task := tasksList.value[i];
        assert tasksList.value[..i + 1][..i] == tasksList.value[..i];
        tasks := tasks[task.id := task];
      }
      assert tasksList.value[..|tasksList.value|] == tasksList.value;
      CompiledIdsDistinct(expression, id, env);
      AddAllStores(before, tasksList.value);
      if old(Valid()) {
        SubmitValid(old(expressions), before, expression, id, env);
      }
      return Ok(id);
    }

    /** GET on the task handler (lines 146-173): a task of highest priority
        is handed out and removed; with no task, NoTasksAvailable and
        nothing changes. The task is removed under its own id field. */
    method NextTask() returns (r: Result<Task>)
      modifies this
      ensures expressions == old(expressions)
      ensures old(tasks) == map[] ==> r == Err(NoTasksAvailable) && tasks == old(tasks)
      ensures old(tasks) != map[] ==>
        && r.Ok?
        && r.value in old(tasks).Values
        && (forall k :: k in old(tasks) ==> old(tasks)[k].priority <= r.value.priority)
        && tasks == old(tasks) - {r.value.id}
      ensures old(Valid()) ==> Valid() && (r.Ok? ==> r.value.id in old(tasks) && old(tasks)[r.value.id] == r.value)
    {
      var nextTask := SelectMax(tasks);
      if nextTask.None? {
        return Err(NoTasksAvailable);
      }
      tasks := tasks - {nextTask.value.id};
      return Ok(nextTask.value);
    }

    /** updateTaskArgs (lines 215-224): every task of the map is visited in
        an unspecified order and its zero arguments filled. */
    method UpdateTaskArgs(taskId: string, result: real)
      modifies this
      ensures tasks == FillAll(old(tasks), taskId, result)
      ensures expressions == old(expressions)
    {
      ghost var original := tasks;
      var remaining := tasks.Keys;
      while remaining != {}
        invariant remaining <= original.Keys
        invariant tasks.Keys == original.Keys
        invariant expressions == old(expressions)
        invariant forall k :: k in remaining ==> tasks[k] == original[k]
        invariant forall k :: k in original.Keys - remaining ==> tasks[k] == FillArgs(original[k], taskId, result)
        decreases remaining
      {
        var k :| k in remaining;
        var task := tasks[k];
        if task.arg1 == 0.0 && HasPrefix(taskId, task.expressionId) {
          task := task.(arg1 := result);
        }
        if task.arg2 == 0.0 && HasPrefix(taskId, task.expressionId) {
          task := task.(arg2 := result);
        }
        tasks := tasks[k := task];
        remaining := remaining - {k};
      }
      assert tasks == FillAll(original, taskId, result);
    }

    /** POST on the task handler (lines 187-209): the expression id is the
        reporting task's id up to its first '-'. An unknown expression is
        ExpressionNotFound and nothing changes. Otherwise the zero operands
        are filled, and the expression becomes done with this result
        exactly when no task of it is left; the returned flag says which. */
    method ApplyResult(taskId: string, result: real) returns (r: Result<bool>)
      modifies this
      ensures var exprId := BeforeFirst(taskId, '-');
        && (exprId !in old(expressions) ==>
              r == Err(ExpressionNotFound) && tasks == old(tasks) && expressions == old(expressions))
        && (exprId in old(expressions) ==>
              && tasks == FillAll(old(tasks), taskId, result)
              && r == Ok(NoTaskOf(tasks, exprId))
              && expressions == if NoTaskOf(tasks, exprId)
                                then old(expressions)[exprId := old(expressions)[exprId].(status := Done, result := result)]
                                else old(expressions))
      ensures old(Valid()) ==> Valid()
    {
      var exprId := BeforeFirst(taskId, '-');
      if exprId !in expressions {
        return Err(ExpressionNotFound);
      }
      UpdateTaskArgs(taskId, result);
      var allTasksDone := AllTasksDone(tasks, exprId);
      if allTasksDone {
        var expr := expressions[exprId];
        expressions := expressions[exprId := expr.(status := Done, result := result)];
      }
      return Ok(allTasksDone);
    }
  }

  /** Registering an expression and its compiled tasks keeps the store
      valid. */
  lemma SubmitValid(expressions: map<string, Expression>, tasks: map<string, Task>,
                    expression: string, id: string, env: TimeSettings)
    requires forall k :: k in expressions ==> expressions[k].id == k
    requires forall k :: k in tasks ==> tasks[k].id == k && tasks[k].expressionId in expressions
    requires Compilation(expression, id, env).Ok?
    ensures var exprs := expressions[id := Expression(id, expression, Pending, 0.0)];
      var all := AddAll(tasks, Compilation(expression, id, env).value);
      forall k :: k in all ==> all[k].id == k && all[k].expressionId in exprs
  {
    var list := Compilation(expression, id, env).value;
    CompiledTasks(expression, id, env);
    AddAllKeys(tasks, list);
  }

  /** Every entry AddAll makes is stored under its id field and is either an
      old entry or one of the list. */
  lemma {:induction false} AddAllKeys(m: map<string, Task>, list: seq<Task>)
    ensures forall key :: key in AddAll(m, list) ==>
      (key in m && AddAll(m, list)[key] == m[key]) || (AddAll(m, list)[key] in list && AddAll(m, list)[key].id == key)
  {
    if list != [] {
      AddAllKeys(m, list[..|list| - 1]);
    }
  }
}
