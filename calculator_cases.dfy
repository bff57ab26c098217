/** The evaluator's part of the cases of pkg/calculator/calculator_test.go:
    what Evaluate returns on the tokens of each TestCalc input, and on the
    postfix input of TestEvaluate, proved by tracing the stacks token by
    token. CalcCases states the TestCalc rows on the strings. */
module CalculatorCases {
  import opened Errors
  import opened Strings
  import opened Strconv
  import opened Calculator
  import opened Rpn
  import EvaluatorLaws

  /** A one-digit token is pushed onto the number stack. */
  lemma NumberStep(st: Stacks, c: char, after: Stacks)
    requires IsDigit(c)
    requires after.numbers == st.numbers + [(c as int - '0' as int) as real] && after.operators == st.operators
    ensures EvalStep(st, [c]) == Ok(after)
  {
    ParseFloatDigit(c);
  }

  /** An operator that meets an operator of higher or equal priority
      first reduces once. */
  lemma NotLowerOnce(st: Stacks, token: string, mid: Stacks)
    requires |st.operators| > 0 && Priority(token) <= Priority(st.operators[|st.operators| - 1])
    requires ReduceTop(st, true) == Ok(mid)
    requires mid.operators == [] || Priority(token) > Priority(mid.operators[|mid.operators| - 1])
    ensures ReduceNotLower(st, token) == Ok(mid)
  {
  }

  lemma OperatorStep(st: Stacks, c: char, mid: Stacks, after: Stacks)
    requires IsOperator(c) && ReduceNotLower(st, [c]) == Ok(mid)
    requires after.numbers == mid.numbers && after.operators == mid.operators + [[c]]
    ensures EvalStep(st, [c]) == Ok(after)
  {
    ParseFloatSymbol(c);
  }

  /** ")" reduces once down to a "(" and drops it. */
  lemma CloseStep(st: Stacks, mid: Stacks, after: Stacks)
    requires |st.operators| > 0 && st.operators[|st.operators| - 1] != "("
    requires ReduceTop(st, false) == Ok(mid)
    requires |mid.operators| > 0 && mid.operators[|mid.operators| - 1] == "("
    requires after.numbers == mid.numbers && after.operators == mid.operators[..|mid.operators| - 1]
    ensures EvalStep(st, ")") == Ok(after)
  {
    ParseFloatSymbol(')');
    assert ReduceToOpen(mid) == Ok(mid);
  }

  /** The main loop over two consecutive stretches of tokens. */
  lemma {:induction false} EvalRunAppend(st: Stacks, a: seq<string>, b: seq<string>, mid: Stacks)
    requires EvalRun(st, a) == Ok(mid)
    ensures EvalRun(st, a + b) == EvalRun(mid, b)
    decreases |a|
  {
    if a == [] {
      assert a + b == b;
    } else {
      assert (a + b)[0] == a[0] && (a + b)[1..] == a[1..] + b;
      var next := EvalStep(st, a[0]).value;
      EvalRunAppend(next, a[1..], b, mid);
    }
  }

  /** An operator that meets a single operation of higher or equal
      priority reduces it and is then pushed. */
  lemma ReduceThenPush(a: real, b: real, op: string, c: char, v: real)
    requires IsOperator(c) && Priority([c]) <= Priority(op) && Resolve(a, b, op) == Ok(v)
    ensures EvalStep(Stacks([a, b], [op]), [c]) == Ok(Stacks([v], [[c]]))
  {
    var st, mid := Stacks([a, b], [op]), Stacks([v], []);
    ReduceStep(st, true, v, mid);
    NotLowerOnce(st, [c], mid);
    OperatorStep(st, c, mid, Stacks([v], [[c]]));
  }

  /** "2 * 3 +": the "+" reduces 2 * 3 before it is pushed. */
  lemma PrecedenceHead(tokens: seq<string>)
    requires tokens == ["2", "*", "3", "+"]
    ensures EvalRun(Stacks([], []), tokens) == Ok(Stacks([6.0], ["+"]))
  {
    var s0 := Stacks([], []);
    assert tokens[0..] == tokens;
    var s1 := Stacks([2.0], []);
    NumberStep(s0, '2', s1);
    EvalAdvance(s0, tokens, 0, s1);
    var s2 := Stacks([2.0], ["*"]);
    PushStep(s1, '*', s2);
    EvalAdvance(s1, tokens, 1, s2);
    var s3 := Stacks([2.0, 3.0], ["*"]);
    NumberStep(s2, '3', s3);
    EvalAdvance(s2, tokens, 2, s3);
    var s4 := Stacks([6.0], ["+"]);
    ReduceThenPush(2.0, 3.0, "*", '+', 6.0);
    EvalAdvance(s3, tokens, 3, s4);
    assert tokens[4..] == [];
  }

  /** "2 - 3 +": the "+" reduces 2 - 3 before it is pushed. */
  lemma DifferenceHead(tokens: seq<string>)
    requires tokens == ["2", "-", "3", "+"]
    ensures EvalRun(Stacks([], []), tokens) == Ok(Stacks([-1.0], ["+"]))
  {
    var s0 := Stacks([], []);
    assert tokens[0..] == tokens;
    var s1 := Stacks([2.0], []);
    NumberStep(s0, '2', s1);
    EvalAdvance(s0, tokens, 0, s1);
    var s2 := Stacks([2.0], ["-"]);
    PushStep(s1, '-', s2);
    EvalAdvance(s1, tokens, 1, s2);
    var s3 := Stacks([2.0, 3.0], ["-"]);
    NumberStep(s2, '3', s3);
    EvalAdvance(s2, tokens, 2, s3);
    var s4 := Stacks([-1.0], ["+"]);
    ReduceThenPush(2.0, 3.0, "-", '+', -1.0);
    EvalAdvance(s3, tokens, 3, s4);
    assert tokens[4..] == [];
  }

  /** "4 * (2" after a pending sum: everything is pushed. */
  lemma PrecedenceMiddle(tokens: seq<string>, x: real)
    requires tokens == ["4", "*", "(", "2"]
    ensures EvalRun(Stacks([x], ["+"]), tokens)
         == Ok(Stacks([x, 4.0, 2.0], ["+", "*", "("]))
  {
    var s4 := Stacks([x], ["+"]);
    assert tokens[0..] == tokens;
    var s5 := Stacks([x, 4.0], ["+"]);
    NumberStep(s4, '4', s5);
    EvalAdvance(s4, tokens, 0, s5);
    var s6 := Stacks([x, 4.0], ["+", "*"]);
    PushStep(s5, '*', s6);
    EvalAdvance(s5, tokens, 1, s6);
    var s7 := Stacks([x, 4.0], ["+", "*", "("]);
    PushStep(s6, '(', s7);
    EvalAdvance(s6, tokens, 2, s7);
    var s8 := Stacks([x, 4.0, 2.0], ["+", "*", "("]);
    NumberStep(s7, '2', s8);
    EvalAdvance(s7, tokens, 3, s8);
    assert tokens[4..] == [];
  }

  /** ")" after "(2 - 1" reduces the difference and drops the "(". */
  lemma CloseAfterDifference(st: Stacks, x: real, after: Stacks)
    requires st == Stacks([x, 4.0, 2.0, 1.0], ["+", "*", "(", "-"])
    requires after == Stacks([x, 4.0, 1.0], ["+", "*"])
    ensures EvalStep(st, ")") == Ok(after)
  {
    var mid := Stacks([x, 4.0, 1.0], ["+", "*", "("]);
    ReduceStep(st, false, 1.0, mid);
    CloseStep(st, mid, after);
  }

  /** "- 1)": ")" reduces 2 - 1 and drops the "(". */
  lemma PrecedenceTail(tokens: seq<string>, x: real)
    requires tokens == ["-", "1", ")"]
    ensures EvalRun(Stacks([x, 4.0, 2.0], ["+", "*", "("]), tokens)
         == Ok(Stacks([x, 4.0, 1.0], ["+", "*"]))
  {
    var s8 := Stacks([x, 4.0, 2.0], ["+", "*", "("]);
    assert tokens[0..] == tokens;
    var s9 := Stacks([x, 4.0, 2.0], ["+", "*", "(", "-"]);
    PushStep(s8, '-', s9);
    EvalAdvance(s8, tokens, 0, s9);
    var s10 := Stacks([x, 4.0, 2.0, 1.0], ["+", "*", "(", "-"]);
    NumberStep(s9, '1', s10);
    EvalAdvance(s9, tokens, 1, s10);
    var s11 := Stacks([x, 4.0, 1.0], ["+", "*"]);
    CloseAfterDifference(s10, x, s11);
    EvalAdvance(s10, tokens, 2, s11);
    assert tokens[3..] == [];
  }

  /** "+ 4 * (2 - 1)" after a number x: the loop leaves x + 4 * 1 pending. */
  lemma ProductTail(tokens: seq<string>, x: real)
    requires tokens == ["4", "*", "(", "2", "-", "1", ")"]
    ensures EvalRun(Stacks([x], ["+"]), tokens) == Ok(Stacks([x, 4.0, 1.0], ["+", "*"]))
  {
    var middle, tail := ["4", "*", "(", "2"], ["-", "1", ")"];
    assert tokens == middle + tail;
    PrecedenceMiddle(middle, x);
    PrecedenceTail(tail, x);
    EvalRunAppend(Stacks([x], ["+"]), middle, tail, Stacks([x, 4.0, 2.0], ["+", "*", "("]));
  }

  /** The drain: 4 * 1, then x + 4. */
  lemma SumDrain(x: real)
    ensures ReduceAll(Stacks([x, 4.0, 1.0], ["+", "*"])) == Ok(Stacks([x + 4.0], []))
  {
    var st := Stacks([x, 4.0, 1.0], ["+", "*"]);
    var d := Stacks([x, 4.0], ["+"]);
    ReduceStep(st, true, 4.0, d);
    ReduceStep(d, true, x + 4.0, Stacks([x + 4.0], []));
    assert ReduceAll(Stacks([x + 4.0], [])) == Ok(Stacks([x + 4.0], []));
  }

  /** "2 * 3 + 4 * (2 - 1)" is 10: the "+" reduces the product first, and
      the drain computes 4 * 1 and then 6 + 4. */
  lemma PrecedenceCase(tokens: seq<string>)
    requires tokens == ["2", "*", "3", "+", "4", "*", "(", "2", "-", "1", ")"]
    ensures Evaluation(tokens) == Ok(10.0)
  {
    var head, tail := ["2", "*", "3", "+"], ["4", "*", "(", "2", "-", "1", ")"];
    assert tokens == head + tail;
    PrecedenceHead(head);
    ProductTail(tail, 6.0);
    EvalRunAppend(Stacks([], []), head, tail, Stacks([6.0], ["+"]));
    SumDrain(6.0);
  }

  /** "2 - 3 + 4 * (2 - 1)" is 3: "+" reduces 2 - 3 first, as operators of
      equal priority associate to the left. */
  lemma DifferenceCase(tokens: seq<string>)
    requires tokens == ["2", "-", "3", "+", "4", "*", "(", "2", "-", "1", ")"]
    ensures Evaluation(tokens) == Ok(3.0)
  {
    var head, tail := ["2", "-", "3", "+"], ["4", "*", "(", "2", "-", "1", ")"];
    assert tokens == head + tail;
    DifferenceHead(head);
    ProductTail(tail, -1.0);
    EvalRunAppend(Stacks([], []), head, tail, Stacks([-1.0], ["+"]));
    SumDrain(-1.0);
  }

  /** "1.2 + 1 *": "*" outranks "+" and is pushed over it. */
  lemma DecimalHead(tokens: seq<string>)
    requires tokens == ["1.2", "+", "1", "*"]
    ensures EvalRun(Stacks([], []), tokens) == Ok(Stacks([1.2, 1.0], ["+", "*"]))
  {
    var first, second := ["1.2", "+"], ["1", "*"];
    assert tokens == first + second;
    DecimalSum(first);
    DecimalProduct(second);
    EvalRunAppend(Stacks([], []), first, second, Stacks([1.2], ["+"]));
  }

  /** "1.2 +": the number is pushed, then "+" over an empty operator stack. */
  lemma DecimalSum(tokens: seq<string>)
    requires tokens == ["1.2", "+"]
    ensures EvalRun(Stacks([], []), tokens) == Ok(Stacks([1.2], ["+"]))
  {
    var s0, s1, s2 := Stacks([], []), Stacks([1.2], []), Stacks([1.2], ["+"]);
    assert tokens[0..] == tokens;
    DecimalFirst(s1);
    EvalAdvance(s0, tokens, 0, s1);
    PushStep(s1, '+', s2);
    EvalAdvance(s1, tokens, 1, s2);
    assert tokens[2..] == [];
  }

  /** "1 *": the number is pushed, then "*" over "+". */
  lemma DecimalProduct(tokens: seq<string>)
    requires tokens == ["1", "*"]
    ensures EvalRun(Stacks([1.2], ["+"]), tokens) == Ok(Stacks([1.2, 1.0], ["+", "*"]))
  {
    var s2, s3, s4 := Stacks([1.2], ["+"]), Stacks([1.2, 1.0], ["+"]), Stacks([1.2, 1.0], ["+", "*"]);
    assert tokens[0..] == tokens;
    NumberStep(s2, '1', s3);
    EvalAdvance(s2, tokens, 0, s3);
    PushStep(s3, '*', s4);
    EvalAdvance(s3, tokens, 1, s4);
    assert tokens[2..] == [];
  }

  /** "1.2" is pushed as the number 1.2. */
  lemma DecimalFirst(after: Stacks)
    requires after == Stacks([1.2], [])
    ensures EvalStep(Stacks([], []), "1.2") == Ok(after)
  {
    ParseFloatOneDecimal('1', '2');
    EvaluatorLaws.NumeralStep(Stacks([], []), "1.2", 1.2, after);
  }

  /** The drain: 1 * 3, then 1.2 + 3. */
  lemma DecimalDrain(st: Stacks)
    requires st == Stacks([1.2, 1.0, 3.0], ["+", "*"])
    ensures ReduceAll(st) == Ok(Stacks([4.2], []))
  {
    var d := Stacks([1.2, 3.0], ["+"]);
    ReduceStep(st, true, 3.0, d);
    ReduceStep(d, true, 4.2, Stacks([4.2], []));
    assert ReduceAll(Stacks([4.2], [])) == Ok(Stacks([4.2], []));
  }

  /** "(2 + 1)": inside the bracket "+" is pushed over "(", and ")"
      reduces it to 3. */
  lemma DecimalTail(tokens: seq<string>)
    requires tokens == ["(", "2", "+", "1", ")"]
    ensures EvalRun(Stacks([1.2, 1.0], ["+", "*"]), tokens) == Ok(Stacks([1.2, 1.0, 3.0], ["+", "*"]))
  {
    var s4 := Stacks([1.2, 1.0], ["+", "*"]);
    assert tokens[0..] == tokens;
    var s5 := Stacks([1.2, 1.0], ["+", "*", "("]);
    PushStep(s4, '(', s5);
    EvalAdvance(s4, tokens, 0, s5);
    var s6 := Stacks([1.2, 1.0, 2.0], ["+", "*", "("]);
    NumberStep(s5, '2', s6);
    EvalAdvance(s5, tokens, 1, s6);
    var s7 := Stacks([1.2, 1.0, 2.0], ["+", "*", "(", "+"]);
    PushStep(s6, '+', s7);
    EvalAdvance(s6, tokens, 2, s7);
    var s8 := Stacks([1.2, 1.0, 2.0, 1.0], ["+", "*", "(", "+"]);
    NumberStep(s7, '1', s8);
    EvalAdvance(s7, tokens, 3, s8);
    var mid := Stacks([1.2, 1.0, 3.0], ["+", "*", "("]);
    var s9 := Stacks([1.2, 1.0, 3.0], ["+", "*"]);
    ReduceStep(s8, false, 3.0, mid);
    CloseStep(s8, mid, s9);
    EvalAdvance(s8, tokens, 4, s9);
    assert tokens[5..] == [];
  }

  /** "1.2 + 1 * (2 + 1)" is 4.2: the drain computes 1 * 3, then
      1.2 + 3. */
  lemma DecimalCase(tokens: seq<string>)
    requires tokens == ["1.2", "+", "1", "*", "(", "2", "+", "1", ")"]
    ensures Evaluation(tokens) == Ok(4.2)
  {
    var head, tail := ["1.2", "+", "1", "*"], ["(", "2", "+", "1", ")"];
    assert tokens == head + tail;
    DecimalHead(head);
    DecimalTail(tail);
    EvalRunAppend(Stacks([], []), head, tail, Stacks([1.2, 1.0], ["+", "*"]));
    DecimalDrain(Stacks([1.2, 1.0, 3.0], ["+", "*"]));
  }

  /** "2 * 3 *": the second "*" reduces the first. */
  lemma ProductHead(tokens: seq<string>)
    requires tokens == ["2", "*", "3", "*"]
    ensures EvalRun(Stacks([], []), tokens) == Ok(Stacks([6.0], ["*"]))
  {
    var s0 := Stacks([], []);
    assert tokens[0..] == tokens;
    var s1 := Stacks([2.0], []);
    NumberStep(s0, '2', s1);
    EvalAdvance(s0, tokens, 0, s1);
    var s2 := Stacks([2.0], ["*"]);
    PushStep(s1, '*', s2);
    EvalAdvance(s1, tokens, 1, s2);
    var s3 := Stacks([2.0, 3.0], ["*"]);
    NumberStep(s2, '3', s3);
    EvalAdvance(s2, tokens, 2, s3);
    ReduceThenPush(2.0, 3.0, "*", '*', 6.0);
    EvalAdvance(s3, tokens, 3, Stacks([6.0], ["*"]));
    assert tokens[4..] == [];
  }

  /** "4 * (2": the third "*" reduces 6 * 4, then "(" and 2 are pushed. */
  lemma ProductMiddle(tokens: seq<string>)
    requires tokens == ["4", "*", "(", "2"]
    ensures EvalRun(Stacks([6.0], ["*"]), tokens) == Ok(Stacks([24.0, 2.0], ["*", "("]))
  {
    var first, second := ["4", "*"], ["(", "2"];
    assert tokens == first + second;
    ProductFour(first);
    ProductOpen(second);
    EvalRunAppend(Stacks([6.0], ["*"]), first, second, Stacks([24.0], ["*"]));
  }

  /** "4 *": 4 is pushed, and the third "*" reduces 6 * 4. */
  lemma ProductFour(tokens: seq<string>)
    requires tokens == ["4", "*"]
    ensures EvalRun(Stacks([6.0], ["*"]), tokens) == Ok(Stacks([24.0], ["*"]))
  {
    var s4 := Stacks([6.0], ["*"]);
    assert tokens[0..] == tokens;
    var s5 := Stacks([6.0, 4.0], ["*"]);
    NumberStep(s4, '4', s5);
    EvalAdvance(s4, tokens, 0, s5);
    var s6 := Stacks([24.0], ["*"]);
    ReduceThenPush(6.0, 4.0, "*", '*', 24.0);
    EvalAdvance(s5, tokens, 1, s6);
    assert tokens[2..] == [];
  }

  /** "(2": "(" and 2 are pushed. */
  lemma ProductOpen(tokens: seq<string>)
    requires tokens == ["(", "2"]
    ensures EvalRun(Stacks([24.0], ["*"]), tokens) == Ok(Stacks([24.0, 2.0], ["*", "("]))
  {
    var s6 := Stacks([24.0], ["*"]);
    assert tokens[0..] == tokens;
    var s7 := Stacks([24.0], ["*", "("]);
    PushStep(s6, '(', s7);
    EvalAdvance(s6, tokens, 0, s7);
    var s8 := Stacks([24.0, 2.0], ["*", "("]);
    NumberStep(s7, '2', s8);
    EvalAdvance(s7, tokens, 1, s8);
    assert tokens[2..] == [];
  }

  /** "/ 1)": "/" is pushed over "(", and ")" reduces 2 / 1. */
  lemma ProductTailDivide(tokens: seq<string>)
    requires tokens == ["/", "1", ")"]
    ensures EvalRun(Stacks([24.0, 2.0], ["*", "("]), tokens) == Ok(Stacks([24.0, 2.0], ["*"]))
  {
    var s8 := Stacks([24.0, 2.0], ["*", "("]);
    assert tokens[0..] == tokens;
    var s9 := Stacks([24.0, 2.0], ["*", "(", "/"]);
    PushStep(s8, '/', s9);
    EvalAdvance(s8, tokens, 0, s9);
    var s10 := Stacks([24.0, 2.0, 1.0], ["*", "(", "/"]);
    NumberStep(s9, '1', s10);
    EvalAdvance(s9, tokens, 1, s10);
    var mid := Stacks([24.0, 2.0], ["*", "("]);
    var s11 := Stacks([24.0, 2.0], ["*"]);
    ReduceStep(s10, false, 2.0, mid);
    CloseStep(s10, mid, s11);
    EvalAdvance(s10, tokens, 2, s11);
    assert tokens[3..] == [];
  }

  /** "2 * 3 * 4 * (2 / 1)" is 48: equal priorities reduce from the left. */
  lemma ProductCase(tokens: seq<string>)
    requires tokens == ["2", "*", "3", "*", "4", "*", "(", "2", "/", "1", ")"]
    ensures Evaluation(tokens) == Ok(48.0)
  {
    var head, middle, tail := ["2", "*", "3", "*"], ["4", "*", "(", "2"], ["/", "1", ")"];
    assert tokens == head + middle + tail;
    ProductHead(head);
    ProductMiddle(middle);
    ProductTailDivide(tail);
    EvalRunAppend(Stacks([], []), head, middle, Stacks([6.0], ["*"]));
    EvalRunAppend(Stacks([], []), head + middle, tail, Stacks([24.0, 2.0], ["*", "("]));
    var st := Stacks([24.0, 2.0], ["*"]);
    ReduceStep(st, true, 48.0, Stacks([48.0], []));
    assert ReduceAll(Stacks([48.0], [])) == Ok(Stacks([48.0], []));
  }

  /** Evaluate(["1", "2", "+"]) is 3: the evaluator takes this postfix
      input because the final drain applies the trailing operator. */
  lemma PostfixSum(tokens: seq<string>)
    requires tokens == ["1", "2", "+"]
    ensures Evaluation(tokens) == Ok(3.0)
  {
    var s0 := Stacks([], []);
    assert tokens[0..] == tokens;
    var s1 := Stacks([1.0], []);
    NumberStep(s0, '1', s1);
    EvalAdvance(s0, tokens, 0, s1);
    var s2 := Stacks([1.0, 2.0], []);
    NumberStep(s1, '2', s2);
    EvalAdvance(s1, tokens, 1, s2);
    var s3 := Stacks([1.0, 2.0], ["+"]);
    PushStep(s2, '+', s3);
    EvalAdvance(s2, tokens, 2, s3);
    assert tokens[3..] == [];
    PostfixDrain(s3);
  }

  /** The drain applies the trailing "+". */
  lemma PostfixDrain(st: Stacks)
    requires st == Stacks([1.0, 2.0], ["+"])
    ensures ReduceAll(st) == Ok(Stacks([3.0], []))
  {
    ReduceStep(st, true, 3.0, Stacks([3.0], []));
    assert ReduceAll(Stacks([3.0], [])) == Ok(Stacks([3.0], []));
  }

  /** "2 / 0" fails with division by zero. */
  lemma DivisionByZeroCase(tokens: seq<string>)
    requires tokens == ["2", "/", "0"]
    ensures Evaluation(tokens) == Err(DivisionByZero)
  {
    var s0 := Stacks([], []);
    assert tokens[0..] == tokens;
    var s1 := Stacks([2.0], []);
    NumberStep(s0, '2', s1);
    EvalAdvance(s0, tokens, 0, s1);
    var s2 := Stacks([2.0], ["/"]);
    PushStep(s1, '/', s2);
    EvalAdvance(s1, tokens, 1, s2);
    var s3 := Stacks([2.0, 0.0], ["/"]);
    NumberStep(s2, '0', s3);
    EvalAdvance(s2, tokens, 2, s3);
    assert tokens[3..] == [];
  }

  /** "1 + *" fails with an extra operator: the drain finds "*" over a
      single number. */
  lemma TrailingOperatorCase(tokens: seq<string>)
    requires tokens == ["1", "+", "*"]
    ensures Evaluation(tokens) == Err(ExtraOperator)
  {
    var s0 := Stacks([], []);
    assert tokens[0..] == tokens;
    var s1 := Stacks([1.0], []);
    NumberStep(s0, '1', s1);
    EvalAdvance(s0, tokens, 0, s1);
    var s2 := Stacks([1.0], ["+"]);
    PushStep(s1, '+', s2);
    EvalAdvance(s1, tokens, 1, s2);
    var s3 := Stacks([1.0], ["+", "*"]);
    PushStep(s2, '*', s3);
    EvalAdvance(s2, tokens, 2, s3);
    assert tokens[3..] == [];
  }

  /** "2 / + 0" fails with an extra operator: "+" must first reduce "/",
      which has a single number under it. */
  lemma OperatorAfterOperatorCase(tokens: seq<string>)
    requires tokens == ["2", "/", "+", "0"]
    ensures Evaluation(tokens) == Err(ExtraOperator)
  {
    var s0 := Stacks([], []);
    assert tokens[0..] == tokens;
    var s1 := Stacks([2.0], []);
    NumberStep(s0, '2', s1);
    EvalAdvance(s0, tokens, 0, s1);
    var s2 := Stacks([2.0], ["/"]);
    PushStep(s1, '/', s2);
    EvalAdvance(s1, tokens, 1, s2);
    ParseFloatSymbol('+');
    assert ReduceNotLower(s2, "+") == Err(ExtraOperator);
    EvalStop(s2, tokens, 2, ExtraOperator);
  }

  /** "2 ( 8)" fails as an invalid expression: both numbers survive the
      drain. */
  lemma MissingOperatorCase(tokens: seq<string>)
    requires tokens == ["2", "(", "8", ")"]
    ensures Evaluation(tokens) == Err(InvalidExpression)
  {
    var s0 := Stacks([], []);
    assert tokens[0..] == tokens;
    var s1 := Stacks([2.0], []);
    NumberStep(s0, '2', s1);
    EvalAdvance(s0, tokens, 0, s1);
    var s2 := Stacks([2.0], ["("]);
    PushStep(s1, '(', s2);
    EvalAdvance(s1, tokens, 1, s2);
    var s3 := Stacks([2.0, 8.0], ["("]);
    NumberStep(s2, '8', s3);
    EvalAdvance(s2, tokens, 2, s3);
    var s4 := Stacks([2.0, 8.0], []);
    ParseFloatSymbol(')');
    assert ReduceToOpen(s3) == Ok(s3);
    assert EvalStep(s3, ")") == Ok(s4);
    EvalAdvance(s3, tokens, 3, s4);
    assert tokens[4..] == [];
  }

  /** "(+)" passes the bracket and symbol checks, and ")" then pops two
      numbers from an empty stack without checking: a run-time panic in
      the source, IndexOutOfRange here. */
  lemma UncheckedPopCase(tokens: seq<string>)
    requires tokens == ["(", "+", ")"]
    ensures Evaluation(tokens) == Err(IndexOutOfRange)
  {
    var s0 := Stacks([], []);
    assert tokens[0..] == tokens;
    var s1 := Stacks([], ["("]);
    PushStep(s0, '(', s1);
    EvalAdvance(s0, tokens, 0, s1);
    var s2 := Stacks([], ["(", "+"]);
    PushStep(s1, '+', s2);
    EvalAdvance(s1, tokens, 1, s2);
    ParseFloatSymbol(')');
    assert ReduceToOpen(s2) == Err(IndexOutOfRange);
    EvalStop(s2, tokens, 2, IndexOutOfRange);
  }

  /** No tokens: no number is left, an invalid expression. */
  lemma NoTokensCase(tokens: seq<string>)
    requires tokens == []
    ensures Evaluation(tokens) == Err(InvalidExpression)
  {
    assert EvalRun(Stacks([], []), tokens) == Ok(Stacks([], []));
  }
}
