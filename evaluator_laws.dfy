/** Laws of the direct evaluator that hold for every number and every
    operator, not only for the literals of the test table. */
module EvaluatorLaws {
  import opened Errors
  import opened Strconv
  import opened Calculator

  /** A number token is pushed as its value. */
  lemma NumeralStep(st: Stacks, t: string, x: real, after: Stacks)
    requires ParseFloat(t) == Some(x)
    requires after.numbers == st.numbers + [x] && after.operators == st.operators
    ensures EvalStep(st, t) == Ok(after)
  {
  }

  /** The drain of two numbers under one operator resolves them, or
      reports the error Resolve reports. */
  lemma DrainPair(x: real, y: real, op: string)
    ensures ReduceAll(Stacks([x, y], [op])) == (match Resolve(x, y, op)
      case Ok(v) => Ok(Stacks([v], []))
      case Err(e) => Err(e))
  {
    var st := Stacks([x, y], [op]);
    match Resolve(x, y, op)
    case Ok(v) =>
      ReduceStep(st, true, v, Stacks([v], []));
      assert ReduceAll(Stacks([v], [])) == Ok(Stacks([v], []));
    case Err(e) =>
      assert ReduceTop(st, true) == Err(e);
  }

  /** A lone number evaluates to itself. */
  lemma SingleNumber(t: string, x: real)
    requires ParseFloat(t) == Some(x)
    ensures Evaluation([t]) == Ok(x)
  {
    var s0 := Stacks([], []);
    NumeralStep(s0, t, x, Stacks([x], []));
    assert [t][0] == t && [t][1..] == [];
    assert EvalRun(s0, [t]) == Ok(Stacks([x], []));
  }

  /** A number in brackets evaluates to itself: ")" finds the "(" on top
      and drops it. */
  lemma BracketedNumber(t: string, x: real)
    requires ParseFloat(t) == Some(x)
    ensures Evaluation(["(", t, ")"]) == Ok(x)
  {
    var tokens := ["(", t, ")"];
    var s0 := Stacks([], []);
    assert tokens[0..] == tokens;
    var s1 := Stacks([], ["("]);
    PushStep(s0, '(', s1);
    EvalAdvance(s0, tokens, 0, s1);
    var s2 := Stacks([x], ["("]);
    NumeralStep(s1, t, x, s2);
    EvalAdvance(s1, tokens, 1, s2);
    var s3 := Stacks([x], []);
    ParseFloatSymbol(')');
    assert ReduceToOpen(s2) == Ok(s2);
    EvalAdvance(s2, tokens, 2, s3);
    assert tokens[3..] == [];
  }

  /** "a op b" evaluates to the resolution of a and b under op, errors
      included. */
  lemma InfixBinary(a: string, c: char, b: string, x: real, y: real)
    requires ParseFloat(a) == Some(x) && ParseFloat(b) == Some(y) && IsOperator(c)
    ensures Evaluation([a, [c], b]) == Resolve(x, y, [c])
  {
    var tokens := [a, [c], b];
    var s0 := Stacks([], []);
    assert tokens[0..] == tokens;
    var s1 := Stacks([x], []);
    NumeralStep(s0, a, x, s1);
    EvalAdvance(s0, tokens, 0, s1);
    var s2 := Stacks([x], [[c]]);
    PushStep(s1, c, s2);
    EvalAdvance(s1, tokens, 1, s2);
    var s3 := Stacks([x, y], [[c]]);
    NumeralStep(s2, b, y, s3);
    EvalAdvance(s2, tokens, 2, s3);
    assert tokens[3..] == [];
    DrainPair(x, y, [c]);
  }

  /** "a b op" evaluates to the same value: the operator meets an empty
      operator stack, is pushed, and the drain applies it. The evaluator
      therefore also accepts a postfix expression of one operator. */
  lemma PostfixBinary(a: string, b: string, c: char, x: real, y: real)
    requires ParseFloat(a) == Some(x) && ParseFloat(b) == Some(y) && IsOperator(c)
    ensures Evaluation([a, b, [c]]) == Resolve(x, y, [c])
  {
    var tokens := [a, b, [c]];
    var s0 := Stacks([], []);
    assert tokens[0..] == tokens;
    var s1 := Stacks([x], []);
    NumeralStep(s0, a, x, s1);
    EvalAdvance(s0, tokens, 0, s1);
    var s2 := Stacks([x, y], []);
    NumeralStep(s1, b, y, s2);
    EvalAdvance(s1, tokens, 1, s2);
    var s3 := Stacks([x, y], [[c]]);
    PushStep(s2, c, s3);
    EvalAdvance(s2, tokens, 2, s3);
    assert tokens[3..] == [];
    DrainPair(x, y, [c]);
  }

  /** Infix and postfix forms of one operation agree. */
  lemma InfixPostfixAgree(a: string, c: char, b: string, x: real, y: real)
    requires ParseFloat(a) == Some(x) && ParseFloat(b) == Some(y) && IsOperator(c)
    ensures Evaluation([a, [c], b]) == Evaluation([a, b, [c]])
  {
    InfixBinary(a, c, b, x, y);
    PostfixBinary(a, b, c, x, y);
  }

  /** Two numbers with no operator between them leave two numbers after
      the drain: InvalidExpression. */
  lemma AdjacentNumbers(a: string, b: string, x: real, y: real)
    requires ParseFloat(a) == Some(x) && ParseFloat(b) == Some(y)
    ensures Evaluation([a, b]) == Err(InvalidExpression)
  {
    var tokens := [a, b];
    var s0 := Stacks([], []);
    assert tokens[0..] == tokens;
    var s1 := Stacks([x], []);
    NumeralStep(s0, a, x, s1);
    EvalAdvance(s0, tokens, 0, s1);
    var s2 := Stacks([x, y], []);
    NumeralStep(s1, b, y, s2);
    EvalAdvance(s1, tokens, 1, s2);
    assert tokens[2..] == [];
    assert ReduceAll(s2) == Ok(s2);
  }
}

/** The converter on one binary operation, and what the evaluator makes
    of its output. */
module ConversionLaws {
  import opened Errors
  import opened Strconv
  import opened Calculator
  import opened Rpn
  import EvaluatorLaws

  /** A number token goes to the output, whatever its digits. */
  lemma NumberToOutput(st: Converter, t: string, after: Converter)
    requires IsNumeral(t)
    requires after.output == st.output + [t] && after.operators == st.operators && after.level == st.level
    ensures RpnStep(st, t) == Ok(after)
  {
  }

  /** "a op b" becomes "a b op" for every pair of numbers and every
      operator. */
  lemma InfixToPostfix(a: string, c: char, b: string)
    requires IsNumeral(a) && IsNumeral(b) && IsOperator(c)
    ensures Conversion([a, [c], b]) == Ok([a, b, [c]])
  {
    var tokens := [a, [c], b];
    var c0 := Start();
    assert tokens[0..] == tokens;
    var c1 := Converter([a], [], 0);
    NumberToOutput(c0, a, c1);
    Advance(c0, tokens, 0, c1);
    var c2 := Converter([a], [[c]], 0);
    PushOperatorStep(c1, c, c2);
    Advance(c1, tokens, 1, c2);
    var c3 := Converter([a, b], [[c]], 0);
    NumberToOutput(c2, b, c3);
    Advance(c2, tokens, 2, c3);
    assert tokens[3..] == [];
    assert RpnRun(c0, tokens) == Ok(c3);
    assert Reversed([[c]]) == [[c]];
    assert c3.output + Reversed(c3.operators) == [a, b, [c]];
  }

  /** Converting one binary operation keeps its value: the evaluator gives
      the converted tokens the value of the original ones. */
  lemma ConversionKeepsValue(a: string, c: char, b: string)
    requires IsNumeral(a) && IsNumeral(b) && IsOperator(c)
    ensures Conversion([a, [c], b]).Ok?
    ensures Evaluation(Conversion([a, [c], b]).value) == Evaluation([a, [c], b])
  {
    InfixToPostfix(a, c, b);
    EvaluatorLaws.InfixPostfixAgree(a, c, b, NumeralValue(a), NumeralValue(b));
  }
}
