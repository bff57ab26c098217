/** The cases of pkg/calculator/calculator_test.go that run ToRPN, and one
    that shows a bracket's operators leaving in reverse order, stated on
    the model and proved by tracing the converter token by token. */
module RpnCases {
  import opened Errors
  import opened Strconv
  import opened Calculator
  import opened Rpn
  import ConversionLaws

  /** A one-digit token goes straight to the output. */
  lemma NumeralStep(st: Converter, c: char, after: Converter)
    requires IsDigit(c)
    requires after.output == st.output + [[c]] && after.operators == st.operators && after.level == st.level
    ensures RpnStep(st, [c]) == Ok(after)
  {
    ParseFloatDigit(c);
  }

  /** "(" is pushed and raises the level by two. */
  lemma OpenStep(st: Converter, after: Converter)
    requires after.output == st.output && after.operators == st.operators + ["("] && after.level == st.level + 2
    ensures RpnStep(st, "(") == Ok(after)
  {
    ParseFloatSymbol('(');
  }

  /** ")" whose operators down to the "(" are `popped` (top first). */
  lemma CloseStep(st: Converter, mid: Converter, after: Converter)
    requires PopToOpen(st) == mid && |mid.operators| > 0
    requires after.output == mid.output && after.operators == mid.operators[..|mid.operators| - 1]
    requires after.level == mid.level - 2
    ensures RpnStep(st, ")") == Ok(after)
  {
    ParseFloatSymbol(')');
  }

  /** "1 + 2" becomes "1 2 +". */
  lemma SumCase(tokens: seq<string>)
    requires tokens == ["1", "+", "2"]
    ensures Conversion(tokens) == Ok(["1", "2", "+"])
  {
    var c0 := Start();
    assert tokens[0..] == tokens;
    var c1 := Converter(["1"], [], 0);
    NumeralStep(c0, '1', c1);
    Advance(c0, tokens, 0, c1);
    var c2 := Converter(["1"], ["+"], 0);
    PushOperatorStep(c1, '+', c2);
    Advance(c1, tokens, 1, c2);
    var c3 := Converter(["1", "2"], ["+"], 0);
    NumeralStep(c2, '2', c3);
    Advance(c2, tokens, 2, c3);
    assert tokens[3..] == [];
    assert RpnRun(c0, tokens) == Ok(c3);
    assert Reversed(["+"]) == ["+"];
    assert c3.output + ["+"] == ["1", "2", "+"];
  }

  /** The conversion loop over two consecutive stretches of tokens. */
  lemma {:induction false} RunAppend(st: Converter, a: seq<string>, b: seq<string>, mid: Converter)
    requires RpnRun(st, a) == Ok(mid)
    ensures RpnRun(st, a + b) == RpnRun(mid, b)
    decreases |a|
  {
    if a == [] {
      assert a + b == b;
    } else {
      assert (a + b)[0] == a[0] && (a + b)[1..] == a[1..] + b;
      RunAppend(RpnStep(st, a[0]).value, a[1..], b, mid);
    }
  }

  /** "(1 + 2": inside the bracket "+" is pushed over "(". */
  lemma BracketHead(tokens: seq<string>)
    requires tokens == ["(", "1", "+", "2"]
    ensures RpnRun(Start(), tokens) == Ok(Converter(["1", "2"], ["(", "+"], 2))
  {
    var c0 := Start();
    assert tokens[0..] == tokens;
    var c1 := Converter([], ["("], 2);
    OpenStep(c0, c1);
    Advance(c0, tokens, 0, c1);
    var c2 := Converter(["1"], ["("], 2);
    NumeralStep(c1, '1', c2);
    Advance(c1, tokens, 1, c2);
    var c3 := Converter(["1"], ["(", "+"], 2);
    PushOperatorStep(c2, '+', c3);
    Advance(c2, tokens, 2, c3);
    var c4 := Converter(["1", "2"], ["(", "+"], 2);
    NumeralStep(c3, '2', c4);
    Advance(c3, tokens, 3, c4);
    assert tokens[4..] == [];
  }

  /** ") * 3": ")" moves "+" out, then "*" and "3" follow. */
  lemma BracketTail(tokens: seq<string>)
    requires tokens == [")", "*", "3"]
    ensures RpnRun(Converter(["1", "2"], ["(", "+"], 2), tokens) == Ok(Converter(["1", "2", "+", "3"], ["*"], 0))
  {
    var c4 := Converter(["1", "2"], ["(", "+"], 2);
    assert tokens[0..] == tokens;
    var m4 := Converter(["1", "2", "+"], ["("], 2);
    assert PopOne(c4) == m4;
    assert PopToOpen(c4) == m4;
    var c5 := Converter(["1", "2", "+"], [], 0);
    CloseStep(c4, m4, c5);
    Advance(c4, tokens, 0, c5);
    var c6 := Converter(["1", "2", "+"], ["*"], 0);
    PushOperatorStep(c5, '*', c6);
    Advance(c5, tokens, 1, c6);
    var c7 := Converter(["1", "2", "+", "3"], ["*"], 0);
    NumeralStep(c6, '3', c7);
    Advance(c6, tokens, 2, c7);
    assert tokens[3..] == [];
  }

  /** "(1 + 2) * 3" becomes "1 2 + 3 *". */
  lemma BracketCase(tokens: seq<string>)
    requires tokens == ["(", "1", "+", "2", ")", "*", "3"]
    ensures Conversion(tokens) == Ok(["1", "2", "+", "3", "*"])
  {
    var head, tail := ["(", "1", "+", "2"], [")", "*", "3"];
    assert tokens == head + tail;
    BracketHead(head);
    BracketTail(tail);
    RunAppend(Start(), head, tail, Converter(["1", "2"], ["(", "+"], 2));
    var c7 := Converter(["1", "2", "+", "3"], ["*"], 0);
    assert Reversed(c7.operators) == ["*"];
    assert c7.output + ["*"] == ["1", "2", "+", "3", "*"];
  }

  /** ")" after "(2 - 3 - 1" moves both "-" to the output, the later one
      first. */
  lemma PopBothMinus(st: Converter, mid: Converter)
    requires st == Converter(["2", "3", "1"], ["(", "-", "-"], 2)
    requires mid == Converter(["2", "3", "1", "-", "-"], ["("], 2)
    ensures PopToOpen(st) == mid
  {
    var once := Converter(["2", "3", "1", "-"], ["(", "-"], 2);
    assert PopOne(st) == once;
    assert PopOne(once) == mid;
    assert PopToOpen(mid) == mid;
  }

  /** "(2 - 3": "-" is pushed over "(". */
  lemma InsideBracketHead(tokens: seq<string>)
    requires tokens == ["(", "2", "-", "3"]
    ensures RpnRun(Start(), tokens) == Ok(Converter(["2", "3"], ["(", "-"], 2))
  {
    var c0 := Start();
    assert tokens[0..] == tokens;
    var c1 := Converter([], ["("], 2);
    OpenStep(c0, c1);
    Advance(c0, tokens, 0, c1);
    var c2 := Converter(["2"], ["("], 2);
    NumeralStep(c1, '2', c2);
    Advance(c1, tokens, 1, c2);
    var c3 := Converter(["2"], ["(", "-"], 2);
    PushOperatorStep(c2, '-', c3);
    Advance(c2, tokens, 2, c3);
    var c4 := Converter(["2", "3"], ["(", "-"], 2);
    NumeralStep(c3, '3', c4);
    Advance(c3, tokens, 3, c4);
    assert tokens[4..] == [];
  }

  /** "- 1)": the second "-" outranks the first (1 + 2 > 1), so it is
      pushed over it; ")" then moves both out. */
  lemma InsideBracketTail(tokens: seq<string>)
    requires tokens == ["-", "1", ")"]
    ensures RpnRun(Converter(["2", "3"], ["(", "-"], 2), tokens) == Ok(Converter(["2", "3", "1", "-", "-"], [], 0))
  {
    var c4 := Converter(["2", "3"], ["(", "-"], 2);
    assert tokens[0..] == tokens;
    var c5 := Converter(["2", "3"], ["(", "-", "-"], 2);
    PushOperatorStep(c4, '-', c5);
    Advance(c4, tokens, 0, c5);
    var c6 := Converter(["2", "3", "1"], ["(", "-", "-"], 2);
    NumeralStep(c5, '1', c6);
    Advance(c5, tokens, 1, c6);
    var m6 := Converter(["2", "3", "1", "-", "-"], ["("], 2);
    PopBothMinus(c6, m6);
    var c7 := Converter(["2", "3", "1", "-", "-"], [], 0);
    CloseStep(c6, m6, c7);
    Advance(c6, tokens, 2, c7);
    assert tokens[3..] == [];
  }

  /** "(2 - 3 - 1)" becomes "2 3 1 - -", which denotes 2 - (3 - 1): inside
      a bracket every operator outranks the stack top, so nothing is
      popped until ")". */
  lemma InsideBracketCase(tokens: seq<string>)
    requires tokens == ["(", "2", "-", "3", "-", "1", ")"]
    ensures Conversion(tokens) == Ok(["2", "3", "1", "-", "-"])
  {
    var head, tail := ["(", "2", "-", "3"], ["-", "1", ")"];
    assert tokens == head + tail;
    InsideBracketHead(head);
    InsideBracketTail(tail);
    RunAppend(Start(), head, tail, Converter(["2", "3"], ["(", "-"], 2));
    var c7 := Converter(["2", "3", "1", "-", "-"], [], 0);
    assert Reversed(c7.operators) == [];
    assert c7.output + [] == c7.output;
  }

  /** "1.5 * (2": the decimal goes to the output, "*" and "(" are pushed. */
  lemma DecimalProductHead(tokens: seq<string>)
    requires tokens == ["1.5", "*", "(", "2"]
    ensures RpnRun(Start(), tokens) == Ok(Converter(["1.5", "2"], ["*", "("], 2))
  {
    var c0 := Start();
    assert tokens[0..] == tokens;
    ParseFloatOneDecimal('1', '5');
    assert IsNumeral("1.5");
    var c1 := Converter(["1.5"], [], 0);
    ConversionLaws.NumberToOutput(c0, "1.5", c1);
    Advance(c0, tokens, 0, c1);
    var c2 := Converter(["1.5"], ["*"], 0);
    PushOperatorStep(c1, '*', c2);
    Advance(c1, tokens, 1, c2);
    var c3 := Converter(["1.5"], ["*", "("], 2);
    OpenStep(c2, c3);
    Advance(c2, tokens, 2, c3);
    var c4 := Converter(["1.5", "2"], ["*", "("], 2);
    NumeralStep(c3, '2', c4);
    Advance(c3, tokens, 3, c4);
    assert tokens[4..] == [];
  }

  /** "- 3)": "-" is pushed over "(", and ")" moves it out. */
  lemma DecimalProductTail(tokens: seq<string>)
    requires tokens == ["-", "3", ")"]
    ensures RpnRun(Converter(["1.5", "2"], ["*", "("], 2), tokens) == Ok(Converter(["1.5", "2", "3", "-"], ["*"], 0))
  {
    var c4 := Converter(["1.5", "2"], ["*", "("], 2);
    assert tokens[0..] == tokens;
    var c5 := Converter(["1.5", "2"], ["*", "(", "-"], 2);
    PushOperatorStep(c4, '-', c5);
    Advance(c4, tokens, 0, c5);
    var c6 := Converter(["1.5", "2", "3"], ["*", "(", "-"], 2);
    NumeralStep(c5, '3', c6);
    Advance(c5, tokens, 1, c6);
    var m6 := Converter(["1.5", "2", "3", "-"], ["*", "("], 2);
    assert PopOne(c6) == m6;
    assert PopToOpen(m6) == m6;
    var c7 := Converter(["1.5", "2", "3", "-"], ["*"], 0);
    CloseStep(c6, m6, c7);
    Advance(c6, tokens, 2, c7);
    assert tokens[3..] == [];
  }

  /** "1.5 * (2 - 3)" becomes "1.5 2 3 - *". */
  lemma DecimalProductCase(tokens: seq<string>)
    requires tokens == ["1.5", "*", "(", "2", "-", "3", ")"]
    ensures Conversion(tokens) == Ok(["1.5", "2", "3", "-", "*"])
  {
    var head, tail := ["1.5", "*", "(", "2"], ["-", "3", ")"];
    assert tokens == head + tail;
    DecimalProductHead(head);
    DecimalProductTail(tail);
    RunAppend(Start(), head, tail, Converter(["1.5", "2"], ["*", "("], 2));
    var c7 := Converter(["1.5", "2", "3", "-"], ["*"], 0);
    assert Reversed(c7.operators) == ["*"];
    assert c7.output + ["*"] == ["1.5", "2", "3", "-", "*"];
  }
}
