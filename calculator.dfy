/** pkg/calculator/calculator.go: the tokenizer, the arithmetic resolver,
    the precedence table and the direct two-stack infix evaluator that
    `Calc` runs after a bracket-count check. */
module Calculator {
  import opened Errors
  import opened Strings
  import opened Strconv

  predicate IsOperator(c: char) { c == '+' || c == '-' || c == '*' || c == '/' }

  predicate IsBracket(c: char) { c == '(' || c == ')' }

  /** The precedence table: 1 for `+ -`, 2 for `* /`, 0 for every other
      string, the bracket "(" included. */
  function Priority(op: string): (p: int)
    ensures 0 <= p <= 2
    ensures p == 1 <==> op == "+" || op == "-"
    ensures p == 2 <==> op == "*" || op == "/"
  {
    if op == "+" || op == "-" then 1 else if op == "*" || op == "/" then 2 else 0
  }

  /** The operator characters are exactly those whose one-character token
      has a priority. */
  lemma OperatorPriority(c: char)
    ensures IsOperator(c) <==> Priority([c]) > 0
  {
  }

  /** One binary operation. Only `/` by zero and unknown operators fail. */
  function Resolve(a: real, b: real, op: string): (r: Result<real>)
    ensures r.Err? <==> (op == "/" && b == 0.0) || op !in {"+", "-", "*", "/"}
    ensures r.Err? ==> r.error == (if op == "/" then DivisionByZero else OperatorNotSupported)
    ensures op == "+" ==> r == Ok(a + b)
    ensures op == "-" ==> r == Ok(a - b)
    ensures op == "*" ==> r == Ok(a * b)
    ensures op == "/" && b != 0.0 ==> r == Ok(a / b)
  {
    if op == "+" then Ok(a + b)
    else if op == "-" then Ok(a - b)
    else if op == "*" then Ok(a * b)
    else if op == "/" then (if b == 0.0 then Err(DivisionByZero) else Ok(a / b))
    else Err(OperatorNotSupported)
  }

  /** Subtraction undoes addition and division by a non-zero number undoes
      multiplication. */
  lemma ResolveInverses(a: real, b: real)
    ensures Resolve(Resolve(a, b, "+").value, b, "-") == Ok(a)
    ensures b != 0.0 ==> Resolve(Resolve(a, b, "*").value, b, "/") == Ok(a)
  {
    if b != 0.0 {
      var p := a * b;
      assert Resolve(a, b, "*") == Ok(p);
      assert p / b == a;
      assert Resolve(p, b, "/") == Ok(p / b);
    }
  }

  // ---------------------------------------------------------------------
  // Tokenize

  predicate IsNumericToken(t: string)
  {
    |t| > 0 && forall i :: 0 <= i < |t| ==> IsNumChar(t[i])
  }

  predicate IsSymbolToken(t: string)
  {
    |t| == 1 && (IsOperator(t[0]) || IsBracket(t[0]))
  }

  /** A character the tokenizer accepts after spaces are removed. */
  predicate Acceptable(c: char)
  {
    IsNumChar(c) || IsOperator(c) || IsBracket(c)
  }

  predicate AllAcceptable(s: string)
  {
    forall i :: 0 <= i < |s| ==> Acceptable(s[i])
  }

  /** The shape of a token list the tokenizer emits: every token is a run of
      number characters or a single operator or bracket, and no two number
      runs are adjacent. */
  predicate WellFormed(ts: seq<string>)
  {
    && (forall i :: 0 <= i < |ts| ==> IsNumericToken(ts[i]) || IsSymbolToken(ts[i]))
    && (forall i :: 0 <= i < |ts| - 1 ==> !(IsNumericToken(ts[i]) && IsNumericToken(ts[i + 1])))
  }

  function Concat(ts: seq<string>): string
  {
    if ts == [] then [] else ts[0] + Concat(ts[1..])
  }

  lemma {:induction false} ConcatSnoc(ts: seq<string>, t: string)
    ensures Concat(ts + [t]) == Concat(ts) + t
  {
    if ts != [] {
      assert (ts + [t])[1..] == ts[1..] + [t];
      ConcatSnoc(ts[1..], t);
    }
  }

  /** The length of the run of number characters that starts `s`. */
  function NumberRun(s: string): (k: nat)
    ensures k <= |s|
    ensures forall i :: 0 <= i < k ==> IsNumChar(s[i])
    ensures k < |s| ==> !IsNumChar(s[k])
  {
    if s == [] || !IsNumChar(s[0]) then 0 else 1 + NumberRun(s[1..])
  }

  /** Maximal munch: the reference tokenisation the loop of Tokenize is
      proved against. */
  function Lex(s: string): seq<string>
    decreases |s|
  {
    if s == [] then []
    else if IsNumChar(s[0]) then
      var k := NumberRun(s);
      [s[..k]] + Lex(s[k..])
    else
      [[s[0]]] + Lex(s[1..])
  }

  /** What Tokenize returns for `expression`. */
  function Tokenization(expression: string): (r: Result<seq<string>>)
    ensures r.Ok? <==> AllAcceptable(RemoveSpaces(expression))
    ensures r.Err? ==> r.error == UnacceptableSymbol
    ensures r.Ok? ==> Concat(r.value) == RemoveSpaces(expression) && WellFormed(r.value)
  {
    var s := RemoveSpaces(expression);
    if AllAcceptable(s) then
      LexConcat(s);
      LexWellFormed(s);
      Ok(Lex(s))
    else
      Err(UnacceptableSymbol)
  }

  /** A well-formed token list of acceptable text is the maximal-munch
      tokenization of its concatenation. */
  lemma LexOfWellFormed(tokens: seq<string>)
    requires WellFormed(tokens) && AllAcceptable(Concat(tokens))
    ensures Lex(Concat(tokens)) == tokens
  {
    var s := Concat(tokens);
    LexConcat(s);
    LexWellFormed(s);
    TokensUnique(tokens, Lex(s));
  }

  /** Round trip: the tokens of `s` concatenate back to `s`. */
  lemma {:induction false} LexConcat(s: string)
    ensures Concat(Lex(s)) == s
    decreases |s|
  {
    if s != [] {
      if IsNumChar(s[0]) {
        var k := NumberRun(s);
        LexConcat(s[k..]);
        assert s[..k] + s[k..] == s;
      } else {
        LexConcat(s[1..]);
        assert [s[0]] + s[1..] == s;
      }
    }
  }

  /** On acceptable text, maximal munch yields well-formed tokens, and the
      first token follows the first character. */
  lemma {:induction false} LexWellFormed(s: string)
    requires AllAcceptable(s)
    ensures WellFormed(Lex(s))
    ensures s != [] && !IsNumChar(s[0]) ==> Lex(s) != [] && IsSymbolToken(Lex(s)[0])
    decreases |s|
  {
    if s != [] {
      if IsNumChar(s[0]) {
        var k := NumberRun(s);
        assert AllAcceptable(s[k..]) by {
          forall i | 0 <= i < |s[k..]| ensures Acceptable(s[k..][i]) {
            assert s[k..][i] == s[k + i];
          }
        }
        LexWellFormed(s[k..]);
        var rest := Lex(s[k..]);
        assert rest != [] ==> IsSymbolToken(rest[0]);
        var ts := [s[..k]] + rest;
        assert IsNumericToken(ts[0]);
        forall i | 0 <= i < |ts| - 1
          ensures !(IsNumericToken(ts[i]) && IsNumericToken(ts[i + 1]))
        {
          if i > 0 {
            assert ts[i] == rest[i - 1] && ts[i + 1] == rest[i];
          }
        }
      } else {
        assert AllAcceptable(s[1..]) by {
          forall i | 0 <= i < |s[1..]| ensures Acceptable(s[1..][i]) {
            assert s[1..][i] == s[1 + i];
          }
        }
        LexWellFormed(s[1..]);
        var rest := Lex(s[1..]);
        var ts := [[s[0]]] + rest;
        assert IsSymbolToken(ts[0]);
        forall i | 0 <= i < |ts| - 1
          ensures !(IsNumericToken(ts[i]) && IsNumericToken(ts[i + 1]))
        {
          if i > 0 {
            assert ts[i] == rest[i - 1] && ts[i + 1] == rest[i];
          }
        }
      }
    }
  }

  lemma WellFormedTail(ts: seq<string>)
    requires WellFormed(ts) && ts != []
    ensures WellFormed(ts[1..])
  {
    var rest := ts[1..];
    forall i | 0 <= i < |rest| - 1
      ensures !(IsNumericToken(rest[i]) && IsNumericToken(rest[i + 1]))
    {
      assert rest[i] == ts[i + 1] && rest[i + 1] == ts[i + 2];
    }
  }

  /** A well-formed token list is determined by its concatenation: this is
      the sense in which the tokenisation of a text is unique. */
  lemma {:induction false} TokensUnique(a: seq<string>, b: seq<string>)
    requires WellFormed(a) && WellFormed(b)
    requires Concat(a) == Concat(b)
    ensures a == b
    decreases |a|
  {
    if a != [] && b != [] {
      var s := Concat(a);
      assert s == a[0] + Concat(a[1..]) && s == b[0] + Concat(b[1..]);
      assert s[0] == a[0][0] && s[0] == b[0][0];
      if IsSymbolToken(a[0]) {
        SymbolHead(a[0]);
        assert !IsNumChar(s[0]);
        assert IsSymbolToken(b[0]);
        assert a[0] == b[0];
      } else {
        assert IsNumericToken(a[0]) && IsNumericToken(b[0]);
        RunLength(a);
        RunLength(b);
        assert a[0] == s[..|a[0]|] && b[0] == s[..|b[0]|];
      }
      assert Concat(a[1..]) == Concat(b[1..]);
      WellFormedTail(a);
      WellFormedTail(b);
      TokensUnique(a[1..], b[1..]);
      assert a == [a[0]] + a[1..] && b == [b[0]] + b[1..];
    }
  }

  /** A leading number token extends to the first character that is not a
      number character. */
  lemma RunLength(a: seq<string>)
    requires WellFormed(a) && a != [] && IsNumericToken(a[0])
    ensures NumberRun(Concat(a)) == |a[0]|
  {
    var s := Concat(a);
    assert s == a[0] + Concat(a[1..]);
    if |a| > 1 {
      assert Concat(a[1..]) == a[1] + Concat(a[2..]);
      assert IsSymbolToken(a[1]);
      assert s[|a[0]|] == a[1][0];
    }
    RunAt(s, |a[0]|);
  }

  lemma {:induction false} RunAt(s: string, k: nat)
    requires k <= |s|
    requires forall i :: 0 <= i < k ==> IsNumChar(s[i])
    requires k < |s| ==> !IsNumChar(s[k])
    ensures NumberRun(s) == k
  {
    if k > 0 {
      RunAt(s[1..], k - 1);
    }
  }

  lemma WellFormedSnoc(ts: seq<string>, t: string)
    requires WellFormed(ts)
    requires IsSymbolToken(t) || (IsNumericToken(t) && (ts == [] || IsSymbolToken(ts[|ts| - 1])))
    ensures WellFormed(ts + [t])
  {
    var us := ts + [t];
    forall i | 0 <= i < |us| ensures IsNumericToken(us[i]) || IsSymbolToken(us[i]) {
      if i < |ts| {
        assert us[i] == ts[i];
      }
    }
    forall i | 0 <= i < |us| - 1 ensures !(IsNumericToken(us[i]) && IsNumericToken(us[i + 1])) {
      assert us[i] == ts[i];
      if i + 1 < |ts| {
        assert us[i + 1] == ts[i + 1];
      } else if IsNumericToken(t) {
        assert IsSymbolToken(ts[i]);
      }
    }
  }

  lemma SymbolHead(t: string)
    requires IsSymbolToken(t)
    ensures !IsNumChar(t[0])
  {
    var c := t[0];
    assert IsOperator(c) || IsBracket(c);
  }

  lemma SymbolNotNumeric(t: string)
    requires IsSymbolToken(t)
    ensures !IsNumericToken(t)
  {
    var c := t[0];
    assert IsOperator(c) || IsBracket(c);
  }

  /** The character scanner of the source: digits and dots accumulate into
      `number`; an operator or bracket flushes it and becomes a token of its
      own; any other character is refused. */
  /** The state of the tokenizer loop after reading `s[..i]`: the emitted
      tokens and the pending digits spell the prefix, the tokens are well
      formed and end in a symbol, and every character read was accepted. */
  ghost predicate Scanned(s: string, i: nat, tokens: seq<string>, number: string)
  {
    && i <= |s|
    && Concat(tokens) + number == s[..i]
    && (number == [] || IsNumericToken(number))
    && WellFormed(tokens)
    && (tokens == [] || IsSymbolToken(tokens[|tokens| - 1]))
    && AllAcceptable(s[..i])
  }

  /** The pending number, flushed as a token when non-empty. */
  function Flush(tokens: seq<string>, number: string): seq<string>
  {
    if number == "" then tokens else tokens + [number]
  }

  lemma ScanDigit(s: string, i: nat, tokens: seq<string>, number: string)
    requires Scanned(s, i, tokens, number) && i < |s| && IsNumChar(s[i])
    ensures Scanned(s, i + 1, tokens, number + [s[i]])
  {
    assert s[..i + 1] == s[..i] + [s[i]];
    assert Concat(tokens) + (number + [s[i]]) == s[..i + 1];
  }

  lemma ScanSymbol(s: string, i: nat, tokens: seq<string>, number: string)
    requires Scanned(s, i, tokens, number) && i < |s| && (IsOperator(s[i]) || IsBracket(s[i]))
    ensures Scanned(s, i + 1, Flush(tokens, number) + [[s[i]]], "")
  {
    var c := s[i];
    assert s[..i + 1] == s[..i] + [c];
    var flushed := Flush(tokens, number);
    if number != "" {
      ConcatSnoc(tokens, number);
      WellFormedSnoc(tokens, number);
    }
    assert Concat(flushed) == s[..i];
    assert IsSymbolToken([c]);
    ConcatSnoc(flushed, [c]);
    WellFormedSnoc(flushed, [c]);
  }

  lemma ScanRejected(s: string, i: nat)
    requires i < |s| && !Acceptable(s[i])
    ensures !AllAcceptable(s)
  {
  }

  lemma ScanDone(s: string, tokens: seq<string>, number: string)
    requires Scanned(s, |s|, tokens, number)
    ensures Flush(tokens, number) == Lex(s)
    ensures AllAcceptable(s)
  {
    assert s[..|s|] == s;
    if number != "" {
      ConcatSnoc(tokens, number);
      WellFormedSnoc(tokens, number);
    }
    LexOfWellFormed(Flush(tokens, number));
  }

  /** The tokenizer loop of the source, proved to compute the maximal-munch
      tokenization. */
  method Tokenize(expression: string) returns (r: Result<seq<string>>)
    ensures r == Tokenization(expression)
  {
    var s := RemoveSpaces(expression);
    var tokens: seq<string> := [];
    var number: string := "";
    for i := 0 to |s|
      invariant Scanned(s, i, tokens, number)
    {
      var c := s[i];
      if IsNumChar(c) {
        ScanDigit(s, i, tokens, number);
        number := number + [c];
      } else if IsOperator(c) || c == '(' || c == ')' {
        ScanSymbol(s, i, tokens, number);
        if number != "" {
          tokens := tokens + [number];
          number := "";
        }
        tokens := tokens + [[c]];
      } else {
        ScanRejected(s, i);
        return Err(UnacceptableSymbol);
      }
    }
    ScanDone(s, tokens, number);
    if number != "" {
      tokens := tokens + [number];
    }
    return Ok(tokens);
  }

  // ---------------------------------------------------------------------
  // Evaluate

  /** The `numbers` and `operators` slices of the evaluator. */
  datatype Stacks = Stacks(numbers: seq<real>, operators: seq<string>)

  /** Pops two numbers and the top operator and pushes their resolution.
      When `checked`, the source first tests for two numbers and reports
      ExtraOperator; otherwise it pops blindly, which is a Go panic on
      fewer than two numbers, modelled as IndexOutOfRange. */
  function ReduceTop(st: Stacks, checked: bool): (r: Result<Stacks>)
    requires |st.operators| > 0
    ensures |st.numbers| < 2 ==> r == Err(if checked then ExtraOperator else IndexOutOfRange)
    ensures |st.numbers| >= 2 ==>
      var n := |st.numbers|;
      var v := Resolve(st.numbers[n - 2], st.numbers[n - 1], st.operators[|st.operators| - 1]);
      && (r.Ok? <==> v.Ok?)
      && (r.Err? ==> r.error == v.error)
      && (r.Ok? ==> r.value.numbers == st.numbers[..n - 2] + [v.value])
    ensures r.Ok? ==> |r.value.numbers| == |st.numbers| - 1
    ensures r.Ok? ==> r.value.operators == st.operators[..|st.operators| - 1]
  {
    var n := |st.numbers|;
    if n < 2 then Err(if checked then ExtraOperator else IndexOutOfRange)
    else
      var v :- Resolve(st.numbers[n - 2], st.numbers[n - 1], st.operators[|st.operators| - 1]);
      Ok(Stacks(st.numbers[..n - 2] + [v], st.operators[..|st.operators| - 1]))
  }

  /** Reduce while the top operator binds at least as tightly as `token`. */
  function ReduceNotLower(st: Stacks, token: string): Result<Stacks>
    decreases |st.operators|
  {
    if |st.operators| > 0 && Priority(token) <= Priority(st.operators[|st.operators| - 1]) then
      var next :- ReduceTop(st, true);
      ReduceNotLower(next, token)
    else
      Ok(st)
  }

  /** Reduce down to the nearest "(" (or until the operators run out). */
  function ReduceToOpen(st: Stacks): Result<Stacks>
    decreases |st.operators|
  {
    if |st.operators| > 0 && st.operators[|st.operators| - 1] != "(" then
      var next :- ReduceTop(st, false);
      ReduceToOpen(next)
    else
      Ok(st)
  }

  /** The final drain: reduce until no operator is left. Each operator
      consumes one number, so the drain fails whenever the operators are
      not outnumbered by the numbers. */
  function ReduceAll(st: Stacks): (r: Result<Stacks>)
    ensures r.Ok? ==> r.value.operators == []
    ensures r.Ok? ==> |r.value.numbers| == |st.numbers| - |st.operators|
    ensures |st.operators| > 0 && |st.numbers| <= |st.operators| ==> r.Err?
    decreases |st.operators|
  {
    if |st.operators| > 0 then
      var next :- ReduceTop(st, true);
      ReduceAll(next)
    else
      Ok(st)
  }

  /** One token of the evaluator's main loop. A token that is neither a
      number, an operator nor a bracket is skipped. */
  function EvalStep(st: Stacks, token: string): Result<Stacks>
  {
    match ParseFloat(token)
    case Some(v) => Ok(st.(numbers := st.numbers + [v]))
    case None =>
      if |token| > 0 && IsOperator(token[0]) then
        var next :- ReduceNotLower(st, token);
        Ok(next.(operators := next.operators + [token]))
      else if token == "(" then
        Ok(st.(operators := st.operators + [token]))
      else if token == ")" then
        var next :- ReduceToOpen(st);
        Ok(if |next.operators| > 0 then next.(operators := next.operators[..|next.operators| - 1]) else next)
      else
        Ok(st)
  }

  /** The main loop over the remaining tokens. */
  function EvalRun(st: Stacks, tokens: seq<string>): Result<Stacks>
    decreases |tokens|
  {
    if tokens == [] then Ok(st)
    else
      var next :- EvalStep(st, tokens[0]);
      EvalRun(next, tokens[1..])
  }

  /** What Evaluate returns: the main loop, the drain, then exactly one
      number must be left. */
  function Evaluation(tokens: seq<string>): Result<real>
  {
    var st :- EvalRun(Stacks([], []), tokens);
    var fin :- ReduceAll(st);
    if |fin.numbers| != 1 then Err(InvalidExpression) else Ok(fin.numbers[0])
  }

  lemma EvalAdvance(before: Stacks, tokens: seq<string>, i: nat, after: Stacks)
    requires i < |tokens| && EvalStep(before, tokens[i]) == Ok(after)
    ensures EvalRun(before, tokens[i..]) == EvalRun(after, tokens[i + 1..])
  {
    assert tokens[i..][0] == tokens[i] && tokens[i..][1..] == tokens[i + 1..];
  }

  lemma EvalStop(before: Stacks, tokens: seq<string>, i: nat, e: Error)
    requires i < |tokens| && EvalStep(before, tokens[i]) == Err(e)
    ensures EvalRun(before, tokens[i..]) == Err(e)
  {
    assert tokens[i..][0] == tokens[i];
  }

  /** "(" and an operator that meets no operator of higher or equal
      priority are pushed onto the operator stack. */
  lemma PushStep(st: Stacks, c: char, after: Stacks)
    requires c == '(' || (IsOperator(c) && (st.operators == [] || Priority([c]) > Priority(st.operators[|st.operators| - 1])))
    requires after.numbers == st.numbers && after.operators == st.operators + [[c]]
    ensures EvalStep(st, [c]) == Ok(after)
  {
    ParseFloatSymbol(c);
  }

  /** The top operator applied to the top two numbers. */
  lemma ReduceStep(st: Stacks, checked: bool, v: real, after: Stacks)
    requires |st.numbers| >= 2 && |st.operators| > 0
    requires Resolve(st.numbers[|st.numbers| - 2], st.numbers[|st.numbers| - 1], st.operators[|st.operators| - 1]) == Ok(v)
    requires after.numbers == st.numbers[..|st.numbers| - 2] + [v]
    requires after.operators == st.operators[..|st.operators| - 1]
    ensures ReduceTop(st, checked) == Ok(after)
  {
  }

  /** The block the source repeats in each of its three reduction loops:
      pop two numbers and an operator, resolve, push the result. */
  method Reduce(numbers0: seq<real>, operators0: seq<string>)
    returns (r: Result<Stacks>)
    requires |numbers0| >= 2 && |operators0| > 0
    ensures r == ReduceTop(Stacks(numbers0, operators0), true)
    ensures r == ReduceTop(Stacks(numbers0, operators0), false)
  {
    var numbers, operators := numbers0, operators0;
    var num2 := numbers[|numbers| - 1];
    numbers := numbers[..|numbers| - 1];
    var num1 := numbers[|numbers| - 1];
    numbers := numbers[..|numbers| - 1];
    var operator := operators[|operators| - 1];
    operators := operators[..|operators| - 1];
    var res := Resolve(num1, num2, operator);
    if res.Err? {
      return Err(res.error);
    }
    assert numbers == numbers0[..|numbers0| - 2];
    numbers := numbers + [res.value];
    return Ok(Stacks(numbers, operators));
  }

  /** The reduction loop of an incoming operator. */
  method ReduceNotLowerLoop(st: Stacks, token: string) returns (r: Result<Stacks>)
    ensures r == ReduceNotLower(st, token)
  {
    var cur := st;
    while |cur.operators| > 0 && Priority(token) <= Priority(cur.operators[|cur.operators| - 1])
      invariant ReduceNotLower(cur, token) == ReduceNotLower(st, token)
      decreases |cur.operators|
    {
      if |cur.numbers| < 2 {
        return Err(ExtraOperator);
      }
      var next := Reduce(cur.numbers, cur.operators);
      if next.Err? {
        return next;
      }
      cur := next.value;
    }
    return Ok(cur);
  }

  /** The reduction loop of a ")". Fewer than two numbers is the Go panic. */
  method ReduceToOpenLoop(st: Stacks) returns (r: Result<Stacks>)
    ensures r == ReduceToOpen(st)
  {
    var cur := st;
    while |cur.operators| > 0 && cur.operators[|cur.operators| - 1] != "("
      invariant ReduceToOpen(cur) == ReduceToOpen(st)
      decreases |cur.operators|
    {
      if |cur.numbers| < 2 {
        return Err(IndexOutOfRange);
      }
      var next := Reduce(cur.numbers, cur.operators);
      if next.Err? {
        return next;
      }
      cur := next.value;
    }
    return Ok(cur);
  }

  /** The final drain. */
  method ReduceAllLoop(st: Stacks) returns (r: Result<Stacks>)
    ensures r == ReduceAll(st)
  {
    var cur := st;
    while |cur.operators| > 0
      invariant ReduceAll(cur) == ReduceAll(st)
      decreases |cur.operators|
    {
      if |cur.numbers| < 2 {
        return Err(ExtraOperator);
      }
      var next := Reduce(cur.numbers, cur.operators);
      if next.Err? {
        return next;
      }
      cur := next.value;
    }
    return Ok(cur);
  }

  /** The two-stack evaluator of the source, slices as sequences, proved to
      compute Evaluation. */
  method Evaluate(tokens: seq<string>) returns (r: Result<real>)
    requires forall i :: 0 <= i < |tokens| ==> |tokens[i]| > 0
    ensures r == Evaluation(tokens)
  {
    var st := Stacks([], []);
    for i := 0 to |tokens|
      invariant EvalRun(st, tokens[i..]) == EvalRun(Stacks([], []), tokens)
    {
      var token := tokens[i];
      var parsed := ParseFloat(token);
      if parsed.Some? {
        EvalAdvance(st, tokens, i, st.(numbers := st.numbers + [parsed.value]));
        st := st.(numbers := st.numbers + [parsed.value]);
      } else if IsOperator(token[0]) {
        var next := ReduceNotLowerLoop(st, token);
        if next.Err? {
          EvalStop(st, tokens, i, next.error);
          return Err(next.error);
        }
        EvalAdvance(st, tokens, i, next.value.(operators := next.value.operators + [token]));
        st := next.value.(operators := next.value.operators + [token]);
      } else if token == "(" {
        EvalAdvance(st, tokens, i, st.(operators := st.operators + [token]));
        st := st.(operators := st.operators + [token]);
      } else if token == ")" {
        var next := ReduceToOpenLoop(st);
        if next.Err? {
          EvalStop(st, tokens, i, next.error);
          return Err(next.error);
        }
        var after := next.value;
        if |after.operators| > 0 {
          after := after.(operators := after.operators[..|after.operators| - 1]);
        }
        EvalAdvance(st, tokens, i, after);
        st := after;
      } else {
        EvalAdvance(st, tokens, i, st);
      }
    }
    var fin := ReduceAllLoop(st);
    if fin.Err? {
      return Err(fin.error);
    }
    if |fin.value.numbers| != 1 {
      return Err(InvalidExpression);
    }
    return Ok(fin.value.numbers[0]);
  }

  // ---------------------------------------------------------------------
  // Calc

  /** What Calc returns: spaces removed, bracket counts compared, then the
      tokens evaluated. */
  function Calculation(expression: string): Result<real>
  {
    var s := RemoveSpaces(expression);
    if Count(s, '(') > Count(s, ')') then Err(ExtraOpenBracket)
    else if Count(s, '(') < Count(s, ')') then Err(ExtraCloseBracket)
    else
      var tokens :- Tokenization(s);
      Evaluation(tokens)
  }

  /** Spaces removed, then the bracket counts are compared before anything
      is tokenized; only a balanced count reaches the evaluator. */
  method Calc(expression: string) returns (r: Result<real>)
    ensures r == Calculation(expression)
    ensures var s := RemoveSpaces(expression);
      && (Count(s, '(') > Count(s, ')') ==> r == Err(ExtraOpenBracket))
      && (Count(s, '(') < Count(s, ')') ==> r == Err(ExtraCloseBracket))
      && (Count(s, '(') == Count(s, ')') && !AllAcceptable(s) ==> r == Err(UnacceptableSymbol))
      && (Count(s, '(') == Count(s, ')') && AllAcceptable(s) ==> r == Evaluation(Lex(s)))
  {
    var s := RemoveSpaces(expression);
    if Count(s, '(') > Count(s, ')') {
      return Err(ExtraOpenBracket);
    }
    if Count(s, '(') < Count(s, ')') {
      return Err(ExtraCloseBracket);
    }
    NoSpacesFixed(s);
    var tokens :- Tokenize(s);
    r := Evaluate(tokens);
  }
}
