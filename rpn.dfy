/** pkg/calculator/rpn.go: the shunting-yard conversion to postfix, with the
    bracket-depth bonus `skobaLevel` added to the priority of the incoming
    operator only. */
module Rpn {
  import opened Errors
  import opened Strconv
  import opened Calculator

  /** The `output` and `operators` slices and the `skobaLevel` counter. */
  datatype Converter = Converter(output: seq<string>, operators: seq<string>, level: int)

  function Reversed(s: seq<string>): (r: seq<string>)
    ensures |r| == |s|
    ensures forall i :: 0 <= i < |s| ==> r[i] == s[|s| - 1 - i]
  {
    if s == [] then []
    else
      assert s == s[..|s| - 1] + [s[|s| - 1]];
      [s[|s| - 1]] + Reversed(s[..|s| - 1])
  }

  lemma {:induction false} ReversedMultiset(s: seq<string>)
    ensures multiset(Reversed(s)) == multiset(s)
  {
    if s != [] {
      ReversedMultiset(s[..|s| - 1]);
      assert s == s[..|s| - 1] + [s[|s| - 1]];
    }
  }

  /** The numerals of a token list, in order. */
  function Numerals(s: seq<string>): seq<string>
  {
    if s == [] then [] else (if IsNumeral(s[0]) then [s[0]] else []) + Numerals(s[1..])
  }

  lemma {:induction false} NumeralsAppend(a: seq<string>, b: seq<string>)
    ensures Numerals(a + b) == Numerals(a) + Numerals(b)
  {
    if a != [] {
      assert (a + b)[0] == a[0];
      assert (a + b)[1..] == a[1..] + b;
      NumeralsAppend(a[1..], b);
    } else {
      assert a + b == b;
    }
  }

  lemma {:induction false} NumeralsNone(s: seq<string>)
    requires forall i :: 0 <= i < |s| ==> !IsNumeral(s[i])
    ensures Numerals(s) == []
  {
    if s != [] {
      NumeralsNone(s[1..]);
    }
  }

  /** `after` is `before` with some top part of the operator stack moved to
      the output in pop order (top first). */
  ghost predicate PoppedFrom(before: Converter, after: Converter)
  {
    |after.operators| <= |before.operators|
    && after.operators == before.operators[..|after.operators|]
    && after.output == before.output + Reversed(before.operators[|after.operators|..])
    && after.level == before.level
  }

  /** The part above `k` of a non-empty stack is the part of the stack
      without its top above `k`, then the top. */
  lemma SuffixSplit(s: seq<string>, k: nat)
    requires 0 < |s| && k < |s|
    ensures s[k..] == s[..|s| - 1][k..] + [s[|s| - 1]]
    ensures Reversed(s[k..]) == [s[|s| - 1]] + Reversed(s[..|s| - 1][k..])
    ensures s[..|s| - 1][..k] == s[..k]
  {
    assert s[k..] == s[..|s| - 1][k..] + [s[|s| - 1]];
    var t := s[k..];
    assert t[..|t| - 1] == s[..|s| - 1][k..];
  }

  /** Moving the top operator, then more, is moving more. */
  lemma PopOneThenMore(st: Converter, r: Converter)
    requires |st.operators| > 0
    requires PoppedFrom(PopOne(st), r)
    ensures PoppedFrom(st, r)
    ensures st.operators[|r.operators|..] == PopOne(st).operators[|r.operators|..] + [st.operators[|st.operators| - 1]]
  {
    var n := |st.operators|;
    var k := |r.operators|;
    var ops := st.operators;
    var top := ops[n - 1];
    var rest := ops[..n - 1];
    assert PopOne(st).operators == rest;
    assert PopOne(st).output == st.output + [top];
    SuffixSplit(ops, k);
    var tail := Reversed(rest[k..]);
    assert r.output == (st.output + [top]) + tail;
    assert r.output == st.output + ([top] + tail);
  }

  /** Moves the top operator to the output. */
  function PopOne(st: Converter): Converter
    requires |st.operators| > 0
  {
    Converter(st.output + [st.operators[|st.operators| - 1]], st.operators[..|st.operators| - 1], st.level)
  }

  /** Pops operators to the output while the top one has a priority of at
      least `priority`. */
  function PopNotLower(st: Converter, priority: int): Converter
    decreases |st.operators|
  {
    if |st.operators| > 0 && Priority(st.operators[|st.operators| - 1]) >= priority then
      PopNotLower(PopOne(st), priority)
    else
      st
  }

  /** What PopNotLower moves is the top of the stack, in pop order; a "("
      is never moved while `priority` is positive. */
  lemma {:induction false} PopNotLowerMoves(st: Converter, priority: int)
    ensures PoppedFrom(st, PopNotLower(st, priority))
    ensures priority > 0 ==> "(" !in st.operators[|PopNotLower(st, priority).operators|..]
    decreases |st.operators|
  {
    if |st.operators| > 0 && Priority(st.operators[|st.operators| - 1]) >= priority {
      PopNotLowerMoves(PopOne(st), priority);
      PopOneThenMore(st, PopNotLower(st, priority));
    } else {
      assert st.operators[|st.operators|..] == [];
    }
  }

  /** Pops operators to the output down to the nearest "(" (which stays). */
  function PopToOpen(st: Converter): Converter
    decreases |st.operators|
  {
    if |st.operators| > 0 && st.operators[|st.operators| - 1] != "(" then
      PopToOpen(PopOne(st))
    else
      st
  }

  /** PopToOpen moves the top of the stack down to the nearest "(", in pop
      order, and no "(" with it; what stays is empty or has "(" on top. */
  lemma {:induction false} PopToOpenMoves(st: Converter)
    ensures PoppedFrom(st, PopToOpen(st))
    ensures "(" !in st.operators[|PopToOpen(st).operators|..]
    ensures PopToOpen(st).operators == [] || PopToOpen(st).operators[|PopToOpen(st).operators| - 1] == "("
    decreases |st.operators|
  {
    if |st.operators| > 0 && st.operators[|st.operators| - 1] != "(" {
      PopToOpenMoves(PopOne(st));
      PopOneThenMore(st, PopToOpen(st));
    } else {
      assert st.operators[|st.operators|..] == [];
    }
  }

  /** Which branch of the conversion loop a token takes, tried in the
      source's order. */
  datatype Kind = NumberToken | OpenToken | CloseToken | OperatorToken | OtherToken

  function Classify(token: string): (k: Kind)
    ensures k == NumberToken <==> IsNumeral(token)
    ensures k == OpenToken ==> token == "("
    ensures k == CloseToken ==> token == ")"
    ensures k == OperatorToken ==> |token| > 0 && IsOperator(token[0])
  {
    if IsNumeral(token) then NumberToken
    else if token == "(" then OpenToken
    else if token == ")" then CloseToken
    else if |token| > 0 && IsOperator(token[0]) then OperatorToken
    else OtherToken
  }

  /** One token of the conversion loop. */
  function RpnStep(st: Converter, token: string): Result<Converter>
  {
    match Classify(token)
    case NumberToken => Ok(st.(output := st.output + [token]))
    case OpenToken => Ok(Converter(st.output, st.operators + [token], st.level + 2))
    case CloseToken =>
      var next := PopToOpen(st);
      if |next.operators| == 0 then Err(InvalidExpression)
      else Ok(Converter(next.output, next.operators[..|next.operators| - 1], next.level - 2))
    case OperatorToken =>
      var next := PopNotLower(st, Priority(token) + st.level);
      Ok(next.(operators := next.operators + [token]))
    case OtherToken => Err(UnacceptableSymbol)
  }

  function RpnRun(st: Converter, tokens: seq<string>): Result<Converter>
    decreases |tokens|
  {
    if tokens == [] then Ok(st)
    else
      var next :- RpnStep(st, tokens[0]);
      RpnRun(next, tokens[1..])
  }

  lemma Advance(before: Converter, tokens: seq<string>, i: nat, after: Converter)
    requires i < |tokens| && RpnStep(before, tokens[i]) == Ok(after)
    ensures RpnRun(before, tokens[i..]) == RpnRun(after, tokens[i + 1..])
  {
    assert tokens[i..][0] == tokens[i] && tokens[i..][1..] == tokens[i + 1..];
  }

  lemma Stop(before: Converter, tokens: seq<string>, i: nat, e: Error)
    requires i < |tokens| && RpnStep(before, tokens[i]) == Err(e)
    ensures RpnRun(before, tokens[i..]) == Err(e)
  {
    assert tokens[i..][0] == tokens[i];
  }

  /** A run that succeeds is a successful first step, then a successful
      run of the rest. */
  lemma RunCons(st: Converter, tokens: seq<string>)
    requires tokens != [] && RpnRun(st, tokens).Ok?
    ensures RpnStep(st, tokens[0]).Ok?
    ensures RpnRun(st, tokens) == RpnRun(RpnStep(st, tokens[0]).value, tokens[1..])
  {
  }

  /** An operator that pops nothing is pushed. */
  lemma PushOperatorStep(st: Converter, c: char, after: Converter)
    requires IsOperator(c)
    requires st.operators == [] || Priority(st.operators[|st.operators| - 1]) < Priority([c]) + st.level
    requires after.output == st.output && after.operators == st.operators + [[c]] && after.level == st.level
    ensures RpnStep(st, [c]) == Ok(after)
  {
    ParseFloatSymbol(c);
  }

  function Start(): Converter { Converter([], [], 0) }

  /** What ToRPN returns: the conversion loop, then the remaining operators
      in pop order. */
  function Conversion(tokens: seq<string>): Result<seq<string>>
  {
    var st :- RpnRun(Start(), tokens);
    Ok(st.output + Reversed(st.operators))
  }

  /** The loop of the ")" branch (rpn.go, lines 20-23). */
  method PopToOpenLoop(output0: seq<string>, operators0: seq<string>, level: int)
    returns (output: seq<string>, operators: seq<string>)
    ensures Converter(output, operators, level) == PopToOpen(Converter(output0, operators0, level))
  {
    output, operators := output0, operators0;
    while |operators| > 0 && operators[|operators| - 1] != "("
      invariant PopToOpen(Converter(output, operators, level)) == PopToOpen(Converter(output0, operators0, level))
      decreases |operators|
    {
      ghost var cur := Converter(output, operators, level);
      assert PopToOpen(cur) == PopToOpen(PopOne(cur));
      output := output + [operators[|operators| - 1]];
      operators := operators[..|operators| - 1];
      assert Converter(output, operators, level) == PopOne(cur);
    }
  }

  /** The loop of the operator branch (rpn.go, lines 32-35). */
  method PopNotLowerLoop(output0: seq<string>, operators0: seq<string>, level: int, priority: int)
    returns (output: seq<string>, operators: seq<string>)
    ensures Converter(output, operators, level) == PopNotLower(Converter(output0, operators0, level), priority)
  {
    output, operators := output0, operators0;
    while |operators| > 0 && Priority(operators[|operators| - 1]) >= priority
      invariant PopNotLower(Converter(output, operators, level), priority) == PopNotLower(Converter(output0, operators0, level), priority)
      decreases |operators|
    {
      ghost var cur := Converter(output, operators, level);
      assert PopNotLower(cur, priority) == PopNotLower(PopOne(cur), priority);
      output := output + [operators[|operators| - 1]];
      operators := operators[..|operators| - 1];
      assert Converter(output, operators, level) == PopOne(cur);
    }
  }

  /** The conversion loop of the source, slices as sequences. */
  method ToRPN(tokens: seq<string>) returns (r: Result<seq<string>>)
    requires forall i :: 0 <= i < |tokens| ==> |tokens[i]| > 0
    ensures r == Conversion(tokens)
  {
    var output: seq<string> := [];
    var operators: seq<string> := [];
    var skobaLevel := 0;
    for i := 0 to |tokens|
      invariant RpnRun(Converter(output, operators, skobaLevel), tokens[i..]) == RpnRun(Start(), tokens)
    {
      var token := tokens[i];
      ghost var before := Converter(output, operators, skobaLevel);
      var parsed := ParseFloat(token);
      ghost var numeral := IsNumeral(token);
      assert parsed.Some? == numeral;
      if parsed.Some? {
        assert Classify(token) == NumberToken;
        output := output + [token];
        Advance(before, tokens, i, Converter(output, operators, skobaLevel));
      } else if token == "(" {
        assert Classify(token) == OpenToken;
        skobaLevel := skobaLevel + 2;
        operators := operators + [token];
        Advance(before, tokens, i, Converter(output, operators, skobaLevel));
      } else if token == ")" {
        assert Classify(token) == CloseToken;
        output, operators := PopToOpenLoop(output, operators, skobaLevel);
        if |operators| == 0 {
          Stop(before, tokens, i, InvalidExpression);
          return Err(InvalidExpression);
        }
        operators := operators[..|operators| - 1];
        skobaLevel := skobaLevel - 2;
        Advance(before, tokens, i, Converter(output, operators, skobaLevel));
      } else if IsOperator(token[0]) {
        assert Classify(token) == OperatorToken;
        var priority := Priority(token) + skobaLevel;
        output, operators := PopNotLowerLoop(output, operators, skobaLevel, priority);
        operators := operators + [token];
        Advance(before, tokens, i, Converter(output, operators, skobaLevel));
      } else {
        assert Classify(token) == OtherToken;
        Stop(before, tokens, i, UnacceptableSymbol);
        return Err(UnacceptableSymbol);
      }
    }
    ghost var loopEnd := output + Reversed(operators);
    while |operators| > 0
      invariant output + Reversed(operators) == loopEnd
      decreases |operators|
    {
      var top := operators[|operators| - 1];
      assert Reversed(operators) == [top] + Reversed(operators[..|operators| - 1]);
      assert output + Reversed(operators) == (output + [top]) + Reversed(operators[..|operators| - 1]);
      output := output + [top];
      operators := operators[..|operators| - 1];
    }
    assert Reversed(operators) == [];
    assert output == loopEnd;
    return Ok(output);
  }

  // ---------------------------------------------------------------------
  // What the conversion guarantees

  /** The reference the conversion's errors are checked against: a scan
      that only tracks the bracket depth. */
  function ScanStep(depth: nat, token: string): Result<nat>
  {
    match Classify(token)
    case NumberToken => Ok(depth)
    case OpenToken => Ok(depth + 1)
    case CloseToken => if depth == 0 then Err(InvalidExpression) else Ok(depth - 1)
    case OperatorToken => Ok(depth)
    case OtherToken => Err(UnacceptableSymbol)
  }

  function BracketScan(depth: nat, tokens: seq<string>): Result<nat>
    decreases |tokens|
  {
    if tokens == [] then Ok(depth)
    else
      var next :- ScanStep(depth, tokens[0]);
      BracketScan(next, tokens[1..])
  }

  /** `c` matched pairs of brackets. */
  function Pairs(c: nat): multiset<string>
  {
    multiset{}["(" := c][")" := c]
  }

  lemma NotNumeralSymbol(c: char)
    requires c in "+-*/()"
    ensures !IsNumeral([c])
  {
    ParseFloatSymbol(c);
  }

  lemma NumeralsOne(t: string)
    ensures Numerals([t]) == if IsNumeral(t) then [t] else []
  {
    assert [t][1..] == [];
  }

  /** Consuming the first token, then the rest, is consuming them all. */
  lemma ConsumeHead(consumed: seq<string>, tokens: seq<string>)
    requires tokens != []
    ensures consumed + [tokens[0]] + tokens[1..] == consumed + tokens
  {
    assert tokens == [tokens[0]] + tokens[1..];
  }

  lemma SplitAt(s: seq<string>, k: nat)
    requires k <= |s|
    ensures s == s[..k] + s[k..]
    ensures multiset(s) == multiset(s[..k]) + multiset(s[k..])
  {
    assert s == s[..k] + s[k..];
  }

  /** A ")" that succeeds keeps the stack below the nearest "(" and moves
      everything above it to the output. */
  lemma CloseShape(st: Converter)
    requires RpnStep(st, ")").Ok?
    ensures var k := |PopToOpen(st).operators|;
      && 0 < k <= |st.operators|
      && st.operators[k - 1] == "("
      && "(" !in st.operators[k..]
      && RpnStep(st, ")").value == Converter(st.output + Reversed(st.operators[k..]), st.operators[..k - 1], st.level - 2)
  {
    CloseFound(st);
    CloseValue(st);
  }

  /** A matched ")" finds its "(" at position k - 1 with none above it. */
  lemma CloseFound(st: Converter)
    requires RpnStep(st, ")").Ok?
    ensures var k := |PopToOpen(st).operators|;
      && 0 < k <= |st.operators|
      && st.operators[k - 1] == "("
      && "(" !in st.operators[k..]
  {
    CloseUnfold(st);
    PopToOpenMoves(st);
  }

  /** What a matched ")" leaves: the part above the "(" moved out, the "("
      dropped, the level two lower. */
  lemma CloseValue(st: Converter)
    requires RpnStep(st, ")").Ok?
    ensures var k := |PopToOpen(st).operators|;
      && 0 < k <= |st.operators|
      && RpnStep(st, ")").value == Converter(st.output + Reversed(st.operators[k..]), st.operators[..k - 1], st.level - 2)
  {
    CloseUnfold(st);
    PopToOpenMoves(st);
    var next := PopToOpen(st);
    var k := |next.operators|;
    assert next.operators[..k - 1] == st.operators[..k - 1];
  }

  /** The ")" branch of the conversion step. */
  lemma CloseUnfold(st: Converter)
    ensures var next := PopToOpen(st);
      RpnStep(st, ")") == if |next.operators| == 0 then Err(InvalidExpression)
                          else Ok(Converter(next.output, next.operators[..|next.operators| - 1], next.level - 2))
  {
    NotNumeralSymbol(')');
    assert Classify(")") == CloseToken;
  }

  /** An incoming operator keeps a bottom part of the stack, moves the rest
      to the output and is pushed. */
  lemma OperatorShape(st: Converter, token: string)
    requires Classify(token) == OperatorToken
    ensures var k := |PopNotLower(st, Priority(token) + st.level).operators|;
      && k <= |st.operators|
      && (Priority(token) + st.level > 0 ==> "(" !in st.operators[k..])
      && RpnStep(st, token) == Ok(Converter(st.output + Reversed(st.operators[k..]), st.operators[..k] + [token], st.level))
  {
    PopNotLowerMoves(st, Priority(token) + st.level);
  }

  lemma ClassifySymbols()
    ensures Classify("(") == OpenToken && Classify(")") == CloseToken
  {
    NotNumeralSymbol('(');
    NotNumeralSymbol(')');
  }

  // The depth invariant, and agreement with the bracket scan.

  /** `skobaLevel` is twice the number of "(" on the stack, which is the
      scan's depth, and no ")" is ever stacked. */
  ghost predicate DepthOk(st: Converter, depth: nat)
  {
    st.level == 2 * depth && multiset(st.operators)["("] == depth && ")" !in st.operators
  }

  lemma DepthStep(st: Converter, depth: nat, token: string)
    requires DepthOk(st, depth)
    ensures RpnStep(st, token).Ok? <==> ScanStep(depth, token).Ok?
    ensures RpnStep(st, token).Err? ==> RpnStep(st, token).error == ScanStep(depth, token).error
    ensures RpnStep(st, token).Ok? ==> DepthOk(RpnStep(st, token).value, ScanStep(depth, token).value)
  {
    ClassifySymbols();
    match Classify(token)
    case NumberToken =>
    case OpenToken =>
      assert multiset(st.operators + ["("]) == multiset(st.operators) + multiset{"("};
    case CloseToken =>
      DepthClose(st, depth);
    case OperatorToken =>
      DepthOperator(st, depth, token);
    case OtherToken =>
  }

  /** A ")" fails exactly when no "(" is stacked; otherwise it pops one. */
  lemma DepthClose(st: Converter, depth: nat)
    requires DepthOk(st, depth)
    ensures RpnStep(st, ")").Ok? <==> depth > 0
    ensures RpnStep(st, ")").Err? ==> RpnStep(st, ")").error == InvalidExpression
    ensures RpnStep(st, ")").Ok? ==> DepthOk(RpnStep(st, ")").value, depth - 1)
  {
    ClassifySymbols();
    PopToOpenMoves(st);
    var next := PopToOpen(st);
    var k := |next.operators|;
    assert multiset(next.operators)["("] == depth by {
      SplitAt(st.operators, k);
      assert next.operators == st.operators[..k];
    }
    if depth == 0 {
      assert "(" !in next.operators;
    } else {
      assert next.operators != [];
      CloseShape(st);
      DepthAfterClose(st.operators, k);
    }
  }

  lemma DepthAfterClose(ops: seq<string>, k: nat)
    requires 0 < k <= |ops| && ops[k - 1] == "(" && ")" !in ops
    ensures multiset(ops[..k - 1])["("] == multiset(ops[..k])["("] - 1
    ensures ")" !in ops[..k - 1]
  {
    var rest := ops[..k - 1];
    assert ops[..k] == rest + ["("];
    assert multiset(ops[..k]) == multiset(rest) + multiset{"("};
    SplitAt(ops, k - 1);
  }

  /** An incoming operator neither pushes nor pops a bracket. */
  lemma DepthOperator(st: Converter, depth: nat, token: string)
    requires DepthOk(st, depth) && Classify(token) == OperatorToken
    ensures RpnStep(st, token).Ok?
    ensures DepthOk(RpnStep(st, token).value, depth)
  {
    ClassifySymbols();
    OperatorShape(st, token);
    var k := |PopNotLower(st, Priority(token) + st.level).operators|;
    var kept := st.operators[..k];
    assert multiset(st.operators[k..])["("] == 0;
    assert multiset(kept)["("] == depth && ")" !in kept by {
      SplitAt(st.operators, k);
    }
    assert multiset(kept + [token]) == multiset(kept) + multiset{token};
  }

  lemma {:induction false} DepthRun(st: Converter, depth: nat, tokens: seq<string>)
    requires DepthOk(st, depth)
    ensures RpnRun(st, tokens).Ok? <==> BracketScan(depth, tokens).Ok?
    ensures RpnRun(st, tokens).Err? ==> RpnRun(st, tokens).error == BracketScan(depth, tokens).error
    ensures RpnRun(st, tokens).Ok? ==> DepthOk(RpnRun(st, tokens).value, BracketScan(depth, tokens).value)
    decreases |tokens|
  {
    if tokens != [] {
      DepthStep(st, depth, tokens[0]);
      if RpnStep(st, tokens[0]).Ok? {
        DepthRun(RpnStep(st, tokens[0]).value, ScanStep(depth, tokens[0]).value, tokens[1..]);
      }
    }
  }

  // The pool of tokens: what was read is in the output or on the stack,
  // except matched bracket pairs, which are dropped.

  ghost predicate PoolOk(st: Converter, consumed: seq<string>)
  {
    && "(" !in st.output && ")" !in st.output
    && multiset(st.output) + multiset(st.operators) + Pairs(multiset(consumed)[")"]) == multiset(consumed)
  }

  lemma PoolStep(st: Converter, depth: nat, consumed: seq<string>, token: string)
    requires DepthOk(st, depth) && PoolOk(st, consumed) && RpnStep(st, token).Ok?
    ensures PoolOk(RpnStep(st, token).value, consumed + [token])
  {
    ClassifySymbols();
    assert multiset(consumed + [token]) == multiset(consumed) + multiset{token};
    match Classify(token)
    case NumberToken =>
      assert multiset(st.output + [token]) == multiset(st.output) + multiset{token};
    case OpenToken =>
      assert multiset(st.operators + ["("]) == multiset(st.operators) + multiset{"("};
    case CloseToken =>
      PoolClose(st, depth, consumed);
    case OperatorToken =>
      PoolOperator(st, depth, consumed, token);
  }

  lemma PoolClose(st: Converter, depth: nat, consumed: seq<string>)
    requires DepthOk(st, depth) && PoolOk(st, consumed) && RpnStep(st, ")").Ok?
    ensures PoolOk(RpnStep(st, ")").value, consumed + [")"])
  {
    CloseShape(st);
    PoolAfterClose(st.output, st.operators, consumed, |PopToOpen(st).operators|);
  }

  /** A stack with "(" at position k - 1 is what lies below it, the "(",
      and what lies above it. */
  lemma OpenSplit(ops: seq<string>, k: nat)
    requires 0 < k <= |ops| && ops[k - 1] == "("
    ensures multiset(ops) == multiset(ops[..k - 1]) + multiset{"("} + multiset(ops[k..])
  {
    SplitAt(ops, k);
    assert ops[..k] == ops[..k - 1] + ["("];
  }

  lemma PairsSucc(c: nat)
    ensures Pairs(c + 1) == Pairs(c) + multiset{"(", ")"}
  {
  }

  lemma CloseConsumed(consumed: seq<string>)
    ensures multiset(consumed + [")"]) == multiset(consumed) + multiset{")"}
    ensures multiset(consumed + [")"])[")"] == multiset(consumed)[")"] + 1
  {
    assert multiset(consumed + [")"]) == multiset(consumed) + multiset{")"};
  }

  /** The pool arithmetic of a matched ")", on plain sequences. */
  lemma PoolAfterClose(output: seq<string>, ops: seq<string>, consumed: seq<string>, k: nat)
    requires 0 < k <= |ops| && ops[k - 1] == "(" && "(" !in ops[k..] && ")" !in ops
    requires "(" !in output && ")" !in output
    requires multiset(output) + multiset(ops) + Pairs(multiset(consumed)[")"]) == multiset(consumed)
    ensures "(" !in output + Reversed(ops[k..]) && ")" !in output + Reversed(ops[k..])
    ensures multiset(output + Reversed(ops[k..])) + multiset(ops[..k - 1]) + Pairs(multiset(consumed + [")"])[")"])
      == multiset(consumed + [")"])
  {
    var moved := ops[k..];
    var rest := ops[..k - 1];
    var c := multiset(consumed)[")"];
    OpenSplit(ops, k);
    ReversedMultiset(moved);
    assert multiset(output + Reversed(moved)) == multiset(output) + multiset(moved);
    CloseConsumed(consumed);
    PairsSucc(c);
    var a, m, r := multiset(output), multiset(moved), multiset(rest);
    calc {
      multiset(output + Reversed(moved)) + multiset(rest) + Pairs(c + 1);
      a + m + r + (Pairs(c) + multiset{"(", ")"});
      (a + (r + multiset{"("} + m) + Pairs(c)) + multiset{")"};
      multiset(consumed) + multiset{")"};
    }
  }

  lemma PoolOperator(st: Converter, depth: nat, consumed: seq<string>, token: string)
    requires DepthOk(st, depth) && PoolOk(st, consumed) && Classify(token) == OperatorToken
    ensures RpnStep(st, token).Ok?
    ensures PoolOk(RpnStep(st, token).value, consumed + [token])
  {
    ClassifySymbols();
    OperatorShape(st, token);
    var k := |PopNotLower(st, Priority(token) + st.level).operators|;
    var moved := st.operators[k..];
    var kept := st.operators[..k];
    var output := st.output + Reversed(moved);
    assert multiset(st.operators) == multiset(kept) + multiset(moved) by {
      SplitAt(st.operators, k);
    }
    assert multiset(output) == multiset(st.output) + multiset(moved) by {
      ReversedMultiset(moved);
    }
    assert multiset(moved)["("] == 0 && multiset(moved)[")"] == 0 by {
      if depth == 0 {
        assert multiset(moved)["("] <= multiset(st.operators)["("];
      }
    }
    assert multiset(consumed + [token]) == multiset(consumed) + multiset{token};
    assert multiset(kept + [token]) == multiset(kept) + multiset{token};
  }

  lemma {:induction false} PoolRun(st: Converter, depth: nat, consumed: seq<string>, tokens: seq<string>)
    requires DepthOk(st, depth) && PoolOk(st, consumed) && RpnRun(st, tokens).Ok?
    ensures PoolOk(RpnRun(st, tokens).value, consumed + tokens)
    decreases |tokens|
  {
    if tokens == [] {
      assert consumed + tokens == consumed;
    } else {
      var t := tokens[0];
      RunCons(st, tokens);
      DepthStep(st, depth, t);
      PoolStep(st, depth, consumed, t);
      ConsumeHead(consumed, tokens);
      PoolRun(RpnStep(st, t).value, ScanStep(depth, t).value, consumed + [t], tokens[1..]);
    }
  }

  // Numbers keep their order; the stack never holds one.

  ghost predicate NumbersOk(st: Converter, consumed: seq<string>)
  {
    && (forall j :: 0 <= j < |st.operators| ==> !IsNumeral(st.operators[j]))
    && Numerals(st.output) == Numerals(consumed)
  }

  lemma NumbersMoved(st: Converter, k: nat)
    requires k <= |st.operators|
    requires forall j :: 0 <= j < |st.operators| ==> !IsNumeral(st.operators[j])
    ensures Numerals(st.output + Reversed(st.operators[k..])) == Numerals(st.output)
  {
    var moved := st.operators[k..];
    NumeralsAppend(st.output, Reversed(moved));
    assert forall j :: 0 <= j < |moved| ==> !IsNumeral(moved[j]) by {
      forall j | 0 <= j < |moved| ensures !IsNumeral(moved[j]) {
        assert moved[j] == st.operators[k + j];
      }
    }
    NumeralsNone(Reversed(moved));
    assert st.output + [] == st.output;
  }

  lemma NumbersStep(st: Converter, consumed: seq<string>, token: string)
    requires NumbersOk(st, consumed) && RpnStep(st, token).Ok?
    ensures NumbersOk(RpnStep(st, token).value, consumed + [token])
  {
    NumeralsAppend(consumed, [token]);
    NumeralsOne(token);
    match Classify(token)
    case NumberToken =>
      NumeralsAppend(st.output, [token]);
    case OpenToken =>
      NumbersOpen(st, consumed);
    case CloseToken =>
      NumbersClose(st, consumed);
    case OperatorToken =>
      NumbersOperator(st, consumed, token);
  }

  lemma NumbersOpen(st: Converter, consumed: seq<string>)
    requires NumbersOk(st, consumed)
    requires Numerals(consumed + ["("]) == Numerals(consumed)
    ensures RpnStep(st, "(").Ok? && NumbersOk(RpnStep(st, "(").value, consumed + ["("])
  {
    ClassifySymbols();
    NotNumeralSymbol('(');
    var ops := st.operators + ["("];
    forall j | 0 <= j < |ops| ensures !IsNumeral(ops[j]) {
      if j < |st.operators| { assert ops[j] == st.operators[j]; }
    }
  }

  lemma NumbersClose(st: Converter, consumed: seq<string>)
    requires NumbersOk(st, consumed) && RpnStep(st, ")").Ok?
    requires Numerals(consumed + [")"]) == Numerals(consumed)
    ensures NumbersOk(RpnStep(st, ")").value, consumed + [")"])
  {
    CloseShape(st);
    var k := |PopToOpen(st).operators|;
    NumbersMoved(st, k);
    var rest := st.operators[..k - 1];
    forall j | 0 <= j < |rest| ensures !IsNumeral(rest[j]) {
      assert rest[j] == st.operators[j];
    }
  }

  lemma NumbersOperator(st: Converter, consumed: seq<string>, token: string)
    requires NumbersOk(st, consumed) && Classify(token) == OperatorToken
    requires Numerals(consumed + [token]) == Numerals(consumed)
    ensures RpnStep(st, token).Ok? && NumbersOk(RpnStep(st, token).value, consumed + [token])
  {
    OperatorShape(st, token);
    var k := |PopNotLower(st, Priority(token) + st.level).operators|;
    NumbersMoved(st, k);
    var ops := st.operators[..k] + [token];
    forall j | 0 <= j < |ops| ensures !IsNumeral(ops[j]) {
      if j < k { assert ops[j] == st.operators[j]; }
    }
  }

  lemma {:induction false} NumbersRun(st: Converter, consumed: seq<string>, tokens: seq<string>)
    requires NumbersOk(st, consumed) && RpnRun(st, tokens).Ok?
    ensures NumbersOk(RpnRun(st, tokens).value, consumed + tokens)
    decreases |tokens|
  {
    if tokens == [] {
      assert consumed + tokens == consumed;
    } else {
      var t := tokens[0];
      RunCons(st, tokens);
      NumbersStep(st, consumed, t);
      ConsumeHead(consumed, tokens);
      NumbersRun(RpnStep(st, t).value, consumed + [t], tokens[1..]);
    }
  }

  // Lengths: every token read is kept, except that a ")" drops itself and
  // its "(".

  ghost predicate LengthOk(st: Converter, consumed: seq<string>)
  {
    |st.output| + |st.operators| + 2 * multiset(consumed)[")"] == |consumed|
  }

  lemma LengthStep(st: Converter, consumed: seq<string>, token: string)
    requires LengthOk(st, consumed) && RpnStep(st, token).Ok?
    ensures LengthOk(RpnStep(st, token).value, consumed + [token])
  {
    ClassifySymbols();
    assert multiset(consumed + [token]) == multiset(consumed) + multiset{token};
    match Classify(token)
    case NumberToken =>
    case OpenToken =>
    case CloseToken =>
      CloseShape(st);
    case OperatorToken =>
      OperatorShape(st, token);
  }

  lemma {:induction false} LengthRun(st: Converter, consumed: seq<string>, tokens: seq<string>)
    requires LengthOk(st, consumed) && RpnRun(st, tokens).Ok?
    ensures LengthOk(RpnRun(st, tokens).value, consumed + tokens)
    decreases |tokens|
  {
    if tokens == [] {
      assert consumed + tokens == consumed;
    } else {
      var t := tokens[0];
      RunCons(st, tokens);
      LengthStep(st, consumed, t);
      ConsumeHead(consumed, tokens);
      LengthRun(RpnStep(st, t).value, consumed + [t], tokens[1..]);
    }
  }

  /** The conversion of a token list: it fails exactly where the bracket
      scan does (an unmatched ")" is InvalidExpression, any token that is
      neither a number, a bracket nor an operator is UnacceptableSymbol); a
      result holds no ")", every number in input order, every other
      non-bracket token as often as the input does, and one "(" for each
      one left unmatched. */
  lemma ConversionShape(tokens: seq<string>)
    ensures Conversion(tokens).Ok? <==> BracketScan(0, tokens).Ok?
    ensures Conversion(tokens).Err? ==> Conversion(tokens).error == BracketScan(0, tokens).error
    ensures Conversion(tokens).Ok? ==>
      var out := Conversion(tokens).value;
      && ")" !in out
      && multiset(out) + Pairs(multiset(tokens)[")"]) == multiset(tokens)
      && Numerals(out) == Numerals(tokens)
      && |out| + 2 * multiset(tokens)[")"] == |tokens|
  {
    assert DepthOk(Start(), 0);
    DepthRun(Start(), 0, tokens);
    var run := RpnRun(Start(), tokens);
    if run.Ok? {
      assert [] + tokens == tokens;
      assert PoolOk(Start(), []) by {
        assert Pairs(0) == multiset{};
      }
      PoolRun(Start(), 0, [], tokens);
      assert NumbersOk(Start(), []);
      NumbersRun(Start(), [], tokens);
      assert LengthOk(Start(), []);
      LengthRun(Start(), [], tokens);
      var st := run.value;
      var out := st.output + Reversed(st.operators);
      ReversedMultiset(st.operators);
      NumbersMoved(st, 0);
      assert st.operators[0..] == st.operators;
      assert multiset(out) == multiset(st.output) + multiset(st.operators);
      assert ")" !in out by {
        assert multiset(out)[")"] == 0;
      }
    }
  }

  /** The scan's depth on success is the surplus of "(" over ")". */
  lemma {:induction false} BracketScanCounts(depth: nat, tokens: seq<string>)
    requires BracketScan(depth, tokens).Ok?
    ensures BracketScan(depth, tokens).value + multiset(tokens)[")"] == depth + multiset(tokens)["("]
    decreases |tokens|
  {
    if tokens != [] {
      var t := tokens[0];
      assert tokens == [t] + tokens[1..];
      assert multiset(tokens) == multiset{t} + multiset(tokens[1..]);
      BracketScanCounts(ScanStep(depth, t).value, tokens[1..]);
      if Classify(t) == NumberToken || Classify(t) == OperatorToken {
        assert t != "(" && t != ")";
      }
    }
  }

  /** On bracket-balanced input the output holds no bracket at all and is
      exactly as long as the input's non-bracket tokens. */
  lemma ConversionBalanced(tokens: seq<string>)
    requires Conversion(tokens).Ok?
    requires multiset(tokens)["("] == multiset(tokens)[")"]
    ensures "(" !in Conversion(tokens).value && ")" !in Conversion(tokens).value
    ensures |Conversion(tokens).value| == |tokens| - multiset(tokens)["("] - multiset(tokens)[")"]
  {
    ConversionShape(tokens);
    var out := Conversion(tokens).value;
    assert multiset(out)["("] + multiset(tokens)[")"] == multiset(tokens)["("];
  }

  /** Every output token is one of the input tokens. */
  lemma ConversionFromInput(tokens: seq<string>)
    requires Conversion(tokens).Ok?
    ensures forall j :: 0 <= j < |Conversion(tokens).value| ==> Conversion(tokens).value[j] in tokens
  {
    ConversionShape(tokens);
    var out := Conversion(tokens).value;
    forall j | 0 <= j < |out| ensures out[j] in tokens {
      assert multiset(out)[out[j]] > 0;
      assert multiset(tokens)[out[j]] >= multiset(out)[out[j]];
    }
  }

  /** The depth bonus is 2 per open bracket on the stack, never negative,
      throughout any conversion from the start. */
  lemma DepthInvariant(tokens: seq<string>)
    requires RpnRun(Start(), tokens).Ok?
    ensures RpnRun(Start(), tokens).value.level == 2 * multiset(RpnRun(Start(), tokens).value.operators)["("]
    ensures RpnRun(Start(), tokens).value.level >= 0
  {
    assert DepthOk(Start(), 0);
    DepthRun(Start(), 0, tokens);
  }

  /** Inside brackets an incoming `+ - * /` pops nothing: every stacked
      entry has base priority at most 2, the incoming one at least 3. */
  lemma NoPopInsideBrackets(st: Converter, token: string)
    requires token in {"+", "-", "*", "/"}
    requires st.level >= 2
    ensures RpnStep(st, token) == Ok(st.(operators := st.operators + [token]))
  {
    assert IsOperator(token[0]) && [token[0]] == token;
    NotNumeralSymbol(token[0]);
    assert Classify(token) == OperatorToken;
  }
}
