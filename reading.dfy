/** Reading an expression string the way Calc and Tokenize see it: spaces
    are dropped, every other character joins the token it belongs to, and
    the brackets are counted on the way. The step lemmas carry one
    character at a time; UptoEnd turns a completed reading into what
    Tokenize and Calc return for the string. */
module Reading {
  import opened Errors
  import opened Strings
  import opened Strconv
  import opened Calculator

  /** After reading `e[..i]`, the characters kept so far spell the first
      `j` tokens of `ts`, which hold `opens` "(" and `closes` ")" and are
      well formed. */
  ghost predicate Upto(e: string, i: nat, ts: seq<string>, j: nat, opens: nat, closes: nat)
  {
    Spelled(e, i, ts, j) && Bracketed(ts, j, opens, closes) && WellFormed(ts[..j])
  }

  ghost predicate Spelled(e: string, i: nat, ts: seq<string>, j: nat)
  {
    i <= |e| && j <= |ts| && RemoveSpaces(e[..i]) == Concat(ts[..j])
  }

  ghost predicate Bracketed(ts: seq<string>, j: nat, opens: nat, closes: nat)
  {
    j <= |ts| && Count(Concat(ts[..j]), '(') == opens && Count(Concat(ts[..j]), ')') == closes
  }

  /** The token the reader may take next: a symbol, or a number that does
      not follow a number. */
  predicate NextToken(ts: seq<string>, j: nat)
  {
    j < |ts| && (IsSymbolToken(ts[j]) || (IsNumericToken(ts[j]) && (j == 0 || IsSymbolToken(ts[j - 1]))))
  }

  lemma UptoStart(e: string, ts: seq<string>)
    ensures Upto(e, 0, ts, 0, 0, 0)
  {
    assert e[..0] == [] && ts[..0] == [];
  }

  /** The string opens with a one-character token. */
  lemma ReadFirst(e: string, ts: seq<string>, opens: nat, closes: nat)
    requires 0 < |e| && 0 < |ts| && ts[0] == [e[0]] && (IsDigit(e[0]) || IsOperator(e[0]) || IsBracket(e[0]))
    requires opens == (if e[0] == '(' then 1 else 0) && closes == (if e[0] == ')' then 1 else 0)
    ensures Upto(e, 1, ts, 1, opens, closes)
  {
    UptoStart(e, ts);
    CharStep(e, 0, ts, 0, 0, 0);
  }

  /** The string opens with a number of several characters. */
  lemma ReadFirstNumber(e: string, ts: seq<string>)
    requires 0 < |ts| && IsNumericToken(ts[0]) && |ts[0]| <= |e| && e[..|ts[0]|] == ts[0]
    ensures Upto(e, |ts[0]|, ts, 1, 0, 0)
  {
    UptoStart(e, ts);
    assert e[0..|ts[0]|] == ts[0];
    TokenStep(e, 0, ts, 0, 0, 0);
  }

  /** A space is dropped. */
  lemma ReadSpace(e: string, i: nat, ts: seq<string>, j: nat, opens: nat, closes: nat)
    requires Upto(e, i, ts, j, opens, closes)
    requires i < |e| && e[i] == ' '
    ensures Upto(e, i + 1, ts, j, opens, closes)
  {
    SpaceDropped(e, i);
  }

  lemma SpaceDropped(e: string, i: nat)
    requires i < |e| && e[i] == ' '
    ensures RemoveSpaces(e[..i + 1]) == RemoveSpaces(e[..i])
  {
    assert e[..i + 1] == e[..i] + [' '];
    RemoveSpacesAppend(e[..i], [' ']);
  }

  /** An operator is a token of its own. */
  lemma ReadOperator(e: string, i: nat, ts: seq<string>, j: nat, opens: nat, closes: nat)
    requires Upto(e, i, ts, j, opens, closes)
    requires i < |e| && j < |ts| && IsOperator(e[i]) && ts[j] == [e[i]]
    ensures Upto(e, i + 1, ts, j + 1, opens, closes)
  {
    CharStep(e, i, ts, j, opens, closes);
  }

  /** "(" is a token of its own and adds to the opening count. */
  lemma ReadOpen(e: string, i: nat, ts: seq<string>, j: nat, opens: nat, closes: nat, opens': nat)
    requires Upto(e, i, ts, j, opens, closes)
    requires i < |e| && j < |ts| && e[i] == '(' && ts[j] == "(" && opens' == opens + 1
    ensures Upto(e, i + 1, ts, j + 1, opens', closes)
  {
    CharStep(e, i, ts, j, opens, closes);
  }

  /** ")" is a token of its own and adds to the closing count. */
  lemma ReadClose(e: string, i: nat, ts: seq<string>, j: nat, opens: nat, closes: nat, closes': nat)
    requires Upto(e, i, ts, j, opens, closes)
    requires i < |e| && j < |ts| && e[i] == ')' && ts[j] == ")" && closes' == closes + 1
    ensures Upto(e, i + 1, ts, j + 1, opens, closes')
  {
    CharStep(e, i, ts, j, opens, closes);
  }

  /** A one-digit number after a symbol. */
  lemma ReadDigit(e: string, i: nat, ts: seq<string>, j: nat, opens: nat, closes: nat)
    requires Upto(e, i, ts, j, opens, closes)
    requires i < |e| && 0 < j < |ts| && IsDigit(e[i]) && ts[j] == [e[i]] && IsSymbolToken(ts[j - 1])
    ensures Upto(e, i + 1, ts, j + 1, opens, closes)
  {
    CharStep(e, i, ts, j, opens, closes);
  }

  /** The next character is a token of its own. */
  lemma CharStep(e: string, i: nat, ts: seq<string>, j: nat, opens: nat, closes: nat)
    requires Upto(e, i, ts, j, opens, closes) && NextToken(ts, j)
    requires i < |e| && ts[j] == [e[i]]
    ensures Upto(e, i + 1, ts, j + 1, opens + (if e[i] == '(' then 1 else 0), closes + (if e[i] == ')' then 1 else 0))
  {
    assert e[i..i + 1] == ts[j];
    TokenStep(e, i, ts, j, opens, closes);
  }

  /** The next characters spell the next token. */
  lemma TokenStep(e: string, i: nat, ts: seq<string>, j: nat, opens: nat, closes: nat)
    requires Upto(e, i, ts, j, opens, closes) && NextToken(ts, j)
    requires i + |ts[j]| <= |e| && e[i..i + |ts[j]|] == ts[j]
    ensures Upto(e, i + |ts[j]|, ts, j + 1, opens + (if ts[j] == "(" then 1 else 0), closes + (if ts[j] == ")" then 1 else 0))
  {
    SpelledStep(e, i, ts, j);
    BracketedStep(ts, j, opens, closes);
    WellFormedPrefix(ts, j);
  }

  lemma SpelledStep(e: string, i: nat, ts: seq<string>, j: nat)
    requires Spelled(e, i, ts, j) && NextToken(ts, j)
    requires i + |ts[j]| <= |e| && e[i..i + |ts[j]|] == ts[j]
    ensures Spelled(e, i + |ts[j]|, ts, j + 1)
  {
    TokenKept(e, i, ts[j]);
    ConcatPrefix(ts, j);
  }

  lemma BracketedStep(ts: seq<string>, j: nat, opens: nat, closes: nat)
    requires Bracketed(ts, j, opens, closes) && NextToken(ts, j)
    ensures Bracketed(ts, j + 1, opens + (if ts[j] == "(" then 1 else 0), closes + (if ts[j] == ")" then 1 else 0))
  {
    ConcatPrefix(ts, j);
    TokenBrackets(Concat(ts[..j]), ts[j]);
  }

  lemma ConcatPrefix(ts: seq<string>, j: nat)
    requires j < |ts|
    ensures Concat(ts[..j + 1]) == Concat(ts[..j]) + ts[j]
  {
    assert ts[..j + 1] == ts[..j] + [ts[j]];
    ConcatSnoc(ts[..j], ts[j]);
  }

  lemma WellFormedPrefix(ts: seq<string>, j: nat)
    requires NextToken(ts, j) && WellFormed(ts[..j])
    ensures WellFormed(ts[..j + 1])
  {
    assert ts[..j + 1] == ts[..j] + [ts[j]];
    assert ts[..j] == [] || ts[..j][j - 1] == ts[j - 1];
    WellFormedSnoc(ts[..j], ts[j]);
  }

  /** A token has no spaces, so it is kept whole. */
  lemma TokenKept(e: string, i: nat, t: string)
    requires IsSymbolToken(t) || IsNumericToken(t)
    requires i + |t| <= |e| && e[i..i + |t|] == t
    ensures RemoveSpaces(e[..i + |t|]) == RemoveSpaces(e[..i]) + t
  {
    assert e[..i + |t|] == e[..i] + t;
    RemoveSpacesAppend(e[..i], t);
    assert forall k :: 0 <= k < |t| ==> t[k] != ' ' by {
      if IsSymbolToken(t) {
        assert IsOperator(t[0]) || IsBracket(t[0]);
      }
    }
    NoSpacesFixed(t);
  }

  /** Only a bracket token adds to a bracket count. */
  lemma TokenBrackets(s: string, t: string)
    requires IsSymbolToken(t) || IsNumericToken(t)
    ensures Count(s + t, '(') == Count(s, '(') + (if t == "(" then 1 else 0)
    ensures Count(s + t, ')') == Count(s, ')') + (if t == ")" then 1 else 0)
  {
    assert multiset(s + t) == multiset(s) + multiset(t);
    if IsSymbolToken(t) {
      assert t == [t[0]];
    } else {
      assert '(' !in t && ')' !in t;
    }
  }

  /** A well-formed token list spells acceptable text. */
  lemma {:induction false} WellFormedAcceptable(ts: seq<string>)
    requires WellFormed(ts)
    ensures AllAcceptable(Concat(ts))
  {
    if ts != [] {
      assert WellFormed(ts[1..]) by {
        assert forall i :: 0 <= i < |ts| - 1 ==> ts[1..][i] == ts[i + 1];
      }
      WellFormedAcceptable(ts[1..]);
      var t := ts[0];
      assert IsNumericToken(t) || IsSymbolToken(t);
      var s := t + Concat(ts[1..]);
      forall k | 0 <= k < |s| ensures Acceptable(s[k]) {
        if k >= |t| {
          assert s[k] == Concat(ts[1..])[k - |t|];
        }
      }
    }
  }

  /** Once the whole string is read: Tokenize returns exactly those tokens,
      and Calc compares the counts it collected before evaluating them. */
  lemma UptoEnd(e: string, ts: seq<string>, opens: nat, closes: nat)
    requires Upto(e, |e|, ts, |ts|, opens, closes)
    ensures Tokenization(e) == Ok(ts)
    ensures Calculation(e) == if opens > closes then Err(ExtraOpenBracket)
      else if opens < closes then Err(ExtraCloseBracket)
      else Evaluation(ts)
  {
    assert e[..|e|] == e && ts[..|ts|] == ts;
    var s := RemoveSpaces(e);
    WellFormedAcceptable(ts);
    LexOfWellFormed(ts);
    RemoveSpacesIdempotent(e);
  }

  /** A string without brackets whose first character is neither a space
      nor acceptable: the bracket counts agree, and Tokenize refuses it. */
  lemma RefusedFirst(e: string)
    requires 0 < |e| && e[0] != ' ' && !Acceptable(e[0])
    requires forall k :: 0 <= k < |e| ==> e[k] != '(' && e[k] != ')'
    ensures Calculation(e) == Err(UnacceptableSymbol)
  {
    var s := RemoveSpaces(e);
    assert s[0] == e[0] by {
      assert s == [e[0]] + RemoveSpaces(e[1..]);
    }
    assert Count(s, '(') == 0 && Count(s, ')') == 0 by {
      RemoveSpacesKeeps(e);
      assert '(' !in multiset(e) && ')' !in multiset(e);
    }
    assert !AllAcceptable(RemoveSpaces(s)) by {
      RemoveSpacesIdempotent(e);
    }
  }
}
