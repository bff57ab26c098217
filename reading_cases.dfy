/** The strings of TestCalc and TestTokenize in
    pkg/calculator/calculator_test.go read into their tokens, one character
    at a time. For each string, a lemma on its characters chains the steps
    of Reading in stretches of a few characters, and two small lemmas read
    the characters and the tokens off the literals. */
module ReadingCases {
  import opened Errors
  import opened Calculator
  import opened Reading

  /** "1.2 + 1 * (2 + 1)" reads as ["1.2", "+", "1", "*", "(", "2", "+", "1", ")"]. */
  lemma ReadDecimal(e: string, ts: seq<string>)
    requires |e| == 17 && |ts| == 9 && e[0] == '1' && e[1] == '.' && e[2] == '2' && e[3] == ' '
      && e[4] == '+' && e[5] == ' ' && e[6] == '1' && e[7] == ' ' && e[8] == '*' && e[9] == ' '
      && e[10] == '(' && e[11] == '2' && e[12] == ' ' && e[13] == '+' && e[14] == ' '
      && e[15] == '1' && e[16] == ')' && ts[0] == "1.2" && ts[1] == "+" && ts[2] == "1"
      && ts[3] == "*" && ts[4] == "(" && ts[5] == "2" && ts[6] == "+" && ts[7] == "1"
      && ts[8] == ")"
    ensures Tokenization(e) == Ok(ts)
    ensures Calculation(e) == Evaluation(ts)
  {
    assert e[..3] == ts[0];
    ReadFirstNumber(e, ts);
    ReadDecimal1(e, ts);
    ReadDecimal2(e, ts);
    ReadDecimal3(e, ts);
    UptoEnd(e, ts, 1, 1);
  }

  lemma ReadDecimalChars1(e: string)
    requires e == "1.2 + 1 * (2 + 1)"
    ensures |e| == 17 && e[0] == '1' && e[1] == '.' && e[2] == '2' && e[3] == ' '
  {
  }

  lemma ReadDecimalChars2(e: string)
    requires e == "1.2 + 1 * (2 + 1)"
    ensures e[4] == '+' && e[5] == ' ' && e[6] == '1' && e[7] == ' '
  {
  }

  lemma ReadDecimalChars3(e: string)
    requires e == "1.2 + 1 * (2 + 1)"
    ensures e[8] == '*' && e[9] == ' ' && e[10] == '(' && e[11] == '2'
  {
  }

  lemma ReadDecimalChars4(e: string)
    requires e == "1.2 + 1 * (2 + 1)"
    ensures e[12] == ' ' && e[13] == '+' && e[14] == ' ' && e[15] == '1'
  {
  }

  lemma ReadDecimalChars5(e: string)
    requires e == "1.2 + 1 * (2 + 1)"
    ensures e[16] == ')'
  {
  }

  lemma ReadDecimalTokens(ts: seq<string>)
    requires ts == ["1.2", "+", "1", "*", "(", "2", "+", "1", ")"]
    ensures |ts| == 9 && ts[0] == "1.2" && ts[1] == "+" && ts[2] == "1" && ts[3] == "*"
      && ts[4] == "(" && ts[5] == "2" && ts[6] == "+" && ts[7] == "1" && ts[8] == ")"
  {
  }

  /** Characters 3 to 8. */
  lemma ReadDecimal1(e: string, ts: seq<string>)
    requires |e| == 17 && |ts| == 9 && e[3] == ' ' && e[4] == '+' && e[5] == ' ' && e[6] == '1'
      && e[7] == ' ' && e[8] == '*' && ts[1] == "+" && ts[2] == "1" && ts[3] == "*"
    requires Upto(e, 3, ts, 1, 0, 0)
    ensures Upto(e, 9, ts, 4, 0, 0)
  {
    ReadSpace(e, 3, ts, 1, 0, 0);
    ReadOperator(e, 4, ts, 1, 0, 0);
    ReadSpace(e, 5, ts, 2, 0, 0);
    ReadDigit(e, 6, ts, 2, 0, 0);
    ReadSpace(e, 7, ts, 3, 0, 0);
    ReadOperator(e, 8, ts, 3, 0, 0);
  }

  /** Characters 9 to 14. */
  lemma ReadDecimal2(e: string, ts: seq<string>)
    requires |e| == 17 && |ts| == 9 && e[9] == ' ' && e[10] == '(' && e[11] == '2'
      && e[12] == ' ' && e[13] == '+' && e[14] == ' ' && ts[4] == "(" && ts[5] == "2"
      && ts[6] == "+"
    requires Upto(e, 9, ts, 4, 0, 0)
    ensures Upto(e, 15, ts, 7, 1, 0)
  {
    ReadSpace(e, 9, ts, 4, 0, 0);
    ReadOpen(e, 10, ts, 4, 0, 0, 1);
    ReadDigit(e, 11, ts, 5, 1, 0);
    ReadSpace(e, 12, ts, 6, 1, 0);
    ReadOperator(e, 13, ts, 6, 1, 0);
    ReadSpace(e, 14, ts, 7, 1, 0);
  }

  /** Characters 15 to 16. */
  lemma ReadDecimal3(e: string, ts: seq<string>)
    requires |e| == 17 && |ts| == 9 && e[15] == '1' && e[16] == ')' && ts[6] == "+"
      && ts[7] == "1" && ts[8] == ")"
    requires Upto(e, 15, ts, 7, 1, 0)
    ensures Upto(e, 17, ts, 9, 1, 1)
  {
    ReadDigit(e, 15, ts, 7, 1, 0);
    ReadClose(e, 16, ts, 8, 1, 0, 1);
  }

  /** "2 * 3 + 4 * (2 - 1)" reads as ["2", "*", "3", "+", "4", "*", "(", "2", "-", "1", ")"]. */
  lemma ReadPrecedence(e: string, ts: seq<string>)
    requires |e| == 19 && |ts| == 11 && e[0] == '2' && e[1] == ' ' && e[2] == '*' && e[3] == ' '
      && e[4] == '3' && e[5] == ' ' && e[6] == '+' && e[7] == ' ' && e[8] == '4' && e[9] == ' '
      && e[10] == '*' && e[11] == ' ' && e[12] == '(' && e[13] == '2' && e[14] == ' '
      && e[15] == '-' && e[16] == ' ' && e[17] == '1' && e[18] == ')' && ts[0] == "2"
      && ts[1] == "*" && ts[2] == "3" && ts[3] == "+" && ts[4] == "4" && ts[5] == "*"
      && ts[6] == "(" && ts[7] == "2" && ts[8] == "-" && ts[9] == "1" && ts[10] == ")"
    ensures Tokenization(e) == Ok(ts)
    ensures Calculation(e) == Evaluation(ts)
  {
    ReadFirst(e, ts, 0, 0);
    ReadPrecedence1(e, ts);
    ReadPrecedence2(e, ts);
    ReadPrecedence3(e, ts);
    UptoEnd(e, ts, 1, 1);
  }

  lemma ReadPrecedenceChars1(e: string)
    requires e == "2 * 3 + 4 * (2 - 1)"
    ensures |e| == 19 && e[0] == '2' && e[1] == ' ' && e[2] == '*' && e[3] == ' '
  {
  }

  lemma ReadPrecedenceChars2(e: string)
    requires e == "2 * 3 + 4 * (2 - 1)"
    ensures e[4] == '3' && e[5] == ' ' && e[6] == '+' && e[7] == ' '
  {
  }

  lemma ReadPrecedenceChars3(e: string)
    requires e == "2 * 3 + 4 * (2 - 1)"
    ensures e[8] == '4' && e[9] == ' ' && e[10] == '*' && e[11] == ' '
  {
  }

  lemma ReadPrecedenceChars4(e: string)
    requires e == "2 * 3 + 4 * (2 - 1)"
    ensures e[12] == '(' && e[13] == '2' && e[14] == ' ' && e[15] == '-'
  {
  }

  lemma ReadPrecedenceChars5(e: string)
    requires e == "2 * 3 + 4 * (2 - 1)"
    ensures e[16] == ' ' && e[17] == '1' && e[18] == ')'
  {
  }

  lemma ReadPrecedenceTokens(ts: seq<string>)
    requires ts == ["2", "*", "3", "+", "4", "*", "(", "2", "-", "1", ")"]
    ensures |ts| == 11 && ts[0] == "2" && ts[1] == "*" && ts[2] == "3" && ts[3] == "+"
      && ts[4] == "4" && ts[5] == "*" && ts[6] == "(" && ts[7] == "2" && ts[8] == "-"
      && ts[9] == "1" && ts[10] == ")"
  {
  }

  /** Characters 1 to 6. */
  lemma ReadPrecedence1(e: string, ts: seq<string>)
    requires |e| == 19 && |ts| == 11 && e[1] == ' ' && e[2] == '*' && e[3] == ' ' && e[4] == '3'
      && e[5] == ' ' && e[6] == '+' && ts[1] == "*" && ts[2] == "3" && ts[3] == "+"
    requires Upto(e, 1, ts, 1, 0, 0)
    ensures Upto(e, 7, ts, 4, 0, 0)
  {
    ReadSpace(e, 1, ts, 1, 0, 0);
    ReadOperator(e, 2, ts, 1, 0, 0);
    ReadSpace(e, 3, ts, 2, 0, 0);
    ReadDigit(e, 4, ts, 2, 0, 0);
    ReadSpace(e, 5, ts, 3, 0, 0);
    ReadOperator(e, 6, ts, 3, 0, 0);
  }

  /** Characters 7 to 12. */
  lemma ReadPrecedence2(e: string, ts: seq<string>)
    requires |e| == 19 && |ts| == 11 && e[7] == ' ' && e[8] == '4' && e[9] == ' '
      && e[10] == '*' && e[11] == ' ' && e[12] == '(' && ts[3] == "+" && ts[4] == "4"
      && ts[5] == "*" && ts[6] == "("
    requires Upto(e, 7, ts, 4, 0, 0)
    ensures Upto(e, 13, ts, 7, 1, 0)
  {
    ReadSpace(e, 7, ts, 4, 0, 0);
    ReadDigit(e, 8, ts, 4, 0, 0);
    ReadSpace(e, 9, ts, 5, 0, 0);
    ReadOperator(e, 10, ts, 5, 0, 0);
    ReadSpace(e, 11, ts, 6, 0, 0);
    ReadOpen(e, 12, ts, 6, 0, 0, 1);
  }

  /** Characters 13 to 18. */
  lemma ReadPrecedence3(e: string, ts: seq<string>)
    requires |e| == 19 && |ts| == 11 && e[13] == '2' && e[14] == ' ' && e[15] == '-'
      && e[16] == ' ' && e[17] == '1' && e[18] == ')' && ts[6] == "(" && ts[7] == "2"
      && ts[8] == "-" && ts[9] == "1" && ts[10] == ")"
    requires Upto(e, 13, ts, 7, 1, 0)
    ensures Upto(e, 19, ts, 11, 1, 1)
  {
    ReadDigit(e, 13, ts, 7, 1, 0);
    ReadSpace(e, 14, ts, 8, 1, 0);
    ReadOperator(e, 15, ts, 8, 1, 0);
    ReadSpace(e, 16, ts, 9, 1, 0);
    ReadDigit(e, 17, ts, 9, 1, 0);
    ReadClose(e, 18, ts, 10, 1, 0, 1);
  }

  /** "2 * 3 * 4 * (2 / 1)" reads as ["2", "*", "3", "*", "4", "*", "(", "2", "/", "1", ")"]. */
  lemma ReadProduct(e: string, ts: seq<string>)
    requires |e| == 19 && |ts| == 11 && e[0] == '2' && e[1] == ' ' && e[2] == '*' && e[3] == ' '
      && e[4] == '3' && e[5] == ' ' && e[6] == '*' && e[7] == ' ' && e[8] == '4' && e[9] == ' '
      && e[10] == '*' && e[11] == ' ' && e[12] == '(' && e[13] == '2' && e[14] == ' '
      && e[15] == '/' && e[16] == ' ' && e[17] == '1' && e[18] == ')' && ts[0] == "2"
      && ts[1] == "*" && ts[2] == "3" && ts[3] == "*" && ts[4] == "4" && ts[5] == "*"
      && ts[6] == "(" && ts[7] == "2" && ts[8] == "/" && ts[9] == "1" && ts[10] == ")"
    ensures Tokenization(e) == Ok(ts)
    ensures Calculation(e) == Evaluation(ts)
  {
    ReadFirst(e, ts, 0, 0);
    ReadProduct1(e, ts);
    ReadProduct2(e, ts);
    ReadProduct3(e, ts);
    UptoEnd(e, ts, 1, 1);
  }

  lemma ReadProductChars1(e: string)
    requires e == "2 * 3 * 4 * (2 / 1)"
    ensures |e| == 19 && e[0] == '2' && e[1] == ' ' && e[2] == '*' && e[3] == ' '
  {
  }

  lemma ReadProductChars2(e: string)
    requires e == "2 * 3 * 4 * (2 / 1)"
    ensures e[4] == '3' && e[5] == ' ' && e[6] == '*' && e[7] == ' '
  {
  }

  lemma ReadProductChars3(e: string)
    requires e == "2 * 3 * 4 * (2 / 1)"
    ensures e[8] == '4' && e[9] == ' ' && e[10] == '*' && e[11] == ' '
  {
  }

  lemma ReadProductChars4(e: string)
    requires e == "2 * 3 * 4 * (2 / 1)"
    ensures e[12] == '(' && e[13] == '2' && e[14] == ' ' && e[15] == '/'
  {
  }

  lemma ReadProductChars5(e: string)
    requires e == "2 * 3 * 4 * (2 / 1)"
    ensures e[16] == ' ' && e[17] == '1' && e[18] == ')'
  {
  }

  lemma ReadProductTokens(ts: seq<string>)
    requires ts == ["2", "*", "3", "*", "4", "*", "(", "2", "/", "1", ")"]
    ensures |ts| == 11 && ts[0] == "2" && ts[1] == "*" && ts[2] == "3" && ts[3] == "*"
      && ts[4] == "4" && ts[5] == "*" && ts[6] == "(" && ts[7] == "2" && ts[8] == "/"
      && ts[9] == "1" && ts[10] == ")"
  {
  }

  /** Characters 1 to 6. */
  lemma ReadProduct1(e: string, ts: seq<string>)
    requires |e| == 19 && |ts| == 11 && e[1] == ' ' && e[2] == '*' && e[3] == ' ' && e[4] == '3'
      && e[5] == ' ' && e[6] == '*' && ts[1] == "*" && ts[2] == "3" && ts[3] == "*"
    requires Upto(e, 1, ts, 1, 0, 0)
    ensures Upto(e, 7, ts, 4, 0, 0)
  {
    ReadSpace(e, 1, ts, 1, 0, 0);
    ReadOperator(e, 2, ts, 1, 0, 0);
    ReadSpace(e, 3, ts, 2, 0, 0);
    ReadDigit(e, 4, ts, 2, 0, 0);
    ReadSpace(e, 5, ts, 3, 0, 0);
    ReadOperator(e, 6, ts, 3, 0, 0);
  }

  /** Characters 7 to 12. */
  lemma ReadProduct2(e: string, ts: seq<string>)
    requires |e| == 19 && |ts| == 11 && e[7] == ' ' && e[8] == '4' && e[9] == ' '
      && e[10] == '*' && e[11] == ' ' && e[12] == '(' && ts[3] == "*" && ts[4] == "4"
      && ts[5] == "*" && ts[6] == "("
    requires Upto(e, 7, ts, 4, 0, 0)
    ensures Upto(e, 13, ts, 7, 1, 0)
  {
    ReadSpace(e, 7, ts, 4, 0, 0);
    ReadDigit(e, 8, ts, 4, 0, 0);
    ReadSpace(e, 9, ts, 5, 0, 0);
    ReadOperator(e, 10, ts, 5, 0, 0);
    ReadSpace(e, 11, ts, 6, 0, 0);
    ReadOpen(e, 12, ts, 6, 0, 0, 1);
  }

  /** Characters 13 to 18. */
  lemma ReadProduct3(e: string, ts: seq<string>)
    requires |e| == 19 && |ts| == 11 && e[13] == '2' && e[14] == ' ' && e[15] == '/'
      && e[16] == ' ' && e[17] == '1' && e[18] == ')' && ts[6] == "(" && ts[7] == "2"
      && ts[8] == "/" && ts[9] == "1" && ts[10] == ")"
    requires Upto(e, 13, ts, 7, 1, 0)
    ensures Upto(e, 19, ts, 11, 1, 1)
  {
    ReadDigit(e, 13, ts, 7, 1, 0);
    ReadSpace(e, 14, ts, 8, 1, 0);
    ReadOperator(e, 15, ts, 8, 1, 0);
    ReadSpace(e, 16, ts, 9, 1, 0);
    ReadDigit(e, 17, ts, 9, 1, 0);
    ReadClose(e, 18, ts, 10, 1, 0, 1);
  }

  /** "2 - 3 + 4 * (2 - 1)" reads as ["2", "-", "3", "+", "4", "*", "(", "2", "-", "1", ")"]. */
  lemma ReadDifference(e: string, ts: seq<string>)
    requires |e| == 19 && |ts| == 11 && e[0] == '2' && e[1] == ' ' && e[2] == '-' && e[3] == ' '
      && e[4] == '3' && e[5] == ' ' && e[6] == '+' && e[7] == ' ' && e[8] == '4' && e[9] == ' '
      && e[10] == '*' && e[11] == ' ' && e[12] == '(' && e[13] == '2' && e[14] == ' '
      && e[15] == '-' && e[16] == ' ' && e[17] == '1' && e[18] == ')' && ts[0] == "2"
      && ts[1] == "-" && ts[2] == "3" && ts[3] == "+" && ts[4] == "4" && ts[5] == "*"
      && ts[6] == "(" && ts[7] == "2" && ts[8] == "-" && ts[9] == "1" && ts[10] == ")"
    ensures Tokenization(e) == Ok(ts)
    ensures Calculation(e) == Evaluation(ts)
  {
    ReadFirst(e, ts, 0, 0);
    ReadDifference1(e, ts);
    ReadDifference2(e, ts);
    ReadDifference3(e, ts);
    UptoEnd(e, ts, 1, 1);
  }

  lemma ReadDifferenceChars1(e: string)
    requires e == "2 - 3 + 4 * (2 - 1)"
    ensures |e| == 19 && e[0] == '2' && e[1] == ' ' && e[2] == '-' && e[3] == ' '
  {
  }

  lemma ReadDifferenceChars2(e: string)
    requires e == "2 - 3 + 4 * (2 - 1)"
    ensures e[4] == '3' && e[5] == ' ' && e[6] == '+' && e[7] == ' '
  {
  }

  lemma ReadDifferenceChars3(e: string)
    requires e == "2 - 3 + 4 * (2 - 1)"
    ensures e[8] == '4' && e[9] == ' ' && e[10] == '*' && e[11] == ' '
  {
  }

  lemma ReadDifferenceChars4(e: string)
    requires e == "2 - 3 + 4 * (2 - 1)"
    ensures e[12] == '(' && e[13] == '2' && e[14] == ' ' && e[15] == '-'
  {
  }

  lemma ReadDifferenceChars5(e: string)
    requires e == "2 - 3 + 4 * (2 - 1)"
    ensures e[16] == ' ' && e[17] == '1' && e[18] == ')'
  {
  }

  lemma ReadDifferenceTokens(ts: seq<string>)
    requires ts == ["2", "-", "3", "+", "4", "*", "(", "2", "-", "1", ")"]
    ensures |ts| == 11 && ts[0] == "2" && ts[1] == "-" && ts[2] == "3" && ts[3] == "+"
      && ts[4] == "4" && ts[5] == "*" && ts[6] == "(" && ts[7] == "2" && ts[8] == "-"
      && ts[9] == "1" && ts[10] == ")"
  {
  }

  /** Characters 1 to 6. */
  lemma ReadDifference1(e: string, ts: seq<string>)
    requires |e| == 19 && |ts| == 11 && e[1] == ' ' && e[2] == '-' && e[3] == ' ' && e[4] == '3'
      && e[5] == ' ' && e[6] == '+' && ts[1] == "-" && ts[2] == "3" && ts[3] == "+"
    requires Upto(e, 1, ts, 1, 0, 0)
    ensures Upto(e, 7, ts, 4, 0, 0)
  {
    ReadSpace(e, 1, ts, 1, 0, 0);
    ReadOperator(e, 2, ts, 1, 0, 0);
    ReadSpace(e, 3, ts, 2, 0, 0);
    ReadDigit(e, 4, ts, 2, 0, 0);
    ReadSpace(e, 5, ts, 3, 0, 0);
    ReadOperator(e, 6, ts, 3, 0, 0);
  }

  /** Characters 7 to 12. */
  lemma ReadDifference2(e: string, ts: seq<string>)
    requires |e| == 19 && |ts| == 11 && e[7] == ' ' && e[8] == '4' && e[9] == ' '
      && e[10] == '*' && e[11] == ' ' && e[12] == '(' && ts[3] == "+" && ts[4] == "4"
      && ts[5] == "*" && ts[6] == "("
    requires Upto(e, 7, ts, 4, 0, 0)
    ensures Upto(e, 13, ts, 7, 1, 0)
  {
    ReadSpace(e, 7, ts, 4, 0, 0);
    ReadDigit(e, 8, ts, 4, 0, 0);
    ReadSpace(e, 9, ts, 5, 0, 0);
    ReadOperator(e, 10, ts, 5, 0, 0);
    ReadSpace(e, 11, ts, 6, 0, 0);
    ReadOpen(e, 12, ts, 6, 0, 0, 1);
  }

  /** Characters 13 to 18. */
  lemma ReadDifference3(e: string, ts: seq<string>)
    requires |e| == 19 && |ts| == 11 && e[13] == '2' && e[14] == ' ' && e[15] == '-'
      && e[16] == ' ' && e[17] == '1' && e[18] == ')' && ts[6] == "(" && ts[7] == "2"
      && ts[8] == "-" && ts[9] == "1" && ts[10] == ")"
    requires Upto(e, 13, ts, 7, 1, 0)
    ensures Upto(e, 19, ts, 11, 1, 1)
  {
    ReadDigit(e, 13, ts, 7, 1, 0);
    ReadSpace(e, 14, ts, 8, 1, 0);
    ReadOperator(e, 15, ts, 8, 1, 0);
    ReadSpace(e, 16, ts, 9, 1, 0);
    ReadDigit(e, 17, ts, 9, 1, 0);
    ReadClose(e, 18, ts, 10, 1, 0, 1);
  }

  /** "1 - 1" reads as ["1", "-", "1"]. */
  lemma ReadSelfDifference(e: string, ts: seq<string>)
    requires |e| == 5 && |ts| == 3 && e[0] == '1' && e[1] == ' ' && e[2] == '-' && e[3] == ' '
      && e[4] == '1' && ts[0] == "1" && ts[1] == "-" && ts[2] == "1"
    ensures Tokenization(e) == Ok(ts)
    ensures Calculation(e) == Evaluation(ts)
  {
    ReadFirst(e, ts, 0, 0);
    ReadSelfDifference1(e, ts);
    UptoEnd(e, ts, 0, 0);
  }

  lemma ReadSelfDifferenceChars1(e: string)
    requires e == "1 - 1"
    ensures |e| == 5 && e[0] == '1' && e[1] == ' ' && e[2] == '-' && e[3] == ' '
  {
  }

  lemma ReadSelfDifferenceChars2(e: string)
    requires e == "1 - 1"
    ensures e[4] == '1'
  {
  }

  lemma ReadSelfDifferenceTokens(ts: seq<string>)
    requires ts == ["1", "-", "1"]
    ensures |ts| == 3 && ts[0] == "1" && ts[1] == "-" && ts[2] == "1"
  {
  }

  /** Characters 1 to 4. */
  lemma ReadSelfDifference1(e: string, ts: seq<string>)
    requires |e| == 5 && |ts| == 3 && e[1] == ' ' && e[2] == '-' && e[3] == ' ' && e[4] == '1'
      && ts[1] == "-" && ts[2] == "1"
    requires Upto(e, 1, ts, 1, 0, 0)
    ensures Upto(e, 5, ts, 3, 0, 0)
  {
    ReadSpace(e, 1, ts, 1, 0, 0);
    ReadOperator(e, 2, ts, 1, 0, 0);
    ReadSpace(e, 3, ts, 2, 0, 0);
    ReadDigit(e, 4, ts, 2, 0, 0);
  }

  /** "" reads as no tokens. */
  lemma ReadEmpty(e: string, ts: seq<string>)
    requires |e| == 0 && |ts| == 0
    ensures Tokenization(e) == Ok(ts)
    ensures Calculation(e) == Evaluation(ts)
  {
    UptoStart(e, ts);
    UptoEnd(e, ts, 0, 0);
  }

  lemma ReadEmptyChars1(e: string)
    requires e == ""
    ensures |e| == 0
  {
  }

  lemma ReadEmptyTokens(ts: seq<string>)
    requires ts == []
    ensures |ts| == 0
  {
  }


  /** "   " reads as no tokens. */
  lemma ReadBlank(e: string, ts: seq<string>)
    requires |e| == 3 && |ts| == 0 && e[0] == ' ' && e[1] == ' ' && e[2] == ' '
    ensures Tokenization(e) == Ok(ts)
    ensures Calculation(e) == Evaluation(ts)
  {
    UptoStart(e, ts);
    ReadBlank1(e, ts);
    UptoEnd(e, ts, 0, 0);
  }

  lemma ReadBlankChars1(e: string)
    requires e == "   "
    ensures |e| == 3 && e[0] == ' ' && e[1] == ' ' && e[2] == ' '
  {
  }

  lemma ReadBlankTokens(ts: seq<string>)
    requires ts == []
    ensures |ts| == 0
  {
  }

  /** Characters 0 to 2. */
  lemma ReadBlank1(e: string, ts: seq<string>)
    requires |e| == 3 && |ts| == 0 && e[0] == ' ' && e[1] == ' ' && e[2] == ' '
    requires Upto(e, 0, ts, 0, 0, 0)
    ensures Upto(e, 3, ts, 0, 0, 0)
  {
    ReadSpace(e, 0, ts, 0, 0, 0);
    ReadSpace(e, 1, ts, 0, 0, 0);
    ReadSpace(e, 2, ts, 0, 0, 0);
  }

  /** "1 + (3 * ()" reads as ["1", "+", "(", "3", "*", "(", ")"]. */
  lemma ReadExtraOpen(e: string, ts: seq<string>)
    requires |e| == 11 && |ts| == 7 && e[0] == '1' && e[1] == ' ' && e[2] == '+' && e[3] == ' '
      && e[4] == '(' && e[5] == '3' && e[6] == ' ' && e[7] == '*' && e[8] == ' ' && e[9] == '('
      && e[10] == ')' && ts[0] == "1" && ts[1] == "+" && ts[2] == "(" && ts[3] == "3"
      && ts[4] == "*" && ts[5] == "(" && ts[6] == ")"
    ensures Tokenization(e) == Ok(ts)
    ensures Calculation(e) == Err(ExtraOpenBracket)
  {
    ReadFirst(e, ts, 0, 0);
    ReadExtraOpen1(e, ts);
    ReadExtraOpen2(e, ts);
    UptoEnd(e, ts, 2, 1);
  }

  lemma ReadExtraOpenChars1(e: string)
    requires e == "1 + (3 * ()"
    ensures |e| == 11 && e[0] == '1' && e[1] == ' ' && e[2] == '+' && e[3] == ' '
  {
  }

  lemma ReadExtraOpenChars2(e: string)
    requires e == "1 + (3 * ()"
    ensures e[4] == '(' && e[5] == '3' && e[6] == ' ' && e[7] == '*'
  {
  }

  lemma ReadExtraOpenChars3(e: string)
    requires e == "1 + (3 * ()"
    ensures e[8] == ' ' && e[9] == '(' && e[10] == ')'
  {
  }

  lemma ReadExtraOpenTokens(ts: seq<string>)
    requires ts == ["1", "+", "(", "3", "*", "(", ")"]
    ensures |ts| == 7 && ts[0] == "1" && ts[1] == "+" && ts[2] == "(" && ts[3] == "3"
      && ts[4] == "*" && ts[5] == "(" && ts[6] == ")"
  {
  }

  /** Characters 1 to 6. */
  lemma ReadExtraOpen1(e: string, ts: seq<string>)
    requires |e| == 11 && |ts| == 7 && e[1] == ' ' && e[2] == '+' && e[3] == ' ' && e[4] == '('
      && e[5] == '3' && e[6] == ' ' && ts[1] == "+" && ts[2] == "(" && ts[3] == "3"
    requires Upto(e, 1, ts, 1, 0, 0)
    ensures Upto(e, 7, ts, 4, 1, 0)
  {
    ReadSpace(e, 1, ts, 1, 0, 0);
    ReadOperator(e, 2, ts, 1, 0, 0);
    ReadSpace(e, 3, ts, 2, 0, 0);
    ReadOpen(e, 4, ts, 2, 0, 0, 1);
    ReadDigit(e, 5, ts, 3, 1, 0);
    ReadSpace(e, 6, ts, 4, 1, 0);
  }

  /** Characters 7 to 10. */
  lemma ReadExtraOpen2(e: string, ts: seq<string>)
    requires |e| == 11 && |ts| == 7 && e[7] == '*' && e[8] == ' ' && e[9] == '(' && e[10] == ')'
      && ts[4] == "*" && ts[5] == "(" && ts[6] == ")"
    requires Upto(e, 7, ts, 4, 1, 0)
    ensures Upto(e, 11, ts, 7, 2, 1)
  {
    ReadOperator(e, 7, ts, 4, 1, 0);
    ReadSpace(e, 8, ts, 5, 1, 0);
    ReadOpen(e, 9, ts, 5, 1, 0, 2);
    ReadClose(e, 10, ts, 6, 2, 0, 1);
  }

  /** "1 + 1 * (2 + 1))" reads as ["1", "+", "1", "*", "(", "2", "+", "1", ")", ")"]. */
  lemma ReadExtraClose(e: string, ts: seq<string>)
    requires |e| == 16 && |ts| == 10 && e[0] == '1' && e[1] == ' ' && e[2] == '+' && e[3] == ' '
      && e[4] == '1' && e[5] == ' ' && e[6] == '*' && e[7] == ' ' && e[8] == '(' && e[9] == '2'
      && e[10] == ' ' && e[11] == '+' && e[12] == ' ' && e[13] == '1' && e[14] == ')'
      && e[15] == ')' && ts[0] == "1" && ts[1] == "+" && ts[2] == "1" && ts[3] == "*"
      && ts[4] == "(" && ts[5] == "2" && ts[6] == "+" && ts[7] == "1" && ts[8] == ")"
      && ts[9] == ")"
    ensures Tokenization(e) == Ok(ts)
    ensures Calculation(e) == Err(ExtraCloseBracket)
  {
    ReadFirst(e, ts, 0, 0);
    ReadExtraClose1(e, ts);
    ReadExtraClose2(e, ts);
    ReadExtraClose3(e, ts);
    UptoEnd(e, ts, 1, 2);
  }

  lemma ReadExtraCloseChars1(e: string)
    requires e == "1 + 1 * (2 + 1))"
    ensures |e| == 16 && e[0] == '1' && e[1] == ' ' && e[2] == '+' && e[3] == ' '
  {
  }

  lemma ReadExtraCloseChars2(e: string)
    requires e == "1 + 1 * (2 + 1))"
    ensures e[4] == '1' && e[5] == ' ' && e[6] == '*' && e[7] == ' '
  {
  }

  lemma ReadExtraCloseChars3(e: string)
    requires e == "1 + 1 * (2 + 1))"
    ensures e[8] == '(' && e[9] == '2' && e[10] == ' ' && e[11] == '+'
  {
  }

  lemma ReadExtraCloseChars4(e: string)
    requires e == "1 + 1 * (2 + 1))"
    ensures e[12] == ' ' && e[13] == '1' && e[14] == ')' && e[15] == ')'
  {
  }

  lemma ReadExtraCloseTokens(ts: seq<string>)
    requires ts == ["1", "+", "1", "*", "(", "2", "+", "1", ")", ")"]
    ensures |ts| == 10 && ts[0] == "1" && ts[1] == "+" && ts[2] == "1" && ts[3] == "*"
      && ts[4] == "(" && ts[5] == "2" && ts[6] == "+" && ts[7] == "1" && ts[8] == ")"
      && ts[9] == ")"
  {
  }

  /** Characters 1 to 6. */
  lemma ReadExtraClose1(e: string, ts: seq<string>)
    requires |e| == 16 && |ts| == 10 && e[1] == ' ' && e[2] == '+' && e[3] == ' ' && e[4] == '1'
      && e[5] == ' ' && e[6] == '*' && ts[1] == "+" && ts[2] == "1" && ts[3] == "*"
    requires Upto(e, 1, ts, 1, 0, 0)
    ensures Upto(e, 7, ts, 4, 0, 0)
  {
    ReadSpace(e, 1, ts, 1, 0, 0);
    ReadOperator(e, 2, ts, 1, 0, 0);
    ReadSpace(e, 3, ts, 2, 0, 0);
    ReadDigit(e, 4, ts, 2, 0, 0);
    ReadSpace(e, 5, ts, 3, 0, 0);
    ReadOperator(e, 6, ts, 3, 0, 0);
  }

  /** Characters 7 to 12. */
  lemma ReadExtraClose2(e: string, ts: seq<string>)
    requires |e| == 16 && |ts| == 10 && e[7] == ' ' && e[8] == '(' && e[9] == '2'
      && e[10] == ' ' && e[11] == '+' && e[12] == ' ' && ts[4] == "(" && ts[5] == "2"
      && ts[6] == "+"
    requires Upto(e, 7, ts, 4, 0, 0)
    ensures Upto(e, 13, ts, 7, 1, 0)
  {
    ReadSpace(e, 7, ts, 4, 0, 0);
    ReadOpen(e, 8, ts, 4, 0, 0, 1);
    ReadDigit(e, 9, ts, 5, 1, 0);
    ReadSpace(e, 10, ts, 6, 1, 0);
    ReadOperator(e, 11, ts, 6, 1, 0);
    ReadSpace(e, 12, ts, 7, 1, 0);
  }

  /** Characters 13 to 15. */
  lemma ReadExtraClose3(e: string, ts: seq<string>)
    requires |e| == 16 && |ts| == 10 && e[13] == '1' && e[14] == ')' && e[15] == ')'
      && ts[6] == "+" && ts[7] == "1" && ts[8] == ")" && ts[9] == ")"
    requires Upto(e, 13, ts, 7, 1, 0)
    ensures Upto(e, 16, ts, 10, 1, 2)
  {
    ReadDigit(e, 13, ts, 7, 1, 0);
    ReadClose(e, 14, ts, 8, 1, 0, 1);
    ReadClose(e, 15, ts, 9, 1, 1, 2);
  }

  /** "2 / 0" reads as ["2", "/", "0"]. */
  lemma ReadDivisionByZero(e: string, ts: seq<string>)
    requires |e| == 5 && |ts| == 3 && e[0] == '2' && e[1] == ' ' && e[2] == '/' && e[3] == ' '
      && e[4] == '0' && ts[0] == "2" && ts[1] == "/" && ts[2] == "0"
    ensures Tokenization(e) == Ok(ts)
    ensures Calculation(e) == Evaluation(ts)
  {
    ReadFirst(e, ts, 0, 0);
    ReadDivisionByZero1(e, ts);
    UptoEnd(e, ts, 0, 0);
  }

  lemma ReadDivisionByZeroChars1(e: string)
    requires e == "2 / 0"
    ensures |e| == 5 && e[0] == '2' && e[1] == ' ' && e[2] == '/' && e[3] == ' '
  {
  }

  lemma ReadDivisionByZeroChars2(e: string)
    requires e == "2 / 0"
    ensures e[4] == '0'
  {
  }

  lemma ReadDivisionByZeroTokens(ts: seq<string>)
    requires ts == ["2", "/", "0"]
    ensures |ts| == 3 && ts[0] == "2" && ts[1] == "/" && ts[2] == "0"
  {
  }

  /** Characters 1 to 4. */
  lemma ReadDivisionByZero1(e: string, ts: seq<string>)
    requires |e| == 5 && |ts| == 3 && e[1] == ' ' && e[2] == '/' && e[3] == ' ' && e[4] == '0'
      && ts[1] == "/" && ts[2] == "0"
    requires Upto(e, 1, ts, 1, 0, 0)
    ensures Upto(e, 5, ts, 3, 0, 0)
  {
    ReadSpace(e, 1, ts, 1, 0, 0);
    ReadOperator(e, 2, ts, 1, 0, 0);
    ReadSpace(e, 3, ts, 2, 0, 0);
    ReadDigit(e, 4, ts, 2, 0, 0);
  }

  /** "2 / + 0" reads as ["2", "/", "+", "0"]. */
  lemma ReadOperatorAfterOperator(e: string, ts: seq<string>)
    requires |e| == 7 && |ts| == 4 && e[0] == '2' && e[1] == ' ' && e[2] == '/' && e[3] == ' '
      && e[4] == '+' && e[5] == ' ' && e[6] == '0' && ts[0] == "2" && ts[1] == "/"
      && ts[2] == "+" && ts[3] == "0"
    ensures Tokenization(e) == Ok(ts)
    ensures Calculation(e) == Evaluation(ts)
  {
    ReadFirst(e, ts, 0, 0);
    ReadOperatorAfterOperator1(e, ts);
    UptoEnd(e, ts, 0, 0);
  }

  lemma ReadOperatorAfterOperatorChars1(e: string)
    requires e == "2 / + 0"
    ensures |e| == 7 && e[0] == '2' && e[1] == ' ' && e[2] == '/' && e[3] == ' '
  {
  }

  lemma ReadOperatorAfterOperatorChars2(e: string)
    requires e == "2 / + 0"
    ensures e[4] == '+' && e[5] == ' ' && e[6] == '0'
  {
  }

  lemma ReadOperatorAfterOperatorTokens(ts: seq<string>)
    requires ts == ["2", "/", "+", "0"]
    ensures |ts| == 4 && ts[0] == "2" && ts[1] == "/" && ts[2] == "+" && ts[3] == "0"
  {
  }

  /** Characters 1 to 6. */
  lemma ReadOperatorAfterOperator1(e: string, ts: seq<string>)
    requires |e| == 7 && |ts| == 4 && e[1] == ' ' && e[2] == '/' && e[3] == ' ' && e[4] == '+'
      && e[5] == ' ' && e[6] == '0' && ts[1] == "/" && ts[2] == "+" && ts[3] == "0"
    requires Upto(e, 1, ts, 1, 0, 0)
    ensures Upto(e, 7, ts, 4, 0, 0)
  {
    ReadSpace(e, 1, ts, 1, 0, 0);
    ReadOperator(e, 2, ts, 1, 0, 0);
    ReadSpace(e, 3, ts, 2, 0, 0);
    ReadOperator(e, 4, ts, 2, 0, 0);
    ReadSpace(e, 5, ts, 3, 0, 0);
    ReadDigit(e, 6, ts, 3, 0, 0);
  }

  /** "1 + *" reads as ["1", "+", "*"]. */
  lemma ReadTrailingOperator(e: string, ts: seq<string>)
    requires |e| == 5 && |ts| == 3 && e[0] == '1' && e[1] == ' ' && e[2] == '+' && e[3] == ' '
      && e[4] == '*' && ts[0] == "1" && ts[1] == "+" && ts[2] == "*"
    ensures Tokenization(e) == Ok(ts)
    ensures Calculation(e) == Evaluation(ts)
  {
    ReadFirst(e, ts, 0, 0);
    ReadTrailingOperator1(e, ts);
    UptoEnd(e, ts, 0, 0);
  }

  lemma ReadTrailingOperatorChars1(e: string)
    requires e == "1 + *"
    ensures |e| == 5 && e[0] == '1' && e[1] == ' ' && e[2] == '+' && e[3] == ' '
  {
  }

  lemma ReadTrailingOperatorChars2(e: string)
    requires e == "1 + *"
    ensures e[4] == '*'
  {
  }

  lemma ReadTrailingOperatorTokens(ts: seq<string>)
    requires ts == ["1", "+", "*"]
    ensures |ts| == 3 && ts[0] == "1" && ts[1] == "+" && ts[2] == "*"
  {
  }

  /** Characters 1 to 4. */
  lemma ReadTrailingOperator1(e: string, ts: seq<string>)
    requires |e| == 5 && |ts| == 3 && e[1] == ' ' && e[2] == '+' && e[3] == ' ' && e[4] == '*'
      && ts[1] == "+" && ts[2] == "*"
    requires Upto(e, 1, ts, 1, 0, 0)
    ensures Upto(e, 5, ts, 3, 0, 0)
  {
    ReadSpace(e, 1, ts, 1, 0, 0);
    ReadOperator(e, 2, ts, 1, 0, 0);
    ReadSpace(e, 3, ts, 2, 0, 0);
    ReadOperator(e, 4, ts, 2, 0, 0);
  }

  /** "2 ( 8)" reads as ["2", "(", "8", ")"]. */
  lemma ReadMissingOperator(e: string, ts: seq<string>)
    requires |e| == 6 && |ts| == 4 && e[0] == '2' && e[1] == ' ' && e[2] == '(' && e[3] == ' '
      && e[4] == '8' && e[5] == ')' && ts[0] == "2" && ts[1] == "(" && ts[2] == "8"
      && ts[3] == ")"
    ensures Tokenization(e) == Ok(ts)
    ensures Calculation(e) == Evaluation(ts)
  {
    ReadFirst(e, ts, 0, 0);
    ReadMissingOperator1(e, ts);
    UptoEnd(e, ts, 1, 1);
  }

  lemma ReadMissingOperatorChars1(e: string)
    requires e == "2 ( 8)"
    ensures |e| == 6 && e[0] == '2' && e[1] == ' ' && e[2] == '(' && e[3] == ' '
  {
  }

  lemma ReadMissingOperatorChars2(e: string)
    requires e == "2 ( 8)"
    ensures e[4] == '8' && e[5] == ')'
  {
  }

  lemma ReadMissingOperatorTokens(ts: seq<string>)
    requires ts == ["2", "(", "8", ")"]
    ensures |ts| == 4 && ts[0] == "2" && ts[1] == "(" && ts[2] == "8" && ts[3] == ")"
  {
  }

  /** Characters 1 to 5. */
  lemma ReadMissingOperator1(e: string, ts: seq<string>)
    requires |e| == 6 && |ts| == 4 && e[1] == ' ' && e[2] == '(' && e[3] == ' ' && e[4] == '8'
      && e[5] == ')' && ts[1] == "(" && ts[2] == "8" && ts[3] == ")"
    requires Upto(e, 1, ts, 1, 0, 0)
    ensures Upto(e, 6, ts, 4, 1, 1)
  {
    ReadSpace(e, 1, ts, 1, 0, 0);
    ReadOpen(e, 2, ts, 1, 0, 0, 1);
    ReadSpace(e, 3, ts, 2, 1, 0);
    ReadDigit(e, 4, ts, 2, 1, 0);
    ReadClose(e, 5, ts, 3, 1, 0, 1);
  }

  /** "1 + 2" reads as ["1", "+", "2"]. */
  lemma ReadSum(e: string, ts: seq<string>)
    requires |e| == 5 && |ts| == 3 && e[0] == '1' && e[1] == ' ' && e[2] == '+' && e[3] == ' '
      && e[4] == '2' && ts[0] == "1" && ts[1] == "+" && ts[2] == "2"
    ensures Tokenization(e) == Ok(ts)
    ensures Calculation(e) == Evaluation(ts)
  {
    ReadFirst(e, ts, 0, 0);
    ReadSum1(e, ts);
    UptoEnd(e, ts, 0, 0);
  }

  lemma ReadSumChars1(e: string)
    requires e == "1 + 2"
    ensures |e| == 5 && e[0] == '1' && e[1] == ' ' && e[2] == '+' && e[3] == ' '
  {
  }

  lemma ReadSumChars2(e: string)
    requires e == "1 + 2"
    ensures e[4] == '2'
  {
  }

  lemma ReadSumTokens(ts: seq<string>)
    requires ts == ["1", "+", "2"]
    ensures |ts| == 3 && ts[0] == "1" && ts[1] == "+" && ts[2] == "2"
  {
  }

  /** Characters 1 to 4. */
  lemma ReadSum1(e: string, ts: seq<string>)
    requires |e| == 5 && |ts| == 3 && e[1] == ' ' && e[2] == '+' && e[3] == ' ' && e[4] == '2'
      && ts[1] == "+" && ts[2] == "2"
    requires Upto(e, 1, ts, 1, 0, 0)
    ensures Upto(e, 5, ts, 3, 0, 0)
  {
    ReadSpace(e, 1, ts, 1, 0, 0);
    ReadOperator(e, 2, ts, 1, 0, 0);
    ReadSpace(e, 3, ts, 2, 0, 0);
    ReadDigit(e, 4, ts, 2, 0, 0);
  }

  /** "(1 + 2) * 3" reads as ["(", "1", "+", "2", ")", "*", "3"]. */
  lemma ReadBracketed(e: string, ts: seq<string>)
    requires |e| == 11 && |ts| == 7 && e[0] == '(' && e[1] == '1' && e[2] == ' ' && e[3] == '+'
      && e[4] == ' ' && e[5] == '2' && e[6] == ')' && e[7] == ' ' && e[8] == '*' && e[9] == ' '
      && e[10] == '3' && ts[0] == "(" && ts[1] == "1" && ts[2] == "+" && ts[3] == "2"
      && ts[4] == ")" && ts[5] == "*" && ts[6] == "3"
    ensures Tokenization(e) == Ok(ts)
    ensures Calculation(e) == Evaluation(ts)
  {
    ReadFirst(e, ts, 1, 0);
    ReadBracketed1(e, ts);
    ReadBracketed2(e, ts);
    UptoEnd(e, ts, 1, 1);
  }

  lemma ReadBracketedChars1(e: string)
    requires e == "(1 + 2) * 3"
    ensures |e| == 11 && e[0] == '(' && e[1] == '1' && e[2] == ' ' && e[3] == '+'
  {
  }

  lemma ReadBracketedChars2(e: string)
    requires e == "(1 + 2) * 3"
    ensures e[4] == ' ' && e[5] == '2' && e[6] == ')' && e[7] == ' '
  {
  }

  lemma ReadBracketedChars3(e: string)
    requires e == "(1 + 2) * 3"
    ensures e[8] == '*' && e[9] == ' ' && e[10] == '3'
  {
  }

  lemma ReadBracketedTokens(ts: seq<string>)
    requires ts == ["(", "1", "+", "2", ")", "*", "3"]
    ensures |ts| == 7 && ts[0] == "(" && ts[1] == "1" && ts[2] == "+" && ts[3] == "2"
      && ts[4] == ")" && ts[5] == "*" && ts[6] == "3"
  {
  }

  /** Characters 1 to 6. */
  lemma ReadBracketed1(e: string, ts: seq<string>)
    requires |e| == 11 && |ts| == 7 && e[1] == '1' && e[2] == ' ' && e[3] == '+' && e[4] == ' '
      && e[5] == '2' && e[6] == ')' && ts[0] == "(" && ts[1] == "1" && ts[2] == "+"
      && ts[3] == "2" && ts[4] == ")"
    requires Upto(e, 1, ts, 1, 1, 0)
    ensures Upto(e, 7, ts, 5, 1, 1)
  {
    ReadDigit(e, 1, ts, 1, 1, 0);
    ReadSpace(e, 2, ts, 2, 1, 0);
    ReadOperator(e, 3, ts, 2, 1, 0);
    ReadSpace(e, 4, ts, 3, 1, 0);
    ReadDigit(e, 5, ts, 3, 1, 0);
    ReadClose(e, 6, ts, 4, 1, 0, 1);
  }

  /** Characters 7 to 10. */
  lemma ReadBracketed2(e: string, ts: seq<string>)
    requires |e| == 11 && |ts| == 7 && e[7] == ' ' && e[8] == '*' && e[9] == ' ' && e[10] == '3'
      && ts[5] == "*" && ts[6] == "3"
    requires Upto(e, 7, ts, 5, 1, 1)
    ensures Upto(e, 11, ts, 7, 1, 1)
  {
    ReadSpace(e, 7, ts, 5, 1, 1);
    ReadOperator(e, 8, ts, 5, 1, 1);
    ReadSpace(e, 9, ts, 6, 1, 1);
    ReadDigit(e, 10, ts, 6, 1, 1);
  }

  /** "1.5 * (2 - 3)" reads as ["1.5", "*", "(", "2", "-", "3", ")"]. */
  lemma ReadDecimalProduct(e: string, ts: seq<string>)
    requires |e| == 13 && |ts| == 7 && e[0] == '1' && e[1] == '.' && e[2] == '5' && e[3] == ' '
      && e[4] == '*' && e[5] == ' ' && e[6] == '(' && e[7] == '2' && e[8] == ' ' && e[9] == '-'
      && e[10] == ' ' && e[11] == '3' && e[12] == ')' && ts[0] == "1.5" && ts[1] == "*"
      && ts[2] == "(" && ts[3] == "2" && ts[4] == "-" && ts[5] == "3" && ts[6] == ")"
    ensures Tokenization(e) == Ok(ts)
    ensures Calculation(e) == Evaluation(ts)
  {
    assert e[..3] == ts[0];
    ReadFirstNumber(e, ts);
    ReadDecimalProduct1(e, ts);
    ReadDecimalProduct2(e, ts);
    UptoEnd(e, ts, 1, 1);
  }

  lemma ReadDecimalProductChars1(e: string)
    requires e == "1.5 * (2 - 3)"
    ensures |e| == 13 && e[0] == '1' && e[1] == '.' && e[2] == '5' && e[3] == ' '
  {
  }

  lemma ReadDecimalProductChars2(e: string)
    requires e == "1.5 * (2 - 3)"
    ensures e[4] == '*' && e[5] == ' ' && e[6] == '(' && e[7] == '2'
  {
  }

  lemma ReadDecimalProductChars3(e: string)
    requires e == "1.5 * (2 - 3)"
    ensures e[8] == ' ' && e[9] == '-' && e[10] == ' ' && e[11] == '3'
  {
  }

  lemma ReadDecimalProductChars4(e: string)
    requires e == "1.5 * (2 - 3)"
    ensures e[12] == ')'
  {
  }

  lemma ReadDecimalProductTokens(ts: seq<string>)
    requires ts == ["1.5", "*", "(", "2", "-", "3", ")"]
    ensures |ts| == 7 && ts[0] == "1.5" && ts[1] == "*" && ts[2] == "(" && ts[3] == "2"
      && ts[4] == "-" && ts[5] == "3" && ts[6] == ")"
  {
  }

  /** Characters 3 to 8. */
  lemma ReadDecimalProduct1(e: string, ts: seq<string>)
    requires |e| == 13 && |ts| == 7 && e[3] == ' ' && e[4] == '*' && e[5] == ' ' && e[6] == '('
      && e[7] == '2' && e[8] == ' ' && ts[1] == "*" && ts[2] == "(" && ts[3] == "2"
    requires Upto(e, 3, ts, 1, 0, 0)
    ensures Upto(e, 9, ts, 4, 1, 0)
  {
    ReadSpace(e, 3, ts, 1, 0, 0);
    ReadOperator(e, 4, ts, 1, 0, 0);
    ReadSpace(e, 5, ts, 2, 0, 0);
    ReadOpen(e, 6, ts, 2, 0, 0, 1);
    ReadDigit(e, 7, ts, 3, 1, 0);
    ReadSpace(e, 8, ts, 4, 1, 0);
  }

  /** Characters 9 to 12. */
  lemma ReadDecimalProduct2(e: string, ts: seq<string>)
    requires |e| == 13 && |ts| == 7 && e[9] == '-' && e[10] == ' ' && e[11] == '3'
      && e[12] == ')' && ts[4] == "-" && ts[5] == "3" && ts[6] == ")"
    requires Upto(e, 9, ts, 4, 1, 0)
    ensures Upto(e, 13, ts, 7, 1, 1)
  {
    ReadOperator(e, 9, ts, 4, 1, 0);
    ReadSpace(e, 10, ts, 5, 1, 0);
    ReadDigit(e, 11, ts, 5, 1, 0);
    ReadClose(e, 12, ts, 6, 1, 0, 1);
  }

}
