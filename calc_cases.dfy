/** The table of TestCalc and TestTokenize in
    pkg/calculator/calculator_test.go, stated on the strings themselves:
    what Calc and Tokenize return for each input. Each string is read into
    its tokens and bracket counts (ReadingCases), and the tokens are then
    evaluated by the traces of CalculatorCases. */
module CalcCases {
  import opened Errors
  import opened Strings
  import opened Strconv
  import opened Calculator
  import opened CalculatorCases
  import opened Reading
  import opened ReadingCases
  import EvaluatorLaws

  /** Calc("1.2 + 1 * (2 + 1)"): a decimal operand, and a bracket inside a product inside a sum: 4.2. */
  lemma DecimalCalc(e: string)
    requires e == "1.2 + 1 * (2 + 1)"
    ensures Calculation(e) == Ok(4.2)
  {
    var ts := ["1.2", "+", "1", "*", "(", "2", "+", "1", ")"];
    ReadDecimalChars1(e);
    ReadDecimalChars2(e);
    ReadDecimalChars3(e);
    ReadDecimalChars4(e);
    ReadDecimalChars5(e);
    ReadDecimalTokens(ts);
    ReadDecimal(e, ts);
    DecimalCase(ts);
  }

  /** Calc("2 * 3 + 4 * (2 - 1)"): products before sums: 10. */
  lemma PrecedenceCalc(e: string)
    requires e == "2 * 3 + 4 * (2 - 1)"
    ensures Calculation(e) == Ok(10.0)
  {
    var ts := ["2", "*", "3", "+", "4", "*", "(", "2", "-", "1", ")"];
    ReadPrecedenceChars1(e);
    ReadPrecedenceChars2(e);
    ReadPrecedenceChars3(e);
    ReadPrecedenceChars4(e);
    ReadPrecedenceChars5(e);
    ReadPrecedenceTokens(ts);
    ReadPrecedence(e, ts);
    PrecedenceCase(ts);
  }

  /** Calc("2 * 3 * 4 * (2 / 1)"): a chain of products with a bracketed quotient: 48. */
  lemma ProductCalc(e: string)
    requires e == "2 * 3 * 4 * (2 / 1)"
    ensures Calculation(e) == Ok(48.0)
  {
    var ts := ["2", "*", "3", "*", "4", "*", "(", "2", "/", "1", ")"];
    ReadProductChars1(e);
    ReadProductChars2(e);
    ReadProductChars3(e);
    ReadProductChars4(e);
    ReadProductChars5(e);
    ReadProductTokens(ts);
    ReadProduct(e, ts);
    ProductCase(ts);
  }

  /** Calc("2 - 3 + 4 * (2 - 1)"): a difference then a sum, taken from the left: 3. */
  lemma DifferenceCalc(e: string)
    requires e == "2 - 3 + 4 * (2 - 1)"
    ensures Calculation(e) == Ok(3.0)
  {
    var ts := ["2", "-", "3", "+", "4", "*", "(", "2", "-", "1", ")"];
    ReadDifferenceChars1(e);
    ReadDifferenceChars2(e);
    ReadDifferenceChars3(e);
    ReadDifferenceChars4(e);
    ReadDifferenceChars5(e);
    ReadDifferenceTokens(ts);
    ReadDifference(e, ts);
    DifferenceCase(ts);
  }

  /** Calc("1 - 1"): a number minus itself: 0. */
  lemma SelfDifferenceCalc(e: string)
    requires e == "1 - 1"
    ensures Calculation(e) == Ok(0.0)
  {
    var ts := ["1", "-", "1"];
    ReadSelfDifferenceChars1(e);
    ReadSelfDifferenceChars2(e);
    ReadSelfDifferenceTokens(ts);
    ReadSelfDifference(e, ts);
    ParseFloatDigit('1');
    EvaluatorLaws.InfixBinary("1", '-', "1", 1.0, 1.0);
  }

  /** Calc(""): the empty string passes the bracket and symbol checks and has no number to return. */
  lemma EmptyCalc(e: string)
    requires e == ""
    ensures Calculation(e) == Err(InvalidExpression)
  {
    var ts := [];
    ReadEmptyChars1(e);
    ReadEmptyTokens(ts);
    ReadEmpty(e, ts);
    NoTokensCase(ts);
  }

  /** Calc("   "): only spaces: nothing is left once they are removed. */
  lemma BlankCalc(e: string)
    requires e == "   "
    ensures Calculation(e) == Err(InvalidExpression)
  {
    var ts := [];
    ReadBlankChars1(e);
    ReadBlankTokens(ts);
    ReadBlank(e, ts);
    NoTokensCase(ts);
  }

  /** Calc("1 + (3 * ()"): two "(" against one ")": refused before tokenizing. */
  lemma ExtraOpenCalc(e: string)
    requires e == "1 + (3 * ()"
    ensures Calculation(e) == Err(ExtraOpenBracket)
  {
    var ts := ["1", "+", "(", "3", "*", "(", ")"];
    ReadExtraOpenChars1(e);
    ReadExtraOpenChars2(e);
    ReadExtraOpenChars3(e);
    ReadExtraOpenTokens(ts);
    ReadExtraOpen(e, ts);
  }

  /** Calc("1 + 1 * (2 + 1))"): one "(" against two ")": refused before tokenizing. */
  lemma ExtraCloseCalc(e: string)
    requires e == "1 + 1 * (2 + 1))"
    ensures Calculation(e) == Err(ExtraCloseBracket)
  {
    var ts := ["1", "+", "1", "*", "(", "2", "+", "1", ")", ")"];
    ReadExtraCloseChars1(e);
    ReadExtraCloseChars2(e);
    ReadExtraCloseChars3(e);
    ReadExtraCloseChars4(e);
    ReadExtraCloseTokens(ts);
    ReadExtraClose(e, ts);
  }

  /** Calc("2 / 0"): division by zero. */
  lemma DivisionByZeroCalc(e: string)
    requires e == "2 / 0"
    ensures Calculation(e) == Err(DivisionByZero)
  {
    var ts := ["2", "/", "0"];
    ReadDivisionByZeroChars1(e);
    ReadDivisionByZeroChars2(e);
    ReadDivisionByZeroTokens(ts);
    ReadDivisionByZero(e, ts);
    DivisionByZeroCase(ts);
  }

  /** Calc("2 / + 0"): an operator right after an operator. */
  lemma OperatorAfterOperatorCalc(e: string)
    requires e == "2 / + 0"
    ensures Calculation(e) == Err(ExtraOperator)
  {
    var ts := ["2", "/", "+", "0"];
    ReadOperatorAfterOperatorChars1(e);
    ReadOperatorAfterOperatorChars2(e);
    ReadOperatorAfterOperatorTokens(ts);
    ReadOperatorAfterOperator(e, ts);
    OperatorAfterOperatorCase(ts);
  }

  /** Calc("1 + *"): a trailing operator. */
  lemma TrailingOperatorCalc(e: string)
    requires e == "1 + *"
    ensures Calculation(e) == Err(ExtraOperator)
  {
    var ts := ["1", "+", "*"];
    ReadTrailingOperatorChars1(e);
    ReadTrailingOperatorChars2(e);
    ReadTrailingOperatorTokens(ts);
    ReadTrailingOperator(e, ts);
    TrailingOperatorCase(ts);
  }

  /** Calc("2 ( 8)"): two numbers with no operator between them. */
  lemma MissingOperatorCalc(e: string)
    requires e == "2 ( 8)"
    ensures Calculation(e) == Err(InvalidExpression)
  {
    var ts := ["2", "(", "8", ")"];
    ReadMissingOperatorChars1(e);
    ReadMissingOperatorChars2(e);
    ReadMissingOperatorTokens(ts);
    ReadMissingOperator(e, ts);
    MissingOperatorCase(ts);
  }

  /** Tokenize("1 + 2"), a sum. */
  lemma SumTokenize(e: string)
    requires e == "1 + 2"
    ensures Tokenization(e) == Ok(["1", "+", "2"])
  {
    var ts := ["1", "+", "2"];
    ReadSumChars1(e);
    ReadSumChars2(e);
    ReadSumTokens(ts);
    ReadSum(e, ts);
  }

  /** Tokenize("(1 + 2) * 3"), a bracketed sum times a number. */
  lemma BracketedTokenize(e: string)
    requires e == "(1 + 2) * 3"
    ensures Tokenization(e) == Ok(["(", "1", "+", "2", ")", "*", "3"])
  {
    var ts := ["(", "1", "+", "2", ")", "*", "3"];
    ReadBracketedChars1(e);
    ReadBracketedChars2(e);
    ReadBracketedChars3(e);
    ReadBracketedTokens(ts);
    ReadBracketed(e, ts);
  }

  /** Tokenize("1.5 * (2 - 3)"), a decimal times a bracketed difference. */
  lemma DecimalProductTokenize(e: string)
    requires e == "1.5 * (2 - 3)"
    ensures Tokenization(e) == Ok(["1.5", "*", "(", "2", "-", "3", ")"])
  {
    var ts := ["1.5", "*", "(", "2", "-", "3", ")"];
    ReadDecimalProductChars1(e);
    ReadDecimalProductChars2(e);
    ReadDecimalProductChars3(e);
    ReadDecimalProductChars4(e);
    ReadDecimalProductTokens(ts);
    ReadDecimalProduct(e, ts);
  }

  /** Calc("& j"): the brackets balance (there are none), and then "&"
      is refused by the tokenizer. */
  lemma UnacceptableCalc(e: string)
    requires e == "& j"
    ensures Calculation(e) == Err(UnacceptableSymbol)
  {
    assert |e| == 3 && e[0] == '&' && e[1] == ' ' && e[2] == 'j';
    RefusedFirst(e);
  }
}
