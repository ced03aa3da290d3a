/**
 * Whole-line behaviour on concrete inputs: the parse of a line from cursor
 * 0 and the evaluation of the tree it yields, including the quirks of the
 * C code (whitespace before ')' adds an empty symbol; trailing whitespace
 * turns a missing ')' into "Unexpected end of input"). Each line is a
 * literal; two parse steps sit in helpers that take the line as a parameter
 * fixed by the precondition.
 */
module Examples {
  import opened Ast
  import opened Parser
  import opened ParserProps
  import opened Printer
  import opened Evaluator
  import opened EvaluatorProps

  /** A one-digit integer token. */
  lemma OneDigit(s: seq<char>, p: nat)
    requires p < |s| && IsDigit(s[p]) && EndsToken(s, p + 1)
    ensures Parse(s, p) == Ok((Int(DigitValue(s[p])), p + 1))
  {
    SpanIsMaximalRun(s, p, p, IsBlank);
    SpanIsMaximalRun(s, p, p + 1, IsDigit);
    var d := s[p..p + 1];
    assert d[..|d| - 1] == [] && d[|d| - 1] == s[p];
    assert DigitsValue(d) == DigitValue(s[p]);
  }

  /** A one-byte symbol token. */
  lemma OneByteSymbol(s: seq<char>, p: nat)
    requires p < |s| && StartsSymbol(s[p]) && s[p] != ')' && EndsToken(s, p + 1)
    ensures Parse(s, p) == Ok((Sym([s[p]]), p + 1))
  {
    SpanIsMaximalRun(s, p, p, IsBlank);
    SpanIsMaximalRun(s, p, p + 1, IsSymbolChar);
    assert s[p..p + 1] == [s[p]];
  }

  /** The opening `(+` of a line, followed by a blank. */
  lemma OpenPlus(s: seq<char>)
    requires |s| >= 3 && s[0] == '(' && s[1] == '+' && s[2] == ' '
    ensures Parse(s, 0) == ParseItems(s, 2, [Sym("+")])
  {
    OneByteSymbol(s, 1);
    OpenParen(s, 0);
    ItemStep(s, 1, [], Sym("+"), 2);
    assert [] + [Sym("+")] == [Sym("+")];
  }

  /** The opening `(+ 1 2` shared by several examples, read up to position 6. */
  lemma OpenSum(s: seq<char>)
    requires |s| >= 6 && s[0] == '(' && s[1] == '+' && s[2] == ' '
    requires s[3] == '1' && s[4] == ' ' && s[5] == '2' && EndsToken(s, 6)
    ensures Parse(s, 0) == ParseItems(s, 6, [Sym("+"), Int(1), Int(2)])
  {
    OpenPlus(s);
    LeadingBlanks(s, 2, 3);
    OneDigit(s, 3);
    ItemStep(s, 2, [Sym("+")], Int(1), 4);
    assert [Sym("+")] + [Int(1)] == [Sym("+"), Int(1)];
    LeadingBlanks(s, 4, 5);
    OneDigit(s, 5);
    ItemStep(s, 4, [Sym("+"), Int(1)], Int(2), 6);
    assert [Sym("+"), Int(1)] + [Int(2)] == [Sym("+"), Int(1), Int(2)];
  }

  /** Reads `(+ 1 2 )` up to its end, with the text held in a variable. */
  lemma ReadSumWithSpace(s: seq<char>)
    requires s == "(+ 1 2 )"
    ensures Parse(s, 0) == Ok((List([Sym("+"), Int(1), Int(2), Sym("")]), 8))
  {
    OpenSum(s);
    BlanksBeforeClose(s, 6, 7, [Sym("+"), Int(1), Int(2)]);
    assert [Sym("+"), Int(1), Int(2)] + [Sym("")] == [Sym("+"), Int(1), Int(2), Sym("")];
  }

  /** `(+ 1 2 )`: the space before ')' adds an empty symbol, which `+` cannot evaluate. */
  lemma SpaceBeforeCloseAddsEmptySymbol()
    ensures Parse("(+ 1 2 )", 0) == Ok((List([Sym("+"), Int(1), Int(2), Sym("")]), 8))
    ensures Eval(List([Sym("+"), Int(1), Int(2), Sym("")])) == Err(StandaloneSymbol)
  {
    ReadSumWithSpace("(+ 1 2 )");
    EmptySymbolArgument();
  }

  /** A sum of 1, 2 and the empty symbol fails at its third argument. */
  lemma EmptySymbolArgument()
    ensures Eval(List([Sym("+"), Int(1), Int(2), Sym("")])) == Err(StandaloneSymbol)
  {
    ArithmeticFirstFailure("+", [Int(1), Int(2), Sym("")], 2);
  }

  /** Reads `(+ 1 2) extra` up to the ')', with the text held in a variable. */
  lemma ReadSumThenText(s: seq<char>)
    requires s == "(+ 1 2) extra"
    ensures Parse(s, 0) == Ok((List([Sym("+"), Int(1), Int(2)]), 7))
  {
    OpenSum(s);
  }

  /** `(+ 1 2) extra`: the cursor stops on the space after the ')'; the sum is 3. */
  lemma CursorAfterExpression()
    ensures Parse("(+ 1 2) extra", 0) == Ok((List([Sym("+"), Int(1), Int(2)]), 7))
    ensures Eval(List([Sym("+"), Int(1), Int(2)])) == Ok(IntV(3))
  {
    ReadSumThenText("(+ 1 2) extra");
    OnePlusTwo();
  }

  /** The tree of `(+ 1 2)` evaluates to 3. */
  lemma OnePlusTwo()
    ensures Eval(List([Sym("+"), Int(1), Int(2)])) == Ok(IntV(3))
  {
    PlusIsSum([Int(1), Int(2)], [1, 2]);
  }

  /** `(+ 1 2`: input ending right after an item is an unmatched '('. */
  lemma MissingClose()
    ensures Parse("(+ 1 2", 0) == Err(UnmatchedParen)
  {
    var s := "(+ 1 2";
    OpenSum(s);
  }

  /** `(+ 1 2` and a newline: the trailing blank turns the same mistake into "Unexpected end of input". */
  lemma MissingCloseBeforeNewline()
    ensures Parse("(+ 1 2\n", 0) == Err(UnexpectedEnd)
  {
    var s := "(+ 1 2\n";
    OpenSum(s);
    BlanksBeforeEnd(s, 6, [Sym("+"), Int(1), Int(2)]);
  }

  /** `( )` is a list holding the empty symbol, an unknown operator. */
  lemma BlankList()
    ensures Parse("( )", 0) == Ok((List([Sym("")]), 3))
    ensures Eval(List([Sym("")])) == Err(UnknownOperator)
  {
    var s := "( )";
    OpenParen(s, 0);
    BlanksBeforeClose(s, 1, 2, []);
    assert [] + [Sym("")] == [Sym("")];
  }

  /** `()` is the empty list, which cannot be evaluated. */
  lemma EmptyListLine()
    ensures Parse("()", 0) == Ok((List([]), 2))
    ensures Eval(List([])) == Err(EmptyList)
  {
    var s := "()";
    OpenParen(s, 0);
  }

  /** `"abc` has no closing quote. */
  lemma UnterminatedLine()
    ensures Parse("\"abc", 0) == Err(UnterminatedString)
  {
    var s := "\"abc";
    StringToken(s, 0);
  }

  /** `(- 10 1 2)` is 7: the first argument minus each later one. */
  lemma SubtractionExample()
    ensures Eval(List([Sym("-"), Int(10), Int(1), Int(2)])) == Ok(IntV(7))
  {
    MinusIsDifference([Int(10), Int(1), Int(2)], [10, 1, 2]);
  }

  /** `(concat "a" "b" "c")` is "abc": the order of the arguments is kept. */
  lemma ConcatExample()
    ensures Eval(List([Sym("concat"), Str("a"), Str("b"), Str("c")])) == Ok(StrV("abc"))
  {
    var args := [Str("a"), Str("b"), Str("c")];
    ConcatIsConcatenation(args, ["a", "b", "c"]);
    assert Apply("concat", args) == List([Sym("concat"), Str("a"), Str("b"), Str("c")]);
    var ts: seq<string> := ["a", "b", "c"];
    assert ts[1..] == ["b", "c"] && ts[1..][1..] == ["c"] && ts[1..][1..][1..] == [];
    assert Concat(ts) == "a" + ("b" + ("c" + ""));
    assert "a" + ("b" + ("c" + "")) == "abc";
  }

  /** `(+ (+ 1 2) (- 5 1))` is 7. */
  lemma NestedExample()
    ensures Eval(List([Sym("+"), List([Sym("+"), Int(1), Int(2)]), List([Sym("-"), Int(5), Int(1)])])) == Ok(IntV(7))
  {
    PlusIsSum([Int(1), Int(2)], [1, 2]);
    MinusIsDifference([Int(5), Int(1)], [5, 1]);
    PlusIsSum([List([Sym("+"), Int(1), Int(2)]), List([Sym("-"), Int(5), Int(1)])], [3, 4]);
  }

  /** `(+ 1 "x")` fails with the type error, and no partial sum comes out. */
  lemma TypeMismatchExample()
    ensures Eval(List([Sym("+"), Int(1), Str("x")])) == Err(NonInteger)
  {
    ArithmeticFirstFailure("+", [Int(1), Str("x")], 1);
  }

  /** `(- 1 "x")` reports the same text as `+` does. */
  lemma MinusSharesPlusMessage()
    ensures Eval(List([Sym("-"), Int(1), Str("x")])) == Err("Non-integer argument to +")
  {
    ArithmeticFirstFailure("-", [Int(1), Str("x")], 1);
  }

  /** `(+ )` is not the empty sum: the space adds an empty symbol argument. */
  lemma PlusWithSpace()
    ensures Parse("(+ )", 0) == Ok((List([Sym("+"), Sym("")]), 4))
    ensures Eval(List([Sym("+"), Sym("")])) == Err(StandaloneSymbol)
  {
    var s := "(+ )";
    OpenPlus(s);
    BlanksBeforeClose(s, 2, 3, [Sym("+")]);
    assert [Sym("+")] + [Sym("")] == [Sym("+"), Sym("")];
    ArithmeticFirstFailure("+", [Sym("")], 0);
  }

  /** `(+)` is the empty sum, 0. */
  lemma PlusAlone()
    ensures Parse("(+)", 0) == Ok((List([Sym("+")]), 3))
    ensures Eval(List([Sym("+")])) == Ok(IntV(0))
  {
    var s := "(+)";
    OneByteSymbol(s, 1);
    OpenParen(s, 0);
    ItemStep(s, 1, [], Sym("+"), 2);
    assert [] + [Sym("+")] == [Sym("+")];
    PlusIsSum([], []);
  }
}
