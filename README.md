# YALisp interpreter core in Dafny

YALisp is a line-oriented interpreter for a minimal S-expression language.
Its core has two parts, and this project models both:

- the recursive-descent parser `parse`, which turns a byte string and a
  cursor into one syntax-tree node or a parse error;
- the tree-walking evaluator `eval_ast_node`, which maps a node to an
  integer or string value or to an error message, with the built-in
  operators `+`, `-` and `concat`.

Both live in `yalisp.h`. The modules follow the program's structure:

- `Ast` (ast.dfy): the node kinds (integer, symbol, string, list), the
  values (integer, string) and a result that is either a value or an error
  message. The C `create_*_node`, `create_*_value`, `create_*_result` and
  `create_parse_*` builders are the constructors of these datatypes.
- `Parser` (parser.dfy): `Parse`/`ParseItems` are the parser as functions
  from (input, cursor) to (node, new cursor) or an error. `ParseExpr` and
  its helper methods are the C while-loops over a cursor variable, each
  proved equal to those functions. The input is a `seq<char>`; the end of
  the sequence plays the part of the C terminator `'\0'`.
- `ParserProps` (parser_props.dfy): what each kind of token parses to,
  including the two whitespace quirks of the list loop.
- `Printer` (printer.dfy): a printer for syntax trees, used only to state
  the parse/print round trip.
- `Evaluator` (evaluator.dfy): `Eval` is the evaluator as a function, whose
  operator cases are accumulator recursions that follow the C loops.
  `EvalNode`, `EvalSum`, `EvalDiff` and `EvalConcat` are those loops as
  methods, proved equal to `Eval`. `EvalConcat` writes into a character
  buffer of the length the first pass computed.
- `EvaluatorProps` (evaluator_props.dfy): reference meanings of the
  operators (a sum, a difference, a concatenation), the first-failure rules
  and the outcomes of leaves and malformed lists.
- `Examples` (examples.dfy): whole lines parsed from cursor 0 and the
  evaluation of the trees they yield, including the quirks, and the
  evaluation of a few hand-built trees (`SubtractionExample`,
  `ConcatExample`, `NestedExample`, `TypeMismatchExample`,
  `MinusSharesPlusMessage`), whose lines are not parsed.

Quirks of the code kept in the model:

- Whitespace before `)` adds an empty symbol. `(+ 1 2 )` parses as
  `[+, 1, 2, Sym("")]` and fails to evaluate. `( )` is an unknown operator.
- Whitespace after the last item of an unclosed list gives "Unexpected end
  of input" rather than "Unmatched '(' in input".
- `concat` evaluates each argument twice when every argument passes the
  first pass: once to check types and total the lengths, once to append. A
  failure in the first pass stops it before the later arguments.
- A type error in `-` reports "Non-integer argument to +".

Two consequences of the code are worth stating plainly:

- Each argument of `+` and `-` is evaluated at most once; each argument of
  `concat` is evaluated twice when all of them pass the first pass
  (yalisp.h:321-340).
- `(+ )` is not the empty sum: the space before `)` adds an empty symbol,
  so it gives "Cannot evaluate a standalone symbol", while `(+)` gives 0
  (`Examples.PlusWithSpace`, `Examples.PlusAlone`).

## Model

| member | source | states |
|---|---|---|
| Parser.Span | yalisp.h:195-196 | the cursor after a scan is the end of the maximal run of bytes satisfying the scan's test: every byte skipped passes it, and the stopping byte (if any) fails it |
| Parser.DigitValue | yalisp.h:229 | a digit byte stands for a value below ten |
| Parser.DigitsBound | yalisp.h:227-230 | the value the digit loop accumulates over a run of `k` digits stays below `10^k` |
| Parser.LeadingDigitFirst | yalisp.h:227-230 | the digit loop reads the most significant digit first: the leading digit of a `k`-digit run is worth `10^(k-1)` |
| Parser.Parse | yalisp.h:194-256 | a successful parse never moves the cursor backwards or past the end; it leaves the cursor in place only on an immediate `)` that yields the empty symbol; every error is one of the three parse messages |
| Parser.ParseItems | yalisp.h:198-225 | a successful list ends strictly after its start, at most at the end of the input, with a list node; errors are parse messages |
| Parser.ParseExpr | yalisp.h:194-256 | the cursor-advancing loops compute exactly `Parse` |
| Parser.SkipBlanks | yalisp.h:195-196 | the blank-skipping loop stops where the maximal run of space, newline and tab ends |
| Parser.ParseList | yalisp.h:198-225 | the item loop, appending one sub-parse result at a time, computes exactly `ParseItems` from the empty list |
| Parser.ParseInt | yalisp.h:226-232 | the digit loop yields the integer whose decimal digits are the maximal digit run, with the cursor on the first non-digit |
| Parser.ParseString | yalisp.h:233-244 | the string loop yields the bytes up to the next quote with the cursor past it, or the unterminated-string error when the input ends first |
| Parser.ParseSymbol | yalisp.h:245-252 | the symbol loop yields the maximal run of bytes other than space, `)`, newline and tab, with the cursor on the stopping byte |
| ParserProps.SpanSkip | yalisp.h:195-196 | bytes that pass the test can be skipped first without changing where the scan stops |
| ParserProps.SpanIsMaximalRun | yalisp.h:195-196 | any position that ends a run of passing bytes at a failing byte or the end is where the scan stops |
| ParserProps.LeadingBlanks | yalisp.h:195-196 | spaces, newlines and tabs before a token do not change the parse |
| ParserProps.BlankToEnd | yalisp.h:195-255 | input that is blank to its end gives "Unexpected end of input" |
| ParserProps.IntToken | yalisp.h:226-232 | a digit-initial token is the integer of the maximal digit run, with the cursor on the first non-digit |
| ParserProps.StringToken | yalisp.h:233-244 | a quote-initial token succeeds if and only if a closing quote follows; it is then the bytes strictly between the quotes, with no escapes, and the cursor just past the closing quote; otherwise it is the unterminated-string error |
| ParserProps.SymbolToken | yalisp.h:245-252 | any other token is the symbol of the maximal run of non-delimiter bytes, with the cursor on the stopping byte; it is empty, with the cursor unmoved, exactly when the byte is `)` |
| ParserProps.ChainAdvances | yalisp.h:203-214 | every sub-parse inside a list advances the cursor by at least one byte |
| ParserProps.ChainCons | yalisp.h:203-214 | one successful sub-parse before a chain of sub-parses extends the chain |
| ParserProps.ItemsAsChain | yalisp.h:198-225 | a list's items are the chain of successive sub-parses, in order; after the last, end of input gives "Unmatched '(' in input", a `)` gives the list with the cursor past it, and anything else is a failing sub-parse whose error is returned unchanged |
| ParserProps.ListToken | yalisp.h:198-225 | the same characterisation for a `(`-initial token: items in encounter order, the unmatched-paren error, or the first failing sub-parse's error unchanged |
| ParserProps.FirstItem | yalisp.h:198-213 | after a `(`, a first item that takes at least one byte is appended and the loop goes on after it |
| ParserProps.CloseParenIsEmptySymbol | yalisp.h:245-252 | a nested parse that lands on `)` yields the empty symbol without advancing |
| ParserProps.BlanksBeforeClose | yalisp.h:203-252 | blanks before the closing `)` add one empty symbol to the list |
| ParserProps.BlanksBeforeEnd | yalisp.h:203-255 | blanks after the last item of an unclosed list give "Unexpected end of input", not the unmatched-paren error |
| Printer.DigitChar | yalisp.h:229 | inverse of the digit reading on this line: the printed digit reads back as the same digit value |
| Printer.Decimal | yalisp.h:226-228 | inverse of the digit loop's input: the printed decimal form is a non-empty run of digits, so the integer branch takes it whole |
| Printer.DecimalValue | yalisp.h:226-232 | the digit loop reads a printed decimal back as the same number |
| Printer.Print | yalisp.h:194-203 | inverse of the parser, not a model of it: printed text never starts with a blank or `)`, so the first tests of `parse` take it as a token |
| Printer.ParsePrinted | yalisp.h:194-256 | any printable node written into the input, followed by a delimiter or the end, parses back to the same node with the cursor just past it |
| Printer.ParsePrintedInt | yalisp.h:226-232 | a printed integer parses back to itself |
| Printer.ParsePrintedStr | yalisp.h:233-244 | a printed string parses back to itself |
| Printer.ParsePrintedSym | yalisp.h:245-252 | a printed symbol parses back to itself |
| Printer.ParsePrintedList | yalisp.h:198-225 | a printed non-empty list parses back to itself |
| Printer.SpacedItems | yalisp.h:203-225 | the space-separated rest of a printed list, with its `)`, completes the list |
| Printer.ParsePrintRoundTrip | yalisp.h:194-256 | parsing the printed text of a printable node from cursor 0 gives back the node and consumes the whole text |
| Evaluator.Eval | yalisp.h:258-349 | every evaluation error is one of the evaluator's messages |
| Evaluator.SumFrom | yalisp.h:277-292 | the `+` loop yields an integer or an evaluator error |
| Evaluator.DiffFrom | yalisp.h:302-318 | the later-argument loop of `-` yields an integer or an evaluator error |
| Evaluator.ConcatLength | yalisp.h:320-331 | the first `concat` pass succeeds only when every remaining argument evaluates to a string |
| Evaluator.ConcatJoin | yalisp.h:333-340 | the second pass only appends: whatever the buffer held stays its prefix as each argument, evaluated again, is added |
| Evaluator.JoinAppends | yalisp.h:333-340 | appending to a buffer that holds some text is that text followed by what appending to an empty buffer gives |
| Evaluator.LengthPassMatchesJoin | yalisp.h:320-340 | the total length the first pass computes is exactly the length the second pass appends, so the buffer of that size plus the terminator fits |
| Evaluator.EvalNode | yalisp.h:258-349 | the recursive walk with its loops computes exactly `Eval` |
| Evaluator.EvalSum | yalisp.h:276-292 | the `+` accumulator loop computes the sum recursion from 0 |
| Evaluator.EvalDiff | yalisp.h:293-318 | the `-` loop, seeded with the first argument, computes exactly `Eval` |
| Evaluator.EvalConcat | yalisp.h:319-342 | the two `concat` passes, the second copying into a buffer of the computed size, compute exactly `Eval` |
| EvaluatorProps.SumFromInts | yalisp.h:277-292 | over integer arguments the `+` loop adds their sum to the accumulator |
| EvaluatorProps.DiffFromInts | yalisp.h:302-318 | over integer arguments the `-` loop subtracts their sum from the accumulator |
| EvaluatorProps.PlusIsSum | yalisp.h:276-292 | `+` over integer arguments is their sum, 0 when there are none |
| EvaluatorProps.MinusIsDifference | yalisp.h:293-318 | `-` over integer arguments is the first minus each later one in order |
| EvaluatorProps.MinusNeedsAnOperand | yalisp.h:293-294 | `-` with no argument is an explicit error |
| EvaluatorProps.SumFromFirstFailure | yalisp.h:279-290 | the `+` loop returns the first failing argument's error unchanged, or the type error for the first non-integer |
| EvaluatorProps.DiffFromFirstFailure | yalisp.h:305-316 | the same rule for the later arguments of `-` |
| EvaluatorProps.ArithmeticFirstFailure | yalisp.h:276-318 | in `+` and `-` the first argument that fails is reported unchanged, and the first non-integer gives "Non-integer argument to +"; later arguments play no part |
| EvaluatorProps.PlusFirstFailure | yalisp.h:276-292 | `+` returns its first failing argument's error unchanged, or "Non-integer argument to +" for its first non-integer argument |
| EvaluatorProps.MinusFirstFailure | yalisp.h:293-318 | `-` returns its first failing argument's error unchanged, or "Non-integer argument to +" for its first non-integer argument, the first argument included |
| EvaluatorProps.PassesAsFold | yalisp.h:320-340 | the length pass followed by the append pass equals one left fold over the arguments |
| EvaluatorProps.TwoPassesAreOneFold | yalisp.h:319-342 | `concat`'s two evaluations of each argument give the same result as a single left fold |
| EvaluatorProps.FoldStrings | yalisp.h:336-340 | over string arguments the fold appends their concatenation to the buffer |
| EvaluatorProps.ConcatIsConcatenation | yalisp.h:319-342 | `concat` over string arguments is their in-order concatenation, "" when there are none |
| EvaluatorProps.FoldFirstFailure | yalisp.h:321-331 | the fold returns the first failing argument's error unchanged, or the type error for the first non-string |
| EvaluatorProps.ConcatFirstFailure | yalisp.h:319-331 | in `concat` the first argument that fails is reported unchanged, and the first non-string gives "Non-string argument to concat" |
| EvaluatorProps.EvalOutcomeForms | yalisp.h:258-349 | an integer or string node evaluates to its own value; a successful evaluation is a literal, an integer from `+` or `-`, or a string from `concat` |
| EvaluatorProps.NonOperatorForms | yalisp.h:263-274 | a symbol, an empty list and a list whose head is not a symbol each give their own error |
| EvaluatorProps.UnknownOperatorIgnoresArguments | yalisp.h:343-344 | any other operator name gives "Unknown operator" whatever its arguments are, so none is evaluated |
| Examples.SpaceBeforeCloseAddsEmptySymbol | yalisp.h:203-286 | `(+ 1 2 )` parses with a trailing empty symbol and evaluates to the standalone-symbol error |
| Examples.CursorAfterExpression | yalisp.h:198-292 | `(+ 1 2) extra` parses one expression, leaving the cursor after `)`, and evaluates to 3 |
| Examples.MissingClose | yalisp.h:216-221 | `(+ 1 2` gives "Unmatched '(' in input" |
| Examples.MissingCloseBeforeNewline | yalisp.h:203-255 | `(+ 1 2` followed by a newline gives "Unexpected end of input" |
| Examples.BlankList | yalisp.h:203-344 | `( )` is a list holding the empty symbol, an unknown operator |
| Examples.EmptyListLine | yalisp.h:198-267 | `()` is the empty list, which cannot be evaluated |
| Examples.UnterminatedLine | yalisp.h:233-239 | a string without its closing quote is the unterminated-string error |
| Examples.SubtractionExample | yalisp.h:293-318 | `(- 10 1 2)` is 7 |
| Examples.ConcatExample | yalisp.h:319-342 | `(concat "a" "b" "c")` is "abc" |
| Examples.NestedExample | yalisp.h:276-318 | `(+ (+ 1 2) (- 5 1))` is 7 |
| Examples.TypeMismatchExample | yalisp.h:285-286 | `(+ 1 "x")` is the non-integer error |
| Examples.MinusSharesPlusMessage | yalisp.h:311-312 | a type error in `-` reports "Non-integer argument to +" |
| Examples.PlusWithSpace | yalisp.h:203-286 | `(+ )` parses as `+` applied to the empty symbol and evaluates to the standalone-symbol error |
| Examples.PlusAlone | yalisp.h:276-292 | `(+)` evaluates to 0 |

## Left out

- Console I/O: `print_value`, `process_yalisp_shell_input`, `run_yalisp_shell` and the program entry point only read lines and print results around `parse` and `eval_ast_node`. main.c is not part of this model.
- Memory ownership: the `free_*` functions, `strdup`/`strndup`/`malloc`/`realloc` and the leaks they allow are not behaviour in a garbage-collected model. The list items are a sequence the loop appends to, not a reallocated array.
- Parser.ParseInt: integers are mathematical; the 32-bit overflow of `value * 10 + d` is undefined behaviour in C and is not modelled.
- Evaluator.SumFrom: the sum is a mathematical integer; the 32-bit overflow of `sum +=` is not modelled.
- Evaluator.DiffFrom: the difference is a mathematical integer; the 32-bit overflow of `diff -=` is not modelled.
- Evaluator.Eval: `-` with no argument reads past the end of the item array in C (undefined behaviour); the model returns the explicit error "Missing argument to -" instead.
- Parser.ParseSymbol: the C symbol scan has no end-of-input check and reads past the terminator when a symbol ends the input; the model stops at the end of the input.
- Parser.Parse: a `'\0'` byte inside the input would end the C string; the model has no such byte, since the end of the sequence stands for the terminator, and treats a `'\0'` element like any other byte.
- The defensive "Unknown AST node type" and "Unknown value type" branches cannot be reached with closed datatypes.
- UTF-8: the parser works on bytes, as the C code does; there is no decoding.
- Printer.ParsePrintRoundTrip: the printer is not part of the C program; it only serves to state the round trip, which covers the parser outputs that hold no empty symbol (non-empty symbols without delimiters, strings without quotes, non-negative integers). Trees holding `Sym("")`, such as those of `( )` and `(+ 1 2 )`, have no printed form; `ParserProps.BlanksBeforeClose` and the examples state how they arise.
