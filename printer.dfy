/**
 * A printer for syntax trees, used as the inverse against which the parser
 * is checked: every tree the parser can produce from well-formed tokens is
 * read back from its printed form, with the cursor just past it. The C
 * code has no such printer; `Print` exists to state the round trip.
 */
module Printer {
  import opened Ast
  import opened Parser
  import opened ParserProps

  function DigitChar(d: nat): (c: char)
    requires d < 10
    ensures IsDigit(c) && DigitValue(c) == d
  {
    (('0' as int) + d) as char
  }

  /** The decimal digits of `v`, most significant first, without leading zeros. */
  function Decimal(v: nat): (d: seq<char>)
    ensures |d| >= 1 && forall k | 0 <= k < |d| :: IsDigit(d[k])
    decreases v
  {
    if v < 10 then [DigitChar(v)] else Decimal(v / 10) + [DigitChar(v % 10)]
  }

  /** The digit loop of `parse` reads back what `Decimal` writes. */
  lemma {:induction false} DecimalValue(v: nat)
    ensures DigitsValue(Decimal(v)) == v
    decreases v
  {
    if v >= 10 {
      var d := Decimal(v);
      assert d[..|d| - 1] == Decimal(v / 10);
      DecimalValue(v / 10);
    }
  }

  /** A name the symbol branch reads back whole: it starts a symbol and has no stop byte. */
  predicate IsSymbolName(name: string)
  {
    && name != []
    && StartsSymbol(name[0])
    && forall k | 0 <= k < |name| :: IsSymbolChar(name[k])
  }

  /**
   * The trees that have a printed form: integers are not negative (there is
   * no sign in the syntax), strings hold no '"' (there are no escapes), and
   * symbols are non-empty names.
   */
  predicate Printable(n: Node)
    decreases n
  {
    match n
    case Int(v) => v >= 0
    case Str(t) => forall k | 0 <= k < |t| :: t[k] != '"'
    case Sym(name) => IsSymbolName(name)
    case List(items) => forall k | 0 <= k < |items| :: Printable(items[k])
  }

  /** The source text of a tree; list items are separated by single spaces. */
  function Print(n: Node): (w: string)
    requires Printable(n)
    ensures |w| >= 1 && !IsBlank(w[0]) && w[0] != ')'
    decreases n, 1
  {
    match n
    case Int(v) => Decimal(v)
    case Str(t) => ['"'] + t + ['"']
    case Sym(name) => name
    case List(items) =>
      if items == [] then "()" else "(" + Print(items[0]) + Spaced(n, 1) + ")"
  }

  /** The items of list `n` from `i` on, each preceded by a space. */
  function Spaced(n: Node, i: nat): string
    requires n.List? && 1 <= i <= |n.items| && Printable(n)
    decreases n, 0, |n.items| - i
  {
    if i == |n.items| then "" else " " + Print(n.items[i]) + Spaced(n, i + 1)
  }

  /** The text `w` stands in `s` from position `p` on. */
  ghost predicate At(s: seq<char>, p: nat, w: seq<char>)
  {
    p + |w| <= |s| && forall k | 0 <= k < |w| :: s[p + k] == w[k]
  }

  lemma AtConcat(s: seq<char>, p: nat, a: seq<char>, b: seq<char>)
    requires At(s, p, a + b)
    ensures At(s, p, a) && At(s, p + |a|, b)
  {
    forall k | 0 <= k < |a|
      ensures s[p + k] == a[k]
    {
      assert s[p + k] == (a + b)[k];
    }
    forall k | 0 <= k < |b|
      ensures s[p + |a| + k] == b[k]
    {
      assert s[p + (|a| + k)] == (a + b)[|a| + k];
    }
  }

  /** Every byte of a text with property `P` also has it where the text stands in `s`. */
  lemma AtAll(s: seq<char>, p: nat, w: seq<char>, P: char -> bool)
    requires At(s, p, w)
    requires forall k | 0 <= k < |w| :: P(w[k])
    ensures forall k | p <= k < p + |w| :: P(s[k])
  {
    forall k | p <= k < p + |w|
      ensures P(s[k])
    {
      assert s[p + (k - p)] == w[k - p];
    }
  }

  lemma AtSlice(s: seq<char>, p: nat, w: seq<char>)
    requires At(s, p, w)
    ensures s[p..p + |w|] == w
  {
  }

  /** A byte that ends a token of every kind. */
  predicate EndsToken(s: seq<char>, p: nat)
  {
    p == |s| || (p < |s| && !IsSymbolChar(s[p]))
  }

  /**
   * Parsing the printed form of a tree, followed by the end of the input or
   * a byte that ends a token, gives the tree back and leaves the cursor just
   * past the printed text.
   */
  lemma {:induction false} ParsePrinted(s: seq<char>, pos: nat, n: Node)
    requires Printable(n)
    requires At(s, pos, Print(n)) && EndsToken(s, pos + |Print(n)|)
    ensures Parse(s, pos) == Ok((n, pos + |Print(n)|))
    decreases n, 1
  {
    match n
    case Int(_) => ParsePrintedInt(s, pos, n);
    case Str(_) => ParsePrintedStr(s, pos, n);
    case Sym(_) => ParsePrintedSym(s, pos, n);
    case List(items) =>
      if items == [] {
        SpanIsMaximalRun(s, pos, pos, IsBlank);
        assert Print(n) == "()";
        assert s[pos + 0] == Print(n)[0] && s[pos + 1] == Print(n)[1];
      } else {
        ParsePrintedList(s, pos, n);
      }
  }

  lemma ParsePrintedInt(s: seq<char>, pos: nat, n: Node)
    requires n.Int? && Printable(n)
    requires At(s, pos, Print(n)) && EndsToken(s, pos + |Print(n)|)
    ensures Parse(s, pos) == Ok((n, pos + |Print(n)|))
  {
    var w := Print(n);
    assert s[pos + 0] == w[0];
    SpanIsMaximalRun(s, pos, pos, IsBlank);
    AtAll(s, pos, w, IsDigit);
    SpanIsMaximalRun(s, pos, pos + |w|, IsDigit);
    AtSlice(s, pos, w);
    DecimalValue(n.value);
  }

  lemma ParsePrintedStr(s: seq<char>, pos: nat, n: Node)
    requires n.Str? && Printable(n)
    requires At(s, pos, Print(n)) && EndsToken(s, pos + |Print(n)|)
    ensures Parse(s, pos) == Ok((n, pos + |Print(n)|))
  {
    var t := n.text;
    assert s[pos] == '"' && At(s, pos + 1, t) && s[pos + 1 + |t|] == '"' by {
      AtConcat(s, pos, ['"'] + t, ['"']);
      AtConcat(s, pos, ['"'], t);
      assert s[pos + 0] == '"';
      assert s[pos + 1 + |t| + 0] == '"';
    }
    SpanIsMaximalRun(s, pos, pos, IsBlank);
    AtAll(s, pos + 1, t, NotQuote);
    SpanIsMaximalRun(s, pos + 1, pos + 1 + |t|, NotQuote);
    AtSlice(s, pos + 1, t);
  }

  lemma ParsePrintedSym(s: seq<char>, pos: nat, n: Node)
    requires n.Sym? && Printable(n)
    requires At(s, pos, Print(n)) && EndsToken(s, pos + |Print(n)|)
    ensures Parse(s, pos) == Ok((n, pos + |Print(n)|))
  {
    var w := Print(n);
    assert s[pos + 0] == w[0];
    SpanIsMaximalRun(s, pos, pos, IsBlank);
    AtAll(s, pos, w, IsSymbolChar);
    SpanIsMaximalRun(s, pos, pos + |w|, IsSymbolChar);
    AtSlice(s, pos, w);
  }

  /** The list case of `ParsePrinted`, for a list with at least one item. */
  lemma {:induction false} ParsePrintedList(s: seq<char>, pos: nat, n: Node)
    requires n.List? && n.items != [] && Printable(n)
    requires At(s, pos, Print(n)) && EndsToken(s, pos + |Print(n)|)
    ensures Parse(s, pos) == Ok((n, pos + |Print(n)|))
    decreases n, 0, |n.items|
  {
    var q := pos + 1 + |Print(n.items[0])|;
    ListLayout(s, pos, n);
    SpacedFollowedByEnd(s, q, n, 1);
    ParsePrinted(s, pos + 1, n.items[0]);
    FirstItem(s, pos, n.items[0], q);
    assert [n.items[0]] == n.items[..1];
    SpacedItems(s, q, n, 1);
  }

  /** Where the parts of a printed non-empty list stand. */
  lemma ListLayout(s: seq<char>, pos: nat, n: Node)
    requires n.List? && n.items != [] && Printable(n)
    requires At(s, pos, Print(n))
    ensures s[pos] == '('
    ensures At(s, pos + 1, Print(n.items[0]))
    ensures At(s, pos + 1 + |Print(n.items[0])|, Spaced(n, 1) + ")")
    ensures |Print(n)| == 1 + |Print(n.items[0])| + |Spaced(n, 1)| + 1
  {
    var first := Print(n.items[0]);
    assert Print(n) == "(" + (first + (Spaced(n, 1) + ")"));
    AtConcat(s, pos, "(", first + (Spaced(n, 1) + ")"));
    AtConcat(s, pos + 1, first, Spaced(n, 1) + ")");
    assert s[pos + 0] == '(';
  }

  /** What follows an item inside a printed list (a space or the ')') ends the item. */
  lemma SpacedFollowedByEnd(s: seq<char>, q: nat, n: Node, i: nat)
    requires n.List? && 1 <= i <= |n.items| && Printable(n)
    requires At(s, q, Spaced(n, i) + ")")
    ensures q < |s| && (s[q] == ' ' || s[q] == ')')
    ensures i == |n.items| <==> s[q] == ')'
  {
    assert s[q + 0] == (Spaced(n, i) + ")")[0];
  }

  /** Where the parts of a printed item and its leading space stand. */
  lemma SpacedLayout(s: seq<char>, p: nat, n: Node, i: nat)
    requires n.List? && 1 <= i < |n.items| && Printable(n)
    requires At(s, p, Spaced(n, i) + ")")
    ensures s[p] == ' '
    ensures At(s, p + 1, Print(n.items[i]))
    ensures At(s, p + 1 + |Print(n.items[i])|, Spaced(n, i + 1) + ")")
    ensures |Spaced(n, i)| == 1 + |Print(n.items[i])| + |Spaced(n, i + 1)|
  {
    var item, rest := Print(n.items[i]), Spaced(n, i + 1);
    assert Spaced(n, i) == " " + item + rest;
    Regroup(" ", item, rest, ")");
    AtConcat(s, p, " ", item + (rest + ")"));
    AtConcat(s, p + 1, item, rest + ")");
    assert s[p + 0] == " "[0];
  }

  /** Text written piece by piece can be split after its first piece. */
  lemma Regroup(a: seq<char>, b: seq<char>, c: seq<char>, d: seq<char>)
    ensures (a + b + c) + d == a + (b + (c + d))
  {
  }

  /** The list loop reads the space-separated items of a printed list, then its ')'. */
  lemma {:induction false} SpacedItems(s: seq<char>, p: nat, n: Node, i: nat)
    requires n.List? && 1 <= i <= |n.items| && Printable(n)
    requires At(s, p, Spaced(n, i) + ")")
    ensures ParseItems(s, p, n.items[..i]) == Ok((n, p + |Spaced(n, i)| + 1))
    decreases n, 0, |n.items| - i
  {
    SpacedFollowedByEnd(s, p, n, i);
    if i == |n.items| {
      assert n.items[..i] == n.items;
    } else {
      var item := Print(n.items[i]);
      var q := p + 1 + |item|;
      SpacedLayout(s, p, n, i);
      SpacedFollowedByEnd(s, q, n, i + 1);
      LeadingBlanks(s, p, p + 1);
      ParsePrinted(s, p + 1, n.items[i]);
      ItemStep(s, p, n.items[..i], n.items[i], q);
      assert n.items[..i] + [n.items[i]] == n.items[..i + 1];
      SpacedItems(s, q, n, i + 1);
    }
  }

  /** Reading a printed tree on its own gives the tree back and consumes all of it. */
  lemma ParsePrintRoundTrip(n: Node)
    requires Printable(n)
    ensures Parse(Print(n), 0) == Ok((n, |Print(n)|))
  {
    ParsePrinted(Print(n), 0, n);
  }
}
