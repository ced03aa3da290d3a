/**
 * What `parse` promises, stated without reference to how `Parse` is
 * written: which bytes are skipped, what each kind of token yields and
 * where it leaves the cursor, and how a list is assembled from the
 * sub-parses of its items.
 */
module ParserProps {
  import opened Ast
  import opened Parser

  /** A run of bytes satisfying `P` can be skipped without changing where the run ends. */
  lemma {:induction false} SpanSkip(s: seq<char>, i: nat, j: nat, P: char -> bool)
    requires i <= j <= |s|
    requires forall k | i <= k < j :: P(s[k])
    ensures Span(s, i, P) == Span(s, j, P)
    decreases j - i
  {
    if i < j {
      SpanSkip(s, i + 1, j, P);
    }
  }

  /** `Span` is exactly the maximal run: any `j` that ends a run of `P` bytes is its value. */
  lemma SpanIsMaximalRun(s: seq<char>, i: nat, j: nat, P: char -> bool)
    requires i <= j <= |s|
    requires forall k | i <= k < j :: P(s[k])
    requires j == |s| || !P(s[j])
    ensures Span(s, i, P) == j
  {
    SpanSkip(s, i, j, P);
  }

  /** Only space, newline and tab are skipped: a blank prefix does not change the parse. */
  lemma LeadingBlanks(s: seq<char>, pos: nat, k: nat)
    requires pos <= k <= |s|
    requires forall j | pos <= j < k :: IsBlank(s[j])
    ensures Parse(s, pos) == Parse(s, k)
  {
    SpanSkip(s, pos, k, IsBlank);
  }

  /** Input that is blank to its end is "Unexpected end of input". */
  lemma BlankToEnd(s: seq<char>, pos: nat)
    requires pos <= |s|
    requires forall j | pos <= j < |s| :: IsBlank(s[j])
    ensures Parse(s, pos) == Err(UnexpectedEnd)
  {
    SpanIsMaximalRun(s, pos, |s|, IsBlank);
  }

  /**
   * A digit-initial token is an integer node holding the base-10 value of
   * the maximal digit run; the cursor stops on the first non-digit.
   */
  lemma IntToken(s: seq<char>, pos: nat)
    requires pos < |s| && IsDigit(s[pos])
    ensures Parse(s, pos).Ok?
    ensures var (n, q) := Parse(s, pos).value;
      && pos < q
      && (forall k | pos <= k < q :: IsDigit(s[k]))
      && (q == |s| || !IsDigit(s[q]))
      && n == Int(DigitsValue(s[pos..q]))
  {
    SpanIsMaximalRun(s, pos, pos, IsBlank);
  }

  /**
   * A '"'-initial token succeeds exactly when a closing quote follows; the
   * node holds the bytes strictly between the two quotes, unchanged, and the
   * cursor is just past the closing one. Otherwise the error is
   * "Unterminated string literal in input".
   */
  lemma StringToken(s: seq<char>, pos: nat)
    requires pos < |s| && s[pos] == '"'
    ensures Parse(s, pos).Ok? <==> exists k | pos < k < |s| :: s[k] == '"'
    ensures Parse(s, pos).Err? ==> Parse(s, pos).msg == UnterminatedString
    ensures Parse(s, pos).Ok? ==> var (n, q) := Parse(s, pos).value;
      && pos + 1 < q
      && s[q - 1] == '"'
      && (forall k | pos < k < q - 1 :: s[k] != '"')
      && n == Str(s[pos + 1..q - 1])
  {
    var q := Span(s, pos + 1, NotQuote);
    QuoteParse(s, pos);
    if q == |s| {
      assert forall k | pos < k < |s| :: NotQuote(s[k]);
    } else {
      assert s[q] == '"';
    }
  }

  /** A '"' hands over to the scan for the next quote. */
  lemma QuoteParse(s: seq<char>, pos: nat)
    requires pos < |s| && s[pos] == '"'
    ensures var q := Span(s, pos + 1, NotQuote);
      Parse(s, pos) == if q == |s| then Err(UnterminatedString) else Ok((Str(s[pos + 1..q]), q + 1))
  {
    SpanIsMaximalRun(s, pos, pos, IsBlank);
    assert s[pos] != '(' && !IsDigit(s[pos]);
  }

  /** The bytes that start a symbol token: anything but a blank, '(', a digit or '"'. */
  predicate StartsSymbol(c: char)
  {
    !IsBlank(c) && c != '(' && !IsDigit(c) && c != '"'
  }

  /**
   * Any other token is a symbol: the maximal run of bytes other than space,
   * ')', newline and tab, with the cursor on the byte that stopped it. The
   * run, and so the move of the cursor, is empty exactly when that byte is
   * an immediate ')'.
   */
  lemma SymbolToken(s: seq<char>, pos: nat)
    requires pos < |s| && StartsSymbol(s[pos])
    ensures Parse(s, pos).Ok?
    ensures var (n, q) := Parse(s, pos).value;
      && pos <= q
      && (forall k | pos <= k < q :: IsSymbolChar(s[k]))
      && (q == |s| || !IsSymbolChar(s[q]))
      && n == Sym(s[pos..q])
      && (q == pos <==> s[pos] == ')')
  {
    SpanIsMaximalRun(s, pos, pos, IsBlank);
  }

  /**
   * `cuts` and `items` record a run of the list loop: item `j` is what the
   * nested `parse` returns when started at `cuts[j]`, a byte that is not
   * ')', and it leaves the cursor at `cuts[j + 1]`.
   */
  ghost predicate ItemChain(s: seq<char>, cuts: seq<nat>, items: seq<Node>)
  {
    && |cuts| == |items| + 1
    && (forall j | 0 <= j < |cuts| :: cuts[j] <= |s|)
    && forall j | 0 <= j < |items| :: Link(s, cuts[j], items[j], cuts[j + 1])
  }

  /** One round of the list loop: from `a`, a byte that is not ')', the nested parse reads `x` and stops at `b`. */
  ghost predicate Link(s: seq<char>, a: nat, x: Node, b: nat)
  {
    a < |s| && s[a] != ')' && Parse(s, a) == Ok((x, b))
  }

  /** Every nested parse of the list loop moves the cursor forward by at least one byte. */
  lemma {:induction false} ChainAdvances(s: seq<char>, cuts: seq<nat>, items: seq<Node>, j: nat)
    requires ItemChain(s, cuts, items)
    requires j < |items|
    ensures cuts[j] < cuts[j + 1]
  {
    assert Link(s, cuts[j], items[j], cuts[j + 1]);
    var r := Parse(s, cuts[j]);
    assert r == Ok((items[j], cuts[j + 1]));
    assert r.value.1 != cuts[j];
  }

  /** Item `j` of `[n] + items`, read off the chain for `items` or the new first parse. */
  lemma ConsLink(s: seq<char>, pos: nat, n: Node, cuts: seq<nat>, items: seq<Node>, j: nat)
    requires ItemChain(s, cuts, items)
    requires Link(s, pos, n, cuts[0])
    requires j <= |items|
    ensures Link(s, ([pos] + cuts)[j], ([n] + items)[j], ([pos] + cuts)[j + 1])
  {
    if j > 0 {
      var i := j - 1;
      assert ([pos] + cuts)[j] == cuts[i] && ([pos] + cuts)[j + 1] == cuts[i + 1];
      assert ([n] + items)[j] == items[i];
      assert Link(s, cuts[i], items[i], cuts[i + 1]);
    } else {
      assert ([pos] + cuts)[0] == pos && ([pos] + cuts)[1] == cuts[0] && ([n] + items)[0] == n;
    }
  }

  /** A nested parse from a byte that is not ')' extends a chain at its front. */
  lemma ChainCons(s: seq<char>, pos: nat, n: Node, cuts: seq<nat>, items: seq<Node>)
    requires ItemChain(s, cuts, items)
    requires Link(s, pos, n, cuts[0])
    ensures ItemChain(s, [pos] + cuts, [n] + items)
  {
    var cuts', items' := [pos] + cuts, [n] + items;
    forall j | 0 <= j < |cuts'|
      ensures cuts'[j] <= |s|
    {
      if j > 0 {
        assert cuts'[j] == cuts[j - 1];
      }
    }
    forall j | 0 <= j < |items'|
      ensures Link(s, cuts'[j], items'[j], cuts'[j + 1])
    {
      ConsLink(s, pos, n, cuts, items, j);
    }
  }

  /**
   * The list loop from `pos` on, with `acc` already read, runs a chain of
   * nested parses and ends at the first of: the end of the input
   * ("Unmatched '(' in input"), a ')' (the list, items in encounter order,
   * cursor just past the ')') or a failing nested parse (its error,
   * unchanged).
   */
  lemma {:induction false} ItemsAsChain(s: seq<char>, pos: nat, acc: seq<Node>)
    returns (cuts: seq<nat>, items: seq<Node>)
    requires pos <= |s|
    ensures ItemChain(s, cuts, items) && cuts[0] == pos
    ensures var last := cuts[|items|];
      && (last == |s| ==> ParseItems(s, pos, acc) == Err(UnmatchedParen))
      && (last < |s| && s[last] == ')' ==> ParseItems(s, pos, acc) == Ok((List(acc + items), last + 1)))
      && (last < |s| && s[last] != ')' ==>
            Parse(s, last).Err? && ParseItems(s, pos, acc) == Err(Parse(s, last).msg))
    decreases |s| - pos
  {
    if pos < |s| && s[pos] != ')' && Parse(s, pos).Ok? {
      var (n, q) := Parse(s, pos).value;
      assert ParseItems(s, pos, acc) == ParseItems(s, q, acc + [n]);
      var cuts', items' := ItemsAsChain(s, q, acc + [n]);
      assert Link(s, pos, n, cuts'[0]);
      ChainCons(s, pos, n, cuts', items');
      cuts, items := [pos] + cuts', [n] + items';
      assert acc + items == (acc + [n]) + items';
      assert cuts[|items|] == cuts'[|items'|];
    } else {
      cuts, items := [pos], [];
      assert acc + items == acc;
    }
  }

  /**
   * A '(' token is a list exactly as the chain describes it: its items are
   * the successive nested parses from the byte after '(', in encounter
   * order, and the first of end of input, ')' or a failing item decides the
   * outcome.
   */
  lemma ListToken(s: seq<char>, pos: nat) returns (cuts: seq<nat>, items: seq<Node>)
    requires pos < |s| && s[pos] == '('
    ensures ItemChain(s, cuts, items) && cuts[0] == pos + 1
    ensures var last := cuts[|items|];
      && (last == |s| ==> Parse(s, pos) == Err(UnmatchedParen))
      && (last < |s| && s[last] == ')' ==> Parse(s, pos) == Ok((List(items), last + 1)))
      && (last < |s| && s[last] != ')' ==>
            Parse(s, last).Err? && Parse(s, pos) == Err(Parse(s, last).msg))
  {
    SpanIsMaximalRun(s, pos, pos, IsBlank);
    cuts, items := ItemsAsChain(s, pos + 1, []);
    assert [] + items == items;
  }

  /** A '(' token hands over to the list loop just after it. */
  lemma OpenParen(s: seq<char>, pos: nat)
    requires pos < |s| && s[pos] == '('
    ensures Parse(s, pos) == ParseItems(s, pos + 1, [])
  {
    SpanIsMaximalRun(s, pos, pos, IsBlank);
  }

  /** A '(' followed by an item that takes at least one byte: the list loop goes on after that item. */
  lemma FirstItem(s: seq<char>, pos: nat, x: Node, q: nat)
    requires pos < |s| && s[pos] == '('
    requires Parse(s, pos + 1) == Ok((x, q)) && pos + 1 < q
    ensures Parse(s, pos) == ParseItems(s, q, [x])
  {
    OpenParen(s, pos);
    assert s[pos + 1] != ')' by {
      if s[pos + 1] == ')' {
        CloseParenIsEmptySymbol(s, pos + 1);
      }
    }
    ItemStep(s, pos + 1, [], x, q);
    assert [] + [x] == [x];
  }

  /** One round of the list loop: an item parsed from a byte that is not ')' is appended. */
  lemma ItemStep(s: seq<char>, p: nat, acc: seq<Node>, x: Node, q: nat)
    requires p < |s| && s[p] != ')'
    requires Parse(s, p) == Ok((x, q))
    ensures ParseItems(s, p, acc) == ParseItems(s, q, acc + [x])
  {
  }

  /**
   * A ')' met where a token is expected takes the symbol branch: the empty
   * symbol, with the cursor left on the ')'.
   */
  lemma CloseParenIsEmptySymbol(s: seq<char>, pos: nat)
    requires pos < |s| && s[pos] == ')'
    ensures Parse(s, pos) == Ok((Sym(""), pos))
  {
    SpanIsMaximalRun(s, pos, pos, IsBlank);
    SpanIsMaximalRun(s, pos, pos, IsSymbolChar);
  }

  /**
   * Inside a list, blanks before the ')' add an empty symbol as a last item:
   * the loop tests for ')' before the nested parse skips the blanks.
   */
  lemma BlanksBeforeClose(s: seq<char>, p: nat, k: nat, acc: seq<Node>)
    requires p < k < |s| && s[k] == ')'
    requires forall j | p <= j < k :: IsBlank(s[j])
    ensures ParseItems(s, p, acc) == Ok((List(acc + [Sym("")]), k + 1))
  {
    LeadingBlanks(s, p, k);
    CloseParenIsEmptySymbol(s, k);
    ItemStep(s, p, acc, Sym(""), k);
  }

  /**
   * Inside a list, blanks that run to the end of the input make the nested
   * parse report "Unexpected end of input", not "Unmatched '(' in input".
   */
  lemma BlanksBeforeEnd(s: seq<char>, p: nat, acc: seq<Node>)
    requires p < |s|
    requires forall j | p <= j < |s| :: IsBlank(s[j])
    ensures ParseItems(s, p, acc) == Err(UnexpectedEnd)
  {
    BlankToEnd(s, p);
  }
}
