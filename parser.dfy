/**
 * The recursive-descent parser `parse` of yalisp.h: one expression is read
 * from the input starting at a cursor. The input is the byte string up to
 * (not including) the C terminator, so "the cursor is at the end of the
 * sequence" plays the part of `input[*pos] == '\0'`.
 *
 * `Parse` and `ParseItems` are the specification, one function per loop
 * shape of the C code; `ParseExpr` is the imperative version with the
 * cursor variable and the while loops of the source, proved equal to it.
 */
module Parser {
  import opened Ast

  const UnexpectedEnd := "Unexpected end of input"
  const UnmatchedParen := "Unmatched '(' in input"
  const UnterminatedString := "Unterminated string literal in input"

  /** The three parse errors; no other message ever leaves the parser. */
  const ParseErrors: set<string> := {UnexpectedEnd, UnmatchedParen, UnterminatedString}

  /** The bytes skipped before a token: space, newline and tab, nothing else. */
  predicate IsBlank(c: char) { c == ' ' || c == '\n' || c == '\t' }

  predicate IsDigit(c: char) { '0' <= c <= '9' }

  predicate NotQuote(c: char) { c != '"' }

  /** The bytes a symbol token runs over: all but space, ')', newline and tab. */
  predicate IsSymbolChar(c: char) { c != ' ' && c != ')' && c != '\n' && c != '\t' }

  /** The end of the maximal run of bytes satisfying `P` that starts at `i`. */
  function Span(s: seq<char>, i: nat, P: char -> bool): (j: nat)
    requires i <= |s|
    ensures i <= j <= |s|
    ensures forall k | i <= k < j :: P(s[k])
    ensures j == |s| || !P(s[j])
    decreases |s| - i
  {
    if i < |s| && P(s[i]) then Span(s, i + 1, P) else i
  }

  function DigitValue(c: char): (d: nat)
    requires IsDigit(c)
    ensures d < 10
  {
    (c as int) - ('0' as int)
  }

  /** Ten to the power `k`. */
  function Pow10(k: nat): nat
  {
    if k == 0 then 1 else 10 * Pow10(k - 1)
  }

  /** The number the C loop `value = value * 10 + (input[*pos] - '0')` accumulates. */
  function DigitsValue(d: seq<char>): nat
    requires forall k | 0 <= k < |d| :: IsDigit(d[k])
  {
    if d == [] then 0 else DigitsValue(d[..|d| - 1]) * 10 + DigitValue(d[|d| - 1])
  }

  /** A run of `k` digits stays below `10^k`. */
  lemma {:induction false} DigitsBound(d: seq<char>)
    requires forall k | 0 <= k < |d| :: IsDigit(d[k])
    ensures DigitsValue(d) < Pow10(|d|)
  {
    if d != [] {
      var init := d[..|d| - 1];
      DigitsBound(init);
      assert DigitsValue(init) + 1 <= Pow10(|d| - 1);
      assert (DigitsValue(init) + 1) * 10 <= Pow10(|d| - 1) * 10;
    }
  }

  /** Multiplying by ten shifts the leading term and the rest alike. */
  lemma ShiftDigit(a: int, p: int, t: int, last: int)
    ensures (a * p + t) * 10 + last == a * (10 * p) + (t * 10 + last)
  {
  }

  /** The loop reads the most significant digit first: it is worth `10^(k-1)`. */
  lemma {:induction false} LeadingDigitFirst(d: seq<char>)
    requires |d| >= 1 && forall k | 0 <= k < |d| :: IsDigit(d[k])
    ensures DigitsValue(d) == DigitValue(d[0]) * Pow10(|d| - 1) + DigitsValue(d[1..])
  {
    if |d| > 1 {
      var init, rest := d[..|d| - 1], d[1..];
      var a, p, last := DigitValue(d[0]), Pow10(|d| - 2), DigitValue(d[|d| - 1]);
      LeadingDigitFirst(init);
      assert init[0] == d[0] && init[1..] == rest[..|rest| - 1];
      var t := DigitsValue(init[1..]);
      assert DigitsValue(init) == a * p + t;
      assert DigitsValue(d) == (a * p + t) * 10 + last;
      assert DigitsValue(rest) == t * 10 + last by {
        assert rest[|rest| - 1] == d[|d| - 1];
      }
      ShiftDigit(a, p, t, last);
    }
  }

  /**
   * `parse(input, pos)`: the node and the new cursor, or the error.
   * The cursor never moves back and never passes the end; it stays put only
   * when the first non-blank byte is an immediate ')', which yields the
   * empty symbol.
   */
  function Parse(s: seq<char>, pos: nat): (r: Result<(Node, nat)>)
    requires pos <= |s|
    ensures r.Ok? ==> pos <= r.value.1 <= |s|
    ensures r.Ok? && r.value.1 == pos ==> pos < |s| && s[pos] == ')' && r.value.0 == Sym("")
    ensures r.Err? ==> r.msg in ParseErrors
    decreases |s| - pos, 0
  {
    var p := Span(s, pos, IsBlank);
    if p < |s| && s[p] == '(' then
      ParseItems(s, p + 1, [])
    else if p < |s| && IsDigit(s[p]) then
      var q := Span(s, p, IsDigit);
      Ok((Int(DigitsValue(s[p..q])), q))
    else if p < |s| && s[p] == '"' then
      var q := Span(s, p + 1, NotQuote);
      if q == |s| then Err(UnterminatedString) else Ok((Str(s[p + 1..q]), q + 1))
    else if p < |s| then
      var q := Span(s, p, IsSymbolChar);
      Ok((Sym(s[p..q]), q))
    else
      Err(UnexpectedEnd)
  }

  /**
   * The item loop of a list whose '(' has been consumed: `items` holds the
   * sub-expressions read so far. Each round tests for ')' and the end
   * BEFORE any blank is skipped.
   */
  function ParseItems(s: seq<char>, pos: nat, items: seq<Node>): (r: Result<(Node, nat)>)
    requires pos <= |s|
    ensures r.Ok? ==> pos < r.value.1 <= |s| && r.value.0.List?
    ensures r.Err? ==> r.msg in ParseErrors
    decreases |s| - pos, 1
  {
    if pos < |s| && s[pos] != ')' then
      match Parse(s, pos)
      case Err(m) => Err(m)
      case Ok((n, q)) => ParseItems(s, q, items + [n])
    else if pos == |s| then
      Err(UnmatchedParen)
    else
      Ok((List(items), pos + 1))
  }

  /** `parse` as the C code runs it: a cursor advanced by while loops. */
  method ParseExpr(s: seq<char>, pos: nat) returns (r: Result<(Node, nat)>)
    requires pos <= |s|
    ensures r == Parse(s, pos)
    decreases |s| - pos, 1
  {
    var p := SkipBlanks(s, pos);
    if p < |s| && s[p] == '(' {
      r := ParseList(s, p + 1);
    } else if p < |s| && IsDigit(s[p]) {
      r := ParseInt(s, p);
    } else if p < |s| && s[p] == '"' {
      r := ParseString(s, p + 1);
    } else if p < |s| {
      r := ParseSymbol(s, p);
    } else {
      r := Err(UnexpectedEnd);
    }
  }

  /** The leading loop of `parse`: skip space, newline and tab. */
  method SkipBlanks(s: seq<char>, pos: nat) returns (p: nat)
    requires pos <= |s|
    ensures p == Span(s, pos, IsBlank)
  {
    p := pos;
    while p < |s| && IsBlank(s[p])
      invariant pos <= p <= |s|
      invariant Span(s, p, IsBlank) == Span(s, pos, IsBlank)
    {
      p := p + 1;
    }
  }

  /**
   * The list branch after its '(': parse items until ')' or the end,
   * appending each to the growing `items` buffer.
   */
  method ParseList(s: seq<char>, pos: nat) returns (r: Result<(Node, nat)>)
    requires 0 < pos <= |s|
    ensures r == ParseItems(s, pos, [])
    decreases |s| - pos + 1, 0
  {
    var p := pos;
    var items: seq<Node> := [];
    while p < |s| && s[p] != ')'
      invariant pos <= p <= |s|
      invariant ParseItems(s, p, items) == ParseItems(s, pos, [])
      decreases |s| - p
    {
      var sub := ParseExpr(s, p);
      if sub.Err? {
        return Err(sub.msg);
      }
      items := items + [sub.value.0];
      p := sub.value.1;
    }
    if p == |s| {
      return Err(UnmatchedParen);
    }
    r := Ok((List(items), p + 1));
  }

  /** The integer branch: accumulate the maximal run of decimal digits. */
  method ParseInt(s: seq<char>, pos: nat) returns (r: Result<(Node, nat)>)
    requires pos < |s| && IsDigit(s[pos])
    ensures r == Ok((Int(DigitsValue(s[pos..Span(s, pos, IsDigit)])), Span(s, pos, IsDigit)))
  {
    var p := pos;
    var value := 0;
    while p < |s| && IsDigit(s[p])
      invariant pos <= p <= |s|
      invariant Span(s, p, IsDigit) == Span(s, pos, IsDigit)
      invariant forall k | pos <= k < p :: IsDigit(s[k])
      invariant value == DigitsValue(s[pos..p])
    {
      assert s[pos..p + 1][..p - pos] == s[pos..p];
      value := value * 10 + DigitValue(s[p]);
      p := p + 1;
    }
    r := Ok((Int(value), p));
  }

  /** The string branch after its opening quote: copy bytes up to the closing one. */
  method ParseString(s: seq<char>, pos: nat) returns (r: Result<(Node, nat)>)
    requires pos <= |s|
    ensures r == (var q := Span(s, pos, NotQuote);
                  if q == |s| then Err(UnterminatedString) else Ok((Str(s[pos..q]), q + 1)))
  {
    var p := pos;
    while p < |s| && s[p] != '"'
      invariant pos <= p <= |s|
      invariant Span(s, p, NotQuote) == Span(s, pos, NotQuote)
    {
      p := p + 1;
    }
    if p == |s| {
      return Err(UnterminatedString);
    }
    r := Ok((Str(s[pos..p]), p + 1));
  }

  /** The symbol branch: the maximal run of symbol bytes, possibly empty. */
  method ParseSymbol(s: seq<char>, pos: nat) returns (r: Result<(Node, nat)>)
    requires pos <= |s|
    ensures r == Ok((Sym(s[pos..Span(s, pos, IsSymbolChar)]), Span(s, pos, IsSymbolChar)))
  {
    var p := pos;
    while p < |s| && IsSymbolChar(s[p])
      invariant pos <= p <= |s|
      invariant Span(s, p, IsSymbolChar) == Span(s, pos, IsSymbolChar)
    {
      p := p + 1;
    }
    r := Ok((Sym(s[pos..p]), p));
  }
}
