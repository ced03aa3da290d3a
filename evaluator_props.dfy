/**
 * What `eval_ast_node` promises, against reference definitions that do not
 * follow its loops: `+` is the sum of its arguments, `-` the first minus the
 * sum of the rest, `concat` the concatenation of its strings, each argument
 * taken left to right with the first failure returned unchanged; and the
 * two passes of `concat` amount to one left fold.
 */
module EvaluatorProps {
  import opened Ast
  import opened Evaluator

  function Sum(xs: seq<int>): int
  {
    if xs == [] then 0 else xs[0] + Sum(xs[1..])
  }

  function Concat(ts: seq<string>): string
  {
    if ts == [] then "" else ts[0] + Concat(ts[1..])
  }

  /** The value node a value would be written as. */
  function Literal(v: Value): Node
  {
    match v
    case IntV(i) => Int(i)
    case StrV(t) => Str(t)
  }

  predicate IsIntResult(r: Result<Value>)
  {
    r.Ok? && r.value.IntV?
  }

  predicate IsStringResult(r: Result<Value>)
  {
    r.Ok? && r.value.StrV?
  }

  /** What an operator returns for a failing argument `r`: its error unchanged, else the type error. */
  function ArgumentFailure(r: Result<Value>, typeError: string): Result<Value>
  {
    if r.Err? then r else Err(typeError)
  }

  /** The arguments `args` evaluate, one by one, to the integers `xs`. */
  ghost predicate EvalsToInts(args: seq<Node>, xs: seq<int>)
  {
    |args| == |xs| && forall j | 0 <= j < |args| :: Eval(args[j]) == Ok(IntV(xs[j]))
  }

  /** The arguments `args` evaluate, one by one, to the strings `ts`. */
  ghost predicate EvalsToStrings(args: seq<Node>, ts: seq<string>)
  {
    |args| == |ts| && forall j | 0 <= j < |args| :: Eval(args[j]) == Ok(StrV(ts[j]))
  }

  function Apply(op: string, args: seq<Node>): Node
  {
    List([Sym(op)] + args)
  }

  lemma ApplyItems(op: string, args: seq<Node>)
    ensures Apply(op, args).items[0] == Sym(op)
    ensures forall j | 0 <= j < |args| :: Apply(op, args).items[j + 1] == args[j]
  {
  }

  // ---------------------------------------------------------------- + and -

  /** The first of several integer arguments, and the rest. */
  lemma IntsTail(args: seq<Node>, xs: seq<int>)
    requires EvalsToInts(args, xs) && args != []
    ensures Eval(args[0]) == Ok(IntV(xs[0]))
    ensures EvalsToInts(args[1..], xs[1..])
  {
    forall j | 0 <= j < |args| - 1
      ensures Eval(args[1..][j]) == Ok(IntV(xs[1..][j]))
    {
      assert args[1..][j] == args[j + 1];
    }
  }

  lemma {:induction false} SumFromInts(n: Node, i: nat, sum: int, xs: seq<int>)
    requires n.List? && 1 <= i <= |n.items|
    requires EvalsToInts(n.items[i..], xs)
    ensures SumFrom(n, i, sum) == Ok(IntV(sum + Sum(xs)))
    decreases |xs|
  {
    if xs != [] {
      IntsTail(n.items[i..], xs);
      assert n.items[i..][0] == n.items[i] && n.items[i..][1..] == n.items[i + 1..];
      SumFromInts(n, i + 1, sum + xs[0], xs[1..]);
    }
  }

  lemma {:induction false} DiffFromInts(n: Node, i: nat, diff: int, xs: seq<int>)
    requires n.List? && 2 <= i <= |n.items|
    requires EvalsToInts(n.items[i..], xs)
    ensures DiffFrom(n, i, diff) == Ok(IntV(diff - Sum(xs)))
    decreases |xs|
  {
    if xs != [] {
      IntsTail(n.items[i..], xs);
      assert n.items[i..][0] == n.items[i] && n.items[i..][1..] == n.items[i + 1..];
      DiffFromInts(n, i + 1, diff - xs[0], xs[1..]);
    }
  }

  /** `+` is the sum of its integer arguments, 0 when there are none. */
  lemma PlusIsSum(args: seq<Node>, xs: seq<int>)
    requires EvalsToInts(args, xs)
    ensures Eval(Apply("+", args)) == Ok(IntV(Sum(xs)))
  {
    var n := Apply("+", args);
    assert n.items[1..] == args;
    SumFromInts(n, 1, 0, xs);
  }

  /** `-` is its first integer argument minus each later one. */
  lemma MinusIsDifference(args: seq<Node>, xs: seq<int>)
    requires |args| >= 1 && EvalsToInts(args, xs)
    ensures Eval(Apply("-", args)) == Ok(IntV(xs[0] - Sum(xs[1..])))
  {
    var n := Apply("-", args);
    IntsTail(args, xs);
    assert n.items[1] == args[0] && n.items[2..] == args[1..];
    DiffFromInts(n, 2, xs[0], xs[1..]);
    assert "-" != "+" by { assert "-"[0] != "+"[0]; }
    assert Eval(n) == DiffFrom(n, 2, xs[0]);
  }

  /** `-` with no argument at all is an error, not a read past the items. */
  lemma MinusNeedsAnOperand()
    ensures Eval(Apply("-", [])) == Err(MissingOperand)
  {
    assert Apply("-", []).items == [Sym("-")];
  }

  lemma {:induction false} SumFromFirstFailure(n: Node, i: nat, sum: int, k: nat)
    requires n.List? && 1 <= i <= k < |n.items|
    requires forall j | i <= j < k :: IsIntResult(Eval(n.items[j]))
    requires !IsIntResult(Eval(n.items[k]))
    ensures SumFrom(n, i, sum) == ArgumentFailure(Eval(n.items[k]), NonInteger)
    decreases k - i
  {
    if i < k {
      assert IsIntResult(Eval(n.items[i]));
      SumFromFirstFailure(n, i + 1, sum + Eval(n.items[i]).value.i, k);
    }
  }

  lemma {:induction false} DiffFromFirstFailure(n: Node, i: nat, diff: int, k: nat)
    requires n.List? && 2 <= i <= k < |n.items|
    requires forall j | i <= j < k :: IsIntResult(Eval(n.items[j]))
    requires !IsIntResult(Eval(n.items[k]))
    ensures DiffFrom(n, i, diff) == ArgumentFailure(Eval(n.items[k]), NonInteger)
    decreases k - i
  {
    if i < k {
      assert IsIntResult(Eval(n.items[i]));
      DiffFromFirstFailure(n, i + 1, diff - Eval(n.items[i]).value.i, k);
    }
  }

  /**
   * In `+` and `-` the first argument that does not evaluate to an integer
   * decides the outcome: its own error, unchanged, or
   * "Non-integer argument to +" (for `-` as well); later arguments are not
   * looked at.
   */
  lemma ArithmeticFirstFailure(op: string, args: seq<Node>, k: nat)
    requires op == "+" || op == "-"
    requires k < |args|
    requires forall j | 0 <= j < k :: IsIntResult(Eval(args[j]))
    requires !IsIntResult(Eval(args[k]))
    ensures Eval(Apply(op, args)) == ArgumentFailure(Eval(args[k]), NonInteger)
  {
    if op == "+" {
      PlusFirstFailure(args, k);
    } else {
      MinusFirstFailure(args, k);
    }
  }

  /** `+` reports its first argument that is not an integer. */
  lemma PlusFirstFailure(args: seq<Node>, k: nat)
    requires k < |args|
    requires forall j | 0 <= j < k :: IsIntResult(Eval(args[j]))
    requires !IsIntResult(Eval(args[k]))
    ensures Eval(Apply("+", args)) == ArgumentFailure(Eval(args[k]), NonInteger)
  {
    var n := Apply("+", args);
    forall j | 1 <= j < k + 1
      ensures IsIntResult(Eval(n.items[j]))
    {
      assert n.items[j] == args[j - 1];
    }
    assert n.items[k + 1] == args[k];
    SumFromFirstFailure(n, 1, 0, k + 1);
  }

  /** `-` reports its first argument that is not an integer, the type error naming `+`. */
  lemma MinusFirstFailure(args: seq<Node>, k: nat)
    requires k < |args|
    requires forall j | 0 <= j < k :: IsIntResult(Eval(args[j]))
    requires !IsIntResult(Eval(args[k]))
    ensures Eval(Apply("-", args)) == ArgumentFailure(Eval(args[k]), NonInteger)
  {
    var n := Apply("-", args);
    assert n.items[1] == args[0] && n.items[k + 1] == args[k];
    assert "-" != "+" by { assert "-"[0] != "+"[0]; }
    if k > 0 {
      assert IsIntResult(Eval(args[0]));
      forall j | 2 <= j < k + 1
        ensures IsIntResult(Eval(n.items[j]))
      {
        assert n.items[j] == args[j - 1];
      }
      DiffFromFirstFailure(n, 2, Eval(args[0]).value.i, k + 1);
      assert Eval(n) == DiffFrom(n, 2, Eval(args[0]).value.i);
    }
  }

  // ---------------------------------------------------------------- concat

  /** `concat` as one left fold: evaluate, check and append each argument in turn. */
  function ConcatFold(n: Node, i: nat, acc: string): Result<Value>
    requires n.List? && 1 <= i <= |n.items|
    decreases |n.items| - i
  {
    if i == |n.items| then Ok(StrV(acc))
    else match Eval(n.items[i])
      case Err(m) => Err(m)
      case Ok(v) => if !v.StrV? then Err(NonString) else ConcatFold(n, i + 1, acc + v.s)
  }

  lemma {:induction false} PassesAsFold(n: Node, i: nat, total: nat, acc: string)
    requires n.List? && 1 <= i <= |n.items|
    ensures ConcatFold(n, i, acc) ==
      match ConcatLength(n, i, total)
      case Err(m) => Err(m)
      case Ok(_) => Ok(StrV(ConcatJoin(n, i, acc)))
    decreases |n.items| - i
  {
    if i < |n.items| && IsStringResult(Eval(n.items[i])) {
      var t := Eval(n.items[i]).value.s;
      PassesAsFold(n, i + 1, total + |t|, acc + t);
    }
  }

  /**
   * Because evaluation is deterministic, the checking pass and the copying
   * pass of `concat`, which each evaluate every argument, give what a
   * single left fold gives.
   */
  lemma TwoPassesAreOneFold(n: Node)
    requires IsOperatorList(n, "concat")
    ensures Eval(n) == ConcatFold(n, 1, "")
  {
    PassesAsFold(n, 1, 0, "");
  }

  /** The first of several string arguments, and the rest. */
  lemma StringsTail(args: seq<Node>, ts: seq<string>)
    requires EvalsToStrings(args, ts) && args != []
    ensures Eval(args[0]) == Ok(StrV(ts[0]))
    ensures EvalsToStrings(args[1..], ts[1..])
  {
    forall j | 0 <= j < |args| - 1
      ensures Eval(args[1..][j]) == Ok(StrV(ts[1..][j]))
    {
      assert args[1..][j] == args[j + 1];
    }
  }

  lemma {:induction false} FoldStrings(n: Node, i: nat, acc: string, ts: seq<string>)
    requires n.List? && 1 <= i <= |n.items|
    requires EvalsToStrings(n.items[i..], ts)
    ensures ConcatFold(n, i, acc) == Ok(StrV(acc + Concat(ts)))
    decreases |ts|
  {
    if ts != [] {
      StringsTail(n.items[i..], ts);
      assert n.items[i..][0] == n.items[i] && n.items[i..][1..] == n.items[i + 1..];
      FoldStrings(n, i + 1, acc + ts[0], ts[1..]);
      assert acc + ts[0] + Concat(ts[1..]) == acc + (ts[0] + Concat(ts[1..]));
    } else {
      assert acc + "" == acc;
    }
  }

  /** `concat` is the in-order concatenation of its string arguments, "" when there are none. */
  lemma ConcatIsConcatenation(args: seq<Node>, ts: seq<string>)
    requires EvalsToStrings(args, ts)
    ensures Eval(Apply("concat", args)) == Ok(StrV(Concat(ts)))
  {
    var n := Apply("concat", args);
    assert n.items[1..] == args;
    TwoPassesAreOneFold(n);
    FoldStrings(n, 1, "", ts);
    assert "" + Concat(ts) == Concat(ts);
  }

  lemma {:induction false} FoldFirstFailure(n: Node, i: nat, acc: string, k: nat)
    requires n.List? && 1 <= i <= k < |n.items|
    requires forall j | i <= j < k :: IsStringResult(Eval(n.items[j]))
    requires !IsStringResult(Eval(n.items[k]))
    ensures ConcatFold(n, i, acc) == ArgumentFailure(Eval(n.items[k]), NonString)
    decreases k - i
  {
    if i < k {
      assert IsStringResult(Eval(n.items[i]));
      FoldFirstFailure(n, i + 1, acc + Eval(n.items[i]).value.s, k);
    }
  }

  /**
   * In `concat` the first argument that does not evaluate to a string
   * decides the outcome: its own error, unchanged, or
   * "Non-string argument to concat".
   */
  lemma ConcatFirstFailure(args: seq<Node>, k: nat)
    requires k < |args|
    requires forall j | 0 <= j < k :: IsStringResult(Eval(args[j]))
    requires !IsStringResult(Eval(args[k]))
    ensures Eval(Apply("concat", args)) == ArgumentFailure(Eval(args[k]), NonString)
  {
    var n := Apply("concat", args);
    ApplyItems("concat", args);
    TwoPassesAreOneFold(n);
    FoldFirstFailure(n, 1, "", k + 1);
  }

  // ---------------------------------------------------------------- other forms

  /**
   * Literals evaluate to themselves, and nothing else succeeds but the three
   * operators: `+` and `-` give integers, `concat` a string. So a symbol, an
   * empty list, a list headed by a non-symbol and an unknown operator
   * always fail.
   */
  lemma EvalOutcomeForms(n: Node)
    ensures forall v :: Eval(Literal(v)) == Ok(v)
    ensures Eval(n).Ok? ==>
      || n == Literal(Eval(n).value)
      || (IsOperatorList(n, "+") && Eval(n).value.IntV?)
      || (IsOperatorList(n, "-") && Eval(n).value.IntV?)
      || (IsOperatorList(n, "concat") && Eval(n).value.StrV?)
  {
  }

  /** The leaf and malformed-list cases, each with its fixed message. */
  lemma NonOperatorForms(name: string, head: Node, args: seq<Node>)
    ensures Eval(Sym(name)) == Err(StandaloneSymbol)
    ensures Eval(List([])) == Err(EmptyList)
    ensures !head.Sym? ==> Eval(List([head] + args)) == Err(OperatorNotSymbol)
  {
  }

  /** Any other operator is "Unknown operator", whatever its arguments would give. */
  lemma UnknownOperatorIgnoresArguments(op: string, args: seq<Node>)
    requires op != "+" && op != "-" && op != "concat"
    ensures Eval(Apply(op, args)) == Err(UnknownOperator)
  {
    ApplyItems(op, args);
  }
}
