/**
 * The tree-walking evaluator `eval_ast_node` of yalisp.h. `Eval` is the
 * specification, written with one accumulator function per loop of the C
 * code (`sum`, `diff`, the `total_length` pass and the `strcat` pass of
 * `concat`); `EvalNode` is the imperative version with those loops,
 * proved equal to it.
 */
module Evaluator {
  import opened Ast

  const StandaloneSymbol := "Cannot evaluate a standalone symbol"
  const EmptyList := "Cannot evaluate an empty list"
  const OperatorNotSymbol := "First element of a list must be a symbol (operator)"
  /** Reported by both `+` and `-`: the C code shares the text. */
  const NonInteger := "Non-integer argument to +"
  const NonString := "Non-string argument to concat"
  const UnknownOperator := "Unknown operator"
  /** `(-)` with no argument: the C code reads past the item array instead. */
  const MissingOperand := "Missing argument to -"

  /** The evaluation errors; no other message ever leaves the evaluator. */
  const EvalErrors: set<string> :=
    {StandaloneSymbol, EmptyList, OperatorNotSymbol, NonInteger, NonString, UnknownOperator, MissingOperand}

  predicate IsOperatorList(n: Node, op: string)
  {
    n.List? && |n.items| >= 1 && n.items[0] == Sym(op)
  }

  /** `eval_ast_node(node)`: the value of a node, or the first error met. */
  function Eval(n: Node): (r: Result<Value>)
    ensures r.Err? ==> r.msg in EvalErrors
    decreases n, 1
  {
    match n
    case Int(v) => Ok(IntV(v))
    case Str(t) => Ok(StrV(t))
    case Sym(_) => Err(StandaloneSymbol)
    case List(items) =>
      if |items| == 0 then Err(EmptyList)
      else if !items[0].Sym? then Err(OperatorNotSymbol)
      else if items[0].name == "+" then SumFrom(n, 1, 0)
      else if items[0].name == "-" then
        if |items| < 2 then Err(MissingOperand)
        else match Eval(items[1])
          case Err(m) => Err(m)
          case Ok(v) => if !v.IntV? then Err(NonInteger) else DiffFrom(n, 2, v.i)
      else if items[0].name == "concat" then
        match ConcatLength(n, 1, 0)
        case Err(m) => Err(m)
        case Ok(_) => Ok(StrV(ConcatJoin(n, 1, "")))
      else Err(UnknownOperator)
  }

  /** The `+` loop from argument `i` on, `sum` holding the arguments before it. */
  function SumFrom(n: Node, i: nat, sum: int): (r: Result<Value>)
    requires n.List? && 1 <= i <= |n.items|
    ensures r.Ok? ==> r.value.IntV?
    ensures r.Err? ==> r.msg in EvalErrors
    decreases n, 0, |n.items| - i
  {
    if i == |n.items| then Ok(IntV(sum))
    else match Eval(n.items[i])
      case Err(m) => Err(m)
      case Ok(v) => if !v.IntV? then Err(NonInteger) else SumFrom(n, i + 1, sum + v.i)
  }

  /** The `-` loop from argument `i` on, `diff` holding the first argument minus those before `i`. */
  function DiffFrom(n: Node, i: nat, diff: int): (r: Result<Value>)
    requires n.List? && 2 <= i <= |n.items|
    ensures r.Ok? ==> r.value.IntV?
    ensures r.Err? ==> r.msg in EvalErrors
    decreases n, 0, |n.items| - i
  {
    if i == |n.items| then Ok(IntV(diff))
    else match Eval(n.items[i])
      case Err(m) => Err(m)
      case Ok(v) => if !v.IntV? then Err(NonInteger) else DiffFrom(n, i + 1, diff - v.i)
  }

  /** Argument `j` of `n` evaluates to a string. */
  predicate StringArg(n: Node, j: nat)
    requires n.List? && j < |n.items|
    decreases n, 0, 0
  {
    Eval(n.items[j]).Ok? && Eval(n.items[j]).value.StrV?
  }

  /**
   * The first `concat` pass from argument `i` on: check every argument is a
   * string and add up the lengths (`total_length`). On success every
   * argument from `i` on evaluates to a string.
   */
  function ConcatLength(n: Node, i: nat, total: nat): (r: Result<nat>)
    requires n.List? && 1 <= i <= |n.items|
    ensures r.Ok? ==> forall j | i <= j < |n.items| :: StringArg(n, j)
    ensures r.Err? ==> r.msg in EvalErrors
    decreases n, 0, |n.items| - i
  {
    if i == |n.items| then Ok(total)
    else match Eval(n.items[i])
      case Err(m) => Err(m)
      case Ok(v) => if !v.StrV? then Err(NonString) else ConcatLength(n, i + 1, total + |v.s|)
  }

  /**
   * The second `concat` pass from argument `i` on: evaluate each argument
   * again and append it to `acc` (the `strcat` into `result_string`).
   */
  function ConcatJoin(n: Node, i: nat, acc: string): (r: string)
    requires n.List? && 1 <= i <= |n.items|
    requires forall j | i <= j < |n.items| :: StringArg(n, j)
    ensures acc <= r
    decreases n, 0, |n.items| - i
  {
    if i == |n.items| then acc
    else
      assert StringArg(n, i);
      ConcatJoin(n, i + 1, acc + Eval(n.items[i]).value.s)
  }

  /** The second pass appends to whatever the buffer already holds. */
  lemma {:induction false} JoinAppends(n: Node, i: nat, acc: string)
    requires n.List? && 1 <= i <= |n.items|
    requires forall j | i <= j < |n.items| :: StringArg(n, j)
    ensures ConcatJoin(n, i, acc) == acc + ConcatJoin(n, i, "")
    decreases |n.items| - i
  {
    if i < |n.items| {
      assert StringArg(n, i);
      var t := Eval(n.items[i]).value.s;
      JoinAppends(n, i + 1, acc + t);
      JoinAppends(n, i + 1, t);
      assert "" + t == t;
    }
  }

  /**
   * The length the first pass adds up is the length the second pass
   * appends, so `malloc(total_length + 1)` holds the result and its
   * terminator.
   */
  lemma {:induction false} LengthPassMatchesJoin(n: Node, i: nat, total: nat, acc: string)
    requires n.List? && 1 <= i <= |n.items|
    requires ConcatLength(n, i, total).Ok?
    ensures |ConcatJoin(n, i, acc)| == |acc| + ConcatLength(n, i, total).value - total
    decreases |n.items| - i
  {
    if i < |n.items| {
      var t := Eval(n.items[i]).value.s;
      LengthPassMatchesJoin(n, i + 1, total + |t|, acc + t);
    }
  }

  /** `eval_ast_node` as the C code runs it, with its accumulator loops. */
  method EvalNode(n: Node) returns (r: Result<Value>)
    ensures r == Eval(n)
    decreases n, 1
  {
    match n {
      case Int(v) =>
        r := Ok(IntV(v));
      case Str(t) =>
        r := Ok(StrV(t));
      case Sym(_) =>
        r := Err(StandaloneSymbol);
      case List(items) =>
        if |items| == 0 {
          return Err(EmptyList);
        }
        var op := items[0];
        if !op.Sym? {
          return Err(OperatorNotSymbol);
        }
        if op.name == "+" {
          r := EvalSum(n);
        } else if op.name == "-" {
          r := EvalDiff(n);
        } else if op.name == "concat" {
          r := EvalConcat(n);
        } else {
          r := Err(UnknownOperator);
        }
    }
  }

  /** The `+` case: `sum` starts at 0 and adds each integer argument in turn. */
  method EvalSum(n: Node) returns (r: Result<Value>)
    requires IsOperatorList(n, "+")
    ensures r == SumFrom(n, 1, 0)
    decreases n, 0
  {
    var sum := 0;
    for i := 1 to |n.items|
      invariant SumFrom(n, i, sum) == SumFrom(n, 1, 0)
    {
      var arg := EvalNode(n.items[i]);
      if arg.Err? {
        return arg;
      }
      if !arg.value.IntV? {
        return Err(NonInteger);
      }
      sum := sum + arg.value.i;
    }
    r := Ok(IntV(sum));
  }

  /** The `-` case: `diff` starts at the first argument and subtracts the others in turn. */
  method EvalDiff(n: Node) returns (r: Result<Value>)
    requires IsOperatorList(n, "-")
    ensures r == Eval(n)
    decreases n, 0
  {
    if |n.items| < 2 {
      return Err(MissingOperand);
    }
    var first := EvalNode(n.items[1]);
    if first.Err? {
      return first;
    }
    if !first.value.IntV? {
      return Err(NonInteger);
    }
    var diff := first.value.i;
    for i := 2 to |n.items|
      invariant DiffFrom(n, i, diff) == Eval(n)
    {
      var arg := EvalNode(n.items[i]);
      if arg.Err? {
        return arg;
      }
      if !arg.value.IntV? {
        return Err(NonInteger);
      }
      diff := diff - arg.value.i;
    }
    r := Ok(IntV(diff));
  }

  /**
   * The `concat` case in its two passes: the first checks the arguments and
   * adds up their lengths, the second evaluates them again and copies each
   * into a buffer of `total_length + 1` characters, keeping a terminator
   * after the bytes copied so far.
   */
  method EvalConcat(n: Node) returns (r: Result<Value>)
    requires IsOperatorList(n, "concat")
    ensures r == Eval(n)
    decreases n, 0
  {
    var total: nat := 0;
    for i := 1 to |n.items|
      invariant ConcatLength(n, i, total) == ConcatLength(n, 1, 0)
    {
      var arg := EvalNode(n.items[i]);
      if arg.Err? {
        return arg;
      }
      if !arg.value.StrV? {
        return Err(NonString);
      }
      total := total + |arg.value.s|;
    }
    LengthPassMatchesJoin(n, 1, 0, "");

    var buf := new char[total + 1];
    buf[0] := '\0';
    var len: nat := 0;
    for i := 1 to |n.items|
      invariant len <= total && buf[len] == '\0'
      invariant ConcatJoin(n, i, buf[..len]) == ConcatJoin(n, 1, "")
    {
      var arg := EvalNode(n.items[i]);
      assert StringArg(n, i);
      var t := arg.value.s;
      JoinAppends(n, i + 1, buf[..len] + t);
      ghost var before := buf[..len];
      for k := 0 to |t|
        invariant buf[..len + k] == before + t[..k]
      {
        buf[len + k] := t[k];
      }
      assert t[..|t|] == t;
      buf[len + |t|] := '\0';
      len := len + |t|;
    }
    r := Ok(StrV(buf[..len]));
  }
}
