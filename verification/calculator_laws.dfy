/**
  What the calculator's evaluator answers, in plain arithmetic: one law per kind of node,
  from what its operands evaluate to, one level deeper.
  */
module CalculatorLaws {
  import opened Calculator

  predicate Yields(e: Expr, depth: nat, x: int) {
    Eval(e, depth) == Value(x)
  }

  predicate Raises(e: Expr, depth: nat, error: Error) {
    Eval(e, depth) == Raised(error)
  }

  // ---- leaves and the budget ----------------------------------------------------------

  /** The budget is 50 levels below the root; within it a constant is its value. */
  lemma Leaves(e: Expr, depth: nat)
    ensures depth > 50 ==> Raises(e, depth, TooDeep)
    ensures depth <= 50 && e.Constant? ==> Yields(e, depth, e.value)
    ensures depth <= 50 && e.FloatConstant? ==> Raises(e, depth, Outside)
    ensures depth <= 50 && (e.OtherConstant? || e.OtherNode?) ==> Raises(e, depth, Unsupported)
    ensures depth <= 50 && e.Expression? ==> Eval(e, depth) == Eval(e.body, depth + 1)
  {
  }

  // ---- operators ----------------------------------------------------------------------

  lemma SumsAndProducts(l: Expr, r: Expr, depth: nat, x: int, y: int)
    requires depth <= 50 && Yields(l, depth + 1, x) && Yields(r, depth + 1, y)
    ensures Yields(BinOp(Add, l, r), depth, x + y)
    ensures Yields(BinOp(Sub, l, r), depth, x - y)
    ensures Yields(BinOp(Mult, l, r), depth, x * y)
  {
  }

  /** `//` and `%` split the dividend; the remainder lies between zero and the divisor. */
  lemma Divisions(l: Expr, r: Expr, depth: nat, x: int, y: int) returns (q: int, m: int)
    requires depth <= 50 && Yields(l, depth + 1, x) && Yields(r, depth + 1, y)
    ensures y != 0 ==> Yields(BinOp(FloorDiv, l, r), depth, q) && Yields(BinOp(Mod, l, r), depth, m) && x == q * y + m
    ensures (y > 0 ==> 0 <= m < y) && (y < 0 ==> y < m <= 0)
    ensures y == 0 ==> Raises(BinOp(FloorDiv, l, r), depth, ZeroDivision) && Raises(BinOp(Mod, l, r), depth, ZeroDivision)
    ensures Raises(BinOp(Div, l, r), depth, if y == 0 then ZeroDivision else Outside)
  {
    q, m := 0, 0;
    if y != 0 {
      q, m := SplitByFloor(x, y);
    }
  }

  lemma SplitByFloor(x: int, y: int) returns (q: int, m: int)
    requires y != 0
    ensures ApplyBinary(FloorDiv, x, y) == Value(q) && ApplyBinary(Mod, x, y) == Value(m) && x == q * y + m
    ensures if y > 0 then 0 <= m < y else y < m <= 0
  {
    FloorBounded(x, y);
    q := Floor(x, y);
    m := x - y * q;
  }

  /** The three facts that make `Power` the power of its base. */
  lemma PowerIsPower(b: int, m: nat, n: nat)
    ensures Power(b, 0) == 1 && Power(b, 1) == b
    ensures Power(b, m + n) == Power(b, m) * Power(b, n)
  {
    assert Power(b, 1) == b * Power(b, 0);
    PowerAdds(b, m, n);
  }

  predicate PowAllowed(x: int, y: int) {
    -10000 <= x <= 10000 && -100 <= y <= 100
  }

  lemma Powers(l: Expr, r: Expr, depth: nat, x: int, y: int)
    requires depth <= 50 && Yields(l, depth + 1, x) && Yields(r, depth + 1, y)
    ensures !PowAllowed(x, y) ==> Raises(BinOp(Pow, l, r), depth, PowTooLarge)
    ensures PowAllowed(x, y) && y >= 0 ==> Yields(BinOp(Pow, l, r), depth, Power(x, y))
    ensures PowAllowed(x, y) && y < 0 ==> Raises(BinOp(Pow, l, r), depth, if x == 0 then ZeroDivision else Outside)
  {
  }

  lemma Signs(e: Expr, depth: nat, x: int)
    requires depth <= 50 && Yields(e, depth + 1, x)
    ensures Yields(UnaryOp(USub, e), depth, -x) && Yields(UnaryOp(UAdd, e), depth, x)
  {
  }

  /** An unsupported operator is refused before its operands are looked at; else the first error wins. */
  lemma OperandErrors(l: Expr, r: Expr, depth: nat, op: Binary, uop: Unary, error: Error)
    requires depth <= 50
    ensures Raises(BinOp(OtherBinary, l, r), depth, Unsupported) && Raises(UnaryOp(OtherUnary, l), depth, Unsupported)
    ensures !op.OtherBinary? && Raises(l, depth + 1, error) ==> Raises(BinOp(op, l, r), depth, error)
    ensures !op.OtherBinary? && Eval(l, depth + 1).Value? && Raises(r, depth + 1, error) ==>
              Raises(BinOp(op, l, r), depth, error)
    ensures !uop.OtherUnary? && Raises(l, depth + 1, error) ==> Raises(UnaryOp(uop, l), depth, error)
  {
  }

  // ---- calls --------------------------------------------------------------------------

  /** Every argument evaluates, in order, to the element of `xs` in its place. */
  ghost predicate Evaluate(args: seq<Expr>, depth: nat, xs: seq<int>) {
    |xs| == |args| && forall i :: 0 <= i < |args| ==> Yields(args[i], depth, xs[i])
  }

  /** The arguments before the i-th evaluate, and the i-th raises. */
  ghost predicate FailsAt(args: seq<Expr>, depth: nat, i: nat, error: Error) {
    i < |args| && Raises(args[i], depth, error) && forall j :: 0 <= j < i ==> Eval(args[j], depth).Value?
  }

  lemma {:induction false} ArgumentsEvaluate(args: seq<Expr>, depth: nat, xs: seq<int>)
    requires Evaluate(args, depth, xs)
    ensures EvalAll(args, depth) == Value(xs)
    decreases |args|
  {
    if args == [] {
      assert xs == [];
    } else {
      assert Yields(args[0], depth, xs[0]);
      forall i | 0 <= i < |args[1..]| ensures Yields(args[1..][i], depth, xs[1..][i]) {
        assert Yields(args[i + 1], depth, xs[i + 1]);
      }
      ArgumentsEvaluate(args[1..], depth, xs[1..]);
      assert xs == [xs[0]] + xs[1..];
    }
  }

  lemma {:induction false} ArgumentsFail(args: seq<Expr>, depth: nat, i: nat, error: Error)
    requires FailsAt(args, depth, i, error)
    ensures EvalAll(args, depth) == Raised(error)
    decreases |args|
  {
    if i > 0 {
      assert Eval(args[0], depth).Value?;
      ArgumentsFail(args[1..], depth, i - 1, error);
    }
  }

  /** The first argument that raises decides; a name that is no function is refused before that. */
  lemma CallErrors(f: Function, args: seq<Expr>, depth: nat, i: nat, error: Error)
    requires depth <= 50
    ensures Raises(Call(UnknownName, args), depth, Unsupported) && Raises(Call(NotAName, args), depth, Unsupported)
    ensures !f.UnknownName? && !f.NotAName? && FailsAt(args, depth + 1, i, error) ==> Raises(Call(f, args), depth, error)
  {
    if FailsAt(args, depth + 1, i, error) {
      ArgumentsFail(args, depth + 1, i, error);
    }
  }

  lemma OneArgument(args: seq<Expr>, depth: nat, xs: seq<int>)
    requires depth <= 50 && Evaluate(args, depth + 1, xs)
    ensures |xs| == 1 ==> Yields(Call(Abs, args), depth, if xs[0] < 0 then -xs[0] else xs[0])
    ensures |xs| == 1 ==> Yields(Call(Round, args), depth, xs[0])
    ensures |xs| == 2 ==> Raises(Call(Round, args), depth, Outside)
    ensures |xs| != 1 ==> Raises(Call(Abs, args), depth, BadArguments)
    ensures |xs| != 1 && |xs| != 2 ==> Raises(Call(Round, args), depth, BadArguments)
  {
    ArgumentsEvaluate(args, depth + 1, xs);
  }

  predicate AtMostAll(low: int, xs: seq<int>) {
    low in xs && forall x :: x in xs ==> low <= x
  }

  predicate AtLeastAll(high: int, xs: seq<int>) {
    high in xs && forall x :: x in xs ==> x <= high
  }

  /** `min` of two or more numbers is an argument at most every argument. */
  lemma Minimum(args: seq<Expr>, depth: nat, xs: seq<int>) returns (low: int)
    requires depth <= 50 && Evaluate(args, depth + 1, xs)
    ensures |xs| >= 2 ==> Yields(Call(Min, args), depth, low) && AtMostAll(low, xs)
    ensures |xs| < 2 ==> Raises(Call(Min, args), depth, BadArguments)
  {
    ArgumentsEvaluate(args, depth + 1, xs);
    low := 0;
    if |xs| >= 2 {
      ExtremesAreElements(xs);
      low := Least(xs);
    }
  }

  /** `max` of two or more numbers is an argument at least every argument. */
  lemma Maximum(args: seq<Expr>, depth: nat, xs: seq<int>) returns (high: int)
    requires depth <= 50 && Evaluate(args, depth + 1, xs)
    ensures |xs| >= 2 ==> Yields(Call(Max, args), depth, high) && AtLeastAll(high, xs)
    ensures |xs| < 2 ==> Raises(Call(Max, args), depth, BadArguments)
  {
    ArgumentsEvaluate(args, depth + 1, xs);
    high := 0;
    if |xs| >= 2 {
      ExtremesAreElements(xs);
      high := Greatest(xs);
    }
  }

  lemma PowCalls(args: seq<Expr>, depth: nat, xs: seq<int>)
    requires depth <= 50 && Evaluate(args, depth + 1, xs)
    ensures |xs| >= 2 && !PowAllowed(xs[0], xs[1]) ==> Raises(Call(PowCall, args), depth, PowTooLarge)
    ensures |xs| == 2 && PowAllowed(xs[0], xs[1]) && xs[1] >= 0 ==>
              Yields(Call(PowCall, args), depth, Power(xs[0], xs[1]))
    ensures |xs| == 2 && PowAllowed(xs[0], xs[1]) && xs[1] < 0 ==>
              Raises(Call(PowCall, args), depth, if xs[0] == 0 then ZeroDivision else Outside)
    ensures |xs| == 3 && PowAllowed(xs[0], xs[1]) ==> Raises(Call(PowCall, args), depth, Outside)
    ensures |xs| < 2 || (|xs| > 3 && PowAllowed(xs[0], xs[1])) ==> Raises(Call(PowCall, args), depth, BadArguments)
  {
    ArgumentsEvaluate(args, depth + 1, xs);
  }
}
