/**
  example_tools.py: the calculator tool's bounded evaluator over syntax trees, on integers.
  Booleans are the integers 0 and 1.  Results that are floats, two-argument `round` and
  three-argument `pow` are not computed: they end in `Outside`.
  */
module Calculator {
  datatype Binary = Add | Sub | Mult | Div | FloorDiv | Mod | Pow | OtherBinary

  datatype Unary = USub | UAdd | OtherUnary

  datatype Function = Abs | Round | Min | Max | PowCall | UnknownName | NotAName

  datatype Expr =
    | Constant(value: int)
    | FloatConstant
    | OtherConstant
    | BinOp(op: Binary, left: Expr, right: Expr)
    | UnaryOp(uop: Unary, operand: Expr)
    | Call(func: Function, args: seq<Expr>)
    | Expression(body: Expr)
    | OtherNode

  datatype Error = TooDeep | Unsupported | PowTooLarge | ZeroDivision | BadArguments | Outside

  datatype Outcome<T> = Value(v: T) | Raised(e: Error)

  const MAX_DEPTH: nat := 50
  const MAX_POW_BASE: nat := 10000
  const MAX_POW_EXPONENT: nat := 100

  // ---- arithmetic ---------------------------------------------------------------------

  function AbsOf(x: int): nat { if x < 0 then -x else x }

  function Power(b: int, n: nat): int {
    if n == 0 then 1 else b * Power(b, n - 1)
  }

  /** Python's floor division; Dafny's `/` floors when the divisor is positive. */
  function Floor(l: int, r: int): int
    requires r != 0
  {
    if r > 0 then l / r else (-l) / (-r)
  }

  function PowOf(l: int, r: int): Outcome<int> {
    if AbsOf(l) > MAX_POW_BASE || AbsOf(r) > MAX_POW_EXPONENT then Raised(PowTooLarge)
    else if r >= 0 then Value(Power(l, r))
    else if l == 0 then Raised(ZeroDivision)
    else Raised(Outside)
  }

  function ApplyBinary(op: Binary, l: int, r: int): Outcome<int> {
    match op
    case Add => Value(l + r)
    case Sub => Value(l - r)
    case Mult => Value(l * r)
    case Div => if r == 0 then Raised(ZeroDivision) else Raised(Outside)
    case FloorDiv => if r == 0 then Raised(ZeroDivision) else Value(Floor(l, r))
    case Mod => if r == 0 then Raised(ZeroDivision) else Value(l - r * Floor(l, r))
    case Pow => PowOf(l, r)
    case OtherBinary => Raised(Unsupported)
  }

  function ApplyUnary(op: Unary, x: int): Outcome<int> {
    match op
    case USub => Value(-x)
    case UAdd => Value(x)
    case OtherUnary => Raised(Unsupported)
  }

  function Least(xs: seq<int>): int
    requires xs != []
  {
    if |xs| == 1 || xs[0] <= Least(xs[1..]) then xs[0] else Least(xs[1..])
  }

  function Greatest(xs: seq<int>): int
    requires xs != []
  {
    if |xs| == 1 || xs[0] >= Greatest(xs[1..]) then xs[0] else Greatest(xs[1..])
  }

  function ApplyFunction(f: Function, xs: seq<int>): Outcome<int> {
    match f
    case Abs => if |xs| == 1 then Value(AbsOf(xs[0])) else Raised(BadArguments)
    case Round => if |xs| == 1 then Value(xs[0]) else if |xs| == 2 then Raised(Outside) else Raised(BadArguments)
    case Min => if |xs| >= 2 then Value(Least(xs)) else Raised(BadArguments)
    case Max => if |xs| >= 2 then Value(Greatest(xs)) else Raised(BadArguments)
    case PowCall =>
      if |xs| == 2 then PowOf(xs[0], xs[1])
      else if |xs| > 2 && (AbsOf(xs[0]) > MAX_POW_BASE || AbsOf(xs[1]) > MAX_POW_EXPONENT) then Raised(PowTooLarge)
      else if |xs| == 3 then Raised(Outside)
      else Raised(BadArguments)
    case UnknownName => Raised(Unsupported)
    case NotAName => Raised(Unsupported)
  }

  // ---- the evaluator ------------------------------------------------------------------

  /** `_safe_eval`. */
  function Eval(e: Expr, depth: nat): Outcome<int>
    decreases e, 1
  {
    if depth > MAX_DEPTH then Raised(TooDeep)
    else
      match e
      case Expression(body) => Eval(body, depth + 1)
      case Constant(value) => Value(value)
      case FloatConstant => Raised(Outside)
      case OtherConstant => Raised(Unsupported)
      case BinOp(op, left, right) =>
        if op.OtherBinary? then Raised(Unsupported)
        else
          var l := Eval(left, depth + 1);
          if l.Raised? then l
          else
            var r := Eval(right, depth + 1);
            if r.Raised? then r else ApplyBinary(op, l.v, r.v)
      case UnaryOp(op, operand) =>
        if op.OtherUnary? then Raised(Unsupported)
        else
          var x := Eval(operand, depth + 1);
          if x.Raised? then x else ApplyUnary(op, x.v)
      case Call(f, args) =>
        if f.NotAName? || f.UnknownName? then Raised(Unsupported)
        else
          var xs := EvalAll(args, depth + 1);
          if xs.Raised? then Raised(xs.e) else ApplyFunction(f, xs.v)
      case OtherNode => Raised(Unsupported)
  }

  function EvalAll(es: seq<Expr>, depth: nat): Outcome<seq<int>>
    decreases es, 0
  {
    if es == [] then Value([])
    else
      var x := Eval(es[0], depth);
      if x.Raised? then Raised(x.e)
      else
        var xs := EvalAll(es[1..], depth);
        if xs.Raised? then xs else Value([x.v] + xs.v)
  }

  // ---- the depth budget ---------------------------------------------------------------

  /** The expression's value, with every guard but the depth budget; None where there is none. */
  function Meaning(e: Expr): Outcome<int>
    decreases e, 1
  {
    match e
    case Expression(body) => Meaning(body)
    case Constant(value) => Value(value)
    case FloatConstant => Raised(Outside)
    case BinOp(op, left, right) =>
      if Meaning(left).Value? && Meaning(right).Value? then ApplyBinary(op, Meaning(left).v, Meaning(right).v)
      else Raised(Unsupported)
    case UnaryOp(op, operand) =>
      if Meaning(operand).Value? then ApplyUnary(op, Meaning(operand).v) else Raised(Unsupported)
    case Call(f, args) =>
      if MeaningAll(args).Value? then ApplyFunction(f, MeaningAll(args).v) else Raised(Unsupported)
    case _ => Raised(Unsupported)
  }

  function MeaningAll(es: seq<Expr>): Outcome<seq<int>>
    decreases es, 0
  {
    if es == [] then Value([])
    else if Meaning(es[0]).Value? && MeaningAll(es[1..]).Value?
    then Value([Meaning(es[0]).v] + MeaningAll(es[1..]).v)
    else Raised(Unsupported)
  }

  function Higher(a: nat, b: nat): nat { if a > b then a else b }

  function Height(e: Expr): nat
    decreases e, 1
  {
    match e
    case Expression(body) => 1 + Height(body)
    case BinOp(_, left, right) => 1 + Higher(Height(left), Height(right))
    case UnaryOp(_, operand) => 1 + Height(operand)
    case Call(_, args) => if args == [] then 0 else 1 + HeightAll(args)
    case _ => 0
  }

  function HeightAll(es: seq<Expr>): nat
    decreases es, 0
  {
    if es == [] then 0 else Higher(Height(es[0]), HeightAll(es[1..]))
  }

  /**
    Evaluation from a depth (see `Fits`) succeeds exactly when the tree fits the budget left and the
    expression has a meaning, and then yields that meaning.
    */
  lemma {:induction false} EvalIsMeaningWithinDepth(e: Expr, depth: nat)
    ensures Fits(e, depth)
    decreases e, 1
  {
    if depth > MAX_DEPTH {
      return;
    }
    match e
    case Expression(body) => EvalIsMeaningWithinDepth(body, depth + 1);
    case BinOp(op, left, right) =>
      EvalIsMeaningWithinDepth(left, depth + 1);
      EvalIsMeaningWithinDepth(right, depth + 1);
      BinOpFitsWhenOperandsDo(op, left, right, depth);
    case UnaryOp(op, operand) => EvalIsMeaningWithinDepth(operand, depth + 1);
    case Call(f, args) =>
      if args != [] {
        EvalAllIsMeaningWithinDepth(args, depth + 1);
      }
    case _ =>
  }

  /** The budget of one node and its subtree. */
  predicate Fits(e: Expr, depth: nat) {
    && (Eval(e, depth).Value? <==> depth + Height(e) <= MAX_DEPTH && Meaning(e).Value?)
    && (Eval(e, depth).Value? ==> Eval(e, depth) == Meaning(e))
  }

  lemma BinOpFitsWhenOperandsDo(op: Binary, left: Expr, right: Expr, depth: nat)
    requires depth <= MAX_DEPTH && Fits(left, depth + 1) && Fits(right, depth + 1)
    ensures Fits(BinOp(op, left, right), depth)
  {
    var l, r := Eval(left, depth + 1), Eval(right, depth + 1);
    var e := BinOp(op, left, right);
    assert Height(e) == 1 + Higher(Height(left), Height(right));
    if l.Value? && r.Value? {
      assert op.OtherBinary? || Eval(e, depth) == ApplyBinary(op, l.v, r.v);
      assert Meaning(e) == ApplyBinary(op, l.v, r.v);
    } else {
      assert Eval(e, depth).Raised?;
      assert depth + Height(e) > MAX_DEPTH || Meaning(e).Raised?;
    }
  }

  lemma {:induction false} EvalAllIsMeaningWithinDepth(es: seq<Expr>, depth: nat)
    ensures EvalAll(es, depth).Value? <==> (es == [] || depth + HeightAll(es) <= MAX_DEPTH) && MeaningAll(es).Value?
    ensures EvalAll(es, depth).Value? ==> EvalAll(es, depth) == MeaningAll(es)
    decreases es, 0
  {
    if es != [] {
      EvalIsMeaningWithinDepth(es[0], depth);
      EvalAllIsMeaningWithinDepth(es[1..], depth);
    }
  }

  // ---- how large a value can get ------------------------------------------------------

  function Constants(e: Expr): nat
    decreases e, 1
  {
    match e
    case Constant(_) => 1
    case FloatConstant => 1
    case OtherConstant => 1
    case BinOp(_, left, right) => Constants(left) + Constants(right)
    case UnaryOp(_, operand) => Constants(operand)
    case Call(_, args) => ConstantsAll(args)
    case Expression(body) => Constants(body)
    case OtherNode => 0
  }

  function ConstantsAll(es: seq<Expr>): nat
    decreases es, 0
  {
    if es == [] then 0 else Constants(es[0]) + ConstantsAll(es[1..])
  }

  /** Every integer constant is at most `limit` in magnitude. */
  predicate Within(e: Expr, limit: nat)
    decreases e, 1
  {
    match e
    case Constant(value) => AbsOf(value) <= limit
    case BinOp(_, left, right) => Within(left, limit) && Within(right, limit)
    case UnaryOp(_, operand) => Within(operand, limit)
    case Call(_, args) => WithinAll(args, limit)
    case Expression(body) => Within(body, limit)
    case _ => true
  }

  predicate WithinAll(es: seq<Expr>, limit: nat)
    decreases es, 0
  {
    es == [] || (Within(es[0], limit) && WithinAll(es[1..], limit))
  }

  /** A base that no constant and no guarded power exceeds. */
  predicate Dominates(b: nat, limit: nat) {
    b >= 2 && b >= limit && b >= Power(MAX_POW_BASE, MAX_POW_EXPONENT)
  }

  lemma {:induction false} TimesAtLeast(d: int, x: nat)
    requires d >= 1
    ensures d * x >= x
  {
    if x > 0 {
      TimesAtLeast(d, x - 1);
      assert d * x == d * (x - 1) + d;
    }
  }

  lemma {:induction false} PowerPositive(b: nat, n: nat)
    requires b >= 2
    ensures Power(b, n) >= 1 && (n > 0 ==> Power(b, n) >= b)
  {
    if n > 0 {
      PowerPositive(b, n - 1);
      TimesAtLeast(Power(b, n - 1), b);
    }
  }

  lemma {:induction false} PowerAdds(b: int, m: nat, n: nat)
    ensures Power(b, m + n) == Power(b, m) * Power(b, n)
  {
    if m > 0 {
      PowerAdds(b, m - 1, n);
      assert b * (Power(b, m - 1) * Power(b, n)) == (b * Power(b, m - 1)) * Power(b, n);
    }
  }

  lemma {:induction false} PowerGrows(b: nat, m: nat, n: nat)
    requires b >= 2 && m <= n
    ensures Power(b, m) <= Power(b, n)
    decreases n
  {
    if m < n {
      PowerGrows(b, m, n - 1);
      PowerPositive(b, n - 1);
      TimesAtLeast(b, Power(b, n - 1));
    }
  }

  /** The magnitude of a power is at most that of a larger base to a larger exponent. */
  lemma {:induction false} PowerBounded(l: int, n: nat, base: nat)
    requires AbsOf(l) <= base
    ensures AbsOf(Power(l, n)) <= Power(base, n)
  {
    if n > 0 {
      PowerBounded(l, n - 1, base);
      AbsTimes(l, Power(l, n - 1), base, Power(base, n - 1));
    }
  }

  lemma AbsTimes(x: int, y: int, p: nat, q: nat)
    requires AbsOf(x) <= p && AbsOf(y) <= q
    ensures AbsOf(x * y) <= p * q
  {
    var a, b := AbsOf(x), AbsOf(y);
    assert AbsOf(x * y) == a * b by {
      assert x * y == a * b || x * y == -(a * b);
    }
    assert a * b <= p * b <= p * q;
  }

  lemma GuardedPowerBounded(l: int, r: int, b: nat, limit: nat)
    requires PowOf(l, r).Value? && Dominates(b, limit)
    ensures AbsOf(PowOf(l, r).v) <= b
  {
    PowerBounded(l, r, MAX_POW_BASE);
    PowerGrows(MAX_POW_BASE, r, MAX_POW_EXPONENT);
  }

  lemma DivisionShrinks(n: int, d: int)
    requires d >= 1
    ensures AbsOf(n / d) <= AbsOf(n)
  {
    var q := n / d;
    Remainder(n, d, q);
    if q >= 0 {
      TimesAtLeast(d, q);
    } else {
      TimesAtLeast(d, -(q + 1));
      NegatedFactor(d, q + 1);
      assert d * (q + 1) == d * q + d;
    }
  }

  lemma NegatedFactor(d: int, x: int)
    ensures d * -x == -(d * x)
  {
  }

  lemma Remainder(n: int, d: int, q: int)
    requires d >= 1 && q == n / d
    ensures 0 <= n - d * q < d
  {
  }

  lemma NegatedTimes(d: int, q: int)
    ensures (-d) * q == -(d * q)
  {
  }

  /** Floor division shrinks; the remainder is smaller than the divisor and has its sign. */
  lemma FloorBounded(l: int, r: int)
    requires r != 0
    ensures AbsOf(Floor(l, r)) <= AbsOf(l)
    ensures if r > 0 then 0 <= l - r * Floor(l, r) < r else r < l - r * Floor(l, r) <= 0
  {
    var q := Floor(l, r);
    if r > 0 {
      DivisionShrinks(l, r);
      Remainder(l, r, q);
    } else {
      DivisionShrinks(-l, -r);
      Remainder(-l, -r, q);
      NegatedTimes(-r, q);
      assert r * q == -((-r) * q);
    }
  }

  lemma SumBelowProduct(p: nat, q: nat)
    requires p >= 2 && q >= 2
    ensures p + q <= p * q
  {
    assert (p - 1) * (q - 1) >= 1;
  }

  /** A result no larger than an operand, or than the base, is within the joint bound. */
  lemma Headroom(b: nat, m: nat, n: nat)
    requires b >= 2 && m >= 1 && n >= 1
    ensures Power(b, m) <= Power(b, m + n) && Power(b, n) <= Power(b, m + n) && b <= Power(b, m + n)
    ensures Power(b, m) + Power(b, n) <= Power(b, m + n) == Power(b, m) * Power(b, n)
  {
    PowerAdds(b, m, n);
    PowerPositive(b, m);
    PowerPositive(b, n);
    PowerPositive(b, m + n);
    PowerGrows(b, m, m + n);
    PowerGrows(b, n, m + n);
    SumBelowProduct(Power(b, m), Power(b, n));
  }

  lemma BinaryBounded(op: Binary, l: int, r: int, m: nat, n: nat, b: nat, limit: nat)
    requires Dominates(b, limit) && m >= 1 && n >= 1
    requires AbsOf(l) <= Power(b, m) && AbsOf(r) <= Power(b, n) && ApplyBinary(op, l, r).Value?
    ensures AbsOf(ApplyBinary(op, l, r).v) <= Power(b, m + n)
  {
    Headroom(b, m, n);
    match op
    case Mult =>
      PowerPositive(b, m);
      PowerPositive(b, n);
      AbsTimes(l, r, Power(b, m), Power(b, n));
    case FloorDiv => FloorBounded(l, r);
    case Mod => FloorBounded(l, r);
    case Pow => GuardedPowerBounded(l, r, b, limit);
    case _ =>
  }

  lemma {:induction false} ExtremesAreElements(xs: seq<int>)
    requires xs != []
    ensures Least(xs) in xs && Greatest(xs) in xs
    ensures forall x :: x in xs ==> Least(xs) <= x <= Greatest(xs)
  {
    if |xs| > 1 {
      ExtremesAreElements(xs[1..]);
      assert forall x :: x in xs ==> x == xs[0] || x in xs[1..];
    }
  }

  /**
    Whatever evaluates, evaluates to a number of magnitude at most b to the number of
    constants, for any b that bounds the constants and 10000 to the 100th.
    */
  lemma {:induction false} MeaningBounded(e: Expr, b: nat, limit: nat)
    requires Dominates(b, limit) && Within(e, limit) && Meaning(e).Value?
    ensures Constants(e) >= 1 && AbsOf(Meaning(e).v) <= Power(b, Constants(e))
    decreases e, 1
  {
    match e
    case Constant(value) => assert Power(b, 1) == b;
    case Expression(body) => MeaningBounded(body, b, limit);
    case BinOp(op, left, right) =>
      MeaningBounded(left, b, limit);
      MeaningBounded(right, b, limit);
      BinaryBounded(op, Meaning(left).v, Meaning(right).v, Constants(left), Constants(right), b, limit);
    case UnaryOp(op, operand) => MeaningBounded(operand, b, limit);
    case Call(f, args) =>
      ArgumentsBounded(args, b, limit);
      var xs := MeaningAll(args).v;
      assert xs != [];
      ExtremesAreElements(xs);
      if f.PowCall? {
        GuardedPowerBounded(xs[0], xs[1], b, limit);
        PowerPositive(b, ConstantsAll(args));
      }
  }

  lemma {:induction false} ArgumentsBounded(es: seq<Expr>, b: nat, limit: nat)
    requires Dominates(b, limit) && WithinAll(es, limit) && MeaningAll(es).Value?
    ensures es != [] ==> ConstantsAll(es) >= 1
    ensures forall x :: x in MeaningAll(es).v ==> AbsOf(x) <= Power(b, ConstantsAll(es))
    decreases es, 0
  {
    if es != [] {
      MeaningBounded(es[0], b, limit);
      ArgumentsBounded(es[1..], b, limit);
      PowerGrows(b, Constants(es[0]), ConstantsAll(es));
      PowerGrows(b, ConstantsAll(es[1..]), ConstantsAll(es));
    }
  }

  /** The bound for the evaluator itself, from any depth. */
  lemma EvalBounded(e: Expr, depth: nat, b: nat, limit: nat)
    requires Dominates(b, limit) && Within(e, limit) && Eval(e, depth).Value?
    ensures AbsOf(Eval(e, depth).v) <= Power(b, Constants(e))
  {
    EvalIsMeaningWithinDepth(e, depth);
    MeaningBounded(e, b, limit);
  }
}
