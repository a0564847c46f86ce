/** The values the calculator computes with and the callables its default
    operator table applies to them, restricted to integers. */
module Values {
  import opened Results

  /** A pending value: an integer, the None that a symbol table's `get` yields
      for a missing name, or a callable. A callable is modelled as a finite
      partial function on integers: calling it outside its domain fails. */
  datatype Value = Num(n: int) | NoneValue | Fn(graph: map<int, int>)

  /** The callables that can stand in an operator's argument list: the
      calculator's interpreter chain and the actions of the default table. */
  datatype Callable =
    | Interpret
    | Assign
    | Eq | Le | Ge | Ne | Lt | Gt
    | Add | Sub | Mul | TrueDiv | Pow
    | ApplyOrMul
    | GetItem
    | Scale
    | Pos | Neg

  /** How many positional arguments each callable takes. */
  function Arity(f: Callable): nat {
    match f
    case Interpret | Scale | Pos | Neg => 1
    case _ => 2
  }

  function Power(b: int, e: nat): int {
    if e == 0 then 1 else b * Power(b, e - 1)
  }

  /** A comparison result; the source's bool is an int subclass equal to 1 or 0. */
  function Truth(b: bool): Value {
    Num(if b then 1 else 0)
  }

  /** True division on integers. Its result is a float in the source even when
      the quotient is whole (6/3 is 2.0, and a large quotient is rounded), which
      this model does not represent; only division by zero is an error of its own. */
  function Divide(a: int, b: int): (r: Result<Value>)
    ensures r.Err?
    ensures r.error == ZeroDivision <==> b == 0
  {
    if b == 0 then Err(ZeroDivision) else Err(Unmodelled)
  }

  /** Integer exponentiation; a negative exponent yields a float in the source. */
  function Exponent(b: int, e: int): (r: Result<Value>)
    ensures r.Ok? <==> e >= 0
    ensures r.Ok? ==> r == Ok(Num(Power(b, e)))
    ensures e < 0 && b == 0 ==> r == Err(ZeroDivision)
  {
    if e >= 0 then Ok(Num(Power(b, e)))
    else if b == 0 then Err(ZeroDivision)
    else Err(Unmodelled)
  }

  /** The adjacency action: call the left value on the right one when it is
      callable, and otherwise fall back to multiplying them. */
  function ApplyOrMultiply(left: Value, right: Value): (r: Result<Value>)
    ensures r.Ok? <==> right.Num? && (left.Num? || (left.Fn? && right.n in left.graph))
    ensures r.Ok? && left.Fn? ==> r.value == Num(left.graph[right.n])
    ensures r.Ok? && left.Num? ==> r.value == Num(left.n * right.n)
    ensures r.Err? ==> r.error == TypeError
  {
    match left
    case Fn(g) =>
      // a failed call falls back to multiplication, which a callable does not support
      if right.Num? && right.n in g then Ok(Num(g[right.n])) else Err(TypeError)
    case Num(a) =>
      // an integer is not callable, so the product is taken
      if right.Num? then Ok(Num(a * right.n)) else Err(TypeError)
    case NoneValue => Err(TypeError)
  }

  /** The one-argument callables: the prefix signs, the percent scaling and the
      interpreter chain, which takes a token and not a value. */
  function Unary(f: Callable, x: Value): (r: Result<Value>)
    requires Arity(f) == 1
    ensures r.Ok? ==> x.Num? && f in {Pos, Neg}
    ensures f == Pos && x.Num? ==> r == Ok(x)
    ensures f == Neg && x.Num? ==> r == Ok(Num(-x.n))
    ensures !x.Num? && f != Interpret ==> r == Err(TypeError)
  {
    match f
    case Pos => if x.Num? then Ok(x) else Err(TypeError)
    case Neg => if x.Num? then Ok(Num(-x.n)) else Err(TypeError)
    case Scale => if x.Num? then Err(Unmodelled) else Err(TypeError)  // x * 0.01 is a float
    case Interpret => Err(Unmodelled)  // the interpreter chain applied to a value, not a token
  }

  /** The ordering comparisons, defined on integers only. */
  function Compare(f: Callable, a: Value, b: Value): (r: Result<Value>)
    requires f in {Le, Ge, Lt, Gt}
    ensures r.Ok? <==> a.Num? && b.Num?
    ensures r.Err? ==> r.error == TypeError
    ensures r.Ok? ==> (r.value == Num(1) || r.value == Num(0))
    ensures r.Ok? ==> (r.value == Num(1) <==>
                       (f == Le && a.n <= b.n) || (f == Ge && a.n >= b.n) || (f == Lt && a.n < b.n) || (f == Gt && a.n > b.n))
  {
    if !(a.Num? && b.Num?) then Err(TypeError)
    else match f
      case Le => Ok(Truth(a.n <= b.n))
      case Ge => Ok(Truth(a.n >= b.n))
      case Lt => Ok(Truth(a.n < b.n))
      case Gt => Ok(Truth(a.n > b.n))
  }

  /** The two-argument callables of the default table. */
  function Binary(f: Callable, a: Value, b: Value): (r: Result<Value>)
    requires Arity(f) == 2
    ensures f in {Add, Sub, Mul, TrueDiv, Pow, Le, Ge, Lt, Gt} && !(a.Num? && b.Num?) ==> r == Err(TypeError)
    ensures f in {Assign, GetItem} ==> r == Err(TypeError)
    ensures f in {Eq, Ne} && !(a.Fn? && b.Fn?) ==> r == Ok(Truth((a == b) == (f == Eq)))
    ensures f == TrueDiv ==> r.Err?
    ensures f == ApplyOrMul ==> r == ApplyOrMultiply(a, b)
  {
    match f
    case Assign => Err(TypeError)   // no value of this model has an `assign` method
    case Eq => if a.Fn? && b.Fn? then Err(Unmodelled) else Ok(Truth(a == b))
    case Ne => if a.Fn? && b.Fn? then Err(Unmodelled) else Ok(Truth(a != b))
    case Le => Compare(f, a, b)
    case Ge => Compare(f, a, b)
    case Lt => Compare(f, a, b)
    case Gt => Compare(f, a, b)
    case Add => if a.Num? && b.Num? then Ok(Num(a.n + b.n)) else Err(TypeError)
    case Sub => if a.Num? && b.Num? then Ok(Num(a.n - b.n)) else Err(TypeError)
    case Mul => if a.Num? && b.Num? then Ok(Num(a.n * b.n)) else Err(TypeError)
    case TrueDiv => if a.Num? && b.Num? then Divide(a.n, b.n) else Err(TypeError)
    case Pow => if a.Num? && b.Num? then Exponent(a.n, b.n) else Err(TypeError)
    case ApplyOrMul => ApplyOrMultiply(a, b)
    case GetItem => Err(TypeError)  // integers, None and the modelled callables are not subscriptable
  }

  /** Calling a callable with positional arguments; a wrong argument count is a TypeError. */
  function Call(f: Callable, args: seq<Value>): (r: Result<Value>)
    ensures |args| != Arity(f) ==> r == Err(TypeError)
    ensures r.Ok? && f in {Add, Sub, Mul} ==> args[0].Num? && args[1].Num? && r.value.Num?
    ensures r.Ok? && f == Add ==> r.value.n == args[0].n + args[1].n
    ensures r.Ok? && f == Sub ==> r.value.n == args[0].n - args[1].n
    ensures r.Ok? && f == Mul ==> r.value.n == args[0].n * args[1].n
    ensures r.Ok? && f == Neg ==> args[0].Num? && r.value == Num(-args[0].n)
  {
    if |args| != Arity(f) then Err(TypeError)
    else if Arity(f) == 1 then Unary(f, args[0])
    else Binary(f, args[0], args[1])
  }

  /** The integer arithmetic of the default table on two integers. */
  lemma ArithmeticCall(f: Callable, x: int, y: int)
    requires f in {Add, Sub, Mul}
    ensures Call(f, [Num(x)] + [Num(y)]) == Ok(Num(if f == Add then x + y else if f == Sub then x - y else x * y))
  {
    assert [Num(x)] + [Num(y)] == [Num(x), Num(y)];
  }

  /** Raising an integer to a non-negative integer power. */
  lemma PowerCall(x: int, y: nat)
    ensures Call(Pow, [Num(x)] + [Num(y)]) == Ok(Num(Power(x, y)))
  {
    assert [Num(x)] + [Num(y)] == [Num(x), Num(y)];
  }

  /** Negating and keeping the sign of an integer. */
  lemma SignCall(f: Callable, x: int)
    requires f in {Pos, Neg}
    ensures Call(f, [] + [Num(x)]) == Ok(Num(if f == Pos then x else -x))
  {
    assert [] + [Num(x)] == [Num(x)];
  }
}
