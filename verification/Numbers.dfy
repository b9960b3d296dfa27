/** Exact comparison of integers with floats, integer division, and the integer `for` loop. */
module Numbers {
  import opened Basics

  const TWO_53 := 0x20_0000_0000_0000

  /** A double: what is not finite, or the real number it is. */
  datatype Float64 = NaN | PosInf | NegInf | Fin(r: real)

  datatype Number = Int(i: Int64) | Float(f: Float64)

  /** The bits of an integer as an unsigned word. */
  function Unsigned(x: int): nat {
    x % 0x1_0000_0000_0000_0000
  }

  // ---------------------------------------------------------------------- mathematical order

  /** The order of doubles, which is also what the machine's comparison says. */
  predicate Below(a: Float64, b: Float64) {
    match (a, b)
    case (NaN, _) => false
    case (_, NaN) => false
    case (Fin(x), Fin(y)) => x < y
    case (NegInf, _) => !b.NegInf?
    case (_, NegInf) => false
    case (PosInf, _) => false
    case (_, PosInf) => true
  }

  ghost function Math(n: Number): Float64 {
    match n
    case Int(i) => Fin(i as real)
    case Float(f) => f
  }

  /** The order of the values as numbers; NaN is below and above nothing and equal to nothing. */
  ghost predicate MathLt(a: Number, b: Number) {
    Below(Math(a), Math(b))
  }

  ghost predicate MathEq(a: Number, b: Number) {
    Math(a) == Math(b) && !Math(a).NaN?
  }

  ghost predicate MathLe(a: Number, b: Number) {
    MathLt(a, b) || MathEq(a, b)
  }

  // ---------------------------------------------------------------------- conversion

  datatype Rounding = Eq | FloorMode | CeilMode

  /** `luaV_flttointeger`. The one sum in it is exact: a double that is no integer is small. */
  function FloatToInteger(n: Float64, mode: Rounding): Option<Int64> {
    if !n.Fin? then None
    else
      var f := n.r.Floor;
      if n.r != f as real && mode == Eq then None
      else
        var g := if n.r != f as real && mode == CeilMode then f + 1 else f;
        if INT_MIN <= g <= INT_MAX then Some(g) else None
  }

  /** What the conversion finds, if anything: the integer itself, the greatest not above, the least not
      below; and when it finds nothing. */
  lemma Converted(n: Float64, mode: Rounding)
    requires n.Fin?
    ensures match FloatToInteger(n, mode)
      case Some(i) =>
        (match mode
         case Eq => n.r == i as real
         case FloorMode => i as real <= n.r < (i + 1) as real
         case CeilMode => (i - 1) as real < n.r <= i as real)
      case None =>
        (match mode
         case Eq => n.r != n.r.Floor as real || !(INT_MIN <= n.r.Floor <= INT_MAX)
         case FloorMode => n.r < INT_MIN as real || n.r >= (INT_MAX + 1) as real
         case CeilMode => n.r <= (INT_MIN - 1) as real || n.r > INT_MAX as real)
  {

  }

  lemma FloorOf(i: int)
    ensures (i as real).Floor == i
  {
  }

  // ---------------------------------------------------------------------- comparisons

  /** An integer up to 2^53 in magnitude is a double as it is. */
  predicate FitsFloat(i: Int64) {
    Unsigned(TWO_53 + Unsigned(i)) <= 2 * TWO_53
  }

  lemma FitsIs(i: Int64)
    ensures FitsFloat(i) <==> -TWO_53 <= i <= TWO_53
  {
  }

  predicate FloatLe(a: Float64, b: Float64) {
    Below(a, b) || (a == b && !a.NaN?)
  }

  const ZERO := Fin(0.0)

  predicate LtIntFloat(i: Int64, f: Float64) {
    if FitsFloat(i) then Below(Fin(i as real), f)
    else
      match FloatToInteger(f, CeilMode)
      case Some(fi) => i < fi
      case None => Below(ZERO, f)
  }

  predicate LeIntFloat(i: Int64, f: Float64) {
    if FitsFloat(i) then FloatLe(Fin(i as real), f)
    else
      match FloatToInteger(f, FloorMode)
      case Some(fi) => i <= fi
      case None => Below(ZERO, f)
  }

  predicate LtFloatInt(f: Float64, i: Int64) {
    if FitsFloat(i) then Below(f, Fin(i as real))
    else
      match FloatToInteger(f, FloorMode)
      case Some(fi) => fi < i
      case None => Below(f, ZERO)
  }

  predicate LeFloatInt(f: Float64, i: Int64) {
    if FitsFloat(i) then FloatLe(f, Fin(i as real))
    else
      match FloatToInteger(f, CeilMode)
      case Some(fi) => fi <= i
      case None => Below(f, ZERO)
  }

  /** `LTnum`. */
  predicate LtNum(l: Number, r: Number) {
    match (l, r)
    case (Int(a), Int(b)) => a < b
    case (Int(a), Float(b)) => LtIntFloat(a, b)
    case (Float(a), Float(b)) => Below(a, b)
    case (Float(a), Int(b)) => LtFloatInt(a, b)
  }

  /** `LEnum`. */
  predicate LeNum(l: Number, r: Number) {
    match (l, r)
    case (Int(a), Int(b)) => a <= b
    case (Int(a), Float(b)) => LeIntFloat(a, b)
    case (Float(a), Float(b)) => FloatLe(a, b)
    case (Float(a), Int(b)) => LeFloatInt(a, b)
  }

  /** `luaV_tointegerns` without rounding. */
  function ToInteger(n: Number): Option<Int64> {
    match n
    case Int(i) => Some(i)
    case Float(f) => FloatToInteger(f, Eq)
  }

  /** `eq_num`, which is called for an integer and a float. */
  predicate EqNum(a: Number, b: Number) {
    match (ToInteger(a), ToInteger(b))
    case (Some(i), Some(j)) => i == j
    case _ => false
  }

  lemma MixedLt(i: Int64, f: Float64)
    ensures LtIntFloat(i, f) <==> MathLt(Int(i), Float(f))
    ensures LtFloatInt(f, i) <==> MathLt(Float(f), Int(i))
  {
    if f.Fin? {
      Converted(f, CeilMode);
      Converted(f, FloorMode);
    }
  }

  lemma MixedLe(i: Int64, f: Float64)
    ensures LeIntFloat(i, f) <==> MathLe(Int(i), Float(f))
    ensures LeFloatInt(f, i) <==> MathLe(Float(f), Int(i))
  {
    if f.Fin? {
      Converted(f, CeilMode);
      Converted(f, FloorMode);
    }
  }

  /** Comparison is exact for every mix of integers and floats. */
  lemma Exact(a: Number, b: Number)
    ensures LtNum(a, b) <==> MathLt(a, b)
    ensures LeNum(a, b) <==> MathLe(a, b)
    ensures a.Int? != b.Int? ==> (EqNum(a, b) <==> MathEq(a, b))
  {
    match (a, b)
    case (Int(i), Float(f)) =>
      MixedLt(i, f);
      MixedLe(i, f);
      EqExact(i, f);
    case (Float(f), Int(i)) =>
      MixedLt(i, f);
      MixedLe(i, f);
      EqExact(i, f);
    case _ =>
  }

  lemma EqExact(i: Int64, f: Float64)
    ensures EqNum(Int(i), Float(f)) <==> MathEq(Int(i), Float(f))
    ensures EqNum(Float(f), Int(i)) <==> MathEq(Float(f), Int(i))
  {
    FloorOf(i);
    if f.Fin? {
      Converted(f, Eq);
    }
  }

  ghost predicate IsNaN(n: Number) {
    n == Float(NaN)
  }

  /** On numbers other than NaN `<` is a strict weak order, whose ties are the numbers that are equal, and
      `<=` is its complement turned around; with NaN every comparison is false. */
  lemma OrderLaws(a: Number, b: Number, c: Number)
    ensures !LtNum(a, a)
    ensures LtNum(a, b) && LtNum(b, c) ==> LtNum(a, c)
    ensures !IsNaN(a) && !IsNaN(b) && !IsNaN(c) && !LtNum(a, b) && !LtNum(b, c) ==> !LtNum(a, c)
    ensures !IsNaN(a) && !IsNaN(b) ==> (!LtNum(a, b) && !LtNum(b, a) <==> MathEq(a, b))
    ensures !IsNaN(a) && !IsNaN(b) ==> (LeNum(a, b) <==> !LtNum(b, a))
    ensures IsNaN(a) || IsNaN(b) ==> !LtNum(a, b) && !LeNum(a, b)
  {
    hide LtNum, LeNum, EqNum;
    Exact(a, a);
    Exact(a, b);
    Exact(b, a);
    Exact(b, c);
    Exact(a, c);
  }

  // ---------------------------------------------------------------------- integer division

  /** The quotient and remainder of machine division, which cuts towards zero. */
  function Quot(m: int, n: int): int
    requires n != 0
  {
    if m >= 0 then m / n else -((-m) / n)
  }

  function Rem(m: int, n: int): int
    requires n != 0
  {
    m - Quot(m, n) * n
  }

  /** The integer with the given bits. */
  function Signed(x: nat): int {
    var y := x % 0x1_0000_0000_0000_0000;
    if y > INT_MAX then y - 0x1_0000_0000_0000_0000 else y
  }

  /** `luaV_idiv`; None for a zero divisor. The test for signs that differ is one on m ^ n. */
  function IDiv(m: Int64, n: Int64): Option<int> {
    if Unsigned(Unsigned(n) + 1) <= 1 then
      if n == 0 then None else Some(Signed(Unsigned(0 - Unsigned(m))))
    else
      var q := Quot(m, n);
      Some(if (m < 0) != (n < 0) && Rem(m, n) != 0 then q - 1 else q)
  }

  /** `luaV_mod`. */
  function Mod(m: Int64, n: Int64): Option<int> {
    if Unsigned(Unsigned(n) + 1) <= 1 then
      if n == 0 then None else Some(0)
    else
      var r := Rem(m, n);
      Some(if r != 0 && (r < 0) != (n < 0) then r + n else r)
  }

  lemma QuotIs(m: int, n: int)
    requires n != 0
    ensures Rem(m, n) == 0 || (Rem(m, n) < 0) == (m < 0)
    ensures -(if n < 0 then -n else n) < Rem(m, n) < (if n < 0 then -n else n)
  {
    if m >= 0 {
      assert m == (m / n) * n + m % n;
    } else {
      assert -m == ((-m) / n) * n + (-m) % n;
      Negate((-m) / n, n);
    }
  }

  lemma Negate(q: int, n: int)
    ensures (-q) * n == -(q * n) && (q - 1) * n == q * n - n
  {
  }

  lemma QuotParts(a: int, n: int)
    requires n != 0
    ensures a == (a / n) * n + a % n && 0 <= a % n < if n < 0 then 0 - n else n
  {
  }

  lemma {:induction false} MulAtLeast(a: nat, b: nat, c: nat)
    requires b >= c
    ensures a * b >= a * c
  {
    if a > 0 {
      MulAtLeast(a - 1, b, c);
      assert a * b == (a - 1) * b + b && a * c == (a - 1) * c + c;
    }
  }

  lemma Bounded(a: nat, p: int, n: nat, r: int)
    requires a == p * n + r && 0 <= r < n && n >= 2
    ensures 0 <= 2 * p <= a
  {
    if p < 0 {
      MulAtLeast(n, -p, 1);
      StepBack(n, p);
    } else {
      MulAtLeast(p, n, 2);
    }
  }

  /** The quotient is no larger than the dividend, and smaller unless the divisor is 1. */
  lemma QuotBound(m: int, n: int)
    requires n != 0 && n != -1
    ensures n == 1 ==> Quot(m, n) == m && Rem(m, n) == 0
    ensures n != 1 ==> -(if m < 0 then -m else m) <= 2 * Quot(m, n) <= (if m < 0 then -m else m)
  {
    var a: nat := if m < 0 then 0 - m else m;
    QuotParts(a, n);
    var q := a / n;
    if n > 1 {
      Bounded(a, q, n, a % n);
    } else if n < -1 {
      StepBack(q, n);
      Negate(q, -n);
      Bounded(a, -q, -n, a % n);
    }
  }

  lemma RemIs(m: int, n: int)
    requires n != 0
    ensures Quot(m, n) * n + Rem(m, n) == m
  {
  }

  /** Division is floored and the remainder has the sign of the divisor: q * n + r is m but for the one
      quotient that does not fit, which wraps to the least integer. */
  lemma FloorDivision(m: Int64, n: Int64)
    ensures n == 0 ==> IDiv(m, n) == None && Mod(m, n) == None
    ensures n != 0 ==>
      && IDiv(m, n).Some? && Mod(m, n).Some?
      && var q, r := IDiv(m, n).value, Mod(m, n).value;
         && INT_MIN <= q <= INT_MAX && INT_MIN <= r <= INT_MAX
         && (if n > 0 then 0 <= r < n else n < r <= 0)
         && if m == INT_MIN && n == -1 then q == INT_MIN && r == 0 else q * n + r == m
  {
    hide Quot, Rem;
    MinusOne(n);
    if n == -1 {
      assert 0 <= Unsigned(m) && Signed(Unsigned(0 - Unsigned(m))) == if m == INT_MIN then INT_MIN else -m;
    } else if n != 0 {
      FloorRest(m, n, Quot(m, n), Rem(m, n));
    }
  }

  /** The correction of a quotient that was cut towards zero. */
  lemma FloorRest(m: Int64, n: Int64, q: int, r: int)
    requires n != 0 && n != -1 && q == Quot(m, n) && r == Rem(m, n)
    ensures var fix := r != 0 && (m < 0) != (n < 0);
      && fix == (r != 0 && (r < 0) != (n < 0))
      && var q', r' := if fix then q - 1 else q, if fix then r + n else r;
         INT_MIN <= q' <= INT_MAX && (if n > 0 then 0 <= r' < n else n < r' <= 0) && q' * n + r' == m
  {
    QuotIs(m, n);
    QuotBound(m, n);
    RemIs(m, n);
    Negate(q, n);
    hide Quot, Rem;
  }

  lemma MinusOne(n: Int64)
    ensures Unsigned(Unsigned(n) + 1) <= 1 <==> n == 0 || n == -1
  {
  }

  // ---------------------------------------------------------------------- the integer loop

  /** An index of the loop that is within the limit. */
  ghost predicate Within(index: int, limit: Number, step: int) {
    && INT_MIN <= index <= INT_MAX
    && if step > 0 then MathLe(Int(index), limit) else MathLe(limit, Int(index))
  }

  /** `forlimit`: whether the loop is to be skipped, and the limit as an integer. */
  function ForLimit(init: Int64, lim: Number, step: Int64): (bool, Int64)
    requires step != 0
  {
    var rounded := match lim
      case Int(i) => Some(i)
      case Float(f) => FloatToInteger(f, if step < 0 then CeilMode else FloorMode);
    match rounded
    case Some(p) => (if step > 0 then init > p else init < p, p)
    case None =>
      if Below(ZERO, lim.f) then
        if step < 0 then (true, 0) else (init > INT_MAX, INT_MAX)
      else
        if step > 0 then (true, 0) else (init < INT_MIN, INT_MIN)
  }

  /** What a limit counts as: NaN as minus infinity, which is right unless the loop goes down. */
  function Treated(lim: Number): Number {
    if lim.Float? && lim.f.NaN? then Float(NegInf) else lim
  }

  /** The integer limit stands for the given one. */
  lemma LimitIs(init: Int64, lim: Number, step: Int64)
    requires step != 0
    ensures var (skip, p) := ForLimit(init, lim, step);
      && skip == !Within(init, Treated(lim), step)
      && (!skip ==> forall index: int :: Within(index, Treated(lim), step) <==>
            INT_MIN <= index <= INT_MAX && if step > 0 then index <= p else p <= index)
  {
    if lim.Float? && lim.f.Fin? {
      Converted(lim.f, if step < 0 then CeilMode else FloorMode);
    }
  }

  /** The loop is skipped exactly if its first index is out of the limit, unless the limit is NaN and the step is
      negative: no index is within NaN, and yet that loop is not skipped. */
  lemma SkipsRight(init: Int64, lim: Number, step: Int64)
    requires step != 0
    ensures (ForLimit(init, lim, step).0 <==> !Within(init, lim, step)) <==> !(IsNaN(lim) && step < 0)
  {
    LimitIs(init, lim, step);
  }

  datatype Prepared = ZeroStep | Skip | Loop(count: nat)

  /** `forprep` on integers: how often the loop runs again after the first time. */
  method ForPrep(init: Int64, lim: Number, step: Int64) returns (r: Prepared)
    ensures r == ZeroStep <==> step == 0
    ensures step != 0 ==> (r == Skip <==> !Within(init, Treated(lim), step))
    ensures step != 0 && r.Loop? ==>
      && r.count < 0x1_0000_0000_0000_0000
      && forall k: nat {:trigger Index(init, step, k)} ::
           k <= r.count <==> Within(Index(init, step, k), Treated(lim), step)
  {
    hide Unsigned, ForLimit, Within, Index, Treated;
    if step == 0 {
      return ZeroStep;
    }
    var (skip, limit) := ForLimit(init, lim, step);
    LimitIs(init, lim, step);
    if skip {
      return Skip;
    }
    LimitStarts(init, lim, step);
    var count := Count(init, limit, step);
    r := Loop(count);
  }

  /** The division of the distance by the step, as unsigned numbers: the negation of the least step is
      computed in two parts so as not to overflow. It counts the steps that stay within the limit. */
  method Count(init: Int64, limit: Int64, step: Int64) returns (count: nat)
    requires step != 0 && Distance(init, limit, step) >= 0
    ensures count < 0x1_0000_0000_0000_0000
    ensures forall k: nat {:trigger Index(init, step, k)} ::
      k <= count <==> INT_MIN <= Index(init, step, k) <= INT_MAX
                      && if step > 0 then Index(init, step, k) <= limit else limit <= Index(init, step, k)
  {
    hide Unsigned, Index;
    DistanceBits(init, limit, step);
    if step > 0 {
      count := Unsigned(Unsigned(limit) - Unsigned(init));
      DivLe(count, step);
      if step != 1 {
        count := count / step;
      }
    } else {
      count := Unsigned(Unsigned(init) - Unsigned(limit));
      DivLe(count, 0 - step);
      count := count / Unsigned(Unsigned(-(step + 1)) + 1);
    }
    forall k: nat
      ensures k <= count <==> INT_MIN <= Index(init, step, k) <= INT_MAX
                              && if step > 0 then Index(init, step, k) <= limit else limit <= Index(init, step, k)
    {
      CountIs(init, limit, step, k);
    }
  }

  lemma LimitStarts(init: Int64, lim: Number, step: Int64)
    requires step != 0
    ensures !ForLimit(init, lim, step).0 ==> Distance(init, ForLimit(init, lim, step).1, step) >= 0
  {
  }

  lemma DivLe(x: nat, s: nat)
    requires s > 0
    ensures 0 <= x / s <= x
  {
    var q := x / s;
    assert x == q * s + x % s;
    Multiples(x, s, 0);
    MulAtLeast(q, s, 1);
  }

  function Index(init: int, step: int, k: nat): int {
    init + k * step
  }

  function Distance(init: int, limit: int, step: int): int {
    if step > 0 then limit - init else init - limit
  }

  lemma CountIs(init: Int64, limit: Int64, step: int, k: nat)
    requires INT_MIN <= step <= INT_MAX && step != 0 && Distance(init, limit, step) >= 0
    ensures var count := if step > 0 then Unsigned(Unsigned(limit) - Unsigned(init)) / step
                         else Unsigned(Unsigned(init) - Unsigned(limit)) / Unsigned(Unsigned(-(step + 1)) + 1);
      k <= count <==> INT_MIN <= Index(init, step, k) <= INT_MAX
                      && if step > 0 then Index(init, step, k) <= limit else limit <= Index(init, step, k)
  {
    hide Unsigned;
    var d: nat := Distance(init, limit, step);
    var s: nat := if step > 0 then step else -step;
    DistanceBits(init, limit, step);
    Multiples(d, s, k);
    StepBack(k, step);
  }

  lemma StepBack(k: int, step: int)
    ensures k * step == -(k * -step)
  {
  }

  lemma DistanceBits(init: Int64, limit: Int64, step: int)
    requires INT_MIN <= step <= INT_MAX && step != 0 && Distance(init, limit, step) >= 0
    ensures step > 0 ==> Unsigned(Unsigned(limit) - Unsigned(init)) == limit - init
    ensures step < 0 ==> Unsigned(Unsigned(init) - Unsigned(limit)) == init - limit
    ensures step < 0 ==> Unsigned(Unsigned(-(step + 1)) + 1) == -step
  {
  }

  lemma Multiples(d: nat, s: nat, k: nat)
    requires s > 0
    ensures k <= d / s <==> k * s <= d
    ensures k * s >= 0
  {
    var q := d / s;
    assert d == q * s + d % s;
    if k <= q {
      assert k * s <= q * s;
    } else {
      assert k * s >= (q + 1) * s;
    }
  }
}
