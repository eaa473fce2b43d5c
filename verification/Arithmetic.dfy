/**
 Integer arithmetic of component_expression (Component.c), which converts both operands to double,
 computes in double and converts back.  A double operation yields a binary64 value nearest to the
 exact result (section 4.3 of IEEE 754); converting a double to an integer type truncates, and is
 undefined when the truncated value does not fit (section 6.3.1.4 of ISO/IEC 9899:1999).
 */
module Arithmetic {
  import opened Wrappers

  // ----- binary64 -----

  const MANTISSA: int := 0x20_0000_0000_0000

  function Pow(k: nat): (p: real)
    ensures p >= 1.0
  {
    if k == 0 then 1.0 else 2.0 * Pow(k - 1)
  }

  /** A finite binary64 value: a 53-bit integer scaled by a power of two in range. */
  ghost predicate Double(y: real) {
    exists m: int, k: nat :: DoubleAs(y, m, k)
  }

  predicate DoubleAs(y: real, m: int, k: nat) {
    -MANTISSA < m < MANTISSA && ((k <= 971 && y == Times(m, k)) || (k <= 1074 && y == Over(m, k)))
  }

  function Times(m: int, k: nat): real { m as real * Pow(k) }

  function Over(m: int, k: nat): real { m as real / Pow(k) }

  function Abs(x: real): (r: real)
    ensures r >= 0.0
  {
    if x < 0.0 then -x else x
  }

  ghost predicate Nearest(x: real, d: real) {
    Double(d) && forall z: real | Double(z) :: Abs(x - d) <= Abs(x - z)
  }

  lemma WholeDouble(n: int)
    requires -MANTISSA < n < MANTISSA
    ensures Double(n as real)
  {
    assert DoubleAs(n as real, n, 0);
  }

  /** A value that is itself a double is the only double nearest to it. */
  lemma ExactNearest(x: real, d: real)
    requires Double(x) && Nearest(x, d)
    ensures d == x
  {
    assert Abs(x - d) <= Abs(x - x);
  }

  lemma NegatedDouble(y: real)
    requires Double(y)
    ensures Double(-y)
  {
    var m: int, k: nat :| DoubleAs(y, m, k);
    NegatedScaled(m, k);
    hide Times, Over;
    assert DoubleAs(-y, -m, k);
  }

  lemma NegatedScaled(m: int, k: nat)
    ensures Times(-m, k) == -Times(m, k) && Over(-m, k) == -Over(m, k)
  {
    hide Pow;
    var x, p := m as real, Pow(k);
    assert (-m) as real == -x;
    assert (-x) * p == -(x * p);
    assert (-x) / p == -(x / p);
  }

  lemma NegatedNearest(x: real, d: real)
    requires Nearest(x, d)
    ensures Nearest(-x, -d)
  {
    NegatedDouble(d);
    forall z: real | Double(z)
      ensures Abs(-x - -d) <= Abs(-x - z)
    {
      NegatedDouble(z);
      assert Abs(x - d) <= Abs(x - -z);
    }
  }

  /** Rounding never crosses a double. */
  lemma NearestAbove(x: real, d: real, z: real)
    requires Nearest(x, d) && Double(z) && z <= x
    ensures z <= d
  {
    assert Abs(x - d) <= Abs(x - z);
  }

  lemma NearestBelow(x: real, d: real, z: real)
    requires Nearest(x, d) && Double(z) && x <= z
    ensures d <= z
  {
    assert Abs(x - d) <= Abs(x - z);
  }

  // ----- a nearest double exists -----

  ghost function Doubles(): (s: set<real>) {
    (set m: int, k: nat | -MANTISSA < m < MANTISSA && 0 <= k <= 971 :: Times(m, k)) +
    (set m: int, k: nat | -MANTISSA < m < MANTISSA && 0 <= k <= 1074 :: Over(m, k))
  }

  lemma DoublesIn(y: real)
    ensures y in Doubles() <==> Double(y)
  {
    hide Times, Over;
    if y in Doubles() {
      var m: int, k: nat :| -MANTISSA < m < MANTISSA &&
          ((k <= 971 && y == Times(m, k)) || (k <= 1074 && y == Over(m, k)));
      assert DoubleAs(y, m, k);
    }
    if Double(y) {
      var m: int, k: nat :| DoubleAs(y, m, k);
    }
  }

  lemma {:induction false} ClosestIn(x: real, s: set<real>) returns (d: real)
    requires exists z :: z in s
    ensures d in s && forall z | z in s :: Abs(x - d) <= Abs(x - z)
    decreases |s|
  {
    d :| d in s;
    var first := d;
    var rest := s - {first};
    if exists z :: z in rest {
      var e := ClosestIn(x, rest);
      if Abs(x - e) < Abs(x - first) { d := e; }
    }
    forall z | z in s ensures Abs(x - d) <= Abs(x - z) { assert z == first || z in rest; }
  }

  lemma NearestExists(x: real) returns (d: real)
    ensures Nearest(x, d)
  {
    WholeDouble(0);
    DoublesIn(0.0);
    d := ClosestIn(x, Doubles());
    DoublesIn(d);
    forall z: real | Double(z) ensures Abs(x - d) <= Abs(x - z) { DoublesIn(z); }
  }

  // ----- the operations -----

  /** The integer types of the machine; a byte is a signed char. */
  datatype Kind = IntKind | UnsignedKind | ByteKind

  datatype Num = Num(kind: Kind, value: int)

  predicate Fits(kind: Kind, n: int) {
    match kind
    case IntKind => -0x8000_0000 <= n < 0x8000_0000
    case UnsignedKind => 0 <= n < 0x1_0000_0000
    case ByteKind => -128 <= n < 128
  }

  predicate Proper(x: Num) { Fits(x.kind, x.value) }

  /** Unsigned if either operand is, else int if either is, else byte. */
  function ResultKind(x: Num, y: Num): Kind {
    if x.kind == UnsignedKind || y.kind == UnsignedKind then UnsignedKind
    else if x.kind == IntKind || y.kind == IntKind then IntKind
    else ByteKind
  }

  datatype Op = Add | Sub | Mul | Div

  /** The exact value that the double operation approximates. */
  function Exact(op: Op, a: int, b: int): real
    requires op == Div ==> b != 0
  {
    match op
    case Add => a as real + b as real
    case Sub => a as real - b as real
    case Mul => a as real * b as real
    case Div => a as real / b as real
  }

  function Trunc(x: real): int {
    if x >= 0.0 then x.Floor else -((-x).Floor)
  }

  /** The conversion of a double to an integer type; None is undefined behaviour. */
  function Convert(kind: Kind, d: real): Option<Num> {
    if Fits(kind, Trunc(d)) then Some(Num(kind, Trunc(d))) else None
  }

  /** What the machine's operation may yield.  Division by zero gives an infinity or a NaN, whose conversion
      is undefined. */
  ghost predicate Yields(op: Op, x: Num, y: Num, r: Option<Num>) {
    if op == Div && y.value == 0 then r.None?
    else exists d :: Nearest(Exact(op, x.value, y.value), d) && r == Convert(ResultKind(x, y), d)
  }

  /** Integer division that truncates toward zero (section 6.5.5 of ISO/IEC 9899:1999). */
  function Quotient(a: int, b: int): int
    requires b != 0
  {
    var q := AbsInt(a) / AbsInt(b);
    if (a < 0) == (b < 0) then q else -q
  }

  function Remainder(a: int, b: int): int
    requires b != 0
  {
    if a < 0 then -(AbsInt(a) % AbsInt(b)) else AbsInt(a) % AbsInt(b)
  }

  function AbsInt(n: int): nat { if n < 0 then -n else n }

  /** The integer that the operation is meant to compute. */
  function Intended(op: Op, a: int, b: int): int
    requires op == Div ==> b != 0
  {
    match op
    case Add => a + b
    case Sub => a - b
    case Mul => a * b
    case Div => Quotient(a, b)
  }

  // ----- doubles compute integers -----

  lemma TruncWhole(n: int)
    ensures Trunc(n as real) == n
  {
    if n < 0 { assert -(n as real) == (-n) as real; }
  }

  /** A rounded integer that fits in 33 bits is the integer; one that does not is rounded to no smaller. */
  lemma RoundedWhole(n: int, d: real)
    requires Nearest(n as real, d)
    ensures if -0x1_0000_0000 < n < 0x1_0000_0000 then Trunc(d) == n else AbsInt(Trunc(d)) >= 0x1_0000_0000
  {
    hide Nearest;
    if -0x1_0000_0000 < n < 0x1_0000_0000 {
      WholeDouble(n);
      ExactNearest(n as real, d);
      TruncWhole(n);
    } else if n > 0 {
      WholeDouble(0x1_0000_0000);
      NearestAbove(n as real, d, 0x1_0000_0000 as real);
    } else {
      WholeDouble(-0x1_0000_0000);
      NearestBelow(n as real, d, (-0x1_0000_0000) as real);
    }
  }

  /** A power of two between b and its double. */
  lemma {:induction false} PowerAbove(b: nat) returns (k: nat, p: int)
    requires 0 < b
    ensures Pow(k) == p as real && b <= p < 2 * b && p > 0
  {
    if b == 1 {
      k, p := 0, 1;
    } else {
      k, p := PowerAbove((b + 1) / 2);
      if p < b { k, p := k + 1, 2 * p; }
    }
  }

  lemma {:induction false} PowGrows(j: nat, k: nat)
    requires j <= k
    ensures Pow(j) <= Pow(k)
    decreases k
  {
    if j < k { PowGrows(j, k - 1); }
  }

  lemma {:induction false} PowAdd(j: nat, k: nat)
    ensures Pow(j + k) == Pow(j) * Pow(k)
  {
    if j > 0 { PowAdd(j - 1, k); }
  }

  lemma PowForty()
    ensures Pow(40) == 0x100_0000_0000 as real
  {
    assert Pow(5) == 32.0;
    PowAdd(5, 5);
    PowAdd(10, 10);
    PowAdd(20, 20);
  }

  /** The largest value below n + 1 that a quotient by b can take is at most a double below n + 1. */
  lemma DoubleBelow(n: nat, b: nat) returns (z: real)
    requires 0 < b <= 0x1_0000_0000 && (n + 1) * b <= 0x2_0000_0000
    ensures Double(z) && (n + 1) as real - 1.0 / b as real <= z < (n + 1) as real
  {
    var k, p := PowerAbove(b);
    SmallPower(k);
    hide Pow;
    var m := (n + 1) * p - 1;
    assert m < MANTISSA by {
      Product(n + 1, p, 2 * b);
      assert (n + 1) * (2 * b) == 2 * ((n + 1) * b);
    }
    assert m >= 0 by { Product2(n + 1, p); }
    z := Over(m, k);
    assert DoubleAs(z, m, k);
    ScaledBelow(n + 1, p, b);
  }

  lemma SmallPower(k: nat)
    requires Pow(k) <= 0x2_0000_0000 as real
    ensures k <= 40
  {
    if k > 40 {
      PowForty();
      PowGrows(40, k);
    }
  }

  lemma Product(x: nat, y: int, z: int)
    requires y <= z
    ensures x * y <= x * z
  {
  }

  lemma Product2(x: nat, y: int)
    requires x >= 1 && y >= 1
    ensures x * y >= 1
  {
  }

  lemma ScaledBelow(n: int, p: int, b: int)
    requires 0 < b <= p
    ensures n as real - 1.0 / b as real <= (n * p - 1) as real / p as real < n as real
  {
    var x, y := n as real, p as real;
    assert (n * p - 1) as real == x * y - 1.0;
    assert (x * y - 1.0) / y == x - 1.0 / y;
    assert 1.0 / y <= 1.0 / b as real;
  }

  lemma QuotientBetween(a: nat, b: nat, n: nat)
    requires 0 < b && b * n <= a < b * n + b
    ensures n as real <= a as real / b as real <= (n + 1) as real - 1.0 / b as real
  {
    var x, y, u := a as real, b as real, n as real;
    assert (b * n) as real == y * u;
    assert (y * u) / y == u;
    assert (y * u + y - 1.0) / y == u + 1.0 - 1.0 / y;
    Divided(y * u, x, y);
    Divided(x, y * u + y - 1.0, y);
  }

  lemma Divided(u: real, v: real, y: real)
    requires u <= v && y > 0.0
    ensures u / y <= v / y
  {
  }

  /** Truncating the rounded quotient of two naturals gives the integer quotient. */
  lemma RoundedQuotient(a: nat, b: nat, n: nat, d: real)
    requires 0 < b <= 0x1_0000_0000 && a <= 0x1_0000_0000 && b * n <= a < b * n + b
    requires Nearest(a as real / b as real, d)
    ensures d >= 0.0 && Trunc(d) == n
  {
    hide Nearest, Double, Trunc;
    QuotientBetween(a, b, n);
    Product(n, 1, b);
    WholeDouble(n);
    var x := a as real / b as real;
    assert (n + 1) * b == b * n + b;
    var z := DoubleBelow(n, b);
    RoundedBetween(x, d, n, z);
  }

  lemma RoundedBetween(x: real, d: real, n: nat, z: real)
    requires Nearest(x, d) && Double(n as real) && Double(z) && n as real <= x <= z < (n + 1) as real
    ensures d >= 0.0 && Trunc(d) == n
  {
    hide Nearest, Double;
    NearestAbove(x, d, n as real);
    NearestBelow(x, d, z);
  }

  lemma TruncNegated(d: real)
    ensures Trunc(-d) == -Trunc(d)
  {
    if d == 0.0 { assert -d == 0.0; }
  }

  lemma RatioSigns(u: real, v: real)
    requires v != 0.0
    ensures (-u) / v == -(u / v) && u / (-v) == -(u / v) && (-u) / (-v) == u / v
  {
  }

  lemma SignedRatio(a: int, b: int)
    requires b != 0
    ensures var x := AbsInt(a) as real / AbsInt(b) as real;
            a as real / b as real == if (a < 0) == (b < 0) then x else -x
  {
    RatioSigns(a as real, b as real);
    assert (-a) as real == -(a as real) && (-b) as real == -(b as real);
  }

  lemma QuotientOfNats(u: nat, v: nat) returns (n: nat)
    requires v > 0
    ensures n == u / v && v * n <= u < v * n + v
  {
    n := u / v;
  }

  lemma QuotientSigns(a: int, b: int, n: int)
    requires b != 0 && n == AbsInt(a) / AbsInt(b)
    ensures Quotient(a, b) == if (a < 0) == (b < 0) then n else -n
  {
  }

  /** The same for operands of either sign: the double route truncates toward zero. */
  lemma RoundedDivision(a: int, b: int, d: real)
    requires b != 0 && AbsInt(a) <= 0x1_0000_0000 && AbsInt(b) <= 0x1_0000_0000 && Nearest(a as real / b as real, d)
    ensures Trunc(d) == Quotient(a, b)
  {
    hide Nearest, Trunc, Quotient;
    var u, v := AbsInt(a), AbsInt(b);
    SignedRatio(a, b);
    var n := QuotientOfNats(u, v);
    QuotientSigns(a, b, n);
    NegatedNearest(a as real / b as real, d);
    TruncNegated(d);
    hide AbsInt;
    var x := u as real / v as real;
    if (a < 0) == (b < 0) {
      RoundedQuotient(u, v, n, d);
    } else {
      assert -(a as real / b as real) == x;
      RoundedQuotient(u, v, n, -d);
    }
  }

  lemma ExactWhole(op: Op, a: int, b: int)
    requires op != Div
    ensures Exact(op, a, b) == Intended(op, a, b) as real
  {
  }

  function Meant(op: Op, x: Num, y: Num): Option<Num> {
    if op == Div && y.value == 0 then None
    else if Fits(ResultKind(x, y), Intended(op, x.value, y.value))
      then Some(Num(ResultKind(x, y), Intended(op, x.value, y.value)))
    else None
  }

  lemma ConvertExact(op: Op, x: Num, y: Num, d: real)
    requires Proper(x) && Proper(y) && (op == Div ==> y.value != 0) && Nearest(Exact(op, x.value, y.value), d)
    ensures Convert(ResultKind(x, y), d) == Meant(op, x, y)
  {
    hide Nearest, Trunc, Exact, Quotient, ResultKind;
    var a, b := x.value, y.value;
    if op == Div {
      assert Exact(op, a, b) == a as real / b as real by { ExactRatio(a, b); }
      RoundedDivision(a, b, d);
    } else {
      ExactWhole(op, a, b);
      hide Intended;
      RoundedWhole(Intended(op, a, b), d);
    }
  }

  lemma ExactRatio(a: int, b: int)
    requires b != 0
    ensures Exact(Div, a, b) == a as real / b as real
  {
  }

  /** For all operands of every integer type, the result computed in doubles is the exact integer, the quotient
      truncated toward zero; it is undefined exactly when that integer does not fit the result type or the
      divisor is zero. */
  lemma ArithmeticIsExact(op: Op, x: Num, y: Num, r: Option<Num>)
    requires Proper(x) && Proper(y)
    ensures Yields(op, x, y, r) <==> r == Meant(op, x, y)
  {
    if !(op == Div && y.value == 0) {
      hide Nearest, Exact, Convert, Meant, ResultKind;
      var e := NearestExists(Exact(op, x.value, y.value));
      ConvertExact(op, x, y, e);
      forall d | Nearest(Exact(op, x.value, y.value), d)
        ensures Convert(ResultKind(x, y), d) == Meant(op, x, y)
      {
        ConvertExact(op, x, y, d);
      }
    }
  }

  /** MOD converts both operands to int first, so an unsigned operand above INT_MAX is undefined, as are a zero
      divisor and INT_MIN by -1; a negative remainder stored as unsigned wraps. */
  function Modulo(x: Num, y: Num): Option<Num> {
    var a, b := Convert(IntKind, x.value as real), Convert(IntKind, y.value as real);
    if a.None? || b.None? || b.value.value == 0 || (a.value.value == -0x8000_0000 && b.value.value == -1) then None
    else
      var r := Remainder(a.value.value, b.value.value);
      Some(Num(ResultKind(x, y), if ResultKind(x, y) == UnsignedKind && r < 0 then r + 0x1_0000_0000 else r))
  }

  lemma DivisionLaw(a: int, b: int)
    requires b != 0
    ensures a == Quotient(a, b) * b + Remainder(a, b) && AbsInt(Remainder(a, b)) < AbsInt(b)
    ensures Remainder(a, b) == 0 || (Remainder(a, b) < 0 <==> a < 0)
  {
    var u, v := AbsInt(a), AbsInt(b);
    var q: int, r: int := u / v, u % v;
    assert u == v * q + r;
    assert (-q) * v == -(q * v) && (-q) * (-v) == q * v && q * (-v) == -(q * v);
  }

  /** DIV and MOD of the same operands satisfy a == q * b + r with |r| < |b| and the sign of a, except exactly
      when a negative remainder is stored as unsigned: then the law holds modulo the word size only. */
  lemma DivModLaw(x: Num, y: Num, q: Num, r: Num)
    requires Proper(x) && Proper(y) && Yields(Div, x, y, Some(q)) && Modulo(x, y) == Some(r)
    ensures Proper(q) && Proper(r) && q.kind == r.kind
    ensures (x.value == q.value * y.value + r.value && AbsInt(r.value) < AbsInt(y.value)) <==>
            !(q.kind == UnsignedKind && x.value < 0)
    ensures q.kind == UnsignedKind && x.value < 0 ==>
            q.value == 0 && x.value + 0x1_0000_0000 == r.value
  {
    ArithmeticIsExact(Div, x, y, Some(q));
    TruncWhole(x.value);
    TruncWhole(y.value);
    DivisionLaw(x.value, y.value);
    hide Yields, Trunc, Quotient, Remainder;
    assert q.value == Quotient(x.value, y.value);
    if x.value < 0 && q.kind == UnsignedKind { UnsignedQuotient(x.value, y.value); }
  }

  lemma UnsignedQuotient(a: int, b: int)
    requires a < 0 < b && Quotient(a, b) >= 0
    ensures Quotient(a, b) == 0 && Remainder(a, b) == a
  {
    DivisionLaw(a, b);
  }
}
