/**
 * Shared vocabulary: an Option type and the number semantics of the
 * JavaScript and Python code modelled here, over unbounded reals.
 */
module Common {

  datatype Option<+T> = None | Some(value: T) {
    function GetOr(default: T): T {
      match this
      case Some(v) => v
      case None => default
    }
  }

  function Min(a: real, b: real): real {
    if a <= b then a else b
  }

  function Max(a: real, b: real): real {
    if a >= b then a else b
  }

  function Abs(x: real): real {
    if x < 0.0 then -x else x
  }

  /** Math.max(lo, Math.min(hi, x)). */
  function Clamp(lo: real, hi: real, x: real): (r: real)
    requires lo <= hi
    ensures lo <= r <= hi
    ensures lo <= x <= hi ==> r == x
    ensures x < lo ==> r == lo
    ensures x > hi ==> r == hi
  {
    Max(lo, Min(hi, x))
  }

  /** JavaScript `x || d` for a number that is never NaN: 0 is falsy. */
  function OrDefault(x: real, d: real): real {
    if x == 0.0 then d else x
  }

  /** The sum of a list of numbers. */
  function Sum(xs: seq<real>): real {
    if xs == [] then 0.0 else xs[0] + Sum(xs[1..])
  }

  lemma SumAppend(a: seq<real>, b: seq<real>)
    ensures Sum(a + b) == Sum(a) + Sum(b)
  {
    if a != [] {
      assert (a + b)[1..] == a[1..] + b;
      SumAppend(a[1..], b);
    } else {
      assert a + b == b;
    }
  }

  lemma SumSix(a: real, b: real, c: real, d: real, e: real, f: real)
    ensures Sum([a, b, c, d, e, f]) == a + b + c + d + e + f
  {
    assert [a, b, c, d, e, f][1..] == [b, c, d, e, f];
    assert [b, c, d, e, f][1..] == [c, d, e, f];
    assert [c, d, e, f][1..] == [d, e, f];
    assert [d, e, f][1..] == [e, f];
    assert [e, f][1..] == [f];
    assert [f][1..] == [];
    assert Sum([f]) == f;
    assert Sum([e, f]) == e + f;
    assert Sum([d, e, f]) == d + e + f;
    assert Sum([c, d, e, f]) == c + d + e + f;
    assert Sum([b, c, d, e, f]) == b + c + d + e + f;
  }

  /** JavaScript truthiness of a nullable number: null and 0 are falsy. */
  predicate Truthy(o: Option<real>) {
    o.Some? && o.value != 0.0
  }

  /** JavaScript `o || d` for a nullable number. */
  function OrElse(o: Option<real>, d: real): real {
    if Truthy(o) then o.value else d
  }

  /** JavaScript `o ?? d`: only null falls back. */
  function Nullish(o: Option<real>, d: real): real {
    if o.Some? then o.value else d
  }

  /** JavaScript Math.round: the nearest integer, halves rounded up. */
  function Round(x: real): (r: int)
    ensures r as real - 0.5 <= x < r as real + 0.5
  {
    (x + 0.5).Floor
  }

  /** Math.ceil. */
  function Ceil(x: real): (r: int)
    ensures x <= r as real < x + 1.0
  {
    -((-x).Floor)
  }

  lemma RoundMonotone(x: real, y: real)
    requires x <= y
    ensures Round(x) <= Round(y)
  {
  }

  lemma RoundOfInt(n: int)
    ensures Round(n as real) == n
  {
  }

  /** Rounding preserves a gap of at least one. */
  lemma RoundStrict(x: real, y: real)
    requires x + 1.0 <= y
    ensures Round(x) < Round(y)
  {
  }

  /** Rounding a non-negative value gives a non-negative integer. */
  lemma RoundNonNegative(x: real)
    requires 0.0 <= x
    ensures 0 <= Round(x)
  {
  }

  /** Python round(x, 1), with halves rounded up. */
  function Round1(x: real): (r: real)
    ensures x - 0.05 < r <= x + 0.05
  {
    var k := Round(10.0 * x);
    assert k as real - 0.5 <= 10.0 * x < k as real + 0.5;
    k as real / 10.0
  }

  /** A multiple of 0.1 that bounds x from above also bounds its rounding. */
  lemma Round1Below(x: real, cap: int)
    requires x <= cap as real / 10.0
    ensures Round1(x) <= cap as real / 10.0
  {
    RoundMonotone(10.0 * x, cap as real);
    RoundOfInt(cap);
  }

  lemma Round1Above(x: real, floor: int)
    requires floor as real / 10.0 <= x
    ensures floor as real / 10.0 <= Round1(x)
  {
    RoundMonotone(floor as real, 10.0 * x);
    RoundOfInt(floor);
  }

  /** Multiplying by a positive number keeps the order, strictly for a strict order. */
  lemma MulLess(a: real, b: real, c: real)
    requires a <= b && 0.0 < c
    ensures a * c <= b * c
    ensures a < b ==> a * c < b * c
  {
  }

  lemma MulNonNegative(x: real, y: real)
    requires 0.0 <= x && 0.0 <= y
    ensures 0.0 <= x * y
  {
  }

  /** A balance after one period at the given rate. */
  function Grown(balance: real, rate: real): real {
    balance * (1.0 + rate)
  }

  /** Growing a non-negative balance at a non-negative rate does not shrink it. */
  lemma GrowthNotLess(x: real, rate: real)
    requires 0.0 <= x && 0.0 <= rate
    ensures x <= Grown(x, rate)
  {
    MulNonNegative(x, rate);
  }
}
