/**
 * The pieces of Python number semantics the runtimes lean on: truthiness of an
 * optional float (`if v`, `x or y`, `all([...])`), counting readings, and
 * `round(x, d)`.
 */
module PyNumbers {
  import opened Wrappers

  /** Python truthiness of an optional reading: `None` and `0.0` are both falsy. */
  predicate Truthy(x: Option<real>) {
    x.Some? && x.value != 0.0
  }

  /** `x is not None`: a present `0.0` counts. */
  predicate IsPresent(x: Option<real>) {
    x.Some?
  }

  /** Python `x or default` on an optional float. */
  function OrElse(x: Option<real>, default: real): real {
    if Truthy(x) then x.value else default
  }

  /** Python `x or default` on an optional int. */
  function IntOrElse(x: Option<int>, default: int): int {
    if x.Some? && x.value != 0 then x.value else default
  }

  function Abs(x: real): real {
    if x < 0.0 then -x else x
  }

  function Bit(b: bool): nat {
    if b then 1 else 0
  }

  /** `sum(1 for v in xs if p(v))`. */
  function Count(xs: seq<Option<real>>, p: Option<real> -> bool): nat {
    if xs == [] then 0 else Bit(p(xs[0])) + Count(xs[1..], p)
  }

  lemma {:induction false} CountBounds(xs: seq<Option<real>>, p: Option<real> -> bool)
    ensures Count(xs, p) <= |xs|
    ensures Count(xs, p) == |xs| <==> forall i :: 0 <= i < |xs| ==> p(xs[i])
    ensures Count(xs, p) == 0 <==> forall i :: 0 <= i < |xs| ==> !p(xs[i])
  {
    if xs != [] {
      CountBounds(xs[1..], p);
      assert forall i :: 1 <= i < |xs| ==> xs[1..][i - 1] == xs[i];
      if forall i :: 0 <= i < |xs| ==> p(xs[i]) {
        assert forall i :: 0 <= i < |xs[1..]| ==> p(xs[1..][i]) by {
          forall i | 0 <= i < |xs[1..]| ensures p(xs[1..][i]) { assert xs[1..][i] == xs[i + 1]; }
        }
      }
      if forall i :: 0 <= i < |xs| ==> !p(xs[i]) {
        assert forall i :: 0 <= i < |xs[1..]| ==> !p(xs[1..][i]) by {
          forall i | 0 <= i < |xs[1..]| ensures !p(xs[1..][i]) { assert xs[1..][i] == xs[i + 1]; }
        }
      }
    }
  }

  lemma {:induction false} Count3(a: Option<real>, b: Option<real>, c: Option<real>, p: Option<real> -> bool)
    ensures Count([a, b, c], p) == Bit(p(a)) + Bit(p(b)) + Bit(p(c))
  {
    assert [a, b, c][1..] == [b, c];
    assert [b, c][1..] == [c];
    assert [c][1..] == [];
    assert Count([c], p) == Bit(p(c)) + Count([], p);
    assert Count([b, c], p) == Bit(p(b)) + Count([c], p);
    assert Count([a, b, c], p) == Bit(p(a)) + Count([b, c], p);
  }

  lemma {:induction false} Count4(a: Option<real>, b: Option<real>, c: Option<real>, d: Option<real>, p: Option<real> -> bool)
    ensures Count([a, b, c, d], p) == Bit(p(a)) + Bit(p(b)) + Bit(p(c)) + Bit(p(d))
  {
    assert [a, b, c, d][1..] == [b, c, d];
    assert Count([a, b, c, d], p) == Bit(p(a)) + Count([b, c, d], p);
    Count3(b, c, d, p);
  }

  /**
   * Python's `round` to an integer: nearest, ties to the even neighbour.
   * The model applies it to the exact real value; CPython applies it to the
   * binary double, which can differ only at a decimal tie that is not a double.
   */
  function RoundHalfEven(y: real): int {
    var n := y.Floor;
    var f := y - n as real;
    if f > 0.5 then n + 1
    else if f < 0.5 then n
    else if n % 2 == 0 then n
    else n + 1
  }

  /** `round(x, 2)`. */
  function Round2(x: real): real {
    RoundHalfEven(x * 100.0) as real / 100.0
  }

  /** `round(x, 3)`. */
  function Round3(x: real): real {
    RoundHalfEven(x * 1000.0) as real / 1000.0
  }

  lemma RoundHalfEvenWithinHalf(y: real)
    ensures y - 0.5 <= RoundHalfEven(y) as real <= y + 0.5
  {
  }

  lemma RoundHalfEvenMonotone(y1: real, y2: real)
    requires y1 <= y2
    ensures RoundHalfEven(y1) <= RoundHalfEven(y2)
  {
    var n1, n2 := y1.Floor, y2.Floor;
    assert n1 <= n2;
    if n1 < n2 {
      assert RoundHalfEven(y1) <= n1 + 1 <= n2 <= RoundHalfEven(y2);
    }
  }

  lemma RoundHalfEvenOfInt(y: real, k: int)
    requires y == k as real
    ensures RoundHalfEven(y) == k
  {
    assert y.Floor == k;
  }

  /** Rounding to three decimals never reorders two values. */
  lemma Round3Monotone(x1: real, x2: real)
    requires x1 <= x2
    ensures Round3(x1) <= Round3(x2)
  {
    RoundHalfEvenMonotone(x1 * 1000.0, x2 * 1000.0);
  }

  /** Rounding to two decimals never reorders two values. */
  lemma Round2Monotone(x1: real, x2: real)
    requires x1 <= x2
    ensures Round2(x1) <= Round2(x2)
  {
    RoundHalfEvenMonotone(x1 * 100.0, x2 * 100.0);
  }

  /** A value already on the 0.001 grid is left unchanged by `round(x, 3)`. */
  lemma Round3OnGrid(k: int)
    ensures Round3(k as real / 1000.0) == k as real / 1000.0
  {
    RoundHalfEvenOfInt(k as real / 1000.0 * 1000.0, k);
  }

  /** A value already on the 0.01 grid is left unchanged by `round(x, 2)`. */
  lemma Round2OnGrid(k: int)
    ensures Round2(k as real / 100.0) == k as real / 100.0
  {
    RoundHalfEvenOfInt(k as real / 100.0 * 100.0, k);
  }

  /** `round(round(x, 3), 3) == round(x, 3)`. */
  lemma Round3Idempotent(x: real)
    ensures Round3(Round3(x)) == Round3(x)
  {
    Round3OnGrid(RoundHalfEven(x * 1000.0));
  }

  /** `round(x, 3)` is within half a unit of the third decimal. */
  lemma Round3Error(x: real)
    ensures Abs(Round3(x) - x) <= 0.0005
  {
    RoundHalfEvenWithinHalf(x * 1000.0);
  }
}
