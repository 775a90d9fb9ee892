/**
 * Vocabulary shared by both converter calculators: the conduction mode, an
 * optional value, a plotted waveform as two breakpoint lists, and the
 * element-wise list operations the calculators borrow from numpy.
 */
module Common {

  /** Continuous or discontinuous conduction of the inductor current. */
  datatype Mode = Ccm | Dcm

  datatype Option<T> = None | Some(value: T)

  /** Value both calculators give a component (and the buck-boost current
      bounds) before the sizing step for it runs. */
  const Placeholder: real := 1.0

  /** A waveform as handed to the charting library: breakpoint times `x` and
      the value `y[i]` the quantity takes at time `x[i]`. */
  datatype Wave = Wave(x: seq<real>, y: seq<real>)

  /** `s` with the scalar `c` subtracted from every element
      (numpy's `array(s) - c`). */
  function Minus(s: seq<real>, c: real): (r: seq<real>)
    ensures |r| == |s|
    ensures forall i :: 0 <= i < |s| ==> r[i] == s[i] - c
  {
    if s == [] then [] else [s[0] - c] + Minus(s[1..], c)
  }

  /** `n` copies of `c` (numpy's `ones(n) * c`). */
  function Filled(n: nat, c: real): (r: seq<real>)
    ensures |r| == n
    ensures forall i :: 0 <= i < n ==> r[i] == c
  {
    if n == 0 then [] else [c] + Filled(n - 1, c)
  }

  /** `m` is the largest element of `s`. */
  predicate IsMax(m: real, s: seq<real>) {
    && (forall i :: 0 <= i < |s| ==> s[i] <= m)
    && (exists i :: 0 <= i < |s| && s[i] == m)
  }

  /** `m` is the smallest element of `s`. */
  predicate IsMin(m: real, s: seq<real>) {
    && (forall i :: 0 <= i < |s| ==> m <= s[i])
    && (exists i :: 0 <= i < |s| && s[i] == m)
  }

  /** The values repeat every `p` entries: one switching period later the
      list shows the same value again. */
  predicate RepeatsAfter(y: seq<real>, p: nat) {
    forall i :: 0 <= i && i + p < |y| ==> y[i + p] == y[i]
  }

  /** From entry `from` on, the time `p` entries later is exactly one period
      `t` later. */
  predicate ShiftsAfter(x: seq<real>, p: nat, t: real, from: nat) {
    forall i :: from <= i && i + p < |x| ==> x[i + p] == x[i] + t
  }

  /** Strictly increasing breakpoint times. */
  predicate Ascending(x: seq<real>) {
    forall i :: 0 <= i && i + 1 < |x| ==> x[i] < x[i + 1]
  }

  /** The law of a storage element between two breakpoints, k dy = u dt:
      for an inductor, inductance `k`, current from `y0` to `y1` under the
      voltage level `u`; for a capacitor, capacitance `k`, voltage from `y0`
      to `y1` under the current level `u`; time runs from `t0` to `t1`. */
  predicate StorageLaw(k: real, y0: real, y1: real, u: real, t0: real, t1: real) {
    k * (y1 - y0) == u * (t1 - t0)
  }

  /** The integral over [t0, t1] of the square of the straight segment from
      `y0` at `t0` to `y1` at `t1`: one drawn segment's share of a
      waveform's mean square. */
  function SegmentSquare(y0: real, y1: real, t0: real, t1: real): real {
    (t1 - t0) * (y0 * y0 + y0 * y1 + y1 * y1) / 3.0
  }

  /** A segment centred on `m` with rise `delta` squares to more than the
      flat level `m` by delta^2 / 12 per unit time. */
  lemma RampSquare(lo: real, hi: real, m: real, delta: real, t0: real, t1: real)
    requires hi - lo == delta && hi + lo == 2.0 * m
    ensures SegmentSquare(lo, hi, t0, t1) == (t1 - t0) * (m * m + delta * delta / 12.0)
    ensures SegmentSquare(m, m, t0, t1) == (t1 - t0) * (m * m)
  {
    assert lo == m - delta / 2.0 && hi == m + delta / 2.0;
    assert lo * lo + lo * hi + hi * hi == 3.0 * (m * m) + delta * delta / 4.0;
  }

  /** The storage law is about values only: it carries over to any
      breakpoints holding the same values. */
  lemma StorageLawAt(k: real, y0: real, y1: real, u: real, t0: real, t1: real,
                     z0: real, z1: real, w: real, s0: real, s1: real)
    requires StorageLaw(k, z0, z1, w, s0, s1)
    requires y0 == z0 && y1 == z1 && u == w && t0 == s0 && t1 == s1
    ensures StorageLaw(k, y0, y1, u, t0, t1)
  {
  }

  /** Division facts over the reals, stated once so that the calculators'
      proofs can name the step they need. */
  lemma DivCancel(a: real, b: real)
    requires b != 0.0
    ensures a / b * b == a
    ensures b * (a / b) == a
  {
  }

  lemma DivPositive(a: real, b: real)
    requires a > 0.0 && b > 0.0
    ensures a / b > 0.0
  {
  }

  lemma ProductPositive(a: real, b: real)
    requires a > 0.0 && b > 0.0
    ensures a * b > 0.0
  {
  }

  lemma CancelFactor(a: real, x: real, y: real)
    requires a != 0.0 && a * x == a * y
    ensures x == y
  {
  }

  lemma DivBelowOne(a: real, b: real)
    requires 0.0 < a < b
    ensures a / b < 1.0
  {
    DivCancel(a, b);
    if a / b >= 1.0 {
      assert false;
    }
  }

  lemma DivByProduct(a: real, b: real, c: real)
    requires b != 0.0
    ensures a / b == c <==> a == c * b
  {
  }

  lemma ScaleCancel(a: real, b: real, c: real)
    requires b != 0.0
    ensures b * (a / b * c) == a * c
  {
    DivCancel(a, b);
    assert b * (a / b * c) == (b * (a / b)) * c;
  }
}
