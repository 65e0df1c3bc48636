/** The acceleration estimate of `finalize`: a least-squares line v = a t through the
    origin, fitted to the filtered samples' times and speeds. */
module Regression {
  import opened Wrappers

  /** Fewer filtered samples than this and no fit is attempted. */
  const MinSamples: nat := 3

  /** The outcome of the fit: not attempted, or attempted with an estimate that is None
      (NaN) when the times of the usable samples are all zero. */
  datatype Fit = Insufficient | Attempted(aEst: Option<real>)

  /** Sum of t * v over the first n samples whose speed is a number. */
  function SumTV(T: seq<real>, V: seq<Option<real>>, n: nat): real
    requires n <= |T| == |V|
  {
    if n == 0 then 0.0
    else SumTV(T, V, n - 1) + (if V[n - 1].Some? then T[n - 1] * V[n - 1].value else 0.0)
  }

  /** Sum of t * t over the first n samples whose speed is a number. */
  function SumTT(T: seq<real>, V: seq<Option<real>>, n: nat): real
    requires n <= |T| == |V|
  {
    if n == 0 then 0.0
    else SumTT(T, V, n - 1) + (if V[n - 1].Some? then T[n - 1] * T[n - 1] else 0.0)
  }

  /** The fit the samples call for: none below three samples, else the slope that solves the
      normal equation a * sum(t t) = sum(t v), or None when sum(t t) is zero. */
  function FitOf(T: seq<real>, V: seq<Option<real>>): (r: Fit)
    requires |T| == |V|
    ensures r.Insufficient? <==> |T| < MinSamples
    ensures r.Attempted? ==> (r.aEst.None? <==> SumTT(T, V, |T|) == 0.0)
    ensures r.Attempted? && r.aEst.Some? ==> r.aEst.value * SumTT(T, V, |T|) == SumTV(T, V, |T|)
  {
    if |T| < MinSamples then Insufficient
    else
      var num, den := SumTV(T, V, |T|), SumTT(T, V, |T|);
      if den == 0.0 then Attempted(None) else Attempted(Some(num / den))
  }

  /** The regression loop of `finalize` over times T and speeds V (None where a speed is not
      a number). */
  method Finalize(T: seq<real>, V: seq<Option<real>>) returns (fit: Fit)
    requires |T| == |V|
    ensures fit == FitOf(T, V)
  {
    if |T| < MinSamples {
      return Insufficient;
    }
    var num, den := 0.0, 0.0;
    var i := 0;
    while i < |T|
      invariant 0 <= i <= |T|
      invariant num == SumTV(T, V, i) && den == SumTT(T, V, i)
    {
      if V[i].Some? {
        num := num + T[i] * V[i].value;
        den := den + T[i] * T[i];
      }
      i := i + 1;
    }
    var aEst := if den != 0.0 then Some(num / den) else None;
    fit := Attempted(aEst);
  }

  /** The sum of squares is never negative. */
  lemma {:induction false} SumTTNonNegative(T: seq<real>, V: seq<Option<real>>, n: nat)
    requires n <= |T| == |V|
    ensures SumTT(T, V, n) >= 0.0
  {
    if n > 0 {
      SumTTNonNegative(T, V, n - 1);
      SquareSign(T[n - 1]);
    }
  }

  lemma SquareSign(x: real)
    ensures x * x >= 0.0
  {
  }

  /** Adding a product of two numbers of the same sign to a non-negative sum gives a
      positive sum. */
  lemma AddProductPositive(a: real, b: real, c: real, s: real)
    requires (a > 0.0 && b > 0.0) || (a < 0.0 && b < 0.0)
    requires c >= 0.0 && s == c + a * b
    ensures s > 0.0
  {
  }

  /** One usable sample at a non-zero time makes the sum of squares positive. */
  lemma {:induction false} SumTTPositiveAt(T: seq<real>, V: seq<Option<real>>, n: nat, k: nat)
    requires n <= |T| == |V| && k < n && V[k].Some? && T[k] != 0.0
    ensures SumTT(T, V, n) > 0.0
  {
    if k == n - 1 {
      SumTTNonNegative(T, V, n - 1);
      AddProductPositive(T[k], T[k], SumTT(T, V, n - 1), SumTT(T, V, n));
    } else {
      SumTTPositiveAt(T, V, n - 1, k);
      SquareSign(T[n - 1]);
    }
  }

  /** When every usable sample has time zero, the sum of squares is zero. */
  lemma {:induction false} SumTTZeroAll(T: seq<real>, V: seq<Option<real>>, n: nat)
    requires n <= |T| == |V|
    requires forall i :: 0 <= i < n && V[i].Some? ==> T[i] == 0.0
    ensures SumTT(T, V, n) == 0.0
  {
    if n > 0 {
      SumTTZeroAll(T, V, n - 1);
    }
  }

  /** The sum of squares is never negative, and it is zero exactly when every usable sample
      has time zero. */
  lemma SumTTZeroIff(T: seq<real>, V: seq<Option<real>>, n: nat)
    requires n <= |T| == |V|
    ensures SumTT(T, V, n) >= 0.0
    ensures SumTT(T, V, n) == 0.0 <==> forall i :: 0 <= i < n && V[i].Some? ==> T[i] == 0.0
  {
    SumTTNonNegative(T, V, n);
    if forall i :: 0 <= i < n && V[i].Some? ==> T[i] == 0.0 {
      SumTTZeroAll(T, V, n);
    } else {
      var k :| 0 <= k < n && V[k].Some? && T[k] != 0.0;
      SumTTPositiveAt(T, V, n, k);
    }
  }

  /** On speeds exactly proportional to time, sum(t v) is a times sum(t t). */
  lemma {:induction false} ProportionalSums(T: seq<real>, V: seq<Option<real>>, a: real, n: nat)
    requires n <= |T| == |V|
    requires forall i :: 0 <= i < |T| ==> V[i] == Some(a * T[i])
    ensures SumTV(T, V, n) == a * SumTT(T, V, n)
  {
    if n > 0 {
      ProportionalSums(T, V, a, n - 1);
      assert T[n - 1] * (a * T[n - 1]) == a * (T[n - 1] * T[n - 1]);
    }
  }

  /** Samples on an exact line v = a t, with at least three samples and one at a non-zero
      time, give back exactly a. */
  lemma ExactRecovery(T: seq<real>, V: seq<Option<real>>, a: real)
    requires |T| == |V| && |T| >= MinSamples
    requires forall i :: 0 <= i < |T| ==> V[i] == Some(a * T[i])
    requires exists i :: 0 <= i < |T| && T[i] != 0.0
    ensures FitOf(T, V) == Attempted(Some(a))
  {
    SumTTZeroIff(T, V, |T|);
    ProportionalSums(T, V, a, |T|);
    var den := SumTT(T, V, |T|);
    assert den != 0.0;
    assert SumTV(T, V, |T|) / den == a;
  }

  /** Sum of squared residuals of the line v = b t over the first n usable samples. */
  function Residual(T: seq<real>, V: seq<Option<real>>, b: real, n: nat): real
    requires n <= |T| == |V|
  {
    if n == 0 then 0.0
    else Residual(T, V, b, n - 1) + (if V[n - 1].Some? then (V[n - 1].value - b * T[n - 1]) * (V[n - 1].value - b * T[n - 1]) else 0.0)
  }

  /** Sum of v * v over the first n usable samples. */
  function SumVV(T: seq<real>, V: seq<Option<real>>, n: nat): real
    requires n <= |T| == |V|
  {
    if n == 0 then 0.0
    else SumVV(T, V, n - 1) + (if V[n - 1].Some? then V[n - 1].value * V[n - 1].value else 0.0)
  }

  /** The quadratic c - 2 b p + b^2 q in the slope b. */
  function Quad(c: real, p: real, q: real, b: real): real
  {
    c - 2.0 * b * p + b * b * q
  }

  /** The residual expands into the three sums. */
  lemma {:induction false} ResidualExpands(T: seq<real>, V: seq<Option<real>>, b: real, n: nat)
    requires n <= |T| == |V|
    ensures Residual(T, V, b, n) == Quad(SumVV(T, V, n), SumTV(T, V, n), SumTT(T, V, n), b)
  {
    if n > 0 {
      ResidualExpands(T, V, b, n - 1);
      ResidualStep(T, V, b, n);
    }
  }

  /** The inductive step of `ResidualExpands`, with the expansion for n - 1 samples given. */
  lemma ResidualStep(T: seq<real>, V: seq<Option<real>>, b: real, n: nat)
    requires 0 < n <= |T| == |V|
    requires Residual(T, V, b, n - 1) == Quad(SumVV(T, V, n - 1), SumTV(T, V, n - 1), SumTT(T, V, n - 1), b)
    ensures Residual(T, V, b, n) == Quad(SumVV(T, V, n), SumTV(T, V, n), SumTT(T, V, n), b)
  {
    if V[n - 1].Some? {
      ExpandStep(Residual(T, V, b, n - 1), SumVV(T, V, n - 1), SumTV(T, V, n - 1), SumTT(T, V, n - 1),
                 Residual(T, V, b, n), SumVV(T, V, n), SumTV(T, V, n), SumTT(T, V, n),
                 V[n - 1].value, T[n - 1], b);
    }
  }

  /** One usable sample added to all four sums keeps the expansion. */
  lemma ExpandStep(r: real, c: real, p: real, q: real, r': real, c': real, p': real, q': real,
                   v: real, t: real, b: real)
    requires r == Quad(c, p, q, b)
    requires r' == r + (v - b * t) * (v - b * t)
    requires c' == c + v * v && p' == p + t * v && q' == q + t * t
    ensures r' == Quad(c', p', q', b)
  {
    assert (v - b * t) * (v - b * t) == v * v - 2.0 * b * (t * v) + b * b * (t * t);
    assert 2.0 * b * p' == 2.0 * b * p + 2.0 * b * (t * v);
    assert b * b * q' == b * b * q + b * b * (t * t);
  }

  /** The estimate is the least-squares slope: no line through the origin fits the usable
      samples with a smaller sum of squared residuals. */
  lemma EstimateMinimisesResidual(T: seq<real>, V: seq<Option<real>>, b: real)
    requires |T| == |V| && FitOf(T, V).Attempted? && FitOf(T, V).aEst.Some?
    ensures Residual(T, V, FitOf(T, V).aEst.value, |T|) <= Residual(T, V, b, |T|)
  {
    var a := FitOf(T, V).aEst.value;
    var n := |T|;
    ResidualExpands(T, V, a, n);
    ResidualExpands(T, V, b, n);
    SumTTZeroIff(T, V, n);
    QuadraticMinimum(SumVV(T, V, n), SumTV(T, V, n), SumTT(T, V, n), a, b);
  }

  /** c - 2 x p + x^2 q is smallest at x = p / q when q > 0. */
  lemma QuadraticMinimum(c: real, p: real, q: real, a: real, b: real)
    requires q > 0.0 && a * q == p
    ensures Quad(c, p, q, a) <= Quad(c, p, q, b)
  {
    assert Quad(c, p, q, b) - Quad(c, p, q, a) == q * ((b - a) * (b - a));
    SquareSign(b - a);
  }
}
