/** `primeiraDerivada` and `segundaDerivada` (src/services/curvasService.js:8-23):
    backward finite differences anchored to the curve's own time axis. */
module Derivatives {

  /** One `{tempo, valor}` entry of a curve. */
  datatype Point = Point(tempo: real, valor: real)

  type Curve = seq<Point>

  function Times(c: Curve): (ts: seq<real>)
    ensures |ts| == |c| && forall i :: 0 <= i < |c| ==> ts[i] == c[i].tempo
  {
    seq(|c|, i requires 0 <= i < |c| => c[i].tempo)
  }

  function Values(c: Curve): (vs: seq<real>)
    ensures |vs| == |c| && forall i :: 0 <= i < |c| ==> vs[i] == c[i].valor
  {
    seq(|c|, i requires 0 <= i < |c| => c[i].valor)
  }

  /** Consecutive time codes differ, so every difference quotient is a real number. */
  predicate DistinctSteps(ts: seq<real>)
  {
    forall i :: 0 < i < |ts| ==> ts[i] != ts[i - 1]
  }

  /** Slope times time step: the change in reading that a slope accounts for. */
  function Rise(slope: real, dt: real): real
  {
    slope * dt
  }

  /** `dy / dt`: the slope whose rise over `dt` is `dy`. */
  function Slope(dy: real, dt: real): (s: real)
    requires dt != 0.0
    ensures Rise(s, dt) == dy
    ensures s == 0.0 <==> dy == 0.0
  {
    dy / dt
  }

  /** Every entry of `d` after the first, times its time step, is the rise of `ys`
      over that step. Stated step by step from the end, like `Integrate`. */
  predicate RisesMatch(ts: seq<real>, ys: seq<real>, d: seq<real>)
    requires |ts| == |ys| == |d|
    decreases |d|
  {
    |d| <= 1 ||
    (RisesMatch(ts[..|d| - 1], ys[..|d| - 1], d[..|d| - 1])
     && Rise(d[|d| - 1], ts[|d| - 1] - ts[|d| - 2]) == ys[|d| - 1] - ys[|d| - 2])
  }

  /** The `map` shared by both derivatives: entry 0 is 0, entry i the slope from
      point i-1 to point i. Built from the front, one point at a time. */
  function Differences(ts: seq<real>, ys: seq<real>): (d: seq<real>)
    requires |ts| == |ys| && DistinctSteps(ts)
    ensures |d| == |ys|
    ensures |d| > 0 ==> d[0] == 0.0
    ensures RisesMatch(ts, ys, d)
    decreases |ys|
  {
    var n := |ys|;
    if n == 0 then []
    else if n == 1 then [0.0]
    else Differences(ts[..n - 1], ys[..n - 1]) + [Slope(ys[n - 1] - ys[n - 2], ts[n - 1] - ts[n - 2])]
  }

  /** `primeiraDerivada(curva)`. */
  function FirstDerivative(c: Curve): (d: seq<real>)
    requires DistinctSteps(Times(c))
    ensures |d| == |c|
  {
    Differences(Times(c), Values(c))
  }

  /** `segundaDerivada(curva)`: the first derivative differenced again over the
      curve's time steps, not over the derivative's indices. */
  function SecondDerivative(c: Curve): (d: seq<real>)
    requires DistinctSteps(Times(c))
    ensures |d| == |c|
  {
    Differences(Times(c), FirstDerivative(c))
  }

  /** The inverse of `Differences`: start from `y0` and add slope times time step. */
  function Integrate(y0: real, ts: seq<real>, d: seq<real>): (ys: seq<real>)
    requires |ts| == |d| > 0
    ensures |ys| == |d| && ys[0] == y0
    decreases |d|
  {
    if |d| == 1 then [y0]
    else
      var prev := Integrate(y0, ts[..|ts| - 1], d[..|d| - 1]);
      prev + [prev[|prev| - 1] + Rise(d[|d| - 1], ts[|ts| - 1] - ts[|ts| - 2])]
  }

  lemma IntegrateLast(y0: real, ts: seq<real>, d: seq<real>)
    requires |ts| == |d| > 1
    ensures var prev := Integrate(y0, ts[..|ts| - 1], d[..|d| - 1]);
      Integrate(y0, ts, d) == prev + [prev[|d| - 2] + Rise(d[|d| - 1], ts[|ts| - 1] - ts[|ts| - 2])]
  {
  }

  /** Integrating slopes whose rises match `ys` gives `ys` back from its first reading. */
  lemma {:induction false} IntegrateRises(ts: seq<real>, ys: seq<real>, d: seq<real>)
    requires |ts| == |ys| == |d| > 0
    requires RisesMatch(ts, ys, d)
    ensures Integrate(ys[0], ts, d) == ys
    decreases |ys|
  {
    var n := |ys|;
    if n > 1 {
      var ts', ys', d' := ts[..n - 1], ys[..n - 1], d[..n - 1];
      assert RisesMatch(ts', ys', d');
      IntegrateRises(ts', ys', d');
      var prev := Integrate(ys[0], ts', d');
      var rise := Rise(d[n - 1], ts[n - 1] - ts[n - 2]);
      assert prev == ys' && rise == ys[n - 1] - ys[n - 2];
      IntegrateLast(ys[0], ts, d);
      assert Integrate(ys[0], ts, d) == ys' + [ys[n - 2] + rise];
      assert ys == ys' + [ys[n - 1]];
    }
  }

  /** Round trip: integrating the differences from the first reading gives the readings back. */
  lemma IntegrateDifferences(ts: seq<real>, ys: seq<real>)
    requires |ts| == |ys| > 0 && DistinctSteps(ts)
    ensures Integrate(ys[0], ts, Differences(ts, ys)) == ys
  {
    IntegrateRises(ts, ys, Differences(ts, ys));
  }

  /** The first derivative determines the curve's readings from its first reading. */
  lemma FirstDerivativeRoundTrip(c: Curve)
    requires |c| > 0 && DistinctSteps(Times(c))
    ensures Integrate(c[0].valor, Times(c), FirstDerivative(c)) == Values(c)
  {
    IntegrateDifferences(Times(c), Values(c));
  }

  /** The second derivative determines the first derivative, whose entry 0 is 0. */
  lemma SecondDerivativeRoundTrip(c: Curve)
    requires |c| > 0 && DistinctSteps(Times(c))
    ensures Integrate(0.0, Times(c), SecondDerivative(c)) == FirstDerivative(c)
  {
    IntegrateDifferences(Times(c), FirstDerivative(c));
  }

  /** Entry `i > 0` of matching slopes accounts for the rise from point i-1 to point i. */
  lemma {:induction false} RisesMatchAt(ts: seq<real>, ys: seq<real>, d: seq<real>, i: nat)
    requires |ts| == |ys| == |d| && RisesMatch(ts, ys, d) && 0 < i < |d|
    ensures Rise(d[i], ts[i] - ts[i - 1]) == ys[i] - ys[i - 1]
    decreases |d|
  {
    var n := |d|;
    if i < n - 1 {
      RisesMatchAt(ts[..n - 1], ys[..n - 1], d[..n - 1], i);
    }
  }

  /** Entry `i > 0` of `primeiraDerivada` is the difference quotient of the curve
      between points i-1 and i. */
  lemma FirstDerivativeAt(c: Curve, i: nat)
    requires DistinctSteps(Times(c)) && 0 < i < |c|
    ensures FirstDerivative(c)[i] == (c[i].valor - c[i - 1].valor) / (c[i].tempo - c[i - 1].tempo)
  {
    var ts, d := Times(c), FirstDerivative(c);
    RisesMatchAt(ts, Values(c), d, i);
    QuotientOfRise(d[i], c[i].valor - c[i - 1].valor, c[i].tempo - c[i - 1].tempo);
  }

  /** Entry `i > 0` of `segundaDerivada` is the difference quotient of the first
      derivative over the curve's own time step i-1 to i. */
  lemma SecondDerivativeAt(c: Curve, i: nat)
    requires DistinctSteps(Times(c)) && 0 < i < |c|
    ensures var d1 := FirstDerivative(c);
      SecondDerivative(c)[i] == (d1[i] - d1[i - 1]) / (c[i].tempo - c[i - 1].tempo)
  {
    var ts, d1, d2 := Times(c), FirstDerivative(c), SecondDerivative(c);
    RisesMatchAt(ts, d1, d2, i);
    QuotientOfRise(d2[i], d1[i] - d1[i - 1], c[i].tempo - c[i - 1].tempo);
  }

  lemma QuotientOfRise(s: real, dy: real, dt: real)
    requires dt != 0.0 && Rise(s, dt) == dy
    ensures s == dy / dt
  {
  }

  predicate Constant(ys: seq<real>)
  {
    forall i :: 0 <= i < |ys| ==> ys[i] == ys[0]
  }

  /** Slopes whose rises match are all zero exactly when the readings are constant. */
  lemma {:induction false} FlatIffConstant(ts: seq<real>, ys: seq<real>, d: seq<real>)
    requires |ts| == |ys| == |d| && DistinctSteps(ts) && RisesMatch(ts, ys, d)
    requires |d| > 0 ==> d[0] == 0.0
    ensures Constant(d) <==> Constant(ys)
    decreases |ys|
  {
    var n := |ys|;
    if n > 1 {
      var ts', ys', d' := ts[..n - 1], ys[..n - 1], d[..n - 1];
      FlatIffConstant(ts', ys', d');
      var dt := ts[n - 1] - ts[n - 2];
      assert Rise(d[n - 1], dt) == ys[n - 1] - ys[n - 2];
      ZeroRise(d[n - 1], dt);
      if Constant(d) {
        assert Constant(d');
      }
      if Constant(ys) {
        assert Constant(ys');
      }
    }
  }

  lemma ZeroRise(s: real, dt: real)
    requires dt != 0.0
    ensures Rise(s, dt) == 0.0 <==> s == 0.0
  {
  }

  /** A constant curve has both derivatives identically zero. */
  lemma ConstantCurveFlat(c: Curve)
    requires DistinctSteps(Times(c)) && Constant(Values(c))
    ensures forall i :: 0 <= i < |c| ==> FirstDerivative(c)[i] == 0.0
    ensures forall i :: 0 <= i < |c| ==> SecondDerivative(c)[i] == 0.0
  {
    FlatIffConstant(Times(c), Values(c), FirstDerivative(c));
    FlatIffConstant(Times(c), FirstDerivative(c), SecondDerivative(c));
  }
}
