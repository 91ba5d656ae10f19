/** The right-hand side of the coupled biomass (V) / temperature (T) /
    precipitation (P) model, shared by simulation.py and simulation_gif.py,
    and the time-windowed shock on gamma used by the export script. */
module Evaluator {

  /** np.exp on non-positive arguments, written as z |-> exp(-z) for z >= 0.
      Only the facts the model relies on are kept: the value lies in (0, 1]
      and exp(0) = 1. */
  type NegExp = f: real -> real | (forall z: real :: 0.0 <= z ==> 0.0 < f(z) <= 1.0) && f(0.0) == 1.0
    witness (z: real) => 1.0

  // Constants common to both scripts.
  const A: real := 2.0
  const B: real := 10.0
  const MeanTemp: real := 29.5
  const SigmaT: real := 2.0

  /** The state vector y = [V, T, P]. */
  datatype State = State(v: real, temp: real, prec: real)

  /** y0 = [V0, T0, P0]. */
  const Y0: State := State(10.0, 29.5, 300.0)

  /** The four rate coefficients the operator can change. */
  datatype Rates = Rates(alpha: real, beta: real, gamma: real, delta: real)

  /** What `model` returns: the derivative vector and the carrying capacity. */
  datatype Evaluation = Evaluation(dydt: State, vc: real)

  /** exp(-(T - mean_temp)^2 / (2 sigma_T^2)): the Gaussian temperature factor. */
  function GaussianFactor(e: NegExp, temp: real): (g: real)
    ensures 0.0 < g <= 1.0
    ensures temp == MeanTemp ==> g == 1.0
  {
    var d := temp - MeanTemp;
    assert 0.0 <= d * d / (2.0 * SigmaT * SigmaT);
    e(d * d / (2.0 * SigmaT * SigmaT))
  }

  /** Vc = b + P * g(T): never below the baseline b for non-negative
      precipitation, strictly above it for positive precipitation, and at
      most b + P. */
  function CarryingCapacity(e: NegExp, temp: real, prec: real): (vc: real)
    ensures 0.0 <= prec ==> B <= vc <= B + prec
    ensures 0.0 < prec ==> B < vc
    ensures prec == 0.0 ==> vc == B
    ensures temp == MeanTemp ==> vc == B + prec
  {
    var g := GaussianFactor(e, temp);
    MulSign(prec, g);
    MulSign(prec, 1.0 - g);
    assert prec * (1.0 - g) == prec - prec * g;
    B + prec * g
  }

  /** `model(t, y)` of simulation.py: logistic growth of V towards Vc and the
      predator-prey style coupling of T and P. The division by Vc needs a
      non-zero capacity. The model is at rest exactly when each component
      is (V = 0 or V = Vc, T = 0 or alpha = beta P, P = 0 or gamma T = delta),
      and with a positive capacity V moves towards Vc. */
  function Model(e: NegExp, r: Rates, y: State): (m: Evaluation)
    requires CarryingCapacity(e, y.temp, y.prec) != 0.0
    ensures 0.0 <= y.prec ==> B <= m.vc <= B + y.prec
    ensures m.dydt == State(0.0, 0.0, 0.0) <==>
      (y.v == 0.0 || y.v == m.vc) &&
      (y.temp == 0.0 || r.alpha == r.beta * y.prec) &&
      (y.prec == 0.0 || r.gamma * y.temp == r.delta)
    ensures 0.0 < m.vc ==> (0.0 < y.v < m.vc ==> 0.0 < m.dydt.v) && (m.vc < y.v ==> m.dydt.v < 0.0)
  {
    var vc := CarryingCapacity(e, y.temp, y.prec);
    Evaluation(
      State(LogisticRate(y.v, vc), TemperatureRate(r, y), PrecipitationRate(r, y)),
      vc)
  }

  /** a V (1 - V / Vc): zero exactly at V = 0 and at V = Vc; for a positive
      capacity, positive strictly between 0 and Vc and negative above Vc. */
  function LogisticRate(v: real, vc: real): (d: real)
    requires vc != 0.0
    ensures d == 0.0 <==> (v == 0.0 || v == vc)
    ensures 0.0 < vc ==> (0.0 < v < vc ==> 0.0 < d) && (vc < v ==> d < 0.0)
  {
    var q := v / vc;
    assert v == q * vc;
    assert q == 1.0 ==> v == 1.0 * vc;
    assert (q - 1.0) * vc == v - vc;
    ProductZero(q - 1.0, vc);
    ProductZero(A * v, 1.0 - q);
    ProductZero(A, v);
    MulSign(q - 1.0, vc);
    MulSign(A, v);
    MulSign(A * v, 1.0 - q);
    A * v * (1.0 - v / vc)
  }

  /** alpha T - beta T P = T (alpha - beta P): zero exactly at T = 0 or
      alpha = beta P. */
  function TemperatureRate(r: Rates, y: State): (d: real)
    ensures d == 0.0 <==> (y.temp == 0.0 || r.alpha == r.beta * y.prec)
  {
    assert r.alpha * y.temp - r.beta * y.temp * y.prec == y.temp * (r.alpha - r.beta * y.prec);
    ProductZero(y.temp, r.alpha - r.beta * y.prec);
    r.alpha * y.temp - r.beta * y.temp * y.prec
  }

  /** gamma T P - delta P = P (gamma T - delta): zero exactly at P = 0 or
      gamma T = delta. */
  function PrecipitationRate(r: Rates, y: State): (d: real)
    ensures d == 0.0 <==> (y.prec == 0.0 || r.gamma * y.temp == r.delta)
  {
    assert r.gamma * y.temp * y.prec - r.delta * y.prec == y.prec * (r.gamma * y.temp - r.delta);
    ProductZero(y.prec, r.gamma * y.temp - r.delta);
    r.gamma * y.temp * y.prec - r.delta * y.prec
  }

  /** At the initial state T0 equals mean_temp, so Vc = b + P0 = 310. */
  lemma InitialCapacity(e: NegExp)
    ensures CarryingCapacity(e, Y0.temp, Y0.prec) == 310.0
  {
  }

  /** The sign of a product of reals from the signs of its factors. */
  lemma MulSign(x: real, y: real)
    ensures 0.0 <= x && 0.0 <= y ==> 0.0 <= x * y
    ensures 0.0 < x && 0.0 < y ==> 0.0 < x * y
    ensures 0.0 < x && y < 0.0 ==> x * y < 0.0
    ensures x < 0.0 && 0.0 < y ==> x * y < 0.0
  {
  }

  /** A product of reals vanishes exactly when a factor does. */
  lemma ProductZero(x: real, y: real)
    ensures x * y == 0.0 <==> (x == 0.0 || y == 0.0)
  {
  }

  // The shock of simulation_gif.py: gamma is raised by 20% for 20 <= t <= 21.
  const ShockStart: real := 20.0
  const ShockEnd: real := 21.0
  const ShockFactor: real := 1.2

  /** gamma_curr: a local copy of gamma, scaled inside the closed window. */
  function EffectiveGamma(gamma: real, t: real): real
  {
    if ShockStart <= t <= ShockEnd then gamma * ShockFactor else gamma
  }

  /** `model(t, y)` of simulation_gif.py: the same formulas with gamma
      replaced by its effective value at time t. The shock only touches
      dP/dt: Vc, dV/dt and dT/dt agree with the undisturbed model at every
      time, outside the window the whole evaluation agrees, and inside it
      dP/dt = 1.2 gamma T P - delta P. */
  function DisturbedModel(e: NegExp, r: Rates, t: real, y: State): (d: Evaluation)
    requires CarryingCapacity(e, y.temp, y.prec) != 0.0
    ensures var m := Model(e, r, y);
      d.vc == m.vc && d.dydt.v == m.dydt.v && d.dydt.temp == m.dydt.temp &&
      (!(ShockStart <= t <= ShockEnd) ==> d == m) &&
      (ShockStart <= t <= ShockEnd ==> d.dydt.prec == 1.2 * r.gamma * y.temp * y.prec - r.delta * y.prec)
  {
    Model(e, r.(gamma := EffectiveGamma(r.gamma, t)), y)
  }

  /** A non-zero gamma is changed exactly inside the closed window [20, 21],
      where it is multiplied by 1.2. */
  lemma ShockWindow(gamma: real, t: real)
    requires gamma != 0.0
    ensures EffectiveGamma(gamma, t) != gamma <==> ShockStart <= t <= ShockEnd
    ensures ShockStart <= t <= ShockEnd ==> EffectiveGamma(gamma, t) == 1.2 * gamma
  {
    if ShockStart <= t <= ShockEnd {
      assert gamma * ShockFactor - gamma == 0.2 * gamma;
    }
  }
}
