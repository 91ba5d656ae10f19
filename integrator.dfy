/** The integrator session both scripts drive: scipy's RK45 object, seen
    from outside. Its stepping rule (Dormand-Prince error control, step-size
    choice, clamping at t_bound) is foreign code and is a parameter here;
    only its position, its configuration and two promises about `step` are
    modelled. */
module Integrator {
  import opened Evaluator
  import opened Series

  /** The right-hand side a session integrates: `model` of simulation.py
      under the given rates, or the disturbed `model` of simulation_gif.py. */
  datatype Field = Live(rates: Rates) | Disturbed(rates: Rates)

  /** The solver's adaptive step-size memory: none yet for a fresh session
      (RK45 derives its first step from t0, y0 and the right-hand side), or
      the step size the last step chose. */
  datatype StepMemory = Unchosen | Chosen(hAbs: real)

  /** An RK45 session: current t and y, t_bound, max_step, the right-hand
      side it was created with, and its step-size memory. */
  datatype Session = Session(t: real, y: State, tBound: real, maxStep: real,
                             field: Field, memory: StepMemory)

  /** RK45(fun, t0, y0, t_bound, max_step): a fresh session. */
  function Create(field: Field, t0: real, y0: State, tBound: real, maxStep: real): Session
  {
    Session(t0, y0, tBound, maxStep, field, Unchosen)
  }

  /** Where one call of `step` lands: the new t, the new y, the chosen step size. */
  datatype Advance = Advance(t: real, y: State, hAbs: real)

  /** The foreign stepping rule, with a bound on the number of steps a
      session still needs to reach its t_bound (RK45 refuses steps shorter
      than a few ulps of t, so it gets there in finitely many steps). */
  datatype Solver = Solver(advance: Session -> Advance, stepsLeft: Session -> nat)

  /** The session after the solver moved it to `a`. */
  function Land(s: Session, a: Advance): Session
  {
    s.(t := a.t, y := a.y, memory := Chosen(a.hAbs))
  }

  /** The promise taken about one step from a session still below its
      bound: t moves strictly forward without passing t_bound, and one fewer
      step is left. */
  predicate StepsForward(solver: Solver, s: Session) {
    s.t < s.tBound ==>
      var a := solver.advance(s);
      s.t < a.t <= s.tBound && solver.stepsLeft(Land(s, a)) < solver.stepsLeft(s)
  }

  /** The stepping rules the model admits. */
  type Rk45 = solver: Solver | forall s :: StepsForward(solver, s)
    witness Solver((s: Session) => Advance(s.tBound, s.y, 0.0),
                   (s: Session) => if s.t < s.tBound then 1 else 0)

  /** `rk.step()`: moves t and y, remembers the step size, and keeps
      t_bound, max_step and the right-hand side. From below the bound it
      moves t strictly forward without passing the bound, using up one of
      the steps left. */
  function Step(solver: Rk45, s: Session): (n: Session)
    ensures n.tBound == s.tBound && n.maxStep == s.maxStep && n.field == s.field
    ensures n.memory.Chosen?
    ensures s.t < s.tBound ==> s.t < n.t <= s.tBound && solver.stepsLeft(n) < solver.stepsLeft(s)
  {
    assert StepsForward(solver, s);
    Land(s, solver.advance(s))
  }

  /** The session after k steps. */
  function Iterate(solver: Rk45, s: Session, k: nat): Session
  {
    if k == 0 then s else Step(solver, Iterate(solver, s, k - 1))
  }

  /** What one loop iteration records after a step: `V, T, P = rk.y` and
      the carrying capacity of `model(rk.t, rk.y)`. */
  function Observe(e: NegExp, s: Session): (sample: Sample)
    ensures sample.t == s.t && sample.v == s.y.v && sample.temp == s.y.temp && sample.prec == s.y.prec
    ensures 0.0 <= s.y.prec ==> B <= sample.vc
  {
    Sample(s.t, s.y.v, s.y.temp, s.y.prec, CarryingCapacity(e, s.y.temp, s.y.prec))
  }

  /** The five lists after k iterations of "step, then append what was
      observed", starting from session s. */
  function Recording(e: NegExp, solver: Rk45, s: Session, k: nat): (rec: Record)
    ensures rec.Aligned() && rec.Length() == k
  {
    if k == 0 then Empty else Recording(e, solver, s, k - 1).Append(Observe(e, Iterate(solver, s, k)))
  }

  /** The j-th recorded sample is what was observed after j + 1 steps. */
  lemma {:induction false} RecordingSamples(e: NegExp, solver: Rk45, s: Session, k: nat)
    ensures forall j :: 0 <= j < k ==>
      Recording(e, solver, s, k).SampleAt(j) == Observe(e, Iterate(solver, s, j + 1))
  {
    if k > 0 {
      RecordingSamples(e, solver, s, k - 1);
    }
  }
}
