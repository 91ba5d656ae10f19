/** simulation.py: the live controller. One RK45 session is stepped by the
    main loop while the operator pauses, changes rates with sliders, or
    replays; every running tick records one sample and rescales the axes. */
module LiveSimulation {
  import opened Evaluator
  import opened Series
  import opened Integrator

  const TMax: real := 100.0
  const MaxStep: real := 0.1
  const InitialRates: Rates := Rates(0.41, 0.0029, 2.967, 87.4)

  /** The session `update_parameters` builds: it continues from the last
      recorded time and (V, T, P), or from t0 = 0 and y0 when nothing has
      been recorded, with t_bound = t_max, max_step = 0.1 and the given
      rates. */
  function Resume(r: Rates, rec: Record): Session
    requires rec.Aligned()
  {
    var n := rec.Length();
    Create(Live(r),
           if n > 0 then rec.times[n - 1] else 0.0,
           State(if n > 0 then rec.biomass[n - 1] else Y0.v,
                 if n > 0 then rec.temperature[n - 1] else Y0.temp,
                 if n > 0 then rec.precipitation[n - 1] else Y0.prec),
           TMax, MaxStep)
  }

  /** A rebuilt session is fresh, integrates the given rates up to t_max
      with max_step 0.1, and sits exactly on the last recorded sample: what
      it would observe is that sample, provided the recorded capacity is the
      one of the recorded state. With nothing recorded it is the session the
      script starts with. */
  lemma ResumeContinues(e: NegExp, r: Rates, rec: Record)
    requires rec.Aligned()
    requires forall i :: 0 <= i < rec.Length() ==>
      rec.capacity[i] == CarryingCapacity(e, rec.temperature[i], rec.precipitation[i])
    ensures var s := Resume(r, rec);
      s.tBound == TMax && s.maxStep == MaxStep && s.field == Live(r) && s.memory == Unchosen
    ensures 0 < rec.Length() ==> Observe(e, Resume(r, rec)) == rec.SampleAt(rec.Length() - 1)
    ensures rec.Length() == 0 ==> Resume(r, rec) == Create(Live(r), 0.0, Y0, TMax, MaxStep)
  {
  }

  /** max(data) - min(data), replaced by 1 when it is zero, from the
      panel's minimum and maximum: positive whenever low <= high. */
  function DataRange(low: real, high: real): (range: real)
    ensures low == high ==> range == 1.0
    ensures low != high ==> range == high - low
    ensures low <= high ==> 0.0 < range
  {
    var range := high - low;
    if range == 0.0 then 1.0 else range
  }

  /** The y-limits a running tick sets on a panel whose minimum is low and
      whose maximum is high. */
  function YLimits(low: real, high: real, zoom: real): Limits
  {
    var range := DataRange(low, high);
    var lo := low - 0.1 * range;
    Limits(lo, lo + zoom * range)
  }

  /** The axis has height zoom * range, which is positive for every
      positive zoom (the slider allows 0.5 to 5), and its bottom lies
      strictly below the minimum, so below every value of the panel. */
  lemma AutoscaleHeight(low: real, high: real, zoom: real)
    requires low <= high
    ensures var lim := YLimits(low, high, zoom);
      lim.hi - lim.lo == zoom * DataRange(low, high) &&
      (0.0 < zoom ==> lim.lo < lim.hi) &&
      lim.lo < low
  {
    MulSign(zoom, DataRange(low, high));
  }

  /** The top of the axis clears the maximum, and so every value of the
      panel, exactly when zoom is at least 1.1 (or 0.1 when all values are
      equal): at the initial zoom of 1 the top 10% of the data range is cut
      off. */
  lemma AutoscaleTop(low: real, high: real, zoom: real)
    requires low <= high
    ensures high <= YLimits(low, high, zoom).hi <==> (if high == low then 0.1 <= zoom else 1.1 <= zoom)
  {
    var range := DataRange(low, high);
    if high != low {
      assert YLimits(low, high, zoom).hi - high == zoom * range - 1.1 * range;
      assert zoom * range - 1.1 * range == (zoom - 1.1) * range;
      MulSign(zoom - 1.1, range);
    }
  }

  /** Over a whole panel: the bottom of the autoscaled axis lies strictly
      below every value, and every value lies at or below its top exactly
      when zoom is at least 1.1 (or 0.1 when all values are equal). */
  lemma {:induction false} AutoscalePanel(data: seq<real>, zoom: real)
    requires 0 < |data|
    ensures var lim := YLimits(Min(data), Max(data), zoom);
      (forall i :: 0 <= i < |data| ==> lim.lo < data[i]) &&
      ((forall i :: 0 <= i < |data| ==> data[i] <= lim.hi) <==>
         (if Max(data) == Min(data) then 0.1 <= zoom else 1.1 <= zoom))
  {
    var low, high := Min(data), Max(data);
    MinAtMostMax(data);
    AutoscaleHeight(low, high, zoom);
    AutoscaleTop(low, high, zoom);
    AtMostMax(data, YLimits(low, high, zoom).hi);
  }

  /** What holds of the live globals between callbacks: the five lists
      stay aligned, their times strictly increase within (0, t_max], every
      recorded capacity is that of its recorded state, and the session,
      apart from its step-size memory, is exactly the one `update_parameters`
      would rebuild now: it integrates the current rates and continues from
      the last recorded sample. */
  ghost predicate Consistent(e: NegExp, r: Rates, s: Session, rec: Record) {
    rec.Aligned() &&
    Increasing(rec.times) &&
    (forall i :: 0 <= i < |rec.times| ==> 0.0 < rec.times[i] <= TMax) &&
    (forall i :: 0 <= i < |rec.times| ==>
       rec.capacity[i] == CarryingCapacity(e, rec.temperature[i], rec.precipitation[i])) &&
    s.(memory := Unchosen) == Resume(r, rec)
  }

  /** A consistent session sits within [0, t_max], at or after every recorded time. */
  lemma {:induction false} SessionWithin(e: NegExp, r: Rates, s: Session, rec: Record)
    requires Consistent(e, r, s, rec)
    ensures 0.0 <= s.t <= TMax && s.tBound == TMax && s.field == Live(r)
    ensures forall j :: 0 <= j < |rec.times| ==> rec.times[j] <= s.t
  {
    assert s.t == Resume(r, rec).t;
    var n := |rec.times|;
    if 0 < n {
      assert forall j :: 0 <= j < n - 1 ==> rec.times[j] < rec.times[n - 1];
    }
  }

  /** One running tick keeps the globals consistent: stepping a session
      below t_max and appending what it observes. */
  lemma {:induction false} StepRecords(e: NegExp, solver: Rk45, r: Rates, s: Session, rec: Record)
    requires Consistent(e, r, s, rec) && s.t < TMax
    ensures Consistent(e, r, Step(solver, s), rec.Append(Observe(e, Step(solver, s))))
  {
    SessionWithin(e, r, s, rec);
    var n := Step(solver, s);
    var next := rec.Append(Observe(e, n));
    AppendLater(rec.times, s.t, n.t);
    assert next.times == rec.times + [n.t];
    assert forall i :: 0 <= i < |rec.times| ==> next.SampleAt(i) == rec.SampleAt(i);
    assert n.(memory := Unchosen) == Resume(r, next);
  }

  /** The x-limit max(t_max, t): one of the two, and at least both. */
  function XLimit(t: real): (x: real)
    ensures (x == TMax || x == t) && TMax <= x && t <= x
  {
    if TMax < t then t else TMax
  }

  /** The four panels' y-limits and the shared x-limit of one frame. */
  datatype Frame = Frame(yLimits: seq<Limits>, xMax: real)

  /** What one iteration of the main loop did. */
  datatype TickOutcome =
    | Finished          // rk.t >= t_max: the loop has ended
    | Waiting           // paused: nothing recorded
    | Stepped(frame: Frame)

  /** The globals of simulation.py that the callbacks and the main loop share. */
  class Controller {
    /** np.exp and the RK45 stepping rule. */
    const exp: NegExp
    const solver: Rk45

    var paused: bool
    var rates: Rates
    var session: Session
    // tempos, biomassa_v, temp_v, prec_v, vc_v
    var times: seq<real>
    var biomass: seq<real>
    var temperature: seq<real>
    var precipitation: seq<real>
    var capacity: seq<real>

    /** The five lists, read as one record. */
    function Recorded(): Record
      reads this
    {
      Record(times, biomass, temperature, precipitation, capacity)
    }

    /** The globals agree with each other as Consistent says. */
    ghost predicate Valid()
      reads this
    {
      Consistent(exp, rates, session, Recorded())
    }

    /** Module start-up: running, initial rates, empty lists and
      RK45(t0 = 0, y0, t_bound = t_max, max_step = 0.1). */
    constructor (exp: NegExp, solver: Rk45)
      ensures Valid()
      ensures this.exp == exp && this.solver == solver
      ensures !paused && rates == InitialRates && Recorded() == Empty
      ensures session == Create(Live(InitialRates), 0.0, Y0, TMax, MaxStep)
    {
      this.exp := exp;
      this.solver := solver;
      paused := false;
      rates := InitialRates;
      times, biomass, temperature, precipitation, capacity := [], [], [], [], [];
      session := Create(Live(InitialRates), 0.0, Y0, TMax, MaxStep);
    }

    /** `toggle_pause`: flips the flag; nothing else can change. */
    method TogglePause()
      requires Valid()
      modifies this`paused
      ensures Valid()
      ensures paused == !old(paused)
    {
      paused := !paused;
    }

    /** `update_parameters`: alpha and beta from their sliders, gamma from
      the slider labelled "Delta" (range 0 to 5) and delta from the slider
      labelled "Gamma" (range 0 to 100); then a fresh session from the last
      recorded sample. The lists and the pause flag are untouched, so it
      acts the same whether paused or running. */
    method UpdateParameters(alphaSlider: real, betaSlider: real, deltaSlider: real, gammaSlider: real)
      requires Valid()
      modifies this`rates, this`session
      ensures Valid()
      ensures rates == Rates(alphaSlider, betaSlider, deltaSlider, gammaSlider)
      ensures session == Resume(rates, Recorded())
    {
      rates := Rates(alpha := alphaSlider, beta := betaSlider, gamma := deltaSlider, delta := gammaSlider);
      session := Resume(rates, Recorded());
    }

    /** `replay`: empties the lists, resumes, and restarts at t0 = 0 and y0
      with the rates currently set (they are not restored). */
    method Replay()
      requires Valid()
      modifies this`paused, this`session, this`times, this`biomass, this`temperature,
               this`precipitation, this`capacity
      ensures Valid()
      ensures Recorded() == Empty && !paused && rates == old(rates)
      ensures session == Create(Live(rates), 0.0, Y0, TMax, MaxStep)
    {
      times, biomass, temperature, precipitation, capacity := [], [], [], [], [];
      paused := false;
      session := Create(Live(rates), 0.0, Y0, TMax, MaxStep);
    }

    /** The limits a running tick sets: each panel autoscaled with the zoom
      slider's value, and the x-axis up to max(t_max, t), which is t_max
      because the session never passes its bound. */
    function View(zoom: real): (f: Frame)
      reads this
      requires Valid() && 0 < |times|
      ensures |f.yLimits| == 4 && f.xMax == TMax
      ensures forall p :: 0 <= p < 4 ==>
        var panel := Recorded().Panels()[p];
        0 < |panel| && f.yLimits[p] == YLimits(Min(panel), Max(panel), zoom)
    {
      SessionWithin(exp, rates, session, Recorded());
      var panels := Recorded().Panels();
      Frame(seq(4, p requires 0 <= p < 4 => YLimits(Min(panels[p]), Max(panels[p]), zoom)), XLimit(session.t))
    }

    /** One iteration of `while rk.t < t_max`: nothing once t has reached
      t_max, nothing while paused, and otherwise one step of the session
      and exactly one appended entry per list, the new time being the
      session's new t and the capacity evaluated at the new state. */
    method Tick(zoom: real) returns (outcome: TickOutcome)
      requires Valid()
      modifies this`session, this`times, this`biomass, this`temperature,
               this`precipitation, this`capacity
      ensures Valid()
      ensures old(session.t) >= TMax ==>
        outcome == Finished && session == old(session) && Recorded() == old(Recorded())
      ensures old(session.t) < TMax && paused ==>
        outcome == Waiting && session == old(session) && Recorded() == old(Recorded())
      ensures old(session.t) < TMax && !paused ==>
        session == Step(solver, old(session)) &&
        Recorded() == old(Recorded()).Append(Observe(exp, session)) &&
        outcome == Stepped(View(zoom))
    {
      if session.t >= TMax {
        outcome := Finished;
      } else if paused {
        outcome := Waiting;
      } else {
        var frame := RunningTick(zoom);
        outcome := Stepped(frame);
      }
    }

    /** The running branch of one iteration: one step, one appended entry
      per list, and the rescaled frame. */
    method RunningTick(zoom: real) returns (frame: Frame)
      requires Valid() && session.t < TMax
      modifies this`session, this`times, this`biomass, this`temperature,
               this`precipitation, this`capacity
      ensures Valid()
      ensures session == Step(solver, old(session))
      ensures Recorded() == old(Recorded()).Append(Observe(exp, session))
      ensures 0 < |times| && frame == View(zoom)
    {
      var next := Step(solver, session);
      var rec := Recorded().Append(Observe(exp, next));
      StepRecords(exp, solver, rates, session, Recorded());
      session := next;
      times, biomass, temperature, precipitation, capacity :=
        rec.times, rec.biomass, rec.temperature, rec.precipitation, rec.capacity;
      frame := View(zoom);
    }
  }
}
