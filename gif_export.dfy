/** simulation_gif.py: integrate the disturbed model up to t = 40, resample
    the recorded run to 300 frames by index, and draw frame i as the first
    i resampled samples in four panels. */
module GifExport {
  import opened Evaluator
  import opened Series
  import opened Integrator

  const TMax: real := 40.0
  const MaxStep: real := 0.01

  /** The climate-change multiplier c applied to every rate. */
  const C: real := 1.17
  const ExportRates: Rates := Rates(0.350872425 * C, 0.00251599122 * C, 2.96707914 * C, 87.4030685 * C)

  /** RK45(model, t0=0, y0, t_bound=t_max, max_step=0.01). */
  const Start: Session := Create(Disturbed(ExportRates), 0.0, Y0, TMax, MaxStep)

  /** N_frames. */
  const Frames: nat := 300

  /** The batch loop `while rk.t < t_max: rk.step(); append`: the lists
      are the recording of the steps taken from Start, the times strictly
      increase within (0, t_max], and the loop stops at the first sample that
      reaches t_max. */
  method Integrate(e: NegExp, solver: Rk45) returns (rec: Record)
    ensures rec.Aligned() && 0 < rec.Length()
    ensures rec == Recording(e, solver, Start, rec.Length())
    ensures forall k :: 0 <= k < rec.Length() - 1 ==> rec.times[k] < TMax
    ensures Increasing(rec.times)
    ensures forall k :: 0 <= k < rec.Length() ==> 0.0 < rec.times[k] <= TMax
    ensures rec.times[rec.Length() - 1] == TMax
  {
    var rk := Start;
    rec := Empty;
    var k := 0;
    while rk.t < TMax
      invariant Progress(e, solver, k, rk, rec)
      decreases solver.stepsLeft(rk)
    {
      ProgressStep(e, solver, k, rk, rec);
      var next := Step(solver, rk);
      rec := rec.Append(Observe(e, next));
      rk := next;
      k := k + 1;
    }
  }

  /** What holds after k iterations of the batch loop, whose session is rk
      and whose lists are rec: rk is Start stepped k times, rec is their
      recording, only the last recorded time may reach t_max, and the times
      strictly increase up to rk's own t. */
  ghost predicate Progress(e: NegExp, solver: Rk45, k: nat, rk: Session, rec: Record) {
    rk == Iterate(solver, Start, k) && rk.tBound == TMax && 0.0 <= rk.t <= TMax &&
    rec == Recording(e, solver, Start, k) &&
    (forall j :: 0 <= j < k ==> rec.times[j] < TMax || j == k - 1) &&
    Increasing(rec.times) &&
    (forall j :: 0 <= j < k ==> 0.0 < rec.times[j] <= rk.t) &&
    (0 < k ==> rec.times[k - 1] == rk.t)
  }

  /** One iteration of the batch loop, taken while t < t_max, keeps Progress. */
  lemma {:induction false} ProgressStep(e: NegExp, solver: Rk45, k: nat, rk: Session, rec: Record)
    requires Progress(e, solver, k, rk, rec) && rk.t < TMax
    ensures Progress(e, solver, k + 1, Step(solver, rk), rec.Append(Observe(e, Step(solver, rk))))
  {
    var next := Step(solver, rk);
    assert next == Iterate(solver, Start, k + 1);
    AppendLater(rec.times, rk.t, next.t);
    assert rec.Append(Observe(e, next)).times == rec.times + [next.t];
  }

  /** np.linspace(0, n - 1, N_frames, dtype=int) for n recorded samples,
      read as floor(k (n - 1) / 299): 300 indices, each a valid position in
      the recorded run. */
  function FrameIndices(n: nat): (indices: seq<nat>)
    requires 0 < n
    ensures |indices| == Frames
    ensures forall k :: 0 <= k < Frames ==> indices[k] < n
  {
    seq(Frames, k requires 0 <= k < Frames => FrameIndex(k, n))
  }

  /** The k-th of those indices, floor(k (n - 1) / 299), lies in [0, n). */
  function FrameIndex(k: nat, n: nat): (i: nat)
    requires k < Frames && 0 < n
    ensures i < n
  {
    MulNonNegative(k, n - 1);
    MulMonotone(k, Frames - 1, n - 1);
    k * (n - 1) / (Frames - 1)
  }

  lemma MulNonNegative(x: int, y: int)
    requires 0 <= x && 0 <= y
    ensures 0 <= x * y
  {
  }

  lemma MulMonotone(j: int, k: int, m: int)
    requires 0 <= j <= k && 0 <= m
    ensures j * m <= k * m
  {
    MulNonNegative(k - j, m);
    assert k * m - j * m == (k - j) * m;
  }

  /** The indices start at 0, end at n - 1 and never decrease. */
  lemma FrameIndicesSpan(n: nat)
    requires 0 < n
    ensures var indices := FrameIndices(n);
      indices[0] == 0 && indices[Frames - 1] == n - 1 &&
      (forall j, k :: 0 <= j <= k < Frames ==> indices[j] <= indices[k])
  {
    var indices := FrameIndices(n);
    assert indices[Frames - 1] == (Frames - 1) * (n - 1) / (Frames - 1);
    forall j, k | 0 <= j <= k < Frames
      ensures indices[j] <= indices[k]
    {
      MulMonotone(j, k, n - 1);
    }
  }

  /** No frame repeats a sample exactly when at least 300 samples were
      recorded; with fewer, some consecutive frames show the same sample. */
  lemma FrameIndicesDistinct(n: nat)
    requires 0 < n
    ensures var indices := FrameIndices(n);
      (forall k :: 0 <= k < Frames - 1 ==> indices[k] < indices[k + 1]) <==> Frames <= n
  {
    var indices := FrameIndices(n);
    var m := n - 1;
    if Frames <= n {
      forall k | 0 <= k < Frames - 1
        ensures indices[k] < indices[k + 1]
      {
        assert (k + 1) * m == k * m + m;
        assert k * m + (Frames - 1) <= (k + 1) * m;
        assert (k * m + (Frames - 1)) / (Frames - 1) == k * m / (Frames - 1) + 1;
      }
    } else if forall k :: 0 <= k < Frames - 1 ==> indices[k] < indices[k + 1] {
      IndexAtLeastPosition(n, Frames - 1);
      assert false;
    }
  }

  /** Strictly increasing natural indices starting at 0 are at least their position. */
  lemma {:induction false} IndexAtLeastPosition(n: nat, k: nat)
    requires 0 < n && k < Frames
    requires forall j :: 0 <= j < Frames - 1 ==> FrameIndices(n)[j] < FrameIndices(n)[j + 1]
    ensures k <= FrameIndices(n)[k]
  {
    if k > 0 {
      IndexAtLeastPosition(n, k - 1);
    }
  }

  /** `series[indices]` for each of the five arrays: every output sample is
      the recorded sample at the matching index, in all five lists at once. */
  function Resample(rec: Record, indices: seq<nat>): (r: Record)
    requires rec.Aligned()
    requires forall k :: 0 <= k < |indices| ==> indices[k] < rec.Length()
    ensures r.Aligned() && r.Length() == |indices|
    ensures forall k :: 0 <= k < |indices| ==> r.SampleAt(k) == rec.SampleAt(indices[k])
  {
    assert rec.Length() == |rec.times|;
    Record(Pick(rec.times, indices), Pick(rec.biomass, indices), Pick(rec.temperature, indices),
           Pick(rec.precipitation, indices), Pick(rec.capacity, indices))
  }

  /** `array[indices]` on one numpy array. */
  function Pick(s: seq<real>, indices: seq<nat>): (r: seq<real>)
    requires forall k :: 0 <= k < |indices| ==> indices[k] < |s|
    ensures |r| == |indices| && forall k :: 0 <= k < |indices| ==> r[k] == s[indices[k]]
  {
    seq(|indices|, k requires 0 <= k < |indices| && indices[k] < |s| => s[indices[k]])
  }

  /** Lines 36-60 of the script: run the batch loop, then resample the run
      to 300 frames by index. */
  method Export(e: NegExp, solver: Rk45) returns (rec: Record, gif: Record)
    ensures rec.Aligned() && 0 < rec.Length() && rec == Recording(e, solver, Start, rec.Length())
    ensures gif.Aligned() && gif.Length() == Frames
    ensures forall k :: 0 <= k < Frames ==> gif.SampleAt(k) == rec.SampleAt(FrameIndices(rec.Length())[k])
    ensures gif.SampleAt(0) == rec.SampleAt(0)
    ensures gif.SampleAt(Frames - 1) == rec.SampleAt(rec.Length() - 1) && gif.times[Frames - 1] == TMax
    ensures NonDecreasing(gif.times)
    ensures forall k :: 0 <= k < Frames ==> 0.0 < gif.times[k] <= TMax
    ensures Frames <= rec.Length() ==> Increasing(gif.times)
  {
    rec := Integrate(e, solver);
    FrameIndicesSpan(rec.Length());
    gif := Resample(rec, FrameIndices(rec.Length()));
    ResampledRun(rec, gif);
  }

  /** What resampling a finished run gives: the first and last frames are
      the first and last recorded samples (the last at t_max), frame times
      never decrease and lie within the x-range [0, t_max], and they strictly
      increase once 300 or more samples were recorded. */
  lemma ResampledRun(rec: Record, gif: Record)
    requires rec.Aligned() && 0 < rec.Length() && Increasing(rec.times)
    requires forall k :: 0 <= k < rec.Length() ==> 0.0 < rec.times[k] <= TMax
    requires rec.times[rec.Length() - 1] == TMax
    requires gif == Resample(rec, FrameIndices(rec.Length()))
    ensures gif.Aligned() && gif.Length() == Frames
    ensures gif.SampleAt(0) == rec.SampleAt(0)
    ensures gif.SampleAt(Frames - 1) == rec.SampleAt(rec.Length() - 1) && gif.times[Frames - 1] == TMax
    ensures NonDecreasing(gif.times)
    ensures forall k :: 0 <= k < Frames ==> 0.0 < gif.times[k] <= TMax
    ensures Frames <= rec.Length() ==> Increasing(gif.times)
  {
    var n := rec.Length();
    FrameIndicesSpan(n);
    var indices := FrameIndices(n);
    ResampledTimesOrdered(rec);
    assert gif.SampleAt(0) == rec.SampleAt(indices[0]);
    assert gif.SampleAt(Frames - 1) == rec.SampleAt(indices[Frames - 1]);
    forall k | 0 <= k < Frames
      ensures 0.0 < gif.times[k] <= TMax
    {
      assert gif.SampleAt(k) == rec.SampleAt(indices[k]);
    }
  }

  /** Frame times follow the recorded order: they never decrease, and they
      strictly increase when no sample is repeated (300 or more samples). */
  lemma ResampledTimesOrdered(rec: Record)
    requires rec.Aligned() && 0 < rec.Length() && Increasing(rec.times)
    ensures var gif := Resample(rec, FrameIndices(rec.Length()));
      NonDecreasing(gif.times) && (Frames <= rec.Length() ==> Increasing(gif.times))
  {
    var n := rec.Length();
    FrameIndicesSpan(n);
    var indices := FrameIndices(n);
    var gif := Resample(rec, indices);
    assert forall k :: 0 <= k < Frames ==> gif.times[k] == rec.times[indices[k]];
    forall j, k | 0 <= j <= k < Frames
      ensures gif.times[j] <= gif.times[k]
    {
      assert indices[j] <= indices[k];
    }
    if Frames <= n {
      forall j, k | 0 <= j < k < Frames
        ensures gif.times[j] < gif.times[k]
      {
        StrictlyIncreasingIndices(n, j, k);
      }
    }
  }

  /** With 300 or more samples, later frames have strictly later indices. */
  lemma {:induction false} StrictlyIncreasingIndices(n: nat, j: nat, k: nat)
    requires Frames <= n && j < k < Frames
    ensures FrameIndices(n)[j] < FrameIndices(n)[k]
  {
    FrameIndicesDistinct(n);
    if j + 1 < k {
      StrictlyIncreasingIndices(n, j, k - 1);
    }
  }

  /** A panel's axes: x from 0 to t_max, y from 0 to 1.1 times the panel's maximum. */
  datatype Axes = Axes(x: Limits, y: Limits)

  function PanelAxes(data: seq<real>): Axes
    requires 0 < |data|
  {
    Axes(Limits(0.0, TMax), Limits(0.0, Max(data) * 1.1))
  }

  /** Every value of a panel lies within its y-range exactly when none is
      negative; the top of the range clears the maximum exactly when the
      maximum is not negative. */
  lemma PanelWindow(data: seq<real>)
    requires 0 < |data|
    ensures var y := PanelAxes(data).y;
      ((forall i :: 0 <= i < |data| ==> y.lo <= data[i] <= y.hi) <==> 0.0 <= Min(data)) &&
      (Max(data) <= y.hi <==> 0.0 <= Max(data))
  {
    var y := PanelAxes(data).y;
    MinAtMostMax(data);
    if forall i :: 0 <= i < |data| ==> y.lo <= data[i] <= y.hi {
      var i :| 0 <= i < |data| && data[i] == Min(data);
    }
  }

  /** One drawn line: its x and y data. */
  datatype Line = Line(xs: seq<real>, ys: seq<real>)

  /** Python's s[:i]: the first i elements, or all of s when i exceeds its length. */
  function Upto(s: seq<real>, i: nat): (r: seq<real>)
    ensures i <= |s| ==> |r| == i
    ensures |s| < i ==> r == s
    ensures forall j :: 0 <= j < |r| ==> r[j] == s[j]
  {
    if i <= |s| then s[..i] else s
  }

  /** `animate(i)`: every panel's line is set to the first i times against
      the first i values of that panel. */
  function Animate(gif: Record, i: nat): (lines: seq<Line>)
    ensures |lines| == 4
  {
    var panels := gif.Panels();
    seq(4, p requires 0 <= p < 4 => Line(Upto(gif.times, i), Upto(panels[p], i)))
  }

  /** Frame i draws exactly the first i resampled samples in every panel:
      i points, the j-th at (t_j, value_j) of that panel. Frame 0 draws nothing. */
  lemma AnimateDrawsPrefix(gif: Record, i: nat)
    requires gif.Aligned() && i <= gif.Length()
    ensures forall p :: 0 <= p < 4 ==>
      |Animate(gif, i)[p].xs| == i && |Animate(gif, i)[p].ys| == i &&
      forall j :: 0 <= j < i ==>
        Animate(gif, i)[p].xs[j] == gif.times[j] && Animate(gif, i)[p].ys[j] == gif.Panels()[p][j]
    ensures i == 0 ==> forall p :: 0 <= p < 4 ==> Animate(gif, i)[p] == Line([], [])
  {
  }

  /** FuncAnimation calls animate(i) for i in range(frames) with frames equal
      to the number of resampled samples, so the last sample is never drawn. */
  lemma LastSampleNeverDrawn(gif: Record, i: nat)
    requires gif.Aligned() && i < gif.Length()
    ensures forall p :: 0 <= p < 4 ==>
      |Animate(gif, i)[p].xs| < gif.Length() && |Animate(gif, i)[p].ys| < gif.Length()
  {
    AnimateDrawsPrefix(gif, i);
  }
}
