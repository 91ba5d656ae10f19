# Lotka-Volterra climate-change simulation, modelled in Dafny

The repository is a pair of Python scripts. They integrate a coupled
biomass (V), temperature (T) and precipitation (P) model with scipy's RK45.

- `simulation.py` runs the integration live. It has a pause button, a replay
  button, four rate sliders that swap in a new integrator session mid-run,
  and a zoom slider for the autoscaled axes.
- `simulation_gif.py` integrates a variant with a temporary 20% boost of
  gamma up to t = 40. It resamples the run to 300 frames by index and draws
  frame i as the first i samples.

The model has five modules:

- `Evaluator` (`evaluator.dfy`): the right-hand side `model(t, y)` of both
  scripts. It covers the Gaussian temperature factor, the carrying capacity
  Vc = b + P g(T), the logistic and coupled derivatives, and the
  time-windowed gamma shock. The contracts give the signs and fixed points of
  these formulas over the reals.
- `Series` (`series.dfy`): the five parallel lists (tempos, biomassa_v,
  temp_v, prec_v, vc_v) as one `Record`. It has the append that keeps them
  aligned, Python's `max`/`min`, and an axis range `Limits`.
- `Integrator` (`integrator.dfy`): an RK45 session as a value. `step` is a
  parameter of type `Rk45`. That is any stepping rule that, from below
  t_bound, moves t strictly forward without passing t_bound and within a
  finite number of steps. `Recording` is the specification of "step, then
  append what is observed".
- `LiveSimulation` (`live_simulation.dfy`): the globals of `simulation.py` as
  the class `Controller`. `TogglePause`, `UpdateParameters`, `Replay` and
  `Tick` change its fields in place. The invariant `Valid` says the session
  always continues from the last recorded sample with the current rates.
  That is the hot-swap rule.
- `GifExport` (`gif_export.dfy`): the batch loop as a `while` method proved
  against `Recording`. It also covers the linspace index resampling as
  floor(k (n - 1) / 299), the per-panel axes and `animate`'s prefix slicing.

## Model

| member | source | states |
|---|---|---|
| Evaluator.GaussianFactor | simulation.py:24 | the Gaussian factor lies in (0, 1] and equals 1 at T = mean_temp |
| Evaluator.CarryingCapacity | simulation.py:24 | Vc lies in [b, b + P] for P >= 0, is strictly above b for P > 0, equals b for P = 0, and equals b + P at T = mean_temp |
| Evaluator.InitialCapacity | simulation.py:7-11 | at the initial state T0 = mean_temp, so Vc = b + P0 = 310 |
| Evaluator.Model | simulation.py:22-28 | Vc lies in [b, b + P] for P >= 0; the derivative vector is zero if and only if V = 0 or V = Vc, T = 0 or alpha = beta P, and P = 0 or gamma T = delta; with Vc > 0, dV/dt > 0 for 0 < V < Vc and dV/dt < 0 for V > Vc |
| Evaluator.LogisticRate | simulation.py:25 | a V (1 - V / Vc) is zero exactly at V = 0 or V = Vc; for Vc > 0 it is positive for 0 < V < Vc and negative for V > Vc |
| Evaluator.TemperatureRate | simulation.py:26 | dT/dt = alpha T - beta T P is zero if and only if T = 0 or alpha = beta P |
| Evaluator.PrecipitationRate | simulation.py:27 | dP/dt = gamma T P - delta P is zero if and only if P = 0 or gamma T = delta |
| Evaluator.EffectiveGamma | simulation_gif.py:22-24 | no ensures of its own: `ShockWindow` states that it changes a non-zero gamma exactly inside the window, to 1.2 gamma |
| Evaluator.ShockWindow | simulation_gif.py:22-24 | a non-zero gamma is changed exactly when 20 <= t <= 21 (both ends included), and there it becomes 1.2 gamma |
| Evaluator.DisturbedModel | simulation_gif.py:20-29 | the disturbed model has the same Vc, dV/dt and dT/dt as the plain one at every t; outside the window it is identical; inside it dP/dt = 1.2 gamma T P - delta P |
| Series.Record.Append | simulation.py:149-153 | one append per list keeps the five lists aligned, adds exactly one entry, ends with the new sample and keeps every earlier sample |
| Series.Record.Panels | simulation.py:161-163 | there are exactly four plotted series, each with one value per sample when the lists are aligned |
| Series.PanelsOfSamples | simulation.py:161-163 | the k-th value of the four panels is the V, T, P and Vc of the k-th sample, in the order zipped with the axes |
| Series.Max | simulation.py:164 | `max` of a non-empty list is one of its elements and at least every element |
| Series.Min | simulation.py:164 | `min` of a non-empty list is one of its elements and at most every element |
| Series.MinAtMostMax | simulation.py:164 | min(data) <= max(data), so the raw data range is never negative |
| Series.AtMostMax | simulation.py:164-170 | a bound is at least every element if and only if it is at least the maximum; `AutoscalePanel` uses it to carry the top-of-axis rule from the maximum to every value |
| Series.AppendLater | simulation.py:149 | appending a time later than every recorded one keeps the times strictly increasing |
| Integrator.Create | simulation.py:140 | no ensures of its own: a fresh session with no step-size memory; `ResumeContinues`, `Controller.constructor` and `Controller.Replay` state the sessions built with it |
| Integrator.Step | simulation.py:146 | `rk.step()` keeps t_bound, max_step and the right-hand side, records a chosen step size, and from below t_bound moves t strictly forward without passing t_bound |
| Integrator.Observe | simulation.py:147-148 | the observed sample carries the session's new t, V, T and P; its Vc is at least b when P >= 0 |
| Integrator.Recording | simulation_gif.py:37-45 | after k iterations the five lists are aligned and hold exactly k entries |
| Integrator.RecordingSamples | simulation_gif.py:37-45 | the j-th recorded sample is what the session observes after j + 1 steps |
| GifExport.Integrate | simulation_gif.py:36-45 | the loop's lists are the recording of the steps from RK45(t0 = 0, y0, t_bound = 40, max_step = 0.01). They are non-empty and their times strictly increase within (0, 40]. Every time except the last is below 40, and the last is 40 |
| GifExport.ProgressStep | simulation_gif.py:37-45 | one iteration taken while t < 40 keeps the loop invariant: one more step, one more recorded sample, times still increasing |
| GifExport.FrameIndices | simulation_gif.py:53-54 | linspace gives exactly 300 indices, each a valid position in the recorded run |
| GifExport.FrameIndex | simulation_gif.py:54 | each index floor(k (n - 1) / 299) lies in [0, n) |
| GifExport.FrameIndicesSpan | simulation_gif.py:54 | the first index is 0, the last is n - 1, and the indices never decrease |
| GifExport.FrameIndicesDistinct | simulation_gif.py:53-54 | consecutive indices differ everywhere if and only if at least 300 samples were recorded; with fewer, some frames repeat a sample |
| GifExport.IndexAtLeastPosition | simulation_gif.py:54 | strictly increasing indices starting at 0 are at least their position |
| GifExport.StrictlyIncreasingIndices | simulation_gif.py:54 | with 300 or more samples, later frames have strictly later indices |
| GifExport.Resample | simulation_gif.py:56-60 | the five resampled arrays are aligned, have one entry per index, and frame k is the recorded sample at index k in all five at once |
| GifExport.Pick | simulation_gif.py:56 | `array[indices]` has one entry per index, each the element at that index |
| GifExport.Export | simulation_gif.py:36-60 | the 300 frames are the recorded samples at the linspace indices. The first and last frames are the first and last samples, the last at t = 40. Frame times never decrease, lie in (0, 40], and strictly increase once 300 samples exist |
| GifExport.ResampledRun | simulation_gif.py:53-60 | resampling any finished run (increasing times in (0, 40], last at 40) gives those frame facts |
| GifExport.ResampledTimesOrdered | simulation_gif.py:56 | frame times never decrease, and they strictly increase when 300 or more samples were recorded |
| GifExport.PanelAxes | simulation_gif.py:73-74 | no ensures of its own: x from 0 to t_max and y from 0 to 1.1 max; `PanelWindow` states what that range holds |
| GifExport.PanelWindow | simulation_gif.py:73-74 | every value of a panel lies in its y-range [0, 1.1 max] if and only if none is negative; the top clears the maximum if and only if the maximum is not negative |
| GifExport.Upto | simulation_gif.py:84 | s[:i] has i elements when i <= len(s), is all of s otherwise, and its j-th element is the j-th of s |
| GifExport.Animate | simulation_gif.py:82-85 | `animate(i)` sets exactly four lines |
| GifExport.AnimateDrawsPrefix | simulation_gif.py:82-85 | frame i draws exactly the first i resampled samples in every panel, and frame 0 draws nothing |
| GifExport.LastSampleNeverDrawn | simulation_gif.py:82-91 | frames run over range(len(samples)), so no frame draws every sample and the last one is never shown |
| LiveSimulation.Resume | simulation.py:75-85 | no ensures of its own: `ResumeContinues` states the session it rebuilds |
| LiveSimulation.ResumeContinues | simulation.py:75-85 | the rebuilt session is fresh, has t_bound = 100, max_step = 0.1 and the current rates. It sits on the last recorded time and (V, T, P), or on t0 = 0 and y0 when nothing is recorded |
| LiveSimulation.DataRange | simulation.py:164-166 | the range is max - min, or 1 when the two are equal, and so is positive whenever min <= max |
| LiveSimulation.AutoscaleHeight | simulation.py:164-170 | the axis height is zoom times the range, positive for positive zoom, and the bottom min - 0.1 range lies strictly below the minimum, so below every value |
| LiveSimulation.YLimits | simulation.py:164-170 | no ensures of its own: `AutoscaleHeight`, `AutoscaleTop` and `AutoscalePanel` state the limits it sets |
| LiveSimulation.AutoscaleTop | simulation.py:164-170 | the top clears the maximum, so every value, if and only if zoom >= 1.1 (zoom >= 0.1 for constant data); at the initial zoom of 1 the top tenth of the range is cut off |
| LiveSimulation.AutoscalePanel | simulation.py:161-170 | for a whole panel: the bottom lies strictly below every value, and every value lies at or below the top if and only if zoom >= 1.1 (zoom >= 0.1 when all values are equal) |
| LiveSimulation.XLimit | simulation.py:171 | max(t_max, t) is one of the two and at least both |
| LiveSimulation.SessionWithin | simulation.py:144 | a session consistent with the lists lies in [0, t_max], at or after every recorded time, and integrates the current rates |
| LiveSimulation.StepRecords | simulation.py:144-153 | stepping below t_max and appending the observed sample keeps the lists aligned, the times increasing within (0, t_max], the capacities consistent and the session on the last sample |
| LiveSimulation.Controller.constructor | simulation.py:92-140 | start-up (with the constants of simulation.py lines 6-18): running, the initial rates, five empty lists, and RK45(t0 = 0, y0, t_bound = 100, max_step = 0.1) |
| LiveSimulation.Controller.TogglePause | simulation.py:95-97 | the flag flips and nothing else may change |
| LiveSimulation.Controller.UpdateParameters | simulation.py:68-86 | alpha and beta come from their sliders, gamma from the slider labelled "Delta" and delta from the one labelled "Gamma". The session is rebuilt from the last recorded sample, and the lists and the pause flag are untouched |
| LiveSimulation.Controller.Replay | simulation.py:105-117 | the five lists are empty, the flag is cleared, the session restarts at t0 = 0 and y0, and the rates are kept as edited |
| LiveSimulation.Controller.View | simulation.py:160-171 | a running tick sets four y-ranges, each the autoscale of its non-empty panel from that panel's min and max with the zoom value, and the x-limit max(t_max, t), which is t_max |
| LiveSimulation.Controller.Tick | simulation.py:144-175 | once t >= t_max, or while paused, nothing changes. Otherwise the session takes one step and exactly one entry is appended per list: the new t, V, T, P and Vc at the new state. The controller invariant is kept in every case |
| LiveSimulation.Controller.RunningTick | simulation.py:145-171 | the running branch: one step, one appended sample equal to what the new session observes, and the rescaled frame |

## Left out

- RK45 internals are left out. Dormand-Prince error control, step-size choice and clamping at t_bound are foreign numerics. `step` is the abstract `Rk45` rule, and `stepsLeft` bounds the number of steps still needed.
- np.exp is abstracted as `NegExp`. The model only knows that exp(-z) lies in (0, 1] for z >= 0 and that exp(0) = 1.
- Floating point is not modelled. All state is real-valued. `model` needs Vc != 0, because IEEE division by zero (inf or nan) is not modelled. Since Vc >= b = 10 whenever P >= 0, this only excludes states with negative precipitation.
- GifExport.FrameIndices: np.linspace with dtype=int truncates a float product, and this is modelled as exact integer floor division. Float rounding at interior indices is not captured.
- matplotlib is left out: figures, lines, legends, labels, `set_data`, slider and button construction and registration, `FuncAnimation`, `PillowWriter`, the GIF file, the final `print`, and pacing (0.01 s running, 0.1 s paused). Only the axis limits and the line data are modelled.
- Replay's initial y-limits (max(init) * 1.2 at simulation.py:122-132) are display-only and left out.
- Tick can be called again after a replay. In the script, the main loop exits once t >= t_max and is never re-entered, so a replay after the run finished starts nothing.
- The live `model` closure reads the global rates at every call. The model captures the rates when the session is created. The two agree because the rates only change in `update_parameters`, which builds a new session at once.
- Integrator failure, sigma_T validation and the sleep between ticks are left out. The script has none of the first two and the third is timing only.

Points where the scripts behave in a way worth noting, all followed by the model:

- gamma is set from the slider labelled "Delta" (range 0 to 5, initial value 2.967) and delta from the slider labelled "Gamma" (range 0 to 100, initial value 87.4). The model follows this wiring.
- The script never checks that appended times increase. `Valid` proves that they do.
- Replay keeps the edited rates, and so does `Replay`.
