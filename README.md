# A verified model of the BGTCS mean-field model with closed-loop DBS

The repository simulates a basal-ganglia-thalamocortical mean-field model (MFM). The model
has ten neural populations, and each has a voltage and the voltage's derivative, which gives
20 state variables per time step. The state is advanced by explicit Euler steps, with noise
on the voltages. A deep brain stimulation (DBS) controller can inject charge into one
population's voltage. There are two controllers:

- cDBS, open loop: a fixed pulse train after a start delay.
- pDBS, closed loop: it estimates the amplitude and phase of one population's voltage at a
  target frequency, using an aSWIFT estimator (the difference of a slow and a fast
  exponentially windowed sliding Fourier transform of the signal). It fires a pulse when the
  phase crosses a threshold upwards, the refractory period has passed, and the amplitude
  reaches a power threshold.

Around the simulation sit:

- the parameter table, with keyword overrides cast to the type of each default;
- the `key=value` command-line parser;
- the search for an unused RunID when the results are saved.

The Dafny project models these parts.

| file | models |
|---|---|
| `wrappers.dfy` | `Option`, `Result`, `Outcome` |
| `floats.dfy` | Python floats as exact reals, `±inf` and NaN, with IEEE comparisons |
| `complex.dfy` | complex numbers, and the ring laws the estimator proofs use |
| `literals.dfy` | `int(s)`, `float(s)`, `str.strip`, `str.lower`, `str.split`, `str(n)` and `'{0:03d}'.format(n)` |
| `swift.py` → `swift.dfy` | classes `Swift` and `Aswift` |
| `dbs.py` → `dbs.dfy` | class `Dbs`, with the charge derived from the amplitude and width; classes `CDbs` and `PDbs`, each owning a `Dbs` |
| `mfm.py` → `params.dfy` | `_load_params` and `parse_kwargs` |
| `mfm.py` → `run_id.dfy` | the RunID search of `save` |
| `mfm.py` → `mfm.dfy` | class `Mfm`, with `advance` and `run` |

Each controller's decision is a pure step function:

- `Dbs.PeriodicStep` for cDBS;
- `Dbs.LockedStep` for pDBS.

The classes' `Advance` methods are proved to follow their step function. The properties of
the pulse trains are then lemmas over runs of that function:

- the start delay;
- one pulse per period;
- the refractory spacing of pDBS.

The estimators' `Slide` methods are proved to follow the recurrence `Xf ← e·Xf + x`.
`Slid` gives that recurrence, and a closed form is proved for it.

`Mfm.Next` is one `MFM.advance` on values. `Mfm.Mfm.Tick`, one pass of the loop of `run`, is
proved to follow it. `Mfm.Mfm.Run` is proved to end where the steps from its starting state
lead, and it returns the charges delivered:

- the rows are `Evolve` of the charges;
- the stimulation record holds the injected charges;
- with cDBS, the charges are those of the periodic schedule;
- without cDBS, the estimators, the trigger and the amplitude and phase records follow the
  sampled voltages, and the charges are pDBS's pulses.

Lemmas then state each step of that trajectory.

Inputs and conventions of the model:

- **Given as inputs:**
  - the estimator factor `e`, which involves `np.exp`;
  - the measurement of an estimate (amplitude in dB, phase), which involves `np.abs`, `np.angle` and `np.log10`;
  - the right-hand side `dSdt` of the ODE;
  - the noise;
  - `str` of a float.
- **Errors:** Python exceptions become `Result`/`Outcome` values, listed in the order the code raises them, with any state changes made before the raise kept.

## Model

| member | source | states |
|---|---|---|
| Dbs.Charge | dbs.py:23-24 | the pulse charge is never negative; it is 0 or stim_amp·width·1e-6, and at least that product |
| Dbs.Dbs.constructor | dbs.py:6-21 | stores dt, amplitude, width and start time; the charge is the one derived from amplitude and width |
| Dbs.Dbs.CalcCharge | dbs.py:23-24 | recomputes the charge from the current amplitude and width |
| Dbs.Dbs.SetStimAmp | dbs.py:31-34 | sets the amplitude, leaves the width, and the charge follows the new amplitude at once |
| Dbs.Dbs.SetWidth | dbs.py:39-42 | sets the width, leaves the amplitude, and the charge follows the new width at once |
| Dbs.CDbs.constructor | dbs.py:60-85 | the counters start at `_i = 0` and `_pulse_counter = steps_per_pulse`; `n_start = tstart/dt` |
| Dbs.CDbs.Init | dbs.py:60-85 | building fails, with a division by zero, exactly when f or dt is 0; otherwise f, steps_per_pulse, dt, amplitude, width and start time are stored, `n_start = tstart/dt`, and the counters start at (0, steps_per_pulse) |
| Dbs.CDbs.Advance | dbs.py:87-96 | the new counters and the charge are exactly those of one `PeriodicStep`; the charge is 0 or the pulse charge |
| Dbs.PeriodicChargesAt | dbs.py:87-96 | in a run of cDBS calls, call j delivers the pulse charge when it fires and 0 otherwise |
| Dbs.DelayCalls | dbs.py:84-90 | the number of waiting calls is the least natural number not below `n_start` |
| Dbs.Waiting | dbs.py:88-90 | while `_i < n_start`, calls emit nothing and leave the pulse counter unchanged |
| Dbs.OnePeriod | dbs.py:92-95 | after the delay, from a full counter, one period of calls emits exactly one pulse and ends full again |
| Dbs.PulseCount | dbs.py:92-95 | after the delay, from a full counter, k periods of calls emit exactly k pulses |
| Dbs.Schedule | dbs.py:92-95 | after the delay, call j fires if and only if j is a multiple of the period |
| Dbs.FromConstruction | dbs.py:81-96 | from construction, call j fires if and only if j ≥ delay and (j − delay) is a multiple of the period; delay + k·period calls emit exactly k pulses |
| Dbs.FloatMod | dbs.py:140 | Python's `%` for a positive modulus: the result is in [0, m) and differs from a by a whole multiple of m |
| Dbs.ShiftedPhase | dbs.py:140 | the shifted phase lies in [−π, π) and differs from phase − phase_thr by a whole multiple of 2π |
| Dbs.PDbs.constructor | dbs.py:104-126 | stores the parameters; estimate, amplitude and phase start at 0; `_last_shift_phase = inf`, `_shift_phase = 0`, and the refractory counter starts at `n_ref` |
| Dbs.PDbs.Init | dbs.py:104-126 | dt = 0 fails with a division by zero (at fs = 1/dt); otherwise building fails if and only if the aSWIFT parameter check fails for tau_s or tau_f at fs = 1/dt, with the slow one's error first; on success every parameter is stored, both estimators start at zero with the given factors, the charge is the one derived from amplitude and width, `n_ref = 1/(f·dt)·ref_period`, and the trigger state is (inf, 0, n_ref) |
| Dbs.PDbs.Update | dbs.py:128-130 | sets `n_ref = 1/(f·dt)·ref_period` and `i_ref = n_ref` |
| Dbs.PDbs.Advance | dbs.py:132-152 | both estimators slide by the sample; the estimate is slow minus fast; amplitude and phase are the measurement of the estimate; thresholds and `n_ref` stay; the trigger state and the charge follow `LockedStep` |
| Dbs.ReadingsAt | dbs.py:132-140 | in a run of pDBS calls, call j reads the measurement of the estimate after samples 0 … j, with the thresholds in force |
| Dbs.EstimateFromZero | dbs.py:114-133 | from zero accumulators, the estimate after the samples is the slow weighted sum minus the fast one |
| Dbs.LockedChargesAt | dbs.py:142-152 | in a run of pDBS calls, call j delivers the pulse charge when it fires and 0 otherwise |
| Dbs.PDbs.SetPhaseThr | dbs.py:159-161 | only the phase threshold changes, and the object stays well formed |
| Dbs.PDbs.SetPowerThr | dbs.py:166-168 | only the power threshold changes, and the object stays well formed |
| Dbs.FirstCallSilent | dbs.py:123-143 | a freshly built pDBS cannot fire on its first call, whatever it reads: the previous shifted phase is then 0, not negative |
| Dbs.RefractoryCounter | dbs.py:145-150 | after a pulse on call a, the refractory counter before call k > a is at most k − a |
| Dbs.RefractorySpacing | dbs.py:145-150 | any two pDBS pulses are at least `n_ref` calls apart, even if the thresholds change in between |
| Dbs.UngatedUntilFirstPulse | dbs.py:128-150 | before the first pulse the counter is n_ref + k, so a call fires if and only if it is an upward zero crossing whose amplitude reaches the threshold |
| Floats.NegInfThresholdPassesAll | dbs.py:104 | with the default power threshold −inf, every amplitude except NaN passes the power test |
| Swift.AnyNonPositive | swift.py:149-150 | `np.any(s <= 0)` is true if and only if some entry is ≤ 0 |
| Swift.ParamCheck | swift.py:137-152 | passes if and only if fs > 0 and every tau and every f is positive; reports the fs error first, then tau, then f, each exactly under its condition |
| Swift.Step | swift.py:134 | every accumulator becomes e·X + x |
| Swift.SlidAt | swift.py:133-135 | each frequency's accumulator evolves on its own by the scalar recurrence |
| Swift.SlidAppend | swift.py:118-135 | sliding a + b equals sliding a and then b |
| Swift.SlideOneClosedForm | swift.py:133-135 | after n samples the initial value is scaled by eⁿ and sample k by e^(n−1−k) |
| Swift.SwiftClosedForm | swift.py:114-135 | from all zeros, accumulator k is Σⱼ e[k]^(n−1−j)·x[j] |
| Swift.AswiftClosedForm | swift.py:39-56 | from all zeros, the aSWIFT output is the slow weighted sum minus the fast one |
| Swift.Swift.constructor | swift.py:106-116 | stores tau, f and fs; `ntau = tau·fs`; the accumulators start at zero |
| Swift.Swift.Init | swift.py:106-152 | construction fails if and only if the parameter check does, with the check's error; otherwise as the constructor |
| Swift.Swift.Slide | swift.py:118-135 | the accumulators become `Slid(e, old Xf, x)` and are returned |
| Swift.Aswift.constructor | swift.py:33-40 | builds two distinct estimators, for tau_s and tau_f, both at zero |
| Swift.Aswift.Init | swift.py:33-40 | fails if and only if either check fails; the slow estimator's error is reported first |
| Swift.Aswift.Slide | swift.py:42-56 | both estimators slide by the same samples; the result is slow minus fast, entry by entry |
| Params.Truncate | mfm.py:97 | `int(x)` of a finite float rounds toward zero: the result lies between 0 and x, less than 1 away from x |
| Params.Convert | mfm.py:97 | a successful cast has the default's type; a value already of that type is kept as it is; only int and float casts can fail |
| Params.AppliedStep | mfm.py:96-98 | casting in one more known key updates exactly that entry |
| Params.AppliedUnknown | mfm.py:94-95 | an unknown key changes nothing in the table |
| Params.ProcessKwargs | mfm.py:92-98 | succeeds if and only if every known key casts; the result is the table with all arguments cast in; on failure the error is that of some known key's cast; the reported keys are exactly the unknown ones |
| Params.AppliedEntries | mfm.py:92-98 | the new table has the same keys and types as the old one; untouched entries stay, and overridden entries hold the cast argument |
| Params.LoadParams | mfm.py:100-139 | `options` is the table of defaults taken before the overrides; the table is the defaults with the overrides cast in, well typed, with unknown keys reported |
| Literals.SplitTwo | mfm.py:503 | a split into exactly two pieces has exactly one separator, with the pieces on either side |
| Literals.SplitLength | mfm.py:503 | `str.split(sep)` gives one more piece than there are separators |
| Params.KeyValue | mfm.py:503 | a `key=value` argument yields key and value, neither containing `=`, and they rebuild the argument |
| Params.KeyValueOfPair | mfm.py:503 | a key and a value without `=`, joined by `=`, split back into exactly that key and value |
| Params.KeyValueOneSeparator | mfm.py:503 | an argument splits into a key and a value if and only if it holds exactly one `=` |
| Params.ParseKwargs | mfm.py:500-513 | the loop computes `Kwargs(args)`: the dictionary, or the first argument that does not split into one key and one value |
| Params.ParseKwargsFailureSticks | mfm.py:502-503 | once a prefix of the arguments fails, the whole list fails with the same error |
| Params.KwargsSucceedsOnPairs | mfm.py:502-503 | parsing succeeds if and only if every argument splits into a key and a value |
| Params.KwargsSucceeds | mfm.py:502-503 | parsing succeeds if and only if every argument has exactly one `=` |
| Params.KwargsFirstError | mfm.py:502-503 | the first malformed argument is the one reported |
| Params.KwargsKeys | mfm.py:512 | the dictionary's keys are exactly the arguments' keys |
| Params.KwargsLastWins | mfm.py:512 | a key given twice takes the value of its last occurrence |
| Params.IntTextNotBool | mfm.py:504-505 | `str(n)` is never read as a boolean |
| Literals.IntRoundTrip | mfm.py:507 | `int(str(n)) == n` for every integer |
| Params.ParseValueInt | mfm.py:504-507 | an integer written on the command line is read back as that integer |
| Params.IntOverride | mfm.py:504-509 | `key=n` for an int or float parameter sets it to n (as a float for a float parameter) |
| RunId.Prefix | mfm.py:442 | `fname[:3]` has min(3, len(fname)) characters and is the start of the name |
| RunId.LowestUnusedUnique | mfm.py:437-447 | there is at most one lowest unused number |
| RunId.TakenBound | mfm.py:439-446 | if every number below n is taken, there are at least n names |
| RunId.Search | mfm.py:437-447 | the loop stops with the least non-negative number no name carries, which is at most the number of names |
| RunId.SearchAsWritten | mfm.py:434-447 | the search on three-character prefixes: the least number whose prefix no name carries, at most 1000 |
| RunId.SearchCorrected | mfm.py:434-451 | the search on whole stems: the least number no stem carries, and its file name is not present |
| RunId.AssignRunId | mfm.py:434-449 | a configured RunID other than −1 is kept; a failing listing gives 0; otherwise the corrected search, whose file is not present |
| RunId.PrefixValueBound | mfm.py:442-443 | no name reads as a number above 999 through `int(fname[:3])` |
| RunId.StemOfFileName | mfm.py:451 | the stem of `'{:03d}.mfm'.format(id)` reads back as id |
| RunId.FreshFileName | mfm.py:447-451 | the least unused stem names a file that is not present |
| RunId.PrefixOfFileName | mfm.py:442-451 | for ids below 1000 the prefix of the file name reads back as id |
| Literals.Pad3RoundTrip | mfm.py:451 | `'{0:03d}'.format(n)` is at least three digits and reads back as n |
| RunId.AsWrittenOverwrites | mfm.py:442-451 | with 000.mfm–999.mfm and 1000.mfm present, the search as written answers 1000, whose file already exists |
| Mfm.StructNamesVoltages | mfm.py:259-267 | every population name in `struct` maps to a voltage column |
| Mfm.StepOutcomePass | mfm.py:379-391 | a step raises nothing if and only if an injecting configuration has a known stimulation target and Cm ≠ 0, and a configuration without cDBS has a known state target |
| Mfm.Inject | mfm.py:381 | one column gains the amount; every other column is unchanged |
| Mfm.Stepped | mfm.py:395-415 | the next row is the Euler step row + dt·dSdt, with noise added exactly on the nine voltage channels |
| Mfm.Mfm.constructor | mfm.py:35-49 | row 0 holds the initial state, every other cell is 0, and the telemetry starts at 0 |
| Mfm.Mfm.Deliver | mfm.py:381-382 | one cell of the current row gains C/Cm; the stimulation record gets C at i+1 only when C ≠ 0 |
| Mfm.Mfm.Integrate | mfm.py:395-417 | row i+1 becomes `Stepped(row i)`, no other row changes, and i increases by one |
| Mfm.Mfm.StepOpenLoop | mfm.py:379-382 | cDBS advances by one `PeriodicStep`; the outcome is `StepOutcome`; on success its charge is injected and recorded |
| Mfm.Mfm.StepClosedLoop | mfm.py:384-391 | with an unknown state target nothing changes; otherwise pDBS advances on the target's voltage: both estimators slide by it, the estimate is slow minus fast, amplitude and phase are its measurement, thresholds and `n_ref` stay, the trigger and charge follow `LockedStep`; then `Record` |
| Mfm.Mfm.Record | mfm.py:386-391 | with pDBS on, the charge is injected and recorded (or the step fails); amplitude and phase are recorded at i+1 |
| Mfm.Mfm.AdvanceOpenLoop | mfm.py:377-417 | the cDBS branch followed by the Euler step, on success only |
| Mfm.Mfm.AdvanceClosedLoop | mfm.py:377-417 | the pDBS branch, with the estimate, amplitude, phase, thresholds and `n_ref` as in `StepClosedLoop`, followed by the Euler step, on success only |
| Mfm.Mfm.Advance | mfm.py:377-417 | a full step. Outcome: `StepOutcome`. Controllers: each advances per its step function (pDBS with its estimate, amplitude and phase as in `StepClosedLoop`), and the other stays as it was; the pulse parameters, thresholds and `n_ref` stay. State: row i gets the delivered charge, row i+1 the Euler step from it, every other row unchanged. Telemetry: updated exactly as written. i increases only on success |
| Mfm.Mfm.Tick | mfm.py:302-424 | one pass of the loop: `dSdt` from the current rows, then `advance`; the outcome is `StepOutcome`; on success the new state and the charge are `Next` of the old state in the same configuration; on failure i, the state and the telemetry are unchanged |
| Mfm.NextFollows | mfm.py:377-417 | one more step keeps a run on track: the rows are `Evolve` of the charges and the stimulation record holds the injected ones; with cDBS the charges are the periodic schedule's and amplitude and phase stay; without it the estimators have slid over the sampled voltages, the trigger has run over the readings, the charges are its pulses, and the amplitude and phase records hold the readings |
| Mfm.Mfm.Run | mfm.py:419-428 | steps until i = N−1, or fails on the first step with that step's error; on success it made N−1−i steps and the final state is where those steps lead from the starting state (as in `NextFollows`), with the charges returned; rows before the starting one are never rewritten; without a controller on, the stimulation record stays the same; with cDBS on, amplitude and phase records stay the same; the pulse parameters, thresholds and `n_ref` stay |
| Mfm.EvolveOutside | mfm.py:377-417 | the steps from row `start` write only rows `start` to `start + steps` |
| Mfm.EvolveTrajectory | mfm.py:306-417 | at step j of a run (row k): rows below k are already final and rows above it still initial; row k ends as the row the step began with plus the delivered charge; row k+1 is the Euler step from that row, with `dSdt` from the rows as the step began, plus the next charge if one follows |
| Mfm.UninjectedTrajectory | mfm.py:393-417 | with no controller on, row k+1 of the run is the Euler step from the final row k, with `dSdt` from the final rows up to k |
| Mfm.SamplesAt | mfm.py:385 | pDBS reads at step j the state target's voltage in row start+j as the step began |
| Mfm.StimRecordAt | mfm.py:379-388 | after a run, stimulation entry t holds the charge of step t−1 when that step injected a non-zero charge, and is untouched otherwise |
| Mfm.WrittenAt | mfm.py:390-391 | after a run, amplitude or phase entry t holds the value of step t−1 when there was one, and is untouched otherwise |

## Left out

- `np.exp`, `np.abs`, `np.angle` and `np.log10` are not modelled. The estimator factor `e`
  and the measurement of an estimate are inputs.
- Floating point is modelled as exact reals. There is no rounding, and a literal such as
  `1e400` does not become `inf`. The `Float` type (finite, `±inf`, NaN) is used where the
  code meets those values: the amplitude in dB, the power threshold, and float parameters
  and literals. Other floats are reals.
- The right-hand side of the ODE is not modelled: the sigmoids, the axonal delays
  `int(x/dt)` and the connection constants of `_set_MFM_params`. `Mfm.Advance` takes
  `dSdt`, and `Mfm.Run` takes a function from the state rows and the step index to `dSdt`.
- `np.random.normal` is not modelled. The noise is an input function of the step, the
  channel, the current value and the next value before noise.
- cDBS: `round` is not modelled, so `steps_per_pulse` (`int(round(1/f/dt))`) is given to the
  constructor.
- The derived parameters of `_load_params` (`N`, `fs`, `swift_tau_s` when it is `None`,
  `swift_tau_f`) are not modelled. They are floating-point computations done after the
  overrides.
- `_set_DBS` is not modelled. The controllers are built by the caller (with `CDbs.Init` and
  `PDbs.Init`) and given to the `Mfm` constructor.
- The `aswift` instance that `MFM.__init__` builds (mfm.py:41-44) is never used, and it is not
  modelled. Its parameter checks can still raise in Python, for example when `swift_c` or
  `swift_s2f` is not positive. No `Mfm` operation reports those errors.
- The constructors of `CDbs`, `PDbs`, `Swift` and `Aswift` require what Python would otherwise
  raise on: a zero `f` or `dt`, or a failing parameter check. The `Init` method beside each
  one models that error path and returns it as a `Result`.
- Dbs.PDbs.Update requires `dt != 0` and `f > 0`. `_update` is called only from the
  constructor, after the estimator's parameter check has made both hold.
- Mfm.Mfm.Run: when a run fails, its first step has already advanced the controller (cDBS's
  counters, or pDBS's estimators and trigger), as in Python. `Run`'s contract leaves that
  partial change unstated; `Advance`'s contract states it.
- Mfm.Mfm.Advance requires `i + 1 < N`. At the last row the code would raise `IndexError`,
  but `run` never calls it there.
- Mfm.Mfm.constructor requires `N >= 1`. Python would raise `IndexError` when it writes
  row 0 of an empty state.
- Params.ProcessKwargs does not say which error is reported when several arguments fail. It
  also does not model the partial updates made before the raise. Python visits the keys in
  dictionary order, and the exception leaves `MFM()` regardless.
- `print` of an invalid keyword is not modelled. Those keys are returned as `ignored`.
- `str()` of a float depends on shortest round-trip digits, which exact reals cannot
  reproduce, so it is not modelled. It is an input (`floatText`) to the casts to `str`.
- `int` to `float` overflow for integers above about 1.8e308 is not modelled.
- Only ASCII is modelled for `int()`, `float()`, `strip()` and `lower()`. Other Unicode digits
  and whitespace, which Python also accepts, are not.
- The filesystem is not modelled: `os.listdir` becomes an `Option` of a name list, and
  `os.makedirs` is left out. `pickle.dump` and `load` are left out too.
- Plotting, the progress bar, `__str__`, `docopt`, `tabulate` and `main`'s `--list` branch
  are not modelled. They are output only.
- pDBS takes a single centre frequency `f`, as `MFM` passes it. An array `f` is not
  modelled for pDBS. `Swift` itself handles any number of frequencies.
- Where the code and its description differ, the model follows the code:
  - the shifted phase lies in [−π, π), from Python's floored `%`;
  - when amplitude and width are both negative, the charge is positive, since `max` sees a
    positive product;
  - the first pDBS call can never fire: `_last_shift_phase` is overwritten with the initial
    `_shift_phase = 0` before the test, so the `inf` set in the constructor is never compared.

## Findings

| source | as written | input that shows it | evidently intended | confidence | as-written member | corrected member |
|---|---|---|---|---|---|---|
| mfm.py:442 | the RunID search reads each file's number as `int(fname[:3])`, its first three characters | a `data` directory holding `000.mfm` to `999.mfm` and `1000.mfm`: every number below 1000 is taken, and no prefix reads as 1000, so the search answers 1000 and `save` overwrites `1000.mfm` on every later run | read the whole number in front of the extension, so the RunID found names a file that is not there | not executed | RunId.SearchAsWritten, RunId.AsWrittenOverwrites | RunId.SearchCorrected (used by RunId.AssignRunId) |
