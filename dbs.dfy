/**
 * The stimulation controllers of dbs.py, one call per integration step.
 *
 * `Dbs` holds what every controller shares: the pulse amplitude (mA), the pulse width (us)
 * and the charge per pulse (mC) derived from them. Python's subclassing becomes composition:
 * `CDbs` (open loop, periodic) and `PDbs` (closed loop, phase-locked) each own a `Dbs` as
 * `base`. Each controller's decision logic is given as a pure step function, and the
 * controllers' `Advance` methods are proved to follow it.
 */
module Dbs {
  import opened Wrappers
  import opened Floats
  import opened ComplexNumbers
  import Swift

  /** The `1e-6` factor from mA * us to mC. */
  const Micro: real := 0.000001

  /** `max(0, stim_amp * width * 1e-6)`: the product when it is positive, otherwise zero. */
  function Charge(stimAmp: real, width: real): (q: real)
    ensures q >= 0.0 && q >= stimAmp * width * Micro
    ensures q == 0.0 || q == stimAmp * width * Micro
  {
    var p := stimAmp * width * Micro;
    if p > 0.0 then p else 0.0
  }

  /** Why building a controller raises: a division by a zero `f` or `dt`, or the estimator's parameter check. */
  datatype BuildError = ZeroDivision | Estimator(cause: Swift.ParamError)

  class Dbs {
    const dt: real
    const tstart: real
    var stimAmp: real
    var width: real
    var charge: real

    /** The stored charge is always the one derived from the current amplitude and width. */
    ghost predicate Valid()
      reads this
    {
      charge == Charge(stimAmp, width)
    }

    constructor (dt: real, stimAmp: real, width: real, tstart: real)
      ensures Valid()
      ensures this.dt == dt && this.stimAmp == stimAmp && this.width == width && this.tstart == tstart
    {
      this.dt := dt;
      this.stimAmp := stimAmp;
      this.width := width;
      this.tstart := tstart;
      this.charge := Charge(stimAmp, width);
    }

    /** `_calc_charge` */
    method CalcCharge()
      modifies this`charge
      ensures Valid()
    {
      charge := Charge(stimAmp, width);
    }

    /** The `stim_amp` setter: the charge follows the new amplitude at once. */
    method SetStimAmp(x: real)
      modifies this`stimAmp, this`charge
      ensures Valid()
      ensures stimAmp == x && width == old(width) && charge == Charge(x, width)
    {
      stimAmp := x;
      CalcCharge();
    }

    /** The `width` setter: the charge follows the new width at once. */
    method SetWidth(x: real)
      modifies this`width, this`charge
      ensures Valid()
      ensures width == x && stimAmp == old(stimAmp) && charge == Charge(stimAmp, x)
    {
      width := x;
      CalcCharge();
    }
  }

  // ---------------------------------------------------------------------------------------
  // cDBS: the open-loop pulse generator

  /** cDBS's counters: `_i` counts the calls spent waiting, `_pulse_counter` the calls since the last pulse. */
  datatype Periodic = Periodic(i: int, counter: int)

  /** One `cDBS.advance`: the next counters and whether this call emits a pulse. */
  function PeriodicStep(nStart: real, period: int, s: Periodic): (Periodic, bool)
  {
    if (s.i as real) < nStart then (Periodic(s.i + 1, s.counter), false)
    else if s.counter >= period then (Periodic(s.i, 1), true)
    else (Periodic(s.i, s.counter + 1), false)
  }

  /** The counters after `n` calls starting from `s`, with the number of pulses emitted on the way. */
  function PeriodicRun(nStart: real, period: int, s: Periodic, n: nat): (Periodic, nat)
  {
    if n == 0 then (s, 0)
    else
      var (t, pulses) := PeriodicRun(nStart, period, s, n - 1);
      var (u, fired) := PeriodicStep(nStart, period, t);
      (u, if fired then pulses + 1 else pulses)
  }

  /** Whether call number `j` (counting from 0) after state `s` emits a pulse. */
  function PeriodicFires(nStart: real, period: int, s: Periodic, j: nat): bool
  {
    PeriodicStep(nStart, period, PeriodicRun(nStart, period, s, j).0).1
  }

  /** The charges of `n` successive `cDBS.advance` calls from `s`: `charge` on a firing call, 0 otherwise. */
  function PeriodicCharges(nStart: real, period: int, s: Periodic, n: nat, charge: real): (qs: seq<real>)
    ensures |qs| == n
  {
    if n == 0 then []
    else PeriodicCharges(nStart, period, s, n - 1, charge) + [if PeriodicFires(nStart, period, s, n - 1) then charge else 0.0]
  }

  /** Call `j` delivers `charge` exactly when it fires. */
  lemma {:induction false} PeriodicChargesAt(nStart: real, period: int, s: Periodic, n: nat, charge: real, j: nat)
    requires j < n
    ensures PeriodicCharges(nStart, period, s, n, charge)[j] == if PeriodicFires(nStart, period, s, j) then charge else 0.0
    decreases n
  {
    if j < n - 1 {
      PeriodicChargesAt(nStart, period, s, n - 1, charge, j);
    }
  }

  /** The number of calls cDBS spends waiting: the least natural number not below `n_start`. */
  function DelayCalls(nStart: real): (w: nat)
    ensures nStart <= w as real
    ensures w == 0 || (w - 1) as real < nStart
  {
    if nStart <= 0.0 then 0 else -((-nStart).Floor)
  }

  lemma {:induction false} PeriodicRunAppend(nStart: real, period: int, s: Periodic, m: nat, n: nat)
    ensures PeriodicRun(nStart, period, s, m + n).0
         == PeriodicRun(nStart, period, PeriodicRun(nStart, period, s, m).0, n).0
    ensures PeriodicRun(nStart, period, s, m + n).1
         == PeriodicRun(nStart, period, s, m).1 + PeriodicRun(nStart, period, PeriodicRun(nStart, period, s, m).0, n).1
    decreases n
  {
    if n > 0 {
      PeriodicRunAppend(nStart, period, s, m, n - 1);
    }
  }

  /** While `_i < _n_start` every call only increments `_i`: no pulse, and the pulse counter is left alone. */
  lemma {:induction false} Waiting(nStart: real, period: int, s: Periodic, n: nat)
    requires n > 0 ==> (s.i + n - 1) as real < nStart
    ensures PeriodicRun(nStart, period, s, n) == (Periodic(s.i + n, s.counter), 0)
    decreases n
  {
    if n > 0 {
      Waiting(nStart, period, s, n - 1);
    }
  }

  /** Past the delay, a counter below the period climbs by one per call without a pulse. */
  lemma {:induction false} Climb(nStart: real, period: int, s: Periodic, r: nat)
    requires nStart <= s.i as real
    requires 1 <= s.counter && s.counter + r <= period
    ensures PeriodicRun(nStart, period, s, r) == (Periodic(s.i, s.counter + r), 0)
    decreases r
  {
    if r > 0 {
      Climb(nStart, period, s, r - 1);
    }
  }

  /** Past the delay, from a full counter, one period of calls emits exactly one pulse and ends full again. */
  lemma OnePeriod(nStart: real, period: int, s: Periodic)
    requires period >= 1 && nStart <= s.i as real && s.counter == period
    ensures PeriodicRun(nStart, period, s, period as nat) == (s, 1)
  {
    PeriodicRunAppend(nStart, period, s, 1, period as nat - 1);
    Climb(nStart, period, Periodic(s.i, 1), period as nat - 1);
  }

  /** Past the delay, from a full counter, `k` periods of calls emit exactly `k` pulses. */
  lemma {:induction false} PulseCount(nStart: real, period: int, s: Periodic, k: nat)
    requires period >= 1 && nStart <= s.i as real && s.counter == period
    ensures PeriodicRun(nStart, period, s, k * period as nat) == (s, k)
    decreases k
  {
    if k > 0 {
      var p := period as nat;
      assert k * p == (k - 1) * p + p;
      PulseCount(nStart, period, s, k - 1);
      PeriodicRunAppend(nStart, period, s, (k - 1) * p, p);
      OnePeriod(nStart, period, s);
    }
  }

  /** Past the delay, from a full counter, call `j` emits a pulse exactly when `j` is a multiple of the period. */
  lemma Schedule(nStart: real, period: int, s: Periodic, j: nat)
    requires period >= 1 && nStart <= s.i as real && s.counter == period
    ensures PeriodicFires(nStart, period, s, j) <==> j % period == 0
  {
    var p := period as nat;
    var q, r := j / p, j % p;
    assert j == q * p + r;
    PulseCount(nStart, period, s, q);
    PeriodicRunAppend(nStart, period, s, q * p, r);
    if r > 0 {
      PeriodicRunAppend(nStart, period, s, 1, r - 1);
      Climb(nStart, period, Periodic(s.i, 1), r - 1);
    }
  }

  /**
   * From construction (`_i == 0`, `_pulse_counter == _steps_per_pulse`): the first `DelayCalls(n_start)`
   * calls are silent, the call right after them fires, then every `period`-th call fires, so that
   * `DelayCalls(n_start) + k * period` calls emit exactly `k` pulses.
   */
  lemma FromConstruction(nStart: real, period: int, j: nat, k: nat)
    requires period >= 1
    ensures var w := DelayCalls(nStart);
      (PeriodicFires(nStart, period, Periodic(0, period), j) <==> j >= w && (j - w) % period == 0)
      && PeriodicRun(nStart, period, Periodic(0, period), w + k * period as nat).1 == k
  {
    var w := DelayCalls(nStart);
    var s0 := Periodic(0, period);
    Waiting(nStart, period, s0, w);
    var s1 := Periodic(w, period);
    if j < w {
      Waiting(nStart, period, s0, j);
    } else {
      PeriodicRunAppend(nStart, period, s0, w, j - w);
      Schedule(nStart, period, s1, j - w);
    }
    PeriodicRunAppend(nStart, period, s0, w, k * period as nat);
    PulseCount(nStart, period, s1, k);
  }

  class CDbs {
    const base: Dbs
    const f: real
    const stepsPerPulse: int
    const nStart: real
    var i: int
    var pulseCounter: int

    ghost predicate Valid()
      reads this, base
    {
      base.Valid()
    }

    function State(): Periodic
      reads this
    {
      Periodic(i, pulseCounter)
    }

    /**
     * `cDBS.__init__`; `stepsPerPulse` is `int(round(1/f/dt))`, computed by the caller.
     * Python divides by `f` and by `dt` here.
     */
    constructor (f: real, stepsPerPulse: int, dt: real, stimAmp: real, width: real, tstart: real)
      requires f != 0.0 && dt != 0.0
      ensures Valid() && fresh(base)
      ensures base.dt == dt && base.stimAmp == stimAmp && base.width == width && base.tstart == tstart
      ensures this.f == f && this.stepsPerPulse == stepsPerPulse && nStart == tstart / dt
      ensures State() == Periodic(0, stepsPerPulse)
    {
      base := new Dbs(dt, stimAmp, width, tstart);
      this.f := f;
      this.stepsPerPulse := stepsPerPulse;
      this.nStart := tstart / dt;
      this.i := 0;
      this.pulseCounter := stepsPerPulse;
    }

    /**
     * `cDBS(...)`: Python raises `ZeroDivisionError` at `1./f/dt` when `f` or `dt` is zero;
     * otherwise the object is built as the constructor states.
     */
    static method Init(f: real, stepsPerPulse: int, dt: real, stimAmp: real, width: real, tstart: real)
      returns (r: Result<CDbs, BuildError>)
      ensures r.Failure? <==> f == 0.0 || dt == 0.0
      ensures r.Failure? ==> r.error == ZeroDivision
      ensures r.Success? ==> fresh(r.value) && fresh(r.value.base) && r.value.Valid()
      ensures r.Success? ==> r.value.base.dt == dt && r.value.base.stimAmp == stimAmp
      ensures r.Success? ==> r.value.base.width == width && r.value.base.tstart == tstart
      ensures r.Success? ==> r.value.f == f && r.value.stepsPerPulse == stepsPerPulse
      ensures r.Success? ==> r.value.nStart == tstart / dt && r.value.State() == Periodic(0, stepsPerPulse)
    {
      if f == 0.0 || dt == 0.0 {
        return Failure(ZeroDivision);
      }
      var c := new CDbs(f, stepsPerPulse, dt, stimAmp, width, tstart);
      return Success(c);
    }

    /** `cDBS.advance`: emits either nothing or one pulse of `charge`, as `PeriodicStep` decides. */
    method Advance() returns (q: real)
      requires Valid()
      modifies this
      ensures Valid()
      ensures var (t, fired) := PeriodicStep(nStart, stepsPerPulse, old(State()));
        State() == t && q == (if fired then base.charge else 0.0)
      ensures q == 0.0 || q == base.charge
    {
      var stim := false;
      if (i as real) < nStart {
        i := i + 1;
      } else {
        if pulseCounter >= stepsPerPulse {
          pulseCounter := 0;
          stim := true;
        }
        pulseCounter := pulseCounter + 1;
      }
      q := if stim then base.charge else 0.0;
    }
  }

  // ---------------------------------------------------------------------------------------
  // pDBS: the phase-locked trigger

  /** `np.pi` */
  const Pi: real := 3.141592653589793

  lemma DivCancel(m: real, q: real)
    requires m > 0.0
    ensures (m * q) / m == q
  {
  }

  /** Python's `a % m` for a positive modulus: the remainder of flooring division, in `[0, m)`. */
  function FloatMod(a: real, m: real): (r: real)
    requires m > 0.0
    ensures 0.0 <= r < m
    ensures ((a - r) / m).Floor as real == (a - r) / m
  {
    var q := (a / m).Floor as real;
    var d := a / m - q;
    assert 0.0 <= d < 1.0;
    assert a == m * q + m * d;
    assert m * (1.0 - d) > 0.0;
    assert m * d >= 0.0;
    assert a - (a - m * q) == m * q;
    DivCancel(m, q);
    a - m * q
  }

  /** `((phase - phase_thr + pi) % (2 pi)) - pi`: the phase offset from the threshold, wrapped into `[-pi, pi)`. */
  function ShiftedPhase(phase: real, phaseThr: real): (r: real)
    ensures -Pi <= r < Pi
    ensures ((phase - phaseThr - r) / (2.0 * Pi)).Floor as real == (phase - phaseThr - r) / (2.0 * Pi)
  {
    FloatMod(phase - phaseThr + Pi, 2.0 * Pi) - Pi
  }

  /** The three nested tests of `pDBS.advance`: a rising zero crossing, the refractory period, the power threshold. */
  predicate Fires(lastShift: Float, shift: real, iRef: real, nRef: real, ampDb: Float, powerThr: Float)
  {
    Less(lastShift, Finite(0.0)) && 0.0 <= shift && iRef >= nRef && AtLeast(ampDb, powerThr)
  }

  /** pDBS's trigger state: `_last_shift_phase`, `_shift_phase` and `_i_ref`. */
  datatype Trigger = Trigger(lastShift: Float, shift: real, iRef: real)

  /** What one call sees: the estimator's amplitude (dB) and phase, and the thresholds set at that time. */
  datatype Reading = Reading(ampDb: Float, phase: real, phaseThr: real, powerThr: Float)

  /** One `pDBS.advance` decision: the next trigger state and whether a pulse is emitted. */
  function LockedStep(nRef: real, t: Trigger, m: Reading): (Trigger, bool)
  {
    var last := Finite(t.shift);
    var shift := ShiftedPhase(m.phase, m.phaseThr);
    var fired := Fires(last, shift, t.iRef, nRef, m.ampDb, m.powerThr);
    (Trigger(last, shift, (if fired then 0.0 else t.iRef) + 1.0), fired)
  }

  /** The trigger state after the readings `ms`, in order. */
  function LockedRun(nRef: real, t: Trigger, ms: seq<Reading>): Trigger
    decreases |ms|
  {
    if ms == [] then t else LockedStep(nRef, LockedRun(nRef, t, ms[..|ms| - 1]), ms[|ms| - 1]).0
  }

  /** Whether call number `k` (counting from 0) of the readings `ms` emits a pulse. */
  function LockedFires(nRef: real, t: Trigger, ms: seq<Reading>, k: nat): bool
    requires k < |ms|
  {
    LockedStep(nRef, LockedRun(nRef, t, ms[..k]), ms[k]).1
  }

  /** The charges of the `pDBS.advance` calls that read `ms`: `charge` on a firing call, 0 otherwise. */
  function LockedCharges(nRef: real, t: Trigger, ms: seq<Reading>, charge: real): (qs: seq<real>)
    ensures |qs| == |ms|
    decreases |ms|
  {
    if ms == [] then []
    else LockedCharges(nRef, t, ms[..|ms| - 1], charge) + [if LockedFires(nRef, t, ms, |ms| - 1) then charge else 0.0]
  }

  /** Call `j` delivers `charge` exactly when it fires. */
  lemma {:induction false} LockedChargesAt(nRef: real, t: Trigger, ms: seq<Reading>, charge: real, j: nat)
    requires j < |ms|
    ensures LockedCharges(nRef, t, ms, charge)[j] == if LockedFires(nRef, t, ms, j) then charge else 0.0
    decreases |ms|
  {
    var init := ms[..|ms| - 1];
    if j < |init| {
      LockedChargesAt(nRef, t, init, charge, j);
      assert init[..j] == ms[..j];
      assert init[j] == ms[j];
    }
  }

  /** A freshly built pDBS (`_shift_phase == 0`) cannot fire on its first call, whatever it reads. */
  lemma FirstCallSilent(nRef: real, t: Trigger, ms: seq<Reading>)
    requires t.shift == 0.0 && |ms| > 0
    ensures !LockedFires(nRef, t, ms, 0)
  {
    assert ms[..0] == [];
  }

  /** After a pulse on call `a`, the refractory counter before call `k > a` is at most `k - a`. */
  lemma {:induction false} RefractoryCounter(nRef: real, t: Trigger, ms: seq<Reading>, a: nat, k: nat)
    requires a < k <= |ms| && LockedFires(nRef, t, ms, a)
    ensures LockedRun(nRef, t, ms[..k]).iRef <= (k - a) as real
    decreases k
  {
    assert ms[..k][..k - 1] == ms[..k - 1];
    assert ms[..k][k - 1] == ms[k - 1];
    if k - 1 > a {
      RefractoryCounter(nRef, t, ms, a, k - 1);
    }
  }

  /** Any two pulses of pDBS are at least `_n_ref` calls apart, whatever the thresholds do meanwhile. */
  lemma RefractorySpacing(nRef: real, t: Trigger, ms: seq<Reading>, a: nat, b: nat)
    requires a < b < |ms| && LockedFires(nRef, t, ms, a) && LockedFires(nRef, t, ms, b)
    ensures nRef <= (b - a) as real
  {
    RefractoryCounter(nRef, t, ms, a, b);
  }

  /**
   * Until the first pulse the refractory counter only grows, from `_n_ref`: the refractory test
   * passes, and a call fires exactly on a rising zero crossing whose amplitude meets the threshold.
   */
  lemma {:induction false} UngatedUntilFirstPulse(nRef: real, t: Trigger, ms: seq<Reading>, k: nat)
    requires t.iRef == nRef && k < |ms|
    requires forall j :: 0 <= j < k ==> !LockedFires(nRef, t, ms, j)
    ensures LockedRun(nRef, t, ms[..k]).iRef == nRef + k as real
    ensures var u := LockedRun(nRef, t, ms[..k]);
      LockedFires(nRef, t, ms, k) <==>
        (u.shift < 0.0 && 0.0 <= ShiftedPhase(ms[k].phase, ms[k].phaseThr) && AtLeast(ms[k].ampDb, ms[k].powerThr))
    decreases k
  {
    if k > 0 {
      UngatedUntilFirstPulse(nRef, t, ms, k - 1);
      assert ms[..k][..k - 1] == ms[..k - 1];
      assert ms[..k][k - 1] == ms[k - 1];
    } else {
      assert ms[..0] == [];
    }
  }

  /** `np.abs`/`np.angle`/`log10` applied to an estimate: its amplitude in dB and its phase. */
  datatype Measure = Measure(ampDb: Float, phase: real)

  /** The aswift estimate after the samples `xs`: the first slow accumulator minus the first fast one. */
  function Estimate(es: seq<Complex>, slow0: seq<Complex>, ef: seq<Complex>, fast0: seq<Complex>, xs: seq<real>): Complex
    requires |es| == |slow0| > 0 && |ef| == |fast0| > 0
  {
    Sub(Swift.Slid(es, slow0, xs)[0], Swift.Slid(ef, fast0, xs)[0])
  }

  /**
   * What successive `pDBS.advance` calls read from the samples `xs`: after sample `j`, the
   * measured estimate of the samples so far, with the thresholds.
   */
  function Readings(es: seq<Complex>, slow0: seq<Complex>, ef: seq<Complex>, fast0: seq<Complex>, xs: seq<real>,
                    measure: Complex -> Measure, phaseThr: real, powerThr: Float): (ms: seq<Reading>)
    requires |es| == |slow0| > 0 && |ef| == |fast0| > 0
    ensures |ms| == |xs|
    decreases |xs|
  {
    if xs == [] then []
    else
      var m := measure(Estimate(es, slow0, ef, fast0, xs));
      Readings(es, slow0, ef, fast0, xs[..|xs| - 1], measure, phaseThr, powerThr) + [Reading(m.ampDb, m.phase, phaseThr, powerThr)]
  }

  /** Reading `j` is the measure of the estimate after the samples `xs[..j + 1]`. */
  lemma {:induction false} ReadingsAt(es: seq<Complex>, slow0: seq<Complex>, ef: seq<Complex>, fast0: seq<Complex>, xs: seq<real>,
                                      measure: Complex -> Measure, phaseThr: real, powerThr: Float, j: nat)
    requires |es| == |slow0| > 0 && |ef| == |fast0| > 0 && j < |xs|
    ensures var m := measure(Estimate(es, slow0, ef, fast0, xs[..j + 1]));
      Readings(es, slow0, ef, fast0, xs, measure, phaseThr, powerThr)[j] == Reading(m.ampDb, m.phase, phaseThr, powerThr)
    decreases |xs|
  {
    var init := xs[..|xs| - 1];
    if j < |init| {
      ReadingsAt(es, slow0, ef, fast0, init, measure, phaseThr, powerThr, j);
      assert init[..j + 1] == xs[..j + 1];
    } else {
      assert xs[..j + 1] == xs;
    }
  }

  /** From zero accumulators the estimate is the difference of the slow and the fast weighted sums. */
  lemma EstimateFromZero(es: seq<Complex>, ef: seq<Complex>, xs: seq<real>)
    requires |es| == |ef| > 0
    ensures Estimate(es, Swift.Zeros(|es|), ef, Swift.Zeros(|ef|), xs) == Sub(Swift.PowerSum(es[0], xs), Swift.PowerSum(ef[0], xs))
  {
    Swift.SwiftClosedForm(es, xs, 0);
    Swift.SwiftClosedForm(ef, xs, 0);
  }

  class PDbs {
    const base: Dbs
    const f: real
    const tauS: real
    const tauF: real
    const refPeriod: real
    const estimator: Swift.Aswift
    var phaseThr: real
    var powerThr: Float
    var X: Complex
    var amp: Float
    var phase: real
    var shiftPhase: real
    var lastShiftPhase: Float
    var nRef: real
    var iRef: real

    ghost function Repr(): set<object>
    {
      {this, base, estimator, estimator.slow, estimator.fast}
    }

    ghost predicate Valid()
      reads Repr()
    {
      && base.Valid()
      && estimator.Valid()
      && estimator.f == [f] && estimator.tauS == tauS && estimator.tauF == tauF
      && base.dt != 0.0 && estimator.fs == 1.0 / base.dt
      && f > 0.0
    }

    function State(): Trigger
      reads this
    {
      Trigger(lastShiftPhase, shiftPhase, iRef)
    }

    /** `pDBS.__init__` around an already-built estimator. */
    constructor (f: real, tauS: real, tauF: real, phaseThr: real, powerThr: Float, refPeriod: real,
                 dt: real, stimAmp: real, width: real, tstart: real, estimator: Swift.Aswift)
      requires dt != 0.0 && f > 0.0
      requires estimator.Valid() && estimator.f == [f] && estimator.tauS == tauS && estimator.tauF == tauF
      requires estimator.fs == 1.0 / dt
      ensures Valid() && fresh(base) && this.estimator == estimator
      ensures base.dt == dt && base.stimAmp == stimAmp && base.width == width && base.tstart == tstart
      ensures this.f == f && this.tauS == tauS && this.tauF == tauF && this.refPeriod == refPeriod
      ensures this.phaseThr == phaseThr && this.powerThr == powerThr
      ensures X == Zero && amp == Finite(0.0) && phase == 0.0
      ensures nRef == 1.0 / (f * dt) * refPeriod
      ensures State() == Trigger(PosInf, 0.0, nRef)
    {
      base := new Dbs(dt, stimAmp, width, tstart);
      this.f := f;
      this.tauS := tauS;
      this.tauF := tauF;
      this.phaseThr := phaseThr;
      this.powerThr := powerThr;
      this.refPeriod := refPeriod;
      this.estimator := estimator;
      this.X := Zero;
      this.amp := Finite(0.0);
      this.phase := 0.0;
      this.shiftPhase := 0.0;
      this.lastShiftPhase := PosInf;
      new;
      Update();
    }

    /**
     * `pDBS(...)`: computes `fs = 1/dt` (a `ZeroDivisionError` when `dt` is zero), builds the aswift
     * estimator at `fs` (raising its parameter error, the slow one's first) and the trigger.
     * `eSlow`/`eFast` are the estimator factors for `tau_s` and `tau_f`.
     */
    static method Init(f: real, tauS: real, tauF: real, phaseThr: real, powerThr: Float, refPeriod: real,
                       dt: real, stimAmp: real, width: real, tstart: real, eSlow: Complex, eFast: Complex)
      returns (r: Result<PDbs, BuildError>)
      ensures dt == 0.0 ==> r == Failure(ZeroDivision)
      ensures dt != 0.0 ==> (r.Failure? <==>
        Swift.ParamCheck([tauS], [f], 1.0 / dt) != Pass || Swift.ParamCheck([tauF], [f], 1.0 / dt) != Pass)
      ensures dt != 0.0 && Swift.ParamCheck([tauS], [f], 1.0 / dt).Fail? ==>
        r == Failure(Estimator(Swift.ParamCheck([tauS], [f], 1.0 / dt).error))
      ensures dt != 0.0 && Swift.ParamCheck([tauS], [f], 1.0 / dt).Pass? && Swift.ParamCheck([tauF], [f], 1.0 / dt).Fail? ==>
        r == Failure(Estimator(Swift.ParamCheck([tauF], [f], 1.0 / dt).error))
      ensures r.Success? ==> fresh(r.value.Repr()) && r.value.Valid()
      ensures r.Success? ==> r.value.f == f && r.value.tauS == tauS && r.value.tauF == tauF
      ensures r.Success? ==> r.value.refPeriod == refPeriod && r.value.base.dt == dt
      ensures r.Success? ==> r.value.base.stimAmp == stimAmp && r.value.base.width == width
      ensures r.Success? ==> r.value.base.tstart == tstart
      ensures r.Success? ==> r.value.estimator.slow.Xf == [Zero] && r.value.estimator.fast.Xf == [Zero]
      ensures r.Success? ==> r.value.estimator.slow.e == [eSlow] && r.value.estimator.fast.e == [eFast]
      ensures r.Success? ==> r.value.phaseThr == phaseThr && r.value.powerThr == powerThr
      ensures r.Success? ==> r.value.base.charge == Charge(stimAmp, width)
      ensures r.Success? ==> r.value.nRef == 1.0 / (f * dt) * refPeriod
      ensures r.Success? ==> r.value.State() == Trigger(PosInf, 0.0, r.value.nRef)
    {
      if dt == 0.0 {
        return Failure(ZeroDivision);
      }
      var a := Swift.Aswift.Init(tauS, tauF, [f], 1.0 / dt, [eSlow], [eFast]);
      if a.Failure? {
        return Failure(Estimator(a.error));
      }
      assert Swift.Zeros(1) == [Zero];
      var p := new PDbs(f, tauS, tauF, phaseThr, powerThr, refPeriod, dt, stimAmp, width, tstart, a.value);
      return Success(p);
    }

    /** `_update`: the refractory length in calls, `ref_period` cycles of `f`; the counter starts full. */
    method Update()
      requires base.dt != 0.0 && f > 0.0
      modifies this`nRef, this`iRef
      ensures nRef == 1.0 / (f * base.dt) * refPeriod && iRef == nRef
    {
      nRef := 1.0 / (f * base.dt) * refPeriod;
      iRef := nRef;
    }

    /**
     * `pDBS.advance(x)`: slides the estimator by the sample `x`, measures the estimate, and emits
     * one pulse of `charge` exactly when `LockedStep` decides so.
     */
    method Advance(x: real, measure: Complex -> Measure) returns (q: real)
      requires Valid()
      modifies this, estimator.slow, estimator.fast
      ensures Valid()
      ensures estimator.slow.Xf == Swift.Slid(estimator.slow.e, old(estimator.slow.Xf), [x])
      ensures estimator.fast.Xf == Swift.Slid(estimator.fast.e, old(estimator.fast.Xf), [x])
      ensures X == Sub(estimator.slow.Xf[0], estimator.fast.Xf[0])
      ensures amp == measure(X).ampDb && phase == measure(X).phase
      ensures phaseThr == old(phaseThr) && powerThr == old(powerThr) && nRef == old(nRef)
      ensures var (t, fired) := LockedStep(nRef, old(State()), Reading(amp, phase, phaseThr, powerThr));
        State() == t && q == (if fired then base.charge else 0.0)
      ensures q == 0.0 || q == base.charge
    {
      var est := estimator.Slide([x]);
      X := est[0];
      var m := measure(X);
      amp, phase := m.ampDb, m.phase;

      lastShiftPhase := Finite(shiftPhase);
      shiftPhase := ShiftedPhase(phase, phaseThr);

      var stim := false;
      if Less(lastShiftPhase, Finite(0.0)) && 0.0 <= shiftPhase {
        if iRef >= nRef {
          if AtLeast(amp, powerThr) {
            stim := true;
            iRef := 0.0;
          }
        }
      }
      iRef := iRef + 1.0;
      q := if stim then base.charge else 0.0;
    }

    /** The `phase_thr` setter: only the threshold changes; estimator, refractory and phase state stay. */
    method SetPhaseThr(x: real)
      requires Valid()
      modifies this`phaseThr
      ensures Valid() && phaseThr == x
    {
      phaseThr := x;
    }

    /** The `power_thr` setter: only the threshold changes; estimator, refractory and phase state stay. */
    method SetPowerThr(x: Float)
      requires Valid()
      modifies this`powerThr
      ensures Valid() && powerThr == x
    {
      powerThr := x;
    }
  }
}
