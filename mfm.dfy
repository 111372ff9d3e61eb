/**
 * One integration step of the basal-ganglia-thalamocortical mean-field model and the loop that
 * repeats it. The state is an `N x 20` array of rows, one row per time step, holding for each of
 * the ten populations its voltage and the voltage's derivative. A step asks the stimulation
 * controller for a charge, injects it into the stimulated population, records telemetry, and
 * fills the next row by an Euler step plus noise on the voltages. The right-hand side `dSdt` and
 * the noise are given: they are floating-point numerics and random draws.
 */
module Mfm {
  import opened Wrappers
  import opened Floats
  import opened ComplexNumbers
  import Swift
  import Dbs

  /** The number of state variables per row. */
  const Channels: nat := 20

  /** A value for every state variable. */
  type Vector = v: seq<real> | |v| == Channels witness seq(20, _ => 0.0)

  /**
   * The noise added on a voltage channel: of the step index, the channel, its value in the
   * current row and its value in the next row before the noise.
   */
  type Noise = (nat, nat, real, real) -> real

  /** The columns of the population voltages, by population name (`struct`). */
  const Struct: map<string, nat> :=
    map["e" := 2, "i" := 4, "d1" := 6, "d2" := 8, "p1" := 10, "p2" := 12, "STN" := 14, "s" := 16, "r" := 18]

  /** The channels that receive noise: the voltages `Ve` to `Vr`. */
  predicate IsVoltage(c: nat)
  {
    2 <= c <= 18 && c % 2 == 0
  }

  /** Every named population is a voltage column: charge is injected into a voltage. */
  lemma StructNamesVoltages(name: string)
    requires name in Struct
    ensures Struct[name] < Channels && IsVoltage(Struct[name])
  {
  }

  /** The first row of the state. */
  const InitialState: seq<real> := [
    43.74102506, -1.15197439, 6.96276347, -22.25852135, 7.19671392,
    -28.57548512, 17.26916297, 132.89911127, 9.71319243, 67.69191101,
    9.57769785, -21.11198645, 5.33943222, -22.62375016, 0.54172422,
    -22.23467637, 6.76173506, 143.5386694, 7.49756915, 23.59983148
  ]

  /** The errors a step can raise: a population name missing from `struct` (`KeyError`), and `Cm == 0` (`ZeroDivisionError`). */
  datatype StepError = UnknownTarget(name: string) | ZeroCapacitance

  /**
   * Whether a step raises, and what: with cDBS the stimulation target is looked up before the
   * charge is divided by `Cm`; without, the state target is looked up before pDBS runs, and the
   * stimulation target and `Cm` only when pDBS injects.
   */
  function StepOutcome(cdbsOn: bool, pdbsOn: bool, stimTarget: string, stateTarget: string, cm: real): Outcome<StepError>
  {
    if cdbsOn then
      if stimTarget !in Struct then Fail(UnknownTarget(stimTarget))
      else if cm == 0.0 then Fail(ZeroCapacitance)
      else Pass
    else if stateTarget !in Struct then Fail(UnknownTarget(stateTarget))
    else if pdbsOn && stimTarget !in Struct then Fail(UnknownTarget(stimTarget))
    else if pdbsOn && cm == 0.0 then Fail(ZeroCapacitance)
    else Pass
  }

  /** A configuration that injects needs a known stimulation target and a non-zero `Cm`; the state target is needed without cDBS. */
  lemma StepOutcomePass(cdbsOn: bool, pdbsOn: bool, stimTarget: string, stateTarget: string, cm: real)
    ensures StepOutcome(cdbsOn, pdbsOn, stimTarget, stateTarget, cm) == Pass <==>
      ((cdbsOn || pdbsOn) ==> stimTarget in Struct && cm != 0.0) && (!cdbsOn ==> stateTarget in Struct)
  {
  }

  /** The row `r` of a two-dimensional array. */
  function RowOf(a: array2<real>, r: nat): (row: seq<real>)
    requires r < a.Length0
    reads a
    ensures |row| == a.Length1 && forall c :: 0 <= c < a.Length1 ==> row[c] == a[r, c]
  {
    seq(a.Length1, c requires 0 <= c < a.Length1 reads a => a[r, c])
  }

  /** All rows of a two-dimensional array. */
  function RowsOf(a: array2<real>): (rows: seq<seq<real>>)
    reads a
    ensures |rows| == a.Length0 && forall r :: 0 <= r < a.Length0 ==> rows[r] == RowOf(a, r)
  {
    seq(a.Length0, r requires 0 <= r < a.Length0 reads a => RowOf(a, r))
  }

  /** `row` with `amount` added to column `col` and every other column as it was. */
  function Inject(row: seq<real>, col: nat, amount: real): (r: seq<real>)
    requires col < |row|
    ensures |r| == |row| && r[col] == row[col] + amount
    ensures forall c :: 0 <= c < |row| && c != col ==> r[c] == row[c]
  {
    row[col := row[col] + amount]
  }

  /** Channel `c` of the next row, from its value `v` in the current row and its derivative `d`. */
  function NextValue(v: real, d: real, dt: real, noise: Noise, step: nat, c: nat): real
  {
    if IsVoltage(c) then v + dt * d + noise(step, c, v, v + dt * d) else v + dt * d
  }

  /** The next row: the Euler step `row + dt*dSdt`, then the noise on each voltage channel. */
  function Stepped(row: seq<real>, dSdt: Vector, dt: real, noise: Noise, step: nat): (next: seq<real>)
    requires |row| == Channels
    ensures |next| == Channels
    ensures forall c :: 0 <= c < Channels && !IsVoltage(c) ==> next[c] == row[c] + dt * dSdt[c]
    ensures forall c :: 0 <= c < Channels && IsVoltage(c) ==>
      next[c] == row[c] + dt * dSdt[c] + noise(step, c, row[c], row[c] + dt * dSdt[c])
  {
    seq(Channels, c requires 0 <= c < Channels => NextValue(row[c], dSdt[c], dt, noise, step, c))
  }

  /** The rows after one step at `k`: row `k` becomes `y`, and row `k + 1` the Euler step from `y`. */
  function Advanced(R: seq<seq<real>>, k: nat, y: seq<real>, dSdt: Vector, dt: real, noise: Noise): (R': seq<seq<real>>)
    requires k + 1 < |R| && |y| == Channels
    ensures |R'| == |R| && R'[k] == y && R'[k + 1] == Stepped(y, dSdt, dt, noise, k)
    ensures forall t :: 0 <= t < |R| && t != k && t != k + 1 ==> R'[t] == R[t]
  {
    R[k := y][k + 1 := Stepped(y, dSdt, dt, noise, k)]
  }

  /** Where a controller's charge goes: whether it is injected at all, into which column, and `Cm`. */
  datatype Injection = Injection(on: bool, col: nat, cm: real)

  /** An injection that can happen: a voltage column and a non-zero capacitance. */
  predicate Deliverable(j: Injection)
  {
    j.on ==> j.col < Channels && j.cm != 0.0
  }

  /** A row after the charge `q` was delivered: `q/Cm` added to the stimulated column, or nothing. */
  function Delivered(j: Injection, row: seq<real>, q: real): (r: seq<real>)
    requires |row| == Channels && Deliverable(j)
    ensures |r| == Channels
  {
    if j.on then Inject(row, j.col, q / j.cm) else row
  }

  /** Everything a step depends on besides the rows and the charge. */
  datatype Plant = Plant(rhs: (seq<seq<real>>, nat) -> Vector, dt: real, noise: Noise, injection: Injection)

  /** Every row holds a value for each state variable. */
  predicate Shaped(R: seq<seq<real>>)
  {
    forall t :: 0 <= t < |R| ==> |R[t]| == Channels
  }

  /** One step of `MFM.advance` at row `k` with the charge `q`: `dSdt` from the rows before the injection. */
  function StepRows(p: Plant, R: seq<seq<real>>, k: nat, q: real): (R': seq<seq<real>>)
    requires Deliverable(p.injection) && Shaped(R) && k + 1 < |R|
    ensures |R'| == |R| && Shaped(R')
  {
    Advanced(R, k, Delivered(p.injection, R[k], q), p.rhs(R, k), p.dt, p.noise)
  }

  /** The rows after the steps at `start`, `start + 1`, ... with the charges `qs`, in order. */
  function Evolve(p: Plant, R0: seq<seq<real>>, start: nat, qs: seq<real>): (R: seq<seq<real>>)
    requires qs != [] ==> Deliverable(p.injection)
    requires Shaped(R0) && start + |qs| < |R0|
    ensures |R| == |R0| && Shaped(R)
    decreases |qs|
  {
    if qs == [] then R0
    else StepRows(p, Evolve(p, R0, start, qs[..|qs| - 1]), start + |qs| - 1, qs[|qs| - 1])
  }

  /** The steps write only the rows `start` to `start + |qs|`. */
  lemma {:induction false} EvolveOutside(p: Plant, R0: seq<seq<real>>, start: nat, qs: seq<real>)
    requires qs != [] ==> Deliverable(p.injection)
    requires Shaped(R0) && start + |qs| < |R0|
    ensures forall t :: 0 <= t < |R0| && (t < start || t > start + |qs|) ==> Evolve(p, R0, start, qs)[t] == R0[t]
    decreases |qs|
  {
    if qs != [] {
      EvolveOutside(p, R0, start, qs[..|qs| - 1]);
    }
  }

  /**
   * Step `j` of the run, at row `k = start + j`, in terms of the rows `Snap` it started from:
   * rows below `k` are already final, rows above it are still the initial ones; row `k` ends as
   * `Snap[k]` with the charge delivered, and row `k + 1` is the Euler step from that row with
   * `dSdt = rhs(Snap, k)`, receiving the next charge if there is a next step.
   */
  lemma {:induction false} EvolveTrajectory(p: Plant, R0: seq<seq<real>>, start: nat, qs: seq<real>, j: nat)
    requires Deliverable(p.injection) && Shaped(R0) && start + |qs| < |R0| && j < |qs|
    ensures var Fin := Evolve(p, R0, start, qs);
      var Snap := Evolve(p, R0, start, qs[..j]);
      var k := start + j;
      && (forall t :: 0 <= t < k ==> Snap[t] == Fin[t])
      && (forall t :: k < t < |R0| ==> Snap[t] == R0[t])
      && Fin[k] == Delivered(p.injection, Snap[k], qs[j])
      && Fin[k + 1] ==
         var y := Stepped(Fin[k], p.rhs(Snap, k), p.dt, p.noise, k);
         if j + 1 < |qs| then Delivered(p.injection, y, qs[j + 1]) else y
    decreases |qs|
  {
    var init := qs[..|qs| - 1];
    if j == |init| {
      assert qs[..j] == init;
      EvolveOutside(p, R0, start, init);
    } else {
      EvolveTrajectory(p, R0, start, init, j);
      assert init[..j] == qs[..j];
      assert init[j] == qs[j];
      if j + 1 < |init| {
        assert init[j + 1] == qs[j + 1];
      }
    }
  }

  /**
   * Without injection (cDBS and pDBS both off) a row is never rewritten after it is computed:
   * row `k + 1` is the Euler step from the final row `k`, with `dSdt` taken from the final rows up
   * to `k` followed by the initial rows beyond it.
   */
  lemma UninjectedTrajectory(p: Plant, R0: seq<seq<real>>, start: nat, qs: seq<real>, j: nat)
    requires !p.injection.on && Shaped(R0) && start + |qs| < |R0| && j < |qs|
    ensures var Fin := Evolve(p, R0, start, qs);
      var k := start + j;
      Fin[k + 1] == Stepped(Fin[k], p.rhs(Fin[..k + 1] + R0[k + 1..], k), p.dt, p.noise, k)
  {
    var Fin := Evolve(p, R0, start, qs);
    var Snap := Evolve(p, R0, start, qs[..j]);
    var k := start + j;
    EvolveTrajectory(p, R0, start, qs, j);
    assert Snap == Fin[..k + 1] + R0[k + 1..];
  }

  /**
   * The state-target voltages pDBS reads, one per step: step `j` reads column `col` of row
   * `start + j` before its injection.
   */
  function Samples(p: Plant, R0: seq<seq<real>>, start: nat, qs: seq<real>, col: nat): (xs: seq<real>)
    requires qs != [] ==> Deliverable(p.injection)
    requires Shaped(R0) && start + |qs| < |R0| && col < Channels
    ensures |xs| == |qs|
    decreases |qs|
  {
    if qs == [] then []
    else
      var init := qs[..|qs| - 1];
      Samples(p, R0, start, init, col) + [Evolve(p, R0, start, init)[start + |init|][col]]
  }

  /** Sample `j` is read from the rows step `j` started from. */
  lemma {:induction false} SamplesAt(p: Plant, R0: seq<seq<real>>, start: nat, qs: seq<real>, col: nat, j: nat)
    requires Deliverable(p.injection) && Shaped(R0) && start + |qs| < |R0| && col < Channels && j < |qs|
    ensures Samples(p, R0, start, qs, col)[j] == Evolve(p, R0, start, qs[..j])[start + j][col]
    decreases |qs|
  {
    var init := qs[..|qs| - 1];
    if j < |init| {
      SamplesAt(p, R0, start, init, col, j);
      assert init[..j] == qs[..j];
    } else {
      assert qs[..j] == init;
    }
  }

  /** `memory['stim']` after the steps with charges `qs`: a non-zero injected charge lands one row later. */
  function StimRecord(m: seq<real>, start: nat, qs: seq<real>, on: bool): (r: seq<real>)
    requires start + |qs| < |m|
    ensures |r| == |m|
    decreases |qs|
  {
    if qs == [] then m
    else
      var prev := StimRecord(m, start, qs[..|qs| - 1], on);
      if on && qs[|qs| - 1] != 0.0 then prev[start + |qs| := qs[|qs| - 1]] else prev
  }

  /** Entry `t` holds the charge of step `t - 1` when that step injected one, and is untouched otherwise. */
  lemma {:induction false} StimRecordAt(m: seq<real>, start: nat, qs: seq<real>, on: bool, t: nat)
    requires start + |qs| < |m| && t < |m|
    ensures StimRecord(m, start, qs, on)[t] ==
      if on && start < t <= start + |qs| && qs[t - start - 1] != 0.0 then qs[t - start - 1] else m[t]
    decreases |qs|
  {
    if qs != [] {
      var init := qs[..|qs| - 1];
      StimRecordAt(m, start, init, on, t);
      if start < t < start + |qs| {
        assert init[t - start - 1] == qs[t - start - 1];
      }
    }
  }

  /** A telemetry array after the steps: `vs[j]` written at index `start + j + 1`, in order. */
  function Written<T>(m: seq<T>, start: nat, vs: seq<T>): (r: seq<T>)
    requires start + |vs| < |m|
    ensures |r| == |m|
    decreases |vs|
  {
    if vs == [] then m else Written(m, start, vs[..|vs| - 1])[start + |vs| := vs[|vs| - 1]]
  }

  /** Entry `t` holds the value of step `t - 1` when there was one, and is untouched otherwise. */
  lemma {:induction false} WrittenAt<T>(m: seq<T>, start: nat, vs: seq<T>, t: nat)
    requires start + |vs| < |m| && t < |m|
    ensures Written(m, start, vs)[t] == if start < t <= start + |vs| then vs[t - start - 1] else m[t]
    decreases |vs|
  {
    if vs != [] {
      var init := vs[..|vs| - 1];
      WrittenAt(m, start, init, t);
      if start < t < start + |vs| {
        assert init[t - start - 1] == vs[t - start - 1];
      }
    }
  }

  lemma WrittenSnoc<T>(m: seq<T>, start: nat, vs: seq<T>, v: T)
    requires start + |vs| + 1 < |m|
    ensures Written(m, start, vs + [v]) == Written(m, start, vs)[start + |vs| + 1 := v]
  {
    assert (vs + [v])[..|vs|] == vs;
  }

  /** The amplitudes of the readings, in order. */
  function AmpsOf(ms: seq<Dbs.Reading>): (a: seq<Float>)
    ensures |a| == |ms| && forall j :: 0 <= j < |ms| ==> a[j] == ms[j].ampDb
  {
    seq(|ms|, j requires 0 <= j < |ms| => ms[j].ampDb)
  }

  /** The phases of the readings, in order. */
  function PhasesOf(ms: seq<Dbs.Reading>): (a: seq<real>)
    ensures |a| == |ms| && forall j :: 0 <= j < |ms| ==> a[j] == ms[j].phase
  {
    seq(|ms|, j requires 0 <= j < |ms| => ms[j].phase)
  }

  lemma EvolveSnoc(p: Plant, R0: seq<seq<real>>, start: nat, qs: seq<real>, q: real)
    requires Deliverable(p.injection) && Shaped(R0) && start + |qs| + 1 < |R0|
    ensures Evolve(p, R0, start, qs + [q]) == StepRows(p, Evolve(p, R0, start, qs), start + |qs|, q)
  {
    assert (qs + [q])[..|qs|] == qs;
  }

  lemma StimRecordSnoc(m: seq<real>, start: nat, qs: seq<real>, on: bool, q: real)
    requires start + |qs| + 1 < |m|
    ensures StimRecord(m, start, qs + [q], on) ==
      if on && q != 0.0 then StimRecord(m, start, qs, on)[start + |qs| + 1 := q] else StimRecord(m, start, qs, on)
  {
    assert (qs + [q])[..|qs|] == qs;
  }

  /** What a run starts from: the rows, the three records, both estimators and both controller states, and `i`. */
  datatype Origin = Origin(rows: seq<seq<real>>, stim: seq<real>, amp: seq<Float>, phase: seq<real>,
                           slowX: seq<Complex>, fastX: seq<Complex>, periodic: Dbs.Periodic, trigger: Dbs.Trigger, i: nat)

  /**
   * What a run of a given configuration depends on and does not change: the step, whether cDBS
   * is on with its schedule and pulse charge, and pDBS's sampled column, measure, estimator
   * factors, thresholds, refractory length and pulse charge.
   */
  datatype Setup = Setup(plant: Plant, open: bool, nStart: real, period: int, openCharge: real,
                         col: nat, measure: Complex -> Dbs.Measure, slowE: seq<Complex>, fastE: seq<Complex>,
                         phaseThr: real, powerThr: Float, nRef: real, lockedCharge: real)

  /** The shape a run from `o` to `now` with `|qs|` steps needs. */
  predicate Spans(c: Setup, o: Origin, now: Origin, qs: seq<real>)
  {
    && o.i + |qs| == now.i < |o.rows|
    && Shaped(o.rows) && |o.stim| == |o.rows| && |o.amp| == |o.rows| && |o.phase| == |o.rows|
    && (qs != [] ==> Deliverable(c.plant.injection))
    && c.col < Channels
    && |o.slowX| == |c.slowE| > 0 && |o.fastX| == |c.fastE| > 0
  }

  /** The state-target voltages pDBS has read on the way from `o` with the charges `qs`. */
  function SamplesOf(c: Setup, o: Origin, now: Origin, qs: seq<real>): (xs: seq<real>)
    requires Spans(c, o, now, qs)
    ensures |xs| == |qs|
  {
    Samples(c.plant, o.rows, o.i, qs, c.col)
  }

  /** The readings pDBS has taken on the way from `o` with the charges `qs`. */
  function ReadingsOf(c: Setup, o: Origin, now: Origin, qs: seq<real>): (ms: seq<Dbs.Reading>)
    requires Spans(c, o, now, qs)
    ensures |ms| == |qs|
  {
    Dbs.Readings(c.slowE, o.slowX, c.fastE, o.fastX, SamplesOf(c, o, now, qs), c.measure, c.phaseThr, c.powerThr)
  }

  /** The rows are `Evolve` of the charges and the stimulation record holds the injected ones. */
  ghost predicate RowsFollow(c: Setup, o: Origin, now: Origin, qs: seq<real>)
    requires Spans(c, o, now, qs)
  {
    && now.rows == Evolve(c.plant, o.rows, o.i, qs)
    && now.stim == StimRecord(o.stim, o.i, qs, c.plant.injection.on)
  }

  /** With cDBS: the charges are those of the periodic schedule, and the amplitude and phase records stay. */
  ghost predicate OpenLoopFollows(c: Setup, o: Origin, now: Origin, qs: seq<real>)
  {
    && now.periodic == Dbs.PeriodicRun(c.nStart, c.period, o.periodic, |qs|).0
    && qs == Dbs.PeriodicCharges(c.nStart, c.period, o.periodic, |qs|, c.openCharge)
    && now.amp == o.amp && now.phase == o.phase
  }

  /**
   * Without cDBS: the estimators have slid over the sampled state-target voltages, the trigger
   * has run over the readings taken from them, the charges are its pulses, and the amplitude
   * and phase records hold the readings.
   */
  ghost predicate ClosedLoopFollows(c: Setup, o: Origin, now: Origin, qs: seq<real>)
    requires Spans(c, o, now, qs)
  {
    && now.slowX == Swift.Slid(c.slowE, o.slowX, SamplesOf(c, o, now, qs))
    && now.fastX == Swift.Slid(c.fastE, o.fastX, SamplesOf(c, o, now, qs))
    && now.trigger == Dbs.LockedRun(c.nRef, o.trigger, ReadingsOf(c, o, now, qs))
    && qs == Dbs.LockedCharges(c.nRef, o.trigger, ReadingsOf(c, o, now, qs), c.lockedCharge)
    && now.amp == Written(o.amp, o.i, AmpsOf(ReadingsOf(c, o, now, qs)))
    && now.phase == Written(o.phase, o.i, PhasesOf(ReadingsOf(c, o, now, qs)))
  }

  /** `now` is where the steps from `o` with the charges `qs` lead. */
  ghost predicate Follows(c: Setup, o: Origin, now: Origin, qs: seq<real>)
  {
    && Spans(c, o, now, qs)
    && RowsFollow(c, o, now, qs)
    && (c.open ==> OpenLoopFollows(c, o, now, qs))
    && (!c.open ==> ClosedLoopFollows(c, o, now, qs))
  }

  /** A run from `o` starts where it is. */
  lemma FollowsStart(c: Setup, o: Origin)
    requires o.i < |o.rows| && Shaped(o.rows) && |o.stim| == |o.rows| && |o.amp| == |o.rows| && |o.phase| == |o.rows|
    requires c.col < Channels && |o.slowX| == |c.slowE| > 0 && |o.fastX| == |c.fastE| > 0
    ensures Follows(c, o, o, [])
  {
  }

  /** The rows and the stimulation record after one more step. */
  lemma RowsFollowStep(c: Setup, o: Origin, now: Origin, next: Origin, qs: seq<real>, q: real)
    requires Spans(c, o, now, qs) && Spans(c, o, next, qs + [q]) && RowsFollow(c, o, now, qs)
    requires next.rows == StepRows(c.plant, now.rows, now.i, q)
    requires next.stim == if c.plant.injection.on && q != 0.0 then now.stim[now.i + 1 := q] else now.stim
    ensures RowsFollow(c, o, next, qs + [q])
  {
    EvolveSnoc(c.plant, o.rows, o.i, qs, q);
    StimRecordSnoc(o.stim, o.i, qs, c.plant.injection.on, q);
  }

  /** The cDBS side after one more `cDBS.advance`. */
  lemma OpenLoopStep(c: Setup, o: Origin, now: Origin, next: Origin, qs: seq<real>, q: real)
    requires OpenLoopFollows(c, o, now, qs)
    requires var (t, fired) := Dbs.PeriodicStep(c.nStart, c.period, now.periodic);
      next.periodic == t && q == (if fired then c.openCharge else 0.0)
    requires next.amp == now.amp && next.phase == now.phase
    ensures OpenLoopFollows(c, o, next, qs + [q])
  {
  }

  /** The reading pDBS takes of the estimate `X`. */
  function ReadingOfEstimate(c: Setup, X: Complex): Dbs.Reading
  {
    var m := c.measure(X);
    Dbs.Reading(m.ampDb, m.phase, c.phaseThr, c.powerThr)
  }

  /** The samples after one more step: the sampled column of the row the step starts from. */
  lemma SamplesSnoc(c: Setup, o: Origin, now: Origin, next: Origin, qs: seq<real>, q: real)
    requires Spans(c, o, now, qs) && Spans(c, o, next, qs + [q])
    ensures SamplesOf(c, o, next, qs + [q]) == SamplesOf(c, o, now, qs) + [Evolve(c.plant, o.rows, o.i, qs)[now.i][c.col]]
  {
    assert (qs + [q])[..|qs|] == qs;
  }

  /** The readings after one more step: the reading of the estimate after all the samples. */
  lemma ReadingsSnoc(c: Setup, o: Origin, now: Origin, next: Origin, qs: seq<real>, q: real)
    requires Spans(c, o, now, qs) && Spans(c, o, next, qs + [q])
    ensures ReadingsOf(c, o, next, qs + [q]) == ReadingsOf(c, o, now, qs) +
      [ReadingOfEstimate(c, Dbs.Estimate(c.slowE, o.slowX, c.fastE, o.fastX, SamplesOf(c, o, next, qs + [q])))]
  {
    var xs := SamplesOf(c, o, next, qs + [q]);
    SamplesSnoc(c, o, now, next, qs, q);
    assert xs[..|qs|] == SamplesOf(c, o, now, qs);
  }

  /** The estimators after one more `slide` on the next sample. */
  lemma EstimatorsStep(c: Setup, o: Origin, now: Origin, next: Origin, qs: seq<real>, q: real)
    requires Spans(c, o, now, qs) && Spans(c, o, next, qs + [q]) && RowsFollow(c, o, now, qs)
    requires now.slowX == Swift.Slid(c.slowE, o.slowX, SamplesOf(c, o, now, qs))
    requires now.fastX == Swift.Slid(c.fastE, o.fastX, SamplesOf(c, o, now, qs))
    requires var x := now.rows[now.i][c.col];
      next.slowX == Swift.Slid(c.slowE, now.slowX, [x]) && next.fastX == Swift.Slid(c.fastE, now.fastX, [x])
    ensures next.slowX == Swift.Slid(c.slowE, o.slowX, SamplesOf(c, o, next, qs + [q]))
    ensures next.fastX == Swift.Slid(c.fastE, o.fastX, SamplesOf(c, o, next, qs + [q]))
  {
    var xs := SamplesOf(c, o, now, qs);
    var x := now.rows[now.i][c.col];
    SamplesSnoc(c, o, now, next, qs, q);
    Swift.SlidAppend(c.slowE, o.slowX, xs, [x]);
    Swift.SlidAppend(c.fastE, o.fastX, xs, [x]);
  }

  /** The trigger and the charges after one more `pDBS.advance` that read `m`. */
  lemma TriggerStep(c: Setup, o: Origin, now: Origin, next: Origin, qs: seq<real>, q: real, m: Dbs.Reading)
    requires Spans(c, o, now, qs) && Spans(c, o, next, qs + [q])
    requires ReadingsOf(c, o, next, qs + [q]) == ReadingsOf(c, o, now, qs) + [m]
    requires now.trigger == Dbs.LockedRun(c.nRef, o.trigger, ReadingsOf(c, o, now, qs))
    requires qs == Dbs.LockedCharges(c.nRef, o.trigger, ReadingsOf(c, o, now, qs), c.lockedCharge)
    requires var (t, fired) := Dbs.LockedStep(c.nRef, now.trigger, m);
      next.trigger == t && q == (if fired then c.lockedCharge else 0.0)
    ensures next.trigger == Dbs.LockedRun(c.nRef, o.trigger, ReadingsOf(c, o, next, qs + [q]))
    ensures qs + [q] == Dbs.LockedCharges(c.nRef, o.trigger, ReadingsOf(c, o, next, qs + [q]), c.lockedCharge)
  {
    var ms := ReadingsOf(c, o, now, qs);
    assert (ms + [m])[..|ms|] == ms;
  }

  /** The amplitude and phase records after one more reading `m` at the next index. */
  lemma RecordsStep(c: Setup, o: Origin, now: Origin, next: Origin, qs: seq<real>, q: real, m: Dbs.Reading)
    requires Spans(c, o, now, qs) && Spans(c, o, next, qs + [q])
    requires ReadingsOf(c, o, next, qs + [q]) == ReadingsOf(c, o, now, qs) + [m]
    requires now.amp == Written(o.amp, o.i, AmpsOf(ReadingsOf(c, o, now, qs)))
    requires now.phase == Written(o.phase, o.i, PhasesOf(ReadingsOf(c, o, now, qs)))
    requires next.amp == now.amp[now.i + 1 := m.ampDb] && next.phase == now.phase[now.i + 1 := m.phase]
    ensures next.amp == Written(o.amp, o.i, AmpsOf(ReadingsOf(c, o, next, qs + [q])))
    ensures next.phase == Written(o.phase, o.i, PhasesOf(ReadingsOf(c, o, next, qs + [q])))
  {
    var ms := ReadingsOf(c, o, now, qs);
    assert AmpsOf(ms + [m]) == AmpsOf(ms) + [m.ampDb];
    assert PhasesOf(ms + [m]) == PhasesOf(ms) + [m.phase];
    WrittenSnoc(o.amp, o.i, AmpsOf(ms), m.ampDb);
    WrittenSnoc(o.phase, o.i, PhasesOf(ms), m.phase);
  }

  /** The pDBS side after one more `pDBS.advance` on the next sample, with its reading recorded. */
  lemma ClosedLoopStep(c: Setup, o: Origin, now: Origin, next: Origin, qs: seq<real>, q: real, x: real, m: Dbs.Reading)
    requires Spans(c, o, now, qs) && Spans(c, o, next, qs + [q])
    requires RowsFollow(c, o, now, qs) && ClosedLoopFollows(c, o, now, qs)
    requires x == now.rows[now.i][c.col]
    requires next.slowX == Swift.Slid(c.slowE, now.slowX, [x]) && next.fastX == Swift.Slid(c.fastE, now.fastX, [x])
    requires m == ReadingOfEstimate(c, Sub(next.slowX[0], next.fastX[0]))
    requires next.amp == now.amp[now.i + 1 := m.ampDb] && next.phase == now.phase[now.i + 1 := m.phase]
    requires var (t, fired) := Dbs.LockedStep(c.nRef, now.trigger, m);
      next.trigger == t && q == (if fired then c.lockedCharge else 0.0)
    ensures ClosedLoopFollows(c, o, next, qs + [q])
  {
    EstimatorsStep(c, o, now, next, qs, q);
    ReadingsSnoc(c, o, now, next, qs, q);
    TriggerStep(c, o, now, next, qs, q, m);
    RecordsStep(c, o, now, next, qs, q, m);
  }

  /** What a step from `now` needs: a next row, the shapes, a deliverable injection and the estimator sizes. */
  predicate Ready(c: Setup, now: Origin)
  {
    && now.i + 1 < |now.rows|
    && Shaped(now.rows) && |now.stim| == |now.rows| && |now.amp| == |now.rows| && |now.phase| == |now.rows|
    && Deliverable(c.plant.injection) && c.col < Channels
    && |now.slowX| == |c.slowE| > 0 && |now.fastX| == |c.fastE| > 0
  }

  /**
   * One `MFM.advance` on values: the state it leads to from `now` and the charge it delivers.
   * With cDBS the schedule decides the charge; without it pDBS reads the state target, slides
   * both estimators, records the reading and decides; then the charge is delivered (when a
   * controller is on) and the next row is integrated.
   */
  function Next(c: Setup, now: Origin): (r: (Origin, real))
    requires Ready(c, now)
    ensures r.0.i == now.i + 1 && Ready(c, r.0) == (now.i + 2 < |now.rows|)
    ensures r.0.rows == StepRows(c.plant, now.rows, now.i, r.1)
    ensures r.0.stim == if c.plant.injection.on && r.1 != 0.0 then now.stim[now.i + 1 := r.1] else now.stim
    ensures c.open ==> r.0.amp == now.amp && r.0.phase == now.phase
  {
    if c.open then
      var (t, fired) := Dbs.PeriodicStep(c.nStart, c.period, now.periodic);
      var q := if fired then c.openCharge else 0.0;
      (now.(rows := StepRows(c.plant, now.rows, now.i, q),
            stim := if c.plant.injection.on && q != 0.0 then now.stim[now.i + 1 := q] else now.stim,
            periodic := t, i := now.i + 1), q)
    else
      var x := now.rows[now.i][c.col];
      var slowX := Swift.Slid(c.slowE, now.slowX, [x]);
      var fastX := Swift.Slid(c.fastE, now.fastX, [x]);
      var m := ReadingOfEstimate(c, Sub(slowX[0], fastX[0]));
      var (t, fired) := Dbs.LockedStep(c.nRef, now.trigger, m);
      var q := if fired then c.lockedCharge else 0.0;
      (now.(rows := StepRows(c.plant, now.rows, now.i, q),
            stim := if c.plant.injection.on && q != 0.0 then now.stim[now.i + 1 := q] else now.stim,
            amp := now.amp[now.i + 1 := m.ampDb], phase := now.phase[now.i + 1 := m.phase],
            slowX := slowX, fastX := fastX, trigger := t, i := now.i + 1), q)
  }

  /** One more `Next` keeps a run on track: its charge extends the charges. */
  lemma NextFollows(c: Setup, o: Origin, now: Origin, qs: seq<real>)
    requires Follows(c, o, now, qs) && Ready(c, now)
    ensures Follows(c, o, Next(c, now).0, qs + [Next(c, now).1])
  {
    var (next, q) := Next(c, now);
    assert Spans(c, o, next, qs + [q]);
    RowsFollowStep(c, o, now, next, qs, q);
    if c.open {
      OpenLoopStep(c, o, now, next, qs, q);
    } else {
      var x := now.rows[now.i][c.col];
      var m := ReadingOfEstimate(c, Sub(next.slowX[0], next.fastX[0]));
      ClosedLoopStep(c, o, now, next, qs, q, x, m);
    }
  }

  class Mfm {
    const N: nat
    const dt: real
    const cm: real
    const cdbsOn: bool
    const pdbsOn: bool
    const stimTarget: string
    const stateTarget: string
    /** The state, one row per time step. */
    const S: array2<real>
    /** `memory['amp']`, `memory['phase']` and `memory['stim']`. */
    const ampMem: array<Float>
    const phaseMem: array<real>
    const stimMem: array<real>
    /** The open-loop controller, present exactly when cDBS is on. */
    const cdbs: Dbs.CDbs?
    const pdbs: Dbs.PDbs
    /** The index of the current row. */
    var i: nat

    ghost function Repr(): set<object>
    {
      {this, S, ampMem, phaseMem, stimMem, pdbs, pdbs.base, pdbs.estimator, pdbs.estimator.slow, pdbs.estimator.fast}
      + (if cdbs == null then {} else {cdbs, cdbs.base})
    }

    ghost predicate Valid()
      reads this, Repr()
    {
      && S.Length0 == N && S.Length1 == Channels
      && ampMem.Length == N && phaseMem.Length == N && stimMem.Length == N
      && phaseMem != stimMem
      && i < N
      && (cdbsOn <==> cdbs != null)
      && (cdbs != null ==> cdbs.Valid())
      && pdbs.Valid()
    }

    /**
     * `MFM.__init__` once the parameters are loaded and the controllers built: the first row
     * is the initial state, every other entry and the telemetry start at zero.
     */
    constructor (N: nat, dt: real, cm: real, cdbsOn: bool, pdbsOn: bool, stimTarget: string, stateTarget: string,
                 cdbs: Dbs.CDbs?, pdbs: Dbs.PDbs)
      requires N >= 1
      requires cdbsOn <==> cdbs != null
      requires cdbs != null ==> cdbs.Valid()
      requires pdbs.Valid()
      ensures Valid() && i == 0 && fresh(S) && fresh(ampMem) && fresh(phaseMem) && fresh(stimMem)
      ensures this.N == N && this.dt == dt && this.cm == cm && this.cdbsOn == cdbsOn && this.pdbsOn == pdbsOn
      ensures this.stimTarget == stimTarget && this.stateTarget == stateTarget
      ensures this.cdbs == cdbs && this.pdbs == pdbs
      ensures RowOf(S, 0) == InitialState
      ensures forall r, c :: 1 <= r < N && 0 <= c < Channels ==> S[r, c] == 0.0
      ensures forall k :: 0 <= k < N ==> ampMem[k] == Finite(0.0) && phaseMem[k] == 0.0 && stimMem[k] == 0.0
    {
      this.N := N;
      this.dt := dt;
      this.cm := cm;
      this.cdbsOn := cdbsOn;
      this.pdbsOn := pdbsOn;
      this.stimTarget := stimTarget;
      this.stateTarget := stateTarget;
      this.cdbs := cdbs;
      this.pdbs := pdbs;
      this.i := 0;
      var s := new real[N, Channels]((r, c) => if r == 0 && 0 <= c < |InitialState| then InitialState[c] else 0.0);
      this.S := s;
      this.ampMem := new Float[N](_ => Finite(0.0));
      this.phaseMem := new real[N](_ => 0.0);
      this.stimMem := new real[N](_ => 0.0);
    }

    /** The column of the stimulation target; what it is when the name is unknown never matters, since nothing is injected then. */
    function StimColumn(): (c: nat)
      ensures c < Channels
    {
      if stimTarget in Struct then Struct[stimTarget] else 0
    }

    /** The column of the state target pDBS reads; as for `StimColumn`, only a known name matters. */
    function StateColumn(): (c: nat)
      ensures c < Channels
    {
      if stateTarget in Struct then Struct[stateTarget] else 0
    }

    /** Where the controller's charge goes in this configuration. */
    function Delivery(): Injection
    {
      Injection(cdbsOn || pdbsOn, StimColumn(), cm)
    }

    /** The step this configuration takes, given the right-hand side and the noise. */
    function PlantOf(rhs: (seq<seq<real>>, nat) -> Vector, noise: Noise): Plant
    {
      Plant(rhs, dt, noise, Delivery())
    }

    /**
     * `S[i, struct[stim_target]] += C/Cm`, and `memory['stim'][i+1] = C` for a non-zero charge:
     * one cell of the state and at most one entry of the stimulation record change.
     */
    method Deliver(col: nat, charge: real)
      requires Valid() && i + 1 < N && col < Channels && cm != 0.0
      modifies S, stimMem
      ensures RowOf(S, i) == Inject(old(RowOf(S, i)), col, charge / cm)
      ensures forall r, c :: 0 <= r < N && r != i && 0 <= c < Channels ==> S[r, c] == old(S[r, c])
      ensures RowsOf(S) == old(RowsOf(S))[i := Inject(old(RowOf(S, i)), col, charge / cm)]
      ensures stimMem[..] == if charge != 0.0 then old(stimMem[..])[i + 1 := charge] else old(stimMem[..])
    {
      S[i, col] := S[i, col] + charge / cm;
      if charge != 0.0 {
        stimMem[i + 1] := charge;
      }
      forall t | 0 <= t < N
        ensures RowsOf(S)[t] == old(RowsOf(S))[i := Inject(old(RowOf(S, i)), col, charge / cm)][t]
      {
        if t != i {
          assert RowOf(S, t) == old(RowOf(S, t));
        }
      }
    }

    /** The `Advance` and `Noise` blocks, and `self.i += 1`. */
    method Integrate(dSdt: Vector, noise: Noise)
      requires Valid() && i + 1 < N
      modifies this`i, S
      ensures i == old(i) + 1
      ensures RowOf(S, old(i) + 1) == Stepped(old(RowOf(S, i)), dSdt, dt, noise, old(i))
      ensures RowOf(S, old(i)) == old(RowOf(S, i))
      ensures forall r, c :: 0 <= r < N && r != old(i) + 1 && 0 <= c < Channels ==> S[r, c] == old(S[r, c])
      ensures RowsOf(S) == old(RowsOf(S))[old(i) + 1 := Stepped(old(RowOf(S, i)), dSdt, dt, noise, old(i))]
    {
      var next := Stepped(RowOf(S, i), dSdt, dt, noise, i);
      forall c | 0 <= c < Channels {
        S[i + 1, c] := next[c];
      }
      forall t | 0 <= t < N
        ensures RowsOf(S)[t] == old(RowsOf(S))[i + 1 := next][t]
      {
        if t != i + 1 {
          assert RowOf(S, t) == old(RowOf(S, t));
        }
      }
      i := i + 1;
    }

    /** The cDBS branch of `MFM.advance`: the controller advances, then its charge is injected. */
    method StepOpenLoop() returns (r: Outcome<StepError>, ghost q: real)
      requires Valid() && i + 1 < N && cdbsOn
      modifies cdbs, S, stimMem
      ensures Valid()
      ensures r == StepOutcome(cdbsOn, pdbsOn, stimTarget, stateTarget, cm)
      ensures var (t, fired) := Dbs.PeriodicStep(cdbs.nStart, cdbs.stepsPerPulse, old(cdbs.State()));
        cdbs.State() == t && q == (if fired then cdbs.base.charge else 0.0)
      ensures r.Fail? ==> unchanged(S, stimMem)
      ensures r.Pass? ==> RowOf(S, i) == Inject(old(RowOf(S, i)), Struct[stimTarget], q / cm)
      ensures r.Pass? ==> forall rr, c :: 0 <= rr < N && rr != i && 0 <= c < Channels ==> S[rr, c] == old(S[rr, c])
      ensures r.Pass? ==> RowsOf(S) == old(RowsOf(S))[i := Inject(old(RowOf(S, i)), Struct[stimTarget], q / cm)]
      ensures r.Pass? ==> stimMem[..] == if q != 0.0 then old(stimMem[..])[i + 1 := q] else old(stimMem[..])
    {
      var c := cdbs.Advance();
      q := c;
      if stimTarget !in Struct {
        return Fail(UnknownTarget(stimTarget)), q;
      }
      if cm == 0.0 {
        return Fail(ZeroCapacitance), q;
      }
      Deliver(Struct[stimTarget], c);
      r := Pass;
    }

    /**
     * The other branch of `MFM.advance`: pDBS advances on the state target's voltage, its charge
     * is injected only when pDBS is on, and its amplitude and phase are recorded.
     */
    method StepClosedLoop(measure: Complex -> Dbs.Measure) returns (r: Outcome<StepError>, ghost q: real)
      requires Valid() && i + 1 < N && !cdbsOn
      modifies pdbs, pdbs.estimator.slow, pdbs.estimator.fast, S, stimMem, ampMem, phaseMem
      ensures Valid()
      ensures r == StepOutcome(cdbsOn, pdbsOn, stimTarget, stateTarget, cm)
      ensures stateTarget !in Struct ==> unchanged(pdbs, pdbs.estimator.slow, pdbs.estimator.fast) && q == 0.0
      ensures stateTarget in Struct ==>
        && pdbs.estimator.slow.Xf == Swift.Slid(pdbs.estimator.slow.e, old(pdbs.estimator.slow.Xf), [old(S[i, Struct[stateTarget]])])
        && pdbs.estimator.fast.Xf == Swift.Slid(pdbs.estimator.fast.e, old(pdbs.estimator.fast.Xf), [old(S[i, Struct[stateTarget]])])
        && pdbs.X == Sub(pdbs.estimator.slow.Xf[0], pdbs.estimator.fast.Xf[0])
        && pdbs.amp == measure(pdbs.X).ampDb && pdbs.phase == measure(pdbs.X).phase
        && var (t, fired) := Dbs.LockedStep(pdbs.nRef, old(pdbs.State()), Dbs.Reading(pdbs.amp, pdbs.phase, pdbs.phaseThr, pdbs.powerThr));
           pdbs.State() == t && q == (if fired then pdbs.base.charge else 0.0)
      ensures pdbs.phaseThr == old(pdbs.phaseThr) && pdbs.powerThr == old(pdbs.powerThr) && pdbs.nRef == old(pdbs.nRef)
      ensures r.Fail? ==> unchanged(S, stimMem, ampMem, phaseMem)
      ensures r.Pass? ==>
        RowOf(S, i) == if pdbsOn then Inject(old(RowOf(S, i)), Struct[stimTarget], q / cm) else old(RowOf(S, i))
      ensures r.Pass? ==> forall rr, c :: 0 <= rr < N && rr != i && 0 <= c < Channels ==> S[rr, c] == old(S[rr, c])
      ensures r.Pass? ==> RowsOf(S) == old(RowsOf(S))[i := RowOf(S, i)]
      ensures r.Pass? ==> stimMem[..] == if pdbsOn && q != 0.0 then old(stimMem[..])[i + 1 := q] else old(stimMem[..])
      ensures r.Pass? ==> ampMem[..] == old(ampMem[..])[i + 1 := pdbs.amp] && phaseMem[..] == old(phaseMem[..])[i + 1 := pdbs.phase]
    {
      q := 0.0;
      if stateTarget !in Struct {
        return Fail(UnknownTarget(stateTarget)), q;
      }
      var c := pdbs.Advance(S[i, Struct[stateTarget]], measure);
      q := c;
      r := Record(c);
    }

    /** What follows `pDBS.advance` in `MFM.advance`: the injection when pDBS is on, then the amplitude and phase record. */
    method Record(c: real) returns (r: Outcome<StepError>)
      requires Valid() && i + 1 < N && !cdbsOn && stateTarget in Struct
      modifies S, stimMem, ampMem, phaseMem
      ensures r == StepOutcome(cdbsOn, pdbsOn, stimTarget, stateTarget, cm)
      ensures r.Fail? ==> unchanged(S, stimMem, ampMem, phaseMem)
      ensures r.Pass? ==>
        RowOf(S, i) == if pdbsOn then Inject(old(RowOf(S, i)), Struct[stimTarget], c / cm) else old(RowOf(S, i))
      ensures r.Pass? ==> forall rr, k :: 0 <= rr < N && rr != i && 0 <= k < Channels ==> S[rr, k] == old(S[rr, k])
      ensures r.Pass? ==> RowsOf(S) == old(RowsOf(S))[i := RowOf(S, i)]
      ensures r.Pass? ==> stimMem[..] == if pdbsOn && c != 0.0 then old(stimMem[..])[i + 1 := c] else old(stimMem[..])
      ensures r.Pass? ==> ampMem[..] == old(ampMem[..])[i + 1 := pdbs.amp] && phaseMem[..] == old(phaseMem[..])[i + 1 := pdbs.phase]
    {
      if pdbsOn {
        if stimTarget !in Struct {
          return Fail(UnknownTarget(stimTarget));
        }
        if cm == 0.0 {
          return Fail(ZeroCapacitance);
        }
        Deliver(Struct[stimTarget], c);
      }
      ampMem[i + 1] := pdbs.amp;
      phaseMem[i + 1] := pdbs.phase;
      r := Pass;
    }

    /** `MFM.advance` with cDBS on: the open-loop controller's step, then the next row. */
    method AdvanceOpenLoop(dSdt: Vector, noise: Noise) returns (r: Outcome<StepError>, ghost q: real)
      requires Valid() && i + 1 < N && cdbsOn
      modifies this`i, cdbs, S, stimMem
      ensures Valid()
      ensures r == StepOutcome(cdbsOn, pdbsOn, stimTarget, stateTarget, cm)
      ensures i == if r.Pass? then old(i) + 1 else old(i)
      ensures var (t, fired) := Dbs.PeriodicStep(cdbs.nStart, cdbs.stepsPerPulse, old(cdbs.State()));
        cdbs.State() == t && q == (if fired then cdbs.base.charge else 0.0)
      ensures r.Fail? ==> unchanged(S, stimMem)
      ensures r.Pass? ==>
        RowsOf(S) == Advanced(old(RowsOf(S)), old(i), Inject(old(RowOf(S, i)), Struct[stimTarget], q / cm), dSdt, dt, noise)
      ensures r.Pass? ==> forall rr, c :: 0 <= rr < N && rr != old(i) && rr != old(i) + 1 && 0 <= c < Channels ==>
        S[rr, c] == old(S[rr, c])
      ensures r.Pass? ==> stimMem[..] == if q != 0.0 then old(stimMem[..])[old(i) + 1 := q] else old(stimMem[..])
    {
      r, q := StepOpenLoop();
      if r.Pass? {
        Integrate(dSdt, noise);
      }
    }

    /** `MFM.advance` with cDBS off: the closed-loop controller's step, then the next row. */
    method AdvanceClosedLoop(dSdt: Vector, measure: Complex -> Dbs.Measure, noise: Noise)
      returns (r: Outcome<StepError>, ghost q: real)
      requires Valid() && i + 1 < N && !cdbsOn
      modifies this`i, pdbs, pdbs.estimator.slow, pdbs.estimator.fast, S, stimMem, ampMem, phaseMem
      ensures Valid()
      ensures r == StepOutcome(cdbsOn, pdbsOn, stimTarget, stateTarget, cm)
      ensures i == if r.Pass? then old(i) + 1 else old(i)
      ensures stateTarget !in Struct ==> unchanged(pdbs, pdbs.estimator.slow, pdbs.estimator.fast) && q == 0.0
      ensures stateTarget in Struct ==>
        && pdbs.estimator.slow.Xf == Swift.Slid(pdbs.estimator.slow.e, old(pdbs.estimator.slow.Xf), [old(S[i, Struct[stateTarget]])])
        && pdbs.estimator.fast.Xf == Swift.Slid(pdbs.estimator.fast.e, old(pdbs.estimator.fast.Xf), [old(S[i, Struct[stateTarget]])])
        && pdbs.X == Sub(pdbs.estimator.slow.Xf[0], pdbs.estimator.fast.Xf[0])
        && pdbs.amp == measure(pdbs.X).ampDb && pdbs.phase == measure(pdbs.X).phase
        && var (t, fired) := Dbs.LockedStep(pdbs.nRef, old(pdbs.State()), Dbs.Reading(pdbs.amp, pdbs.phase, pdbs.phaseThr, pdbs.powerThr));
           pdbs.State() == t && q == (if fired then pdbs.base.charge else 0.0)
      ensures pdbs.phaseThr == old(pdbs.phaseThr) && pdbs.powerThr == old(pdbs.powerThr) && pdbs.nRef == old(pdbs.nRef)
      ensures r.Fail? ==> unchanged(S, stimMem, ampMem, phaseMem)
      ensures r.Pass? ==> RowsOf(S) == Advanced(old(RowsOf(S)), old(i),
        if pdbsOn then Inject(old(RowOf(S, i)), Struct[stimTarget], q / cm) else old(RowOf(S, i)), dSdt, dt, noise)
      ensures r.Pass? ==> forall rr, c :: 0 <= rr < N && rr != old(i) && rr != old(i) + 1 && 0 <= c < Channels ==>
        S[rr, c] == old(S[rr, c])
      ensures r.Pass? ==> stimMem[..] == if pdbsOn && q != 0.0 then old(stimMem[..])[old(i) + 1 := q] else old(stimMem[..])
      ensures r.Pass? ==>
        ampMem[..] == old(ampMem[..])[old(i) + 1 := pdbs.amp] && phaseMem[..] == old(phaseMem[..])[old(i) + 1 := pdbs.phase]
    {
      r, q := StepClosedLoop(measure);
      if r.Pass? {
        Integrate(dSdt, noise);
      }
    }

    /**
     * `MFM.advance` with its right-hand side `dSdt` given: the controller's step, then the
     * integration of the next row. `q` is the charge the controller delivered.
     */
    method Advance(dSdt: Vector, measure: Complex -> Dbs.Measure, noise: Noise)
      returns (r: Outcome<StepError>, ghost q: real)
      requires Valid() && i + 1 < N
      modifies Repr()
      ensures Valid()
      ensures r == StepOutcome(cdbsOn, pdbsOn, stimTarget, stateTarget, cm)
      ensures i == if r.Pass? then old(i) + 1 else old(i)
      // the controllers
      ensures unchanged(pdbs.base) && (cdbs != null ==> unchanged(cdbs.base))
      ensures pdbs.phaseThr == old(pdbs.phaseThr) && pdbs.powerThr == old(pdbs.powerThr) && pdbs.nRef == old(pdbs.nRef)
      ensures cdbsOn ==>
        var (t, fired) := Dbs.PeriodicStep(cdbs.nStart, cdbs.stepsPerPulse, old(cdbs.State()));
        cdbs.State() == t && q == (if fired then cdbs.base.charge else 0.0)
      ensures cdbsOn ==> unchanged(pdbs, pdbs.estimator.slow, pdbs.estimator.fast)
      ensures !cdbsOn && stateTarget !in Struct ==> unchanged(pdbs, pdbs.estimator.slow, pdbs.estimator.fast) && q == 0.0
      ensures !cdbsOn && stateTarget in Struct ==>
        && pdbs.estimator.slow.Xf == Swift.Slid(pdbs.estimator.slow.e, old(pdbs.estimator.slow.Xf), [old(S[i, Struct[stateTarget]])])
        && pdbs.estimator.fast.Xf == Swift.Slid(pdbs.estimator.fast.e, old(pdbs.estimator.fast.Xf), [old(S[i, Struct[stateTarget]])])
        && pdbs.X == Sub(pdbs.estimator.slow.Xf[0], pdbs.estimator.fast.Xf[0])
        && pdbs.amp == measure(pdbs.X).ampDb && pdbs.phase == measure(pdbs.X).phase
        && var (t, fired) := Dbs.LockedStep(pdbs.nRef, old(pdbs.State()), Dbs.Reading(pdbs.amp, pdbs.phase, pdbs.phaseThr, pdbs.powerThr));
           pdbs.State() == t && q == (if fired then pdbs.base.charge else 0.0)
      // the state
      ensures r.Fail? ==> unchanged(S)
      ensures r.Pass? ==>
        Deliverable(Delivery()) && RowsOf(S) == Advanced(old(RowsOf(S)), old(i), Delivered(Delivery(), old(RowOf(S, i)), q), dSdt, dt, noise)
      ensures r.Pass? ==> forall rr, c :: 0 <= rr < N && rr != old(i) && rr != old(i) + 1 && 0 <= c < Channels ==>
        S[rr, c] == old(S[rr, c])
      // the telemetry
      ensures stimMem[..] ==
        if r.Pass? && (cdbsOn || pdbsOn) && q != 0.0 then old(stimMem[..])[old(i) + 1 := q] else old(stimMem[..])
      ensures ampMem[..] == if r.Pass? && !cdbsOn then old(ampMem[..])[old(i) + 1 := pdbs.amp] else old(ampMem[..])
      ensures phaseMem[..] == if r.Pass? && !cdbsOn then old(phaseMem[..])[old(i) + 1 := pdbs.phase] else old(phaseMem[..])
    {
      if cdbsOn {
        r, q := AdvanceOpenLoop(dSdt, noise);
      } else {
        r, q := AdvanceClosedLoop(dSdt, measure, noise);
      }
    }

    /** The values a run starts from. */
    ghost function Snapshot(): Origin
      reads this, Repr()
    {
      Origin(RowsOf(S), stimMem[..], ampMem[..], phaseMem[..], pdbs.estimator.slow.Xf, pdbs.estimator.fast.Xf,
             if cdbs != null then cdbs.State() else Dbs.Periodic(0, 0), pdbs.State(), i)
    }

    /** The configuration a run keeps, given the right-hand side, the measure and the noise. */
    ghost function SetupOf(rhs: (seq<seq<real>>, nat) -> Vector, measure: Complex -> Dbs.Measure, noise: Noise): Setup
      reads this, Repr()
    {
      Setup(PlantOf(rhs, noise), cdbs != null,
            if cdbs != null then cdbs.nStart else 0.0,
            if cdbs != null then cdbs.stepsPerPulse else 0,
            if cdbs != null then cdbs.base.charge else 0.0,
            StateColumn(), measure, pdbs.estimator.slow.e, pdbs.estimator.fast.e,
            pdbs.phaseThr, pdbs.powerThr, pdbs.nRef, pdbs.base.charge)
    }

    /** The state is where the steps from `o` with the charges `qs` lead, in this configuration. */
    ghost predicate Tracked(o: Origin, rhs: (seq<seq<real>>, nat) -> Vector, measure: Complex -> Dbs.Measure,
                            noise: Noise, qs: seq<real>)
      reads this, Repr()
    {
      Valid() && Follows(SetupOf(rhs, measure, noise), o, Snapshot(), qs)
    }

    /**
     * One pass of the loop of `MFM.run`: `dSdt` from the rows so far, then `advance`. When it
     * passes, the state is `Next` of the one before and the configuration stays.
     */
    method Tick(rhs: (seq<seq<real>>, nat) -> Vector, measure: Complex -> Dbs.Measure, noise: Noise)
      returns (r: Outcome<StepError>, ghost q: real)
      requires Valid() && i + 1 < N
      modifies Repr()
      ensures Valid()
      ensures r == StepOutcome(cdbsOn, pdbsOn, stimTarget, stateTarget, cm)
      ensures r.Pass? ==> old(Ready(SetupOf(rhs, measure, noise), Snapshot()))
      ensures r.Pass? ==> (Snapshot(), q) == old(Next(SetupOf(rhs, measure, noise), Snapshot()))
      ensures r.Fail? ==> i == old(i) && unchanged(S) && stimMem[..] == old(stimMem[..])
      ensures r.Fail? ==> ampMem[..] == old(ampMem[..]) && phaseMem[..] == old(phaseMem[..])
      ensures SetupOf(rhs, measure, noise) == old(SetupOf(rhs, measure, noise))
      ensures unchanged(pdbs.base) && (cdbs != null ==> unchanged(cdbs.base))
      ensures cdbsOn ==> unchanged(pdbs, pdbs.estimator.slow, pdbs.estimator.fast)
    {
      ghost var c := SetupOf(rhs, measure, noise);
      ghost var now := Snapshot();
      var dSdt := rhs(RowsOf(S), i);
      r, q := Advance(dSdt, measure, noise);
      if r.Fail? {
        return;
      }
      assert Ready(c, now);
      ghost var next := Snapshot();
      assert next.rows == StepRows(c.plant, now.rows, now.i, q);
      if cdbsOn {
        var (t, fired) := Dbs.PeriodicStep(c.nStart, c.period, now.periodic);
        assert next.periodic == t && q == if fired then c.openCharge else 0.0;
        assert next == now.(rows := next.rows, stim := next.stim, periodic := t, i := now.i + 1);
      } else {
        var x := now.rows[now.i][c.col];
        assert next.slowX == Swift.Slid(c.slowE, now.slowX, [x]) && next.fastX == Swift.Slid(c.fastE, now.fastX, [x]);
        var m := ReadingOfEstimate(c, Sub(next.slowX[0], next.fastX[0]));
        var (t, fired) := Dbs.LockedStep(c.nRef, now.trigger, m);
        assert next.trigger == t && q == if fired then c.lockedCharge else 0.0;
        assert next.amp == now.amp[now.i + 1 := m.ampDb] && next.phase == now.phase[now.i + 1 := m.phase];
      }
      assert (next, q) == Next(c, now);
    }

    /**
     * `MFM.run`: steps until the current row is the last one. `rhs` gives `dSdt` from the rows
     * so far and the current index. A failing configuration fails on the first step and leaves
     * the rows and the records as they were. A run that succeeds ends tracked from where it
     * started: `charges` are the controller's charges, one per step, and the rows, the records,
     * the estimators and the controller state are those `Tracked` names.
     */
    method Run(rhs: (seq<seq<real>>, nat) -> Vector, measure: Complex -> Dbs.Measure, noise: Noise)
      returns (r: Outcome<StepError>, ghost charges: seq<real>)
      requires Valid()
      modifies Repr()
      ensures Valid()
      ensures r == if old(i) + 1 < N then StepOutcome(cdbsOn, pdbsOn, stimTarget, stateTarget, cm) else Pass
      ensures r.Pass? ==> i == N - 1 && |charges| == N - 1 - old(i)
      ensures r.Pass? ==> Tracked(old(Snapshot()), rhs, measure, noise, charges)
      ensures r.Fail? ==> i == old(i) && charges == [] && unchanged(S) && stimMem[..] == old(stimMem[..])
      ensures r.Fail? ==> ampMem[..] == old(ampMem[..]) && phaseMem[..] == old(phaseMem[..])
      ensures forall rr :: 0 <= rr < old(i) ==> RowOf(S, rr) == old(RowOf(S, rr))
      ensures !cdbsOn && !pdbsOn ==> stimMem[..] == old(stimMem[..])
      ensures cdbsOn ==> ampMem[..] == old(ampMem[..]) && phaseMem[..] == old(phaseMem[..])
      ensures unchanged(pdbs.base) && (cdbs != null ==> unchanged(cdbs.base))
      ensures pdbs.phaseThr == old(pdbs.phaseThr) && pdbs.powerThr == old(pdbs.powerThr) && pdbs.nRef == old(pdbs.nRef)
      ensures cdbsOn ==> unchanged(pdbs, pdbs.estimator.slow, pdbs.estimator.fast)
    {
      r := Pass;
      charges := [];
      ghost var o := Snapshot();
      ghost var c := SetupOf(rhs, measure, noise);
      FollowsStart(c, o);
      while i < N - 1
        invariant Valid() && SetupOf(rhs, measure, noise) == c && Follows(c, o, Snapshot(), charges)
        invariant i > old(i) ==> StepOutcome(cdbsOn, pdbsOn, stimTarget, stateTarget, cm) == Pass
        invariant i == old(i) ==> unchanged(S) && stimMem[..] == old(stimMem[..])
        invariant i == old(i) ==> ampMem[..] == old(ampMem[..]) && phaseMem[..] == old(phaseMem[..])
        invariant !cdbsOn && !pdbsOn ==> stimMem[..] == old(stimMem[..])
        invariant cdbsOn ==> ampMem[..] == old(ampMem[..]) && phaseMem[..] == old(phaseMem[..])
        invariant unchanged(pdbs.base) && (cdbs != null ==> unchanged(cdbs.base))
        invariant cdbsOn ==> unchanged(pdbs, pdbs.estimator.slow, pdbs.estimator.fast)
        decreases N - 1 - i
      {
        ghost var now := Snapshot();
        var o1;
        ghost var q;
        o1, q := Tick(rhs, measure, noise);
        if o1.Fail? {
          return o1, charges;
        }
        NextFollows(c, o, now, charges);
        charges := charges + [q];
      }
      EvolveOutside(c.plant, o.rows, o.i, charges);
      assert forall rr :: 0 <= rr < old(i) ==> RowsOf(S)[rr] == o.rows[rr];
    }
  }
}
