/**
 * The streaming Fourier estimators of swift.py.
 *
 * `Swift` keeps one complex accumulator per centre frequency and folds every incoming sample
 * into it with `Xf <- e * Xf + x`; `Aswift` runs a slow and a fast `Swift` over the same
 * samples and reports their difference. The per-frequency factor `e` (an `np.exp` of the
 * time constant, the frequency and the sampling rate) is given to the constructors.
 */
module Swift {
  import opened Wrappers
  import opened ComplexNumbers

  /** The `ValueError`s raised by the parameter check, in the order it tests them. */
  datatype ParamError = FsNotPositive | TauNotPositive | FNotPositive

  /** `np.any(s <= 0)` */
  function AnyNonPositive(s: seq<real>): (b: bool)
    ensures b <==> exists k :: 0 <= k < |s| && s[k] <= 0.0
  {
    if s == [] then false
    else if s[0] <= 0.0 then true
    else
      var rest := AnyNonPositive(s[1..]);
      assert rest ==> exists k :: 0 <= k < |s| && s[k] <= 0.0 by {
        if rest {
          var j :| 0 <= j < |s[1..]| && s[1..][j] <= 0.0;
          assert s[j + 1] <= 0.0;
        }
      }
      rest
  }

  /** The checks of `swift.__paramcheck`: the sampling rate first, then every time constant, then every frequency. */
  function ParamCheck(tau: seq<real>, f: seq<real>, fs: real): (r: Outcome<ParamError>)
    ensures r == Pass <==>
      fs > 0.0 && (forall k :: 0 <= k < |tau| ==> tau[k] > 0.0) && (forall k :: 0 <= k < |f| ==> f[k] > 0.0)
    ensures r == Fail(FsNotPositive) <==> fs <= 0.0
    ensures r == Fail(TauNotPositive) <==> fs > 0.0 && exists k :: 0 <= k < |tau| && tau[k] <= 0.0
    ensures r == Fail(FNotPositive) <==>
      fs > 0.0 && (forall k :: 0 <= k < |tau| ==> tau[k] > 0.0) && exists k :: 0 <= k < |f| && f[k] <= 0.0
  {
    if fs <= 0.0 then Fail(FsNotPositive)
    else if AnyNonPositive(tau) then Fail(TauNotPositive)
    else if AnyNonPositive(f) then Fail(FNotPositive)
    else Pass
  }

  /** `np.zeros(n, dtype=complex)` */
  function Zeros(n: nat): (z: seq<Complex>)
    ensures |z| == n && forall k :: 0 <= k < n ==> z[k] == Zero
  {
    seq(n, _ => Zero)
  }

  /** `tau * fs`, element by element. */
  function Scaled(tau: seq<real>, fs: real): (r: seq<real>)
    ensures |r| == |tau| && forall k :: 0 <= k < |tau| ==> r[k] == tau[k] * fs
  {
    seq(|tau|, k requires 0 <= k < |tau| => tau[k] * fs)
  }

  /** One update `e * X + x` of every accumulator by the sample `x`. */
  function Step(e: seq<Complex>, X: seq<Complex>, x: real): (r: seq<Complex>)
    requires |e| == |X|
    ensures |r| == |X| && forall k :: 0 <= k < |X| ==> r[k] == Add(Mul(e[k], X[k]), OfReal(x))
  {
    seq(|X|, k requires 0 <= k < |X| => Add(Mul(e[k], X[k]), OfReal(x)))
  }

  /** The accumulators after the samples `xs` were folded into `X`, in order. */
  function Slid(e: seq<Complex>, X: seq<Complex>, xs: seq<real>): (r: seq<Complex>)
    requires |e| == |X|
    ensures |r| == |X|
    decreases |xs|
  {
    if xs == [] then X else Step(e, Slid(e, X, xs[..|xs| - 1]), xs[|xs| - 1])
  }

  /** The same recurrence for a single accumulator with factor `c`. */
  function SlideOne(c: Complex, z: Complex, xs: seq<real>): Complex
    decreases |xs|
  {
    if xs == [] then z else Add(Mul(c, SlideOne(c, z, xs[..|xs| - 1])), OfReal(xs[|xs| - 1]))
  }

  /** The weighted sum `sum_k c^(n-1-k) * xs[k]` over the `n` samples `xs`. */
  function PowerSum(c: Complex, xs: seq<real>): Complex
  {
    if xs == [] then Zero else Add(Mul(Pow(c, |xs| - 1), OfReal(xs[0])), PowerSum(c, xs[1..]))
  }

  /** The element-wise difference of two accumulator vectors. */
  function Diff(a: seq<Complex>, b: seq<Complex>): (r: seq<Complex>)
    requires |a| == |b|
    ensures |r| == |a| && forall k :: 0 <= k < |a| ==> r[k] == Sub(a[k], b[k])
  {
    seq(|a|, k requires 0 <= k < |a| => Sub(a[k], b[k]))
  }

  /** Each accumulator evolves on its own: entry `k` follows the scalar recurrence with factor `e[k]`. */
  lemma {:induction false} SlidAt(e: seq<Complex>, X: seq<Complex>, xs: seq<real>, k: nat)
    requires |e| == |X| && k < |X|
    ensures Slid(e, X, xs)[k] == SlideOne(e[k], X[k], xs)
    decreases |xs|
  {
    if xs != [] {
      SlidAt(e, X, xs[..|xs| - 1], k);
    }
  }

  /** Sliding `a + b` is sliding `a` and then `b`; with `a == []` or `b == []` it changes nothing extra. */
  lemma {:induction false} SlidAppend(e: seq<Complex>, X: seq<Complex>, a: seq<real>, b: seq<real>)
    requires |e| == |X|
    ensures Slid(e, X, a + b) == Slid(e, Slid(e, X, a), b)
    decreases |b|
  {
    if b == [] {
      assert a + b == a;
    } else {
      var ab := a + b;
      assert ab[..|ab| - 1] == a + b[..|b| - 1];
      assert ab[|ab| - 1] == b[|b| - 1];
      SlidAppend(e, X, a, b[..|b| - 1]);
    }
  }

  lemma {:induction false} PowerSumSnoc(c: Complex, xs: seq<real>, y: real)
    ensures PowerSum(c, xs + [y]) == Add(Mul(c, PowerSum(c, xs)), OfReal(y))
    decreases |xs|
  {
    if xs == [] {
      assert [] + [y] == [y];
      assert [y][1..] == [];
    } else {
      var n := |xs|;
      var rest := xs[1..];
      assert (xs + [y])[1..] == rest + [y];
      assert (xs + [y])[0] == xs[0];
      PowerSumSnoc(c, rest, y);
      var t := Mul(Pow(c, n - 1), OfReal(xs[0]));
      MulDistributes(c, t, PowerSum(c, rest));
      MulAssoc(c, Pow(c, n - 1), OfReal(xs[0]));
      assert Pow(c, n) == Mul(c, Pow(c, n - 1));
    }
  }

  /** Closed form of the recurrence: after `n` samples, `z` is scaled by `c^n` and sample `k` by `c^(n-1-k)`. */
  lemma {:induction false} SlideOneClosedForm(c: Complex, z: Complex, xs: seq<real>)
    ensures SlideOne(c, z, xs) == Add(Mul(Pow(c, |xs|), z), PowerSum(c, xs))
    decreases |xs|
  {
    if xs != [] {
      var n := |xs| - 1;
      var init := xs[..n];
      var y := xs[n];
      assert xs == init + [y];
      SlideOneClosedForm(c, z, init);
      PowerSumSnoc(c, init, y);
      MulDistributes(c, Mul(Pow(c, n), z), PowerSum(c, init));
      MulAssoc(c, Pow(c, n), z);
    }
  }

  /** From the zero vector the swift accumulator for frequency `k` is `sum_j e[k]^(n-1-j) * xs[j]`. */
  lemma SwiftClosedForm(e: seq<Complex>, xs: seq<real>, k: nat)
    requires k < |e|
    ensures Slid(e, Zeros(|e|), xs)[k] == PowerSum(e[k], xs)
  {
    SlidAt(e, Zeros(|e|), xs, k);
    SlideOneClosedForm(e[k], Zero, xs);
    MulZero(Pow(e[k], |xs|));
  }

  /** From zero, the aswift output is the difference of the slow and the fast weighted sums. */
  lemma AswiftClosedForm(es: seq<Complex>, ef: seq<Complex>, xs: seq<real>, k: nat)
    requires |es| == |ef| && k < |es|
    ensures Diff(Slid(es, Zeros(|es|), xs), Slid(ef, Zeros(|ef|), xs))[k]
         == Sub(PowerSum(es[k], xs), PowerSum(ef[k], xs))
  {
    SwiftClosedForm(es, xs, k);
    SwiftClosedForm(ef, xs, k);
  }

  class Swift {
    const tau: seq<real>
    const f: seq<real>
    const fs: real
    const ntau: seq<real>
    const e: seq<Complex>
    var Xf: seq<Complex>

    ghost predicate Valid()
      reads this
    {
      |e| == |f| && |Xf| == |f|
    }

    /** `swift.__init__` once the parameter check has passed; `e` is the factor of line 116. */
    constructor (tau: seq<real>, f: seq<real>, fs: real, e: seq<Complex>)
      requires ParamCheck(tau, f, fs) == Pass
      requires |e| == |f|
      ensures Valid()
      ensures this.tau == tau && this.f == f && this.fs == fs && this.e == e
      ensures ntau == Scaled(tau, fs)
      ensures Xf == Zeros(|f|)
    {
      this.tau := tau;
      this.f := f;
      this.fs := fs;
      this.ntau := Scaled(tau, fs);
      this.e := e;
      this.Xf := Zeros(|f|);
    }

    /** `swift(tau, f, fs)`: raises the parameter check's error, or builds a zeroed estimator. */
    static method Init(tau: seq<real>, f: seq<real>, fs: real, e: seq<Complex>) returns (r: Result<Swift, ParamError>)
      requires |e| == |f|
      ensures r.Failure? <==> ParamCheck(tau, f, fs) != Pass
      ensures r.Failure? ==> ParamCheck(tau, f, fs) == Fail(r.error)
      ensures r.Success? ==> fresh(r.value) && r.value.Valid() && r.value.Xf == Zeros(|f|)
      ensures r.Success? ==> r.value.tau == tau && r.value.f == f && r.value.fs == fs && r.value.e == e
      ensures r.Success? ==> r.value.ntau == Scaled(tau, fs)
    {
      var check := ParamCheck(tau, f, fs);
      if check.Fail? {
        return Failure(check.error);
      }
      var s := new Swift(tau, f, fs, e);
      return Success(s);
    }

    /** `slide(x)`: folds the samples into the accumulators one by one and returns the new accumulators. */
    method Slide(x: seq<real>) returns (r: seq<Complex>)
      requires Valid()
      modifies this
      ensures Valid()
      ensures Xf == Slid(e, old(Xf), x)
      ensures r == Xf
    {
      for i := 0 to |x|
        invariant |Xf| == |f|
        invariant Xf == Slid(e, old(Xf), x[..i])
      {
        assert x[..i + 1][..i] == x[..i];
        Xf := Step(e, Xf, x[i]);
      }
      assert x[..|x|] == x;
      r := Xf;
    }
  }

  class Aswift {
    const tauS: real
    const tauF: real
    const f: seq<real>
    const fs: real
    const slow: Swift
    const fast: Swift

    ghost predicate Valid()
      reads this, slow, fast
    {
      && slow != fast
      && slow.Valid() && fast.Valid()
      && slow.tau == [tauS] && fast.tau == [tauF]
      && slow.f == f && fast.f == f
      && slow.fs == fs && fast.fs == fs
    }

    /** `aswift.__init__` once both time constants have passed the check. */
    constructor (tauS: real, tauF: real, f: seq<real>, fs: real, eSlow: seq<Complex>, eFast: seq<Complex>)
      requires ParamCheck([tauS], f, fs) == Pass && ParamCheck([tauF], f, fs) == Pass
      requires |eSlow| == |f| && |eFast| == |f|
      ensures Valid() && fresh(slow) && fresh(fast)
      ensures this.tauS == tauS && this.tauF == tauF && this.f == f && this.fs == fs
      ensures slow.e == eSlow && fast.e == eFast
      ensures slow.Xf == Zeros(|f|) && fast.Xf == Zeros(|f|)
    {
      this.tauS := tauS;
      this.tauF := tauF;
      this.f := f;
      this.fs := fs;
      this.slow := new Swift([tauS], f, fs, eSlow);
      this.fast := new Swift([tauF], f, fs, eFast);
    }

    /** `aswift(tau_s, tau_f, f, fs)`: the slow estimator is built (and may raise) before the fast one. */
    static method Init(tauS: real, tauF: real, f: seq<real>, fs: real, eSlow: seq<Complex>, eFast: seq<Complex>)
      returns (r: Result<Aswift, ParamError>)
      requires |eSlow| == |f| && |eFast| == |f|
      ensures r.Failure? <==> ParamCheck([tauS], f, fs) != Pass || ParamCheck([tauF], f, fs) != Pass
      ensures r.Failure? && ParamCheck([tauS], f, fs) != Pass ==> ParamCheck([tauS], f, fs) == Fail(r.error)
      ensures r.Failure? && ParamCheck([tauS], f, fs) == Pass ==> ParamCheck([tauF], f, fs) == Fail(r.error)
      ensures r.Success? ==> fresh(r.value) && fresh(r.value.slow) && fresh(r.value.fast) && r.value.Valid()
      ensures r.Success? ==> r.value.tauS == tauS && r.value.tauF == tauF && r.value.f == f && r.value.fs == fs
      ensures r.Success? ==> r.value.slow.e == eSlow && r.value.fast.e == eFast
      ensures r.Success? ==> r.value.slow.Xf == Zeros(|f|) && r.value.fast.Xf == Zeros(|f|)
    {
      var checkSlow := ParamCheck([tauS], f, fs);
      if checkSlow.Fail? {
        return Failure(checkSlow.error);
      }
      var checkFast := ParamCheck([tauF], f, fs);
      if checkFast.Fail? {
        return Failure(checkFast.error);
      }
      var a := new Aswift(tauS, tauF, f, fs, eSlow, eFast);
      return Success(a);
    }

    /** `slide(x)`: advances both estimators by the same samples and returns slow minus fast. */
    method Slide(x: seq<real>) returns (r: seq<Complex>)
      requires Valid()
      modifies slow, fast
      ensures Valid()
      ensures slow.Xf == Slid(slow.e, old(slow.Xf), x)
      ensures fast.Xf == Slid(fast.e, old(fast.Xf), x)
      ensures r == Diff(slow.Xf, fast.Xf)
    {
      var xs := slow.Slide(x);
      var xf := fast.Slide(x);
      r := Diff(xs, xf);
    }
  }
}
