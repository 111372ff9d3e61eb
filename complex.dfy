/** Complex numbers as pairs of reals, with the ring laws the estimator proofs need. */
module ComplexNumbers {

  datatype Complex = Complex(re: real, im: real)

  const Zero: Complex := Complex(0.0, 0.0)
  const One: Complex := Complex(1.0, 0.0)

  function OfReal(x: real): Complex
  {
    Complex(x, 0.0)
  }

  function Add(a: Complex, b: Complex): Complex
  {
    Complex(a.re + b.re, a.im + b.im)
  }

  function Sub(a: Complex, b: Complex): Complex
  {
    Complex(a.re - b.re, a.im - b.im)
  }

  function Mul(a: Complex, b: Complex): Complex
  {
    Complex(a.re * b.re - a.im * b.im, a.re * b.im + a.im * b.re)
  }

  /** c raised to the n-th power, c^0 == 1. */
  function Pow(c: Complex, n: nat): Complex
  {
    if n == 0 then One else Mul(c, Pow(c, n - 1))
  }

  lemma MulAssoc(a: Complex, b: Complex, c: Complex)
    ensures Mul(Mul(a, b), c) == Mul(a, Mul(b, c))
  {
    var p, q, r, s, t, u := a.re, a.im, b.re, b.im, c.re, c.im;
    assert (p * r - q * s) * t == p * r * t - q * s * t;
    assert (p * s + q * r) * u == p * s * u + q * r * u;
    assert p * (r * t - s * u) == p * r * t - p * s * u;
    assert q * (r * u + s * t) == q * r * u + q * s * t;
    assert (p * r - q * s) * u == p * r * u - q * s * u;
    assert (p * s + q * r) * t == p * s * t + q * r * t;
    assert p * (r * u + s * t) == p * r * u + p * s * t;
    assert q * (r * t - s * u) == q * r * t - q * s * u;
  }

  lemma MulDistributes(a: Complex, b: Complex, c: Complex)
    ensures Mul(a, Add(b, c)) == Add(Mul(a, b), Mul(a, c))
  {
    assert Mul(a, Add(b, c)).re == a.re * (b.re + c.re) - a.im * (b.im + c.im);
    assert Mul(a, Add(b, c)).im == a.re * (b.im + c.im) + a.im * (b.re + c.re);
  }

  lemma MulDistributesSub(a: Complex, b: Complex, c: Complex)
    ensures Mul(a, Sub(b, c)) == Sub(Mul(a, b), Mul(a, c))
  {
    assert Mul(a, Sub(b, c)).re == a.re * (b.re - c.re) - a.im * (b.im - c.im);
    assert Mul(a, Sub(b, c)).im == a.re * (b.im - c.im) + a.im * (b.re - c.re);
  }

  lemma MulZero(a: Complex)
    ensures Mul(a, Zero) == Zero
  {
  }
}
