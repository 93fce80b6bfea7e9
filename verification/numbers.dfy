/** Numbers as the simulator uses them: reals, complex numbers, three-vectors
    and floating-point pixel values that may be not-a-number. */
module Numbers {

  /** numpy.pi: the double nearest to pi, written as an exact decimal. */
  const Pi: real := 3.141592653589793

  datatype Complex = Complex(re: real, im: real) {

    function Plus(o: Complex): Complex {
      Complex(re + o.re, im + o.im)
    }

    function Times(o: Complex): Complex {
      Complex(re * o.re - im * o.im, re * o.im + im * o.re)
    }

    function Scale(k: real): Complex {
      Complex(k * re, k * im)
    }

    /** |z|^2, the square of the modulus. */
    function AbsSq(): real {
      re * re + im * im
    }
  }

  const ComplexZero: Complex := Complex(0.0, 0.0)

  /** A floating-point value: a finite number or not-a-number. NaN absorbs
      every arithmetic operation it takes part in. */
  datatype Float<+T> = Finite(value: T) | NaN

  /** One pixel of a complex amplitude field. */
  type Amp = Float<Complex>

  function AddAmp(a: Amp, b: Amp): (r: Amp)
    ensures r.NaN? <==> a.NaN? || b.NaN?
  {
    if a.NaN? || b.NaN? then NaN else Finite(a.value.Plus(b.value))
  }

  function MulAmp(a: Amp, z: Complex): (r: Amp)
    ensures r.NaN? <==> a.NaN?
  {
    if a.NaN? then NaN else Finite(a.value.Times(z))
  }

  function ScaleAmp(a: Amp, k: real): (r: Amp)
    ensures r.NaN? <==> a.NaN?
  {
    if a.NaN? then NaN else Finite(a.value.Scale(k))
  }

  /** abs(F)**2 of one pixel. */
  function IntensityOf(a: Amp): (r: Float<real>)
    ensures r.NaN? <==> a.NaN?
    ensures r.Finite? ==> r.value >= 0.0
  {
    if a.NaN? then NaN else Finite(a.value.AbsSq())
  }

  datatype Vec3 = Vec3(x: real, y: real, z: real) {

    function Dot(o: Vec3): real {
      x * o.x + y * o.y + z * o.z
    }

    function Scale(k: real): Vec3 {
      Vec3(k * x, k * y, k * z)
    }
  }

  const Origin: Vec3 := Vec3(0.0, 0.0, 0.0)

  function Abs(x: real): real {
    if x < 0.0 then -x else x
  }

  // ---------------------------------------------------------------------------
  // Real arithmetic facts the solver does not find on its own

  lemma PositiveProduct(x: real, y: real)
    requires x > 0.0 && y > 0.0
    ensures x * y > 0.0
  {
  }

  lemma MulAssociates(a: real, b: real, c: real)
    ensures (a * b) * c == a * (b * c)
  {
  }

  lemma MulSwap(x: real, a: real, r: real)
    ensures x * (a * r) == a * (x * r)
  {
  }

  /** x is k times y. */
  predicate Multiple(x: real, k: real, y: real) {
    x == k * y
  }

  lemma ScaledSum(k: real, a: real, b: real, sum: real, ka: real, kb: real, ksum: real)
    requires sum == a + b && ksum == ka + kb
    requires Multiple(ka, k, a) && Multiple(kb, k, b)
    ensures Multiple(ksum, k, sum)
  {
  }

  lemma DivideBack(x: real, t: real)
    requires t != 0.0
    ensures (1.0 / t * x) * t == x
  {
    assert (1.0 / t) * t == 1.0;
    MulAssociates(1.0 / t, x, t);
  }

  lemma QuotientScale(a: real, x: real, m: real)
    requires m != 0.0
    ensures (a * x) / m == a * (x / m)
  {
  }

  lemma NonNegativeFactor(x: real, t: real)
    requires t > 0.0 && x * t >= 0.0
    ensures x >= 0.0
  {
    if x < 0.0 {
      PositiveProduct(-x, t);
    }
  }

  lemma CrossRatio(j: real, x: real, y: real, nx: real, ny: real)
    requires nx == j * x && ny == j * y
    ensures nx * y == ny * x
  {
    MulAssociates(j, x, y);
    MulAssociates(j, y, x);
  }

  lemma UnitReciprocal(t: real, v: real)
    requires t != 0.0 && v == (1.0 / t) * t
    ensures v == 1.0
  {
  }

  lemma ProductChain(j: real, k: real, jk: real, x: real, y: real, z: real, w: real)
    requires jk == j * k && y == k * x && z == j * y && w == jk * x
    ensures z == w
  {
    MulAssociates(j, k, x);
  }

  lemma ScaledComplex(z: Complex, k: real, re: real, im: real)
    requires re == k * z.re && im == k * z.im
    ensures Complex(re, im) == z.Scale(k)
  {
  }
}
