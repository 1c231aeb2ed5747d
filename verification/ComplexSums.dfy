/** Complex numbers over the reals, sums of finitely many of them, and products with a common factor. */
module ComplexSums {

  datatype Complex = Complex(re: real, im: real) {
    function Plus(other: Complex): Complex {
      Complex(re + other.re, im + other.im)
    }

    function Times(other: Complex): Complex {
      Complex(re * other.re - im * other.im, re * other.im + im * other.re)
    }

    function Conj(): Complex {
      Complex(re, -im)
    }
  }

  const ZERO := Complex(0.0, 0.0)
  const ONE := Complex(1.0, 0.0)

  /** The entries of a matrix by row and column. */
  type Entries = (nat, nat) -> Complex

  /** g(0) + ... + g(m - 1). */
  function Sum(m: nat, g: nat -> Complex): Complex {
    if m == 0 then ZERO else Sum(m - 1, g).Plus(g(m - 1))
  }

  lemma {:induction false} SumSame(m: nat, g: nat -> Complex, h: nat -> Complex)
    requires forall i :: 0 <= i < m ==> g(i) == h(i)
    ensures Sum(m, g) == Sum(m, h)
  {
    if m > 0 { SumSame(m - 1, g, h); }
  }

  lemma {:induction false} SumPlus(m: nat, a: nat -> Complex, b: nat -> Complex, c: nat -> Complex)
    requires forall i :: 0 <= i < m ==> c(i) == a(i).Plus(b(i))
    ensures Sum(m, c) == Sum(m, a).Plus(Sum(m, b))
  {
    if m > 0 { SumPlus(m - 1, a, b, c); }
  }

  function Pointwise(a: nat -> Complex, b: nat -> Complex): nat -> Complex {
    (i: nat) => a(i).Plus(b(i))
  }

  // ---------------------------------------------------------------- products

  lemma Distributes(a: Complex, b: Complex, f: Complex)
    ensures a.Plus(b).Times(f) == a.Times(f).Plus(b.Times(f))
  {
    RealDistributes(a.re, b.re, f.re);
    RealDistributes(a.im, b.im, f.im);
    RealDistributes(a.re, b.re, f.im);
    RealDistributes(a.im, b.im, f.re);
  }

  lemma RealDistributes(a: real, b: real, f: real)
    ensures (a + b) * f == a * f + b * f
  {}

  lemma TimesUnit(a: Complex)
    ensures a.Times(ONE) == a && ONE.Times(a) == a && a.Times(ZERO) == ZERO && ZERO.Times(a) == ZERO
  {}

  lemma {:induction false} SumTimes(m: nat, g: nat -> Complex, f: Complex, h: nat -> Complex)
    requires forall i :: 0 <= i < m ==> h(i) == g(i).Times(f)
    ensures Sum(m, h) == Sum(m, g).Times(f)
  {
    if m == 0 {
      TimesUnit(f);
    } else {
      SumTimes(m - 1, g, f, h);
      Distributes(Sum(m - 1, g), g(m - 1), f);
    }
  }

  /** A sum with one term that is not zero is that term. */
  lemma {:induction false} SumSingle(m: nat, g: nat -> Complex, at: nat)
    requires forall i :: 0 <= i < m && i != at ==> g(i) == ZERO
    ensures Sum(m, g) == if at < m then g(at) else ZERO
  {
    if m > 0 { SumSingle(m - 1, g, at); }
  }
}
