/** The superoperator of a channel. */
module Channels {
  import opened ComplexSums
  import opened PartialTrace
  import opened Reshuffle

  // ---------------------------------------------------------------- matrices

  function Product(n: nat, a: Entries, b: Entries): Entries {
    (i: nat, j: nat) => Sum(n, Terms(a, b, i, j))
  }

  function Terms(a: Entries, b: Entries, i: nat, j: nat): nat -> Complex {
    (k: nat) => a(i, k).Times(b(k, j))
  }

  function Adjoint(a: Entries): Entries {
    (i: nat, j: nat) => a(j, i).Conj()
  }

  function Added(a: Entries, b: Entries): Entries {
    (i: nat, j: nat) => a(i, j).Plus(b(i, j))
  }

  function Zero(): Entries {
    (i: nat, j: nat) => ZERO
  }

  function Identity(): Entries {
    (i: nat, j: nat) => if i == j then ONE else ZERO
  }

  /** The Kronecker product with a matrix of dim rows and columns on the right. */
  function Kronecker(a: Entries, b: Entries, dim: nat): Entries
    requires dim > 0
  {
    (i: nat, j: nat) => a(i / dim, j / dim).Times(b(i % dim, j % dim))
  }

  /** The state sum of |i, i>, not normalised. */
  function Entangled(dim: nat): nat -> Complex
    requires dim > 0
  {
    (x: nat) => if x / dim == x % dim then ONE else ZERO
  }

  function Omega(dim: nat): Entries
    requires dim > 0
  {
    (i: nat, j: nat) => Entangled(dim)(i).Times(Entangled(dim)(j).Conj())
  }

  // ---------------------------------------------------------------- kraus_to_choi

  /** What one Kraus operator adds to the Choi matrix. */
  function ChoiTerm(kraus: Entries, dim: nat): Entries
    requires dim > 0
  {
    var wide := Kronecker(Identity(), kraus, dim);
    Product(dim * dim, Product(dim * dim, wide, Omega(dim)), Adjoint(wide))
  }

  function ChoiOf(kraus: seq<Entries>, dim: nat): Entries
    requires dim > 0
  {
    if kraus == [] then Zero() else Added(ChoiOf(kraus[..|kraus| - 1], dim), ChoiTerm(kraus[|kraus| - 1], dim))
  }

  /** What one Kraus operator does to a density matrix: K rho K*. */
  function Conjugated(kraus: Entries, dim: nat, rho: Entries): Entries {
    Product(dim, Product(dim, kraus, rho), Adjoint(kraus))
  }

  /** The channel: the sum of K rho K* over the Kraus operators. */
  function Channel(kraus: seq<Entries>, dim: nat, rho: Entries): Entries {
    if kraus == [] then Zero()
    else Added(Channel(kraus[..|kraus| - 1], dim, rho), Conjugated(kraus[|kraus| - 1], dim, rho))
  }

  /** The entries of a matrix of dim rows, column by column. */
  function Stacked(rho: Entries, dim: nat): nat -> Complex
    requires dim > 0
  {
    (x: nat) => rho(x % dim, x / dim)
  }

  /** Entry i of a matrix times a vector. */
  function Applied(n: nat, a: Entries, v: nat -> Complex, i: nat): Complex {
    Sum(n, AppliedTerms(a, v, i))
  }

  function AppliedTerms(a: Entries, v: nat -> Complex, i: nat): nat -> Complex {
    (k: nat) => a(i, k).Times(v(k))
  }

  // ---------------------------------------------------------------- the entries of the Choi matrix

  /** In row (a, b), the widened operator times Omega is K(b, a) wherever Omega has an entry. */
  lemma WideOmega(kraus: Entries, dim: nat, a: nat, b: nat, z: nat)
    requires a < dim && b < dim
    ensures Product(dim * dim, Kronecker(Identity(), kraus, dim), Omega(dim))(Join(dim, a, b), z)
         == if z / dim == z % dim then kraus(b, a) else ZERO
  {
    var x, at := Join(dim, a, b), Join(dim, a, a);
    var wide := Kronecker(Identity(), kraus, dim);
    var g := Terms(wide, Omega(dim), x, z);
    JoinParts(dim, a, b);
    JoinParts(dim, a, a);
    forall w: nat | w < dim * dim && w != at
      ensures g(w) == ZERO
    {
      WideOmegaAt(kraus, dim, a, b, w, z);
    }
    WideOmegaAt(kraus, dim, a, b, at, z);
    SumSingle(dim * dim, g, at);
  }

  /** An entry of the widened operator: K within a block on the diagonal. */
  lemma WideAt(kraus: Entries, dim: nat, a: nat, b: nat, w: nat)
    requires a < dim && b < dim
    ensures Kronecker(Identity(), kraus, dim)(Join(dim, a, b), w) == if w / dim == a then kraus(b, w % dim) else ZERO
  {
    JoinParts(dim, a, b);
    TimesUnit(kraus(b, w % dim));
  }

  lemma OmegaAt(dim: nat, w: nat, z: nat, left: bool, right: bool)
    requires dim > 0 && left == (w / dim == w % dim) && right == (z / dim == z % dim)
    ensures Omega(dim)(w, z) == if left && right then ONE else ZERO
  {
    if left && right {
      OmegaIs(dim, w, z, ONE, ONE);
    } else if left {
      OmegaIs(dim, w, z, ONE, ZERO);
    } else if right {
      OmegaIs(dim, w, z, ZERO, ONE);
    } else {
      OmegaIs(dim, w, z, ZERO, ZERO);
    }
  }

  lemma OmegaIs(dim: nat, w: nat, z: nat, left: Complex, right: Complex)
    requires dim > 0 && Entangled(dim)(w) == left && Entangled(dim)(z) == right
    ensures Omega(dim)(w, z) == left.Times(right.Conj())
  {}

  lemma WideOmegaAt(kraus: Entries, dim: nat, a: nat, b: nat, w: nat, z: nat)
    requires a < dim && b < dim && w < dim * dim
    ensures Terms(Kronecker(Identity(), kraus, dim), Omega(dim), Join(dim, a, b), z)(w)
         == if w == Join(dim, a, a) && z / dim == z % dim then kraus(b, a) else ZERO
  {
    WideAt(kraus, dim, a, b, w);
    OmegaAt(dim, w, z, w / dim == w % dim, z / dim == z % dim);
    OnDiagonal(dim, a, w);
    PlainProducts(kraus(b, w % dim), w / dim == a, w / dim == w % dim && z / dim == z % dim);
  }

  lemma PlainProducts(k: Complex, left: bool, right: bool)
    ensures (if left then k else ZERO).Times(if right then ONE else ZERO) == if left && right then k else ZERO
  {
    if left {
      TimesUnit(k);
    } else {
      TimesUnit(if right then ONE else ZERO);
    }
  }

  lemma OnDiagonal(dim: nat, a: nat, w: nat)
    requires a < dim && w < dim * dim
    ensures w == Join(dim, a, a) <==> w / dim == a && w % dim == a
  {
    JoinParts(dim, a, a);
    SplitParts(dim, w);
  }

  /** Row (a, b), column (c, e) of what K adds is K(b, a) times the conjugate of K(e, c). */
  lemma ChoiEntry(kraus: Entries, dim: nat, a: nat, b: nat, c: nat, e: nat)
    requires a < dim && b < dim && c < dim && e < dim
    ensures ChoiTerm(kraus, dim)(Join(dim, a, b), Join(dim, c, e)) == kraus(b, a).Times(kraus(e, c).Conj())
  {
    var wide := Kronecker(Identity(), kraus, dim);
    var left := Product(dim * dim, wide, Omega(dim));
    var x, y, at := Join(dim, a, b), Join(dim, c, e), Join(dim, c, c);
    var g := Terms(left, Adjoint(wide), x, y);
    JoinParts(dim, c, c);
    forall z: nat | z < dim * dim && z != at
      ensures g(z) == ZERO
    {
      ChoiEntryAt(kraus, dim, a, b, c, e, z);
    }
    ChoiEntryAt(kraus, dim, a, b, c, e, at);
    SumSingle(dim * dim, g, at);
  }

  lemma ChoiEntryAt(kraus: Entries, dim: nat, a: nat, b: nat, c: nat, e: nat, z: nat)
    requires a < dim && b < dim && c < dim && e < dim && z < dim * dim
    ensures Terms(Product(dim * dim, Kronecker(Identity(), kraus, dim), Omega(dim)),
                  Adjoint(Kronecker(Identity(), kraus, dim)), Join(dim, a, b), Join(dim, c, e))(z)
         == if z == Join(dim, c, c) then kraus(b, a).Times(kraus(e, c).Conj()) else ZERO
  {
    WideOmega(kraus, dim, a, b, z);
    WideAt(kraus, dim, c, e, z);
    OnDiagonal(dim, c, z);
    UnitProducts(kraus(b, a), kraus(e, z % dim), z / dim == z % dim, z / dim == c);
  }

  lemma UnitProducts(k: Complex, l: Complex, left: bool, right: bool)
    ensures (if left then k else ZERO).Times((if right then l else ZERO).Conj())
         == if left && right then k.Times(l.Conj()) else ZERO
  {
    TimesUnit(k);
    TimesUnit(l.Conj());
  }

  // ---------------------------------------------------------------- the superoperator acts as the channel

  /** A sum over rows and columns as a sum over joined indices. */
  lemma {:induction false} SumBlocks(n: nat, dim: nat, g: nat -> Complex, rows: nat -> Complex, all: nat)
    requires all == Join(dim, n, 0) && forall c: nat :: c < n ==> rows(c) == Sum(dim, Block(dim, g, c))
    ensures Sum(all, g) == Sum(n, rows)
  {
    if n > 0 {
      var before := Join(dim, n - 1, 0);
      OneBlockMore(dim, n, all, before);
      SumBlocks(n - 1, dim, g, rows, before);
      var tail := Block(dim, g, n - 1);
      forall a: nat | a < dim
        ensures tail(a) == g(before + a)
      {
        assert Join(dim, n - 1, a) == before + a;
      }
      SumMore(before, dim, g, tail, all);
    } else {
      assert all == 0;
    }
  }

  lemma OneBlockMore(dim: nat, n: nat, all: nat, before: nat)
    requires n > 0 && all == Join(dim, n, 0) && before == Join(dim, n - 1, 0)
    ensures all == before + dim && before == (n - 1) * dim
  {
    assert n * dim == (n - 1) * dim + dim;
  }

  function Block(dim: nat, g: nat -> Complex, c: nat): nat -> Complex {
    (a: nat) => g(Join(dim, c, a))
  }

  lemma {:induction false} SumMore(m: nat, k: nat, g: nat -> Complex, tail: nat -> Complex, all: nat)
    requires all == m + k && forall a: nat :: a < k ==> tail(a) == g(m + a)
    ensures Sum(all, g) == Sum(m, g).Plus(Sum(k, tail))
  {
    if k > 0 { SumMore(m, k - 1, g, tail, all - 1); }
  }

  /** Entry (b, e) of a channel read from its Choi matrix: |a><c| is sent to the block of a and c. */
  function Contracted(choi: Entries, rho: Entries, dim: nat, b: nat, e: nat): Complex {
    Sum(dim, Columns(choi, rho, dim, b, e))
  }

  function Columns(choi: Entries, rho: Entries, dim: nat, b: nat, e: nat): nat -> Complex {
    (c: nat) => Sum(dim, Column(choi, rho, dim, b, e, c))
  }

  function Column(choi: Entries, rho: Entries, dim: nat, b: nat, e: nat, c: nat): nat -> Complex {
    (a: nat) => choi(Join(dim, a, b), Join(dim, c, e)).Times(rho(a, c))
  }

  lemma StackedAt(superop: Entries, rho: Entries, dim: nat, row: nat, c: nat, a: nat)
    requires a < dim
    ensures Block(dim, AppliedTerms(superop, Stacked(rho, dim), row), c)(a) == superop(row, Join(dim, c, a)).Times(rho(a, c))
  {
    JoinParts(dim, c, a);
  }

  /** The superoperator maps the stacked matrix to the stacked image. */
  lemma SuperoperatorActs(superop: Entries, choi: Entries, dim: nat, rho: Entries, b: nat, e: nat)
    requires b < dim && e < dim
    requires forall a: nat, c: nat :: a < dim && c < dim ==>
               superop(Join(dim, e, b), Join(dim, c, a)) == choi(Join(dim, a, b), Join(dim, c, e))
    ensures Applied(dim * dim, superop, Stacked(rho, dim), Join(dim, e, b)) == Contracted(choi, rho, dim, b, e)
  {
    var g, columns := AppliedTerms(superop, Stacked(rho, dim), Join(dim, e, b)), Columns(choi, rho, dim, b, e);
    forall c: nat | c < dim
      ensures columns(c) == Sum(dim, Block(dim, g, c))
    {
      var block, column := Block(dim, g, c), Column(choi, rho, dim, b, e, c);
      forall a: nat | a < dim
        ensures block(a) == column(a)
      {
        StackedAt(superop, rho, dim, Join(dim, e, b), c, a);
      }
      SumSame(dim, block, column);
    }
    SumBlocks(dim, dim, g, columns, Join(dim, dim, 0));
  }

  lemma Reordered(k: Complex, l: Complex, r: Complex)
    ensures k.Times(l).Times(r) == k.Times(r).Times(l)
  {
    ReorderedReal(k.re, k.im, l.re, l.im, r.re, r.im);
    ReorderedReal(k.im, -k.re, l.re, l.im, r.re, r.im);
  }

  lemma ReorderedReal(k: real, k': real, l: real, l': real, r: real, r': real)
    ensures (k * l - k' * l') * r - (k * l' + k' * l) * r' == (k * r - k' * r') * l - (k * r' + k' * r) * l'
  {}

  /** The channel of one Kraus operator, read from what it adds to the Choi matrix, is K rho K*. */
  lemma TermActs(kraus: Entries, dim: nat, rho: Entries, b: nat, e: nat)
    requires b < dim && e < dim
    ensures Contracted(ChoiTerm(kraus, dim), rho, dim, b, e) == Conjugated(kraus, dim, rho)(b, e)
  {
    var columns := Columns(ChoiTerm(kraus, dim), rho, dim, b, e);
    var terms := Terms(Product(dim, kraus, rho), Adjoint(kraus), b, e);
    forall c: nat | c < dim
      ensures columns(c) == terms(c)
    {
      var column, inner := Column(ChoiTerm(kraus, dim), rho, dim, b, e, c), Terms(kraus, rho, b, c);
      forall a: nat | a < dim
        ensures column(a) == inner(a).Times(kraus(e, c).Conj())
      {
        ChoiEntry(kraus, dim, a, b, c, e);
        Reordered(kraus(b, a), kraus(e, c).Conj(), rho(a, c));
      }
      SumTimes(dim, inner, kraus(e, c).Conj(), column);
    }
    SumSame(dim, columns, terms);
  }

  lemma ContractedAdds(p: Entries, q: Entries, rho: Entries, dim: nat, b: nat, e: nat)
    ensures Contracted(Added(p, q), rho, dim, b, e) == Contracted(p, rho, dim, b, e).Plus(Contracted(q, rho, dim, b, e))
  {
    var both, left, right := Columns(Added(p, q), rho, dim, b, e), Columns(p, rho, dim, b, e), Columns(q, rho, dim, b, e);
    forall c: nat | c < dim
      ensures both(c) == left(c).Plus(right(c))
    {
      var all := Column(Added(p, q), rho, dim, b, e, c);
      var inP, inQ := Column(p, rho, dim, b, e, c), Column(q, rho, dim, b, e, c);
      forall a: nat | a < dim
        ensures all(a) == inP(a).Plus(inQ(a))
      {
        Distributes(p(Join(dim, a, b), Join(dim, c, e)), q(Join(dim, a, b), Join(dim, c, e)), rho(a, c));
      }
      SumPlus(dim, inP, inQ, all);
    }
    SumPlus(dim, left, right, both);
  }

  lemma ContractedZero(rho: Entries, dim: nat, b: nat, e: nat)
    ensures Contracted(Zero(), rho, dim, b, e) == ZERO
  {
    var columns := Columns(Zero(), rho, dim, b, e);
    forall c: nat | c < dim
      ensures columns(c) == ZERO
    {
      var column := Column(Zero(), rho, dim, b, e, c);
      forall a: nat | a < dim
        ensures column(a) == ZERO
      {
        TimesUnit(rho(a, c));
      }
      SumSingle(dim, column, dim);
    }
    SumSingle(dim, columns, dim);
  }

  /** The Choi matrix of a list of Kraus operators stands for the sum of K rho K*. */
  lemma {:induction false} ChoiActs(kraus: seq<Entries>, dim: nat, rho: Entries, b: nat, e: nat)
    requires b < dim && e < dim
    ensures Contracted(ChoiOf(kraus, dim), rho, dim, b, e) == Channel(kraus, dim, rho)(b, e)
  {
    if kraus == [] {
      ContractedZero(rho, dim, b, e);
    } else {
      var init, last := kraus[..|kraus| - 1], kraus[|kraus| - 1];
      ChoiActs(init, dim, rho, b, e);
      TermActs(last, dim, rho, b, e);
      ContractedAdds(ChoiOf(init, dim), ChoiTerm(last, dim), rho, dim, b, e);
    }
  }

  // ---------------------------------------------------------------- kraus_to_choi and kraus_to_superoperator

  method KrausToChoi(kraus: seq<Entries>, dim: nat) returns (choi: Entries)
    requires dim > 0
    ensures choi == ChoiOf(kraus, dim)
  {
    choi := Zero();
    for i := 0 to |kraus|
      invariant choi == ChoiOf(kraus[..i], dim)
    {
      assert kraus[..i + 1][..i] == kraus[..i];
      choi := Added(choi, ChoiTerm(kraus[i], dim));
    }
    assert kraus[..|kraus|] == kraus;
  }

  /** Applied to the stacked entries of any matrix, the superoperator gives the channel of that matrix. */
  method KrausToSuperoperator(kraus: seq<Entries>, dim: nat) returns (superop: array2<Complex>)
    requires dim > 0
    ensures superop.Length0 == superop.Length1 == dim * dim
    ensures forall entries: Entries, rho: Entries, b: nat, e: nat ::
              b < dim && e < dim && (forall i: nat, j: nat :: i < dim * dim && j < dim * dim ==> entries(i, j) == superop[i, j]) ==>
                Applied(dim * dim, entries, Stacked(rho, dim), Join(dim, e, b)) == Channel(kraus, dim, rho)(b, e)
  {
    var choi := KrausToChoi(kraus, dim);
    var size := dim * dim;
    var rows := seq(size, i requires 0 <= i < size => seq(size, j requires 0 <= j < size => choi(i, j)));
    superop := ReshuffleMatrix(rows, dim, false);
    forall entries: Entries, rho: Entries, b: nat, e: nat |
      b < dim && e < dim && (forall i: nat, j: nat :: i < size && j < size ==> entries(i, j) == superop[i, j])
      ensures Applied(size, entries, Stacked(rho, dim), Join(dim, e, b)) == Channel(kraus, dim, rho)(b, e)
    {
      ResultActs(kraus, dim, rows, superop, entries, rho, b, e);
    }
  }

  lemma ResultActs(kraus: seq<Entries>, dim: nat, rows: seq<seq<Complex>>, superop: array2<Complex>, entries: Entries,
                   rho: Entries, b: nat, e: nat)
    requires b < dim && e < dim && Square(rows, dim * dim) && superop.Length0 == superop.Length1 == dim * dim
    requires forall r: nat, c: nat :: r < dim * dim && c < dim * dim ==> rows[r][c] == ChoiOf(kraus, dim)(r, c)
    requires Reshuffled(rows, superop, dim)
    requires forall i: nat, j: nat :: i < dim * dim && j < dim * dim ==> entries(i, j) == superop[i, j]
    ensures Applied(dim * dim, entries, Stacked(rho, dim), Join(dim, e, b)) == Channel(kraus, dim, rho)(b, e)
  {
    var choi := ChoiOf(kraus, dim);
    forall a: nat, c: nat | a < dim && c < dim
      ensures entries(Join(dim, e, b), Join(dim, c, a)) == choi(Join(dim, a, b), Join(dim, c, e))
    {
      ResultAt(rows, superop, dim, a, b, c, e);
    }
    SuperoperatorActs(entries, choi, dim, rho, b, e);
    ChoiActs(kraus, dim, rho, b, e);
  }
}
