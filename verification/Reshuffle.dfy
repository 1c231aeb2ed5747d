/** The reshuffles between the Choi matrix and the superoperator of a channel. */
module Reshuffle {
  import opened ComplexSums
  import opened PartialTrace
  import R = Registers

  /** A composite index from its two parts. */
  function Join(dim: nat, high: nat, low: nat): nat {
    R.MulMonotone(dim, 0, high);
    high * dim + low
  }

  /**
   * Where entry (row, col) goes. Both directions compute this place, with the summands of each index
   * in a different order.
   */
  function Place(dim: nat, row: nat, col: nat): (nat, nat)
    requires dim > 0
  {
    (Join(dim, col % dim, row % dim), Join(dim, col / dim, row / dim))
  }

  lemma JoinParts(dim: nat, high: nat, low: nat)
    requires low < dim
    ensures Join(dim, high, low) / dim == high && Join(dim, high, low) % dim == low
    ensures high < dim ==> Join(dim, high, low) < dim * dim
  {
    R.ModUnique(Join(dim, high, low), dim, high, low);
    if high < dim { R.MulMonotone(dim, high + 1, dim); }
  }

  lemma SplitParts(dim: nat, x: nat)
    requires dim > 0 && x < dim * dim
    ensures x % dim < dim && x / dim < dim && Join(dim, x / dim, x % dim) == x
  {
    if x / dim >= dim { R.MulMonotone(dim, dim, x / dim); }
  }

  /** The reshuffle stays within the matrix and undoes itself, for every dimension. */
  lemma PlaceTwice(dim: nat, row: nat, col: nat)
    requires dim > 0 && row < dim * dim && col < dim * dim
    ensures var at := Place(dim, row, col);
            at.0 < dim * dim && at.1 < dim * dim && Place(dim, at.0, at.1) == (row, col)
  {
    SplitParts(dim, row);
    SplitParts(dim, col);
    JoinParts(dim, col % dim, row % dim);
    JoinParts(dim, col / dim, row / dim);
  }

  /** Different entries go to different places. */
  lemma PlacesDiffer(dim: nat, size: nat, row: nat, col: nat)
    requires dim > 0 && size == dim * dim && row < size && col < size
    ensures Place(dim, row, col).0 < size && Place(dim, row, col).1 < size
    ensures forall r: nat, c: nat :: r < size && c < size && (r != row || c != col) ==> Place(dim, r, c) != Place(dim, row, col)
  {
    PlaceTwice(dim, row, col);
    forall r: nat, c: nat | r < size && c < size && (r != row || c != col)
      ensures Place(dim, r, c) != Place(dim, row, col)
    {
      PlaceTwice(dim, r, c);
    }
  }

  /** The first rows of m, and in row i the first columns, have been written to their places. */
  ghost predicate Written(m: seq<seq<Complex>>, result: array2<Complex>, dim: nat, size: nat, i: nat, j: nat)
    requires dim > 0 && Square(m, size) && result.Length0 == result.Length1 == size
    reads result
  {
    forall r: nat, c: nat :: r < size && c < size && (r < i || (r == i && c < j)) ==>
      var at := Place(dim, r, c); at.0 < size && at.1 < size && result[at.0, at.1] == m[r][c]
  }

  lemma Summands(dim: nat, high: nat, low: nat)
    ensures low + dim * high == Join(dim, high, low)
  {}

  /** One assignment of choi_to_superoperator or, with the summands the other way round, of superoperator_to_choi. */
  method WriteEntry(m: seq<seq<Complex>>, result: array2<Complex>, dim: nat, size: nat, row: nat, col: nat, toChoi: bool)
    requires dim > 0 && size == dim * dim && Square(m, size) && result.Length0 == result.Length1 == size
    requires row < size && col < size && Written(m, result, dim, size, row, col)
    modifies result
    ensures Written(m, result, dim, size, row, col + 1)
  {
    PlacesDiffer(dim, size, row, col);
    var rowHigh, rowLow, colHigh, colLow := row / dim, row % dim, col / dim, col % dim;
    if toChoi {
      Summands(dim, colLow, rowLow);
      Summands(dim, colHigh, rowHigh);
      result[rowLow + dim * colLow, rowHigh + dim * colHigh] := m[row][col];
    } else {
      result[colLow * dim + rowLow, colHigh * dim + rowHigh] := m[row][col];
    }
  }

  /** Every entry (r, c) of m is found at the place that both conversions give it. */
  ghost predicate Reshuffled(m: seq<seq<Complex>>, result: array2<Complex>, dim: nat)
    requires dim > 0 && Square(m, dim * dim) && result.Length0 == result.Length1 == dim * dim
    reads result
  {
    forall r: nat, c: nat :: r < dim * dim && c < dim * dim ==>
      var row, col := (c % dim) * dim + r % dim, (c / dim) * dim + r / dim;
      0 <= row < dim * dim && 0 <= col < dim * dim && result[row, col] == m[r][c]
  }

  method ReshuffleMatrix(m: seq<seq<Complex>>, dim: nat, toChoi: bool) returns (result: array2<Complex>)
    requires dim > 0 && Square(m, dim * dim)
    ensures result.Length0 == result.Length1 == dim * dim
    ensures Reshuffled(m, result, dim)
  {
    var size := dim * dim;
    result := new Complex[size, size]((i, j) => ZERO);
    for row := 0 to size
      invariant Written(m, result, dim, size, row, 0)
    {
      for col := 0 to size
        invariant Written(m, result, dim, size, row, col)
      {
        WriteEntry(m, result, dim, size, row, col, toChoi);
      }
    }
    forall r: nat, c: nat | r < size && c < size
      ensures var row, col := (c % dim) * dim + r % dim, (c / dim) * dim + r / dim;
              0 <= row < size && 0 <= col < size && result[row, col] == m[r][c]
    {
      var at := Place(dim, r, c);
      assert result[at.0, at.1] == m[r][c];
    }
  }

  /**
   * Entry |a><c| -> |b><e| of a Choi matrix, in row a * dim + b and column c * dim + e, is found in row
   * e * dim + b and column c * dim + a of the superoperator: matrices are stacked column by column.
   */
  lemma ResultAt(m: seq<seq<Complex>>, result: array2<Complex>, dim: nat, a: nat, b: nat, c: nat, e: nat)
    requires a < dim && b < dim && c < dim && e < dim
    requires Square(m, dim * dim) && result.Length0 == result.Length1 == dim * dim && Reshuffled(m, result, dim)
    ensures Join(dim, a, b) < dim * dim && Join(dim, c, e) < dim * dim
    ensures Join(dim, e, b) < dim * dim && Join(dim, c, a) < dim * dim
    ensures result[Join(dim, e, b), Join(dim, c, a)] == m[Join(dim, a, b)][Join(dim, c, e)]
  {
    var r, s := Join(dim, a, b), Join(dim, c, e);
    JoinParts(dim, a, b);
    JoinParts(dim, c, e);
    JoinParts(dim, e, b);
    JoinParts(dim, c, a);
    assert m[r][s] == result[(s % dim) * dim + r % dim, (s / dim) * dim + r / dim];
  }

  /** Converting a Choi matrix to a superoperator and back, or the other way round, gives the same matrix. */
  method RoundTrip(m: seq<seq<Complex>>, dim: nat, toChoi: bool) returns (back: array2<Complex>)
    requires dim > 0 && Square(m, dim * dim)
    ensures back.Length0 == back.Length1 == dim * dim
    ensures forall r: nat, c: nat :: r < dim * dim && c < dim * dim ==> back[r, c] == m[r][c]
  {
    var size := dim * dim;
    var there := ReshuffleMatrix(m, dim, toChoi);
    var rows := seq(size, i requires 0 <= i < size reads there => seq(size, j requires 0 <= j < size reads there => there[i, j]));
    back := ReshuffleMatrix(rows, dim, !toChoi);
    forall r: nat, c: nat | r < size && c < size
      ensures back[r, c] == m[r][c]
    {
      PlaceTwice(dim, r, c);
      var at := Place(dim, r, c);
      assert there[at.0, at.1] == m[r][c] && rows[at.0][at.1] == there[at.0, at.1];
      assert rows[at.0][at.1] == back[r, c];
    }
  }
}
