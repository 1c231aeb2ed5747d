/** The reflected binary code, as bit strings that start with the most significant bit, and its order: ranks of codes. */
module GrayCode {
  import opened Registers

  type Bits = seq<bool>

  /** The n lowest binary digits of i. */
  function Binary(i: nat, n: nat): (b: Bits)
    ensures |b| == n
  {
    if n == 0 then [] else Binary(i / 2, n - 1) + [i % 2 == 1]
  }

  /** Each bit of the code is the exclusive or of two neighbours; the first bit is kept. */
  function Gray(b: Bits): (g: Bits)
    ensures |g| == |b|
  {
    seq(|b|, j requires 0 <= j < |b| => if j == 0 then b[0] else b[j - 1] != b[j])
  }

  function Flipped(b: Bits): (c: Bits)
    ensures |c| == |b|
  {
    seq(|b|, j requires 0 <= j < |b| => !b[j])
  }

  function Code(i: nat, n: nat): (g: Bits)
    ensures |g| == n
  {
    Gray(Binary(i, n))
  }

  predicate DifferOnlyAt(a: Bits, b: Bits, j: nat) {
    && |a| == |b| && j < |a| && a[j] != b[j]
    && forall k :: 0 <= k < |a| && k != j ==> a[k] == b[k]
  }

  /** The last code bit compares the two lowest digits; the others are the code of the upper digits. */
  lemma CodeSnoc(i: nat, n: nat)
    requires n >= 1 && i < Pow2(n)
    ensures Code(i, n) == Code(i / 2, n - 1) + [i / 2 % 2 != i % 2]
  {
    var b, high := Binary(i, n), Binary(i / 2, n - 1);
    if n >= 2 {
      assert high[n - 2] == (i / 2 % 2 == 1);
      assert b == high + [i % 2 == 1];
    }
  }

  /** Consecutive codes differ in exactly one bit. */
  lemma {:induction false} Adjacent(i: nat, n: nat) returns (j: nat)
    requires i + 1 < Pow2(n)
    ensures DifferOnlyAt(Code(i, n), Code(i + 1, n), j)
  {
    if i % 2 == 0 {
      j := n - 1;
      EvenStep(i, n);
    } else {
      j := Adjacent(i / 2, n - 1);
      OddStep(i, n, j);
    }
  }

  /** From an even number the lowest digit changes, ... */
  lemma EvenStep(i: nat, n: nat)
    requires n >= 1 && i + 1 < Pow2(n) && i % 2 == 0
    ensures DifferOnlyAt(Code(i, n), Code(i + 1, n), n - 1)
  {
    CodeSnoc(i, n);
    CodeSnoc(i + 1, n);
    LastDiffers(Code(i / 2, n - 1), i / 2 % 2 == 1);
  }

  /** ... and from an odd one the upper digits change and the last bit of the code does not. */
  lemma OddStep(i: nat, n: nat, j: nat)
    requires n >= 1 && i + 1 < Pow2(n) && i % 2 == 1 && DifferOnlyAt(Code(i / 2, n - 1), Code(i / 2 + 1, n - 1), j)
    ensures DifferOnlyAt(Code(i, n), Code(i + 1, n), j)
  {
    CodeSnoc(i, n);
    CodeSnoc(i + 1, n);
    assert (i + 1) / 2 == i / 2 + 1;
    SnocDiffers(Code(i / 2, n - 1), Code(i / 2 + 1, n - 1), j, i / 2 % 2 != i % 2);
  }

  lemma LastDiffers(a: Bits, last: bool)
    ensures DifferOnlyAt(a + [last], a + [!last], |a|)
  {}

  lemma SnocDiffers(a: Bits, b: Bits, j: nat, last: bool)
    requires DifferOnlyAt(a, b, j)
    ensures DifferOnlyAt(a + [last], b + [last], j)
  {}

  /** The number whose code is c. */
  function Rank(c: Bits): (i: nat)
    ensures i < Pow2(|c|)
  {
    if c == [] then 0
    else
      var h := Rank(c[..|c| - 1]);
      2 * h + if c[|c| - 1] != (h % 2 == 1) then 1 else 0
  }

  /** Every bit string is the code of its rank, ... */
  lemma {:induction false} CodeOfRank(c: Bits)
    ensures Code(Rank(c), |c|) == c
  {
    if c != [] {
      CodeOfRank(c[..|c| - 1]);
      CodeSnoc(Rank(c), |c|);
    }
  }

  /** ... and of no other number: the code is a bijection. */
  lemma {:induction false} RankOfCode(i: nat, n: nat)
    requires i < Pow2(n)
    ensures Rank(Code(i, n)) == i
  {
    if n > 0 {
      CodeSnoc(i, n);
      RankOfCode(i / 2, n - 1);
      assert Code(i, n)[..n - 1] == Code(i / 2, n - 1);
    }
  }

  lemma {:induction false} FirstCode(n: nat)
    ensures forall j :: 0 <= j < n ==> !Code(0, n)[j]
  {
    if n > 0 {
      FirstCode(n - 1);
      CodeSnoc(0, n);
    }
  }

  /** The last code is 1 followed by zeros. */
  lemma LastCode(n: nat)
    requires n >= 1
    ensures var c := Code(Pow2(n) - 1, n); c[0] && forall j :: 1 <= j < n ==> !c[j]
  {
    LastCodeIs(n, Pow2(n) - 1);
  }

  lemma {:induction false} LastCodeIs(n: nat, last: nat)
    requires n >= 1 && last == Pow2(n) - 1
    ensures Code(last, n)[0] && forall j :: 1 <= j < n ==> !Code(last, n)[j]
  {
    CodeSnoc(last, n);
    if n > 1 { LastCodeIs(n - 1, last / 2); }
  }

  /** Binary digit p of the rank, counted from the highest: the parity of the code up to p. */
  predicate RankDigit(c: Bits, p: nat)
    requires p < |c|
  {
    Rank(c[..p + 1]) % 2 == 1
  }

  /** Of two codes that first differ at p, the one whose rank has digit 1 there is the later one. */
  lemma {:induction false} RankGrows(c: Bits, d: Bits, p: nat)
    requires |c| == |d| && p < |c| && c[..p] == d[..p] && c[p] != d[p] && !RankDigit(c, p)
    ensures Rank(c) < Rank(d)
    decreases |c|
  {
    var m := |c| - 1;
    if p == m {
      assert c[..m + 1] == c;
    } else {
      assert c[..m][..p] == c[..p] && d[..m][..p] == d[..p] && c[..m][..p + 1] == c[..p + 1];
      RankGrows(c[..m], d[..m], p);
    }
  }

  lemma RankDigitStep(c: Bits, p: nat)
    requires p < |c|
    ensures RankDigit(c, p) <==> c[p] != (p > 0 && RankDigit(c, p - 1))
  {
    assert c[..p + 1][..p] == c[..p];
    if p > 0 { assert c[..p - 1 + 1] == c[..p]; } else { assert c[..0] == []; }
  }

  lemma RankDigitLocal(c: Bits, d: Bits, p: nat)
    requires p < |c| && p < |d| && c[..p] == d[..p]
    ensures RankDigit(c, p) == RankDigit(d, p) <==> c[p] == d[p]
  {
    assert c[..p + 1][..p] == c[..p] && d[..p + 1][..p] == d[..p];
  }

  /** The first m digits of the rank of c are all 1. */
  ghost predicate LeadsWithOnes(c: Bits, m: nat)
    requires m <= |c|
  {
    forall p :: 0 <= p < m ==> RankDigit(c, p)
  }

  /** No later code changes the bits below leading digits that are all 1. */
  lemma {:induction false} LeadStays(c: Bits, d: Bits, m: nat)
    requires |c| == |d| && m <= |c| && LeadsWithOnes(c, m) && Rank(c) <= Rank(d)
    ensures c[..m] == d[..m]
  {
    if m > 0 {
      LeadStays(c, d, m - 1);
      RankDigitLocal(c, d, m - 1);
      if c[m - 1] != d[m - 1] {
        RankGrows(d, c, m - 1);
      }
    }
  }

  lemma {:induction false} LeadIsFirstBit(c: Bits, m: nat)
    requires 1 <= m <= |c|
    ensures LeadsWithOnes(c, m) <==> c[0] && forall j :: 1 <= j < m ==> !c[j]
  {
    RankDigitStep(c, m - 1);
    if m > 1 { LeadIsFirstBit(c, m - 1); }
  }

  // ---------------------------------------------------------------- the helpers that compute codes

  /** The digits of i, least significant first. */
  method BinaryDigits(i: nat, n: nat) returns (b: Bits)
    ensures b == Reverse(Binary(i, n))
  {
    b := [];
    var rest := i;
    for k := 0 to n
      invariant |b| == k && b + Reverse(Binary(rest, n - k)) == Reverse(Binary(i, n))
    {
      ReverseSnoc(Binary(rest / 2, n - k - 1), rest % 2 == 1);
      assert b + ([rest % 2 == 1] + Reverse(Binary(rest / 2, n - k - 1)))
          == b + [rest % 2 == 1] + Reverse(Binary(rest / 2, n - k - 1));
      b := b + [rest % 2 == 1];
      rest := rest / 2;
    }
  }

  method GrayOf(binary: Bits) returns (g: Bits)
    requires |binary| >= 1
    ensures g == Gray(binary)
  {
    g := [binary[0]];
    for i := 0 to |binary| - 1
      invariant |g| == i + 1 && g == Gray(binary)[..i + 1]
    {
      g := g + [binary[i] != binary[i + 1]];
    }
  }

  method FlipBits(b: Bits) returns (c: Bits)
    ensures c == Flipped(b)
  {
    c := [];
    for i := 0 to |b|
      invariant |c| == i && c == Flipped(b)[..i]
    {
      c := c + [!b[i]];
    }
  }

  /** The code word of step i, inverted: the state that is turned into all ones at that step. */
  method CurrentState(i: nat, n: nat) returns (c: Bits)
    requires n >= 1
    ensures c == Flipped(Code(i, n))
  {
    var b := BinaryDigits(i, n);
    ReverseAt(Binary(i, n));
    ReverseAt(b);
    b := Reverse(b);
    assert b == Binary(i, n);
    var g := GrayOf(b);
    c := FlipBits(g);
  }

  method DifferentBit(a: Bits, b: Bits) returns (j: int)
    requires |a| == |b|
    ensures j == -1 ==> a == b
    ensures j != -1 ==> 0 <= j < |a| && a[j] != b[j] && forall k :: 0 <= k < j ==> a[k] == b[k]
  {
    j := 0;
    while j < |a|
      invariant 0 <= j <= |a| && forall k :: 0 <= k < j ==> a[k] == b[k]
    {
      if a[j] != b[j] { return; }
      j := j + 1;
    }
    j := -1;
  }
}
