/** When the division circuit is exact. */
module DivisionValue {
  import opened Registers
  import opened Gates
  import opened Rotation
  import opened Division

  /** From round p - k + 1 on, no shift of the numerator leaves the w-bit register. */
  predicate NumeratorFits(p: nat, w: nat, k: nat, num: nat, den: nat)
    requires k <= p
    decreases k
  {
    k == 0 ||
    var shifted := Pow2(p - k + 1) * num;
    shifted < Pow2(w)
    && if shifted >= den
       then NumeratorFits(p, w, k - 1, shifted - den, Pow2(p - k + 1) * den)
       else NumeratorFits(p, w, k - 1, num, den)
  }

  /** From round p - k + 1 on, no shifted denominator that a later round uses leaves the register. */
  predicate DenominatorFits(p: nat, w: nat, k: nat, num: nat, den: nat)
    requires k <= p
    decreases k
  {
    k == 0 ||
    var shifted := Pow2(p - k + 1) * num;
    if shifted >= den
    then k == 1 || (Pow2(p - k + 1) * den < Pow2(w)
                    && DenominatorFits(p, w, k - 1, shifted - den, Pow2(p - k + 1) * den))
    else DenominatorFits(p, w, k - 1, num, den)
  }

  // ---------------------------------------------------------------- integer facts

  lemma DivCancel(a: int, x: int, y: int)
    requires a >= 1 && y >= 1
    ensures a * y >= 1 && (a * x) / (a * y) == x / y
  {
    var q, r := x / y, x % y;
    MulAtLeast(a, y);
    ScaledDivision(a, x, y, q, r);
    ScaledRemainder(a, y, r);
    ModUnique(a * x, a * y, q, a * r);
  }

  lemma ScaledDivision(a: int, x: int, y: int, q: int, r: int)
    requires x == y * q + r
    ensures a * x == (a * y) * q + a * r
  {
    assert a * (y * q + r) == a * (y * q) + a * r;
    assert a * (y * q) == (a * y) * q;
  }

  lemma ScaledRemainder(a: int, y: int, r: int)
    requires a >= 1 && 0 <= r < y
    ensures 0 <= a * r < a * y
  {
    MulAtLeast(a, y - r);
    assert a * (y - r) == a * y - a * r;
  }

  lemma DivShift(x: int, y: int, k: int)
    requires y >= 1
    ensures (x - k * y) / y == x / y - k
  {
    var q, r := x / y, x % y;
    assert x - k * y == y * (q - k) + r;
    ModUnique(x - k * y, y, q - k, r);
  }

  lemma DivBelow(x: nat, y: nat, b: nat)
    requires y >= 1 && x < y * b
    ensures x / y < b
  {
    if x / y >= b { MulMonotone(y, b, x / y); }
  }

  lemma DivAtLeast(x: nat, y: nat, b: nat)
    requires y >= 1 && x >= y * b
    ensures x / y >= b
  {
    if x / y < b { MulMonotone(y, x / y + 1, b); }
  }

  // ---------------------------------------------------------------- one step of the expansion

  /** With a = 2^i and c = 2^(p-i): what one bit of the expansion is worth. */
  lemma ScaledStep(a: nat, c: nat, num: nat, den: nat)
    requires a >= 1 && den >= 1
    ensures a * num >= den ==> a * den >= 1 && (a * c * num) / den == c + (a * c * (a * num - den)) / (a * den)
    ensures a * num >= den ==> (a * c * num) / den >= c
    ensures c >= 1 && a * num < den ==> (a * c * num) / den < c
  {
    var x, y := a * c * num, c * den;
    ProductOrder(a, c, num);
    if a * num >= den {
      MulMonotone(c, den, a * num);
      DivAtLeast(x, den, c);
      assert a * c * (a * num - den) == a * (x - y) by { Distribute(a, c, num, den); }
      DivCancel(a, x - y, den);
      DivShift(x, den, c);
    } else if c >= 1 {
      MulMonotone(c, a * num + 1, den);
      DivBelow(x, den, c);
    }
  }

  lemma ProductOrder(a: int, c: int, n: int)
    ensures a * c * n == c * (a * n)
  {}

  lemma Distribute(a: int, c: int, num: int, den: int)
    ensures a * c * (a * num - den) == a * (a * c * num - c * den)
  {
    assert c * (a * num - den) == a * c * num - c * den by { ProductOrder(a, c, num); }
    assert a * c * (a * num - den) == a * (c * (a * num - den));
  }

  /** A shift that overflows by one place puts its top digit at the bottom, and then lies below the denominator. */
  lemma OverflowLooksSmall(w: nat, i: nat, num: nat, den: nat)
    requires i >= 1 && w >= 1 && Pow2(i - 1) * num < den < Pow2(w) && Pow2(i) * num >= Pow2(w)
    ensures RotatedBy(num, w, i) < den
  {
    Double(Pow2(i - 1), num);
    RotatedIsProduct(num, w, i - 1);
  }

  // ---------------------------------------------------------------- the exact condition

  function Floor(p: nat, num: nat, den: nat): nat
    requires den >= 1
  {
    (Pow2(p) * num) / den
  }

  lemma FloorStep(p: nat, i: nat, num: nat, den: nat)
    requires 1 <= i <= p && den >= 1
    ensures Pow2(i) * num >= den ==> Pow2(i) * den >= 1
    ensures Pow2(i) * num >= den ==> Floor(p, num, den) == Pow2(p - i) + Floor(p, Pow2(i) * num - den, Pow2(i) * den)
    ensures Pow2(i) * num >= den ==> Floor(p, num, den) >= Pow2(p - i)
    ensures Pow2(i) * num < den ==> Floor(p, num, den) < Pow2(p - i)
  {
    Pow2Add(i, p - i);
    ScaledStep(Pow2(i), Pow2(p - i), num, den);
  }

  /** The invariant of the rounds survives a set bit: what remains is below the next bit's weight. */
  lemma SetBitKeepsInvariant(i: nat, num: nat, den: nat)
    requires i >= 1 && Pow2(i - 1) * num < den <= Pow2(i) * num
    ensures Pow2(i) * (Pow2(i) * num - den) < Pow2(i) * den
  {
    Double(Pow2(i - 1), num);
    MulMonotone(Pow2(i), Pow2(i) * num - den + 1, den);
  }

  /** A shift that overflows makes the comparison fail although the bit should be set. */
  lemma OverflowLosesBit(p: nat, w: nat, k: nat, num: nat, den: nat)
    requires 1 <= k <= p && w >= 1 && Pow2(p - k) * num < den < Pow2(w) <= Pow2(p - k + 1) * num
    ensures !NumeratorFits(p, w, k, num, den)
    ensures QuotientFrom(p, w, k, num, den, 0, 0) < Pow2(k - 1) <= Floor(p, num, den)
  {
    var i := p - k + 1;
    OverflowLooksSmall(w, i, num, den);
    FloorStep(p, i, num, den);
    QuotientStep(p, w, k, num, den, 0, 0, false, RotatedBy(num, w, i), RotatedBy(den, w, i), num, den, 0);
  }

  lemma ClearBitStep(p: nat, w: nat, k: nat, num: nat, den: nat)
    requires 1 <= k <= p && w >= 1 && Pow2(p - k + 1) * num < den < Pow2(w)
    ensures NumeratorFits(p, w, k, num, den) <==> NumeratorFits(p, w, k - 1, num, den)
    ensures QuotientFrom(p, w, k, num, den, 0, 0) == QuotientFrom(p, w, k - 1, num, den, 0, 0)
  {
    var i := p - k + 1;
    RotatedIsProduct(num, w, i);
    QuotientStep(p, w, k, num, den, 0, 0, false, RotatedBy(num, w, i), RotatedBy(den, w, i), num, den, 0);
  }

  /** A set bit, with rest and scaled the numbers that the next round starts from. */
  lemma SetBitStep(p: nat, w: nat, k: nat, num: nat, den: nat, rest: nat, scaled: nat)
    requires 1 <= k <= p && w >= 1 && den >= 1 && Pow2(p - k) * num < den
    requires rest == Pow2(p - k + 1) * num - den && rest + den < Pow2(w)
    requires scaled == Pow2(p - k + 1) * den && (k > 1 ==> scaled < Pow2(w))
    ensures scaled >= 1 && Pow2(p - k + 1) * rest < scaled
    ensures NumeratorFits(p, w, k, num, den) <==> NumeratorFits(p, w, k - 1, rest, scaled)
    ensures QuotientFrom(p, w, k, num, den, 0, 0) == Pow2(k - 1) + QuotientFrom(p, w, k - 1, rest, scaled, 0, 0)
    ensures Floor(p, num, den) == Pow2(k - 1) + Floor(p, rest, scaled)
  {
    var i := p - k + 1;
    FloorStep(p, i, num, den);
    SetBitKeepsInvariant(i, num, den);
    SetBitQuotient(p, w, k, num, den, rest, scaled);
  }

  lemma SetBitQuotient(p: nat, w: nat, k: nat, num: nat, den: nat, rest: nat, scaled: nat)
    requires 1 <= k <= p && w >= 1 && rest == Pow2(p - k + 1) * num - den && rest + den < Pow2(w)
    requires scaled == Pow2(p - k + 1) * den && (k > 1 ==> scaled < Pow2(w))
    ensures QuotientFrom(p, w, k, num, den, 0, 0) == Pow2(k - 1) + QuotientFrom(p, w, k - 1, rest, scaled, 0, 0)
  {
    var i := p - k + 1;
    RotatedIsProduct(num, w, i);
    if k > 1 { RotatedIsProduct(den, w, i); }
    QuotientStep(p, w, k, num, den, 0, 0, true, rest + den, RotatedBy(den, w, i), rest, RotatedBy(den, w, i), 0);
  }

  /**
   * As long as the denominator does not outgrow its register, the computed bits are the
   * binary expansion floor(2^p num / den) if and only if no shift of the numerator overflows.
   */
  lemma {:induction false} ExpansionExact(p: nat, w: nat, k: nat, num: nat, den: nat)
    requires k <= p && w >= 1 && den >= 1 && Pow2(p - k) * num < den && (k > 0 ==> den < Pow2(w))
    requires DenominatorFits(p, w, k, num, den)
    ensures QuotientFrom(p, w, k, num, den, 0, 0) == Floor(p, num, den) <==> NumeratorFits(p, w, k, num, den)
    decreases k
  {
    if k == 0 {
      DivBelow(Pow2(p) * num, den, 1);
    } else {
      var shifted := Pow2(p - k + 1) * num;
      if shifted >= Pow2(w) {
        OverflowLosesBit(p, w, k, num, den);
      } else if shifted >= den {
        var rest, scaled := shifted - den, Pow2(p - k + 1) * den;
        assert k == 1 || scaled < Pow2(w);
        SetBitStep(p, w, k, num, den, rest, scaled);
        if k == 1 {
          DivBelow(Pow2(p) * rest, scaled, 1);
        } else {
          ExpansionExact(p, w, k - 1, rest, scaled);
        }
      } else {
        ClearBitStep(p, w, k, num, den);
        ExpansionExact(p, w, k - 1, num, den);
      }
    }
  }

  // ---------------------------------------------------------------- conditions that are easier to check

  /** i + (i + 1) + ... + (p - 1): the places by which rounds i to p - 1 can shift the denominator. */
  function ShiftSum(i: nat, p: nat): nat
    requires i <= p
    decreases p - i
  {
    if i == p then 0 else i + ShiftSum(i + 1, p)
  }

  lemma {:induction false} ShiftSumClosed(i: nat, p: nat)
    requires i <= p
    ensures 2 * ShiftSum(i, p) == p * (p - 1) - i * (i - 1)
    decreases p - i
  {
    if i < p {
      ShiftSumClosed(i + 1, p);
      assert (i + 1) * i - i * (i - 1) == 2 * i;
    }
  }

  /** Room for every possible shift of the denominator, and one more place, is room enough. */
  lemma {:induction false} RoomSuffices(p: nat, w: nat, k: nat, num: nat, den: nat)
    requires k <= p && den >= 1 && Pow2(p - k) * num < den
    requires k > 0 ==> den * Pow2(1 + ShiftSum(p - k + 1, p)) <= Pow2(w)
    ensures NumeratorFits(p, w, k, num, den) && DenominatorFits(p, w, k, num, den)
    decreases k
  {
    if k > 0 {
      var i, room := p - k + 1, ShiftSum(p - k + 1, p);
      var shifted := Pow2(i) * num;
      Double(Pow2(i - 1), num);
      MulMonotone(den, 2, Pow2(1 + room));
      if shifted >= den { SetBitKeepsInvariant(i, num, den); }
      if k == 1 {
        if shifted >= den {
          RoomSuffices(p, w, 0, shifted - den, Pow2(i) * den);
        } else {
          RoomSuffices(p, w, 0, num, den);
        }
      } else {
        var rest := ShiftSum(i + 1, p);
        Pow2Add(i, 1 + rest);
        assert 1 + room == i + (1 + rest);
        RoomStep(den, Pow2(i), Pow2(1 + rest), Pow2(w));
        if shifted >= den {
          RoomSuffices(p, w, k - 1, shifted - den, Pow2(i) * den);
        } else {
          RoomSuffices(p, w, k - 1, num, den);
        }
      }
    }
  }

  lemma RoomStep(den: nat, a: nat, b: nat, bound: nat)
    requires den >= 1 && a >= 1 && b >= 2 && den * (a * b) <= bound
    ensures a * den * b <= bound && den * b <= bound && 1 <= a * den < bound
  {
    ProductOrder(den, a, b);
    ProductOrder(a, den, b);
    assert a * den * b == den * (a * b);
    MulMonotone(a, 1, den);
    MulMonotone(den, 1, a);
    MulMonotone(b, den, a * den);
    MulMonotone(a * den, 2, b);
  }

  /** Up to three result bits the denominator always fits; up to two the numerator does as well. */
  lemma FewBitsFit(m: nat, p: nat, num: nat, den: nat)
    requires num < den < Pow2(m) && m + p >= 1
    ensures p <= 3 ==> DenominatorFits(p, m + p, p, num, den)
    ensures p <= 2 ==> NumeratorFits(p, m + p, p, num, den)
  {
    if p == 3 {
      ThreeRounds(m, num, den);
    } else if p <= 2 {
      Pow2Add(p, m);
      assert p == 0 || p == 1 || p == 2;
      assert ShiftSum(1, 1) == 0 && ShiftSum(1, 2) == 1 + ShiftSum(2, 2);
      if p > 0 {
        assert Pow2(1 + ShiftSum(1, p)) == Pow2(p);
        MulMonotone(Pow2(p), den, Pow2(m));
      }
      RoomSuffices(p, m + p, p, num, den);
    }
  }

  lemma ThreeRounds(m: nat, num: nat, den: nat)
    requires num < den < Pow2(m)
    ensures DenominatorFits(3, m + 3, 3, num, den)
  {
    assert Pow2(m + 3) == 8 * Pow2(m) by { Pow2Add(3, m); }
    assert Pow2(1) == 2 && Pow2(2) == 4 && Pow2(3) == 8;
    var w := m + 3;
    forall n: nat, d: nat
      ensures DenominatorFits(3, w, 1, n, d)
    {
      assert DenominatorFits(3, w, 0, n, d);
    }
    forall n: nat, d: nat | d < 2 * Pow2(m)
      ensures DenominatorFits(3, w, 2, n, d)
    {}
    assert DenominatorFits(3, w, 3, num, den);
  }

  /** Four-bit registers and three result bits: for 14 / 15 the third shift overflows and the last bit is lost. */
  lemma FourteenFifteenths()
    ensures !NumeratorFits(3, 7, 3, 14, 15)
    ensures QuotientFrom(3, 7, 3, 14, 15, 0, 0) == 6 && Floor(3, 14, 15) == 7
  {
    assert Pow2(1) == 2 && Pow2(2) == 4 && Pow2(3) == 8 && Pow2(6) == 64 && Pow2(7) == 128;
    assert RotatedBy(14, 7, 1) == 28 && RotatedBy(15, 7, 1) == 30;
    assert RotatedBy(13, 7, 1) == 26 && RotatedBy(13, 7, 2) == 52;
    assert RotatedBy(30, 7, 1) == 60 && RotatedBy(30, 7, 2) == 120;
    assert RotatedBy(22, 7, 1) == 44 && RotatedBy(22, 7, 2) == 88 && RotatedBy(22, 7, 3) == 49;
    assert QuotientFrom(3, 7, 1, 22, 120, 0, 0) == 0;
    assert QuotientFrom(3, 7, 2, 13, 30, 0, 0) == 2;
    assert NumeratorFits(3, 7, 1, 22, 120) == false;
    assert NumeratorFits(3, 7, 2, 13, 30) == false;
  }

  /**
   * Once a shifted denominator overflows, only luck decides: three-bit registers and four result bits
   * give a wrong fraction for 2 / 5 and the right one for 3 / 7.
   */
  lemma DenominatorOverflows()
    ensures !DenominatorFits(4, 7, 4, 2, 5) && QuotientFrom(4, 7, 4, 2, 5, 0, 0) == 7 && Floor(4, 2, 5) == 6
    ensures !DenominatorFits(4, 7, 4, 3, 7) && QuotientFrom(4, 7, 4, 3, 7, 0, 0) == 6 && Floor(4, 3, 7) == 6
  {
    TwoFifths();
    ThreeSevenths();
  }

  lemma TwoFifths()
    ensures !DenominatorFits(4, 7, 4, 2, 5) && QuotientFrom(4, 7, 4, 2, 5, 0, 0) == 7 && Floor(4, 2, 5) == 6
  {
    assert Pow2(1) == 2 && Pow2(2) == 4 && Pow2(3) == 8 && Pow2(4) == 16 && Pow2(6) == 64 && Pow2(7) == 128;
    assert RotatedBy(2, 7, 1) == 4 && RotatedBy(2, 7, 2) == 8;
    assert RotatedBy(5, 7, 1) == 10 && RotatedBy(5, 7, 2) == 20;
    assert RotatedBy(3, 7, 1) == 6 && RotatedBy(3, 7, 2) == 12 && RotatedBy(3, 7, 3) == 24;
    assert RotatedBy(20, 7, 1) == 40 && RotatedBy(20, 7, 2) == 80 && RotatedBy(20, 7, 3) == 33;
    assert RotatedBy(4, 7, 1) == 8 && RotatedBy(4, 7, 2) == 16 && RotatedBy(4, 7, 3) == 32 && RotatedBy(4, 7, 4) == 64;
    assert QuotientFrom(4, 7, 1, 4, 33, 0, 0) == 1;
    assert QuotientFrom(4, 7, 2, 3, 20, 0, 0) == 3;
    assert QuotientFrom(4, 7, 3, 2, 5, 0, 0) == 7;
    assert !DenominatorFits(4, 7, 2, 3, 20);
    assert !DenominatorFits(4, 7, 3, 2, 5);
  }

  lemma ThreeSevenths()
    ensures !DenominatorFits(4, 7, 4, 3, 7) && QuotientFrom(4, 7, 4, 3, 7, 0, 0) == 6 && Floor(4, 3, 7) == 6
  {
    assert Pow2(1) == 2 && Pow2(2) == 4 && Pow2(3) == 8 && Pow2(4) == 16 && Pow2(6) == 64 && Pow2(7) == 128;
    assert RotatedBy(3, 7, 1) == 6 && RotatedBy(3, 7, 2) == 12;
    assert RotatedBy(7, 7, 1) == 14 && RotatedBy(7, 7, 2) == 28;
    assert RotatedBy(5, 7, 1) == 10 && RotatedBy(5, 7, 2) == 20 && RotatedBy(5, 7, 3) == 40;
    assert RotatedBy(28, 7, 1) == 56 && RotatedBy(28, 7, 2) == 112 && RotatedBy(28, 7, 3) == 97;
    assert RotatedBy(12, 7, 1) == 24 && RotatedBy(12, 7, 2) == 48 && RotatedBy(12, 7, 3) == 96 && RotatedBy(12, 7, 4) == 65;
    assert QuotientFrom(4, 7, 1, 12, 97, 0, 0) == 0;
    assert QuotientFrom(4, 7, 2, 5, 28, 0, 0) == 2;
    assert QuotientFrom(4, 7, 3, 3, 7, 0, 0) == 6;
    assert !DenominatorFits(4, 7, 2, 5, 28);
    assert !DenominatorFits(4, 7, 3, 3, 7);
  }

  // ---------------------------------------------------------------- the circuit on clean registers

  /** Writing different numbers that both fit gives different states. */
  lemma WriteDiffers(s: State, reg: seq<Qubit>, v: nat, w: nat)
    requires Distinct(reg) && v < Pow2(|reg|) && w < Pow2(|reg|)
    ensures Write(s, reg, v) == Write(s, reg, w) <==> v == w
  {
    ReadBack(s, reg, v);
    ReadBack(s, reg, w);
  }

  lemma FloorBelow(p: nat, num: nat, den: nat)
    requires num < den
    ensures Floor(p, num, den) < Pow2(p)
  {
    MulMonotone(Pow2(p), num + 1, den);
    DivBelow(Pow2(p) * num, den, Pow2(p));
  }

  lemma CleanQuotient(d: Wires, s: State)
    requires d.Valid() && d.ancilla !in s && forall q :: q in d.res ==> q !in s
    ensures QuotientOf(s, d, 0) == QuotientFrom(|d.res|, |d.num|, |d.res|, Val(s, d.num), Val(s, d.den), 0, 0)
  {
    assert Pending(d, 0) == d.res;
    ZeroVal(s, d.res);
  }

  /**
   * m-bit operands with num < den, result and ancillas 0. While the denominator stays in its
   * register the circuit leaves floor(2^p num / den) in the result exactly when no shifted
   * numerator overflows.
   */
  lemma DivisionExact(d: Wires, m: nat, s: State, num: nat, den: nat)
    requires d.Valid() && |d.num| == m + |d.res|
    requires num == Val(s, d.num) && den == Val(s, d.den) && num < den < Pow2(m)
    requires d.ancilla !in s && forall q :: q in d.res ==> q !in s
    requires DenominatorFits(|d.res|, m + |d.res|, |d.res|, num, den)
    ensures Write(s, d.res, QuotientOf(s, d, 0)) == Write(s, d.res, Floor(|d.res|, num, den))
       <==> NumeratorFits(|d.res|, m + |d.res|, |d.res|, num, den)
  {
    var p := |d.res|;
    CleanQuotient(d, s);
    CleanExact(m, p, num, den);
    FloorBelow(p, num, den);
    SameWrite(s, d.res, QuotientOf(s, d, 0), Floor(p, num, den), NumeratorFits(p, m + p, p, num, den));
  }

  lemma CleanExact(m: nat, p: nat, num: nat, den: nat)
    requires num < den < Pow2(m) && m + p >= 1 && DenominatorFits(p, m + p, p, num, den)
    ensures QuotientFrom(p, m + p, p, num, den, 0, 0) == Floor(p, num, den) <==> NumeratorFits(p, m + p, p, num, den)
  {
    Pow2Monotone(m, m + p);
    ExpansionExact(p, m + p, p, num, den);
  }

  lemma SameWrite(s: State, reg: seq<Qubit>, v: nat, w: nat, fits: bool)
    requires Distinct(reg) && v < Pow2(|reg|) && w < Pow2(|reg|) && (v == w <==> fits)
    ensures Write(s, reg, v) == Write(s, reg, w) <==> fits
  {
    WriteDiffers(s, reg, v, w);
  }

  /** No shift of a denominator below 2^m, up to p places, leaves m + p bits. */
  predicate ShiftRoom(p: nat, m: nat, den: nat) {
    p <= 2 || den * Pow2(1 + ShiftSum(1, p)) <= Pow2(m + p)
  }

  lemma RoomInClosedForm(p: nat, m: nat, den: nat)
    requires p <= 2 || den * Pow2(1 + p * (p - 1) / 2) <= Pow2(m + p)
    ensures ShiftRoom(p, m, den)
  {
    if p > 2 {
      ShiftSumClosed(1, p);
      assert ShiftSum(1, p) == p * (p - 1) / 2;
    }
  }

  lemma DivisionFits(d: Wires, m: nat, s: State, num: nat, den: nat)
    requires d.Valid() && |d.num| == m + |d.res|
    requires num == Val(s, d.num) && den == Val(s, d.den) && num < den < Pow2(m)
    requires d.ancilla !in s && forall q :: q in d.res ==> q !in s
    requires ShiftRoom(|d.res|, m, den)
    ensures Write(s, d.res, QuotientOf(s, d, 0)) == Write(s, d.res, Floor(|d.res|, num, den))
  {
    var p := |d.res|;
    if p <= 2 {
      FewBitsFit(m, p, num, den);
    } else {
      RoomSuffices(p, m + p, p, num, den);
    }
    DivisionExact(d, m, s, num, den);
  }

  /** With at most two result bits, or with room for every shift, the fraction is always right. */
  lemma DivisionRight(d: Wires, m: nat, s: State, num: nat, den: nat)
    requires d.Valid() && |d.num| == m + |d.res|
    requires num == Val(s, d.num) && den == Val(s, d.den) && num < den < Pow2(m)
    requires d.ancilla !in s && forall q :: q in d.res ==> q !in s
    requires |d.res| <= 2 || den * Pow2(1 + |d.res| * (|d.res| - 1) / 2) <= Pow2(m + |d.res|)
    ensures Write(s, d.res, QuotientOf(s, d, 0)) == Write(s, d.res, Floor(|d.res|, num, den))
  {
    RoomInClosedForm(|d.res|, m, den);
    DivisionFits(d, m, s, num, den);
  }

  /** Clean result and comparison ancilla, a proper fraction of m-bit operands, and room for every shift. */
  predicate HasRoom(s: State, d: Wires, m: nat) {
    && Val(s, d.num) < Val(s, d.den) < Pow2(m)
    && d.ancilla !in s && (forall q :: q in d.res ==> q !in s)
    && (|d.res| <= 2 || Val(s, d.den) * Pow2(1 + |d.res| * (|d.res| - 1) / 2) <= Pow2(m + |d.res|))
  }

  /** The division circuit writes floor(2^p num / den) into the result register and changes nothing else. */
  method BuildFraction(d: Wires, m: nat) returns (gates: seq<Gate>)
    requires d.Valid() && |d.num| == m + |d.res|
    ensures forall s :: HasRoom(s, d, m) ==> Run(gates, s) == Write(s, d.res, Floor(|d.res|, Val(s, d.num), Val(s, d.den)))
  {
    gates := BuildDivision(d);
    forall s | HasRoom(s, d, m)
      ensures Run(gates, s) == Write(s, d.res, Floor(|d.res|, Val(s, d.num), Val(s, d.den)))
    {
      DivisionRight(d, m, s, Val(s, d.num), Val(s, d.den));
    }
  }
}
