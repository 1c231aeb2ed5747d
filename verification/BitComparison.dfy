/**
 * Two numbers compared bit by bit: where the one is greater, less and equal, carried from the lowest bit
 * to the highest, and how all of it is undone.
 */
module BitComparison {
  import opened Registers
  import opened Gates
  import opened Inverse
  import opened Footprints
  import opened AncillaLadder

  /** trial and best start with their most significant qubit; pattern is the best score, bit by bit. */
  datatype Wires = Wires(trial: seq<Qubit>, best: seq<Qubit>, anc: seq<Qubit>, pattern: seq<bool>) {

    function N(): nat {
      |trial|
    }

    predicate Fits() {
      |trial| == |best| == |pattern| >= 1 && |anc| == 3 * |trial| - 1
    }

    ghost predicate Valid() {
      && Fits()
      && Distinct(trial) && Distinct(best) && Distinct(anc)
      && Disjoint(trial, best) && Disjoint(trial, anc) && Disjoint(best, anc)
    }

    /** Where trial is greater, less and equal, bit by bit. */
    function Gt(): seq<Qubit>
      requires Fits()
    {
      anc[..N()]
    }

    function Lt(): seq<Qubit>
      requires Fits()
    {
      anc[N()..2 * N()]
    }

    function Eq(): seq<Qubit>
      requires Fits()
    {
      anc[2 * N()..]
    }
  }

  // ---------------------------------------------------------------- layers of Toffoli gates

  function ToffoliLayer(a: seq<Qubit>, b: seq<Qubit>, t: seq<Qubit>, i: nat): seq<Gate>
    requires i <= |t| && |t| <= |a| && |t| <= |b|
  {
    if i == 0 then [] else ToffoliLayer(a, b, t, i - 1) + [Toffoli(a[i - 1], b[i - 1], t[i - 1])]
  }

  /** The conjunction of a and b is added to t, for the first i bits. */
  ghost predicate Added(s: State, u: State, a: seq<Qubit>, b: seq<Qubit>, t: seq<Qubit>, i: nat)
    requires i <= |t| && |t| <= |a| && |t| <= |b|
  {
    && AgreeOff(u, s, t)
    && forall k :: 0 <= k < |t| ==> (t[k] in u <==> (t[k] in s) != (k < i && a[k] in s && b[k] in s))
  }

  ghost predicate Separate3(a: seq<Qubit>, b: seq<Qubit>, t: seq<Qubit>) {
    |t| <= |a| && |t| <= |b| && Distinct(t) && Disjoint(a, t) && Disjoint(b, t)
  }

  lemma {:induction false} LayerAdds(a: seq<Qubit>, b: seq<Qubit>, t: seq<Qubit>, i: nat, s: State)
    requires Separate3(a, b, t) && i <= |t|
    ensures Added(s, Run(ToffoliLayer(a, b, t, i), s), a, b, t, i)
  {
    if i > 0 {
      var g := Toffoli(a[i - 1], b[i - 1], t[i - 1]);
      var u := Run(ToffoliLayer(a, b, t, i - 1), s);
      LayerAdds(a, b, t, i - 1, s);
      RunConcat(ToffoliLayer(a, b, t, i - 1), [g], s);
      RunOne(g, u);
      ToffoliActs(a[i - 1], b[i - 1], t[i - 1], u);
      assert a[i - 1] in a && b[i - 1] in b && t[i - 1] in t;
    }
  }

  lemma AddedUnique(s: State, u: State, v: State, a: seq<Qubit>, b: seq<Qubit>, t: seq<Qubit>)
    requires |t| <= |a| && |t| <= |b| && Added(s, u, a, b, t, |t|) && Added(s, v, a, b, t, |t|)
    ensures u == v
  {
    forall q
      ensures q in u <==> q in v
    {
      if q in t {
        var k :| 0 <= k < |t| && t[k] == q;
      } else {
        assert q in u <==> q in s;
      }
    }
  }

  /** A layer done twice does nothing, in whatever order its gates and their controls are listed. */
  lemma LayerTwice(a: seq<Qubit>, b: seq<Qubit>, t: seq<Qubit>, s: State)
    requires Separate3(a, b, t)
    ensures Run(Reverse(ToffoliLayer(a, b, t, |t|)), Run(ToffoliLayer(a, b, t, |t|), s)) == s
  {
    var layer := ToffoliLayer(a, b, t, |t|);
    forall g, u | g in layer
      ensures Apply(g, Apply(g, u)) == u
    {
      LayerGates(a, b, t, |t|);
      LeafTwice(g, u);
    }
    ReversedUndoes(layer, s);
  }

  lemma {:induction false} LayerGates(a: seq<Qubit>, b: seq<Qubit>, t: seq<Qubit>, i: nat)
    requires Separate3(a, b, t) && i <= |t|
    ensures forall g :: g in ToffoliLayer(a, b, t, i) ==> IsLeaf(g)
    ensures Mentions(ToffoliLayer(a, b, t, i)) <= QubitSet(a) + QubitSet(b) + QubitSet(t)
  {
    if i > 0 {
      LayerGates(a, b, t, i - 1);
      assert a[i - 1] in a && b[i - 1] in b && t[i - 1] in t;
      var g := Toffoli(a[i - 1], b[i - 1], t[i - 1]);
      MentionsConcat(ToffoliLayer(a, b, t, i - 1), [g]);
      assert Mentions([g]) == MentionsOf(g) + Mentions([g][1..]);
      assert Mentions([X(t[i - 1])]) == {t[i - 1]} + Mentions([X(t[i - 1])][1..]);
      assert QubitSet([a[i - 1], b[i - 1]]) == {a[i - 1], b[i - 1]};
    }
  }

  lemma SwappedControls(a: seq<Qubit>, b: seq<Qubit>, t: seq<Qubit>, s: State)
    requires Separate3(a, b, t)
    ensures Run(Reverse(ToffoliLayer(b, a, t, |t|)), Run(ToffoliLayer(a, b, t, |t|), s)) == s
  {
    LayerAdds(a, b, t, |t|, s);
    LayerAdds(b, a, t, |t|, s);
    AddedUnique(s, Run(ToffoliLayer(a, b, t, |t|), s), Run(ToffoliLayer(b, a, t, |t|), s), a, b, t);
    LayerTwice(b, a, t, s);
  }

  // ---------------------------------------------------------------- the circuit

  /** Greater bits: trial is on and best is off. */
  function GreaterBits(d: Wires): seq<Gate>
    requires d.Fits()
  {
    XLayer(d.best) + ToffoliLayer(d.trial, d.best, d.Gt(), d.N()) + XLayer(d.best)
  }

  function LessBits(d: Wires): seq<Gate>
    requires d.Fits()
  {
    XLayer(d.trial) + ToffoliLayer(d.trial, d.best, d.Lt(), d.N()) + XLayer(d.trial)
  }

  function BothInverted(d: Wires): seq<Gate>
    requires d.Fits()
  {
    XLayer(d.Gt()) + XLayer(d.Lt())
  }

  /** Equal bits, but for the lowest: neither greater nor less. */
  function EqualBits(d: Wires): seq<Gate>
    requires d.Fits()
  {
    BothInverted(d) + ToffoliLayer(d.Gt(), d.Lt(), d.Eq(), d.N() - 1) + BothInverted(d)
  }

  /** What bit j + 1 decides counts for bit j if that is equal. */
  function Pair(d: Wires, j: nat): seq<Gate>
    requires d.Fits() && j < d.N() - 1
  {
    [Toffoli(d.Gt()[j + 1], d.Eq()[j], d.Gt()[j]), Toffoli(d.Lt()[j + 1], d.Eq()[j], d.Lt()[j])]
  }

  /** From the lowest bits up to bit k. */
  function Carry(d: Wires, k: nat): seq<Gate>
    requires d.Fits() && k <= d.N() - 1
    decreases d.N() - k
  {
    if k == d.N() - 1 then [] else Carry(d, k + 1) + Pair(d, k)
  }

  function CarryBack(d: Wires, k: nat): seq<Gate>
    requires d.Fits() && k <= d.N() - 1
    decreases d.N() - k
  {
    if k == d.N() - 1 then [] else Pair(d, k) + CarryBack(d, k + 1)
  }

  function Compare(d: Wires): seq<Gate>
    requires d.Fits()
  {
    GreaterBits(d) + LessBits(d) + EqualBits(d) + Carry(d, 0)
  }

  function UnEqual(d: Wires): seq<Gate>
    requires d.Fits()
  {
    BothInverted(d) + Reverse(ToffoliLayer(d.Gt(), d.Lt(), d.Eq(), d.N() - 1))
  }

  function UnLess(d: Wires): seq<Gate>
    requires d.Fits()
  {
    XLayer(d.trial) + BothInverted(d) + Reverse(ToffoliLayer(d.trial, d.best, d.Lt(), d.N()))
  }

  function UnGreater(d: Wires): seq<Gate>
    requires d.Fits()
  {
    XLayer(d.best) + XLayer(d.trial) + Reverse(ToffoliLayer(d.best, d.trial, d.Gt(), d.N())) + XLayer(d.best)
  }

  function Uncompare(d: Wires): seq<Gate>
    requires d.Fits()
  {
    CarryBack(d, 0) + UnEqual(d) + UnLess(d) + UnGreater(d)
  }

  lemma AncillasApart(d: Wires)
    requires d.Valid()
    ensures Separate3(d.trial, d.best, d.Gt()) && Separate3(d.trial, d.best, d.Lt()) && Separate3(d.Gt(), d.Lt(), d.Eq())
    ensures Disjoint(d.Gt(), d.Lt()) && |d.Gt()| == |d.Lt()| == d.N() && |d.Eq()| == d.N() - 1
    ensures forall q :: q in d.Gt() || q in d.Lt() || q in d.Eq() ==> q in d.anc
  {
    SlicesApart(d.anc, 0, d.N(), d.N(), 2 * d.N());
    SlicesApart(d.anc, 0, d.N(), 2 * d.N(), |d.anc|);
    SlicesApart(d.anc, d.N(), 2 * d.N(), 2 * d.N(), |d.anc|);
  }

  // ---------------------------------------------------------------- the oracle half undoes the comparison

  lemma RunTwo(g: Gate, h: Gate, s: State)
    ensures Run([g, h], s) == Apply(h, Apply(g, s))
  {
    assert [g, h] == [g] + [h];
    RunConcat([g], [h], s);
    RunOne(g, s);
    RunOne(h, Apply(g, s));
  }

  /** What a pair does, qubit by qubit. */
  lemma PairActs(d: Wires, j: nat, s: State)
    requires d.Valid() && j < d.N() - 1
    ensures var u, g, l := Run(Pair(d, j), s), d.Gt()[j], d.Lt()[j];
            && (g in u <==> (g in s) != (d.Gt()[j + 1] in s && d.Eq()[j] in s))
            && (l in u <==> (l in s) != (d.Lt()[j + 1] in s && d.Eq()[j] in s))
            && forall q :: q != g && q != l ==> (q in u <==> q in s)
  {
    AncillasApart(d);
    var g, l := Toffoli(d.Gt()[j + 1], d.Eq()[j], d.Gt()[j]), Toffoli(d.Lt()[j + 1], d.Eq()[j], d.Lt()[j]);
    RunTwo(g, l, s);
    ToffoliActs(d.Gt()[j + 1], d.Eq()[j], d.Gt()[j], s);
    ToffoliActs(d.Lt()[j + 1], d.Eq()[j], d.Lt()[j], Apply(g, s));
    assert d.Gt()[j] in d.Gt() && d.Lt()[j] in d.Lt() && d.Lt()[j + 1] in d.Lt() && d.Eq()[j] in d.Eq();
  }

  lemma PairTwice(d: Wires, j: nat, s: State)
    requires d.Valid() && j < d.N() - 1
    ensures Run(Pair(d, j), Run(Pair(d, j), s)) == s
  {
    AncillasApart(d);
    var u := Run(Pair(d, j), s);
    PairActs(d, j, s);
    PairActs(d, j, u);
    assert d.Gt()[j] in d.Gt() && d.Lt()[j] in d.Lt() && d.Lt()[j + 1] in d.Lt() && d.Eq()[j] in d.Eq();
    assert d.Gt()[j + 1] in d.Gt() && d.Gt()[j + 1] != d.Gt()[j] && d.Lt()[j + 1] != d.Lt()[j];
  }

  lemma {:induction false} CarryUndone(d: Wires, k: nat, s: State)
    requires d.Valid() && k <= d.N() - 1
    ensures Run(CarryBack(d, k), Run(Carry(d, k), s)) == s
    decreases d.N() - k
  {
    if k < d.N() - 1 {
      var u := Run(Carry(d, k + 1), s);
      RunConcat(Carry(d, k + 1), Pair(d, k), s);
      RunConcat(Pair(d, k), CarryBack(d, k + 1), Run(Pair(d, k), u));
      PairTwice(d, k, u);
      CarryUndone(d, k + 1, s);
    }
  }

  lemma ComplementsCommute(s: State, a: seq<Qubit>, b: seq<Qubit>)
    ensures Complement(Complement(s, a), b) == Complement(Complement(s, b), a)
    ensures Complement(Complement(s, a), a) == s
  {}

  function Both(s: State, a: seq<Qubit>, b: seq<Qubit>): State {
    Complement(Complement(s, a), b)
  }

  lemma BothTwice(s: State, a: seq<Qubit>, b: seq<Qubit>)
    ensures Both(Both(s, a, b), a, b) == s
  {
    ComplementsCommute(s, a, b);
    ComplementsCommute(Complement(s, b), a, b);
  }

  lemma BothInvertedActs(d: Wires, s: State)
    requires d.Valid()
    ensures Run(BothInverted(d), s) == Both(s, d.Gt(), d.Lt())
  {
    AncillasApart(d);
    RunConcat(XLayer(d.Gt()), XLayer(d.Lt()), s);
    RunXLayer(d.Gt(), s);
    RunXLayer(d.Lt(), Complement(s, d.Gt()));
  }

  lemma BitsRun(d: Wires, s: State)
    requires d.Valid()
    ensures Run(GreaterBits(d), s)
         == Complement(Run(ToffoliLayer(d.trial, d.best, d.Gt(), d.N()), Complement(s, d.best)), d.best)
    ensures Run(LessBits(d), s)
         == Complement(Run(ToffoliLayer(d.trial, d.best, d.Lt(), d.N()), Complement(s, d.trial)), d.trial)
  {
    var g, l := ToffoliLayer(d.trial, d.best, d.Gt(), d.N()), ToffoliLayer(d.trial, d.best, d.Lt(), d.N());
    RunAround(XLayer(d.best), g, XLayer(d.best), s);
    RunXLayer(d.best, s);
    RunXLayer(d.best, Run(g, Complement(s, d.best)));
    RunAround(XLayer(d.trial), l, XLayer(d.trial), s);
    RunXLayer(d.trial, s);
    RunXLayer(d.trial, Run(l, Complement(s, d.trial)));
  }

  lemma EqualRun(d: Wires, s: State)
    requires d.Valid()
    ensures var layer := ToffoliLayer(d.Gt(), d.Lt(), d.Eq(), d.N() - 1);
            Run(EqualBits(d), s) == Both(Run(layer, Both(s, d.Gt(), d.Lt())), d.Gt(), d.Lt())
  {
    var layer := ToffoliLayer(d.Gt(), d.Lt(), d.Eq(), d.N() - 1);
    RunAround(BothInverted(d), layer, BothInverted(d), s);
    BothInvertedActs(d, s);
    BothInvertedActs(d, Run(layer, Both(s, d.Gt(), d.Lt())));
  }

  /** From after the equal bits back to before them, but with the other two registers inverted. */
  lemma UnEqualRun(d: Wires, y: State)
    requires d.Valid()
    ensures Run(UnEqual(d), Run(EqualBits(d), y)) == Both(y, d.Gt(), d.Lt())
  {
    var layer, z := ToffoliLayer(d.Gt(), d.Lt(), d.Eq(), d.N() - 1), Run(EqualBits(d), y);
    var w := Run(layer, Both(y, d.Gt(), d.Lt()));
    AncillasApart(d);
    EqualRun(d, y);
    RunConcat(BothInverted(d), Reverse(layer), z);
    BothInvertedActs(d, z);
    BothTwice(w, d.Gt(), d.Lt());
    LayerTwice(d.Gt(), d.Lt(), d.Eq(), Both(y, d.Gt(), d.Lt()));
  }

  lemma UnLessRun(d: Wires, x: State)
    requires d.Valid()
    ensures Run(UnLess(d), Both(Run(LessBits(d), x), d.Gt(), d.Lt())) == Complement(x, d.trial)
  {
    var layer, y := ToffoliLayer(d.trial, d.best, d.Lt(), d.N()), Run(LessBits(d), x);
    var v, t := Both(y, d.Gt(), d.Lt()), Run(layer, Complement(x, d.trial));
    AncillasApart(d);
    BitsRun(d, x);
    RunAround(XLayer(d.trial), BothInverted(d), Reverse(layer), v);
    RunXLayer(d.trial, v);
    BothInvertedActs(d, Complement(v, d.trial));
    ComplementsCommute(Complement(y, d.Gt()), d.Lt(), d.trial);
    ComplementsCommute(y, d.Gt(), d.trial);
    BothTwice(Complement(y, d.trial), d.Gt(), d.Lt());
    ComplementsCommute(t, d.trial, d.trial);
    LayerTwice(d.trial, d.best, d.Lt(), Complement(x, d.trial));
  }

  lemma UnGreaterRun(d: Wires, s: State)
    requires d.Valid()
    ensures Run(UnGreater(d), Complement(Run(GreaterBits(d), s), d.trial)) == s
  {
    var layer, back := ToffoliLayer(d.trial, d.best, d.Gt(), d.N()), Reverse(ToffoliLayer(d.best, d.trial, d.Gt(), d.N()));
    var x, t := Run(GreaterBits(d), s), Run(layer, Complement(s, d.best));
    AncillasApart(d);
    BitsRun(d, s);
    RunAround(XLayer(d.best) + XLayer(d.trial), back, XLayer(d.best), Complement(x, d.trial));
    RunConcat(XLayer(d.best), XLayer(d.trial), Complement(x, d.trial));
    RunXLayer(d.best, Complement(x, d.trial));
    RunXLayer(d.trial, Complement(Complement(x, d.trial), d.best));
    ComplementsCommute(x, d.trial, d.best);
    ComplementsCommute(Complement(x, d.best), d.trial, d.trial);
    ComplementsCommute(t, d.best, d.best);
    SwappedControls(d.trial, d.best, d.Gt(), Complement(s, d.best));
    RunXLayer(d.best, Complement(s, d.best));
    ComplementsCommute(s, d.best, d.best);
  }

  /** The second half of the oracle returns every qubit to where the first half found it. */
  lemma UncompareUndoes(d: Wires, s: State)
    requires d.Valid()
    ensures Run(Uncompare(d), Run(Compare(d), s)) == s
  {
    var x := Run(GreaterBits(d), s);
    var y := Run(LessBits(d), x);
    var z := Run(EqualBits(d), y);
    var c := Run(Carry(d, 0), z);
    RunAround(GreaterBits(d), LessBits(d), EqualBits(d), s);
    RunConcat(GreaterBits(d) + LessBits(d) + EqualBits(d), Carry(d, 0), s);
    RunAround(CarryBack(d, 0), UnEqual(d), UnLess(d), c);
    RunConcat(CarryBack(d, 0) + UnEqual(d) + UnLess(d), UnGreater(d), c);
    CarryUndone(d, 0, z);
    UnEqualRun(d, y);
    UnLessRun(d, x);
    UnGreaterRun(d, s);
  }

  // ---------------------------------------------------------------- what the comparison finds

  /** a is greater than b, bit by bit from position j down; both start with the most significant qubit. */
  predicate Greater(s: State, a: seq<Qubit>, b: seq<Qubit>, j: nat)
    requires |a| == |b| && j <= |a|
    decreases |a| - j
  {
    j < |a| && ((a[j] in s && b[j] !in s) || ((a[j] in s <==> b[j] in s) && Greater(s, a, b, j + 1)))
  }

  /** The number a register holds that starts with its most significant qubit. */
  function Big(s: State, reg: seq<Qubit>): nat {
    Val(s, Reverse(reg))
  }

  lemma BigSplits(s: State, reg: seq<Qubit>)
    requires |reg| >= 1
    ensures Big(s, reg) == Big(s, reg[1..]) + if reg[0] in s then Pow2(|reg| - 1) else 0
    ensures Big(s, reg[1..]) < Pow2(|reg| - 1)
  {
    ValSnoc(s, Reverse(reg[1..]), reg[0]);
    ValBound(s, Reverse(reg[1..]));
  }

  lemma {:induction false} GreaterIsMore(s: State, a: seq<Qubit>, b: seq<Qubit>, j: nat)
    requires |a| == |b| && j <= |a|
    ensures Greater(s, a, b, j) <==> Big(s, a[j..]) > Big(s, b[j..])
    decreases |a| - j
  {
    if j < |a| {
      assert a[j..][1..] == a[j + 1..] && b[j..][1..] == b[j + 1..];
      BigSplits(s, a[j..]);
      BigSplits(s, b[j..]);
      GreaterIsMore(s, a, b, j + 1);
    }
  }

  /** The three ancilla registers as the comparison of s leaves them once bits from k on are carried. */
  ghost predicate Bits(s: State, u: State, trial: seq<Qubit>, best: seq<Qubit>,
                       gt: seq<Qubit>, lt: seq<Qubit>, eq: seq<Qubit>, k: nat)
    requires |trial| == |best| == |gt| == |lt| == |eq| + 1
  {
    && (forall j :: 0 <= j < |gt| ==>
         (gt[j] in u <==> if j >= k then Greater(s, trial, best, j) else trial[j] in s && best[j] !in s))
    && (forall j :: 0 <= j < |lt| ==>
         (lt[j] in u <==> if j >= k then Greater(s, best, trial, j) else best[j] in s && trial[j] !in s))
    && (forall j :: 0 <= j < |eq| ==> (eq[j] in u <==> (trial[j] in s <==> best[j] in s)))
  }

  ghost predicate Compared(s: State, u: State, d: Wires, k: nat)
    requires d.Fits() && k <= d.N() - 1
  {
    AgreeOff(u, s, d.anc) && Bits(s, u, d.trial, d.best, d.Gt(), d.Lt(), d.Eq(), k)
  }

  ghost predicate CleanAncillas(s: State, d: Wires) {
    forall q :: q in d.anc ==> q !in s
  }

  lemma GreaterBitsFound(d: Wires, s: State)
    requires d.Valid() && CleanAncillas(s, d)
    ensures var x := Run(GreaterBits(d), s);
            && AgreeOff(x, s, d.Gt())
            && forall j :: 0 <= j < d.N() ==> (d.Gt()[j] in x <==> d.trial[j] in s && d.best[j] !in s)
  {
    var s1 := Complement(s, d.best);
    AncillasApart(d);
    BitsRun(d, s);
    LayerAdds(d.trial, d.best, d.Gt(), d.N(), s1);
    forall j | 0 <= j < d.N()
      ensures d.Gt()[j] in Run(GreaterBits(d), s) <==> d.trial[j] in s && d.best[j] !in s
    {
      assert d.Gt()[j] in d.Gt() && d.trial[j] in d.trial && d.best[j] in d.best;
    }
  }

  lemma LessBitsFound(d: Wires, s: State, x: State)
    requires d.Valid() && CleanAncillas(s, d) && AgreeOff(x, s, d.Gt())
    ensures var y := Run(LessBits(d), x);
            && AgreeOff(y, x, d.Lt())
            && forall j :: 0 <= j < d.N() ==> (d.Lt()[j] in y <==> d.best[j] in s && d.trial[j] !in s)
  {
    var x1 := Complement(x, d.trial);
    AncillasApart(d);
    BitsRun(d, x);
    LayerAdds(d.trial, d.best, d.Lt(), d.N(), x1);
    forall j | 0 <= j < d.N()
      ensures d.Lt()[j] in Run(LessBits(d), x) <==> d.best[j] in s && d.trial[j] !in s
    {
      assert d.Lt()[j] in d.Lt() && d.trial[j] in d.trial && d.best[j] in d.best;
      assert d.trial[j] !in d.Gt() && d.best[j] !in d.Gt();
    }
  }

  lemma NeitherFound(gt: seq<Qubit>, lt: seq<Qubit>, eq: seq<Qubit>, y: State, u: State, z: State)
    requires Separate3(gt, lt, eq) && |gt| == |lt| == |eq| + 1 && Disjoint(gt, lt)
    requires forall q :: q in eq ==> q !in y
    requires Added(Both(y, gt, lt), u, gt, lt, eq, |eq|) && z == Both(u, gt, lt)
    ensures AgreeOff(z, y, eq) && forall j :: 0 <= j < |eq| ==> (eq[j] in z <==> gt[j] !in y && lt[j] !in y)
  {
    forall j | 0 <= j < |eq|
      ensures eq[j] in z <==> gt[j] !in y && lt[j] !in y
    {
      assert gt[j] in gt && lt[j] in lt && eq[j] in eq;
    }
  }

  lemma EqualBitsFound(d: Wires, y: State)
    requires d.Valid() && forall q :: q in d.Eq() ==> q !in y
    ensures var z := Run(EqualBits(d), y);
            && AgreeOff(z, y, d.Eq())
            && forall j :: 0 <= j < |d.Eq()| ==> (d.Eq()[j] in z <==> d.Gt()[j] !in y && d.Lt()[j] !in y)
  {
    var y1 := Both(y, d.Gt(), d.Lt());
    AncillasApart(d);
    EqualRun(d, y);
    LayerAdds(d.Gt(), d.Lt(), d.Eq(), d.N() - 1, y1);
    NeitherFound(d.Gt(), d.Lt(), d.Eq(), y, Run(ToffoliLayer(d.Gt(), d.Lt(), d.Eq(), d.N() - 1), y1), Run(EqualBits(d), y));
  }

  /** Before any carry: what the three groups of gates leave. */
  lemma RawBits(s: State, x: State, y: State, z: State, trial: seq<Qubit>, best: seq<Qubit>,
                gt: seq<Qubit>, lt: seq<Qubit>, eq: seq<Qubit>)
    requires |trial| == |best| == |gt| == |lt| == |eq| + 1
    requires Disjoint(gt, lt) && Disjoint(gt, eq) && Disjoint(lt, eq)
    requires forall j :: 0 <= j < |gt| ==> (gt[j] in x <==> trial[j] in s && best[j] !in s)
    requires AgreeOff(y, x, lt) && forall j :: 0 <= j < |lt| ==> (lt[j] in y <==> best[j] in s && trial[j] !in s)
    requires AgreeOff(z, y, eq) && forall j :: 0 <= j < |eq| ==> (eq[j] in z <==> gt[j] !in y && lt[j] !in y)
    ensures Bits(s, z, trial, best, gt, lt, eq, |eq|)
  {
    forall j | 0 <= j < |gt|
      ensures (gt[j] in z <==> gt[j] in x) && (gt[j] in y <==> gt[j] in x) && (lt[j] in z <==> lt[j] in y)
    {
      assert gt[j] in gt && lt[j] in lt;
    }
  }

  lemma BitsCompared(d: Wires, s: State)
    requires d.Valid() && CleanAncillas(s, d)
    ensures Compared(s, Run(GreaterBits(d) + LessBits(d) + EqualBits(d), s), d, d.N() - 1)
  {
    var x := Run(GreaterBits(d), s);
    var y := Run(LessBits(d), x);
    var z := Run(EqualBits(d), y);
    RunAround(GreaterBits(d), LessBits(d), EqualBits(d), s);
    AncillasApart(d);
    GreaterBitsFound(d, s);
    LessBitsFound(d, s, x);
    StillClean(s, x, y, d.Gt(), d.Lt(), d.Eq(), d.anc);
    EqualBitsFound(d, y);
    RawBits(s, x, y, z, d.trial, d.best, d.Gt(), d.Lt(), d.Eq());
    forall q | q !in d.anc
      ensures q in z <==> q in s
    {
      assert q !in d.Gt() && q !in d.Lt() && q !in d.Eq();
    }
  }

  lemma StillClean(s: State, x: State, y: State, gt: seq<Qubit>, lt: seq<Qubit>, eq: seq<Qubit>, anc: seq<Qubit>)
    requires AgreeOff(x, s, gt) && AgreeOff(y, x, lt) && Disjoint(gt, eq) && Disjoint(lt, eq)
    requires forall q :: q in eq ==> q in anc
    requires forall q :: q in anc ==> q !in s
    ensures forall q :: q in eq ==> q !in y
  {}

  /** One pair carries one bit further. */
  lemma CarriesOneMore(s: State, u: State, v: State, trial: seq<Qubit>, best: seq<Qubit>,
                       gt: seq<Qubit>, lt: seq<Qubit>, eq: seq<Qubit>, k: nat)
    requires |trial| == |best| == |gt| == |lt| == |eq| + 1 && k < |eq|
    requires Distinct(gt) && Distinct(lt) && Disjoint(gt, lt) && Disjoint(gt, eq) && Disjoint(lt, eq)
    requires Bits(s, u, trial, best, gt, lt, eq, k + 1)
    requires gt[k] in v <==> (gt[k] in u) != (gt[k + 1] in u && eq[k] in u)
    requires lt[k] in v <==> (lt[k] in u) != (lt[k + 1] in u && eq[k] in u)
    requires forall q :: q != gt[k] && q != lt[k] ==> (q in v <==> q in u)
    ensures Bits(s, v, trial, best, gt, lt, eq, k)
  {
    OthersStay(u, v, gt, lt, eq, k);
    assert eq[k] in u <==> (trial[k] in s <==> best[k] in s);
    assert gt[k] in v <==> Greater(s, trial, best, k);
    assert lt[k] in v <==> Greater(s, best, trial, k);
  }

  lemma OthersStay(u: State, v: State, gt: seq<Qubit>, lt: seq<Qubit>, eq: seq<Qubit>, k: nat)
    requires |gt| == |lt| == |eq| + 1 && k < |eq|
    requires Distinct(gt) && Distinct(lt) && Disjoint(gt, lt) && Disjoint(gt, eq) && Disjoint(lt, eq)
    requires forall q :: q != gt[k] && q != lt[k] ==> (q in v <==> q in u)
    ensures forall j :: 0 <= j < |gt| && j != k ==> (gt[j] in v <==> gt[j] in u) && (lt[j] in v <==> lt[j] in u)
    ensures forall j :: 0 <= j < |eq| ==> (eq[j] in v <==> eq[j] in u)
  {
    assert gt[k] in gt && lt[k] in lt;
    forall j | 0 <= j < |gt| && j != k
      ensures (gt[j] in v <==> gt[j] in u) && (lt[j] in v <==> lt[j] in u)
    {
      assert gt[j] in gt && lt[j] in lt && gt[j] != gt[k] && lt[j] != lt[k];
    }
    forall j | 0 <= j < |eq|
      ensures eq[j] in v <==> eq[j] in u
    {
      assert eq[j] in eq;
    }
  }

  lemma PairCompares(d: Wires, k: nat, s: State, u: State, v: State)
    requires d.Valid() && k < d.N() - 1 && Compared(s, u, d, k + 1) && v == Run(Pair(d, k), u)
    ensures Compared(s, v, d, k)
  {
    AncillasApart(d);
    PairActs(d, k, u);
    CarriesOneMore(s, u, v, d.trial, d.best, d.Gt(), d.Lt(), d.Eq(), k);
    StillAgrees(s, u, v, d.anc, d.Gt()[k], d.Lt()[k]);
  }

  lemma StillAgrees(s: State, u: State, v: State, anc: seq<Qubit>, g: Qubit, l: Qubit)
    requires AgreeOff(u, s, anc) && g in anc && l in anc && forall q :: q != g && q != l ==> (q in v <==> q in u)
    ensures AgreeOff(v, s, anc)
  {}

  lemma CarryStep(d: Wires, k: nat, s: State, z: State)
    requires d.Valid() && k < d.N() - 1 && Compared(s, Run(Carry(d, k + 1), z), d, k + 1)
    ensures Compared(s, Run(Carry(d, k), z), d, k)
  {
    var u := Run(Carry(d, k + 1), z);
    RunConcat(Carry(d, k + 1), Pair(d, k), z);
    PairCompares(d, k, s, u, Run(Pair(d, k), u));
  }

  lemma {:induction false} CarryCompares(d: Wires, k: nat, s: State, z: State)
    requires d.Valid() && k <= d.N() - 1 && Compared(s, z, d, d.N() - 1)
    ensures Compared(s, Run(Carry(d, k), z), d, k)
    decreases d.N() - k
  {
    if k < d.N() - 1 {
      CarryCompares(d, k + 1, s, z);
      CarryStep(d, k, s, z);
    }
  }

  /** The first ancilla tells whether trial exceeds best, ancilla n whether best exceeds trial. */
  lemma CompareFinds(d: Wires, s: State)
    requires d.Valid() && CleanAncillas(s, d)
    ensures var u := Run(Compare(d), s);
            && AgreeOff(u, s, d.anc)
            && (d.anc[0] in u <==> Big(s, d.trial) > Big(s, d.best))
            && (d.anc[d.N()] in u <==> Big(s, d.trial) < Big(s, d.best))
  {
    var bits := GreaterBits(d) + LessBits(d) + EqualBits(d);
    RunConcat(bits, Carry(d, 0), s);
    BitsCompared(d, s);
    CarryCompares(d, 0, s, Run(bits, s));
    GreaterIsMore(s, d.trial, d.best, 0);
    GreaterIsMore(s, d.best, d.trial, 0);
    assert d.trial[0..] == d.trial && d.best[0..] == d.best;
    assert d.anc[0] == d.Gt()[0] && d.anc[d.N()] == d.Lt()[0];
  }

  // ---------------------------------------------------------------- the qubits of the comparison

  /** The circuit mentions qubits of the given set only. */
  predicate Inside(gs: seq<Gate>, qubits: set<Qubit>) {
    Mentions(gs) <= qubits
  }

  lemma AroundInside(a: seq<Gate>, b: seq<Gate>, c: seq<Gate>, qubits: set<Qubit>)
    requires Inside(a, qubits) && Inside(b, qubits) && Inside(c, qubits)
    ensures Inside(a + b + c, qubits)
  {
    MentionsConcat(a + b, c);
    MentionsConcat(a, b);
  }

  lemma XLayerInside(reg: seq<Qubit>, qubits: set<Qubit>)
    requires forall q :: q in reg ==> q in qubits
    ensures Inside(XLayer(reg), qubits)
  {
    XLayerMentions(reg);
  }

  lemma LayerInside(a: seq<Qubit>, b: seq<Qubit>, t: seq<Qubit>, qubits: set<Qubit>)
    requires Separate3(a, b, t) && forall q :: q in a || q in b || q in t ==> q in qubits
    ensures Inside(ToffoliLayer(a, b, t, |t|), qubits)
  {
    LayerGates(a, b, t, |t|);
  }

  lemma CompareInside(d: Wires, qubits: set<Qubit>)
    requires d.Valid() && forall q :: q in d.trial || q in d.best || q in d.anc ==> q in qubits
    ensures Inside(Compare(d), qubits)
  {
    AncillasApart(d);
    XLayerInside(d.best, qubits);
    XLayerInside(d.trial, qubits);
    XLayerInside(d.Gt(), qubits);
    XLayerInside(d.Lt(), qubits);
    LayerInside(d.trial, d.best, d.Gt(), qubits);
    LayerInside(d.trial, d.best, d.Lt(), qubits);
    LayerInside(d.Gt(), d.Lt(), d.Eq(), qubits);
    MentionsConcat(XLayer(d.Gt()), XLayer(d.Lt()));
    AroundInside(XLayer(d.best), ToffoliLayer(d.trial, d.best, d.Gt(), d.N()), XLayer(d.best), qubits);
    AroundInside(XLayer(d.trial), ToffoliLayer(d.trial, d.best, d.Lt(), d.N()), XLayer(d.trial), qubits);
    AroundInside(BothInverted(d), ToffoliLayer(d.Gt(), d.Lt(), d.Eq(), d.N() - 1), BothInverted(d), qubits);
    AroundInside(GreaterBits(d), LessBits(d), EqualBits(d), qubits);
    CarryInside(d, 0, qubits);
    MentionsConcat(GreaterBits(d) + LessBits(d) + EqualBits(d), Carry(d, 0));
  }

  lemma {:induction false} CarryInside(d: Wires, k: nat, qubits: set<Qubit>)
    requires d.Valid() && k <= d.N() - 1 && forall q :: q in d.anc ==> q in qubits
    ensures Inside(Carry(d, k), qubits)
    decreases d.N() - k
  {
    if k < d.N() - 1 {
      CarryInside(d, k + 1, qubits);
      MentionsConcat(Carry(d, k + 1), Pair(d, k));
      AncillasApart(d);
      PairInside(d.Gt(), d.Lt(), d.Eq(), k, qubits);
    }
  }

  lemma TwoMention(g: Gate, h: Gate)
    ensures Mentions([g, h]) == MentionsOf(g) + MentionsOf(h)
  {
    assert [g, h][1..] == [h] && [h][1..] == [];
    assert Mentions([h]) == MentionsOf(h) + Mentions([h][1..]);
  }

  lemma PairInside(gt: seq<Qubit>, lt: seq<Qubit>, eq: seq<Qubit>, j: nat, qubits: set<Qubit>)
    requires j < |eq| && |gt| == |lt| == |eq| + 1
    requires forall q :: q in gt || q in lt || q in eq ==> q in qubits
    ensures Inside([Toffoli(gt[j + 1], eq[j], gt[j]), Toffoli(lt[j + 1], eq[j], lt[j])], qubits)
  {
    ToffoliMentions(gt[j + 1], eq[j], gt[j]);
    ToffoliMentions(lt[j + 1], eq[j], lt[j]);
    TwoMention(Toffoli(gt[j + 1], eq[j], gt[j]), Toffoli(lt[j + 1], eq[j], lt[j]));
    assert gt[j] in gt && gt[j + 1] in gt && lt[j] in lt && lt[j + 1] in lt && eq[j] in eq;
  }
}
