/** Exchanging two registers by three sweeps of CX, and rotating a register by conditional swaps. */
module ControlledSwap {
  import opened Registers
  import opened Gates
  import opened Controls

  function CXLayer(a: seq<Qubit>, b: seq<Qubit>): seq<Gate>
    requires |a| == |b|
  {
    if a == [] then [] else [CX(a[0], b[0])] + CXLayer(a[1..], b[1..])
  }

  function SwapGates(a: seq<Qubit>, b: seq<Qubit>): seq<Gate>
    requires |a| == |b|
  {
    CXLayer(a, b) + CXLayer(b, a) + CXLayer(a, b)
  }

  /** A layer of CX adds a into b bit by bit. */
  lemma {:induction false} RunCXLayer(a: seq<Qubit>, b: seq<Qubit>, s: State)
    requires |a| == |b| && Distinct(b) && Disjoint(a, b)
    ensures AgreeOff(Run(CXLayer(a, b), s), s, b)
    ensures forall k :: 0 <= k < |a| ==> (b[k] in Run(CXLayer(a, b), s) <==> (b[k] in s) != (a[k] in s))
    decreases a
  {
    if a != [] {
      var t := Apply(CX(a[0], b[0]), s);
      var u := Run(CXLayer(a[1..], b[1..]), t);
      assert CXLayer(a, b)[1..] == CXLayer(a[1..], b[1..]);
      assert Disjoint(a[1..], b[1..]) by {
        forall q | q in a[1..]
          ensures q !in b[1..]
        {
          assert q in a;
        }
      }
      RunCXLayer(a[1..], b[1..], t);
      assert b[0] !in b[1..];
      forall k | 0 <= k < |a|
        ensures b[k] in u <==> (b[k] in s) != (a[k] in s)
      {
        if k > 0 {
          assert b[k] == b[1..][k - 1] && a[k] == a[1..][k - 1];
          assert a[k] in a && b[0] in b && a[k] != b[0];
          assert b[k] != b[0];
        }
      }
      forall q | q !in b
        ensures q in u <==> q in s
      {
        assert q != b[0] && q !in b[1..];
      }
    }
  }

  /** The state with the contents of two registers exchanged. */
  ghost predicate Exchanged(s: State, t: State, a: seq<Qubit>, b: seq<Qubit>)
    requires |a| == |b|
  {
    && AgreeOff(t, s, a + b)
    && (forall k :: 0 <= k < |a| ==> (a[k] in t <==> b[k] in s))
    && (forall k :: 0 <= k < |a| ==> (b[k] in t <==> a[k] in s))
  }

  lemma SwapExchanges(a: seq<Qubit>, b: seq<Qubit>, s: State)
    requires |a| == |b| && Distinct(a) && Distinct(b) && Disjoint(a, b)
    ensures Exchanged(s, Run(SwapGates(a, b), s), a, b)
  {
    var s1 := Run(CXLayer(a, b), s);
    var s2 := Run(CXLayer(b, a), s1);
    var s3 := Run(CXLayer(a, b), s2);
    RunAround(CXLayer(a, b), CXLayer(b, a), CXLayer(a, b), s);
    RunCXLayer(a, b, s);
    RunCXLayer(b, a, s1);
    RunCXLayer(a, b, s2);
    forall k | 0 <= k < |a|
      ensures (a[k] in s3 <==> b[k] in s) && (b[k] in s3 <==> a[k] in s)
    {
      assert a[k] in a && b[k] in b;
    }
  }

  lemma {:induction false} CopiedVal(s: State, t: State, a: seq<Qubit>, b: seq<Qubit>)
    requires |a| == |b|
    requires forall k :: 0 <= k < |a| ==> (a[k] in t <==> b[k] in s)
    ensures Val(t, a) == Val(s, b)
  {
    if a != [] {
      forall k | 0 <= k < |a| - 1
        ensures a[1..][k] in t <==> b[1..][k] in s
      {
        assert a[1..][k] == a[k + 1] && b[1..][k] == b[k + 1];
      }
      CopiedVal(s, t, a[1..], b[1..]);
    }
  }

  /** Two layers of CX between the same registers cancel. */
  lemma CXLayerTwice(a: seq<Qubit>, b: seq<Qubit>, s: State)
    requires |a| == |b| && Distinct(b) && Disjoint(a, b)
    ensures Run(CXLayer(a, b), Run(CXLayer(a, b), s)) == s
  {
    var t := Run(CXLayer(a, b), s);
    var u := Run(CXLayer(a, b), t);
    RunCXLayer(a, b, s);
    RunCXLayer(a, b, t);
    forall k | 0 <= k < |b|
      ensures b[k] in u <==> b[k] in s
    {
      assert a[k] in a;
    }
    forall q
      ensures q in u <==> q in s
    {
      if q in b {
        var k :| 0 <= k < |b| && b[k] == q;
      }
    }
  }

  // ---------------------------------------------------------------- ControlledSwap::expand

  function ControlledSwapGates(a: seq<Qubit>, b: seq<Qubit>, on: seq<Qubit>, off: seq<Qubit>): seq<Gate>
    requires |a| == |b|
  {
    Guarded(on, off, SwapGates(a, b), SwapGates(a, b))
  }

  /** The registers are exchanged when the controls are enabled; otherwise nothing changes. */
  lemma ControlledSwapActs(a: seq<Qubit>, b: seq<Qubit>, on: seq<Qubit>, off: seq<Qubit>, s: State)
    requires |a| == |b| && Distinct(a) && Distinct(b) && Disjoint(a, b)
    requires Consistent(on, off) && Disjoint(off, a) && Disjoint(off, b)
    ensures var t := Run(ControlledSwapGates(a, b, on, off), s);
            if Enabled(s, on, off)
            then AgreeOff(t, s, a + b) && Val(t, a) == Val(s, b) && Val(t, b) == Val(s, a) && Exchanged(s, t, a, b)
            else t == s
  {
    var s1 := Complement(s, off);
    var swap := SwapGates(a, b);
    var s2 := Run(swap, s1);
    SwapExchanges(a, b, s1);
    RunXLayer(off, s);
    ComplementTwice(s, off);
    var t := Run(ControlledSwapGates(a, b, on, off), s);
    if on == [] && off == [] {
      assert s1 == s;
      RunAround(XLayer(off), swap, XLayer(off), s);
      RunXLayer(off, s2);
      assert t == s2;
    } else {
      var cu := Controlled(on + off, swap);
      RunAround(XLayer(off), [cu], XLayer(off), s);
      RunOne(cu, s1);
      EnabledIsAllOn(on, off, s);
      RunXLayer(off, Apply(cu, s1));
    }
    if Enabled(s, on, off) {
      assert t == Complement(s2, off);
      ExchangedInside(s, s1, s2, off, a, b);
      CopiedVal(s, t, a, b);
      CopiedVal(s, t, b, a);
    }
  }

  lemma ExchangedInside(s: State, s1: State, s2: State, off: seq<Qubit>, a: seq<Qubit>, b: seq<Qubit>)
    requires |a| == |b| && Disjoint(off, a) && Disjoint(off, b)
    requires s1 == Complement(s, off) && Exchanged(s1, s2, a, b)
    ensures Exchanged(s, Complement(s2, off), a, b)
  {
    var t := Complement(s2, off);
    forall k | 0 <= k < |a|
      ensures (a[k] in t <==> b[k] in s) && (b[k] in t <==> a[k] in s)
    {
      assert a[k] in a && b[k] in b;
    }
  }

  method AddCXLayer(circuit: Composite, a: seq<Qubit>, b: seq<Qubit>)
    requires |a| == |b|
    modifies circuit
    ensures circuit.instructions == old(circuit.instructions) + CXLayer(a, b)
  {
    var q := 0;
    assert a[0..] == a && b[0..] == b;
    while q < |a|
      invariant 0 <= q <= |a|
      invariant circuit.instructions + CXLayer(a[q..], b[q..]) == old(circuit.instructions) + CXLayer(a, b)
    {
      assert a[q..][1..] == a[q + 1..] && b[q..][1..] == b[q + 1..];
      assert circuit.instructions + ([CX(a[q], b[q])] + CXLayer(a[q + 1..], b[q + 1..]))
          == (circuit.instructions + [CX(a[q], b[q])]) + CXLayer(a[q + 1..], b[q + 1..]);
      circuit.AddInstruction(CX(a[q], b[q]));
      q := q + 1;
    }
  }

  method ExpandControlledSwap(circuit: Composite, a: seq<Qubit>, b: seq<Qubit>, on: seq<Qubit>, off: seq<Qubit>)
    requires |a| == |b|
    modifies circuit
    ensures circuit.instructions == old(circuit.instructions) + ControlledSwapGates(a, b, on, off)
  {
    ghost var before := circuit.instructions;
    AddXLayer(circuit, off);
    var swap := new Composite();
    AddCXLayer(swap, a, b);
    AddCXLayer(swap, b, a);
    AddCXLayer(swap, a, b);
    assert swap.instructions == SwapGates(a, b);
    AddGuarded(circuit, on, off, swap.instructions, swap.instructions, before);
  }
}
