/** The ancillas that the encoding adds to those it is given. */
module AncillaChoice {
  import opened Registers
  import opened Gates
  import opened GrayCode
  import opened EncodingSteps
  import opened EncodingWalk
  import opened EncodingSoundness
  import L = AncillaLadder

  // ---------------------------------------------------------------- choosing ancillas

  /** A number above all elements. */
  ghost function Above(reg: seq<Qubit>): (bound: nat)
    ensures forall q :: q in reg ==> q < bound
  {
    if reg == [] then 0
    else
      var rest := Above(reg[1..]);
      assert forall q :: q in reg ==> q == reg[0] || q in reg[1..];
      if reg[0] < rest then rest else reg[0] + 1
  }

  /** The m lowest indices from the given one on that are not taken. */
  function Free(taken: seq<Qubit>, from: nat, m: nat): (reg: seq<Qubit>)
    ensures |reg| == m && Distinct(reg) && forall q :: q in reg ==> q >= from && q !in taken
    decreases m, Above(taken) - from
  {
    if m == 0 then []
    else if from in taken then Free(taken, from + 1, m)
    else [from] + Free(taken, from + 1, m - 1)
  }

  /** The ancillas that are added to the given ones: flags are not looked at. */
  function Missing(d: Wires): seq<Qubit> {
    if |d.anc| < |d.states| - 1 then Free(d.states + d.score, 0, |d.states| - 1 - |d.anc|) else []
  }

  method ChooseAncillas(d: Wires) returns (anc: seq<Qubit>)
    ensures anc == d.anc + Missing(d)
  {
    anc := d.anc;
    var temp := 0;
    ghost var taken := d.states + d.score;
    while |anc| < |d.states| - 1
      invariant |anc| < |d.states| - 1 ==> anc + Free(taken, temp, |d.states| - 1 - |anc|) == d.anc + Missing(d)
      invariant |anc| >= |d.states| - 1 ==> anc == d.anc + Missing(d)
      decreases |d.states| - 1 - |anc|, Above(taken) - temp
    {
      NextFree(taken, temp, |d.states| - 1 - |anc|, anc);
      if temp !in d.states && temp !in d.score {
        anc := anc + [temp];
      }
      temp := temp + 1;
    }
  }

  lemma NextFree(taken: seq<Qubit>, temp: nat, m: nat, anc: seq<Qubit>)
    requires m >= 1
    ensures temp in taken ==> Free(taken, temp, m) == Free(taken, temp + 1, m) && temp < Above(taken)
    ensures temp !in taken ==> anc + Free(taken, temp, m) == anc + [temp] + Free(taken, temp + 1, m - 1)
  {
    if temp !in taken { assert anc + ([temp] + Free(taken, temp + 1, m - 1)) == anc + [temp] + Free(taken, temp + 1, m - 1); }
  }

  /** The wires as they are used: with the ancillas chosen. */
  function Equipped(d: Wires): Wires {
    if d.useAncilla then d.(anc := d.anc + Missing(d)) else d
  }

  // ---------------------------------------------------------------- which lists can be completed

  /** How many indices from the given one on, and below a, are not taken. */
  function Room(taken: seq<Qubit>, from: nat, a: nat): nat
    decreases a - from
  {
    if from >= a then 0 else (if from in taken then 0 else 1) + Room(taken, from + 1, a)
  }

  /** An index is among the m lowest free ones exactly when fewer than m of these lie below it. */
  lemma {:induction false} FreeMember(taken: seq<Qubit>, from: nat, m: nat, a: nat)
    requires a !in taken && a >= from
    ensures a in Free(taken, from, m) <==> Room(taken, from, a) < m
    decreases m, Above(taken) - from
  {
    if m > 0 {
      if from in taken {
        FreeMember(taken, from + 1, m, a);
      } else if from < a {
        FreeMember(taken, from + 1, m - 1, a);
      }
    }
  }

  /** The given ancillas leave enough free indices below each of them for the missing ones. */
  predicate Completes(d: Wires) {
    forall a :: a in d.anc ==> Room(d.states + d.score, 0, a) >= |d.states| - 1 - |d.anc|
  }

  /** Given ancillas, outside the registers and all different, with a place for them on the ladder. */
  predicate Given(d: Wires) {
    && d.Registers() && d.useAncilla && |d.states| >= 2 && |d.anc| < |d.states|
    && Distinct(d.anc) && Disjoint(d.states, d.anc) && Disjoint(d.score, d.anc)
  }

  lemma MissingMember(d: Wires, a: Qubit)
    requires Given(d) && a in d.anc
    ensures a in Missing(d) <==> Room(d.states + d.score, 0, a) < |d.states| - 1 - |d.anc|
  {
    assert a !in d.states + d.score;
    if |d.anc| < |d.states| - 1 { FreeMember(d.states + d.score, 0, |d.states| - 1 - |d.anc|, a); }
  }

  lemma MissingOutside(d: Wires)
    requires Given(d)
    ensures |d.anc + Missing(d)| == |d.states| - 1 && Distinct(Missing(d))
    ensures Disjoint(d.states, d.anc + Missing(d)) && Disjoint(d.score, d.anc + Missing(d))
  {
    assert forall q :: q in Missing(d) ==> q !in d.states + d.score;
  }

  /** The completed list suffices for the ladder if and only if the given ancillas leave that room. */
  lemma CompletionSuffices(d: Wires)
    requires Given(d)
    ensures Equipped(d).Fits()
    ensures L.Sufficient(d.states, Equipped(d).anc) <==> Completes(d)
  {
    var more := Missing(d);
    var anc := d.anc + more;
    MissingOutside(d);
    forall a | a in d.anc
      ensures a in more <==> Room(d.states + d.score, 0, a) < |d.states| - 1 - |d.anc|
    {
      MissingMember(d, a);
    }
    assert anc[..|d.states| - 1] == anc;
    if Completes(d) {
      DistinctConcat(d.anc, more);
    } else {
      var a :| a in d.anc && a in more;
      var i :| 0 <= i < |d.anc| && d.anc[i] == a;
      var j :| 0 <= j < |more| && more[j] == a;
      assert anc[i] == anc[|d.anc| + j];
    }
  }

  /**
   * The gates emitted with the completed list are gates, none with its target among its controls, if and only
   * if the lowest free index is not the last of the given ancillas.
   */
  lemma CompletionValid(d: Wires)
    requires Given(d)
    ensures Equipped(d).Valid()
       <==> (0 < |d.anc| < |d.states| - 1 ==> Room(d.states + d.score, 0, d.anc[|d.anc| - 1]) > 0)
  {
    var more := Missing(d);
    var anc, m := d.anc + more, |d.anc|;
    MissingOutside(d);
    if 0 < m < |d.states| - 1 {
      var last := d.anc[m - 1];
      assert last in d.anc && last !in d.states + d.score;
      assert anc[m - 1] == last && anc[m] == more[0];
      FreeFirst(d.states + d.score, 0, |more|, last);
    }
    forall k | 0 <= k < |d.states| - 2 && k + 1 != m
      ensures anc[k] != anc[k + 1]
    {
      if k + 1 < m {
        assert anc[k] == d.anc[k] && anc[k + 1] == d.anc[k + 1];
      } else {
        assert anc[k] == more[k - m] && anc[k + 1] == more[k + 1 - m];
      }
    }
  }

  lemma {:induction false} FreeFirst(taken: seq<Qubit>, from: nat, m: nat, a: nat)
    requires m >= 1 && a !in taken && a >= from
    ensures Free(taken, from, m)[0] == a <==> Room(taken, from, a) == 0
    decreases Above(taken) - from
  {
    if from in taken { FreeFirst(taken, from + 1, m, a); }
  }

  /**
   * From a list of given ancillas that is completed to gates: all scores are encoded if and only if there was room
   * and the flags among the ancillas are harmless.
   */
  lemma CompletionExact(d: Wires, e: Wires)
    requires Given(d) && e == Equipped(d) && e.Valid()
    ensures Completes(d) && (0 <= e.flagInteger < Pow2(|e.states|) ==> Harmless(e))
       <==> forall s, f :: Clean(s, e) ==> Run(EncodingGates(e, f), s) == Inverted(s, Payload(e, f, IndexOf(s, e)))
  {
    CompletionSuffices(d);
    SoundWithAncillas(e);
    EncodingExact(e);
  }

  lemma SoundWithAncillas(e: Wires)
    requires e.Valid() && e.useAncilla
    ensures Sound(e) <==> L.Sufficient(e.states, e.anc) && (0 <= e.flagInteger < Pow2(|e.states|) ==> Harmless(e))
  {}
}
