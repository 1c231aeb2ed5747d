/** A gate under many controls, by a ladder. */
module AncillaLadder {
  import opened Registers
  import opened Gates
  import opened Inverse
  import opened Footprints

  function Toffoli(a: Qubit, b: Qubit, t: Qubit): Gate {
    Controlled([a, b], [X(t)])
  }

  lemma ToffoliActs(a: Qubit, b: Qubit, t: Qubit, s: State)
    ensures Apply(Toffoli(a, b, t), s) == if a in s && b in s then Flip(s, t) else s
  {
    RunOne(X(t), s);
    assert AllOn(s, [a, b]) <==> a in s && b in s by {
      assert [a, b][0] == a && [a, b][1] == b;
    }
  }

  lemma ToffoliMentions(a: Qubit, b: Qubit, t: Qubit)
    ensures MentionsOf(Toffoli(a, b, t)) == {a, b, t}
  {
    assert Mentions([X(t)]) == {t} + Mentions([X(t)][1..]);
    assert QubitSet([a, b]) == {a, b};
  }

  // ---------------------------------------------------------------- the ladder

  /** The i-th Toffoli: it collects the controls 0..i in ancilla i - 1. */
  function Rung(controls: seq<Qubit>, anc: seq<Qubit>, i: nat): Gate
    requires 1 <= i < |controls| <= |anc| + 1
  {
    if i == 1 then Toffoli(controls[0], controls[1], anc[0]) else Toffoli(controls[i], anc[i - 2], anc[i - 1])
  }

  function Up(controls: seq<Qubit>, anc: seq<Qubit>, i: nat): seq<Gate>
    requires 1 <= i <= |controls| <= |anc| + 1
  {
    if i == 1 then [] else Up(controls, anc, i - 1) + [Rung(controls, anc, i - 1)]
  }

  function Ladder(controls: seq<Qubit>, anc: seq<Qubit>, body: seq<Gate>): seq<Gate>
    requires 2 <= |controls| <= |anc| + 1
  {
    Up(controls, anc, |controls|) + [Controlled([anc[|anc| - 1]], body)] + Reverse(Up(controls, anc, |controls|))
  }

  ghost predicate Apart(controls: seq<Qubit>, anc: seq<Qubit>) {
    Distinct(controls) && Distinct(anc) && Disjoint(controls, anc)
  }

  /** The ancillas that are on after the first i controls have been collected. */
  function Collected(s: State, controls: seq<Qubit>, anc: seq<Qubit>, i: nat): State
    requires 1 <= i <= |controls| <= |anc| + 1
  {
    set j | 0 <= j < i - 1 && AllOn(s, controls[..j + 2]) :: anc[j]
  }

  lemma AllOnSnoc(s: State, controls: seq<Qubit>, i: nat)
    requires i < |controls|
    ensures AllOn(s, controls[..i + 1]) <==> AllOn(s, controls[..i]) && controls[i] in s
  {
    assert controls[..i + 1] == controls[..i] + [controls[i]];
  }

  lemma {:induction false} UpCollects(controls: seq<Qubit>, anc: seq<Qubit>, i: nat, s: State)
    requires 1 <= i <= |controls| <= |anc| + 1 && Apart(controls, anc)
    requires forall q :: q in anc ==> q !in s
    ensures Run(Up(controls, anc, i), s) == s + Collected(s, controls, anc, i)
  {
    if i > 1 {
      var t := s + Collected(s, controls, anc, i - 1);
      UpCollects(controls, anc, i - 1, s);
      RunConcat(Up(controls, anc, i - 1), [Rung(controls, anc, i - 1)], s);
      RunOne(Rung(controls, anc, i - 1), t);
      RungCollects(controls, anc, i, s);
    }
  }

  lemma RungCollects(controls: seq<Qubit>, anc: seq<Qubit>, i: nat, s: State)
    requires 2 <= i <= |controls| <= |anc| + 1 && Apart(controls, anc)
    requires forall q :: q in anc ==> q !in s
    ensures Apply(Rung(controls, anc, i - 1), s + Collected(s, controls, anc, i - 1)) == s + Collected(s, controls, anc, i)
  {
    var before, after := Collected(s, controls, anc, i - 1), Collected(s, controls, anc, i);
    var on := AllOn(s, controls[..i]);
    AllOnSnoc(s, controls, i - 1);
    CollectedSnoc(s, controls, anc, i);
    assert anc[i - 2] in anc;
    CollectedOnly(s, controls, anc, i - 1);
    if i == 2 {
      ToffoliActs(controls[0], controls[1], anc[0], s + before);
      AllOnSnoc(s, controls, 0);
      assert controls[0] in controls && controls[1] in controls;
    } else {
      RungReads(controls, anc, i, s, before);
    }
    CollectedAt(s, controls, anc, i - 1, i - 2);
  }

  lemma RungReads(controls: seq<Qubit>, anc: seq<Qubit>, i: nat, s: State, before: State)
    requires 3 <= i <= |controls| <= |anc| + 1 && Apart(controls, anc) && forall q :: q in anc ==> q !in s
    requires before == Collected(s, controls, anc, i - 1)
    ensures Apply(Rung(controls, anc, i - 1), s + before)
         == if AllOn(s, controls[..i]) then Flip(s + before, anc[i - 2]) else s + before
  {
    ToffoliActs(controls[i - 1], anc[i - 3], anc[i - 2], s + before);
    CollectedOnly(s, controls, anc, i - 1);
    CollectedAt(s, controls, anc, i - 1, i - 3);
    AllOnSnoc(s, controls, i - 1);
    assert controls[i - 1] in controls && anc[i - 3] in anc;
  }

  lemma CollectedOnly(s: State, controls: seq<Qubit>, anc: seq<Qubit>, i: nat)
    requires 1 <= i <= |controls| <= |anc| + 1
    ensures forall q :: q in Collected(s, controls, anc, i) ==> q in anc
  {}

  lemma CollectedAt(s: State, controls: seq<Qubit>, anc: seq<Qubit>, i: nat, j: nat)
    requires 1 <= i <= |controls| <= |anc| + 1 && Distinct(anc) && j < |anc|
    ensures anc[j] in Collected(s, controls, anc, i) <==> j < i - 1 && AllOn(s, controls[..j + 2])
  {
    if anc[j] in Collected(s, controls, anc, i) {
      var k :| 0 <= k < i - 1 && AllOn(s, controls[..k + 2]) && anc[k] == anc[j];
      assert k == j;
    }
  }

  lemma CollectedSnoc(s: State, controls: seq<Qubit>, anc: seq<Qubit>, i: nat)
    requires 2 <= i <= |controls| <= |anc| + 1
    ensures Collected(s, controls, anc, i)
         == Collected(s, controls, anc, i - 1) + if AllOn(s, controls[..i]) then {anc[i - 2]} else {}
  {}

  /** No Toffoli of the ladder has its target among its controls; ancillas may be listed more than once. */
  predicate Climbs(controls: seq<Qubit>, anc: seq<Qubit>) {
    Disjoint(controls, anc) && forall k :: 0 <= k < |controls| - 2 && k + 1 < |anc| ==> anc[k] != anc[k + 1]
  }

  lemma {:induction false} UpUndone(controls: seq<Qubit>, anc: seq<Qubit>, i: nat, s: State)
    requires 1 <= i <= |controls| <= |anc| + 1 && Climbs(controls, anc)
    ensures Run(Reverse(Up(controls, anc, i)), Run(Up(controls, anc, i), s)) == s
  {
    var up := Up(controls, anc, i);
    UpLeaves(controls, anc, i);
    forall g, t | g in up
      ensures Apply(g, Apply(g, t)) == t
    {
      LeafTwice(g, t);
    }
    ReversedUndoes(up, s);
  }

  lemma {:induction false} UpLeaves(controls: seq<Qubit>, anc: seq<Qubit>, i: nat)
    requires 1 <= i <= |controls| <= |anc| + 1 && Climbs(controls, anc)
    ensures forall g :: g in Up(controls, anc, i) ==> IsLeaf(g)
  {
    if i > 1 {
      UpLeaves(controls, anc, i - 1);
      assert controls[i - 1] in controls && controls[0] in controls && anc[i - 2] in anc;
    }
  }

  /**
   * With one ancilla fewer than controls, all of them clean, the ladder applies the body when every
   * control is on and nothing otherwise; controls and ancillas are restored.
   */
  lemma LadderActs(controls: seq<Qubit>, anc: seq<Qubit>, body: seq<Gate>, s: State)
    requires |controls| >= 2 && |anc| == |controls| - 1 && Apart(controls, anc)
    requires Mentions(body) !! QubitSet(anc) && Targets(body) !! QubitSet(controls)
    requires forall q :: q in anc ==> q !in s
    ensures Run(Ladder(controls, anc, body), s) == if AllOn(s, controls) then Run(body, s) else s
  {
    var n := |controls|;
    var up, down, cu := Up(controls, anc, n), Reverse(Up(controls, anc, n)), Controlled([anc[n - 2]], body);
    var extra := Collected(s, controls, anc, n);
    RunAround(up, [cu], down, s);
    UpCollects(controls, anc, n, s);
    RunOne(cu, s + extra);
    CollectedAt(s, controls, anc, n, n - 2);
    assert controls[..n] == controls && anc[n - 2] in anc;
    UpUndone(controls, anc, n, s);
    CollectedOnly(s, controls, anc, n);
    if AllOn(s, controls) {
      assert AllOn(s + extra, [anc[n - 2]]);
      BodyBeside(controls, anc, body, s, extra);
      UpUndone(controls, anc, n, Run(body, s));
    } else {
      assert !AllOn(s + extra, [anc[n - 2]]) by { assert [anc[n - 2]][0] !in s + extra; }
    }
  }

  /** The body leaves the ladder as it found it. */
  lemma BodyBeside(controls: seq<Qubit>, anc: seq<Qubit>, body: seq<Gate>, s: State, extra: State)
    requires 1 <= |controls| <= |anc| + 1 && Apart(controls, anc)
    requires Mentions(body) !! QubitSet(anc) && Targets(body) !! QubitSet(controls)
    requires forall q :: q in anc ==> q !in s
    requires extra == Collected(s, controls, anc, |controls|)
    ensures Run(body, s + extra) == Run(Up(controls, anc, |controls|), Run(body, s))
  {
    var t := Run(body, s);
    CollectedOnly(s, controls, anc, |controls|);
    assert forall q :: q in extra ==> q in QubitSet(anc);
    RunBeside(body, s, extra);
    forall q | q in controls
      ensures q in t <==> q in s
    {
      assert q in QubitSet(controls);
      RunKeeps(body, s, q);
    }
    forall q | q in anc
      ensures q !in t
    {
      assert q in QubitSet(anc);
      TargetsMentioned(body);
      RunKeeps(body, s, q);
    }
    assert Collected(t, controls, anc, |controls|) == extra;
    UpCollects(controls, anc, |controls|, t);
  }

  /** With a further clean ancilla the body hangs on one that no rung ever switches on. */
  lemma SpareAncillaBlocks(controls: seq<Qubit>, anc: seq<Qubit>, body: seq<Gate>, s: State)
    requires |controls| >= 2 && |anc| >= |controls| && Apart(controls, anc)
    requires forall q :: q in anc ==> q !in s
    ensures Run(Ladder(controls, anc, body), s) == s
  {
    var n, last := |controls|, |anc| - 1;
    var up, cu := Up(controls, anc, n), Controlled([anc[last]], body);
    var t := s + Collected(s, controls, anc, n);
    RunAround(up, [cu], Reverse(up), s);
    UpCollects(controls, anc, n, s);
    RunOne(cu, t);
    CollectedAt(s, controls, anc, n, last);
    assert anc[last] in anc;
    assert !AllOn(t, [anc[last]]) by { assert [anc[last]][0] !in t; }
    UpUndone(controls, anc, n, s);
  }

  // ---------------------------------------------------------------- on any ancillas

  /** What ancilla i - 2 holds once the first i controls have been collected, clean ancillas or not. */
  predicate Carried(s: State, controls: seq<Qubit>, anc: seq<Qubit>, i: nat)
    requires 1 <= i <= |controls| <= |anc| + 1
  {
    if i == 1 then controls[0] in s
    else (controls[i - 1] in s && Carried(s, controls, anc, i - 1)) != (anc[i - 2] in s)
  }

  /** The ladder applies its body when this holds: the C-U hangs on the last ancilla of the list. */
  predicate Fires(s: State, controls: seq<Qubit>, anc: seq<Qubit>)
    requires 2 <= |controls| <= |anc| + 1
  {
    anc[|anc| - 1] in Run(Up(controls, anc, |controls|), s)
  }

  /** The way up changes nothing but the ancillas it has reached. */
  lemma {:induction false} UpKeeps(controls: seq<Qubit>, anc: seq<Qubit>, i: nat, s: State)
    requires 1 <= i <= |controls| <= |anc| + 1
    ensures forall q :: q !in anc[..i - 1] ==> (q in Run(Up(controls, anc, i), s) <==> q in s)
  {
    if i > 1 {
      var t := Run(Up(controls, anc, i - 1), s);
      UpKeeps(controls, anc, i - 1, s);
      UpStep(controls, anc, i, s);
      assert anc[..i - 1] == anc[..i - 2] + [anc[i - 2]];
    }
  }

  /** One rung more. */
  lemma UpStep(controls: seq<Qubit>, anc: seq<Qubit>, i: nat, s: State)
    requires 2 <= i <= |controls| <= |anc| + 1
    ensures var t := Run(Up(controls, anc, i - 1), s);
            Run(Up(controls, anc, i), s)
              == if controls[i - 1] in t && (if i == 2 then controls[0] else anc[i - 3]) in t then Flip(t, anc[i - 2]) else t
  {
    var t := Run(Up(controls, anc, i - 1), s);
    RunConcat(Up(controls, anc, i - 1), [Rung(controls, anc, i - 1)], s);
    RunOne(Rung(controls, anc, i - 1), t);
    if i == 2 {
      ToffoliActs(controls[0], controls[1], anc[0], t);
    } else {
      ToffoliActs(controls[i - 1], anc[i - 3], anc[i - 2], t);
    }
  }

  lemma {:induction false} UpCarries(controls: seq<Qubit>, anc: seq<Qubit>, i: nat, s: State)
    requires 2 <= i <= |controls| <= |anc| + 1 && Disjoint(controls, anc) && Distinct(anc[..i - 1])
    ensures anc[i - 2] in Run(Up(controls, anc, i), s) <==> Carried(s, controls, anc, i)
  {
    var t := Run(Up(controls, anc, i - 1), s);
    UpStep(controls, anc, i, s);
    UpKeeps(controls, anc, i - 1, s);
    FirstsIn(anc, i);
    assert controls[i - 1] in controls && controls[0] in controls;
    if i > 2 {
      assert anc[..i - 2] == anc[..i - 1][..i - 2];
      UpCarries(controls, anc, i - 1, s);
    }
  }

  lemma FirstsIn(anc: seq<Qubit>, i: nat)
    requires 2 <= i <= |anc| + 1 && Distinct(anc[..i - 1])
    ensures anc[i - 2] !in anc[..i - 2] && forall q :: q in anc[..i - 2] ==> q in anc
  {
    forall k | 0 <= k < i - 2
      ensures anc[k] != anc[i - 2]
    {
      assert anc[..i - 1][k] == anc[k] && anc[..i - 1][i - 2] == anc[i - 2];
    }
  }

  /** The ancillas of the rungs are different ones, and the C-U hangs on the last of them. */
  predicate Sufficient(controls: seq<Qubit>, anc: seq<Qubit>)
    requires 2 <= |controls| <= |anc| + 1
  {
    Distinct(anc[..|controls| - 1]) && anc[|anc| - 1] == anc[|controls| - 2]
  }

  lemma FiresCarried(s: State, controls: seq<Qubit>, anc: seq<Qubit>)
    requires 2 <= |controls| <= |anc| + 1 && Disjoint(controls, anc) && Sufficient(controls, anc)
    ensures Fires(s, controls, anc) <==> Carried(s, controls, anc, |controls|)
  {
    UpCarries(controls, anc, |controls|, s);
  }

  lemma {:induction false} UpMentions(controls: seq<Qubit>, anc: seq<Qubit>, i: nat)
    requires 1 <= i <= |controls| <= |anc| + 1
    ensures Mentions(Up(controls, anc, i)) <= QubitSet(controls[..i]) + QubitSet(anc)
  {
    if i > 1 {
      var g := Rung(controls, anc, i - 1);
      UpMentions(controls, anc, i - 1);
      MentionsConcat(Up(controls, anc, i - 1), [g]);
      assert Mentions([g]) == MentionsOf(g) + Mentions([g][1..]);
      assert controls[..i] == controls[..i - 1] + [controls[i - 1]];
      if i == 2 {
        assert controls[..i][0] == controls[0];
        ToffoliMentions(controls[0], controls[1], anc[0]);
      } else {
        ToffoliMentions(controls[i - 1], anc[i - 3], anc[i - 2]);
      }
    }
  }

  /** On every state, whatever the ancillas hold: the body is applied exactly when the ladder fires. */
  lemma LadderRuns(controls: seq<Qubit>, anc: seq<Qubit>, body: seq<Gate>, s: State)
    requires 2 <= |controls| <= |anc| + 1 && Climbs(controls, anc)
    requires Mentions(body) !! QubitSet(controls) + QubitSet(anc)
    ensures Run(Ladder(controls, anc, body), s) == if Fires(s, controls, anc) then Run(body, s) else s
  {
    var n, last := |controls|, |anc| - 1;
    var up, cu := Up(controls, anc, n), Controlled([anc[last]], body);
    var t := Run(up, s);
    RunAround(up, [cu], Reverse(up), s);
    RunOne(cu, t);
    assert AllOn(t, [anc[last]]) <==> anc[last] in t by { assert [anc[last]][0] == anc[last]; }
    assert controls[..n] == controls;
    UpMentions(controls, anc, n);
    RunCommute(body, up, s);
    UpUndone(controls, anc, n, s);
    UpUndone(controls, anc, n, Run(body, s));
  }

  lemma FiresAgree(s: State, t: State, controls: seq<Qubit>, anc: seq<Qubit>)
    requires 2 <= |controls| <= |anc| + 1
    requires forall q :: q in controls || q in anc ==> (q in s <==> q in t)
    ensures Fires(s, controls, anc) == Fires(t, controls, anc)
  {
    var up, own := Up(controls, anc, |controls|), QubitSet(controls) + QubitSet(anc);
    assert controls[..|controls|] == controls;
    UpMentions(controls, anc, |controls|);
    RunApart(up, s, own);
    RunApart(up, t, own);
    assert s * own == t * own;
    assert anc[|anc| - 1] in own;
  }

  /** The number of ancillas that are on, among the first m, is odd. */
  predicate OddlyMany(s: State, anc: seq<Qubit>, m: nat)
    requires m <= |anc|
  {
    m > 0 && OddlyMany(s, anc, m - 1) != (anc[m - 1] in s)
  }

  /** Ancillas that are on go unnoticed below controls that are all on, if there is an even number of them. */
  lemma {:induction false} CarriedEvenly(s: State, controls: seq<Qubit>, anc: seq<Qubit>, i: nat)
    requires 1 <= i <= |controls| <= |anc| + 1
    requires forall m :: 0 <= m < i - 1 && anc[m] in s ==> AllOn(s, controls[..m + 2])
    ensures Carried(s, controls, anc, i) <==> AllOn(s, controls[..i]) && !OddlyMany(s, anc, i - 1)
  {
    AllOnSnoc(s, controls, i - 1);
    if i > 1 { CarriedEvenly(s, controls, anc, i - 1); }
  }

  /** An ancilla that is on and whose control is off stands in for the controls so far. */
  lemma {:induction false} CarriedFalsely(s: State, controls: seq<Qubit>, anc: seq<Qubit>, m: nat, i: nat)
    requires m + 2 <= i <= |controls| <= |anc| + 1
    requires anc[m] in s && controls[m + 1] !in s
    requires forall j :: m < j < i - 1 ==> anc[j] !in s && controls[j + 1] in s
    ensures Carried(s, controls, anc, i)
  {
    if i > m + 2 { CarriedFalsely(s, controls, anc, m, i - 1); }
  }

  lemma {:induction false} NoneOdd(s: State, anc: seq<Qubit>, m: nat)
    requires m <= |anc| && forall j :: 0 <= j < m ==> anc[j] !in s
    ensures !OddlyMany(s, anc, m)
  {
    if m > 0 { NoneOdd(s, anc, m - 1); }
  }

  // ---------------------------------------------------------------- on any list of clean ancillas

  /** Every ancilla can be switched on by the controls up to its own. */
  lemma {:induction false} Reach(controls: seq<Qubit>, anc: seq<Qubit>, i: nat) returns (s: State)
    requires i + 2 <= |controls| <= |anc| + 1 && Distinct(controls) && Disjoint(controls, anc)
    ensures forall q :: q in s ==> q in controls[..i + 2]
    ensures anc[i] in Run(Up(controls, anc, i + 2), s)
  {
    if i == 0 {
      s := {controls[0], controls[1]};
      assert controls[..2][0] == controls[0] && controls[..2][1] == controls[1];
      assert anc[0] in anc && controls[0] in controls && controls[1] in controls;
      UpStep(controls, anc, 2, s);
    } else {
      s := Reach(controls, anc, i - 1);
      var t, c := Run(Up(controls, anc, i + 1), s), controls[i + 1];
      NextOutside(controls, anc, i + 1);
      UpKeeps(controls, anc, i + 1, s);
      assert c in controls && controls[..i + 2] == controls[..i + 1] + [c];
      if anc[i] !in t {
        UpBeside(controls, anc, i + 1, s, {c});
        s := s + {c};
      }
      UpStep(controls, anc, i + 2, s);
    }
  }

  lemma NextOutside(controls: seq<Qubit>, anc: seq<Qubit>, i: nat)
    requires i < |controls| && Distinct(controls) && Disjoint(controls, anc)
    ensures controls[i] !in controls[..i] && controls[i] !in anc
    ensures forall j: nat :: j <= |anc| ==> controls[i] !in anc[..j]
  {
    assert controls[i] in controls;
  }

  /** Controls that have not been read yet make no difference. */
  lemma UpBeside(controls: seq<Qubit>, anc: seq<Qubit>, i: nat, s: State, extra: State)
    requires 1 <= i <= |controls| <= |anc| + 1 && s !! extra
    requires forall q :: q in extra ==> q !in controls[..i] && q !in anc
    ensures Run(Up(controls, anc, i), s + extra) == Run(Up(controls, anc, i), s) + extra
  {
    UpMentions(controls, anc, i);
    RunBeside(Up(controls, anc, i), s, extra);
  }

  /** While the controls are off, nothing happens. */
  lemma {:induction false} StaysPut(controls: seq<Qubit>, anc: seq<Qubit>, i: nat, k: nat, s: State)
    requires 2 <= i <= k <= |controls| <= |anc| + 1 && Disjoint(controls, anc)
    requires forall c :: i <= c < k ==> controls[c] !in s
    ensures Run(Up(controls, anc, k), s) == Run(Up(controls, anc, i), s)
  {
    if i < k {
      StaysPut(controls, anc, i, k - 1, s);
      UpStep(controls, anc, k, s);
      UpKeeps(controls, anc, k - 1, s);
      assert controls[k - 1] in controls;
    }
  }

  /** From an ancilla that is on, controls that are on lead further up over ancillas not met before. */
  lemma {:induction false} GoesOn(controls: seq<Qubit>, anc: seq<Qubit>, j: nat, k: nat, s: State)
    requires j + 2 <= k <= |controls| <= |anc| + 1 && Disjoint(controls, anc) && forall q :: q in anc ==> q !in s
    requires anc[j] in Run(Up(controls, anc, j + 2), s)
    requires forall c :: j + 2 <= c < k ==> controls[c] in s
    requires forall m :: j < m < k - 1 ==> anc[m] !in anc[..m]
    ensures anc[k - 2] in Run(Up(controls, anc, k), s)
  {
    if j + 2 < k {
      GoesOn(controls, anc, j, k - 1, s);
      UpStep(controls, anc, k, s);
      UpKeeps(controls, anc, k - 1, s);
      assert controls[k - 1] in controls && anc[k - 2] in anc;
      assert forall q :: q in anc[..k - 2] ==> q in anc;
    }
  }

  /** The last place at which an ancilla is repeated. */
  lemma {:induction false} LastRepeat(anc: seq<Qubit>, m: nat) returns (i: nat, j: nat)
    requires m <= |anc| && !Distinct(anc[..m])
    ensures i < j < m && anc[i] == anc[j] && forall k :: j < k < m ==> anc[k] !in anc[..k]
  {
    if anc[m - 1] in anc[..m - 1] {
      i :| 0 <= i < m - 1 && anc[..m - 1][i] == anc[m - 1];
      j := m - 1;
    } else {
      assert anc[..m] == anc[..m - 1] + [anc[m - 1]];
      i, j := LastRepeat(anc, m - 1);
    }
  }

  /** A state that switches on an ancilla met again at j, and all controls from j + 2 on, but not control j + 1. */
  lemma RepeatFires(controls: seq<Qubit>, anc: seq<Qubit>, i: nat, j: nat) returns (s: State)
    requires 2 <= |controls| <= |anc| + 1 && Distinct(controls) && Disjoint(controls, anc)
    requires i < j < |controls| - 1 && anc[i] == anc[j]
    requires forall k :: j < k < |controls| - 1 ==> anc[k] !in anc[..k]
    ensures (forall q :: q in s ==> q in controls) && controls[j + 1] !in s
    ensures anc[|controls| - 2] in Run(Up(controls, anc, |controls|), s)
  {
    var low := Reach(controls, anc, i);
    var high := QubitSet(controls[j + 2..]);
    s := low + high;
    SplitControls(controls, i + 2, j + 2, low);
    StillOn(controls, anc, i, j, low, high);
    GoesOn(controls, anc, j, |controls|, s);
  }

  /** The earlier occurrence of the ancilla stays on until it is met again. */
  lemma StillOn(controls: seq<Qubit>, anc: seq<Qubit>, i: nat, j: nat, low: State, high: State)
    requires 2 <= |controls| <= |anc| + 1 && Disjoint(controls, anc) && i < j < |controls| - 1
    requires low !! high && forall q :: q in high ==> q in controls && q !in controls[..i + 2]
    requires forall c :: i + 2 <= c < j + 2 ==> controls[c] !in low + high
    requires anc[i] in Run(Up(controls, anc, i + 2), low)
    ensures anc[i] in Run(Up(controls, anc, j + 2), low + high)
  {
    UpBeside(controls, anc, i + 2, low, high);
    StaysPut(controls, anc, i + 2, j + 2, low + high);
  }

  lemma SplitControls(controls: seq<Qubit>, i: nat, j: nat, low: State)
    requires i < j <= |controls| && Distinct(controls) && forall q :: q in low ==> q in controls[..i]
    ensures forall q :: q in QubitSet(controls[j..]) ==> q in controls && q !in controls[..i] && q !in low
    ensures forall q :: q in low ==> q in controls
    ensures forall c :: i <= c < j ==> controls[c] !in low && controls[c] !in QubitSet(controls[j..])
    ensures forall c :: j <= c < |controls| ==> controls[c] in QubitSet(controls[j..])
  {
    forall c | j <= c < |controls|
      ensures controls[c] in QubitSet(controls[j..])
    {
      assert controls[j..][c - j] == controls[c];
    }
  }

  /** On insufficient ancillas, all clean, the ladder fires on some controls when it should not or fails to. */
  lemma FiresWrongly(controls: seq<Qubit>, anc: seq<Qubit>) returns (s: State)
    requires 2 <= |controls| <= |anc| + 1 && Distinct(controls) && Disjoint(controls, anc) && !Sufficient(controls, anc)
    ensures (forall q :: q in s ==> q in controls) && (Fires(s, controls, anc) <==> !AllOn(s, controls))
  {
    var n, last := |controls|, anc[|anc| - 1];
    assert last in anc;
    if last !in anc[..n - 1] {
      s := QubitSet(controls);
      UpKeeps(controls, anc, n, s);
    } else if last != anc[n - 2] {
      var m :| 0 <= m < n - 1 && anc[..n - 1][m] == last;
      s := Reach(controls, anc, m);
      assert forall k :: m + 2 <= k < n ==> controls[k] !in controls[..m + 2];
      StaysPut(controls, anc, m + 2, n, s);
      assert controls[n - 1] in controls;
    } else {
      var i, j := LastRepeat(anc, n - 1);
      s := RepeatFires(controls, anc, i, j);
      assert controls[j + 1] in controls;
    }
  }

  /** With clean ancillas the ladder fires exactly when all controls are on, if and only if they suffice. */
  lemma LadderExact(controls: seq<Qubit>, anc: seq<Qubit>)
    requires 2 <= |controls| <= |anc| + 1 && Distinct(controls) && Disjoint(controls, anc)
    ensures Sufficient(controls, anc)
       <==> forall s :: (forall q :: q in anc ==> q !in s) ==> (Fires(s, controls, anc) <==> AllOn(s, controls))
  {
    if Sufficient(controls, anc) {
      forall s: State | forall q :: q in anc ==> q !in s
        ensures Fires(s, controls, anc) <==> AllOn(s, controls)
      {
        FiresClean(controls, anc, s);
      }
    } else {
      var s := FiresWrongly(controls, anc);
      assert forall q :: q in anc ==> q !in s;
    }
  }

  lemma FiresClean(controls: seq<Qubit>, anc: seq<Qubit>, s: State)
    requires 2 <= |controls| <= |anc| + 1 && Disjoint(controls, anc) && Sufficient(controls, anc)
    requires forall q :: q in anc ==> q !in s
    ensures Fires(s, controls, anc) <==> AllOn(s, controls)
  {
    FiresCarried(s, controls, anc);
    assert forall m :: 0 <= m < |anc| ==> anc[m] in anc;
    CarriedEvenly(s, controls, anc, |controls|);
    NoneOdd(s, anc, |controls| - 1);
    assert controls[..|controls|] == controls;
  }

  /** The rungs are gates, none with its target among its controls, if and only if no two neighbours are the same. */
  lemma {:induction false} UpWellFormed(controls: seq<Qubit>, anc: seq<Qubit>, i: nat)
    requires 1 <= i <= |controls| <= |anc| + 1 && Disjoint(controls, anc)
    ensures WellFormed(Up(controls, anc, i)) <==> forall k :: 0 <= k < i - 2 ==> anc[k] != anc[k + 1]
  {
    if i > 1 {
      var g := Rung(controls, anc, i - 1);
      UpWellFormed(controls, anc, i - 1);
      WellFormedConcat(Up(controls, anc, i - 1), [g]);
      assert [g][1..] == [] && WellFormed([g]) == WellFormedGate(g);
      assert controls[0] in controls && controls[i - 1] in controls && anc[i - 2] in anc;
      if i == 2 {
        ToffoliWellFormed(controls[0], controls[1], anc[0]);
      } else {
        ToffoliWellFormed(controls[i - 1], anc[i - 3], anc[i - 2]);
      }
    }
  }

  lemma ToffoliWellFormed(a: Qubit, b: Qubit, t: Qubit)
    ensures WellFormedGate(Toffoli(a, b, t)) <==> t != a && t != b
  {
    var body, none: seq<Gate> := [X(t)], [];
    assert body[0] == X(t) && body[1..] == none;
    assert WellFormed(none) && WellFormedGate(X(t));
    assert WellFormed(body);
    assert Targets(body) == TargetsOf(body[0]) + Targets(body[1..]);
    assert Targets(body) == {t};
    assert [a, b][0] == a && [a, b][1] == b;
  }

  // ---------------------------------------------------------------- MultiControlledUWithAncilla::expand

  method ExpandAncillaLadder(circuit: Composite, controls: seq<Qubit>, anc: seq<Qubit>, body: seq<Gate>)
    requires 2 <= |controls| <= |anc| + 1
    modifies circuit
    ensures circuit.instructions == old(circuit.instructions) + Ladder(controls, anc, body)
  {
    ghost var before, n := circuit.instructions, |controls|;
    circuit.AddInstruction(Toffoli(controls[0], controls[1], anc[0]));
    var i := 2;
    while i < |controls|
      invariant 2 <= i <= n
      invariant circuit.instructions == before + Up(controls, anc, i)
    {
      circuit.AddInstruction(Toffoli(controls[i], anc[i - 2], anc[i - 1]));
      i := i + 1;
    }
    circuit.AddInstruction(Controlled([anc[|anc| - 1]], body));
    Descend(circuit, controls, anc);
    Associate(before, Up(controls, anc, n), [Controlled([anc[|anc| - 1]], body)], Reverse(Up(controls, anc, n)));
  }

  method Descend(circuit: Composite, controls: seq<Qubit>, anc: seq<Qubit>)
    requires 2 <= |controls| <= |anc| + 1
    modifies circuit
    ensures circuit.instructions == old(circuit.instructions) + Reverse(Up(controls, anc, |controls|))
  {
    ghost var whole := circuit.instructions + Reverse(Up(controls, anc, |controls|));
    var i := |controls| - 1;
    while i > 1
      invariant 1 <= i <= |controls| - 1
      invariant circuit.instructions + Reverse(Up(controls, anc, i + 1)) == whole
    {
      ReverseSnoc(Up(controls, anc, i), Rung(controls, anc, i));
      assert circuit.instructions + ([Rung(controls, anc, i)] + Reverse(Up(controls, anc, i)))
          == circuit.instructions + [Rung(controls, anc, i)] + Reverse(Up(controls, anc, i));
      circuit.AddInstruction(Toffoli(controls[i], anc[i - 2], anc[i - 1]));
      i := i - 1;
    }
    assert Up(controls, anc, 2) == [Rung(controls, anc, 1)];
    assert Reverse([Rung(controls, anc, 1)]) == [Rung(controls, anc, 1)];
    circuit.AddInstruction(Toffoli(controls[0], controls[1], anc[0]));
  }
}
