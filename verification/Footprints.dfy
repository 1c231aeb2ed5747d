/**
 * The qubits a circuit mentions: it neither changes nor looks at any other, and circuits that mention
 * different qubits commute.
 */
module Footprints {
  import opened Registers
  import opened Gates
  import opened Inverse

  function Mentions(gs: seq<Gate>): set<Qubit>
    decreases gs, 0
  {
    if gs == [] then {} else MentionsOf(gs[0]) + Mentions(gs[1..])
  }

  function MentionsOf(g: Gate): set<Qubit>
    decreases g, 1
  {
    match g
    case X(t) => {t}
    case CX(c, t) => {c, t}
    case Swap(a, b) => {a, b}
    case Controlled(controls, body) => QubitSet(controls) + Mentions(body)
    case Block(body) => Mentions(body)
  }

  /** Qubits that a circuit does not mention make no difference to what it does to the others. */
  lemma {:induction false} RunBeside(gs: seq<Gate>, s: State, extra: State)
    requires Mentions(gs) !! extra && s !! extra
    ensures Run(gs, s + extra) == Run(gs, s) + extra && Run(gs, s) !! extra
    decreases gs, 0
  {
    if gs != [] {
      ApplyBeside(gs[0], s, extra);
      RunBeside(gs[1..], Apply(gs[0], s), extra);
    }
  }

  lemma {:induction false} ApplyBeside(g: Gate, s: State, extra: State)
    requires MentionsOf(g) !! extra && s !! extra
    ensures Apply(g, s + extra) == Apply(g, s) + extra && Apply(g, s) !! extra
    decreases g, 1
  {
    match g
    case X(t) =>
    case CX(c, t) =>
    case Swap(a, b) =>
    case Controlled(controls, body) =>
      assert forall q :: q in controls ==> q in QubitSet(controls) && q !in extra;
      assert AllOn(s + extra, controls) <==> AllOn(s, controls);
      RunBeside(body, s, extra);
    case Block(body) => RunBeside(body, s, extra);
  }

  lemma {:induction false} XLayerMentions(reg: seq<Qubit>)
    ensures Mentions(XLayer(reg)) == Targets(XLayer(reg)) == QubitSet(reg)
  {
    if reg != [] {
      XLayerMentions(reg[1..]);
      assert XLayer(reg)[1..] == XLayer(reg[1..]);
      assert QubitSet(reg) == {reg[0]} + QubitSet(reg[1..]);
    }
  }

  lemma FlipBeside(gs: seq<Gate>, s: State, q: Qubit)
    requires q !in Mentions(gs)
    ensures Run(gs, Flip(s, q)) == Flip(Run(gs, s), q)
  {
    var t := s - {q};
    RunBeside(gs, t, {q});
    assert t + {q} == if q in s then s else Flip(s, q);
    assert t == if q in s then Flip(s, q) else s;
  }

  lemma {:induction false} MentionsConcat(a: seq<Gate>, b: seq<Gate>)
    ensures Mentions(a + b) == Mentions(a) + Mentions(b)
  {
    if a == [] {
      assert a + b == b;
    } else {
      assert (a + b)[1..] == a[1..] + b;
      MentionsConcat(a[1..], b);
    }
  }

  lemma {:induction false} TargetsMentioned(gs: seq<Gate>)
    ensures Targets(gs) <= Mentions(gs)
    decreases gs, 0
  {
    if gs != [] {
      TargetMentioned(gs[0]);
      TargetsMentioned(gs[1..]);
    }
  }

  lemma {:induction false} TargetMentioned(g: Gate)
    ensures TargetsOf(g) <= MentionsOf(g)
    decreases g, 1
  {
    match g
    case X(t) =>
    case CX(c, t) =>
    case Swap(a, b) =>
    case Controlled(controls, body) => TargetsMentioned(body);
    case Block(body) => TargetsMentioned(body);
  }

  /** What a circuit does to a state it does to the qubits it mentions; the others stay as they are. */
  lemma RunApart(gs: seq<Gate>, s: State, own: set<Qubit>)
    requires Mentions(gs) <= own
    ensures Run(gs, s) == Run(gs, s * own) + (s - own) && Run(gs, s * own) <= own
  {
    RunBeside(gs, s * own, s - own);
    assert s * own + (s - own) == s;
    forall q | q in Run(gs, s * own)
      ensures q in own
    {
      TargetsMentioned(gs);
      if q !in own { RunKeeps(gs, s * own, q); }
    }
  }

  /** Circuits that mention different qubits may change places. */
  lemma RunCommute(a: seq<Gate>, b: seq<Gate>, s: State)
    requires Mentions(a) !! Mentions(b)
    ensures Run(a, Run(b, s)) == Run(b, Run(a, s))
  {
    var m := Mentions(b);
    var x, y := s - m, s * m;
    RunApart(b, s, m);
    RunMissing(a, x, m);
    RunBeside(a, x, Run(b, y));
    RunBeside(a, x, y);
    assert x + y == s && Run(b, y) + x == x + Run(b, y);
    RunApart(b, Run(a, s), m);
    assert (Run(a, x) + y) * m == y && (Run(a, x) + y) - m == Run(a, x);
  }

  lemma RunMissing(gs: seq<Gate>, s: State, others: set<Qubit>)
    requires Mentions(gs) !! others && s !! others
    ensures Run(gs, s) !! others
  {
    RunBeside(gs, s, others);
  }
}
