/**
 * The gate deferral pass, step by step: its state, what every instruction makes of it, and what
 * the circuit written so far and the gates held back stand for together.
 */
module DeferralSteps {
  import opened Observables
  import opened PauliPicture
  import opened CommutationRules
  import opened HeldGates

  /** What was emitted so far, and what is held back on each qubit. */
  datatype Deferral = Deferral(emitted: seq<Gate>, held: seq<Held>) {
    predicate Tidy() {
      forall i :: 0 <= i < |held| ==> held[i].Tidy()
    }

    /** The circuit this stands for. */
    function Circuit(): seq<Gate> {
      emitted + Layers(held)
    }
  }

  /** The instructions of an input circuit; T and Tdg carry the angle of an eighth turn. */
  datatype Op =
    | I(q: nat)
    | H(q: nat)
    | X(q: nat)
    | Y(q: nat)
    | Z(q: nat)
    | S(q: nat)
    | Sdg(q: nat)
    | T(q: nat, eighth: Angle)
    | Tdg(q: nat, eighth: Angle)
    | Rx(q: nat, angle: Angle)
    | Ry(q: nat, angle: Angle)
    | Rz(q: nat, angle: Angle)
    | U(q: nat, theta: Angle, phi: Angle, lambda: Angle)
    | CNOT(c: nat, t: nat)
    | CY(c: nat, t: nat)
    | CZ(c: nat, t: nat)
    | SWAP(c: nat, t: nat)

  /** What an instruction means, up to a global phase. */
  function Meaning(op: Op): seq<Gate> {
    match op
    case I(_) => []
    case H(q) => [Gate.H(q)]
    case X(q) => [Gate.X(q)]
    case Y(q) => [Gate.Y(q)]
    case Z(q) => [Gate.Z(q)]
    case S(q) => [U1(q, QUARTER_TURN)]
    case Sdg(q) => [U1(q, QUARTER_TURN.Minus())]
    case T(q, eighth) => [U1(q, eighth)]
    case Tdg(q, eighth) => [U1(q, eighth.Minus())]
    case Rx(q, a) => [Gate.Rx(q, a)]
    case Ry(q, a) => [Gate.Ry(q, a)]
    case Rz(q, a) => [U1(q, a)]
    case U(q, theta, phi, lambda) => [U1(q, lambda), Gate.Ry(q, theta), U1(q, phi)]
    case CNOT(c, t) => [Gate.CNOT(c, t)]
    case CY(c, t) => [Gate.CY(c, t)]
    case CZ(c, t) => [Gate.CZ(c, t)]
    case SWAP(c, t) => [Swap(c, t)]
  }

  predicate Within(op: Op, n: nat) {
    if op.CNOT? || op.CY? || op.CZ? || op.SWAP? then op.c < n && op.t < n && op.c != op.t else op.q < n
  }

  // ---------------------------------------------------------------- single steps

  function Emit(d: Deferral, gates: seq<Gate>): Deferral {
    Deferral(d.emitted + gates, d.held)
  }

  /** Everything held on qubit q is released. */
  function Release(d: Deferral, q: nat): Deferral
    requires q < |d.held|
  {
    Deferral(d.emitted + LayerOf(d.held[q], q), d.held[q := NOTHING])
  }

  /** Everything but the turn about y is released. */
  function ReleaseToRx(d: Deferral, q: nat): Deferral
    requires q < |d.held|
  {
    var p := d.held[q];
    Deferral(d.emitted + HPart(p, q) + XPart(p, q), d.held[q := NOTHING.(ry := p.ry, ay := p.ay)])
  }

  function Reversed(queued: bool, a: Angle): Angle {
    if queued then a.Minus() else a
  }

  function StepH(d: Deferral, q: nat): Deferral
    requires q < |d.held|
  {
    var p := d.held[q];
    var p1 := p.(ay := Reversed(p.ry, p.ay));
    if p.rx then Deferral(d.emitted + HPart(p, q) + XPart(p, q), d.held[q := Held(true, false, NO_TURN, p.ry, p1.ay)])
    else d.(held := d.held[q := p1.(h := !p.h)])
  }

  function StepX(d: Deferral, q: nat): Deferral
    requires q < |d.held|
  {
    var p := d.held[q];
    Deferral(d.emitted + [if p.h then Gate.Z(q) else Gate.X(q)], d.held[q := p.(ay := Reversed(p.ry, p.ay))])
  }

  function StepY(d: Deferral, q: nat): Deferral
    requires q < |d.held|
  {
    var p := d.held[q];
    Deferral(d.emitted + [Gate.Y(q)], d.held[q := p.(ax := Reversed(p.rx, p.ax))])
  }

  function StepZ(d: Deferral, q: nat): Deferral
    requires q < |d.held|
  {
    var p := d.held[q];
    Deferral(d.emitted + [if p.h then Gate.X(q) else Gate.Z(q)],
             d.held[q := p.(ax := Reversed(p.rx, p.ax), ay := Reversed(p.ry, p.ay))])
  }

  /** A phase passes nothing: all that is held on its qubit goes first. */
  function StepPhase(d: Deferral, q: nat, a: Angle): Deferral
    requires q < |d.held|
  {
    Emit(Release(d, q), [U1(q, a)])
  }

  function StepRy(d: Deferral, q: nat, a: Angle): Deferral
    requires q < |d.held|
  {
    d.(held := d.held[q := d.held[q].(ry := true, ay := d.held[q].ay.Plus(a))])
  }

  function StepRx(d: Deferral, q: nat, a: Angle): Deferral
    requires q < |d.held|
  {
    var e := if d.held[q].ry then Release(d, q) else d;
    e.(held := e.held[q := e.held[q].(rx := true, ax := e.held[q].ax.Plus(a))])
  }

  /** What a CNOT releases before it is queued. */
  function BeforeCNOT(d: Deferral, c: nat, t: nat): Deferral
    requires c < |d.held| && t < |d.held|
  {
    var pc, pt := d.held[c], d.held[t];
    var e := if pc.ry || pc.rx || (pc.h && !pt.h) then Release(d, c) else d;
    if e.held[t].ry then Release(e, t) else e
  }

  function QueueCNOT(d: Deferral, c: nat, t: nat): Deferral
    requires c < |d.held| && t < |d.held|
  {
    Emit(d, [if !d.held[t].h then Gate.CNOT(c, t) else if d.held[c].h then Gate.CNOT(t, c) else Gate.CZ(c, t)])
  }

  function StepCNOT(d: Deferral, c: nat, t: nat): Deferral
    requires c < |d.held| && t < |d.held|
  {
    QueueCNOT(BeforeCNOT(d, c, t), c, t)
  }

  function StepCY(d: Deferral, c: nat, t: nat): Deferral
    requires c < |d.held| && t < |d.held| && c != t
  {
    var e := Release(d, c);
    var e' := if e.held[t].rx then ReleaseToRx(e, t) else e;
    Emit(e', (if e'.held[t].h then [Gate.Z(c)] else []) + [Gate.CY(c, t)])
  }

  function Count(p: Held): nat {
    (if p.ry || p.rx then 2 else 0) + if p.h then 1 else 0
  }

  /** What a CZ becomes on its way before a single held H, if there is one. */
  function PastSingleH(pc: Held, pt: Held, c: nat, t: nat): Gate {
    if pc.h then Gate.CNOT(t, c) else if pt.h then Gate.CNOT(c, t) else Gate.CZ(c, t)
  }

  function StepCZ(d: Deferral, c: nat, t: nat): Deferral
    requires c < |d.held| && t < |d.held|
  {
    var count := Count(d.held[c]) + Count(d.held[t]);
    if count > 1 then Emit(Release(Release(d, c), t), [Gate.CZ(c, t)])
    else Emit(d, [PastSingleH(d.held[c], d.held[t], c, t)])
  }

  function StepSwap(d: Deferral, c: nat, t: nat): Deferral
    requires c < |d.held| && t < |d.held|
  {
    Deferral(d.emitted + [if c > t then Swap(t, c) else Swap(c, t)], d.held[c := d.held[t]][t := d.held[c]])
  }

  function Step(d: Deferral, op: Op): (d': Deferral)
    requires Within(op, |d.held|)
    ensures |d'.held| == |d.held|
  {
    match op
    case I(_) => d
    case H(q) => StepH(d, q)
    case X(q) => StepX(d, q)
    case Y(q) => StepY(d, q)
    case Z(q) => StepZ(d, q)
    case S(q) => StepPhase(d, q, QUARTER_TURN)
    case Sdg(q) => StepPhase(d, q, QUARTER_TURN.Minus())
    case T(q, eighth) => StepPhase(d, q, eighth)
    case Tdg(q, eighth) => StepPhase(d, q, eighth.Minus())
    case Rx(q, a) => StepRx(d, q, a)
    case Ry(q, a) => StepRy(d, q, a)
    case Rz(q, a) => StepPhase(d, q, a)
    case U(q, theta, phi, lambda) => StepPhase(StepRy(StepPhase(d, q, lambda), q, theta), q, phi)
    case CNOT(c, t) => StepCNOT(d, c, t)
    case CY(c, t) => StepCY(d, c, t)
    case CZ(c, t) => StepCZ(d, c, t)
    case SWAP(c, t) => StepSwap(d, c, t)
  }

  // ---------------------------------------------------------------- local steps

  /** d' stands for what d stands for, followed by gates. */
  ghost predicate Takes(d: Deferral, gates: seq<Gate>, d': Deferral) {
    Same(d.Circuit() + gates, d'.Circuit())
  }

  lemma Behind(before: seq<Gate>, layers: seq<Gate>, gates: seq<Gate>, emitted: seq<Gate>, layers': seq<Gate>)
    requires Same(layers + gates, emitted + layers')
    ensures Same(before + layers + gates, before + emitted + layers')
  {
    Rewrite(Pull, before + layers + gates, before + emitted + layers', before, layers + gates, emitted + layers', []);
  }

  lemma TakesOne(d: Deferral, q: nat, gates: seq<Gate>, emitted: seq<Gate>, p': Held)
    requires q < |d.held| && AllOn(emitted, q) && Same(LayerOf(d.held[q], q) + gates, emitted + LayerOf(p', q))
    ensures Takes(d, gates, Deferral(d.emitted + emitted, d.held[q := p']))
  {
    StepOne(d.held, q, p', gates, emitted);
    Behind(d.emitted, Layers(d.held), gates, emitted, Layers(d.held[q := p']));
  }

  lemma TakesTwo(d: Deferral, c: nat, t: nat, gates: seq<Gate>, emitted: seq<Gate>, pc: Held, pt: Held)
    requires c < |d.held| && t < |d.held| && c != t && AllWithin(emitted, c, t)
    requires Same(LayerOf(d.held[c], c) + LayerOf(d.held[t], t) + gates, emitted + (LayerOf(pc, c) + LayerOf(pt, t)))
    ensures Takes(d, gates, Deferral(d.emitted + emitted, d.held[c := pc][t := pt]))
  {
    StepTwo(d.held, c, t, pc, pt, gates, emitted);
    Behind(d.emitted, Layers(d.held), gates, emitted, Layers(d.held[c := pc][t := pt]));
  }

  lemma Chain(x: seq<Gate>, a: seq<Gate>, y: seq<Gate>, b: seq<Gate>, z: seq<Gate>)
    requires Same(x + a, y) && Same(y + b, z)
    ensures Same(x + (a + b), z)
  {
    Rewrite(Pull, x + (a + b), y + b, [], x + a, y, b);
  }

  lemma TakesTrans(d: Deferral, a: seq<Gate>, e: Deferral, b: seq<Gate>, d': Deferral)
    requires Takes(d, a, e) && Takes(e, b, d')
    ensures Takes(d, a + b, d')
  {
    Chain(d.Circuit(), a, e.Circuit(), b, d'.Circuit());
  }

  /** Gates that pass the three parts of a layer one after the other pass the layer. */
  lemma PassParts(a: seq<Gate>, b: seq<Gate>, c: seq<Gate>, a': seq<Gate>, b': seq<Gate>, c': seq<Gate>,
                  g: seq<Gate>, g1: seq<Gate>, g2: seq<Gate>, g3: seq<Gate>)
    requires Same(c + g, g1 + c') && Same(b + g1, g2 + b') && Same(a + g2, g3 + a')
    ensures Same(a + b + c + g, g3 + (a' + b' + c'))
  {
    Rewrite(Pull, a + b + c + g, a + b + g1 + c', a + b, c + g, g1 + c', []);
    Rewrite(Pull, a + b + g1 + c', a + g2 + b' + c', a, b + g1, g2 + b', c');
    Rewrite(Pull, a + g2 + b' + c', g3 + (a' + b' + c'), [], a + g2, g3 + a', b' + c');
  }

  lemma PartPasses(l: seq<Gate>, g: Gate, l': seq<Gate>, g': Gate)
    requires (l == l' == [] && g == g') || (|l| == |l'| == 1 && Passes(l[0], g) && g' == Moved(l[0], g) && l'[0] == Left(l[0], g))
    ensures Same(l + [g], [g'] + l')
  {
    if l == [] {
      assert l + [g] == [g'] + l';
    } else {
      PassesBefore(l[0], g);
      assert l + [g] == [l[0], g] && [g'] + l' == [g', l'[0]];
    }
  }

  lemma PauliPasses(p: Held, q: nat, g: Gate, g': Gate, p': Held)
    requires g.X? || g.Y? || g.Z?
    requires g.q == q && g' == if p.h then Moved(Gate.H(q), g) else g
    requires p' == p.(ax := Reversed(p.rx && !g.X?, p.ax), ay := Reversed(p.ry && !g.Y?, p.ay))
    ensures Same(LayerOf(p, q) + [g], [g'] + LayerOf(p', q))
  {
    PartPasses(YPart(p, q), g, YPart(p', q), g);
    PartPasses(XPart(p, q), g, XPart(p', q), g);
    PartPasses(HPart(p, q), g, HPart(p', q), g');
    PassParts(HPart(p, q), XPart(p, q), YPart(p, q), HPart(p', q), XPart(p', q), YPart(p', q), [g], [g], [g], [g']);
  }

  lemma StepXTakes(d: Deferral, q: nat)
    requires q < |d.held|
    ensures Takes(d, [Gate.X(q)], StepX(d, q))
  {
    var p := d.held[q];
    var g', p' := if p.h then Gate.Z(q) else Gate.X(q), p.(ay := Reversed(p.ry, p.ay));
    PauliPasses(p, q, Gate.X(q), g', p');
    TakesOne(d, q, [Gate.X(q)], [g'], p');
  }

  lemma StepYTakes(d: Deferral, q: nat)
    requires q < |d.held|
    ensures Takes(d, [Gate.Y(q)], StepY(d, q))
  {
    var p := d.held[q];
    var p' := p.(ax := Reversed(p.rx, p.ax));
    PauliPasses(p, q, Gate.Y(q), Gate.Y(q), p');
    TakesOne(d, q, [Gate.Y(q)], [Gate.Y(q)], p');
  }

  lemma StepZTakes(d: Deferral, q: nat)
    requires q < |d.held|
    ensures Takes(d, [Gate.Z(q)], StepZ(d, q))
  {
    var p := d.held[q];
    var g', p' := if p.h then Gate.X(q) else Gate.Z(q), p.(ax := Reversed(p.rx, p.ax), ay := Reversed(p.ry, p.ay));
    PauliPasses(p, q, Gate.Z(q), g', p');
    TakesOne(d, q, [Gate.Z(q)], [g'], p');
  }

  // ---------------------------------------------------------------- releasing, H and turns

  lemma ReleaseTakes(d: Deferral, q: nat)
    requires q < |d.held|
    ensures Takes(d, [], Release(d, q))
  {
    var layer := LayerOf(d.held[q], q);
    assert layer + [] == layer + LayerOf(NOTHING, q);
    LayerOnQubit(d.held[q], q);
    TakesOne(d, q, [], layer, NOTHING);
  }

  lemma ReleaseToRxTakes(d: Deferral, q: nat)
    requires q < |d.held|
    ensures Takes(d, [], ReleaseToRx(d, q))
  {
    var p := d.held[q];
    var p', front := NOTHING.(ry := p.ry, ay := p.ay), HPart(p, q) + XPart(p, q);
    assert LayerOf(p, q) + [] == front + LayerOf(p', q);
    assert d.emitted + HPart(p, q) + XPart(p, q) == d.emitted + front;
    TakesOne(d, q, [], front, p');
  }

  lemma HPasses(h: seq<Gate>, x: seq<Gate>, y: seq<Gate>, y': seq<Gate>, q: nat)
    requires Same(y + [Gate.H(q)], [Gate.H(q)] + y')
    ensures Same(h + x + y + [Gate.H(q)], h + x + ([Gate.H(q)] + y'))
  {
    Rewrite(Pull, h + x + y + [Gate.H(q)], h + x + ([Gate.H(q)] + y'), h + x, y + [Gate.H(q)], [Gate.H(q)] + y', []);
  }

  lemma HCancels(q: nat, y: seq<Gate>)
    ensures Same([Gate.H(q)] + ([Gate.H(q)] + y), y)
  {
    HTwice(q);
    Rewrite(Pull, [Gate.H(q)] + ([Gate.H(q)] + y), y, [], [Gate.H(q), Gate.H(q)], [], y);
  }

  lemma StepHTakes(d: Deferral, q: nat)
    requires q < |d.held|
    ensures Takes(d, [Gate.H(q)], StepH(d, q))
  {
    var p := d.held[q];
    var ay := Reversed(p.ry, p.ay);
    var y' := YPart(p.(ay := ay), q);
    PartPasses(YPart(p, q), Gate.H(q), y', Gate.H(q));
    HPasses(HPart(p, q), XPart(p, q), YPart(p, q), y', q);
    if p.rx {
      ReleaseUnderH(d, q, y');
    } else {
      var p' := p.(ay := ay, h := !p.h);
      ToggleH(p, p', q, y');
      TakesOne(d, q, [Gate.H(q)], [], p');
      assert d.emitted + [] == d.emitted;
    }
  }

  lemma ReleaseUnderH(d: Deferral, q: nat, y': seq<Gate>)
    requires q < |d.held| && d.held[q].rx
    requires y' == YPart(d.held[q].(ay := Reversed(d.held[q].ry, d.held[q].ay)), q)
    requires Same(LayerOf(d.held[q], q) + [Gate.H(q)], HPart(d.held[q], q) + XPart(d.held[q], q) + ([Gate.H(q)] + y'))
    ensures Takes(d, [Gate.H(q)], StepH(d, q))
  {
    var p := d.held[q];
    var p', front := Held(true, false, NO_TURN, p.ry, Reversed(p.ry, p.ay)), HPart(p, q) + XPart(p, q);
    assert LayerOf(p', q) == [Gate.H(q)] + y';
    TakesOne(d, q, [Gate.H(q)], front, p');
    assert d.emitted + HPart(p, q) + XPart(p, q) == d.emitted + front;
  }

  /** With no turn about x in between, a second H cancels the first. */
  lemma ToggleH(p: Held, p': Held, q: nat, y': seq<Gate>)
    requires !p.rx && !p'.rx && p'.h == !p.h && YPart(p', q) == y'
    requires Same(LayerOf(p, q) + [Gate.H(q)], HPart(p, q) + XPart(p, q) + ([Gate.H(q)] + y'))
    ensures Same(LayerOf(p, q) + [Gate.H(q)], [] + LayerOf(p', q))
  {
    if p.h {
      HCancels(q, y');
      assert HPart(p, q) + XPart(p, q) + ([Gate.H(q)] + y') == [Gate.H(q)] + ([Gate.H(q)] + y');
      assert [] + LayerOf(p', q) == y';
    } else {
      assert HPart(p, q) + XPart(p, q) + ([Gate.H(q)] + y') == [] + LayerOf(p', q);
    }
  }

  lemma StepPhaseTakes(d: Deferral, q: nat, a: Angle)
    requires q < |d.held|
    ensures Takes(d, [U1(q, a)], StepPhase(d, q, a))
  {
    var e := Release(d, q);
    ReleaseTakes(d, q);
    assert LayerOf(NOTHING, q) + [U1(q, a)] == [U1(q, a)] + LayerOf(NOTHING, q);
    TakesOne(e, q, [U1(q, a)], [U1(q, a)], NOTHING);
    assert e.held[q := NOTHING] == e.held;
    TakesTrans(d, [], e, [U1(q, a)], StepPhase(d, q, a));
    assert [] + [U1(q, a)] == [U1(q, a)];
  }

  /** One more turn about the axis of the last part of a layer. */
  lemma TurnJoins(front: seq<Gate>, queued: bool, last: Gate, g: Gate, sum: Gate)
    requires IsTurn(last) && IsTurn(g) && g == Turned(last, g.angle) && sum == Turned(last, last.angle.Plus(g.angle))
    requires !queued ==> last.angle == NO_TURN
    ensures Same(front + (if queued then [last] else []) + [g], front + [sum])
  {
    if queued {
      TurnsAdd(last, last.angle, g.angle);
      Rewrite(Pull, front + [last] + [g], front + [sum], front, [last, g], [sum], []);
    } else {
      assert sum == g;
      assert front + [] + [g] == front + [sum];
    }
  }

  lemma StepRyTakes(d: Deferral, q: nat, a: Angle)
    requires q < |d.held| && d.held[q].Tidy()
    ensures Takes(d, [Gate.Ry(q, a)], StepRy(d, q, a))
  {
    var p := d.held[q];
    var p', front := p.(ry := true, ay := p.ay.Plus(a)), HPart(p, q) + XPart(p, q);
    TurnJoins(front, p.ry, Gate.Ry(q, p.ay), Gate.Ry(q, a), Gate.Ry(q, p.ay.Plus(a)));
    assert [] + LayerOf(p', q) == front + [Gate.Ry(q, p.ay.Plus(a))];
    TakesOne(d, q, [Gate.Ry(q, a)], [], p');
    assert d.emitted + [] == d.emitted;
  }

  lemma JoinRx(d: Deferral, q: nat, a: Angle)
    requires q < |d.held| && d.held[q].Tidy() && !d.held[q].ry
    ensures Takes(d, [Gate.Rx(q, a)], StepRx(d, q, a))
  {
    var p := d.held[q];
    var p' := p.(rx := true, ax := p.ax.Plus(a));
    TurnJoins(HPart(p, q), p.rx, Gate.Rx(q, p.ax), Gate.Rx(q, a), Gate.Rx(q, p.ax.Plus(a)));
    assert LayerOf(p, q) == HPart(p, q) + XPart(p, q);
    assert [] + LayerOf(p', q) == HPart(p, q) + [Gate.Rx(q, p.ax.Plus(a))];
    TakesOne(d, q, [Gate.Rx(q, a)], [], p');
    assert d.emitted + [] == d.emitted;
  }

  lemma StepRxTakes(d: Deferral, q: nat, a: Angle)
    requires q < |d.held| && d.held[q].Tidy()
    ensures Takes(d, [Gate.Rx(q, a)], StepRx(d, q, a))
  {
    if d.held[q].ry {
      var e := Release(d, q);
      ReleaseTakes(d, q);
      JoinRx(e, q, a);
      TakesTrans(d, [], e, [Gate.Rx(q, a)], StepRx(d, q, a));
      assert [] + [Gate.Rx(q, a)] == [Gate.Rx(q, a)];
    } else {
      JoinRx(d, q, a);
    }
  }

  // ---------------------------------------------------------------- two-qubit gates

  /** h and x are held on one qubit; g passes x unchanged and h as gates. */
  lemma PassesHAndTurn(before: seq<Gate>, h: seq<Gate>, x: seq<Gate>, g: Gate, gates: seq<Gate>)
    requires Same(x + [g], [g] + x) && Same(h + [g], gates + h)
    ensures Same(before + (h + x) + [g], before + gates + (h + x))
  {
    Rewrite(Pull, before + (h + x) + [g], before + h + [g] + x, before + h, x + [g], [g] + x, []);
    Rewrite(Pull, before + h + [g] + x, before + gates + (h + x), before, h + [g], gates + h, x);
  }

  lemma OptionalPasses(l: Gate, queued: bool, g: Gate, gates: seq<Gate>, moved: seq<Gate>)
    requires if queued then Same([l, g], moved) && moved == gates + [l] else gates == [g]
    ensures Same((if queued then [l] else []) + [g], gates + if queued then [l] else [])
  {
    if queued {
      assert [l] + [g] == [l, g];
    } else {
      assert [] + [g] == gates + [];
    }
  }

  /** A CNOT with nothing held on its control, an H at most and a turn about x on its target. */
  lemma CNOTPassesTarget(pt: Held, c: nat, t: nat, before: seq<Gate>)
    requires c != t && !pt.ry
    ensures Same(before + LayerOf(pt, t) + [Gate.CNOT(c, t)],
                 before + [if pt.h then Gate.CZ(c, t) else Gate.CNOT(c, t)] + LayerOf(pt, t))
  {
    var g := Gate.CNOT(c, t);
    RxOnTarget(c, t, pt.ax);
    CNOTPastH(c, t);
    OptionalPasses(Gate.Rx(t, pt.ax), pt.rx, g, [g], [g, Gate.Rx(t, pt.ax)]);
    OptionalPasses(Gate.H(t), pt.h, g, [if pt.h then Gate.CZ(c, t) else g], [Gate.CZ(c, t), Gate.H(t)]);
    assert LayerOf(pt, t) == HPart(pt, t) + XPart(pt, t);
    PassesHAndTurn(before, HPart(pt, t), XPart(pt, t), g, [if pt.h then Gate.CZ(c, t) else g]);
  }

  /** The H on the control turns the CZ into a CNOT that points at the control. */
  lemma CZPassesControl(c: nat, t: nat, after: seq<Gate>)
    requires c != t
    ensures Same([Gate.H(c)] + [Gate.CZ(c, t)] + after, [Gate.CNOT(t, c)] + ([Gate.H(c)] + after))
  {
    HOnControl(c, t);
    Rewrite(Pull, [Gate.H(c)] + [Gate.CZ(c, t)] + after, [Gate.CNOT(t, c)] + ([Gate.H(c)] + after),
            [], [Gate.H(c), Gate.CZ(c, t)], [Gate.CNOT(t, c), Gate.H(c)], after);
  }

  /** Queueing is right once the control holds nothing, or just an H beside one on the target. */
  lemma QueueCNOTTakes(d: Deferral, c: nat, t: nat)
    requires c < |d.held| && t < |d.held| && c != t && d.held[c].Tidy() && d.held[t].Tidy()
    requires !d.held[c].rx && !d.held[c].ry && !d.held[t].ry && (d.held[c].h ==> d.held[t].h)
    ensures Takes(d, [Gate.CNOT(c, t)], QueueCNOT(d, c, t))
  {
    var pc, pt := d.held[c], d.held[t];
    var emitted := if !pt.h then Gate.CNOT(c, t) else if pc.h then Gate.CNOT(t, c) else Gate.CZ(c, t);
    CNOTPassesTarget(pt, c, t, LayerOf(pc, c));
    if pc.h {
      assert LayerOf(pc, c) == [Gate.H(c)];
      CZPassesControl(c, t, LayerOf(pt, t));
    } else {
      assert LayerOf(pc, c) == [];
      assert [] + [emitted] + LayerOf(pt, t) == [emitted] + ([] + LayerOf(pt, t));
    }
    TakesTwo(d, c, t, [Gate.CNOT(c, t)], [emitted], pc, pt);
    assert d.held[c := pc][t := pt] == d.held;
  }

  lemma PrepareTakes(d: Deferral, e: Deferral, g: Gate, d': Deferral)
    requires Takes(d, [], e) && Takes(e, [g], d')
    ensures Takes(d, [g], d')
  {
    TakesTrans(d, [], e, [g], d');
    assert [] + [g] == [g];
  }

  lemma NothingTwice()
    ensures var none: seq<Gate> := []; none + none == none
  {}

  lemma BeforeCNOTTakes(d: Deferral, c: nat, t: nat)
    requires c < |d.held| && t < |d.held|
    ensures Takes(d, [], BeforeCNOT(d, c, t))
  {
    var pc, pt := d.held[c], d.held[t];
    var e := if pc.ry || pc.rx || (pc.h && !pt.h) then Release(d, c) else d;
    assert d.Circuit() + [] == d.Circuit() && e.Circuit() + [] == e.Circuit();
    ReleaseTakes(d, c);
    ReleaseTakes(e, t);
    TakesTrans(d, [], e, [], Release(e, t));
    NothingTwice();
  }

  /** The one state in which the pass queues a CNOT wrongly: see DeferralRuns.StepCNOTFails. */
  predicate Misorders(d: Deferral, c: nat, t: nat)
    requires c < |d.held| && t < |d.held|
  {
    && d.held[t].ry && d.held[t].h
    && d.held[c].h && !d.held[c].ry && !d.held[c].rx
  }

  lemma StepCNOTTakes(d: Deferral, c: nat, t: nat)
    requires c < |d.held| && t < |d.held| && c != t && d.Tidy() && !Misorders(d, c, t)
    ensures Takes(d, [Gate.CNOT(c, t)], StepCNOT(d, c, t))
  {
    var e := BeforeCNOT(d, c, t);
    BeforeCNOTTakes(d, c, t);
    QueueCNOTTakes(e, c, t);
    PrepareTakes(d, e, Gate.CNOT(c, t), StepCNOT(d, c, t));
  }

  lemma CYPassesTarget(pt: Held, c: nat, t: nat, emitted: seq<Gate>)
    requires c != t && !pt.rx && emitted == (if pt.h then [Gate.Z(c)] else []) + [Gate.CY(c, t)]
    ensures Same(LayerOf(pt, t) + [Gate.CY(c, t)], emitted + LayerOf(pt, t))
  {
    var g, none: seq<Gate> := Gate.CY(c, t), [];
    RyOnTarget(c, t, pt.ay);
    CYPastH(c, t);
    OptionalPasses(Gate.Ry(t, pt.ay), pt.ry, g, [g], [g, Gate.Ry(t, pt.ay)]);
    OptionalPasses(Gate.H(t), pt.h, g, emitted, [Gate.Z(c), g, Gate.H(t)]);
    PassesHAndTurn(none, HPart(pt, t), YPart(pt, t), g, emitted);
    assert none + LayerOf(pt, t) == LayerOf(pt, t) == HPart(pt, t) + YPart(pt, t) && none + emitted == emitted;
  }

  lemma QueueCYTakes(d: Deferral, c: nat, t: nat)
    requires c < |d.held| && t < |d.held| && c != t && d.held[c] == NOTHING && !d.held[t].rx
    ensures Takes(d, [Gate.CY(c, t)], Emit(d, (if d.held[t].h then [Gate.Z(c)] else []) + [Gate.CY(c, t)]))
  {
    var pt, emitted := d.held[t], (if d.held[t].h then [Gate.Z(c)] else []) + [Gate.CY(c, t)];
    CYPassesTarget(pt, c, t, emitted);
    assert LayerOf(NOTHING, c) + LayerOf(pt, t) == LayerOf(pt, t);
    TakesTwo(d, c, t, [Gate.CY(c, t)], emitted, NOTHING, pt);
    assert d.held[c := NOTHING][t := pt] == d.held;
  }

  lemma StepCYTakes(d: Deferral, c: nat, t: nat)
    requires c < |d.held| && t < |d.held| && c != t
    ensures Takes(d, [Gate.CY(c, t)], StepCY(d, c, t))
  {
    var e := Release(d, c);
    ReleaseTakes(d, c);
    if e.held[t].rx {
      var e' := ReleaseToRx(e, t);
      ReleaseToRxTakes(e, t);
      QueueCYTakes(e', c, t);
      PrepareTakes(e, e', Gate.CY(c, t), StepCY(d, c, t));
    } else {
      QueueCYTakes(e, c, t);
    }
    PrepareTakes(d, e, Gate.CY(c, t), StepCY(d, c, t));
  }

  lemma CZPassesLayers(pc: Held, pt: Held, c: nat, t: nat, layers: seq<Gate>)
    requires c != t && Count(pc) + Count(pt) <= 1 && layers == LayerOf(pc, c) + LayerOf(pt, t)
    ensures Same(layers + [Gate.CZ(c, t)], [PastSingleH(pc, pt, c, t)] + layers)
  {
    var g, emitted := Gate.CZ(c, t), PastSingleH(pc, pt, c, t);
    if pc.h {
      assert layers == [Gate.H(c)];
      HOnControl(c, t);
      OptionalPasses(Gate.H(c), true, g, [emitted], [emitted, Gate.H(c)]);
    } else if pt.h {
      assert layers == [Gate.H(t)];
      CZPastH(c, t);
      OptionalPasses(Gate.H(t), true, g, [emitted], [emitted, Gate.H(t)]);
    } else {
      assert layers == [];
      OptionalPasses(Gate.H(t), false, g, [emitted], []);
    }
  }

  lemma QueueCZTakes(d: Deferral, c: nat, t: nat)
    requires c < |d.held| && t < |d.held| && c != t && Count(d.held[c]) + Count(d.held[t]) <= 1
    ensures Takes(d, [Gate.CZ(c, t)], Emit(d, [PastSingleH(d.held[c], d.held[t], c, t)]))
  {
    var pc, pt := d.held[c], d.held[t];
    CZPassesLayers(pc, pt, c, t, LayerOf(pc, c) + LayerOf(pt, t));
    TakesTwo(d, c, t, [Gate.CZ(c, t)], [PastSingleH(pc, pt, c, t)], pc, pt);
    assert d.held[c := pc][t := pt] == d.held;
  }

  lemma StepCZTakes(d: Deferral, c: nat, t: nat)
    requires c < |d.held| && t < |d.held| && c != t && d.Tidy()
    ensures Takes(d, [Gate.CZ(c, t)], StepCZ(d, c, t))
  {
    if Count(d.held[c]) + Count(d.held[t]) > 1 {
      var e := Release(d, c);
      var e' := Release(e, t);
      ReleaseTakes(d, c);
      ReleaseTakes(e, t);
      QueueCZTakes(e', c, t);
      PrepareTakes(e, e', Gate.CZ(c, t), StepCZ(d, c, t));
      PrepareTakes(d, e, Gate.CZ(c, t), StepCZ(d, c, t));
    } else {
      QueueCZTakes(d, c, t);
    }
  }

  lemma PartPassesSwap(l: seq<Gate>, q: nat, r: nat, l': seq<Gate>, swap: Gate)
    requires q != r && swap == Swap(q, r)
    requires (l == l' == []) || (|l| == |l'| == 1 && (l[0].H? || l[0].Rx? || l[0].Ry?) && l[0].q == q && l'[0] == OnQubit(l[0], r))
    ensures Same(l + [swap], [swap] + l')
  {
    if l == [] {
      assert l + [swap] == [swap] + l';
    } else {
      HeldPastSwap(l[0], q, r);
      assert l + [swap] == [l[0], swap] && [swap] + l' == [swap, l'[0]];
    }
  }

  lemma LayerPassesSwap(p: Held, q: nat, r: nat)
    requires q != r
    ensures Same(LayerOf(p, q) + [Swap(q, r)], [Swap(q, r)] + LayerOf(p, r))
  {
    var g := Swap(q, r);
    PartPassesSwap(YPart(p, q), q, r, YPart(p, r), g);
    PartPassesSwap(XPart(p, q), q, r, XPart(p, r), g);
    PartPassesSwap(HPart(p, q), q, r, HPart(p, r), g);
    PassParts(HPart(p, q), XPart(p, q), YPart(p, q), HPart(p, r), XPart(p, r), YPart(p, r), [g], [g], [g], [g]);
  }

  lemma SwapChain(a: seq<Gate>, b: seq<Gate>, a': seq<Gate>, b': seq<Gate>, g: seq<Gate>, g': seq<Gate>, out: seq<Gate>)
    requires Same(g, g') && Same(g, out) && Same(b + g', g' + b') && Same(a + g, g + a') && Same(a' + b', b' + a')
    ensures Same(a + b + g, out + (b' + a'))
  {
    Rewrite(Pull, a + b + g, a + b + g', a + b, g, g', []);
    Rewrite(Pull, a + b + g', a + g' + b', a, b + g', g' + b', []);
    Rewrite(Pull, a + g + b', a + g' + b', a, g, g', b');
    Rewrite(Pull, a + g + b', g + (a' + b'), [], a + g, g + a', b');
    Rewrite(Pull, g + (a' + b'), out + (a' + b'), [], g, out, a' + b');
    Rewrite(Pull, out + (a' + b'), out + (b' + a'), out, a' + b', b' + a', []);
  }

  lemma StepSwapTakes(d: Deferral, c: nat, t: nat)
    requires c < |d.held| && t < |d.held| && c != t
    ensures Takes(d, [Swap(c, t)], StepSwap(d, c, t))
  {
    var pc, pt := d.held[c], d.held[t];
    var out := [if c > t then Swap(t, c) else Swap(c, t)];
    LayerPassesSwap(pc, c, t);
    LayerPassesSwap(pt, t, c);
    SwapEitherWay(c, t);
    LayerOnQubit(pc, t);
    LayerOnQubit(pt, c);
    QubitsCommute(LayerOf(pc, t), t, LayerOf(pt, c), c);
    SwapChain(LayerOf(pc, c), LayerOf(pt, t), LayerOf(pc, t), LayerOf(pt, c), [Swap(c, t)], [Swap(t, c)], out);
    TakesTwo(d, c, t, [Swap(c, t)], out, pt, pc);
  }

  // ---------------------------------------------------------------- any step

  predicate StepMisorders(d: Deferral, op: Op)
    requires Within(op, |d.held|)
  {
    op.CNOT? && Misorders(d, op.c, op.t)
  }

  /** Every step but the misordering CNOT stands for its instruction. */
  lemma StepTakes(d: Deferral, op: Op)
    requires Within(op, |d.held|) && d.Tidy() && !StepMisorders(d, op)
    ensures Takes(d, Meaning(op), Step(d, op))
  {
    if OnPair(op) {
      StepPairTakes(d, op);
    } else if IsPhase(op) {
      StepPhasesTake(d, op);
    } else if op.Rx? || op.Ry? || op.U? {
      StepTurnTakes(d, op);
    } else {
      StepFixedTakes(d, op);
    }
  }

  predicate OnPair(op: Op) {
    op.CNOT? || op.CY? || op.CZ? || op.SWAP?
  }

  predicate IsPhase(op: Op) {
    op.S? || op.Sdg? || op.T? || op.Tdg? || op.Rz?
  }

  function PhaseOf(op: Op): Angle
    requires IsPhase(op)
  {
    match op
    case S(_) => QUARTER_TURN
    case Sdg(_) => QUARTER_TURN.Minus()
    case T(_, eighth) => eighth
    case Tdg(_, eighth) => eighth.Minus()
    case Rz(_, a) => a
  }

  lemma PhaseStep(d: Deferral, op: Op)
    requires Within(op, |d.held|) && IsPhase(op)
    ensures Step(d, op) == StepPhase(d, op.q, PhaseOf(op)) && Meaning(op) == [U1(op.q, PhaseOf(op))]
  {}

  lemma StepPhasesTake(d: Deferral, op: Op)
    requires Within(op, |d.held|) && d.Tidy() && IsPhase(op)
    ensures Takes(d, Meaning(op), Step(d, op))
  {
    PhaseStep(d, op);
    StepPhaseTakes(d, op.q, PhaseOf(op));
  }

  lemma StepFixedTakes(d: Deferral, op: Op)
    requires Within(op, |d.held|) && d.Tidy() && (op.I? || op.H? || op.X? || op.Y? || op.Z?)
    ensures Takes(d, Meaning(op), Step(d, op))
  {
    match op
    case I(_) => assert d.Circuit() + [] == d.Circuit();
    case H(q) => StepHTakes(d, q);
    case X(q) => StepXTakes(d, q);
    case Y(q) => StepYTakes(d, q);
    case Z(q) => StepZTakes(d, q);
  }

  lemma StepTurnTakes(d: Deferral, op: Op)
    requires Within(op, |d.held|) && d.Tidy() && (op.Rx? || op.Ry? || op.U?)
    ensures Takes(d, Meaning(op), Step(d, op))
  {
    match op
    case Rx(q, a) => StepRxTakes(d, q, a);
    case Ry(q, a) => StepRyTakes(d, q, a);
    case U(q, theta, phi, lambda) => StepUTakes(d, q, theta, phi, lambda);
  }

  lemma StepPairTakes(d: Deferral, op: Op)
    requires Within(op, |d.held|) && d.Tidy() && OnPair(op) && !StepMisorders(d, op)
    ensures Takes(d, Meaning(op), Step(d, op))
  {
    match op
    case CNOT(c, t) => StepCNOTTakes(d, c, t);
    case CY(c, t) => StepCYTakes(d, c, t);
    case CZ(c, t) => StepCZTakes(d, c, t);
    case SWAP(c, t) => StepSwapTakes(d, c, t);
  }

  lemma StepUTakes(d: Deferral, q: nat, theta: Angle, phi: Angle, lambda: Angle)
    requires q < |d.held|
    ensures Takes(d, [U1(q, lambda), Gate.Ry(q, theta), U1(q, phi)], StepPhase(StepRy(StepPhase(d, q, lambda), q, theta), q, phi))
  {
    var d1 := StepPhase(d, q, lambda);
    var d2 := StepRy(d1, q, theta);
    StepPhaseTakes(d, q, lambda);
    StepRyTakes(d1, q, theta);
    StepPhaseTakes(d2, q, phi);
    TakesTrans(d, [U1(q, lambda)], d1, [Gate.Ry(q, theta)], d2);
    TakesTrans(d, [U1(q, lambda)] + [Gate.Ry(q, theta)], d2, [U1(q, phi)], StepPhase(d2, q, phi));
    assert [U1(q, lambda)] + [Gate.Ry(q, theta)] + [U1(q, phi)] == [U1(q, lambda), Gate.Ry(q, theta), U1(q, phi)];
  }
}
