/**
 * The H, Rx and Ry gates held back on each qubit, and how a circuit is reordered around them: a
 * rewrite at the queue of one qubit, or of two, is a rewrite of the whole circuit.
 */
module HeldGates {
  import opened Observables
  import opened PauliPicture

  /** What is held on one qubit: first an H, then a turn about x, then a turn about y. */
  datatype Held = Held(h: bool, rx: bool, ax: Angle, ry: bool, ay: Angle) {
    /** An angle is kept for a held turn only. */
    predicate Tidy() {
      (!rx ==> ax == NO_TURN) && (!ry ==> ay == NO_TURN)
    }
  }

  const NOTHING := Held(false, false, NO_TURN, false, NO_TURN)

  function HPart(p: Held, q: nat): seq<Gate> {
    if p.h then [H(q)] else []
  }

  function XPart(p: Held, q: nat): seq<Gate> {
    if p.rx then [Rx(q, p.ax)] else []
  }

  function YPart(p: Held, q: nat): seq<Gate> {
    if p.ry then [Ry(q, p.ay)] else []
  }

  function LayerOf(p: Held, q: nat): seq<Gate> {
    HPart(p, q) + XPart(p, q) + YPart(p, q)
  }

  /** Everything held, qubit by qubit. */
  function Layers(ps: seq<Held>): seq<Gate> {
    if ps == [] then [] else Layers(ps[..|ps| - 1]) + LayerOf(ps[|ps| - 1], |ps| - 1)
  }

  // ---------------------------------------------------------------- the layers of single qubits

  lemma {:induction false} LayersQubits(ps: seq<Held>, q: nat)
    requires q < |ps| ==> ps[q] == NOTHING
    ensures forall g :: g in Layers(ps) ==> !OnTwo(g) && g.q < |ps| && g.q != q
  {
    if ps != [] {
      var m := |ps| - 1;
      LayersQubits(ps[..m], q);
      LayerQubits(ps[m], m);
      if m == q { assert LayerOf(ps[m], m) == []; }
    }
  }

  lemma LayerQubits(p: Held, q: nat)
    ensures forall g :: g in LayerOf(p, q) ==> !OnTwo(g) && g.q == q
  {}

  lemma LayersCommute(a: seq<Gate>, b: seq<Gate>)
    requires forall g, h :: g in a && h in b ==> !OnTwo(g) && g.q !in Support(h)
    ensures Same(a + b, b + a)
  {
    forall g, h | g in a && h in b
      ensures Commute(Pull, g, h)
    {
      if OnTwo(h) { OneAndTwoCommute(g, h); } else { OnesCommute(g, h); }
    }
    BlocksCommute(Pull, a, b);
  }

  lemma LayerOnQubit(p: Held, q: nat)
    ensures AllOn(LayerOf(p, q), q)
  {}

  lemma QubitsCommute(a: seq<Gate>, q: nat, b: seq<Gate>, r: nat)
    requires AllOn(a, q) && AllOn(b, r) && q != r
    ensures Same(a + b, b + a)
  {
    LayersCommute(a, b);
  }

  lemma PassesPair(rest: seq<Gate>, emitted: seq<Gate>, c: nat, t: nat)
    requires forall g :: g in rest ==> !OnTwo(g) && g.q != c && g.q != t
    requires AllWithin(emitted, c, t)
    ensures Same(rest + emitted, emitted + rest)
  {
    forall g, h | g in rest && h in emitted
      ensures !OnTwo(g) && g.q !in Support(h)
    {}
    LayersCommute(rest, emitted);
  }

  lemma PastLast(init: seq<Gate>, last: seq<Gate>, rest: seq<Gate>, layer: seq<Gate>)
    requires Same(init, rest + layer) && Same(layer + last, last + layer)
    ensures Same(init + last, rest + last + layer)
  {
    Rewrite(Pull, init + last, rest + layer + last, [], init, rest + layer, last);
    Rewrite(Pull, rest + layer + last, rest + last + layer, rest, layer + last, last + layer, []);
  }

  /** What is held on qubit q can be taken to come last. */
  lemma {:induction false} Isolate(ps: seq<Held>, q: nat)
    requires q < |ps|
    ensures Same(Layers(ps), Layers(ps[q := NOTHING]) + LayerOf(ps[q], q))
    decreases |ps|
  {
    var m := |ps| - 1;
    var init, ps' := ps[..m], ps[q := NOTHING];
    if q == m {
      assert ps'[..m] == init;
      assert Layers(ps') == Layers(init);
    } else {
      assert ps'[..m] == init[q := NOTHING];
      Isolate(init, q);
      LayerOnQubit(ps[q], q);
      LayerOnQubit(ps[m], m);
      assert Layers(ps) == Layers(init) + LayerOf(ps[m], m);
      assert Layers(ps') == Layers(init[q := NOTHING]) + LayerOf(ps[m], m);
      QubitsCommute(LayerOf(ps[q], q), q, LayerOf(ps[m], m), m);
      PastLast(Layers(init), LayerOf(ps[m], m), Layers(init[q := NOTHING]), LayerOf(ps[q], q));
    }
  }

  /** The other layers are out of the way of what is emitted. */
  lemma LocalToWhole(whole: seq<Gate>, whole': seq<Gate>, rest: seq<Gate>, layer: seq<Gate>, layer': seq<Gate>,
                     gates: seq<Gate>, emitted: seq<Gate>)
    requires Same(whole, rest + layer) && Same(whole', rest + layer') && Same(rest + emitted, emitted + rest)
    requires Same(layer + gates, emitted + layer')
    ensures Same(whole + gates, emitted + whole')
  {
    Rewrite(Pull, whole + gates, rest + layer + gates, [], whole, rest + layer, gates);
    Rewrite(Pull, rest + layer + gates, rest + emitted + layer', rest, layer + gates, emitted + layer', []);
    Rewrite(Pull, rest + emitted + layer', emitted + rest + layer', [], rest + emitted, emitted + rest, layer');
    Rewrite(Pull, emitted + rest + layer', emitted + whole', emitted, rest + layer', whole', []);
  }

  /** What happens locally on one qubit happens to the whole. */
  lemma StepOne(ps: seq<Held>, q: nat, p': Held, gates: seq<Gate>, emitted: seq<Gate>)
    requires q < |ps| && AllOn(emitted, q)
    requires Same(LayerOf(ps[q], q) + gates, emitted + LayerOf(p', q))
    ensures Same(Layers(ps) + gates, emitted + Layers(ps[q := p']))
  {
    var rest := ps[q := NOTHING];
    Isolate(ps, q);
    Isolate(ps[q := p'], q);
    assert ps[q := p'][q := NOTHING] == rest;
    LayersQubits(rest, q);
    LayersCommute(Layers(rest), emitted);
    LocalToWhole(Layers(ps), Layers(ps[q := p']), Layers(rest), LayerOf(ps[q], q), LayerOf(p', q), gates, emitted);
  }

  lemma IsolateFirst(whole: seq<Gate>, inner: seq<Gate>, rest: seq<Gate>, a: seq<Gate>, b: seq<Gate>)
    requires Same(whole, inner + b) && Same(inner, rest + a)
    ensures Same(whole, rest + (a + b))
  {
    Rewrite(Pull, inner + b, rest + (a + b), [], inner, rest + a, b);
  }

  lemma IsolateTwo(ps: seq<Held>, c: nat, t: nat)
    requires c < |ps| && t < |ps| && c != t
    ensures Same(Layers(ps), Layers(ps[c := NOTHING][t := NOTHING]) + (LayerOf(ps[c], c) + LayerOf(ps[t], t)))
  {
    Isolate(ps, t);
    Isolate(ps[t := NOTHING], c);
    assert ps[t := NOTHING][c := NOTHING] == ps[c := NOTHING][t := NOTHING];
    IsolateFirst(Layers(ps), Layers(ps[t := NOTHING]), Layers(ps[c := NOTHING][t := NOTHING]),
                 LayerOf(ps[c], c), LayerOf(ps[t], t));
  }

  lemma RestPasses(rest: seq<Held>, emitted: seq<Gate>, c: nat, t: nat)
    requires c < |rest| && t < |rest| && rest[c] == NOTHING && rest[t] == NOTHING && AllWithin(emitted, c, t)
    ensures Same(Layers(rest) + emitted, emitted + Layers(rest))
  {
    LayersQubits(rest, c);
    LayersQubits(rest, t);
    PassesPair(Layers(rest), emitted, c, t);
  }

  lemma StepTwo(ps: seq<Held>, c: nat, t: nat, pc: Held, pt: Held, gates: seq<Gate>, emitted: seq<Gate>)
    requires c < |ps| && t < |ps| && c != t && AllWithin(emitted, c, t)
    requires Same(LayerOf(ps[c], c) + LayerOf(ps[t], t) + gates, emitted + (LayerOf(pc, c) + LayerOf(pt, t)))
    ensures Same(Layers(ps) + gates, emitted + Layers(ps[c := pc][t := pt]))
  {
    var rest := ps[c := NOTHING][t := NOTHING];
    var layer, layer' := LayerOf(ps[c], c) + LayerOf(ps[t], t), LayerOf(pc, c) + LayerOf(pt, t);
    IsolateTwo(ps, c, t);
    IsolateChanged(ps, c, t, pc, pt, rest, layer');
    RestPasses(rest, emitted, c, t);
    LocalToWhole(Layers(ps), Layers(ps[c := pc][t := pt]), Layers(rest), layer, layer', gates, emitted);
  }

  lemma IsolateChanged(ps: seq<Held>, c: nat, t: nat, pc: Held, pt: Held, rest: seq<Held>, layer: seq<Gate>)
    requires c < |ps| && t < |ps| && c != t
    requires rest == ps[c := NOTHING][t := NOTHING] && layer == LayerOf(pc, c) + LayerOf(pt, t)
    ensures Same(Layers(ps[c := pc][t := pt]), Layers(rest) + layer)
  {
    ErasedAgain(ps, c, t, pc, pt);
    IsolateTwo(ps[c := pc][t := pt], c, t);
  }

  lemma ErasedAgain(ps: seq<Held>, c: nat, t: nat, pc: Held, pt: Held)
    requires c < |ps| && t < |ps| && c != t
    ensures ps[c := pc][t := pt][c := NOTHING][t := NOTHING] == ps[c := NOTHING][t := NOTHING]
    ensures ps[c := pc][t := pt][c] == pc && ps[c := pc][t := pt][t] == pt
  {}
}
