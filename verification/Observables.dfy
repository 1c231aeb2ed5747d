/**
 * Circuits as linear maps on expectations. A gate turns the expectation of an observable p into a
 * combination of the expectations, before the gate, of the observables that p is pulled back to.
 * Two circuits act alike when they make the same expectations of every state.
 */
module Observables {

  /** The combination a * p + b * q of two observables. */
  datatype Pulled<P> = Pulled(a: real, p: P, b: real, q: P)

  /** The expectation of p after the circuit gs, where f gives the expectations before it. */
  function Expect<G, P>(pull: (G, P) -> Pulled<P>, gs: seq<G>, f: P -> real, p: P): real
    decreases |gs|
  {
    if gs == [] then f(p)
    else
      var d := pull(gs[|gs| - 1], p);
      d.a * Expect(pull, gs[..|gs| - 1], f, d.p) + d.b * Expect(pull, gs[..|gs| - 1], f, d.q)
  }

  /** Both circuits make the same expectations of every state. */
  ghost predicate Alike<G(!new), P(!new)>(pull: (G, P) -> Pulled<P>, a: seq<G>, b: seq<G>) {
    forall f: P -> real, p: P :: Expect(pull, a, f, p) == Expect(pull, b, f, p)
  }

  lemma ExpectSnoc<G, P>(pull: (G, P) -> Pulled<P>, gs: seq<G>, g: G, f: P -> real, p: P)
    ensures var d := pull(g, p);
            Expect(pull, gs + [g], f, p) == d.a * Expect(pull, gs, f, d.p) + d.b * Expect(pull, gs, f, d.q)
  {
    assert (gs + [g])[..|gs|] == gs;
  }

  /** The state that a circuit makes of f. */
  function After<G, P>(pull: (G, P) -> Pulled<P>, gs: seq<G>, f: P -> real): P -> real {
    (p: P) => Expect(pull, gs, f, p)
  }

  lemma {:induction false} ExpectConcat<G, P>(pull: (G, P) -> Pulled<P>, a: seq<G>, b: seq<G>, f: P -> real, p: P)
    ensures Expect(pull, a + b, f, p) == Expect(pull, b, After(pull, a, f), p)
    decreases |b|
  {
    if b == [] {
      assert a + b == a;
    } else {
      var m := |b| - 1;
      var d := pull(b[m], p);
      assert a + b == (a + b[..m]) + [b[m]];
      ExpectSnoc(pull, a + b[..m], b[m], f, p);
      ExpectConcat(pull, a, b[..m], f, d.p);
      ExpectConcat(pull, a, b[..m], f, d.q);
    }
  }

  /** Expectations depend on the values of f only. */
  lemma {:induction false} ExpectPointwise<G, P(!new)>(pull: (G, P) -> Pulled<P>, gs: seq<G>, f: P -> real, f': P -> real, p: P)
    requires forall q: P :: f(q) == f'(q)
    ensures Expect(pull, gs, f, p) == Expect(pull, gs, f', p)
    decreases |gs|
  {
    if gs != [] {
      var d := pull(gs[|gs| - 1], p);
      ExpectPointwise(pull, gs[..|gs| - 1], f, f', d.p);
      ExpectPointwise(pull, gs[..|gs| - 1], f, f', d.q);
    }
  }

  /** Acting alike is kept by whatever runs before and after. */
  lemma AlikeInContext<G(!new), P(!new)>(pull: (G, P) -> Pulled<P>, before: seq<G>, a: seq<G>, b: seq<G>, after: seq<G>)
    requires Alike(pull, a, b)
    ensures Alike(pull, before + a + after, before + b + after)
  {
    forall f: P -> real, p: P
      ensures Expect(pull, before + a + after, f, p) == Expect(pull, before + b + after, f, p)
    {
      ExpectConcat(pull, before + a, after, f, p);
      ExpectConcat(pull, before + b, after, f, p);
      forall q: P
        ensures After(pull, before + a, f)(q) == After(pull, before + b, f)(q)
      {
        ExpectConcat(pull, before, a, f, q);
        ExpectConcat(pull, before, b, f, q);
      }
      ExpectPointwise(pull, after, After(pull, before + a, f), After(pull, before + b, f), p);
    }
  }

  lemma ExpectOne<G, P>(pull: (G, P) -> Pulled<P>, g: G, f: P -> real, p: P)
    ensures var d := pull(g, p); Expect(pull, [g], f, p) == d.a * f(d.p) + d.b * f(d.q)
  {
    assert [g] == [] + [g];
    ExpectSnoc(pull, [], g, f, p);
  }

  lemma ExpectPair<G, P>(pull: (G, P) -> Pulled<P>, g: G, h: G, f: P -> real, p: P)
    ensures var d := pull(h, p);
            var e, e' := pull(g, d.p), pull(g, d.q);
            Expect(pull, [g, h], f, p) == d.a * (e.a * f(e.p) + e.b * f(e.q)) + d.b * (e'.a * f(e'.p) + e'.b * f(e'.q))
  {
    var d := pull(h, p);
    assert [g, h] == [g] + [h];
    ExpectSnoc(pull, [g], h, f, p);
    ExpectOne(pull, g, f, d.p);
    ExpectOne(pull, g, f, d.q);
  }

  lemma ExpectThree<G, P>(pull: (G, P) -> Pulled<P>, g: G, h: G, k: G, f: P -> real, p: P)
    ensures var d := pull(k, p);
            Expect(pull, [g, h, k], f, p) == d.a * Expect(pull, [g, h], f, d.p) + d.b * Expect(pull, [g, h], f, d.q)
  {
    assert [g, h, k] == [g, h] + [k];
    ExpectSnoc(pull, [g, h], k, f, p);
  }

  /** The gates of gs act on the image of put as small does on its domain. */
  ghost predicate Embeds<G(!new), P, L(!new)>(pull: (G, P) -> Pulled<P>, small: (G, L) -> Pulled<L>, put: L -> P, gs: seq<G>) {
    forall g, l :: g in gs ==> pull(g, put(l)) == Image(put, small(g, l))
  }

  function Image<P, L>(put: L -> P, d: Pulled<L>): Pulled<P> {
    Pulled(d.a, put(d.p), d.b, put(d.q))
  }

  function Restrict<P, L>(f: P -> real, put: L -> P): L -> real {
    (l: L) => f(put(l))
  }

  lemma {:induction false} ExpectEmbedded<G(!new), P, L(!new)>(pull: (G, P) -> Pulled<P>, small: (G, L) -> Pulled<L>,
                                                               put: L -> P, gs: seq<G>, f: P -> real, l: L)
    requires Embeds(pull, small, put, gs)
    ensures Expect(pull, gs, f, put(l)) == Expect(small, gs, Restrict(f, put), l)
    decreases |gs|
  {
    if gs != [] {
      var init, g := gs[..|gs| - 1], gs[|gs| - 1];
      var d := small(g, l);
      assert pull(g, put(l)) == Image(put, d);
      ExpectEmbedded(pull, small, put, init, f, d.p);
      ExpectEmbedded(pull, small, put, init, f, d.q);
    }
  }

  lemma Interchange(a: real, b: real, c: real, d: real, w: real, x: real, y: real, z: real)
    ensures a * (c * w + d * x) + b * (c * y + d * z) == c * (a * w + b * y) + d * (a * x + b * z)
  {}

  /** Two gates that pull p back to the same four observables, whichever goes first. */
  lemma Diamond<G, P>(pull: (G, P) -> Pulled<P>, g: G, h: G, f: P -> real, p: P,
                      a: real, b: real, c: real, d: real, w: P, x: P, y: P, z: P)
    requires var e := pull(h, p); e.a == a && e.b == b && pull(g, e.p) == Pulled(c, w, d, x) && pull(g, e.q) == Pulled(c, y, d, z)
    requires var e := pull(g, p); e.a == c && e.b == d && pull(h, e.p) == Pulled(a, w, b, y) && pull(h, e.q) == Pulled(a, x, b, z)
    ensures Expect(pull, [g, h], f, p) == Expect(pull, [h, g], f, p)
  {
    ExpectPair(pull, g, h, f, p);
    ExpectPair(pull, h, g, f, p);
    Interchange(a, b, c, d, f(w), f(x), f(y), f(z));
  }

  // ---------------------------------------------------------------- rewriting circuits

  lemma AlikeTrans<G(!new), P(!new)>(pull: (G, P) -> Pulled<P>, a: seq<G>, b: seq<G>, c: seq<G>)
    requires Alike(pull, a, b) && Alike(pull, b, c)
    ensures Alike(pull, a, c)
  {}

  /** One step of a derivation: a part of x is replaced by something that acts alike. */
  lemma Rewrite<G(!new), P(!new)>(pull: (G, P) -> Pulled<P>, x: seq<G>, y: seq<G>,
                                  before: seq<G>, a: seq<G>, b: seq<G>, after: seq<G>)
    requires Alike(pull, a, b) && x == before + a + after && y == before + b + after
    ensures Alike(pull, x, y)
  {
    AlikeInContext(pull, before, a, b, after);
  }

  ghost predicate Commute<G(!new), P(!new)>(pull: (G, P) -> Pulled<P>, g: G, h: G) {
    Alike(pull, [g, h], [h, g])
  }

  lemma {:induction false} GatePassesBlock<G(!new), P(!new)>(pull: (G, P) -> Pulled<P>, g: G, block: seq<G>)
    requires forall h :: h in block ==> Commute(pull, g, h)
    ensures Alike(pull, [g] + block, block + [g])
    decreases |block|
  {
    if block != [] {
      var m := |block| - 1;
      var init, h := block[..m], block[m];
      assert Commute(pull, g, h);
      GatePassesBlock(pull, g, init);
      Rewrite(pull, [g] + block, init + [g] + [h], [], [g] + init, init + [g], [h]);
      Rewrite(pull, init + [g] + [h], block + [g], init, [g, h], [h, g], []);
    }
  }

  /** Blocks whose gates commute pairwise may change places. */
  lemma {:induction false} BlocksCommute<G(!new), P(!new)>(pull: (G, P) -> Pulled<P>, a: seq<G>, b: seq<G>)
    requires forall g, h :: g in a && h in b ==> Commute(pull, g, h)
    ensures Alike(pull, a + b, b + a)
    decreases |a|
  {
    if a == [] {
      assert a + b == b + a;
    } else {
      var m := |a| - 1;
      var init, g := a[..m], a[m];
      BlocksCommute(pull, init, b);
      GatePassesBlock(pull, g, b);
      Rewrite(pull, a + b, init + b + [g], init, [g] + b, b + [g], []);
      Rewrite(pull, init + b + [g], b + a, [], init + b, b + init, [g]);
    }
  }

  // ---------------------------------------------------------------- cancelling

  function Undo<G>(inverse: G -> G, gs: seq<G>): seq<G> {
    if gs == [] then [] else Undo(inverse, gs[1..]) + [inverse(gs[0])]
  }

  ghost predicate Invertible<G(!new), P(!new)>(pull: (G, P) -> Pulled<P>, inverse: G -> G, gs: seq<G>) {
    forall g :: g in gs ==> Alike(pull, [inverse(g), g], []) && Alike(pull, [g, inverse(g)], [])
  }

  lemma {:induction false} Undoes<G(!new), P(!new)>(pull: (G, P) -> Pulled<P>, inverse: G -> G, gs: seq<G>)
    requires Invertible(pull, inverse, gs)
    ensures Alike(pull, Undo(inverse, gs) + gs, []) && Alike(pull, gs + Undo(inverse, gs), [])
  {
    if gs != [] {
      var g, rest := gs[0], gs[1..];
      var undo := Undo(inverse, rest);
      Undoes(pull, inverse, rest);
      Rewrite(pull, Undo(inverse, gs) + gs, undo + rest, undo, [inverse(g), g], [], rest);
      Rewrite(pull, gs + Undo(inverse, gs), [g, inverse(g)], [g], rest + undo, [], [inverse(g)]);
    }
  }

  /** An invertible beginning that two circuits share does not matter to their comparison. */
  lemma CancelFront<G(!new), P(!new)>(pull: (G, P) -> Pulled<P>, inverse: G -> G, gs: seq<G>, a: seq<G>, b: seq<G>)
    requires Invertible(pull, inverse, gs) && Alike(pull, gs + a, gs + b)
    ensures Alike(pull, a, b)
  {
    var undo := Undo(inverse, gs);
    Undoes(pull, inverse, gs);
    Rewrite(pull, undo + gs + a, a, [], undo + gs, [], a);
    Rewrite(pull, undo + gs + b, b, [], undo + gs, [], b);
    Rewrite(pull, undo + gs + a, undo + gs + b, undo, gs + a, gs + b, []);
  }

  /** Nor does an invertible end. */
  lemma CancelBack<G(!new), P(!new)>(pull: (G, P) -> Pulled<P>, inverse: G -> G, gs: seq<G>, a: seq<G>, b: seq<G>)
    requires Invertible(pull, inverse, gs) && Alike(pull, a + gs, b + gs)
    ensures Alike(pull, a, b)
  {
    var undo := Undo(inverse, gs);
    Undoes(pull, inverse, gs);
    Rewrite(pull, a + gs + undo, a, a, gs + undo, [], []);
    Rewrite(pull, b + gs + undo, b, b, gs + undo, [], []);
    Rewrite(pull, a + gs + undo, b + gs + undo, [], a + gs, b + gs, undo);
  }
}
