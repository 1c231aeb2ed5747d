/** The deferral pass on whole circuits: when it is right. */
module DeferralRuns {
  import opened Observables
  import opened PauliPicture
  import opened CommutationRules
  import opened HeldGates
  import opened DeferralSteps

  // ---------------------------------------------------------------- the CNOT that goes wrong

  lemma ProperLayers(ps: seq<Held>)
    requires forall i :: 0 <= i < |ps| ==> ps[i].ax.Proper() && ps[i].ay.Proper()
    ensures ProperGates(Layers(ps))
  {
    if ps != [] { ProperLayers(ps[..|ps| - 1]); }
  }

  /** before + [H(c), g] and before + [g, H(c)] stay different when other layers lie before. */
  lemma DifferBehind(before: seq<Gate>, x: seq<Gate>, y: seq<Gate>, a: seq<Gate>, b: seq<Gate>)
    requires Same(x, before + a) && Same(y, before + b) && !Same(a, b) && ProperGates(before)
    ensures !Same(x, y)
  {
    if Same(x, y) {
      AlikeTrans(Pull, before + a, x, y);
      AlikeTrans(Pull, before + a, y, before + b);
      ProperInvertible(before);
      CancelFront(Pull, InverseOf, before, a, b);
    }
  }

  predicate ProperAngles(d: Deferral) {
    (forall g :: g in d.emitted ==> Proper(g)) && forall i :: 0 <= i < |d.held| ==> d.held[i].ax.Proper() && d.held[i].ay.Proper()
  }

  lemma ProperLayer(p: Held, q: nat)
    requires p.ax.Proper() && p.ay.Proper()
    ensures ProperGates(LayerOf(p, q))
  {}

  /** Two circuits that differ in the order of an H and a CNOT at the end of a common part. */
  lemma OrderMatters(emitted: seq<Gate>, layers: seq<Gate>, rest: seq<Gate>, c: nat, t: nat)
    requires c != t && ProperGates(emitted) && ProperGates(rest)
    requires forall g :: g in rest ==> !OnTwo(g) && g.q != c && g.q != t
    requires Same(layers, rest + [Gate.H(c)])
    ensures !Same(emitted + layers + [Gate.CNOT(c, t)], emitted + [Gate.CNOT(c, t)] + layers)
  {
    var h, g := Gate.H(c), Gate.CNOT(c, t);
    PassesPair(rest, [g], c, t);
    Rewrite(Pull, emitted + layers + [g], emitted + rest + [h, g], emitted, layers, rest + [h], [g]);
    Rewrite(Pull, emitted + [g] + layers, emitted + ([g] + rest) + [h], emitted + [g], layers, rest + [h], []);
    Rewrite(Pull, emitted + ([g] + rest) + [h], emitted + rest + [g, h], emitted, [g] + rest, rest + [g], [h]);
    HAndCNOTDiffer(c, t);
    DifferBehind(emitted + rest, emitted + layers + [g], emitted + [g] + layers, [h, g], [g, h]);
  }

  lemma ReleaseProper(d: Deferral, q: nat)
    requires q < |d.held| && ProperAngles(d)
    ensures ProperAngles(Release(d, q))
  {
    ProperLayer(d.held[q], q);
  }

  lemma QueueCNOTFails(e: Deferral, c: nat, t: nat)
    requires c < |e.held| && t < |e.held| && c != t && ProperAngles(e)
    requires e.held[c] == NOTHING.(h := true) && e.held[t] == NOTHING
    ensures !Takes(e, [Gate.CNOT(c, t)], QueueCNOT(e, c, t))
  {
    var rest := Layers(e.held[c := NOTHING]);
    OnlyHHeld(e.held, c, t, rest);
    OrderMatters(e.emitted, Layers(e.held), rest, c, t);
  }

  lemma OnlyHHeld(held: seq<Held>, c: nat, t: nat, rest: seq<Gate>)
    requires c < |held| && t < |held| && c != t && held[c] == NOTHING.(h := true) && held[t] == NOTHING
    requires forall i :: 0 <= i < |held| ==> held[i].ax.Proper() && held[i].ay.Proper()
    requires rest == Layers(held[c := NOTHING])
    ensures Same(Layers(held), rest + [Gate.H(c)]) && ProperGates(rest)
    ensures forall g :: g in rest ==> !OnTwo(g) && g.q != c && g.q != t
  {
    assert LayerOf(held[c], c) == [Gate.H(c)];
    Isolate(held, c);
    LayersQubits(held[c := NOTHING], c);
    LayersQubits(held[c := NOTHING], t);
    ProperLayers(held[c := NOTHING]);
  }

  lemma FromTheMiddle(x: seq<Gate>, a: seq<Gate>, y: seq<Gate>, b: seq<Gate>, z: seq<Gate>)
    requires Same(x + a, y) && Same(x + (a + b), z)
    ensures Same(y + b, z)
  {
    Rewrite(Pull, x + (a + b), y + b, [], x + a, y, b);
  }

  lemma TakesFrom(d: Deferral, a: seq<Gate>, e: Deferral, b: seq<Gate>, d': Deferral)
    requires Takes(d, a, e) && Takes(d, a + b, d')
    ensures Takes(e, b, d')
  {
    FromTheMiddle(d.Circuit(), a, e.Circuit(), b, d'.Circuit());
  }

  /** In the state the guard overlooks, the queued CNOT always gives a different circuit. */
  lemma StepCNOTFails(d: Deferral, c: nat, t: nat)
    requires c < |d.held| && t < |d.held| && c != t && d.Tidy() && ProperAngles(d) && Misorders(d, c, t)
    ensures !Takes(d, [Gate.CNOT(c, t)], StepCNOT(d, c, t))
  {
    var e := BeforeCNOT(d, c, t);
    BeforeCNOTTakes(d, c, t);
    ReleaseProper(d, t);
    QueueCNOTFails(e, c, t);
    if Takes(d, [Gate.CNOT(c, t)], StepCNOT(d, c, t)) {
      assert [] + [Gate.CNOT(c, t)] == [Gate.CNOT(c, t)];
      TakesFrom(d, [], e, [Gate.CNOT(c, t)], StepCNOT(d, c, t));
    }
  }

  /** A CNOT is deferred correctly exactly when the pass is not in the state its guard overlooks. */
  lemma StepCNOTExact(d: Deferral, c: nat, t: nat)
    requires c < |d.held| && t < |d.held| && c != t && d.Tidy() && ProperAngles(d)
    ensures Takes(d, [Gate.CNOT(c, t)], StepCNOT(d, c, t)) <==> !Misorders(d, c, t)
  {
    if Misorders(d, c, t) { StepCNOTFails(d, c, t); } else { StepCNOTTakes(d, c, t); }
  }

  // ---------------------------------------------------------------- whole circuits

  predicate ProperOp(op: Op) {
    forall g :: g in Meaning(op) ==> Proper(g)
  }

  lemma StepKeeps(d: Deferral, op: Op)
    requires Within(op, |d.held|) && d.Tidy()
    ensures Step(d, op).Tidy() && |Step(d, op).held| == |d.held|
  {
    if OnPair(op) {
      PairKeeps(d, op);
    } else if IsPhase(op) {
      PhaseStep(d, op);
    }
  }

  lemma PairKeeps(d: Deferral, op: Op)
    requires Within(op, |d.held|) && d.Tidy() && OnPair(op)
    ensures Step(d, op).Tidy() && |Step(d, op).held| == |d.held|
  {}

  lemma PhaseProper(d: Deferral, q: nat, a: Angle)
    requires q < |d.held| && ProperAngles(d) && a.Proper()
    ensures ProperAngles(StepPhase(d, q, a))
  {
    ReleaseProper(d, q);
  }

  lemma RyProper(d: Deferral, q: nat, a: Angle)
    requires q < |d.held| && ProperAngles(d) && a.Proper()
    ensures ProperAngles(StepRy(d, q, a))
  {
    TurnProper(d.held[q].ay, a);
  }

  lemma JoinRxProper(d: Deferral, q: nat, a: Angle)
    requires q < |d.held| && ProperAngles(d) && a.Proper()
    ensures ProperAngles(d.(held := d.held[q := d.held[q].(rx := true, ax := d.held[q].ax.Plus(a))]))
  {
    TurnProper(d.held[q].ax, a);
  }

  lemma RxProper(d: Deferral, q: nat, a: Angle)
    requires q < |d.held| && ProperAngles(d) && a.Proper()
    ensures ProperAngles(StepRx(d, q, a))
  {
    if d.held[q].ry {
      ReleaseProper(d, q);
      JoinRxProper(Release(d, q), q, a);
    } else {
      JoinRxProper(d, q, a);
    }
  }

  lemma OneQubitProper(d: Deferral, q: nat)
    requires q < |d.held| && ProperAngles(d)
    ensures ProperAngles(StepH(d, q)) && ProperAngles(StepX(d, q)) && ProperAngles(StepY(d, q)) && ProperAngles(StepZ(d, q))
  {
    var p := d.held[q];
    TurnProper(p.ax, p.ax);
    TurnProper(p.ay, p.ay);
    ProperLayer(p, q);
  }

  lemma CNOTProper(d: Deferral, c: nat, t: nat)
    requires c < |d.held| && t < |d.held| && c != t && ProperAngles(d)
    ensures ProperAngles(StepCNOT(d, c, t))
  {
    ReleaseProper(d, c);
    ReleaseProper(d, t);
    ReleaseProper(Release(d, c), t);
  }

  lemma CZProper(d: Deferral, c: nat, t: nat)
    requires c < |d.held| && t < |d.held| && c != t && ProperAngles(d)
    ensures ProperAngles(StepCZ(d, c, t))
  {
    ReleaseProper(d, c);
    ReleaseProper(Release(d, c), t);
  }

  lemma SwapProper(d: Deferral, c: nat, t: nat)
    requires c < |d.held| && t < |d.held| && c != t && ProperAngles(d)
    ensures ProperAngles(StepSwap(d, c, t))
  {}

  lemma ReleaseToRxProper(d: Deferral, q: nat)
    requires q < |d.held| && ProperAngles(d)
    ensures ProperAngles(ReleaseToRx(d, q))
  {
    ProperLayer(d.held[q], q);
  }

  lemma EmitProper(d: Deferral, gates: seq<Gate>)
    requires ProperAngles(d) && ProperGates(gates)
    ensures ProperAngles(Emit(d, gates))
  {}

  lemma CYProper(d: Deferral, c: nat, t: nat)
    requires c < |d.held| && t < |d.held| && c != t && ProperAngles(d)
    ensures ProperAngles(StepCY(d, c, t))
  {
    var e := Release(d, c);
    var e' := if e.held[t].rx then ReleaseToRx(e, t) else e;
    ReleaseProper(d, c);
    ReleaseToRxProper(e, t);
    EmitProper(e', (if e'.held[t].h then [Gate.Z(c)] else []) + [Gate.CY(c, t)]);
  }

  lemma ProperAngle(op: Op)
    requires ProperOp(op)
    ensures op.Rx? || op.Ry? || op.Rz? ==> op.angle.Proper()
    ensures op.T? || op.Tdg? ==> op.eighth.Proper()
    ensures op.U? ==> op.theta.Proper() && op.phi.Proper() && op.lambda.Proper()
  {
    if op.U? { assert Meaning(op)[1] in Meaning(op) && Meaning(op)[2] in Meaning(op); }
    if Meaning(op) != [] { assert Meaning(op)[0] in Meaning(op); }
  }

  lemma StepProper(d: Deferral, op: Op)
    requires Within(op, |d.held|) && ProperAngles(d) && ProperOp(op)
    ensures ProperAngles(Step(d, op))
  {
    ProperAngle(op);
    if OnPair(op) {
      PairProper(d, op);
    } else if IsPhase(op) {
      PhaseStep(d, op);
      PhaseProper(d, op.q, PhaseOf(op));
    } else if op.Rx? || op.Ry? || op.U? {
      TurnStepProper(d, op);
    } else {
      FixedProper(d, op);
    }
  }

  lemma FixedProper(d: Deferral, op: Op)
    requires Within(op, |d.held|) && ProperAngles(d) && (op.I? || op.H? || op.X? || op.Y? || op.Z?)
    ensures ProperAngles(Step(d, op))
  {
    if !op.I? { OneQubitProper(d, op.q); }
  }

  lemma TurnStepProper(d: Deferral, op: Op)
    requires Within(op, |d.held|) && ProperAngles(d) && (op.Rx? || op.Ry? || op.U?)
    requires if op.U? then op.theta.Proper() && op.phi.Proper() && op.lambda.Proper() else op.angle.Proper()
    ensures ProperAngles(Step(d, op))
  {
    match op
    case Rx(q, a) => RxProper(d, q, a);
    case Ry(q, a) => RyProper(d, q, a);
    case U(q, theta, phi, lambda) =>
      PhaseProper(d, q, lambda);
      RyProper(StepPhase(d, q, lambda), q, theta);
      PhaseProper(StepRy(StepPhase(d, q, lambda), q, theta), q, phi);
  }

  lemma PairProper(d: Deferral, op: Op)
    requires Within(op, |d.held|) && ProperAngles(d) && OnPair(op)
    ensures ProperAngles(Step(d, op))
  {
    match op
    case CNOT(c, t) => CNOTProper(d, c, t);
    case CY(c, t) => CYProper(d, c, t);
    case CZ(c, t) => CZProper(d, c, t);
    case SWAP(c, t) => SwapProper(d, c, t);
  }

  predicate AllWithin(ops: seq<Op>, n: nat) {
    forall op :: op in ops ==> Within(op, n)
  }

  function Meanings(ops: seq<Op>): seq<Gate> {
    if ops == [] then [] else Meanings(ops[..|ops| - 1]) + Meaning(ops[|ops| - 1])
  }

  function Fresh(n: nat): Deferral {
    Deferral([], seq(n, _ => NOTHING))
  }

  /** The pass after reading the whole of ops. */
  function RunAll(n: nat, ops: seq<Op>): (d: Deferral)
    requires AllWithin(ops, n)
    ensures |d.held| == n && d.Tidy()
  {
    if ops == [] then Fresh(n)
    else
      StepKeeps(RunAll(n, ops[..|ops| - 1]), ops[|ops| - 1]);
      Step(RunAll(n, ops[..|ops| - 1]), ops[|ops| - 1])
  }

  /** How many CNOTs of ops the pass meets in the state that its guard overlooks. */
  function Misordered(n: nat, ops: seq<Op>): nat
    requires AllWithin(ops, n)
  {
    if ops == [] then 0
    else
      var m := |ops| - 1;
      Misordered(n, ops[..m]) + if StepMisorders(RunAll(n, ops[..m]), ops[m]) then 1 else 0
  }

  lemma FreshCircuit(n: nat)
    ensures Fresh(n).Circuit() == []
  {
    if n > 0 {
      assert Fresh(n).held[..n - 1] == Fresh(n - 1).held;
      FreshCircuit(n - 1);
    }
  }

  lemma {:induction false} RunTakes(n: nat, ops: seq<Op>)
    requires AllWithin(ops, n) && Misordered(n, ops) == 0
    ensures Takes(Fresh(n), Meanings(ops), RunAll(n, ops))
    decreases |ops|
  {
    if ops == [] {
      FreshCircuit(n);
      assert Fresh(n).Circuit() + Meanings(ops) == Fresh(n).Circuit();
    } else {
      var m := |ops| - 1;
      var d := RunAll(n, ops[..m]);
      RunTakes(n, ops[..m]);
      StepTakes(d, ops[m]);
      TakesTrans(Fresh(n), Meanings(ops[..m]), d, Meaning(ops[m]), RunAll(n, ops));
    }
  }

  /** The output of the pass acts as its input whenever no CNOT was misordered. */
  lemma DeferralPreserves(n: nat, ops: seq<Op>)
    requires AllWithin(ops, n) && Misordered(n, ops) == 0
    ensures Same(RunAll(n, ops).Circuit(), Meanings(ops))
  {
    RunTakes(n, ops);
    FreshCircuit(n);
    assert [] + Meanings(ops) == Meanings(ops);
  }

  lemma {:induction false} RunProper(n: nat, ops: seq<Op>)
    requires AllWithin(ops, n) && forall op :: op in ops ==> ProperOp(op)
    ensures ProperAngles(RunAll(n, ops))
    decreases |ops|
  {
    if ops != [] {
      var m := |ops| - 1;
      RunProper(n, ops[..m]);
      StepProper(RunAll(n, ops[..m]), ops[m]);
    }
  }

  /** A difference that arose is not repaired by a correct step. */
  lemma StaysWrong(x: seq<Gate>, a: seq<Gate>, y: seq<Gate>, b: seq<Gate>, z: seq<Gate>)
    requires !Same(x + a, y) && Same(y + b, z) && ProperGates(b)
    ensures !Same(x + (a + b), z)
  {
    if Same(x + (a + b), z) {
      assert x + a + b == x + (a + b);
      AlikeTrans(Pull, x + a + b, z, y + b);
      ProperInvertible(b);
      CancelBack(Pull, InverseOf, b, x + a, y);
    }
  }

  lemma TakesWrongly(d: Deferral, a: seq<Gate>, e: Deferral, op: Op, d': Deferral)
    requires !Takes(d, a, e) && Takes(e, Meaning(op), d') && ProperOp(op)
    ensures !Takes(d, a + Meaning(op), d')
  {
    StaysWrong(d.Circuit(), a, e.Circuit(), Meaning(op), d'.Circuit());
  }

  /** A misordered step after what was right so far. */
  lemma MisorderSpoils(d: Deferral, a: seq<Gate>, e: Deferral, op: Op, e': Deferral)
    requires Takes(d, a, e) && Within(op, |e.held|) && e.Tidy() && ProperAngles(e) && StepMisorders(e, op) && e' == Step(e, op)
    ensures !Takes(d, a + Meaning(op), e')
  {
    StepCNOTFails(e, op.c, op.t);
    if Takes(d, a + Meaning(op), e') { TakesFrom(d, a, e, Meaning(op), e'); }
  }

  lemma FailsHere(n: nat, init: seq<Op>, op: Op)
    requires AllWithin(init, n) && Within(op, n) && Misordered(n, init) == 0 && StepMisorders(RunAll(n, init), op)
    requires forall o :: o in init ==> ProperOp(o)
    ensures !Takes(Fresh(n), Meanings(init) + Meaning(op), Step(RunAll(n, init), op))
  {
    var d := RunAll(n, init);
    RunTakes(n, init);
    RunProper(n, init);
    MisorderSpoils(Fresh(n), Meanings(init), d, op, Step(d, op));
  }

  /** One misordered CNOT is enough, and nothing that follows makes up for it. */
  lemma {:induction false} RunFails(n: nat, ops: seq<Op>)
    requires AllWithin(ops, n) && Misordered(n, ops) == 1 && forall op :: op in ops ==> ProperOp(op)
    ensures !Takes(Fresh(n), Meanings(ops), RunAll(n, ops))
    decreases |ops|
  {
    var m := |ops| - 1;
    var init, op := ops[..m], ops[m];
    assert op in ops;
    if StepMisorders(RunAll(n, init), op) {
      FailsHere(n, init, op);
    } else {
      RunFails(n, init);
      StepTakes(RunAll(n, init), op);
      TakesWrongly(Fresh(n), Meanings(init), RunAll(n, init), op, RunAll(n, ops));
    }
  }

  /** With exactly one misordered CNOT the output is not the input's circuit. */
  lemma DeferralFails(n: nat, ops: seq<Op>)
    requires AllWithin(ops, n) && Misordered(n, ops) == 1 && forall op :: op in ops ==> ProperOp(op)
    ensures !Same(RunAll(n, ops).Circuit(), Meanings(ops))
  {
    RunFails(n, ops);
    FreshCircuit(n);
    assert [] + Meanings(ops) == Meanings(ops);
  }

  ghost predicate Preserved(n: nat, ops: seq<Op>)
    requires AllWithin(ops, n)
  {
    Same(RunAll(n, ops).Circuit(), Meanings(ops))
  }

  lemma PreservedTakes(n: nat, ops: seq<Op>)
    requires AllWithin(ops, n)
    ensures Preserved(n, ops) <==> Takes(Fresh(n), Meanings(ops), RunAll(n, ops))
  {
    FreshCircuit(n);
    assert [] + Meanings(ops) == Meanings(ops);
  }

  /** A step that is not misordered neither spoils nor repairs; one that is spoils what was right. */
  lemma PreservedStep(n: nat, init: seq<Op>, op: Op)
    requires AllWithin(init + [op], n) && AllWithin(init, n) && Within(op, n) && ProperOp(op)
    requires forall o :: o in init ==> ProperOp(o)
    ensures !StepMisorders(RunAll(n, init), op) ==> (Preserved(n, init + [op]) <==> Preserved(n, init))
    ensures StepMisorders(RunAll(n, init), op) && Preserved(n, init) ==> !Preserved(n, init + [op])
  {
    var d := RunAll(n, init);
    var e := Step(d, op);
    PreservedTakes(n, init);
    PreservedAfter(n, init, op, e);
    if !StepMisorders(d, op) {
      OrderedKeeps(Fresh(n), Meanings(init), d, op, e);
    } else if Preserved(n, init) {
      RunProper(n, init);
      MisorderSpoils(Fresh(n), Meanings(init), d, op, e);
    }
  }

  lemma PreservedAfter(n: nat, init: seq<Op>, op: Op, e: Deferral)
    requires AllWithin(init + [op], n) && AllWithin(init, n) && Within(op, n) && e == Step(RunAll(n, init), op)
    ensures Preserved(n, init + [op]) <==> Takes(Fresh(n), Meanings(init) + Meaning(op), e)
  {
    RunSnoc(n, init, op);
    MeaningsSnoc(init, op);
    PreservedTakes(n, init + [op]);
  }

  lemma OrderedKeeps(d: Deferral, a: seq<Gate>, e: Deferral, op: Op, e': Deferral)
    requires Within(op, |e.held|) && e.Tidy() && ProperOp(op) && !StepMisorders(e, op) && e' == Step(e, op)
    ensures Takes(d, a + Meaning(op), e') <==> Takes(d, a, e)
  {
    StepTakes(e, op);
    if Takes(d, a, e) {
      TakesTrans(d, a, e, Meaning(op), e');
    } else {
      TakesWrongly(d, a, e, op, e');
    }
  }

  lemma MeaningsSnoc(init: seq<Op>, op: Op)
    ensures Meanings(init + [op]) == Meanings(init) + Meaning(op)
  {
    assert (init + [op])[..|init|] == init;
  }

  /** Nothing after the last misordered CNOT matters: the circuit is preserved exactly if it was at that point. */
  lemma {:induction false} LastMisorderDecides(n: nat, init: seq<Op>, ops: seq<Op>)
    requires AllWithin(init, n) && AllWithin(ops, n) && init <= ops && Misordered(n, ops) == Misordered(n, init)
    requires forall op :: op in ops ==> ProperOp(op)
    ensures Preserved(n, ops) <==> Preserved(n, init)
    decreases |ops|
  {
    if |ops| > |init| {
      var m := |ops| - 1;
      assert ops == ops[..m] + [ops[m]] && init <= ops[..m];
      MisordersGrow(n, init, ops[..m]);
      RunSnoc(n, ops[..m], ops[m]);
      LastMisorderDecides(n, init, ops[..m]);
      PreservedStep(n, ops[..m], ops[m]);
    } else {
      assert ops == init;
    }
  }

  lemma {:induction false} MisordersGrow(n: nat, init: seq<Op>, ops: seq<Op>)
    requires AllWithin(init, n) && AllWithin(ops, n) && init <= ops
    ensures Misordered(n, init) <= Misordered(n, ops)
    decreases |ops|
  {
    if |ops| > |init| {
      assert init <= ops[..|ops| - 1];
      MisordersGrow(n, init, ops[..|ops| - 1]);
    } else {
      assert ops == init;
    }
  }

  // ---------------------------------------------------------------- circuits without turns about y

  lemma {:induction false} NoRyHeld(n: nat, ops: seq<Op>)
    requires AllWithin(ops, n) && forall op :: op in ops ==> !op.Ry? && !op.U?
    ensures Misordered(n, ops) == 0 && forall i :: 0 <= i < n ==> !RunAll(n, ops).held[i].ry
    decreases |ops|
  {
    if ops != [] {
      NoRyHeld(n, ops[..|ops| - 1]);
      NoRyStep(RunAll(n, ops[..|ops| - 1]), ops[|ops| - 1]);
    }
  }

  lemma NoRyStep(d: Deferral, op: Op)
    requires Within(op, |d.held|) && !op.Ry? && !op.U? && d.Tidy()
    requires forall i :: 0 <= i < |d.held| ==> !d.held[i].ry
    ensures forall i :: 0 <= i < |d.held| ==> !Step(d, op).held[i].ry
  {}

  /** Circuits over I, X, Y, Z, H, S, T, Rx, Rz and the two-qubit gates always come out right. */
  lemma WithoutRyPreserved(n: nat, ops: seq<Op>)
    requires AllWithin(ops, n) && forall op :: op in ops ==> !op.Ry? && !op.U?
    ensures Same(RunAll(n, ops).Circuit(), Meanings(ops))
  {
    NoRyHeld(n, ops);
    DeferralPreserves(n, ops);
  }

  function Half(c: nat, t: nat, a: Angle): seq<Op> {
    [Op.Ry(t, a), Op.H(t), Op.H(c), Op.CNOT(c, t)]
  }

  lemma RyThenH(n: nat, t: nat, a: Angle)
    requires t < n
    ensures AllWithin([Op.Ry(t, a), Op.H(t)], n) && Misordered(n, [Op.Ry(t, a), Op.H(t)]) == 0
    ensures RunAll(n, [Op.Ry(t, a), Op.H(t)]) == StepH(StepRy(Fresh(n), t, a), t)
  {
    var none: seq<Op> := [];
    TwoSteps(n, none, Op.Ry(t, a), Op.H(t), Fresh(n), StepRy(Fresh(n), t, a));
    assert none + [Op.Ry(t, a), Op.H(t)] == [Op.Ry(t, a), Op.H(t)];
  }

  lemma HThenCNOT(n: nat, init: seq<Op>, q: nat, c: nat, t: nat, d: Deferral)
    requires AllWithin(init, n) && q < n && c < n && t < n && c != t && d == RunAll(n, init)
    ensures AllWithin(init + [Op.H(q), Op.CNOT(c, t)], n)
    ensures RunAll(n, init + [Op.H(q), Op.CNOT(c, t)]) == StepCNOT(StepH(d, q), c, t)
    ensures Misordered(n, init + [Op.H(q), Op.CNOT(c, t)]) == Misordered(n, init) + if Misorders(StepH(d, q), c, t) then 1 else 0
  {
    TwoSteps(n, init, Op.H(q), Op.CNOT(c, t), d, StepH(d, q));
  }

  lemma ZThenRy(n: nat, init: seq<Op>, q: nat, a: Angle, d: Deferral)
    requires AllWithin(init, n) && q < n && d == RunAll(n, init)
    ensures AllWithin(init + [Op.Z(q), Op.Ry(q, a)], n) && Misordered(n, init + [Op.Z(q), Op.Ry(q, a)]) == Misordered(n, init)
    ensures RunAll(n, init + [Op.Z(q), Op.Ry(q, a)]) == StepRy(StepZ(d, q), q, a)
  {
    TwoSteps(n, init, Op.Z(q), Op.Ry(q, a), d, StepZ(d, q));
  }

  lemma HalfRun(n: nat, c: nat, t: nat, a: Angle)
    requires c < n && t < n && c != t
    ensures AllWithin(Half(c, t, a), n) && Misordered(n, Half(c, t, a)) == 1
    ensures RunAll(n, Half(c, t, a))
         == Deferral([Gate.H(t), Gate.Ry(t, a.Minus()), Gate.CNOT(c, t)], Fresh(n).held[c := NOTHING.(h := true)])
  {
    var e := StepRy(Fresh(n), t, a);
    FirstRound(n, c, t, a);
    RyThenH(n, t, a);
    HThenCNOT(n, [Op.Ry(t, a), Op.H(t)], c, c, t, StepH(e, t));
    assert [Op.Ry(t, a), Op.H(t)] + [Op.H(c), Op.CNOT(c, t)] == Half(c, t, a);
  }

  /** A turn about y and an H on the target, an H on the control, then the CNOT: never preserved. */
  lemma RyHHCNOTNotPreserved(n: nat, c: nat, t: nat, a: Angle)
    requires c < n && t < n && c != t && a.Proper()
    ensures var ops := [Op.Ry(t, a), Op.H(t), Op.H(c), Op.CNOT(c, t)];
            AllWithin(ops, n) && !Same(RunAll(n, ops).Circuit(), Meanings(ops))
  {
    HalfRun(n, c, t, a);
    HalfProper(c, t, a);
    DeferralFails(n, Half(c, t, a));
  }

  lemma HalfProper(c: nat, t: nat, a: Angle)
    requires c != t && a.Proper()
    ensures forall op :: op in Half(c, t, a) ==> ProperOp(op)
  {}

  /** Two more steps. */
  lemma TwoSteps(n: nat, init: seq<Op>, op1: Op, op2: Op, d: Deferral, e: Deferral)
    requires AllWithin(init, n) && Within(op1, n) && Within(op2, n) && !op1.CNOT?
    requires d == RunAll(n, init) && e == Step(d, op1)
    ensures AllWithin(init + [op1, op2], n) && |e.held| == n
    ensures RunAll(n, init + [op1, op2]) == Step(e, op2)
    ensures Misordered(n, init + [op1, op2]) == Misordered(n, init) + if StepMisorders(e, op2) then 1 else 0
  {
    RunSnoc(n, init, op1);
    RunSnoc(n, init + [op1], op2);
    assert init + [op1] + [op2] == init + [op1, op2];
  }

  lemma RunSnoc(n: nat, ops: seq<Op>, op: Op)
    requires AllWithin(ops, n) && Within(op, n)
    ensures RunAll(n, ops + [op]) == Step(RunAll(n, ops), op)
    ensures Misordered(n, ops + [op]) == Misordered(n, ops) + if StepMisorders(RunAll(n, ops), op) then 1 else 0
  {
    assert (ops + [op])[..|ops|] == ops;
  }

  // ---------------------------------------------------------------- two wrongs that make a right

  /** Z, a quarter turn about y and H cancel, and so do Z, H and the quarter turn back. */
  lemma QuarterTurnCancels(t: nat)
    ensures Same([Gate.Z(t), Gate.Ry(t, QUARTER_TURN), Gate.H(t)], [])
    ensures Same([Gate.Z(t), Gate.H(t), Gate.Ry(t, QUARTER_TURN.Minus())], [])
  {
    var z, y, h, back := Gate.Z(t), Gate.Ry(t, QUARTER_TURN), Gate.H(t), Gate.Ry(t, QUARTER_TURN.Minus());
    forall f: Letter -> real, l: Letter
      ensures Expect(LetterPull, [z, y, h], f, l) == Expect(LetterPull, [], f, l)
    {
      var d := LetterPull(h, l);
      assert [z, y, h] == [z, y] + [h];
      ExpectSnoc(LetterPull, [z, y], h, f, l);
      ExpectPair(LetterPull, z, y, f, d.p);
    }
    OneQubitRule([z, y, h], [], t);
    PassesBefore(y, h);
    Rewrite(Pull, [z, h, back], [z, y, h], [z], [h, back], [y, h], []);
    AlikeTrans(Pull, [z, h, back], [z, y, h], []);
  }

  /** Ry and H on the target and an H held on the control: the CNOT goes before the H that it should follow. */
  lemma OneRound(d: Deferral, c: nat, t: nat, a: Angle)
    requires c < |d.held| && t < |d.held| && c != t && d.held[t] == NOTHING && d.held[c] == NOTHING.(h := true)
    ensures var e := StepH(StepRy(d, t, a), t);
            Misorders(e, c, t)
            && StepCNOT(e, c, t) == Deferral(d.emitted + [Gate.H(t), Gate.Ry(t, a.Minus()), Gate.CNOT(c, t)], d.held)
  {
    var e := StepH(StepRy(d, t, a), t);
    assert NO_TURN.Plus(a) == a;
    assert e.held[t] == Held(true, false, NO_TURN, true, a.Minus()) && e.held[c] == d.held[c];
    assert e.emitted == d.emitted;
    var f := BeforeCNOT(e, c, t);
    assert LayerOf(e.held[t], t) == [Gate.H(t), Gate.Ry(t, a.Minus())];
    assert f.held == d.held;
    assert f.emitted == d.emitted + [Gate.H(t), Gate.Ry(t, a.Minus())];
  }

  function TwiceMisordered(c: nat, t: nat, a: Angle): seq<Op> {
    [Op.Ry(t, a), Op.H(t), Op.H(c), Op.CNOT(c, t), Op.Z(t), Op.Ry(t, QUARTER_TURN), Op.H(t), Op.CNOT(c, t)]
  }

  lemma FirstRound(n: nat, c: nat, t: nat, a: Angle)
    requires c < n && t < n && c != t
    ensures var e := StepH(StepH(StepRy(Fresh(n), t, a), t), c);
            Misorders(e, c, t)
            && StepCNOT(e, c, t) == Deferral([Gate.H(t), Gate.Ry(t, a.Minus()), Gate.CNOT(c, t)], Fresh(n).held[c := NOTHING.(h := true)])
  {
    var d := StepH(Fresh(n), c);
    OneRound(d, c, t, a);
    assert StepH(StepRy(d, t, a), t).held == StepH(StepH(StepRy(Fresh(n), t, a), t), c).held;
    assert d.emitted == [] && d.held == Fresh(n).held[c := NOTHING.(h := true)];
  }

  lemma SecondRound(d: Deferral, c: nat, t: nat)
    requires c < |d.held| && t < |d.held| && c != t && d.held[t] == NOTHING && d.held[c] == NOTHING.(h := true)
    ensures var e := StepH(StepRy(StepZ(d, t), t, QUARTER_TURN), t);
            Misorders(e, c, t)
            && StepCNOT(e, c, t) == Deferral(d.emitted + [Gate.Z(t)]
                                             + [Gate.H(t), Gate.Ry(t, QUARTER_TURN.Minus()), Gate.CNOT(c, t)], d.held)
  {
    var z := StepZ(d, t);
    assert z.held == d.held && z.emitted == d.emitted + [Gate.Z(t)];
    OneRound(z, c, t, QUARTER_TURN);
  }

  /** What the pass emits for it, and what it still holds. */
  lemma TwiceMisorderedRun(n: nat, c: nat, t: nat, a: Angle)
    requires c < n && t < n && c != t
    ensures AllWithin(TwiceMisordered(c, t, a), n) && Misordered(n, TwiceMisordered(c, t, a)) == 2
    ensures RunAll(n, TwiceMisordered(c, t, a))
         == Deferral([Gate.H(t), Gate.Ry(t, a.Minus()), Gate.CNOT(c, t)] + [Gate.Z(t)]
                       + [Gate.H(t), Gate.Ry(t, QUARTER_TURN.Minus()), Gate.CNOT(c, t)],
                     Fresh(n).held[c := NOTHING.(h := true)])
  {
    HalfRun(n, c, t, a);
    SecondHalf(n, c, t, Half(c, t, a), RunAll(n, Half(c, t, a)));
    assert Half(c, t, a) + [Op.Z(t), Op.Ry(t, QUARTER_TURN)] + [Op.H(t), Op.CNOT(c, t)] == TwiceMisordered(c, t, a);
  }

  lemma SecondHalf(n: nat, c: nat, t: nat, half: seq<Op>, d: Deferral)
    requires c < n && t < n && c != t && AllWithin(half, n) && d == RunAll(n, half)
    requires d.held[t] == NOTHING && d.held[c] == NOTHING.(h := true)
    ensures var ops := half + [Op.Z(t), Op.Ry(t, QUARTER_TURN)] + [Op.H(t), Op.CNOT(c, t)];
            && AllWithin(ops, n) && Misordered(n, ops) == Misordered(n, half) + 1
            && RunAll(n, ops) == Deferral(d.emitted + [Gate.Z(t)]
                                          + [Gate.H(t), Gate.Ry(t, QUARTER_TURN.Minus()), Gate.CNOT(c, t)], d.held)
  {
    var e := StepRy(StepZ(d, t), t, QUARTER_TURN);
    SecondRound(d, c, t);
    ZThenRy(n, half, t, QUARTER_TURN, d);
    HThenCNOT(n, half + [Op.Z(t), Op.Ry(t, QUARTER_TURN)], t, c, t, e);
  }

  lemma OnlyHLayers(n: nat, c: nat)
    requires c < n
    ensures Same(Layers(Fresh(n).held[c := NOTHING.(h := true)]), [Gate.H(c)])
  {
    var held := Fresh(n).held[c := NOTHING.(h := true)];
    assert held[c := NOTHING] == Fresh(n).held;
    Isolate(held, c);
    FreshCircuit(n);
    assert LayerOf(held[c], c) == [Gate.H(c)];
    assert [] + [Gate.H(c)] == [Gate.H(c)];
  }

  /** The input comes down to Ry and two H. */
  lemma InputReduces(c: nat, t: nat, a: Angle)
    requires c != t
    ensures Same(Meanings(TwiceMisordered(c, t, a)), [Gate.Ry(t, a), Gate.H(t), Gate.H(c)])
  {
    var y, h, k, g := Gate.Ry(t, a), Gate.H(t), Gate.H(c), Gate.CNOT(c, t);
    var middle := [Gate.Z(t), Gate.Ry(t, QUARTER_TURN), Gate.H(t)];
    var whole := [y, h, k, g] + middle + [g];
    TwiceMeanings(c, t, a);
    QuarterTurnCancels(t);
    GateInverts(g);
    Rewrite(Pull, whole, [y, h, k, g, g], [y, h, k, g], middle, [], [g]);
    Rewrite(Pull, [y, h, k, g, g], [y, h, k], [y, h, k], [g, g], [], []);
    AlikeTrans(Pull, whole, [y, h, k, g, g], [y, h, k]);
  }

  lemma TwoMeanings(init: seq<Op>, o1: Op, o2: Op)
    ensures Meanings(init + [o1, o2]) == Meanings(init) + Meaning(o1) + Meaning(o2)
  {
    MeaningsSnoc(init, o1);
    MeaningsSnoc(init + [o1], o2);
    assert init + [o1] + [o2] == init + [o1, o2];
  }

  lemma HalfMeanings(c: nat, t: nat, a: Angle)
    ensures Meanings(Half(c, t, a)) == [Gate.Ry(t, a), Gate.H(t), Gate.H(c), Gate.CNOT(c, t)]
  {
    var none: seq<Op> := [];
    TwoMeanings(none, Op.Ry(t, a), Op.H(t));
    assert none + [Op.Ry(t, a), Op.H(t)] == [Op.Ry(t, a), Op.H(t)];
    TwoMeanings([Op.Ry(t, a), Op.H(t)], Op.H(c), Op.CNOT(c, t));
    assert [Op.Ry(t, a), Op.H(t)] + [Op.H(c), Op.CNOT(c, t)] == Half(c, t, a);
  }

  lemma TwiceMeanings(c: nat, t: nat, a: Angle)
    ensures Meanings(TwiceMisordered(c, t, a))
         == [Gate.Ry(t, a), Gate.H(t), Gate.H(c), Gate.CNOT(c, t)] + [Gate.Z(t), Gate.Ry(t, QUARTER_TURN), Gate.H(t)]
            + [Gate.CNOT(c, t)]
  {
    HalfMeanings(c, t, a);
    TwoMeanings(Half(c, t, a), Op.Z(t), Op.Ry(t, QUARTER_TURN));
    TwoMeanings(Half(c, t, a) + [Op.Z(t), Op.Ry(t, QUARTER_TURN)], Op.H(t), Op.CNOT(c, t));
    assert Half(c, t, a) + [Op.Z(t), Op.Ry(t, QUARTER_TURN)] + [Op.H(t), Op.CNOT(c, t)] == TwiceMisordered(c, t, a);
  }

  /** And so does the output. */
  lemma OutputReduces(c: nat, t: nat, a: Angle, output: seq<Gate>, layers: seq<Gate>)
    requires c != t && Same(layers, [Gate.H(c)])
    requires output == [Gate.H(t), Gate.Ry(t, a.Minus()), Gate.CNOT(c, t)] + [Gate.Z(t)]
                     + [Gate.H(t), Gate.Ry(t, QUARTER_TURN.Minus()), Gate.CNOT(c, t)] + layers
    ensures Same(output, [Gate.Ry(t, a), Gate.H(t), Gate.H(c)])
  {
    var y, h, b, k, g := Gate.Ry(t, a), Gate.H(t), Gate.Ry(t, a.Minus()), Gate.H(c), Gate.CNOT(c, t);
    var middle := [Gate.Z(t), Gate.H(t), Gate.Ry(t, QUARTER_TURN.Minus())];
    var x1, x2, x3, x4 := [h, b, g] + middle + [g, k], [h, b, g, g, k], [h, b, k], [y, h, k];
    QuarterTurnCancels(t);
    GateInverts(g);
    PassesBefore(y, h);
    Rewrite(Pull, output, x1, [h, b, g] + middle + [g], layers, [k], []);
    Rewrite(Pull, x1, x2, [h, b, g], middle, [], [g, k]);
    Rewrite(Pull, x2, x3, [h, b], [g, g], [], [k]);
    Rewrite(Pull, x3, x4, [], [h, b], [y, h], [k]);
    AlikeTrans(Pull, output, x1, x2);
    AlikeTrans(Pull, output, x2, x3);
    AlikeTrans(Pull, output, x3, x4);
  }

  /** A circuit with two misordered CNOTs that is preserved all the same. */
  lemma TwiceMisorderedPreserved(n: nat, c: nat, t: nat, a: Angle)
    requires c < n && t < n && c != t
    ensures var ops := TwiceMisordered(c, t, a);
            Misordered(n, ops) == 2 && Same(RunAll(n, ops).Circuit(), Meanings(ops))
  {
    var d := RunAll(n, TwiceMisordered(c, t, a));
    TwiceMisorderedRun(n, c, t, a);
    OnlyHLayers(n, c);
    OutputReduces(c, t, a, d.Circuit(), Layers(d.held));
    InputReduces(c, t, a);
    AlikeTrans(Pull, d.Circuit(), [Gate.Ry(t, a), Gate.H(t), Gate.H(c)], Meanings(TwiceMisordered(c, t, a)));
  }
}
