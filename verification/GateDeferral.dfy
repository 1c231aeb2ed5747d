/**
 * The gate deferral pass: queues per qubit, a queue of phases and permutations, and the rewritten
 * circuit. Every method is proved against a step of the machine.
 */
module GateDeferral {
  import G = Gates
  import opened PauliPicture
  import opened HeldGates
  import opened DeferralSteps
  import opened DeferralRuns

  datatype Instruction = Supported(op: Op) | Measure(qubit: nat) | Unsupported

  function Ops(circuit: seq<Instruction>): seq<Op> {
    if circuit == [] then []
    else Ops(circuit[..|circuit| - 1]) + if circuit[|circuit| - 1].Supported? then [circuit[|circuit| - 1].op] else []
  }

  function Measured(circuit: seq<Instruction>): seq<nat> {
    if circuit == [] then []
    else Measured(circuit[..|circuit| - 1]) + if circuit[|circuit| - 1].Measure? then [circuit[|circuit| - 1].qubit] else []
  }

  datatype Level = UpToH | UpToRx | UpToRy | Nothing

  /** The five vectors, read qubit by qubit. */
  function Bundle(h: seq<bool>, rx: seq<bool>, ax: seq<Angle>, ry: seq<bool>, ay: seq<Angle>): (ps: seq<Held>)
    requires |h| == |rx| == |ax| == |ry| == |ay|
    ensures |ps| == |h|
  {
    seq(|h|, i requires 0 <= i < |h| => Held(h[i], rx[i], ax[i], ry[i], ay[i]))
  }

  class Pass {
    const numQubits: nat
    var queueRx: seq<bool>
    var queueRy: seq<bool>
    var queueH: seq<bool>
    var anglesRx: seq<Angle>
    var anglesRy: seq<Angle>
    var queuedGates: seq<Gate>
    var modifiedCircuit: seq<Gate>
    var measure: seq<nat>

    ghost predicate Sized()
      reads this
    {
      |queueH| == |queueRx| == |queueRy| == |anglesRx| == |anglesRy| == numQubits
    }

    /** What was emitted, queued phases and permutations included, and what is held on each qubit. */
    ghost function State(): Deferral
      requires Sized()
      reads this
    {
      Deferral(modifiedCircuit + queuedGates, Bundle(queueH, queueRx, anglesRx, queueRy, anglesRy))
    }

    ghost predicate Valid()
      reads this
    {
      Sized() && State().Tidy()
    }

    constructor (n: nat)
      ensures numQubits == n && Valid() && State() == Fresh(n) && measure == []
    {
      numQubits := n;
      queueRx, queueRy, queueH := seq(n, _ => false), seq(n, _ => false), seq(n, _ => false);
      anglesRx, anglesRy := seq(n, _ => NO_TURN), seq(n, _ => NO_TURN);
      queuedGates, modifiedCircuit, measure := [], [], [];
    }

    // -------------------------------------------------------------- releasing

    method ExecutePhaseAndPermute()
      requires Sized()
      modifies this`modifiedCircuit, this`queuedGates
      ensures queuedGates == [] && modifiedCircuit == old(modifiedCircuit + queuedGates)
    {
      for i := 0 to |queuedGates|
        invariant queuedGates == old(queuedGates)
        invariant modifiedCircuit == old(modifiedCircuit) + queuedGates[..i]
      {
        modifiedCircuit := modifiedCircuit + [queuedGates[i]];
      }
      queuedGates := [];
    }

    method ExecuteH(q: nat)
      requires Valid() && q < numQubits && queuedGates == []
      modifies this`modifiedCircuit, this`queueH
      ensures queueH == old(queueH)[q := false] && queuedGates == []
      ensures Valid() && State() == var d := old(State());
                                    Deferral(d.emitted + HPart(d.held[q], q), d.held[q := d.held[q].(h := false)])
    {
      if queueH[q] {
        modifiedCircuit := modifiedCircuit + [Gate.H(q)];
        queueH := queueH[q := false];
      }
      assert State().held == old(State().held)[q := old(State().held)[q].(h := false)];
    }

    method ExecuteRxH(q: nat)
      requires Valid() && q < numQubits && queuedGates == []
      modifies this`modifiedCircuit, this`queueH, this`queueRx, this`anglesRx
      ensures queueH == old(queueH)[q := false] && queueRx == old(queueRx)[q := false]
      ensures anglesRx == old(anglesRx)[q := NO_TURN] && queuedGates == []
      ensures Valid() && State() == ReleaseToRx(old(State()), q)
    {
      assert State().held[q].Tidy();
      ExecuteH(q);
      if queueRx[q] {
        modifiedCircuit := modifiedCircuit + [Gate.Rx(q, anglesRx[q])];
        anglesRx := anglesRx[q := NO_TURN];
        queueRx := queueRx[q := false];
      }
      assert State().held == ReleaseToRx(old(State()), q).held;
    }

    method ExecuteRyRxH(q: nat)
      requires Valid() && q < numQubits && queuedGates == []
      modifies this`modifiedCircuit, this`queueH, this`queueRx, this`anglesRx, this`queueRy, this`anglesRy
      ensures Valid() && State() == Release(old(State()), q)
    {
      ghost var m, p := modifiedCircuit + queuedGates, State().held[q];
      assert p.Tidy();
      ExecuteRxH(q);
      if queueRy[q] {
        modifiedCircuit := modifiedCircuit + [Gate.Ry(q, anglesRy[q])];
        anglesRy := anglesRy[q := NO_TURN];
        queueRy := queueRy[q := false];
      }
      assert State().held == Release(old(State()), q).held;
      assert State().emitted == m + HPart(p, q) + XPart(p, q) + YPart(p, q) == m + LayerOf(p, q);
    }

    /** All phases and permutations, then what is held on q up to the given level. */
    method ExecuteQueuedOps(q: nat, level: Level)
      requires Valid() && q < numQubits
      modifies this
      ensures Valid() && queuedGates == [] && measure == old(measure)
      ensures var d := old(State());
              State() == match level
                         case UpToRy => Release(d, q)
                         case UpToRx => ReleaseToRx(d, q)
                         case UpToH => Deferral(d.emitted + HPart(d.held[q], q), d.held[q := d.held[q].(h := false)])
                         case Nothing => d
    {
      ExecutePhaseAndPermute();
      assert State() == old(State());
      match level
      case UpToRy => ExecuteRyRxH(q);
      case UpToRx => ExecuteRxH(q);
      case UpToH => ExecuteH(q);
      case Nothing =>
    }

    method ExecuteIf(q: nat)
      requires Valid() && q < numQubits
      modifies this
      ensures Valid() && State() == Release(old(State()), q) && measure == old(measure)
    {
      if queueRy[q] || queueRx[q] || queueH[q] {
        ExecuteQueuedOps(q, UpToRy);
      } else {
        assert State().held[q] == NOTHING;
        assert State().held[q := NOTHING] == State().held;
      }
    }

    // -------------------------------------------------------------- one-qubit gates

    method I(q: nat)
      requires Valid() && q < numQubits
      ensures Valid()
    {
    }

    method H(q: nat)
      requires Valid() && q < numQubits
      modifies this
      ensures Valid() && State() == StepH(old(State()), q) && measure == old(measure)
    {
      ghost var p := State().held[q];
      assert p.Tidy();
      anglesRy := anglesRy[q := if queueRy[q] then anglesRy[q].Minus() else anglesRy[q]];
      assert State().held == old(State()).held[q := p.(ay := Reversed(p.ry, p.ay))];
      if queueRx[q] {
        ExecuteQueuedOps(q, UpToRx);
      }
      ghost var d := State();
      queueH := queueH[q := !queueH[q]];
      assert State().held == d.held[q := d.held[q].(h := !d.held[q].h)];
      assert State().held == StepH(old(State()), q).held;
    }

    method X(q: nat)
      requires Valid() && q < numQubits
      modifies this`queuedGates, this`anglesRy
      ensures Valid() && State() == StepX(old(State()), q)
    {
      if queueRy[q] {
        anglesRy := anglesRy[q := anglesRy[q].Minus()];
      }
      assert State().held == StepX(old(State()), q).held;
      if queueH[q] {
        queuedGates := queuedGates + [Gate.Z(q)];
        return;
      }
      queuedGates := queuedGates + [Gate.X(q)];
    }

    method Y(q: nat)
      requires Valid() && q < numQubits
      modifies this`queuedGates, this`anglesRx
      ensures Valid() && State() == StepY(old(State()), q)
    {
      if queueRx[q] {
        anglesRx := anglesRx[q := anglesRx[q].Minus()];
      }
      assert State().held == StepY(old(State()), q).held;
      queuedGates := queuedGates + [Gate.Y(q)];
    }

    method Z(q: nat)
      requires Valid() && q < numQubits
      modifies this`queuedGates, this`anglesRx, this`anglesRy
      ensures Valid() && State() == StepZ(old(State()), q)
    {
      if queueRy[q] {
        anglesRy := anglesRy[q := anglesRy[q].Minus()];
      }
      if queueRx[q] {
        anglesRx := anglesRx[q := anglesRx[q].Minus()];
      }
      assert State().held == StepZ(old(State()), q).held;
      if queueH[q] {
        queuedGates := queuedGates + [Gate.X(q)];
        return;
      }
      queuedGates := queuedGates + [Gate.Z(q)];
    }

    // -------------------------------------------------------------- turns

    method Phase(q: nat, angle: Angle)
      requires Valid() && q < numQubits
      modifies this
      ensures Valid() && State() == StepPhase(old(State()), q, angle) && measure == old(measure)
    {
      ExecuteIf(q);
      queuedGates := queuedGates + [U1(q, angle)];
    }

    method Ry(q: nat, angle: Angle)
      requires Valid() && q < numQubits
      modifies this`queueRy, this`anglesRy
      ensures Valid() && State() == StepRy(old(State()), q, angle)
    {
      queueRy := queueRy[q := true];
      anglesRy := anglesRy[q := anglesRy[q].Plus(angle)];
      assert State().held == StepRy(old(State()), q, angle).held;
    }

    method Rx(q: nat, angle: Angle)
      requires Valid() && q < numQubits
      modifies this
      ensures Valid() && State() == StepRx(old(State()), q, angle) && measure == old(measure)
    {
      if queueRy[q] {
        ExecuteQueuedOps(q, UpToRy);
      }
      QueueRx(q, anglesRx[q].Plus(angle));
    }

    method QueueRx(q: nat, sum: Angle)
      requires Valid() && q < numQubits
      modifies this`queueRx, this`anglesRx
      ensures Valid() && State() == var d := old(State()); d.(held := d.held[q := d.held[q].(rx := true, ax := sum)])
    {
      queueRx := queueRx[q := true];
      anglesRx := anglesRx[q := sum];
      assert State().held == old(State()).held[q := old(State()).held[q].(rx := true, ax := sum)];
    }

    method Rz(q: nat, angle: Angle)
      requires Valid() && q < numQubits
      modifies this
      ensures Valid() && State() == StepPhase(old(State()), q, angle) && measure == old(measure)
    {
      if queueRy[q] {
        ExecuteQueuedOps(q, UpToRy);
      }
      if queueRx[q] {
        ExecuteQueuedOps(q, Nothing);
      }
      ghost var d := State();
      if queueH[q] {
        ExecuteQueuedOps(q, UpToH);
      }
      ReleasedInParts(d, State(), q);
      ReleasedTwice(old(State()), q);
      Phase(q, angle);
    }

    method U(q: nat, theta: Angle, phi: Angle, lambda: Angle)
      requires Valid() && q < numQubits
      modifies this
      ensures Valid() && State() == StepPhase(StepRy(StepPhase(old(State()), q, lambda), q, theta), q, phi)
      ensures measure == old(measure)
    {
      Rz(q, lambda);
      Ry(q, theta);
      Rz(q, phi);
    }

    // -------------------------------------------------------------- two-qubit gates

    method ReleaseForCNOT(c: nat, t: nat)
      requires Valid() && c < numQubits && t < numQubits && c != t
      modifies this
      ensures Valid() && State() == BeforeCNOT(old(State()), c, t) && measure == old(measure)
    {
      if queueRy[c] || queueRx[c] || (queueH[c] && !queueH[t]) {
        ExecuteQueuedOps(c, UpToRy);
      }
      if queueRy[t] {
        ExecuteQueuedOps(t, UpToRy);
      }
    }

    method CNOT(c: nat, t: nat)
      requires Valid() && c < numQubits && t < numQubits && c != t
      modifies this
      ensures Valid() && State() == StepCNOT(old(State()), c, t) && measure == old(measure)
    {
      ReleaseForCNOT(c, t);
      if queueH[t] {
        if queueH[c] {
          queuedGates := queuedGates + [Gate.CNOT(t, c)];
        } else {
          queuedGates := queuedGates + [Gate.CZ(c, t)];
        }
        return;
      }
      queuedGates := queuedGates + [Gate.CNOT(c, t)];
    }

    method CY(c: nat, t: nat)
      requires Valid() && c < numQubits && t < numQubits && c != t
      modifies this
      ensures Valid() && State() == StepCY(old(State()), c, t) && measure == old(measure)
    {
      ExecuteIf(c);
      if queueRx[t] {
        ExecuteQueuedOps(t, UpToRx);
      }
      if queueH[t] {
        queuedGates := queuedGates + [Gate.Z(c)];
      }
      queuedGates := queuedGates + [Gate.CY(c, t)];
    }

    method CZ(c: nat, t: nat)
      requires Valid() && c < numQubits && t < numQubits && c != t
      modifies this
      ensures Valid() && State() == StepCZ(old(State()), c, t) && measure == old(measure)
    {
      var count := 0;
      if queueRy[c] || queueRx[c] { count := count + 2; }
      if queueH[c] { count := count + 1; }
      if queueRy[t] || queueRx[t] { count := count + 2; }
      if queueH[t] { count := count + 1; }
      if count > 1 {
        ExecuteQueuedOps(c, UpToRy);
        ExecuteQueuedOps(t, UpToRy);
      } else if count == 1 {
        var newControl, target := c, t;
        if queueH[newControl] {
          newControl, target := target, newControl;
        }
        queuedGates := queuedGates + [Gate.CNOT(newControl, target)];
        return;
      }
      queuedGates := queuedGates + [Gate.CZ(c, t)];
    }

    method SWAP(c: nat, t: nat)
      requires Valid() && c < numQubits && t < numQubits && c != t
      modifies this
      ensures Valid() && State() == StepSwap(old(State()), c, t)
      ensures measure == old(measure) && modifiedCircuit == old(modifiedCircuit)
    {
      var a, b := c, t;
      if a > b {
        a, b := b, a;
      }
      queueRy := queueRy[a := queueRy[b]][b := queueRy[a]];
      anglesRy := anglesRy[a := anglesRy[b]][b := anglesRy[a]];
      queueRx := queueRx[a := queueRx[b]][b := queueRx[a]];
      anglesRx := anglesRx[a := anglesRx[b]][b := anglesRx[a]];
      queueH := queueH[a := queueH[b]][b := queueH[a]];
      queuedGates := queuedGates + [Swap(a, b)];
      assert State().held == StepSwap(old(State()), c, t).held;
    }

    // -------------------------------------------------------------- whole circuits

    method ApplyGate(op: Op)
      requires Valid() && Within(op, numQubits)
      modifies this
      ensures Valid() && State() == Step(old(State()), op) && measure == old(measure)
    {
      if OnPair(op) {
        ApplyTwoQubitGate(op);
      } else if IsPhase(op) {
        ApplyPhase(op);
      } else if op.Rx? || op.Ry? || op.U? {
        ApplyTurn(op);
      } else {
        ApplyFixedGate(op);
      }
    }

    method ApplyFixedGate(op: Op)
      requires Valid() && Within(op, numQubits) && (op.I? || op.H? || op.X? || op.Y? || op.Z?)
      modifies this
      ensures Valid() && State() == Step(old(State()), op) && measure == old(measure)
    {
      match op
      case I(q) => I(q);
      case H(q) => H(q);
      case X(q) => X(q);
      case Y(q) => Y(q);
      case Z(q) => Z(q);
    }

    method ApplyTurn(op: Op)
      requires Valid() && Within(op, numQubits) && (op.Rx? || op.Ry? || op.U?)
      modifies this
      ensures Valid() && State() == Step(old(State()), op) && measure == old(measure)
    {
      match op
      case Rx(q, a) => Rx(q, a);
      case Ry(q, a) => Ry(q, a);
      case U(q, theta, phi, lambda) => U(q, theta, phi, lambda);
    }

    method ApplyPhase(op: Op)
      requires Valid() && Within(op, numQubits) && IsPhase(op)
      modifies this
      ensures Valid() && State() == Step(old(State()), op) && measure == old(measure)
    {
      PhaseStep(State(), op);
      match op
      case S(q) => Phase(q, QUARTER_TURN);
      case Sdg(q) => Phase(q, QUARTER_TURN.Minus());
      case T(q, eighth) => Phase(q, eighth);
      case Tdg(q, eighth) => Phase(q, eighth.Minus());
      case Rz(q, a) => Rz(q, a);
    }

    method ApplyTwoQubitGate(op: Op)
      requires Valid() && Within(op, numQubits) && OnPair(op)
      modifies this
      ensures Valid() && State() == Step(old(State()), op) && measure == old(measure)
    {
      match op
      case CNOT(c, t) => CNOT(c, t);
      case CY(c, t) => CY(c, t);
      case CZ(c, t) => CZ(c, t);
      case SWAP(c, t) => SWAP(c, t);
    }

    /** Queues what is held on qubit i. */
    method QueueHeld(i: nat)
      requires Valid() && i < numQubits
      modifies this`queuedGates
      ensures queuedGates == old(queuedGates) + LayerOf(old(State()).held[i], i)
    {
      ghost var p := State().held[i];
      if queueH[i] { queuedGates := queuedGates + [Gate.H(i)]; }
      if queueRx[i] { queuedGates := queuedGates + [Gate.Rx(i, anglesRx[i])]; }
      if queueRy[i] { queuedGates := queuedGates + [Gate.Ry(i, anglesRy[i])]; }
      assert queuedGates == old(queuedGates) + HPart(p, i) + XPart(p, i) + YPart(p, i);
    }

    /** Everything held is queued after the phases and permutations, and the queue is emitted. */
    method AddBackQueuedGates()
      requires Valid()
      modifies this`queuedGates, this`modifiedCircuit
      ensures queuedGates == [] && modifiedCircuit == old(State()).Circuit()
    {
      ghost var m, queue, held := modifiedCircuit, queuedGates, State().held;
      for i := 0 to numQubits
        invariant modifiedCircuit == m && State().held == held
        invariant queuedGates == queue + Layers(held[..i])
      {
        LayersSnoc(held, i);
        G.AssociateThree(queue, Layers(held[..i]), LayerOf(held[i], i));
        QueueHeld(i);
      }
      assert held[..numQubits] == held;
      G.AssociateThree(m, queue, Layers(held));
      ExecutePhaseAndPermute();
    }

    method ApplyInstruction(instruction: Instruction)
      requires Valid() && !instruction.Unsupported? && (instruction.Supported? ==> Within(instruction.op, numQubits))
      modifies this
      ensures Valid()
      ensures State() == if instruction.Supported? then Step(old(State()), instruction.op) else old(State())
      ensures measure == old(measure) + if instruction.Measure? then [instruction.qubit] else []
    {
      match instruction
      case Supported(op) => ApplyGate(op);
      case Measure(qubit) => measure := measure + [qubit];
    }

    /** The instruction after the first i, from the state they lead to. */
    method ReadInstruction(circuit: seq<Instruction>, i: nat)
      requires i < |circuit| && !circuit[i].Unsupported? && DeferralRuns.AllWithin(Ops(circuit), numQubits)
      requires DeferralRuns.AllWithin(Ops(circuit[..i]), numQubits)
      requires Valid() && State() == RunAll(numQubits, Ops(circuit[..i])) && measure == Measured(circuit[..i])
      modifies this
      ensures DeferralRuns.AllWithin(Ops(circuit[..i + 1]), numQubits)
      ensures Valid() && State() == RunAll(numQubits, Ops(circuit[..i + 1])) && measure == Measured(circuit[..i + 1])
    {
      OpsSnoc(circuit, i);
      OpsPrefix(circuit, i + 1);
      if circuit[i].Supported? {
        RunSnoc(numQubits, Ops(circuit[..i]), circuit[i].op);
      } else {
        assert Ops(circuit[..i + 1]) == Ops(circuit[..i]);
      }
      ApplyInstruction(circuit[i]);
    }

    method ReadInstructions(circuit: seq<Instruction>) returns (ok: bool)
      requires Valid() && State() == Fresh(numQubits) && measure == [] && DeferralRuns.AllWithin(Ops(circuit), numQubits)
      modifies this
      ensures ok <==> Unsupported !in circuit
      ensures ok ==> Valid() && State() == RunAll(numQubits, Ops(circuit)) && measure == Measured(circuit)
    {
      for i := 0 to |circuit|
        invariant Unsupported !in circuit[..i] && DeferralRuns.AllWithin(Ops(circuit[..i]), numQubits)
        invariant Valid() && State() == RunAll(numQubits, Ops(circuit[..i])) && measure == Measured(circuit[..i])
      {
        if circuit[i].Unsupported? { return false; }
        ReadInstruction(circuit, i);
      }
      assert circuit[..|circuit|] == circuit;
      return true;
    }

    /**
     * Rewrites a circuit; measurements are collected and follow all gates. The rewritten circuit acts
     * as the given one if no CNOT is met in the misordering state, and differs if exactly one is.
     */
    method ApplyGateDeferral(circuit: seq<Instruction>) returns (ok: bool)
      requires Valid() && State() == Fresh(numQubits) && measure == [] && DeferralRuns.AllWithin(Ops(circuit), numQubits)
      modifies this
      ensures ok <==> Unsupported !in circuit
      ensures ok ==> modifiedCircuit == RunAll(numQubits, Ops(circuit)).Circuit() && measure == Measured(circuit)
      ensures ok && Misordered(numQubits, Ops(circuit)) == 0 ==> Same(modifiedCircuit, Meanings(Ops(circuit)))
      ensures ok && Misordered(numQubits, Ops(circuit)) == 1 && (forall op :: op in Ops(circuit) ==> ProperOp(op))
              ==> !Same(modifiedCircuit, Meanings(Ops(circuit)))
    {
      ok := ReadInstructions(circuit);
      if !ok { return false; }
      AddBackQueuedGates();
      ghost var ops := Ops(circuit);
      if Misordered(numQubits, ops) == 0 { DeferralPreserves(numQubits, ops); }
      if Misordered(numQubits, ops) == 1 && forall op :: op in ops ==> ProperOp(op) { DeferralFails(numQubits, ops); }
      return true;
    }
  }

  lemma LayersSnoc(ps: seq<Held>, i: nat)
    requires i < |ps|
    ensures Layers(ps[..i + 1]) == Layers(ps[..i]) + LayerOf(ps[i], i)
  {
    assert ps[..i + 1][..i] == ps[..i];
  }

  lemma OpsSnoc(circuit: seq<Instruction>, i: nat)
    requires i < |circuit|
    ensures Ops(circuit[..i + 1]) == Ops(circuit[..i]) + if circuit[i].Supported? then [circuit[i].op] else []
    ensures Measured(circuit[..i + 1]) == Measured(circuit[..i]) + if circuit[i].Measure? then [circuit[i].qubit] else []
  {
    assert circuit[..i + 1][..i] == circuit[..i];
  }

  lemma {:induction false} OpsPrefix(circuit: seq<Instruction>, i: nat)
    requires i <= |circuit|
    ensures forall op :: op in Ops(circuit[..i]) ==> op in Ops(circuit)
    decreases |circuit| - i
  {
    if i < |circuit| {
      OpsPrefix(circuit, i + 1);
      OpsSnoc(circuit, i);
    } else {
      assert circuit[..i] == circuit;
    }
  }

  /** Releasing the H alone, then everything, releases everything. */
  lemma ReleasedInParts(d: Deferral, e: Deferral, q: nat)
    requires q < |d.held|
    requires if d.held[q].h then e == Deferral(d.emitted + HPart(d.held[q], q), d.held[q := d.held[q].(h := false)]) else e == d
    ensures Release(e, q) == Release(d, q)
  {
    if d.held[q].h {
      assert e.held[q := NOTHING] == d.held[q := NOTHING];
      assert d.emitted + HPart(d.held[q], q) + LayerOf(e.held[q], q) == d.emitted + LayerOf(d.held[q], q);
    }
  }

  lemma ReleasedTwice(d: Deferral, q: nat)
    requires q < |d.held|
    ensures Release(Release(d, q), q) == Release(d, q)
  {
    assert Release(d, q).held[q := NOTHING] == Release(d, q).held;
  }
}
