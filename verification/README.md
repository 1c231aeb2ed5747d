# Verified models of the circuit library, the deferral pass, the index maps and the thread pool

This project models four parts of the quantum core library and proves what they compute.

**Reversible arithmetic circuits** (`src/circuits`). Every `expand` is a small compiler from qubit lists to
gates. Here it is a method that appends gates in the loops of the C++ code, together with a lemma that says which
function on register values the emitted gates are, for every width and every basis state. Gates are X, CX, Swap,
controlled bodies and blocks; a state is the set of qubits holding 1; registers are read least significant bit first.
`Write(s, reg, v)` is the one state that differs from `s` on `reg` only and holds `v` modulo `2^|reg|` there, so
an equation `Run(gates, s) == Write(s, reg, v)` also says that every other qubit is restored. A C-U runs its
body when every control is 1. The circuits are stacked as in the source: the ripple adder carries comparison,
subtraction, squaring, multiplication and division, and those carry the controlled forms and the weighted sum
of squares.

**The gate deferral pass** (`src/passes/gate_deferral_pass.cpp`). `GateDeferral.Pass` holds the queues of the source
and updates them as its methods do. Its methods are proved against the step machine of `DeferralSteps`, and that
machine is proved to keep the meaning of the circuit. A circuit means what it does to Pauli strings by conjugation,
which is the circuit up to a global phase; an angle is the pair of its cosine and sine, so Rx, Ry, Rz and U are in the
model beside the Clifford gates. The tables by which gates act on Pauli letters are checked against the products of
letters in `PauliProducts`.

**Partial trace and channel representations** (`src/noise_model/noise_channel.cpp`). The base-4 digit placement is a
bijection, which makes the partial trace preserve the trace; of a product matrix it leaves the kept factor times the
trace of the other. Kraus operators are taken through the Choi matrix to the superoperator, which is proved to map the
stacked entries of every matrix rho to those of the sum of K rho K*. Entries are exact complex numbers.

**The thread pool** (`src/thread_pool.cpp`). One step per critical section, any interleaving, any number of workers;
the invariants hold in every reachable state.

## What the proofs show about the code

- Proper fraction division is exact as long as the shifted operands do not overflow. Rotation is then multiplication.
  With four-bit operands and three result bits 14/15 comes out as 6/8 (`DivisionValue.FourteenFifteenths`). While no
  denominator overflows, the result is right if and only if no numerator overflows (`DivisionValue.DivisionExact`).
  Operands and ancillas are restored on every input, also then.
- Controlled addition puts its carry on the last qubit of the sum, the plain adder on the qubit above the adder. They
  agree only if the sum has one qubit more than the adder (`ControlledAddition.OverflowPlace`).
- The ladder of `MultiControlledUWithAncilla` hangs the C-U on the last ancilla supplied. With more than k - 1 clean
  ancillas no rung reaches it and the body is never applied (`AncillaLadder.SpareAncillaBlocks`).
- The comparator adds the best score to its register an odd number of times, so that the register is not given back
  unless the score is 0 (`Comparator.BestRestored`). The oracle uses its off-controls as on-controls, and honours its
  controls if and only if there are no off-controls (`Comparator.OffControlsHonoured`).
- The comparator writes its best score from a text of four binary digits, as `sizeof(int)` counts bytes. With one to four
  scoring qubits scores that do not fit are reduced, and with more qubits the four digits land in the highest places: 3 in
  five qubits is 6 (`BestScore.ThreeInFive`). The trial is compared with the given score if and only if the score is 0, or
  there are at most four qubits and the score fits in them (`BestScore.ComparesScore`).
- The beam oracle leaves its two intermediate flags set (`CompareBeamOracle.OracleMarks`).
- The default ancillas of the efficient encoding avoid state and score qubits but may lie on flag qubits, which can cost
  the flagged state its score (`EncodingExamples.FlagOnAncilla`). With clean ancillas the encoding is right for all scores
  and states if and only if `EncodingSoundness.Sound` holds (`EncodingSoundness.EncodingExact`): no ancillas are used, or
  those of the rungs are different, the last of the list is the last of them, and the flags among them, if the flagged
  integer is in range, are evenly many and guarded by a flagged state that begins with 0 and then ones. Overlap is
  therefore not always harmful (`EncodingExamples.FlagsOnBothAncillas`).
- A list of given ancillas that is too short is completed by the lowest free indices, which may be on the list already.
  It is completed rightly if and only if below each given ancilla there are as many free indices as are missing
  (`AncillaChoice.CompletionSuffices`). Otherwise the ladder takes a partial conjunction for the whole one
  (`EncodingExamples.AncillaAgain`), or, if the repetition is between neighbours, a Toffoli has its target among its
  controls (`AncillaChoice.CompletionValid`, `EncodingExamples.AncillaTwice`). If the last ancilla is none of those the
  rungs use, no score is written (`EncodingSoundness.SpareAncillaLosesScores`).
- A result register of the multiplication that is not 0 loses the carries out of the slices, and receives the product
  if and only if there are none before the last round (`Multiplication.MultipliedExact`).
- The deferral pass looks at the target's H queue before it flushes the target. If Ry and H are held on the target
  of a CNOT and H alone on its control, the output is a different circuit (`DeferralRuns.StepCNOTFails`). A circuit
  that never meets this state is preserved; one that meets it exactly once is not. A second misordered CNOT can make up
  for the first (`DeferralRuns.TwiceMisorderedPreserved`), but nothing after the last one matters
  (`DeferralRuns.LastMisorderDecides`). Circuits without Ry and U never meet it.
- Inverting a circuit twice gives back the same gates if and only if there is no iSwap among them
  (`UnitaryInverse.InverseTwice`). A leaf that is itself a CRX or CRY falls under the gates that are taken to be their own
  inverses: with one such leaf circuit and inverse cancel if and only if its angle is a multiple of a full turn
  (`UnitaryInverse.KeptGateDecides`). The circuit builder writes both as products around a CRZ, which is inverted.
- `choi_to_superoperator` and `superoperator_to_choi` are the same map (`Reshuffle.PlaceTwice`).

## Model

| member | source | states |
|---|---|---|
| `RippleAdder.AdderAdds` | src/circuits/ripple_adder.cpp:79-128 | the majority sweep, the carry-out CX and the unmajority sweep store (sum + adder + c_in) modulo 2^\|sum\| in the sum register and restore every other qubit, for every width and every state |
| `RippleAdder.AdderFromAdds` | src/circuits/ripple_adder.cpp:110-128 | the rounds from bit i on add the high parts of both registers and the carry into bit i |
| `RippleAdder.ExpandRippleCarryAdder` | src/circuits/ripple_adder.cpp:23-130 | accepts exactly the register pairs the checks allow; emits the adder on the low qubits, without the overflow qubit when no_overflow is set, and nothing when it refuses |
| `CompareGreater.CompareCompares` | src/circuits/compare_gt.cpp:102-139 | the flag is inverted exactly when A + c > B, for every ancilla bit c, and everything else is restored |
| `CompareGreater.ExpandCompareGT` | src/circuits/compare_gt.cpp:21-146 | refuses overlapping or unequal operands and colliding flag or ancilla; otherwise emits the two adders between the inversion layers, operands in the declared order |
| `Subtraction.AddOneAdds` | src/circuits/subtraction.cpp:76-99 | the increment block of the borrow circuit is +1 modulo 2^k on the first k qubits |
| `Subtraction.TakeOneTakes` | src/circuits/subtraction.cpp:107-124 | the decrement block is -1 modulo 2^k |
| `Subtraction.BorrowFromSubtracts` | src/circuits/subtraction.cpp:69-127 | from bit i on the borrow rounds subtract the high parts and restore the smaller register |
| `Subtraction.SubtractSubtracts` | src/circuits/subtraction.cpp:69-143 | both circuits leave (larger - smaller - c) modulo 2^n, c being the ancilla bit or 0 without an ancilla, and restore the rest |
| `Subtraction.CircuitsAgree` | src/circuits/subtraction.cpp:69-143 | the borrow circuit and the complement-adder circuit act alike on a state exactly when the ancilla is 0 |
| `Subtraction.ExpandSubtraction` | src/circuits/subtraction.cpp:19-150 | accepts equal-length, duplicate-free, disjoint registers and emits the chosen circuit in the declared qubit order |
| `Inverse.ControlEachGate` | src/circuits/inverse_circuit.cpp:38-49 | controlling every gate of a circuit is controlling the circuit, which is what flattening a C-U relies on |
| `Inverse.RunFlatten` | src/circuits/inverse_circuit.cpp:35-49 | the collected leaf gates act as the nested circuit |
| `Inverse.InverseUndoes` | src/circuits/inverse_circuit.cpp:35-136 | on circuits of X, CX, Swap and nested controlled blocks the reversed leaves undo the circuit, in both orders |
| `Inverse.ExpandInverse` | src/circuits/inverse_circuit.cpp:51-136 | the emitted inverse undoes the given circuit in both orders on every state |
| `UnitaryInverse.InverseCancels` | src/circuits/inverse_circuit.cpp:59-133 | over the universal gate set with iSwap, U1, Rphi, CPhase, CRZ, RZZ, XX, XY and fSim, and CRX and CRY by multiples of a full turn, circuit and inverse cancel in both orders up to a global phase |
| `UnitaryInverse.KeptGateDecides` | src/circuits/inverse_circuit.cpp:106-132 | with one CRX or CRY, which the source leaves as it is, anywhere in such a circuit, circuit and inverse cancel if and only if its angle is a multiple of a full turn |
| `UnitaryInverse.CRXNotUndone` | src/circuits/inverse_circuit.cpp:106-132 | a circuit of one CRX that its inverse does not undo |
| `KeptTurns.KeptTwice` | src/circuits/inverse_circuit.cpp:128-132 | a controlled turn about X or Y applied twice is no gate, up to a global phase, if and only if its angle is a multiple of a full turn |
| `KeptTurns.HalfTurnIsCZ` | src/circuits/inverse_circuit.cpp:106-112 | the products that CPhase and CRZ stand for are CZ at half a turn, CRZ up to a phase on its control |
| `PairTurns.TurnUndoes` | src/circuits/inverse_circuit.cpp:98-113 | a listed parametric gate with its angles negated is the gate undone |
| `UnitaryInverse.ISwapIsSwap` | src/circuits/inverse_circuit.cpp:76-86 | the six gates that the source inverts for an iSwap are a swap with a phase i on each single 1 |
| `UnitaryInverse.InverseTwice` | src/circuits/inverse_circuit.cpp:59-133 | for every list without refused gates, inverting twice gives back the same gate list if and only if it has no iSwap; each iSwap adds five gates |
| `UnitaryInverse.ExpandUnitaryInverse` | src/circuits/inverse_circuit.cpp:51-140 | fails exactly when a refused gate occurs; otherwise returns the reversed list of inverses, fSim and the other parametric gates included |
| `Controls.GuardedWrites` | src/circuits/controlled_swap.cpp:63-115 | control lifting: under on- and off-controls an operation that writes a register does so when all on-controls are 1 and all off-controls 0, and is the identity otherwise |
| `Controls.GuardedRuns` | src/circuits/controlled_swap.cpp:63-115 | control lifting for any body that spares the off-controls, in particular one that does not mention them: under on- and off-controls the body runs when all on-controls are 1 and all off-controls 0, and nothing happens otherwise |
| `Controls.UnmentionedSpared` | src/circuits/controlled_swap.cpp:63-115 | a body that does not mention the off-controls meets the condition of GuardedRuns on every state |
| `Controls.ControlledSubtractActs` | src/circuits/controlled_subtraction.cpp:83-111 | subtracts when enabled, does nothing otherwise |
| `Controls.ExpandControlledSubtraction` | src/circuits/controlled_subtraction.cpp:23-116 | the same checks as the plain subtraction; emits the guarded circuit |
| `ControlledSwap.SwapExchanges` | src/circuits/controlled_swap.cpp:82-99 | three sweeps of CX exchange two registers |
| `ControlledSwap.ControlledSwapActs` | src/circuits/controlled_swap.cpp:63-115 | the registers are exchanged when the flags are enabled and unchanged otherwise |
| `ControlledSwap.ExpandControlledSwap` | src/circuits/controlled_swap.cpp:63-115 | emits the three sweeps under the flags |
| `ControlledAddition.BuildControlledAddition` | src/circuits/controlled_addition.cpp:77-206 | the gate-by-gate controlled adder adds when all flags are enabled and is the identity otherwise; without flags it is the plain adder |
| `ControlledAddition.OverflowPlace` | src/circuits/controlled_addition.cpp:172-181 | with flags the carry goes to the last sum qubit, without flags to the one above the adder: the two agree on all states exactly when the sum has one qubit more than the adder |
| `ControlledAddition.NoOverflowAgrees` | src/circuits/controlled_addition.cpp:172-195 | without overflow the flagged and the plain circuit agree on every state: the low sum qubits hold the sum modulo 2^\|adder\|, all else is as before |
| `ControlledAddition.OverflowAdds` | src/circuits/controlled_addition.cpp:172-195 | with overflow and one more qubit in the sum, the whole register holds the sum modulo 2^\|sum\|, flagged or not |
| `Multiplication.AdditionStep` | src/circuits/multiplication.cpp:63-82 | one controlled addition to the slice at i turns the i-th partial product into the next; the slice always has room for the carry |
| `Multiplication.MultipliedClean` | src/circuits/multiplication.cpp:63-82 | the rounds lose no carry on a clean result register: the i-th partial product stands there |
| `Multiplication.MultipliedExact` | src/circuits/multiplication.cpp:63-82 | on any result register (a + c) * b is added to it, modulo its size, if and only if no round but the last carries out of its slice |
| `Multiplication.BuildMultiplication` | src/circuits/multiplication.cpp:63-82 | on every state the controlled additions to the shifted slices; on a clean result register (a + c) * b exactly, c the ancilla bit; a, b and the ancilla are kept |
| `Multiplication.ExpandMultiplication` | src/circuits/multiplication.cpp:20-90 | the same in the declared qubit order, appended to an existing circuit |
| `Multiplication.ExpandControlledMultiplication` | src/circuits/controlled_multiplication.cpp:76-120 | on every state: what the multiplication does when enabled, nothing otherwise |
| `Rotation.RepeatRotates` | src/circuits/proper_fraction_division.cpp:134-144 | i sweeps of conditional swaps rotate the register by i places when the control is on |
| `Rotation.RotatedIsProduct` | src/circuits/proper_fraction_division.cpp:97-112 | a rotation that carries no digit round multiplies by 2^i |
| `Rotation.RenamedVal` | src/circuits/proper_fraction_division.cpp:97-112 | reading the register with its last i qubits first is reading its value rotated by i |
| `Rotation.RepeatUndoes` | src/circuits/proper_fraction_division.cpp:176-187 | the upward sweeps undo the downward ones |
| `Division.BuildComparison` | src/circuits/proper_fraction_division.cpp:97-130 | the comparison of a round inverts the result bit when denominator plus ancilla exceeds the shifted numerator |
| `Division.AddUpdate` | src/circuits/proper_fraction_division.cpp:132-165 | under the result bit the round rotates the numerator, subtracts and rotates the denominator |
| `Division.AddUndo` | src/circuits/proper_fraction_division.cpp:168-215 | the uncomputing round leads every updated state back to where the update started |
| `Division.BuildDivision` | src/circuits/proper_fraction_division.cpp:95-215 | on every state only the result register changes, to the computed bits; both operands and all ancillas are restored, also for overflow and for denominator 0 |
| `ProperFractionDivision.LayoutsDivide` | src/circuits/proper_fraction_division.cpp:80-93 | a proper fraction with room on clean qubits leaves floor(2^p N / D) of what the caller's numerator and denominator hold, in the caller's result register |
| `ProperFractionDivision.ExpandProperFractionDivision` | src/circuits/proper_fraction_division.cpp:20-222 | refuses unequal, repeated or overlapping operands; otherwise, with N and D what numerator and denominator hold in the declared order, writes floor(2^p N / D) when N < D, the bound holds and fraction and ancillas are clean; on every other state the computed bits |
| `DivisionValue.ExpansionExact` | src/circuits/proper_fraction_division.cpp:95-165 | while no shifted denominator overflows, the bits are floor(2^p num / den) if and only if no shifted numerator overflows |
| `DivisionValue.DivisionExact` | src/circuits/proper_fraction_division.cpp:95-215 | the same for the states the circuit leaves on m-bit operands with num < den and a clean result |
| `DivisionValue.DivisionRight` | src/circuits/proper_fraction_division.cpp:95-215 | the fraction is floor(2^p num / den) when p <= 2 or den * 2^(1 + p(p-1)/2) <= 2^(m+p) |
| `DivisionValue.BuildFraction` | src/circuits/proper_fraction_division.cpp:95-215 | the emitted circuit writes floor(2^p num / den) into the result register, and nothing else changes, under that condition |
| `DivisionValue.FewBitsFit` | src/circuits/proper_fraction_division.cpp:134-164 | up to three result bits the denominator never overflows, up to two the numerator never does |
| `DivisionValue.FourteenFifteenths` | src/circuits/proper_fraction_division.cpp:134-144 | four-bit operands, three result bits: 14/15 gives 6 where floor(8 * 14 / 15) is 7 |
| `DivisionValue.DenominatorOverflows` | src/circuits/proper_fraction_division.cpp:154-164 | once a denominator overflows either can happen: with three-bit operands and four result bits 2/5 comes out wrong and 3/7 right |
| `ControlledDivision.GuardedDivides` | src/circuits/controlled_proper_fraction_division.cpp:105-247 | a dividing circuit under controls divides when enabled and does nothing otherwise |
| `ControlledDivision.ExpandControlledDivision` | src/circuits/controlled_proper_fraction_division.cpp:31-252 | the same under controls: floor(2^p N / D) of the caller's registers when enabled, nothing otherwise; the operand checks of the plain division |
| `AEtoMetric.UncomputesAround` | src/circuits/ae_to_metric.cpp:57-146 | whatever is added to the metric between squaring and unsquaring, uncomputation leaves just that and clean ancillas |
| `AEtoMetric.AddendAndTarget` | src/circuits/ae_to_metric.cpp:79-108 | the kept columns of the square, padded with clean ancillas, and the metric qubits they are added to |
| `AEtoMetric.IterationAdds` | src/circuits/ae_to_metric.cpp:57-146 | one iteration adds floor(a_i^2 / 2^drop) * 2^first to the metric modulo 2^\|metric\| and restores all else |
| `AEtoMetric.AmplitudesTile` | src/circuits/ae_to_metric.cpp:64-71 | the qubits of the iterations follow one another in the evaluation register, each as many as its precision |
| `AEtoMetric.ExpandAEtoMetric` | src/circuits/ae_to_metric.cpp:57-148 | with the evaluation register cut into consecutive amplitudes of the given precisions, the metric receives on clean ancillas the sum of floor(a_i^2 2^(i + ones - 2 p_i)), modulo 2^\|metric\| |
| `AncillaLadder.LadderActs` | src/circuits/mcu_with_ancilla.cpp:43-95 | with k controls and k - 1 clean ancillas the ladder applies the body exactly when all controls are on, and cleans up |
| `AncillaLadder.LadderRuns` | src/circuits/mcu_with_ancilla.cpp:43-95 | on every state, dirty, spare and repeated ancillas included: the body is applied exactly when the last ancilla comes out on, and all else is restored |
| `AncillaLadder.LadderExact` | src/circuits/mcu_with_ancilla.cpp:43-95 | with clean ancillas the ladder fires exactly when all controls are on, if and only if the ancillas of its rungs are different and the last of the list is the last of those |
| `AncillaLadder.UpWellFormed` | src/circuits/mcu_with_ancilla.cpp:43-65 | no rung has its target among its controls if and only if no two neighbouring ancillas are the same |
| `AncillaLadder.SpareAncillaBlocks` | src/circuits/mcu_with_ancilla.cpp:63-67 | with a further clean ancilla the body is never applied: the C-U hangs on the last ancilla, which no rung sets |
| `AncillaLadder.ExpandAncillaLadder` | src/circuits/mcu_with_ancilla.cpp:43-95 | emits the ladder up, the C-U and the ladder down |
| `GeneralisedMCX.MCXFlips` | src/circuits/generalised_mcx.cpp:56-91 | the target is inverted exactly when all on-controls are 1 and all off-controls 0 |
| `GeneralisedMCX.ExpandGeneralisedMCX` | src/circuits/generalised_mcx.cpp:56-91 | emits the guarded X |
| `EqualityChecker.EqualityActs` | src/circuits/equality_checker.cpp:67-132 | the flag is inverted exactly when the controls are enabled and both registers hold the same number; with clean ancillas the ancilla mode does the same |
| `EqualityChecker.EqualIsSameValue` | src/circuits/equality_checker.cpp:72-101 | holding the same bits is holding the same number |
| `EqualityChecker.ExpandEqualityChecker` | src/circuits/equality_checker.cpp:60-135 | emits the guarded comparison in either mode |
| `CompareBeamOracle.OracleMarks` | src/circuits/compare_beam_oracle.cpp:61-188 | with q1 and q2 clean, q0 is inverted exactly when FA and FB hold the same and for every i FA[i] is on or the qubits from i * per on are all on in SA, respectively hold the same in SA and SB; q1 and q2 keep the two partial answers, all else is restored |
| `CompareBeamOracle.LettersTile` | src/circuits/compare_beam_oracle.cpp:92-116 | the first k letters are the first k * per qubits of the string |
| `CompareBeamOracle.OracleActs` | src/circuits/compare_beam_oracle.cpp:61-188 | the effect on every state, with q1 and q2 as found |
| `CompareBeamOracle.MarkGatesMark` | src/circuits/compare_beam_oracle.cpp:83-130 | the flag of each letter is inverted exactly when that letter is unfinished and matches, in the simplified and the full form |
| `CompareBeamOracle.ExpandCompareBeamOracle` | src/circuits/compare_beam_oracle.cpp:61-190 | emits the oracle letter by letter |
| `GrayCode.Adjacent` | src/circuits/efficient_encoding.cpp:127-153 | consecutive code words differ in exactly one bit |
| `GrayCode.CodeOfRank` | src/circuits/efficient_encoding.cpp:127-141 | every bit string is a code word |
| `GrayCode.RankOfCode` | src/circuits/efficient_encoding.cpp:127-141 | no two numbers below 2^n share a code word |
| `GrayCode.LastCode` | src/circuits/efficient_encoding.cpp:196-197 | the last code word is 1 followed by zeros, so one X on the first qubit closes the walk |
| `GrayCode.GrayOf` | src/circuits/efficient_encoding.cpp:127-141 | computes the code word of a bit string |
| `GrayCode.CurrentState` | src/circuits/efficient_encoding.cpp:160-162 | the inverted code word of step i |
| `GrayCode.DifferentBit` | src/circuits/efficient_encoding.cpp:144-153 | the first position at which two bit strings differ, or -1 if they are equal |
| `GrayCode.LeadStays` | src/circuits/efficient_encoding.cpp:127-141 | no later code changes the bits below leading digits of the rank that are all 1 |
| `EncodingSteps.StepActs` | src/circuits/efficient_encoding.cpp:163-195 | one step on any state and any ancillas: the flags if all state qubits are on, then the score digits if the C-U or the ladder fires |
| `EncodingSteps.EncodedDigits` | src/circuits/efficient_encoding.cpp:163-195 | qubit by qubit: score digit j is inverted exactly when digit j of f(k) is 1, flags exactly when k is the flagged integer |
| `EncodingSteps.CleanScoreWritten` | src/circuits/efficient_encoding.cpp:180-195 | a clean score register holds f(k) modulo 2^m, negative scores in two's complement |
| `EncodingSteps.IndexIsValue` | src/circuits/efficient_encoding.cpp:118-124 | the integer read from the bit string is the value of the state register in the declared order |
| `EncodingWalk.AllOnAtTurn` | src/circuits/efficient_encoding.cpp:158-194 | at step i the state register is all ones for the states whose turn it is and no others, and that state's index is the one whose score is written |
| `EncodingWalk.WalkRuns` | src/circuits/efficient_encoding.cpp:156-272 | the whole walk on any state, in both modes: the state register is restored, the flags are inverted at the state's turn, and the score register receives the scores of all steps at which the score gates act |
| `EncodingSoundness.RightIsFaithful` | src/circuits/efficient_encoding.cpp:156-272 | a state is encoded rightly for all scoring functions if and only if the score gates act at its turn and at no other step |
| `EncodingSoundness.EncodingExact` | src/circuits/efficient_encoding.cpp:156-272 | on any list of ancillas whose rungs are gates the circuit encodes all scores on all states with clean ancillas if and only if no ancillas are used, or those of the rungs are different, the C-U hangs on the last of them, and either the flagged integer is out of range or the flags among them are harmless: evenly many, and the flagged state begins with 0 and then ones up to the control of each |
| `EncodingSoundness.SpareAncillaLosesScores` | src/circuits/efficient_encoding.cpp:239-262 | if the last of the ancillas is not one of those the rungs use, and no flag, no score is ever written |
| `AncillaChoice.ChooseAncillas` | src/circuits/efficient_encoding.cpp:239-251 | adds the lowest indices outside state and score registers to the given ancillas, whether or not a flag lies there |
| `AncillaChoice.CompletionSuffices` | src/circuits/efficient_encoding.cpp:239-251 | a list of given ancillas is completed to one that suffices if and only if below each of them at least as many indices are free as are missing |
| `AncillaChoice.CompletionValid` | src/circuits/efficient_encoding.cpp:239-262 | the completed ladder consists of gates if and only if the lowest free index is not the last of the given ancillas |
| `AncillaChoice.CompletionExact` | src/circuits/efficient_encoding.cpp:239-262 | from given ancillas that are completed to gates, all scores are encoded if and only if there was that room and the flags among the ancillas are harmless |
| `EncodingExamples.FlagOnAncilla` | src/circuits/efficient_encoding.cpp:209-262 | states 0 and 1, score 2, flag 3, no ancillas given: qubit 3 becomes the ancilla and state 0 loses its score |
| `EncodingExamples.FlagsOnBothAncillas` | src/circuits/efficient_encoding.cpp:209-262 | flags on both ancillas of three state qubits leave the encoding right when state 6 is flagged |
| `EncodingExamples.AncillaTwice` | src/circuits/efficient_encoding.cpp:239-251 | one ancilla given where two are needed is added a second time, and the ladder has a Toffoli on its own control |
| `EncodingExamples.AncillaAgain` | src/circuits/efficient_encoding.cpp:209-262 | ancilla 6 given where three are needed is completed to 6, 4, 6: the run of the circuit writes the score of state 15 for state 3 |
| `EfficientEncoding.ExpandEfficientEncoding` | src/circuits/efficient_encoding.cpp:95-272 | for any given ancillas: the missing ones are added as the source adds them and the walk is emitted; its effect on every state if its gates are gates, and the encoding of every state with clean ancillas when the condition above holds |
| `BitComparison.CompareFinds` | src/circuits/comparator.cpp:155-243 | with clean ancillas, ancilla 0 ends as trial > best and ancilla n as trial < best; trial and best are kept |
| `Comparator.ComparatorActs` | src/circuits/comparator.cpp:141-249 | the same for the whole comparator, against what the best register holds once the best score has been added to it |
| `BitComparison.UncompareUndoes` | src/circuits/comparator.cpp:275-372 | the oracle half returns every qubit to its value before the comparison |
| `Comparator.OracleActs` | src/circuits/comparator.cpp:251-389 | between the H gates the flag is inverted exactly when trial > best and all listed controls, off-controls included, are 1 |
| `Comparator.OffControlsHonoured` | src/circuits/comparator.cpp:251-273 | the oracle marks as its on- and off-controls say, on all states with clean ancillas, if and only if there are no off-controls |
| `Comparator.BestRestored` | src/circuits/comparator.cpp:141-389 | comparator and oracle leave the best register as it was if and only if the best score is zero: the pattern is added an odd number of times |
| `BestScore.EncodedExact` | src/circuits/comparator.cpp:134-145 | the pattern written is the score itself if and only if the score is zero, or n is at most four and the score is below 2^n |
| `BestScore.ComparesValue` | src/circuits/comparator.cpp:134-249 | from clean registers the two outcome qubits compare the trial with the number of the pattern, and the best register ends with it |
| `BestScore.ComparesScore` | src/circuits/comparator.cpp:134-249 | on all states with clean registers the outcome qubits compare the trial with the given score if and only if that condition holds |
| `BestScore.ThreeInFive` | src/circuits/comparator.cpp:134-145 | score 3 in five qubits: a trial of 4 is found to be less |
| `BestScore.ExpandComparator` | src/circuits/comparator.cpp:130-391 | emits the comparator or its oracle for the encoded score, with the trial register in the declared order |
| `CommutationRules.PassesBefore` | src/passes/gate_deferral_pass.cpp:225-276 | how X, Y and Z pass held H, Rx and Ry gates, and H a held Ry: the moved gate and the sign of the angle |
| `CommutationRules.TurnsAdd` | src/passes/gate_deferral_pass.cpp:305-318 | turns about the same axis add up |
| `CommutationRules.CNOTPastH` | src/passes/gate_deferral_pass.cpp:382-391 | an H on the target turns CNOT into CZ |
| `CommutationRules.HOnControl` | src/passes/gate_deferral_pass.cpp:426-434 | an H on one qubit of a CZ turns it into a CNOT onto that qubit |
| `CommutationRules.CYPastH` | src/passes/gate_deferral_pass.cpp:405-411 | CY passes an H on its target at the price of a Z on its control |
| `CommutationRules.HeldPastSwap` | src/passes/gate_deferral_pass.cpp:446-453 | a swap carries a held gate over to the other qubit |
| `HeldGates.StepOne` | src/passes/gate_deferral_pass.cpp:184-200 | a local rewrite at one qubit's queue is a rewrite of the whole circuit |
| `HeldGates.StepTwo` | src/passes/gate_deferral_pass.cpp:370-454 | the same for the queues of two qubits |
| `DeferralSteps.StepTakes` | src/passes/gate_deferral_pass.cpp:84-157 | every step but one stands for its instruction: modified circuit, queued gates and held gates together act as before followed by the instruction |
| `DeferralSteps.StepCNOTTakes` | src/passes/gate_deferral_pass.cpp:370-396 | a CNOT is deferred correctly outside the one state its guard overlooks |
| `DeferralRuns.StepCNOTFails` | src/passes/gate_deferral_pass.cpp:370-380 | in that state (Ry and H held on the target, H alone on the control) the deferred circuit is always a different one |
| `DeferralRuns.StepCNOTExact` | src/passes/gate_deferral_pass.cpp:370-396 | a CNOT is deferred correctly if and only if the pass is not in that state |
| `DeferralRuns.DeferralPreserves` | src/passes/gate_deferral_pass.cpp:32-81 | for every circuit that never meets that state the output acts as the input up to a global phase |
| `DeferralRuns.DeferralFails` | src/passes/gate_deferral_pass.cpp:32-81 | a circuit that meets it exactly once is not preserved, whatever follows |
| `DeferralRuns.PreservedStep` | src/passes/gate_deferral_pass.cpp:84-157 | a step outside that state neither spoils nor repairs the circuit, and one in that state spoils what was right |
| `DeferralRuns.LastMisorderDecides` | src/passes/gate_deferral_pass.cpp:32-81 | a circuit is preserved if and only if it is up to and including the last CNOT met in that state |
| `DeferralRuns.TwiceMisorderedPreserved` | src/passes/gate_deferral_pass.cpp:32-81 | a circuit that meets the state twice and is preserved, for every angle: two misordered CNOTs can cancel |
| `DeferralRuns.WithoutRyPreserved` | src/passes/gate_deferral_pass.cpp:32-81 | circuits without Ry and U gates, Clifford circuits among them, are always preserved |
| `DeferralRuns.RyHHCNOTNotPreserved` | src/passes/gate_deferral_pass.cpp:370-396 | Ry(t); H(t); H(c); CNOT(c, t) is never preserved |
| `GateDeferral.Pass.ExecuteQueuedOps` | src/passes/gate_deferral_pass.cpp:159-209 | emits phases and permutations, then what is held on the qubit up to the level |
| `GateDeferral.Pass.H` | src/passes/gate_deferral_pass.cpp:225-234 | the queue update of H |
| `GateDeferral.Pass.X` | src/passes/gate_deferral_pass.cpp:236-250 | the queue update of X; nothing is executed |
| `GateDeferral.Pass.Y` | src/passes/gate_deferral_pass.cpp:252-259 | the queue update of Y; nothing is executed |
| `GateDeferral.Pass.Z` | src/passes/gate_deferral_pass.cpp:261-276 | the queue update of Z; nothing is executed |
| `GateDeferral.Pass.Rx` | src/passes/gate_deferral_pass.cpp:305-320 | queues a turn about x, executing what is held first if a turn about y is queued |
| `GateDeferral.Pass.Ry` | src/passes/gate_deferral_pass.cpp:305-309 | queues a turn about y |
| `GateDeferral.Pass.Rz` | src/passes/gate_deferral_pass.cpp:305-343 | a turn about z ends, through its three partial releases, as a phase after everything held |
| `GateDeferral.Pass.U` | src/passes/gate_deferral_pass.cpp:345-352 | the general rotation as Rz, Ry, Rz |
| `GateDeferral.Pass.Phase` | src/passes/gate_deferral_pass.cpp:337-343 | a phase is queued after everything held on its qubit |
| `GateDeferral.Pass.CNOT` | src/passes/gate_deferral_pass.cpp:370-396 | the releases and the queued gate of CNOT, the overlooked state included |
| `GateDeferral.Pass.CY` | src/passes/gate_deferral_pass.cpp:398-412 | the releases and the queued gates of CY |
| `GateDeferral.Pass.CZ` | src/passes/gate_deferral_pass.cpp:414-439 | the count of held gates decides between CZ, CNOT and release |
| `GateDeferral.Pass.SWAP` | src/passes/gate_deferral_pass.cpp:441-454 | the queues change places and nothing is executed |
| `GateDeferral.Pass.ApplyGateDeferral` | src/passes/gate_deferral_pass.cpp:32-81 | rewrites a circuit, refuses unsupported gates, collects measurements, and preserves the circuit exactly as stated above |
| `MixedRadix.GetIndex` | src/noise_model/noise_channel.cpp:998-1005 | spreads the base-4 digits of an index over the listed qubits |
| `MixedRadix.GetComplementarySet` | src/noise_model/noise_channel.cpp:1035-1043 | the qubits not listed, in order |
| `MixedRadix.TakePlaced` | src/noise_model/noise_channel.cpp:998-1027 | kept and removed digits can be recovered from the sum of their two indices: the map is injective into [0, 4^n) |
| `MixedRadix.PlaceTaken` | src/noise_model/noise_channel.cpp:998-1027 | every index below 4^n is such a sum: the map is onto |
| `MixedRadix.IndexDigits` | src/noise_model/noise_channel.cpp:998-1005 | in the index read for a set of qubits the digit of the j-th listed qubit is digit \|set\| - 1 - j of the argument, and that of an unlisted qubit is 0 |
| `MixedRadix.DigitIs` | src/noise_model/noise_channel.cpp:998-1005 | digit k of x is floor(x / 4^k) modulo 4 |
| `PartialTrace.DoubleSumIsSum` | src/noise_model/noise_channel.cpp:1020-1031 | summing over kept and removed digits is summing over all indices |
| `PartialTrace.TraceKept` | src/noise_model/noise_channel.cpp:1008-1033 | the partial trace preserves the trace, whichever qubits are kept |
| `PartialTrace.TracedAll` | src/noise_model/noise_channel.cpp:1008-1033 | keeping every qubit keeps the matrix |
| `PartialTrace.TracedByDigits` | src/noise_model/noise_channel.cpp:1008-1033 | entry (i, j) adds up the entries whose kept digits are i and j and whose removed digits are equal |
| `PartialTrace.ProductTraced` | src/noise_model/noise_channel.cpp:1008-1033 | the partial trace of a product over kept and removed qubits is the kept factor times the trace of the other, entry by entry |
| `PartialTrace.PartialTraceProcessMatrix` | src/noise_model/noise_channel.cpp:1008-1033 | every entry is the sum over the digits on the removed qubits |
| `PartialTrace.PartialTraceKeep` | src/noise_model/noise_channel.cpp:1045-1048 | the form that names the kept qubits; the trace of its result is that of the full matrix |
| `PartialTrace.PartialTraceRemove` | src/noise_model/noise_channel.cpp:1050-1053 | the form that names the removed qubits, with the same trace |
| `Reshuffle.ReshuffleMatrix` | src/noise_model/noise_channel.cpp:296-341 | entry (r, c) is written to ((c mod dim) dim + r mod dim, (c div dim) dim + r div dim), in both conversions |
| `Reshuffle.ResultAt` | src/noise_model/noise_channel.cpp:296-341 | entry (a dim + b, c dim + e) of the Choi matrix is entry (e dim + b, c dim + a) of the superoperator |
| `Reshuffle.PlaceTwice` | src/noise_model/noise_channel.cpp:296-341 | the reshuffle between Choi matrix and superoperator stays in the matrix and undoes itself, for every dimension |
| `Reshuffle.RoundTrip` | src/noise_model/noise_channel.cpp:296-341 | converting there and back gives the same matrix |
| `Channels.ChoiEntry` | src/noise_model/noise_channel.cpp:362-389 | what a Kraus operator adds to the Choi matrix, by the products with the entangled state, is K(b, a) times the conjugate of K(e, c) in row (a, b) and column (c, e) |
| `Channels.SuperoperatorActs` | src/noise_model/noise_channel.cpp:296-305 | a superoperator with the entries of the reshuffle maps the stacked matrix to the stacked image under the channel that the Choi matrix stands for |
| `Channels.ChoiActs` | src/noise_model/noise_channel.cpp:362-389 | the Choi matrix of a list of Kraus operators stands for the sum of K rho K* |
| `Channels.KrausToSuperoperator` | src/noise_model/noise_channel.cpp:362-397 | for every matrix rho the superoperator maps its stacked entries to those of the sum of K rho K* |
| `ThreadPool.ReachableInv` | src/thread_pool.cpp:23-139 | in every interleaving num_active_threads counts the live workers and is at least num_threads |
| `ThreadPool.SetNumThreadsKeepsLive` | src/thread_pool.cpp:23-53 | changing the number of threads never drops or overwrites a live worker |
| `ThreadPool.DrainedToSize` | src/thread_pool.cpp:102-139 | once every live worker has passed a check, num_active_threads is the larger of 0 and num_threads |
| `ThreadPool.SetAndDrained` | src/thread_pool.cpp:23-139 | in every run a request for n threads sets num_threads, and once every worker that was live then has passed a check, and no other request came, n workers are left, or none if n is negative |
| `ThreadPool.PollTakesFront` | src/thread_pool.cpp:106-125 | a worker that polls a queue with tasks is given the one that has waited longest, and no other worker changes |
| `ThreadPool.AllStarted` | src/thread_pool.cpp:102-139 | when as many polls follow as tasks wait and nothing more is submitted, every task has been started, in order |
| `ThreadPool.AllFinished` | src/thread_pool.cpp:102-139 | when nothing waits and no worker holds a task, every submitted task is finished, each once |
| `ThreadPool.StartedInOrder` | src/thread_pool.cpp:102-139 | tasks are started in the order of submission, each once |
| `ThreadPool.TasksConserved` | src/thread_pool.cpp:102-139 | no task is lost or duplicated: each waits, is with one worker, or is finished |
| `ThreadPool.Pool.SetNumThreadsInternal` | src/thread_pool.cpp:23-53 | erases finished workers, then grows, shrinks or leaves the pool as the step model says; num_threads is then the number asked for |

## Left out

- DivisionValue.DivisionExact: the equivalence is stated while no shifted denominator overflows (always so up to three result bits); beyond that a wrong comparison may still give the right bit, and `DivisionValue.DenominatorOverflows` shows both outcomes.
- DeferralRuns.DeferralFails: for circuits with exactly one misordered CNOT. With two or more the first always spoils the circuit and a later one may restore it, as `DeferralRuns.TwiceMisorderedPreserved` shows; which circuits are restored is not characterised.
- Multiplication.BuildMultiplication: on a result register that does not start at 0 the effect is stated as the rounds of additions, and as a product when no carry is lost.
- AEtoMetric.ExpandAEtoMetric: stated for evaluation qubits and ancillas that start at 0, as the source expects.
- RippleAdder.ExpandRippleCarryAdder: for registers of equal length the source reads the qubit one past the sum register and does not use it; the model does not read it.
- EfficientEncoding.ExpandEfficientEncoding: what the circuit does is stated when its gates are gates (`Valid`); with equal neighbours among the ancillas a C-U has its target among its controls. Flags are outside the state and score registers, and ancilla mode needs two state qubits, as the ladder reads two controls.
- EncodingSteps.CleanScoreWritten: scores are unbounded integers in two's complement; the source's 32-bit `int` is not modelled.
- ThreadPool.ReachableInv: the constructor is one step, and `num_active_threads` starts at 0 because the pool is a static object; `shutting_down`, the destructor, condition variables and the futures of `submit` are not part of this model.
- Service registration, option maps, buffer names: parsed options are parameters, and size, distinctness and disjointness checks are the methods' refusals.
- The decomposition of C-U into elementary gates: a controlled body is taken at its meaning.
- Circuits about amplitudes: phase estimation, amplitude amplification and estimation, pseudo-trace, mean value finder, superposition adder, W', QFT, the beam state preparation, and the H and X gates around the comparator's oracle.
- BestScore.EncodedExact: for more than four qubits the source reads the score's text at and past its end; the model finds no one there.
- In the deferral pass: CH, CRx, CRy, CRz and CPhase, the text form of angles, where measurements stand in the circuit, and gates that the header's operation map lacks, which the pass skips silently. The header is not part of this model.
- UnitaryInverse.InverseCancels: other gates without a case of their own, such as CH and ACZ, are left as they are and given no meaning. Rphi is taken as a phase, XY as turns about XX and YY, and fSim as XY and CPhase; the library that defines them is not part of this model.
- UnitaryInverse.KeptGateDecides: for circuits with exactly one CRX or CRY that is not a multiple of a full turn; several may cancel one another.
- Channels.KrausToSuperoperator: for square Kraus operators; matrices are functions of row and column, and the matrix library's products and sums are written out over exact numbers.
- Noise models, singular values, eigenvalues (so the ways back to Kraus operators), the Pauli basis, interpolation and everything else in floating point in the noise channel; matrices are passed by value.
- Sets of qubits ordered by the standard library are ascending sequences.
- Sessions, profiler, pretranspiler, MPI, CUDA-Q, Python bindings, examples.
