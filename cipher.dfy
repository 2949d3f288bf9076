/**
 * The AES-128 cipher as a sequence of round transformations (section 5.1
 * of FIPS-197), and the trace the engine records while running it: one
 * step per transformation, numbered from 0, each holding the state after
 * it. The trace is described step by step from its index alone, and its
 * last state is shown to be the ciphertext.
 */
module AesCipher {
  import opened AesTypes
  import opened AesSpec
  import opened AesKeySchedule

  /** Number of steps in a trace: initial state, key addition, 9 full rounds of 4, a final round of 3, and the final marker. */
  const TRACE_LENGTH: nat := 42

  /** A round with all four transformations (rounds 1 to 9). */
  function FullRound(m: StateMatrix, roundKey: seq<bv8>): (out: StateMatrix)
    requires IsState(m) && |roundKey| == 16
    ensures IsState(out)
  {
    AddRoundKey(MixColumns(ShiftRows(SubBytes(m))), roundKey)
  }

  /** The last round leaves out MixColumns. */
  function FinalRound(m: StateMatrix, roundKey: seq<bv8>): (out: StateMatrix)
    requires IsState(m) && |roundKey| == 16
    ensures IsState(out)
  {
    AddRoundKey(ShiftRows(SubBytes(m)), roundKey)
  }

  /** The state after the initial key addition and full rounds 1 to `n`. */
  function AfterRounds(m: StateMatrix, w: seq<bv8>, n: int): (out: StateMatrix)
    requires IsState(m) && |w| == EXPANDED_KEY_BYTES && 0 <= n <= 9
    ensures IsState(out)
    decreases n
  {
    if n == 0 then AddRoundKey(m, RoundKey(w, 0))
    else FullRound(AfterRounds(m, w, n - 1), RoundKey(w, n))
  }

  /** AES-128 encryption of one block. */
  function Cipher(input: seq<bv8>, key: seq<bv8>): (output: seq<bv8>)
    requires |input| == 16 && |key| == 16
    ensures |output| == 16
  {
    var w := ExpandKey(key);
    FromState(FinalRound(AfterRounds(ToState(input), w, 9), RoundKey(w, 10)))
  }

  /** The four transformations of a full round, in order. */
  const ROUND_KINDS: seq<StepType> := [SubBytesStep, ShiftRowsStep, MixColumnsStep, AddRoundKeyStep]

  /** The kind of step `i` of a trace. */
  function StepKind(i: int): StepType
    requires 0 <= i < TRACE_LENGTH
  {
    if i == 0 then InitialStep
    else if i == 1 then AddRoundKeyStep
    else if i < 38 then ROUND_KINDS[(i - 2) % 4]
    else if i == 38 then SubBytesStep
    else if i == 39 then ShiftRowsStep
    else if i == 40 then AddRoundKeyStep
    else FinalStep
  }

  /** The round that step `i` of a trace belongs to. */
  function StepRound(i: int): (round: nat)
    requires 0 <= i < TRACE_LENGTH
    ensures round <= 10
  {
    if i < 2 then 0
    else if i < 38 then (i - 2) / 4 + 1
    else 10
  }

  /** The state a step of the given kind produces from the state before it. */
  function ApplyStep(kind: StepType, m: StateMatrix, w: seq<bv8>, round: int): (out: StateMatrix)
    requires IsState(m) && |w| == EXPANDED_KEY_BYTES && 0 <= round <= 10
    ensures IsState(out)
  {
    match kind
    case SubBytesStep => SubBytes(m)
    case ShiftRowsStep => ShiftRows(m)
    case MixColumnsStep => MixColumns(m)
    case AddRoundKeyStep => AddRoundKey(m, RoundKey(w, round))
    case InitialStep => m
    case FinalStep => m
  }

  /** The state recorded at step `i`, starting from the plaintext state `m`. */
  function StateAt(m: StateMatrix, w: seq<bv8>, i: int): (out: StateMatrix)
    requires IsState(m) && |w| == EXPANDED_KEY_BYTES && 0 <= i < TRACE_LENGTH
    ensures IsState(out)
    decreases i
  {
    if i == 0 then m
    else ApplyStep(StepKind(i), StateAt(m, w, i - 1), w, StepRound(i))
  }

  /** Step `i` of the trace for `input` under expanded key `w`. */
  function ExpectedStep(input: seq<bv8>, w: seq<bv8>, i: int): TraceStep
    requires |input| == 16 && |w| == EXPANDED_KEY_BYTES && 0 <= i < TRACE_LENGTH
  {
    var kind := StepKind(i);
    var round := StepRound(i);
    TraceStep(round, i, kind, StateAt(ToState(input), w, i),
              if kind == AddRoundKeyStep then Some(ToState(RoundKey(w, round))) else None)
  }

  /** The whole trace for encrypting `input` under `key`. */
  function ExpectedTrace(input: seq<bv8>, key: seq<bv8>): (steps: seq<TraceStep>)
    requires |input| == 16 && |key| == 16
    ensures |steps| == TRACE_LENGTH
  {
    var w := ExpandKey(key);
    seq(TRACE_LENGTH, i requires 0 <= i < TRACE_LENGTH => ExpectedStep(input, w, i))
  }

  /** The simulation the engine returns: the two blocks, a schedule that starts with the key, and a full trace. */
  function ExpectedSimulation(input: seq<bv8>, key: seq<bv8>): (sim: Simulation)
    requires |input| == 16 && |key| == 16
    ensures sim.originalInput == input && sim.originalKey == key
    ensures |sim.expandedKey| == EXPANDED_KEY_BYTES && sim.expandedKey[..16] == key
    ensures |sim.steps| == TRACE_LENGTH
  {
    Simulation(input, key, ExpandKey(key), ExpectedTrace(input, key))
  }

  /* ---------------- Properties of the trace ---------------- */

  /** Round `r` of 1 to 9 occupies steps `4r - 2` to `4r + 1`: SubBytes, ShiftRows, MixColumns, AddRoundKey. */
  lemma FullRoundSteps(r: int, phase: int)
    requires 1 <= r <= 9 && 0 <= phase < 4
    ensures StepKind(4 * r - 2 + phase) == ROUND_KINDS[phase]
    ensures StepRound(4 * r - 2 + phase) == r
  {
    var i := 4 * r - 2 + phase;
    assert i - 2 == 4 * (r - 1) + phase;
    assert (i - 2) % 4 == phase && (i - 2) / 4 == r - 1;
  }

  /** Step `4r - 2 + phase` of the trace: transformation `phase` of round `r`, applied to the step before it, with round key `r` on the key addition. */
  lemma RoundStepExpected(input: seq<bv8>, w: seq<bv8>, r: int, phase: int)
    requires |input| == 16 && |w| == EXPANDED_KEY_BYTES && 1 <= r <= 9 && 0 <= phase < 4
    ensures var i := 4 * r - 2 + phase;
      ExpectedStep(input, w, i) ==
        TraceStep(r, i, ROUND_KINDS[phase], ApplyStep(ROUND_KINDS[phase], StateAt(ToState(input), w, i - 1), w, r),
                  if phase == 3 then Some(ToState(RoundKey(w, r))) else None)
  {
    var i := 4 * r - 2 + phase;
    FullRoundSteps(r, phase);
    var kind := ROUND_KINDS[phase];
    assert StateAt(ToState(input), w, i) == ApplyStep(kind, StateAt(ToState(input), w, i - 1), w, r);
    assert kind == AddRoundKeyStep <==> phase == 3;
  }

  /** The trace opens with the initial state and round-0 key addition and closes with round 10's three steps and the final marker. */
  lemma TraceEnds()
    ensures StepKind(0) == InitialStep && StepRound(0) == 0
    ensures StepKind(1) == AddRoundKeyStep && StepRound(1) == 0
    ensures StepKind(38) == SubBytesStep && StepKind(39) == ShiftRowsStep
    ensures StepKind(40) == AddRoundKeyStep && StepKind(41) == FinalStep
    ensures StepRound(38) == 10 && StepRound(39) == 10 && StepRound(40) == 10 && StepRound(41) == 10
  {
  }

  /** Only the first step is INITIAL and only the last is FINAL. */
  lemma EndKinds(i: int)
    requires 0 <= i < TRACE_LENGTH
    ensures StepKind(i) == InitialStep <==> i == 0
    ensures StepKind(i) == FinalStep <==> i == TRACE_LENGTH - 1
  {
  }

  /** MixColumns never occurs in round 10. */
  lemma NoMixInFinalRound(i: int)
    requires 0 <= i < TRACE_LENGTH && StepRound(i) == 10
    ensures StepKind(i) != MixColumnsStep
  {
  }

  /** Key additions happen exactly at steps 1, 5, 9, ..., 37 and 40, using round keys 0 to 10 in order. */
  lemma KeyAdditionSteps(i: int)
    requires 0 <= i < TRACE_LENGTH
    ensures StepKind(i) == AddRoundKeyStep <==> i == 1 || i == 40 || (5 <= i <= 37 && i % 4 == 1)
    ensures StepKind(i) == AddRoundKeyStep && i <= 37 ==> StepRound(i) == (i - 1) / 4
  {
    if 2 <= i < 38 {
      assert (i - 2) % 4 == 3 <==> i % 4 == 1;
    }
  }

  /**
   * What every recorded step holds: its own position as its index; a round
   * key exactly on key additions, namely the round key of its round laid
   * out as a state; the plaintext state at step 0; and, at the final
   * marker, which is the last step, the state of the step before it.
   */
  lemma TraceStepShape(input: seq<bv8>, key: seq<bv8>, i: int)
    requires |input| == 16 && |key| == 16 && 0 <= i < TRACE_LENGTH
    ensures var s := ExpectedTrace(input, key)[i];
      s.stepIndex == i &&
      (s.roundKey.Some? <==> s.kind == AddRoundKeyStep) &&
      (s.roundKey.Some? ==> s.roundKey.value == ToState(RoundKey(ExpandKey(key), s.round))) &&
      (i == 0 ==> s.state == ToState(input)) &&
      (s.kind == FinalStep ==> i == TRACE_LENGTH - 1 && s.state == ExpectedTrace(input, key)[i - 1].state)
  {
    if StepKind(i) == FinalStep {
      assert !(2 <= i < 38);
      FinalRepeatsLastState(ToState(input), ExpandKey(key));
    }
  }

  /** The final marker repeats the state of the step before it. */
  lemma FinalRepeatsLastState(m: StateMatrix, w: seq<bv8>)
    requires IsState(m) && |w| == EXPANDED_KEY_BYTES
    ensures StateAt(m, w, 41) == StateAt(m, w, 40)
  {
  }

  /** After step `4n + 1` the trace has gone through the key addition and full rounds 1 to `n`. */
  lemma {:induction false} StateAtRoundEnd(m: StateMatrix, w: seq<bv8>, n: int)
    requires IsState(m) && |w| == EXPANDED_KEY_BYTES && 0 <= n <= 9
    ensures StateAt(m, w, 4 * n + 1) == AfterRounds(m, w, n)
  {
    if n > 0 {
      StateAtRoundEnd(m, w, n - 1);
      assert 4 * (n - 1) + 1 == 4 * n - 3;
      RoundStates(m, w, n);
      assert AfterRounds(m, w, n) == FullRound(AfterRounds(m, w, n - 1), RoundKey(w, n));
    }
  }

  /** The four steps of round `r` (1 to 9) take the state of step `4r - 3` through a full round with round key `r`. */
  lemma RoundStates(m: StateMatrix, w: seq<bv8>, r: int)
    requires IsState(m) && |w| == EXPANDED_KEY_BYTES && 1 <= r <= 9
    ensures StateAt(m, w, 4 * r + 1) == FullRound(StateAt(m, w, 4 * r - 3), RoundKey(w, r))
  {
    var i := 4 * r - 2;
    var before := StateAt(m, w, i - 1);
    RoundStep(m, w, r, 0);
    assert StateAt(m, w, i) == SubBytes(before);
    RoundStep(m, w, r, 1);
    assert StateAt(m, w, i + 1) == ShiftRows(SubBytes(before));
    RoundStep(m, w, r, 2);
    assert StateAt(m, w, i + 2) == MixColumns(ShiftRows(SubBytes(before)));
    RoundStep(m, w, r, 3);
  }

  /** Step `4r - 2 + phase` applies transformation `phase` of round `r` to the step before it. */
  lemma RoundStep(m: StateMatrix, w: seq<bv8>, r: int, phase: int)
    requires IsState(m) && |w| == EXPANDED_KEY_BYTES && 1 <= r <= 9 && 0 <= phase < 4
    ensures StateAt(m, w, 4 * r - 2 + phase) == ApplyStep(ROUND_KINDS[phase], StateAt(m, w, 4 * r - 3 + phase), w, r)
  {
    FullRoundSteps(r, phase);
  }

  /** The last state of the trace is the ciphertext. */
  lemma TraceEndsInCiphertext(input: seq<bv8>, key: seq<bv8>)
    requires |input| == 16 && |key| == 16
    ensures FromState(ExpectedTrace(input, key)[TRACE_LENGTH - 1].state) == Cipher(input, key)
  {
    var w := ExpandKey(key);
    var m := ToState(input);
    StateAtRoundEnd(m, w, 9);
    var before := StateAt(m, w, 37);
    assert StateAt(m, w, 38) == SubBytes(before);
    assert StateAt(m, w, 39) == ShiftRows(SubBytes(before));
    assert StateAt(m, w, 40) == FinalRound(before, RoundKey(w, 10));
    assert ExpectedTrace(input, key)[TRACE_LENGTH - 1].state == StateAt(m, w, 41) == StateAt(m, w, 40);
  }
}
