/**
 * The simulation driver: it lays the input block out as a state, expands
 * the key, and runs the initial key addition, nine full rounds and the
 * final round on a current-state buffer, recording one step after every
 * transformation. The step recorder is a closure in the source; here the
 * variables it captures (the current state, the step list and the global
 * step counter) are the fields of a `SimulationRun` object.
 */
module AesSimulation {
  import opened AesTypes
  import opened AesKeySchedule
  import opened AesCipher
  import Spec = AesSpec
  import opened AesEngine

  /** The recorded form of an optional round key: present exactly when a key was passed, laid out as a state. */
  function RoundKeyMatrix(roundKey: Option<seq<bv8>>): (k: Option<StateMatrix>)
    requires roundKey.Some? ==> |roundKey.value| == 16
    ensures k.Some? <==> roundKey.Some?
    ensures k.Some? ==> IsState(k.value) && Spec.FromState(k.value) == roundKey.value
  {
    match roundKey
    case None => None
    case Some(bytes) =>
      Spec.FromToState(bytes);
      Some(Spec.ToState(bytes))
  }

  class SimulationRun {
    var currentState: array2<bv8>
    var steps: seq<TraceStep>
    var globalStepIndex: nat

    /** A run holding `initial` as its current state, with nothing recorded yet. */
    constructor(initial: array2<bv8>)
      ensures currentState == initial && steps == [] && globalStepIndex == 0
    {
      currentState := initial;
      steps := [];
      globalStepIndex := 0;
    }

    /**
     * Appends a step numbered by the global counter, holding a copy of the
     * current state and the round key (if any) laid out as a state, and
     * advances the counter.
     */
    method RecordStep(kind: StepType, round: nat, roundKey: Option<seq<bv8>>)
      requires IsStateArray(currentState)
      requires roundKey.Some? ==> |roundKey.value| == 16
      modifies this
      ensures currentState == old(currentState)
      ensures steps == old(steps) + [TraceStep(round, old(globalStepIndex), kind, Snapshot(currentState), RoundKeyMatrix(roundKey))]
      ensures globalStepIndex == old(globalStepIndex) + 1
    {
      var copy := CopyState(currentState);
      var keyMatrix: Option<StateMatrix> := None;
      if roundKey.Some? {
        var k := ToStateMatrix(roundKey.value);
        keyMatrix := Some(Snapshot(k));
      }
      steps := steps + [TraceStep(round, globalStepIndex, kind, Snapshot(copy), keyMatrix)];
      globalStepIndex := globalStepIndex + 1;
    }
  }

  /** The first `n` steps of the trace for `input` under expanded key `w`. */
  ghost predicate TracedUpTo(run: SimulationRun, input: seq<bv8>, w: seq<bv8>, n: int)
    reads run, run.currentState
    requires |input| == 16 && |w| == EXPANDED_KEY_BYTES && 0 < n <= TRACE_LENGTH
  {
    IsStateArray(run.currentState) &&
    run.globalStepIndex == n && |run.steps| == n &&
    (forall i :: 0 <= i < n ==> run.steps[i] == ExpectedStep(input, w, i)) &&
    Snapshot(run.currentState) == StateAt(Spec.ToState(input), w, n - 1)
  }

  /**
   * Encrypts `input` under `key` and returns the 42-step trace, the key
   * schedule and the two blocks.
   */
  method GenerateAESSimulation(input: seq<bv8>, key: seq<bv8>) returns (sim: Simulation)
    requires |input| == 16 && |key| == 16
    ensures sim == ExpectedSimulation(input, key)
  {
    var state := ToStateMatrix(input);
    var run := new SimulationRun(state);
    var expandedKey;
    ghost var boundaries;
    expandedKey, boundaries := KeyExpansion(key);
    RunCipher(run, input, expandedKey);
    TraceComplete(run.steps, input, key);
    sim := Simulation(input, key, expandedKey[..], run.steps);
  }

  /**
   * The body of the driver once the key is expanded: the initial record,
   * the round-0 key addition, rounds 1 to 9 and the final round.
   */
  method RunCipher(run: SimulationRun, input: seq<bv8>, expandedKey: array<bv8>)
    requires |input| == 16 && expandedKey.Length == EXPANDED_KEY_BYTES
    requires IsStateArray(run.currentState) && Snapshot(run.currentState) == Spec.ToState(input)
    requires run.steps == [] && run.globalStepIndex == 0
    modifies run
    ensures TracedUpTo(run, input, expandedKey[..], TRACE_LENGTH)
  {
    run.RecordStep(InitialStep, 0, None);
    TraceEnds();
    assert run.steps == [ExpectedStep(input, expandedKey[..], 0)];
    Advance(run, input, expandedKey, AddRoundKeyStep, 0);

    for round := 1 to 10
      invariant TracedUpTo(run, input, expandedKey[..], 4 * round - 2)
    {
      RunRound(run, input, expandedKey, round);
    }

    RunFinalRound(run, input, expandedKey);
  }

  /**
   * One pass of the round loop: SubBytes, ShiftRows, MixColumns and
   * AddRoundKey with round key `round`, each followed by a record.
   */
  method RunRound(run: SimulationRun, input: seq<bv8>, expandedKey: array<bv8>, round: int)
    requires |input| == 16 && expandedKey.Length == EXPANDED_KEY_BYTES && 1 <= round <= 9
    requires TracedUpTo(run, input, expandedKey[..], 4 * round - 2)
    modifies run
    ensures TracedUpTo(run, input, expandedKey[..], 4 * round + 2)
  {
    FullRoundSteps(round, 0);
    Advance(run, input, expandedKey, SubBytesStep, round);
    FullRoundSteps(round, 1);
    Advance(run, input, expandedKey, ShiftRowsStep, round);
    FullRoundSteps(round, 2);
    Advance(run, input, expandedKey, MixColumnsStep, round);
    FullRoundSteps(round, 3);
    Advance(run, input, expandedKey, AddRoundKeyStep, round);
  }

  /** Round 10 without MixColumns, then the final marker, which repeats the last state. */
  method RunFinalRound(run: SimulationRun, input: seq<bv8>, expandedKey: array<bv8>)
    requires |input| == 16 && expandedKey.Length == EXPANDED_KEY_BYTES
    requires TracedUpTo(run, input, expandedKey[..], 38)
    modifies run
    ensures TracedUpTo(run, input, expandedKey[..], TRACE_LENGTH)
  {
    var round := 10;
    TraceEnds();
    Advance(run, input, expandedKey, SubBytesStep, round);
    Advance(run, input, expandedKey, ShiftRowsStep, round);
    Advance(run, input, expandedKey, AddRoundKeyStep, round);
    Advance(run, input, expandedKey, FinalStep, round);
  }

  /**
   * The transformation of step `run.globalStepIndex` of the trace, of the
   * given kind and round, applied to the current state, followed by its
   * record; a key addition takes round key `round` from the expanded key.
   */
  method Advance(run: SimulationRun, input: seq<bv8>, expandedKey: array<bv8>, kind: StepType, round: nat)
    requires |input| == 16 && expandedKey.Length == EXPANDED_KEY_BYTES
    requires 1 <= run.globalStepIndex < TRACE_LENGTH
    requires TracedUpTo(run, input, expandedKey[..], run.globalStepIndex)
    requires StepKind(run.globalStepIndex) == kind && StepRound(run.globalStepIndex) == round
    modifies run
    ensures TracedUpTo(run, input, expandedKey[..], old(run.globalStepIndex) + 1)
  {
    ghost var w := expandedKey[..];
    ghost var n := run.globalStepIndex;
    ghost var before := run.steps;
    match kind {
      case InitialStep =>
        assert false;
      case SubBytesStep =>
        run.currentState := SubBytes(run.currentState);
        run.RecordStep(kind, round, None);
      case ShiftRowsStep =>
        run.currentState := ShiftRows(run.currentState);
        run.RecordStep(kind, round, None);
      case MixColumnsStep =>
        run.currentState := MixColumns(run.currentState);
        run.RecordStep(kind, round, None);
      case AddRoundKeyStep =>
        var roundKey := expandedKey[round * 16..(round + 1) * 16];
        assert roundKey == RoundKey(w, round);
        run.currentState := AddRoundKey(run.currentState, roundKey);
        run.RecordStep(kind, round, Some(roundKey));
      case FinalStep =>
        run.RecordStep(kind, round, None);
    }
    TraceExtends(before, input, w, n, run.steps[n]);
  }

  /** A trace prefix of length `n` extended by the expected step `n` is the prefix of length `n + 1`. */
  lemma TraceExtends(steps: seq<TraceStep>, input: seq<bv8>, w: seq<bv8>, n: int, step: TraceStep)
    requires |input| == 16 && |w| == EXPANDED_KEY_BYTES && 0 <= n < TRACE_LENGTH && |steps| == n
    requires forall i :: 0 <= i < n ==> steps[i] == ExpectedStep(input, w, i)
    requires step == ExpectedStep(input, w, n)
    ensures forall i :: 0 <= i < n + 1 ==> (steps + [step])[i] == ExpectedStep(input, w, i)
  {
  }

  /** A complete list of the expected steps is the expected trace. */
  lemma TraceComplete(steps: seq<TraceStep>, input: seq<bv8>, key: seq<bv8>)
    requires |input| == 16 && |key| == 16 && |steps| == TRACE_LENGTH
    requires forall i :: 0 <= i < TRACE_LENGTH ==> steps[i] == ExpectedStep(input, ExpandKey(key), i)
    ensures steps == ExpectedTrace(input, key)
  {
  }
}
