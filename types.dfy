/**
 * Record shapes of the trace engine: the step kinds, one recorded step and
 * the simulation result.  Bytes are `bv8`, so every stored value is below 256
 * by construction.
 */
module AesTypes {

  datatype Option<T> = None | Some(value: T)

  /** A 4x4 state matrix as a value: `m[r][c]` is row `r`, column `c`. */
  type StateMatrix = seq<seq<bv8>>

  predicate IsState(m: StateMatrix)
  {
    |m| == 4 && forall r :: 0 <= r < 4 ==> |m[r]| == 4
  }

  /** The six kinds of recorded step. */
  datatype StepType = InitialStep | SubBytesStep | ShiftRowsStep | MixColumnsStep | AddRoundKeyStep | FinalStep

  /**
   * One recorded step: the round it belongs to, its position in the trace,
   * its kind, the state AFTER the operation, and the round key used (present
   * only on key additions).
   */
  datatype TraceStep = TraceStep(
    round: nat,
    stepIndex: nat,
    kind: StepType,
    state: StateMatrix,
    roundKey: Option<StateMatrix>)

  /** The result of one run: the two input blocks, the key schedule and the steps. */
  datatype Simulation = Simulation(
    originalInput: seq<bv8>,
    originalKey: seq<bv8>,
    expandedKey: seq<bv8>,
    steps: seq<TraceStep>)
}
