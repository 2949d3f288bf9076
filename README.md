# AES-128 trace engine, modelled in Dafny

This project models the encryption engine of an AES-128 visualiser
(`services/aes.ts` with the record shapes of `types.ts`). Given a 16-byte
plaintext block and a 16-byte key, the engine:

- expands the key into 176 bytes;
- runs the cipher on a 4x4 state matrix: the initial key addition, nine full
  rounds (SubBytes, ShiftRows, MixColumns, AddRoundKey) and a final round
  without MixColumns;
- records a copy of the state after every step.

The result is a trace of 42 steps. The model keeps the engine's form: the
transformations are methods over `array2<bv8>` buffers that copy their
argument and update the copy in place. The key expansion and `gmul` are the
source's loops. The driver is a class whose fields are the variables that the
source's `recordStep` closure captures: the current state, the step list and
the global step counter.

Every method is proved against a value-level reference:

- the layout, the four transformations and the schedule follow sections 3.4,
  5.1 and 5.2 of FIPS-197;
- lemmas state the properties the engine relies on or promises.

The driver's postcondition says that the simulation it returns equals
`ExpectedSimulation(input, key)`, a function of the two blocks alone. So the
engine is deterministic, and every property proved about `ExpectedTrace`
holds for what it returns.

The example of appendix C.1 of FIPS-197 is carried through the model round
by round: the expanded key's round keys, the state after every
transformation, and the ciphertext at the end of the trace all match the
values the standard publishes.

Modules:

- `AesTypes` (types.dfy): step kinds, trace steps, the simulation record.
- `AesTables` (tables.dfy): the S-box, its inverse and the round constants.
- `GaloisField` (gf.dfy): `gmul` and its reference product.
- `AesSpec` (spec.dfy): layout and round transformations as functions.
- `AesKeySchedule` (keyschedule.dfy): the key-schedule recurrence.
- `AesCipher` (cipher.dfy): the cipher and the expected trace, step by step.
- `AesEngine` (engine.dfy): the imperative transformations and key expansion.
- `AesSimulation` (simulation.dfy): the driver.
- `AesBlocks` (blocks.dfy): the round transformations restated on 16-byte
  blocks, in a form the verifier can evaluate on constants.
- `AesKnownAnswer` (known_answer.dfy): the example of appendix C.1 of
  FIPS-197, round by round, through the model.

## Model

| member | source | states |
|---|---|---|
| GaloisField.GMul | services/aes.ts:163-173 | The eight-round shift-and-add loop returns `GfMul(a, b)`. That is the product of `a` and `b` in GF(2^8), reduced by 0x1B whenever the high bit falls off; the result is a byte. |
| GaloisField.XTimeCases | services/aes.ts:167-169 | Doubling shifts left within a byte and XORs 0x1B exactly when the high bit was set. |
| GaloisField.MulByOne | services/aes.ts:163-173 | `gmul(a, 1) == a`. |
| GaloisField.MulByZero | services/aes.ts:163-173 | `gmul(a, 0) == 0`. |
| GaloisField.ZeroTimes | services/aes.ts:163-173 | `gmul(0, b) == 0`. |
| GaloisField.MulByTwo | services/aes.ts:163-173 | `gmul(a, 2)` is doubling (`xtime`). |
| GaloisField.MulByThree | services/aes.ts:163-173 | `gmul(a, 3)` is doubling XOR the operand. |
| GaloisField.LowBitTermCases | services/aes.ts:166 | The masked partial product is the multiplicand when the low bit of the multiplier is set, and 0 when it is clear. |
| GaloisField.MulAccZeroMultiplier | services/aes.ts:165-171 | Once the multiplier is exhausted, further rounds leave the accumulator unchanged. |
| GaloisField.MulAccZeroMultiplicand | services/aes.ts:165-171 | Rounds with a zero multiplicand leave the accumulator unchanged. |
| AesTables.SBoxInvertible | services/aes.ts:4-21 | The inverse table of figure 14 of FIPS-197 takes every entry back to its index, so the 256 entries are a permutation of the bytes. |
| AesTables.SBoxInjective | services/aes.ts:4-21 | Two bytes with the same S-box entry are the same byte. |
| AesTables.SBoxNoFixedPoints | services/aes.ts:4-21 | No entry equals its index, or the complement of its index. |
| AesSpec.ToState | services/aes.ts:47-55 | The layout of a 16-byte block is a 4x4 state. Where each byte lands is stated by `ToStateAt`, and `FromToState` makes it the inverse of `FromState`. |
| AesSpec.FromState | services/aes.ts:58-66 | Reading a state gives 16 bytes, and `ToFromState` makes the reading the inverse of the layout. |
| AesSpec.ToStateAt | services/aes.ts:47-55 | Byte `4c + r` of a block lands in row `r`, column `c`. |
| AesSpec.FromToState | services/aes.ts:47-66 | Reading a laid-out block back column by column gives the block. |
| AesSpec.ToFromState | services/aes.ts:47-66 | Laying out the bytes read from any 4x4 state gives the state back. |
| AesSpec.SubBytes | services/aes.ts:124-132 | The result is a 4x4 state. Its cells are stated by `SubBytesAt`, and `AesEngine.SubBytes` returns exactly this state. |
| AesSpec.ShiftRows | services/aes.ts:135-160 | The result is a 4x4 state. Its rows are stated by `ShiftRowsRotates`, and `AesEngine.ShiftRows` returns exactly this state. |
| AesSpec.MixColumn | services/aes.ts:179-187 | One column's four formulas give four bytes, each a row of the MDS product (`MixColumnIsMdsProduct`). |
| AesSpec.MixColumns | services/aes.ts:176-190 | The result is a 4x4 state. Its columns are stated by `MixColumnsColumnwise`, and `AesEngine.MixColumns` returns exactly this state. |
| AesSpec.AddRoundKey | services/aes.ts:112-121 | The result is a 4x4 state. It is an involution (`AddRoundKeyInvolution`), and `AesEngine.AddRoundKey` returns exactly this state. |
| AesSpec.SubBytesAt | services/aes.ts:124-132 | Cell `(r, c)` becomes the S-box entry of the old cell. |
| AesSpec.ShiftRowsRotates | services/aes.ts:135-160 | Row `r` becomes row `r` rotated left by `r`. |
| AesSpec.ShiftRowsPermutesRows | services/aes.ts:135-160 | Every row keeps its multiset of bytes. |
| AesSpec.ShiftRowsInverse | services/aes.ts:135-160 | Rotating row `r` right by `r` undoes ShiftRows, in both orders. |
| AesSpec.SubBytesShiftRowsCommute | services/aes.ts:124-160 | SubBytes and ShiftRows commute. |
| AesSpec.MixColumnIsMdsProduct | services/aes.ts:184-187 | Each of the four column formulas is one row of the MDS matrix `[[2,3,1,1],[1,2,3,1],[1,1,2,3],[3,1,1,2]]` times the column over GF(2^8). |
| AesSpec.MixColumnsColumnwise | services/aes.ts:176-190 | Column `c` of the result is the mixed column `c` of the input. |
| AesSpec.MixColumnsLocal | services/aes.ts:176-190 | Two states that agree on a column still agree on it after MixColumns. |
| AesSpec.AddRoundKeyInvolution | services/aes.ts:112-121 | Adding the same round key twice restores the state. |
| AesKeySchedule.ExpandKey | services/aes.ts:69-76 | The expanded key has 176 bytes and begins with the key. |
| AesKeySchedule.RoundKeysPrefix | services/aes.ts:219-251 | Round keys 0 to `n - 1`, as the engine slices them, laid end to end are the first `16n` bytes of the expanded key. |
| AesKeySchedule.RoundKeysTile | services/aes.ts:219-251 | The eleven round-key slices tile the 176-byte expanded key: in order, with no gap and no overlap. |
| AesKeySchedule.ExpandFromFollows | services/aes.ts:82-107 | Every word the expansion appends satisfies the recurrence. |
| AesKeySchedule.ExpandFromNext | services/aes.ts:82-107 | Each word of the expansion is the next word computed from the bytes before it. |
| AesKeySchedule.ExpandKeyIsSchedule | services/aes.ts:69-109 | The expanded key has 176 bytes, begins with the key, and every later word is the word 16 bytes earlier XORed with the temporary word. |
| AesKeySchedule.KeyScheduleUnique | services/aes.ts:69-109 | A key has exactly one sequence meeting that recurrence. |
| AesKeySchedule.WordDetermined | services/aes.ts:102-105 | Two sequences that agree before a word, and in which that word follows the recurrence, agree on it. |
| AesKeySchedule.RoundKeyFromPrevious | services/aes.ts:82-107 | In a schedule that follows the recurrence, round key `r` follows from round key `r - 1` alone. Its first word is the first word of `r - 1` XORed with the transformed last word of `r - 1`. Each later word is the matching word of `r - 1` XORed with the word before it. |
| AesKeySchedule.ScheduleByteRecurrence | services/aes.ts:102-105 | Byte by byte: `w[i] == w[i - 16] ^ t[i % 4]`. |
| AesKeySchedule.TransformBoundaries | services/aes.ts:86 | The transform applies at byte `i` exactly when `i == 16k` for some `k` from 1 to 10. |
| AesKeySchedule.RconDoubles | services/aes.ts:24-26 | Each round constant after the first is the previous one doubled in GF(2^8). |
| AesCipher.Cipher | services/aes.ts:192-255 | Encrypting a 16-byte block gives 16 bytes. `CipherKnownAnswer` pins it to the published example, and `TraceEndsInCiphertext` ties it to the trace. |
| AesCipher.StepRound | services/aes.ts:216-255 | Every step belongs to a round from 0 to 10. |
| AesCipher.ExpectedTrace | services/aes.ts:192-263 | The trace has exactly 42 steps. |
| AesCipher.ExpectedSimulation | services/aes.ts:257-262 | The simulation holds the two input blocks, a 176-byte expanded key that begins with the key, and a 42-step trace. |
| AesCipher.EndKinds | services/aes.ts:216-255 | Only the first step is INITIAL and only the last is FINAL. |
| AesCipher.FullRoundSteps | services/aes.ts:224-241 | Steps `4r - 2` to `4r + 1` are SubBytes, ShiftRows, MixColumns and AddRoundKey of round `r`. |
| AesCipher.RoundStepExpected | services/aes.ts:224-241 | Those steps apply their transformation to the state of the step before, with round key `r` on the key addition only. |
| AesCipher.TraceEnds | services/aes.ts:216-255 | Steps 0 and 1 are INITIAL and the round-0 key addition; steps 38 to 41 are round 10's SubBytes, ShiftRows and AddRoundKey, then FINAL. |
| AesCipher.NoMixInFinalRound | services/aes.ts:244-253 | No step of round 10 is MixColumns. |
| AesCipher.KeyAdditionSteps | services/aes.ts:219-251 | Key additions occur exactly at steps 1, 5, ..., 37 and 40, with round keys 0 to 10 in order. |
| AesCipher.TraceStepShape | services/aes.ts:205-214 | Every step's index is its position. It carries a round key exactly when it is a key addition, and that key is the round key of its round laid out as a state. Step 0 holds the plaintext state. FINAL is the last step and repeats the state before it. |
| AesCipher.FinalRepeatsLastState | services/aes.ts:255 | FINAL records the same state as step 40. |
| AesCipher.StateAtRoundEnd | services/aes.ts:219-241 | After step `4n + 1` the state is the round-0 key addition followed by full rounds 1 to `n`. |
| AesCipher.RoundStep | services/aes.ts:224-241 | Step `4r - 2 + phase` applies transformation `phase` of round `r` to the state of the step before it. |
| AesCipher.RoundStates | services/aes.ts:224-241 | One pass of the round loop takes the state before it through SubBytes, ShiftRows, MixColumns and the key addition with round key `r`. |
| AesCipher.TraceEndsInCiphertext | services/aes.ts:192-263 | The last recorded state, read out column by column, is the AES-128 encryption of the input. |
| AesKnownAnswer.KnownRoundKey10 | services/aes.ts:69-109 | Expanding the example key `000102...0f` gives the round keys FIPS-197 lists: each of rounds 1 to 9 (`KnownRoundKey1` to `KnownRoundKey9`) and round key 10, `13111d7f e3944a17 f307a78b 4d2b30c5`. |
| AesKnownAnswer.CipherKnownAnswer | services/aes.ts:192-255 | The example plaintext `00112233...ff` under that key encrypts to `69c4e0d8 6a7b0430 d8cdb780 70b4c55a`, as appendix C.1 of FIPS-197 lists. |
| AesKnownAnswer.TraceKnownAnswer | services/aes.ts:192-263 | The last state of the example's 42-step trace, read out column by column, is that ciphertext. |
| AesEngine.CopyState | services/aes.ts:29 | Returns a fresh buffer holding the same state. |
| AesEngine.ToStateMatrix | services/aes.ts:47-55 | Returns a fresh 4x4 buffer holding the block laid out column by column. |
| AesEngine.FromStateMatrix | services/aes.ts:58-66 | Returns a fresh 16-byte array reading the state column by column. |
| AesEngine.KeyExpansion | services/aes.ts:69-109 | Returns a fresh 176-byte array equal to the key's expanded key. The transform ran at bytes 16, 32, ..., 160: once per round key 1 to 10, in order. |
| AesEngine.ScheduleWords | services/aes.ts:78-107 | The main loop fills bytes 16 to 175 from the first 16, as the recurrence dictates. |
| AesEngine.AppendWord | services/aes.ts:84-106 | One pass writes the next word of the recurrence, leaves every byte after it unchanged, and advances the round-constant index exactly at a round-key boundary. |
| AesEngine.TempWord | services/aes.ts:84-100 | The temporary word is the previous four bytes, transformed exactly at a 16-byte boundary. |
| AesEngine.TransformWord | services/aes.ts:87-99 | Rotate left, substitute, and XOR the round constant into the first byte. |
| AesEngine.XorWordAt | services/aes.ts:102-105 | Writes four bytes, each the byte 16 earlier XORed with the matching byte of `t`, and keeps both the prefix and every byte after the word. |
| AesEngine.AddRoundKey | services/aes.ts:112-121 | Returns a fresh buffer holding the state XORed cell by cell with the round key laid out as a state. The argument is not modified. |
| AesEngine.XorCells | services/aes.ts:115-119 | Every cell is XORed with the same cell of the key matrix. |
| AesEngine.SubBytes | services/aes.ts:124-132 | Returns a fresh buffer holding the S-box image of every cell. |
| AesEngine.SubstituteCells | services/aes.ts:126-130 | Every cell is replaced by its image under the table. |
| AesEngine.ShiftRows | services/aes.ts:135-160 | Returns a fresh buffer holding the state with row `r` rotated left by `r`. |
| AesEngine.ShiftRow1 | services/aes.ts:137-142 | Row 1 rotates left by one; the other rows are unchanged. |
| AesEngine.ShiftRow2 | services/aes.ts:144-150 | Row 2 rotates left by two; the other rows are unchanged. |
| AesEngine.ShiftRow3 | services/aes.ts:152-157 | Row 3 rotates left by three; the other rows are unchanged. |
| AesEngine.MixColumns | services/aes.ts:176-190 | Returns a fresh buffer in which every column is replaced by its MDS product. |
| AesEngine.MixCells | services/aes.ts:178-188 | Each column becomes the mix of its old value. |
| AesEngine.MixColumnAt | services/aes.ts:179-187 | Column `c` becomes the four formulas of its old bytes; the other columns are unchanged. |
| AesSimulation.RoundKeyMatrix | services/aes.ts:212 | A round key is recorded exactly when one is passed, as the matrix that reads back as its bytes. |
| AesSimulation.SimulationRun.constructor | services/aes.ts:193-199 | Starts with the initial state, no steps and counter 0. |
| AesSimulation.SimulationRun.RecordStep | services/aes.ts:205-214 | Appends the step numbered by the counter, with a copy of the current state, then advances the counter. The current state is unchanged. |
| AesSimulation.GenerateAESSimulation | services/aes.ts:192-263 | Returns exactly `ExpectedSimulation(input, key)`: the two blocks, the expanded key and the 42-step trace. |
| AesSimulation.RunCipher | services/aes.ts:216-255 | After key expansion, the run records all 42 expected steps and ends holding the last state. |
| AesSimulation.RunRound | services/aes.ts:224-241 | One pass of the round loop extends the trace by the four expected steps of its round. |
| AesSimulation.RunFinalRound | services/aes.ts:244-255 | Round 10 and FINAL extend the trace to its 42 expected steps. |
| AesSimulation.Advance | services/aes.ts:226-240 | One transformation on the current state plus its record appends the next expected step. |

## Left out

- Turning the input strings into blocks (`stringToBytes`, services/aes.ts:32-38) is not modelled. The driver takes the two 16-byte blocks, and the `originalInput`/`originalKey` fields hold those blocks rather than the strings. As a consequence, two effects of the conversion are not captured: characters whose code is above 255 (`charCodeAt` is not a byte) and the truncation of strings longer than 16 characters.
- The step descriptions (Korean display text) are not recorded; they are display strings that the engine never reads. `highlightIndices` (a list of cell coordinates, types.ts:19) is not modelled because the engine never sets it.
- The user interface, hex rendering and the MixColumns panel's own matrix are not part of this model.
- Row aliasing is not modelled. A state is a 4x4 `array2<bv8>` rather than an array of row arrays, so `copyState` copies cells. Recorded states are values, which is what the deep copy guarantees: no later write reaches a recorded step.
- Byte range: values are `bv8`, so "every byte stays below 256" holds by type. The source's `& 0xff` in `gmul` is the truncation of the 8-bit shift.
- The S-box is a function of the byte: sixteen cases on its high half, each with sixteen cases on its low half, so the entries appear in the table's order. The loops of SubBytes and of the key schedule (`SubstituteCells`, `ScheduleWords`, `AppendWord`, `TempWord`, `TransformWord`) are proved for any byte substitution and called with the S-box. That keeps proofs from expanding the table.
- The driver's flow is split into methods: the part after key expansion (`RunCipher`), the loop body (`RunRound`), the final round (`RunFinalRound`) and each transform-then-record pair (`Advance`, which selects the transformation by step kind). The two inline `gmul` calls of each MixColumns line go through two temporaries.
- GaloisField.GMul: commutativity (`gmul(a, b) == gmul(b, a)`) is not proved for all operands. The engine always passes the constant 2 or 3 as the second operand (services/aes.ts:184-187), and those products are proved in closed form (`MulByTwo`, `MulByThree`, with `MulByOne`). Evaluating the eight unrolled rounds symbolically for both operand orders is beyond what the verifier handles here.
- The S-box is proved a permutation through its inverse table, but the table's entries are not derived from the field inverse and affine map of section 5.1.1 of FIPS-197. They are checked against the standard through the appendix C.1 example, whose key expansion and ten rounds make 200 table lookups.
- `fromStateMatrix` is defined but not called by the driver. It is modelled on its own, with its inverse lemmas.
- Wrong input lengths are not modelled as errors. The engine has no length check because its string adapter always yields 16 bytes. So the model's operations require 16-byte blocks (and a 176-byte schedule) and have no rejection path.
