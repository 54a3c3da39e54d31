# Radix-4 Q15 complex FFT passes

This project models the in-place radix-4 complex FFT and IFFT engine of
`fft.c` for Q15 data. Its buffer holds `fftLen` complex samples as
`2 * fftLen` signed 16-bit values. Sample `i` has its real part at element
`2i` and its imaginary part at element `2i + 1`; a 32-bit load on the
little-endian path reads the real part in the low halfword. The transform
runs in three passes:

- the first pass: the outermost decimation level, whose inputs are
  pre-scaled by `>> 2`;
- the middle passes: every level between the first and the last, whose sum
  output gets one more `>> 1`;
- the last pass: size-4 butterflies on groups of four adjacent samples,
  with no twiddles.

Each pass has a forward and an inverse variant. The inverse variant rotates
by the conjugate twiddle and exchanges the two `±j` cross terms. The
dispatchers pick the variant from `ifftFlag` and, after the last pass,
reorder the samples when `bitReverseFlag == 1`.

The model is laid out as follows:

- `q15_lanes.dfy` (`Q15Lanes`): the two-lane arithmetic of the ARMv7-M DSP
  extension (section A7.7 of the ARMv7-M Architecture Reference Manual).
  It also holds the word-level masking and shifting that `fft.c` writes
  out in C.
- `butterflies.dfy` (`Butterflies`): each butterfly as a pure function of
  its four input samples and its twiddles. It follows `fft.c`'s order of
  lane operations, and its lemmas say what every output slot holds.
- `layout.dfy` (`BufferLayout`): how the buffer and the twiddle table are
  addressed. It proves the index arithmetic behind "every sample exactly
  once".
- `steps.dfy`, `stage_one.dfy`, `stage_two.dfy`, `stage_three.dfy`: the six
  passes as methods on `array<Int16>` with loop invariants. Each is proved
  equal to a pure function of the original buffer: `FirstStage`,
  `MiddleStage`, `FinalStage`.
- `dispatch.dfy` (`Cfft`): the instance record, the three stage
  dispatchers and the forward all-stages driver.

The passes are written once for any butterfly `Kernel`. The six C
functions instantiate them with the forward or the inverse butterfly.

## Model

| member | source | states |
|---|---|---|
| Q15Lanes.SatIsNearest | fft.c:258-261 | A saturating lane operation returns the representable value nearest the exact result. It keeps the sign of the exact result, so it never wraps around. It is the identity exactly on values in [-32768, 32767]. |
| Q15Lanes.Wrap32Exact | fft.c:291-293 | The 32-bit result of a dual multiply equals the exact sum whenever that sum fits. In every case it agrees with the exact sum modulo 2^32. |
| Q15Lanes.PackUnpack | fft.c:244-250 | Loading a sample as one 32-bit word and splitting the word back into halfwords are inverse to each other, in both directions. |
| Q15Lanes.ShiftLanesWordIsLaneShift | fft.c:248-255 | The masked word shift (`(w >> s) & 0xFFFF0000` joined with the sign-extended low halfword shifted by `s`) shifts each halfword on its own. It gives floor(lane / 2^s) in both lanes, for s = 1 and s = 2. |
| Q15Lanes.HighLaneShift | fft.c:250 | The high halfword of the arithmetically shifted word is the high lane shifted on its own: low bits cannot carry into it. |
| Q15Lanes.CombineHalves | fft.c:311-313 | Masking `out2` with `0xFFFF0000`, masking `out1` with `0x0000FFFF` and or-ing the two gives the word whose low halfword is `out1`'s low halfword and whose high halfword is `out2`'s high halfword. |
| Butterflies.RotateHalves | fft.c:289-313 | The rotated real part is the high halfword of SMUAD (forward) or SMUSD (inverse). The rotated imaginary part is the high halfword of SMUSDX (forward) or SMUADX (inverse). |
| Butterflies.RotateExact | fft.c:283-387 | Take any twiddle (c, s) other than (-32768, -32768) and a combination (u, v). The forward rotation writes floor((u c + v s) / 2^16) as the real part and floor((v c - u s) / 2^16) as the imaginary part. The inverse rotation writes floor((u c - v s) / 2^16) and floor((v c + u s) / 2^16). |
| Butterflies.DualProductsExact | fft.c:761-770 | SMUAD, SMUSDX, SMUSD and SMUADX of any twiddle other than (-32768, -32768) cannot overflow, so each equals its exact sum of products. |
| Butterflies.SMuadWraps | fft.c:291 | With the twiddle (-32768, -32768) and the input (-32768, -32768), SMUAD's sum 2^31 wraps around to -2^31, so that twiddle is the one exception. |
| Butterflies.InverseIsConjugate | fft.c:753-783 | The inverse rotation by (c, s) is the forward rotation by the conjugate twiddle (c, -s). |
| Butterflies.Quarter | fft.c:249-255 | Dividing both lanes by 4 rounds down: 4 r <= x < 4 r + 4 in each lane. |
| Butterflies.PreScaleLanes | fft.c:248-255 | The first pass's input pre-scale turns each lane into floor(lane / 4). |
| Butterflies.FirstTermsPreScale | fft.c:248-272 | The first-pass combinations are formed from the four inputs with both lanes divided by 4. This covers the re-reads of the second and fourth inputs. |
| Butterflies.FirstKernelQuartered | fft.c:245-387 | The first-pass butterfly is the saturating combinations of the quartered inputs, followed by the three twiddle rotations. |
| Butterflies.SatTermsSums | fft.c:258-283 | First pass, per lane: slot 0 gets floor((sat(a+c) + sat(b+d)) / 2) and slot 1 gets sat(sat(a+c) - sat(b+d)). |
| Butterflies.SatTermsCross | fft.c:322-336 | First pass, per lane, with S = sat(a-c) and T = sat(b-d): the forward pass sends sat(S - jT) to slot 2 and sat(S + jT) to slot 3. The inverse pass sends them the other way round. |
| Butterflies.MiddleTermsSums | fft.c:453-478 | Middle pass, per lane: slot 0 gets floor(floor((sat(a+c) + sat(b+d)) / 2) / 2), which includes the extra masked `>> 1`. Slot 1 gets floor((sat(a+c) - sat(b+d)) / 2). |
| Butterflies.MiddleTermsCross | fft.c:514-535 | Middle pass, per lane: the halved S - jT and S + jT go to slots 2 and 3. Forward and inverse put them in opposite slots. |
| Butterflies.FinalButterflySums | fft.c:611-629 | Last pass, per lane: SHADD16(R, T) goes to slot 0 and SHSUB16(R, T) to slot 1, with R = sat(a+c) and T = sat(b+d). |
| Butterflies.FinalButterflyCross | fft.c:632-647 | Last pass, per lane, with S = sat(a-c) and U = sat(b-d): SHSAX(S, U) goes to slot 2 and SHASX(S, U) to slot 3. No twiddle is involved. |
| Butterflies.DirectionSwapsCrossTerms | fft.c:1128-1137 | For the first-pass, middle-pass and last-pass combinations alike, the inverse butterfly equals the forward one on slots 0 and 1 and swaps slots 2 and 3. |
| BufferLayout.DisjointQuadKept | fft.c:280-387 | A step that writes only its own four samples leaves the samples of a disjoint butterfly untouched. |
| BufferLayout.Log4 | fft.c:419 | log4 of a supported length is the exponent e with 4^e = N, the number of times `k >>= 2` divides N down to 1. |
| BufferLayout.Log4Pow4 | fft.c:419 | Every power 4^i is a power of 4, and its log4 is i, so Log4 and Pow4 are inverse to each other in both directions. |
| BufferLayout.Pow4Stride | fft.c:570 | Shifting a stride of 4^i · twidCoefModifier left by 2 gives 4^(i+1) · twidCoefModifier. |
| BufferLayout.TwiddleIndexInSpan | fft.c:286-366 | Butterfly j < n1/4 with stride tm loads its twiddle words at elements 2 j tm, 4 j tm and 6 j tm. All three loads lie below element 6 (n1/4 - 1) tm + 2. |
| BufferLayout.SlotOf | fft.c:223-234 | Every complex index p < N is slot p / (N/4) of first-pass butterfly p % (N/4). |
| BufferLayout.SlotAt | fft.c:390-395 | Slot s of first-pass butterfly g is index g + s N/4, and that index gives back g and s. So the first pass reaches each index exactly once. |
| BufferLayout.LevelSlotAt | fft.c:437 | In a level with n1 = 4 n2, index m n1 + s n2 + j (s < 4, j < n2) gives back its block m, slot s and butterfly j. |
| BufferLayout.LevelDecompose | fft.c:426-437 | Every index has that form, with m = p / n1, s = (p % n1) / n2 and j = p % n2. |
| Steps.TwiddledStep | fft.c:240-387 | One butterfly in place. The four samples it writes are the kernel applied to the samples as they were before the step, so every input is read before any output is written. No other sample changes. |
| StageOne.FirstStage | fft.c:213-399 | The first-pass result keeps the buffer length. |
| StageOne.FirstStepKeepsDone | fft.c:236-395 | One iteration of the `do/while` loop extends the set of finished butterflies by butterfly i0. Every later butterfly still holds its original inputs. |
| StageOne.FirstDoneAll | fft.c:395 | When all N/4 butterflies are done, the buffer is the first-pass result. |
| StageOne.FirstPass | fft.c:223-395 | The first-pass loop, advancing i0 by 1 and ic by twidCoefModifier, leaves exactly the first-pass result of the original buffer. |
| StageOne.FirstStageSample | fft.c:280-387 | Sample g + s N/4 of the first-pass result is output slot s of butterfly g, computed from the original buffer. |
| StageOne.FirstStageOutputs | fft.c:245-387 | Sample g + s N/4 after the first pass is slot s of the first-pass butterfly of the original samples g, g + N/4, g + N/2, g + 3N/4, each divided by 4. Twiddle ic = g · twidCoefModifier is applied at N/2, 2 ic at N/4 and 3 ic at 3N/4, and all three twiddles lie inside the table. |
| StageOne.ButterflyStage1 | fft.c:213-399 | arm_radix4_butterfly_q15_stage1 leaves the forward first-pass result. |
| StageOne.InverseButterflyStage1 | fft.c:671-872 | arm_radix4_butterfly_inverse_q15_stage1 leaves the inverse first-pass result. |
| StageTwo.BlockInRange | fft.c:437 | Butterfly j of block m < N / n1 stays inside the buffer. |
| StageTwo.ColumnInside | fft.c:437 | Each index the inner loop visits (m n1 + j < N) belongs to a block inside the buffer. |
| StageTwo.ColumnEnd | fft.c:437 | The inner loop stops after exactly N / n1 blocks. |
| StageTwo.BlockOf | fft.c:426-437 | Every index p < N is slot (p % n1) / n2 of butterfly p % n2 of block p / n1, and all three lie in range. |
| StageTwo.Level | fft.c:422-566 | One level's result keeps the buffer length. |
| StageTwo.Levels | fft.c:419-570 | The levels n1, n1/4, ..., 16 keep the buffer length. |
| StageTwo.MiddleStage | fft.c:404-575 | The middle passes keep the buffer length. |
| StageTwo.NextLevelShape | fft.c:419-570 | The next level (n1/4, stride 4 tm) is well formed, and its twiddle reads stay inside the span of the first level. |
| StageTwo.BlocksApart | fft.c:426-437 | Two different butterflies of a level never share a sample index. |
| StageTwo.BlocksDisjoint | fft.c:426-437 | The sample sets of two different butterflies of a level are disjoint. |
| StageTwo.OtherBlockKept | fft.c:437-566 | A step on butterfly (m, j) leaves every other butterfly's samples as they were. |
| StageTwo.LevelStepKeepsDone | fft.c:437-566 | One iteration of the innermost loop marks butterfly (m, j) done and keeps every unvisited butterfly at its level input. |
| StageTwo.LevelRowDone | fft.c:437 | After the innermost loop, butterfly j is done in every block. |
| StageTwo.LevelDoneAll | fft.c:426 | When all n2 butterfly columns are done, the buffer is the level's result. |
| StageTwo.LevelSampleDone | fft.c:426-437 | The same, sample by sample: each sample is its slot of its butterfly's outputs. |
| StageTwo.LevelSample | fft.c:437-566 | Sample m n1 + j + s n2 after a level is slot s of butterfly (m, j) applied to the level's input. |
| StageTwo.LevelQuadAt | fft.c:429-437 | Butterfly (m, j) reads the samples from i0 = m n1 + j on, and the twiddles of index ic = j tm, 2 ic and 3 ic. |
| StageTwo.LevelOutputs | fft.c:439-566 | Sample i0 + s n2 after a forward or inverse middle level is slot s of the middle-pass butterfly of the samples i0, i0 + n2, i0 + 2 n2, i0 + 3 n2. Twiddle ic = j tm is applied at 2 n2, 2 ic at n2 and 3 ic at 3 n2. |
| StageTwo.LevelPass | fft.c:422-566 | The `for (j ...)` loop, with ic advancing by tm, leaves exactly the level's result. |
| StageTwo.ColumnPass | fft.c:437-566 | The `for (i0 = j; i0 < fftLen; i0 += n1)` loop finishes butterfly j of every block. |
| StageTwo.MiddlePasses | fft.c:412-570 | The level loop leaves the middle-pass result and runs exactly log4(N) - 2 levels, so N = 4^(levels+2). Its last n2 is 4. The twiddle stride starts at 4 · twidCoefModifier and ends at 4^(levels+1) · twidCoefModifier, which is N/4 · twidCoefModifier. |
| StageTwo.LastStride | fft.c:570 | After log4(N) - 2 levels, 4^(levels+2) = N and the stride 4^(levels+1) · twidCoefModifier equals N/4 · twidCoefModifier. |
| StageTwo.FirstLevelShape | fft.c:412-419 | The first level (n1 = N/4, stride 4 · twidCoefModifier) is well formed and reads no further into the table than the first pass. |
| StageTwo.MiddleStageSixteen | fft.c:419 | For N = 16 the loop test `k > 4` fails at once, so the middle passes leave the buffer unchanged. |
| StageTwo.ButterflyStage2 | fft.c:404-575 | arm_radix4_butterfly_q15_stage2 leaves the forward middle-pass result. |
| StageTwo.InverseButterflyStage2 | fft.c:877-1061 | arm_radix4_butterfly_inverse_q15_stage2 leaves the inverse middle-pass result. |
| StageThree.FinalStage | fft.c:580-666 | The last-pass result keeps the buffer length. |
| StageThree.GroupStep | fft.c:596-647 | ptr1 reads group g's four words, steps back 8 halfwords and writes the four outputs over them. It ends 8 halfwords further on, and no element outside the group changes. |
| StageThree.FinalStepKeepsDone | fft.c:596-662 | One iteration of the `do/while` loop finishes group g and leaves the later groups at their inputs. |
| StageThree.FinalDoneAll | fft.c:662 | When all N/4 groups are done, the buffer is the last-pass result. |
| StageThree.FinalPass | fft.c:591-662 | The last-pass loop leaves exactly the last-pass result of the original buffer. |
| StageThree.FinalStageSample | fft.c:596-647 | Sample 4g + s of the last-pass result is slot s of the kernel applied to the original group g. |
| StageThree.FinalOutputs | fft.c:596-647 | Sample 4g + s after the last pass is slot s of the last-pass butterfly of the original samples 4g .. 4g + 3. |
| StageThree.FinalStageDirections | fft.c:1128-1137 | The forward and inverse last passes write the same values to samples 4g and 4g + 1. They exchange the values they write to 4g + 2 and 4g + 3. |
| StageThree.ButterflyStage3 | fft.c:580-666 | arm_radix4_butterfly_q15_stage3 leaves the forward last-pass result and reads no twiddle. |
| StageThree.InverseButterflyStage3 | fft.c:1065-1164 | arm_radix4_butterfly_inverse_q15_stage3 leaves the inverse last-pass result. |
| Cfft.DirectionOf | fft.c:89 | The inverse variant is chosen exactly when ifftFlag == 1; every other value selects the forward one. |
| Cfft.Permuted | fft.c:126-129 | The reordered buffer keeps the buffer length. |
| Cfft.PermutedSample | fft.c:126-129 | Sample p of the reordered buffer is sample bitRev[p] of the original. |
| Cfft.PermutedBySamples | fft.c:126-129 | A buffer whose every sample p is sample bitRev[p] of the original is the reordered buffer. |
| Cfft.PermutedTwice | fft.c:126-129 | Applying a self-inverse reordering, as a bit reversal is, twice restores the buffer. |
| Cfft.BitReversal | fft.c:128 | The stand-in for arm_bitreversal_q15 leaves the reordered original buffer. It works from a copy of the buffer, and only its result is modelled. |
| Cfft.CfftStage1 | fft.c:88-97 | arm_cfft_radix4_q15_stage1 runs the inverse first pass when ifftFlag == 1 and the forward one otherwise. |
| Cfft.CfftStage2 | fft.c:102-111 | arm_cfft_radix4_q15_stage2 does the same for the middle passes. |
| Cfft.CfftStage3 | fft.c:116-130 | arm_cfft_radix4_q15_stage3 runs the chosen last pass. The reordering follows it, and only when bitReverseFlag == 1; otherwise the result is the last pass's output. |
| Cfft.AllStages | fft.c:181-208 | arm_radix4_butterfly_q15_all_stages leaves the forward last pass applied to the forward middle passes applied to the forward first pass of the original buffer, with no reordering. |

## Left out

- The `ARM_MATH_BIG_ENDIAN` branches (another lane order chosen at compile time) are not modelled; only the little-endian path is.
- The `ARM_MATH_CM0` `#else` branches are empty, so on that target the passes do nothing. The model covers the Cortex-M3/M4 path.
- `arm_bitreversal_q15` and the instance's `bitRevFactor`/`pBitRevTable` are not part of this model. The reordering is given as an explicit permutation `bitRev` of the complex samples that the instance carries. `Cfft.Valid` requires `bitRev` to be well formed only when bitReverseFlag == 1, the only case that reads it. `Cfft.BitReversal` works from a copy of the buffer, where the C routine swaps in place, so only the routine's result is modelled.
- The intrinsics' bodies in `arm_math.h` are not part of this model. They are defined from section A7.7 of the ARMv7-M Architecture Reference Manual.
- The twiddle table's contents (approximations of cosine and sine) are not modelled. The table is any sequence of Q15 values long enough for the first pass's reads.
- Correctness as a discrete Fourier transform, forward/inverse round-trip error, linearity and impulse response are not stated. They need real-valued trigonometry and rounding-error analysis.
- The Q-format comments (fft.c:188-207 and the per-pass data-format notes) are documentation and are not modelled.
- The sticky Q flag of SMUAD/SMUADX is not modelled. The dual multiplies return the low 32 bits of the exact sum (`Wrap32`), which is all the passes keep.
- Butterflies.RotateExact: states the exact per-lane rotation for every twiddle except (-32768, -32768). With that twiddle and the input (-32768, -32768), SMUAD and SMUADX wrap around (Butterflies.SMuadWraps), and the rotation is then the wrapped value that `Rotate` computes.
- Butterflies.DualProductsExact: states exactness for every twiddle except (-32768, -32768), for the same reason. SMUSD and SMUSDX never overflow.
- Butterflies.InverseIsConjugate: requires the sine lane to differ from -32768, whose negation is not a Q15 value.
- `uint32_t` wrap-around of the loop indices and of `twidCoefModifier` is not modelled. Indices are unbounded naturals, and no precondition bounds `fftLen`, the table length or `twidCoefModifier` from above. In C the indices stay below 2^32 only because the buffer (2 · fftLen halfwords) and the table fit in the 32-bit address space.
- The coefficient table is a separate read-only sequence, so the model does not capture the table aliasing the buffer.
- Steps.TwiddledStep: the C code reads the second and fourth inputs twice, and it writes the output at i0 (and, before the second read of i3, the one at i1) in between. Those writes go to other samples, because i0, i1, i2 and i3 are distinct when n2 > 0, so the model reads each input once. It also loads the three twiddles before the step, where the first pass loads each one just before its rotation.
- The `twidCoefModifier` and `pCoef16` parameters of the last pass are accepted and never read, as in the source.
- The middle passes compute the difference and cross terms with the halving instructions SHSUB16, SHASX and SHSAX (fft.c:478, 519-535), not the saturating ones. The model follows the code.
- Inline and unused attributes and unused locals have no behaviour and are not modelled.
