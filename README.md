# cppSfxr in Dafny

This project models the core of cppSfxr, a C++ port of the sfxr sound-effect
synthesiser. A sound is described by a block of 32 floats (`Sfxr::Parameters`).
`SfxrCore` renders it one sample at a time into a chunked float buffer. The
rendering runs an envelope, a pitch slide with arpeggio and vibrato, nine
waveforms, a low-pass and a high-pass filter, a phaser ring and a
post-processing stage. `Sfxr` owns the block and the core. It validates the
output format, sizes the exports and keeps the "created" and "rebuild" flags.
`libSfxr.cpp` adds a Hann window, a windowed multiply and an in-place
radix-2 FFT.

The modules follow the source files:

- `Common` (`common.dfy`) holds the shared vocabulary. It has results that
  carry a thrown message, C's truncating float-to-int cast, and powers of two.
- `SfxrHeader` (`sfxr_header.dfy`) is `cppSfxr.h`. It holds the wave, preset
  and mode constants, the parameter names and their indices, the parameter
  block, `reset`, `lockWordParams` and the packed WAVE header sizes.
- `Generators` (`generators.dfy`) holds the integer generators of
  `cppSfxr.cpp`. These are PCG32, the `RandXS` xorshift class, the
  Voss-McCartney `PinkNumber` class and the 15-bit LFSR of the one-bit noise
  wave.
- `FloatBuffer` (`float_buffer.dfy`) is `SfxrFloatBuffer`. It is a class with
  a table of retired 4096-sample blocks and a current block that is an
  `array<real>`. It also holds the byte encodings of the PCM writers.
- `SynthCore` (`synth_core.dfy`) is `SfxrCore`. `resetSample` and the
  per-sample controls are pure functions on small state records. The render
  loop (`synthSample`, eight sub-samples per sample, the noise banks and the
  phaser ring) is a class with the source's fields and arrays.
- `SfxrSound` (`sfxr.dfy`) is the `Sfxr` class. It covers `setPCM`,
  `setFloat`, `setMode`, `seed`, `size`, both `operator[]`, `setParameters`,
  `reset`, the three `create` overloads and `assertSynthed`.
- `Fft` (`fft.dfy`) is `libSfxr.cpp`. It covers `br` and its loop, the bit
  reversal reordering, the butterfly stages of `FilterFFT`, `HannWindow` and
  `WindowMultiply`.

Floating-point values are modelled as `real`. The render loop's `sin`, `tan`
and `pow` calls and its `M_PI` are not computed. They are a `Libm` record of
function values and a constant passed in by the caller. The remaining libm
calls are modelled directly: `fabs` is `Abs`, the one `fmod` is `%` on the
whole-number phase, and a `pow` with exponent 1, 2 or 3 is a product. The
FFT and the window functions take their float operations and `cos`, `sin`
and `M_PI` from a `FloatMath` record in the same way. `FilterFFT`'s
`log`-derived stage count is an argument. So every proof holds for any
implementation of the recorded functions, and the properties proved are the
ones that do not depend on rounding. These are index structure, control
flow, clamps, bounds, counts, state transitions and byte layouts.

## Model

| member | source | states |
|---|---|---|
| SfxrHeader.WaveOfCode | cppSfxr.h:94-102 | a wave code names a wave type exactly when it is 0..8, and that wave's code is the code read |
| SfxrHeader.WaveCodesDistinct | cppSfxr.h:94-102 | two wave types share a code only if they are the same wave |
| SfxrHeader.ModeFlagsSeparate | cppSfxr.h:104-106 | the NORMALIZE and WORD_MODE flags are disjoint bits; setting one sets it, clearing WORD_MODE clears it |
| SfxrHeader.ZeroParameters | cppSfxr.h:116-146 | every one of the 32 floats of the all-zero block is 0 |
| SfxrHeader.Floats | cppSfxr.h:116-146 | the block viewed as an array has exactly 32 floats |
| SfxrHeader.IndexIsFieldOrdinal | cppSfxr.h:64-90 | each named index constant addresses the struct field of the same name in the float view |
| SfxrHeader.FloatsRoundTrip | cppSfxr.h:116-146 | the struct and its 32-float array view are inverse to each other in both directions |
| SfxrHeader.ParamNamesDistinct | cppSfxr.cpp:1567-1598 | the table of parameter names has one entry per named index and no name twice |
| SfxrHeader.PresetNamesDistinct | cppSfxr.h:168 | the seven preset names are pairwise distinct |
| SfxrHeader.IndexOf | cppSfxr.cpp:1567-1598 | the linear name search returns the first matching position at or after the start, or none exactly when no later entry matches |
| SfxrHeader.ParamIndex | cppSfxr.cpp:1567-1598 | `getParamIndex` fails with its message exactly for names not in the table; otherwise the index names that parameter |
| SfxrHeader.ParamIndexOfName | cppSfxr.cpp:1567-1598 | looking up the i-th parameter name gives back i |
| SfxrHeader.PresetIndex | cppSfxr.cpp:1372-1383 | `create(const char*)` refuses exactly the strings that are no preset name; otherwise the index names that preset |
| SfxrHeader.PresetIndexOfName | cppSfxr.cpp:1372-1383 | looking up the i-th preset name gives back i |
| SfxrHeader.ResetKeepsPostProcessing | cppSfxr.cpp:940-974 | `reset` leaves the post-processing floats as they were, sets every other float to the same default whatever the block held, and is idempotent |
| SfxrHeader.ResetDefaults | cppSfxr.cpp:940-974 | definition of `reset`: the defaults of every assigned float; ResetKeepsPostProcessing states what it keeps, that the rest ignores the input, and idempotence |
| SfxrHeader.LockWordParams | cppSfxr.cpp:1644-1656 | every float of the block is replaced by its word-locked value |
| SfxrHeader.WordLockedMultiple | cppSfxr.cpp:1644-1656 | a word-locked value is a whole multiple of 32000, and values strictly between -1 and 1 lock to 0 |
| SfxrHeader.HeaderSizes | cppSfxr.cpp:68-107 | the packed PCM and float WAVE headers take 44 and 46 bytes, with format chunks of 16 and 18 bytes |
| Generators.RandXS.constructor | cppSfxr.cpp:375-380 | the xorshift state starts as the seed mixed with the fixed constant |
| Generators.RandXS.Seed | cppSfxr.cpp:382 | reseeding sets the state to the mixed seed |
| Generators.RandXS.Rand | cppSfxr.cpp:384-392 | one xorshift step of the state, and the returned word is the scrambled new state |
| Generators.XorShift | cppSfxr.cpp:386-390 | definition of the three shift-xor steps of `rand`; RandXS.Rand states that the state becomes this step |
| Generators.Scramble | cppSfxr.cpp:391 | definition of the output multiply of `rand`; RandXS.Rand states that the result is this product of the new state |
| Generators.RandXS.Rand32 | cppSfxr.cpp:394-402 | one xorshift step, and the result is the low 32 bits of the scrambled new state |
| Generators.RandXS.RandF | cppSfxr.cpp:404-407 | one xorshift step, and the result is the 32-bit draw scaled into [0, 1] |
| Generators.UnitOf | cppSfxr.cpp:404-407 | in exact arithmetic a 32-bit draw scales into [0, 1], reaching 0 only for 0 and 1 only for the all-ones word (C's float rounding, under which the top words also give 1.0f, is not modelled) |
| Generators.NoiseOf | cppSfxr.cpp:721-723 | a white-noise sample lies in [-1, 1] and is -1 only for the zero draw |
| Generators.PcgNext | cppSfxr.cpp:46-56 | a PCG step keeps the stream, advances the state by the LCG, and outputs from the old state |
| Generators.PcgOutput | cppSfxr.cpp:52-55 | definition of the XSH-RR output of the old state; PcgNext states that a step outputs it from the state before the advance |
| Generators.PcgSeed | cppSfxr.cpp:58-65 | a seeded PCG has an odd stream increment made from the sequence argument |
| Generators.PcgIncOddForever | cppSfxr.cpp:46-56 | any number of PCG steps keeps the increment, so it stays odd |
| Generators.SeededCorePcg | cppSfxr.cpp:550-553 | `SfxrCore::seed` selects the stream from the masked seed, and its increment is odd |
| Generators.NextKey | cppSfxr.cpp:440-442 | the pink-noise key counts up modulo 32 and stays a five-bit value |
| Generators.RedrawSchedule | cppSfxr.cpp:444-449 | bank i is redrawn exactly when the new key is a multiple of 2^i; bank 0 is redrawn every call |
| Generators.RefreshFrame | cppSfxr.cpp:446-451 | after the refresh loop a bank not on the schedule keeps its value and a redrawn bank is below range/5 |
| Generators.RefreshDraws | cppSfxr.cpp:446-451 | the refresh loop advances the generator by exactly one xorshift step per redrawn bank |
| Generators.SumOfBound | cppSfxr.cpp:450 | a sum of values each below q is at most count times (q - 1) |
| Generators.PinkNumber.constructor | cppSfxr.cpp:426-433 | the key starts at 0, the range is kept, bank i holds InitialBank of the generator seeded with 0 (its (i+1)-th 32-bit draw modulo range/5), and the generator has advanced five steps |
| Generators.InitialBank | cppSfxr.cpp:432-433 | an initial bank value, `rand32() % (range / 5)`, is below range/5 |
| Generators.FillInitialBanks | cppSfxr.cpp:431-433 | the constructor's loop: the generator advances five steps and bank i is the (i+1)-th draw reduced below range/5 |
| Generators.PinkNumber.GetNextValue | cppSfxr.cpp:435-453 | the key advances, the banks and the generator become the scheduled refresh of the old ones, and the result is the bank sum, which is below the range |
| Generators.PinkNumber.RefreshBanks | cppSfxr.cpp:446-451 | the banks and generator end as the scheduled refresh, and the result is the sum of the banks |
| Generators.PinkNumber.RedrawBank | cppSfxr.cpp:448-449 | one bank is redrawn or kept according to the schedule |
| Generators.PinkNumber.GetNextFloat | cppSfxr.cpp:455-458 | the key advances, the banks and the generator become the scheduled refresh of the old ones, and the result is the new bank sum divided by the range, which lies in [0, 1) |
| Generators.PinkEntryRange | cppSfxr.cpp:726-727 | a pink-noise slot `getNextFloat() * 2 - 1` lies in [-1, 1) |
| Generators.LfsrStaysInRange | cppSfxr.cpp:731-732 | one LFSR step keeps a non-zero 15-bit state non-zero and within 15 bits |
| Generators.LfsrStep | cppSfxr.cpp:731-732 | definition of the register step; LfsrStaysInRange and LfsrReachable state that it keeps a non-zero 15-bit state |
| Generators.LfsrReachable | cppSfxr.cpp:731-732 | any number of LFSR steps from a non-zero 15-bit state stays non-zero and within 15 bits |
| Generators.OneBitNoise | cppSfxr.cpp:733 | the one-bit sample is +0.5 exactly when the state's low bit is 0 and -0.5 exactly when it is 1 |
| FloatBuffer.FlattenIndex | cppSfxr.cpp:353-370 | sample i of full blocks is at block i >> 12, offset i & 4095 |
| FloatBuffer.SampleAddress | cppSfxr.cpp:353-370 | an index below the buffer size is found in a retired block or in the current block at offset i & 4095 |
| FloatBuffer.SampleBuffer.Contents | cppSfxr.cpp:162-165 | the buffered sequence has `size()` elements |
| FloatBuffer.SampleBuffer.SizeBytes | cppSfxr.cpp:167-170 | `sizeBytes` is four bytes per buffered sample (exact, not wrapped to `unsigned int`) |
| FloatBuffer.SampleBuffer.MemoryBytes | cppSfxr.cpp:172-175 | `memoryBytes` counts every retired block and the current one in full, which is more than the data held (exact, not wrapped to `unsigned int`) |
| FloatBuffer.SampleBuffer.constructor | cppSfxr.cpp:150-160 | a new buffer is empty, with no retired blocks and a fresh current block |
| FloatBuffer.SampleBuffer.Append | cppSfxr.cpp:214-223 | `<<` appends one sample to the contents; a full block is retired to the table and a fresh one started |
| FloatBuffer.SampleBuffer.Retire | cppSfxr.cpp:218-222 | a full current block moves to the end of the table, keeping the contents, and the position resets to 0 |
| FloatBuffer.SampleBuffer.Clear | cppSfxr.cpp:345-351 | `clear` empties the buffer and keeps the current block's storage |
| FloatBuffer.SampleBuffer.GetAsWritten | cppSfxr.cpp:353-370 | `operator[]` as written: every index below the size reads its sample; the guard throws only when the block number exceeds the table size plus one, reads one block past the table, and reads stale slots of the current block |
| FloatBuffer.SampleBuffer.At | cppSfxr.cpp:353-370 | corrected read: succeeds exactly for indices below the size, and returns that sample |
| FloatBuffer.SampleBuffer.Swept | cppSfxr.cpp:185-198 | the slots `getLimitAverage` visits are the contents followed by the unfilled rest of the current block |
| FloatBuffer.SampleBuffer.GetLimitAverage | cppSfxr.cpp:177-201 | as written, the limit is the largest magnitude and the average the mean magnitude over all swept slots |
| FloatBuffer.SampleBuffer.ContentsLimitAverage | cppSfxr.cpp:177-201 | corrected: the limit is the peak magnitude and the average the mean magnitude of the buffered samples only, both 0 for an empty buffer |
| FloatBuffer.PeakIsLargest | cppSfxr.cpp:185-198 | the peak bounds every sample's magnitude and is reached by some sample unless it is 0 |
| FloatBuffer.SampleBuffer.ScaleBy | cppSfxr.cpp:203-212 | `scale` multiplies every buffered sample by the factor, keeping the block layout |
| FloatBuffer.ScaledFlatten | cppSfxr.cpp:203-212 | scaling block by block equals scaling the flattened contents |
| FloatBuffer.SampleBuffer.WriteFloats | cppSfxr.cpp:225-232 | the float writer emits the buffered samples in order |
| FloatBuffer.SampleBuffer.WritePcm | cppSfxr.cpp:234-319 | the 8/16/24-bit writers, and the 32-bit one as intended, emit each sample's little-endian encoding in order, width bytes per sample |
| FloatBuffer.SampleBuffer.WriteStream32 | cppSfxr.cpp:321-343 | `writeStream32` as written encodes each block's samples as 4-byte words but writes only the first 2 bytes per sample of that encoding, so it emits the complete words of the first half of each block's samples and drops the rest: two bytes per sample in all |
| FloatBuffer.WriteStream32DropsHighHalf | cppSfxr.cpp:321-343 | the as-written 32-bit writer emits the first sample's full four bytes and nothing of the second for a run of two, and two of the four bytes for a single sample, where the encoding has four bytes per sample |
| FloatBuffer.EncodeRun | cppSfxr.cpp:234-319 | the per-block writer loop emits the encoding of the first n samples of a block |
| FloatBuffer.SampleBytes | cppSfxr.cpp:234-319 | each PCM width encodes a sample in exactly that many bytes |
| FloatBuffer.SampleBytesDecode | cppSfxr.cpp:234-319 | decoding the bytes of a sample in [-1, 1] gives the offset 8-bit value and the truncated 16-, 24- and 32-bit scaled values, with the scale factors as spelled (0x7F, 0x7FFE, 0x7FFFFE, 0x7FFFFFFE) |
| FloatBuffer.Scaled32AsWritten | cppSfxr.cpp:333-338 | with `(float)0x7FFFFFFE` rounded to 2^31, the truncated product of a sample in [-1, 1] fits an `int32_t` exactly when the sample is below 1.0 |
| FloatBuffer.EncodedLength | cppSfxr.cpp:234-319 | the encoding of n samples has width times n bytes |
| FloatBuffer.HalfBlocksLength | cppSfxr.cpp:326-336 | the as-written 32-bit writer emits 8192 bytes per full block |
| SynthCore.EnvLength | cppSfxr.cpp:605-610 | a stage length is the truncation of the squared parameter times 100000 |
| SynthCore.EnvRemaining | cppSfxr.cpp:685-692 | the count of samples still to play is 0 exactly when the envelope has reached stage 3 |
| SynthCore.EnvStepCountsDown | cppSfxr.cpp:685-692 | each envelope step stays in range, moves at most one stage on, and lowers the remaining count by exactly one |
| SynthCore.EnvStep | cppSfxr.cpp:685-692 | definition of the envelope clock; EnvStepCountsDown states that it moves at most one stage and lowers the remaining count by one |
| SynthCore.EnvTotal | cppSfxr.cpp:605-610 | from the reset state the envelope plays the three stage lengths plus 3 samples |
| SynthCore.StageFractionAsWritten | cppSfxr.cpp:693-698 | as written, the stage fraction `env_time / env_length` is undefined exactly when the stage length is 0 |
| SynthCore.StageFraction | cppSfxr.cpp:693-698 | corrected: the fraction lies in [0, 1] and agrees with the as-written one whenever the length is non-zero |
| SynthCore.EnvVolume | cppSfxr.cpp:693-698 | attack and decay volumes lie in [0, 1]; sustain lies between 1 and 1 + 2 * punch |
| SynthCore.ZeroSustainIsNaN | cppSfxr.cpp:686-696 | with zero sustain the attack ends into sustain time 0, where the as-written fraction is 0/0; the corrected volume is 1 + 2 * punch |
| SynthCore.ZeroDecayIsNaN | cppSfxr.cpp:685-698 | with zero decay the sustain ends into decay time 0, where the as-written fraction is 0/0; the next sample ends the sound in stage 3, which keeps that volume; the corrected decay volume is 1 |
| SynthCore.WordAttackPastFloatClock | cppSfxr.cpp:1644-1656 | word mode locks an attack of 1 to 32000, whose stage length is at least 2^24 samples |
| SynthCore.PeriodOf | cppSfxr.cpp:571-585 | the period derived from a frequency is positive and at most 100000 |
| SynthCore.ClampedPeriod | cppSfxr.cpp:679-680 | the integer period is the truncation when that is at least 8, and 8 otherwise |
| SynthCore.ClampDuty | cppSfxr.cpp:681-683 | the duty is clamped into [0, 0.5]: kept inside, 0 below, 0.5 above |
| SynthCore.PhaserDepth | cppSfxr.cpp:701-703 | the phaser depth is the truncated magnitude, capped at 1023 |
| SynthCore.ReadSlot | cppSfxr.cpp:795 | the slot the phaser reads is within the 1024-slot ring |
| SynthCore.ReadSlotBehind | cppSfxr.cpp:794-795 | the read slot is the depth behind the write slot, modulo 1024, and is the write slot exactly when the depth is 0 |
| SynthCore.NextSlot | cppSfxr.cpp:796 | the write slot advances by one modulo 1024 |
| SynthCore.KeyAfterWraps | cppSfxr.cpp:440-442 | n pink-noise calls move the key by n modulo 32 |
| SynthCore.KeyCycle | cppSfxr.cpp:726-727 | a multiple of 32 calls, such as one 32-slot refill, returns the key to where it was |
| SynthCore.NoiseSlotInRange | cppSfxr.cpp:754 | the noise slot `(int)(phase * 32 / period)` is below 32 while the phase is below the period |
| SynthCore.WaveformBounded | cppSfxr.cpp:739-772 | every waveform but sine and tan lies in [-1, 1] when its noise banks do; square is always +0.5 or -0.5 |
| SynthCore.Waveform | cppSfxr.cpp:737-772 | definition of the wave switch, 0 for an unknown code; WaveformBounded states its range for the waves that need no libm value |
| SynthCore.NoiseDraws | cppSfxr.cpp:621-625 | a white-noise refill has 32 slots, each in [-1, 1] |
| SynthCore.Clip | cppSfxr.cpp:813-814 | the final clamp keeps values in [-1, 1] and moves the others to the nearer bound |
| SynthCore.DecimateFactor | cppSfxr.cpp:640-643 | the decimation factor is 0 exactly when the parameter is 0, and 2 to the truncated parameter when that lies in 0..30 (the documented range 2 to 12 is inside) |
| SynthCore.Decimated | cppSfxr.cpp:800-804 | definition of the mean of the sub-samples and its decimation; PostProcess and PostProcessAsWritten state what follows from it |
| SynthCore.PostProcess | cppSfxr.cpp:800-814 | corrected: the post-processed sample lies in [-1, 1], and equals the as-written one whenever compression is off or the decimated mean is non-negative |
| SynthCore.PostProcessAsWritten | cppSfxr.cpp:800-814 | as written: the result is a NaN exactly when compression is on and the decimated mean is negative with a fractional exponent; otherwise it lies in [-1, 1] |
| SynthCore.Compress | cppSfxr.cpp:806-808 | corrected compressor: the identity when off, `pow` of the sample when it is non-negative |
| SynthCore.CompressOdd | cppSfxr.cpp:806-808 | the corrected compressor maps opposite non-zero samples to opposite values |
| SynthCore.NegativeCompressIsNaN | cppSfxr.cpp:806-814 | with compress 0.5 and no decimation, every negative sum gives a NaN as written, while the corrected value is the clipped negated power of the magnitude |
| SynthCore.ArpModOf | cppSfxr.cpp:578-581 | a non-negative arpeggio setting gives a factor of at most 1 (a higher pitch), a negative one a factor above 1 |
| SynthCore.CycleLimit | cppSfxr.cpp:583 | the arpeggio and repeat limits are at least 32 samples |
| SynthCore.ArpLimit | cppSfxr.cpp:583-584 | the arpeggio is off exactly when its speed parameter is 1 |
| SynthCore.RepeatLimit | cppSfxr.cpp:627-630 | the repeat is off exactly when its speed parameter is 0 |
| SynthCore.FilterReset | cppSfxr.cpp:590-599 | a full reset zeroes the filter's position, delta and high-pass accumulator, and the damping stays at most 0.8 |
| SynthCore.HighPassRamp | cppSfxr.cpp:705-710 | with a ramp the high-pass cutoff is clamped into [0.00001, 0.1]; without one the filter is unchanged; nothing else changes |
| SynthCore.FilterSample | cppSfxr.cpp:773-792 | the low-pass cutoff stays in [0, 0.1]; at cutoff 1 the filter follows the input; the output is the high-pass accumulator; no other filter field changes |
| SynthCore.PitchOf | cppSfxr.cpp:571-585 | the pitch reset has arpeggio time 0, positive periods, the integer period as the truncated float period, and the arpeggio off exactly when its speed is 1 |
| SynthCore.EnvelopeOf | cppSfxr.cpp:605-610 | the envelope reset is stage 0, time 0, volume 0, with the three stage lengths of the block |
| SynthCore.PhaserOf | cppSfxr.cpp:612-619 | the phaser reset writes at slot 0, its depth is the truncated offset, and the offset and ramp keep the signs of their parameters |
| SynthCore.VibratoOf | cppSfxr.cpp:601-603 | the vibrato reset has phase 0, non-negative speed, and is off exactly when its strength is not positive |
| SynthCore.RepeatOf | cppSfxr.cpp:627-630 | the repeat reset has time 0 and is off exactly when its speed is 0 |
| SynthCore.RepeatTick | cppSfxr.cpp:651-656 | a repeat tick either restarts with time 0 or counts time up by one, keeping the limit |
| SynthCore.RepeatPeriodic | cppSfxr.cpp:651-656 | after n ticks the repeat time is n mod limit, and a restart fires exactly on every limit-th tick |
| SynthCore.ArpTick | cppSfxr.cpp:659-664 | an arpeggio tick counts the arpeggio time up by one |
| SynthCore.ArpJumpsOnce | cppSfxr.cpp:659-664 | the arpeggio changes nothing before its limit, and from then on has multiplied the period by the factor exactly once and switched itself off |
| SynthCore.Slide | cppSfxr.cpp:665-672 | the slid period never exceeds the maximum; it is capped exactly when the slide would pass the maximum, and otherwise is the period times the new slide |
| SynthCore.VibratoTick | cppSfxr.cpp:673-678 | without vibrato the period passes through unchanged; with it, the vibrato phase advances by its speed |
| SynthCore.EnvelopeTick | cppSfxr.cpp:685-698 | an envelope tick stays in range, moves at most one stage on, counts the remaining samples down by one, and sets the stage's volume |
| SynthCore.PhaserTick | cppSfxr.cpp:700-703 | the phaser offset advances by its ramp, and the depth is recomputed and capped at 1023 |
| SynthCore.ControlTick | cppSfxr.cpp:651-710 | one control step keeps the period at least 8, the duty in [0, 0.5], the period below its maximum, the envelope counting down by one; playing stops only when the envelope ends or a capped slide meets a frequency limit |
| SynthCore.CharWord | cppSfxr.cpp:555-566 | a byte widens to 64 bits as a signed char does: below 0x80 unchanged, above sign-extended |
| SynthCore.TextSeed | cppSfxr.cpp:555-566 | for the bytes of a C string before its terminator: strings under four bytes are refused, exactly four bytes seed a stream with odd increment, and longer strings never return |
| SynthCore.Core.Remaining | cppSfxr.cpp:685-692 | the samples still to render are 0 exactly when the envelope has finished |
| SynthCore.Core.constructor | cppSfxr.cpp:533-548 | a new core is silent with zeroed rings and noise banks, default generators and volumes 0.5 and 0.25, and 16-bit output |
| SynthCore.Core.Seed | cppSfxr.cpp:550-553 | seeding sets the core PCG to the seeded stream |
| SynthCore.Core.ResetSample | cppSfxr.cpp:568-632 | a restart resets only the pitch, leaving every other record, bank, ring slot and both generators as they were; a full reset also resets every other record and refills all banks and the ring, with pink slots in [-1, 1) |
| SynthCore.Core.FullReset | cppSfxr.cpp:588-625 | the part only a full reset runs: phase 0, records reset, banks and ring refilled, pink slots in [-1, 1) |
| SynthCore.Core.ResetRecords | cppSfxr.cpp:589-619 | the filter, vibrato, envelope, phaser and repeat records and the LFSR take their reset values |
| SynthCore.Core.ResetBanks | cppSfxr.cpp:588-625 | the ring is cleared, the white bank refilled from the reseeded generator and the pink slots are in [-1, 1) |
| SynthCore.Core.ClearRing | cppSfxr.cpp:621-622 | all 1024 phaser slots become 0 |
| SynthCore.Core.RefreshNoise | cppSfxr.cpp:721-723 | the white bank becomes the next 32 draws, and the generator advances 32 steps |
| SynthCore.Core.DrawNoise | cppSfxr.cpp:722-723 | slot i receives draw i + 1, the generator advances one step, and no other slot changes |
| SynthCore.Core.RefreshPink | cppSfxr.cpp:726-727 | the pink bank's 32 slots lie in [-1, 1) and the pink key returns to its value |
| SynthCore.Core.StepControls | cppSfxr.cpp:651-710 | the control fields become one control step of the old ones |
| SynthCore.Core.AdvancePhase | cppSfxr.cpp:717-735 | the phase advances modulo the period; on a wrap exactly the bank of the current noise wave is refilled or the LFSR stepped; the other banks, the one-bit state, the noise generator and, unless the pink bank is refilled, the pink generator's banks and generator are unchanged |
| SynthCore.Core.PhaserSample | cppSfxr.cpp:794-796 | the ring stores the sample at the write slot, which advances, and the output adds the slot the depth behind |
| SynthCore.Core.SubSample | cppSfxr.cpp:716-798 | one sub-sample: phase advanced, the filtered waveform stored in the ring, and the result is the phaser output times the volume |
| SynthCore.Core.SuperSample | cppSfxr.cpp:712-799 | eight sub-samples leave the phase below the period, the ring slot moved by 8, and a silent envelope gives a silent sum |
| SynthCore.Core.RenderSample | cppSfxr.cpp:645-816 | the repeat, pitch, vibrato, envelope and playing state end as `ControlTick` of the old controls and the phaser as its phaser with the write slot 8 further on; the output is `PostProcess` of the eight sub-samples' sum (0 under a silent envelope), lies in [-1, 1] and is appended to the buffer; the envelope counts down by one |
| SynthCore.Core.SynthSample | cppSfxr.cpp:634-817 | one call appends at most 4096 clipped samples, any only if playing, fewer only when playing stops, and counts the envelope down by the number appended |
| SynthCore.Core.PlayOut | cppSfxr.cpp:1559-1560 | rendering until playing stops appends clipped samples equal in number to the envelope samples used; without a frequency limit it runs the envelope out |
| SynthCore.Core.Render | cppSfxr.cpp:1556-1560 | a render clears the buffer and fills it with clipped samples, at most the three stage lengths plus 3, exactly that without a frequency limit; only the synthesis state, the banks, the ring and the buffer change, so `wav_bits`, the PCG state and both volumes are kept |
| SfxrSound.AsInt32 | cppSfxr.cpp:868-892 | an unsigned 32-bit value read as a signed int is congruent to it modulo 2^32 and within signed range |
| SfxrSound.U32 | cppSfxr.cpp:906-920 | storing into an unsigned int keeps values that fit and is below 2^32 |
| SfxrSound.Eighth | cppSfxr.cpp:1551 | `x / 8` on an int rounds toward zero, for both signs |
| SfxrSound.PcmCheck | cppSfxr.cpp:868-892 | `setPCM` succeeds exactly for a rate of 0 or 44100 and a whole-byte depth up to 32 bits |
| SfxrSound.PcmFormatWidth | cppSfxr.cpp:868-920 | the format `setPCM` selects for a depth is charged by `size` at that depth's byte width |
| SfxrSound.PcmFormat | cppSfxr.cpp:884-891 | definition of the `setPCM` switch, keeping the format for a width of 0; PcmFormatWidth states the width each selected format is charged |
| SfxrSound.ExportSize | cppSfxr.cpp:906-920 | the export size is an unsigned 32-bit value |
| SfxrSound.SampleSize | cppSfxr.cpp:906-918 | the bytes per sample of each export lie below 2^32; ExportSizeMatchesStreams ties them to the writers |
| SfxrSound.HeaderSize | cppSfxr.cpp:906-919 | definition of the header charge, 44 or 46 bytes for the WAVE exports; HeaderSizes states those sizes |
| SfxrSound.ExportSizeMatchesStreams | cppSfxr.cpp:906-920 | while it fits in 32 bits, `size` equals the byte count of each writer's output, with the 44- and 46-byte WAVE headers |
| SfxrSound.WithFloatReads | cppSfxr.cpp:1600-1613 | a write through `operator[]` changes the addressed float and no other |
| SfxrSound.Sfxr.Init | cppSfxr.cpp:822-829 | before `setPCM` the object holds the default members, reset parameters and a silent new core |
| SfxrSound.Sfxr.New | cppSfxr.cpp:822-829 | the constructor's outcome is the `setPCM` check, and on success the sample width and format follow the depth |
| SfxrSound.Sfxr.SetPcm | cppSfxr.cpp:868-892 | the outcome is the `setPCM` check; the depth reaches `wav_bits` even when it is then refused; width and format change only on success |
| SfxrSound.Sfxr.SetFloat | cppSfxr.cpp:858-866 | float output with 32-bit `wav_bits` and four bytes per sample |
| SfxrSound.Sfxr.SetMode | cppSfxr.cpp:847-850 | the mode becomes the given flags |
| SfxrSound.Sfxr.Seed | cppSfxr.cpp:836-844 | the core generator becomes the seeded stream |
| SfxrSound.Sfxr.SeedText | cppSfxr.cpp:555-566 | for the bytes of a C string before its terminator: strings under four bytes fail and leave the generator; four bytes reseed it from the text |
| SfxrSound.Sfxr.Size | cppSfxr.cpp:906-920 | `size` is the export size of the buffered sample count |
| SfxrSound.Sfxr.Get | cppSfxr.cpp:1600-1613 | the indexed read fails exactly for indices above 31, otherwise returns that float |
| SfxrSound.Sfxr.Set | cppSfxr.cpp:1600-1613 | the indexed write fails exactly for indices above 31 and leaves the block; otherwise it writes that float |
| SfxrSound.Sfxr.GetNamed | cppSfxr.cpp:1600-1613 | the named read fails exactly for unknown names, otherwise returns the float at that name's index |
| SfxrSound.Sfxr.SetNamed | cppSfxr.cpp:1600-1613 | the named write fails exactly for unknown names and leaves the block; otherwise it writes the float at that name's index |
| SfxrSound.Sfxr.SetParameters | cppSfxr.cpp:928-938 | the block is replaced and marked created and in need of rebuilding |
| SfxrSound.Sfxr.Reset | cppSfxr.cpp:940-974 | the block becomes its reset |
| SfxrSound.Sfxr.Create | cppSfxr.cpp:1548-1565 | after `create` the sound is built and clean, word mode has locked the block, the sample count is the buffer size, all samples are in [-1, 1], and their number is bounded by the envelope; the core's `wav_bits`, PCG state and both volumes are unchanged |
| SfxrSound.Sfxr.Prepare | cppSfxr.cpp:1550-1554 | the count resets, the sample width follows `wav_bits`, and word mode locks the block |
| SfxrSound.Sfxr.CreatePreset | cppSfxr.cpp:1385-1546 | the chosen preset block, which keeps the old block's post-processing floats as `reset()` and the presets do, is rendered (word-locked in word mode), with every sample in [-1, 1] and as many samples as `create` gives; the core PCG has advanced by the preset's draws, at least one; the sound is built and clean, and the core's `wav_bits` and volumes are unchanged |
| SfxrSound.Sfxr.CreateNamed | cppSfxr.cpp:1372-1383 | a preset name builds the sound from the chosen block (word-locked in word mode), advancing the core PCG by the preset's draws and keeping the core's `wav_bits` and volumes; any other string fails and changes neither the flags, the block nor the PCG |
| SfxrSound.Sfxr.AssertSynthed | cppSfxr.cpp:922-926 | afterwards the sound is built and clean; a built, clean sound is left exactly as it was; a never-created sound renders the chosen preset block, advancing the core PCG by the preset's draws, and a dirty one re-renders its own block (word-locked in word mode) with the PCG untouched; every rendered sample is in [-1, 1] with the envelope's sample count; the core's `wav_bits` and volumes are unchanged |
| Fft.BitReverse | libSfxr.cpp:72-81 | the reversal of a power-bit index is below 2^power |
| Fft.BitReverseInvolution | libSfxr.cpp:72-81 | reversing the bits twice gives back the index |
| Fft.ValueOfBits | libSfxr.cpp:72-81 | reading back the bits of a number below 2^n gives the number |
| Fft.BitsOfValue | libSfxr.cpp:72-81 | the bits of the value of a bit string are that string |
| Fft.BrStep | libSfxr.cpp:76-78 | one loop step of `br` sets bit power - j - 1 of the partial result exactly when bit j of the input is set |
| Fft.Br | libSfxr.cpp:72-81 | the loop of `br` computes the bit reversal of the index |
| Fft.BitReversed | libSfxr.cpp:90-106 | the reordered prefix has 2^power slots |
| Fft.BitReversedInvolution | libSfxr.cpp:90-106 | reordering twice gives back the original sequence |
| Fft.PartlyReversedStep | libSfxr.cpp:91-106 | step i of the reorder loop swaps slots i and br(i) when i is the larger, and otherwise changes nothing |
| Fft.PartlyReversedAll | libSfxr.cpp:91-106 | after the whole loop the prefix is the bit-reversed permutation and the slots past it are untouched |
| Fft.SwapSlots | libSfxr.cpp:96-104 | both arrays get slots i and k exchanged |
| Fft.ReorderStep | libSfxr.cpp:93-105 | one loop iteration carries the partial reorder from i to i + 1 |
| Fft.Reorder | libSfxr.cpp:90-106 | both arrays' prefixes become bit-reversed and the rest is unchanged |
| Fft.InBlock | libSfxr.cpp:109-112 | a slot of the stage lies in block p / points, within the stage |
| Fft.StageShape | libSfxr.cpp:109 | at stage s the blocks have 2^s points, an even number, and the blocks cover 2^power slots |
| Fft.ButterflyFrame | libSfxr.cpp:115-136 | a butterfly depends only on the slots of its own block |
| Fft.BlockStepRe | libSfxr.cpp:115-136 | butterfly j + 1 of a block applies one in-place update to the real parts after j |
| Fft.BlockStepIm | libSfxr.cpp:115-136 | butterfly j + 1 of a block applies one in-place update to the imaginary parts after j |
| Fft.ApplyButterfly | libSfxr.cpp:117-135 | one butterfly updates the top and bottom slots of both arrays as the in-place update says |
| Fft.Twiddle | libSfxr.cpp:118-120 | definition of the twiddle angle and its cosine and sine; BlockStepRe and BlockStepIm state that butterfly j updates the block in place with this twiddle |
| Fft.Butterfly | libSfxr.cpp:117-135 | definition of the butterfly on the values before the stage; ButterflyFrame states it reads only its own block, and BlockStepRe, BlockStepIm and BlockButterflies that the in-place loop produces it |
| Fft.BlockStep | libSfxr.cpp:115-136 | one butterfly iteration advances the block's partial result by one |
| Fft.BlockButterflies | libSfxr.cpp:110-136 | a block's butterflies leave both arrays as the block's full update |
| Fft.StagedStep | libSfxr.cpp:110-137 | processing block i advances the stage's partial result by one block |
| Fft.ButterflyStage | libSfxr.cpp:110-137 | one stage loop leaves both arrays as the stage applied to every block |
| Fft.StagedWhole | libSfxr.cpp:110-137 | the block-by-block stage equals the stage function on the prefix |
| Fft.Stage | libSfxr.cpp:109-137 | one whole stage keeps the length; ButterflyStage states that the stage loop leaves the arrays as this value |
| Fft.StagesStep | libSfxr.cpp:109 | the stages compose: stage s + 1 is applied to the result of the first s stages |
| Fft.FilterFFT | libSfxr.cpp:83-138 | a size that is not 2^power throws and leaves both arrays; otherwise the prefixes become the transform (reorder then all stages) and the rest is unchanged |
| Fft.Transform | libSfxr.cpp:90-137 | the bit-reversal pass and all stages keep 2^power slots; FilterFFT states that the arrays end as this value |
| Fft.Covered | libSfxr.cpp:37-38 | the unrolled loops cover the largest multiple of 8 not above the length |
| Fft.HannWindowSlots | libSfxr.cpp:31-51 | each covered slot holds the Hann coefficient of its position, the last length mod 8 slots stay 0, and the position is the index when float addition is exact |
| Fft.WriteCoefficient | libSfxr.cpp:42-49 | one statement extends the written window prefix by one slot |
| Fft.HannGroup | libSfxr.cpp:38-50 | one unrolled iteration extends the written prefix by eight slots |
| Fft.HannWindow | libSfxr.cpp:31-51 | a fresh array holding the window over the covered prefix and zeros after |
| Fft.WindowedSlots | libSfxr.cpp:53-69 | each covered slot of the output is input times window, and the uncovered slots keep their old values |
| Fft.MultiplySlot | libSfxr.cpp:60-67 | one statement extends the windowed output prefix by one slot |
| Fft.MultiplyGroup | libSfxr.cpp:57-68 | one unrolled iteration extends the windowed output prefix by eight slots |
| Fft.WindowMultiply | libSfxr.cpp:53-69 | the output becomes the windowed product over the covered prefix, the rest unchanged |

## Findings

| source | as written | input that shows it | evidently intended | confidence | as-written member | corrected member |
|---|---|---|---|---|---|---|
| cppSfxr.cpp:364 | `operator[]` throws only when the block number is above the table size plus one | one retired block and index 8192: block 2 is past the table, yet it is read; an index between `size()` and the end of the current block returns a stale slot | an index at or beyond `size()` is refused | high, not executed | FloatBuffer.SampleBuffer.GetAsWritten | FloatBuffer.SampleBuffer.At |
| cppSfxr.cpp:335,339 | `writeStream32` fills an `int32_t` buffer but writes `4096 * 2` and `pos * 2` bytes of it | two samples give the first sample's four bytes and drop the second sample; one sample gives two of its four bytes; `size(PCM32)` charges four bytes per sample | the four little-endian bytes of the sample | high, not executed | FloatBuffer.WriteStream32DropsHighHalf | FloatBuffer.SampleBuffer.WritePcm |
| cppSfxr.cpp:192-198 | `getLimitAverage` sweeps all 4096 slots of the current block | any buffer whose current block is not full: the average divides by size + 4096 - pos and counts unset or stale slots | the peak and mean magnitude of the buffered samples | high, not executed | FloatBuffer.SampleBuffer.GetLimitAverage | FloatBuffer.SampleBuffer.ContentsLimitAverage |
| cppSfxr.cpp:693-698 | the stage volume divides the stage time by the stage length | `env_sustain == 0`: the sustain length is 0 and the first sustain sample computes 0/0, a NaN volume | a zero-length stage takes its start volume (fraction 0) | medium, not executed | SynthCore.ZeroSustainIsNaN | SynthCore.StageFraction |
| cppSfxr.cpp:693-698 | the decay volume divides the stage time by the decay length, and stage 3 keeps the last volume | `env_decay == 0` (for instance a zeroed block): the first decay sample computes 1 - 0/0, a NaN volume, and the following stage-3 sample keeps it | a zero-length stage takes its start volume (fraction 0) | medium, not executed | SynthCore.ZeroDecayIsNaN | SynthCore.StageFraction |
| cppSfxr.cpp:806-808 | `ssample = pow(ssample, compress)` on the signed sample | compress 0.5, inside the documented range 0.2 to 0.9, and any negative mean: `pow` of a negative base with a fractional exponent is a NaN, which both clamps at lines 813-814 let through into the buffer | compress the magnitude and keep the sign | high, not executed | SynthCore.NegativeCompressIsNaN | SynthCore.PostProcess |
| cppSfxr.cpp:333,338 | `(int32_t)(x * (float)0x7FFFFFFE)`, where the float factor rounds to 2^31 | a sample of 1.0, which every clipped positive peak is: the product 2^31 is past `INT32_MAX` and the cast is undefined (INT_MIN on x86, a full-scale sign flip) | the factor 0x7FFFFFFE, under which every sample in [-1, 1] fits | high, not executed | FloatBuffer.Scaled32AsWritten | FloatBuffer.SampleBytesDecode |

## Left out

- Floating point: every float and double is a `real`. Rounding, overflow to infinity and NaN are not modelled. The places where a NaN arises from the model's own arithmetic, a zero sustain or a zero decay length and the compressor on a negative sample, are the findings above. A NaN passes both output clamps, so a sample that is a NaN in the source is not clipped.
- The libm calls `sin`, `tan` and `pow` (with a non-constant exponent) of the render loop are the `Libm` record; `cos`, `sin` and the float operations of `libSfxr.cpp` are the `FloatMath` record. Properties that need their values (the numeric FFT result, the exact Hann values, the sine and tan waveforms, the compressor) are stated in terms of those records. `fabs` is modelled as `Abs`, `fmod` as `%`, and `pow` with exponent 1, 2 or 3 as a product.
- SynthCore.Waveform: one `lib.pi` stands for both the `double` `M_PI` of the sine wave and the `(float)M_PI` of the tan wave, which differ in the source by the float rounding of pi.
- Float-to-int casts are C truncation (`Trunc`). The cast of an out-of-range float is undefined in C and is not modelled.
- Fft.FilterFFT: the stage count `power` is an argument standing for `(int)(log(fft_size) / log(2))`, and it is at most 31. The two arrays must be distinct. The thrown `std::runtime_error*` is the `Fail` outcome.
- Fft.HannWindow: it returns a fresh array instead of clearing and resizing the caller's vector. The slot positions equal the indices only when the supplied float addition is exact.
- SynthCore.PostProcess, SynthCore.Core.RenderSample, SynthCore.Core.SynthSample, SynthCore.Core.PlayOut, SynthCore.Core.Render and SfxrSound.Sfxr.Create: they use the corrected, sign-keeping compressor, so every appended sample is clipped into [-1, 1]. As written, a compress setting with a fractional value appends a NaN for every negative sample (the compressor finding above), and those samples are not clipped. The clipping also rests on the corrected SynthCore.StageFraction: as written, a sustain or decay length of 0 divides 0 by 0, and the source then appends NaN samples (the envelope findings above).
- FloatBuffer.SampleBytes, FloatBuffer.SampleBytesDecode, FloatBuffer.SampleBuffer.WritePcm, FloatBuffer.SampleBuffer.WriteStream32 and FloatBuffer.WriteStream32DropsHighHalf: the 32-bit encoding uses the factor 0x7FFFFFFE as spelled. The source's float factor is 2^31, which overflows `int32_t` for a sample of 1.0 (the 32-bit finding above), and it gives other words too: a sample of 0.5 is 0x40000000 in the source and 0x3FFFFFFF in the model.
- SynthCore.Core.SuperSample: the sum is stated only for a silent envelope. Each sub-sample's value is stated by SubSample.
- SynthCore.Core.Render, SynthCore.Core.PlayOut and SfxrSound.Sfxr.Create: they rely on an exact envelope clock. The source's `env_time` is a `float`, and `env_time += 1` stops growing at 2^24. A stage of 2^24 samples or more then never ends, and the render loop of `create` never returns unless the frequency limit stops it first (a downward slide whose period passes `fmaxperiod`). Such stages are reachable, for instance an attack of 1 in word mode (SynthCore.WordAttackPastFloatClock) or `|env_attack|` of about 13 or more. The model ends every stage, and the exact count of L0 + L1 + L2 + 3 samples holds only for stages shorter than 2^24.
- FloatBuffer.SampleBuffer.SizeBytes and FloatBuffer.SampleBuffer.MemoryBytes: the source returns `unsigned int`, which wraps at 2^32 bytes. The model's counts are exact, which they equal only below that. `size()` of `Sfxr` models its wrap (SfxrSound.ExportSize).
- SynthCore.CharWord, SynthCore.TextSeed and SfxrSound.Sfxr.SeedText: they take `char` to be signed, so a byte of 0x80 or more is sign-extended. C++ leaves the signedness of `char` to the implementation; where it is unsigned, such bytes are zero-extended instead.
- SynthCore.Core.RefreshPink, SynthCore.Core.ResetSample, SynthCore.Core.FullReset, SynthCore.Core.ResetBanks and SynthCore.Core.AdvancePhase: where they refill the 32 pink slots (a full reset, or a phase wrap of the pink-noise wave), they state the slots' range [-1, 1) and the pink key's cycle, not the slot values, the new pink banks (`pn.whiteValues`) or the pink generator's state (`pn.rxs`). Each single pink draw is stated exactly by Generators.PinkNumber.GetNextFloat.
- SfxrHeader.LockWordParams: the source casts each float to `int` before multiplying by 32000, and that product overflows `int` for a float of magnitude 67109 or more. The model's product is exact.
- SfxrSound.Sfxr.SeedText: it requires at most four bytes. A longer string makes `seed(const char*)` loop forever, because the loop at cppSfxr.cpp:562-563 never increments its index. SynthCore.TextSeed reports this case as `Diverges`.
- The random presets of `create(int)`, `randomize` and `mutate` draw from the core PCG. Their float distributions are not modelled: the block a preset produces is the `chosen` argument of CreatePreset, CreateNamed and AssertSynthed, which must keep the old block's post-processing floats (`cs_decimate`, `cs_compress`, the unused floats) because neither `reset()` nor a preset writes them. The number of PCG steps the preset takes is their `draws` argument, which is positive because every preset draws.
- Sample-rate conversion is not modelled. `SFXR_DISALLOW_SAMPLERATE` is defined, so the rate ratio is 1 and each time counter advances by 1 per sample; the model keeps these counters as exact whole numbers. Like `env_time`, the float counters `rep_time` and `arp_time` would stop at 2^24 in the source; their limits stay below that for settings in [-1, 1] (at most 80032, at a setting of -1), so this matters only for settings far outside that range.
- The WAVE and stream output plumbing (`Sfxr::writeStream`, `toString`, the file writers, `sizeWave*String`) is not modelled. Byte counts and per-sample encodings are modelled, and they follow the build with `SFXR_STATIC_STREAM_BUFFER` defined, whose `int32_t` stream buffer gives the 32-bit writer its half-length output (FloatBuffer.SampleBuffer.WriteStream32); the stream objects themselves are not.
- `getInfo`, `normalize`, `load` and `setData`/`getData` are not modelled. They are outside the render and configuration core.
- The writes through `operator[]` do not set `rebuild`. This matches the source and is modelled that way.
- The threading in `libSfxr.cpp` (`libSfxr_threadSfxr`), `ppthread.cpp`, the DLL glue and `main.cpp` are not part of this model.
