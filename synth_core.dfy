/** `SfxrCore`: the per-sample render state machine of cppSfxr. Counters that
    the source keeps in floats but only ever advances by the fixed ratio 1 are
    exact integers here; the sample values are reals, and the C maths library
    calls are supplied by the caller. */
module SynthCore {
  import opened Common
  import opened SfxrHeader
  import opened Generators
  import opened FloatBuffer

  /** The libm calls a render makes (`sin`, `tan`, `pow`) and `M_PI` as the
      compiler rounds it; their floating-point values are not modelled. */
  datatype Libm = Libm(sin: real -> real, tan: real -> real, pow: (real, real) -> real, pi: real)

  /** `pow(x, 2)`, computed on `|x|`. */
  function Squared(x: real): (r: real)
    ensures 0.0 <= r
    ensures x != 0.0 ==> 0.0 < r
  {
    var a := if x < 0.0 then -x else x;
    if a == 0.0 then 0.0 else PositiveProduct(a, a)
  }

  function PositiveProduct(a: real, b: real): (r: real)
    requires 0.0 < a && 0.0 < b
    ensures 0.0 < r
  {
    ProductPositive(a, b); a * b
  }

  lemma ProductPositive(a: real, b: real)
    requires 0.0 < a && 0.0 < b
    ensures 0.0 < a * b
  {
  }

  // ---------------------------------------------------------------------
  // Envelope

  /** `env_length[i] = trunc(x * x * 100000)`: never negative. */
  function EnvLength(x: real): (n: nat)
    ensures n as real <= Squared(x) * 100000.0 < n as real + 1.0
  {
    Trunc(Squared(x) * 100000.0)
  }

  /** The three stage lengths a parameter block asks for. */
  function EnvLengths(p: Parameters): (l: seq<nat>)
    ensures |l| == 3
  {
    [EnvLength(p.envAttack), EnvLength(p.envSustain), EnvLength(p.envDecay)]
  }

  /** The state machine's invariant: stage 3 is final, and in stages 0..2 the
      clock has not passed the stage's length. */
  predicate EnvInRange(stage: nat, time: nat, lengths: seq<nat>)
  {
    |lengths| == 3 && stage <= 3 && (stage < 3 ==> time <= lengths[stage])
  }

  /** One sample of the envelope clock: the time advances, and moves on to the
      next stage (at time 0) once it passes the current stage's length. */
  function EnvStep(stage: nat, time: nat, lengths: seq<nat>): (nat, nat)
    requires |lengths| == 3 && stage < 3
  {
    if time + 1 > lengths[stage] then (stage + 1, 0) else (stage, time + 1)
  }

  /** Stage lengths (each plus its final sample) of the stages after `stage`. */
  function StagesAfter(stage: nat, lengths: seq<nat>): nat
    requires |lengths| == 3
    decreases 3 - stage
  {
    if stage >= 2 then 0 else lengths[stage + 1] + 1 + StagesAfter(stage + 1, lengths)
  }

  /** Samples still to render before the clock reaches stage 3, counting the
      sample that reaches it. */
  function EnvRemaining(stage: nat, time: nat, lengths: seq<nat>): (n: nat)
    requires EnvInRange(stage, time, lengths)
    ensures n == 0 <==> stage == 3
  {
    if stage == 3 then 0 else lengths[stage] + 1 - time + StagesAfter(stage, lengths)
  }

  /** Each sample moves the clock forward by exactly one remaining sample; the
      stage only rises, by at most one, and reaches 3 on the last sample. */
  lemma EnvStepCountsDown(stage: nat, time: nat, lengths: seq<nat>)
    requires EnvInRange(stage, time, lengths) && stage < 3
    ensures var (s, t) := EnvStep(stage, time, lengths);
      && EnvInRange(s, t, lengths)
      && stage <= s <= stage + 1
      && EnvRemaining(s, t, lengths) == EnvRemaining(stage, time, lengths) - 1
  {
  }

  /** From a reset envelope the render lasts L0 + L1 + L2 + 3 samples. */
  lemma EnvTotal(lengths: seq<nat>)
    requires |lengths| == 3
    ensures EnvInRange(0, 0, lengths)
    ensures EnvRemaining(0, 0, lengths) == lengths[0] + lengths[1] + lengths[2] + 3
  {
  }

  /** The fraction of a stage elapsed, as the source computes it: `time /
      length` in floats is 0/0, a NaN (`None`), on the first sample of a stage
      of length 0. */
  function StageFractionAsWritten(time: nat, length: nat): (r: Option<real>)
    ensures r == None <==> length == 0
  {
    if length == 0 then None else Some(time as real / length as real)
  }

  /** The fraction of a stage elapsed, with a stage of length 0 at its start. */
  function StageFraction(time: nat, length: nat): (r: real)
    requires time <= length
    ensures 0.0 <= r <= 1.0
    ensures length != 0 ==> Some(r) == StageFractionAsWritten(time, length)
  {
    if length == 0 then 0.0 else time as real / length as real
  }

  /** `env_vol` for stages 0..2: rising attack, punch-boosted sustain that
      falls back to 1, falling decay. */
  function EnvVolume(stage: nat, time: nat, lengths: seq<nat>, punch: real): (v: real)
    requires EnvInRange(stage, time, lengths) && stage < 3
    ensures stage == 0 ==> 0.0 <= v <= 1.0
    ensures stage == 2 ==> 0.0 <= v <= 1.0
    ensures stage == 1 && 0.0 <= punch ==> 1.0 <= v <= 1.0 + 2.0 * punch
  {
    var f := StageFraction(time, lengths[stage]);
    if stage == 0 then f
    else if stage == 1 then ScaleBelow(1.0 - f, 2.0 * punch); 1.0 + (1.0 - f) * 2.0 * punch
    else 1.0 - f
  }

  lemma ScaleBelow(a: real, b: real)
    requires 0.0 <= a <= 1.0
    ensures 0.0 <= b ==> 0.0 <= a * b <= b
  {
  }

  /** A sustain stage of length 0 makes the first sustain sample's volume a
      NaN: the render takes parameters with `env_sustain == 0` (for instance
      a zeroed block) to a 0/0. */
  lemma ZeroSustainIsNaN(p: Parameters)
    requires p.envSustain == 0.0
    ensures EnvStep(0, EnvLengths(p)[0], EnvLengths(p)) == (1, 0)
    ensures StageFractionAsWritten(0, EnvLengths(p)[1]) == None
    ensures EnvVolume(1, 0, EnvLengths(p), p.envPunch) == 1.0 + 2.0 * p.envPunch
  {
    assert EnvLengths(p)[1] == 0;
  }

  /** A decay stage of length 0 makes the first decay sample's volume a NaN,
      and the sample after it ends the sound in stage 3, which keeps the
      volume it had, so the NaN reaches that sample too. A zeroed block has
      `env_decay == 0`. */
  lemma ZeroDecayIsNaN(p: Parameters, v: real, punch: real)
    requires p.envDecay == 0.0
    ensures EnvStep(1, EnvLengths(p)[1], EnvLengths(p)) == (2, 0)
    ensures StageFractionAsWritten(0, EnvLengths(p)[2]) == None
    ensures EnvVolume(2, 0, EnvLengths(p), punch) == 1.0
    ensures EnvStep(2, 0, EnvLengths(p)) == (3, 0)
    ensures EnvelopeTick(Envelope(2, 0, v, EnvLengths(p)), punch).vol == v
  {
    assert EnvLengths(p)[2] == 0;
  }

  /** Stage lengths of 2^24 samples and more are reachable: word mode locks
      an attack of 1 to 32000, whose length is far past 2^24, the point where
      the source's `float` clock `env_time += 1` stops growing. The model's
      exact clock still ends such a stage. */
  lemma WordAttackPastFloatClock(p: Parameters)
    requires p.envAttack == 1.0
    ensures LockWordParams(p).envAttack == 32000.0
    ensures EnvLengths(LockWordParams(p))[0] >= 0x100_0000
  {
    var r := LockWordParams(p);
    IndexIsFieldOrdinal(p);
    IndexIsFieldOrdinal(r);
    assert Floats(r)[ENV_ATTACK] == WordLocked(Floats(p)[ENV_ATTACK]);
    assert WordLocked(1.0) == 32000.0;
  }

  // ---------------------------------------------------------------------
  // Pitch, duty, phaser

  /** `100 / (x * x + 0.001)`: the period in samples of a frequency setting. */
  function PeriodOf(x: real): (r: real)
    ensures 0.0 < r <= 100000.0
  {
    100.0 / (Squared(x) + 0.001)
  }

  /** `trunc(rfperiod)` raised to at least 8. */
  function ClampedPeriod(rfperiod: real): (p: int)
    ensures 8 <= p
    ensures 8 <= Trunc(rfperiod) ==> p == Trunc(rfperiod)
    ensures Trunc(rfperiod) < 8 ==> p == 8
  {
    var t := Trunc(rfperiod);
    if t < 8 then 8 else t
  }

  /** The duty cycle clamped to [0, 0.5]. */
  function ClampDuty(d: real): (r: real)
    ensures 0.0 <= r <= 0.5
    ensures 0.0 <= d <= 0.5 ==> r == d
    ensures d < 0.0 ==> r == 0.0
    ensures 0.5 < d ==> r == 0.5
  {
    if d < 0.0 then 0.0 else if d > 0.5 then 0.5 else d
  }

  /** The phaser delay `trunc(|fphase|)`, at most 1023. */
  function PhaserDepth(fphase: real): (d: nat)
    ensures d <= 1023
    ensures Trunc(Abs(fphase)) <= 1023 ==> d == Trunc(Abs(fphase))
  {
    var t := Trunc(Abs(fphase));
    if t > 1023 then 1023 else t
  }

  /** `((int)ipp - (int)iphase + 1024) & 1023`: the ring slot read back. */
  function ReadSlot(ipp: nat, iphase: nat): (k: nat)
    requires ipp < 1024 && iphase <= 1023
    ensures k < 1024
  {
    (ipp - iphase + 1024) % 1024
  }

  /** The phaser reads the sample written `iphase` samples ago: the read slot
      is `iphase` places behind the write slot, and is the write slot itself
      when the delay is 0. */
  lemma ReadSlotBehind(ipp: nat, iphase: nat)
    requires ipp < 1024 && iphase <= 1023
    ensures (ReadSlot(ipp, iphase) + iphase) % 1024 == ipp
    ensures iphase == 0 <==> ReadSlot(ipp, iphase) == ipp
  {
  }

  /** `(ipp + 1) & 1023`. */
  function NextSlot(ipp: nat): (k: nat)
    requires ipp < 1024
    ensures k < 1024 && k == (ipp + 1) % 1024
  {
    if ipp == 1023 then 0 else ipp + 1
  }

  /** The pink generator's key after `n` draws. */
  function KeyAfter(k: bv8, n: nat): (r: bv8)
    requires k <= MAX_KEY
    ensures r <= MAX_KEY
  {
    if n == 0 then k else NextKey(KeyAfter(k, n - 1))
  }

  /** The key counts draws modulo 32: after 32 draws it is back where it
      started. */
  lemma {:induction false} KeyAfterWraps(k: bv8, n: nat)
    requires k <= MAX_KEY
    ensures KeyAfter(k, n) as int == (k as int + n) % 32
  {
    if n > 0 {
      KeyAfterWraps(k, n - 1);
      WrapSucc(k as int + n - 1);
    }
  }

  /** Any whole number of rounds of 32 draws brings the key back. */
  lemma KeyCycle(k: bv8, n: nat)
    requires k <= MAX_KEY && n % 32 == 0
    ensures KeyAfter(k, n) == k
  {
    KeyAfterWraps(k, n);
    KeyAsInt(k);
    WholeRounds(k as int, n);
    Bv8Injective(KeyAfter(k, n), k);
  }

  lemma WholeRounds(x: nat, n: nat)
    requires x < 32 && n % 32 == 0
    ensures (x + n) % 32 == x
  {
  }

  lemma KeyAsInt(k: bv8)
    requires k <= MAX_KEY
    ensures k as int < 32
  {
  }

  lemma Bv8Injective(a: bv8, b: bv8)
    requires a as int == b as int
    ensures a == b
  {
  }

  /** Counting modulo 32 one step at a time. */
  lemma WrapSucc(x: nat)
    ensures (x % 32 + 1) % 32 == (x + 1) % 32
  {
  }

  // ---------------------------------------------------------------------
  // Waveforms

  /** `(int)(phase * 32 / period)`: the noise-bank slot of a phase. */
  function NoiseSlot(phase: nat, period: nat): nat
    requires 0 < period
  {
    (phase * 32) / period
  }

  lemma NoiseSlotInRange(phase: nat, period: nat)
    requires phase < period
    ensures NoiseSlot(phase, period) < 32
  {
    assert phase * 32 < period * 32;
  }

  /** One sub-sample of the base waveform. An unknown wave code leaves the
      sample at 0. */
  function Waveform(wave: Option<WaveType>, phase: nat, period: nat, duty: real,
                    noise: seq<real>, pink: seq<real>, oneBit: real, lib: Libm): real
    requires phase < period && |noise| == 32 && |pink| == 32
  {
    NoiseSlotInRange(phase, period);
    var fp := phase as real / period as real;
    match wave
    case None => 0.0
    case Some(Square) => if fp < duty then 0.5 else -0.5
    case Some(Sawtooth) => 1.0 - fp * 2.0
    case Some(Sine) => lib.sin(fp * 2.0 * lib.pi)
    case Some(Noise) => noise[NoiseSlot(phase, period)]
    case Some(Triangle) => Abs(1.0 - fp * 2.0) - 1.0
    case Some(Pink) => pink[NoiseSlot(phase, period)]
    case Some(Tan) => lib.tan(lib.pi * phase as real / period as real)
    case Some(Breaker) => Abs(1.0 - fp * fp * 2.0) - 1.0
    case Some(OneBit) => oneBit
  }

  predicate Clipped(s: seq<real>)
  {
    forall i :: 0 <= i < |s| ==> -1.0 <= s[i] <= 1.0
  }

  /** A buffer that kept its first `k` values, `start + run`, and added a
      clipped suffix holds `start` followed by a longer clipped run. */
  lemma RunExtended(start: seq<real>, run: seq<real>, now: seq<real>, k: nat)
    requires k == |start + run| <= |now| && now[..k] == start + run
    requires Clipped(run) && Clipped(now[k..])
    ensures now == start + (run + now[k..]) && Clipped(run + now[k..])
  {
    assert now == now[..k] + now[k..];
    ClippedConcat(run, now[k..]);
  }

  /** Two clipped runs put together are clipped. */
  lemma ClippedConcat(a: seq<real>, b: seq<real>)
    requires Clipped(a) && Clipped(b)
    ensures Clipped(a + b)
  {
    forall i | 0 <= i < |a + b|
      ensures -1.0 <= (a + b)[i] <= 1.0
    {
      if i >= |a| {
        assert (a + b)[i] == b[i - |a|];
      }
    }
  }

  /** Every waveform but sine and tangent (whose values are libm's) stays in
      [-1, 1] when the noise banks and the one-bit level do; the square wave
      takes only the levels 0.5 and -0.5. */
  lemma WaveformBounded(wave: Option<WaveType>, phase: nat, period: nat, duty: real,
                        noise: seq<real>, pink: seq<real>, oneBit: real, lib: Libm)
    requires phase < period && |noise| == 32 && |pink| == 32
    requires Clipped(noise) && Clipped(pink) && -1.0 <= oneBit <= 1.0
    requires wave != Some(Sine) && wave != Some(Tan)
    ensures -1.0 <= Waveform(wave, phase, period, duty, noise, pink, oneBit, lib) <= 1.0
    ensures wave == Some(Square) ==>
      Waveform(wave, phase, period, duty, noise, pink, oneBit, lib) in {0.5, -0.5}
  {
    var fp := phase as real / period as real;
    FractionBelowOne(phase as real, period as real);
    match wave
    case Some(Noise) => NoiseSlotInRange(phase, period);
    case Some(Pink) => NoiseSlotInRange(phase, period);
    case Some(Breaker) => ScaleBelow(fp, fp);
    case _ =>
  }

  // ---------------------------------------------------------------------
  // Noise banks

  /** Entries in each noise bank. */
  const BANK_SIZE := 32

  /** The `k`-th noise-bank entry `randf() * 2 - 1` drawn from a generator
      in state `a` (counting from 1). */
  function NoiseDraw(a: bv64, k: nat): (x: real)
    ensures -1.0 <= x <= 1.0
  {
    NoiseOf(Low32(Scramble(XorShiftN(a, k))))
  }

  /** A bank whose every entry is the matching draw is the draws. */
  lemma DrawsByIndex(bank: seq<real>, a: bv64)
    requires |bank| == 32
    requires forall j :: 0 <= j < 32 ==> bank[j] == NoiseDraw(a, j + 1)
    ensures bank == NoiseDraws(a, 32)
  {
  }

  /** One more step from the state after `k` steps is step `k + 1`, and
      the `randf` it yields is noise draw `k + 1`. */
  lemma NextNoiseDraw(a: bv64, k: nat, f: real)
    requires f == UnitOf(Low32(Scramble(XorShift(XorShiftN(a, k)))))
    ensures XorShift(XorShiftN(a, k)) == XorShiftN(a, k + 1)
    ensures f * 2.0 - 1.0 == NoiseDraw(a, k + 1)
  {
    XorShiftNSnoc(a, k);
  }

  /** The `n` noise-bank entries `randf() * 2 - 1` drawn from a generator in
      state `a`, in order. */
  function NoiseDraws(a: bv64, n: nat): (r: seq<real>)
    ensures |r| == n && Clipped(r)
  {
    seq(n, i requires 0 <= i < n => NoiseDraw(a, i + 1))
  }

  /** The generator state a full reset leaves: reseeded with 0, then one
      bank's worth of draws. */
  const NOISE_RESET_STATE: bv64 := XorShiftN(ZERO_SEEDED, BANK_SIZE)

  // ---------------------------------------------------------------------
  // Per-sample post-processing

  /** The output clamp to [-1, 1]. */
  function Clip(s: real): (r: real)
    ensures -1.0 <= r <= 1.0
    ensures -1.0 <= s <= 1.0 ==> r == s
    ensures 1.0 < s ==> r == 1.0
    ensures s < -1.0 ==> r == -1.0
  {
    if s > 1.0 then 1.0 else if s < -1.0 then -1.0 else s
  }

  /** `float(1 << (int)cs_decimate)`, or 0 (no decimation) for a zero setting.
      The shift count is taken mod 32, as the x86 shift does, and `1 << 31`
      is the most negative int. */
  function DecimateFactor(x: real): (d: real)
    ensures d == 0.0 <==> x == 0.0
    ensures x != 0.0 && 0 <= Trunc(x) <= 30 ==> d == Pow2(Trunc(x)) as real
  {
    if x == 0.0 then 0.0
    else
      var t := Trunc(x);
      if 0 <= t <= 30 then Pow2(t) as real
      else
        var n := t % 32;
        if n == 31 then -2147483648.0 else Pow2(n) as real
  }

  /** The mean of the eight sub-samples, decimated when a factor is set. */
  function Decimated(sum: real, decimate: real): real
  {
    var a := sum / 8.0;
    if decimate != 0.0 then Trunc(a * decimate) as real / decimate else a
  }

  /** Whether C's `pow(b, e)` is a number: a negative base with a fractional
      exponent gives a NaN. */
  predicate PowDefined(b: real, e: real)
  {
    0.0 <= b || e == e.Floor as real
  }

  /** The end of `synthSample`'s per-sample body as written: with compression
      on, `pow(ssample, compress)` of a negative sample and a fractional
      `compress` is a NaN (`None`). Both clamps compare false against a NaN,
      so it reaches the buffer. */
  function PostProcessAsWritten(sum: real, decimate: real, compress: real,
                                masterVol: real, soundVol: real, lib: Libm): (r: Option<real>)
    ensures r.None? <==> compress != 0.0 && !PowDefined(Decimated(sum, decimate), compress)
    ensures r.Some? ==> -1.0 <= r.value <= 1.0
  {
    var b := Decimated(sum, decimate);
    if compress != 0.0 && !PowDefined(b, compress) then None
    else
      var c := if compress != 0.0 then lib.pow(b, compress) else b;
      Some(Clip(c * masterVol * (2.0 * soundVol)))
  }

  /** The compressor with the sign kept: the power of the magnitude, negated
      for a negative sample. */
  function Compress(b: real, compress: real, lib: Libm): (c: real)
    ensures compress == 0.0 ==> c == b
    ensures compress != 0.0 && 0.0 <= b ==> c == lib.pow(b, compress)
  {
    if compress == 0.0 then b
    else if b < 0.0 then -lib.pow(-b, compress)
    else lib.pow(b, compress)
  }

  /** The corrected compressor is odd: opposite samples compress to opposite
      values. */
  lemma CompressOdd(b: real, compress: real, lib: Libm)
    requires b != 0.0
    ensures Compress(-b, compress, lib) == -Compress(b, compress, lib)
  {
  }

  /** The end of `synthSample`'s per-sample body, with the sign-keeping
      compressor: the mean of the eight sub-samples, decimated, compressed,
      scaled by the two volumes and clipped. Wherever the source's
      compressor is a number on a non-negative sample, or is off, the two
      agree. */
  function PostProcess(sum: real, decimate: real, compress: real,
                       masterVol: real, soundVol: real, lib: Libm): (r: real)
    ensures -1.0 <= r <= 1.0
    ensures compress == 0.0 || 0.0 <= Decimated(sum, decimate) ==>
      var w := PostProcessAsWritten(sum, decimate, compress, masterVol, soundVol, lib);
      w.Some? && w.value == r
  {
    var c := Compress(Decimated(sum, decimate), compress, lib);
    Clip(c * masterVol * (2.0 * soundVol))
  }

  /** A compress setting in the documented range 0.2 to 0.9, say 0.5, turns
      every negative mean into a NaN as written, where the corrected
      post-processing gives a clipped negative-side value. */
  lemma NegativeCompressIsNaN(sum: real, masterVol: real, soundVol: real, lib: Libm)
    requires sum < 0.0
    ensures PostProcessAsWritten(sum, 0.0, 0.5, masterVol, soundVol, lib).None?
    ensures PostProcess(sum, 0.0, 0.5, masterVol, soundVol, lib)
      == Clip(-lib.pow(-(sum / 8.0), 0.5) * masterVol * (2.0 * soundVol))
  {
    assert Decimated(sum, 0.0) == sum / 8.0 < 0.0;
    assert 0.5.Floor == 0;
  }

  // ---------------------------------------------------------------------
  // Values `resetSample` derives from the parameters

  function Cubed(x: real): real { x * x * x }

  /** `1 - x * x * 0.9` for a non-negative setting (the arpeggio shortens the
      period, raising the pitch), `1 + x * x * 10` for a negative one. */
  function ArpModOf(x: real): (m: real)
    ensures 0.0 <= x ==> m <= 1.0
    ensures x < 0.0 ==> 1.0 < m
  {
    if x >= 0.0 then 1.0 - Squared(x) * 0.9 else 1.0 + Squared(x) * 10.0
  }

  /** `trunc((1 - speed)^2 * 20000 + 32)`: a cycle of at least 32 samples. */
  function CycleLimit(speed: real): (n: nat)
    ensures 32 <= n
  {
    Trunc(Squared(1.0 - speed) * 20000.0 + 32.0)
  }

  /** The arpeggio's trigger time; a speed of exactly 1 disables it. */
  function ArpLimit(p: Parameters): (n: nat)
    ensures n == 0 <==> p.arpSpeed == 1.0
  {
    if p.arpSpeed == 1.0 then 0 else CycleLimit(p.arpSpeed)
  }

  /** The repeat period; a speed of exactly 0 disables it. */
  function RepeatLimit(p: Parameters): (n: nat)
    ensures n == 0 <==> p.repeatSpeed == 0.0
  {
    if p.repeatSpeed == 0.0 then 0 else CycleLimit(p.repeatSpeed)
  }

  /** `pow(x, 2) * 1020`, with the sign of `x`. */
  function PhaserOffset(x: real): real
  {
    if x < 0.0 then -(Squared(x) * 1020.0) else Squared(x) * 1020.0
  }

  /** `pow(x, 2)`, with the sign of `x`. */
  function PhaserRamp(x: real): real
  {
    if x < 0.0 then -Squared(x) else Squared(x)
  }

  // ---------------------------------------------------------------------
  // Low-pass and high-pass filters

  /** The eight filter floats of `SfxrCore`. */
  datatype Filter = Filter(fltp: real, fltdp: real, fltw: real, fltwD: real, fltdmp: real,
                           fltphp: real, flthp: real, flthpD: real)

  /** The filter state a non-restart reset sets; the damping is capped at 0.8. */
  function FilterReset(p: Parameters): (f: Filter)
    ensures f.fltp == 0.0 && f.fltdp == 0.0 && f.fltphp == 0.0
    ensures f.fltdmp <= 0.8
  {
    var w := Cubed(p.lpfFreq) * 0.1;
    var dmp := 5.0 / (1.0 + Squared(p.lpfResonance) * 20.0) * (0.01 + w);
    Filter(0.0, 0.0, w, 1.0 + p.lpfRamp * 0.0001, if dmp > 0.8 then 0.8 else dmp,
           0.0, Squared(p.hpfFreq) * 0.1, 1.0 + p.hpfRamp * 0.0003)
  }

  /** The per-sample high-pass cutoff ramp, clamped to [0.00001, 0.1]; a
      zero ramp factor leaves the filter alone. */
  function HighPassRamp(f: Filter): (r: Filter)
    ensures f.flthpD != 0.0 ==> 0.00001 <= r.flthp <= 0.1
    ensures f.flthpD == 0.0 ==> r == f
    ensures r == f.(flthp := r.flthp)
  {
    if f.flthpD == 0.0 then f
    else
      var h := f.flthp * f.flthpD;
      f.(flthp := if h < 0.00001 then 0.00001 else if h > 0.1 then 0.1 else h)
  }

  /** One sub-sample through the low-pass then the high-pass filter; returns
      the new state and the filtered sample. The low-pass cutoff stays in
      [0, 0.1], and a cutoff setting of exactly 1 passes the sample through. */
  function FilterSample(f: Filter, sample: real, lpfFreq: real): (r: (Filter, real))
    ensures 0.0 <= r.0.fltw <= 0.1
    ensures lpfFreq == 1.0 ==> r.0.fltp == sample && r.0.fltdp == 0.0
    ensures r.1 == r.0.fltphp
    ensures r.0 == f.(fltp := r.0.fltp, fltdp := r.0.fltdp, fltw := r.0.fltw, fltphp := r.0.fltphp)
  {
    var w0 := f.fltw * f.fltwD;
    var w := if w0 < 0.0 then 0.0 else if w0 > 0.1 then 0.1 else w0;
    var (lp, dp) :=
      if lpfFreq != 1.0 then
        var d := f.fltdp + (sample - f.fltp) * w;
        (f.fltp, d - d * f.fltdmp)
      else (sample, 0.0);
    var hp := f.fltphp + (lp + dp - f.fltp);
    (f.(fltp := lp + dp, fltdp := dp, fltw := w, fltphp := hp - hp * f.flthp), hp - hp * f.flthp)
  }

  // ---------------------------------------------------------------------
  // The render state, grouped by concern, and what `resetSample` sets it to

  /** Pitch, slide, square duty and arpeggio: what every reset, restart or
      not, recomputes. */
  datatype Pitch = Pitch(fperiod: real, period: int, fmaxperiod: real, fslide: real, fdslide: real,
                         squareDuty: real, squareSlide: real, arpMod: real, arpTime: nat, arpLimit: nat)

  /** The volume envelope: stage (3 is the end), clock, volume and the three
      stage lengths `env_length`. */
  datatype Envelope = Envelope(stage: nat, time: nat, vol: real, length: seq<nat>)

  /** The phaser: offset, its ramp, the delay and the ring's write slot. */
  datatype Phaser = Phaser(fphase: real, fdphase: real, iphase: nat, ipp: nat)

  datatype Vibrato = Vibrato(phase: real, speed: real, amp: real)

  /** The repeat clock and its period (0: no repeat). */
  datatype Repeat = Repeat(time: nat, limit: nat)

  /** The pitch state every reset computes from the parameters. */
  function PitchOf(p: Parameters): (c: Pitch)
    ensures c.arpTime == 0 && 0.0 < c.fperiod && 0.0 < c.fmaxperiod
    ensures 0 <= c.period && c.period as real <= c.fperiod < c.period as real + 1.0
    ensures c.arpLimit == 0 <==> p.arpSpeed == 1.0
  {
    var fperiod := PeriodOf(p.baseFreq);
    Pitch(fperiod, Trunc(fperiod), PeriodOf(p.freqLimit),
          1.0 - Cubed(p.freqRamp) * 0.01, -Cubed(p.freqDramp) * 0.000001,
          0.5 - p.duty * 0.5, -p.dutyRamp * 0.00005, ArpModOf(p.arpMod), 0, ArpLimit(p))
  }

  /** The envelope a full reset starts: silent, at the start of the attack. */
  function EnvelopeOf(p: Parameters): (e: Envelope)
    ensures e.stage == 0 && e.time == 0 && e.vol == 0.0
    ensures EnvInRange(e.stage, e.time, e.length)
    ensures e.length == EnvLengths(p)
  {
    Envelope(0, 0, 0.0, EnvLengths(p))
  }

  /** The phaser a full reset starts: offset and ramp take the signs of
      their settings, the delay is `trunc(|fphase|)` (not yet capped at 1023)
      and the ring is written from slot 0. */
  function PhaserOf(p: Parameters): (ph: Phaser)
    ensures ph.ipp == 0 && ph.iphase == Trunc(Abs(ph.fphase))
    ensures ph.fphase < 0.0 <==> p.phaOffset < 0.0
    ensures ph.fdphase < 0.0 <==> p.phaRamp < 0.0
  {
    var f := PhaserOffset(p.phaOffset);
    Phaser(f, PhaserRamp(p.phaRamp), Trunc(Abs(f)), 0)
  }

  /** The vibrato a full reset starts, at phase 0. */
  function VibratoOf(p: Parameters): (v: Vibrato)
    ensures v.phase == 0.0 && 0.0 <= v.speed
    ensures v.amp <= 0.0 <==> p.vibStrength <= 0.0
  {
    Vibrato(0.0, Squared(p.vibSpeed) * 0.01, p.vibStrength * 0.5)
  }

  /** The repeat clock a full reset starts. */
  function RepeatOf(p: Parameters): (r: Repeat)
    ensures r.time == 0
    ensures r.limit == 0 <==> p.repeatSpeed == 0.0
  {
    Repeat(0, RepeatLimit(p))
  }

  // ---------------------------------------------------------------------
  // The once-per-sample controls of `synthSample`

  /** One tick of the repeat clock; `true` when it reaches a non-zero limit,
      and then it starts again from 0. */
  function RepeatTick(r: Repeat): (res: (Repeat, bool))
    ensures res.0.limit == r.limit
    ensures res.1 ==> res.0.time == 0
    ensures !res.1 ==> res.0.time == r.time + 1
  {
    if r.limit != 0 && r.time + 1 >= r.limit then (Repeat(0, r.limit), true)
    else (Repeat(r.time + 1, r.limit), false)
  }

  function RepeatTicks(r: Repeat, n: nat): Repeat
  {
    if n == 0 then r else RepeatTick(RepeatTicks(r, n - 1)).0
  }

  /** From its start the repeat clock counts modulo its limit: it fires on
      every `limit`-th sample and on no other. */
  lemma {:induction false} RepeatPeriodic(limit: nat, n: nat)
    requires 0 < limit
    ensures RepeatTicks(Repeat(0, limit), n) == Repeat(n % limit, limit)
    ensures RepeatTick(RepeatTicks(Repeat(0, limit), n)).1 <==> (n + 1) % limit == 0
  {
    if n > 0 {
      RepeatPeriodic(limit, n - 1);
      CountMod(n - 1, limit);
    }
    CountMod(n, limit);
  }

  /** Counting modulo `m` one step at a time. */
  lemma CountMod(x: nat, m: nat)
    requires 0 < m
    ensures x % m + 1 < m ==> (x + 1) % m == x % m + 1
    ensures x % m + 1 >= m ==> (x + 1) % m == 0
  {
    var q, r := x / m, x % m;
    assert x == m * q + r;
    if r + 1 < m {
      ModOfSum(q, r + 1, m);
    } else {
      assert x + 1 == m * (q + 1) + 0;
      ModOfSum(q + 1, 0, m);
    }
  }

  /** The remainder of `m * q + s` is `s` when `s < m`. */
  lemma ModOfSum(q: nat, s: nat, m: nat)
    requires 0 < m && s < m
    ensures (m * q + s) % m == s
  {
    var a := m * q + s;
    var q', r' := a / m, a % m;
    assert a == m * q' + r';
    if q' < q {
      MulMonotone(q' + 1, q, m);
    } else if q < q' {
      MulMonotone(q + 1, q', m);
    }
  }

  /** One tick of the arpeggio clock: at the limit the period is scaled by
      `arpMod` and the limit cleared. */
  function ArpTick(c: Pitch): (r: Pitch)
    ensures r.arpTime == c.arpTime + 1
  {
    var t := c.arpTime + 1;
    if c.arpLimit != 0 && t >= c.arpLimit then c.(arpTime := t, arpLimit := 0, fperiod := c.fperiod * c.arpMod)
    else c.(arpTime := t)
  }

  function ArpTicks(c: Pitch, n: nat): Pitch
  {
    if n == 0 then c else ArpTick(ArpTicks(c, n - 1))
  }

  /** From a reset the arpeggio jumps exactly once, on tick `arpLimit`, and
      leaves the period alone before and after. */
  lemma {:induction false} ArpJumpsOnce(c: Pitch, n: nat)
    requires c.arpTime == 0 && 0 < c.arpLimit
    ensures n < c.arpLimit ==> ArpTicks(c, n) == c.(arpTime := n)
    ensures c.arpLimit <= n ==>
      ArpTicks(c, n) == c.(arpTime := n, arpLimit := 0, fperiod := c.fperiod * c.arpMod)
  {
    if n > 0 {
      ArpJumpsOnce(c, n - 1);
    }
  }

  /** The slide: `fslide` ramps by `fdslide`, the period is scaled by it and
      capped at `fmaxperiod`; `true` when the cap was hit. */
  function Slide(c: Pitch): (res: (Pitch, bool))
    ensures res.0.fperiod <= c.fmaxperiod
    ensures res.1 <==> c.fmaxperiod < c.fperiod * (c.fslide + c.fdslide)
    ensures !res.1 ==> res.0.fperiod == c.fperiod * (c.fslide + c.fdslide)
    ensures res.0 == c.(fslide := c.fslide + c.fdslide, fperiod := res.0.fperiod)
  {
    var s := c.fslide + c.fdslide;
    var f := c.fperiod * s;
    if f > c.fmaxperiod then (c.(fslide := s, fperiod := c.fmaxperiod), true)
    else (c.(fslide := s, fperiod := f), false)
  }

  /** The vibrato advances only while its depth is positive, and then bends
      the period by `1 + sin(phase * amp)`; returns the period to render. */
  function VibratoTick(v: Vibrato, fperiod: real, lib: Libm): (res: (Vibrato, real))
    ensures v.amp <= 0.0 ==> res == (v, fperiod)
    ensures 0.0 < v.amp ==> res.0 == v.(phase := v.phase + v.speed)
  {
    if v.amp > 0.0 then
      var ph := v.phase + v.speed;
      (v.(phase := ph), fperiod * (1.0 + lib.sin(ph * v.amp)))
    else (v, fperiod)
  }

  /** The envelope clock's tick and the volume of the stage it lands in; on
      reaching stage 3 the volume is left as it was. */
  function EnvelopeTick(e: Envelope, punch: real): (r: Envelope)
    requires EnvInRange(e.stage, e.time, e.length) && e.stage < 3
    ensures EnvInRange(r.stage, r.time, r.length) && r.length == e.length
    ensures e.stage <= r.stage <= e.stage + 1
    ensures EnvRemaining(r.stage, r.time, r.length) == EnvRemaining(e.stage, e.time, e.length) - 1
    ensures r.stage == 3 ==> r.vol == e.vol
    ensures r.stage < 3 ==> r.vol == EnvVolume(r.stage, r.time, r.length, punch)
  {
    var (s, t) := EnvStep(e.stage, e.time, e.length);
    EnvStepCountsDown(e.stage, e.time, e.length);
    Envelope(s, t, if s < 3 then EnvVolume(s, t, e.length, punch) else e.vol, e.length)
  }

  /** The phaser's tick: the offset ramps and the delay follows it, capped
      at 1023. */
  function PhaserTick(ph: Phaser): (r: Phaser)
    ensures r.iphase <= 1023 && r.iphase == PhaserDepth(r.fphase)
    ensures r.fphase == ph.fphase + ph.fdphase
    ensures r.fdphase == ph.fdphase && r.ipp == ph.ipp
  {
    var f := ph.fphase + ph.fdphase;
    ph.(fphase := f, iphase := PhaserDepth(f))
  }

  /** The state the once-per-sample controls read and write. */
  datatype Controls = Controls(repeat: Repeat, pitch: Pitch, vibrato: Vibrato, env: Envelope,
                               phaser: Phaser, filter: Filter, playing: bool)

  /** The head of one `synthSample` iteration: the repeat (which restarts the
      pitch as `resetSample(true)` does), arpeggio, slide, vibrato, duty,
      envelope, phaser and high-pass ramp. The sound stops when the slide
      hits a positive frequency limit or the envelope reaches stage 3. */
  function ControlTick(k: Controls, p: Parameters, lib: Libm): (r: Controls)
    requires EnvInRange(k.env.stage, k.env.time, k.env.length) && k.env.stage < 3
    ensures 8 <= r.pitch.period && 0.0 <= r.pitch.squareDuty <= 0.5
    ensures r.pitch.fperiod <= r.pitch.fmaxperiod
    ensures r.pitch.fmaxperiod == (if RepeatTick(k.repeat).1 then PitchOf(p) else k.pitch).fmaxperiod
    ensures r.phaser.iphase <= 1023 && r.phaser.ipp == k.phaser.ipp
    ensures EnvInRange(r.env.stage, r.env.time, r.env.length) && r.env.length == k.env.length
    ensures EnvRemaining(r.env.stage, r.env.time, r.env.length)
         == EnvRemaining(k.env.stage, k.env.time, k.env.length) - 1
    ensures r.playing ==> k.playing && r.env.stage < 3
    ensures k.playing && r.env.stage < 3 && !r.playing ==> 0.0 < p.freqLimit
  {
    var (rep, restart) := RepeatTick(k.repeat);
    var (c, capped) := Slide(ArpTick(if restart then PitchOf(p) else k.pitch));
    var (vib, rf) := VibratoTick(k.vibrato, c.fperiod, lib);
    var env := EnvelopeTick(k.env, p.envPunch);
    Controls(rep, c.(period := ClampedPeriod(rf), squareDuty := ClampDuty(c.squareDuty + c.squareSlide)),
             vib, env, PhaserTick(k.phaser), HighPassRamp(k.filter),
             k.playing && !(capped && p.freqLimit > 0.0) && env.stage < 3)
  }

  // ---------------------------------------------------------------------
  // `seed(const char*)`

  /** What `SfxrCore::seed(const char*)` does with a string of the given bytes. */
  datatype TextSeeding = Refused(message: string) | Seeded(rt: Pcg32) | Diverges

  /** `(uint64_t)(s[i])` for a signed `char`: bytes from 0x80 up sign-extend. */
  function CharWord(c: bv8): (w: bv64)
    ensures c < 0x80 ==> w == c as bv64
    ensures 0x80 <= c ==> w & 0xFF == c as bv64 && w >> 8 == 0xFF_FFFF_FFFF_FFFF
  {
    if c < 0x80 then c as bv64 else 0xFFFF_FFFF_FFFF_FF00 | c as bv64
  }

  /** Fewer than four bytes throw; exactly four seed the generator from the
      bytes (the second seed then defaults to 0xBABABABA); longer strings
      enter a loop that never advances its index. `s` is the bytes of a C
      string before its terminator, so none of them is 0. */
  function TextSeed(s: seq<bv8>): (r: TextSeeding)
    requires forall i :: 0 <= i < |s| ==> s[i] != 0
    ensures |s| < 4 <==> r.Refused?
    ensures |s| == 4 <==> r.Seeded?
    ensures 4 < |s| <==> r.Diverges?
    ensures r.Seeded? ==> r.rt.inc & 1 == 1
  {
    if |s| < 4 then Refused("string of less than 4 chars sent to SfxrCore::seed()")
    else if |s| > 4 then Diverges
    else
      var a := CharWord(s[0]) + (CharWord(s[1]) << 8) + (CharWord(s[2]) << 16) + (CharWord(s[3]) << 24);
      Seeded(PcgSeed(CORE_STATE_SEED ^ a, CORE_SEQ_SEED & 0xBABA_BABA))
  }

  // ---------------------------------------------------------------------
  // The core

  /** `SfxrCore`: the render state of one sound. `ratio` is fixed at 1 (sample
      rates other than 44100 are refused), so every counter advances by one
      per sample and is kept as an integer. The source's flat list of fields
      is grouped here into value records by concern; the ring and the noise
      banks stay arrays updated in place. */
  class Core {
    var phase: nat
    var pitch: Pitch
    var env: Envelope
    var phaser: Phaser
    const phaserBuffer: array<real>
    const noiseBuffer: array<real>
    const pinkNoiseBuffer: array<real>
    var oneBitNoiseState: bv32
    var oneBitNoise: real
    var filter: Filter
    var vibrato: Vibrato
    var repeat: Repeat
    var soundVol: real
    var masterVol: real
    var wavBits: int
    var playing: bool
    const pn: PinkNumber
    const rxs: RandXS
    var rt: Pcg32
    const buffer: SampleBuffer

    /** The fixed shape of the core: array sizes and which arrays and
        generators are distinct objects. It depends only on constant fields. */
    ghost predicate Shape()
    {
      && phaserBuffer.Length == 1024 && noiseBuffer.Length == 32 && pinkNoiseBuffer.Length == 32
      && phaserBuffer != noiseBuffer && phaserBuffer != pinkNoiseBuffer && noiseBuffer != pinkNoiseBuffer
      && rxs != pn.rxs
    }

    ghost predicate Valid()
      reads this`env, this`playing, this`phaser, buffer, pn, pn.whiteValues
    {
      && Shape()
      && buffer.block != phaserBuffer && buffer.block != noiseBuffer && buffer.block != pinkNoiseBuffer
      && buffer.Valid() && pn.Valid()
      && EnvInRange(env.stage, env.time, env.length)
      && (playing ==> env.stage < 3)
      && phaser.ipp < 1024
    }

    /** Samples the envelope still allows: none exactly when it has ended. */
    ghost function Remaining(): (n: nat)
      requires EnvInRange(env.stage, env.time, env.length)
      reads this`env
      ensures n == 0 <==> env.stage == 3
    {
      EnvRemaining(env.stage, env.time, env.length)
    }

    /** The state the once-per-sample controls work on. */
    ghost function ControlState(): Controls
      reads this`repeat, this`pitch, this`vibrato, this`env, this`phaser, this`filter, this`playing
    {
      Controls(repeat, pitch, vibrato, env, phaser, filter, playing)
    }

    /** The records a full reset restarts from the parameters, with the
        one-bit register at 1 << 14. */
    ghost predicate RecordsReset(p: Parameters)
      reads this`env, this`phaser, this`filter, this`vibrato, this`repeat, this`oneBitNoiseState
    {
      && env == EnvelopeOf(p) && phaser == PhaserOf(p) && filter == FilterReset(p)
      && vibrato == VibratoOf(p) && repeat == RepeatOf(p) && oneBitNoiseState == LFSR_SEED
    }

    /** The ring cleared, and the noise generator reseeded with 0 before the
        noise bank is refilled, so the bank is the same on every full reset. */
    ghost predicate BanksReset()
      reads phaserBuffer, rxs, noiseBuffer
    {
      && phaserBuffer[..] == seq(1024, _ => 0.0)
      && rxs.a == NOISE_RESET_STATE && noiseBuffer[..] == NoiseDraws(ZERO_SEEDED, BANK_SIZE)
    }

    /** A fresh core: zeroed state and buffers, the fixed generator seed. */
    constructor()
      ensures Valid() && fresh(buffer) && fresh(pn) && fresh(rxs)
      ensures !playing && phase == 0 && env == Envelope(0, 0, 0.0, [0, 0, 0])
      ensures phaser == Phaser(0.0, 0.0, 0, 0) && oneBitNoiseState == 0
      ensures buffer.Contents() == [] && rt == DefaultCorePcg()
      ensures phaserBuffer[..] == seq(1024, _ => 0.0)
      ensures noiseBuffer[..] == seq(32, _ => 0.0) && pinkNoiseBuffer[..] == seq(32, _ => 0.0)
      ensures rxs.a == ZERO_SEEDED && pn.key == 0 && pn.range == 65536
      ensures soundVol == 0.5 && masterVol == 0.25 && wavBits == 16
    {
      phase := 0;
      pitch := Pitch(0.0, 0, 0.0, 0.0, 0.0, 0.0, 0.0, 0.0, 0, 0);
      env := Envelope(0, 0, 0.0, [0, 0, 0]);
      phaser := Phaser(0.0, 0.0, 0, 0);
      phaserBuffer := new real[1024](_ => 0.0);
      noiseBuffer := new real[32](_ => 0.0);
      pinkNoiseBuffer := new real[32](_ => 0.0);
      oneBitNoiseState, oneBitNoise := 0, 0.0;
      filter := Filter(0.0, 0.0, 0.0, 0.0, 0.0, 0.0, 0.0, 0.0);
      vibrato := Vibrato(0.0, 0.0, 0.0);
      repeat := Repeat(0, 0);
      soundVol, masterVol := 0.5, 0.25;
      wavBits := 16;
      playing := false;
      pn := new PinkNumber(65536);
      rxs := new RandXS(0);
      rt := DefaultCorePcg();
      buffer := new SampleBuffer();
    }

    /** `seed(unsigned long long)`. */
    method Seed(s: bv64)
      modifies this`rt
      ensures rt == SeededCorePcg(s)
    {
      rt := SeededCorePcg(s);
    }

    /** `resetSample(restart)`. A restart (the repeat) only recomputes the
        pitch, duty and arpeggio state; a full reset also rewinds the phase
        and restarts everything else. */
    method ResetSample(p: Parameters, restart: bool)
      requires Valid()
      modifies this`phase, this`pitch, this`env, this`phaser, this`filter, this`vibrato,
        this`repeat, this`oneBitNoiseState, phaserBuffer, rxs, noiseBuffer, pinkNoiseBuffer,
        pn, pn.whiteValues, pn.rxs
      ensures Valid() && pitch == PitchOf(p) && pn.key == old(pn.key)
      ensures restart ==>
        && phase == old(phase) && env == old(env) && phaser == old(phaser) && filter == old(filter)
        && vibrato == old(vibrato) && repeat == old(repeat) && oneBitNoiseState == old(oneBitNoiseState)
        && rxs.a == old(rxs.a) && phaserBuffer[..] == old(phaserBuffer[..])
        && noiseBuffer[..] == old(noiseBuffer[..]) && pinkNoiseBuffer[..] == old(pinkNoiseBuffer[..])
        && pn.whiteValues[..] == old(pn.whiteValues[..]) && pn.rxs.a == old(pn.rxs.a)
      ensures !restart ==>
        && phase == 0 && RecordsReset(p) && BanksReset()
        && forall i :: 0 <= i < 32 ==> -1.0 <= pinkNoiseBuffer[i] < 1.0
    {
      if !restart {
        FullReset(p);
      }
      pitch := PitchOf(p);
    }

    /** The part of `resetSample` only a full reset runs. */
    method FullReset(p: Parameters)
      requires Shape() && pn.Valid()
      modifies this`phase, this`env, this`phaser, this`filter, this`vibrato, this`repeat,
        this`oneBitNoiseState, phaserBuffer, rxs, noiseBuffer, pinkNoiseBuffer, pn, pn.whiteValues, pn.rxs
      ensures pn.Valid() && pn.key == old(pn.key)
      ensures phase == 0 && RecordsReset(p) && BanksReset()
      ensures forall i :: 0 <= i < 32 ==> -1.0 <= pinkNoiseBuffer[i] < 1.0
    {
      phase := 0;
      ResetRecords(p);
      ResetBanks();
    }

    method ResetRecords(p: Parameters)
      modifies this`env, this`phaser, this`filter, this`vibrato, this`repeat, this`oneBitNoiseState
      ensures RecordsReset(p)
    {
      oneBitNoiseState := LFSR_SEED;
      filter := FilterReset(p);
      vibrato := VibratoOf(p);
      env := EnvelopeOf(p);
      phaser := PhaserOf(p);
      repeat := RepeatOf(p);
    }

    /** The banks of a full reset. The noise and pink banks draw from
        separate generators, so filling one after the other gives what the
        source's shared loop gives. */
    method ResetBanks()
      requires Shape() && pn.Valid()
      modifies phaserBuffer, rxs, noiseBuffer, pinkNoiseBuffer, pn, pn.whiteValues, pn.rxs
      ensures pn.Valid() && pn.key == old(pn.key)
      ensures BanksReset()
      ensures forall i :: 0 <= i < 32 ==> -1.0 <= pinkNoiseBuffer[i] < 1.0
    {
      rxs.Seed(0);
      ClearRing();
      RefreshNoise();
      RefreshPink();
    }

    /** The phaser ring cleared. */
    method ClearRing()
      requires phaserBuffer.Length == 1024
      modifies phaserBuffer
      ensures phaserBuffer[..] == seq(1024, _ => 0.0)
    {
      var i := 0;
      while i < 1024
        invariant i <= 1024
        invariant forall j :: 0 <= j < i ==> phaserBuffer[j] == 0.0
      {
        phaserBuffer[i] := 0.0;
        i := i + 1;
      }
    }

    /** The noise bank refresh: 32 draws `randf() * 2 - 1` from `rxs`. */
    method RefreshNoise()
      requires noiseBuffer.Length == 32
      modifies noiseBuffer, rxs
      ensures noiseBuffer[..] == NoiseDraws(old(rxs.a), 32)
      ensures rxs.a == XorShiftN(old(rxs.a), 32)
    {
      ghost var a0 := rxs.a;
      var i := 0;
      while i < 32
        invariant i <= 32
        invariant rxs.a == XorShiftN(a0, i)
        invariant forall j :: 0 <= j < i ==> noiseBuffer[j] == NoiseDraw(a0, j + 1)
      {
        DrawNoise(i, a0);
        i := i + 1;
      }
      DrawsByIndex(noiseBuffer[..], a0);
    }

    /** One step of the noise bank refresh: entry `i` is the next draw. */
    method DrawNoise(i: nat, ghost a0: bv64)
      requires i < noiseBuffer.Length && rxs.a == XorShiftN(a0, i)
      modifies noiseBuffer, rxs
      ensures rxs.a == XorShiftN(a0, i + 1) && noiseBuffer[i] == NoiseDraw(a0, i + 1)
      ensures forall j :: 0 <= j < noiseBuffer.Length && j != i ==> noiseBuffer[j] == old(noiseBuffer[j])
    {
      var f := rxs.RandF();
      NextNoiseDraw(a0, i, f);
      noiseBuffer[i] := f * 2.0 - 1.0;
    }

    /** The pink bank refresh: 32 draws `getNextFloat() * 2 - 1`. The key
        goes round its 32 values exactly once, so it ends where it began. */
    method RefreshPink()
      requires pinkNoiseBuffer.Length == 32 && pn.Valid()
      modifies pinkNoiseBuffer, pn, pn.whiteValues, pn.rxs
      ensures pn.Valid() && pn.key == old(pn.key) && pn.range == old(pn.range)
      ensures forall i :: 0 <= i < 32 ==> -1.0 <= pinkNoiseBuffer[i] < 1.0
    {
      var i := 0;
      while i < 32
        invariant i <= 32
        invariant pn.Valid() && pn.range == old(pn.range)
        invariant pn.key == KeyAfter(old(pn.key), i)
        invariant forall j :: 0 <= j < i ==> -1.0 <= pinkNoiseBuffer[j] < 1.0
      {
        var f := pn.GetNextFloat();
        PinkEntryRange(f);
        pinkNoiseBuffer[i] := f * 2.0 - 1.0;
        i := i + 1;
      }
      KeyCycle(old(pn.key), i);
    }

    /** The head of one render-loop iteration (see `ControlTick`). */
    method StepControls(p: Parameters, lib: Libm)
      requires EnvInRange(env.stage, env.time, env.length) && env.stage < 3
      modifies this`repeat, this`pitch, this`vibrato, this`env, this`phaser, this`filter, this`playing
      ensures ControlState() == ControlTick(old(ControlState()), p, lib)
    {
      var (rep, restart) := RepeatTick(repeat);
      repeat := rep;
      if restart {
        pitch := PitchOf(p);
      }
      pitch := ArpTick(pitch);
      var (c, capped) := Slide(pitch);
      pitch := c;
      if capped && p.freqLimit > 0.0 {
        playing := false;
      }
      var (vib, rf) := VibratoTick(vibrato, pitch.fperiod, lib);
      vibrato := vib;
      pitch := pitch.(period := ClampedPeriod(rf));
      pitch := pitch.(squareDuty := ClampDuty(pitch.squareDuty + pitch.squareSlide));
      env := EnvelopeTick(env, p.envPunch);
      if env.stage == 3 {
        playing := false;
      }
      phaser := PhaserTick(phaser);
      filter := HighPassRamp(filter);
    }

    /** `phase += 1`, wrapped by `fmod` once it reaches the period; on a wrap
        the noise source of the wave type is refreshed. */
    method AdvancePhase(wave: Option<WaveType>)
      requires Shape() && pn.Valid() && 0 < pitch.period
      modifies this`phase, this`oneBitNoiseState, this`oneBitNoise, noiseBuffer, rxs,
        pinkNoiseBuffer, pn, pn.whiteValues, pn.rxs
      ensures pn.Valid() && pn.key == old(pn.key)
      ensures phase == (old(phase) + 1) % pitch.period
      ensures var wrap := pitch.period <= old(phase) + 1;
        if wrap && wave == Some(Noise) then
          noiseBuffer[..] == NoiseDraws(old(rxs.a), BANK_SIZE) && rxs.a == XorShiftN(old(rxs.a), BANK_SIZE)
        else noiseBuffer[..] == old(noiseBuffer[..]) && rxs.a == old(rxs.a)
      ensures var wrap := pitch.period <= old(phase) + 1;
        if wrap && wave == Some(Pink) then forall i :: 0 <= i < 32 ==> -1.0 <= pinkNoiseBuffer[i] < 1.0
        else && pinkNoiseBuffer[..] == old(pinkNoiseBuffer[..])
             && pn.whiteValues[..] == old(pn.whiteValues[..]) && pn.rxs.a == old(pn.rxs.a)
      ensures var wrap := pitch.period <= old(phase) + 1;
        if wrap && wave == Some(OneBit) then
          oneBitNoiseState == LfsrStep(old(oneBitNoiseState)) && oneBitNoise == OneBitNoise(oneBitNoiseState)
        else oneBitNoiseState == old(oneBitNoiseState) && oneBitNoise == old(oneBitNoise)
    {
      phase := phase + 1;
      if phase >= pitch.period {
        phase := phase % pitch.period;
        if wave == Some(Noise) {
          RefreshNoise();
        } else if wave == Some(Pink) {
          RefreshPink();
        } else if wave == Some(OneBit) {
          oneBitNoiseState := LfsrStep(oneBitNoiseState);
          oneBitNoise := OneBitNoise(oneBitNoiseState);
        }
      } else {
        ModOfSum(0, phase, pitch.period);
      }
    }

    /** The phaser: the sample is written into the ring at `ipp`, and the
        sample `iphase` slots behind is added to it, which is the sample
        itself when the delay is 0. */
    method PhaserSample(y: real) returns (out: real)
      requires phaserBuffer.Length == 1024 && phaser.ipp < 1024 && phaser.iphase <= 1023
      modifies phaserBuffer, this`phaser
      ensures phaserBuffer[..] == old(phaserBuffer[..])[old(phaser.ipp) := y]
      ensures phaser == old(phaser).(ipp := NextSlot(old(phaser.ipp)))
      ensures out == y + if phaser.iphase == 0 then y
                         else old(phaserBuffer[ReadSlot(phaser.ipp, phaser.iphase)])
    {
      phaserBuffer[phaser.ipp] := y;
      ReadSlotBehind(phaser.ipp, phaser.iphase);
      out := y + phaserBuffer[ReadSlot(phaser.ipp, phaser.iphase)];
      phaser := phaser.(ipp := NextSlot(phaser.ipp));
    }

    /** One of the eight sub-samples: the phase step, the base waveform, the
        two filters, the phaser and the envelope volume. */
    method SubSample(wave: Option<WaveType>, lpfFreq: real, lib: Libm) returns (s: real)
      requires Shape() && pn.Valid() && 8 <= pitch.period && phaser.ipp < 1024 && phaser.iphase <= 1023
      modifies this`phase, this`oneBitNoiseState, this`oneBitNoise, noiseBuffer, rxs,
        pinkNoiseBuffer, pn, pn.whiteValues, pn.rxs, this`filter, this`phaser, phaserBuffer
      ensures pn.Valid() && pn.key == old(pn.key)
      ensures phase == (old(phase) + 1) % pitch.period
      ensures phaser == old(phaser).(ipp := NextSlot(old(phaser.ipp)))
      ensures var (f, y) := FilterSample(old(filter), Waveform(wave, phase, pitch.period, pitch.squareDuty,
                              noiseBuffer[..], pinkNoiseBuffer[..], oneBitNoise, lib), lpfFreq);
        && filter == f
        && phaserBuffer[..] == old(phaserBuffer[..])[old(phaser.ipp) := y]
        && s == (y + phaserBuffer[ReadSlot(old(phaser.ipp), phaser.iphase)]) * env.vol
    {
      AdvancePhase(wave);
      var sample := Waveform(wave, phase, pitch.period, pitch.squareDuty,
                             noiseBuffer[..], pinkNoiseBuffer[..], oneBitNoise, lib);
      var (f, y) := FilterSample(filter, sample, lpfFreq);
      filter := f;
      var out := PhaserSample(y);
      s := out * env.vol;
    }

    /** The eight sub-samples of one sample, summed. The phase ends inside
        the period, the ring's write slot has moved on by eight, and a silent
        envelope gives a silent sum. */
    method SuperSample(wave: Option<WaveType>, lpfFreq: real, lib: Libm) returns (sum: real)
      requires Shape() && pn.Valid() && 8 <= pitch.period && phaser.ipp < 1024 && phaser.iphase <= 1023
      modifies this`phase, this`oneBitNoiseState, this`oneBitNoise, noiseBuffer, rxs,
        pinkNoiseBuffer, pn, pn.whiteValues, pn.rxs, this`filter, this`phaser, phaserBuffer
      ensures pn.Valid() && pn.key == old(pn.key)
      ensures phase < pitch.period
      ensures phaser == old(phaser).(ipp := (old(phaser.ipp) + 8) % 1024)
      ensures env.vol == 0.0 ==> sum == 0.0
    {
      sum := 0.0;
      var si := 0;
      while si < 8
        invariant si <= 8 && pn.Valid() && pn.key == old(pn.key)
        invariant phaser == old(phaser).(ipp := (old(phaser.ipp) + si) % 1024)
        invariant 0 < si ==> phase < pitch.period
        invariant env.vol == 0.0 ==> sum == 0.0
      {
        CountMod(old(phaser.ipp) + si, 1024);
        var s := SubSample(wave, lpfFreq, lib);
        sum := sum + s;
        si := si + 1;
      }
    }

    /** One iteration of the render loop for a sound that is playing: the
        controls, eight sub-samples summed into `sum`, the post-processing,
        and the sample appended to the buffer. The controls end as
        `ControlTick` leaves them (the filter goes on through the
        sub-samples, and the ring's write slot moves on by eight). */
    method RenderSample(p: Parameters, decimate: real, lib: Libm) returns (out: real, sum: real)
      requires Valid() && playing
      modifies this`repeat, this`pitch, this`vibrato, this`env, this`phaser, this`filter, this`playing,
        this`phase, this`oneBitNoiseState, this`oneBitNoise, noiseBuffer, rxs, pinkNoiseBuffer,
        pn, pn.whiteValues, pn.rxs, phaserBuffer, buffer, buffer.block
      ensures Valid() && -1.0 <= out <= 1.0
      ensures var k := ControlTick(old(ControlState()), p, lib);
        && repeat == k.repeat && pitch == k.pitch && vibrato == k.vibrato && env == k.env
        && playing == k.playing && phaser == k.phaser.(ipp := (k.phaser.ipp + 8) % 1024)
      ensures out == PostProcess(sum, decimate, p.csCompress, masterVol, soundVol, lib)
      ensures env.vol == 0.0 ==> sum == 0.0
      ensures buffer.Contents() == old(buffer.Contents()) + [out]
      ensures Remaining() == old(Remaining()) - 1
      ensures p.freqLimit <= 0.0 ==> (playing <==> env.stage < 3)
      ensures buffer.block == old(buffer.block) || fresh(buffer.block)
    {
      StepControls(p, lib);
      sum := SuperSample(WaveOfCode(Trunc(p.waveType)), p.lpfFreq, lib);
      out := PostProcess(sum, decimate, p.csCompress, masterVol, soundVol, lib);
      buffer.Append(out);
    }

    /** `synthSample()`: render up to 4096 samples into the buffer, stopping
        as soon as the sound has stopped. Every sample is in [-1, 1], and
        each one uses up one sample of the envelope. */
    method SynthSample(p: Parameters, lib: Libm)
      requires Valid()
      modifies this`repeat, this`pitch, this`vibrato, this`env, this`phaser, this`filter, this`playing,
        this`phase, this`oneBitNoiseState, this`oneBitNoise, noiseBuffer, rxs, pinkNoiseBuffer,
        pn, pn.whiteValues, pn.rxs, phaserBuffer, buffer, buffer.block
      ensures Valid()
      ensures |old(buffer.Contents())| <= |buffer.Contents()|
      ensures buffer.Contents()[..|old(buffer.Contents())|] == old(buffer.Contents())
      ensures var n := |buffer.Contents()| - |old(buffer.Contents())|;
        && n <= 4096 && (n < 4096 ==> !playing) && (0 < n <==> old(playing))
        && Remaining() + n == old(Remaining())
        && Clipped(buffer.Contents()[|old(buffer.Contents())|..])
      ensures p.freqLimit <= 0.0 && (old(playing) <==> old(env.stage) < 3) ==> (playing <==> env.stage < 3)
      ensures buffer.block == old(buffer.block) || fresh(buffer.block)
    {
      var decimate := DecimateFactor(p.csDecimate);
      ghost var rendered: seq<real> := [];
      var i := 0;
      while i < 4096
        invariant i <= 4096 && Valid() && i == |rendered| && Clipped(rendered)
        invariant buffer.Contents() == old(buffer.Contents()) + rendered
        invariant Remaining() + i == old(Remaining())
        invariant 0 < i ==> old(playing)
        invariant i == 0 ==> playing == old(playing)
        invariant buffer.block == old(buffer.block) || fresh(buffer.block)
        invariant p.freqLimit <= 0.0 && (old(playing) <==> old(env.stage) < 3) ==> (playing <==> env.stage < 3)
      {
        if !playing {
          break;
        }
        var out, _ := RenderSample(p, decimate, lib);
        rendered := rendered + [out];
        i := i + 1;
      }
      assert buffer.Contents()[..|old(buffer.Contents())|] == old(buffer.Contents());
      assert buffer.Contents()[|old(buffer.Contents())|..] == rendered;
    }

    /** The render loop of `Sfxr::create`: `synthSample()` until the sound
        stops. The samples rendered are each in [-1, 1] and use up the
        envelope one each; without a frequency limit the loop ends exactly
        when the envelope does. */
    method PlayOut(p: Parameters, lib: Libm)
      requires Valid()
      modifies this`repeat, this`pitch, this`vibrato, this`env, this`phaser, this`filter, this`playing,
        this`phase, this`oneBitNoiseState, this`oneBitNoise, noiseBuffer, rxs, pinkNoiseBuffer,
        pn, pn.whiteValues, pn.rxs, phaserBuffer, buffer, buffer.block
      ensures Valid() && !playing
      ensures |old(buffer.Contents())| <= |buffer.Contents()|
      ensures buffer.Contents()[..|old(buffer.Contents())|] == old(buffer.Contents())
      ensures Clipped(buffer.Contents()[|old(buffer.Contents())|..])
      ensures Remaining() + |buffer.Contents()| == old(Remaining()) + |old(buffer.Contents())|
      ensures p.freqLimit <= 0.0 && (old(playing) <==> old(env.stage) < 3) ==> Remaining() == 0
      ensures buffer.block == old(buffer.block) || fresh(buffer.block)
    {
      ghost var rendered: seq<real> := [];
      while playing
        invariant Valid() && Clipped(rendered)
        invariant buffer.Contents() == old(buffer.Contents()) + rendered
        invariant Remaining() + |rendered| == old(Remaining())
        invariant p.freqLimit <= 0.0 && (old(playing) <==> old(env.stage) < 3) ==> (playing <==> env.stage < 3)
        invariant buffer.block == old(buffer.block) || fresh(buffer.block)
        decreases Remaining()
      {
        ghost var before := buffer.Contents();
        SynthSample(p, lib);
        ghost var added := buffer.Contents()[|before|..];
        RunExtended(old(buffer.Contents()), rendered, buffer.Contents(), |before|);
        rendered := rendered + added;
      }
      assert buffer.Contents()[..|old(buffer.Contents())|] == old(buffer.Contents());
      assert buffer.Contents()[|old(buffer.Contents())|..] == rendered;
    }

    /** The core's share of `Sfxr::create`: a full `resetSample`, `playing`
        set, the buffer cleared, then the render loop. The sound is at most
        L0 + L1 + L2 + 3 samples long, each in [-1, 1], and exactly that long
        when no frequency limit stops it early. */
    method Render(p: Parameters, lib: Libm)
      requires Valid()
      modifies this`repeat, this`pitch, this`vibrato, this`env, this`phaser, this`filter, this`playing,
        this`phase, this`oneBitNoiseState, this`oneBitNoise, phaserBuffer, rxs, noiseBuffer,
        pinkNoiseBuffer, pn, pn.whiteValues, pn.rxs, buffer, buffer.block
      ensures Valid() && !playing && Clipped(buffer.Contents())
      ensures var l := EnvLengths(p);
        && |buffer.Contents()| <= l[0] + l[1] + l[2] + 3
        && (p.freqLimit <= 0.0 ==> |buffer.Contents()| == l[0] + l[1] + l[2] + 3)
      ensures buffer.block == old(buffer.block) || fresh(buffer.block)
    {
      ResetSample(p, false);
      playing := true;
      buffer.Clear();
      EnvTotal(EnvLengths(p));
      PlayOut(p, lib);
    }
  }
}
