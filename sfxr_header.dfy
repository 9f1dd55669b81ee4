/** The data model of cppSfxr.h: preset, parameter, wave-type and mode
    constants, the 32-float parameter block and the export formats. */
module SfxrHeader {
  import opened Common

  // Compile-time options: both are defined in the header.
  const STATIC_STREAM_BUFFER: bool := true
  const DISALLOW_SAMPLERATE: bool := true

  // Preset kinds, SFXR_PICKUP_COIN .. SFXR_BLIP_SELECT.
  const PICKUP_COIN := 0
  const LASER_SHOOT := 1
  const EXPLOSION := 2
  const POWERUP := 3
  const HIT_HURT := 4
  const JUMP := 5
  const BLIP_SELECT := 6

  /** `Sfxr::from`: the name of the preset whose constant is the index. */
  const PresetNames: seq<string> :=
    ["PICKUP/COIN", "LASER/SHOOT", "EXPLOSION", "POWERUP", "HIT/HURT", "JUMP", "BLIP/SELECT"]

  // Parameter indices, SFXRI_*.
  const WAVE_TYPE := 0
  const ENV_ATTACK := 1
  const ENV_SUSTAIN := 2
  const ENV_PUNCH := 3
  const ENV_DECAY := 4
  const BASE_FREQ := 5
  const FREQ_LIMIT := 6
  const FREQ_RAMP := 7
  const FREQ_DRAMP := 8
  const VIB_STRENGTH := 9
  const VIB_SPEED := 10
  const VIB_DELAY := 11
  const ARP_MOD := 12
  const ARP_SPEED := 13
  const DUTY := 14
  const DUTY_RAMP := 15
  const REPEAT_SPEED := 16
  const PHA_OFFSET := 17
  const PHA_RAMP := 18
  const FILTER_ON := 19
  const LPF_FREQ := 20
  const LPF_RAMP := 21
  const LPF_RESONANCE := 22
  const HPF_FREQ := 23
  const HPF_RAMP := 24
  const DECIMATE := 25
  const COMPRESS := 26

  /** Number of named parameters and of floats in the block. */
  const NAMED_PARAMS := 27
  const PARAM_FLOATS := 32

  /** The SFXRS_* names, listed at their SFXRI_* index. */
  const ParamNames: seq<string> := [
    "WAVE TYPE", "ATTACK TIME", "SUSTAIN TIME", "SUSTAIN PUNCH", "DECAY TIME",
    "START FREQUENCY", "MIN FREQUENCY", "SLIDE", "DELTA SLIDE",
    "VIBRATO DEPTH", "VIBRATO SPEED", "VIBRATO DELAY",
    "CHANGE AMOUNT", "CHANGE SPEED", "SQUARE DUTY", "DUTY SWEEP", "REPEAT SPEED",
    "PHASER OFFSET", "PHASER SWEEP", "FILTER ON",
    "LP FILTER CUTOFF", "LP FILTER CUTOFF SWEEP", "LP FILTER RESONANCE",
    "HP FILTER CUTOFF", "HP FILTER CUTOFF SWEEP", "DECIMATE", "COMPRESS"]

  // Wave types, SFXR_WAVE_*.
  datatype WaveType = Square | Sawtooth | Sine | Noise | Triangle | Pink | Tan | Breaker | OneBit

  function WaveCode(w: WaveType): (c: int)
    ensures 0 <= c <= 8
  {
    match w
    case Square => 0
    case Sawtooth => 1
    case Sine => 2
    case Noise => 3
    case Triangle => 4
    case Pink => 5
    case Tan => 6
    case Breaker => 7
    case OneBit => 8
  }

  /** The wave a `(int)wave_type` selects; other codes select no wave. */
  function WaveOfCode(c: int): (r: Option<WaveType>)
    ensures r.Some? <==> 0 <= c <= 8
    ensures r.Some? ==> WaveCode(r.value) == c
  {
    if c == 0 then Some(Square)
    else if c == 1 then Some(Sawtooth)
    else if c == 2 then Some(Sine)
    else if c == 3 then Some(Noise)
    else if c == 4 then Some(Triangle)
    else if c == 5 then Some(Pink)
    else if c == 6 then Some(Tan)
    else if c == 7 then Some(Breaker)
    else if c == 8 then Some(OneBit)
    else None
  }

  datatype Option<T> = None | Some(value: T)

  /** The nine wave codes are distinct. */
  lemma WaveCodesDistinct(v: WaveType, w: WaveType)
    ensures WaveCode(v) == WaveCode(w) <==> v == w
  {
    assert WaveOfCode(WaveCode(v)) == Some(v) && WaveOfCode(WaveCode(w)) == Some(w);
  }

  // Mode flags, SFXR_PLAIN_MODE, SFXR_NORMALIZE and SFXR_WORD_MODE.
  const PLAIN_MODE: bv32 := 0
  const NORMALIZE: bv32 := 1
  const WORD_MODE: bv32 := 2

  /** The two mode flags are separate bits, so each can be tested alone. */
  lemma ModeFlagsSeparate(m: bv32)
    ensures NORMALIZE & WORD_MODE == 0
    ensures (m | WORD_MODE) & WORD_MODE != 0 && (m | NORMALIZE) & NORMALIZE != 0
    ensures (m & !WORD_MODE) & WORD_MODE == 0
  {
  }

  /** `Sfxr::ExportFormat`, in declaration order. */
  datatype ExportFormat = WavePcm | WaveFloat | Pcm8 | Pcm16 | Pcm24 | Pcm32 | Float

  /** `Sfxr::Parameters`: 27 named floats and 5 unused ones, 128 bytes. */
  datatype Parameters = Parameters(
    waveType: real, envAttack: real, envSustain: real, envPunch: real, envDecay: real,
    baseFreq: real, freqLimit: real, freqRamp: real, freqDramp: real,
    vibStrength: real, vibSpeed: real, vibDelay: real,
    arpMod: real, arpSpeed: real, duty: real, dutyRamp: real, repeatSpeed: real,
    phaOffset: real, phaRamp: real, filterOn: real,
    lpfFreq: real, lpfRamp: real, lpfResonance: real, hpfFreq: real, hpfRamp: real,
    csDecimate: real, csCompress: real,
    unused0: real, unused1: real, unused2: real, unused3: real, unused4: real)

  /** The default member initialisers: every float is 0. */
  function ZeroParameters(): (p: Parameters)
    ensures forall i :: 0 <= i < PARAM_FLOATS ==> Floats(p)[i] == 0.0
  {
    Parameters(0.0, 0.0, 0.0, 0.0, 0.0, 0.0, 0.0, 0.0, 0.0, 0.0, 0.0, 0.0, 0.0, 0.0, 0.0, 0.0,
               0.0, 0.0, 0.0, 0.0, 0.0, 0.0, 0.0, 0.0, 0.0, 0.0, 0.0, 0.0, 0.0, 0.0, 0.0, 0.0)
  }

  /** The block as the array of 32 floats that `operator[]` indexes. */
  function Floats(p: Parameters): (s: seq<real>)
    ensures |s| == PARAM_FLOATS
  {
    [p.waveType, p.envAttack, p.envSustain, p.envPunch, p.envDecay, p.baseFreq, p.freqLimit, p.freqRamp]
    + [p.freqDramp, p.vibStrength, p.vibSpeed, p.vibDelay, p.arpMod, p.arpSpeed, p.duty, p.dutyRamp]
    + [p.repeatSpeed, p.phaOffset, p.phaRamp, p.filterOn, p.lpfFreq, p.lpfRamp, p.lpfResonance, p.hpfFreq]
    + [p.hpfRamp, p.csDecimate, p.csCompress, p.unused0, p.unused1, p.unused2, p.unused3, p.unused4]
  }

  /** Reading 32 floats back as a parameter block. */
  function OfFloats(s: seq<real>): (p: Parameters)
    requires |s| == PARAM_FLOATS
  {
    Parameters(s[0], s[1], s[2], s[3], s[4], s[5], s[6], s[7], s[8], s[9], s[10], s[11],
               s[12], s[13], s[14], s[15], s[16], s[17], s[18], s[19], s[20], s[21],
               s[22], s[23], s[24], s[25], s[26], s[27], s[28], s[29], s[30], s[31])
  }

  /** The layout and the named fields are the same thing: each SFXRI_
      index is the ordinal of the field of the same name. */
  lemma IndexIsFieldOrdinal(p: Parameters)
    ensures var f := Floats(p);
      && f[WAVE_TYPE] == p.waveType && f[ENV_ATTACK] == p.envAttack
      && f[ENV_SUSTAIN] == p.envSustain && f[ENV_PUNCH] == p.envPunch
      && f[ENV_DECAY] == p.envDecay && f[BASE_FREQ] == p.baseFreq
      && f[FREQ_LIMIT] == p.freqLimit && f[FREQ_RAMP] == p.freqRamp
      && f[FREQ_DRAMP] == p.freqDramp && f[VIB_STRENGTH] == p.vibStrength
      && f[VIB_SPEED] == p.vibSpeed && f[VIB_DELAY] == p.vibDelay
      && f[ARP_MOD] == p.arpMod && f[ARP_SPEED] == p.arpSpeed
      && f[DUTY] == p.duty && f[DUTY_RAMP] == p.dutyRamp
      && f[REPEAT_SPEED] == p.repeatSpeed && f[PHA_OFFSET] == p.phaOffset
      && f[PHA_RAMP] == p.phaRamp && f[FILTER_ON] == p.filterOn
      && f[LPF_FREQ] == p.lpfFreq && f[LPF_RAMP] == p.lpfRamp
      && f[LPF_RESONANCE] == p.lpfResonance && f[HPF_FREQ] == p.hpfFreq
      && f[HPF_RAMP] == p.hpfRamp && f[DECIMATE] == p.csDecimate
      && f[COMPRESS] == p.csCompress
  {
  }

  /** The float view loses nothing, in either direction. */
  lemma FloatsRoundTrip(p: Parameters, s: seq<real>)
    requires |s| == PARAM_FLOATS
    ensures OfFloats(Floats(p)) == p
    ensures Floats(OfFloats(s)) == s
  {
  }

  /** The 27 names are pairwise distinct. */
  lemma ParamNamesDistinct()
    ensures |ParamNames| == NAMED_PARAMS
    ensures forall i, j :: 0 <= i < j < |ParamNames| ==> ParamNames[i] != ParamNames[j]
  {
  }

  /** The seven preset names are pairwise distinct. */
  lemma PresetNamesDistinct()
    ensures |PresetNames| == 7
    ensures forall i, j :: 0 <= i < j < |PresetNames| ==> PresetNames[i] != PresetNames[j]
  {
  }

  /** The first position at or after `from` where `names` holds `name`:
      the chain of string comparisons of the source. */
  function IndexOf(names: seq<string>, name: string, from: nat): (r: Option<nat>)
    requires from <= |names|
    ensures r.Some? ==> from <= r.value < |names| && names[r.value] == name
    ensures r.Some? ==> forall k :: from <= k < r.value ==> names[k] != name
    ensures r.None? <==> forall k :: from <= k < |names| ==> names[k] != name
    decreases |names| - from
  {
    if from == |names| then None
    else if names[from] == name then Some(from)
    else IndexOf(names, name, from + 1)
  }

  /** `Sfxr::getParamIndex`: the index of a parameter name, or the
      exception for an unknown one. */
  function ParamIndex(name: string): (r: Result<nat>)
    ensures r.Ok? ==> r.value < NAMED_PARAMS && ParamNames[r.value] == name
    ensures r.Err? <==> name !in ParamNames
  {
    match IndexOf(ParamNames, name, 0)
    case Some(i) => Ok(i)
    case None => Err("bad name passed to Sfxr::getParamIndex")
  }

  /** Name and index are inverse: every index is found from its own name. */
  lemma ParamIndexOfName(i: nat)
    requires i < NAMED_PARAMS
    ensures ParamIndex(ParamNames[i]) == Ok(i)
  {
    ParamNamesDistinct();
  }

  /** `Sfxr::create(const char*)`: the preset constant of a preset name. */
  function PresetIndex(what: string): (r: Result<nat>)
    ensures r.Ok? ==> r.value < 7 && PresetNames[r.value] == what
    ensures r.Err? <==> what !in PresetNames
  {
    match IndexOf(PresetNames, what, 0)
    case Some(i) => Ok(i)
    case None => Err("invalid argument sent to Sfxr::create(const char*)")
  }

  lemma PresetIndexOfName(i: nat)
    requires i < 7
    ensures PresetIndex(PresetNames[i]) == Ok(i)
  {
    PresetNamesDistinct();
  }

  /** `Sfxr::reset`: the documented defaults. The decimate and compress
      controls and the unused floats are left as they were. */
  function ResetDefaults(p: Parameters): (r: Parameters)
  {
    p.(waveType := 0.0,
       baseFreq := 0.3, freqLimit := 0.0, freqRamp := 0.0, freqDramp := 0.0,
       duty := 0.0, dutyRamp := 0.0,
       vibStrength := 0.0, vibSpeed := 0.0, vibDelay := 0.0,
       envAttack := 0.0, envSustain := 0.3, envDecay := 0.4, envPunch := 0.0,
       filterOn := 0.0, lpfResonance := 0.0, lpfFreq := 1.0, lpfRamp := 0.0,
       hpfFreq := 0.0, hpfRamp := 0.0,
       phaOffset := 0.0, phaRamp := 0.0,
       repeatSpeed := 0.0,
       arpSpeed := 0.0, arpMod := 0.0)
  }

  /** What reset keeps and what it assigns, float by float. */
  /** `q` keeps the floats of `p` that `reset()` and the presets never write:
      `cs_decimate`, `cs_compress` and the five unused floats. */
  predicate KeepsPostProcessing(q: Parameters, p: Parameters)
  {
    && q.csDecimate == p.csDecimate && q.csCompress == p.csCompress
    && q.unused0 == p.unused0 && q.unused1 == p.unused1 && q.unused2 == p.unused2
    && q.unused3 == p.unused3 && q.unused4 == p.unused4
  }

  lemma ResetKeepsPostProcessing(p: Parameters)
    ensures KeepsPostProcessing(ResetDefaults(p), p)
    ensures forall i :: DECIMATE <= i < PARAM_FLOATS ==> Floats(ResetDefaults(p))[i] == Floats(p)[i]
    ensures forall i :: 0 <= i < DECIMATE ==> Floats(ResetDefaults(p))[i] == Floats(ResetDefaults(ZeroParameters()))[i]
    ensures ResetDefaults(ResetDefaults(p)) == ResetDefaults(p)
  {
  }

  /** The one float lockWordParams writes in place of `x`: the value is cast
      to int before it is scaled, `trunc((int)x * 32000)`. */
  function WordLocked(x: real): (r: real)
  {
    (Trunc(x) * 32000) as real
  }

  /** `Sfxr::lockWordParams`: every one of the 32 floats is replaced. */
  function LockWordParams(p: Parameters): (r: Parameters)
    ensures forall i :: 0 <= i < PARAM_FLOATS ==> Floats(r)[i] == WordLocked(Floats(p)[i])
  {
    var locked := AllLocked(Floats(p));
    FloatsRoundTrip(p, locked);
    OfFloats(locked)
  }

  /** `WordLocked` applied to every value. */
  function AllLocked(s: seq<real>): (r: seq<real>)
    ensures |r| == |s| && forall i :: 0 <= i < |s| ==> r[i] == WordLocked(s[i])
  {
    seq(|s|, i requires 0 <= i < |s| => WordLocked(s[i]))
  }

  /** Because the cast comes first, every locked value is a whole multiple
      of 32000: a normalized parameter in (-1, 1) becomes 0. */
  lemma WordLockedMultiple(x: real)
    ensures exists k: int :: WordLocked(x) == (k * 32000) as real
    ensures -1.0 < x < 1.0 ==> WordLocked(x) == 0.0
  {
    assert WordLocked(x) == (Trunc(x) * 32000) as real;
  }

  // `#pragma pack(2)` header layouts, as the widths of their fields.

  /** "RIFF", size, "WAVE", "fmt ", chunk size. */
  const HeaderLead: seq<nat> := [4, 4, 4, 4, 4]
  /** The PCM fmt body: format tag, channels, sample rate, byte rate,
      block align, bits per sample. */
  const PcmFmtBody: seq<nat> := [2, 2, 4, 4, 2, 2]
  /** The float fmt body adds the 2-byte extension size. */
  const FloatFmtBody: seq<nat> := PcmFmtBody + [2]
  /** "data", data size. */
  const DataLead: seq<nat> := [4, 4]

  /** The chunk_size fields of the two headers. */
  const PCM_CHUNK_SIZE := 16
  const FLOAT_CHUNK_SIZE := 18

  /** sizeof(WaveFileHeader) and sizeof(WaveFloatFileHeader). */
  const WAVE_HEADER_BYTES := 44
  const WAVE_FLOAT_HEADER_BYTES := 46

  /** Under 2-byte packing a struct of even-width fields has no padding, so
      its size is the sum of its field widths. */
  function PackedSize(fields: seq<nat>): nat
  {
    if fields == [] then 0 else fields[0] + PackedSize(fields[1..])
  }

  lemma {:induction false} PackedSizeAppend(a: seq<nat>, b: seq<nat>)
    ensures PackedSize(a + b) == PackedSize(a) + PackedSize(b)
  {
    if a == [] {
      assert a + b == b;
    } else {
      assert (a + b)[1..] == a[1..] + b;
      PackedSizeAppend(a[1..], b);
    }
  }

  /** The stated chunk sizes are the sizes of the fmt bodies, and the two
      headers are 44 and 46 bytes. */
  lemma HeaderSizes()
    ensures PackedSize(PcmFmtBody) == PCM_CHUNK_SIZE
    ensures PackedSize(FloatFmtBody) == FLOAT_CHUNK_SIZE
    ensures PackedSize(HeaderLead + PcmFmtBody + DataLead) == WAVE_HEADER_BYTES
    ensures PackedSize(HeaderLead + FloatFmtBody + DataLead) == WAVE_FLOAT_HEADER_BYTES
  {
    PackedSizeAppend(PcmFmtBody, [2]);
    PackedSizeAppend(HeaderLead, PcmFmtBody);
    PackedSizeAppend(HeaderLead + PcmFmtBody, DataLead);
    PackedSizeAppend(HeaderLead, FloatFmtBody);
    PackedSizeAppend(HeaderLead + FloatFmtBody, DataLead);
  }
}
