/** `Sfxr`: the public sound object of cppSfxr. It owns a parameter block and
    a render core, validates the output format, sizes the exports and drives
    the render loop. */
module SfxrSound {
  import opened Common
  import opened SfxrHeader
  import opened Generators
  import opened FloatBuffer
  import opened SynthCore

  const U32_MODULUS := 0x1_0000_0000

  /** An `unsigned int` read as an `int`: values from 2^31 up wrap to
      negative. */
  function AsInt32(u: nat): (i: int)
    requires u < U32_MODULUS
    ensures -0x8000_0000 <= i < 0x8000_0000
    ensures i % U32_MODULUS == u
  {
    if u < 0x8000_0000 then u else u - U32_MODULUS
  }

  /** An `int` (or a wider unsigned value) stored into an `unsigned int`. */
  function U32(x: int): (u: nat)
    ensures u < U32_MODULUS
    ensures 0 <= x < U32_MODULUS ==> u == x
  {
    x % U32_MODULUS
  }

  /** `x / 8` on a C `int`, which rounds toward zero. */
  function Eighth(x: int): (q: int)
    ensures 0 <= x ==> 0 <= q && 8 * q <= x < 8 * q + 8
    ensures x < 0 ==> q <= 0 && 8 * q - 8 < x <= 8 * q
  {
    if 0 <= x then x / 8 else -((-x) / 8)
  }

  // ---------------------------------------------------------------------
  // `setPCM`

  /** The messages `setPCM` throws with. */
  const RATE_FIXED := "cannot change sample_rate when SFXR_DISALLOW_SAMPLERATE is set in Sfxr::setPCM()"
  const DEPTH_NOT_BYTES := "bit depth must align with 8-bit bytes in Sfxr::setPCM()"
  const DEPTH_TOO_WIDE := "bit depth must be 8, 16, 24, or 32 only in Sfxr::setPCM()"

  /** Whether `setPCM` throws, and with which message: a sample rate other
      than 0 (keep) or 44100, a depth that is not whole bytes, a depth above
      32 bits. */
  function PcmCheck(sampleRate: nat, bitDepth: nat): (r: Outcome)
    ensures r.Pass? <==> (sampleRate == 0 || sampleRate == 44100) && bitDepth % 8 == 0 && bitDepth <= 32
  {
    if sampleRate != 0 && sampleRate != 44100 then
      Fail(RATE_FIXED)
    else if bitDepth % 8 > 0 then Fail(DEPTH_NOT_BYTES)
    else if bitDepth > 32 then Fail(DEPTH_TOO_WIDE)
    else Pass
  }

  /** The format `setPCM` selects for a sample width in bytes; width 0 (a
      depth of 0) matches no case of the switch and keeps the format. */
  function PcmFormat(bytes: nat, current: ExportFormat): (f: ExportFormat)
  {
    if bytes == 1 then Pcm8
    else if bytes == 2 then Pcm16
    else if bytes == 3 then Pcm24
    else if bytes == 4 then Pcm32
    else current
  }

  // ---------------------------------------------------------------------
  // `size(ExportFormat)`

  /** Bytes per sample of an export; the WAVE PCM export follows `wav_bits`. */
  function SampleSize(f: ExportFormat, wavBits: int): (n: nat)
    ensures n < U32_MODULUS
  {
    match f
    case WavePcm => U32(Eighth(wavBits))
    case WaveFloat => 4
    case Pcm8 => 1
    case Pcm16 => 2
    case Pcm24 => 3
    case Pcm32 => 4
    case Float => 4
  }

  /** The packed header in front of the samples: the two WAVE exports only. */
  function HeaderSize(f: ExportFormat): (n: nat)
  {
    match f
    case WavePcm => WAVE_HEADER_BYTES
    case WaveFloat => WAVE_FLOAT_HEADER_BYTES
    case _ => 0
  }

  /** `size(f)` for `n` buffered samples, in `unsigned int` arithmetic. */
  function ExportSize(f: ExportFormat, wavBits: int, n: nat): (r: nat)
    ensures r < U32_MODULUS
  {
    U32(SampleSize(f, wavBits) * U32(n) + HeaderSize(f))
  }

  /** The width in bytes of each format `setPCM` can select is the width
      `size()` charges for it. */
  lemma PcmFormatWidth(bitDepth: nat, current: ExportFormat)
    requires 8 <= bitDepth <= 32 && bitDepth % 8 == 0
    ensures SampleSize(PcmFormat(bitDepth / 8, current), bitDepth) == bitDepth / 8
    ensures SampleSize(WavePcm, bitDepth) == bitDepth / 8
  {
  }

  /** While it fits in 32 bits, `size()` is exactly the number of bytes the
      matching writer emits: the raw PCM writers (`writeStream32` as
      intended), the float writer, and the two WAVE layouts with their 44-
      and 46-byte headers. */
  lemma ExportSizeMatchesStreams(s: seq<real>, wavBits: int)
    requires 4 * |s| + WAVE_FLOAT_HEADER_BYTES < U32_MODULUS
    ensures ExportSize(Pcm8, wavBits, |s|) == |Encoded(Bits8, s)|
    ensures ExportSize(Pcm16, wavBits, |s|) == |Encoded(Bits16, s)|
    ensures ExportSize(Pcm24, wavBits, |s|) == |Encoded(Bits24, s)|
    ensures ExportSize(Pcm32, wavBits, |s|) == |Encoded(Bits32, s)|
    ensures ExportSize(Float, wavBits, |s|) == 4 * |s|
    ensures ExportSize(WaveFloat, wavBits, |s|) == 4 * |s| + WAVE_FLOAT_HEADER_BYTES
    ensures wavBits in {8, 16, 24, 32} ==>
      ExportSize(WavePcm, wavBits, |s|) == wavBits / 8 * |s| + WAVE_HEADER_BYTES
  {
    EncodedLength(Bits8, s);
    EncodedLength(Bits16, s);
    EncodedLength(Bits24, s);
    EncodedLength(Bits32, s);
  }

  // ---------------------------------------------------------------------
  // `operator[]`

  /** The block with float `i` replaced by `v`: a write through the float
      pointer `operator[]` returns. */
  function WithFloat(p: Parameters, i: nat, v: real): (r: Parameters)
    requires i < PARAM_FLOATS
  {
    var s := Floats(p)[i := v];
    FloatsRoundTrip(p, s);
    OfFloats(s)
  }

  /** A write through `operator[]` changes the float it addresses and no
      other. */
  lemma WithFloatReads(p: Parameters, i: nat, v: real, j: nat)
    requires i < PARAM_FLOATS && j < PARAM_FLOATS
    ensures Floats(WithFloat(p, i, v))[j] == if j == i then v else Floats(p)[j]
  {
    FloatsRoundTrip(p, Floats(p)[i := v]);
  }

  // ---------------------------------------------------------------------
  // The sound object

  /** `Sfxr`. The output-format and dirty-flag state is held here; `wav_bits`
      lives in the core, as in the source. */
  class Sfxr {
    const core: Core
    var params: Parameters
    var created: bool
    var rebuild: bool
    var fromWhat: int
    var totalSamples: nat
    var sampleBytes: nat
    var format: ExportFormat
    var mode: bv32

    ghost predicate Valid()
      reads core`env, core`playing, core`phaser, core.buffer, core.pn, core.pn.whiteValues
    {
      core.Valid()
    }

    /** The default member values, `reset()` and a new core: the state in
        which the constructor calls `setPCM`. */
    constructor Init()
      ensures Valid() && fresh(core) && fresh(core.buffer) && fresh(core.pn) && fresh(core.rxs)
      ensures params == ResetDefaults(ZeroParameters())
      ensures !created && !rebuild && fromWhat == 0 && totalSamples == 0 && sampleBytes == 2
      ensures format == Float && mode == PLAIN_MODE
      ensures core.wavBits == 16 && core.buffer.Contents() == [] && !core.playing
    {
      params := ResetDefaults(ZeroParameters());
      created, rebuild := false, false;
      fromWhat, totalSamples, sampleBytes := 0, 0, 2;
      format, mode := Float, PLAIN_MODE;
      core := new Core();
    }

    /** `Sfxr(sample_rate, bit_depth)`: the object is built, then `setPCM`
        runs; when it throws, the object is lost to the caller. */
    static method New(sampleRate: nat, bitDepth: nat) returns (s: Sfxr, r: Outcome)
      requires sampleRate < U32_MODULUS && bitDepth < U32_MODULUS
      ensures fresh(s) && fresh(s.core) && fresh(s.core.buffer) && fresh(s.core.pn) && fresh(s.core.rxs)
      ensures s.Valid() && !s.created && !s.rebuild && s.core.buffer.Contents() == []
      ensures r == PcmCheck(sampleRate, bitDepth)
      ensures r.Pass? ==> s.sampleBytes == bitDepth / 8 && s.format == PcmFormat(bitDepth / 8, Float)
    {
      s := new Sfxr.Init();
      r := s.SetPcm(sampleRate, bitDepth);
    }

    /** `setPCM`: the sample rate must be 0 (keep) or 44100; `wav_bits` is
        overwritten before the depth is checked, so a refused depth still
        changes it. A depth of 0 passes and sets zero-byte samples. */
    method SetPcm(sampleRate: nat, bitDepth: nat) returns (r: Outcome)
      requires sampleRate < U32_MODULUS && bitDepth < U32_MODULUS
      modifies this`sampleBytes, this`format, core`wavBits
      ensures r == PcmCheck(sampleRate, bitDepth)
      ensures sampleRate == 0 || sampleRate == 44100 ==> core.wavBits == AsInt32(bitDepth)
      ensures sampleRate != 0 && sampleRate != 44100 ==> core.wavBits == old(core.wavBits)
      ensures r.Pass? ==> sampleBytes == bitDepth / 8 && format == PcmFormat(bitDepth / 8, old(format))
      ensures r.Fail? ==> sampleBytes == old(sampleBytes) && format == old(format)
    {
      if sampleRate != 0 && sampleRate != 44100 {
        return Fail(RATE_FIXED);
      }
      core.wavBits := AsInt32(bitDepth);
      if bitDepth % 8 > 0 {
        return Fail(DEPTH_NOT_BYTES);
      }
      if bitDepth > 32 {
        return Fail(DEPTH_TOO_WIDE);
      }
      sampleBytes := core.wavBits / 8;
      format := PcmFormat(sampleBytes, format);
      r := Pass;
    }

    /** `setFloat`: float output, with `wav_bits` 32 and four bytes a sample. */
    method SetFloat()
      modifies this`format, this`sampleBytes, core`wavBits
      ensures format == Float && sampleBytes == 4 && core.wavBits == 32
    {
      format := Float;
      core.wavBits := 32;
      sampleBytes := 4;
    }

    method SetMode(m: bv32)
      modifies this`mode
      ensures mode == m
    {
      mode := m;
    }

    /** `seed(unsigned long long)`: reseeds the core's PCG generator. */
    method Seed(s: bv64)
      modifies core`rt
      ensures core.rt == SeededCorePcg(s)
    {
      core.Seed(s);
    }

    /** `seed(const char*)` for the strings on which it returns: fewer than
        four bytes throw, exactly four reseed. `s` is the bytes of the C
        string before its terminator. */
    method SeedText(s: seq<bv8>) returns (r: Outcome)
      requires |s| <= 4 && forall i :: 0 <= i < |s| ==> s[i] != 0
      modifies core`rt
      ensures |s| < 4 <==> r.Fail?
      ensures r.Pass? ==> core.rt == TextSeed(s).rt
      ensures r.Fail? ==> core.rt == old(core.rt)
    {
      match TextSeed(s)
      case Refused(msg) => r := Fail(msg);
      case Seeded(g) => core.rt := g; r := Pass;
    }

    /** `size(f)`: the bytes an export of the buffer takes. */
    function Size(f: ExportFormat): (n: nat)
      reads core`wavBits, core.buffer
      ensures n == ExportSize(f, core.wavBits, core.buffer.Size())
    {
      U32(SampleSize(f, core.wavBits) * U32(core.buffer.Size()) + HeaderSize(f))
    }

    /** `operator[](unsigned int)` read: float `i` of the block. */
    function Get(i: nat): (r: Result<real>)
      reads this`params
      ensures r.Ok? <==> i < PARAM_FLOATS
      ensures r.Ok? ==> r.value == Floats(params)[i]
    {
      if i > 31 then Err("invalid index into Sfxr[]") else Ok(Floats(params)[i])
    }

    /** `operator[](unsigned int)` write. It does not mark the sound for
        rebuilding. */
    method Set(i: nat, v: real) returns (r: Outcome)
      modifies this`params
      ensures r.Pass? <==> i < PARAM_FLOATS
      ensures r.Pass? ==> params == WithFloat(old(params), i, v)
      ensures r.Fail? ==> params == old(params)
    {
      if i > 31 {
        return Fail("invalid index into Sfxr[]");
      }
      params := WithFloat(params, i, v);
      r := Pass;
    }

    /** `operator[](const char*)` read: an unknown name throws from
        `getParamIndex`. */
    function GetNamed(name: string): (r: Result<real>)
      reads this`params
      ensures r.Ok? <==> name in ParamNames
      ensures r.Ok? ==> exists i :: 0 <= i < NAMED_PARAMS && ParamNames[i] == name && r.value == Floats(params)[i]
    {
      match ParamIndex(name)
      case Err(msg) => Err(msg)
      case Ok(i) => Get(i)
    }

    /** `operator[](const char*)` write. */
    method SetNamed(name: string, v: real) returns (r: Outcome)
      modifies this`params
      ensures r.Pass? <==> name in ParamNames
      ensures r.Pass? ==> ParamIndex(name).Ok? && params == WithFloat(old(params), ParamIndex(name).value, v)
      ensures r.Fail? ==> params == old(params)
    {
      match ParamIndex(name)
      case Err(msg) => r := Fail(msg);
      case Ok(i) => r := Set(i, v);
    }

    /** `setParameters`: a new block, and both dirty flags set. */
    method SetParameters(p: Parameters)
      modifies this`params, this`created, this`rebuild
      ensures params == p && created && rebuild
    {
      created, rebuild := true, true;
      params := p;
    }

    /** `reset()`: the documented defaults. */
    method Reset()
      modifies this`params
      ensures params == ResetDefaults(old(params))
    {
      params := ResetDefaults(params);
    }

    /** `create()`: lock the block to word values in word mode, reset the
        core, clear the buffer and render until the sound stops. Every
        sample is in [-1, 1]; the envelope bounds the count, and without a
        frequency limit to stop it early the count is exactly the three
        stage lengths plus 3. */
    method Create(lib: Libm)
      requires Valid()
      modifies this`params, this`totalSamples, this`sampleBytes, this`created, this`rebuild,
        core, core.phaserBuffer, core.noiseBuffer, core.pinkNoiseBuffer, core.rxs,
        core.pn, core.pn.whiteValues, core.pn.rxs, core.buffer, core.buffer.block
      ensures Valid() && created && !rebuild && !core.playing
      ensures sampleBytes == U32(Eighth(old(core.wavBits)))
      ensures params == if mode & WORD_MODE != 0 then LockWordParams(old(params)) else old(params)
      ensures totalSamples == core.buffer.Size() && Clipped(core.buffer.Contents())
      ensures var l := EnvLengths(params);
        && |core.buffer.Contents()| <= l[0] + l[1] + l[2] + 3
        && (params.freqLimit <= 0.0 ==> |core.buffer.Contents()| == l[0] + l[1] + l[2] + 3)
      ensures core.wavBits == old(core.wavBits) && core.rt == old(core.rt)
      ensures core.masterVol == old(core.masterVol) && core.soundVol == old(core.soundVol)
    {
      Prepare();
      core.Render(params, lib);
      totalSamples := core.buffer.Size();
      created, rebuild := true, false;
    }

    /** The bookkeeping `create()` does before rendering: the sample width
        from `wav_bits`, and the word-mode lock of the block. */
    method Prepare()
      modifies this`params, this`totalSamples, this`sampleBytes
      ensures totalSamples == 0 && sampleBytes == U32(Eighth(core.wavBits))
      ensures params == if mode & WORD_MODE != 0 then LockWordParams(old(params)) else old(params)
    {
      totalSamples := 0;
      sampleBytes := U32(Eighth(core.wavBits));
      if mode & WORD_MODE != 0 {
        params := LockWordParams(params);
      }
    }

    /** `create(int)`: `reset()`, then the preset's random choices, then
        `create()`. The block those random choices produce is `chosen`, and
        they take `draws` steps of the core PCG. `reset()` and the presets
        never write the post-processing floats, so `chosen` keeps them. */
    method CreatePreset(chosen: Parameters, draws: nat, lib: Libm)
      requires Valid() && 0 < draws && KeepsPostProcessing(chosen, params)
      modifies this`params, this`totalSamples, this`sampleBytes, this`created, this`rebuild,
        core, core.phaserBuffer, core.noiseBuffer, core.pinkNoiseBuffer, core.rxs,
        core.pn, core.pn.whiteValues, core.pn.rxs, core.buffer, core.buffer.block
      ensures Valid() && created && !rebuild && totalSamples == core.buffer.Size()
      ensures params == if mode & WORD_MODE != 0 then LockWordParams(chosen) else chosen
      ensures core.rt == PcgIter(old(core.rt), draws)
      ensures Clipped(core.buffer.Contents())
      ensures var l := EnvLengths(params);
        && |core.buffer.Contents()| <= l[0] + l[1] + l[2] + 3
        && (params.freqLimit <= 0.0 ==> |core.buffer.Contents()| == l[0] + l[1] + l[2] + 3)
      ensures core.wavBits == old(core.wavBits)
      ensures core.masterVol == old(core.masterVol) && core.soundVol == old(core.soundVol)
    {
      core.rt := PcgIter(core.rt, draws);
      params := chosen;
      Create(lib);
    }

    /** `create(const char*)`: a preset name selects its preset; any other
        string throws before anything changes. */
    method CreateNamed(what: string, chosen: Parameters, draws: nat, lib: Libm) returns (r: Outcome)
      requires Valid() && 0 < draws && KeepsPostProcessing(chosen, params)
      modifies this`params, this`totalSamples, this`sampleBytes, this`created, this`rebuild,
        core, core.phaserBuffer, core.noiseBuffer, core.pinkNoiseBuffer, core.rxs,
        core.pn, core.pn.whiteValues, core.pn.rxs, core.buffer, core.buffer.block
      ensures Valid()
      ensures r.Pass? <==> what in PresetNames
      ensures r.Pass? ==> created && !rebuild && totalSamples == core.buffer.Size()
      ensures r.Pass? ==> params == if mode & WORD_MODE != 0 then LockWordParams(chosen) else chosen
      ensures r.Pass? ==> core.rt == PcgIter(old(core.rt), draws)
      ensures r.Fail? ==> core.rt == old(core.rt)
      ensures core.wavBits == old(core.wavBits)
      ensures core.masterVol == old(core.masterVol) && core.soundVol == old(core.soundVol)
      ensures r.Fail? ==> created == old(created) && rebuild == old(rebuild) && params == old(params)
    {
      match PresetIndex(what)
      case Err(msg) =>
        r := Fail(msg);
      case Ok(_) =>
        CreatePreset(chosen, draws, lib);
        r := Pass;
    }

    /** `assertSynthed`: a sound never created is created from preset
        `fromWhat` (whose random block is `chosen`); one whose parameters
        changed is rendered again; otherwise nothing happens. */
    method AssertSynthed(chosen: Parameters, draws: nat, lib: Libm)
      requires Valid() && 0 < draws && KeepsPostProcessing(chosen, params)
      modifies this`params, this`totalSamples, this`sampleBytes, this`created, this`rebuild,
        core, core.phaserBuffer, core.noiseBuffer, core.pinkNoiseBuffer, core.rxs,
        core.pn, core.pn.whiteValues, core.pn.rxs, core.buffer, core.buffer.block
      ensures Valid() && created && !rebuild
      ensures old(created) && !old(rebuild) ==>
        params == old(params) && totalSamples == old(totalSamples) && core.buffer.Contents() == old(core.buffer.Contents())
      ensures !(old(created) && !old(rebuild)) ==> totalSamples == core.buffer.Size()
      ensures !old(created) ==> params == if mode & WORD_MODE != 0 then LockWordParams(chosen) else chosen
      ensures !old(created) ==> core.rt == PcgIter(old(core.rt), draws)
      ensures old(created) ==> core.rt == old(core.rt)
      ensures old(created) && old(rebuild) ==>
        params == if mode & WORD_MODE != 0 then LockWordParams(old(params)) else old(params)
      ensures !(old(created) && !old(rebuild)) ==> Clipped(core.buffer.Contents())
      ensures !(old(created) && !old(rebuild)) ==> var l := EnvLengths(params);
        && |core.buffer.Contents()| <= l[0] + l[1] + l[2] + 3
        && (params.freqLimit <= 0.0 ==> |core.buffer.Contents()| == l[0] + l[1] + l[2] + 3)
      ensures core.wavBits == old(core.wavBits)
      ensures core.masterVol == old(core.masterVol) && core.soundVol == old(core.soundVol)
    {
      if !created {
        CreatePreset(chosen, draws, lib);
      } else if rebuild {
        Create(lib);
      }
    }
  }
}
