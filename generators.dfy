/** The integer generators of the synthesiser: the xorshift* generator that
    fills the noise banks, the PCG32 generator behind the preset and
    mutation draws, the Voss-McCartney pink-noise source and the 15-bit
    one-bit-noise shift register. */
module Generators {
  import opened Common

  // ---------------------------------------------------------------------
  // xorshift* (`RandXS`)

  /** The constant every seed is mixed with. */
  const XS_SEED_MIX: bv64 := 0xA011_0B01_C977_4200
  /** The state of a generator seeded with 0, as every `RandXS` starts. */
  const ZERO_SEEDED: bv64 := 0 ^ XS_SEED_MIX
  /** The output multiplier of xorshift*. */
  const XS_MULTIPLIER: bv64 := 0x2545_F491_4F6C_DD1D

  // The three shift-xor steps of `rand`.
  function ShiftXor12(x: bv64): bv64 { x ^ (x >> 12) }
  function ShiftXor25(x: bv64): bv64 { x ^ (x << 25) }
  function ShiftXor27(x: bv64): bv64 { x ^ (x >> 27) }

  /** `x ^= x >> 12; x ^= x << 25; x ^= x >> 27`. */
  function XorShift(x: bv64): bv64
  {
    ShiftXor27(ShiftXor25(ShiftXor12(x)))
  }

  /** The scrambled 64-bit output of `rand` for the new state. */
  function Scramble(x: bv64): bv64
  {
    x * XS_MULTIPLIER
  }

  /** The low 32 bits of a 64-bit word. */
  function Low32(x: bv64): bv32
  {
    (x & 0xFFFF_FFFF) as bv32
  }

  /** `RandXS`: a 64-bit xorshift* generator with state `a`. */
  class RandXS {
    var a: bv64

    constructor(seed: bv64)
      ensures a == seed ^ XS_SEED_MIX
    {
      a := seed ^ XS_SEED_MIX;
    }

    method Seed(s: bv64)
      modifies this
      ensures a == s ^ XS_SEED_MIX
    {
      a := s ^ XS_SEED_MIX;
    }

    /** `rand`: advance the state, return its scrambled value. */
    method Rand() returns (r: bv64)
      modifies this
      ensures a == XorShift(old(a))
      ensures r == Scramble(a)
    {
      a := XorShift(a);
      r := Scramble(a);
    }

    /** `rand32`: the same step; the result is the low half of what `rand`
        would have returned. */
    method Rand32() returns (r: bv32)
      modifies this
      ensures a == XorShift(old(a))
      ensures r == Low32(Scramble(a))
    {
      a := XorShift(a);
      r := Low32(Scramble(a));
    }

    /** `randf`: a draw scaled into [0, 1]. */
    method RandF() returns (f: real)
      modifies this
      ensures a == XorShift(old(a))
      ensures f == UnitOf(Low32(Scramble(a)))
      ensures 0.0 <= f <= 1.0
    {
      var r := Rand32();
      f := UnitOf(r);
    }
  }

  /** `(float)x / (float)0xFFFFFFFF`, exactly. */
  function UnitOf(x: bv32): (f: real)
    ensures 0.0 <= f <= 1.0
    ensures f == 0.0 <==> x == 0
    ensures f == 1.0 <==> x == 0xFFFF_FFFF
  {
    (x as int) as real / 4294967295.0
  }

  /** A noise-bank entry, `randf() * 2 - 1`, lies in [-1, 1]. */
  function NoiseOf(x: bv32): (v: real)
    ensures -1.0 <= v <= 1.0
    ensures v == -1.0 <==> x == 0
  {
    UnitOf(x) * 2.0 - 1.0
  }

  /** The state after `n` steps. */
  function XorShiftN(x: bv64, n: nat): bv64
    decreases n
  {
    if n == 0 then x else XorShiftN(XorShift(x), n - 1)
  }

  // ---------------------------------------------------------------------
  // PCG32 (XSH-RR)

  const PCG_MULTIPLIER: bv64 := 6364136223846793005

  datatype Pcg32 = Pcg32(state: bv64, inc: bv64)

  /** The XSH-RR output function of a state: a 32-bit xorshift of the high
      bits, rotated right by the top five bits. */
  function PcgOutput(old_state: bv64): (r: bv32)
  {
    var xorshifted := Low32(((old_state >> 18) ^ old_state) >> 27);
    var rot := Low32(old_state >> 59);
    (xorshifted >> rot) | (xorshifted << ((0 - rot) & 31))
  }

  /** `pcg32_random_r`: the new generator and the output, which is computed
      from the old state. */
  function PcgNext(g: Pcg32): (r: (Pcg32, bv32))
    ensures r.0.inc == g.inc
    ensures r.0.state == g.state * PCG_MULTIPLIER + (g.inc | 1)
    ensures r.1 == PcgOutput(g.state)
  {
    (Pcg32(g.state * PCG_MULTIPLIER + (g.inc | 1), g.inc), PcgOutput(g.state))
  }

  /** `pcg32_srandom_r`. */
  function PcgSeed(initstate: bv64, initseq: bv64): (g: Pcg32)
    ensures g.inc & 1 == 1
    ensures g.inc == (initseq << 1) | 1
  {
    var g0 := Pcg32(0, (initseq << 1) | 1);
    var g1 := PcgNext(g0).0;
    var g2 := g1.(state := g1.state + initstate);
    PcgNext(g2).0
  }

  /** An odd increment stays odd, so `inc | 1` is `inc` from the seed on. */
  lemma PcgIncOddForever(g: Pcg32, n: nat)
    requires g.inc & 1 == 1
    ensures PcgIter(g, n).inc == g.inc
    ensures PcgIter(g, n).inc | 1 == g.inc
  {
    PcgIterKeepsInc(g, n);
    assert g.inc | 1 == g.inc;
  }

  function PcgIter(g: Pcg32, n: nat): Pcg32
    decreases n
  {
    if n == 0 then g else PcgIter(PcgNext(g).0, n - 1)
  }

  lemma {:induction false} PcgIterKeepsInc(g: Pcg32, n: nat)
    decreases n
    ensures PcgIter(g, n).inc == g.inc
  {
    if n > 0 {
      PcgIterKeepsInc(PcgNext(g).0, n - 1);
    }
  }

  /** The seeds of `SfxrCore`: the fixed one of its constructor and the
      one `seed(s)` derives from a number. */
  const CORE_STATE_SEED: bv64 := 0x6350_5020_5366_7872
  const CORE_SEQ_SEED: bv64 := 0x6D75_7261_6761_6D69

  function DefaultCorePcg(): Pcg32
  {
    PcgSeed(CORE_STATE_SEED ^ 0xABAB_ABAB, CORE_SEQ_SEED ^ 0xBABA_BABA)
  }

  function SeededCorePcg(s: bv64): (g: Pcg32)
    ensures g.inc == ((CORE_SEQ_SEED & s) << 1) | 1
  {
    PcgSeed(CORE_STATE_SEED ^ s, CORE_SEQ_SEED & s)
  }

  // ---------------------------------------------------------------------
  // Pink noise (`PinkNumber`)

  const MAX_KEY: bv8 := 0x1F
  const PINK_BANKS := 5

  /** The key after `k`: counting up through the five key bits, 31 wraps
      to 0. */
  function NextKey(k: bv8): (n: bv8)
    requires k <= MAX_KEY
    ensures n <= MAX_KEY
    ensures n as int == (k as int + 1) % 32
  {
    if k + 1 > MAX_KEY then 0 else k + 1
  }

  /** Whether white value `i` is redrawn when the key steps from `k`: bit
      `i` of `k ^ next`. */
  predicate Redrawn(k: bv8, i: nat)
    requires k <= MAX_KEY && i < PINK_BANKS
  {
    (k ^ NextKey(k)) & (1 << i) != 0
  }

  /** The Voss-McCartney schedule: value `i` is redrawn exactly on the
      calls whose new key is a multiple of 2^i, so once every 2^i calls,
      and value 0 on every call. */
  lemma RedrawSchedule(k: bv8, i: nat)
    requires k <= MAX_KEY && i < PINK_BANKS
    ensures Redrawn(k, i) <==> NextKey(k) % (1 << i) == 0
    ensures Redrawn(k, 0)
  {
  }

  function SumOf(s: seq<nat>): nat
  {
    if s == [] then 0 else SumOf(s[..|s| - 1]) + s[|s| - 1]
  }

  /** The sum of one more value. */
  lemma SumOfSnoc(s: seq<nat>, i: nat)
    requires i < |s|
    ensures SumOf(s[..i + 1]) == SumOf(s[..i]) + s[i]
  {
    assert s[..i + 1][..i] == s[..i];
  }

  /** Values each below `q` sum to at most `|s| * (q - 1)`. */
  lemma {:induction false} SumOfBound(s: seq<nat>, q: nat)
    requires 0 < q
    requires forall j :: 0 <= j < |s| ==> s[j] < q
    ensures SumOf(s) <= |s| * (q - 1)
  {
    if s != [] {
      SumOfBound(s[..|s| - 1], q);
      assert |s| * (q - 1) == (|s| - 1) * (q - 1) + (q - 1);
    }
  }

  /** One draw of a white value: `rand32() % q` from the advanced state. */
  function WhiteDraw(a: bv64, q: nat): (v: nat)
    requires 0 < q
    ensures v < q
  {
    (Low32(Scramble(XorShift(a))) as int) % q
  }

  /** The white values and generator state after refreshing the first `n`
      banks for the key step from `k`: every bank whose key bit flips takes
      the next draw, the others keep their value. */
  function Refresh(vals: seq<nat>, a: bv64, k: bv8, q: nat, n: nat): (r: (seq<nat>, bv64))
    requires k <= MAX_KEY && 0 < q && n <= |vals| == PINK_BANKS
    ensures |r.0| == PINK_BANKS
  {
    if n == 0 then (vals, a)
    else
      var (v, b) := Refresh(vals, a, k, q, n - 1);
      RefreshBank(v, b, k, q, n - 1)
  }

  /** Bank `i`'s turn in the refresh. */
  function RefreshBank(v: seq<nat>, b: bv64, k: bv8, q: nat, i: nat): (r: (seq<nat>, bv64))
    requires k <= MAX_KEY && 0 < q && i < |v| == PINK_BANKS
    ensures |r.0| == PINK_BANKS
  {
    if Redrawn(k, i) then (v[i := WhiteDraw(b, q)], XorShift(b)) else (v, b)
  }

  /** Bank `n`'s turn follows the first `n` banks' turns. */
  lemma RefreshNext(vals: seq<nat>, a: bv64, k: bv8, q: nat, n: nat)
    requires k <= MAX_KEY && 0 < q && n < |vals| == PINK_BANKS
    ensures var r := Refresh(vals, a, k, q, n);
      && Refresh(vals, a, k, q, n + 1).0 == RefreshBank(r.0, r.1, k, q, n).0
      && Refresh(vals, a, k, q, n + 1).1 == RefreshBank(r.0, r.1, k, q, n).1
  {
    assert n + 1 - 1 == n;
  }

  /** Refreshing touches only the banks whose key bit flips, and every
      redrawn value is below `q`. */
  lemma {:induction false} RefreshFrame(vals: seq<nat>, a: bv64, k: bv8, q: nat, n: nat, i: nat)
    requires k <= MAX_KEY && 0 < q && n <= |vals| == PINK_BANKS && i < PINK_BANKS
    ensures n <= i || !Redrawn(k, i) ==> Refresh(vals, a, k, q, n).0[i] == vals[i]
    ensures i < n && Redrawn(k, i) ==> Refresh(vals, a, k, q, n).0[i] < q
  {
    if n > 0 {
      RefreshFrame(vals, a, k, q, n - 1, i);
    }
  }

  function RedrawCount(k: bv8, n: nat): (c: nat)
    requires k <= MAX_KEY && n <= PINK_BANKS
    ensures c <= n
  {
    if n == 0 then 0 else RedrawCount(k, n - 1) + (if Redrawn(k, n - 1) then 1 else 0)
  }

  lemma {:induction false} XorShiftNSnoc(x: bv64, n: nat)
    decreases n
    ensures XorShiftN(x, n + 1) == XorShift(XorShiftN(x, n))
  {
    if n > 0 {
      XorShiftNSnoc(XorShift(x), n - 1);
    }
  }

  /** The generator advances once per redrawn bank. */
  lemma {:induction false} RefreshDraws(vals: seq<nat>, a: bv64, k: bv8, q: nat, n: nat)
    requires k <= MAX_KEY && 0 < q && n <= |vals| == PINK_BANKS
    ensures Refresh(vals, a, k, q, n).1 == XorShiftN(a, RedrawCount(k, n))
  {
    if n > 0 {
      RefreshDraws(vals, a, k, q, n - 1);
      var b := Refresh(vals, a, k, q, n - 1).1;
      if Redrawn(k, n - 1) {
        assert Refresh(vals, a, k, q, n).1 == XorShift(b);
        XorShiftNSnoc(a, RedrawCount(k, n - 1));
      } else {
        assert Refresh(vals, a, k, q, n).1 == b;
      }
    }
  }

  /** Bank `i` of a `PinkNumber` whose generator starts at `seed`: the
      `(i + 1)`-th 32-bit draw, reduced below `range / 5`. The constructor's
      generator starts at `ZERO_SEEDED`. */
  function InitialBank(seed: bv64, range: nat, i: nat): (v: nat)
    requires PINK_BANKS <= range
    ensures v < range / PINK_BANKS
  {
    (Low32(Scramble(XorShiftN(seed, i + 1))) as int) % (range / PINK_BANKS)
  }

  /** One draw of the constructor's loop: bank `i` from the generator's
      `(i + 1)`-th step. */
  method DrawInitialBank(g: RandXS, range: nat, ghost seed: bv64, ghost i: nat) returns (v: nat)
    requires PINK_BANKS <= range && g.a == XorShiftN(seed, i)
    modifies g
    ensures g.a == XorShiftN(seed, i + 1)
    ensures v == InitialBank(seed, range, i)
  {
    var r := g.Rand32();
    XorShiftNSnoc(seed, i);
    v := (r as int) % (range / PINK_BANKS);
  }

  /** The constructor's loop: five draws from `g`. */
  method FillInitialBanks(g: RandXS, range: nat) returns (values: array<nat>)
    requires PINK_BANKS <= range
    modifies g
    ensures fresh(values) && values.Length == PINK_BANKS
    ensures g.a == XorShiftN(old(g.a), PINK_BANKS)
    ensures forall i :: 0 <= i < PINK_BANKS ==> values[i] == InitialBank(old(g.a), range, i)
  {
    ghost var seed := g.a;
    values := new nat[PINK_BANKS];
    var i := 0;
    while i < PINK_BANKS
      invariant 0 <= i <= PINK_BANKS
      invariant g.a == XorShiftN(seed, i)
      invariant forall j :: 0 <= j < i ==> values[j] == InitialBank(seed, range, j)
      modifies values, g
    {
      var v := DrawInitialBank(g, range, seed, i);
      values[i] := v;
      i := i + 1;
    }
  }

  /** `PinkNumber`: five white values refreshed on a binary schedule and
      summed, with its own xorshift* generator. */
  class PinkNumber {
    var key: bv8
    var range: nat
    const whiteValues: array<nat>
    const rxs: RandXS

    ghost predicate Valid()
      reads this, whiteValues
    {
      && key <= MAX_KEY
      && PINK_BANKS <= range < 0x1_0000_0000
      && whiteValues.Length == PINK_BANKS
      && forall i :: 0 <= i < PINK_BANKS ==> whiteValues[i] < range / PINK_BANKS
    }

    /** The five initial draws; `range / 5` must not be zero. */
    constructor(range: nat)
      requires PINK_BANKS <= range < 0x1_0000_0000
      ensures Valid() && fresh(whiteValues) && fresh(rxs)
      ensures key == 0 && this.range == range
      ensures rxs.a == XorShiftN(ZERO_SEEDED, PINK_BANKS)
      ensures forall i :: 0 <= i < PINK_BANKS ==>
        whiteValues[i] == InitialBank(ZERO_SEEDED, range, i)
    {
      this.range := range;
      key := 0;
      var g := new RandXS(0);
      var values := FillInitialBanks(g, range);
      whiteValues := values;
      rxs := g;
    }

    /** `getNextValue`: step the key, redraw the banks whose key bit flipped
        and return the sum, which stays below `range`. */
    method GetNextValue() returns (sum: nat)
      requires Valid()
      modifies this, whiteValues, rxs
      ensures Valid() && range == old(range)
      ensures key == NextKey(old(key))
      ensures whiteValues[..] == Refresh(old(whiteValues[..]), old(rxs.a), old(key), range / PINK_BANKS, PINK_BANKS).0
      ensures rxs.a == Refresh(old(whiteValues[..]), old(rxs.a), old(key), range / PINK_BANKS, PINK_BANKS).1
      ensures sum == SumOf(whiteValues[..]) && sum < range
    {
      ghost var w0, a0 := whiteValues[..], rxs.a;
      var lastKey := key;
      key := key + 1;
      if key > MAX_KEY {
        key := 0;
      }
      assert key == NextKey(lastKey);
      var q := range / PINK_BANKS;
      sum := RefreshBanks(lastKey, q);
      forall j | 0 <= j < PINK_BANKS
        ensures whiteValues[j] < q
      {
        RefreshFrame(w0, a0, lastKey, q, PINK_BANKS, j);
      }
      SumOfBound(whiteValues[..], q);
    }

    /** The refresh loop of `getNextValue` for the key step from `k`: each
        bank in turn, adding up the values as it goes. */
    method RefreshBanks(k: bv8, q: nat) returns (sum: nat)
      requires k <= MAX_KEY && 0 < q && whiteValues.Length == PINK_BANKS
      modifies whiteValues, rxs
      ensures whiteValues[..] == Refresh(old(whiteValues[..]), old(rxs.a), k, q, PINK_BANKS).0
      ensures rxs.a == Refresh(old(whiteValues[..]), old(rxs.a), k, q, PINK_BANKS).1
      ensures sum == SumOf(whiteValues[..])
    {
      ghost var w0, a0 := whiteValues[..], rxs.a;
      sum := 0;
      var i := 0;
      while i < PINK_BANKS
        invariant 0 <= i <= PINK_BANKS
        invariant whiteValues[..] == Refresh(w0, a0, k, q, i).0 && rxs.a == Refresh(w0, a0, k, q, i).1
        invariant sum == SumOf(whiteValues[..i])
      {
        RefreshNext(w0, a0, k, q, i);
        RedrawBank(k, i, q);
        SumOfSnoc(whiteValues[..], i);
        sum := sum + whiteValues[i];
        i := i + 1;
      }
      assert whiteValues[..] == whiteValues[..PINK_BANKS];
    }

    /** The body of the refresh loop for bank `i`: the bank is redrawn when
        its key bit flipped; no other bank changes. */
    method RedrawBank(k: bv8, i: nat, q: nat)
      requires k <= MAX_KEY && 0 < q && i < PINK_BANKS == whiteValues.Length
      modifies whiteValues, rxs
      ensures whiteValues[..] == RefreshBank(old(whiteValues[..]), old(rxs.a), k, q, i).0
      ensures rxs.a == RefreshBank(old(whiteValues[..]), old(rxs.a), k, q, i).1
    {
      if Redrawn(k, i) {
        var r := rxs.Rand32();
        whiteValues[i] := (r as int) % q;
      }
    }

    /** `getNextFloat`: the sum as a fraction of `range`. */
    method GetNextFloat() returns (f: real)
      requires Valid()
      modifies this, whiteValues, rxs
      ensures Valid() && range == old(range)
      ensures key == NextKey(old(key))
      ensures whiteValues[..] == Refresh(old(whiteValues[..]), old(rxs.a), old(key), range / PINK_BANKS, PINK_BANKS).0
      ensures rxs.a == Refresh(old(whiteValues[..]), old(rxs.a), old(key), range / PINK_BANKS, PINK_BANKS).1
      ensures f == SumOf(whiteValues[..]) as real / range as real
      ensures 0.0 <= f < 1.0
    {
      var v := GetNextValue();
      f := v as real / range as real;
      FractionBelowOne(v as real, range as real);
    }
  }

  lemma FractionBelowOne(a: real, b: real)
    requires 0.0 <= a < b
    ensures 0.0 <= a / b < 1.0
  {
    assert a / b * b == a;
  }

  /** The pink bank entry `getNextFloat() * 2 - 1` lies in [-1, 1). */
  lemma PinkEntryRange(f: real)
    requires 0.0 <= f < 1.0
    ensures -1.0 <= f * 2.0 - 1.0 < 1.0
  {
  }

  // ---------------------------------------------------------------------
  // One-bit noise

  /** The seed `1 << 14` that a full reset loads. */
  const LFSR_SEED: bv32 := 0x4000

  /** One step of the 15-bit shift register: the xor of the two low bits is
      fed in at bit 14. */
  function LfsrStep(s: bv32): bv32
  {
    var feed := ((s >> 1) & 1) ^ (s & 1);
    (s >> 1) | (feed << 14)
  }

  /** A non-zero 15-bit state stays non-zero and within 15 bits. */
  lemma LfsrStaysInRange(s: bv32)
    requires 0 < s < 0x8000
    ensures 0 < LfsrStep(s) < 0x8000
  {
  }

  function LfsrIter(s: bv32, n: nat): bv32
    decreases n
  {
    if n == 0 then s else LfsrIter(LfsrStep(s), n - 1)
  }

  /** From the seed, every state the register ever reaches is in [1, 2^15). */
  lemma {:induction false} LfsrReachable(s: bv32, n: nat)
    decreases n
    requires 0 < s < 0x8000
    ensures 0 < LfsrIter(s, n) < 0x8000
  {
    if n > 0 {
      LfsrStaysInRange(s);
      LfsrReachable(LfsrStep(s), n - 1);
    }
  }

  /** `one_bit_noise = double(~state & 1) - 0.5`: +0.5 when the low bit is
      clear, -0.5 when it is set. */
  function OneBitNoise(s: bv32): (v: real)
    ensures v == 0.5 <==> s & 1 == 0
    ensures v == -0.5 <==> s & 1 == 1
  {
    ((!s & 1) as int) as real - 0.5
  }
}
