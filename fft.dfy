/** The FFT and window helpers of libSfxr: the bit-reversal permutation, the
    butterfly stages of the radix-2 transform, and the Hann window. Sample
    values are reals and `cos`/`sin` are opaque; what is modelled is which
    slot receives which value. */
module Fft {
  import opened Common

  // ---------------------------------------------------------------------
  // Bits

  /** The low `n` bits of `x`, least significant first. */
  function Bits(x: nat, n: nat): (b: seq<bool>)
    ensures |b| == n
  {
    if n == 0 then [] else [x % 2 == 1] + Bits(x / 2, n - 1)
  }

  /** The number a little-endian bit string denotes; it fits in its width. */
  function Value(b: seq<bool>): (v: nat)
    ensures v < Pow2(|b|)
  {
    if b == [] then 0 else (if b[0] then 1 else 0) + 2 * Value(b[1..])
  }

  function Reverse<T>(s: seq<T>): seq<T>
  {
    seq(|s|, i requires 0 <= i < |s| => s[|s| - 1 - i])
  }

  lemma ReverseReverse<T>(s: seq<T>)
    ensures Reverse(Reverse(s)) == s
  {
  }

  /** Reading a number's bits back gives the number. */
  lemma {:induction false} ValueOfBits(x: nat, n: nat)
    requires x < Pow2(n)
    ensures Value(Bits(x, n)) == x
  {
    if n > 0 {
      ValueOfBits(x / 2, n - 1);
      assert Bits(x, n)[1..] == Bits(x / 2, n - 1);
    }
  }

  /** Writing a bit string's value in as many bits gives the string back. */
  lemma {:induction false} BitsOfValue(b: seq<bool>)
    ensures Bits(Value(b), |b|) == b
  {
    if b != [] {
      BitsOfValue(b[1..]);
      assert Value(b) / 2 == Value(b[1..]);
    }
  }

  /** `br(i, power)`: the low `power` bits of `i` in reverse order. */
  function BitReverse(i: nat, power: nat): (k: nat)
    ensures k < Pow2(power)
  {
    Value(Reverse(Bits(i, power)))
  }

  /** Reversing twice is the identity on `[0, 2^power)`: `br` pairs the
      slots of the transform. */
  lemma BitReverseInvolution(i: nat, power: nat)
    requires i < Pow2(power)
    ensures BitReverse(BitReverse(i, power), power) == i
  {
    var b := Bits(i, power);
    BitsOfValue(Reverse(b));
    ReverseReverse(b);
    ValueOfBits(i, power);
  }

  // ---------------------------------------------------------------------
  // The integer operations of `br`

  /** `x >> j`. */
  function Shr(x: nat, j: nat): nat
  {
    if j == 0 then x else Shr(x / 2, j - 1)
  }

  /** `(x >> j) & 1`. */
  function Bit(x: nat, j: nat): (b: nat)
    ensures b < 2
  {
    Shr(x, j) % 2
  }

  /** `k | (1 << m)`. */
  function SetBit(k: nat, m: nat): (r: nat)
    ensures Bit(k, m) == 1 ==> r == k
    ensures Bit(k, m) == 0 ==> r == k + Pow2(m)
  {
    if Bit(k, m) == 1 then k else k + Pow2(m)
  }

  /** Bit `j` of the shift is entry `j` of the bit string. */
  lemma {:induction false} BitIsEntry(x: nat, n: nat, j: nat)
    requires j < n
    ensures Bits(x, n)[j] == (Bit(x, j) == 1)
  {
    if j > 0 {
      BitIsEntry(x / 2, n - 1, j - 1);
    }
  }

  /** A multiple of `2^(m+1)` has bit `m` clear. */
  lemma {:induction false} BitOfMultiple(v: nat, m: nat)
    ensures Bit(Pow2(m + 1) * v, m) == 0
  {
    if m > 0 {
      assert Pow2(m + 1) * v == 2 * (Pow2(m) * v);
      BitOfMultiple(v, m - 1);
    }
  }

  /** The value of a suffix: its first bit plus twice the rest. */
  lemma ValueSuffix(b: seq<bool>, m: nat)
    requires m < |b|
    ensures Value(b[m..]) == (if b[m] then 1 else 0) + 2 * Value(b[m + 1..])
  {
    assert b[m..][1..] == b[m + 1..];
  }

  /** `2^m·(c + 2v) = c·2^m + 2^(m+1)·v`. */
  lemma ShiftIn(m: nat, c: nat, v: nat)
    ensures Pow2(m) * (c + 2 * v) == c * Pow2(m) + Pow2(m + 1) * v
  {
    assert Pow2(m + 1) == 2 * Pow2(m);
    assert Pow2(m) * (2 * v) == (2 * Pow2(m)) * v;
  }

  /** One turn of `br`'s loop: bit `j` of `i` lands on bit `power - j - 1`
      of the result, above nothing yet set. */
  lemma BrStep(i: nat, power: nat, j: nat)
    requires j < power
    ensures var rb := Reverse(Bits(i, power));
      var m := power - j - 1;
      var k := Pow2(power - j) * Value(rb[power - j..]);
      Pow2(m) * Value(rb[m..]) == (if Bit(i, j) == 1 then SetBit(k, m) else k)
  {
    var rb := Reverse(Bits(i, power));
    var m := power - j - 1;
    var v := Value(rb[m + 1..]);
    BitIsEntry(i, power, j);
    assert rb[m] == (Bit(i, j) == 1);
    ValueSuffix(rb, m);
    BitOfMultiple(v, m);
    ShiftIn(m, if rb[m] then 1 else 0, v);
    assert m + 1 == power - j;
  }

  /** `br`: for every bit `j` below `power` that is set in `i`, set bit
      `power - j - 1` of the result. The shift `1 << (power - j - 1)` is on
      a 32-bit `int`, so `power` is at most 31. */
  method Br(i: nat, power: nat) returns (k: nat)
    requires power <= 31
    ensures k == BitReverse(i, power)
  {
    ghost var rb := Reverse(Bits(i, power));
    k := 0;
    var j := 0;
    while j < power
      invariant j <= power
      invariant k == Pow2(power - j) * Value(rb[power - j..])
    {
      BrStep(i, power, j);
      if Bit(i, j) == 1 {
        k := SetBit(k, power - j - 1);
      }
      j := j + 1;
    }
    assert rb[0..] == rb;
  }

  // ---------------------------------------------------------------------
  // The bit-reversal pass of `FilterFFT`

  /** The first `2^power` values of `s` in bit-reversed order. */
  function BitReversed(s: seq<real>, power: nat): (r: seq<real>)
    requires Pow2(power) <= |s|
    ensures |r| == Pow2(power)
  {
    seq(Pow2(power), i requires 0 <= i < Pow2(power) => s[BitReverse(i, power)])
  }

  /** The pass is its own inverse, so it permutes the slots. */
  lemma BitReversedInvolution(s: seq<real>, power: nat)
    requires |s| == Pow2(power)
    ensures BitReversed(BitReversed(s, power), power) == s
  {
    forall i | 0 <= i < |s|
      ensures BitReversed(BitReversed(s, power), power)[i] == s[i]
    {
      BitReverseInvolution(i, power);
    }
  }

  /** Where slot `p` reads from once the pass has handled every index below
      `done`: the pair `{p, br(p)}` is swapped when the loop reaches the
      larger of the two. */
  function Source(p: nat, done: nat, power: nat): nat
  {
    var k := BitReverse(p, power);
    if p < done && k < done then k else p
  }

  /** The array contents once the pass has handled the indices below
      `done`. */
  function PartlyReversed(s: seq<real>, done: nat, power: nat): (r: seq<real>)
    requires Pow2(power) <= |s|
    ensures |r| == |s|
  {
    seq(|s|, p requires 0 <= p < |s| => if p < Pow2(power) then s[Source(p, done, power)] else s[p])
  }

  /** Where the slots read from after one more turn of the pass: `i` and
      `br(i)` trade sources when `i` is the larger, nothing else moves. */
  lemma SourceStep(p: nat, i: nat, power: nat)
    requires p < Pow2(power) && i < Pow2(power)
    ensures var k := BitReverse(i, power);
      Source(p, i + 1, power) ==
        if i > k && p == i then Source(k, i, power)
        else if i > k && p == k then Source(i, i, power)
        else Source(p, i, power)
  {
    BitReverseInvolution(i, power);
    BitReverseInvolution(p, power);
  }

  /** `t` with slots `i` and `k` exchanged. */
  function Swapped(t: seq<real>, i: nat, k: nat): (r: seq<real>)
    requires i < |t| && k < |t|
    ensures |r| == |t|
  {
    t[i := t[k]][k := t[i]]
  }

  /** Once every index is handled, the first `2^power` slots are in
      bit-reversed order and the rest are as before. */
  lemma PartlyReversedAll(s: seq<real>, power: nat)
    requires Pow2(power) <= |s|
    ensures PartlyReversed(s, Pow2(power), power)[..Pow2(power)] == BitReversed(s, power)
    ensures PartlyReversed(s, Pow2(power), power)[Pow2(power)..] == s[Pow2(power)..]
  {
  }

  /** One turn of the pass swaps `i` with `br(i)` when `i` is the larger,
      and that is all that changes. */
  lemma PartlyReversedStep(s: seq<real>, i: nat, power: nat)
    requires Pow2(power) <= |s| && i < Pow2(power)
    ensures i > BitReverse(i, power) ==>
      PartlyReversed(s, i + 1, power) == Swapped(PartlyReversed(s, i, power), i, BitReverse(i, power))
    ensures i <= BitReverse(i, power) ==> PartlyReversed(s, i + 1, power) == PartlyReversed(s, i, power)
  {
    var k := BitReverse(i, power);
    var t := PartlyReversed(s, i, power);
    var u := PartlyReversed(s, i + 1, power);
    var w := if i > k then Swapped(t, i, k) else t;
    forall p | 0 <= p < |s|
      ensures u[p] == w[p]
    {
      if p < Pow2(power) {
        SourceStep(p, i, power);
      }
    }
  }

  /** The swap in the reorder loop of `FilterFFT`, through a temporary, in
      both arrays. */
  method SwapSlots(re: array<real>, im: array<real>, i: nat, k: nat)
    requires i < re.Length && k < re.Length && i < im.Length && k < im.Length && re != im
    modifies re, im
    ensures re[..] == Swapped(old(re[..]), i, k) && im[..] == Swapped(old(im[..]), i, k)
  {
    var t := re[i];
    re[i] := re[k];
    re[k] := t;
    t := im[i];
    im[i] := im[k];
    im[k] := t;
  }

  /** One turn of the reorder loop of `FilterFFT`: index `i` is swapped
      with `br(i)` when it is the larger of the two. */
  method ReorderStep(re: array<real>, im: array<real>, i: nat, power: nat, ghost re0: seq<real>, ghost im0: seq<real>)
    requires power <= 31 && i < Pow2(power) <= |re0| == re.Length && Pow2(power) <= |im0| == im.Length && re != im
    requires re[..] == PartlyReversed(re0, i, power) && im[..] == PartlyReversed(im0, i, power)
    modifies re, im
    ensures re[..] == PartlyReversed(re0, i + 1, power) && im[..] == PartlyReversed(im0, i + 1, power)
  {
    var k := Br(i, power);
    PartlyReversedStep(re0, i, power);
    PartlyReversedStep(im0, i, power);
    if i > k {
      SwapSlots(re, im, i, k);
    }
  }

  /** The reorder loop of `FilterFFT`: every index `i` below `2^power` with
      `i > br(i)` swaps `i` and `br(i)` in both arrays, so every pair is
      swapped exactly once and slots beyond `2^power` are untouched. */
  method Reorder(re: array<real>, im: array<real>, power: nat)
    requires power <= 31 && Pow2(power) <= re.Length && Pow2(power) <= im.Length && re != im
    modifies re, im
    ensures re[..Pow2(power)] == BitReversed(old(re[..]), power) && re[Pow2(power)..] == old(re[Pow2(power)..])
    ensures im[..Pow2(power)] == BitReversed(old(im[..]), power) && im[Pow2(power)..] == old(im[Pow2(power)..])
  {
    ghost var re0, im0 := re[..], im[..];
    var n := Pow2(power);
    var i := 0;
    while i < n
      invariant i <= n
      invariant re[..] == PartlyReversed(re0, i, power)
      invariant im[..] == PartlyReversed(im0, i, power)
    {
      ReorderStep(re, im, i, power, re0, im0);
      i := i + 1;
    }
    PartlyReversedAll(re0, power);
    PartlyReversedAll(im0, power);
  }

  // ---------------------------------------------------------------------
  // Block arithmetic

  /** `p = q·m + r` with `r < m` determines `p / m` and `p % m`. */
  lemma DivModOf(p: nat, q: nat, r: nat, m: nat)
    requires r < m && p == q * m + r
    ensures p / m == q && p % m == r
  {
    var q', r' := p / m, p % m;
    assert p == q' * m + r';
    if q' > q {
      MulMonotone(q + 1, q', m);
    } else if q' < q {
      MulMonotone(q' + 1, q, m);
    }
  }

  /** A slot below `blocks·m` lies in block `p / m`, at `p % m`, and that
      whole block lies below `blocks·m`. */
  lemma InBlock(p: nat, m: nat, blocks: nat)
    requires 0 < m && p < blocks * m
    ensures p / m < blocks && p == p / m * m + p % m && (p / m + 1) * m <= blocks * m
  {
    var q := p / m;
    assert p == q * m + p % m;
    if q >= blocks {
      MulMonotone(blocks, q, m);
    }
    MulMonotone(q + 1, blocks, m);
  }

  // ---------------------------------------------------------------------
  // The butterfly stages of `FilterFFT`

  /** The single-precision operations the stages use, each rounding in its
      own way: the four arithmetic operators, `cos`, `sin` and
      `(float)M_PI`. */
  datatype FloatMath = FloatMath(
    add: (real, real) -> real, sub: (real, real) -> real,
    mul: (real, real) -> real, div: (real, real) -> real,
    cos: real -> real, sin: real -> real, pi: real)

  /** The twiddle factor of butterfly `j` in a block of `points`:
      `theta = sign·2π·j / points`. */
  function Twiddle(f: FloatMath, sign: real, j: nat, points: nat): (w: (real, real))
    requires 0 < points
  {
    var theta := f.div(f.mul(f.mul(f.mul(sign, 2.0), f.pi), j as real), points as real);
    (f.cos(theta), f.sin(theta))
  }

  /** Butterfly `j` of the block at `offset` of `2h` slots: slot
      `offset + j` gets `top + w·btm` and slot `offset + h + j` gets
      `top - w·btm`, both from the values before the stage. `k` is the slot
      of the block being read, below `2h`. */
  function Butterfly(re: seq<real>, im: seq<real>, h: nat, offset: nat, k: nat, sign: real, f: FloatMath): (real, real)
    requires offset + 2 * h <= |re| && offset + 2 * h <= |im| && k < 2 * h
  {
    var j := if k < h then k else k - h;
    var w := Twiddle(f, sign, j, 2 * h);
    var top, btm := offset + j, offset + j + h;
    var wr := f.sub(f.mul(re[btm], w.0), f.mul(im[btm], w.1));
    var wi := f.add(f.mul(re[btm], w.1), f.mul(im[btm], w.0));
    if k < h then (f.add(re[top], wr), f.add(im[top], wi)) else (f.sub(re[top], wr), f.sub(im[top], wi))
  }

  /** The value slot `p` takes in the stage whose blocks are `points`
      wide. */
  function StageAt(re: seq<real>, im: seq<real>, points: nat, blocks: nat, sign: real, f: FloatMath, p: nat): (real, real)
    requires |re| == |im| == blocks * points && 2 <= points && points % 2 == 0 && p < |re|
  {
    InBlock(p, points, blocks);
    Butterfly(re, im, points / 2, p / points * points, p % points, sign, f)
  }

  /** One whole stage, as the two arrays after it. */
  function Stage(re: seq<real>, im: seq<real>, points: nat, blocks: nat, sign: real, f: FloatMath): (r: (seq<real>, seq<real>))
    requires |re| == |im| == blocks * points && 2 <= points && points % 2 == 0
    ensures |r.0| == |r.1| == |re|
  {
    (seq(|re|, p requires 0 <= p < |re| => StageAt(re, im, points, blocks, sign, f, p).0),
     seq(|re|, p requires 0 <= p < |re| => StageAt(re, im, points, blocks, sign, f, p).1))
  }

  /** The first `s` stages of a `2^power`-point transform: block widths 2,
      4, ..., `2^s`. */
  function Stages(re: seq<real>, im: seq<real>, s: nat, power: nat, sign: real, f: FloatMath): (r: (seq<real>, seq<real>))
    requires |re| == |im| == Pow2(power) && s <= power
    ensures |r.0| == |r.1| == Pow2(power)
  {
    if s == 0 then (re, im)
    else
      var (x, y) := Stages(re, im, s - 1, power, sign, f);
      StageShape(s, power);
      Stage(x, y, Pow2(s), Pow2(power - s), sign, f)
  }

  /** Stage `s` has blocks of `2^s` slots, `2^(power-s)` of them. */
  lemma StageShape(s: nat, power: nat)
    requires 1 <= s <= power
    ensures 2 <= Pow2(s) && Pow2(s) % 2 == 0 && Pow2(power - s) * Pow2(s) == Pow2(power)
  {
    Pow2Add(power - s, s);
    assert Pow2(s) == 2 * Pow2(s - 1);
  }

  /** `FilterFFT` on a power-of-two size: the bit-reversal pass, then all
      `power` stages. */
  function Transform(re: seq<real>, im: seq<real>, power: nat, sign: real, f: FloatMath): (r: (seq<real>, seq<real>))
    requires Pow2(power) <= |re| && Pow2(power) <= |im|
    ensures |r.0| == |r.1| == Pow2(power)
  {
    Stages(BitReversed(re, power), BitReversed(im, power), power, power, sign, f)
  }

  /** A butterfly reads nothing outside its own block. */
  lemma ButterflyFrame(re: seq<real>, im: seq<real>, re': seq<real>, im': seq<real>, h: nat, offset: nat, k: nat, sign: real, f: FloatMath)
    requires offset + 2 * h <= |re| && offset + 2 * h <= |im| && offset + 2 * h <= |re'| && offset + 2 * h <= |im'| && k < 2 * h
    requires forall p :: offset <= p < offset + 2 * h ==> re[p] == re'[p] && im[p] == im'[p]
    ensures Butterfly(re, im, h, offset, k, sign, f) == Butterfly(re', im', h, offset, k, sign, f)
  {
    var j := if k < h then k else k - h;
    assert re[offset + j] == re'[offset + j] && im[offset + j] == im'[offset + j];
    assert re[offset + j + h] == re'[offset + j + h] && im[offset + j + h] == im'[offset + j + h];
    var a, b := Butterfly(re, im, h, offset, k, sign, f), Butterfly(re', im', h, offset, k, sign, f);
    assert a.0 == b.0 && a.1 == b.1;
  }

  /** Slot `p` after the first `j` butterflies of the block at `offset`:
      the butterflies write slots `offset + k` and `offset + h + k` for
      `k < j`. */
  predicate Written(p: nat, h: nat, offset: nat, j: nat)
  {
    offset <= p < offset + j || offset + h <= p < offset + h + j
  }

  /** The real array after the first `j` butterflies of the block: each
      written slot holds its butterfly, every other slot its old value. */
  function BlockRe(re: seq<real>, im: seq<real>, h: nat, offset: nat, j: nat, sign: real, f: FloatMath): (r: seq<real>)
    requires offset + 2 * h <= |re| && offset + 2 * h <= |im| && j <= h
    ensures |r| == |re|
  {
    seq(|re|, p requires 0 <= p < |re| =>
      if Written(p, h, offset, j) then Butterfly(re, im, h, offset, p - offset, sign, f).0 else re[p])
  }

  /** The imaginary array after the first `j` butterflies of the block. */
  function BlockIm(re: seq<real>, im: seq<real>, h: nat, offset: nat, j: nat, sign: real, f: FloatMath): (r: seq<real>)
    requires offset + 2 * h <= |re| && offset + 2 * h <= |im| && j <= h
    ensures |r| == |im|
  {
    seq(|im|, p requires 0 <= p < |im| =>
      if Written(p, h, offset, j) then Butterfly(re, im, h, offset, p - offset, sign, f).1 else im[p])
  }

  /** The real array after one butterfly computed in place on `r`, `i`:
      `top` gets `r[top] + w·r[btm]`, `btm` gets `r[top] - w·r[btm]`. */
  function InPlaceRe(r: seq<real>, i: seq<real>, top: nat, btm: nat, w: (real, real), f: FloatMath): (r': seq<real>)
    requires top < btm < |r| && btm < |i|
    ensures |r'| == |r|
  {
    var wr := f.sub(f.mul(r[btm], w.0), f.mul(i[btm], w.1));
    r[top := f.add(r[top], wr)][btm := f.sub(r[top], wr)]
  }

  /** The imaginary array after one butterfly computed in place. */
  function InPlaceIm(r: seq<real>, i: seq<real>, top: nat, btm: nat, w: (real, real), f: FloatMath): (i': seq<real>)
    requires top < btm < |r| && btm < |i|
    ensures |i'| == |i|
  {
    var wi := f.add(f.mul(r[btm], w.1), f.mul(i[btm], w.0));
    i[top := f.add(i[top], wi)][btm := f.sub(i[top], wi)]
  }

  /** Butterfly `j`, computed in place on the arrays as the first `j`
      butterflies left them, produces the real array after `j + 1`: its two
      slots are still untouched, so it reads the values from before. */
  lemma BlockStepRe(re: seq<real>, im: seq<real>, h: nat, offset: nat, j: nat, sign: real, f: FloatMath, r: seq<real>, i: seq<real>)
    requires offset + 2 * h <= |re| && offset + 2 * h <= |im| && j < h
    requires r == BlockRe(re, im, h, offset, j, sign, f) && i == BlockIm(re, im, h, offset, j, sign, f)
    ensures BlockRe(re, im, h, offset, j + 1, sign, f) == InPlaceRe(r, i, j + offset, j + h + offset, Twiddle(f, sign, j, 2 * h), f)
  {
    assert r[j + offset] == re[j + offset] && r[j + h + offset] == re[j + h + offset] && i[j + h + offset] == im[j + h + offset];
  }

  /** The same for the imaginary array. */
  lemma BlockStepIm(re: seq<real>, im: seq<real>, h: nat, offset: nat, j: nat, sign: real, f: FloatMath, r: seq<real>, i: seq<real>)
    requires offset + 2 * h <= |re| && offset + 2 * h <= |im| && j < h
    requires r == BlockRe(re, im, h, offset, j, sign, f) && i == BlockIm(re, im, h, offset, j, sign, f)
    ensures BlockIm(re, im, h, offset, j + 1, sign, f) == InPlaceIm(r, i, j + offset, j + h + offset, Twiddle(f, sign, j, 2 * h), f)
  {
    assert i[j + offset] == im[j + offset] && r[j + h + offset] == re[j + h + offset] && i[j + h + offset] == im[j + h + offset];
  }

  /** One butterfly of `FilterFFT`, in place: both slots are read before
      either is written. */
  method ApplyButterfly(re: array<real>, im: array<real>, top: nat, btm: nat, w: (real, real), f: FloatMath)
    requires top < btm < re.Length && btm < im.Length && re != im
    modifies re, im
    ensures re[..] == InPlaceRe(old(re[..]), old(im[..]), top, btm, w, f)
    ensures im[..] == InPlaceIm(old(re[..]), old(im[..]), top, btm, w, f)
  {
    var topR, topI := re[top], im[top];
    var btmR := f.sub(f.mul(re[btm], w.0), f.mul(im[btm], w.1));
    var btmI := f.add(f.mul(re[btm], w.1), f.mul(im[btm], w.0));
    re[top] := f.add(topR, btmR);
    im[top] := f.add(topI, btmI);
    re[btm] := f.sub(topR, btmR);
    im[btm] := f.sub(topI, btmI);
  }

  /** One turn of the `j` loop of `FilterFFT`: butterfly `j` of the
      block, computed with its twiddle factor. */
  method BlockStep(re: array<real>, im: array<real>, h: nat, offset: nat, j: nat, sign: real, f: FloatMath,
                   ghost re0: seq<real>, ghost im0: seq<real>)
    requires offset + 2 * h <= |re0| == re.Length && offset + 2 * h <= |im0| == im.Length && j < h && re != im
    requires re[..] == BlockRe(re0, im0, h, offset, j, sign, f)
    requires im[..] == BlockIm(re0, im0, h, offset, j, sign, f)
    modifies re, im
    ensures re[..] == BlockRe(re0, im0, h, offset, j + 1, sign, f)
    ensures im[..] == BlockIm(re0, im0, h, offset, j + 1, sign, f)
  {
    ghost var r, i := re[..], im[..];
    ApplyButterfly(re, im, j + offset, j + h + offset, Twiddle(f, sign, j, 2 * h), f);
    ButterflyAdvances(re0, im0, h, offset, j, sign, f, r, i, re[..], im[..]);
  }

  /** The arrays one in-place butterfly makes from the first `j`
      butterflies' result are the result of the first `j + 1`. */
  lemma ButterflyAdvances(re: seq<real>, im: seq<real>, h: nat, offset: nat, j: nat, sign: real, f: FloatMath,
                          r: seq<real>, i: seq<real>, r': seq<real>, i': seq<real>)
    requires offset + 2 * h <= |re| && offset + 2 * h <= |im| && j < h
    requires r == BlockRe(re, im, h, offset, j, sign, f) && i == BlockIm(re, im, h, offset, j, sign, f)
    requires r' == InPlaceRe(r, i, j + offset, j + h + offset, Twiddle(f, sign, j, 2 * h), f)
    requires i' == InPlaceIm(r, i, j + offset, j + h + offset, Twiddle(f, sign, j, 2 * h), f)
    ensures r' == BlockRe(re, im, h, offset, j + 1, sign, f) && i' == BlockIm(re, im, h, offset, j + 1, sign, f)
  {
    BlockStepRe(re, im, h, offset, j, sign, f, r, i);
    BlockStepIm(re, im, h, offset, j, sign, f, r, i);
  }

  /** The `j` loop of `FilterFFT` over the block at `offset`: butterfly `j`
      pairs `j + offset` with `j + points/2 + offset`. Each slot of the
      block ends up holding its butterfly of the values before the loop;
      nothing outside the block changes. */
  method BlockButterflies(re: array<real>, im: array<real>, h: nat, offset: nat, sign: real, f: FloatMath)
    requires offset + 2 * h <= re.Length && offset + 2 * h <= im.Length && re != im
    modifies re, im
    ensures re[..] == BlockRe(old(re[..]), old(im[..]), h, offset, h, sign, f)
    ensures im[..] == BlockIm(old(re[..]), old(im[..]), h, offset, h, sign, f)
  {
    ghost var re0, im0 := re[..], im[..];
    var j := 0;
    while j < h
      invariant j <= h
      invariant re[..] == BlockRe(re0, im0, h, offset, j, sign, f)
      invariant im[..] == BlockIm(re0, im0, h, offset, j, sign, f)
    {
      BlockStep(re, im, h, offset, j, sign, f, re0, im0);
      j := j + 1;
    }
  }

  /** The real array after a stage has reached slot `done`: the slots
      below it hold their stage value, computed from the first
      `blocks·points` values before the stage; every other slot is as
      before. */
  function StagedRe(re: seq<real>, im: seq<real>, points: nat, blocks: nat, done: nat, sign: real, f: FloatMath): (r: seq<real>)
    requires 2 <= points && points % 2 == 0 && blocks * points <= |re| && blocks * points <= |im| && done <= blocks * points
    ensures |r| == |re|
  {
    var n := blocks * points;
    seq(|re|, p requires 0 <= p < |re| => if p < done then StageAt(re[..n], im[..n], points, blocks, sign, f, p).0 else re[p])
  }

  /** The imaginary array after a stage has reached slot `done`. */
  function StagedIm(re: seq<real>, im: seq<real>, points: nat, blocks: nat, done: nat, sign: real, f: FloatMath): (r: seq<real>)
    requires 2 <= points && points % 2 == 0 && blocks * points <= |re| && blocks * points <= |im| && done <= blocks * points
    ensures |r| == |im|
  {
    var n := blocks * points;
    seq(|im|, p requires 0 <= p < |im| => if p < done then StageAt(re[..n], im[..n], points, blocks, sign, f, p).1 else im[p])
  }

  /** Slot `p` of block `i`, computed from arrays that still agree with
      the values before the stage on that block, holds its stage value. */
  lemma StagedSlot(re: seq<real>, im: seq<real>, points: nat, blocks: nat, i: nat, sign: real, f: FloatMath,
                   r: seq<real>, i': seq<real>, p: nat)
    requires 2 <= points && points % 2 == 0 && i < blocks && points * i + points <= blocks * points
    requires blocks * points <= |re| && blocks * points <= |im| && blocks * points <= |r| && blocks * points <= |i'|
    requires forall q :: points * i <= q < points * i + points ==> r[q] == re[q] && i'[q] == im[q]
    requires points * i <= p < points * i + points
    ensures Butterfly(r, i', points / 2, points * i, p - points * i, sign, f)
         == StageAt(re[..blocks * points], im[..blocks * points], points, blocks, sign, f, p)
  {
    var n, offset := blocks * points, points * i;
    DivModOf(p, i, p - offset, points);
    ButterflyFrame(r, i', re[..n], im[..n], points / 2, offset, p - offset, sign, f);
  }

  /** Block `i` of a stage ends inside the stage. */
  lemma BlockInStage(points: nat, blocks: nat, i: nat)
    requires i < blocks
    ensures points * i + points <= blocks * points
  {
    MulMonotone(i + 1, blocks, points);
  }

  /** Slot `p` after block `i`'s butterflies, run on the real array as
      the earlier blocks left it. */
  lemma StagedSlotRe(re: seq<real>, im: seq<real>, points: nat, blocks: nat, i: nat, sign: real, f: FloatMath, p: nat)
    requires 2 <= points && points % 2 == 0 && blocks * points <= |re| && blocks * points <= |im| && i < blocks && p < |re|
    ensures points * i + points <= blocks * points
    ensures BlockRe(StagedRe(re, im, points, blocks, points * i, sign, f), StagedIm(re, im, points, blocks, points * i, sign, f),
                    points / 2, points * i, points / 2, sign, f)[p]
         == StagedRe(re, im, points, blocks, points * i + points, sign, f)[p]
  {
    BlockInStage(points, blocks, i);
    if points * i <= p < points * i + points {
      BlockSlotRe(re, im, points, blocks, i, sign, f, p);
    } else {
      OutsideSlotRe(re, im, points, blocks, i, sign, f, p);
    }
  }

  /** A slot of block `i` takes its stage value from the block's butterflies. */
  lemma BlockSlotRe(re: seq<real>, im: seq<real>, points: nat, blocks: nat, i: nat, sign: real, f: FloatMath, p: nat)
    requires 2 <= points && points % 2 == 0 && blocks * points <= |re| && blocks * points <= |im|
    requires points * i + points <= blocks * points && points * i <= p < points * i + points
    ensures BlockRe(StagedRe(re, im, points, blocks, points * i, sign, f), StagedIm(re, im, points, blocks, points * i, sign, f),
                    points / 2, points * i, points / 2, sign, f)[p]
         == StagedRe(re, im, points, blocks, points * i + points, sign, f)[p]
  {
    var offset, h := points * i, points / 2;
    var r0, i0 := StagedRe(re, im, points, blocks, offset, sign, f), StagedIm(re, im, points, blocks, offset, sign, f);
    assert h + h == points && Written(p, h, offset, h);
    StagedSlot(re, im, points, blocks, i, sign, f, r0, i0, p);
  }

  /** A slot outside block `i` is left as the earlier blocks set it. */
  lemma OutsideSlotRe(re: seq<real>, im: seq<real>, points: nat, blocks: nat, i: nat, sign: real, f: FloatMath, p: nat)
    requires 2 <= points && points % 2 == 0 && blocks * points <= |re| && blocks * points <= |im| && p < |re|
    requires points * i + points <= blocks * points && !(points * i <= p < points * i + points)
    ensures BlockRe(StagedRe(re, im, points, blocks, points * i, sign, f), StagedIm(re, im, points, blocks, points * i, sign, f),
                    points / 2, points * i, points / 2, sign, f)[p]
         == StagedRe(re, im, points, blocks, points * i + points, sign, f)[p]
  {
    var offset, h := points * i, points / 2;
    assert h + h == points && !Written(p, h, offset, h);
  }

  /** The same for the imaginary array. */
  lemma StagedSlotIm(re: seq<real>, im: seq<real>, points: nat, blocks: nat, i: nat, sign: real, f: FloatMath, p: nat)
    requires 2 <= points && points % 2 == 0 && blocks * points <= |re| && blocks * points <= |im| && i < blocks && p < |im|
    ensures points * i + points <= blocks * points
    ensures BlockIm(StagedRe(re, im, points, blocks, points * i, sign, f), StagedIm(re, im, points, blocks, points * i, sign, f),
                    points / 2, points * i, points / 2, sign, f)[p]
         == StagedIm(re, im, points, blocks, points * i + points, sign, f)[p]
  {
    BlockInStage(points, blocks, i);
    if points * i <= p < points * i + points {
      BlockSlotIm(re, im, points, blocks, i, sign, f, p);
    } else {
      OutsideSlotIm(re, im, points, blocks, i, sign, f, p);
    }
  }

  /** A slot of block `i` takes its stage value from the block's butterflies. */
  lemma BlockSlotIm(re: seq<real>, im: seq<real>, points: nat, blocks: nat, i: nat, sign: real, f: FloatMath, p: nat)
    requires 2 <= points && points % 2 == 0 && blocks * points <= |re| && blocks * points <= |im|
    requires points * i + points <= blocks * points && points * i <= p < points * i + points
    ensures BlockIm(StagedRe(re, im, points, blocks, points * i, sign, f), StagedIm(re, im, points, blocks, points * i, sign, f),
                    points / 2, points * i, points / 2, sign, f)[p]
         == StagedIm(re, im, points, blocks, points * i + points, sign, f)[p]
  {
    var offset, h := points * i, points / 2;
    var r0, i0 := StagedRe(re, im, points, blocks, offset, sign, f), StagedIm(re, im, points, blocks, offset, sign, f);
    assert h + h == points && Written(p, h, offset, h);
    StagedSlot(re, im, points, blocks, i, sign, f, r0, i0, p);
  }

  /** A slot outside block `i` is left as the earlier blocks set it. */
  lemma OutsideSlotIm(re: seq<real>, im: seq<real>, points: nat, blocks: nat, i: nat, sign: real, f: FloatMath, p: nat)
    requires 2 <= points && points % 2 == 0 && blocks * points <= |re| && blocks * points <= |im| && p < |im|
    requires points * i + points <= blocks * points && !(points * i <= p < points * i + points)
    ensures BlockIm(StagedRe(re, im, points, blocks, points * i, sign, f), StagedIm(re, im, points, blocks, points * i, sign, f),
                    points / 2, points * i, points / 2, sign, f)[p]
         == StagedIm(re, im, points, blocks, points * i + points, sign, f)[p]
  {
    var offset, h := points * i, points / 2;
    assert h + h == points && !Written(p, h, offset, h);
  }

  /** Block `i`'s butterflies, run on the arrays as the earlier blocks left
      them, take the stage from slot `points·i` to the end of the block. */
  lemma StagedStep(re: seq<real>, im: seq<real>, points: nat, blocks: nat, i: nat, sign: real, f: FloatMath)
    requires 2 <= points && points % 2 == 0 && blocks * points <= |re| && blocks * points <= |im| && i < blocks
    ensures points * i + points <= blocks * points
    ensures BlockRe(StagedRe(re, im, points, blocks, points * i, sign, f), StagedIm(re, im, points, blocks, points * i, sign, f),
                    points / 2, points * i, points / 2, sign, f)
         == StagedRe(re, im, points, blocks, points * i + points, sign, f)
    ensures BlockIm(StagedRe(re, im, points, blocks, points * i, sign, f), StagedIm(re, im, points, blocks, points * i, sign, f),
                    points / 2, points * i, points / 2, sign, f)
         == StagedIm(re, im, points, blocks, points * i + points, sign, f)
  {
    BlockInStage(points, blocks, i);
    forall p | 0 <= p < |re| {
      StagedSlotRe(re, im, points, blocks, i, sign, f, p);
    }
    forall p | 0 <= p < |im| {
      StagedSlotIm(re, im, points, blocks, i, sign, f, p);
    }
  }

  /** The `i` loop of `FilterFFT` for one stage: block `i` starts at
      `points·i`. */
  method ButterflyStage(re: array<real>, im: array<real>, blocks: nat, points: nat, sign: real, f: FloatMath)
    requires 2 <= points && points % 2 == 0 && blocks * points <= re.Length && blocks * points <= im.Length && re != im
    modifies re, im
    ensures re[..] == StagedRe(old(re[..]), old(im[..]), points, blocks, blocks * points, sign, f)
    ensures im[..] == StagedIm(old(re[..]), old(im[..]), points, blocks, blocks * points, sign, f)
  {
    ghost var re0, im0 := re[..], im[..];
    var i, offset := 0, 0;
    while i < blocks
      invariant i <= blocks && offset == points * i <= blocks * points
      invariant re[..] == StagedRe(re0, im0, points, blocks, offset, sign, f)
      invariant im[..] == StagedIm(re0, im0, points, blocks, offset, sign, f)
    {
      StagedStep(re0, im0, points, blocks, i, sign, f);
      BlockButterflies(re, im, points / 2, offset, sign, f);
      i, offset := i + 1, offset + points;
    }
    assert offset == blocks * points;
  }

  /** A whole stage run on longer arrays: the first `blocks·points` slots
      are the stage of the first `blocks·points` values, the rest are as
      before. */
  lemma StagedWhole(re: seq<real>, im: seq<real>, points: nat, blocks: nat, sign: real, f: FloatMath)
    requires 2 <= points && points % 2 == 0 && blocks * points <= |re| && blocks * points <= |im|
    ensures var n := blocks * points;
      && StagedRe(re, im, points, blocks, n, sign, f)[..n] == Stage(re[..n], im[..n], points, blocks, sign, f).0
      && StagedIm(re, im, points, blocks, n, sign, f)[..n] == Stage(re[..n], im[..n], points, blocks, sign, f).1
      && StagedRe(re, im, points, blocks, n, sign, f)[n..] == re[n..]
      && StagedIm(re, im, points, blocks, n, sign, f)[n..] == im[n..]
  {
  }

  /** Stage `s + 1` runs on the arrays the first `s` stages leave. */
  lemma StagesStep(re: seq<real>, im: seq<real>, s: nat, power: nat, sign: real, f: FloatMath)
    requires |re| == |im| == Pow2(power) && s < power
    ensures 2 <= Pow2(s + 1) && Pow2(s + 1) % 2 == 0 && Pow2(power - s - 1) * Pow2(s + 1) == Pow2(power)
    ensures var x := Stages(re, im, s, power, sign, f);
      && Stages(re, im, s + 1, power, sign, f).0 == Stage(x.0, x.1, Pow2(s + 1), Pow2(power - s - 1), sign, f).0
      && Stages(re, im, s + 1, power, sign, f).1 == Stage(x.0, x.1, Pow2(s + 1), Pow2(power - s - 1), sign, f).1
  {
    StageShape(s + 1, power);
    assert s + 1 - 1 == s && power - (s + 1) == power - s - 1;
  }

  const NOT_POWER_OF_TWO := "fft_size is not a power of 2! in FilterFFT"

  /** `FilterFFT`: an in-place radix-2 transform of the first `fftSize`
      slots. `power` is the truncated base-2 logarithm of `fftSize` as the
      source computes it in floating point; a size that is not `2^power`
      is refused and nothing changes. Otherwise the slots are put in
      bit-reversed order and the butterfly stages run with block widths
      2, 4, ..., `fftSize`; slots from `fftSize` on are left alone. */
  method FilterFFT(re: array<real>, im: array<real>, sign: real, fftSize: nat, power: nat, f: FloatMath) returns (r: Outcome)
    requires power <= 31
    requires Pow2(power) == fftSize ==> fftSize <= re.Length && fftSize <= im.Length && re != im
    modifies re, im
    ensures r.Fail? <==> Pow2(power) != fftSize
    ensures r.Fail? ==> r.message == NOT_POWER_OF_TWO && re[..] == old(re[..]) && im[..] == old(im[..])
    ensures r.Pass? ==>
      && re[..fftSize] == Transform(old(re[..]), old(im[..]), power, sign, f).0
      && im[..fftSize] == Transform(old(re[..]), old(im[..]), power, sign, f).1
      && re[fftSize..] == old(re[fftSize..]) && im[fftSize..] == old(im[fftSize..])
  {
    if Pow2(power) != fftSize {
      return Fail(NOT_POWER_OF_TWO);
    }
    Reorder(re, im, power);
    ghost var rb, ib := re[..fftSize], im[..fftSize];
    ghost var reTail, imTail := re[fftSize..], im[fftSize..];
    var blocks, points := fftSize / 2, 2;
    ghost var s := 0;
    if power > 0 {
      assert Pow2(power) == 2 * Pow2(power - 1);
    }
    while blocks >= 1
      invariant s <= power && points == Pow2(s + 1)
      invariant s < power ==> blocks == Pow2(power - s - 1)
      invariant s == power ==> blocks == 0
      invariant re[..fftSize] == Stages(rb, ib, s, power, sign, f).0 && im[..fftSize] == Stages(rb, ib, s, power, sign, f).1
      invariant re[fftSize..] == reTail && im[fftSize..] == imTail
      decreases blocks
    {
      StagesStep(rb, ib, s, power, sign, f);
      StagedWhole(re[..], im[..], points, blocks, sign, f);
      ButterflyStage(re, im, blocks, points, sign, f);
      if s + 1 < power {
        assert Pow2(power - s - 1) == 2 * Pow2(power - s - 2);
      }
      blocks, points := blocks / 2, points * 2;
      s := s + 1;
    }
    return Pass;
  }

  // ---------------------------------------------------------------------
  // The window helpers

  /** The Hann coefficient `0.5·(1 - cos(2π·n / size))` at the float
      position `n`. */
  function Coefficient(n: real, size: nat, f: FloatMath): real
  {
    f.mul(0.5, f.sub(1.0, f.cos(f.div(f.mul(f.mul(2.0, f.pi), n), size as real))))
  }

  /** The position `HannWindow` computes for slot `i`: the start of its
      group of eight converted to float and, past the first slot of the
      group, plus the offset within it. */
  function Position(i: nat, f: FloatMath): real
  {
    var group := (i / 8 * 8) as real;
    if i % 8 == 0 then group else f.add(group, (i % 8) as real)
  }

  /** How many slots the unrolled loops cover: whole groups of eight. */
  function Covered(len: nat): (c: nat)
    ensures c <= len && c % 8 == 0 && len - c < 8
  {
    len / 8 * 8
  }

  /** A `size`-slot window whose slots below `done` hold their Hann
      coefficients and whose other slots are zero. */
  function HannPrefix(size: nat, done: nat, f: FloatMath): (w: seq<real>)
    ensures |w| == size
  {
    seq(size, i requires 0 <= i < size => if i < done then Coefficient(Position(i, f), size, f) else 0.0)
  }

  /** The window `HannWindow` returns: the covered slots hold their
      coefficients, the last `size mod 8` slots are 0, and when float
      addition is exact every covered slot's position is its own index. */
  lemma HannWindowSlots(size: nat, f: FloatMath, i: nat)
    requires i < size
    ensures var w := HannPrefix(size, Covered(size), f);
      && (i < Covered(size) ==> w[i] == Coefficient(Position(i, f), size, f))
      && (Covered(size) <= i ==> w[i] == 0.0)
      && size - Covered(size) == size % 8
    ensures (forall a: real, b: real :: f.add(a, b) == a + b) ==> Position(i, f) == i as real
  {
    if forall a: real, b: real :: f.add(a, b) == a + b {
      var g := i / 8 * 8;
      assert i == g + i % 8;
      assert (i % 8 != 0 ==> f.add(g as real, (i % 8) as real) == g as real + (i % 8) as real);
    }
  }

  /** Slot `8·r + k` lies in group `r` at offset `k`. */
  lemma GroupOf(r: nat, k: nat)
    requires k < 8
    ensures (8 * r + k) / 8 * 8 == 8 * r && (8 * r + k) % 8 == k
  {
  }

  /** One statement of `HannWindow`'s unrolled loop: slot `i` gets the
      coefficient at position `n`, which is the slot's own position, so
      the written prefix grows by one. */
  method WriteCoefficient(output: array<real>, i: nat, n: real, size: nat, f: FloatMath)
    requires i < size == output.Length && output[..] == HannPrefix(size, i, f) && n == Position(i, f)
    modifies output
    ensures output[..] == HannPrefix(size, i + 1, f)
  {
    output[i] := Coefficient(n, size, f);
    assert output[..] == HannPrefix(size, i, f)[i := Coefficient(n, size, f)];
  }

  /** The body of `HannWindow`'s loop: the eight slots of group `r`. */
  method HannGroup(output: array<real>, r: nat, size: nat, f: FloatMath)
    requires 8 * r + 8 <= size == output.Length && output[..] == HannPrefix(size, 8 * r, f)
    modifies output
    ensures output[..] == HannPrefix(size, 8 * r + 8, f)
  {
    var i := 8 * r;
    var n := i as real;
    GroupOf(r, 0); GroupOf(r, 1); GroupOf(r, 2); GroupOf(r, 3);
    GroupOf(r, 4); GroupOf(r, 5); GroupOf(r, 6); GroupOf(r, 7);
    WriteCoefficient(output, i, n, size, f);
    WriteCoefficient(output, i + 1, f.add(n, 1.0), size, f);
    WriteCoefficient(output, i + 2, f.add(n, 2.0), size, f);
    WriteCoefficient(output, i + 3, f.add(n, 3.0), size, f);
    WriteCoefficient(output, i + 4, f.add(n, 4.0), size, f);
    WriteCoefficient(output, i + 5, f.add(n, 5.0), size, f);
    WriteCoefficient(output, i + 6, f.add(n, 6.0), size, f);
    WriteCoefficient(output, i + 7, f.add(n, 7.0), size, f);
  }

  /** `HannWindow`: a fresh `size`-slot window, zero-filled, whose groups
      of eight are then written with their Hann coefficients. The last
      `size mod 8` slots are never written and stay zero. */
  method HannWindow(size: nat, f: FloatMath) returns (output: array<real>)
    ensures fresh(output) && output[..] == HannPrefix(size, Covered(size), f)
  {
    output := new real[size](_ => 0.0);
    var rounds := size / 8;
    var r := 0;
    while r < rounds
      invariant r <= rounds && output.Length == size
      invariant output[..] == HannPrefix(size, 8 * r, f)
    {
      HannGroup(output, r, size, f);
      r := r + 1;
    }
  }

  /** The output of `WindowMultiply` once the slots below `done` are
      written: each holds the product of its input and window values,
      every other slot its old value. */
  function Windowed(input: seq<real>, win: seq<real>, output: seq<real>, done: nat, f: FloatMath): (r: seq<real>)
    ensures |r| == |output|
  {
    seq(|output|, p requires 0 <= p < |output| =>
      if p < done && p < |input| && p < |win| then f.mul(input[p], win[p]) else output[p])
  }

  /** What `WindowMultiply` leaves in slot `p`: the product for the covered
      slots, the old value from the first uncovered slot on. */
  lemma WindowedSlots(input: seq<real>, win: seq<real>, output: seq<real>, f: FloatMath, p: nat)
    requires Covered(|input|) <= |win| && Covered(|input|) <= |output| && p < |output|
    ensures var r := Windowed(input, win, output, Covered(|input|), f);
      && (p < Covered(|input|) ==> r[p] == f.mul(input[p], win[p]))
      && (Covered(|input|) <= p ==> r[p] == output[p])
  {
  }

  /** The arrays of `WindowMultiply` once the slots below `done` are
      written, where `input` and `win` may be `output` itself: the output
      is `Windowed`, and an input that is not the output still holds its
      old values. */
  ghost predicate WindowedState(input: array<real>, win: array<real>, output: array<real>,
                                in0: seq<real>, win0: seq<real>, out0: seq<real>, done: nat, f: FloatMath)
    reads input, win, output
  {
    && output[..] == Windowed(in0, win0, out0, done, f)
    && (if input == output then in0 == out0 else input[..] == in0)
    && (if win == output then win0 == out0 else win[..] == win0)
  }

  /** One statement of `WindowMultiply`'s unrolled loop: slot `p` of the
      output gets input times window, read from the same slot. */
  method MultiplySlot(input: array<real>, win: array<real>, output: array<real>, p: nat, f: FloatMath,
                      ghost in0: seq<real>, ghost win0: seq<real>, ghost out0: seq<real>)
    requires p < input.Length && p < win.Length && p < output.Length
    requires WindowedState(input, win, output, in0, win0, out0, p, f)
    modifies output
    ensures WindowedState(input, win, output, in0, win0, out0, p + 1, f)
  {
    output[p] := f.mul(input[p], win[p]);
    assert output[..] == Windowed(in0, win0, out0, p, f)[p := f.mul(in0[p], win0[p])];
  }

  /** The body of `WindowMultiply`'s loop: the eight slots from `pos`. */
  method MultiplyGroup(input: array<real>, win: array<real>, output: array<real>, pos: nat, f: FloatMath,
                       ghost in0: seq<real>, ghost win0: seq<real>, ghost out0: seq<real>)
    requires pos + 8 <= input.Length && pos + 8 <= win.Length && pos + 8 <= output.Length
    requires WindowedState(input, win, output, in0, win0, out0, pos, f)
    modifies output
    ensures WindowedState(input, win, output, in0, win0, out0, pos + 8, f)
  {
    MultiplySlot(input, win, output, pos, f, in0, win0, out0);
    MultiplySlot(input, win, output, pos + 1, f, in0, win0, out0);
    MultiplySlot(input, win, output, pos + 2, f, in0, win0, out0);
    MultiplySlot(input, win, output, pos + 3, f, in0, win0, out0);
    MultiplySlot(input, win, output, pos + 4, f, in0, win0, out0);
    MultiplySlot(input, win, output, pos + 5, f, in0, win0, out0);
    MultiplySlot(input, win, output, pos + 6, f, in0, win0, out0);
    MultiplySlot(input, win, output, pos + 7, f, in0, win0, out0);
  }

  /** `WindowMultiply`: for the whole groups of eight of `input`, slot `p`
      of `output` gets `input[p]·win[p]`; the other slots of `output` keep
      their values. `win` and `output` must reach that far. Any of the
      three arrays may be the same array. */
  method WindowMultiply(input: array<real>, win: array<real>, output: array<real>, f: FloatMath)
    requires Covered(input.Length) <= win.Length && Covered(input.Length) <= output.Length
    modifies output
    ensures output[..] == Windowed(old(input[..]), old(win[..]), old(output[..]), Covered(input.Length), f)
  {
    ghost var in0, win0, out0 := input[..], win[..], output[..];
    var len := input.Length;
    var rounds := len / 8;
    var i := 0;
    while i < rounds
      invariant i <= rounds && 8 * i <= Covered(len)
      invariant WindowedState(input, win, output, in0, win0, out0, 8 * i, f)
    {
      MultiplyGroup(input, win, output, 8 * i, f, in0, win0, out0);
      i := i + 1;
    }
  }
}
