/** `SfxrFloatBuffer`: the rendered samples, kept as a table of retired
    4096-slot blocks and one current block that is filled up to `pos`,
    with the per-width PCM writers. */
module FloatBuffer {
  import opened Common

  // A block holds 4096 samples; the literal is written out in the
  // arithmetic below so that the solver sees it as a constant factor.

  /** Every retired block is a full block. */
  ghost predicate Full(t: seq<seq<real>>)
  {
    forall k :: 0 <= k < |t| ==> |t[k]| == 4096
  }

  /** The retired blocks read one after the other. */
  function Flatten(t: seq<seq<real>>): seq<real>
  {
    if t == [] then [] else Flatten(t[..|t| - 1]) + t[|t| - 1]
  }

  lemma FlattenSnoc(t: seq<seq<real>>, b: seq<real>)
    ensures Flatten(t + [b]) == Flatten(t) + b
  {
    assert (t + [b])[..|t|] == t;
  }

  lemma {:induction false} FlattenLength(t: seq<seq<real>>)
    requires Full(t)
    ensures |Flatten(t)| == 4096 * |t|
  {
    if t != [] {
      FlattenLength(t[..|t| - 1]);
    }
  }

  /** Position `b * 4096 + o` has block `b` and offset `o`. */
  lemma BlockOffset(i: nat, b: nat)
    requires b * 4096 <= i < (b + 1) * 4096
    ensures i / 4096 == b && i % 4096 == i - b * 4096
  {
  }

  /** Sample `i` of the retired blocks sits in block `i >> 12` at offset
      `i % 4096`. */
  lemma {:induction false} FlattenIndex(t: seq<seq<real>>, i: nat)
    requires Full(t) && i < 4096 * |t|
    ensures i / 4096 < |t|
    ensures i < |Flatten(t)| && Flatten(t)[i] == t[i / 4096][i % 4096]
  {
    var n := |t| - 1;
    FlattenLength(t[..n]);
    if i < 4096 * n {
      FlattenIndex(t[..n], i);
    } else {
      BlockOffset(i, n);
    }
  }

  /** Sample `i` of the retired blocks followed by the filled part of the
      current block: its block number and offset pick it out. */
  lemma SampleAddress(t: seq<seq<real>>, last: seq<real>, i: nat)
    requires Full(t) && |last| < 4096
    ensures |Flatten(t)| == 4096 * |t|
    ensures i < 4096 * |t| + |last| ==> i / 4096 <= |t|
    ensures i < 4096 * |t| ==> i / 4096 < |t| && (Flatten(t) + last)[i] == t[i / 4096][i % 4096]
    ensures 4096 * |t| <= i ==> |t| <= i / 4096
    ensures 4096 * |t| <= i < 4096 * |t| + |last| ==>
      i / 4096 == |t| && i % 4096 < |last| && (Flatten(t) + last)[i] == last[i % 4096]
  {
    FlattenLength(t);
    if i < 4096 * |t| {
      FlattenIndex(t, i);
      assert i / 4096 < |t|;
    } else if i < 4096 * |t| + |last| {
      BlockOffset(i, |t|);
    }
  }

  /** What `operator[]` hands back. */
  datatype Fetch =
    | Sample(value: real)  // a slot of a block
    | Thrown               // the `runtime_error` of the bound check
    | PastEnd              // `bTable[block]` read one past the end of the table

  // ---------------------------------------------------------------------
  // Sample encodings of the PCM writers

  /** The bit depths of `writeStream8` .. `writeStream32`. */
  datatype PcmWidth = Bits8 | Bits16 | Bits24 | Bits32

  function Width(w: PcmWidth): (n: nat)
    ensures 1 <= n <= 4
  {
    match w
    case Bits8 => 1
    case Bits16 => 2
    case Bits24 => 3
    case Bits32 => 4
  }

  /** `256^k`, the number of values `k` bytes can hold. */
  function ByteModulus(k: nat): (m: nat)
    ensures 1 <= m
  {
    if k == 0 then 1 else 256 * ByteModulus(k - 1)
  }

  /** The `k` bytes of `u`, low byte first. */
  function LeBytes(u: nat, k: nat): (r: seq<uint8>)
    ensures |r| == k
  {
    if k == 0 then [] else [(u % 256) as uint8] + LeBytes(u / 256, k - 1)
  }

  /** The unsigned number a little-endian byte string spells. */
  function FromLe(b: seq<uint8>): nat
  {
    if b == [] then 0 else b[0] as nat + 256 * FromLe(b[1..])
  }

  /** The signed number a little-endian byte string spells. */
  function SignedOf(b: seq<uint8>): int
  {
    var u := FromLe(b);
    var m := ByteModulus(|b|);
    if 2 * u >= m then u - m else u
  }

  /** The low `k` bytes of the two's complement of `t`, as an unsigned
      number: what a narrowing store keeps. */
  function Twos(t: int, k: nat): (u: nat)
    ensures u < ByteModulus(k)
  {
    t % ByteModulus(k)
  }

  /** Bytes and number are inverse for every number below `256^k`. */
  lemma {:induction false} LeRoundTrip(u: nat, k: nat)
    requires u < ByteModulus(k)
    ensures FromLe(LeBytes(u, k)) == u
  {
    if k > 0 {
      LeRoundTrip(u / 256, k - 1);
      assert LeBytes(u, k)[1..] == LeBytes(u / 256, k - 1);
    }
  }

  /** The bytes one sample becomes: `(int8_t)(x * 0x7F) + 0x7F` stored in a
      byte, `(int16_t)(x * 0x7FFE)`, `(int32_t)(x * 0x7FFFFE)` cut to its
      low three bytes, or `(int32_t)(x * 0x7FFFFFFE)`. */
  function SampleBytes(w: PcmWidth, x: real): (r: seq<uint8>)
    ensures |r| == Width(w)
  {
    match w
    case Bits8 => LeBytes(Twos(Trunc(x * 127.0) + 0x7F, 1), 1)
    case Bits16 => LeBytes(Twos(Trunc(x * 32766.0), 2), 2)
    case Bits24 => LeBytes(Twos(Trunc(x * 8388606.0), 3), 3)
    case Bits32 => LeBytes(Twos(Trunc(x * 2147483646.0), 4), 4)
  }

  /** A sample in [-1, 1] loses nothing but its truncation: the 8-bit byte
      is `trunc(x * 0x7F)` offset by 0x7F, and the wider encodings read
      back in two's complement as `trunc(x * 0x7FFE)`, `trunc(x * 0x7FFFFE)`
      and `trunc(x * 0x7FFFFFFE)`. */
  lemma SampleBytesDecode(x: real)
    requires -1.0 <= x <= 1.0
    ensures SampleBytes(Bits8, x)[0] as int == Trunc(x * 127.0) + 0x7F
    ensures SignedOf(SampleBytes(Bits16, x)) == Trunc(x * 32766.0)
    ensures SignedOf(SampleBytes(Bits24, x)) == Trunc(x * 8388606.0)
    ensures SignedOf(SampleBytes(Bits32, x)) == Trunc(x * 2147483646.0)
  {
    TruncBounded(x * 127.0, 127);
    OffsetByteDecode(Trunc(x * 127.0));
    TruncBounded(x * 32766.0, 32766);
    TwosDecode16(Trunc(x * 32766.0));
    TruncBounded(x * 8388606.0, 8388606);
    TwosDecode24(Trunc(x * 8388606.0));
    TruncBounded(x * 2147483646.0, 2147483646);
    TwosDecode32(Trunc(x * 2147483646.0));
  }

  /** The 32-bit writers' product as written: `(float)0x7FFFFFFE` rounds to
      2^31, so the truncated product is 2^31 for a sample of 1.0, one past
      the largest `int32_t`, and the cast of it is undefined. Every other
      sample in [-1, 1] fits. `SampleBytes` keeps the factor the source
      spells, 0x7FFFFFFE, under which every sample in [-1, 1] fits. */
  function Scaled32AsWritten(x: real): (t: int)
    requires -1.0 <= x <= 1.0
    ensures -0x8000_0000 <= t
    ensures t <= 0x7FFF_FFFF <==> x < 1.0
  {
    TruncBounded(x * 2147483648.0, 2147483648);
    Trunc(x * 2147483648.0)
  }

  lemma OffsetByteDecode(t: int)
    requires -0x7F <= t <= 0x7F
    ensures LeBytes(Twos(t + 0x7F, 1), 1)[0] as int == t + 0x7F
  {
    assert ByteModulus(1) == 0x100;
  }

  // A value inside the signed range of two, three or four bytes reads back
  // unchanged.

  lemma TwosDecode16(t: int)
    requires -0x8000 <= t < 0x8000
    ensures SignedOf(LeBytes(Twos(t, 2), 2)) == t
  {
    assert ByteModulus(2) == 0x1_0000;
    LeRoundTrip(Twos(t, 2), 2);
  }

  lemma TwosDecode24(t: int)
    requires -0x80_0000 <= t < 0x80_0000
    ensures SignedOf(LeBytes(Twos(t, 3), 3)) == t
  {
    assert ByteModulus(3) == 0x100_0000;
    LeRoundTrip(Twos(t, 3), 3);
  }

  lemma TwosDecode32(t: int)
    requires -0x8000_0000 <= t < 0x8000_0000
    ensures SignedOf(LeBytes(Twos(t, 4), 4)) == t
  {
    assert ByteModulus(4) == 0x1_0000_0000;
    LeRoundTrip(Twos(t, 4), 4);
  }

  /** Byte strings written one after the other. */
  function Concat(parts: seq<seq<uint8>>): seq<uint8>
  {
    if parts == [] then [] else Concat(parts[..|parts| - 1]) + parts[|parts| - 1]
  }

  lemma {:induction false} ConcatAppend(p: seq<seq<uint8>>, q: seq<seq<uint8>>)
    ensures Concat(p + q) == Concat(p) + Concat(q)
    decreases |q|
  {
    if q == [] {
      assert p + q == p;
    } else {
      var n := |q| - 1;
      assert (p + q)[..|p + q| - 1] == p + q[..n];
      ConcatAppend(p, q[..n]);
    }
  }

  lemma {:induction false} ConcatLength(parts: seq<seq<uint8>>, k: nat)
    requires forall j :: 0 <= j < |parts| ==> |parts[j]| == k
    ensures |Concat(parts)| == k * |parts|
  {
    if parts != [] {
      ConcatLength(parts[..|parts| - 1], k);
      assert k * |parts| == k * (|parts| - 1) + k;
    }
  }

  /** The encoding of each sample of a run. */
  function Encodings(w: PcmWidth, s: seq<real>): (r: seq<seq<uint8>>)
    ensures |r| == |s|
    ensures forall j :: 0 <= j < |s| ==> r[j] == SampleBytes(w, s[j])
  {
    seq(|s|, j requires 0 <= j < |s| => SampleBytes(w, s[j]))
  }

  /** The bytes of a run of samples, one encoding after the other. */
  function Encoded(w: PcmWidth, s: seq<real>): seq<uint8>
  {
    Concat(Encodings(w, s))
  }

  lemma EncodedLength(w: PcmWidth, s: seq<real>)
    ensures |Encoded(w, s)| == Width(w) * |s|
  {
    ConcatLength(Encodings(w, s), Width(w));
  }

  lemma EncodedLength32(s: seq<real>)
    ensures |Encoded(Bits32, s)| == 4 * |s|
  {
    EncodedLength(Bits32, s);
  }

  lemma EncodedAppend(w: PcmWidth, a: seq<real>, b: seq<real>)
    ensures Encoded(w, a + b) == Encoded(w, a) + Encoded(w, b)
  {
    assert Encodings(w, a + b) == Encodings(w, a) + Encodings(w, b);
    ConcatAppend(Encodings(w, a), Encodings(w, b));
  }

  /** One more sample adds its own encoding at the end. */
  lemma EncodedSnoc(w: PcmWidth, s: seq<real>, x: real)
    ensures Encoded(w, s + [x]) == Encoded(w, s) + SampleBytes(w, x)
  {
    var e := Encodings(w, s + [x]);
    assert e[..|s|] == Encodings(w, s);
  }

  /** The first `2 * |s|` bytes of the 32-bit encodings of `s`: the part of
      a block `writeStream32` writes. */
  function HalfWords(s: seq<real>): (r: seq<uint8>)
    ensures |r| == 2 * |s|
  {
    EncodedLength32(s);
    Encoded(Bits32, s)[..2 * |s|]
  }

  /** What `writeStream32` emits for the retired blocks. */
  function HalfBlocks(t: seq<seq<real>>): (r: seq<uint8>)
  {
    if t == [] then [] else HalfBlocks(t[..|t| - 1]) + HalfWords(t[|t| - 1])
  }

  lemma {:induction false} HalfBlocksLength(t: seq<seq<real>>)
    requires Full(t)
    ensures |HalfBlocks(t)| == 8192 * |t|
  {
    if t != [] {
      HalfBlocksLength(t[..|t| - 1]);
    }
  }

  // ---------------------------------------------------------------------
  // The level statistics of `getLimitAverage`

  function Abs(x: real): real { if x < 0.0 then -x else x }

  /** The running limit of `getLimitAverage`: the largest magnitude, 0 for
      no samples. */
  function Peak(s: seq<real>): (m: real)
    ensures 0.0 <= m
  {
    if s == [] then 0.0
    else
      var m := Peak(s[..|s| - 1]);
      var a := Abs(s[|s| - 1]);
      if a > m then a else m
  }

  /** The limit bounds every magnitude and is one of them unless it is 0. */
  lemma {:induction false} PeakIsLargest(s: seq<real>)
    ensures forall k :: 0 <= k < |s| ==> Abs(s[k]) <= Peak(s)
    ensures Peak(s) == 0.0 || exists k :: 0 <= k < |s| && Abs(s[k]) == Peak(s)
  {
    if s != [] {
      var n := |s| - 1;
      PeakIsLargest(s[..n]);
      assert forall k :: 0 <= k < n ==> s[..n][k] == s[k];
    }
  }

  /** The running sum of magnitudes. */
  function AbsSum(s: seq<real>): (r: real)
    ensures 0.0 <= r
  {
    if s == [] then 0.0 else AbsSum(s[..|s| - 1]) + Abs(s[|s| - 1])
  }

  /** One more sample extends the running limit and sum. */
  lemma SweepStep(s: seq<real>, count: nat)
    requires count < |s|
    ensures var a := Abs(s[count]);
      && Peak(s[..count + 1]) == (if a > Peak(s[..count]) then a else Peak(s[..count]))
      && AbsSum(s[..count + 1]) == AbsSum(s[..count]) + a
  {
    assert s[..count + 1][..count] == s[..count];
  }

  /** The buffer. `table` holds the retired blocks (by value: nothing else
      refers to them), `block` is the block being filled and `pos` the next
      free slot in it. */
  class SampleBuffer {
    var table: seq<seq<real>>
    var block: array<real>
    var pos: nat

    ghost predicate Valid()
      reads this
    {
      block.Length == 4096 && pos < 4096 && Full(table)
    }

    /** `size()`. */
    function Size(): nat
      reads this
    {
      |table| * 4096 + pos
    }

    /** The samples appended since the last clear, oldest first. */
    function Contents(): (s: seq<real>)
      requires Valid()
      reads this, block
      ensures |s| == Size()
    {
      FlattenLength(table);
      Flatten(table) + block[..pos]
    }

    /** `sizeBytes()`: four bytes per float. The source returns an
        `unsigned int`; the count here is exact, which it equals for buffers
        below 2^30 samples. */
    function SizeBytes(): (n: nat)
      requires Valid()
      reads this, block
      ensures n == 4 * |Contents()|
    {
      (|table| * 4096 + pos) * 4
    }

    /** `memoryBytes()`: every block held, the current one included. The
        source returns an `unsigned int`; the count here is exact, which it
        equals below 2^18 blocks. */
    function MemoryBytes(): (n: nat)
      requires Valid()
      reads this
      ensures n == 4 * 4096 * (|table| + 1) && n > 4 * Size()
    {
      (|table| + 1) * 4096 * 4
    }

    /** A fresh buffer: no retired block and an uninitialised current one. */
    constructor()
      ensures Valid() && Contents() == [] && table == [] && pos == 0
      ensures fresh(block)
    {
      table := [];
      pos := 0;
      block := new real[4096];
    }

    /** `operator<<`: store at `pos`; a block that becomes full is retired
        and a new one started, so `pos` stays below 4096. */
    method Append(f: real)
      requires Valid()
      modifies this, block
      ensures Valid()
      ensures Contents() == old(Contents()) + [f]
      ensures Size() == old(Size()) + 1
      ensures old(pos) == 4096 - 1 ==>
        table == old(table) + [old(block[..])[4096 - 1 := f]] && pos == 0 && fresh(block)
      ensures old(pos) < 4096 - 1 ==> table == old(table) && pos == old(pos) + 1 && block == old(block)
    {
      block[pos] := f;
      pos := pos + 1;
      if pos == 4096 {
        Retire();
      } else {
        assert block[..pos] == old(block[..pos]) + [f];
      }
    }

    /** The full block joins the table and a new block is started. */
    method Retire()
      requires block.Length == 4096 == pos && Full(table)
      modifies this
      ensures Valid() && pos == 0 && fresh(block)
      ensures table == old(table) + [old(block[..])]
      ensures Contents() == Flatten(old(table)) + old(block[..])
    {
      FlattenSnoc(table, block[..]);
      table := table + [block[..]];
      pos := 0;
      block := new real[4096];
    }

    /** `clear()`: drop the retired blocks and rewind; the current block
        keeps whatever it held. */
    method Clear()
      requires Valid()
      modifies this
      ensures Valid() && Contents() == [] && Size() == 0
      ensures table == [] && pos == 0 && block == old(block) && block[..] == old(block[..])
    {
      table := [];
      pos := 0;
    }

    /** `operator[]` as written. The bound check compares the block number
        with `|bTable| + 1` rather than `|bTable|`, and no check looks at
        `pos`. */
    function GetAsWritten(index: nat): (r: Fetch)
      requires Valid() && index < 0x1_0000_0000
      reads this, block
      ensures index < Size() ==> r == Sample(Contents()[index])
      ensures r == Thrown <==>
        (|table| == 0 && index >= 4096) || (|table| > 0 && index / 4096 > |table| + 1)
      ensures r == PastEnd <==> |table| > 0 && index / 4096 == |table| + 1
      ensures Size() <= index && index / 4096 == |table| ==> r == Sample(block[index % 4096])
    {
      var b := index / 4096;
      var o := index % 4096;
      SampleAddress(table, block[..pos], index);
      if |table| == 0 then
        if b > 0 then Thrown else Sample(block[o])
      else if b > |table| + 1 then Thrown
      else if b == |table| then Sample(block[o])
      else if b < |table| then Sample(table[b][o])
      else PastEnd
    }

    /** `operator[]` with the bound it evidently intends: every index below
        `size()` reads that sample, every other index throws. */
    function At(index: nat): (r: Result<real>)
      requires Valid()
      reads this, block
      ensures r.Ok? <==> index < Size()
      ensures r.Ok? ==> r.value == Contents()[index]
    {
      if index >= Size() then Err("invalid index into SfxrFloatBuffer")
      else
        var b := index / 4096;
        var o := index % 4096;
        SampleAddress(table, block[..pos], index);
        if b < |table| then Ok(table[b][o]) else Ok(block[o])
    }

    /** The slots `getLimitAverage` sweeps: every retired block and all 4096
        slots of the current block, the ones past `pos` included. */
    function Swept(): (s: seq<real>)
      requires Valid()
      reads this, block
      ensures |s| == Size() + (4096 - pos)
      ensures s[..Size()] == Contents()
    {
      FlattenLength(table);
      assert (Flatten(table) + block[..])[..Size()] == Flatten(table) + block[..pos];
      Flatten(table) + block[..]
    }

    /** `getLimitAverage` as written: the peak magnitude and the mean
        magnitude over the swept slots. */
    method GetLimitAverage() returns (limit: real, average: real)
      requires Valid()
      ensures limit == Peak(Swept()) && average == AbsSum(Swept()) / (|Swept()| as real)
    {
      var s := Swept();
      limit := 0.0;
      var total := 0.0;
      var count := 0;
      while count < |s|
        invariant 0 <= count <= |s|
        invariant limit == Peak(s[..count]) && total == AbsSum(s[..count])
      {
        SweepStep(s, count);
        var a := Abs(s[count]);
        total := total + a;
        if a > limit {
          limit := a;
        }
        count := count + 1;
      }
      assert s[..count] == s;
      average := total / (count as real);
    }

    /** The statistics over the samples alone, as `normalize` needs them: an
        empty buffer has limit and average 0. */
    function ContentsLimitAverage(): (r: (real, real))
      requires Valid()
      reads this, block
      ensures r.0 == Peak(Contents())
      ensures Size() > 0 ==> r.1 == AbsSum(Contents()) / (Size() as real)
      ensures Size() == 0 ==> r == (0.0, 0.0)
    {
      var s := Contents();
      if s == [] then (0.0, 0.0) else (Peak(s), AbsSum(s) / (|s| as real))
    }

    /** `scale(x)`: every slot of every block is multiplied by `x`, including
        the current block's slots past `pos`. */
    method ScaleBy(x: real)
      requires Valid()
      modifies this, block
      ensures Valid() && pos == old(pos) && block == old(block)
      ensures table == ScaledTable(old(table), x)
      ensures block[..] == Scaled(old(block[..]), x)
      ensures Contents() == Scaled(old(Contents()), x)
    {
      var j := 0;
      while j < 4096
        invariant 0 <= j <= 4096
        invariant block == old(block) && table == old(table) && pos == old(pos)
        invariant forall k :: 0 <= k < j ==> block[k] == old(block[k]) * x
        invariant forall k :: j <= k < 4096 ==> block[k] == old(block[k])
      {
        block[j] := block[j] * x;
        j := j + 1;
      }
      assert forall k :: 0 <= k < 4096 ==> block[..][k] == Scaled(old(block[..]), x)[k];
      assert block[..] == Scaled(old(block[..]), x);
      assert forall k :: 0 <= k < pos ==> block[..pos][k] == Scaled(old(block[..pos]), x)[k];
      assert block[..pos] == Scaled(old(block[..pos]), x);
      var t: seq<seq<real>> := [];
      var i := 0;
      while i < |table|
        invariant 0 <= i <= |table|
        invariant |t| == i
        invariant forall k :: 0 <= k < i ==> t[k] == Scaled(table[k], x)
      {
        t := t + [Scaled(table[i], x)];
        i := i + 1;
      }
      ScaledFlatten(table, x);
      ScaledAppend(Flatten(table), old(block[..pos]), x);
      table := t;
    }

    /** `writeStream`: the floats of every retired block and the first `pos`
        of the current one, in order, four bytes each on the stream. */
    method WriteFloats() returns (out: seq<real>)
      requires Valid()
      ensures out == Contents()
    {
      out := [];
      var i := 0;
      while i < |table|
        invariant 0 <= i <= |table|
        invariant out == Flatten(table[..i])
      {
        FlattenSnoc(table[..i], table[i]);
        assert table[..i + 1] == table[..i] + [table[i]];
        out := out + table[i];
        i := i + 1;
      }
      assert table[..i] == table;
      out := out + block[..pos];
    }

    /** `writeStream8`, `writeStream16` and `writeStream24`, and
        `writeStream32` as evidently intended: each sample's bytes in order,
        `width * size()` bytes in all. (`writeStream8` encodes all 4096 slots
        of the current block but writes only the first `pos`.) */
    method WritePcm(w: PcmWidth) returns (out: seq<uint8>)
      requires Valid()
      ensures out == Encoded(w, Contents())
      ensures |out| == Width(w) * Size()
    {
      out := [];
      var i := 0;
      while i < |table|
        invariant 0 <= i <= |table|
        invariant out == Encoded(w, Flatten(table[..i]))
      {
        var bytes := EncodeRun(w, table[i], 4096);
        assert table[i][..4096] == table[i];
        FlattenSnoc(table[..i], table[i]);
        assert table[..i + 1] == table[..i] + [table[i]];
        EncodedAppend(w, Flatten(table[..i]), table[i]);
        out := out + bytes;
        i := i + 1;
      }
      assert table[..i] == table;
      var last := EncodeRun(w, block[..], pos);
      assert block[..][..pos] == block[..pos];
      EncodedAppend(w, Flatten(table), block[..pos]);
      EncodedLength(w, Contents());
      out := out + last;
    }

    /** `writeStream32` as written: each block's samples are encoded as 32-bit
        words, but only `4096 * 2` (`pos * 2`) bytes of them are written. */
    method WriteStream32() returns (out: seq<uint8>)
      requires Valid()
      ensures out == HalfBlocks(table) + HalfWords(block[..pos])
      ensures |out| == 2 * Size()
    {
      out := [];
      var i := 0;
      while i < |table|
        invariant 0 <= i <= |table|
        invariant out == HalfBlocks(table[..i])
      {
        var bytes := EncodeRun(Bits32, table[i], 4096);
        assert table[i][..4096] == table[i];
        assert table[..i + 1][..i] == table[..i];
        EncodedLength32(table[i]);
        out := out + bytes[..2 * 4096];
        i := i + 1;
      }
      assert table[..i] == table;
      var last := EncodeRun(Bits32, block[..], pos);
      assert block[..][..pos] == block[..pos];
      EncodedLength32(block[..pos]);
      HalfBlocksLength(table);
      out := out + last[..2 * pos];
    }
  }

  /** The inner loop of the writers: encode the first `n` samples of `b`. */
  method EncodeRun(w: PcmWidth, b: seq<real>, n: nat) returns (bytes: seq<uint8>)
    requires n <= |b|
    ensures bytes == Encoded(w, b[..n])
  {
    bytes := [];
    var i := 0;
    while i < n
      invariant 0 <= i <= n
      invariant bytes == Encoded(w, b[..i])
    {
      assert b[..i + 1] == b[..i] + [b[i]];
      EncodedSnoc(w, b[..i], b[i]);
      bytes := bytes + SampleBytes(w, b[i]);
      i := i + 1;
    }
  }

  /** Each value multiplied by `x`. */
  function Scaled(s: seq<real>, x: real): (r: seq<real>)
    ensures |r| == |s|
  {
    seq(|s|, k requires 0 <= k < |s| => s[k] * x)
  }

  function ScaledTable(t: seq<seq<real>>, x: real): (r: seq<seq<real>>)
    ensures |r| == |t|
  {
    seq(|t|, k requires 0 <= k < |t| => Scaled(t[k], x))
  }

  lemma ScaledAppend(a: seq<real>, b: seq<real>, x: real)
    ensures Scaled(a + b, x) == Scaled(a, x) + Scaled(b, x)
  {
    var l := Scaled(a + b, x);
    var r := Scaled(a, x) + Scaled(b, x);
    assert forall k :: 0 <= k < |l| ==> l[k] == r[k];
  }

  /** Scaling the blocks one by one scales the samples they hold. */
  lemma {:induction false} ScaledFlatten(t: seq<seq<real>>, x: real)
    ensures Flatten(ScaledTable(t, x)) == Scaled(Flatten(t), x)
  {
    if t != [] {
      var n := |t| - 1;
      assert ScaledTable(t, x)[..n] == ScaledTable(t[..n], x);
      ScaledFlatten(t[..n], x);
      ScaledAppend(Flatten(t[..n]), t[n], x);
    }
  }

  /** Short runs show the defect of `writeStream32`: the byte count is half
      the run's 32-bit encoding, so a run of two samples yields the first
      sample's four bytes and nothing of the second, and a single sample
      yields only the first two of its four bytes, where the evidently
      intended writer emits every sample's four. */
  lemma WriteStream32DropsHighHalf(x: real, y: real)
    ensures var word := SampleBytes(Bits32, x);
      && HalfBlocks([]) + HalfWords([x]) == word[..2]
      && HalfBlocks([]) + HalfWords([x, y]) == word
      && Encoded(Bits32, [x]) == word
      && Encoded(Bits32, [x, y]) == word + SampleBytes(Bits32, y)
      && |word| == 4
  {
    EncodedSnoc(Bits32, [], x);
    assert [] + [x] == [x];
    EncodedSnoc(Bits32, [x], y);
    assert [x] + [y] == [x, y];
  }
}
