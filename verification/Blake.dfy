/** BLAKE-256 around its compression function: the buffered update and the closing counter trick.
    The compression itself is an arbitrary function of chaining value, block and counter words. */
module Blake {
  import opened Types
  import opened Buffering

  const U32: nat := 0x1_0000_0000
  const BLOCK: nat := 64

  type Chain = seq<nat>
  type Compression = (Chain, seq<bv8>, nat, nat) -> Chain

  /** What compression updates: the chaining value and the counter's two words. */
  datatype Mixed = Mixed(h: Chain, t0: nat, t1: nat)

  /** The counter as one 64-bit number. */
  function Counter(c: Mixed): nat {
    c.t1 * U32 + c.t0
  }

  /** Compress one full block: advance the counter by 512 with carry, then mix. */
  function Step(f: Compression, c: Mixed, block: seq<bv8>): Mixed {
    var t0 := (c.t0 + 512) % U32;
    var t1 := if t0 < 512 then (c.t1 + 1) % U32 else c.t1;
    Mixed(f(c.h, block, t0, t1), t0, t1)
  }

  function Steps(f: Compression): (Mixed, seq<bv8>) -> Mixed {
    (c, block) => Step(f, c, block)
  }

  // ---- the counter ----

  /** The carry is exact: every block adds 512 to the 64-bit counter. */
  lemma StepCounts(f: Compression, c: Mixed, block: seq<bv8>)
    requires c.t0 < U32 && c.t1 < U32
    ensures Counter(Step(f, c, block)) == (Counter(c) + 512) % U64
    ensures Step(f, c, block).t0 < U32 && Step(f, c, block).t1 < U32
  {
    var d := Step(f, c, block);
    if c.t0 + 512 >= U32 {
      assert d.t0 == c.t0 + 512 - U32;
      if c.t1 + 1 == U32 { assert d.t1 == 0; }
    }
  }

  /** The 64-bit count of the bits in `n` blocks. */
  function Bits(n: nat): (r: nat)
    ensures r < U64
  {
    (512 * n) % U64
  }

  lemma BitsNext(n: nat)
    ensures Bits(n + 1) == (Bits(n) + 512) % U64
  {
  }

  /** The state whose counter is `bits`. */
  function Counted(h: Chain, bits: nat): Mixed {
    Mixed(h, bits % U32, bits / U32)
  }

  lemma CountedIs(c: Mixed, bits: nat)
    requires c.t0 < U32 && Counter(c) == bits
    ensures c == Counted(c.h, bits)
  {
  }

  lemma CountedCounts(h: Chain, bits: nat)
    requires bits < U64
    ensures Counter(Counted(h, bits)) == bits
    ensures Counted(h, bits).t0 < U32 && Counted(h, bits).t1 < U32
  {
  }

  lemma StepCounted(f: Compression, h: Chain, n: nat, block: seq<bv8>)
    ensures Step(f, Counted(h, Bits(n)), block)
         == Counted(f(h, block, Bits(n + 1) % U32, Bits(n + 1) / U32), Bits(n + 1))
  {
    hide Bits;
    var c := Counted(h, Bits(n));
    CountedCounts(h, Bits(n));
    BitsNext(n);
    var d := Step(f, c, block);
    assert d.h == f(h, block, d.t0, d.t1);
    StepCounts(f, c, block);
    CountedIs(d, Bits(n + 1));
  }

  /** Chaining over the first `n` whole blocks, block `i` mixed with the bit count up to its end. */
  function Chained(f: Compression, h: Chain, data: seq<bv8>, n: nat): Chain
    requires n * BLOCK <= |data|
  {
    if n == 0 then h else
      f(Chained(f, h, data, n - 1), data[(n - 1) * BLOCK..n * BLOCK], Bits(n) % U32, Bits(n) / U32)
  }

  lemma {:induction false} FoldCounts(f: Compression, iv: Chain, data: seq<bv8>, n: nat)
    requires n * BLOCK <= |data|
    ensures Fold(Steps(f), BLOCK, Counted(iv, 0), data, n) == Counted(Chained(f, iv, data, n), Bits(n))
  {
    if n > 0 {
      FoldCounts(f, iv, data, n - 1);
      StepCounted(f, Chained(f, iv, data, n - 1), n - 1, data[(n - 1) * BLOCK..n * BLOCK]);
      hide Bits, Counted, Step;
    }
  }

  /** From a fresh context any input leaves the fold of its whole blocks, the exact bit count of
      those blocks, and the bytes after them. */
  lemma AbsorbFresh(f: Compression, iv: Chain, data: seq<bv8>)
    ensures var n := |data| / BLOCK;
            Absorb(Steps(f), BLOCK, Held(Counted(iv, 0), []), data)
              == Held(Counted(Chained(f, iv, data, n), Bits(n)), data[n * BLOCK..])
  {
    var n := |data| / BLOCK;
    assert [] + data == data;
    ConsumeFolds(Steps(f), BLOCK, Counted(iv, 0), data, n);
    FoldCounts(f, iv, data, n);
    hide Chained, Counted, Steps;
    ConsumeStep(Steps(f), BLOCK, Counted(Chained(f, iv, data, n), Bits(n)), data[n * BLOCK..]);
  }

  // ---- padding and the closing counters ----

  function Words(f: Compression, h: Chain, block: seq<bv8>, bits: nat): Chain {
    f(h, block, bits % U32, bits / U32)
  }

  /** The last message byte: `extra` leading bits of `ub`, then a one bit. */
  function Mark(ub: bv8, extra: nat): bv8
    requires extra < 8
  {
    var z: bv8 := 0x80 >> extra;
    (ub & -z) | z
  }

  /** The low eight bits of a number. */
  function Byte(x: nat): bv8 {
    (if x / 128 % 2 == 1 then 0x80 else 0) | (if x / 64 % 2 == 1 then 0x40 else 0)
    | (if x / 32 % 2 == 1 then 0x20 else 0) | (if x / 16 % 2 == 1 then 0x10 else 0)
    | (if x / 8 % 2 == 1 then 8 else 0) | (if x / 4 % 2 == 1 then 4 else 0)
    | (if x / 2 % 2 == 1 then 2 else 0) | (if x % 2 == 1 then 1 else 0)
  }

  function Be32(x: nat): (r: seq<bv8>)
    ensures |r| == 4
  {
    [Byte(x / 0x100_0000), Byte(x / 0x1_0000), Byte(x / 0x100), Byte(x)]
  }

  function WordAt(h: Chain, k: nat): nat {
    if k < |h| then h[k] else 0
  }

  /** The first `n` words, each as four bytes. */
  function Encoded(h: Chain, n: nat): (r: seq<bv8>)
    ensures |r| == 4 * n
  {
    if n == 0 then [] else Encoded(h, n - 1) + Be32(WordAt(h, n - 1) % U32)
  }

  function Be64(x: nat): (r: seq<bv8>)
    ensures |r| == 8
  {
    Be32(x / U32) + Be32(x % U32)
  }

  function Zeros(n: nat): (r: seq<bv8>)
    ensures |r| == n
  {
    seq(n, _ => 0)
  }

  function SetLow(b: bv8): bv8 { b | 1 }

  /** Set the lowest bit of the last byte, for the 256-bit variant. */
  function Flagged(s: seq<bv8>, full: bool): (r: seq<bv8>)
    requires |s| > 0
    ensures |r| == |s|
  {
    if full then s[|s| - 1 := SetLow(s[|s| - 1])] else s
  }

  /** What follows the whole blocks of a message: its tail, a one bit, zeros up to the length field
      of this block or the next, a closing one bit, and the 64-bit length. */
  function Padding(tail: seq<bv8>, ub: bv8, extra: nat, full: bool, bits: nat): (r: seq<bv8>)
    requires |tail| < BLOCK && extra < 8
    ensures |r| == if 8 * |tail| + extra <= 446 then BLOCK else 2 * BLOCK
  {
    var gap := if 8 * |tail| + extra <= 446 then 55 - |tail| else 119 - |tail|;
    Flagged(tail + [Mark(ub, extra)] + Zeros(gap), full) + Be64(bits)
  }

  /** The padded message of BLAKE: a whole number of blocks. */
  function Padded(data: seq<bv8>, ub: bv8, extra: nat, full: bool): seq<bv8>
    requires extra < 8
  {
    var n := |data| / BLOCK * BLOCK;
    data[..n] + Padding(data[n..], ub, extra, full, (8 * |data| + extra) % U64)
  }

  /** The message bits hashed up to the end of block `k` (counted from one), or zero when that
      block holds padding only. */
  function Hashed(bits: nat, k: nat): nat
    requires k > 0
  {
    if 512 * (k - 1) >= bits then 0 else if 512 * k <= bits then 512 * k else bits
  }

  /** The reference: chain over the padded blocks, each with its own count of message bits. */
  function Reference(f: Compression, h: Chain, padded: seq<bv8>, bits: nat, k: nat): Chain
    requires k * BLOCK <= |padded|
  {
    if k == 0 then h else
      Words(f, Reference(f, h, padded, bits, k - 1), padded[(k - 1) * BLOCK..k * BLOCK], Hashed(bits, k) % U64)
  }

  function Digest(f: Compression, iv: Chain, data: seq<bv8>, ub: bv8, extra: nat, full: bool): Chain
    requires extra < 8
  {
    var padded := Padded(data, ub, extra, full);
    Reference(f, iv, padded, 8 * |data| + extra, |padded| / BLOCK)
  }

  /** The padding is as short as the message, its two marks and the length field allow. */
  lemma PaddedLength(data: seq<bv8>, ub: bv8, extra: nat, full: bool)
    requires extra < 8
    ensures |Padded(data, ub, extra, full)| == BLOCK * ((8 * |data| + extra + 66 + 511) / 512)
  {
    hide Padding;
    var n := |data| / BLOCK;
    var t := |data| % BLOCK;
    var padding := Padding(data[n * BLOCK..], ub, extra, full, (8 * |data| + extra) % U64);
    assert |Padded(data, ub, extra, full)| == BLOCK * n + |padding|;
    hide Padded;
    BlockCount(n, 8 * t + extra);
  }

  lemma BlockCount(n: nat, bitLen: nat)
    requires bitLen < 512
    ensures (512 * n + bitLen + 66 + 511) / 512 == if bitLen <= 446 then n + 1 else n + 2
  {
  }

  /** The counter words that closing stores so that the next step's addition lands on the count. */
  function Preset(t0: nat, t1: nat, bitLen: nat): (r: (nat, nat))
    requires t0 < U32 && t1 < U32 && bitLen < 512
    ensures r.0 < U32 && r.1 < U32
  {
    if bitLen == 0 then (0xFFFF_FE00, 0xFFFF_FFFF)
    else if t0 == 0 then (0xFFFF_FE00 + bitLen, (t1 + U32 - 1) % U32)
    else ((t0 + U32 - (512 - bitLen)) % U32, t1)
  }

  /** The wrapped presets give the exact bit count, or zero for a block of padding only. */
  lemma PresetExact(f: Compression, h: Chain, t0: nat, t1: nat, bitLen: nat, block: seq<bv8>)
    requires t0 < U32 && t1 < U32 && t0 % 512 == 0 && bitLen < 512
    ensures var t := Preset(t0, t1, bitLen);
            var bits := if bitLen == 0 then 0 else t1 * U32 + t0 + bitLen;
            Step(f, Mixed(h, t.0, t.1), block).h == Words(f, h, block, bits)
  {
    var t := Preset(t0, t1, bitLen);
    var d := Step(f, Mixed(h, t.0, t.1), block);
    if bitLen == 0 {
      assert d.t0 == 0 && d.t1 == 0;
    } else {
      PresetLands(t0, t1, bitLen);
      assert d.t0 == t0 + bitLen && d.t1 == t1;
      CountedIs(d, t1 * U32 + t0 + bitLen);
    }
  }

  lemma PresetLands(t0: nat, t1: nat, bitLen: nat)
    requires t0 < U32 && t1 < U32 && t0 % 512 == 0 && 0 < bitLen < 512
    ensures var t := Preset(t0, t1, bitLen);
            var u0 := (t.0 + 512) % U32;
            t0 + bitLen == u0 && t1 == if u0 < 512 then (t.1 + 1) % U32 else t.1
  {
    if t0 != 0 {
      assert t0 >= 512 && t0 <= U32 - 512;
    }
  }

  lemma BitsAligned(n: nat)
    ensures Bits(n) % U32 % 512 == 0
  {
    assert Bits(n) % 512 == 0;
  }

  /** The length of a message from the bits of its whole blocks. */
  lemma BitsOf(n: nat, bitLen: nat)
    requires bitLen < 512
    ensures (512 * n + bitLen) % U64 == Bits(n) + bitLen
  {
    assert Bits(n) % 512 == 0;
  }

  /** Over the whole blocks of the message the reference is the plain fold. */
  lemma {:induction false} ReferenceWhole(f: Compression, iv: Chain, data: seq<bv8>, ub: bv8, extra: nat, full: bool, k: nat)
    requires extra < 8 && k <= |data| / BLOCK
    ensures k * BLOCK <= |Padded(data, ub, extra, full)|
    ensures Reference(f, iv, Padded(data, ub, extra, full), 8 * |data| + extra, k) == Chained(f, iv, data, k)
  {
    hide Padded, Hashed;
    PaddedBlock(data, ub, extra, full, k);
    if k > 0 {
      ReferenceWhole(f, iv, data, ub, extra, full, k - 1);
    }
  }

  /** A whole block of the message is a block of the padded message. */
  lemma PaddedBlock(data: seq<bv8>, ub: bv8, extra: nat, full: bool, k: nat)
    requires extra < 8 && k <= |data| / BLOCK
    ensures k * BLOCK <= |data| && k * BLOCK <= |Padded(data, ub, extra, full)|
    ensures k > 0 ==> Padded(data, ub, extra, full)[(k - 1) * BLOCK..k * BLOCK] == data[(k - 1) * BLOCK..k * BLOCK]
    ensures k > 0 ==> Hashed(8 * |data| + extra, k) == 512 * k
  {
    hide Padding;
    var padded := Padded(data, ub, extra, full);
    var n := |data| / BLOCK * BLOCK;
    assert padded[..n] == data[..n];
    if k > 0 {
      assert padded[(k - 1) * BLOCK..k * BLOCK] == padded[..n][(k - 1) * BLOCK..k * BLOCK] == data[(k - 1) * BLOCK..k * BLOCK];
    }
  }

  /** One more block of the reference. */
  lemma ReferenceNext(f: Compression, h: Chain, whole: seq<bv8>, p: seq<bv8>, bits: nat, n: nat)
    requires |whole| == n * BLOCK && |p| >= BLOCK
    ensures Reference(f, h, whole + p, bits, n + 1)
         == Words(f, Reference(f, h, whole + p, bits, n), p[..BLOCK], Hashed(bits, n + 1) % U64)
  {
    hide Words, Hashed;
    assert (whole + p)[n * BLOCK..(n + 1) * BLOCK] == p[..BLOCK];
  }

  lemma ReferenceTwo(f: Compression, h: Chain, whole: seq<bv8>, p: seq<bv8>, bits: nat, n: nat)
    requires |whole| == n * BLOCK && |p| == 2 * BLOCK
    ensures Reference(f, h, whole + p, bits, n + 2)
         == Words(f, Reference(f, h, whole + p, bits, n + 1), p[BLOCK..], Hashed(bits, n + 2) % U64)
  {
    hide Words, Hashed;
    ReferenceNext(f, h, whole + p[..BLOCK], p[BLOCK..], bits, n + 1);
    assert whole + p[..BLOCK] + p[BLOCK..] == whole + p;
    assert p[BLOCK..][..BLOCK] == p[BLOCK..];
  }

  /** The closing of a message whose `n` whole blocks chained to `h`: one compression or two. */
  function Closing(f: Compression, h: Chain, n: nat, tail: seq<bv8>, ub: bv8, extra: nat, full: bool): Chain
    requires |tail| < BLOCK && extra < 8
  {
    var bitLen := 8 * |tail| + extra;
    var p := Padding(tail, ub, extra, full, Bits(n) + bitLen);
    if bitLen <= 446 then Words(f, h, p, if bitLen == 0 then 0 else Bits(n) + bitLen)
    else Words(f, Words(f, h, p[..BLOCK], Bits(n) + bitLen), p[BLOCK..], 0)
  }

  lemma DigestCloses(f: Compression, iv: Chain, data: seq<bv8>, ub: bv8, extra: nat, full: bool)
    requires extra < 8
    ensures var n := |data| / BLOCK;
            Digest(f, iv, data, ub, extra, full)
              == Closing(f, Chained(f, iv, data, n), n, data[n * BLOCK..], ub, extra, full)
  {
    hide Padding, Padded, Bits, Chained, Reference, Words, Hashed;
    var n := |data| / BLOCK;
    var whole, tail := data[..n * BLOCK], data[n * BLOCK..];
    var bitLen := 8 * |tail| + extra;
    var p := Padding(tail, ub, extra, full, Bits(n) + bitLen);
    PaddedSplits(data, ub, extra, full);
    ReferenceWhole(f, iv, data, ub, extra, full, n);
    ReferenceCloses(f, iv, whole, p, n, bitLen);
  }

  lemma ReferenceCloses(f: Compression, iv: Chain, whole: seq<bv8>, p: seq<bv8>, n: nat, bitLen: nat)
    requires |whole| == n * BLOCK && bitLen < 512
    requires |p| == if bitLen <= 446 then BLOCK else 2 * BLOCK
    ensures var h := Reference(f, iv, whole + p, 512 * n + bitLen, n);
            Reference(f, iv, whole + p, 512 * n + bitLen, n + |p| / BLOCK)
              == if bitLen <= 446 then Words(f, h, p, if bitLen == 0 then 0 else Bits(n) + bitLen)
                 else Words(f, Words(f, h, p[..BLOCK], Bits(n) + bitLen), p[BLOCK..], 0)
  {
    hide Bits, Reference, Words, Hashed;
    HashedLast(n, bitLen);
    ReferenceNext(f, iv, whole, p, 512 * n + bitLen, n);
    if bitLen <= 446 {
      assert p[..BLOCK] == p;
    } else {
      ReferenceTwo(f, iv, whole, p, 512 * n + bitLen, n);
    }
  }

  lemma PaddedSplits(data: seq<bv8>, ub: bv8, extra: nat, full: bool)
    requires extra < 8
    ensures var n := |data| / BLOCK;
            var tail := data[n * BLOCK..];
            var bitLen := 8 * |tail| + extra;
            var padded := Padded(data, ub, extra, full);
            var p := Padding(tail, ub, extra, full, Bits(n) + bitLen);
            && 8 * |data| + extra == 512 * n + bitLen
            && padded == data[..n * BLOCK] + p
            && |padded| / BLOCK == n + |p| / BLOCK
  {
    hide Padding, Bits;
    var n := |data| / BLOCK;
    BitsOf(n, 8 * |data[n * BLOCK..]| + extra);
  }

  lemma HashedLast(n: nat, bitLen: nat)
    requires bitLen < 512
    ensures Hashed(512 * n + bitLen, n + 1) % U64 == if bitLen == 0 then 0 else Bits(n) + bitLen
    ensures Hashed(512 * n + bitLen, n + 2) == 0
  {
    BitsOf(n, bitLen);
  }

  // ---- the context object ----

  class Hasher {
    const f: Compression
    const iv: Chain
    var h: Chain
    var t0: nat
    var t1: nat
    const buf: array<bv8>
    var ptr: nat
    ghost var fed: seq<bv8>

    ghost predicate Shape()
      reads this
    {
      buf.Length == BLOCK && ptr < BLOCK && t0 < U32 && t1 < U32
    }

    ghost function View(): Held<Mixed, bv8>
      requires Shape()
      reads this, buf
    {
      Held(Mixed(h, t0, t1), buf[..ptr])
    }

    /** The context is the one a single update with everything fed so far would leave. */
    ghost predicate Valid()
      reads this, buf
    {
      Shape() && View() == Absorb(Steps(f), BLOCK, Held(Counted(iv, 0), []), fed)
    }

    constructor (f: Compression, iv: Chain)
      ensures Valid() && fresh(buf) && this.f == f && this.iv == iv && fed == []
    {
      this.f, this.iv := f, iv;
      h, t0, t1, ptr, fed := iv, 0, 0, 0, [];
      buf := new bv8[BLOCK];
      new;
      assert [] + fed == [];
    }

    /** Copy a chunk that fits into the buffer, and compress when that fills it. */
    method Fill(chunk: seq<bv8>)
      requires Shape() && |chunk| <= BLOCK - ptr
      modifies this, buf
      ensures Shape() && View() == Absorb(Steps(f), BLOCK, old(View()), chunk)
      ensures fed == old(fed)
    {
      hide Absorb;
      forall i | 0 <= i < |chunk| { buf[ptr + i] := chunk[i]; }
      ptr := ptr + |chunk|;
      assert buf[..ptr] == old(View().pending) + chunk;
      AbsorbChunk(Steps(f), BLOCK, old(View()), chunk);
      if ptr == BLOCK {
        assert buf[..] == buf[..ptr];
        t0 := (t0 + 512) % U32;
        if t0 < 512 {
          t1 := (t1 + 1) % U32;
        }
        h := f(h, buf[..], t0, t1);
        ptr := 0;
      }
    }

    /** One update call: buffer what does not complete a block, otherwise consume block by block. */
    method Feed(data: seq<bv8>)
      requires Shape()
      modifies this, buf
      ensures Shape() && View() == Absorb(Steps(f), BLOCK, old(View()), data)
      ensures fed == old(fed)
    {
      hide Absorb;
      if |data| < BLOCK - ptr {
        Fill(data);
        return;
      }
      var pos := 0;
      assert data[pos..] == data;
      while pos < |data|
        invariant 0 <= pos <= |data| && Shape() && fed == old(fed)
        invariant Absorb(Steps(f), BLOCK, View(), data[pos..]) == Absorb(Steps(f), BLOCK, old(View()), data)
      {
        var n := if BLOCK - ptr > |data| - pos then |data| - pos else BLOCK - ptr;
        assert data[pos..] == data[pos..pos + n] + data[pos + n..];
        AbsorbSplit(Steps(f), BLOCK, View(), data[pos..pos + n], data[pos + n..]);
        Fill(data[pos..pos + n]);
        pos := pos + n;
      }
      assert data[pos..] == [];
      AbsorbNone(Steps(f), BLOCK, View());
    }

    method Update(data: seq<bv8>)
      requires Valid()
      modifies this, buf
      ensures Valid() && fed == old(fed) + data
    {
      hide Absorb;
      Feed(data);
      AbsorbSplit(Steps(f), BLOCK, Held(Counted(iv, 0), []), fed, data);
      fed := fed + data;
    }

    /** Close the hash: `extra` more message bits in `ub`, then the padding. */
    method Close(ub: bv8, extra: nat, full: bool) returns (digest: seq<bv8>)
      requires Valid() && extra < 8
      modifies this, buf
      ensures digest == Encoded(Digest(f, iv, old(fed), ub, extra, full), if full then 8 else 7)
    {
      hide Absorb, Digest, Closing, Bits, Counted, Chained, Preset, Be32, Flagged, Mark, Zeros;
      ghost var n, tail, start := |fed| / BLOCK, buf[..ptr], h;
      AbsorbFresh(f, iv, fed);
      CountedIsAligned(View().state, Chained(f, iv, fed, n), n);
      DigestCloses(f, iv, fed, ub, extra, full);
      var bitLen := 8 * ptr + extra;
      var tl := (t0 + bitLen) % U32;
      var length := Be32(t1) + Be32(tl);
      var preset := Preset(t0, t1, bitLen);
      t0, t1 := preset.0, preset.1;
      if bitLen <= 446 {
        var last := Flagged([Mark(ub, extra)] + Zeros(55 - ptr), full) + length;
        ClosingOne(f, start, n, tail, ub, extra, full);
        Feed(last);
      } else {
        var last := [Mark(ub, extra)] + Zeros(63 - ptr);
        ClosingTwo(f, start, n, tail, ub, extra, full);
        Feed(last);
        t0, t1 := 0xFFFF_FE00, 0xFFFF_FFFF;
        last := Flagged(Zeros(56), full) + length;
        Feed(last);
      }
      digest := [];
      var k := 0;
      while k < if full then 8 else 7
        invariant 0 <= k <= (if full then 8 else 7) && digest == Encoded(h, k)
      {
        digest := digest + Be32(WordAt(h, k) % U32);
        k := k + 1;
      }
    }
  }

  lemma CountedIsAligned(c: Mixed, h: Chain, n: nat)
    requires c == Counted(h, Bits(n))
    ensures c.h == h && c.t0 == Bits(n) % U32 && c.t1 == Bits(n) / U32
    ensures c.t0 % 512 == 0 && c.t0 < U32 && c.t1 < U32
  {
    BitsAligned(n);
  }

  /** The length field written from the two counter words is the message length. */
  lemma ClosingLength(n: nat, bitLen: nat)
    requires bitLen < 512
    ensures Be32(Bits(n) / U32) + Be32((Bits(n) % U32 + bitLen) % U32) == Be64(Bits(n) + bitLen)
  {
    BitsAligned(n);
    hide Bits, Be32;
    assert Bits(n) % U32 + bitLen < U32;
  }

  /** Filling the buffer of a context with preset counters compresses with the exact bit count. */
  lemma ClosingStep(f: Compression, h: Chain, n: nat, tail: seq<bv8>, bitLen: nat, rest: seq<bv8>)
    requires |tail| + |rest| == BLOCK && bitLen < 512
    ensures Bits(n) / U32 < U32
    ensures var t := Preset(Bits(n) % U32, Bits(n) / U32, bitLen);
            var c := Absorb(Steps(f), BLOCK, Held(Mixed(h, t.0, t.1), tail), rest);
            c.pending == [] && c.state.h == Words(f, h, tail + rest, if bitLen == 0 then 0 else Bits(n) + bitLen)
  {
    BitsAligned(n);
    hide Bits, Absorb;
    var t := Preset(Bits(n) % U32, Bits(n) / U32, bitLen);
    AbsorbChunk(Steps(f), BLOCK, Held(Mixed(h, t.0, t.1), tail), rest);
    assert Bits(n) / U32 * U32 + Bits(n) % U32 == Bits(n);
    PresetExact(f, h, Bits(n) % U32, Bits(n) / U32, bitLen, tail + rest);
  }

  /** The padding as it is written into the buffer: in one block, or split over two. */
  lemma PaddingOne(tail: seq<bv8>, ub: bv8, extra: nat, full: bool, bits: nat)
    requires extra < 8 && 8 * |tail| + extra <= 446
    ensures tail + (Flagged([Mark(ub, extra)] + Zeros(55 - |tail|), full) + Be64(bits)) == Padding(tail, ub, extra, full, bits)
  {
    hide SetLow, Mark, Be64;
    FlaggedMore(tail, [Mark(ub, extra)] + Zeros(55 - |tail|), full);
    assert tail + ([Mark(ub, extra)] + Zeros(55 - |tail|)) == tail + [Mark(ub, extra)] + Zeros(55 - |tail|);
    hide Flagged, Zeros;
  }

  lemma PaddingTwo(tail: seq<bv8>, ub: bv8, extra: nat, full: bool, bits: nat)
    requires extra < 8 && |tail| < BLOCK && 8 * |tail| + extra > 446
    ensures var p := Padding(tail, ub, extra, full, bits);
            && p[..BLOCK] == tail + ([Mark(ub, extra)] + Zeros(63 - |tail|))
            && p[BLOCK..] == Flagged(Zeros(56), full) + Be64(bits)
  {
    hide SetLow, Mark, Be64;
    var first := tail + ([Mark(ub, extra)] + Zeros(63 - |tail|));
    assert tail + [Mark(ub, extra)] + Zeros(119 - |tail|) == first + Zeros(56);
    FlaggedMore(first, Zeros(56), full);
    hide Flagged, Zeros;
  }

  lemma FlaggedMore(a: seq<bv8>, b: seq<bv8>, full: bool)
    requires |b| > 0
    ensures Flagged(a + b, full) == a + Flagged(b, full)
  {
    hide SetLow;
  }

  lemma ClosingOne(f: Compression, h: Chain, n: nat, tail: seq<bv8>, ub: bv8, extra: nat, full: bool)
    requires extra < 8 && 8 * |tail| + extra <= 446
    ensures Bits(n) / U32 < U32
    ensures var bitLen := 8 * |tail| + extra;
            var t := Preset(Bits(n) % U32, Bits(n) / U32, bitLen);
            var rest := Flagged([Mark(ub, extra)] + Zeros(55 - |tail|), full)
                      + (Be32(Bits(n) / U32) + Be32((Bits(n) % U32 + bitLen) % U32));
            Absorb(Steps(f), BLOCK, Held(Mixed(h, t.0, t.1), tail), rest).state.h == Closing(f, h, n, tail, ub, extra, full)
  {
    hide Absorb, Preset, Bits, Words, Be32, Be64, Mark, Zeros;
    var bitLen := 8 * |tail| + extra;
    var rest := Flagged([Mark(ub, extra)] + Zeros(55 - |tail|), full) + Be64(Bits(n) + bitLen);
    ClosingLength(n, bitLen);
    ClosingStep(f, h, n, tail, bitLen, rest);
    PaddingOne(tail, ub, extra, full, Bits(n) + bitLen);
    hide Flagged, Padding;
  }

  lemma ClosingTwo(f: Compression, h: Chain, n: nat, tail: seq<bv8>, ub: bv8, extra: nat, full: bool)
    requires extra < 8 && |tail| < BLOCK && 8 * |tail| + extra > 446
    ensures Bits(n) / U32 < U32
    ensures var bitLen := 8 * |tail| + extra;
            var t := Preset(Bits(n) % U32, Bits(n) / U32, bitLen);
            var c := Absorb(Steps(f), BLOCK, Held(Mixed(h, t.0, t.1), tail), [Mark(ub, extra)] + Zeros(63 - |tail|));
            var rest := Flagged(Zeros(56), full) + (Be32(Bits(n) / U32) + Be32((Bits(n) % U32 + bitLen) % U32));
            && c.pending == []
            && Absorb(Steps(f), BLOCK, Held(Mixed(c.state.h, 0xFFFF_FE00, 0xFFFF_FFFF), []), rest).state.h == Closing(f, h, n, tail, ub, extra, full)
  {
    hide Absorb, Bits, Words, Be32, Be64, Mark;
    var bitLen := 8 * |tail| + extra;
    var first := [Mark(ub, extra)] + Zeros(63 - |tail|);
    var rest := Flagged(Zeros(56), full) + Be64(Bits(n) + bitLen);
    ClosingLength(n, bitLen);
    ClosingStep(f, h, n, tail, bitLen, first);
    var t := Preset(Bits(n) % U32, Bits(n) / U32, bitLen);
    var c := Absorb(Steps(f), BLOCK, Held(Mixed(h, t.0, t.1), tail), first);
    ClosingStep(f, c.state.h, n, [], 0, rest);
    assert [] + rest == rest;
    PaddingTwo(tail, ub, extra, full, Bits(n) + bitLen);
    hide Flagged, Padding;
  }
}
