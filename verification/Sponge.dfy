/** The Keccak sponge: buffered absorption into a lane-complemented state, padding and squeezing. */
module Sponge {
  import opened Arith
  import opened Keccak
  import opened Buffering

  /** A byte as its bits, the lowest first. */
  type Octet = s: seq<bool> | |s| == 8 witness seq(8, _ => false)

  // ---- the sponge of section 4 of FIPS 202, over bit strings ----

  const ZERO: Lanes := seq(25, _ => Same(false))

  /** The state with a block of bits, extended by zeros, added in. */
  function XorBits(w: Lanes, bits: seq<bool>): Lanes {
    seq(25, j requires 0 <= j < 25 => if 64 * j + 64 <= |bits| then Xor(w[j], bits[64 * j..64 * j + 64]) else w[j])
  }

  function AbsorbBits(w: Lanes, bits: seq<bool>): Lanes {
    Permuted(XorBits(w, bits))
  }

  /** The zeros of the padding rule pad10*1 of section 5.1: the least number that fills a block. */
  function Gap(rate: nat, m: nat): (g: nat)
    requires rate > 0
    ensures g < rate
  {
    rate - 1 - (m + 1) % rate
  }

  function Pad(rate: nat, m: nat): (r: seq<bool>)
    requires rate > 0
    ensures |r| == Gap(rate, m) + 2
  {
    [true] + seq(Gap(rate, m), _ => false) + [true]
  }

  /** A padded message fills whole blocks. */
  lemma PadFills(rate: nat, m: nat)
    requires rate > 0
    ensures m + Gap(rate, m) + 2 == ((m + 1) / rate + 1) * rate
  {
    var q := (m + 1) / rate;
    assert m + 1 == q * rate + (m + 1) % rate;
    assert (q + 1) * rate == q * rate + rate;
  }

  /** The state after absorbing the padded message. */
  function Absorbed(rate: nat, message: seq<bool>): Lanes
    requires rate > 0
  {
    var padded := message + Pad(rate, |message|);
    Consume(AbsorbBits, rate, ZERO, padded).state
  }

  /** The padded message is absorbed to the last bit: the state is the fold over its blocks. */
  lemma AbsorbedWhole(rate: nat, message: seq<bool>) returns (n: nat)
    requires rate > 0
    ensures |message + Pad(rate, |message|)| == n * rate
    ensures var padded := message + Pad(rate, |message|);
            && Consume(AbsorbBits, rate, ZERO, padded) == Held(Fold(AbsorbBits, rate, ZERO, padded, n), [])
            && Absorbed(rate, message) == Fold(AbsorbBits, rate, ZERO, padded, n)
  {
    hide AbsorbBits, Consume, Fold, Pad;
    n := (|message| + 1) / rate + 1;
    PadFills(rate, |message|);
    ConsumeWhole(AbsorbBits, rate, ZERO, message + Pad(rate, |message|), n);
  }

  /** The first `n` bits of the state, in word order. */
  function Squeezed(w: Lanes, n: nat): seq<bool>
    requires n <= 1600
  {
    seq(n, k requires 0 <= k < n => w[k / 64][k % 64])
  }

  // ---- bytes ----

  function Flat(o: seq<Octet>): (r: seq<bool>)
    ensures |r| == 8 * |o|
  {
    seq(8 * |o|, k requires 0 <= k < 8 * |o| => o[k / 8][k % 8])
  }

  lemma FlatSum(a: seq<Octet>, b: seq<Octet>)
    ensures Flat(a + b) == Flat(a) + Flat(b)
  {
  }

  lemma FlatSlice(o: seq<Octet>, i: nat, j: nat)
    requires i <= j <= |o|
    ensures Flat(o[i..j]) == Flat(o)[8 * i..8 * j]
  {
  }

  /** Eight bytes as a little-endian word. */
  function Word64(block: seq<Octet>, j: nat): Lane
    requires 8 * j + 8 <= |block|
  {
    seq(64, z requires 0 <= z < 64 => block[8 * j + z / 8][z % 8])
  }

  function XorIn(w: Lanes, block: seq<Octet>): Lanes {
    seq(25, j requires 0 <= j < 25 => if 8 * j + 8 <= |block| then Xor(w[j], Word64(block, j)) else w[j])
  }

  function AbsorbBlock(w: Lanes, block: seq<Octet>): Lanes {
    Permuted(XorIn(w, block))
  }

  lemma BlockBits(w: Lanes, block: seq<Octet>)
    ensures AbsorbBlock(w, block) == AbsorbBits(w, Flat(block))
  {
    forall j | 0 <= j < 25 && 8 * j + 8 <= |block|
      ensures Word64(block, j) == Flat(block)[64 * j..64 * j + 64]
    {
    }
    hide Xor, Permuted;
    assert XorIn(w, block) == XorBits(w, Flat(block));
  }

  /** Absorbing bytes block by block is absorbing their bits. */
  lemma {:induction false} ConsumeBits(lim: nat, w: Lanes, all: seq<Octet>)
    requires lim > 0
    ensures var c := Consume(AbsorbBlock, lim, w, all);
            Consume(AbsorbBits, 8 * lim, w, Flat(all)) == Held(c.state, Flat(c.pending))
    decreases |all|
  {
    hide AbsorbBits, AbsorbBlock, Flat, Consume;
    ConsumeStep(AbsorbBlock, lim, w, all);
    ConsumeStep(AbsorbBits, 8 * lim, w, Flat(all));
    if |all| >= lim {
      BlockBits(w, all[..lim]);
      FlatSlice(all, 0, lim);
      FlatSlice(all, lim, |all|);
      assert all[0..lim] == all[..lim] && all[lim..|all|] == all[lim..];
      assert Flat(all)[..8 * lim] == Flat(all)[0..8 * lim] && Flat(all)[8 * lim..] == Flat(all)[8 * lim..8 * |all|];
      ConsumeBits(lim, AbsorbBlock(w, all[..lim]), all[lim..]);
    }
  }

  // ---- output ----

  /** A word as eight bytes, the lowest first. */
  function Octets(w: Lane): (r: seq<Octet>)
    ensures |r| == 8
  {
    [w[..8], w[8..16], w[16..24], w[24..32], w[32..40], w[40..48], w[48..56], w[56..]]
  }

  lemma OctetsFlat(w: Lane)
    ensures Flat(Octets(w)) == w
  {
    var o := Octets(w);
    forall k | 0 <= k < 64 ensures Flat(o)[k] == w[k] {
      OctetAt(w, k / 8, k % 8);
    }
  }

  lemma OctetAt(w: Lane, i: nat, j: nat)
    requires i < 8 && j < 8
    ensures Octets(w)[i][j] == w[8 * i + j]
  {
    match i case 0 => case 1 => case 2 => case 3 => case 4 => case 5 => case 6 => case _ =>
  }

  lemma NoOutput(w: Lanes)
    ensures Flat([]) == Squeezed(w, 0)
  {
  }

  lemma WordOut(w: Lanes, o: seq<Octet>, k: nat)
    requires k < 25 && Flat(o) == Squeezed(w, 64 * k)
    ensures Flat(o + Octets(w[k])) == Squeezed(w, 64 * k + 64)
  {
    hide Flat, Octets;
    FlatSum(o, Octets(w[k]));
    OctetsFlat(w[k]);
    assert Squeezed(w, 64 * k + 64) == Squeezed(w, 64 * k) + w[k];
  }

  lemma CutOutput(w: Lanes, o: seq<Octet>, d: nat)
    requires d <= |o| <= 200 && Flat(o) == Squeezed(w, 8 * |o|)
    ensures Flat(o[..d]) == Squeezed(w, 8 * d)
  {
    FlatSlice(o, 0, d);
    assert o[0..d] == o[..d];
    hide Flat;
    assert Squeezed(w, 8 * |o|)[0..8 * d] == Squeezed(w, 8 * d);
  }

  // ---- the closing bytes ----

  function Zeros(n: nat): (r: seq<bool>)
    ensures |r| == n
  {
    seq(n, _ => false)
  }

  function Blank(n: nat): (r: seq<Octet>)
    ensures |r| == n
  {
    seq(n, _ => Zeros(8))
  }

  const HIGH: Octet := Zeros(7) + [true]

  /** The last message byte: the `extra` high bits of `ub` moved down, and a one above them. */
  function Extra(ub: Octet, extra: nat): Octet
    requires extra < 8
  {
    ub[8 - extra..] + [true] + Zeros(7 - extra)
  }

  function Raised(o: Octet): Octet {
    o[7 := true]
  }

  /** The bytes closing adds after `ptr` buffered ones. */
  function Closing(lim: nat, ptr: nat, ub: Octet, extra: nat): seq<Octet>
    requires ptr < lim && extra < 8
  {
    if ptr == lim - 1 then
      if extra == 7 then [Extra(ub, extra)] + Blank(lim - 1) + [HIGH] else [Raised(Extra(ub, extra))]
    else [Extra(ub, extra)] + Blank(lim - ptr - 2) + [HIGH]
  }

  lemma FlatOne(o: Octet)
    ensures Flat([o]) == o
  {
  }

  lemma FlatBlank(n: nat)
    ensures Flat(Blank(n)) == Zeros(8 * n)
  {
  }

  /** The closing bytes are the extra bits and the padding of section 5.1. */
  lemma ClosingPads(lim: nat, data: seq<Octet>, ub: Octet, extra: nat)
    requires lim > 0 && extra < 8
    ensures var m := 8 * |data| + extra;
            Flat(Closing(lim, |data| % lim, ub, extra)) == ub[8 - extra..] + Pad(8 * lim, m)
  {
    var ptr := |data| % lim;
    var m := 8 * |data| + extra;
    GapIs(lim, |data|, extra);
    var g := Gap(8 * lim, m);
    hide Gap, Flat;
    var o := Extra(ub, extra);
    FlatOne(o);
    FlatOne(HIGH);
    if ptr == lim - 1 && extra < 7 {
      FlatOne(Raised(o));
    } else {
      var n := if ptr == lim - 1 then lim - 1 else lim - ptr - 2;
      FlatBlank(n);
      FlatSum([o], Blank(n));
      FlatSum([o] + Blank(n), [HIGH]);
      assert o + Zeros(8 * n) + HIGH == ub[8 - extra..] + ([true] + Zeros(g) + [true]);
    }
  }

  lemma GapIs(lim: nat, n: nat, extra: nat)
    requires lim > 0 && extra < 8
    ensures var ptr := n % lim;
            Gap(8 * lim, 8 * n + extra) ==
              if ptr == lim - 1 && extra == 7 then 8 * lim - 1 else 8 * (lim - ptr) - extra - 2
  {
    var q, ptr := n / lim, n % lim;
    assert n == q * lim + ptr;
    assert 8 * n + extra + 1 == q * (8 * lim) + (8 * ptr + extra + 1);
    if ptr == lim - 1 && extra == 7 {
      assert 8 * ptr + extra + 1 == 8 * lim;
      assert q * (8 * lim) + 8 * lim == (q + 1) * (8 * lim);
      Remainder(8 * lim, q + 1, 0);
    } else {
      Remainder(8 * lim, q, 8 * ptr + extra + 1);
    }
  }

  // ---- the context object ----

  class Context {
    const core: Permutation
    const lim: nat
    const buf: array<Octet>
    var ptr: nat
    ghost var fed: seq<Octet>

    ghost predicate Sized() {
      core.Shape() && buf.Length == 144 && 0 < lim <= 144 && lim % 8 == 0
    }

    ghost predicate Shape()
      reads this
    {
      Sized() && ptr < lim
    }

    /** The state without the complements, and the buffered bytes. */
    ghost function View(): Held<Lanes, Octet>
      requires Shape()
      reads this, core.wide, buf
    {
      Held(FlipWide(core.wide[..]), buf[..ptr])
    }

    /** Everything fed so far has been absorbed as by one update. */
    ghost predicate Valid()
      reads this, core.wide, buf
    {
      Shape() && View() == Absorb(AbsorbBlock, lim, Held(ZERO, []), fed)
    }

    /** All words zero, and the complemented ones all ones. */
    constructor (outBits: nat)
      requires outBits in {224, 256, 384, 512}
      ensures Valid() && fed == [] && lim == 200 - outBits / 4
      ensures fresh(core) && fresh(core.wide) && fresh(buf)
    {
      core := new Permutation();
      lim := 200 - outBits / 4;
      buf := new Octet[144](_ => Zeros(8));
      ptr := 0;
      fed := [];
      new;
      Initialise();
    }

    /** Add a full buffer into the leading words. */
    method InputBuf(ghost w: Lanes)
      requires Sized() && core.wide[..] == FlipWide(w)
      modifies core.wide
      ensures core.wide[..] == FlipWide(XorIn(w, buf[..lim]))
    {
      hide Xor, If, Word64;
      var j := 0;
      while j < lim
        invariant 0 <= j <= lim && j % 8 == 0
        invariant forall k | 0 <= k < 25 ::
          core.wide[k] == If(WideMask(k), if k < j / 8 then Xor(w[k], Word64(buf[..lim], k)) else w[k])
      {
        var k := j / 8;
        XorIf(WideMask(k), false, w[k], Word64(buf[..lim], k));
        PlainIf(Word64(buf[..lim], k));
        core.wide[k] := Xor(core.wide[k], Word64(buf[..lim], k));
        j := j + 8;
      }
    }

    /** Copy a chunk that fits into the buffer, and permute when that fills it. */
    method Fill(chunk: seq<Octet>)
      requires Shape() && |chunk| <= lim - ptr
      modifies this, core.wide, buf
      ensures Shape() && View() == Absorb(AbsorbBlock, lim, old(View()), chunk)
      ensures fed == old(fed)
    {
      hide FlipWide, XorIn, Permuted, Absorb;
      ghost var w := FlipWide(core.wide[..]);
      FlipWideTwice(core.wide[..]);
      AbsorbChunk(AbsorbBlock, lim, View(), chunk);
      forall i | 0 <= i < |chunk| { buf[ptr + i] := chunk[i]; }
      ptr := ptr + |chunk|;
      assert buf[..ptr] == old(buf[..ptr]) + chunk && core.wide[..] == old(core.wide[..]);
      if ptr == lim {
        InputBuf(w);
        core.KeccakF(XorIn(w, buf[..lim]));
        FlipWideTwice(AbsorbBlock(w, buf[..lim]));
        ptr := 0;
        assert buf[..0] == [];
      }
    }

    /** One update call: buffer what does not complete a block, otherwise absorb block by block. */
    method Feed(data: seq<Octet>)
      requires Shape()
      modifies this, core.wide, buf
      ensures Shape() && View() == Absorb(AbsorbBlock, lim, old(View()), data)
      ensures fed == old(fed)
    {
      hide Absorb;
      if |data| < lim - ptr {
        Fill(data);
        return;
      }
      var pos := 0;
      assert data[pos..] == data;
      while pos < |data|
        invariant 0 <= pos <= |data| && Shape() && fed == old(fed)
        invariant Absorb(AbsorbBlock, lim, View(), data[pos..]) == Absorb(AbsorbBlock, lim, old(View()), data)
      {
        var n := if lim - ptr > |data| - pos then |data| - pos else lim - ptr;
        assert data[pos..] == data[pos..pos + n] + data[pos + n..];
        AbsorbSplit(AbsorbBlock, lim, View(), data[pos..pos + n], data[pos + n..]);
        Fill(data[pos..pos + n]);
        pos := pos + n;
      }
      assert data[pos..] == [];
      AbsorbNone(AbsorbBlock, lim, View());
    }

    method Update(data: seq<Octet>)
      requires Valid()
      modifies this, core.wide, buf
      ensures Valid() && fed == old(fed) + data
    {
      hide Absorb;
      Feed(data);
      AbsorbSplit(AbsorbBlock, lim, Held(ZERO, []), fed, data);
      fed := fed + data;
    }

    /** The digest length that goes with the rate, in bytes. */
    function DigestBytes(): nat
      requires Sized()
    {
      (200 - lim) / 2
    }

    /** Close the hash with `extra` more bits: the digest of section 4 of FIPS 202. The context is then
        as new. */
    method Close(ub: Octet, extra: nat) returns (digest: seq<Octet>)
      requires Valid() && extra < 8
      modifies this, core.wide, buf
      ensures |digest| == DigestBytes()
      ensures Flat(digest) == Squeezed(Absorbed(8 * lim, Flat(old(fed)) + ub[8 - extra..]), 8 * DigestBytes())
      ensures Valid() && fed == []
    {
      PendingCount(lim, fed);
      ghost var closing := Closing(lim, ptr, ub, extra);
      var last: seq<Octet>;
      if ptr == lim - 1 {
        if extra == 7 {
          last := [Extra(ub, extra)] + Blank(lim - 1) + [HIGH];
        } else {
          last := [Raised(Extra(ub, extra))];
        }
      } else {
        last := [Extra(ub, extra)] + Blank(lim - ptr - 2) + [HIGH];
      }
      assert last == closing;
      hide Closing, Absorb, Extra, Raised, Blank, Flat, Squeezed;
      Feed(last);
      AbsorbSplit(AbsorbBlock, lim, Held(ZERO, []), fed, last);
      ClosingAbsorbs(lim, fed, ub, extra);
      Uncomplement();
      digest := Output(DigestBytes());
      Initialise();
    }

    /** The leading words as bytes, the lowest byte of each first. */
    method Output(d: nat) returns (digest: seq<Octet>)
      requires Sized() && d <= 200
      ensures |digest| == d && Flat(digest) == Squeezed(core.wide[..], 8 * d)
    {
      hide Octets, Flat, Squeezed;
      digest := [];
      NoOutput(core.wide[..]);
      var j := 0;
      while j < d
        invariant 0 <= j <= 200 && j % 8 == 0 && j < d + 8 && |digest| == j
        invariant Flat(digest) == Squeezed(core.wide[..], 8 * j)
      {
        WordOut(core.wide[..], digest, j / 8);
        digest := digest + Octets(core.wide[j / 8]);
        j := j + 8;
      }
      CutOutput(core.wide[..], digest, d);
      digest := digest[..d];
    }

    /** All words zero, and the complemented ones all ones; nothing buffered. */
    method Initialise()
      requires Sized()
      modifies this, core.wide
      ensures Valid() && fed == []
    {
      var i := 0;
      while i < 25
        invariant 0 <= i <= 25 && forall j :: 0 <= j < i ==> core.wide[j] == Same(false)
      {
        core.wide[i] := Same(false);
        i := i + 1;
      }
      core.wide[1] := Same(true);
      core.wide[2] := Same(true);
      core.wide[8] := Same(true);
      core.wide[12] := Same(true);
      core.wide[17] := Same(true);
      core.wide[20] := Same(true);
      ptr, fed := 0, [];
      ComplementedZero(core.wide[..]);
      assert buf[..0] == [];
      AbsorbNone(AbsorbBlock, lim, Held(ZERO, []));
    }

    method Uncomplement()
      requires Sized()
      modifies core.wide
      ensures core.wide[..] == FlipWide(old(core.wide[..]))
    {
      hide Not;
      core.wide[1] := Not(core.wide[1]);
      core.wide[2] := Not(core.wide[2]);
      core.wide[8] := Not(core.wide[8]);
      core.wide[12] := Not(core.wide[12]);
      core.wide[17] := Not(core.wide[17]);
      core.wide[20] := Not(core.wide[20]);
    }
  }

  function Same(bit: bool): Lane { seq(64, _ => bit) }

  lemma ComplementedZero(w: Lanes)
    requires forall p :: 0 <= p < 25 ==> w[p] == Same(WideMask(p))
    ensures FlipWide(w) == ZERO
  {
    hide If, Same;
    forall p | 0 <= p < 25 { FreshLane(WideMask(p)); }
  }

  lemma FreshLane(mask: bool)
    ensures If(mask, Same(mask)) == Same(false)
  {
  }

  lemma PlainIf(v: Lane)
    ensures If(false, v) == v
  {
  }

  /** The buffer holds what is left after the whole blocks. */
  lemma {:induction false} PendingLength(lim: nat, w: Lanes, all: seq<Octet>)
    requires lim > 0
    ensures |Consume(AbsorbBlock, lim, w, all).pending| == |all| % lim
    decreases |all|
  {
    hide AbsorbBlock, Consume;
    ConsumeStep(AbsorbBlock, lim, w, all);
    if |all| >= lim {
      PendingLength(lim, AbsorbBlock(w, all[..lim]), all[lim..]);
      Shrinks(lim, |all|);
    } else {
      Remainder(lim, 0, |all|);
    }
  }

  lemma Shrinks(d: nat, x: nat)
    requires 0 < d <= x
    ensures (x - d) % d == x % d
  {
    var q, r := (x - d) / d, (x - d) % d;
    assert x == (q + 1) * d + r by { assert (q + 1) * d == q * d + d; }
    Remainder(d, q + 1, r);
  }

  lemma PendingCount(lim: nat, fed: seq<Octet>)
    requires lim > 0
    ensures |Absorb(AbsorbBlock, lim, Held(ZERO, []), fed).pending| == |fed| % lim
  {
    assert [] + fed == fed;
    PendingLength(lim, ZERO, fed);
  }

  /** Absorbing the message bytes and the closing bytes is absorbing the padded bit string. */
  lemma ClosingAbsorbs(lim: nat, fed: seq<Octet>, ub: Octet, extra: nat)
    requires lim > 0 && extra < 8
    ensures Absorb(AbsorbBlock, lim, Held(ZERO, []), fed + Closing(lim, |fed| % lim, ub, extra)).state
         == Absorbed(8 * lim, Flat(fed) + ub[8 - extra..])
  {
    hide Closing, Consume, Flat, AbsorbBits, AbsorbBlock, Pad;
    var closing := Closing(lim, |fed| % lim, ub, extra);
    var message := Flat(fed) + ub[8 - extra..];
    assert [] + (fed + closing) == fed + closing;
    ConsumeBits(lim, ZERO, fed + closing);
    FlatSum(fed, closing);
    ClosingPads(lim, fed, ub, extra);
    assert Flat(fed + closing) == message + Pad(8 * lim, |message|);
  }
}
