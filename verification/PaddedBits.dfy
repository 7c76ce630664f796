/** The padded message of BLAKE-256, bit by bit: what is hashed, told without the way it is built. */
module PaddedBits {
  import opened Types
  import opened Arith
  import opened Blake

  // ---- bits and numbers of bytes ----

  function Place(j: nat): bv8
    requires j < 8
  {
    match j case 0 => 0x80 case 1 => 0x40 case 2 => 0x20 case 3 => 0x10 case 4 => 8 case 5 => 4 case 6 => 2 case _ => 1
  }

  /** Bit `j` of a byte, the highest first. */
  ghost predicate Bit(b: bv8, j: nat)
    requires j < 8
  {
    b & Place(j) != 0
  }

  ghost predicate BitAt(s: seq<bv8>, i: nat)
    requires i < 8 * |s|
  {
    Bit(s[i / 8], i % 8)
  }

  ghost function Worth(on: bool, weight: nat): nat {
    if on then weight else 0
  }

  /** A byte as a number: the sum of its bits' weights. */
  ghost function Octet(b: bv8): nat {
    Worth(Bit(b, 0), 128) + Worth(Bit(b, 1), 64) + Worth(Bit(b, 2), 32) + Worth(Bit(b, 3), 16)
    + Worth(Bit(b, 4), 8) + Worth(Bit(b, 5), 4) + Worth(Bit(b, 6), 2) + Worth(Bit(b, 7), 1)
  }

  /** The bytes as a number, the highest byte first. */
  ghost function Value(s: seq<bv8>): nat {
    if s == [] then 0 else Value(s[..|s| - 1]) * 256 + Octet(s[|s| - 1])
  }

  lemma ByteBits(x: nat)
    ensures Bit(Byte(x), 0) <==> x / 128 % 2 == 1
    ensures Bit(Byte(x), 1) <==> x / 64 % 2 == 1
    ensures Bit(Byte(x), 2) <==> x / 32 % 2 == 1
    ensures Bit(Byte(x), 3) <==> x / 16 % 2 == 1
    ensures Bit(Byte(x), 4) <==> x / 8 % 2 == 1
    ensures Bit(Byte(x), 5) <==> x / 4 % 2 == 1
    ensures Bit(Byte(x), 6) <==> x / 2 % 2 == 1
    ensures Bit(Byte(x), 7) <==> x % 2 == 1
  {
    OrBits(x / 128 % 2 == 1, x / 64 % 2 == 1, x / 32 % 2 == 1, x / 16 % 2 == 1,
           x / 8 % 2 == 1, x / 4 % 2 == 1, x / 2 % 2 == 1, x % 2 == 1);
  }

  lemma OrBits(a: bool, b: bool, c: bool, d: bool, e: bool, f: bool, g: bool, h: bool)
    ensures var x: bv8 := (if a then 0x80 else 0) | (if b then 0x40 else 0) | (if c then 0x20 else 0) | (if d then 0x10 else 0)
                        | (if e then 8 else 0) | (if f then 4 else 0) | (if g then 2 else 0) | (if h then 1 else 0);
            && (Bit(x, 0) <==> a) && (Bit(x, 1) <==> b) && (Bit(x, 2) <==> c) && (Bit(x, 3) <==> d)
            && (Bit(x, 4) <==> e) && (Bit(x, 5) <==> f) && (Bit(x, 6) <==> g) && (Bit(x, 7) <==> h)
  {
  }

  lemma ByteValue(x: nat)
    ensures Octet(Byte(x)) == x % 256
  {
    ByteBits(x);
    hide Byte, Bit, Worth;
    DigitWorth(x, 128);
    DigitWorth(x, 64);
    DigitWorth(x, 32);
    DigitWorth(x, 16);
    DigitWorth(x, 8);
    DigitWorth(x, 4);
    DigitWorth(x, 2);
    DigitWorth(x, 1);
    assert x / 1 == x && x % 1 == 0;
  }

  /** One binary digit more of a remainder. */
  lemma DigitWorth(x: nat, w: nat)
    requires w > 0
    ensures x % (2 * w) == Worth(x / w % 2 == 1, w) + x % w
  {
    var q, r := x / w, x % w;
    var p, s := q / 2, q % 2;
    assert x == q * w + r && q == 2 * p + s;
    assert q * w == p * (2 * w) + s * w;
    Remainder(2 * w, p, s * w + r);
  }

  lemma ShiftIs(extra: nat)
    requires extra < 8
    ensures (0x80 as bv8) >> extra == Place(extra)
  {
    match extra
    case 0 => case 1 => case 2 => case 3 => case 4 => case 5 => case 6 => case _ =>
  }

  lemma MarkBits(ub: bv8, extra: nat, j: nat)
    requires extra < 8 && j < 8
    ensures Bit(Mark(ub, extra), j) <==> if j < extra then Bit(ub, j) else j == extra
  {
    ShiftIs(extra);
    match extra
    case 0 => case 1 => case 2 => case 3 => case 4 => case 5 => case 6 => case _ =>
  }

  lemma LowBits(b: bv8, j: nat)
    requires j < 8
    ensures Bit(SetLow(b), j) <==> Bit(b, j) || j == 7
  {
  }

  // ---- the length field ----

  lemma NoValue()
    ensures Value([]) == 0
  {
  }

  lemma ValueCat(a: seq<bv8>, b: seq<bv8>)
    requires |b| == 4
    ensures Value(a + b) == Value(a) * U32 + Value(b)
  {
    hide Value, Octet;
    NoValue();
    ValueFour(a, b[0], b[1], b[2], b[3]);
    ValueFour([], b[0], b[1], b[2], b[3]);
    assert b == [b[0], b[1], b[2], b[3]] && [] + b == b;
  }

  lemma ValueFour(a: seq<bv8>, w: bv8, x: bv8, y: bv8, z: bv8)
    ensures Value(a + [w, x, y, z]) == Value(a) * U32 + ((Octet(w) * 256 + Octet(x)) * 256 + Octet(y)) * 256 + Octet(z)
  {
    hide Value, Octet;
    ValueSnoc(a, w);
    ValueSnoc(a + [w], x);
    ValueSnoc(a + [w] + [x], y);
    ValueSnoc(a + [w] + [x] + [y], z);
    assert a + [w, x, y, z] == a + [w] + [x] + [y] + [z];
  }

  lemma ValueSnoc(a: seq<bv8>, z: bv8)
    ensures Value(a + [z]) == Value(a) * 256 + Octet(z)
  {
    assert (a + [z])[..|a|] == a;
  }

  lemma Be32Value(x: nat)
    requires x < U32
    ensures Value(Be32(x)) == x
  {
    hide Byte, Value, Octet;
    NoValue();
    ByteValue(x / 0x100_0000);
    ByteValue(x / 0x1_0000);
    ByteValue(x / 0x100);
    ByteValue(x);
    ValueFour([], Byte(x / 0x100_0000), Byte(x / 0x1_0000), Byte(x / 0x100), Byte(x));
    assert [] + Be32(x) == Be32(x);
    FourDigits(x);
  }

  lemma FourDigits(x: nat)
    requires x < U32
    ensures ((x / 0x100_0000 % 256 * 256 + x / 0x1_0000 % 256) * 256 + x / 0x100 % 256) * 256 + x % 256 == x
  {
    assert x / 0x100_0000 % 256 == x / 0x100_0000;
    assert x / 0x100_0000 * 256 + x / 0x1_0000 % 256 == x / 0x1_0000;
    assert x / 0x1_0000 * 256 + x / 0x100 % 256 == x / 0x100;
  }

  lemma Be64Value(x: nat)
    requires x < U64
    ensures Value(Be64(x)) == x
  {
    hide Be32, Value;
    Be32Value(x / U32);
    Be32Value(x % U32);
    ValueCat(Be32(x / U32), Be32(x % U32));
  }

  /** Each word of a digest is four bytes that spell it, the highest first. */
  lemma {:induction false} EncodedIs(h: Chain, n: nat, k: nat)
    requires k < n
    ensures Value(Encoded(h, n)[4 * k..4 * k + 4]) == WordAt(h, k) % U32
  {
    hide Be32, Value, WordAt;
    var front, last := Encoded(h, n - 1), Be32(WordAt(h, n - 1) % U32);
    if k == n - 1 {
      Be32Value(WordAt(h, k) % U32);
      assert (front + last)[4 * k..4 * k + 4] == last;
    } else {
      EncodedIs(h, n - 1, k);
      assert (front + last)[4 * k..4 * k + 4] == front[4 * k..4 * k + 4];
    }
  }

  // ---- the bits before it ----

  lemma FlaggedBit(s: seq<bv8>, full: bool, i: nat)
    requires |s| > 0 && i < 8 * |s|
    ensures BitAt(Flagged(s, full), i) <==> BitAt(s, i) || (full && i == 8 * |s| - 1)
  {
    hide Bit;
    if i / 8 == |s| - 1 {
      LowBits(s[i / 8], i % 8);
    }
  }

  lemma MessageBit(data: seq<bv8>, ub: bv8, extra: nat, gap: nat, i: nat)
    requires extra < 8 && i < 8 * (|data| + 1 + gap)
    ensures var s, bits := data + [Mark(ub, extra)] + Zeros(gap), 8 * |data| + extra;
            BitAt(s, i) <==> if i < bits then BitAt(data + [ub], i) else i == bits
  {
    hide Bit, Mark;
    if i / 8 == |data| {
      MarkBits(ub, extra, i % 8);
    } else if i / 8 > |data| {
      ZeroBit(i % 8);
    }
  }

  lemma ZeroBit(j: nat)
    requires j < 8
    ensures !Bit(0, j)
  {
  }

  /** Message, marks and zeros in one piece, then the length. */
  lemma PaddedShape(data: seq<bv8>, ub: bv8, extra: nat, full: bool) returns (gap: nat)
    requires extra < 8
    ensures Padded(data, ub, extra, full)
         == Flagged(data + [Mark(ub, extra)] + Zeros(gap), full) + Be64((8 * |data| + extra) % U64)
    ensures 8 * |data| + extra + 1 < 8 * (|data| + 1 + gap)
  {
    hide Mark, SetLow, Zeros, Be64, Flagged;
    var n := |data| / BLOCK * BLOCK;
    var tail, bits := data[n..], (8 * |data| + extra) % U64;
    gap := if 8 * |tail| + extra <= 446 then 55 - |tail| else 119 - |tail|;
    var end := tail + [Mark(ub, extra)] + Zeros(gap);
    assert Padded(data, ub, extra, full) == data[..n] + (Flagged(end, full) + Be64(bits));
    hide Padded, Padding;
    FlaggedMore(data[..n], end, full);
    Joined(data[..n], tail, [Mark(ub, extra)], Zeros(gap));
    assert data[..n] + tail == data;
    assert data[..n] + (Flagged(end, full) + Be64(bits)) == (data[..n] + Flagged(end, full)) + Be64(bits);
  }

  lemma Joined(a: seq<bv8>, b: seq<bv8>, c: seq<bv8>, d: seq<bv8>)
    ensures a + (b + c + d) == a + b + c + d
  {
  }

  /** The padded message: the message bits, a one bit, zeros, a last bit that tells the 256-bit variant
      apart, and the message's bit count modulo 2^64 as a big-endian number. */
  lemma PaddedIs(data: seq<bv8>, ub: bv8, extra: nat, full: bool)
    requires extra < 8
    ensures var padded, bits := Padded(data, ub, extra, full), 8 * |data| + extra;
            var end := 8 * |padded| - 65;
            && bits < end
            && (forall i :: 0 <= i < bits ==> (BitAt(padded, i) <==> BitAt(data + [ub], i)))
            && BitAt(padded, bits)
            && (forall i :: bits < i < end ==> !BitAt(padded, i))
            && (BitAt(padded, end) <==> full)
            && Value(padded[|padded| - 8..]) == bits % U64
  {
    hide Padded, BitAt, Mark, Be64, Flagged, Value, Zeros;
    var padded, bits := Padded(data, ub, extra, full), 8 * |data| + extra;
    var gap := PaddedShape(data, ub, extra, full);
    var s := data + [Mark(ub, extra)] + Zeros(gap);
    var end := 8 * |s| - 1;
    var length := Be64(bits % U64);
    Be64Value(bits % U64);
    assert padded[|padded| - 8..] == length;
    forall i | 0 <= i <= end
      ensures BitAt(padded, i) <==> (if i < bits then BitAt(data + [ub], i) else i == bits) || (full && i == end)
    {
      FrontBit(Flagged(s, full), length, i);
      FlaggedBit(s, full, i);
      MessageBit(data, ub, extra, gap, i);
    }
  }

  lemma FrontBit(a: seq<bv8>, b: seq<bv8>, i: nat)
    requires i < 8 * |a|
    ensures BitAt(a + b, i) <==> BitAt(a, i)
  {
  }
}
