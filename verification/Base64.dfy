/** Base64 as in section 4 of RFC 4648: the two codecs of the repository and what they agree on. */
module Base64 {
  import opened Types
  import opened Arith

  type Byte = n: nat | n < 256

  type Digit = n: nat | n < 64

  // ---- the alphabet ----

  function Char(d: Digit): char {
    if d < 26 then 'A' + d as char
    else if d < 52 then 'a' + (d - 26) as char
    else if d < 62 then '0' + (d - 52) as char
    else if d == 62 then '+' else '/'
  }

  function Lookup(c: char): Option<Digit> {
    if 'A' <= c <= 'Z' then Some((c - 'A') as nat)
    else if 'a' <= c <= 'z' then Some((c - 'a') as nat + 26)
    else if '0' <= c <= '9' then Some((c - '0') as nat + 52)
    else if c == '+' then Some(62)
    else if c == '/' then Some(63)
    else None
  }

  /** Table 1 of RFC 4648. */
  const UPPER := "ABCDEFGHIJKLMNOPQRSTUVWXYZ"
  const LOWER := "abcdefghijklmnopqrstuvwxyz"
  const ALPHABET := UPPER + LOWER + "0123456789" + "+/"

  lemma Letters(d: nat)
    requires d < 26
    ensures UPPER[d] == 'A' + d as char && LOWER[d] == 'a' + d as char
  {
    match d
    case 0 => case 1 => case 2 => case 3 => case 4 => case 5 => case 6 => case 7 => case 8 => case 9 => case 10 =>
    case 11 => case 12 => case 13 => case 14 => case 15 => case 16 => case 17 => case 18 => case 19 => case 20 =>
    case 21 => case 22 => case 23 => case 24 => case _ =>
  }

  lemma Numerals(d: nat)
    requires d < 10
    ensures "0123456789"[d] == '0' + d as char
  {
    match d
    case 0 => case 1 => case 2 => case 3 => case 4 => case 5 => case 6 => case 7 => case 8 => case _ =>
  }

  lemma CharIs(d: Digit)
    ensures |ALPHABET| == 64 && Char(d) == ALPHABET[d]
  {
    if d < 26 {
      Letters(d);
    } else if d < 52 {
      Letters(d - 26);
    } else if d < 62 {
      Numerals(d - 52);
    }
  }

  /** Digits are written and read as the table says, and nothing else is a digit. */
  lemma AlphabetIs(d: Digit, c: char)
    ensures |ALPHABET| == 64 && Char(d) == ALPHABET[d] && Lookup(ALPHABET[d]) == Some(d)
    ensures Lookup(c).Some? <==> c in ALPHABET
  {
    CharIs(d);
    LookupChar(d);
    if c in ALPHABET {
      var i :| 0 <= i < |ALPHABET| && ALPHABET[i] == c;
      CharIs(i);
      LookupChar(i);
    }
    if Lookup(c).Some? {
      CharIs(Lookup(c).value);
      CharOf(c);
    }
  }

  lemma CharOf(c: char)
    requires Lookup(c).Some?
    ensures Char(Lookup(c).value) == c
  {
  }

  lemma LookupChar(d: Digit)
    ensures Lookup(Char(d)) == Some(d) && Char(d) != '='
  {
  }

  // ---- the format ----

  function Quad(a: Byte, b: Byte, c: Byte): (r: seq<Digit>)
    ensures |r| == 4
  {
    [a / 4, a % 4 * 16 + b / 16, b % 16 * 4 + c / 64, c % 64]
  }

  function Text(ds: seq<Digit>): (r: string)
    ensures |r| == |ds|
  {
    seq(|ds|, i requires 0 <= i < |ds| => Char(ds[i]))
  }

  /** The digits of a byte string: four for three bytes, and for a rest one more than its bytes. */
  function Digits(x: seq<Byte>): seq<Digit> {
    if |x| == 0 then []
    else if |x| == 1 then Quad(x[0], 0, 0)[..2]
    else if |x| == 2 then Quad(x[0], x[1], 0)[..3]
    else Quad(x[0], x[1], x[2]) + Digits(x[3..])
  }

  function Padding(n: nat): string {
    if n % 3 == 0 then "" else if n % 3 == 1 then "==" else "="
  }

  function Encode(x: seq<Byte>): string {
    Text(Digits(x)) + Padding(|x|)
  }

  // ---- the bits of the format ----

  ghost function Weight(k: nat): nat
    requires k < 8
  {
    match k case 0 => 1 case 1 => 2 case 2 => 4 case 3 => 8 case 4 => 16 case 5 => 32 case 6 => 64 case _ => 128
  }

  /** Bit `i` of a byte string and of a digit string, the highest bit of the first element first. */
  ghost function ByteBit(x: seq<Byte>, i: nat): nat
    requires i < 8 * |x|
  {
    x[i / 8] / Weight(7 - i % 8) % 2
  }

  ghost function DigitBit(ds: seq<Digit>, i: nat): nat
    requires i < 6 * |ds|
  {
    ds[i / 6] / Weight(5 - i % 6) % 2
  }

  lemma FirstDigit(a: Byte, j: nat)
    requires j < 6
    ensures a / 4 / Weight(5 - j) % 2 == a / Weight(7 - j) % 2
  {
    match j case 0 => case 1 => case 2 => case 3 => case 4 => case _ =>
  }

  /** A digit of two parts: the low part's bits, and above them the high part's. */
  lemma LowPart(h: nat, l: nat, n: nat, k: nat)
    requires k < n < 8 && l < Weight(n)
    ensures (h * Weight(n) + l) / Weight(k) % 2 == l / Weight(k) % 2
  {
    var w, q := Weight(k), Weight(n - 1 - k);
    assert Weight(n) == 2 * q * w;
    assert h * Weight(n) == (2 * (h * q)) * w;
    hide Weight;
    Quotients(2 * (h * q), l, w);
    Evens(h * q, l / w);
  }

  lemma Quotients(m: nat, l: nat, w: nat)
    requires w > 0
    ensures (m * w + l) / w == m + l / w
  {
    assert m * w + l == w * (m + l / w) + l % w;
    Split(m + l / w, w, l % w);
  }

  lemma Regroup(w: nat, q: nat, z: nat, s: nat, r: nat)
    requires r < w && s < q
    ensures w * (q * z + s) + r == (q * w) * z + (w * s + r) && w * s + r < q * w
  {
    assert w * (q * z + s) == w * (q * z) + w * s;
    assert w * (q * z) == (q * w) * z;
    MulOrder(s + 1, q, w);
    assert w * (s + 1) == w * s + w;
  }

  lemma DivTwice(x: nat, w: nat, q: nat)
    requires w > 0 && q > 0
    ensures q * w > 0 && x / (q * w) == x / w / q
  {
    var y := x / w;
    var z, s, r := y / q, y % q, x % w;
    Parts(x, w);
    Parts(y, q);
    Regroup(w, q, z, s, r);
    Split(z, q * w, w * s + r);
  }

  lemma Parts(x: nat, w: nat)
    requires w > 0
    ensures x == w * (x / w) + x % w && x % w < w
  {
  }

  lemma Evens(m: nat, x: nat)
    ensures (2 * m + x) % 2 == x % 2
  {
  }

  lemma HighPart(h: nat, l: nat, n: nat, k: nat)
    requires n + k < 8 && l < Weight(n)
    ensures (h * Weight(n) + l) / Weight(n + k) % 2 == h / Weight(k) % 2
  {
    var w, q := Weight(n), Weight(k);
    assert Weight(n + k) == q * w;
    hide Weight;
    assert h * w == w * h;
    Split(h, w, l);
    DivTwice(h * w + l, w, q);
  }

  lemma SecondDigit(a: Byte, b: Byte, j: nat)
    requires j < 6
    ensures (a % 4 * 16 + b / 16) / Weight(5 - j) % 2 == if j < 2 then a / Weight(1 - j) % 2 else b / Weight(9 - j) % 2
  {
    if j < 2 {
      HighPart(a % 4, b / 16, 4, 1 - j);
      LowPart(a / 4, a % 4, 2, 1 - j);
    } else {
      LowPart(a % 4, b / 16, 4, 5 - j);
      HighPart(b / 16, b % 16, 4, 5 - j);
    }
  }

  lemma ThirdDigit(b: Byte, c: Byte, j: nat)
    requires j < 6
    ensures (b % 16 * 4 + c / 64) / Weight(5 - j) % 2 == if j < 4 then b / Weight(3 - j) % 2 else c / Weight(11 - j) % 2
  {
    if j < 4 {
      HighPart(b % 16, c / 64, 2, 3 - j);
      LowPart(b / 16, b % 16, 4, 3 - j);
    } else {
      LowPart(b % 16, c / 64, 2, 5 - j);
      HighPart(c / 64, c % 64, 6, 5 - j);
    }
  }

  lemma FourthDigit(c: Byte, j: nat)
    requires j < 6
    ensures c % 64 / Weight(5 - j) % 2 == c / Weight(5 - j) % 2
  {
    LowPart(c / 64, c % 64, 6, 5 - j);
  }

  lemma QuadBit(a: Byte, b: Byte, c: Byte, i: nat)
    requires i < 24
    ensures DigitBit(Quad(a, b, c), i) == ByteBit([a, b, c], i)
  {
    hide Weight;
    if i < 6 {
      FirstDigit(a, i);
    } else if i < 12 {
      SecondDigit(a, b, i - 6);
    } else if i < 18 {
      ThirdDigit(b, c, i - 12);
    } else {
      FourthDigit(c, i - 18);
    }
  }

  /** The digits are the bits of the bytes, six at a time, with zeros to fill the last digit. */
  lemma {:induction false} DigitsAreBits(x: seq<Byte>, i: nat)
    requires i < 6 * |Digits(x)|
    ensures |Digits(x)| == (8 * |x| + 5) / 6
    ensures DigitBit(Digits(x), i) == if i < 8 * |x| then ByteBit(x, i) else 0
  {
    DigitCount(x);
    hide Weight, Quad;
    if |x| == 1 {
      QuadBit(x[0], 0, 0, i);
      ZeroBit(7 - i % 8);
    } else if |x| == 2 {
      QuadBit(x[0], x[1], 0, i);
      ZeroBit(7 - i % 8);
    } else if i < 24 {
      QuadBit(x[0], x[1], x[2], i);
    } else {
      DigitsAreBits(x[3..], i - 24);
      assert (i - 24) / 6 == i / 6 - 4 && (i - 24) / 8 == i / 8 - 3;
    }
  }

  lemma ZeroBit(k: nat)
    requires k < 8
    ensures 0 / Weight(k) % 2 == 0
  {
  }

  lemma {:induction false} DigitCount(x: seq<Byte>)
    ensures |Digits(x)| == (8 * |x| + 5) / 6
  {
    if |x| > 2 {
      DigitCount(x[3..]);
      assert (8 * |x| + 5) / 6 == (8 * (|x| - 3) + 5) / 6 + 4;
    }
  }

  /** With its padding an encoding is a whole number of groups, four characters for three bytes. */
  lemma EncodeLength(x: seq<Byte>)
    ensures |Encode(x)| == (|x| + 2) / 3 * 4
  {
    DigitCount(x);
    var q, r := |x| / 3, |x| % 3;
    assert |x| == 3 * q + r;
  }

  /** The bytes of a digit string: three for four digits, and for a rest one fewer than its digits. */
  function Bytes(ds: seq<Digit>): seq<Byte>
    decreases |ds|
  {
    if |ds| < 2 then []
    else if |ds| == 2 then [Triple(ds[0], ds[1], 0, 0)[0]]
    else if |ds| == 3 then Triple(ds[0], ds[1], ds[2], 0)[..2]
    else Triple(ds[0], ds[1], ds[2], ds[3]) + Bytes(ds[4..])
  }

  function Triple(a: Digit, b: Digit, c: Digit, d: Digit): (r: seq<Byte>)
    ensures |r| == 3
  {
    [a * 4 + b / 16, b % 16 * 16 + c / 4, c % 4 * 64 + d]
  }

  lemma TripleQuad(a: Byte, b: Byte, c: Byte)
    ensures var q := Quad(a, b, c); Triple(q[0], q[1], q[2], q[3]) == [a, b, c]
  {
  }

  lemma {:induction false} BytesDigits(x: seq<Byte>)
    ensures Bytes(Digits(x)) == x
  {
    if |x| >= 3 {
      var q := Quad(x[0], x[1], x[2]);
      TripleQuad(x[0], x[1], x[2]);
      BytesDigits(x[3..]);
      assert (q + Digits(x[3..]))[4..] == Digits(x[3..]);
      hide Quad, Triple;
      assert x == [x[0], x[1], x[2]] + x[3..];
    } else if |x| == 2 {
      TripleQuad(x[0], x[1], 0);
    } else if |x| == 1 {
      TripleQuad(x[0], 0, 0);
    }
  }

  /** The digits of a text up to its padding, its end or the first character outside the alphabet. */
  function Leading(s: string): seq<Digit> {
    if s == [] || s[0] == '=' || Lookup(s[0]).None? then [] else [Lookup(s[0]).value] + Leading(s[1..])
  }

  function Decode(s: string): seq<Byte> {
    Bytes(Leading(s))
  }

  lemma {:induction false} LeadingText(ds: seq<Digit>, rest: string)
    requires rest != [] ==> rest[0] == '='
    ensures Leading(Text(ds) + rest) == ds
  {
    if ds != [] {
      hide Char, Lookup;
      LookupChar(ds[0]);
      LeadingText(ds[1..], rest);
      assert (Text(ds) + rest)[1..] == Text(ds[1..]) + rest;
    }
  }

  /** Decoding recovers every byte string. */
  lemma RoundTrip(x: seq<Byte>)
    ensures Decode(Encode(x)) == x
  {
    LeadingText(Digits(x), Padding(|x|));
    BytesDigits(x);
  }

  lemma DigitsFront(a: Byte, b: Byte, c: Byte, rest: seq<Byte>)
    ensures Digits([a, b, c] + rest) == Quad(a, b, c) + Digits(rest)
  {
    assert ([a, b, c] + rest)[3..] == rest;
  }

  lemma TextSum(a: seq<Digit>, b: seq<Digit>)
    ensures Text(a + b) == Text(a) + Text(b)
  {
    hide Char;
  }

  lemma BytesFront(a: Digit, b: Digit, c: Digit, d: Digit, rest: seq<Digit>)
    ensures Bytes([a, b, c, d] + rest) == Triple(a, b, c, d) + Bytes(rest)
  {
    assert ([a, b, c, d] + rest)[4..] == rest;
  }

  // ---- the first codec ----

  lemma LastDigits(x: seq<Byte>)
    requires |x| < 3
    ensures |x| == 0 ==> Text(Digits(x)) == ""
    ensures |x| == 1 ==> Text(Digits(x)) == Text(Quad(x[0], 0, 0)[..2])
    ensures |x| == 2 ==> Text(Digits(x)) == Text(Quad(x[0], x[1], 0)[..3])
  {
  }

  lemma FullGroup(text: string, a: Byte, b: Byte, c: Byte, rest: seq<Byte>)
    ensures text + Text(Digits([a, b, c] + rest)) == (text + Text(Quad(a, b, c))) + Text(Digits(rest))
  {
    hide Text, Quad, Digits;
    DigitsFront(a, b, c, rest);
    TextSum(Quad(a, b, c), Digits(rest));
  }

  /** Encode through a three-byte scratch array, flushed whenever it is full. */
  method EncodeBytes(bytes: seq<Byte>) returns (text: string)
    ensures text == Encode(bytes)
  {
    hide Text, Quad, Digits;
    var three := new Byte[3](_ => 0);
    var i := 0;
    text := "";
    ghost var goal := Text(Digits(bytes));
    assert three[..0] + bytes[0..] == bytes;
    for pos := 0 to |bytes|
      invariant 0 <= i < 3 && i == pos % 3
      invariant text + Text(Digits(three[..i] + bytes[pos..])) == goal
    {
      ghost var before := three[..i] + bytes[pos..];
      three[i] := bytes[pos];
      i := i + 1;
      assert three[..i] + bytes[pos + 1..] == before;
      if i == 3 {
        ghost var rest := bytes[pos + 1..];
        assert three[..3] == [three[0], three[1], three[2]];
        FullGroup(text, three[0], three[1], three[2], rest);
        text := text + Text(Quad(three[0], three[1], three[2]));
        i := 0;
        assert three[..0] + rest == rest;
      }
    }
    assert three[..i] + bytes[|bytes|..] == three[..i];
    if i > 0 {
      var last := LastGroup(three, i);
      text := text + last;
    } else {
      LastDigits([]);
    }
  }

  /** The last digits of one or two bytes left over, and the padding. */
  method LastGroup(three: array<Byte>, i: nat) returns (text: string)
    requires three.Length == 3 && 0 < i < 3
    modifies three
    ensures text == Text(Digits(old(three[..i]))) + Padding(i)
  {
    hide Text, Quad, Digits;
    ghost var held := three[..i];
    LastDigits(held);
    for j := i to 3
      invariant three[..i] == held && forall k :: i <= k < j ==> three[k] == 0
    {
      three[j] := 0;
    }
    text := Text(Quad(three[0], three[1], three[2])[..i + 1]);
    ghost var body := text;
    for j := i to 3
      invariant text == body + if j == i then "" else if j == i + 1 then "=" else "=="
    {
      text := text + "=";
    }
  }

  /** `std::string::find` stored in a byte: a character outside the alphabet becomes 255. */
  function Find(c: char): Byte {
    match Lookup(c)
    case Some(d) => d
    case None => 255
  }

  /** The decoder's arithmetic, masks and truncation included. */
  function Unpack(a: Byte, b: Byte, c: Byte, d: Byte): (r: seq<Byte>)
    ensures |r| == 3
  {
    [(a * 4 + b / 16 % 4) % 256, (b % 16 * 16 + c / 4 % 16) % 256, (c % 4 * 64 + d) % 256]
  }

  /** Failed lookups in the unused positions of a last group do not reach the bytes it yields. */
  lemma UnpackDigits(a: Digit, b: Digit, c: Byte, d: Byte)
    ensures Unpack(a, b, c, d)[0] == Triple(a, b, 0, 0)[0]
    ensures c < 64 ==> Unpack(a, b, c, d)[..2] == Triple(a, b, c, 0)[..2]
    ensures c < 64 && d < 64 ==> Unpack(a, b, c, d) == Triple(a, b, c, d)
  {
    Joined(a, b);
    if c < 64 { Joined(b % 16, c); }
  }

  /** Masks and truncation do nothing to digits. */
  lemma Joined(a: Digit, b: Digit)
    ensures b / 16 % 4 == b / 16 && b / 4 % 16 == b / 4
    ensures (a * 4 + b / 16) % 256 == a * 4 + b / 16
    ensures a < 16 ==> (a * 16 + b / 4) % 256 == a * 16 + b / 4
  {
  }

  lemma LeadingStep(s: string, pos: nat)
    requires pos < |s| && s[pos] != '=' && Lookup(s[pos]).Some?
    ensures Leading(s[pos..]) == [Lookup(s[pos]).value] + Leading(s[pos + 1..])
  {
    hide Lookup;
    assert s[pos..][0] == s[pos] && s[pos..][1..] == s[pos + 1..];
  }

  lemma LeadingEnds(s: string, pos: nat)
    requires pos <= |s| && (pos < |s| ==> s[pos] == '=' || Lookup(s[pos]).None?)
    ensures Leading(s[pos..]) == []
  {
    hide Lookup;
  }

  lemma FindKnown(c: char, d: Digit)
    requires Lookup(c) == Some(d)
    ensures Find(c) == d
  {
  }

  /** Decode through a four-character scratch array, flushed whenever it is full. */
  method DecodeText(s: string) returns (bytes: seq<Byte>)
    ensures bytes == Decode(s)
  {
    hide Lookup, Unpack, Triple, Bytes, Leading, Find;
    var four := new char[4](_ => '=');
    ghost var held: seq<Digit> := [];
    var i, pos := 0, 0;
    bytes := [];
    assert s[0..] == s && [] + Leading(s) == Leading(s);
    while pos < |s| && s[pos] != '=' && Lookup(s[pos]).Some?
      invariant 0 <= pos <= |s| && 0 <= i < 4 && |held| == i
      invariant forall k :: 0 <= k < i ==> Lookup(four[k]) == Some(held[k])
      invariant bytes + Bytes(held + Leading(s[pos..])) == Decode(s)
    {
      LeadingStep(s, pos);
      ghost var d := Lookup(s[pos]).value;
      four[i] := s[pos];
      i, pos := i + 1, pos + 1;
      assert held + ([d] + Leading(s[pos..])) == held + [d] + Leading(s[pos..]);
      held := held + [d];
      if i == 4 {
        var group := Flush(four, held);
        assert held == [held[0], held[1], held[2], held[3]];
        BytesFront(held[0], held[1], held[2], held[3], Leading(s[pos..]));
        bytes := bytes + group;
        i, held := 0, [];
        assert [] + Leading(s[pos..]) == Leading(s[pos..]);
      }
    }
    LeadingEnds(s, pos);
    assert held + [] == held;
    LastBytes(held);
    if i > 0 {
      for j := i to 4
        invariant forall k :: 0 <= k < i ==> Lookup(four[k]) == Some(held[k])
        invariant forall k :: i <= k < j ==> four[k] == '\0'
      {
        four[j] := '\0';
      }
      var group := Flush(four, held);
      bytes := bytes + group[..i - 1];
    }
  }

  /** Look four characters up and unpack them: the bytes their known digits determine are right. */
  method Flush(four: array<char>, ghost held: seq<Digit>) returns (group: seq<Byte>)
    requires four.Length == 4 && |held| <= 4 && forall k :: 0 <= k < |held| ==> Lookup(four[k]) == Some(held[k])
    ensures |group| == 3
    ensures |held| >= 2 ==> group[0] == Triple(held[0], held[1], 0, 0)[0]
    ensures |held| >= 3 ==> group[..2] == Triple(held[0], held[1], held[2], 0)[..2]
    ensures |held| == 4 ==> group == Triple(held[0], held[1], held[2], held[3])
  {
    hide Lookup, Unpack, Triple, Find;
    var a, b, c, d := Find(four[0]), Find(four[1]), Find(four[2]), Find(four[3]);
    forall k | 0 <= k < |held| ensures Find(four[k]) == held[k] {
      FindKnown(four[k], held[k]);
    }
    if |held| >= 2 {
      UnpackDigits(a, b, c, d);
    }
    group := Unpack(a, b, c, d);
  }

  lemma LastBytes(ds: seq<Digit>)
    requires |ds| < 4
    ensures |ds| < 2 ==> Bytes(ds) == []
    ensures |ds| == 2 ==> Bytes(ds) == [Triple(ds[0], ds[1], 0, 0)[0]]
    ensures |ds| == 3 ==> Bytes(ds) == Triple(ds[0], ds[1], ds[2], 0)[..2]
  {
  }

  // ---- the second codec ----

  lemma Split(q: nat, m: nat, r: nat)
    requires r < m
    ensures (m * q + r) / m == q && (m * q + r) % m == r
  {
    var x := m * q + r;
    Remainder(m, q, r);
    assert m * (x / m) == m * q;
    if x / m < q {
      MulOrder(x / m + 1, q, m);
    } else if x / m > q {
      MulOrder(q + 1, x / m, m);
    }
  }

  /** The four digits of a 24-bit group. */
  function GroupDigits(g: nat): (r: seq<Digit>)
    ensures |r| == 4
  {
    [g / 0x4_0000 % 64, g / 0x1000 % 64, g / 0x40 % 64, g % 64]
  }

  function Group(a: Byte, b: Byte, c: Byte): nat {
    (a as nat) * 0x1_0000 + (b as nat) * 0x100 + c
  }

  lemma GroupIsQuad(a: Byte, b: Byte, c: Byte)
    ensures GroupDigits(Group(a, b, c)) == Quad(a, b, c)
  {
    var g := Group(a, b, c);
    var q := Quad(a, b, c);
    assert g == 0x4_0000 * (q[0] as nat) + 0x1000 * (q[1] as nat) + 0x40 * (q[2] as nat) + q[3];
    hide Group, Quad;
    GroupSplits(q[0], q[1], q[2], q[3]);
  }

  lemma GroupSplits(p: Digit, q: Digit, r: Digit, s: Digit)
    ensures GroupDigits(0x4_0000 * (p as nat) + 0x1000 * (q as nat) + 0x40 * (r as nat) + s) == [p, q, r, s]
  {
    var x := 64 * (p as nat) + q;
    var y := 64 * x + r;
    var g := 64 * y + s;
    Split(y, 64, s);
    Split(x, 0x1000, 64 * (r as nat) + s);
    Split(p, 0x4_0000, 0x1000 * (q as nat) + 0x40 * (r as nat) + s);
    Split(x, 64, r);
    Split(p, 64, q);
  }

  /** The text `savePublicKey` writes is the encoding. */
  method SavePublicKey(key: seq<Byte>) returns (text: string)
    ensures text == Encode(key)
  {
    hide Text, Quad, GroupDigits, Group, Digits;
    var posn := 0;
    text := "";
    ghost var goal := Text(Digits(key));
    assert key[0..] == key;
    while |key| - posn >= 3
      invariant 0 <= posn <= |key| && posn % 3 == 0
      invariant text + Text(Digits(key[posn..])) == goal
    {
      var a, b, c := key[posn], key[posn + 1], key[posn + 2];
      assert key[posn..] == [a, b, c] + key[posn + 3..];
      DigitsFront(a, b, c, key[posn + 3..]);
      GroupIsQuad(a, b, c);
      TextSum(Quad(a, b, c), Digits(key[posn + 3..]));
      text := text + Text(GroupDigits(Group(a, b, c)));
      posn := posn + 3;
    }
    LastDigits(key[posn..]);
    if |key| - posn == 2 {
      GroupIsQuad(key[posn], key[posn + 1], 0);
      text := text + Text(GroupDigits(Group(key[posn], key[posn + 1], 0))[..3]) + "=";
    } else if |key| - posn == 1 {
      GroupIsQuad(key[posn], 0, 0);
      text := text + Text(GroupDigits(Group(key[posn], 0, 0))[..2]) + "==";
    }
  }

  /** The digits `loadPublicKey` shifts in. A blank repeats the digit before it; anything else outside
      the alphabet is an error, and padding ends the text. */
  function Shifted(s: string, last: Digit): Option<seq<Digit>> {
    if s == [] || s[0] == '=' then Some([]) else
      match Next(s[0], last)
      case None => None
      case Some(d) => Prepend(d, Shifted(s[1..], d))
  }

  function Next(c: char, last: Digit): Option<Digit> {
    if Lookup(c).Some? then Lookup(c) else if c in {' ', '\t', '\r', '\n'} then Some(last) else None
  }

  function Prepend(d: Digit, rest: Option<seq<Digit>>): Option<seq<Digit>> {
    match rest
    case None => None
    case Some(ds) => Some([d] + ds)
  }

  const MAX_LENGTH: nat := 2048

  /** The key in a file, if it has exactly the wanted length. */
  function Loaded(s: string, len: nat): Option<seq<Byte>> {
    if len > MAX_LENGTH then None else
      match Shifted(s, 0)
      case None => None
      case Some(ds) => if |Bytes(ds)| == len then Some(Bytes(ds)) else None
  }

  lemma {:induction false} ShiftedText(ds: seq<Digit>, rest: string, last: Digit)
    requires rest != [] ==> rest[0] == '='
    ensures Shifted(Text(ds) + rest, last) == Some(ds)
  {
    if ds != [] {
      LookupChar(ds[0]);
      hide Char, Lookup;
      ShiftedText(ds[1..], rest, ds[0]);
      assert (Text(ds) + rest)[1..] == Text(ds[1..]) + rest;
      assert [ds[0]] + ds[1..] == ds;
    }
  }

  // ---- blanks in a key file ----

  predicate Blank(c: char) {
    c == ' ' || c == '\t' || c == '\r' || c == '\n'
  }

  /** No blank before the padding or the end. */
  predicate NoBlank(s: string) {
    s == [] || s[0] == '=' || (!Blank(s[0]) && NoBlank(s[1..]))
  }

  /** The digits of a file when blanks are skipped. */
  function Skipped(s: string): Option<seq<Digit>> {
    if s == [] || s[0] == '=' then Some([])
    else if Blank(s[0]) then Skipped(s[1..])
    else
      match Lookup(s[0])
      case None => None
      case Some(d) => Prepend(d, Skipped(s[1..]))
  }

  lemma BlankNotDigit(c: char)
    ensures Blank(c) ==> Lookup(c).None?
  {
  }

  lemma {:induction false} ShiftedGrows(s: string, last: Digit)
    ensures Shifted(s, last).None? <==> Skipped(s).None?
    ensures Shifted(s, last).Some? ==> |Shifted(s, last).value| >= |Skipped(s).value|
    ensures Shifted(s, last).Some? ==> (NoBlank(s) <==> |Shifted(s, last).value| == |Skipped(s).value|)
    ensures Shifted(s, last).Some? && NoBlank(s) ==> Shifted(s, last) == Skipped(s)
  {
    if s != [] && s[0] != '=' {
      BlankNotDigit(s[0]);
      hide Lookup;
      var d := Next(s[0], last);
      if d.Some? {
        ShiftedGrows(s[1..], d.value);
      }
    }
  }

  /** The loader skips blanks exactly when it refuses the file or there is none to skip. */
  lemma SkipsBlanksIff(s: string)
    ensures Shifted(s, 0) == Skipped(s) <==> Shifted(s, 0).None? || NoBlank(s)
  {
    hide Shifted, Skipped, NoBlank;
    ShiftedGrows(s, 0);
  }

  predicate Constant(s: string, d: Digit) {
    s == [] || s[0] == '=' || (Lookup(s[0]) == Some(d) && Constant(s[1..], d))
  }

  /** Exactly one blank, and every digit after it repeats the one before it. */
  predicate Echoes(s: string, last: Digit) {
    s != [] && s[0] != '=' &&
    if Blank(s[0]) then Constant(s[1..], last) else Lookup(s[0]).Some? && Echoes(s[1..], Lookup(s[0]).value)
  }

  lemma {:induction false} ConstantIff(s: string, d: Digit)
    requires Skipped(s).Some? && NoBlank(s)
    ensures Constant(s, d) <==> forall i :: 0 <= i < |Skipped(s).value| ==> Skipped(s).value[i] == d
  {
    hide Lookup;
    if s != [] && s[0] != '=' {
      ConstantIff(s[1..], d);
      var ds := Skipped(s).value;
      assert ds == [ds[0]] + Skipped(s[1..]).value;
      assert forall i :: 0 <= i < |ds| - 1 ==> Skipped(s[1..]).value[i] == ds[i + 1];
    }
  }

  /** One extra digit leaves those before the end alone exactly when the file echoes. */
  lemma {:induction false} EchoesIff(s: string, last: Digit)
    requires Shifted(s, last).Some? && Skipped(s).Some?
    requires |Shifted(s, last).value| == |Skipped(s).value| + 1
    ensures Shifted(s, last).value[..|Skipped(s).value|] == Skipped(s).value <==> Echoes(s, last)
  {
    BlankNotDigit(s[0]);
    hide Lookup;
    var e, ds := Shifted(s, last).value, Skipped(s).value;
    if Blank(s[0]) {
      ShiftedGrows(s[1..], last);
      ConstantIff(s[1..], last);
      assert e == [last] + ds;
      RepeatsIff(last, ds);
    } else {
      var d := Lookup(s[0]).value;
      EchoesIff(s[1..], d);
      var e', ds' := Shifted(s[1..], d).value, Skipped(s[1..]).value;
      assert e[..|ds|] == [d] + e'[..|ds'|] && ds == [d] + ds';
      assert e[..|ds|] == ds <==> e'[..|ds'|] == ds' by {
        assert e[..|ds|][1..] == e'[..|ds'|] && ds[1..] == ds';
      }
    }
  }

  lemma {:induction false} RepeatsIff(d: Digit, ds: seq<Digit>)
    ensures ([d] + ds)[..|ds|] == ds <==> forall i :: 0 <= i < |ds| ==> ds[i] == d
  {
    if ([d] + ds)[..|ds|] == ds {
      RepeatsFrom(d, ds, |ds|);
    } else {
      var i :| 0 <= i < |ds| && ([d] + ds)[i] != ds[i];
      assert i > 0 ==> ([d] + ds)[i] == ds[i - 1];
    }
  }

  lemma {:induction false} RepeatsFrom(d: Digit, ds: seq<Digit>, n: nat)
    requires ([d] + ds)[..|ds|] == ds && n <= |ds|
    ensures forall i :: 0 <= i < n ==> ds[i] == d
  {
    if n > 0 {
      RepeatsFrom(d, ds, n - 1);
      assert ds[n - 1] == ([d] + ds)[..|ds|][n - 1] == ([d] + ds)[n - 1];
    }
  }

  function ByteCount(n: nat): nat {
    n / 4 * 3 + if n % 4 == 0 then 0 else n % 4 - 1
  }

  lemma {:induction false} BytesCount(ds: seq<Digit>)
    ensures |Bytes(ds)| == ByteCount(|ds|)
    decreases |ds|
  {
    hide Triple;
    if |ds| >= 4 {
      BytesCount(ds[4..]);
      assert |ds| / 4 == |ds[4..]| / 4 + 1 && |ds| % 4 == |ds[4..]| % 4;
    }
  }

  lemma SameCount(m: nat, n: nat)
    requires m < n && ByteCount(m) == ByteCount(n)
    ensures m % 4 == 0 && n == m + 1
  {
  }

  lemma TripleInjective(a: Digit, b: Digit, c: Digit, d: Digit, a': Digit, b': Digit, c': Digit, d': Digit)
    requires Triple(a, b, c, d) == Triple(a', b', c', d')
    ensures a == a' && b == b' && c == c' && d == d'
  {
    var t, t' := Triple(a, b, c, d), Triple(a', b', c', d');
    assert t[0] == t'[0] && t[1] == t'[1] && t[2] == t'[2];
  }

  /** Whole groups of digits are determined by their bytes, and one digit more adds no byte. */
  lemma {:induction false} GroupsInjective(e: seq<Digit>, ds: seq<Digit>)
    requires |ds| % 4 == 0 && |ds| <= |e| <= |ds| + 1
    ensures Bytes(e) == Bytes(ds) <==> e[..|ds|] == ds
    decreases |ds|
  {
    hide Triple;
    if |ds| == 0 {
      assert e[..0] == ds;
    } else {
      var x, y := e[4..], ds[4..];
      GroupsInjective(x, y);
      var t, u := Triple(e[0], e[1], e[2], e[3]), Triple(ds[0], ds[1], ds[2], ds[3]);
      assert Bytes(e)[..3] == t && Bytes(e)[3..] == Bytes(x) && Bytes(ds)[..3] == u && Bytes(ds)[3..] == Bytes(y);
      assert Bytes(e) == Bytes(ds) <==> t == u && Bytes(x) == Bytes(y);
      if t == u {
        TripleInjective(e[0], e[1], e[2], e[3], ds[0], ds[1], ds[2], ds[3]);
      }
      assert e[..|ds|] == [e[0], e[1], e[2], e[3]] + x[..|y|] && ds == [ds[0], ds[1], ds[2], ds[3]] + y;
      assert e[..|ds|] == ds <==> (e[0] == ds[0] && e[1] == ds[1] && e[2] == ds[2] && e[3] == ds[3]) && x[..|y|] == y by {
        assert e[..|ds|][4..] == x[..|y|] && ds[4..] == y;
      }
    }
  }

  /** The key a file spells once its blanks are skipped is the key that is loaded exactly when there is
      no blank, or one blank whose extra digit starts a group of its own and only echoes. */
  lemma LoadsSpelledKeyIff(s: string, len: nat)
    requires len <= MAX_LENGTH && Skipped(s).Some? && |Bytes(Skipped(s).value)| == len
    ensures Loaded(s, len) == Some(Bytes(Skipped(s).value))
       <==> NoBlank(s) || (|Skipped(s).value| % 4 == 0 && Echoes(s, 0))
  {
    hide Bytes, Shifted, Skipped, NoBlank, Echoes, ByteCount;
    ShiftedGrows(s, 0);
    var e, ds := Shifted(s, 0).value, Skipped(s).value;
    BytesCount(e);
    BytesCount(ds);
    if |e| == |ds| + 1 {
      EchoesIff(s, 0);
    }
    if !NoBlank(s) {
      if |Bytes(e)| == len {
        SameCount(|ds|, |e|);
        GroupsInjective(e, ds);
      } else if Echoes(s, 0) {
        EchoCount(s, 0);
        if |ds| % 4 == 0 { NextCount(|ds|); }
      }
    }
  }

  lemma NextCount(n: nat)
    requires n % 4 == 0
    ensures ByteCount(n + 1) == ByteCount(n)
  {
  }

  lemma {:induction false} EchoCount(s: string, last: Digit)
    requires Echoes(s, last) && Shifted(s, last).Some?
    ensures Skipped(s).Some? && |Shifted(s, last).value| == |Skipped(s).value| + 1
  {
    BlankNotDigit(s[0]);
    hide Lookup;
    if Blank(s[0]) {
      ConstantPlain(s[1..], last);
      ShiftedGrows(s[1..], last);
    } else {
      EchoCount(s[1..], Lookup(s[0]).value);
    }
  }

  lemma {:induction false} ConstantPlain(s: string, d: Digit)
    requires Constant(s, d)
    ensures NoBlank(s)
  {
    if s != [] && s[0] != '=' {
      BlankNotDigit(s[0]);
      ConstantPlain(s[1..], d);
    }
  }

  /** Two lines of two digits: the wrong key is loaded without complaint. */
  lemma BlankMisread()
    ensures Loaded("AB\nCD", 3) == Some([0, 16, 66]) && Skipped("AB\nCD") == Some([0, 1, 2, 3])
    ensures Bytes([0, 1, 2, 3]) == [0, 16, 131]
  {
    hide Shifted, Skipped, Bytes;
    MisreadDigits();
    assert [0, 1, 1, 2] + [3] == [0, 1, 1, 2, 3] && [0, 1, 2, 3] + [] == [0, 1, 2, 3];
    BytesFront(0, 1, 1, 2, [3]);
    BytesFront(0, 1, 2, 3, []);
    LastBytes([3]);
    LastBytes([]);
    assert Triple(0, 1, 1, 2) == [0, 16, 66] && [0, 16, 66] + [] == [0, 16, 66];
    assert Triple(0, 1, 2, 3) == [0, 16, 131] && [0, 16, 131] + [] == [0, 16, 131];
  }

  lemma MisreadDigits()
    ensures Shifted("AB\nCD", 0) == Some([0, 1, 1, 2, 3]) && Skipped("AB\nCD") == Some([0, 1, 2, 3])
  {
    MisreadTail();
    assert Next('B', 0) == Some(1) && Next('A', 0) == Some(0);
    hide Lookup, Next, Shifted, Skipped;
    ShiftedStep('B', "\nCD", 0, 1);
    ShiftedStep('A', "B\nCD", 0, 0);
    assert ['B'] + "\nCD" == "B\nCD" && ['A'] + "B\nCD" == "AB\nCD";
    assert [1] + [1, 2, 3] == [1, 1, 2, 3] && [0] + [1, 1, 2, 3] == [0, 1, 1, 2, 3];
    assert [1] + [2, 3] == [1, 2, 3] && [0] + [1, 2, 3] == [0, 1, 2, 3];
  }

  lemma MisreadTail()
    ensures Shifted("\nCD", 1) == Some([1, 2, 3]) && Skipped("\nCD") == Some([2, 3])
  {
    assert Next('D', 2) == Some(3) && Next('C', 1) == Some(2) && Next('\n', 1) == Some(1) && Next('D', 3) == Some(3);
    hide Lookup, Next, Shifted, Skipped;
    ShiftedStep('D', "", 3, 3);
    ShiftedStep('D', "", 2, 3);
    ShiftedStep('C', "D", 1, 2);
    ShiftedStep('\n', "CD", 1, 1);
    assert ['D'] + "" == "D" && ['C'] + "D" == "CD" && ['\n'] + "CD" == "\nCD";
    assert [3] + [] == [3] && [2] + [3] == [2, 3] && [1] + [2, 3] == [1, 2, 3];
  }

  lemma ShiftedStep(c: char, rest: string, last: Digit, d: Digit)
    requires c != '=' && Next(c, last) == Some(d)
    ensures Shifted([c] + rest, last) == Prepend(d, Shifted(rest, d))
    ensures Skipped([c] + rest) == if Blank(c) then Skipped(rest) else Prepend(d, Skipped(rest))
    ensures Shifted("", last) == Some([]) && Skipped("") == Some([])
  {
    BlankNotDigit(c);
    hide Lookup;
    assert ([c] + rest)[1..] == rest;
  }

  /** Loading a saved key of a supported length gives it back. */
  lemma LoadSaved(key: seq<Byte>)
    requires |key| <= MAX_LENGTH
    ensures Loaded(Encode(key), |key|) == Some(key)
  {
    ShiftedText(Digits(key), Padding(|key|), 0);
    BytesDigits(key);
  }

  method LoadPublicKey(s: string, len: nat) returns (key: Option<seq<Byte>>)
    ensures key == Loaded(s, len)
  {
    if len > MAX_LENGTH { return None; }
    hide Lookup, Bytes, Triple, Shows, Ends, Prepend;
    var group: nat, size: nat, digit: Digit, pos: nat := 0, 0, 0, 0;
    var bytes: seq<Byte> := [];
    ghost var held: seq<Digit> := [];
    LoadStarts(s, len);
    assert s[0..] == s;
    while pos < |s| && s[pos] != '='
      invariant pos <= |s| && size < 4 && |bytes| <= len
      invariant |held| == size && Shows(group, held)
      invariant Ends(bytes, held, Shifted(s[pos..], digit), len) == Loaded(s, len)
    {
      assert s[pos..][0] == s[pos] && s[pos..][1..] == s[pos + 1..];
      var d := Lookup(s[pos]);
      ghost var next := Next(s[pos], digit);
      if d.Some? {
        digit := d.value;
      } else if s[pos] !in {' ', '\t', '\r', '\n'} {
        EndsError(bytes, held, len);
        return None;
      }
      assert next == Some(digit);
      pos := pos + 1;
      ghost var rest := Shifted(s[pos..], digit);
      EndsShift(bytes, held, digit, rest, len);
      ShowsMore(group, held, digit);
      group := (group * 64 + digit) % 0x1_0000_0000;
      size, held := size + 1, held + [digit];
      if size >= 4 {
        EndsGroup(bytes, held, rest, len);
        ShowsFour(group, held);
        if len - |bytes| < 3 { return None; }
        size := 0;
        bytes := bytes + [group / 0x1_0000 % 256, group / 0x100 % 256, group % 256];
        held := [];
        ShowsNone(group);
      }
    }
    EndsLast(bytes, held, len);
    ShowsRest(group, held);
    assert bytes + [] == bytes;
    if size == 3 {
      if len - |bytes| < 2 { return None; }
      bytes := bytes + [group / 0x400 % 256, group / 4 % 256];
    } else if size == 2 {
      if len - |bytes| < 1 { return None; }
      bytes := bytes + [group / 16 % 256];
    }
    if |bytes| < len { return None; }
    return Some(bytes);
  }

  lemma LoadStarts(s: string, len: nat)
    requires len <= MAX_LENGTH
    ensures Shows(0, []) && Ends([], [], Shifted(s, 0), len) == Loaded(s, len)
  {
    hide Bytes, Shifted;
    if Shifted(s, 0).Some? {
      var ds := Shifted(s, 0).value;
      assert [] + ds == ds && [] + Bytes(ds) == Bytes(ds);
    }
  }

  lemma ShowsNone(group: nat)
    ensures Shows(group, [])
  {
  }

  lemma EndsError(bytes: seq<Byte>, held: seq<Digit>, len: nat)
    ensures Ends(bytes, held, None, len) == None
  {
  }

  /** The number a few digits spell. */
  function Number(ds: seq<Digit>): nat {
    if ds == [] then 0 else 64 * Number(ds[..|ds| - 1]) + ds[|ds| - 1]
  }

  function Span(n: nat): nat {
    match n case 0 => 1 case 1 => 64 case 2 => 0x1000 case 3 => 0x4_0000 case _ => 0x100_0000
  }

  /** The low bits of the shift register are the digits held, up to four of them. */
  ghost predicate Shows(group: nat, held: seq<Digit>) {
    |held| <= 4 && group % Span(|held|) == Number(held)
  }

  /** What is left to do: the bytes so far, those of the digits held and of the digits to come. */
  ghost function Ends(bytes: seq<Byte>, held: seq<Digit>, rest: Option<seq<Digit>>, len: nat): Option<seq<Byte>> {
    match rest
    case None => None
    case Some(ds) =>
      var all := bytes + Bytes(held + ds);
      if |all| == len then Some(all) else None
  }

  lemma TruncatesBy(x: nat, m: nat, c: nat)
    requires m > 0 && m * c == 0x1_0000_0000
    ensures x % 0x1_0000_0000 % m == x % m
  {
    var q, r := x / 0x1_0000_0000, x % 0x1_0000_0000;
    var a, b := r / m, r % m;
    assert r == a * m + b;
    assert (c * q + a) * m == (m * c) * q + a * m;
    Remainder(m, c * q + a, b);
  }

  lemma Truncates(x: nat, n: nat)
    requires n <= 4
    ensures x % 0x1_0000_0000 % Span(n) == x % Span(n)
  {
    match n
    case 0 => TruncatesBy(x, 1, 0x1_0000_0000);
    case 1 => TruncatesBy(x, 64, 0x400_0000);
    case 2 => TruncatesBy(x, 0x1000, 0x10_0000);
    case 3 => TruncatesBy(x, 0x4_0000, 0x4000);
    case 4 => TruncatesBy(x, 0x100_0000, 0x100);
  }

  lemma ShiftIn(group: nat, n: nat, d: Digit)
    requires n < 4
    ensures (group * 64 + d) % Span(n + 1) == group % Span(n) * 64 + d
  {
    var m := Span(n);
    assert m > 0 && Span(n + 1) == 64 * m;
    hide Span;
    var q, r := group / m, group % m;
    assert group == q * m + r;
    assert group * 64 + d == q * (64 * m) + (64 * r + d);
    Remainder(64 * m, q, 64 * r + d);
  }

  lemma ShowsMore(group: nat, held: seq<Digit>, d: Digit)
    requires |held| < 4 && Shows(group, held)
    ensures Shows((group * 64 + d) % 0x1_0000_0000, held + [d])
  {
    hide Span;
    Truncates(group * 64 + d, |held| + 1);
    ShiftIn(group, |held|, d);
    assert (held + [d])[..|held|] == held;
  }

  lemma EndsShift(bytes: seq<Byte>, held: seq<Digit>, d: Digit, rest: Option<seq<Digit>>, len: nat)
    ensures Ends(bytes, held + [d], rest, len)
         == Ends(bytes, held, Prepend(d, rest), len)
  {
    if rest.Some? {
      assert held + [d] + rest.value == held + ([d] + rest.value);
    }
  }

  lemma EndsGroup(bytes: seq<Byte>, held: seq<Digit>, rest: Option<seq<Digit>>, len: nat)
    requires |held| == 4
    ensures var t := Triple(held[0], held[1], held[2], held[3]);
            Ends(bytes, held, rest, len) == Ends(bytes + t, [], rest, len)
    ensures len < |bytes| + 3 ==> Ends(bytes, held, rest, len) == None
  {
    hide Triple;
    if rest.Some? {
      assert held == [held[0], held[1], held[2], held[3]];
      BytesFront(held[0], held[1], held[2], held[3], rest.value);
      var t := Triple(held[0], held[1], held[2], held[3]);
      assert [] + rest.value == rest.value;
      assert bytes + (t + Bytes(rest.value)) == bytes + t + Bytes(rest.value);
    }
  }

  lemma EndsLast(bytes: seq<Byte>, held: seq<Digit>, len: nat)
    requires |held| < 4
    ensures Ends(bytes, held, Some([]), len) ==
            var all := bytes + Bytes(held); if |all| == len then Some(all) else None
  {
    assert held + [] == held;
  }

  lemma NumberTwo(a: Digit, b: Digit)
    ensures Number([a, b]) == 64 * (a as nat) + b
  {
    assert [a, b][..1] == [a] && [a][..0] == [];
    assert Number([a]) == a;
  }

  lemma NumberThree(a: Digit, b: Digit, c: Digit)
    ensures Number([a, b, c]) == 64 * (64 * (a as nat) + b) + c
  {
    assert [a, b, c][..2] == [a, b];
    NumberTwo(a, b);
  }

  lemma NumberFour(a: Digit, b: Digit, c: Digit, d: Digit)
    ensures Number([a, b, c, d]) == 64 * (64 * (64 * (a as nat) + b) + c) + d
  {
    assert [a, b, c, d][..3] == [a, b, c];
    NumberThree(a, b, c);
  }

  lemma ThreeBytes(k: nat, a: Byte, b: Byte, c: Byte)
    ensures var g := 0x100_0000 * k + 0x1_0000 * (a as nat) + 0x100 * (b as nat) + c;
            g / 0x1_0000 % 256 == a && g / 0x100 % 256 == b && g % 256 == c
  {
    var x := 256 * k + a;
    var y := 256 * x + b;
    Split(y, 256, c);
    Split(x, 0x1_0000, 256 * (b as nat) + c);
    Split(x, 256, b);
    Split(k, 256, a);
  }

  lemma TwoBytes(k: nat, a: Byte, b: Byte, e: nat)
    requires e < 4
    ensures var g := 0x4_0000 * k + 0x400 * (a as nat) + 4 * (b as nat) + e; g / 0x400 % 256 == a && g / 4 % 256 == b
  {
    var x := 256 * k + a;
    Split(x, 0x400, 4 * (b as nat) + e);
    Split(256 * x + b, 4, e);
    Split(x, 256, b);
    Split(k, 256, a);
  }

  lemma OneByte(k: nat, a: Byte, e: nat)
    requires e < 16
    ensures (0x1000 * k + 16 * (a as nat) + e) / 16 % 256 == a
  {
    Split(256 * k + a, 16, e);
    Split(k, 256, a);
  }

  lemma ShowsFour(group: nat, held: seq<Digit>)
    requires |held| == 4 && Shows(group, held)
    ensures [group / 0x1_0000 % 256, group / 0x100 % 256, group % 256] == Triple(held[0], held[1], held[2], held[3])
  {
    var t := Triple(held[0], held[1], held[2], held[3]);
    assert held == [held[0], held[1], held[2], held[3]];
    NumberFour(held[0], held[1], held[2], held[3]);
    assert Number(held) == 0x1_0000 * (t[0] as nat) + 0x100 * (t[1] as nat) + t[2];
    hide Number, Triple;
    assert group == 0x100_0000 * (group / 0x100_0000) + Number(held);
    ThreeBytes(group / 0x100_0000, t[0], t[1], t[2]);
  }

  lemma ShowsThree(group: nat, a: Digit, b: Digit, c: Digit)
    requires group % 0x4_0000 == 64 * (64 * (a as nat) + b) + c
    ensures var t := Triple(a, b, c, 0); group / 0x400 % 256 == t[0] && group / 4 % 256 == t[1]
  {
    var t := Triple(a, b, c, 0);
    assert 64 * (64 * (a as nat) + b) + c == 0x400 * (t[0] as nat) + 4 * (t[1] as nat) + c % 4;
    hide Triple;
    TwoBytes(group / 0x4_0000, t[0], t[1], c % 4);
  }

  lemma ShowsTwo(group: nat, a: Digit, b: Digit)
    requires group % 0x1000 == 64 * (a as nat) + b
    ensures group / 16 % 256 == Triple(a, b, 0, 0)[0]
  {
    var t := Triple(a, b, 0, 0);
    assert 64 * (a as nat) + b == 16 * (t[0] as nat) + b % 16;
    hide Triple;
    OneByte(group / 0x1000, t[0], b % 16);
  }

  lemma ShowsRest(group: nat, held: seq<Digit>)
    requires |held| < 4 && Shows(group, held)
    ensures |held| == 3 ==> [group / 0x400 % 256, group / 4 % 256] == Bytes(held)
    ensures |held| == 2 ==> [group / 16 % 256] == Bytes(held)
    ensures |held| < 2 ==> Bytes(held) == []
  {
    LastBytes(held);
    hide Bytes, Number, Triple;
    if |held| == 3 {
      assert held == [held[0], held[1], held[2]];
      NumberThree(held[0], held[1], held[2]);
      ShowsThree(group, held[0], held[1], held[2]);
    } else if |held| == 2 {
      assert held == [held[0], held[1]];
      NumberTwo(held[0], held[1]);
      ShowsTwo(group, held[0], held[1]);
    }
  }
}
