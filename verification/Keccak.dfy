/** Keccak-f[1600] of FIPS 202, and the lane-complemented rounds that work in permuted places. */
module Keccak {
  import opened Constants

  /** A 64-bit word as its bits, the lowest first. */
  type Lane = s: seq<bool> | |s| == 64 witness seq(64, _ => false)

  type Lanes = s: seq<Lane> | |s| == 25 witness seq(25, _ => seq(64, _ => false))

  // ---- word operations ----

  function Xor(a: Lane, b: Lane): Lane { seq(64, z requires 0 <= z < 64 => a[z] != b[z]) }

  function And(a: Lane, b: Lane): Lane { seq(64, z requires 0 <= z < 64 => a[z] && b[z]) }

  function Or(a: Lane, b: Lane): Lane { seq(64, z requires 0 <= z < 64 => a[z] || b[z]) }

  function Not(a: Lane): Lane { seq(64, z requires 0 <= z < 64 => !a[z]) }

  function Rot(a: Lane, n: nat): Lane { seq(64, z requires 0 <= z < 64 => a[(z - n) % 64]) }

  /** A left rotation: every bit moves up by `n`, round the end. */
  lemma RotMoves(a: Lane, n: nat, z: nat)
    requires z < 64
    ensures Rot(a, n)[(z + n) % 64] == a[z]
  {
    var y := (z + n) % 64;
    assert (y - n) % 64 == z;
  }

  function If(flip: bool, v: Lane): Lane {
    if flip then Not(v) else v
  }

  lemma XorIf(p: bool, q: bool, a: Lane, b: Lane)
    ensures Xor(If(p, a), If(q, b)) == If(p != q, Xor(a, b))
  {
  }

  lemma RotIf(p: bool, v: Lane, n: nat)
    ensures Rot(If(p, v), n) == If(p, Rot(v, n))
  {
  }

  lemma IfIf(p: bool, q: bool, v: Lane)
    ensures If(p, If(q, v)) == If(p != q, v)
  {
    assert Not(Not(v)) == v;
  }

  // ---- sections 3.2 to 3.4 of FIPS 202; lane (x, y) is at index 5 x + y ----

  function Sum(a: Lane, b: Lane, c: Lane, d: Lane, e: Lane): Lane {
    Xor(Xor(Xor(Xor(a, b), c), d), e)
  }

  function Column(s: Lanes, x: nat): Lane
    requires x < 5
  {
    Sum(s[5 * x], s[5 * x + 1], s[5 * x + 2], s[5 * x + 3], s[5 * x + 4])
  }

  function Spread(s: Lanes, x: nat): Lane
    requires x < 5
  {
    Xor(Column(s, (x + 4) % 5), Rot(Column(s, (x + 1) % 5), 1))
  }

  function Theta(s: Lanes): Lanes {
    seq(25, i requires 0 <= i < 25 => Xor(s[i], Spread(s, i / 5)))
  }

  function Rho(s: Lanes): Lanes {
    seq(25, i requires 0 <= i < 25 => Rot(s[i], Offset(i / 5, i % 5)))
  }

  /** The rotations by the source's table. */
  function RhoCode(s: Lanes): Lanes {
    seq(25, i requires 0 <= i < 25 => Rot(s[i], OFFSETS.At(i / 5, i % 5)))
  }

  lemma RhoIs(s: Lanes)
    ensures RhoCode(s) == Rho(s)
  {
    hide Rot, Offset;
    forall i | 0 <= i < 25 { OffsetIs(i / 5, i % 5); }
  }

  /** Where lane `i` comes from under pi. */
  function From(i: nat): (j: nat)
    requires i < 25
    ensures j < 25
  {
    5 * ((i / 5 + 3 * (i % 5)) % 5) + i / 5
  }

  function Pi(s: Lanes): Lanes {
    seq(25, i requires 0 <= i < 25 => s[From(i)])
  }

  function ChiLane(a: Lane, b: Lane, c: Lane): Lane { Xor(a, And(Not(b), c)) }

  /** The lane at (x + 1, y), counting modulo five. */
  function East(i: nat): (j: nat)
    requires i < 25
    ensures j < 25
  {
    if i < 20 then i + 5 else i - 20
  }

  function Chi(s: Lanes): Lanes {
    seq(25, i requires 0 <= i < 25 => ChiLane(s[i], s[East(i)], s[East(East(i))]))
  }

  function Iota(s: Lanes, rc: Lane): Lanes {
    s[0 := Xor(s[0], rc)]
  }

  function Round(s: Lanes, rc: Lane): Lanes {
    Iota(Chi(Pi(Rho(Theta(s)))), rc)
  }

  // ---- one round as the source computes it, on a view of the state ----

  /** The column sums in the order the source adds them. */
  function ThElt(b: Lanes, x: nat, z: nat): Lane
    requires x < 5 && z < 5
  {
    var tt0 := Xor(Xor(Xor(b[5 * z], b[5 * z + 1]), b[5 * z + 4]), Xor(b[5 * z + 2], b[5 * z + 3]));
    Xor(Xor(Rot(tt0, 1), b[5 * x + 4]), Xor(Xor(b[5 * x], b[5 * x + 1]), Xor(b[5 * x + 2], b[5 * x + 3])))
  }

  function ThetaCode(b: Lanes): Lanes {
    var t := [ThElt(b, 4, 1), ThElt(b, 0, 2), ThElt(b, 1, 3), ThElt(b, 2, 4), ThElt(b, 3, 0)];
    seq(25, i requires 0 <= i < 25 => Xor(b[i], t[i / 5]))
  }

  /** The five lanes with the same `y`. */
  datatype Row = Row(x0: Lane, x1: Lane, x2: Lane, x3: Lane, x4: Lane)

  function RowOf(s: Lanes, y: nat): Row
    requires y < 5
  {
    Row(s[y], s[5 + y], s[10 + y], s[15 + y], s[20 + y])
  }

  function XorOr(a: Lane, b: Lane, c: Lane): Lane { Xor(a, Or(b, c)) }

  function XorAnd(a: Lane, b: Lane, c: Lane): Lane { Xor(a, And(b, c)) }

  function KhiRow(y: nat, b: Row): Row
    requires y < 5
  {
    var Row(x0, x1, x2, x3, x4) := b;
    match y
    case 0 => Row(XorOr(x0, x1, x2), XorOr(x1, Not(x2), x3), XorAnd(x2, x3, x4), XorOr(x3, x4, x0), XorAnd(x4, x0, x1))
    case 1 => Row(XorOr(x0, x1, x2), XorAnd(x1, x2, x3), XorOr(x2, x3, Not(x4)), XorOr(x3, x4, x0), XorAnd(x4, x0, x1))
    case 2 => Row(XorOr(x0, x1, x2), XorAnd(x1, x2, x3), XorAnd(x2, Not(x3), x4), XorOr(Not(x3), x4, x0), XorAnd(x4, x0, x1))
    case 3 => Row(XorAnd(x0, x1, x2), XorOr(x1, x2, x3), XorOr(x2, Not(x3), x4), XorAnd(Not(x3), x4, x0), XorOr(x4, x0, x1))
    case _ => Row(XorAnd(x0, Not(x1), x2), XorOr(Not(x1), x2, x3), XorAnd(x2, x3, x4), XorOr(x3, x4, x0), XorAnd(x4, x0, x1))
  }

  function ChiRow(b: Row): Row {
    Row(ChiLane(b.x0, b.x1, b.x2), ChiLane(b.x1, b.x2, b.x3), ChiLane(b.x2, b.x3, b.x4), ChiLane(b.x3, b.x4, b.x0), ChiLane(b.x4, b.x0, b.x1))
  }

  function Pick(r: Row, x: nat): Lane
    requires x < 5
  {
    match x case 0 => r.x0 case 1 => r.x1 case 2 => r.x2 case 3 => r.x3 case _ => r.x4
  }

  function KhiCode(b: Lanes): Lanes {
    seq(25, i requires 0 <= i < 25 => Pick(KhiRow(i % 5, RowOf(b, i % 5)), i / 5))
  }

  // ---- which lanes are complemented ----

  /** Between rounds. */
  predicate Mask0(i: nat) {
    i == 4 || i == 5 || i == 10 || i == 12 || i == 13 || i == 16
  }

  /** After theta and rho. */
  predicate Mask1(i: nat) {
    i < 4 || i == 5 || i == 10 || i == 12 || i == 13 || i == 15 || 17 <= i < 20
  }

  /** After pi, where chi starts. */
  predicate Mask2(i: nat) {
    i < 3 || i == 4 || i == 8 || 10 <= i < 13 || i == 15 || i == 18 || i == 19 || i == 23
  }

  function Flip0(s: Lanes): Lanes { seq(25, i requires 0 <= i < 25 => If(Mask0(i), s[i])) }

  function Flip1(s: Lanes): Lanes { seq(25, i requires 0 <= i < 25 => If(Mask1(i), s[i])) }

  function Flip2(s: Lanes): Lanes { seq(25, i requires 0 <= i < 25 => If(Mask2(i), s[i])) }

  // ---- theta ----

  lemma SumOrder(a: Lane, b: Lane, c: Lane, d: Lane, e: Lane)
    ensures Xor(Xor(Xor(a, b), e), Xor(c, d)) == Sum(a, b, c, d, e)
  {
  }

  lemma SumLast(r: Lane, a: Lane, b: Lane, c: Lane, d: Lane, e: Lane)
    ensures Xor(Xor(r, e), Xor(Xor(a, b), Xor(c, d))) == Xor(Sum(a, b, c, d, e), r)
  {
  }

  /** Complementing an odd number of the summands complements the sum. */
  lemma SumIf(a: Lane, b: Lane, c: Lane, d: Lane, e: Lane, p: bool, q: bool, r: bool, s: bool, t: bool)
    ensures Sum(If(p, a), If(q, b), If(r, c), If(s, d), If(t, e)) == If((((p != q) != r) != s) != t, Sum(a, b, c, d, e))
  {
    hide Xor, If;
    XorIf(p, q, a, b);
    XorIf(p != q, r, Xor(a, b), c);
    XorIf((p != q) != r, s, Xor(Xor(a, b), c), d);
    XorIf(((p != q) != r) != s, t, Xor(Xor(Xor(a, b), c), d), e);
  }

  lemma ColumnFlip(s: Lanes, x: nat)
    requires x < 5
    ensures Column(Flip0(s), x) == If(x != 4, Column(s, x))
  {
    hide Sum, If;
    var i := 5 * x;
    SumIf(s[i], s[i + 1], s[i + 2], s[i + 3], s[i + 4], Mask0(i), Mask0(i + 1), Mask0(i + 2), Mask0(i + 3), Mask0(i + 4));
  }

  lemma SpreadFlip(s: Lanes, x: nat)
    requires x < 5
    ensures Spread(Flip0(s), x) == If(x == 0 || x == 3, Spread(s, x))
  {
    hide Xor, If, Rot, Column, Flip0;
    var a, b := (x + 4) % 5, (x + 1) % 5;
    ColumnFlip(s, a);
    ColumnFlip(s, b);
    RotIf(b != 4, Column(s, b), 1);
    XorIf(a != 4, b != 4, Column(s, a), Rot(Column(s, b), 1));
  }

  lemma ThEltIs(b: Lanes, x: nat, z: nat)
    requires x < 5 && z < 5
    ensures ThElt(b, x, z) == Xor(Column(b, x), Rot(Column(b, z), 1))
  {
    hide Xor, Rot, Sum;
    SumOrder(b[5 * z], b[5 * z + 1], b[5 * z + 2], b[5 * z + 3], b[5 * z + 4]);
    SumLast(Rot(Column(b, z), 1), b[5 * x], b[5 * x + 1], b[5 * x + 2], b[5 * x + 3], b[5 * x + 4]);
  }

  lemma ThetaIs(b: Lanes)
    ensures ThetaCode(b) == Theta(b)
  {
    hide Xor, Rot, Column, ThElt;
    ThEltIs(b, 4, 1);
    ThEltIs(b, 0, 2);
    ThEltIs(b, 1, 3);
    ThEltIs(b, 2, 4);
    ThEltIs(b, 3, 0);
  }

  /** The masks step through theta and pi. */
  lemma MaskTheta(i: nat)
    requires i < 25
    ensures Mask1(i) == (Mask0(i) != (i / 5 == 0 || i / 5 == 3))
  {
  }

  /** The sheet x + 3 y, counting modulo five. */
  function Sheet(x: nat, y: nat): (m: nat)
    requires x < 5 && y < 5
    ensures m < 5
  {
    match y
    case 0 => x
    case 1 => if x < 2 then x + 3 else x - 2
    case 2 => if x < 4 then x + 1 else 0
    case 3 => if x < 1 then 4 else x - 1
    case _ => if x < 3 then x + 2 else x - 3
  }

  lemma FromSheet(i: nat)
    requires i < 25
    ensures From(i) == 5 * Sheet(i / 5, i % 5) + i / 5
  {
    var x, y := i / 5, i % 5;
    assert (x + 3 * y) % 5 == Sheet(x, y);
  }

  lemma MaskSheet(x: nat, y: nat)
    requires x < 5 && y < 5
    ensures Mask1(5 * Sheet(x, y) + x) == Mask2(5 * x + y)
  {
  }

  lemma MaskPi(i: nat)
    requires i < 25
    ensures Mask1(From(i)) == Mask2(i)
  {
    hide From, Sheet, Mask1, Mask2;
    FromSheet(i);
    MaskSheet(i / 5, i % 5);
    assert 5 * (i / 5) + i % 5 == i;
  }

  lemma ThetaFlip(s: Lanes)
    ensures Theta(Flip0(s)) == Flip1(Theta(s))
  {
    forall i | 0 <= i < 25
      ensures Theta(Flip0(s))[i] == Flip1(Theta(s))[i]
    {
      MaskTheta(i);
      hide Xor, If, Spread, Mask0, Mask1;
      SpreadFlip(s, i / 5);
      XorIf(Mask0(i), i / 5 == 0 || i / 5 == 3, s[i], Spread(s, i / 5));
    }
  }

  lemma RhoFlip(s: Lanes)
    ensures Rho(Flip1(s)) == Flip1(Rho(s))
  {
    forall i | 0 <= i < 25
      ensures Rho(Flip1(s))[i] == Flip1(Rho(s))[i]
    {
      hide Rot, If, Offset;
      RotIf(Mask1(i), s[i], Offset(i / 5, i % 5));
    }
  }

  lemma PiFlip(s: Lanes)
    ensures Pi(Flip1(s)) == Flip2(Pi(s))
  {
    hide If, Mask1, Mask2, From;
    forall i | 0 <= i < 25 { MaskPi(i); }
  }

  // ---- chi ----

  /** The lanes of a row complemented as chi receives them. */
  function RowIn(y: nat, b: Row): Row
    requires y < 5
  {
    Row(If(Mask2(y), b.x0), If(Mask2(5 + y), b.x1), If(Mask2(10 + y), b.x2), If(Mask2(15 + y), b.x3), If(Mask2(20 + y), b.x4))
  }

  function RowOut(y: nat, b: Row): Row
    requires y < 5
  {
    Row(If(Mask0(y), b.x0), If(Mask0(5 + y), b.x1), If(Mask0(10 + y), b.x2), If(Mask0(15 + y), b.x3), If(Mask0(20 + y), b.x4))
  }

  lemma KhiRowFlip(y: nat, b: Row)
    requires y < 5
    ensures KhiRow(y, RowIn(y, b)) == RowOut(y, ChiRow(b))
  {
  }

  lemma KhiFlip(s: Lanes)
    ensures KhiCode(Flip2(s)) == Flip0(Chi(s))
  {
    forall i | 0 <= i < 25
      ensures KhiCode(Flip2(s))[i] == Flip0(Chi(s))[i]
    {
      KhiFlipAt(s, i);
    }
  }

  lemma KhiFlipAt(s: Lanes, i: nat)
    requires i < 25
    ensures KhiCode(Flip2(s))[i] == Flip0(Chi(s))[i]
  {
    var x, y := i / 5, i % 5;
    ChiAt(s, x, y);
    assert KhiCode(Flip2(s))[i] == Pick(KhiRow(y, RowOf(Flip2(s), y)), x);
    assert Flip0(Chi(s))[i] == If(Mask0(i), Chi(s)[i]);
    hide *;
    RowFlip(s, y);
    KhiRowFlip(y, RowOf(s, y));
    PickOut(y, ChiRow(RowOf(s, y)), x);
  }

  lemma ChiAt(s: Lanes, x: nat, y: nat)
    requires x < 5 && y < 5
    ensures Chi(s)[5 * x + y] == Pick(ChiRow(RowOf(s, y)), x)
  {
    var i := 5 * x + y;
    assert Chi(s)[i] == ChiLane(s[i], s[East(i)], s[East(East(i))]);
    hide Chi, ChiLane;
    EastTwice(x, y);
    hide East;
  }

  lemma EastTwice(x: nat, y: nat)
    requires x < 5 && y < 5
    ensures East(5 * x + y) == if x < 4 then 5 * (x + 1) + y else y
    ensures East(East(5 * x + y)) == if x < 3 then 5 * (x + 2) + y else if x == 3 then y else 5 + y
  {
  }

  lemma RowFlip(s: Lanes, y: nat)
    requires y < 5
    ensures RowOf(Flip2(s), y) == RowIn(y, RowOf(s, y))
  {
    hide If, Mask2;
  }

  lemma PickOut(y: nat, b: Row, x: nat)
    requires x < 5 && y < 5
    ensures Pick(RowOut(y, b), x) == If(Mask0(5 * x + y), Pick(b, x))
  {
    hide If, Mask0;
  }

  function RoundCode(b: Lanes, rc: Lane): Lanes {
    Iota(KhiCode(Pi(RhoCode(ThetaCode(b)))), rc)
  }

  /** A complemented round is the round of FIPS 202, complemented. */
  lemma RoundFlip(s: Lanes, rc: Lane)
    ensures RoundCode(Flip0(s), rc) == Flip0(Round(s, rc))
  {
    ThetaIs(Flip0(s));
    ThetaFlip(s);
    RhoIs(Flip1(Theta(s)));
    RhoFlip(Theta(s));
    PiFlip(Rho(Theta(s)));
    var t := Pi(Rho(Theta(s)));
    KhiFlip(t);
    hide Theta, ThetaCode, Rho, RhoCode, Pi, Chi, KhiCode, Xor;
    assert Iota(Flip0(Chi(t)), rc) == Flip0(Iota(Chi(t), rc));
  }

  // ---- the permuted places ----

  /** The lane names a source round works on, as two digits x and y, in the order of its parameters. */
  function Names(r: nat): Table
    requires r <= 8
  {
    match r
    case 0 =>
      Table(Five(0, 1, 2, 3, 4), Five(10, 11, 12, 13, 14), Five(20, 21, 22, 23, 24),
            Five(30, 31, 32, 33, 34), Five(40, 41, 42, 43, 44))
    case 1 =>
      Table(Five(0, 30, 10, 40, 20), Five(11, 41, 21, 1, 31), Five(22, 2, 32, 12, 42),
            Five(33, 13, 43, 23, 3), Five(44, 24, 4, 34, 14))
    case 2 =>
      Table(Five(0, 33, 11, 44, 22), Five(41, 24, 2, 30, 13), Five(32, 10, 43, 21, 4),
            Five(23, 1, 34, 12, 40), Five(14, 42, 20, 3, 31))
    case 3 =>
      Table(Five(0, 23, 41, 14, 32), Five(24, 42, 10, 33, 1), Five(43, 11, 34, 2, 20),
            Five(12, 30, 3, 21, 44), Five(31, 4, 22, 40, 13))
    case 4 =>
      Table(Five(0, 12, 24, 31, 43), Five(42, 4, 11, 23, 30), Five(34, 41, 3, 10, 22),
            Five(21, 33, 40, 2, 14), Five(13, 20, 32, 44, 1))
    case 5 =>
      Table(Five(0, 21, 42, 13, 34), Five(4, 20, 41, 12, 33), Five(3, 24, 40, 11, 32),
            Five(2, 23, 44, 10, 31), Five(1, 22, 43, 14, 30))
    case 6 =>
      Table(Five(0, 2, 4, 1, 3), Five(20, 22, 24, 21, 23), Five(40, 42, 44, 41, 43),
            Five(10, 12, 14, 11, 13), Five(30, 32, 34, 31, 33))
    case 7 =>
      Table(Five(0, 10, 20, 30, 40), Five(22, 32, 42, 2, 12), Five(44, 4, 14, 24, 34),
            Five(11, 21, 31, 41, 1), Five(33, 43, 3, 13, 23))
    case _ =>
      Table(Five(0, 11, 22, 33, 44), Five(32, 43, 4, 10, 21), Five(14, 20, 31, 42, 3),
            Five(41, 2, 13, 24, 30), Five(23, 34, 40, 1, 12))
  }

  /** Each round's places are the previous round's places moved by pi. */
  lemma NamesStep(r: nat, x: nat, y: nat)
    requires r < 8 && x < 5 && y < 5
    ensures Names(r + 1).At(x, y) == Names(r).At((x + 3 * y) % 5, x)
  {
  }

  /** Lane (x, y) is the word at x + 5 y. */
  function Spot(name: nat): nat {
    name / 10 + 5 * (name % 10)
  }

  /** The word that holds lane `i` in round `r`. */
  function Place(r: nat, i: nat): nat
    requires r <= 8 && i < 25
  {
    Spot(Names(r).At(i / 5, i % 5))
  }

  lemma PlaceStep(r: nat, i: nat)
    requires r < 8 && i < 25
    ensures Place(r + 1, i) == Place(r, From(i))
  {
    var x, y := i / 5, i % 5;
    NamesStep(r, x, y);
    hide Names, From;
    FromParts(i);
  }

  lemma PlaceFirst(i: nat)
    requires i < 25
    ensures Place(0, i) == i / 5 + 5 * (i % 5)
  {
    var x, y := i / 5, i % 5;
    assert Names(0).At(x, y) == 10 * x + y;
  }

  /** The inverse of `From`. */
  function To(j: nat): nat
    requires j < 25
  {
    5 * (j % 5) + (2 * (j / 5) + 3 * (j % 5)) % 5
  }

  lemma ToFrom(i: nat)
    requires i < 25
    ensures To(From(i)) == i
  {
    hide From;
    FromParts(i);
    BackMod(i / 5, i % 5);
  }

  lemma FromParts(i: nat)
    requires i < 25
    ensures From(i) / 5 == (i / 5 + 3 * (i % 5)) % 5 && From(i) % 5 == i / 5
  {
  }

  lemma BackMod(x: nat, y: nat)
    requires x < 5 && y < 5
    ensures (2 * ((x + 3 * y) % 5) + 3 * x) % 5 == y
  {
    var q := (x + 3 * y) / 5;
    var m := (x + 3 * y) % 5;
    assert 2 * m + 3 * x == 5 * (x + y - 2 * q) + y;
  }

  lemma FirstApart(i: nat, j: nat)
    requires i < j < 25
    ensures Place(0, i) < 25 && Place(0, j) < 25 && Place(0, i) != Place(0, j)
  {
    PlaceFirst(i);
    PlaceFirst(j);
    hide Place;
    var x, y, u, v := i / 5, i % 5, j / 5, j % 5;
    assert i == 5 * x + y && j == 5 * u + v;
  }

  /** The lanes of a round are the 25 words, each once. */
  lemma {:induction false} PlacesApart(r: nat, i: nat, j: nat)
    requires r <= 8 && i < j < 25
    ensures Place(r, i) < 25 && Place(r, j) < 25 && Place(r, i) != Place(r, j)
  {
    hide Names, To, Place, From;
    if r == 0 {
      FirstApart(i, j);
    } else {
      PlaceStep(r - 1, i);
      PlaceStep(r - 1, j);
      ToFrom(i);
      ToFrom(j);
      var a, b := From(i), From(j);
      if a < b { PlacesApart(r - 1, a, b); } else { PlacesApart(r - 1, b, a); }
    }
  }

  // ---- the permutation in place ----

  /** The state as round `r` names its lanes. */
  ghost function View(w: Lanes, r: nat): Lanes
    requires r <= 8
  {
    seq(25, i requires 0 <= i < 25 => w[PlaceIn(r, i)])
  }

  function PlaceIn(r: nat, i: nat): (p: nat)
    requires r <= 8 && i < 25
    ensures p == Place(r, i) && p < 25
  {
    if i < 24 then PlacesApart(r, i, 24); Place(r, i) else PlacesApart(r, 0, i); Place(r, i)
  }

  /** Stepping to the next round's names is pi. */
  lemma ViewStep(w: Lanes, r: nat)
    requires r < 8
    ensures View(w, r + 1) == Pi(View(w, r))
  {
    hide Place, From;
    forall i | 0 <= i < 25 { PlaceStep(r, i); }
  }

  function Rounds(s: Lanes, n: nat): Lanes
    requires n <= 24
  {
    if n == 0 then s else Round(Rounds(s, n - 1), RoundConstant(n - 1))
  }

  /** The word each place receives when the places of the eighth round are put back in order. */
  function SourceSome(p: nat): (q: nat)
    requires p < 25
    ensures q < 25
  {
    match p
    case 5 => 6 case 6 => 19 case 19 => 5
    case 10 => 12 case 12 => 8 case 8 => 10
    case 15 => 18 case 18 => 22 case 22 => 15
    case 20 => 24 case 24 => 11 case 11 => 20
    case _ => p
  }

  function SourceRest(p: nat): (q: nat)
    requires p < 25
    ensures q < 25
  {
    match p
    case 1 => 13 case 13 => 16 case 16 => 1
    case 21 => 7 case 7 => 2 case 2 => 21
    case 17 => 14 case 14 => 4 case 4 => 17
    case 3 => 9 case 9 => 23 case 23 => 3
    case _ => p
  }

  lemma SourceIsLast(i: nat)
    requires i < 25
    ensures SourceSome(SourceRest(PlaceIn(0, i))) == Place(8, i)
  {
    hide Names, Spot, SourceSome, SourceRest;
    PlaceFirst(i);
    SourceTable(i / 5, i % 5);
  }

  lemma SourceTable(x: nat, y: nat)
    requires x < 5 && y < 5
    ensures SourceSome(SourceRest(x + 5 * y)) == Spot(Names(8).At(x, y))
  {
  }

  lemma RoundsNone(s: Lanes)
    ensures Rounds(s, 0) == s
  {
  }

  // ---- word order and the complement at block boundaries ----

  /** From word order, x + 5 y, to lane order, 5 x + y, and back. */
  function Ordered(w: Lanes): Lanes {
    seq(25, i requires 0 <= i < 25 => w[i / 5 + 5 * (i % 5)])
  }

  lemma OrderedTwice(w: Lanes)
    ensures Ordered(Ordered(w)) == w
  {
    forall i | 0 <= i < 25
      ensures Ordered(Ordered(w))[i] == w[i]
    {
      TransposeTwice(i);
    }
  }

  lemma TransposeTwice(i: nat)
    requires i < 25
    ensures var j := i / 5 + 5 * (i % 5); j < 25 && j / 5 + 5 * (j % 5) == i
  {
  }

  lemma ViewFirst(w: Lanes)
    ensures View(w, 0) == Ordered(w)
  {
    hide Place;
    forall i | 0 <= i < 25 { PlaceFirst(i); }
  }

  /** The words that are kept complemented. */
  predicate WideMask(p: nat) {
    p == 1 || p == 2 || p == 8 || p == 12 || p == 17 || p == 20
  }

  function FlipWide(w: Lanes): Lanes { seq(25, p requires 0 <= p < 25 => If(WideMask(p), w[p])) }

  lemma OrderedFlip(w: Lanes)
    ensures Ordered(FlipWide(w)) == Flip0(Ordered(w))
  {
    forall i | 0 <= i < 25 { MaskOrdered(i); }
    hide If, WideMask, Mask0;
  }

  lemma MaskOrdered(i: nat)
    requires i < 25
    ensures WideMask(i / 5 + 5 * (i % 5)) == Mask0(i)
  {
  }

  lemma FlipWideTwice(w: Lanes)
    ensures FlipWide(FlipWide(w)) == w
  {
    forall p | 0 <= p < 25
      ensures FlipWide(FlipWide(w))[p] == w[p]
    {
      IfIf(WideMask(p), WideMask(p), w[p]);
    }
  }

  /** Keccak-f[1600] on the state in word order. */
  function Permuted(w: Lanes): Lanes {
    Ordered(Rounds(Ordered(w), 24))
  }

  class Permutation {
    const wide: array<Lane>

    ghost predicate Shape() {
      wide.Length == 25
    }

    constructor ()
      ensures Shape() && fresh(wide)
    {
      wide := new Lane[25](_ => seq(64, _ => false));
    }

    /** Overwrite the 25 lanes under round `r`'s names. */
    method Store(r: nat, b: Lanes)
      requires Shape() && r <= 8
      modifies wide
      ensures View(wide[..], r) == b
    {
      hide Place;
      forall i, j | 0 <= i < j < 25
        ensures PlaceIn(r, i) != PlaceIn(r, j)
      {
        PlacesApart(r, i, j);
      }
      forall i | 0 <= i < 25 { wide[PlaceIn(r, i)] := b[i]; }
    }

    method Load(r: nat) returns (b: Lanes)
      requires Shape() && r <= 8
      ensures b == View(wide[..], r)
    {
      hide Place;
      b := seq(25, i requires 0 <= i < 25 reads this, wide => wide[PlaceIn(r, i)]);
    }

    /** One round: theta and rho under one naming, chi under the next, iota on the first word.
        With the right lanes complemented before, they are complemented after. */
    method KfElt(r: nat, rc: Lane, ghost s: Lanes)
      requires Shape() && r < 8 && View(wide[..], r) == Flip0(s)
      modifies wide
      ensures View(wide[..], r + 1) == Flip0(Round(s, rc))
    {
      RoundFlip(s, rc);
      hide View, ThetaCode, RhoCode, KhiCode, Pi, Xor, Flip0, Round;
      var b := Load(r);
      Store(r, ThetaCode(b));
      b := Load(r);
      Store(r, RhoCode(b));
      ViewStep(wide[..], r);
      b := Load(r + 1);
      Store(r + 1, KhiCode(b));
      ghost var before := wide[..];
      wide[0] := Xor(wide[0], rc);
      FirstInPlace(before, r + 1, wide[0]);
    }

    method Cycle(a: nat, b: nat, c: nat)
      requires Shape() && a < 25 && b < 25 && c < 25 && a != b && b != c && a != c
      modifies wide
      ensures forall p | 0 <= p < 25 :: wide[p] == old(wide[if p == a then b else if p == b then c else if p == c then a else p])
    {
      var t := wide[a];
      wide[a] := wide[b];
      wide[b] := wide[c];
      wide[c] := t;
    }

    method RestoreSome()
      requires Shape()
      modifies wide
      ensures forall p | 0 <= p < 25 :: wide[p] == old(wide[SourceSome(p)])
    {
      Cycle(5, 6, 19);
      Cycle(10, 12, 8);
      Cycle(15, 18, 22);
      Cycle(20, 24, 11);
    }

    method RestoreRest()
      requires Shape()
      modifies wide
      ensures forall p | 0 <= p < 25 :: wide[p] == old(wide[SourceRest(p)])
    {
      Cycle(1, 13, 16);
      Cycle(21, 7, 2);
      Cycle(17, 14, 4);
      Cycle(3, 9, 23);
    }

    /** Put the lanes of the eighth round's names back in order. */
    method RestoreOrder()
      requires Shape()
      modifies wide
      ensures View(wide[..], 0) == old(View(wide[..], 8))
    {
      hide SourceSome, SourceRest, Place;
      RestoreSome();
      RestoreRest();
      forall i | 0 <= i < 25 { SourceIsLast(i); }
    }

    /** Eight rounds, each under the next names, and the names put back. */
    method EightRounds(n: nat, ghost s: Lanes)
      requires Shape() && n <= 16 && View(wide[..], 0) == Flip0(Rounds(s, n))
      modifies wide
      ensures View(wide[..], 0) == Flip0(Rounds(s, n + 8))
    {
      hide View, Flip0, Round, RoundConstant, Bits;
      RoundConstantIs(n);
      KfElt(0, Bits(RC[n], 64), Rounds(s, n));
      RoundConstantIs(n + 1);
      KfElt(1, Bits(RC[n + 1], 64), Rounds(s, n + 1));
      RoundConstantIs(n + 2);
      KfElt(2, Bits(RC[n + 2], 64), Rounds(s, n + 2));
      RoundConstantIs(n + 3);
      KfElt(3, Bits(RC[n + 3], 64), Rounds(s, n + 3));
      RoundConstantIs(n + 4);
      KfElt(4, Bits(RC[n + 4], 64), Rounds(s, n + 4));
      RoundConstantIs(n + 5);
      KfElt(5, Bits(RC[n + 5], 64), Rounds(s, n + 5));
      RoundConstantIs(n + 6);
      KfElt(6, Bits(RC[n + 6], 64), Rounds(s, n + 6));
      RoundConstantIs(n + 7);
      KfElt(7, Bits(RC[n + 7], 64), Rounds(s, n + 7));
      RestoreOrder();
    }

    method KeccakF(ghost w: Lanes)
      requires Shape() && wide[..] == FlipWide(w)
      modifies wide
      ensures wide[..] == FlipWide(Permuted(w))
    {
      hide View, Flip0, Rounds, Ordered, FlipWide;
      ghost var s := Ordered(w);
      OrderedFlip(w);
      ViewFirst(wide[..]);
      RoundsNone(s);
      var n := 0;
      while n < 24
        invariant 0 <= n <= 24 && n % 8 == 0
        invariant View(wide[..], 0) == Flip0(Rounds(s, n))
      {
        EightRounds(n, s);
        n := n + 8;
      }
      ViewFirst(wide[..]);
      OrderedFlip(Ordered(Rounds(s, 24)));
      OrderedTwice(Rounds(s, 24));
      OrderedTwice(wide[..]);
      OrderedTwice(FlipWide(Ordered(Rounds(s, 24))));
    }
  }

  /** Word 0 is lane 0 under every naming. */
  lemma FirstInPlace(w: Lanes, r: nat, v: Lane)
    requires r <= 8
    ensures View(w[0 := v], r) == View(w, r)[0 := v] && View(w, r)[0] == w[0]
  {
    FirstPlace(r);
    hide Place;
    forall i | 0 < i < 25
      ensures PlaceIn(r, i) != 0
    {
      PlacesApart(r, 0, i);
    }
  }

  lemma FirstPlace(r: nat)
    requires r <= 8
    ensures Place(r, 0) == 0
  {
    assert Names(r).At(0, 0) == 0;
  }
}
