/** The constants of Keccak: FIPS 202 derives them, the source tabulates them. */
module Constants {
  import opened Arith

  // ---- tables over (x, y) ----

  datatype Five = Five(v0: nat, v1: nat, v2: nat, v3: nat, v4: nat) {
    function At(y: nat): nat
      requires y < 5
    {
      match y case 0 => v0 case 1 => v1 case 2 => v2 case 3 => v3 case _ => v4
    }
  }

  datatype Table = Table(s0: Five, s1: Five, s2: Five, s3: Five, s4: Five) {
    function At(x: nat, y: nat): nat
      requires x < 5 && y < 5
    {
      (match x case 0 => s0 case 1 => s1 case 2 => s2 case 3 => s3 case _ => s4).At(y)
    }
  }

  // ---- rotations, section 3.2.2 of FIPS 202 ----

  /** The lane reached after `t` steps. */
  function Walk(t: nat): (r: (nat, nat))
    ensures r.0 < 5 && r.1 < 5
  {
    if t == 0 then (1, 0) else var (x, y) := Walk(t - 1); (y, (2 * x + 3 * y) % 5)
  }

  /** The first step, of those from `t` on, at which the walk is at (x, y). */
  function Turn(x: nat, y: nat, t: nat): nat
    decreases 24 - t
  {
    if t >= 23 || Walk(t) == (x, y) then t else Turn(x, y, t + 1)
  }

  function Triangle(t: nat): nat {
    (t + 1) * (t + 2) / 2
  }

  /** How far lane (x, y) is rotated. */
  function Offset(x: nat, y: nat): nat {
    if x == 0 && y == 0 then 0 else Triangle(Turn(x, y, 0)) % 64
  }

  /** The rotations as the source writes them, by sheet. */
  const OFFSETS: Table :=
    Table(Five(0, 36, 3, 41, 18), Five(1, 44, 10, 45, 2), Five(62, 6, 43, 15, 61), Five(28, 55, 25, 21, 56), Five(27, 20, 39, 8, 14))

  /** When the walk comes by each lane. */
  const TURNS: Table :=
    Table(Five(0, 7, 1, 13, 19), Five(0, 23, 3, 8, 10), Five(18, 2, 17, 4, 21), Five(6, 9, 16, 5, 14), Five(12, 22, 20, 15, 11))

  function TurnAt(x: nat, y: nat): nat
    requires x < 5 && y < 5
  {
    TURNS.At(x, y)
  }

  lemma TurnNext(x: nat, y: nat)
    requires x < 5 && y < 5 && (x, y) != (0, 0)
    ensures TurnAt(x, y) < 23 ==> (y, (2 * x + 3 * y) % 5) != (0, 0) && TurnAt(y, (2 * x + 3 * y) % 5) == TurnAt(x, y) + 1
    ensures TurnAt(x, y) < 24
  {
  }

  lemma WalkStep(t: nat)
    requires t > 0
    ensures Walk(t) == (Walk(t - 1).1, (2 * Walk(t - 1).0 + 3 * Walk(t - 1).1) % 5)
  {
  }

  lemma WalkStarts()
    ensures Walk(0) == (1, 0) && TurnAt(1, 0) == 0
  {
  }

  lemma {:induction false} TurnOfWalk(t: nat)
    requires t < 24
    ensures Walk(t) != (0, 0) && TurnAt(Walk(t).0, Walk(t).1) == t
  {
    hide TurnAt, Walk;
    if t == 0 {
      WalkStarts();
    } else {
      TurnOfWalk(t - 1);
      WalkStep(t);
      TurnNext(Walk(t - 1).0, Walk(t - 1).1);
    }
  }

  lemma TurnPrevious(x: nat, y: nat)
    requires x < 5 && y < 5 && (x, y) != (0, 0) && TurnAt(x, y) > 0
    ensures var z := (x + 3 * y) % 5; (z, x) != (0, 0) && (2 * z + 3 * x) % 5 == y && TurnAt(z, x) == TurnAt(x, y) - 1
  {
  }

  lemma TurnFirst(x: nat, y: nat)
    requires x < 5 && y < 5 && (x, y) != (0, 0) && TurnAt(x, y) == 0
    ensures (x, y) == (1, 0)
  {
  }

  lemma {:induction false} WalkOfTurn(x: nat, y: nat, t: nat)
    requires x < 5 && y < 5 && (x, y) != (0, 0) && TurnAt(x, y) == t
    ensures Walk(t) == (x, y)
    decreases t
  {
    hide TurnAt;
    if t == 0 {
      TurnFirst(x, y);
    } else {
      hide Walk;
      var z := (x + 3 * y) % 5;
      TurnPrevious(x, y);
      WalkOfTurn(z, x, t - 1);
      WalkStep(t);
    }
  }

  lemma {:induction false} TurnIs(x: nat, y: nat, t: nat)
    requires x < 5 && y < 5 && (x, y) != (0, 0) && t <= TurnAt(x, y) < 24
    ensures Turn(x, y, t) == TurnAt(x, y)
    decreases 24 - t
  {
    hide TurnAt;
    if t == TurnAt(x, y) {
      WalkOfTurn(x, y, t);
    } else {
      TurnOfWalk(t);
      TurnIs(x, y, t + 1);
    }
  }

  lemma OffsetTable(x: nat, y: nat)
    requires x < 5 && y < 5 && (x, y) != (0, 0)
    ensures OFFSETS.At(x, y) == Triangle(TurnAt(x, y)) % 64
  {
  }

  /** The source's rotations are the standard's. */
  lemma OffsetIs(x: nat, y: nat)
    requires x < 5 && y < 5
    ensures OFFSETS.At(x, y) == Offset(x, y)
  {
    hide Turn, Triangle;
    if (x, y) != (0, 0) {
      OffsetTable(x, y);
      TurnNext(x, y);
      TurnIs(x, y, 0);
    }
  }

  // ---- round constants, section 3.2.5 of FIPS 202 ----

  /** The shift register of algorithm 5. */
  datatype Reg = Reg(r0: bool, r1: bool, r2: bool, r3: bool, r4: bool, r5: bool, r6: bool, r7: bool)

  function Clock(r: Reg): Reg {
    Reg(r.r7, r.r0, r.r1, r.r2, r.r3 != r.r7, r.r4 != r.r7, r.r5 != r.r7, r.r6)
  }

  function Lfsr(t: nat): Reg {
    if t == 0 then Reg(true, false, false, false, false, false, false, false) else Clock(Lfsr(t - 1))
  }

  /** The bit generated at step `t`. */
  function Rc(t: nat): bool {
    Lfsr(t % 255).r0
  }

  /** The constant of round `n`: bit 2^j - 1 is the generated bit j + 7 n, for j from 0 to 6. */
  function RoundConstant(n: nat): (r: seq<bool>)
    ensures |r| == 64
  {
    seq(64, z requires 0 <= z < 64 =>
      match z
      case 0 => Rc(7 * n)
      case 1 => Rc(1 + 7 * n)
      case 3 => Rc(2 + 7 * n)
      case 7 => Rc(3 + 7 * n)
      case 15 => Rc(4 + 7 * n)
      case 31 => Rc(5 + 7 * n)
      case 63 => Rc(6 + 7 * n)
      case _ => false)
  }

  /** The constants as the source writes them. */
  const RC: seq<nat> :=
    [0x0000_0000_0000_0001, 0x0000_0000_0000_8082, 0x8000_0000_0000_808A, 0x8000_0000_8000_8000,
     0x0000_0000_0000_808B, 0x0000_0000_8000_0001, 0x8000_0000_8000_8081, 0x8000_0000_0000_8009,
     0x0000_0000_0000_008A, 0x0000_0000_0000_0088, 0x0000_0000_8000_8009, 0x0000_0000_8000_000A,
     0x0000_0000_8000_808B, 0x8000_0000_0000_008B, 0x8000_0000_0000_8089, 0x8000_0000_0000_8003,
     0x8000_0000_0000_8002, 0x8000_0000_0000_0080, 0x0000_0000_0000_800A, 0x8000_0000_8000_000A,
     0x8000_0000_8000_8081, 0x8000_0000_0000_8080, 0x0000_0000_8000_0001, 0x8000_0000_8000_8008]

  /** The low `n` bits of a number, the lowest first. */
  function Bits(w: nat, n: nat): (r: seq<bool>)
    ensures |r| == n
  {
    if n == 0 then [] else [w % 2 == 1] + Bits(w / 2, n - 1)
  }

  /** Seven steps at once. */
  function Seven(r: Reg): Reg {
    Reg(((r.r1 != r.r3) != r.r4), ((r.r2 != r.r4) != r.r5), ((r.r3 != r.r5) != r.r6), ((r.r4 != r.r6) != r.r7), ((((r.r1 != r.r3) != r.r4) != r.r5) != r.r7), ((((r.r1 != r.r2) != r.r3) != r.r5) != r.r6), (((r.r1 != r.r2) != r.r6) != r.r7), (((r.r0 != r.r2) != r.r3) != r.r7))
  }

  function Clocks(r: Reg, j: nat): Reg {
    if j == 0 then r else Clock(Clocks(r, j - 1))
  }

  lemma ClocksNone(r: Reg)
    ensures Clocks(r, 0) == r
  {
  }

  lemma ClocksStep(r: Reg, j: nat)
    requires j > 0
    ensures Clocks(r, j) == Clock(Clocks(r, j - 1))
  {
  }

  lemma {:induction false} LfsrFrom(t: nat, j: nat)
    ensures Lfsr(t + j) == Clocks(Lfsr(t), j)
  {
    hide Clock;
    if j > 0 { LfsrFrom(t, j - 1); }
  }

  lemma FewClocks(r: Reg)
    ensures Clocks(r, 1) == Clock(r) && Clocks(r, 2) == Clock(Clock(r)) && Clocks(r, 3) == Three(r)
  {
    ThreeIs(r);
    hide Clocks, Clock, Three;
    ClocksNone(r);
    ClocksStep(r, 1);
    ClocksStep(r, 2);
    ClocksStep(r, 3);
  }

  lemma {:induction false} ClocksMore(r: Reg, i: nat, j: nat)
    ensures Clocks(r, i + j) == Clocks(Clocks(r, i), j)
  {
    hide Clock;
    if j > 0 { ClocksMore(r, i, j - 1); }
  }

  function Three(r: Reg): Reg {
    Reg((r.r5 != r.r7), r.r6, r.r7, r.r0, ((r.r1 != r.r5) != r.r7), (((r.r2 != r.r5) != r.r6) != r.r7), ((r.r3 != r.r5) != r.r6), ((r.r4 != r.r6) != r.r7))
  }

  function Four(r: Reg): Reg {
    Reg(((r.r4 != r.r6) != r.r7), (r.r5 != r.r7), r.r6, r.r7, (((r.r0 != r.r4) != r.r6) != r.r7), (((r.r1 != r.r4) != r.r5) != r.r6), ((r.r2 != r.r4) != r.r5), ((r.r3 != r.r5) != r.r6))
  }

  lemma ThreeIs(r: Reg)
    ensures Three(r) == Clock(Clock(Clock(r)))
  {
  }

  lemma FourIs(r: Reg)
    ensures Four(r) == Clock(Clock(Clock(Clock(r))))
  {
    var q := Clock(Clock(r));
    assert q == Reg(r.r6, r.r7, r.r0, r.r1, r.r2 != r.r6, (r.r3 != r.r6) != r.r7, (r.r4 != r.r6) != r.r7, r.r5 != r.r7);
  }

  lemma SevenIs(r: Reg)
    ensures Seven(r) == Clocks(r, 7)
  {
    assert Seven(r) == Four(Three(r));
    hide Clock, Clocks, Three, Four, Seven;
    FewClocks(r);
    var q := Three(r);
    ClocksMore(r, 3, 4);
    FewClocks(q);
    ClocksStep(q, 4);
    FourIs(q);
    ThreeIs(q);
  }

  /** The register after seven steps per round. */
  function RegAt(n: nat): Reg {
    match n
    case 0 => Reg(true, false, false, false, false, false, false, false)
    case 1 => Reg(false, false, false, false, false, false, false, true)
    case 2 => Reg(false, false, false, true, true, false, true, true)
    case 3 => Reg(false, true, false, true, true, false, false, false)
    case 4 => Reg(true, true, true, true, true, false, true, true)
    case 5 => Reg(true, false, false, true, false, false, false, false)
    case 6 => Reg(true, false, true, false, true, true, false, false)
    case 7 => Reg(true, true, true, true, false, false, true, false)
    case 8 => Reg(false, true, false, true, false, false, true, true)
    case 9 => Reg(false, false, false, false, true, true, true, false)
    case 10 => Reg(true, false, false, false, false, false, true, false)
    case 11 => Reg(false, false, true, true, false, true, true, true)
    case 12 => Reg(true, false, true, false, true, false, true, true)
    case 13 => Reg(true, false, true, true, false, false, true, true)
    case 14 => Reg(true, true, false, false, false, true, true, false)
    case 15 => Reg(true, true, false, true, false, true, false, true)
    case 16 => Reg(false, true, false, true, false, true, false, true)
    case 17 => Reg(false, true, false, true, false, true, false, false)
    case 18 => Reg(false, true, false, false, true, true, true, true)
    case 19 => Reg(false, false, false, true, false, true, true, true)
    case 20 => Reg(true, true, true, false, true, true, false, false)
    case 21 => Reg(false, true, true, true, true, true, false, false)
    case 22 => Reg(true, true, false, true, false, false, false, false)
    case _ => Reg(false, false, true, false, false, false, true, false)
  }

  lemma RegNext(n: nat)
    requires n < 23
    ensures Seven(RegAt(n)) == RegAt(n + 1)
  {
    hide Seven, RegAt;
    if n < 4 { RegNext0(n); } else if n < 8 { RegNext1(n); } else if n < 12 { RegNext2(n); }
    else if n < 16 { RegNext3(n); } else if n < 20 { RegNext4(n); } else { RegNext5(n); }
  }

  lemma RegNext0(n: nat)
    requires n < 4
    ensures Seven(RegAt(n)) == RegAt(n + 1)
  {
  }

  lemma RegNext1(n: nat)
    requires 4 <= n < 8
    ensures Seven(RegAt(n)) == RegAt(n + 1)
  {
  }

  lemma RegNext2(n: nat)
    requires 8 <= n < 12
    ensures Seven(RegAt(n)) == RegAt(n + 1)
  {
  }

  lemma RegNext3(n: nat)
    requires 12 <= n < 16
    ensures Seven(RegAt(n)) == RegAt(n + 1)
  {
  }

  lemma RegNext4(n: nat)
    requires 16 <= n < 20
    ensures Seven(RegAt(n)) == RegAt(n + 1)
  {
  }

  lemma RegNext5(n: nat)
    requires 20 <= n < 23
    ensures Seven(RegAt(n)) == RegAt(n + 1)
  {
  }

  lemma {:induction false} RegIs(n: nat)
    requires n < 24
    ensures Lfsr(7 * n) == RegAt(n)
  {
    if n > 0 {
      hide Clock, Clocks, Seven, RegAt, Lfsr;
      var t := 7 * (n - 1);
      RegIs(n - 1);
      RegNext(n - 1);
      SevenIs(Lfsr(t));
      LfsrFrom(t, 7);
    }
  }

  function Bit(b: bool): nat { if b then 1 else 0 }

  /** The bits that a register generates over seven steps. */
  function Generated(r: Reg): (g: seq<bool>)
    ensures |g| == 7
  {
    [r.r0, r.r7, r.r6, r.r5 != r.r7, ((r.r4 != r.r6) != r.r7), ((r.r3 != r.r5) != r.r6), ((r.r2 != r.r4) != r.r5)]
  }

  lemma GeneratedIs(n: nat, j: nat)
    requires n < 24 && j < 7
    ensures Rc(j + 7 * n) == Generated(RegAt(n))[j]
  {
    RegIs(n);
    var t := 7 * n;
    assert (t + j) % 255 == t + j;
    hide RegAt, Clock;
    LfsrFrom(t, j);
    hide Lfsr;
    GeneratedFrom(RegAt(n), j);
  }

  lemma GeneratedFrom(r: Reg, j: nat)
    requires j < 7
    ensures Clocks(r, j).r0 == Generated(r)[j]
  {
    hide Clock, Clocks, Three, Generated;
    var q := Three(r);
    ClocksNone(r);
    FewClocks(r);
    FewClocks(q);
    ClocksMore(r, 3, 1);
    ClocksMore(r, 3, 2);
    ClocksMore(r, 3, 3);
    FirstBits(r);
    FirstBits(q);
    ThreeBits(r);
  }

  lemma ThreeBits(r: Reg)
    ensures var g, q := Generated(r), Three(r);
            && g[0] == r.r0 && g[1] == r.r7 && g[2] == r.r6
            && g[3] == q.r0 && g[4] == q.r7 && g[5] == q.r6 && g[6] == Three(q).r0
  {
  }

  lemma FirstBits(r: Reg)
    ensures Clock(r).r0 == r.r7 && Clock(Clock(r)).r0 == r.r6
  {
  }

  /** Seven bits at places 2^j - 1 of a word. */
  function Sparse(b: seq<bool>): nat
    requires |b| == 7
  {
    Bit(b[0]) + 2 * (Bit(b[1]) + 4 * (Bit(b[2]) + 16 * (Bit(b[3])
      + 256 * (Bit(b[4]) + 0x1_0000 * (Bit(b[5]) + 0x1_0000_0000 * Bit(b[6]))))))
  }

  lemma SparseTable(n: nat)
    requires n < 24
    ensures RC[n] == Sparse(Generated(RegAt(n)))
  {
    if n < 8 { SparseLow(n); } else if n < 16 { SparseMid(n); } else { SparseHigh(n); }
    hide Sparse, Generated, RegAt;
  }

  lemma SparseLow(n: nat)
    requires n < 8
    ensures RC[n] == Sparse(Generated(RegAt(n)))
  {
  }

  lemma SparseMid(n: nat)
    requires 8 <= n < 16
    ensures RC[n] == Sparse(Generated(RegAt(n)))
  {
  }

  lemma SparseHigh(n: nat)
    requires 16 <= n < 24
    ensures RC[n] == Sparse(Generated(RegAt(n)))
  {
  }

  function Zeros(n: nat): (r: seq<bool>)
    ensures |r| == n
  {
    seq(n, _ => false)
  }

  lemma {:induction false} ZeroBits(m: nat, k: nat, n: nat)
    ensures Bits(Pow2(k) * m, k + n) == Zeros(k) + Bits(m, n)
  {
    if k == 0 {
      assert Zeros(0) + Bits(m, n) == Bits(m, n);
    } else {
      var half := Pow2(k - 1) * m;
      assert Pow2(k) * m == 2 * half;
      ZeroBits(m, k - 1, n);
      assert [false] + (Zeros(k - 1) + Bits(m, n)) == Zeros(k) + Bits(m, n);
    }
  }

  /** A bit, a gap, and the rest. */
  lemma GapBits(b: bool, g: nat, gap: nat, m: nat, n: nat)
    requires g >= 1 && gap == Pow2(g)
    ensures Bits(Bit(b) + gap * m, g + n) == [b] + Zeros(g - 1) + Bits(m, n)
  {
    var half := Pow2(g - 1) * m;
    assert gap * m == 2 * half;
    ZeroBits(m, g - 1, n);
    assert (Bit(b) + 2 * half) / 2 == half && (Bit(b) + 2 * half) % 2 == Bit(b);
    assert [b] + (Zeros(g - 1) + Bits(m, n)) == [b] + Zeros(g - 1) + Bits(m, n);
  }

  lemma SparseBits(b: seq<bool>)
    requires |b| == 7
    ensures Bits(Sparse(b), 64) == [b[0]] + ([b[1]] + Zeros(1) + ([b[2]] + Zeros(3) + ([b[3]] + Zeros(7)
              + ([b[4]] + Zeros(15) + ([b[5]] + Zeros(31) + [b[6]])))))
  {
    hide Bits;
    Powers();
    hide Pow2;
    var v6 := Bit(b[6]);
    var v5 := Bit(b[5]) + 0x1_0000_0000 * v6;
    var v4 := Bit(b[4]) + 0x1_0000 * v5;
    var v3 := Bit(b[3]) + 256 * v4;
    var v2 := Bit(b[2]) + 16 * v3;
    var v1 := Bit(b[1]) + 4 * v2;
    OneBit(b[6]);
    GapBits(b[5], 32, 0x1_0000_0000, v6, 1);
    GapBits(b[4], 16, 0x1_0000, v5, 33);
    GapBits(b[3], 8, 256, v4, 49);
    GapBits(b[2], 4, 16, v3, 57);
    GapBits(b[1], 2, 4, v2, 61);
    GapBits(b[0], 1, 2, v1, 63);
    assert [b[0]] + Zeros(0) == [b[0]];
  }

  lemma OneBit(b: bool)
    ensures Bits(Bit(b), 1) == [b]
  {
    assert Bits(Bit(b) / 2, 0) == [];
  }

  lemma Powers()
    ensures Pow2(1) == 2 && Pow2(2) == 4 && Pow2(4) == 16 && Pow2(8) == 256
    ensures Pow2(16) == 0x1_0000 && Pow2(32) == 0x1_0000_0000
  {
    PowSum(1, 1);
    PowSum(2, 2);
    PowSum(4, 4);
    PowSum(8, 8);
    PowSum(16, 16);
    assert Pow2(1) == 2 * Pow2(0);
  }

  lemma {:induction false} PowSum(a: nat, b: nat)
    ensures Pow2(a + b) == Pow2(a) * Pow2(b)
  {
    if a > 0 {
      PowSum(a - 1, b);
      assert Pow2(a + b) == 2 * Pow2(a - 1 + b);
    }
  }

  /** The source's constants are the standard's. */
  lemma RoundConstantIs(n: nat)
    requires n < 24
    ensures Bits(RC[n], 64) == RoundConstant(n)
  {
    hide Bits, Sparse, Generated, RegAt, Rc;
    SparseTable(n);
    var b := Generated(RegAt(n));
    SparseBits(b);
    GeneratedIs(n, 0);
    GeneratedIs(n, 1);
    GeneratedIs(n, 2);
    GeneratedIs(n, 3);
    GeneratedIs(n, 4);
    GeneratedIs(n, 5);
    GeneratedIs(n, 6);
    SpreadOut(b, n);
  }

  lemma SpreadOut(b: seq<bool>, n: nat)
    requires |b| == 7 && forall j :: 0 <= j < 7 ==> b[j] == Rc(j + 7 * n)
    ensures [b[0]] + ([b[1]] + Zeros(1) + ([b[2]] + Zeros(3) + ([b[3]] + Zeros(7)
              + ([b[4]] + Zeros(15) + ([b[5]] + Zeros(31) + [b[6]]))))) == RoundConstant(n)
  {
    hide Rc;
  }
}
