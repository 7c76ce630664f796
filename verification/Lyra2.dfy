/** Lyra2's row schedule: which rows each duplexing step reads and writes. */
module Lyra2 {
  import opened Arith

  /** The rows handed to one duplexing step. */
  datatype Call = Call(prev: int, rowa: int, row: int)

  // ---- odd steps walk through every residue ----

  lemma ModAdd(a: int, b: int, m: int)
    requires m > 0
    ensures (a % m + b) % m == (a + b) % m
  {
    var q := a / m;
    assert a == m * q + a % m;
    ModShift(a % m + b, q, m);
    assert a + b == a % m + b + m * q;
  }

  lemma ModShift(a: int, q: int, m: int)
    requires m > 0
    ensures (a + m * q) % m == a % m
  {
    var x, y := a / m, (a + m * q) / m;
    var r, s := a % m, (a + m * q) % m;
    assert a == m * x + r && a + m * q == m * y + s;
    assert m * (y - x - q) == r - s;
    if y - x - q > 0 { MulOrder(1, y - x - q, m); }
    if y - x - q < 0 { MulOrder(y - x - q, -1, m); }
    assert y - x - q == 0;
  }

  lemma EvenFactor(j: int, step: int, q: int)
    requires step % 2 == 1 && j * step == 2 * q
    ensures j % 2 == 0
  {
    var s := step / 2;
    assert j * step == 2 * (j * s) + j;
  }

  lemma HalfMultiple(j: int, step: int, m: int, q: int)
    requires m > 0 && (2 * j) * step == (2 * m) * q
    ensures (j * step) % m == 0
  {
    assert (2 * j) * step == 2 * (j * step);
    assert (2 * m) * q == 2 * (m * q);
    ModShift(0, q, m);
  }

  lemma DoubleMultiple(j: int, m: int)
    requires m > 0 && j % m == 0
    ensures (2 * j) % (2 * m) == 0
  {
    var q := j / m;
    assert j == m * q;
    assert 2 * j == (2 * m) * q;
    ModShift(0, q, 2 * m);
  }

  lemma PowPositive(e: nat)
    ensures Pow2(e) > 0
  {
  }

  /** An odd step brings a power of two back to zero only after whole turns. */
  lemma {:induction false} OddCancels(j: int, step: int, e: nat)
    requires step % 2 == 1 && Pow2(e) > 0 && (j * step) % Pow2(e) == 0
    ensures j % Pow2(e) == 0
    decreases e
  {
    if e > 0 {
      var m := Pow2(e - 1);
      PowPositive(e - 1);
      var q := (j * step) / Pow2(e);
      assert j * step == (2 * m) * q;
      assert (2 * m) * q == 2 * (m * q);
      EvenFactor(j, step, m * q);
      var i := j / 2;
      assert j == 2 * i;
      HalfMultiple(i, step, m, q);
      OddCancels(i, step, e - 1);
      DoubleMultiple(i, m);
    }
  }

  lemma SameRemainder(a: int, b: int, m: int)
    requires m > 0 && a % m == b % m
    ensures (b - a) % m == 0
  {
    var x, y := a / m, b / m;
    assert b - a == m * y - m * x;
    assert m * y - m * x == m * (y - x);
    ModShift(0, y - x, m);
  }

  /** Where `j` steps from row zero lead among `m` rows. */
  function Stride(j: int, step: int, m: int): (r: int)
    requires m > 0
    ensures 0 <= r < m
    ensures j == 0 ==> r == 0
  {
    (j * step) % m
  }

  lemma StepsDiffer(i: int, j: int, step: int, e: nat)
    requires step % 2 == 1 && 0 <= i < j && Pow2(e) > 0 && j - i < Pow2(e)
    ensures Stride(i, step, Pow2(e)) != Stride(j, step, Pow2(e))
  {
    hide Pow2;
    var m := Pow2(e);
    if (i * step) % m == (j * step) % m {
      SameRemainder(i * step, j * step, m);
      assert (j - i) * step == j * step - i * step;
      OddCancels(j - i, step, e);
      assert false;
    }
  }

  lemma NextStep(j: int, step: int, m: int)
    requires m > 0
    ensures (Stride(j, step, m) + step) % m == Stride(j + 1, step, m)
  {
    ModAdd(j * step, step, m);
    assert (j + 1) * step == j * step + step;
  }

  // ---- setup ----

  function Log(n: nat): nat
    requires n >= 1
  {
    if n == 1 then 0 else 1 + Log(n / 2)
  }

  lemma {:induction false} LogUnique(n: nat, e: nat)
    requires n >= 1 && Pow2(e) <= n < 2 * Pow2(e)
    ensures Log(n) == e
    decreases e
  {
    PowPositive(e);
    if e > 0 { LogUnique(n / 2, e - 1); }
  }

  lemma {:induction false} LogBounds(n: nat)
    requires n >= 1
    ensures 1 <= Pow2(Log(n)) <= n < 2 * Pow2(Log(n))
  {
    PowPositive(Log(n));
    if n > 1 { LogBounds(n / 2); }
  }

  /** The visitation step of window `e`: about half of it, up and down by one in turn. */
  function StepOf(e: nat): int
    requires e >= 1
  {
    if e == 1 then 1 else Pow2(e - 1) + (if e % 2 == 0 then 1 else -1)
  }

  lemma StepOdd(e: nat)
    requires e >= 1
    ensures StepOf(e) % 2 == 1 && StepOf(e) >= 1
  {
    if e > 1 {
      var k := Pow2(e - 2);
      HalfEven(e - 1);
      hide Pow2;
      assert StepOf(e) == 2 * k + 1 || StepOf(e) == 2 * k - 1;
      hide StepOf;
      NextToEven(k);
    }
  }

  lemma NextToEven(k: nat)
    ensures (2 * k + 1) % 2 == 1 && (2 * k - 1) % 2 == 1
  {
  }

  lemma HalfEven(e: nat)
    requires e >= 1
    ensures Pow2(e) == 2 * Pow2(e - 1)
  {
  }

  /** The row revisited while `row` is filled. */
  function Revisited(row: nat): int
    requires row >= 2
  {
    var e := Log(row);
    PowPositive(e);
    Stride(row - Pow2(e), if e >= 1 then StepOf(e) else 1, Pow2(e))
  }

  function Scheduled(row: nat): Call
    requires row >= 2
  {
    Call(row - 1, Revisited(row), row)
  }

  /** The first rows revisited, from row 2 on: windows of two, four and eight rows. */
  lemma FirstRows()
    ensures Revisited(2) == 0 && Revisited(3) == 1
    ensures Revisited(4) == 0 && Revisited(5) == 3 && Revisited(6) == 2 && Revisited(7) == 1
    ensures Revisited(8) == 0 && Revisited(9) == 3 && Revisited(10) == 6 && Revisited(11) == 1
    ensures Revisited(12) == 4 && Revisited(13) == 7 && Revisited(14) == 2 && Revisited(15) == 5
  {
    assert Pow2(0) == 1 && Pow2(1) == 2 && Pow2(2) == 4 && Pow2(3) == 8 && Pow2(4) == 16;
  }

  /** The loop variables of setup while the `j`-th row of window `e` is filled. */
  ghost predicate InWindow(e: nat, j: nat, row: int, prev: int, rowa: int, step: int, window: int, gap: int) {
    && e >= 1 && window == Pow2(e) >= 2 && j < window && row == window + j && prev == row - 1
    && step == StepOf(e) && gap == (if e % 2 == 1 then 1 else -1)
    && rowa == Stride(j, step, window)
  }

  /** The duplexing steps setup makes: one per row from 2 on, and at least one. */
  function SetupCount(nRows: nat): nat {
    if nRows >= 3 then nRows - 2 else 1
  }

  /** The setup loop; its first turn fills row 2 whatever `nRows` is. */
  method Setup(nRows: nat) returns (calls: seq<Call>)
    ensures |calls| == SetupCount(nRows) && forall i :: 0 <= i < |calls| ==> calls[i] == Scheduled(i + 2)
  {
    hide InWindow, Scheduled;
    var row, prev, rowa, step, window, gap := 2, 1, 0, 1, 2, 1;
    ghost var e, j := 1, 0;
    calls := [];
    var first := true;
    SetupStarts();
    while first || row < nRows
      invariant row == |calls| + 2 && (first ==> calls == []) && (!first ==> 0 < |calls| <= SetupCount(nRows))
      invariant InWindow(e, j, row, prev, rowa, step, window, gap)
      invariant forall i :: 0 <= i < |calls| ==> calls[i] == Scheduled(i + 2)
      decreases first, nRows - row
    {
      InWindowCall(e, j, row, prev, rowa, step, window, gap);
      calls := calls + [Call(prev, rowa, row)];
      rowa := (rowa + step) % window;
      prev := row;
      row := row + 1;
      first := false;
      if rowa == 0 {
        step := window + gap;
        window := window * 2;
        gap := -gap;
        e, j := e + 1, 0;
      } else {
        j := j + 1;
      }
    }
  }

  lemma SetupStarts()
    ensures InWindow(1, 0, 2, 1, 0, 1, 2, 1)
  {
    hide Stride;
    assert Pow2(1) == 2 * Pow2(0);
    StrideZero(1, 2);
  }

  lemma StrideZero(step: int, m: int)
    requires m > 0
    ensures Stride(0, step, m) == 0
  {
  }

  /** One turn of the loop hands out the scheduled rows and moves to the next row or window. */
  lemma InWindowCall(e: nat, j: nat, row: int, prev: int, rowa: int, step: int, window: int, gap: int)
    requires InWindow(e, j, row, prev, rowa, step, window, gap)
    ensures row >= 2 && window > 0 && Call(prev, rowa, row) == Scheduled(row)
    ensures var next := (rowa + step) % window;
            if next == 0 then InWindow(e + 1, 0, row + 1, row, next, window + gap, window * 2, -gap)
            else InWindow(e, j + 1, row + 1, row, next, step, window, gap)
  {
    hide Pow2, StepOf, Log, Stride;
    LogUnique(row, e);
    NextStep(j, step, window);
    StepOdd(e);
    if (rowa + step) % window == 0 {
      Wrapped(j + 1, step, e);
      NextWindow(e);
      StrideZero(window + gap, window * 2);
    } else {
      NotWrapped(j + 1, step, e);
    }
  }

  predicate InRange(c: Call, nRows: nat) {
    0 <= c.prev < nRows && 0 <= c.rowa < nRows && 0 <= c.row < nRows
  }

  /** Setup stays inside the matrix exactly when there are at least three rows: its first step fills
      row 2 before the row count is looked at. */
  lemma SetupInRangeIff(nRows: nat, calls: seq<Call>)
    requires |calls| == SetupCount(nRows) && forall i :: 0 <= i < |calls| ==> calls[i] == Scheduled(i + 2)
    ensures (forall i :: 0 <= i < |calls| ==> InRange(calls[i], nRows)) <==> nRows >= 3
  {
    hide Revisited;
    forall i | 0 <= i < |calls| ensures 0 <= calls[i].rowa < calls[i].prev < calls[i].row == i + 2 {
      RowsApart(i + 2);
    }
    assert calls[0].row == 2;
  }

  lemma Wrapped(j: nat, step: int, e: nat)
    requires step % 2 == 1 && Pow2(e) > 0 && 1 <= j <= Pow2(e) && Stride(j, step, Pow2(e)) == 0
    ensures j == Pow2(e)
  {
    hide Pow2;
    OddCancels(j, step, e);
    SmallRemainder(j, Pow2(e));
  }

  lemma SmallRemainder(j: int, m: int)
    requires 0 <= j < m || j == m > 0
    ensures j < m ==> j % m == j
  {
  }

  lemma NotWrapped(j: nat, step: int, e: nat)
    requires Pow2(e) > 0 && 1 <= j <= Pow2(e) && Stride(j, step, Pow2(e)) != 0
    ensures j < Pow2(e)
  {
    if j == Pow2(e) { ModShift(0, step, Pow2(e)); }
  }

  lemma NextWindow(e: nat)
    requires e >= 1
    ensures Pow2(e + 1) == 2 * Pow2(e)
    ensures StepOf(e + 1) == Pow2(e) + (if e % 2 == 1 then 1 else -1)
  {
  }

  /** The three rows of every setup call exist and are different. */
  lemma RowsApart(row: nat)
    requires row >= 2
    ensures 0 <= Revisited(row) < row - 1
  {
    var e := Log(row);
    LogBounds(row);
    assert e >= 1;
    hide Stride;
  }

  /** Filling rows w to 2w - 1 revisits every row below w exactly once. */
  lemma WindowVisitsAll(e: nat, x: nat) returns (row: nat)
    requires e >= 1 && x < Pow2(e)
    ensures Pow2(e) <= row < 2 * Pow2(e) && Revisited(row) == x
    ensures forall r: nat :: Pow2(e) <= r < 2 * Pow2(e) && Revisited(r) == x ==> r == row
  {
    var w := Pow2(e);
    StepOdd(e);
    var k := Reaches(StepOf(e), e, x);
    row := w + k;
    forall r: nat | w <= r < 2 * w ensures Revisited(r) == Stride(r - w, StepOf(e), w) {
      LogUnique(r, e);
    }
    forall r: nat | w <= r < 2 * w && Revisited(r) == x ensures r == row {
      if r < row { StepsDiffer(r - w, k, StepOf(e), e); }
      if r > row { StepsDiffer(k, r - w, StepOf(e), e); }
    }
  }

  /** An odd stride reaches every residue: distinct values below w fill the range. */
  lemma Reaches(step: int, e: nat, x: nat) returns (k: nat)
    requires step % 2 == 1 && x < Pow2(e)
    ensures k < Pow2(e) && Stride(k, step, Pow2(e)) == x
  {
    hide Stride, Pow2;
    var w := Pow2(e);
    var hit := Residues(step, e, w);
    SubsetSameSize(hit, Below(w));
    assert x in hit;
    k :| 0 <= k < w && Stride(k, step, w) == x;
  }

  /** The residues of the first `n` multiples of an odd step. */
  lemma {:induction false} Residues(step: int, e: nat, n: nat) returns (s: set<int>)
    requires step % 2 == 1 && Pow2(e) > 0 && n <= Pow2(e)
    ensures |s| == n && s <= Below(Pow2(e))
    ensures forall y :: y in s ==> exists k :: 0 <= k < n && Stride(k, step, Pow2(e)) == y
    decreases n
  {
    hide Stride, Pow2;
    s := {};
    if n > 0 {
      var t := Residues(step, e, n - 1);
      var y := Stride(n - 1, step, Pow2(e));
      if y in t {
        var k :| 0 <= k < n - 1 && Stride(k, step, Pow2(e)) == y;
        StepsDiffer(k, n - 1, step, e);
      }
      s := t + {y};
    }
  }

  function Below(n: nat): (s: set<int>)
    ensures |s| == n && forall y :: y in s <==> 0 <= y < n
  {
    if n == 0 then {} else Below(n - 1) + {n - 1}
  }

  lemma SubsetSameSize(a: set<int>, b: set<int>)
    requires a <= b && |a| == |b|
    ensures a == b
  {
    assert b == a + (b - a);
    assert |b| == |a| + |b - a|;
  }

  // ---- wandering ----

  /** The step of pass `tau`, as a 64-bit value converted to signed. */
  function PassStep(nRows: nat, tau: nat): int {
    if tau % 2 == 0 then -1 else nRows / 2 - 1
  }

  /** The rows of one pass: from row 0 in steps of `step`, until row 0 comes round again. */
  ghost predicate Passes(visits: seq<int>, nRows: nat, step: int)
    requires nRows > 0
  {
    && visits != []
    && (forall i :: 0 <= i < |visits| ==> visits[i] == Stride(i, step, nRows))
    && Stride(|visits|, step, nRows) == 0
    && (forall i :: 0 < i < |visits| ==> visits[i] != 0)
  }

  lemma WholeTurn(step: int, m: int)
    requires m > 0
    ensures Stride(m, step, m) == 0
  {
    ModShift(0, step, m);
  }

  /** 64-bit wrap-around before the modulus does no harm when the row count is a power of two. */
  lemma {:induction false} WrapHarmless(x: int, k: nat)
    requires k <= 64
    ensures Pow2(64) > 0 && Pow2(k) > 0 && (x % Pow2(64)) % Pow2(k) == x % Pow2(k)
  {
    hide Pow2;
    PowPositive(64);
    PowPositive(k);
    PowSplit(k, 64 - k);
    var m, q := Pow2(k), x / Pow2(64);
    assert x % Pow2(64) == x - Pow2(64) * q;
    assert Pow2(64) * q == m * (Pow2(64 - k) * q);
    ModShift(x % Pow2(64), Pow2(64 - k) * q, m);
  }

  lemma {:induction false} PowSplit(a: nat, b: nat)
    ensures Pow2(a + b) == Pow2(a) * Pow2(b)
  {
    if b > 0 {
      PowSplit(a, b - 1);
      assert Pow2(a) * (2 * Pow2(b - 1)) == 2 * (Pow2(a) * Pow2(b - 1));
    }
  }

  /** One pass of the wandering loop over `nRows = 2^k` rows. */
  method Wander(k: nat, tau: nat) returns (visits: seq<int>)
    requires k <= 62
    ensures Pow2(k) > 0 && Passes(visits, Pow2(k), PassStep(Pow2(k), tau))
  {
    hide Pow2, Stride;
    PowPositive(k);
    var nRows := Pow2(k);
    var step := PassStep(nRows, tau);
    var row, i := 0, 0;
    visits := [];
    var again := true;
    WholeTurn(step, nRows);
    while again
      invariant i == |visits| <= nRows && row == Stride(i, step, nRows)
      invariant forall j :: 0 <= j < i ==> visits[j] == Stride(j, step, nRows)
      invariant forall j :: 0 < j < i ==> visits[j] != 0
      invariant (i > 0 && row != 0 ==> again) && (!again ==> i > 0 && row == 0)
      invariant again ==> i < nRows && (i > 0 ==> row != 0)
      decreases nRows - i, again
    {
      visits := visits + [row];
      NextStep(i, step, nRows);
      WrapHarmless(row + step, k);
      row := ((row + step) % Pow2(64)) % nRows;
      i := i + 1;
      again := row != 0;
    }
  }

  /** A pass visits every row exactly once. */
  ghost predicate VisitsEachOnce(visits: seq<int>, n: nat) {
    && |visits| == n
    && (forall i :: 0 <= i < n ==> 0 <= visits[i] < n)
    && (forall i, j :: 0 <= i < j < n ==> visits[i] != visits[j])
  }

  lemma OddPass(visits: seq<int>, k: nat, step: int)
    requires Pow2(k) > 0 && Passes(visits, Pow2(k), step) && step % 2 == 1
    ensures VisitsEachOnce(visits, Pow2(k))
  {
    hide Stride;
    hide Pow2;
    var n := Pow2(k);
    WholeTurn(step, n);
    PassLength(visits, k, step);
    forall i, j | 0 <= i < j < n ensures visits[i] != visits[j] {
      StepsDiffer(i, j, step, k);
    }
  }

  lemma PassLength(visits: seq<int>, k: nat, step: int)
    requires Pow2(k) > 0 && Passes(visits, Pow2(k), step) && step % 2 == 1
    ensures |visits| == Pow2(k)
  {
    hide Pow2, Stride;
    var n := Pow2(k);
    WholeTurn(step, n);
    var i := if |visits| <= n then 0 else n;
    assert visits[i] == Stride(i, step, n);
    if |visits| < n {
      StepsDiffer(0, |visits|, step, k);
    }
  }

  /** Every pass over 2^k rows visits each row exactly once, unless there are just two rows and the
      pass is odd: its step is then zero and only row 0 is touched. */
  lemma WanderVisitsAllIff(visits: seq<int>, k: nat, tau: nat)
    requires Pow2(k) > 0 && Passes(visits, Pow2(k), PassStep(Pow2(k), tau))
    ensures VisitsEachOnce(visits, Pow2(k)) <==> !(k == 1 && tau % 2 == 1)
  {
    hide Stride, Passes, VisitsEachOnce;
    if k == 1 && tau % 2 == 1 {
      assert Pow2(1) == 2 * Pow2(0) == 2;
      ZeroStep(visits);
    } else {
      PassOdd(k, tau);
      OddPass(visits, k, PassStep(Pow2(k), tau));
    }
  }

  /** The rows of a pass: down from the top after row 0 on an even pass; on an odd one, each row a step
      of one less than half the rows after the last. */
  lemma PassRows(visits: seq<int>, k: nat, tau: nat, j: int)
    requires Pow2(k) > 0 && Passes(visits, Pow2(k), PassStep(Pow2(k), tau)) && 0 <= j < |visits|
    ensures tau % 2 == 0 ==> visits[j] == (-j) % Pow2(k)
    ensures tau % 2 == 1 ==> visits[j] == (j * (Pow2(k) / 2 - 1)) % Pow2(k)
    ensures j == 1 && k >= 2 ==> visits[1] == if tau % 2 == 0 then Pow2(k) - 1 else Pow2(k) / 2 - 1
  {
    hide Pow2;
    var n := Pow2(k);
    assert visits[j] == Stride(j, PassStep(n, tau), n);
    assert j * -1 == -j;
    if j == 1 && k >= 2 {
      HalfEven(k);
      SecondRow(n, tau);
    }
  }

  lemma SecondRow(n: nat, tau: nat)
    requires n >= 2
    ensures (1 * PassStep(n, tau)) % n == if tau % 2 == 0 then n - 1 else n / 2 - 1
  {
    if tau % 2 == 0 {
      assert -1 == -1 * n + (n - 1);
      Remainder(n, 0, n - 1);
      ModShift(n - 1, -1, n);
    } else {
      Remainder(n, 0, n / 2 - 1);
    }
  }

  lemma PassOdd(k: nat, tau: nat)
    requires !(k == 1 && tau % 2 == 1)
    ensures PassStep(Pow2(k), tau) % 2 == 1
  {
    if k >= 2 {
      HalfEven(k);
      HalfEven(k - 1);
      var q := Pow2(k - 2);
      hide Pow2;
      QuarterOdd(q, tau);
    }
  }

  lemma QuarterOdd(q: nat, tau: nat)
    ensures PassStep(4 * q, tau) % 2 == 1
  {
    assert 4 * q / 2 == 2 * q;
    NextToEven(q);
  }

  lemma ZeroStep(visits: seq<int>)
    requires Passes(visits, 2, 0)
    ensures !VisitsEachOnce(visits, 2)
  {
    var i := |visits| - 1;
    assert visits[i] == Stride(i, 0, 2) == 0;
  }
}
