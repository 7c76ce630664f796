/** Proof-of-work targets: the Kimoto Gravity Well retargeting loop over a block's ancestors. */
module Kimoto {
  import opened Types
  import opened Arith

  const MIN_BLOCKS: nat := 144
  const MAX_BLOCKS: nat := 4032
  /** 59 hex digits, all ones. */
  const MIN_DIFFICULTY: nat := 0xfff_ffff_ffff_ffff_ffff_ffff_ffff_ffff_ffff_ffff_ffff_ffff_ffff_ffff_ffff
  /** 64 hex digits, all ones. */
  const MAX_WORK: nat := 0xffff_ffff_ffff_ffff_ffff_ffff_ffff_ffff_ffff_ffff_ffff_ffff_ffff_ffff_ffff_ffff

  /** What fork choice and retargeting read of a block. */
  datatype Header = Header(prev: Id, timestamp: nat, height: nat, target: int, work: int)

  /** `horizon(scanned, actualRate, targetRate)` is the floating-point event horizon test, any
      decision at all. */
  datatype Rules = Rules(blockTarget: nat, horizon: (nat, int, int) -> bool)

  /** `BN_div` truncates toward zero. */
  function Quotient(a: int, n: int): int
    requires n > 0
  {
    if a >= 0 then a / n else -(-a / n)
  }

  /** Two's complement reading of a 64-bit word. */
  function Signed64(a: int): int {
    var w := a % U64;
    if w < U64 / 2 then w else w - U64
  }

  /** The loop's running values after some blocks. */
  datatype Well = Well(average: int, actualRate: int, targetRate: int)

  function Rate(last: Header, current: Header): int {
    var r := Signed64(last.timestamp - current.timestamp);
    if r < 0 then 0 else r
  }

  /** Scan `ancestors[i..]`, having scanned `i` blocks already. */
  function Scan(k: Rules, ancestors: seq<Header>, i: nat, w: Well): Well
    decreases |ancestors| - i
  {
    if i >= |ancestors| || ancestors[i].height == 1 || i >= MAX_BLOCKS then w else
      var n := i + 1;
      var average := if n == 1 then ancestors[i].target
                     else Quotient(ancestors[i].target - w.average, n) + w.average;
      var v := Well(average, Rate(ancestors[0], ancestors[i]), Signed64(k.blockTarget * n));
      if n >= MIN_BLOCKS && k.horizon(n, v.actualRate, v.targetRate) then v else Scan(k, ancestors, n, v)
  }

  /** Scale the average by how long the scanned blocks took; never easier than the floor. */
  function Scale(w: Well): int {
    var t := if w.actualRate != 0 && w.targetRate % U64 != 0
             then Quotient(w.average * w.actualRate, w.targetRate % U64) else w.average;
    if t > MIN_DIFFICULTY then MIN_DIFFICULTY else t
  }

  /** `calculateTarget` for a block whose parent is `ancestors[0]`, genesis last. */
  function Target(k: Rules, ancestors: seq<Header>): int {
    if ancestors == [] || ancestors[0].height < MIN_BLOCKS then MIN_DIFFICULTY
    else if ancestors[0].height % 12 != 0 then ancestors[0].target
    else Scale(Scan(k, ancestors, 0, Well(0, 0, 0)))
  }

  // ---- bounds ----

  ghost predicate Between(lo: int, hi: int, hs: seq<Header>) {
    forall i :: 0 <= i < |hs| && hs[i].height != 1 ==> lo <= hs[i].target <= hi
  }

  lemma QuotientBetween(x: int, a: int, n: nat)
    requires n > 0
    ensures a <= x ==> a <= Quotient(x - a, n) + a <= x
    ensures x <= a ==> x <= Quotient(x - a, n) + a <= a
  {
    if a <= x { DivRange(x - a, n); }
    if x <= a { DivRange(a - x, n); }
  }

  /** The average after the first `n` targets, with the loop's truncation at every step. */
  function Average(hs: seq<Header>, n: nat): int
    requires n <= |hs|
  {
    if n == 0 then 0
    else if n == 1 then hs[0].target
    else Quotient(hs[n - 1].target - Average(hs, n - 1), n) + Average(hs, n - 1)
  }

  /** The truncated average of the first `n` targets lies between two of them. */
  lemma {:induction false} AverageBetween(hs: seq<Header>, n: nat) returns (a: nat, b: nat)
    requires 1 <= n <= |hs|
    ensures a < n && b < n && hs[a].target <= Average(hs, n) <= hs[b].target
  {
    a, b := 0, 0;
    if n > 1 {
      a, b := AverageBetween(hs, n - 1);
      QuotientBetween(hs[n - 1].target, Average(hs, n - 1), n);
      if hs[n - 1].target <= Average(hs, n - 1) { a := n - 1; } else { b := n - 1; }
    }
  }

  function TargetSum(hs: seq<Header>, n: nat): int
    requires n <= |hs|
  {
    if n == 0 then 0 else TargetSum(hs, n - 1) + hs[n - 1].target
  }

  lemma QuotientRemainder(a: int, n: int)
    requires n > 0
    ensures -n < a - n * Quotient(a, n) < n
  {
  }

  lemma MeanStep(n: int, a: int, x: int, s: int, q: int)
    requires n >= 2 && -n < (x - a) - n * q < n
    requires -((n - 1) * (n - 2)) <= 2 * ((n - 1) * a - s) <= (n - 1) * (n - 2)
    ensures -(n * (n - 1)) <= 2 * (n * (q + a) - (s + x)) <= n * (n - 1)
  {
    assert n * (q + a) - (s + x) == ((n - 1) * a - s) - ((x - a) - n * q);
    assert n * (n - 1) == (n - 1) * (n - 2) + 2 * (n - 1);
  }

  /** Truncation costs at most half a unit per block: the average after `n` blocks is within
      (n - 1) / 2 of the exact mean. */
  lemma {:induction false} AverageNearMean(hs: seq<Header>, n: nat)
    requires 1 <= n <= |hs|
    ensures -(n * (n - 1)) <= 2 * (n * Average(hs, n) - TargetSum(hs, n)) <= n * (n - 1)
  {
    if n == 1 {
      assert TargetSum(hs, 1) == TargetSum(hs, 0) + hs[0].target;
    } else {
      AverageNearMean(hs, n - 1);
      var a, x := Average(hs, n - 1), hs[n - 1].target;
      QuotientRemainder(x - a, n);
      MeanStep(n, a, x, TargetSum(hs, n - 1), Quotient(x - a, n));
    }
  }

  /** The scan's average is exactly the average of the blocks it scanned: between one and 4032 of
      them, all of them above genesis, stopping early only at a break decision. */
  lemma {:induction false} ScanAverages(k: Rules, hs: seq<Header>, i: nat, w: Well) returns (n: nat)
    requires i <= |hs| && w.average == Average(hs, i) && i <= MAX_BLOCKS
    requires forall j :: 0 <= j < i ==> hs[j].height != 1
    ensures i <= n <= |hs| && n <= MAX_BLOCKS && Scan(k, hs, i, w).average == Average(hs, n)
    ensures forall j :: 0 <= j < n ==> hs[j].height != 1
    ensures n == |hs| || n == MAX_BLOCKS || hs[n].height == 1 || n >= MIN_BLOCKS
    decreases |hs| - i
  {
    hide Quotient, Rate, Signed64;
    n := i;
    if i < |hs| && hs[i].height != 1 && i < MAX_BLOCKS {
      n := i + 1;
      var v := Well(Average(hs, n), Rate(hs[0], hs[i]), Signed64(k.blockTarget * n));
      if !(n >= MIN_BLOCKS && k.horizon(n, v.actualRate, v.targetRate)) {
        n := ScanAverages(k, hs, n, v);
      }
    }
  }

  /** Whatever the break decisions, the scan's average lies between the targets of two blocks it
      scanned. */
  lemma ScanBetween(k: Rules, hs: seq<Header>) returns (n: nat, a: nat, b: nat)
    requires hs != [] && hs[0].height != 1
    ensures 1 <= n <= |hs| && n <= MAX_BLOCKS && (forall j :: 0 <= j < n ==> hs[j].height != 1)
    ensures var average := Scan(k, hs, 0, Well(0, 0, 0)).average;
            average == Average(hs, n) && a < n && b < n && hs[a].target <= average <= hs[b].target
  {
    hide Scan;
    n := ScanAverages(k, hs, 0, Well(0, 0, 0));
    a, b := AverageBetween(hs, n);
  }

  lemma QuotientNonNegative(a: int, b: int, n: nat)
    requires a >= 0 && b >= 0 && n > 0
    ensures Quotient(a * b, n) >= 0
  {
    assert a * b >= 0;
    DivRange(a * b, n);
  }

  lemma {:induction false} ScanRate(k: Rules, hs: seq<Header>, i: nat, w: Well)
    requires w.actualRate >= 0
    ensures Scan(k, hs, i, w).actualRate >= 0
    decreases |hs| - i
  {
    if i < |hs| && hs[i].height != 1 && i < MAX_BLOCKS {
      var n := i + 1;
      var average := if n == 1 then hs[i].target else Quotient(hs[i].target - w.average, n) + w.average;
      ScanRate(k, hs, n, Well(average, Rate(hs[0], hs[i]), Signed64(k.blockTarget * n)));
    }
  }

  /** Every computed target is a legal one. */
  lemma TargetRange(k: Rules, hs: seq<Header>)
    requires Between(0, MIN_DIFFICULTY, hs)
    ensures 0 <= Target(k, hs) <= MIN_DIFFICULTY
  {
    if hs != [] && hs[0].height >= MIN_BLOCKS && hs[0].height % 12 == 0 {
      var w0 := Well(0, 0, 0);
      var n, a, b := ScanBetween(k, hs);
      ScanRate(k, hs, 0, w0);
      var w := Scan(k, hs, 0, w0);
      if w.actualRate != 0 && w.targetRate % U64 != 0 {
        QuotientNonNegative(w.average, w.actualRate, w.targetRate % U64);
      }
    }
  }
}
