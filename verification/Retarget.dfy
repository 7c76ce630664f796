/** What the retargeting loop computes: the average target of the blocks it scanned, scaled by the time
    they took against the time they should have taken. */
module Retarget {
  import opened Types
  import opened Arith
  import opened Kimoto

  const I63: int := 0x8000_0000_0000_0000

  /** The 64-bit word that a number is stored in, read as signed. */
  lemma SignedIs(a: int)
    ensures -I63 <= Signed64(a) < I63 && (a - Signed64(a)) % U64 == 0
    ensures -I63 <= a < I63 ==> Signed64(a) == a
  {
    var w := a % U64;
    assert a == a / U64 * U64 + w;
    assert (a - w) % U64 == 0;
  }

  /** The seconds from the oldest of the first `n` ancestors to the parent. */
  ghost function Seconds(hs: seq<Header>, n: nat): int
    requires 0 < n <= |hs|
  {
    hs[0].timestamp - hs[n - 1].timestamp
  }

  lemma RateIs(hs: seq<Header>, n: nat)
    requires 0 < n <= |hs|
    ensures 0 <= Rate(hs[0], hs[n - 1]) < I63
    ensures 0 <= Seconds(hs, n) < I63 ==> Rate(hs[0], hs[n - 1]) == Seconds(hs, n)
    ensures -I63 <= Seconds(hs, n) <= 0 ==> Rate(hs[0], hs[n - 1]) == 0
  {
    hide Signed64;
    SignedIs(Seconds(hs, n));
  }

  /** The scan may stop after `n` blocks: nothing is left but genesis, 4032 are scanned, or at least 144
      are and the rates leave the event horizon. */
  ghost predicate Stops(k: Rules, hs: seq<Header>, n: nat)
    requires 0 < n <= |hs|
  {
    || n == |hs| || n >= MAX_BLOCKS || hs[n].height == 1
    || (n >= MIN_BLOCKS && k.horizon(n, Rate(hs[0], hs[n - 1]), Signed64(k.blockTarget * n)))
  }

  /** The scan takes in `n` blocks: the first number at which it may stop. */
  ghost predicate Scans(k: Rules, hs: seq<Header>, n: nat) {
    0 < n <= |hs| && Stops(k, hs, n) && forall m :: 0 < m < n ==> !Stops(k, hs, m)
  }

  ghost function WellAt(k: Rules, hs: seq<Header>, n: nat): Well
    requires 0 < n <= |hs|
  {
    Well(Average(hs, n), Rate(hs[0], hs[n - 1]), Signed64(k.blockTarget * n))
  }

  lemma {:induction false} ScanEnds(k: Rules, hs: seq<Header>, i: nat, w: Well) returns (n: nat)
    requires i < |hs| && i < MAX_BLOCKS && hs[i].height != 1
    requires w == if i == 0 then Well(0, 0, 0) else WellAt(k, hs, i)
    requires forall m :: 0 < m <= i ==> !Stops(k, hs, m)
    ensures Scans(k, hs, n) && Scan(k, hs, i, w) == WellAt(k, hs, n)
    decreases |hs| - i
  {
    hide Quotient, Rate, Signed64;
    n := i + 1;
    if !Stops(k, hs, n) {
      n := ScanEnds(k, hs, n, WellAt(k, hs, n));
    }
  }

  /** Block `n + 1` moves the average towards its target by an `n + 1`-th of the difference, rounded
      towards the old average. */
  lemma AverageStep(hs: seq<Header>, n: nat)
    requires 0 < n < |hs|
    ensures Average(hs, 1) == hs[0].target
    ensures var d, s := hs[n].target - Average(hs, n), Average(hs, n + 1) - Average(hs, n);
            if d >= 0 then s * (n + 1) <= d < (s + 1) * (n + 1) else (s - 1) * (n + 1) < d <= s * (n + 1)
  {
    var d := hs[n].target - Average(hs, n);
    hide Average;
    assert Average(hs, n + 1) - Average(hs, n) == Quotient(d, n + 1) by { AverageNext(hs, n); }
    assert Average(hs, 1) == hs[0].target by { AverageOne(hs); }
    if d >= 0 {
      DivIs(d, n + 1);
    } else {
      DivIs(-d, n + 1);
      NegatedProduct(-d / (n + 1), n + 1);
    }
  }

  lemma AverageNext(hs: seq<Header>, n: nat)
    requires 0 < n < |hs|
    ensures Average(hs, n + 1) == Quotient(hs[n].target - Average(hs, n), n + 1) + Average(hs, n)
  {
  }

  lemma AverageOne(hs: seq<Header>)
    requires hs != []
    ensures Average(hs, 1) == hs[0].target
  {
  }

  lemma NegatedProduct(q: int, n: int)
    ensures -q * n == -(q * n) && (-q - 1) * n == -((q + 1) * n)
  {
  }

  ghost function Min(a: int, b: int): int {
    if a <= b then a else b
  }

  /** A retarget: `n` blocks are scanned, and the new target is their average, made easier in proportion
      when they took longer than `n` block times and harder when they took less, never easier than the
      floor. Without elapsed time, or without a block time, it is the average. */
  lemma TargetExact(k: Rules, hs: seq<Header>) returns (n: nat, q: int)
    requires hs != [] && hs[0].height >= 144 && hs[0].height % 12 == 0
    ensures Scans(k, hs, n)
    ensures -I63 <= Seconds(hs, n) <= 0 || k.blockTarget == 0 ==> Target(k, hs) == Min(Average(hs, n), MIN_DIFFICULTY)
    ensures 0 < Seconds(hs, n) < I63 && 0 < k.blockTarget * n < U64 && Average(hs, n) >= 0 ==>
              && q * (k.blockTarget * n) <= Average(hs, n) * Seconds(hs, n) < (q + 1) * (k.blockTarget * n)
              && Target(k, hs) == Min(q, MIN_DIFFICULTY)
  {
    hide Scan, Average;
    n := ScanEnds(k, hs, 0, Well(0, 0, 0));
    RateIs(hs, n);
    SignedIs(k.blockTarget * n);
    q := 0;
    var a, secs, goal := Average(hs, n), Seconds(hs, n), k.blockTarget * n;
    hide Rate, Signed64;
    if 0 < secs < I63 && 0 < goal < U64 && a >= 0 {
      WordBack(goal);
      q := a * secs / goal;
      assert a * secs >= 0;
      DivIs(a * secs, goal);
    }
  }

  lemma WordBack(a: int)
    requires 0 < a < U64
    ensures Signed64(a) % U64 == a
  {
  }

  lemma DivIs(a: nat, n: nat)
    requires n > 0
    ensures a / n * n <= a < (a / n + 1) * n && Quotient(a, n) == a / n
  {
    assert a == a / n * n + a % n;
    assert (a / n + 1) * n == a / n * n + n;
  }

  /** Below height 144 the target is the floor; between retargets it is the parent's. */
  lemma TargetKept(k: Rules, hs: seq<Header>)
    requires hs != []
    ensures hs[0].height < 144 ==> Target(k, hs) == MIN_DIFFICULTY
    ensures hs[0].height >= 144 && hs[0].height % 12 != 0 ==> Target(k, hs) == hs[0].target
  {
  }

  lemma ScansOnce(k: Rules, hs: seq<Header>, n: nat, m: nat)
    requires Scans(k, hs, n) && Scans(k, hs, m)
    ensures n == m
  {
    hide Stops;
  }

  /** Of two histories with the same average over as many blocks, the slower one gets the easier target. */
  lemma SlowerIsEasier(k: Rules, hs: seq<Header>, hs': seq<Header>, n: nat)
    requires hs != [] && hs[0].height >= 144 && hs[0].height % 12 == 0 && Scans(k, hs, n)
    requires hs' != [] && hs'[0].height >= 144 && hs'[0].height % 12 == 0 && Scans(k, hs', n)
    requires Average(hs, n) == Average(hs', n) >= 0 && 0 < k.blockTarget * n < U64
    requires 0 < Seconds(hs, n) <= Seconds(hs', n) < I63
    ensures Target(k, hs) <= Target(k, hs')
  {
    hide Target, Average, Scans;
    ScansWithin(k, hs, n);
    ScansWithin(k, hs', n);
    var n1, q := TargetExact(k, hs);
    var n2, q' := TargetExact(k, hs');
    ScansOnce(k, hs, n, n1);
    ScansOnce(k, hs', n, n2);
    QuotientsOrder(Average(hs, n), Seconds(hs, n), Seconds(hs', n), k.blockTarget * n, q, q');
  }

  lemma ScansWithin(k: Rules, hs: seq<Header>, n: nat)
    requires Scans(k, hs, n)
    ensures 0 < n <= |hs|
  {
  }

  lemma QuotientsOrder(a: nat, x: int, y: int, g: nat, q: int, q': int)
    requires x <= y && g > 0 && q * g <= a * x && a * y < (q' + 1) * g
    ensures q <= q'
  {
    MulOrder(x, y, a);
    if q > q' {
      MulOrder(q' + 1, q, g);
      assert false;
    }
  }
}
