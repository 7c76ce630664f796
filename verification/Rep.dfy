/** The counting loops by which constructors enforce the representation rules. */
module Rep {
  import opened Types

  /** Counting distinct elements against positions is the test for repetition. */
  lemma {:induction false} CountDistinct<T>(s: seq<T>)
    ensures |ToSet(s)| <= |s|
    ensures |ToSet(s)| == |s| <==> Distinct(s)
  {
    if s != [] {
      var n := |s| - 1;
      var r := s[..n];
      CountDistinct(r);
      assert s == r + [s[n]];
      assert ToSet(s) == ToSet(r) + {s[n]};
      if s[n] in r {
        assert ToSet(s) == ToSet(r);
        var i :| 0 <= i < n && r[i] == s[n];
        assert s[i] == s[n];
      } else {
        assert Distinct(s) <==> Distinct(r) by {
          assert forall i :: 0 <= i < n ==> s[i] == r[i] && s[i] != s[n];
        }
      }
    }
  }

  lemma {:induction false} PrefixTotal(outs: seq<Output>, i: nat)
    requires i <= |outs|
    ensures OutputTotal(outs[..i]) <= OutputTotal(outs)
  {
    if i == |outs| {
      assert outs[..i] == outs;
    } else {
      PrefixTotal(outs[..|outs| - 1], i);
      assert outs[..|outs| - 1][..i] == outs[..i];
    }
  }

  /** Add one transaction to the counters and to the sets of ids seen. */
  method CountTransaction(h: Hashes, tx: Tx, puts: nat, spends: nat, outputIds: set<Id>, inputIds: set<Id>)
    returns (puts': nat, spends': nat, outputIds': set<Id>, inputIds': set<Id>)
    ensures puts' == puts + |Claims(h, tx)| && spends' == spends + |tx.inputs|
    ensures outputIds' == outputIds + ToSet(Claims(h, tx))
    ensures inputIds' == inputIds + ToSet(InputIds(h, tx.inputs))
  {
    puts', spends', outputIds', inputIds' := puts, spends, outputIds, inputIds;
    for i := 0 to |tx.inputs|
      invariant puts' == puts + i && spends' == spends + i
      invariant outputIds' == outputIds + ToSet(SpentIds(tx.inputs)[..i])
      invariant inputIds' == inputIds + ToSet(InputIds(h, tx.inputs)[..i])
    {
      assert SpentIds(tx.inputs)[..i + 1] == SpentIds(tx.inputs)[..i] + [tx.inputs[i].outputId];
      assert InputIds(h, tx.inputs)[..i + 1] == InputIds(h, tx.inputs)[..i] + [h.input(tx.inputs[i])];
      puts', spends' := puts' + 1, spends' + 1;
      outputIds' := outputIds' + {tx.inputs[i].outputId};
      inputIds' := inputIds' + {h.input(tx.inputs[i])};
    }
    assert InputIds(h, tx.inputs)[..|tx.inputs|] == InputIds(h, tx.inputs);
    for i := 0 to |tx.outputs|
      invariant puts' == puts + |tx.inputs| + i
      invariant outputIds' == outputIds + ToSet(SpentIds(tx.inputs) + OutputIds(h, tx.outputs)[..i])
    {
      assert OutputIds(h, tx.outputs)[..i + 1] == OutputIds(h, tx.outputs)[..i] + [h.output(tx.outputs[i])];
      puts', outputIds' := puts' + 1, outputIds' + {h.output(tx.outputs[i])};
    }
    assert SpentIds(tx.inputs) + OutputIds(h, tx.outputs)[..|tx.outputs|] == Claims(h, tx);
  }

  /** The wrap test on the running total catches every overflow. */
  method TotalFits(outs: seq<Output>) returns (ok: bool)
    requires forall i :: 0 <= i < |outs| ==> GoodValue(outs[i])
    ensures ok <==> OutputTotal(outs) < U64
  {
    var curTotal, prevTotal := 0, 0;
    for i := 0 to |outs|
      invariant curTotal == prevTotal == OutputTotal(outs[..i]) < U64
    {
      PrefixTotal(outs, i + 1);
      assert outs[..i + 1][..i] == outs[..i];
      curTotal := (curTotal + outs[i].value) % U64;
      if curTotal < prevTotal { return false; }
      prevTotal := curTotal;
    }
    assert outs[..|outs|] == outs;
    ok := true;
  }

  /** `transaction::checkRep`, sizes aside. */
  method CheckTransaction(h: Hashes, tx: Tx, coinbase: bool) returns (ok: bool)
    requires forall i :: 0 <= i < |tx.outputs| ==> GoodValue(tx.outputs[i])
    ensures ok <==> TxRep(h, tx, coinbase)
  {
    hide OutputTotal, ToSet, Distinct;
    if |tx.outputs| < 1 || (coinbase && |tx.inputs| > 0) || (!coinbase && |tx.inputs| < 1) { return false; }
    var fits := TotalFits(tx.outputs);
    if !fits { return false; }
    var _, _, ids, _ := CountTransaction(h, tx, 0, 0, {}, {});
    CountDistinct(Claims(h, tx));
    return |ids| == |tx.outputs| + |tx.inputs|;
  }

  lemma SetOfBoth<T>(a: seq<T>, b: seq<T>)
    ensures ToSet(a + b) == ToSet(a) + ToSet(b)
  {
  }

  /** The conflict tests of `block::checkRep`: exactly no output claimed twice, with and without the
      coinbase, and no input twice. */
  method CheckBlockConflicts(h: Hashes, b: Block) returns (ok: bool)
    ensures ok <==> Distinct(AllClaims(h, b.txs) + OutputIds(h, b.coinbase.outputs)) && Distinct(AllInputIds(h, b.txs))
  {
    hide Claims, OutputIds, InputIds;
    var puts, spends, outputIds, inputIds := 0, 0, {}, {};
    for i := 0 to |b.txs|
      invariant puts == |AllClaims(h, b.txs[..i])| && spends == |AllInputIds(h, b.txs[..i])|
      invariant outputIds == ToSet(AllClaims(h, b.txs[..i])) && inputIds == ToSet(AllInputIds(h, b.txs[..i]))
    {
      puts, spends, outputIds, inputIds := CountTransaction(h, b.txs[i], puts, spends, outputIds, inputIds);
      assert b.txs[..i + 1][..i] == b.txs[..i];
      SetOfBoth(AllClaims(h, b.txs[..i]), Claims(h, b.txs[i]));
      SetOfBoth(AllInputIds(h, b.txs[..i]), InputIds(h, b.txs[i].inputs));
    }
    assert b.txs[..|b.txs|] == b.txs;
    var claims := AllClaims(h, b.txs);
    CountDistinct(claims);
    CountDistinct(AllInputIds(h, b.txs));
    var coinbase := OutputIds(h, b.coinbase.outputs);
    if puts != |outputIds| {
      NotDistinct(claims, coinbase);
      return false;
    }
    for i := 0 to |coinbase|
      invariant puts == |claims| + i && outputIds == ToSet(claims + coinbase[..i])
    {
      assert claims + coinbase[..i + 1] == claims + coinbase[..i] + [coinbase[i]];
      SetOfBoth(claims + coinbase[..i], [coinbase[i]]);
      puts, outputIds := puts + 1, outputIds + {coinbase[i]};
    }
    assert coinbase[..|coinbase|] == coinbase;
    CountDistinct(claims + coinbase);
    return puts == |outputIds| && spends == |inputIds|;
  }

  lemma NotDistinct<T>(a: seq<T>, b: seq<T>)
    requires !Distinct(a)
    ensures !Distinct(a + b)
  {
    var i, j :| 0 <= i < j < |a| && a[i] == a[j];
    assert (a + b)[i] == (a + b)[j];
  }
}
