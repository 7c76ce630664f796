/** Queries by public key, from the stored index rows to the outputs of the main chain. */
module Queries {
  import opened Types
  import opened Ledger
  import opened Blocks
  import opened Index
  import opened Submission
  import opened Chain
  import opened Runs
  import Storage

  /** The rows of index 0 of `table` are exactly the strings in `index`. */
  ghost predicate Stores(rows: seq<string>, table: string, index: set<string>) {
    forall s :: Storage.GetKey(table, 0, s) in rows <==> s in index
  }

  /** Scan index 0 of a table for a public key and read each id back from what follows the key. */
  method IdsOf(rows: seq<string>, table: string, key: string, ghost index: set<string>) returns (ids: seq<Id>)
    requires Storage.Sorted(rows) && Stores(rows, table, index)
    ensures ToSet(ids) == ScanPrefix(index, key)
  {
    var prefix := Storage.GetKey(table, 0, "") + key;
    var found := Storage.Scan(rows, prefix);
    ids := [];
    for i := 0 to |found|
      invariant |ids| == i && forall j :: 0 <= j < i ==> ids[j] == Id(found[j])
    {
      ids := ids + [Id(found[i])];
    }
    forall s | s in found ensures key + s in index {
      assert prefix + s == Storage.GetKey(table, 0, key + s);
    }
    forall id | id in ids ensures id in ScanPrefix(index, key) {
      var j :| 0 <= j < |ids| && ids[j] == id;
      assert (key + found[j])[|key|..] == found[j];
    }
    forall id | id in ScanPrefix(index, key) ensures id in ids {
      var s :| s in index && key <= s && Id(s[|key|..]) == id;
      var rest := s[|key|..];
      assert key + rest == s;
      assert prefix + rest == Storage.GetKey(table, 0, s);
      assert rest in found;
      var j :| 0 <= j < |found| && found[j] == rest;
      assert ids[j] == id;
    }
  }

  /** The rows of a table that pay a key. */
  function Paying(m: map<Id, DbOutput>, key: string): map<Id, Output> {
    map id | id in m && m[id].output.key == Some(key) :: m[id].output
  }

  /** Read each output; false stands for a missing one. */
  method Outputs(c: Core, ids: seq<Id>) returns (ok: bool, result: map<Id, Output>)
    ensures ok == forall id :: id in ids ==> FindOutput(c, id).Some?
    ensures ok ==> result == map id | id in ids :: FindOutput(c, id).value
  {
    hide FindOutput;
    result := map[];
    for i := 0 to |ids|
      invariant forall id :: id in ids[..i] ==> FindOutput(c, id).Some?
      invariant result == map id | id in ids[..i] :: FindOutput(c, id).value
    {
      var found := FindOutput(c, ids[i]);
      if found.None? { return false, result; }
      result := result[ids[i] := found.value];
      assert ids[..i + 1] == ids[..i] + [ids[i]];
    }
    assert ids[..|ids|] == ids;
    ok := true;
  }

  /** `getUnspentOutputs`: in every reachable state, the unspent outputs of the main chain that pay
      the key, and no others. */
  method UnspentOutputs(p: Params, t: State, rows: seq<string>, key: string, ghost chain: seq<Block>)
    returns (ok: bool, result: map<Id, Output>)
    requires Sound(p.h) && Inv(p, t, chain) && p.keyLength == Some(|key|)
    requires Storage.Sorted(rows) && Stores(rows, "utxos", t.keys.utxo)
    ensures ok && result == Paying(t.core.utxos, key)
  {
    hide Inv, Stores, FindOutput;
    var ids := IdsOf(rows, "utxos", key, t.keys.utxo);
    IndexRead(p, t, chain, key);
    assert forall id :: id in ids <==> id in ToSet(ids);
    assert forall id :: id in ids <==> id in Paying(t.core.utxos, key);
    ok, result := Outputs(t.core, ids);
  }

  /** `getSpentOutputs`, likewise for the outputs the main chain has spent. */
  method SpentOutputs(p: Params, t: State, rows: seq<string>, key: string, ghost chain: seq<Block>)
    returns (ok: bool, result: map<Id, Output>)
    requires Sound(p.h) && Inv(p, t, chain) && p.keyLength == Some(|key|)
    requires Storage.Sorted(rows) && Stores(rows, "stxos", t.keys.stxo)
    ensures ok && result == Paying(t.core.stxos, key)
  {
    hide Inv, Stores, FindOutput;
    var ids := IdsOf(rows, "stxos", key, t.keys.stxo);
    IndexRead(p, t, chain, key);
    assert forall id :: id in ids <==> id in ToSet(ids);
    assert forall id :: id in ids <==> id in Paying(t.core.stxos, key);
    ok, result := Outputs(t.core, ids);
  }

  lemma IndexRead(p: Params, t: State, chain: seq<Block>, key: string)
    requires Sound(p.h) && Inv(p, t, chain) && p.keyLength == Some(|key|)
    ensures ScanPrefix(t.keys.utxo, key) == Paying(t.core.utxos, key).Keys
    ensures ScanPrefix(t.keys.stxo, key) == Paying(t.core.stxos, key).Keys
    ensures forall id :: id in t.core.utxos ==> FindOutput(t.core, id) == Some(t.core.utxos[id].output)
    ensures forall id :: id in t.core.stxos ==> FindOutput(t.core, id) == Some(t.core.stxos[id].output)
  {
    hide ScanPrefix, KeyStrings, Valid, Replay, Known, Side, Best, Tables;
    BaseTables(p, t, chain);
    ScanIsFilter(|key|, t.core.utxos, key);
    ScanIsFilter(|key|, t.core.stxos, key);
  }
}
