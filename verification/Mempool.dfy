/** Unconfirmed transactions: who claims which output and which input. */
module Mempool {
  import opened Types
  import opened Maps
  import opened Ledger
  import opened Blocks

  const U32: nat := 0x1_0000_0000
  /** 3.9 MiB is 4089446.4 bytes. */
  const BLOCK_BYTES: nat := 4089446

  datatype Pool = Pool(txs: map<Id, Tx>, outputs: map<Id, Id>, inputs: map<Id, Id>, bytes: nat)

  const EmptyPool := Pool(map[], map[], map[], 0)

  function Labelled(ids: set<Id>, tx: Id): map<Id, Id> {
    map x | x in ids :: tx
  }

  function ClaimSet(h: Hashes, tx: Tx): set<Id> {
    ToSet(Claims(h, tx))
  }

  /** No pooled transaction has this id, claims one of its outputs or uses one of its inputs. */
  predicate Admits(h: Hashes, m: Pool, tx: Tx) {
    && TxId(h, tx) !in m.txs
    && (forall i :: 0 <= i < |tx.inputs| ==> h.input(tx.inputs[i]) !in m.inputs && tx.inputs[i].outputId !in m.outputs)
    && (forall i :: 0 <= i < |tx.outputs| ==> h.output(tx.outputs[i]) !in m.outputs)
  }

  function Inserted(h: Hashes, size: Tx -> nat, m: Pool, tx: Tx): Pool {
    var id := TxId(h, tx);
    Pool(m.txs[id := tx], m.outputs + Labelled(ClaimSet(h, tx), id), m.inputs + Labelled(Uses(h, tx), id),
         (m.bytes + size(tx)) % U32)
  }

  function Removed(h: Hashes, size: Tx -> nat, m: Pool, tx: Tx): Pool {
    if TxId(h, tx) !in m.txs then m else
      Pool(m.txs - {TxId(h, tx)}, m.outputs - ClaimSet(h, tx), m.inputs - Uses(h, tx), (m.bytes - size(tx)) % U32)
  }

  /** The size of everything pooled. */
  ghost function Sizes(size: Tx -> nat, txs: map<Id, Tx>): nat
    decreases txs.Keys
  {
    if txs == map[] then 0 else
      var id :| id in txs;
      size(txs[id]) + Sizes(size, txs - {id})
  }

  lemma {:induction false} SizesPick(size: Tx -> nat, txs: map<Id, Tx>, id: Id)
    requires id in txs
    ensures Sizes(size, txs) == size(txs[id]) + Sizes(size, txs - {id})
    decreases txs.Keys
  {
    var x :| x in txs && Sizes(size, txs) == size(txs[x]) + Sizes(size, txs - {x});
    if x != id {
      SizesPick(size, txs - {x}, id);
      SizesPick(size, txs - {id}, x);
      assert txs - {x} - {id} == txs - {id} - {x};
    }
  }

  /** `table` labels exactly the members of `sets`, each with the one set it belongs to. */
  ghost predicate Owns(sets: map<Id, set<Id>>, table: map<Id, Id>) {
    && (forall x :: x in table ==> table[x] in sets && x in sets[table[x]])
    && (forall id, x :: id in sets && x in sets[id] ==> x in table && table[x] == id)
  }

  lemma OwnsInsert(sets: map<Id, set<Id>>, table: map<Id, Id>, id: Id, s: set<Id>)
    requires Owns(sets, table) && id !in sets && s !! table.Keys
    ensures Owns(sets[id := s], table + Labelled(s, id))
  {
  }

  lemma OwnsApart(sets: map<Id, set<Id>>, table: map<Id, Id>, i: Id, j: Id, x: Id)
    requires Owns(sets, table) && i in sets && j in sets && i != j && x in sets[i]
    ensures x !in sets[j]
  {
    assert x in table && table[x] == i;
  }

  lemma OwnsRemove(sets: map<Id, set<Id>>, table: map<Id, Id>, id: Id)
    requires Owns(sets, table) && id in sets
    ensures Owns(sets - {id}, table - sets[id])
  {
    var rest := table - sets[id];
    forall i, x | i in sets && i != id && x in sets[i] ensures x in rest && rest[x] == i {
      OwnsApart(sets, table, i, id, x);
    }
  }

  function OutputSets(h: Hashes, txs: map<Id, Tx>): map<Id, set<Id>> {
    map id | id in txs :: ClaimSet(h, txs[id])
  }

  function InputSets(h: Hashes, txs: map<Id, Tx>): map<Id, set<Id>> {
    map id | id in txs :: Uses(h, txs[id])
  }

  /** The maps are exactly the claims of the pooled transactions, each claimed by one of them. */
  ghost predicate Claimed(h: Hashes, m: Pool) {
    && (forall id :: id in m.txs ==> TxId(h, m.txs[id]) == id && TxRep(h, m.txs[id], false))
    && Owns(OutputSets(h, m.txs), m.outputs)
    && Owns(InputSets(h, m.txs), m.inputs)
  }

  ghost predicate Valid(h: Hashes, size: Tx -> nat, m: Pool) {
    Claimed(h, m) && m.bytes == Sizes(size, m.txs) % U32
  }

  lemma AdmitsSets(h: Hashes, m: Pool, tx: Tx)
    ensures Admits(h, m, tx) <==>
              TxId(h, tx) !in m.txs && ClaimSet(h, tx) !! m.outputs.Keys && Uses(h, tx) !! m.inputs.Keys
  {
    hide TxId;
    ClaimSets(h, tx);
    assert forall i :: 0 <= i < |tx.inputs| ==> SpentIds(tx.inputs)[i] == tx.inputs[i].outputId;
    assert forall i :: 0 <= i < |tx.inputs| ==> InputIds(h, tx.inputs)[i] == h.input(tx.inputs[i]);
    assert forall i :: 0 <= i < |tx.outputs| ==> OutputIds(h, tx.outputs)[i] == h.output(tx.outputs[i]);
  }

  lemma InsertClaimed(h: Hashes, size: Tx -> nat, m: Pool, tx: Tx)
    requires Claimed(h, m) && Admits(h, m, tx) && TxRep(h, tx, false)
    ensures Claimed(h, Inserted(h, size, m, tx))
  {
    AdmitsSets(h, m, tx);
    hide TxId, TxRep, ClaimSet, Uses, Admits, Owns, Labelled;
    var id := TxId(h, tx);
    OwnsInsert(OutputSets(h, m.txs), m.outputs, id, ClaimSet(h, tx));
    OwnsInsert(InputSets(h, m.txs), m.inputs, id, Uses(h, tx));
    assert OutputSets(h, m.txs[id := tx]) == OutputSets(h, m.txs)[id := ClaimSet(h, tx)];
    assert InputSets(h, m.txs[id := tx]) == InputSets(h, m.txs)[id := Uses(h, tx)];
  }

  lemma RemoveClaimed(h: Hashes, size: Tx -> nat, m: Pool, tx: Tx)
    requires Claimed(h, m) && (TxId(h, tx) in m.txs ==> m.txs[TxId(h, tx)] == tx)
    ensures Claimed(h, Removed(h, size, m, tx))
  {
    hide TxId, TxRep, ClaimSet, Uses, Owns;
    var id := TxId(h, tx);
    if id in m.txs {
      OwnsRemove(OutputSets(h, m.txs), m.outputs, id);
      OwnsRemove(InputSets(h, m.txs), m.inputs, id);
      assert OutputSets(h, m.txs - {id}) == OutputSets(h, m.txs) - {id};
      assert InputSets(h, m.txs - {id}) == InputSets(h, m.txs) - {id};
    }
  }

  /** Insertion keeps the pool valid. */
  lemma InsertValid(h: Hashes, size: Tx -> nat, m: Pool, tx: Tx)
    requires Valid(h, size, m) && Admits(h, m, tx) && TxRep(h, tx, false)
    ensures Valid(h, size, Inserted(h, size, m, tx))
  {
    hide Claimed, TxRep, Admits, TxId;
    InsertClaimed(h, size, m, tx);
    var id := TxId(h, tx);
    assert id !in m.txs by { AdmitsSets(h, m, tx); }
    SizesPick(size, m.txs[id := tx], id);
    assert m.txs[id := tx] - {id} == m.txs;
  }

  lemma RemoveValid(h: Hashes, size: Tx -> nat, m: Pool, tx: Tx)
    requires Valid(h, size, m) && (TxId(h, tx) in m.txs ==> m.txs[TxId(h, tx)] == tx)
    ensures Valid(h, size, Removed(h, size, m, tx))
  {
    hide Claimed, TxId;
    RemoveClaimed(h, size, m, tx);
    if TxId(h, tx) in m.txs {
      SizesPick(size, m.txs, TxId(h, tx));
    }
  }

  /** Removing what was just inserted gives back the pool. */
  lemma RemoveInserted(h: Hashes, size: Tx -> nat, m: Pool, tx: Tx)
    requires Admits(h, m, tx) && m.bytes < U32
    ensures Removed(h, size, Inserted(h, size, m, tx), tx) == m
  {
    AdmitsSets(h, m, tx);
    hide TxId, ClaimSet, Uses, Admits;
    var id := TxId(h, tx);
    AddBack(m.outputs, Labelled(ClaimSet(h, tx), id));
    AddBack(m.inputs, Labelled(Uses(h, tx), id));
    assert Labelled(ClaimSet(h, tx), id).Keys == ClaimSet(h, tx) && Labelled(Uses(h, tx), id).Keys == Uses(h, tx);
    assert m.txs[id := tx] - {id} == m.txs;
    assert ((m.bytes + size(tx)) % U32 - size(tx)) % U32 == m.bytes;
  }

  // ---- selection ----

  function Picked(m: Pool, ids: seq<Id>): seq<Tx>
    requires forall i :: 0 <= i < |ids| ==> ids[i] in m.txs
  {
    seq(|ids|, i requires 0 <= i < |ids| => m.txs[ids[i]])
  }

  lemma OwnInputs(h: Hashes, tx: Tx)
    requires Sound(h) && TxRep(h, tx, false)
    ensures Distinct(Claims(h, tx)) && Distinct(InputIds(h, tx.inputs))
  {
    DistinctParts(SpentIds(tx.inputs), OutputIds(h, tx.outputs));
    forall i, j | 0 <= i < j < |tx.inputs| ensures InputIds(h, tx.inputs)[i] != InputIds(h, tx.inputs)[j] {
      assert SpentIds(tx.inputs)[i] != SpentIds(tx.inputs)[j];
    }
  }

  lemma DistinctJoin<T>(a: seq<T>, b: seq<T>)
    requires Distinct(a) && Distinct(b) && ToSet(a) !! ToSet(b)
    ensures Distinct(a + b)
  {
    forall i, j | 0 <= i < j < |a + b| ensures (a + b)[i] != (a + b)[j] {
      if i < |a| <= j {
        assert a[i] in ToSet(a) && b[j - |a|] in ToSet(b);
      }
    }
  }

  /** Any distinct pooled transactions together pass the duplicate tests of `block::checkRep`. */
  lemma {:induction false} PickedDistinct(h: Hashes, m: Pool, ids: seq<Id>)
    requires Sound(h) && Claimed(h, m) && Distinct(ids)
    requires forall i :: 0 <= i < |ids| ==> ids[i] in m.txs
    ensures Distinct(AllClaims(h, Picked(m, ids))) && Distinct(AllInputIds(h, Picked(m, ids)))
    ensures forall x :: x in AllClaims(h, Picked(m, ids)) ==> x in m.outputs && m.outputs[x] in ids
    ensures forall x :: x in AllInputIds(h, Picked(m, ids)) ==> x in m.inputs && m.inputs[x] in ids
  {
    if ids != [] {
      hide Claims, InputIds, Distinct, Claimed, Sound;
      var n := |ids| - 1;
      var last := m.txs[ids[n]];
      DistinctFront(ids);
      PickedDistinct(h, m, ids[..n]);
      PickedLast(h, m, ids);
      ClaimedBy(h, m, ids[n]);
      hide Picked, AllClaims, AllInputIds;
      DistinctJoin(AllClaims(h, Picked(m, ids[..n])), Claims(h, last));
      DistinctJoin(AllInputIds(h, Picked(m, ids[..n])), InputIds(h, last.inputs));
    }
  }

  lemma PickedLast(h: Hashes, m: Pool, ids: seq<Id>)
    requires ids != [] && forall i :: 0 <= i < |ids| ==> ids[i] in m.txs
    ensures var n := |ids| - 1;
            && AllClaims(h, Picked(m, ids)) == AllClaims(h, Picked(m, ids[..n])) + Claims(h, m.txs[ids[n]])
            && AllInputIds(h, Picked(m, ids)) == AllInputIds(h, Picked(m, ids[..n])) + InputIds(h, m.txs[ids[n]].inputs)
  {
    hide Claims, InputIds;
    var n := |ids| - 1;
    assert Picked(m, ids)[..n] == Picked(m, ids[..n]) && Picked(m, ids)[n] == m.txs[ids[n]];
  }

  lemma DistinctFront(ids: seq<Id>)
    requires ids != [] && Distinct(ids)
    ensures Distinct(ids[..|ids| - 1]) && ids[|ids| - 1] !in ids[..|ids| - 1]
  {
  }

  lemma ClaimedBy(h: Hashes, m: Pool, id: Id)
    requires Sound(h) && Claimed(h, m) && id in m.txs
    ensures Distinct(Claims(h, m.txs[id])) && Distinct(InputIds(h, m.txs[id].inputs))
    ensures forall x :: x in Claims(h, m.txs[id]) ==> x in m.outputs && m.outputs[x] == id
    ensures forall x :: x in InputIds(h, m.txs[id].inputs) ==> x in m.inputs && m.inputs[x] == id
  {
    hide TxId, TxRep, Claims, InputIds;
    OwnInputs(h, m.txs[id]);
    assert id in OutputSets(h, m.txs) && id in InputSets(h, m.txs);
    assert forall x :: x in Claims(h, m.txs[id]) ==> x in ClaimSet(h, m.txs[id]);
    assert forall x :: x in InputIds(h, m.txs[id].inputs) ==> x in Uses(h, m.txs[id]);
  }

  function SizeOf(size: Tx -> nat, txs: seq<Tx>): nat {
    if txs == [] then 0 else SizeOf(size, txs[..|txs| - 1]) + size(txs[|txs| - 1])
  }

  lemma OrderPooled(order: seq<Id>, txs: map<Id, Tx>)
    requires ToSet(order) == txs.Keys
    ensures forall i :: 0 <= i < |order| ==> order[i] in txs
  {
    assert forall i :: 0 <= i < |order| ==> order[i] in ToSet(order);
  }

  lemma ValidClaimed(h: Hashes, size: Tx -> nat, m: Pool)
    requires Valid(h, size, m)
    ensures Claimed(h, m)
  {
    hide Claimed;
  }

  lemma SizeNone(size: Tx -> nat)
    ensures SizeOf(size, []) == 0
  {
  }

  lemma SizeMore(size: Tx -> nat, txs: seq<Tx>, tx: Tx)
    ensures SizeOf(size, txs + [tx]) == SizeOf(size, txs) + size(tx)
  {
    assert (txs + [tx])[..|txs|] == txs;
  }

  lemma LabelStep(o: map<Id, Id>, ids: seq<Id>, i: nat, tx: Id)
    requires i < |ids|
    ensures (o + Labelled(ToSet(ids[..i]), tx))[ids[i] := tx] == o + Labelled(ToSet(ids[..i + 1]), tx)
    ensures (o - ToSet(ids[..i])) - {ids[i]} == o - ToSet(ids[..i + 1])
  {
    assert ids[..i + 1] == ids[..i] + [ids[i]];
    assert ToSet(ids[..i + 1]) == ToSet(ids[..i]) + {ids[i]};
  }

  lemma NoLabels(o: map<Id, Id>, ids: seq<Id>, tx: Id)
    ensures o + Labelled(ToSet(ids[..0]), tx) == o && o - ToSet(ids[..0]) == o
    ensures ids[..|ids|] == ids
  {
  }

  lemma ClaimAt(h: Hashes, tx: Tx, i: nat)
    requires i < |tx.inputs| + |tx.outputs|
    ensures |Claims(h, tx)| == |tx.inputs| + |tx.outputs|
    ensures Claims(h, tx)[i] == if i < |tx.inputs| then tx.inputs[i].outputId else h.output(tx.outputs[i - |tx.inputs|])
    ensures i < |tx.inputs| ==> InputIds(h, tx.inputs)[i] == h.input(tx.inputs[i])
  {
  }

  lemma PickedPasses(h: Hashes, m: Pool, order: seq<Id>, picked: seq<Tx>)
    requires Sound(h) && Claimed(h, m) && Distinct(order) && |picked| <= |order|
    requires forall i :: 0 <= i < |order| ==> order[i] in m.txs
    requires forall i :: 0 <= i < |picked| ==> picked[i] == m.txs[order[i]]
    ensures Distinct(TxIds(h, picked)) && Distinct(AllClaims(h, picked)) && Distinct(AllInputIds(h, picked))
  {
    hide AllClaims, AllInputIds, TxId, TxRep, ClaimSet, Uses;
    var ids := order[..|picked|];
    assert picked == Picked(m, ids);
    PickedDistinct(h, m, ids);
    forall j | 0 <= j < |picked| ensures TxIds(h, picked)[j] == order[j] {
      assert order[j] in m.txs;
    }
  }

  lemma ClaimCount(h: Hashes, tx: Tx)
    ensures Claims(h, tx)[..|tx.inputs| + |tx.outputs|] == Claims(h, tx)
    ensures InputIds(h, tx.inputs)[..|tx.inputs|] == InputIds(h, tx.inputs)
  {
  }

  /** What is left once the ids in `done` have been looked at. */
  function Kept(before: map<Id, Tx>, done: seq<Id>, verified: Tx -> bool): map<Id, Tx> {
    map id | id in before && (id in done ==> verified(before[id])) :: before[id]
  }

  lemma AllListed(order: seq<Id>, before: map<Id, Tx>)
    requires ToSet(order) == before.Keys
    ensures forall i :: 0 <= i < |order| ==> order[i] in before
    ensures forall id :: id in before ==> id in order
    ensures forall verified: Tx -> bool :: Kept(before, order[..0], verified) == before
  {
    assert forall id :: id in before ==> id in ToSet(order);
  }

  lemma RescanStep(before: map<Id, Tx>, order: seq<Id>, i: nat, verified: Tx -> bool)
    requires i < |order| && Distinct(order) && order[i] in before
    ensures order[i] in Kept(before, order[..i], verified) && Kept(before, order[..i], verified)[order[i]] == before[order[i]]
    ensures Kept(before, order[..i + 1], verified)
         == if verified(before[order[i]]) then Kept(before, order[..i], verified) else Kept(before, order[..i], verified) - {order[i]}
  {
    assert order[..i + 1] == order[..i] + [order[i]];
    assert order[i] !in order[..i];
  }

  lemma RescanDone(before: map<Id, Tx>, order: seq<Id>, verified: Tx -> bool)
    requires forall id :: id in before ==> id in order
    ensures Kept(before, order[..|order|], verified) == map id | id in before && verified(before[id]) :: before[id]
  {
    assert order[..|order|] == order;
  }

  lemma PoolIds(h: Hashes, size: Tx -> nat, m: Pool, id: Id)
    requires Valid(h, size, m) && id in m.txs
    ensures TxId(h, m.txs[id]) == id
  {
  }

  // ---- the pool in place ----

  class Transactions {
    const h: Hashes
    const size: Tx -> nat

    var txs: map<Id, Tx>
    var outputs: map<Id, Id>
    var inputs: map<Id, Id>
    var bytes: nat

    function View(): Pool
      reads this
    {
      Pool(txs, outputs, inputs, bytes)
    }

    constructor (h: Hashes, size: Tx -> nat)
      ensures this.h == h && this.size == size && View() == EmptyPool && Valid(h, size, View())
    {
      this.h, this.size := h, size;
      txs, outputs, inputs, bytes := map[], map[], map[], 0;
    }

    method Insert(tx: Tx) returns (ok: bool)
      requires Valid(h, size, View()) && TxRep(h, tx, false)
      modifies this
      ensures ok == Admits(h, old(View()), tx)
      ensures View() == if ok then Inserted(h, size, old(View()), tx) else old(View())
      ensures Valid(h, size, View())
    {
      hide TxId, Valid, TxRep;
      var id := TxId(h, tx);
      if id in txs { return false; }
      for i := 0 to |tx.inputs|
        invariant forall j :: 0 <= j < i ==> h.input(tx.inputs[j]) !in inputs && tx.inputs[j].outputId !in outputs
      {
        if h.input(tx.inputs[i]) in inputs || tx.inputs[i].outputId in outputs { return false; }
      }
      for i := 0 to |tx.outputs|
        invariant forall j :: 0 <= j < i ==> h.output(tx.outputs[j]) !in outputs
      {
        if h.output(tx.outputs[i]) in outputs { return false; }
      }
      InsertValid(h, size, View(), tx);
      txs := txs[id := tx];
      bytes := (bytes + size(tx)) % U32;
      ClaimAll(tx, id);
      ok := true;
    }

    /** Record the transaction's inputs, what they spend, and its outputs. */
    method ClaimAll(tx: Tx, id: Id)
      modifies this`outputs, this`inputs
      ensures outputs == old(outputs) + Labelled(ClaimSet(h, tx), id)
      ensures inputs == old(inputs) + Labelled(Uses(h, tx), id)
    {
      hide Claims, InputIds, Labelled, ToSet;
      ghost var o, n, claims, uses := outputs, inputs, Claims(h, tx), InputIds(h, tx.inputs);
      NoLabels(o, claims, id);
      NoLabels(n, uses, id);
      if |tx.inputs| + |tx.outputs| > 0 { ClaimAt(h, tx, 0); }
      for i := 0 to |tx.inputs|
        invariant i <= |claims| && outputs == o + Labelled(ToSet(claims[..i]), id)
        invariant inputs == n + Labelled(ToSet(uses[..i]), id)
      {
        ClaimAt(h, tx, i);
        LabelStep(o, claims, i, id);
        LabelStep(n, uses, i, id);
        inputs := inputs[h.input(tx.inputs[i]) := id];
        outputs := outputs[tx.inputs[i].outputId := id];
      }
      for i := 0 to |tx.outputs|
        invariant |tx.inputs| + i <= |claims| && outputs == o + Labelled(ToSet(claims[..|tx.inputs| + i]), id)
        invariant inputs == n + Labelled(ToSet(uses[..|tx.inputs|]), id)
      {
        ClaimAt(h, tx, |tx.inputs| + i);
        LabelStep(o, claims, |tx.inputs| + i, id);
        outputs := outputs[h.output(tx.outputs[i]) := id];
      }
      ClaimCount(h, tx);
    }

    /** Forget them again. */
    method ReleaseAll(tx: Tx)
      modifies this`outputs, this`inputs
      ensures outputs == old(outputs) - ClaimSet(h, tx)
      ensures inputs == old(inputs) - Uses(h, tx)
    {
      hide Claims, InputIds, Labelled, ToSet;
      ghost var o, n, claims, uses := outputs, inputs, Claims(h, tx), InputIds(h, tx.inputs);
      ghost var id := TxId(h, tx);
      NoLabels(o, claims, id);
      NoLabels(n, uses, id);
      if |tx.inputs| + |tx.outputs| > 0 { ClaimAt(h, tx, 0); }
      for i := 0 to |tx.inputs|
        invariant i <= |claims| && outputs == o - ToSet(claims[..i]) && inputs == n - ToSet(uses[..i])
      {
        ClaimAt(h, tx, i);
        LabelStep(o, claims, i, id);
        LabelStep(n, uses, i, id);
        inputs := inputs - {h.input(tx.inputs[i])};
        outputs := outputs - {tx.inputs[i].outputId};
      }
      for i := 0 to |tx.outputs|
        invariant |tx.inputs| + i <= |claims| && outputs == o - ToSet(claims[..|tx.inputs| + i])
        invariant inputs == n - ToSet(uses[..|tx.inputs|])
      {
        ClaimAt(h, tx, |tx.inputs| + i);
        LabelStep(o, claims, |tx.inputs| + i, id);
        outputs := outputs - {h.output(tx.outputs[i])};
      }
      ClaimCount(h, tx);
    }

    method Remove(tx: Tx)
      requires Valid(h, size, View()) && (TxId(h, tx) in txs ==> txs[TxId(h, tx)] == tx)
      modifies this
      ensures View() == Removed(h, size, old(View()), tx) && Valid(h, size, View())
    {
      hide TxId, Valid;
      RemoveValid(h, size, View(), tx);
      if TxId(h, tx) in txs {
        txs := txs - {TxId(h, tx)};
        bytes := (bytes - size(tx)) % U32;
        ReleaseAll(tx);
      }
    }

    /** Drop every transaction that no longer verifies; `order` lists the pool in map order. */
    method Rescan(order: seq<Id>, verified: Tx -> bool)
      requires Valid(h, size, View()) && Distinct(order) && ToSet(order) == txs.Keys
      modifies this
      ensures txs == map id | id in old(txs) && verified(old(txs)[id]) :: old(txs)[id]
      ensures Valid(h, size, View())
    {
      hide Valid, TxId, ToSet;
      ghost var before := txs;
      AllListed(order, before);
      for i := 0 to |order|
        invariant Valid(h, size, View())
        invariant txs == Kept(before, order[..i], verified)
      {
        RescanStep(before, order, i, verified);
        PoolIds(h, size, View(), order[i]);
        if !verified(txs[order[i]]) {
          Remove(txs[order[i]]);
        }
      }
      RescanDone(before, order, verified);
    }

    /** The longest run of transactions, in map order, that stays under 3.9 MiB. */
    method GetTransactions(order: seq<Id>) returns (picked: seq<Tx>)
      requires Sound(h) && Valid(h, size, View()) && Distinct(order) && ToSet(order) == txs.Keys
      ensures |picked| <= |order| && (forall i :: 0 <= i < |picked| ==> picked[i] == txs[order[i]])
      ensures SizeOf(size, picked) <= BLOCK_BYTES
      ensures |picked| < |order| ==> SizeOf(size, picked) + size(txs[order[|picked|]]) > BLOCK_BYTES
      ensures Distinct(TxIds(h, picked)) && Distinct(AllClaims(h, picked)) && Distinct(AllInputIds(h, picked))
    {
      hide Valid, Claimed, Distinct, TxIds, AllClaims, AllInputIds, Sizes, SizeOf, Sound, ToSet;
      OrderPooled(order, txs);
      ValidClaimed(h, size, View());
      SizeNone(size);
      picked := [];
      var total, i := 0, 0;
      while i < |order| && total + size(txs[order[i]]) <= BLOCK_BYTES
        invariant i == |picked| <= |order| && total == SizeOf(size, picked) <= BLOCK_BYTES
        invariant forall j :: 0 <= j < i ==> picked[j] == txs[order[j]]
      {
        var tx := txs[order[i]];
        SizeMore(size, picked, tx);
        picked, total, i := picked + [tx], total + size(tx), i + 1;
      }
      PickedPasses(h, View(), order, picked);
    }
  }
}
