/** The per-connection transaction table (ramqp-broker/src/txn.rs:126-222). */
module TxnStaging {
  import opened Collections
  import opened Dispatch
  import opened TxnCommit

  const MAX_TXNS: nat := 64
  const MAX_STAGED: nat := 10_000
  const MAX_STAGED_BYTES: nat := 64 * 1024 * 1024

  datatype Open = Open(publishes: seq<StagedPublish>, settles: seq<StagedSettle>, rollbackOnly: bool)

  datatype PublishStage = Staged | UnknownTxn | Capped

  datatype SettleStage = SettleStaged | SettleRefused(settle: StagedSettle, knownTxn: bool)

  function BodySize(x: StagedPublish): nat { |x.body| }

  ghost function StagedBytes(t: Open): nat { SumSeq(t.publishes, BodySize) }

  /** A transaction replaced by one with the same key changes the total by the difference. */
  lemma SumMapReplace(m: map<nat, Open>, id: nat, t: Open)
    requires id in m
    ensures SumMap(m[id := t], StagedBytes) + StagedBytes(m[id]) == SumMap(m, StagedBytes) + StagedBytes(t)
  {
    SumMapRemove(m, id, StagedBytes);
    SumMapRemove(m[id := t], id, StagedBytes);
    assert m[id := t] - {id} == m - {id};
  }

  ghost predicate OpenOk(t: Open, poisoned: bool) {
    |t.publishes| + |t.settles| <= MAX_STAGED && (t.rollbackOnly <==> poisoned)
  }

  /** The byte budget is exact and respected, the caps hold, and a transaction is poisoned iff work was refused. */
  ghost predicate TableOk(txns: map<nat, Open>, stagedBytes: nat, nextId: nat, refused: set<nat>) {
    && |txns| <= MAX_TXNS
    && stagedBytes == SumMap(txns, StagedBytes) <= MAX_STAGED_BYTES
    && refused <= txns.Keys
    && forall id :: id in txns ==> 1 <= id <= nextId && OpenOk(txns[id], id in refused)
  }

  lemma SameBytes(t: Open, u: Open)
    requires t.publishes == u.publishes
    ensures StagedBytes(t) == StagedBytes(u)
  {
  }

  lemma Replaced(txns: map<nat, Open>, stagedBytes: nat, nextId: nat, refused: set<nat>, id: nat, t: Open, poison: bool)
    requires TableOk(txns, stagedBytes, nextId, refused) && id in txns
    requires OpenOk(t, poison || id in refused)
    requires stagedBytes + StagedBytes(t) <= MAX_STAGED_BYTES + StagedBytes(txns[id])
    ensures stagedBytes >= StagedBytes(txns[id])
    ensures TableOk(txns[id := t], stagedBytes + StagedBytes(t) - StagedBytes(txns[id]), nextId,
                    if poison then refused + {id} else refused)
  {
    hide SumMap, StagedBytes;
    SumMapReplace(txns, id, t);
    SumMapRemove(txns, id, StagedBytes);
    assert txns[id := t].Keys == txns.Keys;
  }

  lemma Removed(txns: map<nat, Open>, stagedBytes: nat, nextId: nat, refused: set<nat>, id: nat)
    requires TableOk(txns, stagedBytes, nextId, refused) && id in txns
    ensures stagedBytes >= StagedBytes(txns[id])
    ensures TableOk(txns - {id}, stagedBytes - StagedBytes(txns[id]), nextId, refused - {id})
  {
    hide SumMap, StagedBytes;
    SumMapRemove(txns, id, StagedBytes);
    assert |(txns - {id}).Keys| == |txns.Keys| - 1 by { assert (txns - {id}).Keys == txns.Keys - {id}; }
  }

  method TotalBytes(ps: seq<StagedPublish>) returns (bytes: nat)
    ensures bytes == SumSeq(ps, BodySize)
  {
    bytes := 0;
    for i := 0 to |ps|
      invariant bytes == SumSeq(ps[..i], BodySize)
    {
      assert ps[..i + 1] == ps[..i] + [ps[i]];
      SumSeqConcat(ps[..i], [ps[i]], BodySize);
      bytes := bytes + |ps[i].body|;
    }
    assert ps[..|ps|] == ps;
  }

  class TxnManager {
    var nextId: nat
    var txns: map<nat, Open>
    var stagedBytes: nat
    /** Open transactions some staging of which was refused. */
    ghost var refused: set<nat>

    ghost predicate Valid()
      reads this
    {
      TableOk(txns, stagedBytes, nextId, refused)
    }

    constructor ()
      ensures Valid() && txns == map[] && nextId == 0
    {
      nextId, txns, stagedBytes, refused := 0, map[], 0, {};
    }

    method Declare() returns (id: Option<nat>)
      requires Valid()
      modifies this
      ensures Valid()
      ensures id.None? <==> |old(txns)| >= MAX_TXNS
      ensures id.None? ==> txns == old(txns)
      ensures id.Some? ==> id.value !in old(txns) && txns == old(txns)[id.value := Open([], [], false)]
    {
      if |txns| >= MAX_TXNS { return None; }
      nextId := nextId + 1;
      SumMapInsert(txns, nextId, Open([], [], false), StagedBytes);
      txns := txns[nextId := Open([], [], false)];
      id := Some(nextId);
    }

    /** All or nothing per call; a limit refusal leaves the work as it was but poisons the transaction. */
    method StagePublish(id: nat, x: StagedPublish) returns (r: PublishStage)
      requires Valid()
      modifies this
      ensures Valid() && txns.Keys == old(txns).Keys
      ensures r.UnknownTxn? <==> id !in old(txns)
      ensures forall k :: k in txns && k != id ==> txns[k] == old(txns)[k]
      ensures id in txns ==> txns[id].settles == old(txns)[id].settles
      ensures r.Staged? ==> txns[id].publishes == old(txns)[id].publishes + [x] && refused == old(refused)
      ensures r.Capped? ==> txns[id].publishes == old(txns)[id].publishes && refused == old(refused) + {id}
      ensures r.Capped? ==> old(stagedBytes) + |x.body| > MAX_STAGED_BYTES ||
                            |txns[id].publishes| + |txns[id].settles| == MAX_STAGED
    {
      hide TableOk;
      if id !in txns { return UnknownTxn; }
      var t := txns[id];
      OpenAt(id);
      if stagedBytes + |x.body| <= MAX_STAGED_BYTES && |t.publishes| + |t.settles| < MAX_STAGED {
        SumSeqConcat(t.publishes, [x], BodySize);
        Replaced(txns, stagedBytes, nextId, refused, id, t.(publishes := t.publishes + [x]), false);
        stagedBytes := stagedBytes + |x.body|;
        txns := txns[id := t.(publishes := t.publishes + [x])];
        r := Staged;
      } else {
        Replaced(txns, stagedBytes, nextId, refused, id, t.(rollbackOnly := true), true);
        txns := txns[id := t.(rollbackOnly := true)];
        refused := refused + {id};
        r := Capped;
      }
    }

    lemma OpenAt(id: nat)
      requires Valid() && id in txns
      ensures OpenOk(txns[id], id in refused) && stagedBytes <= MAX_STAGED_BYTES
    {
    }

    /** A refused settle is handed back, so that the caller can requeue its message. */
    method StageSettle(id: nat, x: StagedSettle) returns (r: SettleStage)
      requires Valid()
      modifies this
      ensures Valid() && txns.Keys == old(txns).Keys && stagedBytes == old(stagedBytes)
      ensures r.SettleRefused? ==> r.settle == x && (r.knownTxn <==> id in txns)
      ensures forall k :: k in txns && k != id ==> txns[k] == old(txns)[k]
      ensures id in txns ==> txns[id].publishes == old(txns)[id].publishes
      ensures r.SettleStaged? ==>
                id in txns && txns[id].settles == old(txns)[id].settles + [x] && refused == old(refused)
      ensures r.SettleRefused? && id in txns ==>
                txns[id].settles == old(txns)[id].settles && refused == old(refused) + {id} &&
                |txns[id].publishes| + |txns[id].settles| == MAX_STAGED
    {
      hide TableOk, StagedBytes;
      if id !in txns { return SettleRefused(x, false); }
      var t := txns[id];
      OpenAt(id);
      if |t.publishes| + |t.settles| < MAX_STAGED {
        SameBytes(t, t.(settles := t.settles + [x]));
        Replaced(txns, stagedBytes, nextId, refused, id, t.(settles := t.settles + [x]), false);
        txns := txns[id := t.(settles := t.settles + [x])];
        r := SettleStaged;
      } else {
        SameBytes(t, t.(rollbackOnly := true));
        Replaced(txns, stagedBytes, nextId, refused, id, t.(rollbackOnly := true), true);
        txns := txns[id := t.(rollbackOnly := true)];
        refused := refused + {id};
        r := SettleRefused(x, true);
      }
    }

    /** Close a transaction: its work is handed over and its bytes leave the budget. */
    method Take(id: nat) returns (r: Option<Open>)
      requires Valid()
      modifies this
      ensures Valid() && txns == old(txns) - {id} && nextId == old(nextId)
      ensures r == if id in old(txns) then Some(old(txns)[id]) else None
      ensures r.Some? ==> stagedBytes + StagedBytes(r.value) == old(stagedBytes)
      ensures r.Some? ==> (r.value.rollbackOnly <==> id in old(refused))
    {
      hide TableOk;
      if id !in txns {
        assert txns - {id} == txns;
        return None;
      }
      var t := txns[id];
      OpenAt(id);
      Removed(txns, stagedBytes, nextId, refused, id);
      var bytes := TotalBytes(t.publishes);
      txns := txns - {id};
      stagedBytes := SatSub(stagedBytes, bytes);
      refused := refused - {id};
      r := Some(t);
    }

    method TakeAll() returns (r: map<nat, Open>)
      requires Valid()
      modifies this
      ensures Valid() && txns == map[] && stagedBytes == 0 && nextId == old(nextId) && r == old(txns)
    {
      r := txns;
      stagedBytes, txns, refused := 0, map[], {};
    }
  }
}
