/**
 * Committing a transaction (ramqp-broker/src/txn.rs): reserve capacity on every target queue, publish
 * into the reserved slots, then settle. Any number of commits run at once, interleaved with ordinary
 * traffic, against queue actors behind FIFO mailboxes.
 */
module TxnCommit {
  import opened Collections
  import opened Dispatch
  import opened TransientQueue

  datatype StagedPublish = StagedPublish(queue: nat, body: Bytes)

  datatype StagedSettle = StagedSettle(queue: nat, sub: nat, msgId: nat, outcome: Outcome)

  datatype Txn = Txn(publishes: seq<StagedPublish>, settles: seq<StagedSettle>)

  datatype Group = Group(queue: nat, count: nat)

  // ---------------------------------------------------------------- grouping by target queue

  function GroupIndex(gs: seq<Group>, queue: nat): (r: Option<nat>)
    ensures r.Some? ==> r.value < |gs| && gs[r.value].queue == queue
    ensures r.None? ==> forall i :: 0 <= i < |gs| ==> gs[i].queue != queue
  {
    if gs == [] then None
    else if gs[0].queue == queue then Some(0)
    else
      var r := GroupIndex(gs[1..], queue);
      if r.Some? then Some(r.value + 1) else
        assert forall i :: 0 < i < |gs| ==> gs[i] == gs[1..][i - 1];
        None
  }

  function AddToGroup(gs: seq<Group>, queue: nat): seq<Group> {
    match GroupIndex(gs, queue)
    case Some(i) => gs[i := gs[i].(count := gs[i].count + 1)]
    case None => gs + [Group(queue, 1)]
  }

  function GroupAll(ps: seq<StagedPublish>): seq<Group> {
    if ps == [] then [] else AddToGroup(GroupAll(ps[..|ps| - 1]), ps[|ps| - 1].queue)
  }

  /** How many of the publishes go to `queue`. */
  function Count(ps: seq<StagedPublish>, queue: nat): nat {
    if ps == [] then 0 else Count(ps[..|ps| - 1], queue) + (if ps[|ps| - 1].queue == queue then 1 else 0)
  }

  /** How many slots the groups ask of `queue`. */
  function Slots(gs: seq<Group>, queue: nat): nat {
    if gs == [] then 0 else
      Slots(gs[..|gs| - 1], queue) + (if gs[|gs| - 1].queue == queue then gs[|gs| - 1].count else 0)
  }

  lemma {:induction false} SlotsUpdate(gs: seq<Group>, i: nat, n: nat, queue: nat)
    requires i < |gs|
    ensures Slots(gs[i := gs[i].(count := n)], queue) + (if gs[i].queue == queue then gs[i].count else 0)
         == Slots(gs, queue) + (if gs[i].queue == queue then n else 0)
    decreases |gs|
  {
    var l := |gs| - 1;
    var hs := gs[i := gs[i].(count := n)];
    if i == l {
      assert hs[..l] == gs[..l];
    } else {
      assert hs[..l] == gs[..l][i := gs[i].(count := n)];
      SlotsUpdate(gs[..l], i, n, queue);
    }
  }

  /** The groups hold exactly as many slots for a queue as there are publishes to it. */
  lemma {:induction false} GroupSlots(ps: seq<StagedPublish>, queue: nat)
    ensures Slots(GroupAll(ps), queue) == Count(ps, queue)
    decreases |ps|
  {
    if ps != [] {
      var n := |ps| - 1;
      var gs := GroupAll(ps[..n]);
      GroupSlots(ps[..n], queue);
      var i := GroupIndex(gs, ps[n].queue);
      if i.Some? {
        SlotsUpdate(gs, i.value, gs[i.value].count + 1, queue);
      } else {
        assert (gs + [Group(ps[n].queue, 1)])[..|gs|] == gs;
      }
    }
  }

  /** One group per queue. */
  lemma {:induction false} GroupsDistinct(ps: seq<StagedPublish>)
    ensures forall i, j :: 0 <= i < j < |GroupAll(ps)| ==> GroupAll(ps)[i].queue != GroupAll(ps)[j].queue
    decreases |ps|
  {
    if ps != [] {
      GroupsDistinct(ps[..|ps| - 1]);
    }
  }

  lemma {:induction false} SlotsNamed(gs: seq<Group>, queue: nat)
    requires Slots(gs, queue) > 0
    ensures exists i :: 0 <= i < |gs| && gs[i].queue == queue
    decreases |gs|
  {
    var n := |gs| - 1;
    if gs[n].queue != queue {
      SlotsNamed(gs[..n], queue);
      var i :| 0 <= i < n && gs[..n][i].queue == queue;
      assert gs[i].queue == queue;
    }
  }

  lemma {:induction false} CountPositive(ps: seq<StagedPublish>, i: nat)
    requires i < |ps|
    ensures Count(ps, ps[i].queue) > 0
    decreases |ps|
  {
    if i < |ps| - 1 {
      CountPositive(ps[..|ps| - 1], i);
    }
  }

  lemma {:induction false} CountSplit(a: seq<StagedPublish>, b: seq<StagedPublish>, queue: nat)
    ensures Count(a + b, queue) == Count(a, queue) + Count(b, queue)
    decreases |b|
  {
    if b == [] {
      assert a + b == a;
    } else {
      var n := |b| - 1;
      assert (a + b)[..|a + b| - 1] == a + b[..n];
      CountSplit(a, b[..n], queue);
    }
  }

  lemma {:induction false} SlotsSplit(a: seq<Group>, b: seq<Group>, queue: nat)
    ensures Slots(a + b, queue) == Slots(a, queue) + Slots(b, queue)
    decreases |b|
  {
    if b == [] {
      assert a + b == a;
    } else {
      var n := |b| - 1;
      assert (a + b)[..|a + b| - 1] == a + b[..n];
      SlotsSplit(a, b[..n], queue);
    }
  }

  /** The grouping loop. */
  method GroupPublishes(ps: seq<StagedPublish>) returns (gs: seq<Group>)
    ensures gs == GroupAll(ps)
    ensures forall queue :: Slots(gs, queue) == Count(ps, queue)
  {
    gs := [];
    for n := 0 to |ps|
      invariant gs == GroupAll(ps[..n])
    {
      var i := 0;
      while i < |gs| && gs[i].queue != ps[n].queue
        invariant 0 <= i <= |gs|
        invariant forall k :: 0 <= k < i ==> gs[k].queue != ps[n].queue
      {
        i := i + 1;
      }
      FirstMatch(gs, ps[n].queue, i);
      if i < |gs| {
        gs := gs[i := gs[i].(count := gs[i].count + 1)];
      } else {
        gs := gs + [Group(ps[n].queue, 1)];
      }
      assert ps[..n + 1][..n] == ps[..n];
    }
    assert ps[..|ps|] == ps;
    forall queue ensures Slots(gs, queue) == Count(ps, queue) { GroupSlots(ps, queue); }
  }

  lemma {:induction false} FirstMatch(gs: seq<Group>, queue: nat, i: nat)
    requires i <= |gs| && (i < |gs| ==> gs[i].queue == queue)
    requires forall k :: 0 <= k < i ==> gs[k].queue != queue
    ensures GroupIndex(gs, queue) == if i < |gs| then Some(i) else None
    decreases |gs|
  {
    if gs != [] && i > 0 {
      FirstMatch(gs[1..], queue, i - 1);
    }
  }
}
