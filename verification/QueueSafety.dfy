/**
 * What every run of the transient queue keeps: each accepted message is in exactly one place,
 * the byte counter is exact, bodies are never altered, and first deliveries follow publish order.
 */
module QueueSafety {
  import opened Collections
  import opened Dispatch
  import opened TransientQueue

  function Size(m: Stored): nat { |m.body| }

  function HeldSize(h: Held): nat { |h.msg.body| }

  ghost function Ids(s: seq<Stored>): set<nat> {
    if s == [] then {} else {s[0].id} + Ids(s[1..])
  }

  ghost function SentIds(s: seq<Delivery>): set<nat> {
    if s == [] then {} else SentIds(s[..|s| - 1]) + {s[|s| - 1].msgId}
  }

  ghost function UpTo(n: nat): set<nat> {
    if n == 0 then {} else UpTo(n - 1) + {n}
  }

  /** No id twice. */
  ghost predicate Distinct(s: seq<Stored>) {
    s != [] ==> s[0].id !in Ids(s[1..]) && Distinct(s[1..])
  }

  /** Ready, dispatched and finished ids split 1..=nextMsgId; `ready` lists each of its ids once. */
  ghost predicate Partition(q: Queue) {
    && Distinct(q.ready)
    && (forall id :: id in q.unacked ==> q.unacked[id].msg.id == id)
    && Ids(q.ready) !! q.unacked.Keys !! q.finished.Keys
    && Ids(q.ready) + q.unacked.Keys + q.finished.Keys == UpTo(q.nextMsgId)
  }

  ghost predicate BytesExact(q: Queue) {
    q.bytes == SumSeq(q.ready, Size) + SumMap(q.unacked, HeldSize)
  }

  ghost predicate IsBodyOf(landed: seq<Bytes>, id: nat, body: Bytes) {
    1 <= id <= |landed| && body == landed[id - 1]
  }

  /** Whatever is held or was delivered under an id is the body published under that id. */
  ghost predicate Faithful(q: Queue) {
    && |q.landed| == q.nextMsgId
    && (forall i :: 0 <= i < |q.ready| ==> IsBodyOf(q.landed, q.ready[i].id, q.ready[i].body))
    && (forall id :: id in q.unacked ==> IsBodyOf(q.landed, id, q.unacked[id].msg.body))
    && (forall i :: 0 <= i < |q.sent| ==> IsBodyOf(q.landed, q.sent[i].msgId, q.sent[i].body))
  }

  /**
   * `ready` is a run of already dispatched messages followed by never-dispatched ones in
   * increasing id order, all of them younger than anything ever delivered.
   */
  ghost predicate FreshSuffix(ready: seq<Stored>, sent: set<nat>) {
    && (forall i, j :: 0 <= i < j < |ready| && ready[i].id !in sent ==>
          ready[i].id < ready[j].id && ready[j].id !in sent)
    && (forall i, id :: 0 <= i < |ready| && ready[i].id !in sent && id in sent ==> id < ready[i].id)
  }

  /** A message delivered for the first time is younger than everything delivered before it. */
  ghost predicate FirstDeliveriesInOrder(sent: seq<Delivery>) {
    forall i, j :: 0 <= i < j < |sent| && sent[j].msgId !in SentIds(sent[..j]) ==> sent[i].msgId < sent[j].msgId
  }

  ghost predicate Fifo(q: Queue) {
    && q.unacked.Keys <= SentIds(q.sent)
    && FreshSuffix(q.ready, SentIds(q.sent))
    && FirstDeliveriesInOrder(q.sent)
  }

  ghost predicate Core(q: Queue) {
    Partition(q) && BytesExact(q) && Faithful(q) && Fifo(q)
  }

  ghost function SubIds(subs: seq<Subscriber>): set<nat> {
    set s | s in subs :: s.id
  }

  /** Subscriber ids are distinct and already issued, and every dispatched message is held by one of them. */
  ghost predicate Owned(q: Queue) {
    && (forall i, j :: 0 <= i < j < |q.subs| ==> q.subs[i].id != q.subs[j].id)
    && (forall i :: 0 <= i < |q.subs| ==> 1 <= q.subs[i].id <= q.nextSubId)
    && (forall id :: id in q.unacked ==> q.unacked[id].owner in SubIds(q.subs))
  }

  // ---------------------------------------------------------------- single moves

  lemma {:induction false} IdsSplit(a: seq<Stored>, b: seq<Stored>)
    ensures Ids(a + b) == Ids(a) + Ids(b)
    ensures Distinct(a + b) <==> Distinct(a) && Distinct(b) && Ids(a) !! Ids(b)
  {
    if a == [] {
      assert a + b == b;
    } else {
      IdsSplit(a[1..], b);
      assert (a + b)[1..] == a[1..] + b;
    }
  }

  lemma {:induction false} UpToHas(n: nat, id: nat)
    ensures id in UpTo(n) <==> 1 <= id <= n
  {
    if n > 0 { UpToHas(n - 1, id); }
  }

  lemma {:induction false} SentIdsHas(s: seq<Delivery>, i: nat)
    requires i < |s|
    ensures s[i].msgId in SentIds(s)
    decreases |s|
  {
    if i < |s| - 1 { SentIdsHas(s[..|s| - 1], i); }
  }

  lemma {:induction false} SentIdsAreSent(s: seq<Delivery>, id: nat)
    requires id in SentIds(s)
    ensures exists i :: 0 <= i < |s| && s[i].msgId == id
    decreases |s|
  {
    if id == s[|s| - 1].msgId {
    } else {
      SentIdsAreSent(s[..|s| - 1], id);
      var i :| 0 <= i < |s| - 1 && s[..|s| - 1][i].msgId == id;
      assert s[i].msgId == id;
    }
  }

  lemma PopHeadCore(q: Queue, fate: Fate)
    requires Core(q) && q.ready != []
    ensures Core(PopHead(q, fate))
  {
    var r := PopHead(q, fate);
    assert r.finished.Keys == q.finished.Keys + {q.ready[0].id};
    assert Fifo(r);
    assert Faithful(r);
  }

  lemma AcceptPartition(q: Queue, body: Bytes, now: nat)
    requires Partition(q)
    ensures Partition(Accept(q, body, now))
  {
    var m := Stored(q.nextMsgId + 1, body, 0, now);
    IdsSplit(q.ready, [m]);
    UpToHas(q.nextMsgId, q.nextMsgId + 1);
    assert Ids([m]) == {m.id};
  }

  lemma AcceptFifo(q: Queue, body: Bytes, now: nat)
    requires Fifo(q) && Faithful(q)
    ensures Fifo(Accept(q, body, now))
  {
    forall id | id in SentIds(q.sent) ensures id <= q.nextMsgId {
      SentIdsAreSent(q.sent, id);
    }
  }

  lemma AcceptCore(q: Queue, body: Bytes, now: nat)
    requires Core(q)
    ensures Core(Accept(q, body, now))
  {
    hide Partition, Fifo;
    AcceptPartition(q, body, now);
    AcceptFifo(q, body, now);
    SumSeqConcat(q.ready, [Stored(q.nextMsgId + 1, body, 0, now)], Size);
  }

  lemma PushFrontPartition(q: Queue, id: nat, failures: nat)
    requires Partition(q) && id in q.unacked
    ensures Partition(PushFront(q, id, failures))
  {
    var r := PushFront(q, id, failures);
    assert r.ready[1..] == q.ready;
    assert r.unacked.Keys == q.unacked.Keys - {id};
  }

  lemma PushFrontFifo(q: Queue, id: nat, failures: nat)
    requires Fifo(q) && Faithful(q) && Partition(q) && id in q.unacked
    ensures Fifo(PushFront(q, id, failures)) && Faithful(PushFront(q, id, failures))
  {
    hide SentIds, Ids, UpTo, Distinct;
    var r := PushFront(q, id, failures);
    assert r.ready[1..] == q.ready;
  }

  lemma PushFrontCore(q: Queue, id: nat, failures: nat)
    requires Core(q) && id in q.unacked
    ensures Core(PushFront(q, id, failures))
  {
    hide Partition, Fifo, Faithful;
    PushFrontPartition(q, id, failures);
    PushFrontFifo(q, id, failures);
    assert PushFront(q, id, failures).ready[1..] == q.ready;
    SumMapRemove(q.unacked, id, HeldSize);
  }

  lemma FinishCore(q: Queue, id: nat, fate: Fate)
    requires Core(q) && id in q.unacked
    ensures Core(Finish(q, id, fate))
  {
    var r := Finish(q, id, fate);
    SumMapRemove(q.unacked, id, HeldSize);
    assert r.unacked.Keys == q.unacked.Keys - {id};
    assert r.finished.Keys == q.finished.Keys + {id};
  }

  lemma SendOrder(sent: seq<Delivery>, ready: seq<Stored>, d: Delivery)
    requires FirstDeliveriesInOrder(sent) && FreshSuffix(ready, SentIds(sent)) && ready != [] && d.msgId == ready[0].id
    ensures FirstDeliveriesInOrder(sent + [d])
  {
    var r := sent + [d];
    forall i, j | 0 <= i < j < |r| && r[j].msgId !in SentIds(r[..j]) ensures r[i].msgId < r[j].msgId {
      if j < |sent| {
        assert r[..j] == sent[..j];
      } else {
        assert r[..j] == sent;
        SentIdsHas(sent, i);
      }
    }
  }

  lemma SendFifo(q: Queue, idx: nat)
    requires Fifo(q) && q.ready != [] && idx < |q.subs| && q.subs[idx].demand > 0
    ensures Fifo(Send(q, idx))
  {
    hide FirstDeliveriesInOrder;
    var r := Send(q, idx);
    SendOrder(q.sent, q.ready, r.sent[|q.sent|]);
    assert r.sent[..|q.sent|] == q.sent;
  }

  lemma SendCore(q: Queue, idx: nat)
    requires Core(q) && q.ready != [] && idx < |q.subs| && q.subs[idx].demand > 0
    ensures Core(Send(q, idx))
  {
    hide Fifo, SentIds;
    var r, m := Send(q, idx), q.ready[0];
    SendFifo(q, idx);
    assert r.unacked.Keys == q.unacked.Keys + {m.id};
    SumMapInsert(q.unacked, m.id, Held(m, q.subs[idx].id), HeldSize);
    assert Faithful(r);
  }

  // ---------------------------------------------------------------- arms

  lemma {:induction false} MakeRoomCore(q: Queue, p: Policy, len: nat)
    requires Core(q)
    ensures var r := MakeRoom(q, p, len);
            Core(r) && r.unacked == q.unacked && r.subs == q.subs && r.nextSubId == q.nextSubId
    decreases |q.ready|
  {
    hide Core;
    if p.dropHead && Over(q, p, len) && q.ready != [] {
      PopHeadCore(q, Evicted);
      MakeRoomCore(PopHead(q, Evicted), p, len);
    }
  }

  /** `Core` does not look at the subscribers or the reserved slots. */
  lemma CoreFrame(q: Queue, r: Queue)
    requires Core(q)
    requires q.ready == r.ready && q.unacked == r.unacked && q.bytes == r.bytes && q.nextMsgId == r.nextMsgId
    requires q.landed == r.landed && q.finished == r.finished && q.sent == r.sent
    ensures Core(r)
  {
  }

  lemma {:induction false} RequeueAllCore(q: Queue, ids: seq<nat>)
    requires Core(q)
    ensures Core(RequeueAll(q, ids))
    decreases |ids|
  {
    hide Core;
    if ids != [] {
      var n := |ids| - 1;
      if ids[n] in q.unacked {
        var f := q.unacked[ids[n]].msg.failures;
        PushFrontCore(q, ids[n], f);
        RequeueAllCore(PushFront(q, ids[n], f), ids[..n]);
      } else {
        RequeueAllCore(q, ids[..n]);
      }
    }
  }

  lemma {:induction false} RequeueAllUnacked(q: Queue, ids: seq<nat>)
    ensures RequeueAll(q, ids).unacked == q.unacked - (set id | id in ids)
    decreases |ids|
  {
    if ids != [] {
      var n := |ids| - 1;
      var q1 := if ids[n] in q.unacked then PushFront(q, ids[n], q.unacked[ids[n]].msg.failures) else q;
      RequeueAllUnacked(q1, ids[..n]);
      assert ids == ids[..n] + [ids[n]];
      assert (set id | id in ids) == (set id | id in ids[..n]) + {ids[n]};
    } else {
      assert q.unacked - (set id | id in ids) == q.unacked;
    }
  }

  lemma DropSubEffect(q: Queue, sub: nat)
    ensures var r := DropSub(q, sub);
            r.subs == Without(q.subs, sub) && r.nextSubId == q.nextSubId &&
            r.unacked == q.unacked - OwnedBy(q.unacked, sub)
  {
    var owned := OwnedBy(q.unacked, sub);
    var q1 := q.(subs := Without(q.subs, sub));
    SortedIdsListsTheSet(owned);
    RequeueAllUnacked(q1, SortedIds(owned));
    RequeueAllKeepsSubs(q1, SortedIds(owned));
    assert (set id | id in SortedIds(owned)) == owned;
  }

  ghost function MessagesOf(unacked: map<nat, Held>, ids: seq<nat>): seq<Stored>
    requires forall id :: id in ids ==> id in unacked
  {
    if ids == [] then [] else
      MessagesOf(unacked, ids[..|ids| - 1]) + [unacked[ids[|ids| - 1]].msg]
  }

  lemma {:induction false} MessagesFrame(a: map<nat, Held>, b: map<nat, Held>, ids: seq<nat>)
    requires forall id :: id in ids ==> id in a && id in b && a[id] == b[id]
    ensures MessagesOf(a, ids) == MessagesOf(b, ids)
  {
    if ids != [] { MessagesFrame(a, b, ids[..|ids| - 1]); }
  }

  lemma {:induction false} RequeueAllReady(q: Queue, ids: seq<nat>)
    requires Ascending(ids) && forall id :: id in ids ==> id in q.unacked
    ensures RequeueAll(q, ids).ready == MessagesOf(q.unacked, ids) + q.ready
    decreases |ids|
  {
    if ids != [] {
      var n := |ids| - 1;
      var m := q.unacked[ids[n]].msg;
      var q1 := PushFront(q, ids[n], m.failures);
      assert q1.ready == [m] + q.ready;
      RequeueAllReady(q1, ids[..n]);
      MessagesFrame(q1.unacked, q.unacked, ids[..n]);
    }
  }

  /** A subscriber goes: what it held is back at the front, oldest first, and nobody else's is touched. */
  lemma DropSubReturns(q: Queue, sub: nat)
    ensures var r := DropSub(q, sub);
            var back := SortedIds(OwnedBy(q.unacked, sub));
            && Ascending(back) && (forall id :: id in back <==> Owns(q, sub, id))
            && r.ready == MessagesOf(q.unacked, back) + q.ready
            && r.unacked == q.unacked - OwnedBy(q.unacked, sub) && r.subs == Without(q.subs, sub)
  {
    hide Without;
    var owned := OwnedBy(q.unacked, sub);
    SortedIdsListsTheSet(owned);
    RequeueAllReady(q.(subs := Without(q.subs, sub)), SortedIds(owned));
    DropSubEffect(q, sub);
  }

  lemma DropSubCore(q: Queue, sub: nat)
    requires Core(q)
    ensures Core(DropSub(q, sub))
  {
    hide Core;
    var q1 := q.(subs := Without(q.subs, sub));
    CoreFrame(q, q1);
    RequeueAllCore(q1, SortedIds(OwnedBy(q.unacked, sub)));
  }

  lemma {:induction false} WithoutDistinct(subs: seq<Subscriber>, sub: nat)
    requires forall i, j :: 0 <= i < j < |subs| ==> subs[i].id != subs[j].id
    ensures forall i, j :: 0 <= i < j < |Without(subs, sub)| ==> Without(subs, sub)[i].id != Without(subs, sub)[j].id
  {
    if subs != [] {
      var t := Without(subs[1..], sub);
      WithoutDistinct(subs[1..], sub);
      forall j | 0 <= j < |t| ensures t[j].id != subs[0].id {
        assert t[j] in subs[1..];
      }
      ConsDistinct(subs[0], t);
    }
  }

  lemma ConsDistinct(s: Subscriber, t: seq<Subscriber>)
    requires forall i, j :: 0 <= i < j < |t| ==> t[i].id != t[j].id
    requires forall j :: 0 <= j < |t| ==> t[j].id != s.id
    ensures forall i, j :: 0 <= i < j < |[s] + t| ==> ([s] + t)[i].id != ([s] + t)[j].id
  {
  }

  lemma DropSubOwned(q: Queue, sub: nat)
    requires Owned(q)
    ensures Owned(DropSub(q, sub))
  {
    var r := DropSub(q, sub);
    DropSubEffect(q, sub);
    WithoutDistinct(q.subs, sub);
    forall i | 0 <= i < |r.subs| ensures 1 <= r.subs[i].id <= r.nextSubId {
      assert r.subs[i] in q.subs;
    }
    forall id | id in r.unacked ensures r.unacked[id].owner in SubIds(r.subs) {
      var s :| s in q.subs && s.id == q.unacked[id].owner;
      assert s in r.subs;
    }
  }

  /** Replacing one subscriber by another with the same id changes nobody's ownership. */
  lemma SameIdOwned(q: Queue, i: nat, s: Subscriber, rr: nat)
    requires Owned(q) && i < |q.subs| && s.id == q.subs[i].id
    ensures Owned(q.(subs := q.subs[i := s], rr := rr))
  {
    var r := q.(subs := q.subs[i := s], rr := rr);
    forall id | id in SubIds(q.subs) ensures id in SubIds(r.subs) {
      var t :| t in q.subs && t.id == id;
      var k :| 0 <= k < |q.subs| && q.subs[k] == t;
      assert r.subs[k] in r.subs && r.subs[k].id == id;
    }
  }

  lemma PublishKeeps(q: Queue, p: Policy, body: Bytes, fromReserved: bool, now: nat)
    requires Core(q) && Owned(q)
    ensures Core(PublishArm(q, p, body, fromReserved, now)) && Owned(PublishArm(q, p, body, fromReserved, now))
  {
    hide Core;
    var t := TakeSlot(q, fromReserved);
    CoreFrame(q, t);
    MakeRoomCore(t, p, |body|);
    AcceptCore(MakeRoom(t, p, |body|), body, now);
  }

  lemma SettleCore(q: Queue, p: Policy, sub: nat, id: nat, outcome: Outcome)
    requires Core(q)
    ensures Core(SettleArm(q, p, sub, id, outcome))
  {
    hide Core;
    if Owns(q, sub, id) {
      var f := q.unacked[id].msg.failures;
      match outcome
      case Ack => FinishCore(q, id, Acked);
      case Drop => FinishCore(q, id, Dropped);
      case Requeue => PushFrontCore(q, id, f);
      case RequeueFailed =>
        if AttemptsExhausted(p, f + 1) {
          FinishCore(q, id, Exhausted);
        } else {
          PushFrontCore(q, id, f + 1);
        }
    }
  }

  lemma SubscribeOwned(q: Queue, conn: nat, channel: nat, handle: nat, gen: nat)
    requires Owned(q)
    ensures Owned(SubscribeArm(q, conn, channel, handle, gen))
  {
    var r := SubscribeArm(q, conn, channel, handle, gen);
    forall id | id in SubIds(q.subs) ensures id in SubIds(r.subs) {
      var s :| s in q.subs && s.id == id;
      assert s in r.subs;
    }
  }

  lemma DemandCore(q: Queue, sub: nat, credit: nat, drain: bool)
    requires Core(q)
    ensures Core(DemandArm(q, sub, credit, drain))
  {
    hide Core;
    CoreFrame(q, DemandArm(q, sub, credit, drain));
  }

  lemma DemandOwned(q: Queue, sub: nat, credit: nat, drain: bool)
    requires Owned(q)
    ensures Owned(DemandArm(q, sub, credit, drain))
  {
    var i := IndexOf(q.subs, sub);
    if i.Some? {
      SameIdOwned(q, i.value, Grant(q.subs[i.value], credit, drain), q.rr);
    }
  }

  lemma SettleOwned(q: Queue, p: Policy, sub: nat, id: nat, outcome: Outcome)
    requires Owned(q)
    ensures Owned(SettleArm(q, p, sub, id, outcome))
  {
  }

  lemma ArmKeeps(q: Queue, p: Policy, msg: Message, now: nat)
    requires Core(q) && Owned(q)
    ensures Core(Arm(q, p, msg, now)) && Owned(Arm(q, p, msg, now))
  {
    hide Core, PublishArm, SettleArm, DropSub, DemandArm;
    match msg
    case Publish(body) => PublishKeeps(q, p, body, false, now);
    case PublishReserved(body) => PublishKeeps(q, p, body, true, now);
    case Reserve(count) => CoreFrame(q, ReserveArm(q, p, count));
    case Unreserve(count) => CoreFrame(q, q.(reserved := SatSub(q.reserved, count)));
    case Subscribe(conn, channel, handle, gen) =>
      CoreFrame(q, SubscribeArm(q, conn, channel, handle, gen));
      SubscribeOwned(q, conn, channel, handle, gen);
    case Demand(sub, credit, drain) =>
      DemandCore(q, sub, credit, drain);
      DemandOwned(q, sub, credit, drain);
    case Settle(sub, id, outcome) =>
      SettleCore(q, p, sub, id, outcome);
      SettleOwned(q, p, sub, id, outcome);
    case Unsubscribe(sub) =>
      DropSubCore(q, sub);
      DropSubOwned(q, sub);
    case Stats =>
  }

  // ---------------------------------------------------------------- dispatch

  lemma {:induction false} ExpireKeeps(q: Queue, p: Policy, now: nat)
    requires Core(q) && Owned(q)
    ensures Core(Expire(q, p, now)) && Owned(Expire(q, p, now))
    decreases |q.ready|
  {
    hide Core;
    if q.ready != [] && HasExpired(p, q.ready[0], now) {
      PopHeadCore(q, Expired);
      ExpireKeeps(ExpireOne(q, p, now), p, now);
    }
  }

  lemma DispatchOneKeeps(q: Queue, ok: bool)
    requires Core(q) && Owned(q) && CanDispatch(q)
    ensures Core(DispatchOne(q, ok)) && Owned(DispatchOne(q, ok))
  {
    hide Core;
    var idx := PickReady(q.subs, q.rr).value;
    var s := q.subs[idx];
    var q1 := q.(subs := q.subs[idx := s.(demand := s.demand - 1)], rr := After(idx, |q.subs|));
    SameIdOwned(q, idx, s.(demand := s.demand - 1), After(idx, |q.subs|));
    if ok {
      SendCore(q, idx);
      assert q1.subs[idx] in q1.subs;
    } else {
      CoreFrame(q, q1);
      DropSubCore(q1, s.id);
      DropSubOwned(q1, s.id);
    }
  }

  /** Between messages: nothing waits while someone wants work, and a drain holds no demand. */
  ghost predicate Quiet(q: Queue) {
    && (q.ready == [] || NoDemand(q.subs))
    && (forall i :: 0 <= i < |q.subs| && q.subs[i].drainPending ==> q.subs[i].demand == 0)
  }

  lemma DrainsKeep(q: Queue)
    requires Core(q) && Owned(q) && q.ready == []
    ensures var r := q.(subs := CompleteDrains(q.subs)); Core(r) && Owned(r) && Quiet(r)
  {
    hide Core;
    var r := q.(subs := CompleteDrains(q.subs));
    CoreFrame(q, r);
    forall id | id in SubIds(q.subs) ensures id in SubIds(r.subs) {
      var s :| s in q.subs && s.id == id;
      var k :| 0 <= k < |q.subs| && q.subs[k] == s;
      assert r.subs[k] in r.subs && r.subs[k].id == id;
    }
  }

  lemma {:induction false} DispatchLoopKeeps(q: Queue, ok: nat -> bool, n: nat)
    requires Core(q) && Owned(q)
    ensures var r := DispatchLoop(q, ok, n); Core(r) && Owned(r) && Quiet(r)
    decreases |q.subs|, |q.ready|
  {
    hide Core, Owned;
    if q.ready == [] {
      DrainsKeep(q);
    } else if PickReady(q.subs, q.rr).None? {
      PickReadyIsNearest(q.subs, q.rr);
    } else {
      DispatchOneShrinks(q, ok(n));
      DispatchOneKeeps(q, ok(n));
      DispatchLoopKeeps(DispatchOne(q, ok(n)), ok, n + 1);
    }
  }

  lemma {:induction false} RefusedKeepsQuiet(q: Queue, p: Policy, len: nat)
    requires Quiet(q)
    ensures Quiet(MakeRoom(q, p, len))
    decreases |q.ready|
  {
    if p.dropHead && Over(q, p, len) && q.ready != [] {
      RefusedKeepsQuiet(PopHead(q, Evicted), p, len);
    }
  }

  ghost predicate Healthy(q: Queue) {
    Core(q) && Owned(q) && Quiet(q)
  }

  lemma HandleKeeps(q: Queue, p: Policy, msg: Message, stamp: nat, now: nat, ok: nat -> bool)
    requires Healthy(q)
    ensures Healthy(Handle(q, p, msg, stamp, now, ok))
  {
    hide Core, Owned;
    var a := Arm(q, p, msg, stamp);
    ArmKeeps(q, p, msg, stamp);
    if SkipsDispatch(q, p, msg) {
      if msg.Publish? {
        RefusedKeepsQuiet(q, p, |msg.body|);
      }
    } else {
      ExpireKeeps(a, p, now);
      DispatchLoopKeeps(Expire(a, p, now), ok, 0);
    }
  }

  // ---------------------------------------------------------------- whole runs

  datatype Input = Input(msg: Message, stamp: nat, now: nat, ok: nat -> bool)

  ghost function Run(p: Policy, inputs: seq<Input>): Queue {
    if inputs == [] then EMPTY else
      var i := inputs[|inputs| - 1];
      Handle(Run(p, inputs[..|inputs| - 1]), p, i.msg, i.stamp, i.now, i.ok)
  }

  /** Every run, whatever the messages, clocks and failing connections, leaves the queue healthy. */
  lemma {:induction false} EveryRunIsHealthy(p: Policy, inputs: seq<Input>)
    ensures Healthy(Run(p, inputs))
  {
    if inputs != [] {
      var i := inputs[|inputs| - 1];
      EveryRunIsHealthy(p, inputs[..|inputs| - 1]);
      HandleKeeps(Run(p, inputs[..|inputs| - 1]), p, i.msg, i.stamp, i.now, i.ok);
    }
  }
}
