/** What each turn of the transient queue does to one subscriber's record and to who holds which message. */
module Subscriptions {
  import opened Collections
  import opened Dispatch
  import opened TransientQueue
  import opened QueueSafety
  import opened QueueRuns

  /** The record of subscriber `sub`, while it is subscribed. */
  function Rec(subs: seq<Subscriber>, sub: nat): (r: Option<Subscriber>)
    ensures r.Some? ==> r.value in subs && r.value.id == sub
    ensures r.None? ==> forall s :: s in subs ==> s.id != sub
  {
    var i := IndexOf(subs, sub);
    if i.Some? then Some(subs[i.value]) else None
  }

  ghost predicate DistinctIds(subs: seq<Subscriber>) {
    forall i, j :: 0 <= i < j < |subs| ==> subs[i].id != subs[j].id
  }

  lemma RecAt(subs: seq<Subscriber>, i: nat)
    requires DistinctIds(subs) && i < |subs|
    ensures Rec(subs, subs[i].id) == Some(subs[i])
  {
    assert subs[i] in subs;
  }

  lemma RecIn(subs: seq<Subscriber>, s: Subscriber)
    requires DistinctIds(subs) && s in subs
    ensures Rec(subs, s.id) == Some(s)
  {
    var i :| 0 <= i < |subs| && subs[i] == s;
    RecAt(subs, i);
  }

  lemma RecUpdate(subs: seq<Subscriber>, i: nat, s: Subscriber, sub: nat)
    requires DistinctIds(subs) && i < |subs| && s.id == subs[i].id
    ensures DistinctIds(subs[i := s])
    ensures Rec(subs[i := s], sub) == if sub == s.id then Some(s) else Rec(subs, sub)
  {
    var t := subs[i := s];
    assert DistinctIds(t);
    if sub == s.id {
      RecAt(t, i);
    } else {
      var r := Rec(subs, sub);
      if r.Some? {
        var k :| 0 <= k < |subs| && subs[k] == r.value;
        assert t[k] == r.value;
        RecAt(t, k);
      } else {
        assert forall k :: 0 <= k < |t| ==> t[k].id == subs[k].id;
      }
    }
  }

  lemma RecAppend(subs: seq<Subscriber>, s: Subscriber, sub: nat)
    requires DistinctIds(subs + [s])
    ensures Rec(subs + [s], sub) == if sub == s.id then Some(s) else Rec(subs, sub)
  {
    var t := subs + [s];
    if sub == s.id {
      RecAt(t, |subs|);
    } else {
      assert DistinctIds(subs) by {
        assert forall i :: 0 <= i < |subs| ==> t[i] == subs[i];
      }
      var r := Rec(subs, sub);
      if r.Some? {
        RecIn(t, r.value);
      }
    }
  }

  lemma RecWithout(subs: seq<Subscriber>, gone: nat, sub: nat)
    requires DistinctIds(subs)
    ensures Rec(Without(subs, gone), sub) == if sub == gone then None else Rec(subs, sub)
  {
    WithoutDistinct(subs, gone);
    var t := Without(subs, gone);
    assert DistinctIds(t);
    if sub != gone {
      var r := Rec(subs, sub);
      if r.Some? {
        assert r.value in t;
        RecIn(t, r.value);
      }
    }
  }

  lemma RecDrained(subs: seq<Subscriber>, sub: nat)
    requires DistinctIds(subs)
    ensures var r := Rec(subs, sub);
            Rec(CompleteDrains(subs), sub) == if r.Some? then Some(Drained(r.value)) else None
  {
    var t := CompleteDrains(subs);
    assert DistinctIds(t);
    var r := Rec(subs, sub);
    if r.Some? {
      var k :| 0 <= k < |subs| && subs[k] == r.value;
      assert t[k] == Drained(r.value);
      RecAt(t, k);
    }
  }

  // ---------------------------------------------------------------- one turn

  /** The subscriber the next send goes to. */
  function Target(q: Queue): Subscriber
    requires CanDispatch(q)
  {
    q.subs[PickReady(q.subs, q.rr).value]
  }

  lemma SendRec(q: Queue, sub: nat)
    requires CanDispatch(q) && Owned(q)
    ensures var r := DispatchOne(q, true);
            var s := Target(q);
            && Rec(q.subs, s.id) == Some(s) && s.demand > 0
            && Rec(r.subs, sub) == (if sub == s.id then Some(s.(demand := s.demand - 1)) else Rec(q.subs, sub))
            && r.unacked == q.unacked[q.ready[0].id := Held(q.ready[0], s.id)]
            && r.nextSubId == q.nextSubId
  {
    var idx := PickReady(q.subs, q.rr).value;
    RecAt(q.subs, idx);
    RecUpdate(q.subs, idx, q.subs[idx].(demand := q.subs[idx].demand - 1), sub);
  }

  lemma FailedSendRec(q: Queue, sub: nat)
    requires CanDispatch(q) && Owned(q)
    ensures var r := DispatchOne(q, false);
            var s := Target(q);
            && Rec(q.subs, s.id) == Some(s)
            && Rec(r.subs, sub) == (if sub == s.id then None else Rec(q.subs, sub))
            && r.unacked == q.unacked - OwnedBy(q.unacked, s.id)
            && r.nextSubId == q.nextSubId
  {
    var idx := PickReady(q.subs, q.rr).value;
    var s := q.subs[idx];
    var q1 := q.(subs := q.subs[idx := s.(demand := s.demand - 1)], rr := After(idx, |q.subs|));
    RecAt(q.subs, idx);
    RecUpdate(q.subs, idx, s.(demand := s.demand - 1), sub);
    DropSubEffect(q1, s.id);
    RecWithout(q1.subs, s.id, sub);
  }

  lemma DemandRec(q: Queue, x: nat, credit: nat, drain: bool, sub: nat)
    requires Owned(q)
    ensures var r := DemandArm(q, x, credit, drain);
            && r.unacked == q.unacked && r.nextSubId == q.nextSubId
            && Rec(r.subs, sub) ==
               (if sub == x && Rec(q.subs, x).Some? then Some(Grant(Rec(q.subs, x).value, credit, drain))
                else Rec(q.subs, sub))
  {
    var i := IndexOf(q.subs, x);
    if i.Some? {
      RecUpdate(q.subs, i.value, Grant(q.subs[i.value], credit, drain), sub);
    }
  }

  lemma UnsubscribeRec(q: Queue, x: nat, sub: nat)
    requires Owned(q)
    ensures var r := DropSub(q, x);
            && Rec(r.subs, sub) == (if sub == x then None else Rec(q.subs, sub))
            && r.unacked == q.unacked - OwnedBy(q.unacked, x)
            && r.nextSubId == q.nextSubId
  {
    DropSubEffect(q, x);
    RecWithout(q.subs, x, sub);
  }

  lemma SubscribeRec(q: Queue, conn: nat, channel: nat, handle: nat, gen: nat, sub: nat)
    requires Owned(q)
    ensures var r := SubscribeArm(q, conn, channel, handle, gen);
            && r.unacked == q.unacked && r.nextSubId == q.nextSubId + 1
            && Rec(r.subs, sub) ==
               (if sub == q.nextSubId + 1 then Some(Subscriber(sub, conn, channel, handle, gen, 0, false))
                else Rec(q.subs, sub))
  {
    var s := Subscriber(q.nextSubId + 1, conn, channel, handle, gen, 0, false);
    assert DistinctIds(q.subs + [s]);
    RecAppend(q.subs, s, sub);
  }

  /** The turns that leave every subscriber's demand alone, apart from completing drains. */
  predicate Mild(q: Queue, t: Turn) {
    match t
    case ArmTurn(msg, _) => !msg.Subscribe? && !msg.Demand? && !msg.Unsubscribe? && !msg.Settle?
    case ExpireTurn(_) => true
    case SendTurn(_) => !CanDispatch(q)
    case DrainTurn => true
  }

  lemma {:induction false} MakeRoomUnacked(q: Queue, p: Policy, len: nat)
    ensures MakeRoom(q, p, len).unacked == q.unacked
    decreases |q.ready|
  {
    if p.dropHead && Over(q, p, len) && q.ready != [] {
      MakeRoomUnacked(PopHead(q, Evicted), p, len);
    }
  }

  lemma MildRec(q: Queue, p: Policy, t: Turn, sub: nat)
    requires Owned(q) && Mild(q, t)
    ensures var r := Take(q, p, t);
            && r.unacked == q.unacked && r.nextSubId == q.nextSubId
            && (Rec(r.subs, sub) == Rec(q.subs, sub) ||
                (Rec(q.subs, sub).Some? && Rec(r.subs, sub) == Some(Drained(Rec(q.subs, sub).value))))
  {
    match t
    case ArmTurn(msg, stamp) =>
      match msg {
        case Publish(body) =>
          MakeRoomKeepsSubs(q, p, |body|);
          MakeRoomUnacked(q, p, |body|);
        case PublishReserved(body) =>
          MakeRoomKeepsSubs(TakeSlot(q, true), p, |body|);
          MakeRoomUnacked(TakeSlot(q, true), p, |body|);
        case _ =>
      }
    case ExpireTurn(_) =>
    case SendTurn(_) =>
    case DrainTurn => if q.ready == [] { RecDrained(q.subs, sub); }
  }

  /** The record of `sub` after an arm. */
  function RecAfter(q: Queue, msg: Message, sub: nat): Option<Subscriber> {
    var b := Rec(q.subs, sub);
    match msg
    case Subscribe(conn, channel, handle, gen) =>
      if sub == q.nextSubId + 1 then Some(Subscriber(sub, conn, channel, handle, gen, 0, false)) else b
    case Demand(x, credit, drain) => if sub == x && b.Some? then Some(Grant(b.value, credit, drain)) else b
    case Unsubscribe(x) => if sub == x then None else b
    case _ => b
  }

  lemma MildArmRec(q: Queue, p: Policy, msg: Message, stamp: nat, sub: nat)
    requires !msg.Subscribe? && !msg.Demand? && !msg.Unsubscribe? && !msg.Settle?
    ensures var r := Arm(q, p, msg, stamp);
            r.unacked == q.unacked && r.nextSubId == q.nextSubId && Rec(r.subs, sub) == Rec(q.subs, sub)
  {
    match msg
    case Publish(body) =>
      MakeRoomKeepsSubs(q, p, |body|);
      MakeRoomUnacked(q, p, |body|);
    case PublishReserved(body) =>
      MakeRoomKeepsSubs(TakeSlot(q, true), p, |body|);
      MakeRoomUnacked(TakeSlot(q, true), p, |body|);
    case _ =>
  }

  lemma SettleRec(q: Queue, p: Policy, x: nat, id: nat, outcome: Outcome)
    ensures var r := SettleArm(q, p, x, id, outcome);
            && r.subs == q.subs && r.nextSubId == q.nextSubId
            && r.unacked == if Owns(q, x, id) then q.unacked - {id} else q.unacked
  {
  }

  /** An arm's effect on one subscription and on the dispatched messages. */
  lemma ArmRec(q: Queue, p: Policy, msg: Message, stamp: nat, sub: nat)
    requires Owned(q)
    ensures var r := Arm(q, p, msg, stamp);
            && Rec(r.subs, sub) == RecAfter(q, msg, sub)
            && r.nextSubId == (if msg.Subscribe? then q.nextSubId + 1 else q.nextSubId)
            && forall id :: id in r.unacked ==>
                 && id in q.unacked && r.unacked[id] == q.unacked[id]
                 && msg != Unsubscribe(q.unacked[id].owner)
                 && !(msg.Settle? && msg.sub == q.unacked[id].owner && msg.msgId == id)
  {
    hide Owned, PublishArm, SettleArm, DropSub, DemandArm, SubscribeArm, Rec;
    match msg
    case Subscribe(conn, channel, handle, gen) => SubscribeRec(q, conn, channel, handle, gen, sub);
    case Demand(x, credit, drain) => DemandRec(q, x, credit, drain, sub);
    case Settle(x, id, outcome) => SettleRec(q, p, x, id, outcome);
    case Unsubscribe(x) => UnsubscribeRec(q, x, sub);
    case _ => MildArmRec(q, p, msg, stamp, sub);
  }
}
