/**
 * The transient queue seen turn by turn: handling a message is one arm, then expiries, sends and
 * drain completion. Facts about who is served, why a message leaves, and what a former owner can do.
 */
module QueueRuns {
  import opened Collections
  import opened Dispatch
  import opened TransientQueue
  import opened QueueSafety

  datatype Turn = ArmTurn(msg: Message, stamp: nat) | ExpireTurn(now: nat) | SendTurn(ok: bool) | DrainTurn

  function Take(q: Queue, p: Policy, t: Turn): Queue {
    match t
    case ArmTurn(msg, stamp) => Arm(q, p, msg, stamp)
    case ExpireTurn(now) => ExpireOne(q, p, now)
    case SendTurn(ok) => if CanDispatch(q) then DispatchOne(q, ok) else q
    case DrainTurn => if q.ready == [] then q.(subs := CompleteDrains(q.subs)) else q
  }

  function TakeAll(q: Queue, p: Policy, ts: seq<Turn>): Queue
    decreases |ts|
  {
    if ts == [] then q else TakeAll(Take(q, p, ts[0]), p, ts[1..])
  }

  lemma {:induction false} TakeAllConcat(q: Queue, p: Policy, a: seq<Turn>, b: seq<Turn>)
    ensures TakeAll(q, p, a + b) == TakeAll(TakeAll(q, p, a), p, b)
    decreases |a|
  {
    if a == [] {
      assert a + b == b;
    } else {
      assert (a + b)[1..] == a[1..] + b;
      TakeAllConcat(Take(q, p, a[0]), p, a[1..], b);
    }
  }

  lemma {:induction false} ExpireIsTurns(q: Queue, p: Policy, now: nat) returns (ts: seq<Turn>)
    ensures TakeAll(q, p, ts) == Expire(q, p, now)
    ensures forall t :: t in ts ==> !t.ArmTurn?
    decreases |q.ready|
  {
    ts := [];
    if q.ready != [] && HasExpired(p, q.ready[0], now) {
      var rest := ExpireIsTurns(ExpireOne(q, p, now), p, now);
      ts := [ExpireTurn(now)] + rest;
    }
  }

  lemma {:induction false} DispatchIsTurns(q: Queue, p: Policy, ok: nat -> bool, n: nat) returns (ts: seq<Turn>)
    ensures TakeAll(q, p, ts) == DispatchLoop(q, ok, n)
    ensures forall t :: t in ts ==> !t.ArmTurn?
    decreases |q.subs|, |q.ready|
  {
    if q.ready == [] {
      ts := [DrainTurn];
    } else if PickReady(q.subs, q.rr).None? {
      ts := [];
    } else {
      DispatchOneShrinks(q, ok(n));
      var rest := DispatchIsTurns(DispatchOne(q, ok(n)), p, ok, n + 1);
      ts := [SendTurn(ok(n))] + rest;
    }
  }

  /** Handling one mailbox message is its arm followed by turns that are not arms. */
  lemma HandleIsTurns(q: Queue, p: Policy, msg: Message, stamp: nat, now: nat, ok: nat -> bool)
    returns (ts: seq<Turn>)
    ensures TakeAll(q, p, ts) == Handle(q, p, msg, stamp, now, ok)
    ensures ts != [] && ts[0] == ArmTurn(msg, stamp)
    ensures forall t :: t in ts[1..] ==> !t.ArmTurn?
  {
    var a := Arm(q, p, msg, stamp);
    ts := [ArmTurn(msg, stamp)];
    if !SkipsDispatch(q, p, msg) {
      var es := ExpireIsTurns(a, p, now);
      var ds := DispatchIsTurns(Expire(a, p, now), p, ok, 0);
      TakeAllConcat(a, p, es, ds);
      ts := ts + (es + ds);
      assert ts[1..] == es + ds;
    }
  }

  lemma TurnKeeps(q: Queue, p: Policy, t: Turn)
    requires Core(q) && Owned(q)
    ensures Core(Take(q, p, t)) && Owned(Take(q, p, t))
  {
    match t
    case ArmTurn(msg, stamp) => ArmKeeps(q, p, msg, stamp);
    case ExpireTurn(now) =>
      if q.ready != [] && HasExpired(p, q.ready[0], now) { PopHeadCore(q, Expired); }
    case SendTurn(ok) =>
      if CanDispatch(q) { DispatchOneKeeps(q, ok); }
    case DrainTurn =>
      if q.ready == [] { DrainsKeep(q); }
  }

  // ---------------------------------------------------------------- fairness

  ghost function SubIdList(subs: seq<Subscriber>): seq<nat> {
    seq(|subs|, i requires 0 <= i < |subs| => subs[i].id)
  }

  /** This turn delivers to the subscriber at place `i` of the list. */
  ghost predicate Serves(q: Queue, t: Turn, i: nat) {
    t == SendTurn(true) && CanDispatch(q) && PickReady(q.subs, q.rr) == Some(i)
  }

  ghost predicate IsTrace(p: Policy, qs: seq<Queue>, ts: seq<Turn>) {
    |qs| == |ts| + 1 && forall k :: 0 <= k < |ts| ==> qs[k + 1] == Take(qs[k], p, ts[k])
  }

  lemma {:induction false} MakeRoomKeepsRing(q: Queue, p: Policy, len: nat)
    ensures MakeRoom(q, p, len).rr == q.rr
    decreases |q.ready|
  {
    if p.dropHead && Over(q, p, len) && q.ready != [] {
      MakeRoomKeepsRing(PopHead(q, Evicted), p, len);
    }
  }

  lemma FailedSendLosesTheSubscriber(q: Queue)
    requires CanDispatch(q)
    ensures |SubIdList(DispatchOne(q, false).subs)| < |SubIdList(q.subs)|
  {
    var idx := PickReady(q.subs, q.rr).value;
    var s := q.subs[idx];
    var subs := q.subs[idx := s.(demand := s.demand - 1)];
    assert subs[idx] in subs && subs[idx].id == s.id;
    RequeueAllKeepsSubs(q.(subs := Without(subs, s.id), rr := After(idx, |q.subs|)),
                        SortedIds(OwnedBy(q.unacked, s.id)));
  }

  lemma TurnMovesRing(q: Queue, p: Policy, t: Turn)
    requires SubIdList(Take(q, p, t).subs) == SubIdList(q.subs)
    ensures t.SendTurn? && CanDispatch(q) ==>
              t.ok && Take(q, p, t).rr == After(PickReady(q.subs, q.rr).value, |q.subs|)
    ensures !(t.SendTurn? && CanDispatch(q)) ==> Take(q, p, t).rr == q.rr
  {
    match t
    case ArmTurn(msg, stamp) =>
      match msg {
        case Publish(body) => MakeRoomKeepsRing(q, p, |body|);
        case PublishReserved(body) => MakeRoomKeepsRing(TakeSlot(q, true), p, |body|);
        case Unsubscribe(sub) =>
          RequeueAllKeepsSubs(q.(subs := Without(q.subs, sub)), SortedIds(OwnedBy(q.unacked, sub)));
        case _ =>
      }
    case ExpireTurn(_) =>
    case SendTurn(ok) =>
      if CanDispatch(q) && !ok {
        FailedSendLosesTheSubscriber(q);
        assert false;
      }
    case DrainTurn =>
  }

  /**
   * Fairness: while the subscriber list is unchanged, between two deliveries to one
   * subscriber everybody whose demand stood all along is served.
   */
  lemma RoundRobinIsFair(p: Policy, qs: seq<Queue>, ts: seq<Turn>, a: nat, b: nat, i: nat, j: nat)
    requires IsTrace(p, qs, ts)
    requires forall k :: 0 <= k < |qs| ==> SubIdList(qs[k].subs) == SubIdList(qs[0].subs)
    requires a < b < |ts| && i < |qs[0].subs| && j < |qs[0].subs| && i != j
    requires Serves(qs[a], ts[a], i) && Serves(qs[b], ts[b], i)
    requires forall k :: a < k <= b ==> j < |qs[k].subs| && qs[k].subs[j].demand > 0
    ensures exists c :: a < c < b && Serves(qs[c], ts[c], j)
  {
    var n := |qs[0].subs|;
    assert forall k :: 0 <= k < |qs| ==> |qs[k].subs| == |SubIdList(qs[k].subs)| == n;
    TurnMovesRing(qs[a], p, ts[a]);
    ServedGoesLast(i, j, n);
    var c := NextServed(p, qs, ts, a + 1, b, i, j);
  }

  lemma {:induction false} NextServed(p: Policy, qs: seq<Queue>, ts: seq<Turn>, k: nat, b: nat, i: nat, j: nat)
    returns (c: nat)
    requires IsTrace(p, qs, ts)
    requires forall k :: 0 <= k < |qs| ==> SubIdList(qs[k].subs) == SubIdList(qs[0].subs)
    requires k <= b < |ts| && i < |qs[0].subs| && j < |qs[0].subs| && i != j
    requires forall m :: 0 <= m < |qs| ==> |qs[m].subs| == |qs[0].subs|
    requires Serves(qs[b], ts[b], i)
    requires forall m :: k <= m <= b ==> qs[m].subs[j].demand > 0
    requires Distance(qs[k].rr, j, |qs[0].subs|) < Distance(qs[k].rr, i, |qs[0].subs|)
    ensures k <= c < b && Serves(qs[c], ts[c], j)
    decreases b - k
  {
    var n := |qs[0].subs|;
    if Serves(qs[k], ts[k], j) {
      c := k;
    } else {
      assert SubIdList(qs[k + 1].subs) == SubIdList(qs[k].subs);
      TurnMovesRing(qs[k], p, ts[k]);
      if ts[k].SendTurn? && CanDispatch(qs[k]) {
        WaitingKeepsItsPlace(qs[k].subs, qs[k].rr, i, j, PickReady(qs[k].subs, qs[k].rr).value);
      }
      c := NextServed(p, qs, ts, k + 1, b, i, j);
    }
  }

  // ---------------------------------------------------------------- why a message leaves

  /** What must have happened in this turn for `id` to end with `fate`. */
  ghost predicate Cause(q: Queue, p: Policy, t: Turn, id: nat, fate: Fate) {
    match fate
    case Acked => t.ArmTurn? && t.msg.Settle? && t.msg.msgId == id && t.msg.outcome == Ack && Owns(q, t.msg.sub, id)
    case Dropped => t.ArmTurn? && t.msg.Settle? && t.msg.msgId == id && t.msg.outcome == Drop && Owns(q, t.msg.sub, id)
    case Exhausted =>
      && t.ArmTurn? && t.msg.Settle? && t.msg.msgId == id && t.msg.outcome == RequeueFailed && Owns(q, t.msg.sub, id)
      && AttemptsExhausted(p, q.unacked[id].msg.failures + 1)
    case Expired => t.ExpireTurn? && q.ready != [] && q.ready[0].id == id && HasExpired(p, q.ready[0], t.now)
    case Evicted =>
      && t.ArmTurn? && (t.msg.Publish? || t.msg.PublishReserved?) && p.dropHead && id in Ids(q.ready)
      && Over(TakeSlot(q, t.msg.PublishReserved?), p, |t.msg.body|)
  }

  lemma {:induction false} MakeRoomEvicts(q: Queue, p: Policy, len: nat)
    ensures var r := MakeRoom(q, p, len);
            forall id :: id in r.finished ==>
              (id in q.finished && r.finished[id] == q.finished[id]) ||
              (r.finished[id] == Evicted && id in Ids(q.ready) && p.dropHead && Over(q, p, len))
    ensures q.finished.Keys <= MakeRoom(q, p, len).finished.Keys
    decreases |q.ready|
  {
    if p.dropHead && Over(q, p, len) && q.ready != [] {
      MakeRoomEvicts(PopHead(q, Evicted), p, len);
    }
  }

  lemma {:induction false} RequeueAllFinishesNothing(q: Queue, ids: seq<nat>)
    ensures RequeueAll(q, ids).finished == q.finished
    decreases |ids|
  {
    if ids != [] {
      var n := |ids| - 1;
      RequeueAllFinishesNothing(
        if ids[n] in q.unacked then PushFront(q, ids[n], q.unacked[ids[n]].msg.failures) else q, ids[..n]);
    }
  }

  /** Everything finished after the turn was finished before it, or has its cause in it. */
  ghost predicate Caused(q: Queue, p: Policy, t: Turn, r: Queue) {
    && q.finished.Keys <= r.finished.Keys
    && forall id :: id in r.finished ==>
         (id in q.finished && r.finished[id] == q.finished[id]) || Cause(q, p, t, id, r.finished[id])
  }

  lemma ArmCaused(q: Queue, p: Policy, msg: Message, stamp: nat)
    ensures Caused(q, p, ArmTurn(msg, stamp), Arm(q, p, msg, stamp))
  {
    hide SortedIds, OwnedBy, Over;
    match msg
    case Publish(body) => MakeRoomEvicts(q, p, |body|);
    case PublishReserved(body) => MakeRoomEvicts(TakeSlot(q, true), p, |body|);
    case Unsubscribe(sub) =>
      RequeueAllFinishesNothing(q.(subs := Without(q.subs, sub)), SortedIds(OwnedBy(q.unacked, sub)));
    case _ =>
  }

  /**
   * Nothing leaves without cause, and what has left stays left: every message newly finished in a
   * turn was settled by its owner, expired at the head, ran out of attempts, or was displaced by drop-head.
   */
  lemma NothingLeavesWithoutCause(q: Queue, p: Policy, t: Turn)
    ensures Caused(q, p, t, Take(q, p, t))
  {
    hide Arm;
    match t
    case ArmTurn(msg, stamp) => ArmCaused(q, p, msg, stamp);
    case ExpireTurn(_) =>
    case SendTurn(ok) =>
      if CanDispatch(q) && !ok {
        var idx := PickReady(q.subs, q.rr).value;
        var q1 := q.(subs := q.subs[idx := q.subs[idx].(demand := q.subs[idx].demand - 1)],
                     rr := After(idx, |q.subs|));
        RequeueAllFinishesNothing(q1.(subs := Without(q1.subs, q.subs[idx].id)),
                                  SortedIds(OwnedBy(q.unacked, q.subs[idx].id)));
      }
    case DrainTurn =>
  }

  // ---------------------------------------------------------------- former owners

  /** The id was issued and its holder is gone. */
  ghost predicate Gone(q: Queue, sub: nat) {
    sub <= q.nextSubId && forall i :: 0 <= i < |q.subs| ==> q.subs[i].id != sub
  }

  lemma DropKeepsGone(q: Queue, other: nat, sub: nat)
    requires Gone(q, sub)
    ensures Gone(DropSub(q, other), sub)
  {
    DropSubEffect(q, other);
    var r := Without(q.subs, other);
    forall i | 0 <= i < |r| ensures r[i].id != sub {
      assert r[i] in q.subs;
    }
  }

  lemma {:induction false} MakeRoomKeepsSubs(q: Queue, p: Policy, len: nat)
    ensures MakeRoom(q, p, len).subs == q.subs && MakeRoom(q, p, len).nextSubId == q.nextSubId
    decreases |q.ready|
  {
    if p.dropHead && Over(q, p, len) && q.ready != [] {
      MakeRoomKeepsSubs(PopHead(q, Evicted), p, len);
    }
  }

  lemma ArmKeepsGone(q: Queue, p: Policy, msg: Message, stamp: nat, sub: nat)
    requires Gone(q, sub)
    ensures Gone(Arm(q, p, msg, stamp), sub)
  {
    match msg
    case Publish(body) => MakeRoomKeepsSubs(q, p, |body|);
    case PublishReserved(body) => MakeRoomKeepsSubs(TakeSlot(q, true), p, |body|);
    case Unsubscribe(s) => DropKeepsGone(q, s, sub);
    case _ =>
  }

  lemma GoneStaysGone(q: Queue, p: Policy, t: Turn, sub: nat)
    requires Gone(q, sub)
    ensures Gone(Take(q, p, t), sub)
  {
    hide Arm, DropSub;
    match t
    case ArmTurn(msg, stamp) => ArmKeepsGone(q, p, msg, stamp, sub);
    case ExpireTurn(_) =>
    case SendTurn(ok) =>
      if CanDispatch(q) {
        var idx := PickReady(q.subs, q.rr).value;
        var s := q.subs[idx];
        DropKeepsGone(q.(subs := q.subs[idx := s.(demand := s.demand - 1)], rr := After(idx, |q.subs|)), s.id, sub);
      }
    case DrainTurn =>
  }

  lemma {:induction false} TurnsKeep(q: Queue, p: Policy, ts: seq<Turn>, sub: nat)
    requires Core(q) && Owned(q) && Gone(q, sub)
    ensures var r := TakeAll(q, p, ts); Core(r) && Owned(r) && Gone(r, sub)
    decreases |ts|
  {
    hide Core, Owned, Gone;
    if ts != [] {
      TurnKeeps(q, p, ts[0]);
      GoneStaysGone(q, p, ts[0], sub);
      TurnsKeep(Take(q, p, ts[0]), p, ts[1..], sub);
    }
  }

  /**
   * Only the current owner's settle changes anything. Once a subscriber has been dropped, no turns
   * whatever bring it back: its late settle leaves the whole queue as it is.
   */
  lemma LateSettleDoesNothing(q: Queue, p: Policy, sub: nat, ts: seq<Turn>, id: nat, outcome: Outcome, stamp: nat,
                              now: nat, ok: nat -> bool)
    requires Healthy(q) && 1 <= sub <= q.nextSubId
    ensures var r := TakeAll(Arm(q, p, Unsubscribe(sub), stamp), p, ts);
            Handle(r, p, Settle(sub, id, outcome), stamp, now, ok) == r
  {
    hide Core, Owned, TakeAll, Expire, DispatchLoop;
    var u := Arm(q, p, Unsubscribe(sub), stamp);
    ArmKeeps(q, p, Unsubscribe(sub), stamp);
    DropSubEffect(q, sub);
    TurnsKeep(u, p, ts, sub);
    GoneOwnsNothing(TakeAll(u, p, ts), sub, id);
  }

  lemma GoneOwnsNothing(q: Queue, sub: nat, id: nat)
    requires Owned(q) && Gone(q, sub)
    ensures !Owns(q, sub, id)
  {
  }

  // ---------------------------------------------------------------- refusals and attempts

  lemma {:induction false} MakeRoomIsVisible(q: Queue, p: Policy, len: nat)
    requires Partition(q)
    ensures MakeRoom(q, p, len) == q <==> !(p.dropHead && Over(q, p, len) && q.ready != [])
  {
    if p.dropHead && Over(q, p, len) && q.ready != [] {
      MakeRoomEvicts(PopHead(q, Evicted), p, len);
      assert q.ready[0].id in Ids(q.ready);
    }
  }

  /**
   * A refused publish changes nothing exactly when the policy rejects or there was nothing ready:
   * under drop-head a message too large to fit first displaces everything ready.
   */
  lemma RefusedPublishChangesNothingIff(q: Queue, p: Policy, body: Bytes, now: nat)
    requires Partition(q) && Refuses(q, p, |body|, false)
    ensures PublishArm(q, p, body, false, now) == q <==> !p.dropHead || q.ready == []
    ensures p.dropHead ==> PublishArm(q, p, body, false, now).ready == []
  {
    MakeRoomIsVisible(q, p, |body|);
    MakeRoomEmpties(q, p, |body|);
  }

  const DROPPING := Policy(None, 2, Some(1), true, None)

  /** A run in which a refused publish displaces: one message is ready, the next is larger than the queue may hold. */
  lemma RefusedPublishDisplaces(ok: nat -> bool)
    ensures var q := QueueSafety.Run(DROPPING, [Input(Publish([0]), 0, 0, ok)]);
            && q.ready == [Stored(1, [0], 0, 0)] && Refuses(q, DROPPING, 2, false)
            && Handle(q, DROPPING, Publish([0, 0]), 0, 0, ok).ready == []
  {
    var input := Input(Publish([0]), 0, 0, ok);
    assert [input][..0] == [];
    var q := Accept(EMPTY, [0], 0);
    assert QueueSafety.Run(DROPPING, []) == EMPTY;
    PickReadyIsNearest([], 0);
    assert Handle(EMPTY, DROPPING, Publish([0]), 0, 0, ok) == q;
    assert MakeRoom(q, DROPPING, 2) == PopHead(q, Evicted);
  }

  lemma {:induction false} MakeRoomEmpties(q: Queue, p: Policy, len: nat)
    ensures p.dropHead && Over(MakeRoom(q, p, len), p, len) ==> MakeRoom(q, p, len).ready == [] && Over(q, p, len)
    decreases |q.ready|
  {
    if p.dropHead && Over(q, p, len) && q.ready != [] {
      MakeRoomEmpties(PopHead(q, Evicted), p, len);
    }
  }
}
