/**
 * The transient queue actor as it runs (ramqp-broker/src/queue.rs:228-456): fields updated in place,
 * one method per mailbox arm, the eviction, requeue, expiry, search and dispatch loops. Every method is
 * proved to take the actor from one state of the specification to the next.
 */
module QueueActor {
  import opened Collections
  import opened Dispatch
  import opened TransientQueue
  import opened QueueSafety

  class Actor {
    const policy: Policy
    var ready: seq<Stored>
    var unacked: map<nat, Held>
    var subs: seq<Subscriber>
    var reserved: nat
    var bytes: nat
    var nextMsgId: nat
    var nextSubId: nat
    var rr: nat
    ghost var landed: seq<Bytes>
    ghost var finished: map<nat, Fate>
    /** Deliver commands handed to the connections, in order. */
    var sent: seq<Delivery>

    ghost function State(): Queue
      reads this
    {
      Queue(ready, unacked, subs, reserved, bytes, nextMsgId, nextSubId, rr, landed, finished, sent)
    }

    ghost predicate Valid()
      reads this
    {
      Healthy(State())
    }

    constructor (p: Policy)
      ensures policy == p && State() == EMPTY && Valid()
    {
      policy := p;
      ready, unacked, subs := [], map[], [];
      reserved, bytes, nextMsgId, nextSubId, rr := 0, 0, 0, 0, 0;
      landed, finished, sent := [], map[], [];
    }

    method TakeHead(ghost fate: Fate)
      requires ready != []
      modifies this
      ensures State() == PopHead(old(State()), fate)
    {
      var old_ := ready[0];
      ready := ready[1..];
      bytes := SatSub(bytes, |old_.body|);
      finished := finished[old_.id := fate];
    }

    /** Drop-head: displace messages from the front while the newcomer does not fit. */
    method EvictForRoom(len: nat) returns (over: bool)
      modifies this
      ensures State() == MakeRoom(old(State()), policy, len) && over == Over(State(), policy, len)
    {
      over := |ready| + |unacked| + reserved >= policy.maxLen ||
              (policy.maxBytes.Some? && bytes + len > policy.maxBytes.value);
      if over && policy.dropHead {
        while over && ready != []
          invariant over == Over(State(), policy, len)
          invariant MakeRoom(State(), policy, len) == MakeRoom(old(State()), policy, len)
          decreases |ready|
        {
          TakeHead(Evicted);
          over := |ready| + |unacked| + reserved >= policy.maxLen ||
                  (policy.maxBytes.Some? && bytes + len > policy.maxBytes.value);
        }
      }
    }

    /** Store a message, making room or refusing at a bound; `accepted` is what the producer is told. */
    method PublishBody(body: Bytes, fromReserved: bool, now: nat) returns (accepted: bool)
      modifies this
      ensures State() == PublishArm(old(State()), policy, body, fromReserved, now)
      ensures accepted <==> !Refuses(old(State()), policy, |body|, fromReserved)
    {
      hide MakeRoom, Over;
      if fromReserved { reserved := SatSub(reserved, 1); }
      var over := EvictForRoom(|body|);
      if over && !fromReserved { return false; }
      nextMsgId := nextMsgId + 1;
      bytes := bytes + |body|;
      ready := ready + [Stored(nextMsgId, body, 0, now)];
      landed := landed + [body];
      accepted := true;
    }

    method ReserveSlots(count: nat) returns (ok: bool)
      modifies this
      ensures State() == ReserveArm(old(State()), policy, count)
      ensures ok <==> Grants(old(State()), policy, count)
    {
      ok := policy.dropHead || |ready| + |unacked| + reserved + count <= policy.maxLen;
      if ok && !policy.dropHead { reserved := reserved + count; }
    }

    method FindSub(sub: nat) returns (r: Option<nat>)
      ensures r == IndexOf(subs, sub)
    {
      var i := 0;
      while i < |subs|
        invariant 0 <= i <= |subs|
        invariant IndexOf(subs, sub) == var k := IndexOf(subs[i..], sub); if k.Some? then Some(k.value + i) else None
      {
        if subs[i].id == sub { return Some(i); }
        i := i + 1;
      }
      assert subs[i..] == [];
      r := None;
    }

    method GrantDemand(sub: nat, credit: nat, drain: bool)
      modifies this
      ensures State() == DemandArm(old(State()), sub, credit, drain)
    {
      var i := FindSub(sub);
      if i.Some? { subs := subs[i.value := Grant(subs[i.value], credit, drain)]; }
    }

    method SettleMessage(sub: nat, id: nat, outcome: Outcome)
      modifies this
      ensures State() == SettleArm(old(State()), policy, sub, id, outcome)
    {
      if id !in unacked || unacked[id].owner != sub { return; }
      var stored := unacked[id].msg;
      unacked := unacked - {id};
      match outcome
      case Ack | Drop =>
        bytes := SatSub(bytes, |stored.body|);
        finished := finished[id := if outcome == Ack then Acked else Dropped];
      case Requeue => ready := [stored] + ready;
      case RequeueFailed =>
        if AttemptsExhausted(policy, stored.failures + 1) {
          bytes := SatSub(bytes, |stored.body|);
          finished := finished[id := Exhausted];
        } else {
          ready := [stored.(failures := stored.failures + 1)] + ready;
        }
    }

    /** Requeue everything `sub` held, oldest first, and forget the subscriber. */
    method DropSubscriber(sub: nat)
      modifies this
      ensures State() == DropSub(old(State()), sub)
    {
      subs := Without(subs, sub);
      var orphaned := SortedIds(OwnedBy(unacked, sub));
      ghost var s0 := State();
      var i := |orphaned|;
      assert orphaned[..i] == orphaned;
      while i > 0
        invariant 0 <= i <= |orphaned|
        invariant RequeueAll(State(), orphaned[..i]) == RequeueAll(s0, orphaned)
      {
        i := i - 1;
        var id := orphaned[i];
        assert orphaned[..i + 1][..i] == orphaned[..i];
        if id in unacked {
          ready := [unacked[id].msg] + ready;
          unacked := unacked - {id};
        }
      }
    }

    method ExpireHeads(now: nat)
      modifies this
      ensures State() == Expire(old(State()), policy, now)
    {
      while ready != [] && HasExpired(policy, ready[0], now)
        invariant Expire(State(), policy, now) == Expire(old(State()), policy, now)
        decreases |ready|
      {
        TakeHead(Expired);
      }
    }

    method Drains()
      modifies this
      ensures State() == old(State()).(subs := CompleteDrains(old(subs)))
    {
      for i := 0 to |subs|
        invariant |subs| == |old(subs)|
        invariant State() == old(State()).(subs := subs)
        invariant forall k :: 0 <= k < |subs| ==> subs[k] == if k < i then Drained(old(subs)[k]) else old(subs)[k]
      {
        if subs[i].drainPending {
          subs := subs[i := subs[i].(demand := 0, drainPending := false)];
        }
      }
      assert subs == CompleteDrains(old(subs));
    }

    /** Offer the head of `ready` to the next subscriber with demand; `ok` is whether its connection took it. */
    method DispatchTurn(ok: bool)
      requires CanDispatch(State())
      modifies this
      ensures State() == DispatchOne(old(State()), ok)
    {
      hide DropSub;
      var idx := PickReady(subs, rr).value;
      var msg, sub := ready[0], subs[idx];
      rr := (idx + 1) % |subs|;
      assert rr == After(idx, |subs|);
      subs := subs[idx := sub.(demand := sub.demand - 1)];
      if ok {
        ready := ready[1..];
        sent := sent + [Delivery(sub.id, sub.conn, sub.channel, sub.handle, sub.gen, msg.id, msg.body)];
        unacked := unacked[msg.id := Held(msg, sub.id)];
      } else {
        DropSubscriber(sub.id);
      }
    }

    /** The dispatch loop; `ok(n)` is whether the `n`th send reaches its connection. */
    method DispatchReady(ok: nat -> bool)
      modifies this
      ensures State() == DispatchLoop(old(State()), ok, 0)
    {
      hide DispatchOne;
      var n := 0;
      while ready != []
        invariant DispatchLoop(State(), ok, n) == DispatchLoop(old(State()), ok, 0)
        decreases |subs|, |ready|
      {
        if PickReady(subs, rr).None? { return; }
        DispatchOneShrinks(State(), ok(n));
        DispatchTurn(ok(n));
        n := n + 1;
      }
      Drains();
    }

    /** The arm of one mailbox message; `skip` when it goes straight back to the mailbox. */
    method HandleArm(msg: Message, stamp: nat) returns (reply: bool, skip: bool)
      modifies this
      ensures State() == Arm(old(State()), policy, msg, stamp)
      ensures skip <==> SkipsDispatch(old(State()), policy, msg)
      ensures msg.Publish? ==> (reply <==> !Refuses(old(State()), policy, |msg.body|, false))
      ensures msg.PublishReserved? ==> reply
      ensures msg.Reserve? ==> (reply <==> Grants(old(State()), policy, msg.count))
    {
      hide PublishArm, SettleArm, DropSub, DemandArm;
      skip, reply := false, true;
      match msg {
        case Publish(body) =>
          reply := PublishBody(body, false, stamp);
          skip := !reply;
        case PublishReserved(body) => reply := PublishBody(body, true, stamp);
        case Reserve(count) => reply := ReserveSlots(count);
        case Unreserve(count) => reserved := SatSub(reserved, count);
        case Subscribe(conn, channel, handle, gen) =>
          nextSubId := nextSubId + 1;
          subs := subs + [Subscriber(nextSubId, conn, channel, handle, gen, 0, false)];
        case Demand(sub, credit, drain) => GrantDemand(sub, credit, drain);
        case Settle(sub, id, outcome) =>
          skip := id !in unacked || unacked[id].owner != sub;
          SettleMessage(sub, id, outcome);
        case Unsubscribe(sub) => DropSubscriber(sub);
        case Stats =>
      }
    }

    /** One mailbox message from arrival to quiet; `reply` is what `Publish` and `Reserve` answer. */
    method HandleMessage(msg: Message, stamp: nat, now: nat, ok: nat -> bool) returns (reply: bool)
      requires Valid()
      modifies this
      ensures Valid() && State() == Handle(old(State()), policy, msg, stamp, now, ok)
      ensures msg.Publish? ==> (reply <==> !Refuses(old(State()), policy, |msg.body|, false))
      ensures msg.PublishReserved? ==> reply
      ensures msg.Reserve? ==> (reply <==> Grants(old(State()), policy, msg.count))
    {
      hide Healthy, Arm, SkipsDispatch, Expire, DispatchLoop, Refuses, Grants;
      HandleKeeps(State(), policy, msg, stamp, now, ok);
      var skip;
      reply, skip := HandleArm(msg, stamp);
      if !skip {
        ExpireHeads(now);
        DispatchReady(ok);
      }
    }
  }
}
