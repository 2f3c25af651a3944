/**
 * The transient queue actor (ramqp-broker/src/queue.rs): its state, what each mailbox
 * message does to it, and the dispatch that follows.
 *
 * The last three components of `Queue` are history: every body ever stored (`landed[i]` has
 * id `i + 1`), every message that has left for good, and every delivery handed to a connection.
 */
module TransientQueue {
  import opened Collections
  import opened Dispatch

  datatype Outcome = Ack | Requeue | RequeueFailed | Drop

  /** The resolved policy; `maxBytes == None` is the unbounded setting. */
  datatype Policy = Policy(
    ttlMs: Option<nat>, maxLen: nat, maxBytes: Option<nat>, dropHead: bool, maxAttempts: Option<nat>)

  datatype Stored = Stored(id: nat, body: Bytes, failures: nat, enqueuedMs: nat)

  datatype Held = Held(msg: Stored, owner: nat)

  datatype Fate = Acked | Dropped | Expired | Evicted | Exhausted

  datatype Delivery = Delivery(
    sub: nat, conn: nat, channel: nat, handle: nat, gen: nat, msgId: nat, body: Bytes)

  datatype Message =
    | Publish(body: Bytes)
    | PublishReserved(body: Bytes)
    | Reserve(count: nat)
    | Unreserve(count: nat)
    | Subscribe(conn: nat, channel: nat, handle: nat, gen: nat)
    | Demand(sub: nat, credit: nat, drain: bool)
    | Settle(sub: nat, msgId: nat, outcome: Outcome)
    | Unsubscribe(sub: nat)
    | Stats

  datatype Queue = Queue(
    ready: seq<Stored>, unacked: map<nat, Held>, subs: seq<Subscriber>,
    reserved: nat, bytes: nat, nextMsgId: nat, nextSubId: nat, rr: nat,
    landed: seq<Bytes>, finished: map<nat, Fate>, sent: seq<Delivery>)

  const EMPTY := Queue([], map[], [], 0, 0, 0, 0, 0, [], map[], [])

  // ---------------------------------------------------------------- single moves

  /** The head of `ready` leaves for good. */
  function PopHead(q: Queue, fate: Fate): Queue
    requires q.ready != []
  {
    q.(ready := q.ready[1..],
       bytes := SatSub(q.bytes, |q.ready[0].body|),
       finished := q.finished[q.ready[0].id := fate])
  }

  /** A new message is stored under the next id. */
  function Accept(q: Queue, body: Bytes, now: nat): Queue {
    q.(ready := q.ready + [Stored(q.nextMsgId + 1, body, 0, now)],
       bytes := q.bytes + |body|,
       nextMsgId := q.nextMsgId + 1,
       landed := q.landed + [body])
  }

  /** A dispatched message returns to the front, with its failure count. */
  function PushFront(q: Queue, id: nat, failures: nat): Queue
    requires id in q.unacked
  {
    q.(ready := [q.unacked[id].msg.(failures := failures)] + q.ready, unacked := q.unacked - {id})
  }

  /** A dispatched message leaves for good. */
  function Finish(q: Queue, id: nat, fate: Fate): Queue
    requires id in q.unacked
  {
    q.(unacked := q.unacked - {id},
       bytes := SatSub(q.bytes, |q.unacked[id].msg.body|),
       finished := q.finished[id := fate])
  }

  /** The head of `ready` goes out to the subscriber at `idx`. */
  function Send(q: Queue, idx: nat): Queue
    requires q.ready != [] && idx < |q.subs| && q.subs[idx].demand > 0
  {
    var m, s := q.ready[0], q.subs[idx];
    q.(ready := q.ready[1..],
       unacked := q.unacked[m.id := Held(m, s.id)],
       subs := q.subs[idx := s.(demand := s.demand - 1)],
       rr := After(idx, |q.subs|),
       sent := q.sent + [Delivery(s.id, s.conn, s.channel, s.handle, s.gen, m.id, m.body)])
  }

  // ---------------------------------------------------------------- mailbox arms

  predicate Over(q: Queue, p: Policy, len: nat) {
    || |q.ready| + |q.unacked| + q.reserved >= p.maxLen
    || (p.maxBytes.Some? && q.bytes + len > p.maxBytes.value)
  }

  /** Drop-head: displace messages from the front until the newcomer fits or nothing is left. */
  function MakeRoom(q: Queue, p: Policy, len: nat): Queue
    decreases |q.ready|
  {
    if p.dropHead && Over(q, p, len) && q.ready != [] then MakeRoom(PopHead(q, Evicted), p, len) else q
  }

  function TakeSlot(q: Queue, fromReserved: bool): Queue {
    if fromReserved then q.(reserved := SatSub(q.reserved, 1)) else q
  }

  predicate Refuses(q: Queue, p: Policy, len: nat, fromReserved: bool) {
    !fromReserved && Over(MakeRoom(TakeSlot(q, fromReserved), p, len), p, len)
  }

  function PublishArm(q: Queue, p: Policy, body: Bytes, fromReserved: bool, now: nat): Queue {
    var room := MakeRoom(TakeSlot(q, fromReserved), p, |body|);
    if Refuses(q, p, |body|, fromReserved) then room else Accept(room, body, now)
  }

  predicate Grants(q: Queue, p: Policy, count: nat) {
    p.dropHead || |q.ready| + |q.unacked| + q.reserved + count <= p.maxLen
  }

  function ReserveArm(q: Queue, p: Policy, count: nat): Queue {
    if Grants(q, p, count) && !p.dropHead then q.(reserved := q.reserved + count) else q
  }

  function SubscribeArm(q: Queue, conn: nat, channel: nat, handle: nat, gen: nat): Queue {
    q.(nextSubId := q.nextSubId + 1,
       subs := q.subs + [Subscriber(q.nextSubId + 1, conn, channel, handle, gen, 0, false)])
  }

  function IndexOf(subs: seq<Subscriber>, sub: nat): (r: Option<nat>)
    ensures r.Some? ==> r.value < |subs| && subs[r.value].id == sub
    ensures r.None? ==> forall s :: s in subs ==> s.id != sub
  {
    if subs == [] then None
    else if subs[0].id == sub then Some(0)
    else
      var r := IndexOf(subs[1..], sub);
      if r.Some? then Some(r.value + 1) else None
  }

  function DemandArm(q: Queue, sub: nat, credit: nat, drain: bool): Queue {
    match IndexOf(q.subs, sub)
    case None => q
    case Some(i) => q.(subs := q.subs[i := Grant(q.subs[i], credit, drain)])
  }

  predicate Owns(q: Queue, sub: nat, id: nat) {
    id in q.unacked && q.unacked[id].owner == sub
  }

  predicate AttemptsExhausted(p: Policy, failures: nat) {
    p.maxAttempts.Some? && failures >= p.maxAttempts.value
  }

  function SettleArm(q: Queue, p: Policy, sub: nat, id: nat, outcome: Outcome): Queue {
    if !Owns(q, sub, id) then q else
      var failures := q.unacked[id].msg.failures;
      match outcome
      case Ack => Finish(q, id, Acked)
      case Drop => Finish(q, id, Dropped)
      case Requeue => PushFront(q, id, failures)
      case RequeueFailed =>
        if AttemptsExhausted(p, failures + 1) then Finish(q, id, Exhausted) else PushFront(q, id, failures + 1)
  }

  /** `retain`: everyone but `sub`, in order. */
  function Without(subs: seq<Subscriber>, sub: nat): (r: seq<Subscriber>)
    ensures forall s :: s in r <==> s in subs && s.id != sub
    ensures |r| <= |subs|
    ensures (exists s :: s in subs && s.id == sub) ==> |r| < |subs|
  {
    if subs == [] then []
    else if subs[0].id == sub then Without(subs[1..], sub)
    else [subs[0]] + Without(subs[1..], sub)
  }

  function OwnedBy(unacked: map<nat, Held>, sub: nat): set<nat> {
    set id | id in unacked && unacked[id].owner == sub
  }

  /** Requeue the listed messages, last first, so the list ends up in order at the front. */
  function RequeueAll(q: Queue, ids: seq<nat>): Queue
    decreases |ids|
  {
    if ids == [] then q else
      var id := ids[|ids| - 1];
      RequeueAll(if id in q.unacked then PushFront(q, id, q.unacked[id].msg.failures) else q, ids[..|ids| - 1])
  }

  /** A subscriber goes: everything it held is requeued, oldest first. */
  function DropSub(q: Queue, sub: nat): Queue {
    RequeueAll(q.(subs := Without(q.subs, sub)), SortedIds(OwnedBy(q.unacked, sub)))
  }

  function Arm(q: Queue, p: Policy, msg: Message, now: nat): Queue {
    match msg
    case Publish(body) => PublishArm(q, p, body, false, now)
    case PublishReserved(body) => PublishArm(q, p, body, true, now)
    case Reserve(count) => ReserveArm(q, p, count)
    case Unreserve(count) => q.(reserved := SatSub(q.reserved, count))
    case Subscribe(conn, channel, handle, gen) => SubscribeArm(q, conn, channel, handle, gen)
    case Demand(sub, credit, drain) => DemandArm(q, sub, credit, drain)
    case Settle(sub, id, outcome) => SettleArm(q, p, sub, id, outcome)
    case Unsubscribe(sub) => DropSub(q, sub)
    case Stats => q
  }

  /** The two arms that go back to the mailbox without dispatching. */
  predicate SkipsDispatch(q: Queue, p: Policy, msg: Message) {
    match msg
    case Publish(body) => Refuses(q, p, |body|, false)
    case Settle(sub, id, _) => !Owns(q, sub, id)
    case _ => false
  }

  // ---------------------------------------------------------------- dispatch

  predicate HasExpired(p: Policy, m: Stored, now: nat) {
    p.ttlMs.Some? && SatSub(now, m.enqueuedMs) >= p.ttlMs.value
  }

  function ExpireOne(q: Queue, p: Policy, now: nat): Queue {
    if q.ready != [] && HasExpired(p, q.ready[0], now) then PopHead(q, Expired) else q
  }

  function Expire(q: Queue, p: Policy, now: nat): Queue
    decreases |q.ready|
  {
    if q.ready != [] && HasExpired(p, q.ready[0], now) then Expire(ExpireOne(q, p, now), p, now) else q
  }

  predicate CanDispatch(q: Queue) {
    q.ready != [] && PickReady(q.subs, q.rr).Some?
  }

  /** One turn of the dispatch loop; `ok` is whether the subscriber's connection took the command. */
  function DispatchOne(q: Queue, ok: bool): Queue
    requires CanDispatch(q)
  {
    var idx := PickReady(q.subs, q.rr).value;
    if ok then Send(q, idx) else
      DropSub(q.(subs := q.subs[idx := q.subs[idx].(demand := q.subs[idx].demand - 1)],
                 rr := After(idx, |q.subs|)),
              q.subs[idx].id)
  }

  /** The dispatch loop; `ok(n)` answers its `n`th send. Drains complete only when `ready` runs dry. */
  function DispatchLoop(q: Queue, ok: nat -> bool, n: nat): Queue
    decreases |q.subs|, |q.ready|
  {
    if q.ready == [] then q.(subs := CompleteDrains(q.subs))
    else if PickReady(q.subs, q.rr).None? then q
    else
      DispatchOneShrinks(q, ok(n));
      DispatchLoop(DispatchOne(q, ok(n)), ok, n + 1)
  }

  lemma {:induction false} RequeueAllKeepsSubs(q: Queue, ids: seq<nat>)
    ensures var r := RequeueAll(q, ids);
            r.subs == q.subs && r.rr == q.rr && r.reserved == q.reserved && r.nextSubId == q.nextSubId
    decreases |ids|
  {
    if ids != [] {
      var id := ids[|ids| - 1];
      RequeueAllKeepsSubs(if id in q.unacked then PushFront(q, id, q.unacked[id].msg.failures) else q,
                          ids[..|ids| - 1]);
    }
  }

  /** Why the loop ends although a failed send puts messages back: a failure costs a subscriber. */
  lemma DispatchOneShrinks(q: Queue, ok: bool)
    requires CanDispatch(q)
    ensures var r := DispatchOne(q, ok);
            |r.subs| < |q.subs| || (|r.subs| == |q.subs| && |r.ready| < |q.ready|)
  {
    if !ok {
      var idx := PickReady(q.subs, q.rr).value;
      var s := q.subs[idx];
      var subs := q.subs[idx := s.(demand := s.demand - 1)];
      assert subs[idx] in subs && subs[idx].id == s.id;
      RequeueAllKeepsSubs(q.(subs := Without(subs, s.id), rr := After(idx, |q.subs|)),
                          SortedIds(OwnedBy(q.unacked, s.id)));
    }
  }

  /** One mailbox message, handled to completion; `stamp` and `now` are the two clock readings. */
  function Handle(q: Queue, p: Policy, msg: Message, stamp: nat, now: nat, ok: nat -> bool): Queue {
    var a := Arm(q, p, msg, stamp);
    if SkipsDispatch(q, p, msg) then a else DispatchLoop(Expire(a, p, now), ok, 0)
  }
}
