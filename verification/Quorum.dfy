/**
 * The quorum queue actor (ramqp-broker/src/quorum.rs): the leader's view of a replicated queue. Publishes
 * and removals are proposals to a commit log, pipelined: each waits until the log commits or fails it, and
 * its completion reaches the actor later, in any order. The log itself is given.
 *
 * A `History` records the proposal behind each message that has been applied but not yet confirmed, or
 * taken out but not yet removed; the messages left by a failed dead-letter removal; the proposal or the
 * answer behind each publish; and the deliveries made.
 */
module Quorum {
  import opened Collections
  import opened Dispatch
  import opened TransientQueue
  import G = QueueGroup

  datatype Kind = Enq(body: Bytes, ms: nat, token: nat) | Rem(id: nat, readd: bool) | Cnt(id: nat)

  datatype Status = Waiting | Committed(resp: G.Response) | Failed

  datatype Proposal = Proposal(kind: Kind, status: Status)

  datatype History = History(
    confirming: map<nat, nat>, removing: map<nat, nat>, left: set<nat>,
    asking: map<nat, nat>, answers: map<nat, Option<nat>>, sent: seq<Delivery>)

  const NO_HISTORY := History(map[], map[], {}, map[], map[], [])

  datatype Leader = Leader(
    applied: G.Plain,
    ready: set<nat>, inflight: map<nat, nat>, subs: seq<Subscriber>, failures: map<nat, nat>,
    proposals: map<nat, Proposal>, pending: nat, pendingBytes: nat, reserved: nat, nextSubId: nat, rr: nat,
    nextTag: nat, tokens: nat, h: History)

  /** A new leader takes everything in applied state as ready. */
  function Begin(applied: G.Plain): Leader {
    Leader(applied, applied.messages.Keys, map[], [], map[], map[], 0, 0, 0, 0, 0, 0, 0, NO_HISTORY)
  }

  // ---------------------------------------------------------------- single moves

  function Propose(q: Leader, kind: Kind): Leader {
    q.(proposals := q.proposals[q.nextTag := Proposal(kind, Waiting)], nextTag := q.nextTag + 1)
  }

  /** A ready message is taken out for good: its dead letter is written and its removal proposed. */
  function RemoveReady(q: Leader, id: nat): Leader {
    Propose(q, Rem(id, false)).(ready := q.ready - {id}, h := q.h.(removing := q.h.removing[id := q.nextTag]))
  }

  /** A held message is taken out: a failed removal makes it ready again only if `readd`. */
  function RemoveHeld(q: Leader, id: nat, readd: bool): Leader {
    Propose(q, Rem(id, readd)).(inflight := q.inflight - {id}, failures := q.failures - {id},
                                h := q.h.(removing := q.h.removing[id := q.nextTag]))
  }

  function Requeued(q: Leader, id: nat): Leader {
    q.(inflight := q.inflight - {id}, ready := q.ready + {id})
  }

  function RequeuedWithCount(q: Leader, id: nat, count: nat): Leader {
    Propose(Requeued(q, id).(failures := q.failures[id := count]), Cnt(id))
  }

  function Refused(q: Leader): Leader {
    q.(tokens := q.tokens + 1, h := q.h.(answers := q.h.answers[q.tokens := None]))
  }

  function Accepted(q: Leader, body: Bytes, ms: nat): Leader {
    Propose(q, Enq(body, ms, q.tokens)).(
      pending := q.pending + 1, pendingBytes := q.pendingBytes + |body|,
      tokens := q.tokens + 1, h := q.h.(asking := q.h.asking[q.tokens := q.nextTag]))
  }

  function HeldBy(inflight: map<nat, nat>, sub: nat): set<nat> {
    set id | id in inflight && inflight[id] == sub
  }

  /** A subscriber goes, and what it held is ready again. */
  function Departed(q: Leader, sub: nat): Leader {
    var back := HeldBy(q.inflight, sub);
    q.(subs := Without(q.subs, sub), inflight := q.inflight - back, ready := q.ready + back)
  }

  // ---------------------------------------------------------------- mailbox arms

  predicate Full(q: Leader, p: Policy) {
    |q.ready| + |q.inflight| + q.pending + q.reserved >= p.maxLen
  }

  predicate TooManyBytes(q: Leader, p: Policy, resident: nat, len: nat) {
    p.maxBytes.Some? && resident + q.pendingBytes + len > p.maxBytes.value
  }

  function SlotTaken(q: Leader, fromReserved: bool): Leader {
    if fromReserved then q.(reserved := SatSub(q.reserved, 1)) else q
  }

  /** Drop-head displaces at most one message. */
  function RoomMade(q: Leader, p: Policy): Leader {
    if Full(q, p) && p.dropHead && q.ready != {} then RemoveReady(q, Least(q.ready)) else q
  }

  predicate DepthRefuses(q: Leader, p: Policy, fromReserved: bool) {
    !fromReserved && Full(q, p) && !(p.dropHead && q.ready != {})
  }

  /** `resident` is what the replicated state holds in memory. */
  function Publishes(q: Leader, p: Policy, body: Bytes, fromReserved: bool, resident: nat, ms: nat): Leader {
    var q1 := SlotTaken(q, fromReserved);
    if DepthRefuses(q1, p, fromReserved) then Refused(q1) else
      var q2 := RoomMade(q1, p);
      if !fromReserved && TooManyBytes(q2, p, resident, |body|) then Refused(q2) else Accepted(q2, body, ms)
  }

  predicate Reservable(q: Leader, p: Policy, count: nat) {
    p.dropHead || |q.ready| + |q.inflight| + q.pending + q.reserved + count <= p.maxLen
  }

  /** The failed-delivery count: this leader's own, or at first sight the one in applied state. */
  function CountOf(q: Leader, id: nat): nat {
    if id in q.failures then q.failures[id]
    else if id in q.applied.messages then q.applied.messages[id].failures
    else 0
  }

  function Settles(q: Leader, p: Policy, sub: nat, id: nat, outcome: Outcome): Leader {
    if id !in q.inflight || q.inflight[id] != sub then q else
      match outcome
      case Ack => RemoveHeld(q, id, true)
      case Drop => RemoveHeld(q, id, true)
      case Requeue => Requeued(q, id)
      case RequeueFailed =>
        if AttemptsExhausted(p, CountOf(q, id) + 1) then RemoveHeld(q, id, false)
        else RequeuedWithCount(q, id, CountOf(q, id) + 1)
  }

  function Mail(q: Leader, p: Policy, msg: Message, resident: nat, ms: nat): Leader {
    match msg
    case Publish(body) => Publishes(q, p, body, false, resident, ms)
    case PublishReserved(body) => Publishes(q, p, body, true, resident, ms)
    case Reserve(count) => if Reservable(q, p, count) && !p.dropHead then q.(reserved := q.reserved + count) else q
    case Unreserve(count) => q.(reserved := SatSub(q.reserved, count))
    case Subscribe(conn, channel, handle, gen) =>
      q.(nextSubId := q.nextSubId + 1,
         subs := q.subs + [Subscriber(q.nextSubId + 1, conn, channel, handle, gen, 0, false)])
    case Demand(sub, credit, drain) =>
      (match IndexOf(q.subs, sub)
       case None => q
       case Some(i) => q.(subs := q.subs[i := Grant(q.subs[i], credit, drain)]))
    case Settle(sub, id, outcome) => Settles(q, p, sub, id, outcome)
    case Unsubscribe(sub) => Departed(q, sub)
    case Stats => q
  }

  // ---------------------------------------------------------------- completions

  function PublishAnswered(q: Leader, kind: Kind, id: Option<nat>): Leader
    requires kind.Enq?
  {
    q.(pending := SatSub(q.pending, 1), pendingBytes := SatSub(q.pendingBytes, |kind.body|),
       h := q.h.(asking := q.h.asking - {kind.token}, answers := q.h.answers[kind.token := id]))
  }

  function PublishCompleted(q: Leader, kind: Kind, status: Status): Leader
    requires kind.Enq?
  {
    if status.Committed? && status.resp.Enqueued? then
      var id := status.resp.msgId;
      var r := PublishAnswered(q, kind, Some(id));
      r.(ready := q.ready + {id}, h := r.h.(confirming := q.h.confirming - {id}))
    else PublishAnswered(q, kind, None)
  }

  function RemovalCompleted(q: Leader, id: nat, readd: bool, status: Status): Leader {
    if !status.Failed? then q
    else if readd then q.(ready := q.ready + {id}, h := q.h.(removing := q.h.removing - {id}))
    else q.(h := q.h.(removing := q.h.removing - {id}, left := q.h.left + {id}))
  }

  function Completed(q: Leader, tag: nat): Leader
    requires tag in q.proposals && !q.proposals[tag].status.Waiting?
  {
    var x := q.proposals[tag];
    var q1 := q.(proposals := q.proposals - {tag});
    match x.kind
    case Enq(_, _, _) => PublishCompleted(q1, x.kind, x.status)
    case Rem(id, readd) => RemovalCompleted(q1, id, readd, x.status)
    case Cnt(_) => q1
  }

  // ---------------------------------------------------------------- the commit log

  function CommandOf(kind: Kind): G.Command {
    match kind
    case Enq(body, ms, _) => G.Enqueue(body, ms)
    case Rem(id, _) => G.Settle(id, false)
    case Cnt(id) => G.Settle(id, true)
  }

  /** The log commits a waiting proposal: the replicated state applies it. */
  function Commits(q: Leader, tag: nat): Leader
    requires tag in q.proposals
  {
    var kind := q.proposals[tag].kind;
    var (applied, resp) := G.ApplyPlain(q.applied, CommandOf(kind));
    var q1 := q.(applied := applied, proposals := q.proposals[tag := Proposal(kind, Committed(resp))]);
    match kind
    case Enq(_, _, _) => if resp.Enqueued? then q1.(h := q.h.(confirming := q.h.confirming[resp.msgId := tag])) else q1
    case Rem(id, _) => q1.(h := q.h.(removing := q.h.removing - {id}))
    case Cnt(_) => q1
  }

  function Fails(q: Leader, tag: nat): Leader
    requires tag in q.proposals
  {
    q.(proposals := q.proposals[tag := q.proposals[tag].(status := Failed)])
  }

  // ---------------------------------------------------------------- expiry and dispatch

  predicate IsExpired(q: Leader, p: Policy, id: nat, now: nat) {
    p.ttlMs.Some? &&
    (id in q.applied.messages ==> SatSub(now, q.applied.messages[id].enqueuedMs) >= p.ttlMs.value)
  }

  function ExpireHead(q: Leader, p: Policy, now: nat): Leader
    decreases |q.ready|
  {
    if q.ready != {} && IsExpired(q, p, Least(q.ready), now)
    then ExpireHead(RemoveReady(q, Least(q.ready)), p, now) else q
  }

  predicate CanServe(q: Leader) {
    q.ready != {} && PickReady(q.subs, q.rr).Some?
  }

  /** Offer message `id` to the subscriber at `idx`; `ok` is whether its connection took it. */
  function Offer(q: Leader, id: nat, idx: nat, ok: bool): Leader
    requires idx < |q.subs| && q.subs[idx].demand > 0
  {
    if id !in q.applied.messages then q.(ready := q.ready - {id}) else
      var s := q.subs[idx];
      var q1 := q.(subs := q.subs[idx := s.(demand := s.demand - 1)], rr := After(idx, |q.subs|));
      if ok then
        q1.(ready := q.ready - {id}, inflight := q.inflight[id := s.id],
            h := q.h.(sent := q.h.sent + [Delivery(s.id, s.conn, s.channel, s.handle, s.gen, id,
                                                   q.applied.messages[id].body)]))
      else Departed(q1, s.id)
  }

  /** One turn: the oldest ready message to the next subscriber with demand. */
  function Serve(q: Leader, ok: bool): Leader
    requires CanServe(q)
  {
    Offer(q, Least(q.ready), PickReady(q.subs, q.rr).value, ok)
  }

  lemma OfferShrinks(q: Leader, id: nat, idx: nat, ok: bool)
    requires idx < |q.subs| && q.subs[idx].demand > 0 && id in q.ready
    ensures var r := Offer(q, id, idx, ok);
            |r.subs| < |q.subs| || (|r.subs| == |q.subs| && |r.ready| < |q.ready|)
  {
    var s := q.subs[idx];
    var subs := q.subs[idx := s.(demand := s.demand - 1)];
    assert subs[idx] in subs && subs[idx].id == s.id;
  }

  /** Why the loop ends although a failed send puts messages back: a failure costs a subscriber. */
  lemma ServeShrinks(q: Leader, ok: bool)
    requires CanServe(q)
    ensures var r := Serve(q, ok);
            |r.subs| < |q.subs| || (|r.subs| == |q.subs| && |r.ready| < |q.ready|)
  {
    hide Offer;
    OfferShrinks(q, Least(q.ready), PickReady(q.subs, q.rr).value, ok);
  }

  /** Drains complete only when `ready` runs dry. */
  function ServeAll(q: Leader, ok: nat -> bool, n: nat): Leader
    decreases |q.subs|, |q.ready|
  {
    if q.ready == {} then q.(subs := CompleteDrains(q.subs))
    else if PickReady(q.subs, q.rr).None? then q
    else
      ServeShrinks(q, ok(n));
      ServeAll(Serve(q, ok(n)), ok, n + 1)
  }

  /** What follows every mailbox message and every completion. */
  function AndServe(q: Leader, p: Policy, now: nat, ok: nat -> bool): Leader {
    ServeAll(ExpireHead(q, p, now), ok, 0)
  }

  // ---------------------------------------------------------------- steps

  datatype Step =
    | Receive(msg: Message, resident: nat, ms: nat, now: nat, ok: nat -> bool)
    | LogCommits(tag: nat)
    | LogFails(tag: nat)
    | Complete(tag: nat, now: nat, ok: nat -> bool)

  predicate Enabled(q: Leader, step: Step) {
    match step
    case Receive(_, _, _, _, _) => true
    case LogCommits(tag) => tag in q.proposals && q.proposals[tag].status.Waiting?
    case LogFails(tag) => tag in q.proposals && q.proposals[tag].status.Waiting?
    case Complete(tag, _, _) => tag in q.proposals && !q.proposals[tag].status.Waiting?
  }

  function Next(q: Leader, p: Policy, step: Step): Leader
    requires Enabled(q, step)
  {
    match step
    case Receive(msg, resident, ms, now, ok) => AndServe(Mail(q, p, msg, resident, ms), p, now, ok)
    case LogCommits(tag) => Commits(q, tag)
    case LogFails(tag) => Fails(q, tag)
    case Complete(tag, now, ok) => AndServe(Completed(q, tag), p, now, ok)
  }

  /** A leadership term: from applied state, any interleaving of mail, log and completions. */
  ghost predicate IsTerm(qs: seq<Leader>, p: Policy, steps: seq<Step>) {
    && |qs| == |steps| + 1 && qs[0] == Begin(qs[0].applied)
    && forall i :: 0 <= i < |steps| ==> Enabled(qs[i], steps[i]) && qs[i + 1] == Next(qs[i], p, steps[i])
  }
}
