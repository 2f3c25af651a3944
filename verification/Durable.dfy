/**
 * The durable queue actor over the group-commit store (ramqp-broker/src/durable.rs, ramqp-broker/src/store.rs):
 * messages live in a table on disk; the actor's inserts, removes and failure counts go through a channel to
 * a writer that commits them in batches, or aborts a batch; a crash keeps the table and loses the rest.
 *
 * A `History` records every publish ever taken with the id and body it was given, which of them were
 * confirmed, for which a remove was submitted, and which one an id currently stands for.
 */
module Durable {
  import opened Collections
  import opened Dispatch
  import opened TransientQueue

  const COMMIT_BATCH_MAX: nat := 1024

  datatype Row = Row(failures: nat, ms: nat, body: Bytes)

  datatype Op = Insert(id: nat, ms: nat, body: Bytes) | Remove(id: nat) | Fail(id: nat)

  datatype Slot = Slot(ms: nat, len: nat)

  datatype Lease = Lease(sub: nat, slot: Slot)

  datatype Status = Waiting | Kept | Lost

  /** A publish whose commit has not reached the actor. */
  datatype Pending = Pending(ms: nat, body: Bytes, status: Status)

  datatype Shelf = Shelf(
    ready: map<nat, Slot>, inflight: map<nat, Lease>, commits: map<nat, Pending>, failures: map<nat, nat>,
    nextId: nat, bytes: nat, pending: nat)

  datatype Front = Front(subs: seq<Subscriber>, reserved: nat, nextSubId: nat, rr: nat, sent: seq<Delivery>)

  datatype Told = Told(id: nat, body: Bytes)

  datatype History = History(published: seq<Told>, confirmed: set<nat>, removed: set<nat>, current: map<nat, nat>)

  /** `deferred`: removes that wait for a dead-letter copy to be safe. */
  datatype Durable = Durable(
    disk: map<nat, Row>, chan: seq<Op>, deferred: set<nat>, s: Shelf, f: Front, up: bool, h: History)

  const NO_SHELF := Shelf(map[], map[], map[], map[], 0, 0, 0)
  const NO_FRONT := Front([], 0, 0, 0, [])
  const NEW_STORE := Durable(map[], [], {}, NO_SHELF, NO_FRONT, true, History([], {}, {}, map[]))

  // ---------------------------------------------------------------- the store

  function Applied(disk: map<nat, Row>, op: Op): map<nat, Row> {
    match op
    case Insert(id, ms, body) => disk[id := Row(0, ms, body)]
    case Remove(id) => disk - {id}
    case Fail(id) => if id in disk then disk[id := disk[id].(failures := disk[id].failures + 1)] else disk
  }

  function Signalled(commits: map<nat, Pending>, op: Op, ok: bool): map<nat, Pending> {
    if op.Insert? && op.id in commits
    then commits[op.id := commits[op.id].(status := if ok then Kept else Lost)]
    else commits
  }

  /** The oldest submitted operation is committed, or lost with an aborted batch. */
  function WriteOne(d: Durable, ok: bool): Durable
    requires d.chan != []
  {
    var op := d.chan[0];
    d.(disk := if ok then Applied(d.disk, op) else d.disk,
       chan := d.chan[1..],
       s := d.s.(commits := Signalled(d.s.commits, op, ok)))
  }

  /** A batch of `n` operations: all of them committed, or none. */
  function WriteBatch(d: Durable, n: nat, ok: bool): Durable
    requires n <= |d.chan|
    decreases n
  {
    if n == 0 then d else WriteBatch(WriteOne(d, ok), n - 1, ok)
  }

  // ---------------------------------------------------------------- single moves

  function Submitted(d: Durable, op: Op): Durable {
    d.(chan := d.chan + [op])
  }

  /** The token an id stands for. */
  function TokenOf(h: History, id: nat): set<nat> {
    if id in h.current then {h.current[id]} else {}
  }

  function RemoveSubmitted(d: Durable, id: nat): Durable {
    Submitted(d, Remove(id)).(h := d.h.(removed := d.h.removed + TokenOf(d.h, id)))
  }

  /** Dead-letter, then remove: at once, or once the copy's fate is known. */
  function DeadLettered(d: Durable, id: nat, later: bool): Durable {
    if later then d.(deferred := d.deferred + {id}) else RemoveSubmitted(d, id)
  }

  function LeavesReady(d: Durable, id: nat): Durable
    requires id in d.s.ready
  {
    d.(s := d.s.(ready := d.s.ready - {id}, failures := d.s.failures - {id},
                 bytes := SatSub(d.s.bytes, d.s.ready[id].len)))
  }

  function LeavesHeld(d: Durable, id: nat): Durable
    requires id in d.s.inflight
  {
    d.(s := d.s.(inflight := d.s.inflight - {id}, failures := d.s.failures - {id},
                 bytes := SatSub(d.s.bytes, d.s.inflight[id].slot.len)))
  }

  function Requeued(d: Durable, id: nat): Durable
    requires id in d.s.inflight
  {
    d.(s := d.s.(inflight := d.s.inflight - {id}, ready := d.s.ready[id := d.s.inflight[id].slot]))
  }

  function Accepted(d: Durable, body: Bytes, ms: nat): Durable {
    var id := d.s.nextId + 1;
    Submitted(d, Insert(id, ms, body)).(
      s := d.s.(nextId := id, pending := d.s.pending + 1, bytes := d.s.bytes + |body|,
                commits := d.s.commits[id := Pending(ms, body, Waiting)]),
      h := d.h.(published := d.h.published + [Told(id, body)], current := d.h.current[id := |d.h.published|]))
  }

  function Subs(d: Durable, subs: seq<Subscriber>): Durable {
    d.(f := d.f.(subs := subs))
  }

  function HeldBy(inflight: map<nat, Lease>, sub: nat): set<nat> {
    set id | id in inflight && inflight[id].sub == sub
  }

  /** A subscriber goes, and what it held is ready again. */
  function Departed(d: Durable, sub: nat): Durable {
    var back := HeldBy(d.s.inflight, sub);
    Subs(d, Without(d.f.subs, sub)).(
      s := d.s.(inflight := d.s.inflight - back,
                ready := d.s.ready + map id | id in back :: d.s.inflight[id].slot))
  }

  // ---------------------------------------------------------------- mailbox arms

  predicate Overfull(d: Durable, p: Policy, len: nat) {
    || |d.s.ready| + |d.s.inflight| + d.s.pending + d.f.reserved >= p.maxLen
    || (p.maxBytes.Some? && d.s.bytes + len > p.maxBytes.value)
  }

  /** The oldest ready message is dead-lettered; `later(id)` is whether a copy rides to a dead-letter queue. */
  function DropHead(d: Durable, later: nat -> bool): Durable
    requires d.s.ready != map[]
  {
    var id := Least(d.s.ready.Keys);
    DeadLettered(LeavesReady(d, id), id, later(id))
  }

  lemma LeavesShrinks(d: Durable, id: nat, later: bool)
    requires id in d.s.ready
    ensures |DeadLettered(LeavesReady(d, id), id, later).s.ready| < |d.s.ready|
  {
    OneLess(d.s.ready, id);
  }

  function RoomMade(d: Durable, p: Policy, len: nat, later: nat -> bool): Durable
    decreases |d.s.ready|
  {
    if p.dropHead && Overfull(d, p, len) && d.s.ready != map[] then
      LeavesShrinks(d, Least(d.s.ready.Keys), later(Least(d.s.ready.Keys)));
      RoomMade(DropHead(d, later), p, len, later)
    else d
  }

  function SlotTaken(d: Durable, fromReserved: bool): Durable {
    if fromReserved then d.(f := d.f.(reserved := SatSub(d.f.reserved, 1))) else d
  }

  predicate TurnsAway(d: Durable, p: Policy, len: nat, fromReserved: bool, later: nat -> bool) {
    !fromReserved && Overfull(RoomMade(SlotTaken(d, fromReserved), p, len, later), p, len)
  }

  function Publishes(d: Durable, p: Policy, body: Bytes, fromReserved: bool, ms: nat, later: nat -> bool): Durable {
    var room := RoomMade(SlotTaken(d, fromReserved), p, |body|, later);
    if TurnsAway(d, p, |body|, fromReserved, later) then room else Accepted(room, body, ms)
  }

  function Counted(d: Durable, id: nat): nat {
    if id in d.s.failures then d.s.failures[id] else 0
  }

  function Settles(d: Durable, p: Policy, sub: nat, id: nat, outcome: Outcome, later: nat -> bool): Durable {
    if id !in d.s.inflight || d.s.inflight[id].sub != sub then d else
      match outcome
      case Ack => RemoveSubmitted(LeavesHeld(d, id), id)
      case Drop => RemoveSubmitted(LeavesHeld(d, id), id)
      case Requeue => Requeued(d, id)
      case RequeueFailed =>
        if AttemptsExhausted(p, Counted(d, id) + 1) then DeadLettered(LeavesHeld(d, id), id, later(id))
        else
          var r := Requeued(d, id);
          Submitted(r.(s := r.s.(failures := d.s.failures[id := Counted(d, id) + 1])), Fail(id))
  }

  predicate Reservable(d: Durable, p: Policy, count: nat) {
    p.dropHead || |d.s.ready| + |d.s.inflight| + d.s.pending + d.f.reserved + count <= p.maxLen
  }

  function Mail(d: Durable, p: Policy, msg: Message, ms: nat, later: nat -> bool): Durable {
    match msg
    case Publish(body) => Publishes(d, p, body, false, ms, later)
    case PublishReserved(body) => Publishes(d, p, body, true, ms, later)
    case Reserve(count) =>
      if Reservable(d, p, count) && !p.dropHead then d.(f := d.f.(reserved := d.f.reserved + count)) else d
    case Unreserve(count) => d.(f := d.f.(reserved := SatSub(d.f.reserved, count)))
    case Subscribe(conn, channel, handle, gen) =>
      d.(f := d.f.(nextSubId := d.f.nextSubId + 1,
                   subs := d.f.subs + [Subscriber(d.f.nextSubId + 1, conn, channel, handle, gen, 0, false)]))
    case Demand(sub, credit, drain) =>
      (match IndexOf(d.f.subs, sub)
       case None => d
       case Some(i) => Subs(d, d.f.subs[i := Grant(d.f.subs[i], credit, drain)]))
    case Settle(sub, id, outcome) => Settles(d, p, sub, id, outcome, later)
    case Unsubscribe(sub) => Departed(d, sub)
    case Stats => d
  }

  /** The two arms that go back to the mailbox without dispatching. */
  predicate BackToMailbox(d: Durable, p: Policy, msg: Message, later: nat -> bool) {
    match msg
    case Publish(body) => TurnsAway(d, p, |body|, false, later)
    case Settle(sub, id, _) => id !in d.s.inflight || d.s.inflight[id].sub != sub
    case _ => false
  }

  /** A commit reaches the actor: the publish is confirmed, or refused. */
  function Completed(d: Durable, id: nat): Durable
    requires id in d.s.commits
  {
    var x := d.s.commits[id];
    var s := d.s.(commits := d.s.commits - {id}, pending := SatSub(d.s.pending, 1));
    if x.status.Kept? then
      d.(s := s.(ready := s.ready[id := Slot(x.ms, |x.body|)]),
         h := d.h.(confirmed := d.h.confirmed + TokenOf(d.h, id)))
    else d.(s := s.(bytes := SatSub(s.bytes, |x.body|)))
  }

  // ---------------------------------------------------------------- dispatch

  predicate IsExpired(p: Policy, slot: Slot, now: nat) {
    p.ttlMs.Some? && SatSub(now, slot.ms) >= p.ttlMs.value
  }

  function ExpireHeads(d: Durable, p: Policy, now: nat, later: nat -> bool): Durable
    decreases |d.s.ready|
  {
    if d.s.ready != map[] && IsExpired(p, d.s.ready[Least(d.s.ready.Keys)], now) then
      LeavesShrinks(d, Least(d.s.ready.Keys), later(Least(d.s.ready.Keys)));
      ExpireHeads(DropHead(d, later), p, now, later)
    else d
  }

  predicate CanServe(d: Durable) {
    d.s.ready != map[] && PickReady(d.f.subs, d.f.rr).Some?
  }

  /** Offer `id` to the subscriber at `idx`; `ok` is whether its connection took it. */
  function Offer(d: Durable, id: nat, idx: nat, ok: bool): Durable
    requires id in d.s.ready && idx < |d.f.subs| && d.f.subs[idx].demand > 0
  {
    if id !in d.disk then d.(s := d.s.(ready := d.s.ready - {id})) else
      var sub := d.f.subs[idx];
      var d1 := d.(f := d.f.(subs := d.f.subs[idx := sub.(demand := sub.demand - 1)], rr := After(idx, |d.f.subs|)));
      if ok then
        d1.(s := d.s.(ready := d.s.ready - {id}, inflight := d.s.inflight[id := Lease(sub.id, d.s.ready[id])]),
            f := d1.f.(sent := d.f.sent + [Delivery(sub.id, sub.conn, sub.channel, sub.handle, sub.gen, id,
                                                    d.disk[id].body)]))
      else Departed(d1, sub.id)
  }

  function Serve(d: Durable, ok: bool): Durable
    requires CanServe(d)
  {
    Offer(d, Least(d.s.ready.Keys), PickReady(d.f.subs, d.f.rr).value, ok)
  }

  lemma DepartedShrinks(d: Durable, sub: nat)
    requires exists i :: 0 <= i < |d.f.subs| && d.f.subs[i].id == sub
    ensures |Departed(d, sub).f.subs| < |d.f.subs|
  {
    var i :| 0 <= i < |d.f.subs| && d.f.subs[i].id == sub;
    assert d.f.subs[i] in d.f.subs;
  }

  lemma OneLess(ready: map<nat, Slot>, id: nat)
    requires id in ready
    ensures |ready - {id}| < |ready|
  {
    var rest := ready - {id};
    assert rest.Keys == ready.Keys - {id};
    assert |rest| == |rest.Keys| && |ready| == |ready.Keys|;
  }

  lemma OfferShrinks(d: Durable, id: nat, idx: nat, ok: bool)
    requires id in d.s.ready && idx < |d.f.subs| && d.f.subs[idx].demand > 0
    ensures var r := Offer(d, id, idx, ok);
            |r.f.subs| < |d.f.subs| || (|r.f.subs| == |d.f.subs| && |r.s.ready| < |d.s.ready|)
  {
    hide Departed, After;
    OneLess(d.s.ready, id);
    var sub := d.f.subs[idx];
    var d1 := d.(f := d.f.(subs := d.f.subs[idx := sub.(demand := sub.demand - 1)], rr := After(idx, |d.f.subs|)));
    assert d1.f.subs[idx].id == sub.id;
    DepartedShrinks(d1, sub.id);
  }

  function ServeAll(d: Durable, ok: nat -> bool, n: nat): Durable
    decreases |d.f.subs|, |d.s.ready|
  {
    if d.s.ready == map[] then Subs(d, CompleteDrains(d.f.subs))
    else if PickReady(d.f.subs, d.f.rr).None? then d
    else
      OfferShrinks(d, Least(d.s.ready.Keys), PickReady(d.f.subs, d.f.rr).value, ok(n));
      ServeAll(Serve(d, ok(n)), ok, n + 1)
  }

  function Dispatched(d: Durable, p: Policy, now: nat, ok: nat -> bool, later: nat -> bool): Durable {
    ServeAll(ExpireHeads(d, p, now, later), ok, 0)
  }

  // ---------------------------------------------------------------- recovery

  ghost predicate IsMax(n: nat, ids: set<nat>) {
    (ids == {} ==> n == 0) && (ids != {} ==> n in ids) && forall i :: i in ids ==> i <= n
  }

  function RowSize(r: Row): nat { |r.body| }

  /** What the recovery scan builds out of the table; `top` is the greatest id there. */
  ghost function Scanned(disk: map<nat, Row>, top: nat): Shelf {
    Shelf(map id | id in disk :: Slot(disk[id].ms, |disk[id].body|), map[], map[],
          map id | id in disk && disk[id].failures > 0 :: disk[id].failures,
          top, SumMap(disk, RowSize), 0)
  }

  // ---------------------------------------------------------------- steps

  datatype Step =
    | Receive(msg: Message, ms: nat, now: nat, ok: nat -> bool, later: nat -> bool)
    | Complete(id: nat, now: nat, ok: nat -> bool, later: nat -> bool)
    | SubmitDeferred(id: nat)
    | Write(n: nat, committed: bool)
    | Crash
    | Recover(top: nat)

  ghost predicate Enabled(d: Durable, step: Step) {
    match step
    case Receive(_, _, _, _, _) => d.up
    case Complete(id, _, _, _) => d.up && id in d.s.commits && !d.s.commits[id].status.Waiting?
    case SubmitDeferred(id) => d.up && id in d.deferred
    case Write(n, _) => d.up && n <= |d.chan| && n <= COMMIT_BATCH_MAX
    case Crash => d.up
    case Recover(top) => !d.up && IsMax(top, d.disk.Keys)
  }

  ghost function Next(d: Durable, p: Policy, step: Step): Durable
    requires Enabled(d, step)
  {
    match step
    case Receive(msg, ms, now, ok, later) =>
      var r := Mail(d, p, msg, ms, later);
      if BackToMailbox(d, p, msg, later) then r else Dispatched(r, p, now, ok, later)
    case Complete(id, now, ok, later) => Dispatched(Completed(d, id), p, now, ok, later)
    case SubmitDeferred(id) => RemoveSubmitted(d.(deferred := d.deferred - {id}), id)
    case Write(n, ok) => WriteBatch(d, n, ok)
    case Crash => Durable(d.disk, [], {}, NO_SHELF, NO_FRONT, false, d.h)
    case Recover(top) => d.(s := Scanned(d.disk, top), up := true)
  }

  ghost predicate IsRun(ds: seq<Durable>, p: Policy, steps: seq<Step>) {
    && |ds| == |steps| + 1 && ds[0] == NEW_STORE
    && forall i :: 0 <= i < |steps| ==> Enabled(ds[i], steps[i]) && ds[i + 1] == Next(ds[i], p, steps[i])
  }
}
