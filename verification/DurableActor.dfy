/**
 * The durable queue actor and the store's writer as they run (ramqp-broker/src/durable.rs:56-401,
 * ramqp-broker/src/store.rs:191-204 and 397-532): fields and tables updated in place, and the scan, batch,
 * eviction, retain, expiry and dispatch loops, each proved against the specification.
 */
module DurableActor {
  import opened Collections
  import opened Dispatch
  import opened TransientQueue
  import opened Durable
  import opened DurableSafety

  class Actor {
    const policy: Policy
    var disk: map<nat, Row>
    /** Operations on their way to the writer. */
    var chan: seq<Op>
    var deferred: set<nat>
    var s: Shelf
    var f: Front
    ghost var h: History

    ghost function State(): Durable
      reads this
    {
      Durable(disk, chan, deferred, s, f, true, h)
    }

    ghost predicate Valid()
      reads this
    {
      Inv(State())
    }

    /** Start over what a crash left on disk. */
    constructor (p: Policy, ghost crashed: Durable, table: map<nat, Row>)
      requires Inv(crashed) && !crashed.up && crashed.disk == table && crashed.f == NO_FRONT
      ensures policy == p && Valid() && IsMax(s.nextId, table.Keys)
      ensures State() == Next(crashed, p, Recover(s.nextId))
    {
      policy, disk, chan, deferred := p, table, [], {};
      var scan := Scan(table);
      s := Shelf(scan.ready, map[], map[], scan.failures, scan.nextId, scan.bytes, 0);
      f := Front([], 0, 0, 0, []);
      h := crashed.h;
      new;
      assert State() == Next(crashed, p, Recover(s.nextId));
      RecoverKeeps(crashed, s.nextId);
    }

    method Submit(op: Op)
      modifies `chan
      ensures chan == old(chan) + [op]
    {
      chan := chan + [op];
    }

    method SubmitRemove(id: nat)
      modifies `chan, `h
      ensures State() == RemoveSubmitted(old(State()), id)
    {
      Submit(Remove(id));
      h := h.(removed := h.removed + TokenOf(h, id));
    }

    /** Dead-letter a message, and remove it at once or when its copy's fate is known. */
    method DeadLetterThenRemove(id: nat, later: bool)
      modifies `chan, `h, `deferred
      ensures State() == DeadLettered(old(State()), id, later)
    {
      if later { deferred := deferred + {id}; } else { SubmitRemove(id); }
    }

    method TakeHead(id: nat, later: bool)
      requires id in s.ready
      modifies this
      ensures State() == DeadLettered(LeavesReady(old(State()), id), id, later)
    {
      hide RemoveSubmitted;
      s := s.(bytes := SatSub(s.bytes, s.ready[id].len));
      s := s.(ready := s.ready - {id});
      s := s.(failures := s.failures - {id});
      DeadLetterThenRemove(id, later);
    }

    method EvictForRoom(len: nat, later: nat -> bool) returns (over: bool)
      modifies this
      ensures State() == RoomMade(old(State()), policy, len, later) && over == Overfull(State(), policy, len)
    {
      hide DeadLettered, LeavesReady;
      over := |s.ready| + |s.inflight| + s.pending + f.reserved >= policy.maxLen ||
              (policy.maxBytes.Some? && s.bytes + len > policy.maxBytes.value);
      if over && policy.dropHead {
        while over && s.ready != map[]
          invariant over == Overfull(State(), policy, len)
          invariant RoomMade(State(), policy, len, later) == RoomMade(old(State()), policy, len, later)
          decreases |s.ready|
        {
          var id := Least(s.ready.Keys);
          LeavesShrinks(State(), id, later(id));
          TakeHead(id, later(id));
          over := |s.ready| + |s.inflight| + s.pending + f.reserved >= policy.maxLen ||
                  (policy.maxBytes.Some? && s.bytes + len > policy.maxBytes.value);
        }
      }
    }

    /** Submit an insert, or refuse at a bound. */
    method PublishBody(body: Bytes, fromReserved: bool, ms: nat, later: nat -> bool) returns (refused: bool)
      modifies this
      ensures State() == Publishes(old(State()), policy, body, fromReserved, ms, later)
      ensures refused <==> TurnsAway(old(State()), policy, |body|, fromReserved, later)
    {
      hide RoomMade, Overfull, Accepted;
      if fromReserved { f := f.(reserved := SatSub(f.reserved, 1)); }
      var over := EvictForRoom(|body|, later);
      refused := over && !fromReserved;
      if !refused { Accept(body, ms); }
    }

    method Accept(body: Bytes, ms: nat)
      modifies this
      ensures State() == Accepted(old(State()), body, ms)
    {
      ghost var d := State();
      var id := s.nextId + 1;
      s := s.(nextId := id);
      s := s.(pending := s.pending + 1);
      s := s.(bytes := s.bytes + |body|);
      s := s.(commits := s.commits[id := Pending(ms, body, Waiting)]);
      chan := chan + [Insert(id, ms, body)];
      h := Accepted(d, body, ms).h;
      assert State().s == Accepted(d, body, ms).s;
      assert State().chan == Accepted(d, body, ms).chan;
    }

    method TakeHeld(id: nat)
      requires id in s.inflight
      modifies this
      ensures State() == LeavesHeld(old(State()), id)
    {
      s := s.(bytes := SatSub(s.bytes, s.inflight[id].slot.len));
      s := s.(inflight := s.inflight - {id});
      s := s.(failures := s.failures - {id});
    }

    method PutBack(id: nat)
      requires id in s.inflight
      modifies this
      ensures State() == Requeued(old(State()), id)
    {
      s := s.(ready := s.ready[id := s.inflight[id].slot]);
      s := s.(inflight := s.inflight - {id});
    }

    method SettleMessage(sub: nat, id: nat, outcome: Outcome, later: nat -> bool) returns (skip: bool)
      modifies this
      ensures State() == Settles(old(State()), policy, sub, id, outcome, later)
      ensures skip <==> old(id !in s.inflight || s.inflight[id].sub != sub)
    {
      hide LeavesHeld, RemoveSubmitted, DeadLettered, Requeued;
      if id !in s.inflight || s.inflight[id].sub != sub { return true; }
      skip := false;
      match outcome
      case Ack | Drop =>
        TakeHeld(id);
        SubmitRemove(id);
      case Requeue => PutBack(id);
      case RequeueFailed =>
        var count := (if id in s.failures then s.failures[id] else 0) + 1;
        if AttemptsExhausted(policy, count) {
          TakeHeld(id);
          DeadLetterThenRemove(id, later(id));
        } else {
          var counted := s.failures[id := count];
          PutBack(id);
          s := s.(failures := counted);
          Submit(Fail(id));
        }
    }

    /** Split off what a subscriber holds. */
    method Retain(held: map<nat, Lease>, sub: nat) returns (kept: map<nat, Lease>, back: map<nat, Slot>)
      ensures kept == held - HeldBy(held, sub)
      ensures back == map id | id in HeldBy(held, sub) :: held[id].slot
    {
      kept, back := held, map[];
      var todo := held;
      while todo != map[]
        invariant todo.Keys <= held.Keys && forall id :: id in todo ==> todo[id] == held[id]
        invariant forall id :: id in back <==> id in held && id !in todo && held[id].sub == sub
        invariant forall id :: id in back ==> back[id] == held[id].slot
        invariant kept == held - back.Keys
        decreases |todo|
      {
        var id :| id in todo;
        if todo[id].sub == sub { kept, back := kept - {id}, back[id := todo[id].slot]; }
        todo := todo - {id};
      }
      assert back.Keys == HeldBy(held, sub);
    }

    method DropSubscriber(sub: nat)
      modifies this
      ensures State() == Departed(old(State()), sub)
    {
      var kept, back := Retain(s.inflight, sub);
      f := f.(subs := Without(f.subs, sub));
      s := s.(inflight := kept);
      s := s.(ready := s.ready + back);
    }

    method HandleArm(msg: Message, ms: nat, later: nat -> bool) returns (reply: bool, skip: bool)
      modifies this
      ensures State() == Mail(old(State()), policy, msg, ms, later)
      ensures skip <==> BackToMailbox(old(State()), policy, msg, later)
      ensures msg.Reserve? ==> (reply <==> Reservable(old(State()), policy, msg.count))
    {
      hide Publishes, Settles, Departed, TurnsAway;
      reply, skip := true, false;
      match msg {
        case Publish(body) => skip := PublishBody(body, false, ms, later);
        case PublishReserved(body) => var _ := PublishBody(body, true, ms, later);
        case Reserve(count) =>
          reply := policy.dropHead || |s.ready| + |s.inflight| + s.pending + f.reserved + count <= policy.maxLen;
          if reply && !policy.dropHead { f := f.(reserved := f.reserved + count); }
        case Unreserve(count) => f := f.(reserved := SatSub(f.reserved, count));
        case Subscribe(conn, channel, handle, gen) =>
          f := f.(nextSubId := f.nextSubId + 1);
          f := f.(subs := f.subs + [Subscriber(f.nextSubId, conn, channel, handle, gen, 0, false)]);
        case Demand(sub, credit, drain) =>
          var i := IndexOf(f.subs, sub);
          if i.Some? { f := f.(subs := f.subs[i.value := Grant(f.subs[i.value], credit, drain)]); }
        case Settle(sub, id, outcome) => skip := SettleMessage(sub, id, outcome, later);
        case Unsubscribe(sub) => DropSubscriber(sub);
        case Stats =>
      }
    }

    /** A commit reaches the actor. The pending count cannot underflow. */
    method FinishCommit(id: nat)
      requires Valid() && id in s.commits && !s.commits[id].status.Waiting?
      modifies this
      ensures Valid() && State() == Completed(old(State()), id)
    {
      hide Inv;
      CompletedKeeps(State(), id);
      var x := s.commits[id];
      s := s.(pending := s.pending - 1);
      s := s.(commits := s.commits - {id});
      if x.status.Kept? {
        s := s.(ready := s.ready[id := Slot(x.ms, |x.body|)]);
        h := h.(confirmed := h.confirmed + TokenOf(h, id));
      } else {
        s := s.(bytes := SatSub(s.bytes, |x.body|));
      }
    }

    method Expire(now: nat, later: nat -> bool)
      modifies this
      ensures State() == ExpireHeads(old(State()), policy, now, later)
    {
      hide DeadLettered, LeavesReady;
      while s.ready != map[] && IsExpired(policy, s.ready[Least(s.ready.Keys)], now)
        invariant ExpireHeads(State(), policy, now, later) == ExpireHeads(old(State()), policy, now, later)
        decreases |s.ready|
      {
        var id := Least(s.ready.Keys);
        LeavesShrinks(State(), id, later(id));
        TakeHead(id, later(id));
      }
    }

    method OfferTo(id: nat, idx: nat, ok: bool)
      requires id in s.ready && id in disk && idx < |f.subs| && f.subs[idx].demand > 0
      modifies this
      ensures State() == Offer(old(State()), id, idx, ok)
    {
      hide Departed;
      var sub := f.subs[idx];
      f := f.(rr := (idx + 1) % |f.subs|);
      assert f.rr == After(idx, |f.subs|);
      f := f.(subs := f.subs[idx := sub.(demand := sub.demand - 1)]);
      if ok {
        s := s.(inflight := s.inflight[id := Lease(sub.id, s.ready[id])]);
        s := s.(ready := s.ready - {id});
        f := f.(sent := f.sent + [Delivery(sub.id, sub.conn, sub.channel, sub.handle, sub.gen, id, disk[id].body)]);
      } else {
        DropSubscriber(sub.id);
      }
    }

    method DispatchReady(ok: nat -> bool)
      requires Valid()
      modifies this
      ensures Valid() && State() == ServeAll(old(State()), ok, 0)
    {
      hide Inv, Offer;
      ServeAllKeeps(State(), ok, 0);
      var n := 0;
      while s.ready != map[]
        invariant Valid() && ServeAll(State(), ok, n) == ServeAll(old(State()), ok, 0)
        decreases |f.subs|, |s.ready|
      {
        if PickReady(f.subs, f.rr).None? { return; }
        var id, idx := Least(s.ready.Keys), PickReady(f.subs, f.rr).value;
        OfferShrinks(State(), id, idx, ok(n));
        OfferKeeps(State(), id, idx, ok(n));
        OfferTo(id, idx, ok(n));
        n := n + 1;
      }
      f := f.(subs := CompleteDrains(f.subs));
    }

    /** One turn of the actor's loop on a mailbox message. */
    method OnMail(msg: Message, ms: nat, now: nat, ok: nat -> bool, later: nat -> bool) returns (reply: bool)
      requires Valid()
      modifies this
      ensures Valid() && State() == Next(old(State()), policy, Receive(msg, ms, now, ok, later))
      ensures msg.Reserve? ==> (reply <==> Reservable(old(State()), policy, msg.count))
    {
      hide Inv, Mail, ExpireHeads, ServeAll, BackToMailbox;
      MailKeeps(State(), policy, msg, ms, later);
      var skip;
      reply, skip := HandleArm(msg, ms, later);
      if !skip {
        ExpireKeeps(State(), policy, now, later);
        Expire(now, later);
        DispatchReady(ok);
      }
    }

    /** One turn of the actor's loop on a finished commit. */
    method OnCommit(id: nat, now: nat, ok: nat -> bool, later: nat -> bool)
      requires Valid() && id in s.commits && !s.commits[id].status.Waiting?
      modifies this
      ensures Valid() && State() == Next(old(State()), policy, Complete(id, now, ok, later))
    {
      hide Inv, Completed, ExpireHeads, ServeAll;
      FinishCommit(id);
      ExpireKeeps(State(), policy, now, later);
      Expire(now, later);
      DispatchReady(ok);
    }

    /** The writer: take a burst, apply it in one transaction that commits or aborts, and signal its publishes. */
    method WriteBurst(n: nat, committed: bool)
      requires Valid() && n <= |chan| && n <= COMMIT_BATCH_MAX
      modifies this
      ensures Valid() && State() == WriteBatch(old(State()), n, committed)
    {
      hide Inv;
      WriteBatchKeeps(State(), n, committed);
      var batch := chan[..n];
      for i := 0 to n
        invariant chan == old(chan)[i..]
        invariant WriteBatch(State(), n - i, committed) == WriteBatch(old(State()), n, committed)
      {
        var op := batch[i];
        assert chan[0] == op;
        if committed { disk := Applied(disk, op); }
        s := s.(commits := Signalled(s.commits, op, committed));
        chan := chan[1..];
      }
    }
  }

  /** What the recovery scan returns. */
  datatype ScanResult = ScanResult(ready: map<nat, Slot>, failures: map<nat, nat>, nextId: nat, bytes: nat)

  lemma RowsSum(rows: map<nat, Row>, id: nat)
    requires id in rows
    ensures SumMap(rows, RowSize) == |rows[id].body| + SumMap(rows - {id}, RowSize)
  {
    SumMapRemove(rows, id, RowSize);
  }

  lemma NoRows(rows: map<nat, Row>)
    ensures rows == map[] ==> SumMap(rows, RowSize) == 0
  {
  }

  /** The recovery scan: every stored message, the greatest id, and the bytes held. */
  method Scan(table: map<nat, Row>) returns (r: ScanResult)
    ensures IsMax(r.nextId, table.Keys)
    ensures var s := Scanned(table, r.nextId); r == ScanResult(s.ready, s.failures, s.nextId, s.bytes)
  {
    var top, bytes := Totals(table);
    r := ScanResult(map id | id in table :: Slot(table[id].ms, |table[id].body|),
                    map id | id in table && table[id].failures > 0 :: table[id].failures, top, bytes);
  }

  /** The greatest id of the table, and the bytes it holds. */
  method Totals(table: map<nat, Row>) returns (top: nat, bytes: nat)
    ensures IsMax(top, table.Keys) && bytes == SumMap(table, RowSize)
  {
    hide SumMap;
    top, bytes := 0, 0;
    var todo := table;
    while todo != map[]
      invariant todo.Keys <= table.Keys && forall id :: id in todo ==> todo[id] == table[id]
      invariant bytes + SumMap(todo, RowSize) == SumMap(table, RowSize)
      invariant forall id :: id in table && id !in todo ==> id <= top
      invariant if todo == table then top == 0 else top in table
      decreases |todo|
    {
      var id :| id in todo;
      RowsSum(todo, id);
      if id > top { top := id; }
      bytes := bytes + |todo[id].body|;
      todo := todo - {id};
      assert id in table && id !in todo;
    }
    NoRows(todo);
  }
}
