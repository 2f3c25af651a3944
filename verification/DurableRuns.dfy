/** Why durable messages leave, and what each dispatch delivers (ramqp-broker/src/durable.rs). */
module DurableRuns {
  import opened Collections
  import opened Dispatch
  import opened TransientQueue
  import opened Durable
  import opened DurableSafety

  /** A remove has been submitted, or will be. */
  predicate GoesAway(d: Durable, id: nat) {
    id in d.deferred || Remove(id) in d.chan
  }

  /** What makes a message leave: its owner's word, the delivery limit, its age, or a newcomer at a bound. */
  predicate Cause(d: Durable, p: Policy, step: Step, id: nat) {
    match step
    case Receive(msg, _, now, _, _) =>
      || (id in d.s.ready && IsExpired(p, d.s.ready[id], now))
      || (id in d.s.inflight && IsExpired(p, d.s.inflight[id].slot, now))
      || ((msg.Publish? || msg.PublishReserved?) && p.dropHead && id in d.s.ready &&
          Overfull(SlotTaken(d, msg.PublishReserved?), p, |msg.body|))
      || (msg.Settle? && msg.msgId == id && Finishes(d, p, msg.sub, id, msg.outcome))
    case Complete(done, now, _, _) =>
      || (id in d.s.ready && IsExpired(p, d.s.ready[id], now))
      || (id == done && id in d.s.commits && IsExpired(p, Slot(d.s.commits[id].ms, 0), now))
    case _ => false
  }

  predicate Finishes(d: Durable, p: Policy, sub: nat, id: nat, outcome: Outcome) {
    && id in d.s.inflight && d.s.inflight[id].sub == sub
    && (outcome.Ack? || outcome.Drop? || (outcome.RequeueFailed? && AttemptsExhausted(p, Counted(d, id) + 1)))
  }

  // ---------------------------------------------------------------- leaving

  lemma OutOnly(d: Durable, id: nat, later: bool, x: nat)
    ensures GoesAway(DeadLettered(d, id, later), x) ==> GoesAway(d, x) || x == id
    ensures GoesAway(RemoveSubmitted(d, id), x) ==> GoesAway(d, x) || x == id
    ensures DeadLettered(d, id, later).s == d.s && RemoveSubmitted(d, id).s == d.s
    ensures DeadLettered(d, id, later).f == d.f
  {
  }

  lemma HeadOnly(d: Durable, later: nat -> bool, x: nat)
    requires d.s.ready != map[]
    ensures var r := DropHead(d, later);
            && (GoesAway(r, x) ==> GoesAway(d, x) || x == Least(d.s.ready.Keys))
            && r.s.ready == d.s.ready - {Least(d.s.ready.Keys)} && r.f == d.f
  {
    hide DeadLettered;
    var id := Least(d.s.ready.Keys);
    OutOnly(LeavesReady(d, id), id, later(id), x);
  }

  lemma {:induction false} ExpiredOnly(d: Durable, p: Policy, now: nat, later: nat -> bool, x: nat)
    ensures GoesAway(ExpireHeads(d, p, now, later), x) ==>
              GoesAway(d, x) || (x in d.s.ready && IsExpired(p, d.s.ready[x], now))
    decreases |d.s.ready|
  {
    hide DropHead, GoesAway;
    if d.s.ready != map[] && IsExpired(p, d.s.ready[Least(d.s.ready.Keys)], now) {
      HeadShrinks(d, later);
      HeadOnly(d, later, x);
      ExpiredOnly(DropHead(d, later), p, now, later, x);
    }
  }

  lemma {:induction false} EvictedOnly(d: Durable, p: Policy, len: nat, later: nat -> bool, x: nat)
    ensures var r := RoomMade(d, p, len, later);
            && (GoesAway(r, x) ==> GoesAway(d, x) || (x in d.s.ready && p.dropHead && Overfull(d, p, len)))
            && (forall id :: id in r.s.ready ==> id in d.s.ready && r.s.ready[id] == d.s.ready[id])
    decreases |d.s.ready|
  {
    hide DropHead, GoesAway, Overfull;
    if p.dropHead && Overfull(d, p, len) && d.s.ready != map[] {
      HeadShrinks(d, later);
      HeadOnly(d, later, x);
      EvictedOnly(DropHead(d, later), p, len, later, x);
    }
  }

  lemma OfferOnly(d: Durable, id: nat, idx: nat, ok: bool, x: nat)
    requires id in d.s.ready && idx < |d.f.subs| && d.f.subs[idx].demand > 0
    ensures GoesAway(Offer(d, id, idx, ok), x) == GoesAway(d, x)
  {
    hide After, Without;
  }

  lemma {:induction false} ServeOnly(d: Durable, ok: nat -> bool, n: nat, x: nat)
    ensures GoesAway(ServeAll(d, ok, n), x) == GoesAway(d, x)
    decreases |d.f.subs|, |d.s.ready|
  {
    hide Offer;
    if d.s.ready != map[] && PickReady(d.f.subs, d.f.rr).Some? {
      var id, idx := Least(d.s.ready.Keys), PickReady(d.f.subs, d.f.rr).value;
      OfferShrinks(d, id, idx, ok(n));
      OfferOnly(d, id, idx, ok(n), x);
      ServeOnly(Serve(d, ok(n)), ok, n + 1, x);
    }
  }

  lemma DispatchedOnly(d: Durable, p: Policy, now: nat, ok: nat -> bool, later: nat -> bool, x: nat)
    ensures GoesAway(Dispatched(d, p, now, ok, later), x) ==>
              GoesAway(d, x) || (x in d.s.ready && IsExpired(p, d.s.ready[x], now))
  {
    hide ExpireHeads, ServeAll, GoesAway;
    ExpiredOnly(d, p, now, later, x);
    ServeOnly(ExpireHeads(d, p, now, later), ok, 0, x);
  }

  // ---------------------------------------------------------------- what each arm leaves ready

  /** Everything ready after an arm was ready or in flight before it, with the same age. */
  ghost predicate OnlyOld(d: Durable, r: Durable) {
    forall id :: id in r.s.ready ==>
      || (id in d.s.ready && r.s.ready[id] == d.s.ready[id])
      || (id in d.s.inflight && r.s.ready[id] == d.s.inflight[id].slot)
  }

  lemma AcceptOnly(d: Durable, body: Bytes, ms: nat, x: nat)
    ensures GoesAway(Accepted(d, body, ms), x) ==> GoesAway(d, x)
    ensures Accepted(d, body, ms).s.ready == d.s.ready
  {
  }

  lemma PublishOnly(d: Durable, p: Policy, body: Bytes, fromReserved: bool, ms: nat, later: nat -> bool, x: nat)
    ensures var r := Publishes(d, p, body, fromReserved, ms, later);
            && OnlyOld(d, r)
            && (GoesAway(r, x) ==>
                  GoesAway(d, x) || (p.dropHead && x in d.s.ready && Overfull(SlotTaken(d, fromReserved), p, |body|)))
  {
    hide RoomMade, Accepted, TurnsAway, Overfull;
    EvictedOnly(SlotTaken(d, fromReserved), p, |body|, later, x);
    AcceptOnly(RoomMade(SlotTaken(d, fromReserved), p, |body|, later), body, ms, x);
  }

  lemma SettleOnly(d: Durable, p: Policy, sub: nat, id: nat, outcome: Outcome, later: nat -> bool, x: nat)
    ensures var r := Settles(d, p, sub, id, outcome, later);
            && OnlyOld(d, r)
            && (GoesAway(r, x) ==> GoesAway(d, x) || (x == id && Finishes(d, p, sub, id, outcome)))
  {
    hide DeadLettered, RemoveSubmitted;
    if id in d.s.inflight && d.s.inflight[id].sub == sub {
      OutOnly(LeavesHeld(d, id), id, later(id), x);
    }
  }

  lemma DepartedOnly(d: Durable, sub: nat, x: nat)
    ensures OnlyOld(d, Departed(d, sub)) && GoesAway(Departed(d, sub), x) == GoesAway(d, x)
  {
    hide Without;
  }

  lemma MailOnly(d: Durable, p: Policy, msg: Message, ms: nat, now: nat, ok: nat -> bool, later: nat -> bool, x: nat)
    ensures var r := Mail(d, p, msg, ms, later);
            OnlyOld(d, r) && (GoesAway(r, x) ==> GoesAway(d, x) || Cause(d, p, Receive(msg, ms, now, ok, later), x))
  {
    hide Publishes, Settles, Departed, Finishes, Overfull;
    match msg {
      case Publish(body) => PublishOnly(d, p, body, false, ms, later, x);
      case PublishReserved(body) => PublishOnly(d, p, body, true, ms, later, x);
      case Settle(sub, id, outcome) => SettleOnly(d, p, sub, id, outcome, later, x);
      case Unsubscribe(sub) => DepartedOnly(d, sub, x);
      case _ =>
    }
  }

  lemma CompletedOnly(d: Durable, id: nat, x: nat)
    requires id in d.s.commits
    ensures var r := Completed(d, id);
            && GoesAway(r, x) == GoesAway(d, x)
            && (x in r.s.ready ==>
                  || (x in d.s.ready && r.s.ready[x] == d.s.ready[x])
                  || (x == id && r.s.ready[x].ms == d.s.commits[id].ms))
  {
  }

  /** While the broker runs, no message is on its way out without a cause. */
  lemma NothingLeavesWithoutCause(d: Durable, p: Policy, step: Step, x: nat)
    requires Enabled(d, step) && (step.Receive? || step.Complete?)
    ensures GoesAway(Next(d, p, step), x) && !GoesAway(d, x) ==> Cause(d, p, step, x)
  {
    hide Mail, Completed, Dispatched, GoesAway, Finishes, Overfull, BackToMailbox;
    match step
    case Receive(msg, ms, now, ok, later) =>
      MailOnly(d, p, msg, ms, now, ok, later, x);
      DispatchedOnly(Mail(d, p, msg, ms, later), p, now, ok, later, x);
    case Complete(id, now, ok, later) =>
      CompletedOnly(d, id, x);
      DispatchedOnly(Completed(d, id), p, now, ok, later, x);
  }

  // ---------------------------------------------------------------- dispatch

  /** Dispatch stops only when nothing is ready or nobody wants anything. */
  lemma {:induction false} ServesUntilQuiet(d: Durable, ok: nat -> bool, n: nat)
    ensures var r := ServeAll(d, ok, n); r.s.ready == map[] || NoDemand(r.f.subs)
    decreases |d.f.subs|, |d.s.ready|
  {
    hide Serve;
    PickReadyIsNearest(d.f.subs, d.f.rr);
    if d.s.ready != map[] && PickReady(d.f.subs, d.f.rr).Some? {
      OfferShrinks(d, Least(d.s.ready.Keys), PickReady(d.f.subs, d.f.rr).value, ok(n));
      ServeStep(d, ok(n));
      ServesUntilQuiet(Serve(d, ok(n)), ok, n + 1);
    }
  }

  lemma ServeStep(d: Durable, ok: bool)
    requires CanServe(d)
    ensures Serve(d, ok) == Offer(d, Least(d.s.ready.Keys), PickReady(d.f.subs, d.f.rr).value, ok)
  {
  }
}
