/**
 * The quorum queue actor as it runs (ramqp-broker/src/quorum.rs:130-585): fields updated in place, the
 * mailbox arms, the completions, and the retain, expiry and dispatch loops, each proved to take the actor
 * from one state of the specification to the next.
 */
module QuorumActor {
  import opened Collections
  import opened Dispatch
  import opened TransientQueue
  import G = QueueGroup
  import opened Quorum
  import opened QuorumSafety

  class Actor {
    const policy: Policy
    /** The replicated state, as this leader reads it. */
    var store: G.Plain
    var ready: set<nat>
    var inflight: map<nat, nat>
    var subs: seq<Subscriber>
    var failures: map<nat, nat>
    /** Commit futures in progress. */
    var commits: map<nat, Proposal>
    var publishesPending: nat
    var pendingBytes: nat
    var reserved: nat
    var nextSubId: nat
    var rr: nat
    var nextTag: nat
    var tokens: nat
    /** Among others, what each publish was told and what was delivered: the actor's output. */
    ghost var h: History

    ghost function State(): Leader
      reads this
    {
      Leader(store, ready, inflight, subs, failures, commits, publishesPending, pendingBytes, reserved, nextSubId, rr,
             nextTag, tokens, h)
    }

    ghost predicate Valid()
      reads this
    {
      Ok(State(), policy)
    }

    /** A new leader, its log replayed: everything in applied state is ready. */
    constructor (p: Policy, applied: G.Plain)
      requires forall id :: id in applied.messages ==> 1 <= id <= applied.nextMsgId
      ensures policy == p && State() == Begin(applied) && Valid()
    {
      policy, store, ready := p, applied, applied.messages.Keys;
      inflight, subs, failures, commits := map[], [], map[], map[];
      publishesPending, pendingBytes, reserved, nextSubId, rr, nextTag, tokens := 0, 0, 0, 0, 0, 0, 0;
      h := NO_HISTORY;
      BeginOk(applied, p);
    }

    method PushCommit(kind: Kind)
      modifies this
      ensures State() == Propose(old(State()), kind)
    {
      commits := commits[nextTag := Proposal(kind, Waiting)];
      nextTag := nextTag + 1;
    }

    /** A ready message is dead-lettered and its removal proposed. */
    method TakeOutReady(id: nat)
      modifies this
      ensures State() == RemoveReady(old(State()), id)
    {
      ready := ready - {id};
      h := h.(removing := h.removing[id := nextTag]);
      PushCommit(Rem(id, false));
    }

    method TakeOutHeld(id: nat, readd: bool)
      modifies this
      ensures State() == RemoveHeld(old(State()), id, readd)
    {
      inflight := inflight - {id};
      failures := failures - {id};
      h := h.(removing := h.removing[id := nextTag]);
      PushCommit(Rem(id, readd));
    }

    method Refuse()
      modifies this
      ensures State() == Refused(old(State()))
    {
      h := h.(answers := h.answers[tokens := None]);
      tokens := tokens + 1;
    }

    method ProposePublish(body: Bytes, ms: nat)
      modifies this
      ensures State() == Accepted(old(State()), body, ms)
    {
      publishesPending := publishesPending + 1;
      pendingBytes := pendingBytes + |body|;
      h := h.(asking := h.asking[tokens := nextTag]);
      PushCommit(Enq(body, ms, tokens));
      tokens := tokens + 1;
    }

    method Publish(body: Bytes, fromReserved: bool, resident: nat, ms: nat)
      modifies this
      ensures State() == Publishes(old(State()), policy, body, fromReserved, resident, ms)
    {
      hide RemoveReady, Refused, Accepted;
      if fromReserved { reserved := SatSub(reserved, 1); }
      if |ready| + |inflight| + publishesPending + reserved >= policy.maxLen {
        if policy.dropHead && ready != {} {
          TakeOutReady(Least(ready));
        } else if !fromReserved {
          Refuse();
          return;
        }
      }
      if !fromReserved && policy.maxBytes.Some? && resident + pendingBytes + |body| > policy.maxBytes.value {
        Refuse();
        return;
      }
      ProposePublish(body, ms);
    }

    method SettleMessage(sub: nat, id: nat, outcome: Outcome)
      modifies this
      ensures State() == Settles(old(State()), policy, sub, id, outcome)
    {
      hide RemoveHeld;
      if id !in inflight || inflight[id] != sub { return; }
      match outcome
      case Ack | Drop => TakeOutHeld(id, true);
      case Requeue => inflight, ready := inflight - {id}, ready + {id};
      case RequeueFailed =>
        var count := (if id in failures then failures[id]
                      else if id in store.messages then store.messages[id].failures else 0) + 1;
        if AttemptsExhausted(policy, count) {
          TakeOutHeld(id, false);
        } else {
          failures := failures[id := count];
          inflight, ready := inflight - {id}, ready + {id};
          PushCommit(Cnt(id));
        }
    }

    /** Forget a subscriber; what it held is ready again. */
    method DropSubscriber(sub: nat)
      modifies this
      ensures State() == Departed(old(State()), sub)
    {
      var kept, back := Retain(inflight, sub);
      subs := Without(subs, sub);
      inflight := kept;
      ready := ready + back;
    }

    method Retain(held: map<nat, nat>, sub: nat) returns (kept: map<nat, nat>, back: set<nat>)
      ensures back == HeldBy(held, sub) && kept == held - back
    {
      kept, back := held, {};
      var todo := held;
      while todo != map[]
        invariant todo.Keys <= held.Keys && forall id :: id in todo ==> todo[id] == held[id]
        invariant forall id :: id in back <==> id in held && id !in todo && held[id] == sub
        invariant kept == held - back
        decreases |todo|
      {
        var id :| id in todo;
        if todo[id] == sub { kept, back := kept - {id}, back + {id}; }
        todo := todo - {id};
      }
    }

    method HandleMsg(msg: Message, resident: nat, ms: nat) returns (granted: bool)
      modifies this
      ensures State() == Mail(old(State()), policy, msg, resident, ms)
      ensures msg.Reserve? ==> (granted <==> Reservable(old(State()), policy, msg.count))
    {
      hide Publishes, Settles, Departed;
      granted := true;
      match msg {
        case Publish(body) => Publish(body, false, resident, ms);
        case PublishReserved(body) => Publish(body, true, resident, ms);
        case Reserve(count) =>
          granted := policy.dropHead || |ready| + |inflight| + publishesPending + reserved + count <= policy.maxLen;
          if granted && !policy.dropHead { reserved := reserved + count; }
        case Unreserve(count) => reserved := SatSub(reserved, count);
        case Subscribe(conn, channel, handle, gen) =>
          nextSubId := nextSubId + 1;
          subs := subs + [Subscriber(nextSubId, conn, channel, handle, gen, 0, false)];
        case Demand(sub, credit, drain) =>
          var i := IndexOf(subs, sub);
          if i.Some? { subs := subs[i.value := Grant(subs[i.value], credit, drain)]; }
        case Settle(sub, id, outcome) => SettleMessage(sub, id, outcome);
        case Unsubscribe(sub) => DropSubscriber(sub);
        case Stats =>
      }
    }

    method AnswerPublish(kind: Kind, id: Option<nat>)
      requires kind.Enq? && publishesPending > 0
      modifies this
      ensures State() == PublishAnswered(old(State()), kind, id)
    {
      publishesPending := publishesPending - 1;
      pendingBytes := SatSub(pendingBytes, |kind.body|);
      h := h.(asking := h.asking - {kind.token}, answers := h.answers[kind.token := id]);
    }

    method FinishPublish(kind: Kind, status: Status)
      requires kind.Enq? && publishesPending > 0
      modifies this
      ensures State() == PublishCompleted(old(State()), kind, status)
    {
      if status.Committed? && status.resp.Enqueued? {
        var id := status.resp.msgId;
        AnswerPublish(kind, Some(id));
        ready := ready + {id};
        h := h.(confirming := h.confirming - {id});
      } else {
        AnswerPublish(kind, None);
      }
    }

    /** A commit future finished. The pending count cannot underflow. */
    method FinishCommit(tag: nat)
      requires Valid() && tag in commits && !commits[tag].status.Waiting?
      modifies this
      ensures Valid() && State() == Completed(old(State()), tag)
    {
      hide Ok, PublishCompleted;
      CompletedOk(State(), policy, tag);
      var x := commits[tag];
      if x.kind.Enq? { CompletedEnq(State(), policy, tag); }
      commits := commits - {tag};
      match x.kind
      case Enq(_, _, _) => FinishPublish(x.kind, x.status);
      case Rem(id, readd) =>
        if x.status.Failed? {
          h := h.(removing := h.removing - {id});
          if readd { ready := ready + {id}; } else { h := h.(left := h.left + {id}); }
        }
      case Cnt(_) =>
    }

    method ExpireHeads(now: nat)
      modifies this
      ensures State() == ExpireHead(old(State()), policy, now)
    {
      hide RemoveReady;
      if policy.ttlMs.None? { return; }
      while ready != {}
        invariant ExpireHead(State(), policy, now) == ExpireHead(old(State()), policy, now)
        decreases |ready|
      {
        var head := Least(ready);
        var expired := if head in store.messages
                       then SatSub(now, store.messages[head].enqueuedMs) >= policy.ttlMs.value else true;
        if !expired { return; }
        RemoveReadyShrinks(State(), head);
        TakeOutReady(head);
      }
    }

    method OfferTo(id: nat, idx: nat, ok: bool)
      requires id in store.messages && idx < |subs| && subs[idx].demand > 0
      modifies this
      ensures State() == Offer(old(State()), id, idx, ok)
    {
      hide Departed;
      var body := store.messages[id].body;
      var sub := subs[idx];
      rr := (idx + 1) % |subs|;
      assert rr == After(idx, |subs|);
      subs := subs[idx := sub.(demand := sub.demand - 1)];
      if ok {
        ready := ready - {id};
        h := h.(sent := h.sent + [Delivery(sub.id, sub.conn, sub.channel, sub.handle, sub.gen, id, body)]);
        inflight := inflight[id := sub.id];
      } else {
        DropSubscriber(sub.id);
      }
    }

    /** Offer the oldest ready message to the next subscriber with demand; it is always still in applied state. */
    method DispatchTurn(ok: bool)
      requires Valid() && CanServe(State())
      modifies this
      ensures Valid() && State() == Serve(old(State()), ok)
    {
      hide Ok, Offer;
      ServeOk(State(), policy, ok);
      ReadyIsApplied(State(), policy, Least(ready));
      OfferTo(Least(ready), PickReady(subs, rr).value, ok);
    }

    method DispatchReady(ok: nat -> bool)
      requires Valid()
      modifies this
      ensures Valid() && State() == ServeAll(old(State()), ok, 0)
    {
      hide Ok, Serve;
      ServeAllOk(State(), policy, ok, 0);
      var n := 0;
      while ready != {}
        invariant Valid() && ServeAll(State(), ok, n) == ServeAll(old(State()), ok, 0)
        decreases |subs|, |ready|
      {
        if PickReady(subs, rr).None? { return; }
        ServeShrinks(State(), ok(n));
        DispatchTurn(ok(n));
        n := n + 1;
      }
      subs := CompleteDrains(subs);
    }

    /** One turn of the actor's loop on a mailbox message. */
    method OnMail(msg: Message, resident: nat, ms: nat, now: nat, ok: nat -> bool) returns (granted: bool)
      requires Valid()
      modifies this
      ensures Valid() && State() == Next(old(State()), policy, Receive(msg, resident, ms, now, ok))
      ensures msg.Reserve? ==> (granted <==> Reservable(old(State()), policy, msg.count))
    {
      hide Ok, Mail, ExpireHead, ServeAll;
      MailOk(State(), policy, msg, resident, ms);
      granted := HandleMsg(msg, resident, ms);
      ExpireOk(State(), policy, now);
      ExpireHeads(now);
      DispatchReady(ok);
    }

    /** One turn of the actor's loop on a finished commit. */
    method OnCommit(tag: nat, now: nat, ok: nat -> bool)
      requires Valid() && tag in commits && !commits[tag].status.Waiting?
      modifies this
      ensures Valid() && State() == Next(old(State()), policy, Complete(tag, now, ok))
    {
      hide Ok, Completed, ExpireHead, ServeAll;
      FinishCommit(tag);
      ExpireOk(State(), policy, now);
      ExpireHeads(now);
      DispatchReady(ok);
    }
  }

  lemma RemoveReadyShrinks(q: Leader, id: nat)
    requires id in q.ready
    ensures |RemoveReady(q, id).ready| < |q.ready| && RemoveReady(q, id).ready == q.ready - {id}
  {
  }
}
