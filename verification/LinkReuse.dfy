/**
 * What becomes of a delivery that found its link gone (ramqp-broker/src/connection.rs with
 * ramqp-broker/src/queue.rs): the queue takes the message back, and nothing its old subscriber may still
 * say about it counts.
 */
module LinkReuse {
  import opened Collections
  import opened TransientQueue
  import opened QueueSafety
  import opened QueueRuns
  import opened Subscriptions
  import opened LinkCredit

  /** Generation `g` was issued, and is bound no longer. */
  ghost predicate Ended(s: Sys, g: nat) {
    g in s.home && Granted(s.conn, g, s.home[g].key).None?
  }

  lemma ReceiveEnded(s: Sys, ps: map<nat, Policy>, queue: nat, stamp: nat, g: nat)
    requires Inv(s, ps) && Ended(s, g) && queue in s.queues && s.mail[queue] != []
    ensures SameEnd(s, Receive(s, ps[queue], queue, stamp), g)
  {
    hide LinksOk, QueuesOk, MailsOk, AllAccounted, Arm, ConnOk, CmdsOk, HomesOk;
    FirstMessage(s, queue);
    var msg := s.mail[queue][0];
    if IsMine(msg) { BoundIsKnown(s, ps, queue, Key(msg.channel, msg.handle), msg.gen); }
  }

  lemma BoundEnded(s: Sys, ps: map<nat, Policy>, g: nat)
    requires Inv(s, ps) && Ended(s, g) && s.conn.attaching.Replied?
    ensures SameEnd(s, FinishAttach(s), g)
  {
    hide LinksOk, QueuesOk, MailsOk, AllAccounted;
  }

  ghost predicate SameEnd(s: Sys, t: Sys, g: nat) {
    Ended(t, g) && g in s.home && t.home[g] == s.home[g]
  }

  lemma UnbindEnded(s: Sys, key: Key, g: nat)
    requires Ended(s, g) && key in s.conn.bindings
    ensures SameEnd(s, Unbind(s, key), g)
  {
  }

  lemma CreditEnded(s: Sys, key: Key, credit: nat, g: nat)
    requires Ended(s, g)
    ensures SameEnd(s, Credit(s, key, credit), g)
  {
  }

  lemma CommandEnded(s: Sys, g: nat)
    requires Ended(s, g) && s.cmds != []
    ensures SameEnd(s, Command(s), g)
  {
  }

  lemma AttachEnded(s: Sys, key: Key, queue: nat, g: nat)
    requires Ended(s, g) && s.conn.attaching == Idle
    ensures SameEnd(s, StartAttach(s, key, queue), g)
  {
  }

  lemma OtherEnded(s: Sys, key: Key, nextGen: nat, g: nat)
    requires Ended(s, g)
    ensures SameEnd(s, s.(conn := s.conn.(nextGen := nextGen, bindings := s.conn.bindings[key := Other])), g)
  {
  }

  lemma ResolveEnded(s: Sys, x: Token, outcome: Outcome, g: nat)
    requires Ended(s, g)
    ensures SameEnd(s, Resolve(s, x, outcome), g)
  {
  }

  lemma SessionsEnded(s: Sys, sessions: set<nat>, g: nat)
    requires Ended(s, g)
    ensures SameEnd(s, s, g) && SameEnd(s, s.(conn := s.conn.(sessions := sessions)), g)
  {
  }

  lemma PostEnded(s: Sys, queue: nat, msg: Message, g: nat)
    requires Ended(s, g)
    ensures SameEnd(s, Post(s, queue, msg), g)
  {
  }

  lemma TurnEnded(s: Sys, p: Policy, queue: nat, t: Turn, g: nat)
    requires Ended(s, g) && queue in s.queues && MayTurn(s.queues[queue], t)
    ensures SameEnd(s, QueueTurn(s, p, queue, t), g)
  {
    hide Take, CanDispatch, Target;
  }

  /** A generation once unbound stays so, however its key is used again. */
  lemma EndedStays(s: Sys, ps: map<nat, Policy>, step: Step, g: nat)
    requires Inv(s, ps) && Ended(s, g)
    ensures SameEnd(s, Next(s, ps, step), g)
  {
    hide Inv, Ended, SameEnd, Unbind, Credit, Command, StartAttach, FinishAttach, Resolve, Post, Receive, QueueTurn,
         MayTurn,
         EnvMay, Releasing;
    SessionsEnded(s, {}, g);
    match step
    case SBegin(ch) => SessionsEnded(s, s.conn.sessions + {ch}, g);
    case SEnd(ch) => SessionsEnded(s, s.conn.sessions - {ch}, g);
    case SRelease(key) => if key in s.conn.bindings { UnbindEnded(s, key, g); }
    case SAttach(key, queue) => if s.conn.attaching == Idle { AttachEnded(s, key, queue, g); }
    case SAttachOther(key) => OtherEnded(s, key, s.conn.nextGen + 1, g);
    case SBound => if s.conn.attaching.Replied? { BoundEnded(s, ps, g); }
    case SCredit(key, credit) => CreditEnded(s, key, credit, g);
    case SDetach(key) => if key in s.conn.bindings { UnbindEnded(s, key, g); }
    case SCommand => if s.cmds != [] { CommandEnded(s, g); }
    case SResolve(token, outcome) => ResolveEnded(s, token, outcome, g);
    case SPost(queue, msg) => PostEnded(s, queue, msg, g);
    case SReceive(queue, stamp) =>
      if queue in s.queues && queue in s.mail && s.mail[queue] != [] { ReceiveEnded(s, ps, queue, stamp, g); }
    case STurn(queue, turn) =>
      if queue in s.queues && queue in ps && MayTurn(s.queues[queue], turn) { TurnEnded(s, ps[queue], queue, turn, g); }
  }

  lemma RunSnoc(ps: map<nat, Policy>, steps: seq<Step>, step: Step)
    ensures LinkCredit.Run(ps, steps + [step]) == Next(LinkCredit.Run(ps, steps), ps, step)
  {
    hide Next;
    assert (steps + [step])[..|steps|] == steps;
  }

  lemma {:induction false} EndedForGood(ps: map<nat, Policy>, steps: seq<Step>, more: seq<Step>, g: nat)
    requires Ended(LinkCredit.Run(ps, steps), g)
    ensures SameEnd(LinkCredit.Run(ps, steps), LinkCredit.Run(ps, steps + more), g)
    decreases |more|
  {
    hide Inv, Next, LinkCredit.Run, Granted;
    if more == [] {
      assert steps + more == steps;
    } else {
      var n := |more| - 1;
      EndedForGood(ps, steps, more[..n], g);
      EveryRunKeeps(ps, steps + more[..n]);
      EndedStays(LinkCredit.Run(ps, steps + more[..n]), ps, more[n], g);
      RunSnoc(ps, steps + more[..n], more[n]);
      assert steps + more[..n] + [more[n]] == steps + more;
    }
  }

  /** The subscriber is gone from this queue: it holds nothing, and its settles do nothing. */
  ghost predicate Forgotten(q: Queue, p: Policy, sub: nat) {
    && Rec(q.subs, sub).None?
    && (forall id :: !Owns(q, sub, id))
    && (forall id, outcome, stamp :: Arm(q, p, Settle(sub, id, outcome), stamp) == q)
  }

  lemma GoneIsForgotten(q: Queue, p: Policy, sub: nat)
    requires Owned(q) && Rec(q.subs, sub).None?
    ensures Forgotten(q, p, sub)
  {
  }

  lemma HeadDropped(s: Sys, ps: map<nat, Policy>)
    requires Inv(s, ps) && s.cmds != [] && !Routes(s.conn, s.cmds[0].d)
    ensures Ended(s, s.cmds[0].d.gen)
    ensures s.home[s.cmds[0].d.gen].queue == s.cmds[0].queue && s.home[s.cmds[0].d.gen].sub == s.cmds[0].d.sub
  {
    hide LinksOk, QueuesOk, MailsOk, AllAccounted, HomesOk;
    DroppedIsLeaving(s, ps);
    assert s.home[s.cmds[0].d.gen].key == Key(s.cmds[0].d.channel, s.cmds[0].d.handle);
  }

  /**
   * A delivery dropped because its link is gone: in whatever follows, its subscriber's Unsubscribe is still in
   * the queue's mailbox, or the queue has forgotten the subscriber, so that the message is held by nobody or by
   * somebody else, and a late settle leaves the whole queue as it is.
   */
  lemma DroppedDeliveryIsForgotten(ps: map<nat, Policy>, steps: seq<Step>, more: seq<Step>)
    requires LinkCredit.Run(ps, steps).cmds != []
    requires !Routes(LinkCredit.Run(ps, steps).conn, LinkCredit.Run(ps, steps).cmds[0].d)
    ensures var c, t := LinkCredit.Run(ps, steps).cmds[0], LinkCredit.Run(ps, steps + more);
            && c.queue in t.queues && c.queue in t.mail && c.queue in ps
            && (HasUnsub(t.mail[c.queue], c.d.sub) || Forgotten(t.queues[c.queue], ps[c.queue], c.d.sub))
  {
    hide LinkCredit.Run, LinksOk, QueuesOk, MailsOk, AllAccounted, ConnOk, CmdsOk, Routes, Forgotten, Owned, Core;
    var c, t := LinkCredit.Run(ps, steps).cmds[0], LinkCredit.Run(ps, steps + more);
    EveryRunKeeps(ps, steps);
    EveryRunKeeps(ps, steps + more);
    HeadDropped(LinkCredit.Run(ps, steps), ps);
    EndedForGood(ps, steps, more, c.d.gen);
    LinkAt(t, c.d.gen);
    QueueAt(t, c.queue);
    if Rec(t.queues[c.queue].subs, c.d.sub).None? { GoneIsForgotten(t.queues[c.queue], ps[c.queue], c.d.sub); }
  }

  /**
   * And when the queue takes that Unsubscribe, whatever the subscriber held is ready again, at the front, oldest
   * first.
   */
  lemma UnsubscribeReturns(ps: map<nat, Policy>, steps: seq<Step>, queue: nat, sub: nat, stamp: nat)
    requires var s := LinkCredit.Run(ps, steps); queue in s.queues && queue in s.mail && s.mail[queue] != []
    requires LinkCredit.Run(ps, steps).mail[queue][0] == Unsubscribe(sub)
    ensures var q, t := LinkCredit.Run(ps, steps).queues[queue], LinkCredit.Run(ps, steps + [SReceive(queue, stamp)]);
            var back := SortedIds(OwnedBy(q.unacked, sub));
            && queue in ps && queue in t.queues
            && Ascending(back) && (forall id :: id in back <==> Owns(q, sub, id))
            && t.queues[queue].ready == MessagesOf(q.unacked, back) + q.ready
            && Forgotten(t.queues[queue], ps[queue], sub)
  {
    hide LinksOk, QueuesOk, MailsOk, AllAccounted, ConnOk, CmdsOk, HomesOk, Forgotten, Owned, Core, DropSub, MessagesOf,
         LinkCredit.Run, SortedIds, OwnedBy;
    var s := LinkCredit.Run(ps, steps);
    EveryRunKeeps(ps, steps);
    QueueAt(s, queue);
    RunSnoc(ps, steps, SReceive(queue, stamp));
    DropSubReturns(s.queues[queue], sub);
    UnsubscribeRec(s.queues[queue], sub, sub);
    ArmKeeps(s.queues[queue], ps[queue], Unsubscribe(sub), stamp);
    GoneIsForgotten(DropSub(s.queues[queue], sub), ps[queue], sub);
  }
}
