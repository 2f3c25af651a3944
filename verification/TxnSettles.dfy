/**
 * The settles of a transaction, followed to the queues (ramqp-broker/src/txn.rs:273-389): what a commit
 * posts is handled by its queue once, with the staged outcome, whatever is interleaved with it.
 */
module TxnSettles {
  import opened Collections
  import opened Dispatch
  import opened TransientQueue
  import QueueSafety
  import opened QueueRuns
  import opened TxnCommit
  import opened TxnSystem

  /** What a settle did to its message, seen from the queue before and after. */
  datatype Effect = Nothing | Ended(fate: Fate) | Returned

  /**
   * A settle taken from a mailbox: whose, by whom, whether its subscriber held the message, and after how many
   * sends.
   */
  datatype Handling = Handling(
    commit: nat, index: nat, queue: nat, settle: StagedSettle, owner: bool, effect: Effect, at: nat)

  function EffectOn(q: Queue, r: Queue, id: nat): Effect {
    if id in r.finished && id !in q.finished then Ended(r.finished[id])
    else if id in q.unacked && id !in r.unacked then Returned
    else Nothing
  }

  /** This step takes a transaction's settle from a mailbox. */
  predicate TakesSettle(s: Sys, ps: map<nat, Policy>, step: Step) {
    && step.Receive? && step.queue in s.queues && step.queue in s.mail && step.queue in ps
    && s.mail[step.queue] != [] && s.mail[step.queue][0].SettleFor?
  }

  function HandledBy(s: Sys, ps: map<nat, Policy>, step: Step): Handling
    requires TakesSettle(s, ps, step)
  {
    var q, x := s.queues[step.queue], s.mail[step.queue][0];
    Handling(x.commit, x.index, step.queue, StagedSettle(step.queue, x.sub, x.msgId, x.outcome),
             Owns(q, x.sub, x.msgId), EffectOn(q, Next(s, ps, step).queues[step.queue], x.msgId), |q.sent|)
  }

  function Handles(s: Sys, ps: map<nat, Policy>, step: Step): seq<Handling> {
    if TakesSettle(s, ps, step) then [HandledBy(s, ps, step)] else []
  }

  /** Every settle handled in a run, in order. */
  ghost function Handled(ps: map<nat, Policy>, steps: seq<Step>): seq<Handling> {
    if steps == [] then [] else
      var before := steps[..|steps| - 1];
      Handled(ps, before) + Handles(Run(ps, before), ps, steps[|steps| - 1])
  }

  // ---------------------------------------------------------------- what a commit has posted

  /** The first settles of the list have been posted. */
  function Posted(m: Commit): nat {
    match m.phase
    case Settling(n, _) => n
    case Done(_) => |m.txn.settles|
    case _ => 0
  }

  function Verdict(m: Commit): DischargeOutcome {
    match m.phase
    case Settling(_, outcome) => outcome
    case Done(outcome) => outcome
    case _ => RolledBack
  }

  /** `x` is the settle at `i` of commit `c`, as posted. */
  ghost predicate Staged(ms: seq<Commit>, c: nat, i: nat, x: StagedSettle) {
    && c < |ms| && i < Posted(ms[c]) && i < |ms[c].txn.settles|
    && SettleOf(ms[c].txn.settles[i], Verdict(ms[c])) == x
  }

  /** Commits only go on: nothing posted is taken back or changed. */
  ghost predicate GoesOn(ms: seq<Commit>, ns: seq<Commit>) {
    && |ms| <= |ns|
    && forall c :: 0 <= c < |ms| ==>
         && ns[c].txn == ms[c].txn && Posted(ms[c]) <= Posted(ns[c])
         && (Posted(ms[c]) > 0 ==> Verdict(ns[c]) == Verdict(ms[c]))
  }

  lemma StagedStays(ms: seq<Commit>, ns: seq<Commit>, c: nat, i: nat, x: StagedSettle)
    requires GoesOn(ms, ns) && Staged(ms, c, i, x)
    ensures Staged(ns, c, i, x)
  {
  }

  lemma MovedGoesOn(m: Commit, open: set<nat>)
    requires PhaseOk(m, open)
    ensures var r := Moved(m, open);
            && r.txn == m.txn && Posted(m) <= Posted(r) && (Posted(m) > 0 ==> Verdict(r) == Verdict(m))
            && Posted(r) == (if m.phase.Settling? && m.phase.next < |m.txn.settles| then Posted(m) + 1 else Posted(m))
  {
    hide Named, AllOrNothing;
  }

  lemma NextGoesOn(s: Sys, ps: map<nat, Policy>, step: Step)
    requires TxnSystem.Inv(s, ps)
    ensures GoesOn(s.commits, Next(s, ps, step).commits)
  {
    hide MailsOk, QueuesOk, Moved, Sends, Arm, Take, Grants, Refuses, PhaseOk;
    match step
    case Advance(c) =>
      if c < |s.commits| {
        CommitAt(s, ps, c);
        MovedGoesOn(s.commits[c], s.mail.Keys);
      }
    case _ =>
  }

  /** Only a commit's own move posts a settle. */
  lemma OnlyAdvancePosts(s: Sys, ps: map<nat, Policy>, step: Step, c: nat)
    requires TxnSystem.Inv(s, ps) && c < |s.commits| && step != Advance(c)
    ensures c < |Next(s, ps, step).commits| && Posted(Next(s, ps, step).commits[c]) == Posted(s.commits[c])
  {
    hide MailsOk, QueuesOk, Moved, Sends, Arm, Take, Grants, Refuses, PhaseOk;
  }

  // ---------------------------------------------------------------- counting copies

  predicate Carries(m: Mail, c: nat, i: nat) {
    m.SettleFor? && m.commit == c && m.index == i
  }

  function InMail(mail: seq<Mail>, c: nat, i: nat): nat {
    if mail == [] then 0 else (if Carries(mail[0], c, i) then 1 else 0) + InMail(mail[1..], c, i)
  }

  function InPast(hs: seq<Handling>, c: nat, i: nat): nat {
    if hs == [] then 0 else
      var h := hs[|hs| - 1];
      InPast(hs[..|hs| - 1], c, i) + (if h.commit == c && h.index == i then 1 else 0)
  }

  lemma {:induction false} InMailAppend(mail: seq<Mail>, m: Mail, c: nat, i: nat)
    ensures InMail(mail + [m], c, i) == InMail(mail, c, i) + (if Carries(m, c, i) then 1 else 0)
  {
    if mail != [] {
      assert (mail + [m])[1..] == mail[1..] + [m];
      InMailAppend(mail[1..], m, c, i);
    }
  }

  lemma InPastAppend(hs: seq<Handling>, h: Handling, c: nat, i: nat)
    ensures InPast(hs + [h], c, i) == InPast(hs, c, i) + (if h.commit == c && h.index == i then 1 else 0)
  {
    assert (hs + [h])[..|hs|] == hs;
  }

  lemma {:induction false} NoneInMail(mail: seq<Mail>, c: nat, i: nat)
    requires forall k :: 0 <= k < |mail| ==> !Carries(mail[k], c, i)
    ensures InMail(mail, c, i) == 0
  {
    if mail != [] { NoneInMail(mail[1..], c, i); }
  }

  lemma {:induction false} NoneInPast(hs: seq<Handling>, c: nat, i: nat)
    requires forall k :: 0 <= k < |hs| ==> !(hs[k].commit == c && hs[k].index == i)
    ensures InPast(hs, c, i) == 0
  {
    if hs != [] { NoneInPast(hs[..|hs| - 1], c, i); }
  }

  // ---------------------------------------------------------------- the invariant

  /** Whatever carries a settle, in a mailbox or in the past, carries it as posted and to its own queue. */
  ghost predicate CarriedAsStaged(s: Sys, hs: seq<Handling>) {
    && (forall queue, k :: queue in s.mail && 0 <= k < |s.mail[queue]| && s.mail[queue][k].SettleFor? ==>
          var x := s.mail[queue][k];
          Staged(s.commits, x.commit, x.index, StagedSettle(queue, x.sub, x.msgId, x.outcome)))
    && (forall k :: 0 <= k < |hs| ==>
          hs[k].settle.queue == hs[k].queue && Staged(s.commits, hs[k].commit, hs[k].index, hs[k].settle))
  }

  /** A settle posted to a live queue is in its mailbox or was handled: one copy in all. */
  ghost predicate OneCopy(s: Sys, hs: seq<Handling>, c: nat, i: nat) {
    c < |s.commits| && i < Posted(s.commits[c]) && i < |s.commits[c].txn.settles| ==>
      var queue := s.commits[c].txn.settles[i].queue;
      queue in s.mail ==> InMail(s.mail[queue], c, i) + InPast(hs, c, i) == 1
  }

  ghost predicate Delivered(q: Queue, sub: nat, id: nat, since: nat) {
    exists d :: since <= d < |q.sent| && q.sent[d].sub == sub && q.sent[d].msgId == id
  }

  /** What the handled settle did, and that it still stands. */
  ghost predicate Settled(q: Queue, h: Handling) {
    && h.at <= |q.sent|
    && (Owns(q, h.settle.sub, h.settle.msgId) ==> Delivered(q, h.settle.sub, h.settle.msgId, h.at))
    && (h.effect.Ended? ==> h.settle.msgId in q.finished && q.finished[h.settle.msgId] == h.effect.fate)
    && Fitting(h)
  }

  /** A settle by the subscriber that holds the message does what its outcome says; any other does nothing. */
  predicate Fitting(h: Handling) {
    if !h.owner then h.effect.Nothing? else
      match h.settle.outcome
      case Ack => h.effect == Ended(Acked)
      case Drop => h.effect == Ended(Dropped)
      case Requeue => h.effect == Returned
      case RequeueFailed => h.effect == Returned || h.effect == Ended(Exhausted)
  }

  ghost predicate PastStands(s: Sys, hs: seq<Handling>) {
    forall k :: 0 <= k < |hs| ==> hs[k].queue in s.queues && Settled(s.queues[hs[k].queue], hs[k])
  }

  ghost predicate Sane(s: Sys) {
    forall queue :: queue in s.queues ==> QueueSafety.Core(s.queues[queue]) && QueueSafety.Owned(s.queues[queue])
  }

  ghost predicate SettlesOk(s: Sys, hs: seq<Handling>) {
    Sane(s) && CarriedAsStaged(s, hs) && PastStands(s, hs) && forall c, i :: OneCopy(s, hs, c, i)
  }

  // ---------------------------------------------------------------- a queue's turn

  /** Holding a message is always by a delivery: a turn makes a new holder only by sending to it. */
  ghost predicate HoldsBySending(q: Queue, r: Queue) {
    && q.sent <= r.sent
    && forall id, sub :: Owns(r, sub, id) ==> Owns(q, sub, id) || Delivered(r, sub, id, |q.sent|)
  }

  lemma {:induction false} RequeueAllHolds(q: Queue, ids: seq<nat>)
    ensures var r := RequeueAll(q, ids);
            r.sent == q.sent && forall id, sub :: Owns(r, sub, id) ==> Owns(q, sub, id)
    decreases |ids|
  {
    if ids != [] {
      var n := |ids| - 1;
      RequeueAllHolds(if ids[n] in q.unacked then PushFront(q, ids[n], q.unacked[ids[n]].msg.failures) else q,
                      ids[..n]);
    }
  }

  lemma {:induction false} MakeRoomHolds(q: Queue, p: Policy, len: nat)
    ensures MakeRoom(q, p, len).sent == q.sent && MakeRoom(q, p, len).unacked == q.unacked
    decreases |q.ready|
  {
    if p.dropHead && Over(q, p, len) && q.ready != [] { MakeRoomHolds(PopHead(q, Evicted), p, len); }
  }

  lemma DropHolds(q: Queue, sub: nat)
    ensures HoldsBySending(q, DropSub(q, sub))
  {
    hide SortedIds, OwnedBy;
    RequeueAllHolds(q.(subs := Without(q.subs, sub)), SortedIds(OwnedBy(q.unacked, sub)));
  }

  lemma ArmHolds(q: Queue, p: Policy, msg: Message, stamp: nat)
    ensures HoldsBySending(q, Arm(q, p, msg, stamp))
  {
    hide DropSub, MakeRoom, Over;
    match msg
    case Publish(body) => MakeRoomHolds(q, p, |body|);
    case PublishReserved(body) => MakeRoomHolds(TakeSlot(q, true), p, |body|);
    case Unsubscribe(sub) => DropHolds(q, sub);
    case _ =>
  }

  lemma SendHolds(q: Queue, idx: nat)
    requires q.ready != [] && idx < |q.subs| && q.subs[idx].demand > 0
    ensures HoldsBySending(q, Send(q, idx))
  {
    hide After;
    var r := Send(q, idx);
    assert r.sent[|q.sent|].sub == q.subs[idx].id && r.sent[|q.sent|].msgId == q.ready[0].id;
  }

  lemma TurnHolds(q: Queue, p: Policy, t: Turn)
    ensures HoldsBySending(q, Take(q, p, t))
  {
    hide Arm, DropSub, Send, After;
    match t
    case ArmTurn(msg, stamp) => ArmHolds(q, p, msg, stamp);
    case SendTurn(ok) =>
      if CanDispatch(q) {
        var idx := PickReady(q.subs, q.rr).value;
        var s := q.subs[idx];
        SendHolds(q, idx);
        DropHolds(q.(subs := q.subs[idx := s.(demand := s.demand - 1)], rr := After(idx, |q.subs|)), s.id);
      }
    case _ =>
  }

  /** What has ended has ended for good, with the fate it had. */
  lemma EndedStays(q: Queue, p: Policy, t: Turn, id: nat)
    requires QueueSafety.Core(q) && id in q.finished
    ensures id in Take(q, p, t).finished && Take(q, p, t).finished[id] == q.finished[id]
  {
    hide Take, QueueSafety.BytesExact, QueueSafety.Faithful, QueueSafety.Fifo, Over, MakeRoom;
    NothingLeavesWithoutCause(q, p, t);
    if q.ready != [] { assert q.ready[0].id in QueueSafety.Ids(q.ready); }
  }

  lemma SettledStays(q: Queue, p: Policy, t: Turn, h: Handling)
    requires QueueSafety.Core(q) && Settled(q, h)
    ensures Settled(Take(q, p, t), h)
  {
    hide Take, QueueSafety.Core, Fitting, Owns;
    var r := Take(q, p, t);
    TurnHolds(q, p, t);
    if h.effect.Ended? { EndedStays(q, p, t, h.settle.msgId); }
    var sub, id := h.settle.sub, h.settle.msgId;
    if Owns(r, sub, id) && Owns(q, sub, id) {
      var d :| h.at <= d < |q.sent| && q.sent[d].sub == sub && q.sent[d].msgId == id;
      assert r.sent[d] == q.sent[d];
    } else if Owns(r, sub, id) {
      var d :| |q.sent| <= d < |r.sent| && r.sent[d].sub == sub && r.sent[d].msgId == id;
    }
  }

  /** The handled settle itself: afterwards the subscriber no longer holds the message by any delivery so far. */
  lemma SettleTakesEffect(q: Queue, p: Policy, x: StagedSettle, c: nat, i: nat)
    requires QueueSafety.Core(q)
    ensures var r := SettleArm(q, p, x.sub, x.msgId, x.outcome);
            Settled(r, Handling(c, i, x.queue, x, Owns(q, x.sub, x.msgId), EffectOn(q, r, x.msgId), |q.sent|))
  {
    hide QueueSafety.BytesExact, QueueSafety.Faithful, QueueSafety.Fifo;
    assert x.msgId in q.unacked ==> x.msgId !in q.finished;
  }

  // ---------------------------------------------------------------- steps

  /** The turn a step gives to a queue, if any. */
  function TurnOf(s: Sys, ps: map<nat, Policy>, step: Step, queue: nat): Option<Turn> {
    match step
    case Receive(q, stamp) =>
      if q == queue && q in s.queues && q in s.mail && q in ps && s.mail[q] != []
      then Some(ArmTurn(ArmOf(s.mail[q][0]), stamp)) else None
    case Internal(q, turn) => if q == queue && q in s.queues && q in ps && !turn.ArmTurn? then Some(turn) else None
    case _ => None
  }

  lemma QueueTurns(s: Sys, ps: map<nat, Policy>, step: Step, queue: nat)
    requires queue in s.queues
    ensures var t := Next(s, ps, step);
            && queue in t.queues
            && (TurnOf(s, ps, step, queue).None? ==> t.queues[queue] == s.queues[queue])
            && (TurnOf(s, ps, step, queue).Some? ==>
                  queue in ps && t.queues[queue] == Take(s.queues[queue], ps[queue], TurnOf(s, ps, step, queue).value))
  {
    hide Arm, Grants, Refuses, Moved, Sends, ExpireOne, DispatchOne, CanDispatch;
  }

  lemma NextSane(s: Sys, ps: map<nat, Policy>, step: Step)
    requires Sane(s) && TxnSystem.Inv(s, ps)
    ensures Sane(Next(s, ps, step))
  {
    hide QueueSafety.Core, QueueSafety.Owned, Take, TurnOf, CommitsOk, MailsOk;
    var t := Next(s, ps, step);
    NextKeeps(s, ps, step);
    forall queue | queue in t.queues ensures QueueSafety.Core(t.queues[queue]) && QueueSafety.Owned(t.queues[queue]) {
      QueueTurns(s, ps, step, queue);
      var turn := TurnOf(s, ps, step, queue);
      if turn.Some? { TurnKeeps(s.queues[queue], ps[queue], turn.value); }
    }
  }

  lemma NextPast(s: Sys, ps: map<nat, Policy>, step: Step, hs: seq<Handling>)
    requires Sane(s) && PastStands(s, hs)
    ensures PastStands(Next(s, ps, step), hs + Handles(s, ps, step))
  {
    hide QueueSafety.Core, QueueSafety.Owned, Take, TurnOf, Settled, Next, HandledBy, TakesSettle;
    var t := Next(s, ps, step);
    forall k | 0 <= k < |hs| ensures hs[k].queue in t.queues && Settled(t.queues[hs[k].queue], hs[k]) {
      var queue := hs[k].queue;
      QueueTurns(s, ps, step, queue);
      var turn := TurnOf(s, ps, step, queue);
      if turn.Some? { SettledStays(s.queues[queue], ps[queue], turn.value, hs[k]); }
    }
    if TakesSettle(s, ps, step) { NewPast(s, ps, step); }
  }

  lemma NewPast(s: Sys, ps: map<nat, Policy>, step: Step)
    requires Sane(s) && TakesSettle(s, ps, step)
    ensures var h := HandledBy(s, ps, step);
            h.queue in Next(s, ps, step).queues && Settled(Next(s, ps, step).queues[h.queue], h)
  {
    hide QueueSafety.Core, QueueSafety.Owned, Settled, SettleArm, EffectOn, Owns;
    var x := s.mail[step.queue][0];
    SettleTakesEffect(s.queues[step.queue], ps[step.queue], StagedSettle(step.queue, x.sub, x.msgId, x.outcome),
                      x.commit, x.index);
  }

  // ---------------------------------------------------------------- mailboxes

  /** What a step does to a mailbox. */
  lemma MailAfter(s: Sys, ps: map<nat, Policy>, step: Step, queue: nat)
    requires TxnSystem.Inv(s, ps) && queue in s.mail
    ensures var t := Next(s, ps, step);
            && queue in t.mail
            && (step.Receive? && step.queue == queue && s.mail[queue] != [] ==> t.mail[queue] == s.mail[queue][1..])
            && (step.Receive? && !(step.queue == queue && s.mail[queue] != []) ==> t.mail[queue] == s.mail[queue])
            && (step.Post? ==> t.mail[queue] == s.mail[queue] || t.mail[queue] == s.mail[queue] + [Ordinary(step.msg)])
            && (step.Begin? || step.Internal? ==> t.mail[queue] == s.mail[queue])
  {
    hide Arm, Grants, Refuses, Moved, Sends, Take, CommitsOk, MailsOk, SlotsExact;
  }

  lemma AdvanceMail(s: Sys, ps: map<nat, Policy>, c: nat, queue: nat)
    requires TxnSystem.Inv(s, ps) && queue in s.mail
    ensures var t := Next(s, ps, Advance(c));
            && queue in t.mail
            && (c < |s.commits| ==>
                  var out := Sends(s.commits[c], c, s.mail.Keys);
                  t.mail[queue] ==
                  if out.Some? && out.value.0 == queue then s.mail[queue] + [out.value.1] else s.mail[queue])
            && (c >= |s.commits| ==> t.mail[queue] == s.mail[queue])
  {
    hide Moved, Sends, CommitsOk, MailsOk, SlotsExact;
  }

  /** The one settle a commit posts is the next of its list, as its outcome has it. */
  lemma PostsNext(m: Commit, c: nat, open: set<nat>)
    requires PhaseOk(m, open)
    ensures var out := Sends(m, c, open);
            var r := Moved(m, open);
            if m.phase.Settling? && m.phase.next < |m.txn.settles| then
              var x := SettleOf(m.txn.settles[m.phase.next], Verdict(r));
              && out == Some((x.queue, SettleFor(c, Posted(m), x.sub, x.msgId, x.outcome)))
              && x.queue == m.txn.settles[m.phase.next].queue
              && Posted(r) == Posted(m) + 1 && r.txn == m.txn
            else Posted(r) == Posted(m) && r.txn == m.txn && (out.Some? ==> !out.value.1.SettleFor?)
  {
    hide Named, AllOrNothing, Count;
  }

  lemma AdvancedCommit(s: Sys, c: nat)
    requires c < |s.commits|
    ensures AdvanceCommit(s, c).commits == s.commits[c := Moved(s.commits[c], s.mail.Keys)]
  {
    hide Moved, Sends;
  }

  /** A settle in a mailbox was there before, or is the one just posted. */
  lemma MailFrom(s: Sys, ps: map<nat, Policy>, step: Step, queue: nat, k: nat)
    requires TxnSystem.Inv(s, ps) && queue in s.mail
    requires queue in Next(s, ps, step).mail && k < |Next(s, ps, step).mail[queue]|
    ensures var x := Next(s, ps, step).mail[queue][k];
            x.SettleFor? ==>
              || (exists j :: 0 <= j < |s.mail[queue]| && s.mail[queue][j] == x)
              || (step.Advance? && step.commit < |s.commits| &&
                  Sends(s.commits[step.commit], step.commit, s.mail.Keys) == Some((queue, x)))
  {
    hide Next, TxnSystem.Inv, Sends;
    var x := Next(s, ps, step).mail[queue][k];
    MailAfter(s, ps, step, queue);
    if step.Advance? { AdvanceMail(s, ps, step.commit, queue); }
    if k < |s.mail[queue]| && s.mail[queue][k] == x {
    } else if k + 1 < |s.mail[queue]| && s.mail[queue][k + 1] == x {
    }
  }

  lemma NextMailCarried(s: Sys, ps: map<nat, Policy>, step: Step, hs: seq<Handling>, queue: nat, k: nat)
    requires TxnSystem.Inv(s, ps) && CarriedAsStaged(s, hs)
    requires queue in s.mail && queue in Next(s, ps, step).mail && k < |Next(s, ps, step).mail[queue]|
    requires Next(s, ps, step).mail[queue][k].SettleFor?
    ensures var x := Next(s, ps, step).mail[queue][k];
            Staged(Next(s, ps, step).commits, x.commit, x.index, StagedSettle(queue, x.sub, x.msgId, x.outcome))
  {
    hide TxnSystem.Inv, Sends, Moved, Staged, Posted, Verdict;
    var t := Next(s, ps, step);
    var x := t.mail[queue][k];
    MailFrom(s, ps, step, queue, k);
    NextGoesOn(s, ps, step);
    var y := StagedSettle(queue, x.sub, x.msgId, x.outcome);
    if j :| 0 <= j < |s.mail[queue]| && s.mail[queue][j] == x {
      StagedStays(s.commits, t.commits, x.commit, x.index, y);
    } else {
      PostedIsStaged(s, ps, step.commit, queue, x);
    }
  }

  lemma PostedIsStaged(s: Sys, ps: map<nat, Policy>, c: nat, queue: nat, x: Mail)
    requires TxnSystem.Inv(s, ps) && c < |s.commits| && x.SettleFor?
    requires Sends(s.commits[c], c, s.mail.Keys) == Some((queue, x))
    ensures Staged(AdvanceCommit(s, c).commits, x.commit, x.index, StagedSettle(queue, x.sub, x.msgId, x.outcome))
  {
    hide TxnSystem.Inv, Sends, Moved, Verdict, PhaseOk, AdvanceCommit;
    CommitAt(s, ps, c);
    PostsNext(s.commits[c], c, s.mail.Keys);
    AdvancedCommit(s, c);
  }

  lemma NextCarried(s: Sys, ps: map<nat, Policy>, step: Step, hs: seq<Handling>)
    requires TxnSystem.Inv(s, ps) && CarriedAsStaged(s, hs)
    ensures CarriedAsStaged(Next(s, ps, step), hs + Handles(s, ps, step))
  {
    hide TxnSystem.Inv, Next, Staged, TakesSettle, HandledBy;
    var t := Next(s, ps, step);
    SameMailboxes(s, ps, step);
    NextGoesOn(s, ps, step);
    forall queue, k | queue in t.mail && 0 <= k < |t.mail[queue]| && t.mail[queue][k].SettleFor?
      ensures var x := t.mail[queue][k];
              Staged(t.commits, x.commit, x.index, StagedSettle(queue, x.sub, x.msgId, x.outcome))
    {
      NextMailCarried(s, ps, step, hs, queue, k);
    }
    forall k | 0 <= k < |hs| ensures Staged(t.commits, hs[k].commit, hs[k].index, hs[k].settle) {
      StagedStays(s.commits, t.commits, hs[k].commit, hs[k].index, hs[k].settle);
    }
    if TakesSettle(s, ps, step) {
      var h := HandledBy(s, ps, step);
      HandledIsStaged(s, ps, step, hs);
      StagedStays(s.commits, t.commits, h.commit, h.index, h.settle);
    }
  }

  lemma HandledIsStaged(s: Sys, ps: map<nat, Policy>, step: Step, hs: seq<Handling>)
    requires CarriedAsStaged(s, hs) && TakesSettle(s, ps, step)
    ensures var h := HandledBy(s, ps, step);
            && h.queue == step.queue && h.settle.queue == h.queue && Staged(s.commits, h.commit, h.index, h.settle)
            && (forall c, i :: Carries(s.mail[step.queue][0], c, i) <==> h.commit == c && h.index == i)
  {
    hide Next, Staged, EffectOn, Owns;
  }

  lemma SameMailboxes(s: Sys, ps: map<nat, Policy>, step: Step)
    requires TxnSystem.Inv(s, ps)
    ensures Next(s, ps, step).mail.Keys == s.mail.Keys
  {
    hide CommitsOk, MailsOk, SlotsExact, Next;
    NextKeeps(s, ps, step);
  }

  // ---------------------------------------------------------------- one copy

  /** The next settle to be posted has no copy anywhere. */
  lemma NoCopyYet(s: Sys, hs: seq<Handling>, c: nat, queue: nat)
    requires CarriedAsStaged(s, hs) && c < |s.commits| && queue in s.mail
    ensures InMail(s.mail[queue], c, Posted(s.commits[c])) == 0 && InPast(hs, c, Posted(s.commits[c])) == 0
  {
    hide Posted, InMail, InPast, Verdict;
    NoneInMail(s.mail[queue], c, Posted(s.commits[c]));
    NoneInPast(hs, c, Posted(s.commits[c]));
  }

  lemma OneCopyPosted(s: Sys, ps: map<nat, Policy>, hs: seq<Handling>, c: nat)
    requires TxnSystem.Inv(s, ps) && CarriedAsStaged(s, hs) && c < |s.commits|
    ensures OneCopy(Next(s, ps, Advance(c)), hs, c, Posted(s.commits[c]))
  {
    hide TxnSystem.Inv, Sends, Moved, Verdict, PhaseOk, AdvanceCommit, Posted, InMail, InPast, CarriedAsStaged;
    var m, i := s.commits[c], Posted(s.commits[c]);
    CommitAt(s, ps, c);
    PostsNext(m, c, s.mail.Keys);
    AdvancedCommit(s, c);
    SameMailboxes(s, ps, Advance(c));
    if m.phase.Settling? && m.phase.next < |m.txn.settles| {
      PostedIs(m);
      var queue := m.txn.settles[i].queue;
      if queue in s.mail {
        NoCopyYet(s, hs, c, queue);
        AdvanceMail(s, ps, c, queue);
        InMailAppend(s.mail[queue], Sends(m, c, s.mail.Keys).value.1, c, i);
      }
    }
  }

  lemma PostedIs(m: Commit)
    requires m.phase.Settling?
    ensures Posted(m) == m.phase.next
  {
  }

  /** No step copies a settle or loses one. */
  lemma OneCopyKept(s: Sys, ps: map<nat, Policy>, step: Step, hs: seq<Handling>, c: nat, i: nat)
    requires TxnSystem.Inv(s, ps) && CarriedAsStaged(s, hs) && OneCopy(s, hs, c, i)
    requires c < |s.commits| && i < Posted(s.commits[c])
    ensures OneCopy(Next(s, ps, step), hs + Handles(s, ps, step), c, i)
  {
    hide TxnSystem.Inv, Next, Posted, InMail, InPast, Carries, TakesSettle, HandledBy, CarriedAsStaged, Staged, Sends,
         GoesOn;
    var t := Next(s, ps, step);
    SameMailboxes(s, ps, step);
    SameTxn(s, ps, step, c);
    if i < |s.commits[c].txn.settles| && s.commits[c].txn.settles[i].queue in s.mail {
      var queue := s.commits[c].txn.settles[i].queue;
      MailAfter(s, ps, step, queue);
      if step.Advance? {
        CopyNotPosted(s, ps, step.commit, queue, c, i);
      } else if step.Post? {
        InMailAppend(s.mail[queue], Ordinary(step.msg), c, i);
        OrdinaryCarriesNothing(step.msg, c, i);
      }
      CopyHandled(s, ps, step, hs, c, i);
      NoSettleTaken(s, ps, step);
    }
  }

  lemma OrdinaryCarriesNothing(msg: Message, c: nat, i: nat)
    ensures !Carries(Ordinary(msg), c, i)
  {
  }

  lemma NoSettleTaken(s: Sys, ps: map<nat, Policy>, step: Step)
    ensures TakesSettle(s, ps, step) ==> step.Receive? && step.queue in s.mail && s.mail[step.queue] != []
  {
  }

  lemma SameTxn(s: Sys, ps: map<nat, Policy>, step: Step, c: nat)
    requires TxnSystem.Inv(s, ps) && c < |s.commits|
    ensures c < |Next(s, ps, step).commits| && Next(s, ps, step).commits[c].txn == s.commits[c].txn
  {
    hide TxnSystem.Inv, Next, Posted, Verdict;
    NextGoesOn(s, ps, step);
  }

  lemma CopyNotPosted(s: Sys, ps: map<nat, Policy>, d: nat, queue: nat, c: nat, i: nat)
    requires TxnSystem.Inv(s, ps) && queue in s.mail && c < |s.commits| && i < Posted(s.commits[c])
    ensures queue in Next(s, ps, Advance(d)).mail
    ensures InMail(Next(s, ps, Advance(d)).mail[queue], c, i) == InMail(s.mail[queue], c, i)
  {
    hide TxnSystem.Inv, Next, Posted, InMail, Sends, Moved, PhaseOk, Verdict;
    AdvanceMail(s, ps, d, queue);
    if d < |s.commits| {
      CommitAt(s, ps, d);
      PostsNext(s.commits[d], d, s.mail.Keys);
      var out := Sends(s.commits[d], d, s.mail.Keys);
      if out.Some? { InMailAppend(s.mail[queue], out.value.1, c, i); }
    }
  }

  /** Taking the head of a mailbox moves its copy, if it is one, from the mailbox to the past. */
  lemma CopyHandled(s: Sys, ps: map<nat, Policy>, step: Step, hs: seq<Handling>, c: nat, i: nat)
    requires TxnSystem.Inv(s, ps) && CarriedAsStaged(s, hs)
    requires c < |s.commits| && i < |s.commits[c].txn.settles| && s.commits[c].txn.settles[i].queue in s.mail
    ensures var queue := s.commits[c].txn.settles[i].queue;
            var past := InPast(hs + Handles(s, ps, step), c, i);
            if TakesSettle(s, ps, step) && step.queue == queue then
              past + InMail(s.mail[queue][1..], c, i) == InPast(hs, c, i) + InMail(s.mail[queue], c, i)
            else
              && past == InPast(hs, c, i)
              && (step.Receive? && step.queue == queue && s.mail[queue] != [] ==>
                    InMail(s.mail[queue][1..], c, i) == InMail(s.mail[queue], c, i))
  {
    hide TxnSystem.Inv, InPast, HandledBy, CarriedAsStaged, Posted, Verdict;
    var queue := s.commits[c].txn.settles[i].queue;
    if TakesSettle(s, ps, step) {
      var h := HandledBy(s, ps, step);
      HandledIsStaged(s, ps, step, hs);
      InPastAppend(hs, h, c, i);
    } else {
      assert hs + Handles(s, ps, step) == hs;
      if step.Receive? && step.queue == queue && s.mail[queue] != [] { LiveMailbox(s, ps, queue); }
    }
  }

  lemma LiveMailbox(s: Sys, ps: map<nat, Policy>, queue: nat)
    requires TxnSystem.Inv(s, ps) && queue in s.mail
    ensures queue in s.queues && queue in ps
  {
  }

  lemma NextOneCopy(s: Sys, ps: map<nat, Policy>, step: Step, hs: seq<Handling>, c: nat, i: nat)
    requires TxnSystem.Inv(s, ps) && CarriedAsStaged(s, hs) && OneCopy(s, hs, c, i)
    ensures OneCopy(Next(s, ps, step), hs + Handles(s, ps, step), c, i)
  {
    hide TxnSystem.Inv, Next, Posted, InMail, InPast, CarriedAsStaged, TakesSettle, HandledBy;
    var t := Next(s, ps, step);
    if c < |t.commits| && i < Posted(t.commits[c]) {
      NewCommitPosts(s, ps, step, c);
      if i < Posted(s.commits[c]) {
        OneCopyKept(s, ps, step, hs, c, i);
      } else {
        JustPosted(s, ps, step, c, i);
        NoSettleTaken(s, ps, step);
        assert hs + Handles(s, ps, step) == hs;
        OneCopyPosted(s, ps, hs, c);
      }
    }
  }

  lemma NewCommitPosts(s: Sys, ps: map<nat, Policy>, step: Step, c: nat)
    requires c < |Next(s, ps, step).commits| && Posted(Next(s, ps, step).commits[c]) > 0
    ensures c < |s.commits|
  {
    hide Arm, Take, Grants, Refuses, Moved, Sends;
  }

  lemma JustPosted(s: Sys, ps: map<nat, Policy>, step: Step, c: nat, i: nat)
    requires TxnSystem.Inv(s, ps) && c < |s.commits| && c < |Next(s, ps, step).commits|
    requires Posted(s.commits[c]) <= i < Posted(Next(s, ps, step).commits[c])
    ensures step == Advance(c) && i == Posted(s.commits[c])
  {
    hide TxnSystem.Inv, Next, Posted, Moved, PhaseOk, Sends;
    if step != Advance(c) {
      OnlyAdvancePosts(s, ps, step, c);
      assert false;
    } else {
      CommitAt(s, ps, c);
      MovedGoesOn(s.commits[c], s.mail.Keys);
      AdvancedCommit(s, c);
      NextIsAdvance(s, ps, c);
    }
  }

  lemma NextIsAdvance(s: Sys, ps: map<nat, Policy>, c: nat)
    requires c < |s.commits|
    ensures Next(s, ps, Advance(c)) == AdvanceCommit(s, c)
  {
  }

  // ---------------------------------------------------------------- every run

  lemma NextSettlesOk(s: Sys, ps: map<nat, Policy>, step: Step, hs: seq<Handling>)
    requires TxnSystem.Inv(s, ps) && SettlesOk(s, hs)
    ensures SettlesOk(Next(s, ps, step), hs + Handles(s, ps, step))
  {
    hide TxnSystem.Inv, Next, Sane, CarriedAsStaged, PastStands, OneCopy, Handles;
    NextSane(s, ps, step);
    NextCarried(s, ps, step, hs);
    NextPast(s, ps, step, hs);
    forall c, i ensures OneCopy(Next(s, ps, step), hs + Handles(s, ps, step), c, i) {
      NextOneCopy(s, ps, step, hs, c, i);
    }
  }

  lemma {:induction false} EveryRunSettles(ps: map<nat, Policy>, steps: seq<Step>)
    ensures SettlesOk(Run(ps, steps), Handled(ps, steps))
    decreases |steps|
  {
    hide Next, Handles, SettlesOk;
    if steps == [] {
      NothingSettled(ps);
    } else {
      var before := steps[..|steps| - 1];
      EveryRunSettles(ps, before);
      EveryRunKeeps(ps, before);
      NextSettlesOk(Run(ps, before), ps, steps[|steps| - 1], Handled(ps, before));
    }
  }

  lemma NothingSettled(ps: map<nat, Policy>)
    ensures SettlesOk(Start(ps.Keys), [])
  {
    assert QueueSafety.Core(EMPTY) && QueueSafety.Owned(EMPTY);
  }

  /**
   * The settle `x` of commit `c`, at `i` of its list: one copy in all, in the mailbox of its queue or handled
   * there, as it is; and once handled, the subscriber holds the message only by a later delivery, and if it
   * held it then, the outcome took effect and stands.
   */
  ghost predicate Accounted(s: Sys, hs: seq<Handling>, c: nat, i: nat, x: StagedSettle) {
    && x.queue in s.queues && x.queue in s.mail
    && InMail(s.mail[x.queue], c, i) + InPast(hs, c, i) == 1
    && (forall k :: 0 <= k < |s.mail[x.queue]| && Carries(s.mail[x.queue][k], c, i) ==>
          ArmOf(s.mail[x.queue][k]) == Settle(x.sub, x.msgId, x.outcome))
    && (forall k :: 0 <= k < |hs| && hs[k].commit == c && hs[k].index == i ==>
          hs[k].queue == x.queue && hs[k].settle == x && Settled(s.queues[x.queue], hs[k]))
  }

  lemma SettleIsAccounted(s: Sys, ps: map<nat, Policy>, hs: seq<Handling>, c: nat, i: nat)
    requires TxnSystem.Inv(s, ps) && SettlesOk(s, hs) && c < |s.commits| && s.commits[c].phase.Done?
    requires i < |s.commits[c].txn.settles| && s.commits[c].txn.settles[i].queue in s.mail
    ensures Accounted(s, hs, c, i, SettleOf(s.commits[c].txn.settles[i], s.commits[c].phase.outcome))
  {
    hide TxnSystem.Inv, InMail, InPast, Settled, Sane;
    assert OneCopy(s, hs, c, i);
    LiveMailbox(s, ps, s.commits[c].txn.settles[i].queue);
  }

  /**
   * Atomic commit, in every interleaving. A finished commit is complete or rolled back, never partial: every
   * staged publish is stored on its queue with its own body, in staging order per queue, or nothing is. And each
   * staged settle on a live queue, with its own outcome, or as a requeue when rolled back, is accounted for.
   */
  lemma CommitIsAtomic(ps: map<nat, Policy>, steps: seq<Step>, c: nat)
    requires c < |Run(ps, steps).commits| && Run(ps, steps).commits[c].phase.Done?
    ensures var m := Run(ps, steps).commits[c];
            match m.phase.outcome
            case Partial(_, _) => false
            case RolledBack => m.ids == []
            case Complete => |m.ids| == |m.txn.publishes| && IdsOk(Run(ps, steps), m)
    ensures var s := Run(ps, steps);
            forall i :: 0 <= i < |s.commits[c].txn.settles| && s.commits[c].txn.settles[i].queue in s.mail ==>
              Accounted(s, Handled(ps, steps), c, i, SettleOf(s.commits[c].txn.settles[i], s.commits[c].phase.outcome))
  {
    hide Run, Handled, TxnSystem.Inv, SettlesOk, Accounted, SettleOf, IdsOk;
    PublishesAreAtomic(ps, steps, c);
    EveryRunSettles(ps, steps);
    EveryRunKeeps(ps, steps);
    var s := Run(ps, steps);
    forall i | 0 <= i < |s.commits[c].txn.settles| && s.commits[c].txn.settles[i].queue in s.mail
      ensures Accounted(s, Handled(ps, steps), c, i, SettleOf(s.commits[c].txn.settles[i], s.commits[c].phase.outcome))
    {
      SettleIsAccounted(s, ps, Handled(ps, steps), c, i);
    }
  }
}
