/**
 * Concurrent commits over live queue actors: every interleaving of commit tasks, queue actors and
 * ordinary traffic (ramqp-broker/src/txn.rs:273-389 over ramqp-broker/src/queue.rs:245-297).
 */
module TxnSystem {
  import opened Collections
  import opened Dispatch
  import opened TransientQueue
  import opened QueueRuns
  import opened TxnCommit

  datatype DischargeOutcome = Complete | RolledBack | Partial(applied: nat, total: nat)

  /** Where a commit task stands. */
  datatype Phase =
    | Reserving(held: nat)
    | AwaitGrant(held: nat)
    | Granted(held: nat, ok: bool)
    | Releasing(next: nat, held: nat)
    | Publishing(applied: nat)
    | AwaitAck(applied: nat)
    | Confirmed(applied: nat, ok: bool)
    | Withdrawing(applied: nat, next: nat)
    | Settling(next: nat, outcome: DischargeOutcome)
    | Done(outcome: DischargeOutcome)

  /** `ids` is history: what the publishes were stored as. */
  datatype Commit = Commit(txn: Txn, groups: seq<Group>, phase: Phase, ids: seq<nat>)

  datatype Mail =
    | Ordinary(msg: Message)
    | ReserveFor(commit: nat, count: nat)
    | PublishFor(commit: nat, body: Bytes)
    | Release(count: nat)
    | SettleFor(commit: nat, index: nat, sub: nat, msgId: nat, outcome: Outcome)

  /** Queues that are not in `queues` have a dead mailbox. */
  datatype Sys = Sys(queues: map<nat, Queue>, mail: map<nat, seq<Mail>>, commits: seq<Commit>)

  datatype Step =
    | Begin(txn: Txn)
    | Post(queue: nat, msg: Message)
    | Receive(queue: nat, stamp: nat)
    | Internal(queue: nat, turn: Turn)
    | Advance(commit: nat)

  /** Only commit tasks send the reservation messages. */
  predicate IsOrdinary(msg: Message) {
    !msg.Reserve? && !msg.Unreserve? && !msg.PublishReserved?
  }

  function Put(s: Sys, queue: nat, m: Mail): Sys {
    if queue in s.mail then s.(mail := s.mail[queue := s.mail[queue] + [m]]) else s
  }

  function SetCommit(s: Sys, c: nat, commit: Commit): Sys
    requires c < |s.commits|
  {
    s.(commits := s.commits[c := commit])
  }

  function SettleOf(x: StagedSettle, outcome: DischargeOutcome): StagedSettle {
    if outcome.Complete? then x else x.(outcome := Requeue)
  }

  /** What a commit task sends next, if anything: the mailbox and the message. `open` are the live mailboxes. */
  function Sends(m: Commit, c: nat, open: set<nat>): Option<(nat, Mail)> {
    match m.phase
    case Reserving(h) =>
      if h < |m.groups| && m.groups[h].queue in open then
        Some((m.groups[h].queue, ReserveFor(c, m.groups[h].count)))
      else None
    case Releasing(n, h) =>
      if n < h && n < |m.groups| then Some((m.groups[n].queue, Release(m.groups[n].count))) else None
    case Publishing(a) =>
      if a < |m.txn.publishes| && m.txn.publishes[a].queue in open then
        Some((m.txn.publishes[a].queue, PublishFor(c, m.txn.publishes[a].body)))
      else None
    case Withdrawing(a, n) =>
      if n < |m.groups| && a < |m.txn.publishes| && Count(m.txn.publishes[a + 1..], m.groups[n].queue) > 0 then
        Some((m.groups[n].queue, Release(Count(m.txn.publishes[a + 1..], m.groups[n].queue))))
      else None
    case Settling(n, outcome) =>
      if n < |m.txn.settles| then
        var x := SettleOf(m.txn.settles[n], outcome);
        Some((x.queue, SettleFor(c, n, x.sub, x.msgId, x.outcome)))
      else None
    case _ => None
  }

  /** Where the commit task stands after that. */
  function Moved(m: Commit, open: set<nat>): Commit {
    var total := |m.txn.publishes|;
    match m.phase
    case Reserving(h) =>
      m.(phase := if h >= |m.groups| then Publishing(0)
                  else if m.groups[h].queue in open then AwaitGrant(h) else Granted(h, false))
    case AwaitGrant(_) => m
    case Granted(h, ok) => m.(phase := if ok then Reserving(h + 1) else Releasing(0, h))
    case Releasing(n, h) =>
      m.(phase := if n < h && n < |m.groups| then Releasing(n + 1, h) else Settling(0, RolledBack))
    case Publishing(a) =>
      m.(phase := if a >= total then Settling(0, Complete)
                  else if m.txn.publishes[a].queue in open then AwaitAck(a) else Confirmed(a, false))
    case AwaitAck(_) => m
    case Confirmed(a, ok) => m.(phase := if ok then Publishing(a + 1) else Withdrawing(a, 0))
    case Withdrawing(a, n) =>
      m.(phase := if n < |m.groups| && a < total then Withdrawing(a, n + 1)
                  else Settling(0, if a == 0 then RolledBack else Partial(a, total)))
    case Settling(n, outcome) =>
      m.(phase := if n >= |m.txn.settles| then Done(outcome) else Settling(n + 1, outcome))
    case Done(_) => m
  }

  function AdvanceCommit(s: Sys, c: nat): Sys
    requires c < |s.commits|
  {
    var out := Sends(s.commits[c], c, s.mail.Keys);
    SetCommit(if out.Some? then Put(s, out.value.0, out.value.1) else s, c, Moved(s.commits[c], s.mail.Keys))
  }

  function Reply(s: Sys, c: nat, ok: bool): Sys {
    if c < |s.commits| && s.commits[c].phase.AwaitGrant? then
      SetCommit(s, c, s.commits[c].(phase := Granted(s.commits[c].phase.held, ok)))
    else s
  }

  function Confirm(s: Sys, c: nat, ok: bool, id: nat): Sys {
    if c < |s.commits| && s.commits[c].phase.AwaitAck? then
      var m := s.commits[c];
      SetCommit(s, c, m.(phase := Confirmed(m.phase.applied, ok), ids := if ok then m.ids + [id] else m.ids))
    else s
  }

  function ArmOf(m: Mail): Message {
    match m
    case Ordinary(msg) => msg
    case ReserveFor(_, count) => Reserve(count)
    case PublishFor(_, body) => PublishReserved(body)
    case Release(count) => Unreserve(count)
    case SettleFor(_, _, sub, id, outcome) => Settle(sub, id, outcome)
  }

  /** The queue actor takes the next message from its mailbox. */
  function ReceiveMail(s: Sys, ps: map<nat, Policy>, queue: nat, stamp: nat): Sys
    requires queue in s.queues && queue in s.mail && queue in ps
  {
    if s.mail[queue] == [] then s else
      var q, m, p := s.queues[queue], s.mail[queue][0], ps[queue];
      var r := Arm(q, p, ArmOf(m), stamp);
      var t := s.(queues := s.queues[queue := r], mail := s.mail[queue := s.mail[queue][1..]]);
      match m
      case Ordinary(_) => t
      case Release(_) => t
      case SettleFor(_, _, _, _, _) => t
      case ReserveFor(c, count) => Reply(t, c, Grants(q, p, count))
      case PublishFor(c, body) => Confirm(t, c, !Refuses(q, p, |body|, true), r.nextMsgId)
  }

  function Next(s: Sys, ps: map<nat, Policy>, step: Step): Sys {
    match step
    case Begin(txn) => s.(commits := s.commits + [Commit(txn, GroupAll(txn.publishes), Reserving(0), [])])
    case Post(queue, msg) => if IsOrdinary(msg) then Put(s, queue, Ordinary(msg)) else s
    case Receive(queue, stamp) =>
      if queue in s.queues && queue in s.mail && queue in ps then ReceiveMail(s, ps, queue, stamp) else s
    case Internal(queue, turn) =>
      if queue in s.queues && queue in ps && !turn.ArmTurn? then
        s.(queues := s.queues[queue := Take(s.queues[queue], ps[queue], turn)])
      else s
    case Advance(c) => if c < |s.commits| then AdvanceCommit(s, c) else s
  }

  ghost function Start(names: set<nat>): Sys {
    Sys(map n | n in names :: EMPTY, map n | n in names :: [], [])
  }

  ghost function Run(ps: map<nat, Policy>, steps: seq<Step>): Sys {
    if steps == [] then Start(ps.Keys) else Next(Run(ps, steps[..|steps| - 1]), ps, steps[|steps| - 1])
  }

  // ---------------------------------------------------------------- slots

  /** The slots commit `m` has been granted on `queue` and has neither used nor given back. */
  ghost function Held(m: Commit, queue: nat): nat {
    match m.phase
    case Reserving(h) => Slots(m.groups[..Min(h, |m.groups|)], queue)
    case AwaitGrant(h) => Slots(m.groups[..Min(h, |m.groups|)], queue)
    case Granted(h, ok) => Slots(m.groups[..Min(if ok then h + 1 else h, |m.groups|)], queue)
    case Releasing(n, h) => if n <= h <= |m.groups| then Slots(m.groups[n..h], queue) else 0
    case Publishing(a) => Count(m.txn.publishes[Min(a, |m.txn.publishes|)..], queue)
    case AwaitAck(a) => Count(m.txn.publishes[Min(a, |m.txn.publishes|)..], queue)
    case Confirmed(a, _) => Count(m.txn.publishes[Min(a + 1, |m.txn.publishes|)..], queue)
    case Withdrawing(_, _) => 0
    case Settling(_, _) => 0
    case Done(_) => 0
  }

  ghost function TotalHeld(ms: seq<Commit>, queue: nat): nat {
    if ms == [] then 0 else TotalHeld(ms[..|ms| - 1], queue) + Held(ms[|ms| - 1], queue)
  }

  /** Slots given back by messages still in the mailbox. */
  ghost function Returning(mail: seq<Mail>): nat {
    if mail == [] then 0 else (if mail[0].Release? then mail[0].count else 0) + Returning(mail[1..])
  }

  lemma {:induction false} TotalHeldUpdate(ms: seq<Commit>, c: nat, m: Commit, queue: nat)
    requires c < |ms|
    ensures TotalHeld(ms[c := m], queue) + Held(ms[c], queue) == TotalHeld(ms, queue) + Held(m, queue)
    decreases |ms|
  {
    var n := |ms| - 1;
    if c == n {
      assert ms[c := m][..n] == ms[..n];
    } else {
      assert ms[c := m][..n] == ms[..n][c := m];
      TotalHeldUpdate(ms[..n], c, m, queue);
    }
  }

  lemma {:induction false} TotalHeldAtLeast(ms: seq<Commit>, c: nat, queue: nat)
    requires c < |ms|
    ensures Held(ms[c], queue) <= TotalHeld(ms, queue)
    decreases |ms|
  {
    if c < |ms| - 1 {
      TotalHeldAtLeast(ms[..|ms| - 1], c, queue);
    }
  }

  lemma {:induction false} ReturningAppend(mail: seq<Mail>, m: Mail)
    ensures Returning(mail + [m]) == Returning(mail) + (if m.Release? then m.count else 0)
  {
    if mail != [] {
      assert (mail + [m])[1..] == mail[1..] + [m];
      ReturningAppend(mail[1..], m);
    }
  }

  ghost function Depth(q: Queue): nat {
    |q.ready| + |q.unacked|
  }

  /**
   * A reject-policy queue's reserved slots are exactly those held by commits or on their way back, and it never
   * overfills.
   */
  ghost predicate SlotsExact(s: Sys, ps: map<nat, Policy>, queue: nat)
    requires queue in s.queues && queue in s.mail && queue in ps
  {
    !ps[queue].dropHead ==>
      && s.queues[queue].reserved == TotalHeld(s.commits, queue) + Returning(s.mail[queue])
      && Depth(s.queues[queue]) + s.queues[queue].reserved <= ps[queue].maxLen
  }

  // ---------------------------------------------------------------- the queue's side

  lemma {:induction false} RequeueAllDepth(q: Queue, ids: seq<nat>)
    ensures var r := RequeueAll(q, ids);
            Depth(r) == Depth(q) && r.landed == q.landed && r.nextMsgId == q.nextMsgId && r.reserved == q.reserved
    decreases |ids|
  {
    if ids != [] {
      var n := |ids| - 1;
      if ids[n] in q.unacked {
        assert |q.unacked - {ids[n]}| == |q.unacked| - 1 by {
          assert (q.unacked - {ids[n]}).Keys == q.unacked.Keys - {ids[n]};
        }
        RequeueAllDepth(PushFront(q, ids[n], q.unacked[ids[n]].msg.failures), ids[..n]);
      } else {
        RequeueAllDepth(q, ids[..n]);
      }
    }
  }

  lemma RemoveOne(m: map<nat, Held>, id: nat)
    requires id in m
    ensures |m - {id}| == |m| - 1
  {
    assert (m - {id}).Keys == m.Keys - {id};
  }

  /** A queue's turn neither invents nor overwrites a stored body, and keeps within the depth it had. */
  ghost predicate Steady(q: Queue, r: Queue) {
    q.landed == r.landed && q.nextMsgId == r.nextMsgId && q.reserved == r.reserved && Depth(r) <= Depth(q)
  }

  lemma SettleSteady(q: Queue, p: Policy, sub: nat, id: nat, outcome: Outcome)
    ensures Steady(q, SettleArm(q, p, sub, id, outcome))
  {
    if Owns(q, sub, id) { RemoveOne(q.unacked, id); }
  }

  lemma DropSteady(q: Queue, sub: nat)
    ensures Steady(q, DropSub(q, sub))
  {
    RequeueAllDepth(q.(subs := Without(q.subs, sub)), SortedIds(OwnedBy(q.unacked, sub)));
  }

  lemma SendSteady(q: Queue, ok: bool)
    requires CanDispatch(q)
    ensures Steady(q, DispatchOne(q, ok))
  {
    hide DropSub;
    var idx := PickReady(q.subs, q.rr).value;
    var s := q.subs[idx];
    if ok {
      assert Send(q, idx).unacked.Keys == q.unacked.Keys + {q.ready[0].id};
    } else {
      DropSteady(q.(subs := q.subs[idx := s.(demand := s.demand - 1)], rr := After(idx, |q.subs|)), s.id);
    }
  }

  lemma ArmSteady(q: Queue, p: Policy, msg: Message, stamp: nat)
    requires IsOrdinary(msg) && !msg.Publish?
    ensures Steady(q, Arm(q, p, msg, stamp))
  {
    hide SettleArm, DropSub;
    match msg
    case Settle(sub, id, outcome) => SettleSteady(q, p, sub, id, outcome);
    case Unsubscribe(sub) => DropSteady(q, sub);
    case _ =>
  }

  lemma TurnSteady(q: Queue, p: Policy, t: Turn)
    requires !t.ArmTurn?
    ensures Steady(q, Take(q, p, t))
  {
    hide DispatchOne;
    if t.SendTurn? && CanDispatch(q) {
      SendSteady(q, t.ok);
    }
  }

  /** Under a reject policy a publish is stored in full or not at all, within the bound. */
  lemma RejectPublish(q: Queue, p: Policy, body: Bytes, fromReserved: bool, stamp: nat)
    requires !p.dropHead
    ensures var r := PublishArm(q, p, body, fromReserved, stamp);
            var slot := if fromReserved then SatSub(q.reserved, 1) else q.reserved;
            if Refuses(q, p, |body|, fromReserved) then r == q
            else r == Accept(TakeSlot(q, fromReserved), body, stamp) && r.reserved == slot &&
                 Depth(r) == Depth(q) + 1 &&
                 (!fromReserved ==> Depth(r) + r.reserved <= p.maxLen)
  {
  }

  // ---------------------------------------------------------------- invariant

  ghost predicate Named(open: set<nat>, gs: seq<Group>) {
    forall i :: 0 <= i < |gs| ==> gs[i].queue in open
  }

  /** All or nothing: how many publishes have landed in each phase. */
  ghost predicate PhaseOk(m: Commit, open: set<nat>) {
    var gs, total := m.groups, |m.txn.publishes|;
    match m.phase
    case Reserving(h) => h <= |gs| && m.ids == [] && Named(open, gs[..h])
    case AwaitGrant(h) => h < |gs| && m.ids == [] && Named(open, gs[..h + 1])
    case Granted(h, ok) => h < |gs| && m.ids == [] && Named(open, gs[..if ok then h + 1 else h])
    case Releasing(n, h) => n <= h < |gs| && m.ids == [] && Named(open, gs[..h])
    case Publishing(a) => a <= total && |m.ids| == a && Named(open, gs)
    case AwaitAck(a) => a < total && |m.ids| == a && Named(open, gs)
    case Confirmed(a, ok) => a < total && ok && |m.ids| == a + 1 && Named(open, gs)
    case Withdrawing(_, _) => false
    case Settling(n, outcome) => AllOrNothing(m, outcome) && n <= |m.txn.settles|
    case Done(outcome) => AllOrNothing(m, outcome)
  }

  ghost predicate AllOrNothing(m: Commit, outcome: DischargeOutcome) {
    match outcome
    case Complete => |m.ids| == |m.txn.publishes|
    case RolledBack => m.ids == []
    case Partial(_, _) => false
  }

  /** What landed is what was staged, in staging order on each queue. */
  ghost predicate IdsOk(s: Sys, m: Commit) {
    && |m.ids| <= |m.txn.publishes|
    && (forall i :: 0 <= i < |m.ids| ==>
          var x := m.txn.publishes[i];
          x.queue in s.queues && 1 <= m.ids[i] <= |s.queues[x.queue].landed| &&
          s.queues[x.queue].landed[m.ids[i] - 1] == x.body)
    && (forall i, j :: 0 <= i < j < |m.ids| && m.txn.publishes[i].queue == m.txn.publishes[j].queue ==>
          m.ids[i] < m.ids[j])
  }

  ghost predicate Apart(m: Commit, n: Commit) {
    forall i, j ::
      0 <= i < |m.ids| <= |m.txn.publishes| && 0 <= j < |n.ids| <= |n.txn.publishes| ==>
        m.txn.publishes[i].queue == n.txn.publishes[j].queue ==> m.ids[i] != n.ids[j]
  }

  ghost predicate CommitsOk(s: Sys) {
    && (forall c :: 0 <= c < |s.commits| ==>
          s.commits[c].groups == GroupAll(s.commits[c].txn.publishes) && PhaseOk(s.commits[c], s.mail.Keys) &&
          IdsOk(s, s.commits[c]))
    && (forall c, d :: 0 <= c < d < |s.commits| ==> Apart(s.commits[c], s.commits[d]))
  }

  /** A reservation message in a mailbox is the one its commit task is waiting on. */
  ghost predicate MailOk(s: Sys, queue: nat, m: Mail) {
    match m
    case Ordinary(msg) => IsOrdinary(msg)
    case Release(_) => true
    case SettleFor(_, _, _, _, _) => true
    case ReserveFor(c, count) =>
      && c < |s.commits| && s.commits[c].phase.AwaitGrant?
      && s.commits[c].phase.held < |s.commits[c].groups|
      && s.commits[c].groups[s.commits[c].phase.held] == Group(queue, count)
    case PublishFor(c, body) =>
      && c < |s.commits| && s.commits[c].phase.AwaitAck?
      && s.commits[c].phase.applied < |s.commits[c].txn.publishes|
      && s.commits[c].txn.publishes[s.commits[c].phase.applied] == StagedPublish(queue, body)
  }

  predicate Waits(m: Mail, c: nat) {
    (m.ReserveFor? || m.PublishFor?) && m.commit == c
  }

  ghost predicate MailsOk(s: Sys) {
    && (forall queue, i :: queue in s.mail && 0 <= i < |s.mail[queue]| ==> MailOk(s, queue, s.mail[queue][i]))
    && (forall queue, i, j, c :: queue in s.mail && 0 <= i < j < |s.mail[queue]| && Waits(s.mail[queue][i], c) ==>
          !Waits(s.mail[queue][j], c))
  }

  ghost predicate QueuesOk(s: Sys, ps: map<nat, Policy>) {
    && s.queues.Keys == s.mail.Keys == ps.Keys
    && (forall queue :: queue in s.queues ==> |s.queues[queue].landed| == s.queues[queue].nextMsgId)
    && (forall queue :: queue in s.queues ==> SlotsExact(s, ps, queue))
  }

  ghost predicate Inv(s: Sys, ps: map<nat, Policy>) {
    QueuesOk(s, ps) && CommitsOk(s) && MailsOk(s)
  }

  // ---------------------------------------------------------------- preservation: commits

  /** Bodies stay stored and mailboxes stay open, so what the commits know stays true. */
  ghost predicate Extends(s: Sys, t: Sys) {
    && s.mail.Keys == t.mail.Keys && s.queues.Keys == t.queues.Keys
    && forall queue :: queue in s.queues ==> s.queues[queue].landed <= t.queues[queue].landed
  }

  lemma CommitsFrame(s: Sys, t: Sys)
    requires Extends(s, t) && CommitsOk(s) && s.commits == t.commits
    ensures CommitsOk(t)
  {
    hide PhaseOk, Apart;
  }

  /** One commit task moves, the rest stay. */
  lemma CommitsUpdate(s: Sys, t: Sys, c: nat, m: Commit)
    requires CommitsOk(s) && c < |s.commits| && t.commits == s.commits[c := m] && Extends(s, t)
    requires m.groups == GroupAll(m.txn.publishes)
    requires PhaseOk(m, t.mail.Keys) && IdsOk(t, m)
    requires forall d :: 0 <= d < |s.commits| && d != c ==> Apart(s.commits[d], m)
    ensures CommitsOk(t)
  {
    hide PhaseOk;
  }

  lemma TargetNamed(open: set<nat>, m: Commit, a: nat)
    requires m.groups == GroupAll(m.txn.publishes) && Named(open, m.groups) && a < |m.txn.publishes|
    ensures m.txn.publishes[a].queue in open
  {
    CountPositive(m.txn.publishes, a);
    GroupSlots(m.txn.publishes, m.txn.publishes[a].queue);
    SlotsNamed(m.groups, m.txn.publishes[a].queue);
  }

  lemma MovedPhase(m: Commit, open: set<nat>)
    requires m.groups == GroupAll(m.txn.publishes) && PhaseOk(m, open)
    ensures PhaseOk(Moved(m, open), open)
  {
    hide GroupAll;
    match m.phase
    case Reserving(h) => assert m.groups[..|m.groups|] == m.groups;
    case Publishing(a) =>
      if a < |m.txn.publishes| { TargetNamed(open, m, a); }
    case _ =>
  }

  lemma MovedFrame(m: Commit, open: set<nat>)
    ensures var r := Moved(m, open); r.ids == m.ids && r.txn == m.txn && r.groups == m.groups
  {
  }

  lemma AdvanceCommits(s: Sys, ps: map<nat, Policy>, c: nat)
    requires Inv(s, ps) && c < |s.commits|
    ensures CommitsOk(AdvanceCommit(s, c))
  {
    hide MailsOk, PhaseOk, QueuesOk, CommitsOk, Sends, Moved, Apart;
    var m, t := s.commits[c], AdvanceCommit(s, c);
    var r := t.commits[c];
    CommitAt(s, ps, c);
    MovedPhase(m, s.mail.Keys);
    MovedFrame(m, s.mail.Keys);
    assert t.mail.Keys == s.mail.Keys;
    assert Extends(s, t);
    IdsFrame(s, t, m);
    ApartKept(s, c, r);
    CommitsUpdate(s, t, c, r);
  }

  // ---------------------------------------------------------------- preservation: mailboxes

  lemma PutMails(s: Sys, queue: nat, m: Mail)
    requires MailsOk(s) && (queue in s.mail ==> MailOk(s, queue, m))
    requires forall c, i :: queue in s.mail && 0 <= i < |s.mail[queue]| && Waits(m, c) ==> !Waits(s.mail[queue][i], c)
    ensures MailsOk(Put(s, queue, m))
  {
    var t := Put(s, queue, m);
    forall q, i | q in t.mail && 0 <= i < |t.mail[q]| ensures MailOk(t, q, t.mail[q][i]) {
      assert MailOk(s, q, t.mail[q][i]);
    }
  }

  /** A commit task that is not waiting has no reservation message under way, so it may change phase. */
  lemma PhaseMails(s: Sys, c: nat, m: Commit)
    requires MailsOk(s) && c < |s.commits| && !s.commits[c].phase.AwaitGrant? && !s.commits[c].phase.AwaitAck?
    ensures MailsOk(SetCommit(s, c, m))
    ensures forall queue, i :: queue in s.mail && 0 <= i < |s.mail[queue]| ==> !Waits(s.mail[queue][i], c)
  {
    var t := SetCommit(s, c, m);
    forall q, i | q in t.mail && 0 <= i < |t.mail[q]| ensures MailOk(t, q, t.mail[q][i]) && !Waits(s.mail[q][i], c) {
      assert MailOk(s, q, s.mail[q][i]);
    }
  }

  lemma AdvanceMails(s: Sys, ps: map<nat, Policy>, c: nat)
    requires Inv(s, ps) && c < |s.commits|
    ensures MailsOk(AdvanceCommit(s, c))
  {
    hide MailsOk, QueuesOk, IdsOk, Apart, Count;
    var m := s.commits[c];
    if !m.phase.AwaitGrant? && !m.phase.AwaitAck? {
      PhaseMails(s, c, Moved(m, s.mail.Keys));
      var out := Sends(m, c, s.mail.Keys);
      if out.Some? {
        PutMails(SetCommit(s, c, Moved(m, s.mail.Keys)), out.value.0, out.value.1);
      }
    } else {
      assert AdvanceCommit(s, c) == s;
    }
  }

  // ---------------------------------------------------------------- preservation: slots

  /** Slots given back by one message. */
  ghost function GivesBack(out: Option<(nat, Mail)>, queue: nat): nat {
    if out.Some? && out.value.0 == queue && out.value.1.Release? then out.value.1.count else 0
  }

  lemma ReleaseSlots(gs: seq<Group>, n: nat, h: nat, queue: nat)
    requires n < h <= |gs|
    ensures Slots(gs[n..h], queue) == (if gs[n].queue == queue then gs[n].count else 0) + Slots(gs[n + 1..h], queue)
  {
    assert gs[n..h] == [gs[n]] + gs[n + 1..h];
    SlotsSplit([gs[n]], gs[n + 1..h], queue);
    assert [gs[n]][..0] == [];
  }

  lemma AllReserved(m: Commit, queue: nat)
    requires m.groups == GroupAll(m.txn.publishes)
    ensures Slots(m.groups[..|m.groups|], queue) == Count(m.txn.publishes[0..], queue)
  {
    assert m.groups[..|m.groups|] == m.groups;
    assert m.txn.publishes[0..] == m.txn.publishes;
    GroupSlots(m.txn.publishes, queue);
  }

  /** What a commit task stops holding it has put on its way back. */
  lemma MovedSlots(m: Commit, c: nat, open: set<nat>, queue: nat)
    requires m.groups == GroupAll(m.txn.publishes) && PhaseOk(m, open)
    ensures Held(m, queue) == Held(Moved(m, open), queue) + GivesBack(Sends(m, c, open), queue)
  {
    hide Slots, Count, GroupAll, AllOrNothing;
    match m.phase
    case Reserving(h) => AllReserved(m, queue);
    case Granted(h, ok) => assert m.groups[0..h] == m.groups[..h];
    case Releasing(n, h) =>
      if n < h { ReleaseSlots(m.groups, n, h, queue); } else { NoSlots(m, n, h, queue); }
    case Publishing(a) =>
      if a < |m.txn.publishes| { TargetNamed(open, m, a); } else { NoPublishes(m, a, queue); }
    case _ =>
  }

  lemma NoSlots(m: Commit, n: nat, h: nat, queue: nat)
    requires n == h <= |m.groups|
    ensures Slots(m.groups[n..h], queue) == 0
  {
  }

  lemma NoPublishes(m: Commit, a: nat, queue: nat)
    requires a == |m.txn.publishes|
    ensures Count(m.txn.publishes[a..], queue) == 0
  {
  }

  lemma AdvanceSlots(s: Sys, ps: map<nat, Policy>, c: nat, queue: nat)
    requires Inv(s, ps) && c < |s.commits| && queue in s.queues
    ensures queue in AdvanceCommit(s, c).mail && SlotsExact(AdvanceCommit(s, c), ps, queue)
  {
    hide MailsOk, CommitsOk, PhaseOk, Held, Sends, Moved;
    assert SlotsExact(s, ps, queue);
    CommitAt(s, ps, c);
    var m := s.commits[c];
    MovedSlots(m, c, s.mail.Keys, queue);
    TotalHeldUpdate(s.commits, c, Moved(m, s.mail.Keys), queue);
    var out := Sends(m, c, s.mail.Keys);
    if out.Some? {
      ReturningAppend(s.mail[queue], out.value.1);
    }
  }

  lemma AdvanceKeeps(s: Sys, ps: map<nat, Policy>, c: nat)
    requires Inv(s, ps) && c < |s.commits|
    ensures Inv(AdvanceCommit(s, c), ps)
  {
    hide MailsOk, PhaseOk, IdsOk, Apart, Sends, Moved, SlotsExact;
    AdvanceCommits(s, ps, c);
    AdvanceMails(s, ps, c);
    forall queue | queue in s.queues ensures SlotsExact(AdvanceCommit(s, c), ps, queue) {
      AdvanceSlots(s, ps, c, queue);
    }
  }

  // ---------------------------------------------------------------- preservation: a queue takes a message

  lemma {:induction false} MakeRoomLanded(q: Queue, p: Policy, len: nat)
    ensures var r := MakeRoom(q, p, len);
            r.landed == q.landed && r.nextMsgId == q.nextMsgId && r.reserved == q.reserved
    decreases |q.ready|
  {
    if p.dropHead && Over(q, p, len) && q.ready != [] {
      MakeRoomLanded(PopHead(q, Evicted), p, len);
    }
  }

  lemma ArmLanded(q: Queue, p: Policy, msg: Message, stamp: nat)
    ensures var r := Arm(q, p, msg, stamp);
            && q.landed <= r.landed && |r.landed| - |q.landed| == r.nextMsgId - q.nextMsgId
            && (msg.PublishReserved? ==> r.landed == q.landed + [msg.body])
  {
    match msg
    case Publish(body) => MakeRoomLanded(q, p, |body|);
    case PublishReserved(body) => MakeRoomLanded(TakeSlot(q, true), p, |body|);
    case Reserve(_) =>
    case Unreserve(_) =>
    case _ => ArmSteady(q, p, msg, stamp);
  }

  /** The mailbox after its head is taken, before the reply is delivered. */
  function Taken(s: Sys, ps: map<nat, Policy>, queue: nat, stamp: nat): Sys
    requires queue in s.queues && queue in s.mail && queue in ps && s.mail[queue] != []
  {
    s.(queues := s.queues[queue := Arm(s.queues[queue], ps[queue], ArmOf(s.mail[queue][0]), stamp)],
       mail := s.mail[queue := s.mail[queue][1..]])
  }

  lemma TakenExtends(s: Sys, ps: map<nat, Policy>, queue: nat, stamp: nat)
    requires queue in s.queues && queue in s.mail && queue in ps && s.mail[queue] != []
    ensures Extends(s, Taken(s, ps, queue, stamp))
  {
    hide Arm;
    ArmLanded(s.queues[queue], ps[queue], ArmOf(s.mail[queue][0]), stamp);
  }

  lemma IdsFrame(s: Sys, t: Sys, m: Commit)
    requires Extends(s, t) && IdsOk(s, m)
    ensures IdsOk(t, m)
  {
  }

  lemma HeadMail(s: Sys, ps: map<nat, Policy>, queue: nat)
    requires Inv(s, ps) && queue in s.queues && s.mail[queue] != []
    ensures MailOk(s, queue, s.mail[queue][0]) && SlotsExact(s, ps, queue)
    ensures |s.queues[queue].landed| == s.queues[queue].nextMsgId
  {
    hide CommitsOk;
  }

  lemma CommitAt(s: Sys, ps: map<nat, Policy>, c: nat)
    requires Inv(s, ps) && c < |s.commits|
    ensures s.commits[c].groups == GroupAll(s.commits[c].txn.publishes) && PhaseOk(s.commits[c], s.mail.Keys)
    ensures IdsOk(s, s.commits[c])
  {
    hide MailsOk, QueuesOk;
  }

  lemma GrantPhase(m: Commit, open: set<nat>, ok: bool)
    requires PhaseOk(m, open) && m.phase.AwaitGrant?
    ensures PhaseOk(m.(phase := Granted(m.phase.held, ok)), open)
  {
  }

  lemma AckPhase(m: Commit, open: set<nat>, id: nat)
    requires PhaseOk(m, open) && m.phase.AwaitAck?
    ensures |m.ids| == m.phase.applied < |m.txn.publishes|
    ensures PhaseOk(m.(phase := Confirmed(m.phase.applied, true), ids := m.ids + [id]), open)
  {
  }

  lemma ReplyCommits(s: Sys, t: Sys, c: nat, ok: bool)
    requires CommitsOk(s) && Extends(s, t) && t.commits == s.commits
    requires c < |s.commits| && s.commits[c].phase.AwaitGrant?
    ensures CommitsOk(Reply(t, c, ok))
  {
    hide PhaseOk, Apart, IdsOk;
    var r := Reply(t, c, ok);
    var m := s.commits[c];
    GrantPhase(m, s.mail.Keys, ok);
    IdsFrame(s, r, m);
    IdsSame(r, m, r.commits[c]);
    ApartKept(s, c, r.commits[c]);
    CommitsUpdate(s, r, c, r.commits[c]);
  }

  lemma IdsSame(s: Sys, m: Commit, n: Commit)
    requires IdsOk(s, m) && n.ids == m.ids && n.txn == m.txn
    ensures IdsOk(s, n)
  {
  }

  lemma ConfirmCommits(s: Sys, t: Sys, c: nat, queue: nat)
    requires CommitsOk(s) && Extends(s, t) && t.commits == s.commits && queue in s.queues
    requires c < |s.commits| && s.commits[c].phase.AwaitAck?
    requires var a := s.commits[c].phase.applied;
             && a < |s.commits[c].txn.publishes| && s.commits[c].txn.publishes[a].queue == queue
             && t.queues[queue].landed == s.queues[queue].landed + [s.commits[c].txn.publishes[a].body]
    ensures CommitsOk(Confirm(t, c, true, |s.queues[queue].landed| + 1))
  {
    hide PhaseOk, Apart, IdsOk;
    var r := Confirm(t, c, true, |s.queues[queue].landed| + 1);
    var m := s.commits[c];
    AckPhase(m, s.mail.Keys, |s.queues[queue].landed| + 1);
    IdsFrame(s, r, m);
    NewIdFits(s, r, m, r.commits[c], queue);
    forall d | 0 <= d < |s.commits| && d != c ensures Apart(s.commits[d], r.commits[c]) {
      NewIdApart(s, c, d, r.commits[c], queue);
    }
    CommitsUpdate(s, r, c, r.commits[c]);
  }

  lemma ReceiveCommits(s: Sys, ps: map<nat, Policy>, queue: nat, stamp: nat)
    requires Inv(s, ps) && queue in s.queues && s.mail[queue] != []
    ensures CommitsOk(ReceiveMail(s, ps, queue, stamp))
  {
    hide MailsOk, Arm, CommitsOk, Extends, SlotsExact;
    var x, q := s.mail[queue][0], s.queues[queue];
    HeadMail(s, ps, queue);
    var t := Taken(s, ps, queue, stamp);
    TakenExtends(s, ps, queue, stamp);
    CommitsFrame(s, t);
    match x
    case Ordinary(_) =>
    case Release(_) =>
    case SettleFor(_, _, _, _, _) =>
    case ReserveFor(c, count) => ReplyCommits(s, t, c, Grants(q, ps[queue], count));
    case PublishFor(c, body) =>
      ArmLanded(q, ps[queue], PublishReserved(body), stamp);
      ConfirmCommits(s, t, c, queue);
  }

  lemma ApartKept(s: Sys, c: nat, m: Commit)
    requires CommitsOk(s) && c < |s.commits| && m.ids == s.commits[c].ids && m.txn == s.commits[c].txn
    ensures forall d :: 0 <= d < |s.commits| && d != c ==> Apart(s.commits[d], m)
  {
    hide PhaseOk, IdsOk;
    forall d | 0 <= d < |s.commits| && d != c ensures Apart(s.commits[d], m) {
      if d < c {
        assert Apart(s.commits[d], s.commits[c]);
      } else {
        assert Apart(s.commits[c], s.commits[d]);
      }
    }
  }

  lemma NewIdFits(s: Sys, r: Sys, m: Commit, n: Commit, queue: nat)
    requires IdsOk(s, m) && IdsOk(r, m) && |m.ids| < |m.txn.publishes| && n.txn == m.txn
    requires queue in s.queues && queue in r.queues && m.txn.publishes[|m.ids|].queue == queue
    requires n.ids == m.ids + [|s.queues[queue].landed| + 1]
    requires r.queues[queue].landed == s.queues[queue].landed + [m.txn.publishes[|m.ids|].body]
    ensures IdsOk(r, n)
  {
  }

  lemma NewIdApart(s: Sys, c: nat, d: nat, n: Commit, queue: nat)
    requires CommitsOk(s) && c < |s.commits| && d < |s.commits| && c != d && queue in s.queues
    requires var m := s.commits[c];
             |m.ids| < |m.txn.publishes| && n.txn == m.txn && m.txn.publishes[|m.ids|].queue == queue &&
             n.ids == m.ids + [|s.queues[queue].landed| + 1]
    ensures Apart(s.commits[d], n)
  {
    hide PhaseOk;
    ApartKept(s, c, s.commits[c]);
    assert IdsOk(s, s.commits[d]);
  }

  lemma ReceiveMails(s: Sys, ps: map<nat, Policy>, queue: nat, stamp: nat)
    requires Inv(s, ps) && queue in s.queues && s.mail[queue] != []
    ensures MailsOk(ReceiveMail(s, ps, queue, stamp))
  {
    hide CommitsOk, Arm, SlotsExact, Grants, Refuses;
    var x := s.mail[queue][0];
    var t := ReceiveMail(s, ps, queue, stamp);
    assert MailOk(s, queue, x);
    forall q, i | q in t.mail && 0 <= i < |t.mail[q]| ensures MailOk(t, q, t.mail[q][i]) {
      var k := if q == queue then i + 1 else i;
      assert t.mail[q][i] == s.mail[q][k];
      assert MailOk(s, q, s.mail[q][k]);
      if x.ReserveFor? || x.PublishFor? {
        assert Waits(x, x.commit);
        assert !Waits(t.mail[q][i], x.commit);
      }
    }
    forall q, i, j, c | q in t.mail && 0 <= i < j < |t.mail[q]| && Waits(t.mail[q][i], c)
      ensures !Waits(t.mail[q][j], c)
    {
      var k := if q == queue then 1 else 0;
      assert t.mail[q][i] == s.mail[q][i + k] && t.mail[q][j] == s.mail[q][j + k];
    }
  }

  lemma ReceiveSlotsElsewhere(s: Sys, ps: map<nat, Policy>, queue: nat, stamp: nat, other: nat)
    requires Inv(s, ps) && queue in s.queues && s.mail[queue] != [] && other in s.queues && other != queue
    ensures SlotsExact(ReceiveMail(s, ps, queue, stamp), ps, other)
  {
    hide MailsOk, CommitsOk, Arm, Held, PhaseOk, Grants, Over, MakeRoom;
    var x := s.mail[queue][0];
    HeadMail(s, ps, queue);
    assert SlotsExact(s, ps, other);
    var t := ReceiveMail(s, ps, queue, stamp);
    if x.ReserveFor? || x.PublishFor? {
      CommitAt(s, ps, x.commit);
      ReplyHeld(s, t, x, queue, other);
      TotalHeldUpdate(s.commits, x.commit, t.commits[x.commit], other);
    }
  }

  /** How the answer to a reservation message changes what its commit holds. */
  lemma ReplyHeld(s: Sys, t: Sys, x: Mail, queue: nat, at: nat)
    requires x.ReserveFor? || x.PublishFor?
    requires x.commit < |s.commits| == |t.commits| && MailOk(s, queue, x)
    requires PhaseOk(s.commits[x.commit], s.mail.Keys)
    requires t.commits[x.commit].txn == s.commits[x.commit].txn
    requires t.commits[x.commit].groups == s.commits[x.commit].groups
    requires x.ReserveFor? ==> t.commits[x.commit].phase.Granted? &&
                               t.commits[x.commit].phase.held == s.commits[x.commit].phase.held
    requires x.PublishFor? ==> t.commits[x.commit].phase == Confirmed(s.commits[x.commit].phase.applied, true)
    ensures var before, after := Held(s.commits[x.commit], at), Held(t.commits[x.commit], at);
            if x.ReserveFor? then
              after == before + (if at == queue && t.commits[x.commit].phase.ok then x.count else 0)
            else before == after + (if at == queue then 1 else 0)
  {
    hide Named, AllOrNothing, GroupAll;
    var m := s.commits[x.commit];
    if x.ReserveFor? {
      var h := m.phase.held;
      assert m.groups[..h + 1][..h] == m.groups[..h];
    } else {
      var a := m.phase.applied;
      var ps := m.txn.publishes;
      assert ps[a..] == [ps[a]] + ps[a + 1..];
      CountSplit([ps[a]], ps[a + 1..], at);
    }
  }

  lemma OrdinarySlots(q: Queue, p: Policy, msg: Message, stamp: nat)
    requires !p.dropHead && IsOrdinary(msg) && Depth(q) + q.reserved <= p.maxLen
    ensures var r := Arm(q, p, msg, stamp); r.reserved == q.reserved && Depth(r) + r.reserved <= p.maxLen
  {
    if msg.Publish? {
      RejectPublish(q, p, msg.body, false, stamp);
    } else {
      ArmSteady(q, p, msg, stamp);
    }
  }

  lemma ReservationSlots(s: Sys, ps: map<nat, Policy>, queue: nat, stamp: nat)
    requires Inv(s, ps) && queue in s.queues && queue in s.mail
    requires queue in ps && s.mail[queue] != [] && !ps[queue].dropHead
    requires s.mail[queue][0].ReserveFor? || s.mail[queue][0].PublishFor?
    ensures SlotsExact(ReceiveMail(s, ps, queue, stamp), ps, queue)
  {
    hide MailsOk, CommitsOk, PhaseOk, Held, Over, MakeRoom, QueuesOk;
    var x, q, p := s.mail[queue][0], s.queues[queue], ps[queue];
    HeadMail(s, ps, queue);
    CommitAt(s, ps, x.commit);
    var t := ReceiveMail(s, ps, queue, stamp);
    ReplyHeld(s, t, x, queue, queue);
    TotalHeldUpdate(s.commits, x.commit, t.commits[x.commit], queue);
    TotalHeldAtLeast(s.commits, x.commit, queue);
    if x.PublishFor? {
      RejectPublish(q, p, x.body, true, stamp);
    }
  }

  lemma ReceiveSlotsHere(s: Sys, ps: map<nat, Policy>, queue: nat, stamp: nat)
    requires Inv(s, ps) && queue in s.queues && s.mail[queue] != [] && !ps[queue].dropHead
    ensures SlotsExact(ReceiveMail(s, ps, queue, stamp), ps, queue)
  {
    var x := s.mail[queue][0];
    if x.ReserveFor? || x.PublishFor? {
      ReservationSlots(s, ps, queue, stamp);
    } else {
      assert MailOk(s, queue, x) && SlotsExact(s, ps, queue);
      if !x.Release? {
        hide MailsOk, CommitsOk, Arm;
        OrdinarySlots(s.queues[queue], ps[queue], ArmOf(x), stamp);
      }
    }
  }

  lemma ReceiveKeeps(s: Sys, ps: map<nat, Policy>, queue: nat, stamp: nat)
    requires Inv(s, ps) && queue in s.queues && s.mail[queue] != []
    ensures Inv(ReceiveMail(s, ps, queue, stamp), ps)
  {
    hide MailsOk, CommitsOk, SlotsExact, Arm, Grants, Refuses;
    ReceiveCommits(s, ps, queue, stamp);
    ReceiveMails(s, ps, queue, stamp);
    var t := ReceiveMail(s, ps, queue, stamp);
    ArmLanded(s.queues[queue], ps[queue], ArmOf(s.mail[queue][0]), stamp);
    forall q | q in t.queues ensures SlotsExact(t, ps, q) {
      if q != queue {
        ReceiveSlotsElsewhere(s, ps, queue, stamp, q);
      } else {
        QueueSlots(s, ps, queue, stamp);
      }
    }
  }

  lemma QueueSlots(s: Sys, ps: map<nat, Policy>, queue: nat, stamp: nat)
    requires Inv(s, ps) && queue in s.queues && s.mail[queue] != []
    ensures SlotsExact(ReceiveMail(s, ps, queue, stamp), ps, queue)
  {
    if !ps[queue].dropHead { ReceiveSlotsHere(s, ps, queue, stamp); }
  }

  // ---------------------------------------------------------------- preservation: the other steps

  lemma BeginSlots(s: Sys, t: Sys, ps: map<nat, Policy>, m: Commit, queue: nat)
    requires t == s.(commits := s.commits + [m]) && m.phase == Reserving(0)
    requires queue in s.queues && queue in s.mail && queue in ps && SlotsExact(s, ps, queue)
    ensures SlotsExact(t, ps, queue)
  {
    assert t.commits[..|s.commits|] == s.commits;
    assert m.groups[..0] == [];
  }

  lemma BeginKeeps(s: Sys, ps: map<nat, Policy>, txn: Txn)
    requires Inv(s, ps)
    ensures Inv(Next(s, ps, Begin(txn)), ps)
  {
    hide SlotsExact, GroupAll;
    var t := Next(s, ps, Begin(txn));
    forall queue | queue in t.queues ensures SlotsExact(t, ps, queue) {
      BeginSlots(s, t, ps, t.commits[|s.commits|], queue);
    }
    assert MailsOk(t) by {
      forall q, i | q in t.mail && 0 <= i < |t.mail[q]| ensures MailOk(t, q, t.mail[q][i]) {
        assert MailOk(s, q, s.mail[q][i]);
      }
    }
  }

  lemma PostKeeps(s: Sys, ps: map<nat, Policy>, queue: nat, msg: Message)
    requires Inv(s, ps) && IsOrdinary(msg)
    ensures Inv(Put(s, queue, Ordinary(msg)), ps)
  {
    hide MailsOk, CommitsOk;
    var t := Put(s, queue, Ordinary(msg));
    PutMails(s, queue, Ordinary(msg));
    CommitsFrame(s, t);
    forall q | q in t.queues ensures SlotsExact(t, ps, q) {
      assert SlotsExact(s, ps, q);
      ReturningAppend(s.mail[q], Ordinary(msg));
    }
  }

  lemma InternalKeeps(s: Sys, ps: map<nat, Policy>, queue: nat, turn: Turn)
    requires Inv(s, ps) && queue in s.queues && !turn.ArmTurn?
    ensures Inv(s.(queues := s.queues[queue := Take(s.queues[queue], ps[queue], turn)]), ps)
  {
    hide Take, CommitsOk;
    var t := s.(queues := s.queues[queue := Take(s.queues[queue], ps[queue], turn)]);
    TurnSteady(s.queues[queue], ps[queue], turn);
    CommitsFrame(s, t);
    assert MailsOk(t) by {
      forall q, i | q in t.mail && 0 <= i < |t.mail[q]| ensures MailOk(t, q, t.mail[q][i]) {
        assert MailOk(s, q, s.mail[q][i]);
      }
    }
    forall q | q in t.queues ensures SlotsExact(t, ps, q) {
      assert SlotsExact(s, ps, q);
    }
  }

  lemma NextKeeps(s: Sys, ps: map<nat, Policy>, step: Step)
    requires Inv(s, ps)
    ensures Inv(Next(s, ps, step), ps)
  {
    match step
    case Begin(txn) => BeginKeeps(s, ps, txn);
    case Post(queue, msg) => if IsOrdinary(msg) { PostKeeps(s, ps, queue, msg); }
    case Receive(queue, stamp) =>
      if queue in s.queues && s.mail[queue] != [] { ReceiveKeeps(s, ps, queue, stamp); }
    case Internal(queue, turn) =>
      if queue in s.queues && !turn.ArmTurn? { InternalKeeps(s, ps, queue, turn); }
    case Advance(c) => if c < |s.commits| { AdvanceKeeps(s, ps, c); }
  }

  lemma {:induction false} EveryRunKeeps(ps: map<nat, Policy>, steps: seq<Step>)
    ensures Inv(Run(ps, steps), ps)
    decreases |steps|
  {
    if steps != [] {
      EveryRunKeeps(ps, steps[..|steps| - 1]);
      NextKeeps(Run(ps, steps[..|steps| - 1]), ps, steps[|steps| - 1]);
    }
  }

  // ---------------------------------------------------------------- the theorems

  /**
   * In every interleaving a finished commit is complete or rolled back, never partial. Complete: every staged
   * publish is stored on its queue with its own body, in staging order per queue. Rolled back: nothing was stored.
   */
  lemma PublishesAreAtomic(ps: map<nat, Policy>, steps: seq<Step>, c: nat)
    requires c < |Run(ps, steps).commits| && Run(ps, steps).commits[c].phase.Done?
    ensures var m := Run(ps, steps).commits[c];
            match m.phase.outcome
            case Partial(_, _) => false
            case RolledBack => m.ids == []
            case Complete => |m.ids| == |m.txn.publishes| && IdsOk(Run(ps, steps), m)
  {
    EveryRunKeeps(ps, steps);
    assert PhaseOk(Run(ps, steps).commits[c], Run(ps, steps).mail.Keys);
  }

  /** Two publishes of transactions never share a stored message. */
  lemma LandingsAreDistinct(ps: map<nat, Policy>, steps: seq<Step>, c: nat, d: nat, i: nat, j: nat)
    requires var s := Run(ps, steps);
             && c < |s.commits| && d < |s.commits| && (c, i) != (d, j)
             && i < |s.commits[c].ids| && j < |s.commits[d].ids|
    ensures var s := Run(ps, steps);
            && i < |s.commits[c].txn.publishes| && j < |s.commits[d].txn.publishes|
            && (s.commits[c].txn.publishes[i].queue == s.commits[d].txn.publishes[j].queue ==>
                  s.commits[c].ids[i] != s.commits[d].ids[j])
  {
    hide PhaseOk, QueuesOk, MailsOk, Run;
    EveryRunKeeps(ps, steps);
    var s := Run(ps, steps);
    assert IdsOk(s, s.commits[c]) && IdsOk(s, s.commits[d]);
    if c < d {
      assert Apart(s.commits[c], s.commits[d]);
    } else if d < c {
      assert Apart(s.commits[d], s.commits[c]);
    }
  }

  /**
   * On every reject-policy queue, at every moment, the reserved slots are exactly those held by commits
   * in progress or being given back, and stored plus reserved never exceeds the depth bound.
   */
  lemma ReservationsAreExact(ps: map<nat, Policy>, steps: seq<Step>, queue: nat)
    requires queue in ps && !ps[queue].dropHead
    ensures var s := Run(ps, steps);
            && queue in s.queues && queue in s.mail
            && s.queues[queue].reserved == TotalHeld(s.commits, queue) + Returning(s.mail[queue])
            && |s.queues[queue].ready| + |s.queues[queue].unacked| + s.queues[queue].reserved <= ps[queue].maxLen
  {
    EveryRunKeeps(ps, steps);
    assert SlotsExact(Run(ps, steps), ps, queue);
  }
}
