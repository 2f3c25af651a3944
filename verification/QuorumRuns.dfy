/**
 * More about whole terms of a quorum queue's leader: what the producers are told, how deep the queue gets,
 * and what a refused publish leaves behind (ramqp-broker/src/quorum.rs).
 */
module QuorumRuns {
  import opened Collections
  import opened Dispatch
  import opened TransientQueue
  import G = QueueGroup
  import opened Quorum
  import opened QuorumSafety

  // ---------------------------------------------------------------- expiry and dispatch tell producers nothing

  lemma {:induction false} ExpireTellsNothing(q: Leader, p: Policy, now: nat)
    ensures var r := ExpireHead(q, p, now);
            r.h.answers == q.h.answers && r.h.asking == q.h.asking && r.tokens == q.tokens && r.pending == q.pending
            && r.reserved == q.reserved && r.inflight == q.inflight && r.ready <= q.ready && r.subs == q.subs
            && r.rr == q.rr
    decreases |q.ready|
  {
    if q.ready != {} && IsExpired(q, p, Least(q.ready), now) {
      ExpireTellsNothing(RemoveReady(q, Least(q.ready)), p, now);
    }
  }

  lemma OfferTellsNothing(q: Leader, id: nat, idx: nat, ok: bool)
    requires idx < |q.subs| && q.subs[idx].demand > 0
    ensures var r := Offer(q, id, idx, ok);
            r.h.answers == q.h.answers && r.h.asking == q.h.asking && r.tokens == q.tokens && r.pending == q.pending
            && r.reserved == q.reserved && r.proposals == q.proposals
  {
    hide Departed, After, Without;
    var s := q.subs[idx];
    DepartedTells(q.(subs := q.subs[idx := s.(demand := s.demand - 1)], rr := After(idx, |q.subs|)), s.id);
  }

  lemma DepartedTells(q: Leader, sub: nat)
    ensures var r := Departed(q, sub);
            r.h.answers == q.h.answers && r.h.asking == q.h.asking && r.tokens == q.tokens && r.pending == q.pending
            && r.reserved == q.reserved && r.proposals == q.proposals
  {
  }

  lemma {:induction false} ServeTellsNothing(q: Leader, ok: nat -> bool, n: nat)
    ensures var r := ServeAll(q, ok, n);
            r.h.answers == q.h.answers && r.h.asking == q.h.asking && r.tokens == q.tokens && r.pending == q.pending
            && r.reserved == q.reserved && r.proposals == q.proposals
    decreases |q.subs|, |q.ready|
  {
    hide Offer;
    if q.ready != {} && PickReady(q.subs, q.rr).Some? {
      ServeShrinks(q, ok(n));
      OfferTellsNothing(q, Least(q.ready), PickReady(q.subs, q.rr).value, ok(n));
      ServeTellsNothing(Serve(q, ok(n)), ok, n + 1);
    }
  }

  // ---------------------------------------------------------------- answers

  /** A waiting publish: some proposal still carries its token. */
  ghost predicate Unanswered(q: Leader, t: nat) {
    exists tag :: tag in q.proposals && q.proposals[tag].kind.Enq? && q.proposals[tag].kind.token == t
  }

  ghost predicate LandedAs(q: Leader, t: nat, id: nat) {
    exists tag :: tag in q.proposals && q.proposals[tag].kind.Enq? && q.proposals[tag].kind.token == t &&
      q.proposals[tag].status == Committed(G.Enqueued(id))
  }

  lemma RemoveReadyTells(q: Leader, id: nat)
    ensures RemoveReady(q, id).h.answers == q.h.answers && RemoveReady(q, id).tokens == q.tokens
  {
  }

  lemma AnswersOf(q: Leader, body: Bytes, ms: nat)
    ensures Refused(q).h.answers == q.h.answers[q.tokens := None] && Accepted(q, body, ms).h.answers == q.h.answers
  {
  }

  lemma PublishesAnswers(q: Leader, p: Policy, body: Bytes, fromReserved: bool, resident: nat, ms: nat)
    ensures var r := Publishes(q, p, body, fromReserved, resident, ms);
            r.h.answers == q.h.answers || r.h.answers == q.h.answers[q.tokens := None]
  {
    hide Full, TooManyBytes, RemoveReady, Refused, Accepted;
    var q1 := SlotTaken(q, fromReserved);
    var q2 := RoomMade(q1, p);
    AnswersOf(q1, body, ms);
    if q1.ready != {} { RemoveReadyTells(q1, Least(q1.ready)); }
    AnswersOf(q2, body, ms);
  }

  lemma SettlesAnswers(q: Leader, p: Policy, sub: nat, id: nat, outcome: Outcome)
    ensures Settles(q, p, sub, id, outcome).h.answers == q.h.answers
  {
    hide RemoveHeld, Requeued, RequeuedWithCount;
    TakenOutTells(q, id, true, 0);
    TakenOutTells(q, id, false, CountOf(q, id) + 1);
  }

  lemma TakenOutTells(q: Leader, id: nat, readd: bool, count: nat)
    ensures RemoveHeld(q, id, readd).h.answers == q.h.answers
    ensures Requeued(q, id).h.answers == q.h.answers && RequeuedWithCount(q, id, count).h.answers == q.h.answers
  {
  }

  lemma TokenIsNew(q: Leader, p: Policy)
    requires Ok(q, p)
    ensures q.tokens !in q.h.answers
  {
    hide Placed, Owned, Ids, WithinLimit, Tags, Counters, Confirming, Removing, Asking;
  }

  lemma MailAnswers(q: Leader, p: Policy, msg: Message, resident: nat, ms: nat, t: nat)
    requires Ok(q, p)
    ensures var r := Mail(q, p, msg, resident, ms);
            && (t in q.h.answers ==> t in r.h.answers && r.h.answers[t] == q.h.answers[t])
            && (t in r.h.answers && t !in q.h.answers ==> t == q.tokens && r.h.answers[t].None?)
  {
    hide Ok, Publishes, Settles, Departed;
    TokenIsNew(q, p);
    match msg {
      case Publish(body) => PublishesAnswers(q, p, body, false, resident, ms);
      case PublishReserved(body) => PublishesAnswers(q, p, body, true, resident, ms);
      case Settle(sub, id, outcome) => SettlesAnswers(q, p, sub, id, outcome);
      case Unsubscribe(sub) => DepartedTells(q, sub);
      case _ =>
    }
  }

  lemma TokenAsked(q: Leader, p: Policy, tag: nat)
    requires Ok(q, p) && tag in q.proposals && q.proposals[tag].kind.Enq?
    ensures q.proposals[tag].kind.token !in q.h.answers
  {
    hide Placed, Owned, Ids, WithinLimit, Tags, Counters, Confirming, Removing;
    assert q.proposals[tag].kind.token in q.h.asking;
  }

  lemma PublishTells(q: Leader, kind: Kind, status: Status)
    requires kind.Enq?
    ensures PublishCompleted(q, kind, status).h.answers ==
            q.h.answers[kind.token :=
              if status.Committed? && status.resp.Enqueued? then Some(status.resp.msgId) else None]
  {
  }

  lemma RemovalTells(q: Leader, id: nat, readd: bool, status: Status)
    ensures RemovalCompleted(q, id, readd, status).h.answers == q.h.answers
  {
  }

  lemma CompletedAnswers(q: Leader, p: Policy, tag: nat, t: nat)
    requires Ok(q, p) && tag in q.proposals && !q.proposals[tag].status.Waiting?
    ensures var r := Completed(q, tag);
            && (t in q.h.answers ==> t in r.h.answers && r.h.answers[t] == q.h.answers[t])
            && (t in r.h.answers && t !in q.h.answers && r.h.answers[t].Some? ==> LandedAs(q, t, r.h.answers[t].value))
  {
    hide Ok, PublishCompleted, RemovalCompleted;
    var x := q.proposals[tag];
    var q1 := q.(proposals := q.proposals - {tag});
    if x.kind.Rem? { RemovalTells(q1, x.kind.id, x.kind.readd, x.status); }
    if x.kind.Enq? {
      TokenAsked(q, p, tag);
      PublishTells(q1, x.kind, x.status);
      if x.status.Committed? && x.status.resp.Enqueued? { assert LandedAs(q, x.kind.token, x.status.resp.msgId); }
    }
  }

  /** One step: given answers stand, and a new confirmation is of a publish the log has committed under that id. */
  lemma NextAnswers(q: Leader, p: Policy, step: Step, t: nat)
    requires Ok(q, p) && Enabled(q, step)
    ensures var r := Next(q, p, step);
            && (t in q.h.answers ==> t in r.h.answers && r.h.answers[t] == q.h.answers[t])
            && (t in r.h.answers && t !in q.h.answers && r.h.answers[t].Some? ==> LandedAs(q, t, r.h.answers[t].value))
  {
    hide Ok, Mail, Completed, ExpireHead, ServeAll, LandedAs;
    match step
    case Receive(msg, resident, ms, now, ok) =>
      MailAnswers(q, p, msg, resident, ms, t);
      ExpireTellsNothing(Mail(q, p, msg, resident, ms), p, now);
      ServeTellsNothing(ExpireHead(Mail(q, p, msg, resident, ms), p, now), ok, 0);
    case LogCommits(tag) =>
    case LogFails(tag) =>
    case Complete(tag, now, ok) =>
      CompletedAnswers(q, p, tag, t);
      ExpireTellsNothing(Completed(q, tag), p, now);
      ServeTellsNothing(ExpireHead(Completed(q, tag), p, now), ok, 0);
  }

  lemma {:induction false} AnswersStand(qs: seq<Leader>, p: Policy, steps: seq<Step>, m: nat, n: nat, t: nat)
    requires IsTerm(qs, p, steps) && m <= n < |qs| && t in qs[m].h.answers
    requires forall id :: id in qs[0].applied.messages ==> 1 <= id <= qs[0].applied.nextMsgId
    ensures t in qs[n].h.answers && qs[n].h.answers[t] == qs[m].h.answers[t]
    decreases n - m
  {
    hide Ok, Next, Enabled;
    if m < n {
      AnswersStand(qs, p, steps, m, n - 1, t);
      EveryTermOk(qs, p, steps, n - 1);
      NextAnswers(qs[n - 1], p, steps[n - 1], t);
    }
  }

  /** A confirmed publish was committed by the log first, under the id it was confirmed for. */
  lemma {:induction false} ConfirmedWasCommitted(qs: seq<Leader>, p: Policy, steps: seq<Step>, n: nat, t: nat)
    requires IsTerm(qs, p, steps) && n < |qs| && t in qs[n].h.answers && qs[n].h.answers[t].Some?
    requires forall id :: id in qs[0].applied.messages ==> 1 <= id <= qs[0].applied.nextMsgId
    ensures exists m :: 0 <= m < n && LandedAs(qs[m], t, qs[n].h.answers[t].value)
  {
    hide Ok, Next, Enabled, LandedAs;
    if n > 0 {
      EveryTermOk(qs, p, steps, n - 1);
      NextAnswers(qs[n - 1], p, steps[n - 1], t);
      if t in qs[n - 1].h.answers { ConfirmedWasCommitted(qs, p, steps, n - 1, t); }
    }
  }

  /** Every publish the leader took is, at every moment, either waiting or answered, and not both. */
  lemma AnsweredOnce(qs: seq<Leader>, p: Policy, steps: seq<Step>, n: nat, t: nat)
    requires IsTerm(qs, p, steps) && n < |qs|
    requires forall id :: id in qs[0].applied.messages ==> 1 <= id <= qs[0].applied.nextMsgId
    ensures Truth(Unanswered(qs[n], t)) + Truth(t in qs[n].h.answers) == Truth(t < qs[n].tokens)
  {
    hide IsTerm, Placed, Owned, Ids, WithinLimit, Tags, Counters, Confirming, Removing;
    EveryTermOk(qs, p, steps, n);
    var q := qs[n];
    if t in q.h.asking { assert q.proposals[q.h.asking[t]].kind.token == t; }
  }

  // ---------------------------------------------------------------- depth

  /** Everything the depth bound counts. */
  function Load(q: Leader): nat {
    |q.ready| + |q.inflight| + q.pending + q.reserved
  }

  lemma CardUnion(a: set<nat>, b: set<nat>)
    requires a !! b
    ensures |a + b| == |a| + |b|
  {
  }

  lemma {:induction false} CardSub(a: set<nat>, b: set<nat>)
    requires a <= b
    ensures |a| <= |b|
  {
    CardUnion(a, b - a);
    assert a + (b - a) == b;
  }

  lemma BackCard(ready: set<nat>, held: map<nat, nat>, back: set<nat>)
    requires ready !! held.Keys && back <= held.Keys
    ensures |ready + back| + |held - back| == |ready| + |held|
  {
    CardUnion(ready, back);
    var rest := held - back;
    assert rest.Keys == held.Keys - back;
    CardUnion(rest.Keys, back);
    assert rest.Keys + back == held.Keys;
    assert |rest| == |rest.Keys| && |held| == |held.Keys|;
  }

  lemma ReadyNotHeld(q: Leader)
    requires Placed(q)
    ensures q.ready !! q.inflight.Keys
  {
  }

  lemma DepartedLoad(q: Leader, sub: nat)
    requires Placed(q)
    ensures Load(Departed(q, sub)) == Load(q)
  {
    hide Placed, Without;
    ReadyNotHeld(q);
    BackCard(q.ready, q.inflight, HeldBy(q.inflight, sub));
  }

  lemma RequeuedLoad(q: Leader, id: nat)
    requires Placed(q) && id in q.inflight
    ensures |q.ready + {id}| == |q.ready| + 1 && |q.inflight - {id}| == |q.inflight| - 1
  {
    var rest := q.inflight - {id};
    assert rest.Keys == q.inflight.Keys - {id};
    assert |rest| == |rest.Keys| && |q.inflight| == |q.inflight.Keys|;
  }

  /** The depth, or the bound if that is more. */
  function Top(q: Leader, p: Policy): nat { if Load(q) <= p.maxLen then p.maxLen else Load(q) }

  /** A message acknowledged or dropped, whose removal the log failed, comes back. */
  predicate ComesBack(q: Leader, step: Step) {
    && step.Complete? && step.tag in q.proposals && q.proposals[step.tag].status.Failed?
    && q.proposals[step.tag].kind.Rem? && q.proposals[step.tag].kind.readd
  }

  /** No slot is held for a reserved publish, the queue is full, and there is nothing to displace for it. */
  predicate NoSlot(q: Leader, p: Policy) {
    q.reserved == 0 && Full(q, p) && !(p.dropHead && q.ready != {})
  }

  /** Such a publish is taken all the same. */
  predicate SqueezesIn(q: Leader, p: Policy, step: Step) {
    step.Receive? && step.msg.PublishReserved? && NoSlot(q, p)
  }

  lemma TakenOutLoad(q: Leader, id: nat, readd: bool, count: nat)
    requires Placed(q) && id in q.inflight
    ensures Load(RemoveHeld(q, id, readd)) <= Load(q)
    ensures Load(Requeued(q, id)) == Load(q) && Load(RequeuedWithCount(q, id, count)) == Load(q)
  {
    hide Placed;
    RequeuedLoad(q, id);
  }

  lemma SettlesLoad(q: Leader, p: Policy, sub: nat, id: nat, outcome: Outcome)
    requires Placed(q)
    ensures Load(Settles(q, p, sub, id, outcome)) <= Load(q)
  {
    hide Placed, Load, RemoveHeld, Requeued, RequeuedWithCount;
    if id in q.inflight {
      TakenOutLoad(q, id, true, 0);
      TakenOutLoad(q, id, false, CountOf(q, id) + 1);
    }
  }

  lemma LoadOf(q: Leader, body: Bytes, ms: nat)
    ensures Load(Refused(q)) == Load(q) && Load(Accepted(q, body, ms)) == Load(q) + 1
  {
  }

  /** A message displaced leaves room for one. */
  lemma RoomLoad(q: Leader, p: Policy)
    ensures Load(RoomMade(q, p)) == Load(q) - Truth(Full(q, p) && p.dropHead && q.ready != {})
    ensures !(Full(q, p) && p.dropHead && q.ready != {}) ==> RoomMade(q, p) == q
  {
  }

  lemma PublishesLoad(q: Leader, p: Policy, body: Bytes, fromReserved: bool, resident: nat, ms: nat)
    ensures var r := Publishes(q, p, body, fromReserved, resident, ms);
            if fromReserved && NoSlot(q, p) then Load(r) == Load(q) + 1 && r.ready == q.ready && r.applied == q.applied
            else Load(r) <= Top(q, p)
  {
    hide Refused, Accepted, TooManyBytes, RemoveReady, RoomMade;
    var q1 := SlotTaken(q, fromReserved);
    RoomLoad(q1, p);
    LoadOf(q1, body, ms);
    LoadOf(RoomMade(q1, p), body, ms);
    AcceptedKeepsReady(q1, body, ms);
  }

  lemma AcceptedKeepsReady(q: Leader, body: Bytes, ms: nat)
    ensures Accepted(q, body, ms).ready == q.ready && Accepted(q, body, ms).applied == q.applied
  {
  }

  lemma MailLoad(q: Leader, p: Policy, msg: Message, resident: nat, ms: nat)
    requires Placed(q)
    ensures var r := Mail(q, p, msg, resident, ms);
            if msg.PublishReserved? && NoSlot(q, p)
            then Load(r) == Load(q) + 1 && r.ready == q.ready && r.applied == q.applied
            else Load(r) <= Top(q, p)
  {
    hide Placed, Publishes, Settles, Departed;
    match msg {
      case Publish(body) => PublishesLoad(q, p, body, false, resident, ms);
      case PublishReserved(body) => PublishesLoad(q, p, body, true, resident, ms);
      case Settle(sub, id, outcome) => SettlesLoad(q, p, sub, id, outcome);
      case Unsubscribe(sub) => DepartedLoad(q, sub);
      case _ =>
    }
  }

  lemma CompletedEnqLoad(q: Leader, tag: nat)
    requires tag in q.proposals && !q.proposals[tag].status.Waiting? && q.proposals[tag].kind.Enq? && q.pending > 0
    ensures Load(Completed(q, tag)) <= Load(q)
  {
    hide PublishAnswered;
    var x := q.proposals[tag];
    PublishAnsweredLoad(q.(proposals := q.proposals - {tag}), x.kind, None);
    if x.status.Committed? && x.status.resp.Enqueued? {
      PublishAnsweredLoad(q.(proposals := q.proposals - {tag}), x.kind, Some(x.status.resp.msgId));
    }
  }

  lemma PublishAnsweredLoad(q: Leader, kind: Kind, id: Option<nat>)
    requires kind.Enq?
    ensures var r := PublishAnswered(q, kind, id);
            && r.pending == SatSub(q.pending, 1) && r.reserved == q.reserved
            && r.ready == q.ready && r.inflight == q.inflight
  {
  }

  lemma CompletedRemLoad(q: Leader, tag: nat)
    requires tag in q.proposals && !q.proposals[tag].status.Waiting? && !q.proposals[tag].kind.Enq?
    ensures var x := q.proposals[tag];
            Load(Completed(q, tag)) <= Load(q) + Truth(x.status.Failed? && x.kind.Rem? && x.kind.readd)
  {
  }

  lemma CompletedLoad(q: Leader, p: Policy, tag: nat)
    requires Ok(q, p) && tag in q.proposals && !q.proposals[tag].status.Waiting?
    ensures var x := q.proposals[tag];
            Load(Completed(q, tag)) <= Load(q) + Truth(x.status.Failed? && x.kind.Rem? && x.kind.readd)
  {
    hide Ok, Completed, Load;
    if q.proposals[tag].kind.Enq? {
      CompletedEnq(q, p, tag);
      CompletedEnqLoad(q, tag);
    } else {
      CompletedRemLoad(q, tag);
    }
  }

  lemma ServeLoad(q: Leader, p: Policy, ok: bool)
    requires Ok(q, p) && CanServe(q)
    ensures Load(Serve(q, ok)) == Load(q)
  {
    hide Ok, Offer;
    OfferLoad(q, p, Least(q.ready), PickReady(q.subs, q.rr).value, ok);
  }

  lemma OfferLoad(q: Leader, p: Policy, id: nat, idx: nat, ok: bool)
    requires Ok(q, p) && id in q.ready && idx < |q.subs| && q.subs[idx].demand > 0
    ensures Load(Offer(q, id, idx, ok)) == Load(q)
  {
    hide Ok, Departed;
    ReadyIsApplied(q, p, id);
    NotHeld(q, p, id);
    var s := q.subs[idx];
    var q1 := q.(subs := q.subs[idx := s.(demand := s.demand - 1)], rr := After(idx, |q.subs|));
    PlacedWhenOk(q, p, q1);
    DepartedLoad(q1, s.id);
  }

  lemma NotHeld(q: Leader, p: Policy, id: nat)
    requires Ok(q, p) && id in q.ready
    ensures id !in q.inflight
  {
    hide Owned, Ids, WithinLimit, Book;
  }

  lemma PlacedWhenOk(q: Leader, p: Policy, r: Leader)
    requires Ok(q, p) && r.applied == q.applied && r.ready == q.ready && r.inflight == q.inflight
    requires r.h.confirming == q.h.confirming && r.h.removing == q.h.removing && r.h.left == q.h.left
    ensures Placed(r)
  {
    hide Owned, Ids, WithinLimit, Book, Split;
  }

  lemma {:induction false} ServeAllLoad(q: Leader, p: Policy, ok: nat -> bool, n: nat)
    requires Ok(q, p)
    ensures Load(ServeAll(q, ok, n)) == Load(q)
    decreases |q.subs|, |q.ready|
  {
    hide Ok, Serve;
    if q.ready != {} && PickReady(q.subs, q.rr).Some? {
      ServeShrinks(q, ok(n));
      ServeOk(q, p, ok(n));
      ServeLoad(q, p, ok(n));
      ServeAllLoad(Serve(q, ok(n)), p, ok, n + 1);
    }
  }

  lemma AndServeLoad(q: Leader, p: Policy, now: nat, ok: nat -> bool)
    requires Ok(q, p)
    ensures Load(AndServe(q, p, now, ok)) <= Load(q)
  {
    hide Ok, ExpireHead, ServeAll;
    ExpireOk(q, p, now);
    ExpireTellsNothing(q, p, now);
    CardSub(ExpireHead(q, p, now).ready, q.ready);
    ServeAllLoad(ExpireHead(q, p, now), p, ok, 0);
  }

  lemma LogLoad(q: Leader, tag: nat)
    requires tag in q.proposals
    ensures Load(Commits(q, tag)) == Load(q) && Load(Fails(q, tag)) == Load(q)
  {
  }

  /** A step adds at most one message past the bound, and only in those two ways. */
  lemma NextLoad(q: Leader, p: Policy, step: Step)
    requires Ok(q, p) && Enabled(q, step)
    ensures Load(Next(q, p, step)) <= Top(q, p) + Truth(ComesBack(q, step) || SqueezesIn(q, p, step))
    ensures Load(Next(q, p, step)) <= Load(q) + 1 || Load(Next(q, p, step)) <= Top(q, p)
  {
    hide Ok, Mail, Completed, AndServe, Load, Commits, Fails, NoSlot;
    match step
    case Receive(msg, resident, ms, now, ok) =>
      PlacedWhenOk(q, p, q);
      MailLoad(q, p, msg, resident, ms);
      MailOk(q, p, msg, resident, ms);
      AndServeLoad(Mail(q, p, msg, resident, ms), p, now, ok);
    case LogCommits(tag) => LogLoad(q, tag);
    case LogFails(tag) => LogLoad(q, tag);
    case Complete(tag, now, ok) =>
      CompletedLoad(q, p, tag);
      CompletedOk(q, p, tag);
      AndServeLoad(Completed(q, tag), p, now, ok);
  }

  // ---------------------------------------------------------------- refusals

  predicate Refuses(q: Leader, p: Policy, len: nat, resident: nat) {
    DepthRefuses(q, p, false) || TooManyBytes(q, p, resident, len)
  }

  /**
   * A refused publish should leave the queue as it was. It does not always: drop-head displaces a message
   * before the byte bound is looked at, and the bound can still refuse. Exactly then.
   */
  lemma RefusedPublishChangesNothingIff(q: Leader, p: Policy, body: Bytes, resident: nat, ms: nat)
    requires Refuses(q, p, |body|, resident)
    ensures Publishes(q, p, body, false, resident, ms) == Refused(q) <==>
            !(p.dropHead && Full(q, p) && q.ready != {})
  {
    var q2 := RoomMade(q, p);
    if p.dropHead && Full(q, p) && q.ready != {} {
      assert Least(q.ready) in q.ready;
      assert Publishes(q, p, body, false, resident, ms) == Refused(q2);
      assert Least(q.ready) !in q2.ready;
    }
  }

  // ---------------------------------------------------------------- why messages are taken out

  /**
   * What takes a message out: its owner's word, the delivery limit, its age, or a newcomer on a full drop-head
   * queue.
   */
  predicate Cause(q: Leader, p: Policy, step: Step, id: nat) {
    match step
    case Receive(msg, _, _, now, _) =>
      || IsExpired(q, p, id, now)
      || ((msg.Publish? || msg.PublishReserved?) && Evicts(SlotTaken(q, msg.PublishReserved?), p, id))
      || (msg.Settle? && msg.msgId == id && Finishes(q, p, msg.sub, id, msg.outcome))
    case Complete(_, now, _) => IsExpired(q, p, id, now)
    case LogCommits(_) => false
    case LogFails(_) => false
  }

  predicate Evicts(q: Leader, p: Policy, id: nat) {
    p.dropHead && Full(q, p) && q.ready != {} && id == Least(q.ready)
  }

  predicate Finishes(q: Leader, p: Policy, sub: nat, id: nat, outcome: Outcome) {
    && id in q.inflight && q.inflight[id] == sub
    && (outcome.Ack? || outcome.Drop? || (outcome.RequeueFailed? && AttemptsExhausted(p, CountOf(q, id) + 1)))
  }

  lemma RemoveReadyOnly(q: Leader, id: nat)
    ensures var r := RemoveReady(q, id);
            r.h.removing.Keys == q.h.removing.Keys + {id} && r.applied == q.applied && r.ready == q.ready - {id}
  {
    assert q.h.removing[id := q.nextTag].Keys == q.h.removing.Keys + {id};
  }

  lemma {:induction false} ExpiredOnly(q: Leader, p: Policy, now: nat, id: nat)
    ensures var r := ExpireHead(q, p, now);
            && r.applied == q.applied
            && (id in r.h.removing ==> id in q.h.removing || IsExpired(q, p, id, now))
    decreases |q.ready|
  {
    hide RemoveReady;
    if q.ready != {} && IsExpired(q, p, Least(q.ready), now) {
      RemoveReadyOnly(q, Least(q.ready));
      ExpiredOnly(RemoveReady(q, Least(q.ready)), p, now, id);
    }
  }

  lemma OfferTakesNothing(q: Leader, id: nat, idx: nat, ok: bool)
    requires idx < |q.subs| && q.subs[idx].demand > 0
    ensures Offer(q, id, idx, ok).h.removing == q.h.removing
  {
    hide After, Without;
  }

  lemma {:induction false} ServeTakesNothing(q: Leader, ok: nat -> bool, n: nat)
    ensures ServeAll(q, ok, n).h.removing == q.h.removing
    decreases |q.subs|, |q.ready|
  {
    hide Offer;
    if q.ready != {} && PickReady(q.subs, q.rr).Some? {
      ServeShrinks(q, ok(n));
      OfferTakesNothing(q, Least(q.ready), PickReady(q.subs, q.rr).value, ok(n));
      ServeTakesNothing(Serve(q, ok(n)), ok, n + 1);
    }
  }

  lemma AndServeTakesExpired(q: Leader, p: Policy, now: nat, ok: nat -> bool, id: nat)
    ensures id in AndServe(q, p, now, ok).h.removing ==> id in q.h.removing || IsExpired(q, p, id, now)
  {
    hide ExpireHead, ServeAll;
    ExpiredOnly(q, p, now, id);
    ServeTakesNothing(ExpireHead(q, p, now), ok, 0);
  }

  lemma AnswerTakesNothing(q: Leader, body: Bytes, ms: nat)
    ensures Refused(q).h.removing == q.h.removing && Refused(q).applied == q.applied
    ensures Accepted(q, body, ms).h.removing == q.h.removing && Accepted(q, body, ms).applied == q.applied
  {
  }

  lemma PublishTakes(q: Leader, p: Policy, body: Bytes, fromReserved: bool, resident: nat, ms: nat, id: nat)
    ensures var r := Publishes(q, p, body, fromReserved, resident, ms);
            && r.applied == q.applied
            && (id in r.h.removing ==> id in q.h.removing || Evicts(SlotTaken(q, fromReserved), p, id))
  {
    hide Full, TooManyBytes, RemoveReady, Refused, Accepted;
    var q1 := SlotTaken(q, fromReserved);
    var q2 := RoomMade(q1, p);
    AnswerTakesNothing(q1, body, ms);
    if q1.ready != {} { RemoveReadyOnly(q1, Least(q1.ready)); }
    AnswerTakesNothing(q2, body, ms);
  }

  lemma HeldTakes(q: Leader, id: nat, readd: bool, count: nat, x: nat)
    ensures x in RemoveHeld(q, id, readd).h.removing ==> x in q.h.removing || x == id
    ensures Requeued(q, id).h == q.h && RequeuedWithCount(q, id, count).h == q.h
    ensures RemoveHeld(q, id, readd).applied == q.applied && Requeued(q, id).applied == q.applied
    ensures RequeuedWithCount(q, id, count).applied == q.applied
  {
  }

  lemma SettleTakes(q: Leader, p: Policy, sub: nat, id: nat, outcome: Outcome, x: nat)
    ensures var r := Settles(q, p, sub, id, outcome);
            && r.applied == q.applied
            && (x in r.h.removing ==> x in q.h.removing || (x == id && Finishes(q, p, sub, id, outcome)))
  {
    hide RemoveHeld, Requeued, RequeuedWithCount, CountOf;
    HeldTakes(q, id, true, 0, x);
    HeldTakes(q, id, false, CountOf(q, id) + 1, x);
  }

  lemma MailTakes(q: Leader, p: Policy, msg: Message, resident: nat, ms: nat, now: nat, ok: nat -> bool, id: nat)
    ensures var r := Mail(q, p, msg, resident, ms);
            && r.applied == q.applied
            && (id in r.h.removing ==> id in q.h.removing || Cause(q, p, Receive(msg, resident, ms, now, ok), id))
  {
    hide Publishes, Settles, Departed, Evicts, Finishes;
    match msg {
      case Publish(body) => PublishTakes(q, p, body, false, resident, ms, id);
      case PublishReserved(body) => PublishTakes(q, p, body, true, resident, ms, id);
      case Settle(sub, x, outcome) => SettleTakes(q, p, sub, x, outcome, id);
      case Unsubscribe(sub) => DepartedTakes(q, sub);
      case _ =>
    }
  }

  lemma DepartedTakes(q: Leader, sub: nat)
    ensures Departed(q, sub).h == q.h && Departed(q, sub).applied == q.applied
  {
  }

  lemma CompletedTakes(q: Leader, tag: nat, id: nat)
    requires tag in q.proposals && !q.proposals[tag].status.Waiting?
    ensures Completed(q, tag).applied == q.applied
    ensures id in Completed(q, tag).h.removing ==> id in q.h.removing
  {
    hide PublishCompleted, RemovalCompleted;
    var x := q.proposals[tag];
    var q1 := q.(proposals := q.proposals - {tag});
    if x.kind.Enq? { PublishTakesNothing(q1, x.kind, x.status); }
    if x.kind.Rem? { RemovalTakesNothing(q1, x.kind.id, x.kind.readd, x.status, id); }
  }

  lemma PublishTakesNothing(q: Leader, kind: Kind, status: Status)
    requires kind.Enq?
    ensures PublishCompleted(q, kind, status).h.removing == q.h.removing
    ensures PublishCompleted(q, kind, status).applied == q.applied
  {
  }

  lemma RemovalTakesNothing(q: Leader, id: nat, readd: bool, status: Status, x: nat)
    ensures RemovalCompleted(q, id, readd, status).applied == q.applied
    ensures x in RemovalCompleted(q, id, readd, status).h.removing ==> x in q.h.removing
  {
  }

  /** No message is taken out of the queue without a cause. */
  lemma NothingIsTakenWithoutCause(q: Leader, p: Policy, step: Step, id: nat)
    requires Enabled(q, step)
    ensures id in Next(q, p, step).h.removing && id !in q.h.removing ==> Cause(q, p, step, id)
  {
    hide Mail, Completed, AndServe, Evicts, Finishes, Commits, Fails;
    match step
    case Receive(msg, resident, ms, now, ok) =>
      MailTakes(q, p, msg, resident, ms, now, ok, id);
      AndServeTakesExpired(Mail(q, p, msg, resident, ms), p, now, ok, id);
    case Complete(tag, now, ok) =>
      CompletedTakes(q, tag, id);
      AndServeTakesExpired(Completed(q, tag), p, now, ok, id);
    case LogCommits(tag) => LogTakesNothing(q, tag, id);
    case LogFails(tag) => LogTakesNothing(q, tag, id);
  }

  lemma LogTakesNothing(q: Leader, tag: nat, id: nat)
    requires tag in q.proposals
    ensures id in Commits(q, tag).h.removing ==> id in q.h.removing
    ensures Fails(q, tag).h.removing == q.h.removing
  {
  }

  // ---------------------------------------------------------------- dispatch

  /** After every turn of the actor's loop, nothing is ready or nobody wants anything. */
  lemma {:induction false} ServesUntilQuiet(q: Leader, ok: nat -> bool, n: nat)
    ensures var r := ServeAll(q, ok, n); r.ready == {} || NoDemand(r.subs)
    decreases |q.subs|, |q.ready|
  {
    hide Serve;
    PickReadyIsNearest(q.subs, q.rr);
    if q.ready != {} && PickReady(q.subs, q.rr).Some? {
      ServeShrinks(q, ok(n));
      ServesUntilQuiet(Serve(q, ok(n)), ok, n + 1);
    }
  }

  /**
   * Each delivery is of the oldest ready message, with its committed body, to the nearest subscriber that wants
   * one.
   */
  lemma OldestFirst(q: Leader, p: Policy)
    requires Ok(q, p) && CanServe(q)
    ensures var sent := Serve(q, true).h.sent;
            && |sent| == |q.h.sent| + 1 && sent[..|q.h.sent|] == q.h.sent
            && var d := sent[|q.h.sent|];
               && d.msgId in q.ready && (forall id :: id in q.ready ==> d.msgId <= id)
               && d.msgId in q.applied.messages && d.body == q.applied.messages[d.msgId].body
               && exists i :: 0 <= i < |q.subs| && q.subs[i].id == d.sub && q.subs[i].demand > 0 &&
                    forall j :: 0 <= j < |q.subs| && q.subs[j].demand > 0 ==>
                      Distance(q.rr, i, |q.subs|) <= Distance(q.rr, j, |q.subs|)
  {
    hide Ok;
    var id, i := Least(q.ready), PickReady(q.subs, q.rr).value;
    ReadyIsApplied(q, p, id);
    PickReadyIsNearest(q.subs, q.rr);
    assert q.subs[i].id == Serve(q, true).h.sent[|q.h.sent|].sub;
  }
}
