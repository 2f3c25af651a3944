/**
 * What a quorum queue's leader keeps through a whole term (ramqp-broker/src/quorum.rs): no committed
 * message is ever lost sight of, and every publish is answered once, by what the log did with it.
 */
module QuorumSafety {
  import opened Collections
  import opened Dispatch
  import opened TransientQueue
  import G = QueueGroup
  import opened Quorum

  // ---------------------------------------------------------------- invariant

  /** `all` is split into ready, held, confirming, removing and left. */
  ghost predicate Split(all: set<nat>, a: set<nat>, b: set<nat>, c: set<nat>, d: set<nat>, e: set<nat>) {
    all == a + b + c + d + e && a !! b !! c !! d !! e
  }

  /** Every applied message is in exactly one place. */
  ghost predicate Placed(q: Leader) {
    Split(q.applied.messages.Keys, q.ready, q.inflight.Keys, q.h.confirming.Keys, q.h.removing.Keys, q.h.left)
  }

  lemma SplitMember(all: set<nat>, a: set<nat>, b: set<nat>, c: set<nat>, d: set<nat>, e: set<nat>, x: nat)
    requires Split(all, a, b, c, d, e)
    ensures Truth(x in a) + Truth(x in b) + Truth(x in c) + Truth(x in d) + Truth(x in e) == Truth(x in all)
  {
  }

  lemma FromReady(all: set<nat>, a: set<nat>, b: set<nat>, c: set<nat>, d: set<nat>, e: set<nat>, x: nat)
    requires Split(all, a, b, c, d, e) && x in a
    ensures Split(all, a - {x}, b, c, d + {x}, e) && Split(all, a - {x}, b + {x}, c, d, e)
  {
  }

  lemma FromHeld(all: set<nat>, a: set<nat>, b: set<nat>, c: set<nat>, d: set<nat>, e: set<nat>, x: nat)
    requires Split(all, a, b, c, d, e) && x in b
    ensures Split(all, a, b - {x}, c, d + {x}, e) && Split(all, a + {x}, b - {x}, c, d, e)
  {
  }

  lemma FromConfirming(all: set<nat>, a: set<nat>, b: set<nat>, c: set<nat>, d: set<nat>, e: set<nat>, x: nat)
    requires Split(all, a, b, c, d, e) && x in c
    ensures Split(all, a + {x}, b, c - {x}, d, e)
  {
  }

  lemma FromRemoving(all: set<nat>, a: set<nat>, b: set<nat>, c: set<nat>, d: set<nat>, e: set<nat>, x: nat)
    requires Split(all, a, b, c, d, e) && x in d
    ensures Split(all, a + {x}, b, c, d - {x}, e) && Split(all, a, b, c, d - {x}, e + {x})
    ensures x in all && Split(all - {x}, a, b, c, d - {x}, e)
  {
  }

  lemma Arrives(all: set<nat>, a: set<nat>, b: set<nat>, c: set<nat>, d: set<nat>, e: set<nat>, x: nat)
    requires Split(all, a, b, c, d, e) && x !in all
    ensures x !in c && Split(all + {x}, a, b, c + {x}, d, e)
  {
  }

  lemma AllBack(all: set<nat>, a: set<nat>, b: set<nat>, c: set<nat>, d: set<nat>, e: set<nat>, back: set<nat>)
    requires Split(all, a, b, c, d, e) && back <= b
    ensures Split(all, a + back, b - back, c, d, e)
  {
  }

  ghost predicate Subscribed(subs: seq<Subscriber>, sub: nat) {
    exists i :: 0 <= i < |subs| && subs[i].id == sub
  }

  ghost predicate Owned(q: Leader) {
    forall id :: id in q.inflight ==> Subscribed(q.subs, q.inflight[id])
  }

  predicate Landed(x: Proposal) { x.kind.Enq? && x.status.Committed? }

  predicate Leaving(x: Proposal) { x.kind.Rem? && !x.status.Committed? }

  /** Messages awaiting their enqueue completion, and the proposals that carry them. */
  ghost predicate Confirming(ps: map<nat, Proposal>, c: map<nat, nat>) {
    && (forall id :: id in c ==> c[id] in ps && Landed(ps[c[id]]) && ps[c[id]].status.resp == G.Enqueued(id))
    && (forall tag :: tag in ps && Landed(ps[tag]) ==>
          var resp := ps[tag].status.resp;
          resp.Enqueued? && resp.msgId in c && c[resp.msgId] == tag)
  }

  /** Messages awaiting a removal, and the proposals that carry it. */
  ghost predicate Removing(ps: map<nat, Proposal>, r: map<nat, nat>) {
    && (forall id :: id in r ==> r[id] in ps && Leaving(ps[r[id]]) && ps[r[id]].kind.id == id)
    && (forall tag :: tag in ps && Leaving(ps[tag]) ==> ps[tag].kind.id in r && r[ps[tag].kind.id] == tag)
  }

  /** Publishes waiting on a proposal. */
  ghost predicate Asking(ps: map<nat, Proposal>, a: map<nat, nat>) {
    && (forall t :: t in a ==> a[t] in ps && ps[a[t]].kind.Enq? && ps[a[t]].kind.token == t)
    && (forall tag :: tag in ps && ps[tag].kind.Enq? ==> ps[tag].kind.token in a && a[ps[tag].kind.token] == tag)
  }

  /** Every publish is waiting or has been answered, never both. */
  ghost predicate Answering(tokens: nat, a: map<nat, nat>, answers: map<nat, Option<nat>>) {
    && (forall t :: t in answers ==> t < tokens && t !in a)
    && (forall t :: t in a ==> t < tokens)
    && (forall t :: 0 <= t < tokens ==> t in a || t in answers)
  }

  function One(x: Proposal): nat { if x.kind.Enq? then 1 else 0 }

  function Size(x: Proposal): nat { if x.kind.Enq? then |x.kind.body| else 0 }

  /** The two counters of pipelined publishes are exact, so they never wrap or saturate. */
  ghost predicate Counters(ps: map<nat, Proposal>, pending: nat, pendingBytes: nat) {
    pending == SumMap(ps, One) && pendingBytes == SumMap(ps, Size)
  }

  ghost predicate Tags(ps: map<nat, Proposal>, next: nat) {
    forall tag :: tag in ps ==> tag < next
  }

  ghost predicate Ids(q: Leader) {
    forall id :: id in q.applied.messages ==> 1 <= id <= q.applied.nextMsgId
  }

  /** No message is kept once its failed deliveries reach the limit. */
  ghost predicate WithinLimit(q: Leader, p: Policy) {
    forall id :: id in q.failures ==> !AttemptsExhausted(p, q.failures[id])
  }

  ghost predicate Book(q: Leader) {
    && Tags(q.proposals, q.nextTag) && Counters(q.proposals, q.pending, q.pendingBytes)
    && Confirming(q.proposals, q.h.confirming) && Removing(q.proposals, q.h.removing)
    && Asking(q.proposals, q.h.asking) && Answering(q.tokens, q.h.asking, q.h.answers)
  }

  ghost predicate Ok(q: Leader, p: Policy) {
    Placed(q) && Owned(q) && Ids(q) && Book(q) && WithinLimit(q, p)
  }

  // ---------------------------------------------------------------- bookkeeping of proposals

  lemma CountersInsert(m: map<nat, Proposal>, tag: nat, x: Proposal, n: nat, b: nat)
    requires tag !in m && Counters(m, n, b)
    ensures Counters(m[tag := x], n + One(x), b + Size(x))
  {
    SumMapInsert(m, tag, x, One);
    SumMapInsert(m, tag, x, Size);
  }

  lemma CountersRemove(m: map<nat, Proposal>, tag: nat, n: nat, b: nat)
    requires tag in m && Counters(m, n, b)
    ensures n >= One(m[tag]) && b >= Size(m[tag]) && Counters(m - {tag}, n - One(m[tag]), b - Size(m[tag]))
  {
    SumMapRemove(m, tag, One);
    SumMapRemove(m, tag, Size);
  }

  lemma CountersUpdate(m: map<nat, Proposal>, tag: nat, x: Proposal, n: nat, b: nat)
    requires tag in m && x.kind == m[tag].kind && Counters(m, n, b)
    ensures Counters(m[tag := x], n, b)
  {
    CountersRemove(m, tag, n, b);
    CountersInsert(m - {tag}, tag, x, n - One(x), b - Size(x));
    assert (m - {tag})[tag := x] == m[tag := x];
  }

  /** A new proposal of no message yet. */
  lemma Added(ps: map<nat, Proposal>, tag: nat, x: Proposal, c: map<nat, nat>, r: map<nat, nat>, a: map<nat, nat>)
    requires tag !in ps && x.status.Waiting?
    ensures Confirming(ps, c) ==> Confirming(ps[tag := x], c)
    ensures Removing(ps, r) && !x.kind.Rem? ==> Removing(ps[tag := x], r)
    ensures Asking(ps, a) && !x.kind.Enq? ==> Asking(ps[tag := x], a)
  {
  }

  lemma AddedRemoval(ps: map<nat, Proposal>, tag: nat, id: nat, readd: bool, r: map<nat, nat>)
    requires tag !in ps && Removing(ps, r) && id !in r
    ensures Removing(ps[tag := Proposal(Rem(id, readd), Waiting)], r[id := tag])
  {
  }

  lemma AddedPublish(ps: map<nat, Proposal>, tag: nat, kind: Kind, a: map<nat, nat>)
    requires tag !in ps && Asking(ps, a) && kind.Enq? && kind.token !in a
    ensures Asking(ps[tag := Proposal(kind, Waiting)], a[kind.token := tag])
  {
  }

  /** A completed proposal goes. */
  lemma Gone(ps: map<nat, Proposal>, tag: nat, c: map<nat, nat>, r: map<nat, nat>, a: map<nat, nat>)
    requires tag in ps
    ensures Confirming(ps, c) && !Landed(ps[tag]) ==> Confirming(ps - {tag}, c)
    ensures Removing(ps, r) && !Leaving(ps[tag]) ==> Removing(ps - {tag}, r)
    ensures Asking(ps, a) && !ps[tag].kind.Enq? ==> Asking(ps - {tag}, a)
  {
  }

  lemma GoneLanded(ps: map<nat, Proposal>, tag: nat, c: map<nat, nat>)
    requires tag in ps && Landed(ps[tag]) && Confirming(ps, c)
    ensures ps[tag].status.resp.Enqueued? && ps[tag].status.resp.msgId in c
    ensures Confirming(ps - {tag}, c - {ps[tag].status.resp.msgId})
  {
  }

  lemma GoneLeaving(ps: map<nat, Proposal>, tag: nat, r: map<nat, nat>)
    requires tag in ps && Leaving(ps[tag]) && Removing(ps, r)
    ensures ps[tag].kind.id in r && Removing(ps - {tag}, r - {ps[tag].kind.id})
  {
  }

  lemma GoneAsking(ps: map<nat, Proposal>, tag: nat, a: map<nat, nat>)
    requires tag in ps && ps[tag].kind.Enq? && Asking(ps, a)
    ensures ps[tag].kind.token in a && Asking(ps - {tag}, a - {ps[tag].kind.token})
  {
  }

  /** The log decides a waiting proposal. */
  lemma Decided(ps: map<nat, Proposal>, tag: nat, status: Status, c: map<nat, nat>, r: map<nat, nat>, a: map<nat, nat>)
    requires tag in ps && ps[tag].status.Waiting?
    ensures var qs := ps[tag := ps[tag].(status := status)];
            && (Confirming(ps, c) && !(ps[tag].kind.Enq? && status.Committed?) ==> Confirming(qs, c))
            && (Removing(ps, r) && !(ps[tag].kind.Rem? && status.Committed?) ==> Removing(qs, r))
            && (Asking(ps, a) ==> Asking(qs, a))
  {
  }

  lemma DecidedLanded(ps: map<nat, Proposal>, tag: nat, id: nat, c: map<nat, nat>)
    requires tag in ps && ps[tag].status.Waiting? && ps[tag].kind.Enq? && Confirming(ps, c) && id !in c
    ensures Confirming(ps[tag := ps[tag].(status := Committed(G.Enqueued(id)))], c[id := tag])
  {
  }

  lemma DecidedRemoved(ps: map<nat, Proposal>, tag: nat, resp: G.Response, r: map<nat, nat>)
    requires tag in ps && ps[tag].status.Waiting? && ps[tag].kind.Rem? && Removing(ps, r)
    ensures ps[tag].kind.id in r && Removing(ps[tag := ps[tag].(status := Committed(resp))], r - {ps[tag].kind.id})
  {
  }

  // ---------------------------------------------------------------- moves

  lemma FreshTag(q: Leader, x: Proposal)
    requires Book(q)
    ensures q.nextTag !in q.proposals && Tags(q.proposals[q.nextTag := x], q.nextTag + 1)
  {
  }

  lemma BookRemoval(q: Leader, id: nat, readd: bool)
    requires Book(q) && id !in q.h.removing
    ensures Book(Propose(q, Rem(id, readd)).(h := q.h.(removing := q.h.removing[id := q.nextTag])))
  {
    hide Tags, Counters, Confirming, Removing, Asking, Answering;
    var x := Proposal(Rem(id, readd), Waiting);
    FreshTag(q, x);
    CountersInsert(q.proposals, q.nextTag, x, q.pending, q.pendingBytes);
    Added(q.proposals, q.nextTag, x, q.h.confirming, q.h.removing, q.h.asking);
    AddedRemoval(q.proposals, q.nextTag, id, readd, q.h.removing);
  }

  lemma BookCount(q: Leader, id: nat)
    requires Book(q)
    ensures Book(Propose(q, Cnt(id)))
  {
    hide Tags, Counters, Confirming, Removing, Asking, Answering;
    var x := Proposal(Cnt(id), Waiting);
    FreshTag(q, x);
    CountersInsert(q.proposals, q.nextTag, x, q.pending, q.pendingBytes);
    Added(q.proposals, q.nextTag, x, q.h.confirming, q.h.removing, q.h.asking);
  }

  lemma BookRefused(q: Leader)
    requires Book(q)
    ensures Book(Refused(q))
  {
    hide Tags, Counters, Confirming, Removing, Asking;
  }

  lemma BookAccepted(q: Leader, body: Bytes, ms: nat)
    requires Book(q)
    ensures Book(Accepted(q, body, ms))
  {
    hide Tags, Counters, Confirming, Removing, Asking;
    var kind := Enq(body, ms, q.tokens);
    FreshTag(q, Proposal(kind, Waiting));
    CountersInsert(q.proposals, q.nextTag, Proposal(kind, Waiting), q.pending, q.pendingBytes);
    Added(q.proposals, q.nextTag, Proposal(kind, Waiting), q.h.confirming, q.h.removing, q.h.asking);
    AddedPublish(q.proposals, q.nextTag, kind, q.h.asking);
  }

  // ---------------------------------------------------------------- one place each

  lemma NotRemoving(q: Leader, id: nat)
    requires Placed(q) && (id in q.ready || id in q.inflight)
    ensures id !in q.h.removing
  {
  }

  lemma SamePlaces(q: Leader, r: Leader)
    requires r.applied.messages.Keys == q.applied.messages.Keys && r.ready == q.ready && r.inflight == q.inflight
    requires r.h.confirming == q.h.confirming && r.h.removing == q.h.removing
    requires r.h.left == q.h.left && r.subs == q.subs
    ensures Placed(r) == Placed(q) && Owned(r) == Owned(q)
  {
  }

  lemma RemoveReadyOk(q: Leader, p: Policy, id: nat)
    requires Ok(q, p) && id in q.ready
    ensures Ok(RemoveReady(q, id), p)
  {
    hide Book, Split;
    FromReady(q.applied.messages.Keys, q.ready, q.inflight.Keys, q.h.confirming.Keys, q.h.removing.Keys, q.h.left, id);
    NotRemoving(q, id);
    BookRemoval(q, id, false);
    assert RemoveReady(q, id).h.removing.Keys == q.h.removing.Keys + {id};
    BookFrame(Propose(q, Rem(id, false)).(h := q.h.(removing := q.h.removing[id := q.nextTag])), RemoveReady(q, id));
  }

  /** The bookkeeping reads only these components. */
  lemma BookFrame(q: Leader, r: Leader)
    requires Book(q)
    requires r.proposals == q.proposals && r.nextTag == q.nextTag
    requires r.h.confirming == q.h.confirming && r.h.removing == q.h.removing
    requires r.tokens == q.tokens && r.h.asking == q.h.asking && r.h.answers == q.h.answers
    requires r.pending == q.pending && r.pendingBytes == q.pendingBytes
    ensures Book(r)
  {
  }

  lemma RemoveHeldOk(q: Leader, p: Policy, id: nat, readd: bool)
    requires Ok(q, p) && id in q.inflight
    ensures Ok(RemoveHeld(q, id, readd), p)
  {
    hide Book, Split;
    FromHeld(q.applied.messages.Keys, q.ready, q.inflight.Keys, q.h.confirming.Keys, q.h.removing.Keys, q.h.left, id);
    NotRemoving(q, id);
    BookRemoval(q, id, readd);
    assert RemoveHeld(q, id, readd).h.removing.Keys == q.h.removing.Keys + {id};
    assert RemoveHeld(q, id, readd).inflight.Keys == q.inflight.Keys - {id};
    BookFrame(Propose(q, Rem(id, readd)).(h := q.h.(removing := q.h.removing[id := q.nextTag])),
              RemoveHeld(q, id, readd));
  }

  lemma RequeuedOk(q: Leader, p: Policy, id: nat)
    requires Ok(q, p) && id in q.inflight
    ensures Ok(Requeued(q, id), p)
  {
    hide Book, Split;
    FromHeld(q.applied.messages.Keys, q.ready, q.inflight.Keys, q.h.confirming.Keys, q.h.removing.Keys, q.h.left, id);
    assert (q.inflight - {id}).Keys == q.inflight.Keys - {id};
    BookFrame(q, Requeued(q, id));
  }

  lemma RequeuedWithCountOk(q: Leader, p: Policy, id: nat, count: nat)
    requires Ok(q, p) && id in q.inflight && !AttemptsExhausted(p, count)
    ensures Ok(RequeuedWithCount(q, id, count), p)
  {
    hide Book, Placed, Owned;
    RequeuedOk(q, p, id);
    var r := Requeued(q, id).(failures := q.failures[id := count]);
    SamePlaces(Requeued(q, id), RequeuedWithCount(q, id, count));
    BookFrame(q, r);
    BookCount(r, id);
  }

  lemma RefusedOk(q: Leader, p: Policy)
    requires Ok(q, p)
    ensures Ok(Refused(q), p)
  {
    hide Book, Placed, Owned;
    SamePlaces(q, Refused(q));
    BookRefused(q);
  }

  lemma AcceptedOk(q: Leader, p: Policy, body: Bytes, ms: nat)
    requires Ok(q, p)
    ensures Ok(Accepted(q, body, ms), p)
  {
    hide Book, Placed, Owned;
    SamePlaces(q, Accepted(q, body, ms));
    BookAccepted(q, body, ms);
  }

  lemma DepartedPlaced(q: Leader, sub: nat)
    requires Placed(q)
    ensures Placed(Departed(q, sub))
  {
    hide Split;
    var back := HeldBy(q.inflight, sub);
    assert (q.inflight - back).Keys == q.inflight.Keys - back;
    AllBack(q.applied.messages.Keys, q.ready, q.inflight.Keys, q.h.confirming.Keys, q.h.removing.Keys, q.h.left, back);
  }

  lemma DepartedOwned(q: Leader, sub: nat)
    requires Owned(q)
    ensures Owned(Departed(q, sub))
  {
    var r := Departed(q, sub);
    forall id | id in r.inflight ensures Subscribed(r.subs, r.inflight[id]) {
      var i :| 0 <= i < |q.subs| && q.subs[i].id == q.inflight[id];
      assert q.subs[i] in r.subs;
    }
  }

  lemma DepartedOk(q: Leader, p: Policy, sub: nat)
    requires Ok(q, p)
    ensures Ok(Departed(q, sub), p)
  {
    hide Book, Placed, Owned;
    BookFrame(q, Departed(q, sub));
    DepartedPlaced(q, sub);
    DepartedOwned(q, sub);
  }

  /** Changes to the subscriber list that keep every id. */
  lemma SubsOk(q: Leader, p: Policy, subs: seq<Subscriber>, rr: nat, nextSubId: nat, reserved: nat)
    requires Ok(q, p) && forall sub: nat :: Subscribed(q.subs, sub) ==> Subscribed(subs, sub)
    ensures Ok(q.(subs := subs, rr := rr, nextSubId := nextSubId, reserved := reserved), p)
  {
    hide Book, Subscribed, Split;
    BookFrame(q, q.(subs := subs, rr := rr, nextSubId := nextSubId, reserved := reserved));
  }

  lemma UpdatedSubs(subs: seq<Subscriber>, i: nat, s: Subscriber, sub: nat)
    requires i < |subs| && s.id == subs[i].id && Subscribed(subs, sub)
    ensures Subscribed(subs[i := s], sub)
  {
    var k :| 0 <= k < |subs| && subs[k].id == sub;
    assert subs[i := s][k].id == sub;
  }

  lemma AppendedSubs(subs: seq<Subscriber>, s: Subscriber, sub: nat)
    requires Subscribed(subs, sub)
    ensures Subscribed(subs + [s], sub)
  {
    var k :| 0 <= k < |subs| && subs[k].id == sub;
    assert (subs + [s])[k].id == sub;
  }

  lemma DrainedSubs(subs: seq<Subscriber>, sub: nat)
    requires Subscribed(subs, sub)
    ensures Subscribed(CompleteDrains(subs), sub)
  {
    var k :| 0 <= k < |subs| && subs[k].id == sub;
    assert CompleteDrains(subs)[k].id == sub;
  }

  // ---------------------------------------------------------------- mail

  lemma PublishesOk(q: Leader, p: Policy, body: Bytes, fromReserved: bool, resident: nat, ms: nat)
    requires Ok(q, p)
    ensures Ok(Publishes(q, p, body, fromReserved, resident, ms), p)
  {
    hide Placed, Owned, Ids, Book, WithinLimit, RemoveReady, Accepted, Refused;
    var q1 := SlotTaken(q, fromReserved);
    SubsOk(q, p, q.subs, q.rr, q.nextSubId, q1.reserved);
    RefusedOk(q1, p);
    var q2 := RoomMade(q1, p);
    if q2 != q1 { RemoveReadyOk(q1, p, Least(q1.ready)); }
    RefusedOk(q2, p);
    AcceptedOk(q2, p, body, ms);
  }

  lemma SettlesOk(q: Leader, p: Policy, sub: nat, id: nat, outcome: Outcome)
    requires Ok(q, p)
    ensures Ok(Settles(q, p, sub, id, outcome), p)
  {
    hide Placed, Owned, Ids, Book, WithinLimit, RemoveHeld, Requeued, RequeuedWithCount;
    if id in q.inflight && q.inflight[id] == sub {
      RemoveHeldOk(q, p, id, true);
      RemoveHeldOk(q, p, id, false);
      RequeuedOk(q, p, id);
      if !AttemptsExhausted(p, CountOf(q, id) + 1) { RequeuedWithCountOk(q, p, id, CountOf(q, id) + 1); }
    }
  }

  lemma MailOk(q: Leader, p: Policy, msg: Message, resident: nat, ms: nat)
    requires Ok(q, p)
    ensures Ok(Mail(q, p, msg, resident, ms), p)
  {
    hide Ok, Publishes, Settles, Departed, Subscribed;
    match msg {
      case Publish(body) => PublishesOk(q, p, body, false, resident, ms);
      case PublishReserved(body) => PublishesOk(q, p, body, true, resident, ms);
      case Reserve(count) => SubsOk(q, p, q.subs, q.rr, q.nextSubId, q.reserved + count);
      case Unreserve(count) => SubsOk(q, p, q.subs, q.rr, q.nextSubId, SatSub(q.reserved, count));
      case Subscribe(conn, channel, handle, gen) =>
        var s := Subscriber(q.nextSubId + 1, conn, channel, handle, gen, 0, false);
        forall sub: nat | Subscribed(q.subs, sub) ensures Subscribed(q.subs + [s], sub) {
          AppendedSubs(q.subs, s, sub);
        }
        SubsOk(q, p, q.subs + [s], q.rr, q.nextSubId + 1, q.reserved);
      case Demand(sub, credit, drain) =>
        var i := IndexOf(q.subs, sub);
        if i.Some? {
          var s := Grant(q.subs[i.value], credit, drain);
          forall x: nat | Subscribed(q.subs, x) ensures Subscribed(q.subs[i.value := s], x) {
            UpdatedSubs(q.subs, i.value, s, x);
          }
          SubsOk(q, p, q.subs[i.value := s], q.rr, q.nextSubId, q.reserved);
        }
      case Settle(sub, id, outcome) => SettlesOk(q, p, sub, id, outcome);
      case Unsubscribe(sub) => DepartedOk(q, p, sub);
      case Stats =>
    }
  }

  // ---------------------------------------------------------------- the log and the completions

  lemma CommitsEnq(q: Leader, p: Policy, tag: nat)
    requires Ok(q, p) && tag in q.proposals && q.proposals[tag].status.Waiting? && q.proposals[tag].kind.Enq?
    ensures Ok(Commits(q, tag), p)
  {
    hide Split, Tags, Counters, Confirming, Removing, Asking, Answering;
    var id := q.applied.nextMsgId + 1;
    var x := q.proposals[tag].(status := Committed(G.Enqueued(id)));
    TagsUpdate(q.proposals, q.nextTag, tag, x);
    CountersUpdate(q.proposals, tag, x, q.pending, q.pendingBytes);
    Decided(q.proposals, tag, x.status, q.h.confirming, q.h.removing, q.h.asking);
    assert id !in q.applied.messages;
    Arrives(q.applied.messages.Keys, q.ready, q.inflight.Keys, q.h.confirming.Keys, q.h.removing.Keys, q.h.left, id);
    assert Commits(q, tag).applied.messages.Keys == q.applied.messages.Keys + {id};
    assert Commits(q, tag).h.confirming.Keys == q.h.confirming.Keys + {id};
    DecidedLanded(q.proposals, tag, id, q.h.confirming);
  }

  lemma TagsUpdate(ps: map<nat, Proposal>, next: nat, tag: nat, x: Proposal)
    requires Tags(ps, next) && tag in ps
    ensures Tags(ps[tag := x], next) && Tags(ps - {tag}, next)
  {
  }

  lemma CommitsRem(q: Leader, p: Policy, tag: nat)
    requires Ok(q, p) && tag in q.proposals && q.proposals[tag].status.Waiting? && q.proposals[tag].kind.Rem?
    ensures Ok(Commits(q, tag), p)
  {
    hide Split, Tags, Counters, Confirming, Removing, Asking, Answering;
    var kind := q.proposals[tag].kind;
    var resp := G.ApplyPlain(q.applied, CommandOf(kind)).1;
    var x := Proposal(kind, Committed(resp));
    TagsUpdate(q.proposals, q.nextTag, tag, x);
    CountersUpdate(q.proposals, tag, x, q.pending, q.pendingBytes);
    Decided(q.proposals, tag, x.status, q.h.confirming, q.h.removing, q.h.asking);
    DecidedRemoved(q.proposals, tag, resp, q.h.removing);
    FromRemoving(q.applied.messages.Keys, q.ready, q.inflight.Keys, q.h.confirming.Keys, q.h.removing.Keys, q.h.left,
                 kind.id);
    assert Commits(q, tag).applied.messages.Keys == q.applied.messages.Keys - {kind.id};
    assert Commits(q, tag).h.removing.Keys == q.h.removing.Keys - {kind.id};
  }

  lemma CommitsCnt(q: Leader, p: Policy, tag: nat)
    requires Ok(q, p) && tag in q.proposals && q.proposals[tag].status.Waiting? && q.proposals[tag].kind.Cnt?
    ensures Ok(Commits(q, tag), p)
  {
    hide Split, Tags, Counters, Confirming, Removing, Asking, Answering;
    var kind := q.proposals[tag].kind;
    var (applied, resp) := G.ApplyPlain(q.applied, CommandOf(kind));
    assert applied.messages.Keys == q.applied.messages.Keys;
    var x := Proposal(kind, Committed(resp));
    TagsUpdate(q.proposals, q.nextTag, tag, x);
    CountersUpdate(q.proposals, tag, x, q.pending, q.pendingBytes);
    Decided(q.proposals, tag, x.status, q.h.confirming, q.h.removing, q.h.asking);
  }

  lemma FailsOk(q: Leader, p: Policy, tag: nat)
    requires Ok(q, p) && tag in q.proposals && q.proposals[tag].status.Waiting?
    ensures Ok(Fails(q, tag), p)
  {
    hide Split, Tags, Counters, Confirming, Removing, Asking, Answering;
    var x := q.proposals[tag].(status := Failed);
    TagsUpdate(q.proposals, q.nextTag, tag, x);
    CountersUpdate(q.proposals, tag, x, q.pending, q.pendingBytes);
    Decided(q.proposals, tag, Failed, q.h.confirming, q.h.removing, q.h.asking);
  }

  lemma BookCompletedEnq(q: Leader, tag: nat)
    requires Book(q) && tag in q.proposals && !q.proposals[tag].status.Waiting? && q.proposals[tag].kind.Enq?
    ensures Book(Completed(q, tag))
    ensures q.pending > 0 && q.pendingBytes >= |q.proposals[tag].kind.body|
    ensures var x := q.proposals[tag];
            Landed(x) ==> x.status.resp.Enqueued? && x.status.resp.msgId in q.h.confirming
  {
    hide Tags, Counters, Confirming, Removing, Asking;
    var x := q.proposals[tag];
    TagsUpdate(q.proposals, q.nextTag, tag, x);
    CountersRemove(q.proposals, tag, q.pending, q.pendingBytes);
    Gone(q.proposals, tag, q.h.confirming, q.h.removing, q.h.asking);
    GoneAsking(q.proposals, tag, q.h.asking);
    if Landed(x) { GoneLanded(q.proposals, tag, q.h.confirming); }
  }

  lemma CompletedEnq(q: Leader, p: Policy, tag: nat)
    requires Ok(q, p) && tag in q.proposals && !q.proposals[tag].status.Waiting? && q.proposals[tag].kind.Enq?
    ensures Ok(Completed(q, tag), p)
    ensures q.pending > 0 && q.pendingBytes >= |q.proposals[tag].kind.body|
    ensures q.proposals[tag].status.Committed? ==> q.proposals[tag].status.resp.Enqueued?
  {
    hide Book, Split;
    BookCompletedEnq(q, tag);
    if Landed(q.proposals[tag]) {
      var id := q.proposals[tag].status.resp.msgId;
      FromConfirming(q.applied.messages.Keys, q.ready, q.inflight.Keys, q.h.confirming.Keys, q.h.removing.Keys,
                     q.h.left, id);
      assert (q.h.confirming - {id}).Keys == q.h.confirming.Keys - {id};
    }
  }

  lemma BookCompletedRem(q: Leader, tag: nat)
    requires Book(q) && tag in q.proposals && !q.proposals[tag].status.Waiting? && q.proposals[tag].kind.Rem?
    ensures Book(Completed(q, tag))
    ensures Leaving(q.proposals[tag]) ==> q.proposals[tag].kind.id in q.h.removing
  {
    hide Tags, Counters, Confirming, Removing, Asking, Answering;
    var x := q.proposals[tag];
    TagsUpdate(q.proposals, q.nextTag, tag, x);
    CountersRemove(q.proposals, tag, q.pending, q.pendingBytes);
    Gone(q.proposals, tag, q.h.confirming, q.h.removing, q.h.asking);
    if Leaving(x) { GoneLeaving(q.proposals, tag, q.h.removing); }
  }

  lemma CompletedRem(q: Leader, p: Policy, tag: nat)
    requires Ok(q, p) && tag in q.proposals && !q.proposals[tag].status.Waiting? && q.proposals[tag].kind.Rem?
    ensures Ok(Completed(q, tag), p)
  {
    hide Book, Split;
    BookCompletedRem(q, tag);
    if Leaving(q.proposals[tag]) {
      var id := q.proposals[tag].kind.id;
      FromRemoving(q.applied.messages.Keys, q.ready, q.inflight.Keys, q.h.confirming.Keys, q.h.removing.Keys, q.h.left,
                   id);
      assert (q.h.removing - {id}).Keys == q.h.removing.Keys - {id};
    }
  }

  lemma CompletedCnt(q: Leader, p: Policy, tag: nat)
    requires Ok(q, p) && tag in q.proposals && !q.proposals[tag].status.Waiting? && q.proposals[tag].kind.Cnt?
    ensures Ok(Completed(q, tag), p)
  {
    hide Split, Tags, Counters, Confirming, Removing, Asking, Answering;
    TagsUpdate(q.proposals, q.nextTag, tag, q.proposals[tag]);
    CountersRemove(q.proposals, tag, q.pending, q.pendingBytes);
    Gone(q.proposals, tag, q.h.confirming, q.h.removing, q.h.asking);
  }

  // ---------------------------------------------------------------- expiry and dispatch

  lemma {:induction false} ExpireOk(q: Leader, p: Policy, now: nat)
    requires Ok(q, p)
    ensures Ok(ExpireHead(q, p, now), p)
    decreases |q.ready|
  {
    hide Placed, Owned, Ids, Book, WithinLimit;
    if q.ready != {} && IsExpired(q, p, Least(q.ready), now) {
      RemoveReadyOk(q, p, Least(q.ready));
      ExpireOk(RemoveReady(q, Least(q.ready)), p, now);
    }
  }

  lemma ReadyIsApplied(q: Leader, p: Policy, id: nat)
    requires Ok(q, p) && (id in q.ready || id in q.inflight)
    ensures id in q.applied.messages
  {
    hide Book;
  }

  lemma SentOk(q: Leader, p: Policy, id: nat, sub: nat, sent: seq<Delivery>)
    requires Ok(q, p) && id in q.ready && Subscribed(q.subs, sub)
    ensures Ok(q.(ready := q.ready - {id}, inflight := q.inflight[id := sub], h := q.h.(sent := sent)), p)
  {
    hide Book, Split, Subscribed;
    FromReady(q.applied.messages.Keys, q.ready, q.inflight.Keys, q.h.confirming.Keys, q.h.removing.Keys, q.h.left, id);
    assert q.inflight[id := sub].Keys == q.inflight.Keys + {id};
    BookFrame(q, q.(ready := q.ready - {id}, inflight := q.inflight[id := sub], h := q.h.(sent := sent)));
  }

  lemma OfferOk(q: Leader, p: Policy, id: nat, idx: nat, ok: bool)
    requires Ok(q, p) && id in q.ready && idx < |q.subs| && q.subs[idx].demand > 0
    ensures Ok(Offer(q, id, idx, ok), p)
  {
    hide Ok, Departed, Subscribed;
    ReadyIsApplied(q, p, id);
    var s := q.subs[idx];
    var subs := q.subs[idx := s.(demand := s.demand - 1)];
    forall x: nat | Subscribed(q.subs, x) ensures Subscribed(subs, x) { UpdatedSubs(q.subs, idx, subs[idx], x); }
    SubsOk(q, p, subs, After(idx, |q.subs|), q.nextSubId, q.reserved);
    var q1 := q.(subs := subs, rr := After(idx, |q.subs|));
    IsSubscribed(subs, idx);
    SentOk(q1, p, id, s.id, Offer(q, id, idx, true).h.sent);
    DepartedOk(q1, p, s.id);
  }

  lemma ServeOk(q: Leader, p: Policy, ok: bool)
    requires Ok(q, p) && CanServe(q)
    ensures Ok(Serve(q, ok), p)
  {
    hide Ok, Offer;
    OfferOk(q, p, Least(q.ready), PickReady(q.subs, q.rr).value, ok);
  }

  lemma IsSubscribed(subs: seq<Subscriber>, i: nat)
    requires i < |subs|
    ensures Subscribed(subs, subs[i].id)
  {
  }

  lemma {:induction false} ServeAllOk(q: Leader, p: Policy, ok: nat -> bool, n: nat)
    requires Ok(q, p)
    ensures Ok(ServeAll(q, ok, n), p)
    decreases |q.subs|, |q.ready|
  {
    hide Ok, Serve, Subscribed;
    if q.ready == {} {
      forall x: nat | Subscribed(q.subs, x) ensures Subscribed(CompleteDrains(q.subs), x) { DrainedSubs(q.subs, x); }
      SubsOk(q, p, CompleteDrains(q.subs), q.rr, q.nextSubId, q.reserved);
    } else if PickReady(q.subs, q.rr).Some? {
      ServeShrinks(q, ok(n));
      ServeOk(q, p, ok(n));
      ServeAllOk(Serve(q, ok(n)), p, ok, n + 1);
    }
  }

  lemma NextOk(q: Leader, p: Policy, step: Step)
    requires Ok(q, p) && Enabled(q, step)
    ensures Ok(Next(q, p, step), p)
  {
    hide Ok, Mail, Completed, Commits, Fails, ExpireHead, ServeAll;
    match step
    case Receive(msg, resident, ms, now, ok) =>
      MailOk(q, p, msg, resident, ms);
      ExpireOk(Mail(q, p, msg, resident, ms), p, now);
      ServeAllOk(ExpireHead(Mail(q, p, msg, resident, ms), p, now), p, ok, 0);
    case LogCommits(tag) => CommitsOk(q, p, tag);
    case LogFails(tag) => FailsOk(q, p, tag);
    case Complete(tag, now, ok) =>
      CompletedOk(q, p, tag);
      ExpireOk(Completed(q, tag), p, now);
      ServeAllOk(ExpireHead(Completed(q, tag), p, now), p, ok, 0);
  }

  lemma CommitsOk(q: Leader, p: Policy, tag: nat)
    requires Ok(q, p) && tag in q.proposals && q.proposals[tag].status.Waiting?
    ensures Ok(Commits(q, tag), p)
  {
    hide Ok, Commits;
    match q.proposals[tag].kind
    case Enq(_, _, _) => CommitsEnq(q, p, tag);
    case Rem(_, _) => CommitsRem(q, p, tag);
    case Cnt(_) => CommitsCnt(q, p, tag);
  }

  lemma CompletedOk(q: Leader, p: Policy, tag: nat)
    requires Ok(q, p) && tag in q.proposals && !q.proposals[tag].status.Waiting?
    ensures Ok(Completed(q, tag), p)
  {
    hide Ok, Completed;
    match q.proposals[tag].kind
    case Enq(_, _, _) => CompletedEnq(q, p, tag);
    case Rem(_, _) => CompletedRem(q, p, tag);
    case Cnt(_) => CompletedCnt(q, p, tag);
  }

  lemma BeginOk(applied: G.Plain, p: Policy)
    requires forall id :: id in applied.messages ==> 1 <= id <= applied.nextMsgId
    ensures Ok(Begin(applied), p)
  {
  }

  /** The invariant over a whole term. */
  lemma {:induction false} EveryTermOk(qs: seq<Leader>, p: Policy, steps: seq<Step>, n: nat)
    requires IsTerm(qs, p, steps) && n < |qs|
    requires forall id :: id in qs[0].applied.messages ==> 1 <= id <= qs[0].applied.nextMsgId
    ensures Ok(qs[n], p)
  {
    hide Ok, Next, Enabled;
    if n == 0 {
      BeginOk(qs[0].applied, p);
    } else {
      EveryTermOk(qs, p, steps, n - 1);
      NextOk(qs[n - 1], p, steps[n - 1]);
    }
  }

  // ---------------------------------------------------------------- what it means

  ghost predicate AwaitsConfirm(q: Leader, id: nat) {
    exists tag ::
      tag in q.proposals && q.proposals[tag].kind.Enq? && q.proposals[tag].status == Committed(G.Enqueued(id))
  }

  ghost predicate AwaitsRemoval(q: Leader, id: nat) {
    exists tag :: tag in q.proposals && q.proposals[tag].kind.Rem? && q.proposals[tag].kind.id == id &&
      !q.proposals[tag].status.Committed?
  }

  function Truth(b: bool): nat { if b then 1 else 0 }

  lemma AwaitsAre(q: Leader, p: Policy, id: nat)
    requires Ok(q, p)
    ensures AwaitsConfirm(q, id) <==> id in q.h.confirming
    ensures AwaitsRemoval(q, id) <==> id in q.h.removing
  {
    if id in q.h.confirming { assert q.proposals[q.h.confirming[id]].kind.Enq?; }
    if id in q.h.removing { assert q.proposals[q.h.removing[id]].kind.Rem?; }
  }

  /**
   * No committed message is stranded: at every moment of every term a message is in applied state exactly
   * when it is in one of five places, and then in only one: ready, in flight under a current subscriber,
   * applied with its enqueue completion on the way, awaiting the log's word on its removal, or left by a
   * failed dead-letter removal.
   */
  lemma NothingIsStranded(qs: seq<Leader>, p: Policy, steps: seq<Step>, n: nat, id: nat)
    requires IsTerm(qs, p, steps) && n < |qs|
    requires forall k :: k in qs[0].applied.messages ==> 1 <= k <= qs[0].applied.nextMsgId
    ensures var q := qs[n];
            Truth(id in q.ready) + Truth(id in q.inflight) + Truth(AwaitsConfirm(q, id)) +
            Truth(AwaitsRemoval(q, id)) + Truth(id in q.h.left) == Truth(id in q.applied.messages)
    ensures id in qs[n].inflight ==> exists i :: 0 <= i < |qs[n].subs| && qs[n].subs[i].id == qs[n].inflight[id]
  {
    hide IsTerm, AwaitsConfirm, AwaitsRemoval, Book, Split;
    EveryTermOk(qs, p, steps, n);
    SplitMember(qs[n].applied.messages.Keys, qs[n].ready, qs[n].inflight.Keys, qs[n].h.confirming.Keys,
                qs[n].h.removing.Keys, qs[n].h.left, id);
    AwaitsAre(qs[n], p, id);
    if id in qs[n].inflight { assert Subscribed(qs[n].subs, qs[n].inflight[id]); }
  }
}
