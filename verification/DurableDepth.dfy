/**
 * The bounds of a durable queue (ramqp-broker/src/durable.rs:104-160, 257-277): what a refused publish changes,
 * and when the depth passes its bound.
 */
module DurableDepth {
  import opened Collections
  import opened Dispatch
  import opened TransientQueue
  import opened Durable
  import opened DurableSafety

  // ---------------------------------------------------------------- a refused publish

  /** What making room leaves alone, and when it stops. */
  lemma {:induction false} RoomMadeIs(d: Durable, p: Policy, len: nat, later: nat -> bool)
    ensures var r := RoomMade(d, p, len, later);
            && r.f == d.f && r.s.inflight == d.s.inflight && r.s.pending == d.s.pending
            && (r == d <==> !p.dropHead || !Overfull(d, p, len) || d.s.ready == map[])
            && (r != d ==> |r.s.ready| < |d.s.ready|)
            && (p.dropHead && Overfull(r, p, len) ==> r.s.ready == map[])
    decreases |d.s.ready|
  {
    hide DropHead, Overfull;
    if p.dropHead && Overfull(d, p, len) && d.s.ready != map[] {
      HeadShrinks(d, later);
      HeadIs(d, later);
      RoomMadeIs(DropHead(d, later), p, len, later);
    }
  }

  lemma HeadIs(d: Durable, later: nat -> bool)
    requires d.s.ready != map[]
    ensures var r := DropHead(d, later);
            && r.f == d.f && r.s.inflight == d.s.inflight && r.s.pending == d.s.pending
            && r.s.ready == d.s.ready - {Least(d.s.ready.Keys)} && |r.s.ready| == |d.s.ready| - 1
  {
    var id := Least(d.s.ready.Keys);
    OneOut(d.s.ready, id);
  }

  lemma OneOut<T>(m: map<nat, T>, id: nat)
    requires id in m
    ensures |m - {id}| == |m| - 1
  {
    assert (m - {id}).Keys == m.Keys - {id};
    assert |m.Keys| == |m| && |(m - {id}).Keys| == |m - {id}|;
  }

  /**
   * A refused publish changes nothing exactly when the policy rejects or there was nothing ready: under
   * drop-head a message too large to fit first displaces everything ready, for good.
   */
  lemma RefusedPublishChangesNothingIff(d: Durable, p: Policy, body: Bytes, ms: nat, later: nat -> bool)
    requires TurnsAway(d, p, |body|, false, later)
    ensures Publishes(d, p, body, false, ms, later) == d <==> !p.dropHead || d.s.ready == map[]
    ensures p.dropHead ==> Publishes(d, p, body, false, ms, later).s.ready == map[]
  {
    hide RoomMade, Overfull;
    RoomMadeIs(d, p, |body|, later);
  }

  // ---------------------------------------------------------------- depth

  /** Ready, with a consumer, being committed, or promised. */
  function Load(d: Durable): nat {
    |d.s.ready| + |d.s.inflight| + d.s.pending + d.f.reserved
  }

  function Top(d: Durable, p: Policy): nat { if Load(d) <= p.maxLen then p.maxLen else Load(d) }

  predicate HeadFresh(d: Durable, p: Policy, now: nat) {
    d.s.ready == map[] || !IsExpired(p, d.s.ready[Least(d.s.ready.Keys)], now)
  }

  /** A reserved publish finds no slot held for it, the queue at its bound and nothing to displace. */
  predicate NoSlot(d: Durable, p: Policy) {
    d.f.reserved == 0 && Load(d) >= p.maxLen && (!p.dropHead || d.s.ready == map[])
  }

  /** What takes the depth past its bound: such a publish, or a recovery that finds more rows than the bound. */
  predicate Passes(d: Durable, p: Policy, step: Step) {
    match step
    case Receive(msg, _, now, _, _) => msg.PublishReserved? && NoSlot(d, p) && HeadFresh(d, p, now)
    case Recover(_) => |d.disk| + d.f.reserved > Top(d, p)
    case _ => false
  }

  lemma PublishesLoad(d: Durable, p: Policy, body: Bytes, fromReserved: bool, ms: nat, later: nat -> bool)
    ensures var r := Publishes(d, p, body, fromReserved, ms, later);
            if fromReserved && NoSlot(d, p) then Load(r) == Load(d) + 1 && r.s.ready == d.s.ready
            else Load(r) <= Top(d, p)
  {
    hide RoomMade;
    RoomMadeIs(SlotTaken(d, fromReserved), p, |body|, later);
  }

  /** No message is ready and with a consumer. */
  ghost predicate Split(s: Shelf) {
    forall id :: id in s.ready ==> id !in s.inflight
  }

  lemma DepartedLoad(d: Durable, sub: nat)
    requires Split(d.s)
    ensures Load(Departed(d, sub)) == Load(d)
  {
    hide Without, HeldBy;
    var back := HeldBy(d.s.inflight, sub);
    assert back <= d.s.inflight.Keys by { HeldByHeld(d.s.inflight, sub); }
    Returned(d.s.ready, d.s.inflight, back);
  }

  lemma HeldByHeld(inflight: map<nat, Lease>, sub: nat)
    ensures HeldBy(inflight, sub) <= inflight.Keys
  {
  }

  lemma Returned(ready: map<nat, Slot>, held: map<nat, Lease>, back: set<nat>)
    requires back <= held.Keys && forall id :: id in ready ==> id !in held
    ensures |ready + map id | id in back :: held[id].slot| + |held - back| == |ready| + |held|
  {
    var slots := map id | id in back :: held[id].slot;
    Parts(held, back);
    assert slots.Keys == back;
    Joined(ready, slots);
  }

  lemma Joined<T>(a: map<nat, T>, b: map<nat, T>)
    requires a.Keys !! b.Keys
    ensures |a + b| == |a| + |b| && |b| == |b.Keys|
  {
    assert (a + b).Keys == a.Keys + b.Keys;
    assert |(a + b).Keys| == |a + b| && |a.Keys| == |a| && |b.Keys| == |b|;
  }

  lemma Parts<T>(m: map<nat, T>, part: set<nat>)
    requires part <= m.Keys
    ensures |m - part| + |part| == |m|
  {
    assert (m - part).Keys == m.Keys - part;
    assert |m.Keys| == |m| && |(m - part).Keys| == |m - part|;
  }

  lemma OneIn<T>(m: map<nat, T>, id: nat, x: T)
    requires id !in m
    ensures |m[id := x]| == |m| + 1
  {
    assert m[id := x].Keys == m.Keys + {id};
    assert |m.Keys| == |m| && |m[id := x].Keys| == |m[id := x]|;
  }

  lemma SettlesLoad(d: Durable, p: Policy, sub: nat, id: nat, outcome: Outcome, later: nat -> bool)
    requires Split(d.s)
    ensures Load(Settles(d, p, sub, id, outcome, later)) <= Load(d)
  {
    if id in d.s.inflight {
      OneOut(d.s.inflight, id);
      OneIn(d.s.ready, id, d.s.inflight[id].slot);
    }
  }

  lemma MailLoad(d: Durable, p: Policy, msg: Message, ms: nat, later: nat -> bool)
    requires Split(d.s)
    ensures var r := Mail(d, p, msg, ms, later);
            if msg.PublishReserved? && NoSlot(d, p) then Load(r) == Load(d) + 1 && r.s.ready == d.s.ready
            else Load(r) <= Top(d, p)
  {
    hide Publishes, Settles, Departed, NoSlot;
    match msg
    case Publish(body) => PublishesLoad(d, p, body, false, ms, later);
    case PublishReserved(body) => PublishesLoad(d, p, body, true, ms, later);
    case Settle(sub, id, outcome) => SettlesLoad(d, p, sub, id, outcome, later);
    case Unsubscribe(sub) => DepartedLoad(d, sub);
    case _ =>
  }

  lemma CompletedLoad(d: Durable, id: nat)
    requires id in d.s.commits && id !in d.s.ready && d.s.pending == |d.s.commits|
    ensures Load(Completed(d, id)) <= Load(d)
  {
    OneOut(d.s.commits, id);
    var x := d.s.commits[id];
    if x.status.Kept? { OneIn(d.s.ready, id, Slot(x.ms, |x.body|)); }
  }

  // ---------------------------------------------------------------- dispatch

  lemma {:induction false} ExpireLoad(d: Durable, p: Policy, now: nat, later: nat -> bool)
    ensures var r := ExpireHeads(d, p, now, later);
            && Load(r) <= Load(d) && (Load(r) == Load(d) <==> HeadFresh(d, p, now)) && (HeadFresh(d, p, now) ==> r == d)
    decreases |d.s.ready|
  {
    hide DropHead;
    if d.s.ready != map[] && IsExpired(p, d.s.ready[Least(d.s.ready.Keys)], now) {
      HeadShrinks(d, later);
      HeadIs(d, later);
      ExpireLoad(DropHead(d, later), p, now, later);
    }
  }

  lemma OfferLoad(d: Durable, id: nat, idx: nat, ok: bool)
    requires Inv(d) && d.up && id in d.s.ready && idx < |d.f.subs| && d.f.subs[idx].demand > 0
    ensures Load(Offer(d, id, idx, ok)) == Load(d)
  {
    hide Inv, Departed, After;
    HeldApart(d, id);
    ApartOnes(d);
    var sub := d.f.subs[idx];
    var d1 := d.(f := d.f.(subs := d.f.subs[idx := sub.(demand := sub.demand - 1)], rr := After(idx, |d.f.subs|)));
    if ok {
      OneOut(d.s.ready, id);
      OneIn(d.s.inflight, id, Lease(sub.id, d.s.ready[id]));
    } else {
      DepartedLoad(d1, sub.id);
    }
  }

  lemma {:induction false} ServeAllLoad(d: Durable, ok: nat -> bool, n: nat)
    requires Inv(d) && d.up
    ensures Load(ServeAll(d, ok, n)) == Load(d)
    decreases |d.f.subs|, |d.s.ready|
  {
    hide Inv, Offer;
    if d.s.ready != map[] && PickReady(d.f.subs, d.f.rr).Some? {
      var id, idx := Least(d.s.ready.Keys), PickReady(d.f.subs, d.f.rr).value;
      OfferShrinks(d, id, idx, ok(n));
      OfferLoad(d, id, idx, ok(n));
      OfferKeeps(d, id, idx, ok(n));
      ServeAllLoad(Serve(d, ok(n)), ok, n + 1);
    }
  }

  lemma DispatchedLoad(d: Durable, p: Policy, now: nat, ok: nat -> bool, later: nat -> bool)
    requires Inv(d) && d.up
    ensures Load(Dispatched(d, p, now, ok, later)) <= Load(d)
    ensures Load(Dispatched(d, p, now, ok, later)) == Load(d) <==> HeadFresh(d, p, now)
  {
    hide Inv, ExpireHeads, ServeAll, Load, HeadFresh;
    ExpireLoad(d, p, now, later);
    ExpireKeeps(d, p, now, later);
    ServeAllLoad(ExpireHeads(d, p, now, later), ok, 0);
  }

  // ---------------------------------------------------------------- every step

  lemma {:induction false} WriteBatchLoad(d: Durable, n: nat, ok: bool)
    requires n <= |d.chan|
    ensures Load(WriteBatch(d, n, ok)) == Load(d)
    decreases n
  {
    if n > 0 { WriteBatchLoad(WriteOne(d, ok), n - 1, ok); }
  }

  lemma RecoverLoad(d: Durable, top: nat)
    requires Inv(d) && !d.up
    ensures Load(d.(s := Scanned(d.disk, top), up := true)) == |d.disk| + d.f.reserved
  {
    var ready := Scanned(d.disk, top).ready;
    assert ready.Keys == d.disk.Keys;
    assert |ready.Keys| == |ready| && |d.disk.Keys| == |d.disk|;
  }

  lemma ReceiveLoad(d: Durable, p: Policy, step: Step)
    requires Inv(d) && step.Receive? && Enabled(d, step)
    ensures Load(Next(d, p, step)) <= Top(d, p) + 1
    ensures Load(Next(d, p, step)) > Top(d, p) <==> Passes(d, p, step)
  {
    hide Inv, Mail, Dispatched, Load, TurnsAway;
    var r := Mail(d, p, step.msg, step.ms, step.later);
    ApartOnes(d);
    MailLoad(d, p, step.msg, step.ms, step.later);
    MailKeeps(d, p, step.msg, step.ms, step.later);
    DispatchedLoad(r, p, step.now, step.ok, step.later);
  }

  lemma CompleteLoad(d: Durable, p: Policy, step: Step)
    requires Inv(d) && step.Complete? && Enabled(d, step)
    ensures Load(Next(d, p, step)) <= Load(d)
  {
    hide Book, Shelved, IdsOk, Dispatched, Completed, Load, Exact;
    CommitApart(d, step.id);
    ExactOnes(d);
    PendingIs(d.s);
    CompletedLoad(d, step.id);
    CompletedKeeps(d, step.id);
    CompletedUp(d, step.id);
    DispatchedLoad(Completed(d, step.id), p, step.now, step.ok, step.later);
  }

  lemma PendingIs(s: Shelf)
    requires Exact(s)
    ensures s.pending == |s.commits|
  {
  }

  /** On every durable queue, under every policy: a step takes the depth past its bound exactly so. */
  lemma DepthPassesIff(d: Durable, p: Policy, step: Step)
    requires Inv(d) && Enabled(d, step)
    ensures Load(Next(d, p, step)) > Top(d, p) <==> Passes(d, p, step)
  {
    hide Inv, Mail, Dispatched, WriteBatch, Completed, Scanned, NoSlot, HeadFresh;
    match step
    case Receive(_, _, _, _, _) => ReceiveLoad(d, p, step);
    case Complete(_, _, _, _) => CompleteLoad(d, p, step);
    case SubmitDeferred(id) =>
    case Write(n, ok) => WriteBatchLoad(d, n, ok);
    case Crash =>
    case Recover(top) => RecoverLoad(d, top);
  }

  /** So in every run the depth stays within the bound while no such step is taken. */
  lemma {:induction false} DepthBounded(ds: seq<Durable>, p: Policy, steps: seq<Step>, n: nat)
    requires IsRun(ds, p, steps) && n < |ds|
    requires forall i :: 0 <= i < n ==> !Passes(ds[i], p, steps[i])
    ensures Load(ds[n]) <= p.maxLen
  {
    hide Inv, Next, Passes, Enabled;
    if n == 0 {
      assert Load(NEW_STORE) == 0;
    } else {
      DepthBounded(ds, p, steps, n - 1);
      EveryRunKeeps(ds, p, steps, n - 1);
      DepthPassesIff(ds[n - 1], p, steps[n - 1]);
    }
  }

  // ---------------------------------------------------------------- two runs

  const NEVER := (_: nat) => false

  /** Drop-head, one message, one byte. */
  const SMALL := Policy(None, 1, Some(1), true, None)

  /** Drop-head, one message, any size. */
  const SINGLE := Policy(None, 1, None, true, None)

  ghost function Got(msg: Message): Step { Receive(msg, 0, 0, NEVER, NEVER) }

  /** A store with one message being committed, committed, and ready. */
  const FIRST_TOLD := History([Told(1, [0])], {}, {}, map[1 := 0])

  const COMMITTING := Durable(
    map[], [Insert(1, 0, [0])], {}, Shelf(map[], map[], map[1 := Pending(0, [0], Waiting)], map[], 1, 1, 1),
    NO_FRONT, true, FIRST_TOLD)

  const COMMITTED := Durable(
    map[1 := Row(0, 0, [0])], [], {}, Shelf(map[], map[], map[1 := Pending(0, [0], Kept)], map[], 1, 1, 1),
    NO_FRONT, true, FIRST_TOLD)

  const HOLDING := Durable(
    map[1 := Row(0, 0, [0])], [], {}, Shelf(map[1 := Slot(0, 1)], map[], map[], map[], 1, 1, 0),
    NO_FRONT, true, FIRST_TOLD.(confirmed := {0}))

  lemma FirstAccepted()
    ensures Accepted(NEW_STORE, [0], 0) == COMMITTING
  {
    assert [] + [Insert(1, 0, [0])] == [Insert(1, 0, [0])] && [] + [Told(1, [0])] == [Told(1, [0])];
  }

  lemma Committing(p: Policy)
    requires p == SMALL || p == SINGLE
    ensures Enabled(NEW_STORE, Got(Publish([0]))) && Next(NEW_STORE, p, Got(Publish([0]))) == COMMITTING
  {
    hide ServeAll, Accepted;
    FirstAccepted();
    assert !Overfull(NEW_STORE, p, 1);
    assert RoomMade(NEW_STORE, p, 1, NEVER) == NEW_STORE;
    assert Mail(NEW_STORE, p, Publish([0]), 0, NEVER) == COMMITTING;
    NobodyThere(COMMITTING, NEVER, 0);
  }

  /** With nobody subscribed dispatch does nothing. */
  lemma NobodyThere(d: Durable, ok: nat -> bool, n: nat)
    requires d.f.subs == []
    ensures ServeAll(d, ok, n) == d
  {
    PickReadyIsNearest([], d.f.rr);
    assert CompleteDrains([]) == [];
  }

  lemma Holding()
    ensures Enabled(COMMITTING, Write(1, true)) && Next(COMMITTING, SMALL, Write(1, true)) == COMMITTED
    ensures Enabled(COMMITTED, Complete(1, 0, NEVER, NEVER))
    ensures Next(COMMITTED, SMALL, Complete(1, 0, NEVER, NEVER)) == HOLDING
  {
    hide ServeAll;
    assert WriteBatch(WriteOne(COMMITTING, true), 0, true) == WriteOne(COMMITTING, true) == COMMITTED;
    assert Completed(COMMITTED, 1) == HOLDING;
    NobodyThere(HOLDING, NEVER, 0);
  }

  /** A run in which a refused publish displaces: one message is ready, the next is larger than the queue may hold. */
  lemma RefusedPublishDisplaces()
    ensures IsRun([NEW_STORE, COMMITTING, COMMITTED, HOLDING], SMALL,
                  [Got(Publish([0])), Write(1, true), Complete(1, 0, NEVER, NEVER)])
    ensures TurnsAway(HOLDING, SMALL, 2, false, NEVER)
    ensures Next(HOLDING, SMALL, Got(Publish([0, 0]))).s.ready == map[]
  {
    hide Next, Enabled, Got, NEW_STORE, COMMITTING, COMMITTED, HOLDING, TurnsAway, Load;
    Committing(SMALL);
    Holding();
    Displaced();
  }

  lemma Displaced()
    ensures Enabled(HOLDING, Got(Publish([0, 0]))) && TurnsAway(HOLDING, SMALL, 2, false, NEVER)
    ensures Next(HOLDING, SMALL, Got(Publish([0, 0]))).s.ready == map[]
  {
    RoomMadeIs(HOLDING, SMALL, 2, NEVER);
    var r := RoomMade(HOLDING, SMALL, 2, NEVER);
    assert 1 in HOLDING.s.ready;
    assert r != HOLDING && |r.s.ready| < |HOLDING.s.ready| == 1;
    assert r.s.ready == map[];
  }

  /**
   * A run that passes the bound: under drop-head a reservation holds no slot, so a reserved publish joins the one
   * still being committed.
   */
  lemma ReservedPublishPasses()
    ensures IsRun([NEW_STORE, COMMITTING, COMMITTING], SINGLE, [Got(Publish([0])), Got(Reserve(1))])
    ensures Enabled(COMMITTING, Got(PublishReserved([0])))
    ensures Load(COMMITTING) == SINGLE.maxLen && Load(Next(COMMITTING, SINGLE, Got(PublishReserved([0])))) == 2
  {
    hide Next, Enabled, Got, NEW_STORE, COMMITTING, COMMITTED, HOLDING, TurnsAway, Load;
    Committing(SINGLE);
    Reserved();
    Squeezed();
  }

  lemma Reserved()
    ensures Enabled(COMMITTING, Got(Reserve(1))) && Next(COMMITTING, SINGLE, Got(Reserve(1))) == COMMITTING
  {
    hide ServeAll;
    assert ExpireHeads(COMMITTING, SINGLE, 0, NEVER) == COMMITTING;
    NobodyThere(COMMITTING, NEVER, 0);
  }

  lemma Squeezed()
    ensures Enabled(COMMITTING, Got(PublishReserved([0])))
    ensures Load(COMMITTING) == 1 && Load(Next(COMMITTING, SINGLE, Got(PublishReserved([0])))) == 2
  {
    hide ServeAll;
    var r := Accepted(COMMITTING, [0], 0);
    assert RoomMade(COMMITTING, SINGLE, 1, NEVER) == COMMITTING;
    assert ExpireHeads(r, SINGLE, 0, NEVER) == r;
    NobodyThere(r, NEVER, 0);
  }
}
