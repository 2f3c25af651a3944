/**
 * What survives (ramqp-broker/src/durable.rs, ramqp-broker/src/store.rs): in every schedule of batches,
 * aborts and crashes a confirmed publish stays on disk until its remove is submitted, and nothing else is
 * ever recovered.
 */
module DurableSafety {
  import opened Collections
  import opened Dispatch
  import opened TransientQueue
  import opened Durable

  // ---------------------------------------------------------------- invariant

  ghost predicate SlotIs(slot: Slot, disk: map<nat, Row>, id: nat) {
    id in disk && slot == Slot(disk[id].ms, |disk[id].body|)
  }

  /** What can be delivered is on disk. */
  ghost predicate Backed(s: Shelf, disk: map<nat, Row>) {
    && (forall id :: id in s.ready ==> SlotIs(s.ready[id], disk, id))
    && (forall id :: id in s.inflight ==> SlotIs(s.inflight[id].slot, disk, id))
  }

  /** No id is in two places. */
  ghost predicate Apart(s: Shelf, deferred: set<nat>) {
    && (forall id :: id in s.ready ==> id !in s.inflight && id !in s.commits && id !in deferred)
    && (forall id :: id in s.inflight ==> id !in s.commits && id !in deferred)
    && (forall id :: id in s.commits ==> id !in deferred)
  }

  /** A publish in progress: its insert is in the channel, or on disk, or lost. */
  ghost predicate Underway(s: Shelf, disk: map<nat, Row>, chan: seq<Op>) {
    && (forall id :: id in s.commits && s.commits[id].status.Waiting? ==>
          id !in disk && Insert(id, s.commits[id].ms, s.commits[id].body) in chan)
    && (forall id :: id in s.commits && s.commits[id].status.Kept? ==>
          id in disk && disk[id].ms == s.commits[id].ms && disk[id].body == s.commits[id].body)
  }

  ghost predicate ChanOk(s: Shelf, chan: seq<Op>) {
    && (forall k :: 0 <= k < |chan| && chan[k].Insert? ==>
          chan[k].id in s.commits && s.commits[chan[k].id].status.Waiting?)
    && (forall j, k :: 0 <= j < k < |chan| && chan[j].Insert? && chan[k].Insert? ==> chan[j].id != chan[k].id)
    && (forall k :: 0 <= k < |chan| && chan[k].Remove? ==>
          chan[k].id !in s.ready && chan[k].id !in s.inflight && chan[k].id !in s.commits)
  }

  ghost predicate IdsOk(d: Durable) {
    && (forall id :: id in d.disk ==> id <= d.s.nextId)
    && (forall id :: id in d.s.commits ==> id <= d.s.nextId)
    && (forall id :: id in d.deferred ==> id <= d.s.nextId)
    && (forall k :: 0 <= k < |d.chan| ==> d.chan[k].id <= d.s.nextId)
  }

  function SlotLen(x: Slot): nat { x.len }

  function LeaseLen(x: Lease): nat { x.slot.len }

  function PendLen(x: Pending): nat { |x.body| }

  /** The two counters are exact. */
  ghost predicate Exact(s: Shelf) {
    && s.pending == |s.commits|
    && s.bytes == SumMap(s.ready, SlotLen) + SumMap(s.inflight, LeaseLen) + SumMap(s.commits, PendLen)
  }

  ghost predicate Knows(h: History, id: nat, body: Bytes) {
    id in h.current && h.current[id] < |h.published| && h.published[h.current[id]] == Told(id, body)
  }

  /** Nothing is on disk that was not published. */
  ghost predicate Published(h: History, disk: map<nat, Row>, commits: map<nat, Pending>) {
    && (forall id :: id in disk ==> Knows(h, id, disk[id].body))
    && (forall id :: id in commits ==> Knows(h, id, commits[id].body))
  }

  /** A confirmed publish whose remove has not been submitted is on disk. */
  ghost predicate Confirmed(h: History, disk: map<nat, Row>) {
    forall t :: t in h.confirmed ==>
      t < |h.published| && (t !in h.removed ==> h.published[t].id in disk && h.published[t].id in h.current &&
                                                  h.current[h.published[t].id] == t)
  }

  /** A remove in the channel is known as one. */
  ghost predicate Announced(h: History, chan: seq<Op>) {
    forall k :: 0 <= k < |chan| && chan[k].Remove? ==>
      chan[k].id in h.current ==> h.current[chan[k].id] in h.removed
  }

  ghost predicate Book(d: Durable) {
    Published(d.h, d.disk, d.s.commits) && Confirmed(d.h, d.disk) && Announced(d.h, d.chan)
  }

  ghost predicate Shelved(d: Durable) {
    Backed(d.s, d.disk) && Apart(d.s, d.deferred) && Underway(d.s, d.disk, d.chan) && ChanOk(d.s, d.chan)
  }

  ghost predicate Inv(d: Durable) {
    && Book(d) && Shelved(d) && Exact(d.s) && (d.up ==> IdsOk(d))
    && (!d.up ==> d.chan == [] && d.s == NO_SHELF && d.deferred == {})
  }

  // ---------------------------------------------------------------- the writer

  lemma WriteBacked(d: Durable, ok: bool)
    requires Shelved(d) && d.chan != []
    ensures var r := WriteOne(d, ok); Backed(r.s, r.disk) && Apart(r.s, r.deferred)
  {
    hide Underway;
    var op := d.chan[0];
    if op.Remove? { assert op.id !in d.s.ready && op.id !in d.s.inflight; }
    if op.Insert? { assert op.id in d.s.commits; }
  }

  lemma WriteUnderway(d: Durable, ok: bool)
    requires Underway(d.s, d.disk, d.chan) && ChanOk(d.s, d.chan) && d.chan != []
    ensures var r := WriteOne(d, ok); Underway(r.s, r.disk, r.chan)
  {
    var r := WriteOne(d, ok);
    var op := d.chan[0];
    if op.Insert? {
      assert op.id in d.s.commits && d.s.commits[op.id].status.Waiting?;
      InsertIsIts(d, op);
    }
    forall id | id in r.s.commits && r.s.commits[id].status.Waiting?
      ensures id !in r.disk && Insert(id, r.s.commits[id].ms, r.s.commits[id].body) in r.chan
    {
      var x := Insert(id, d.s.commits[id].ms, d.s.commits[id].body);
      assert x in d.chan && x != op;
      StillQueued(d.chan, x);
    }
  }

  lemma StillQueued(chan: seq<Op>, x: Op)
    requires chan != [] && x in chan && x != chan[0]
    ensures x in chan[1..]
  {
    var k :| 0 <= k < |chan| && chan[k] == x;
    assert chan[1..][k - 1] == x;
  }

  /** The insert of a waiting publish carries its time and body. */
  lemma InsertIsIts(d: Durable, op: Op)
    requires Underway(d.s, d.disk, d.chan) && ChanOk(d.s, d.chan) && op.Insert? && op in d.chan && op.id in d.s.commits
    requires d.s.commits[op.id].status.Waiting?
    ensures op == Insert(op.id, d.s.commits[op.id].ms, d.s.commits[op.id].body)
  {
    var x := Insert(op.id, d.s.commits[op.id].ms, d.s.commits[op.id].body);
    var j :| 0 <= j < |d.chan| && d.chan[j] == op;
    var k :| 0 <= k < |d.chan| && d.chan[k] == x;
  }

  lemma WriteChan(d: Durable, ok: bool)
    requires ChanOk(d.s, d.chan) && d.chan != []
    ensures ChanOk(WriteOne(d, ok).s, WriteOne(d, ok).chan)
  {
    var r := WriteOne(d, ok);
    forall k | 0 <= k < |r.chan| && r.chan[k].Insert?
      ensures r.chan[k].id in r.s.commits && r.s.commits[r.chan[k].id].status.Waiting?
    {
      assert r.chan[k] == d.chan[k + 1];
      assert d.chan[0].Insert? ==> d.chan[0].id != d.chan[k + 1].id;
    }
    forall k | 0 <= k < |r.chan| && r.chan[k].Remove?
      ensures r.chan[k].id !in r.s.ready && r.chan[k].id !in r.s.inflight && r.chan[k].id !in r.s.commits
    {
      assert r.chan[k] == d.chan[k + 1];
    }
    forall j, k | 0 <= j < k < |r.chan| && r.chan[j].Insert? && r.chan[k].Insert? ensures r.chan[j].id != r.chan[k].id {
      assert r.chan[j] == d.chan[j + 1] && r.chan[k] == d.chan[k + 1];
    }
  }

  lemma WriteBook(d: Durable, ok: bool)
    requires Book(d) && Shelved(d) && d.chan != []
    ensures Book(WriteOne(d, ok))
  {
    hide Backed, Apart;
    var r := WriteOne(d, ok);
    var op := d.chan[0];
    if op.Insert? { InsertIsIts(d, op); }
    WritePublished(d, ok);
    forall k | 0 <= k < |r.chan| && r.chan[k].Remove? && r.chan[k].id in r.h.current
      ensures r.h.current[r.chan[k].id] in r.h.removed
    {
      assert r.chan[k] == d.chan[k + 1];
    }
  }

  lemma WritePublished(d: Durable, ok: bool)
    requires Published(d.h, d.disk, d.s.commits) && d.chan != []
    requires var op := d.chan[0]; op.Insert? ==> op.id in d.s.commits && op.body == d.s.commits[op.id].body
    ensures var r := WriteOne(d, ok); Published(r.h, r.disk, r.s.commits)
  {
  }

  lemma WriteExact(s: Shelf, op: Op, ok: bool)
    requires Exact(s)
    ensures Exact(s.(commits := Signalled(s.commits, op, ok)))
  {
    var commits := Signalled(s.commits, op, ok);
    if op.Insert? && op.id in s.commits {
      SumMapRemove(s.commits, op.id, PendLen);
      SumMapRemove(commits, op.id, PendLen);
      assert commits - {op.id} == s.commits - {op.id};
      assert commits.Keys == s.commits.Keys;
      assert |commits| == |commits.Keys| && |s.commits| == |s.commits.Keys|;
    }
  }

  lemma WriteIds(d: Durable, ok: bool)
    requires IdsOk(d) && d.chan != [] && ChanOk(d.s, d.chan)
    ensures IdsOk(WriteOne(d, ok))
  {
    var r := WriteOne(d, ok);
    forall k | 0 <= k < |r.chan| ensures r.chan[k].id <= r.s.nextId { assert r.chan[k] == d.chan[k + 1]; }
  }

  lemma WriteOneKeeps(d: Durable, ok: bool)
    requires Inv(d) && d.up && d.chan != []
    ensures Inv(WriteOne(d, ok)) && WriteOne(d, ok).up
  {
    hide Backed, Apart, Underway, ChanOk, Book, Exact, IdsOk;
    WriteBacked(d, ok);
    WriteUnderway(d, ok);
    WriteChan(d, ok);
    WriteBook(d, ok);
    WriteExact(d.s, d.chan[0], ok);
    WriteIds(d, ok);
  }

  /** A whole batch, committed or aborted. */
  lemma {:induction false} WriteBatchKeeps(d: Durable, n: nat, ok: bool)
    requires Inv(d) && d.up && n <= |d.chan|
    ensures Inv(WriteBatch(d, n, ok)) && WriteBatch(d, n, ok).up
    decreases n
  {
    hide Inv;
    if n > 0 {
      WriteOneKeeps(d, ok);
      WriteBatchKeeps(WriteOne(d, ok), n - 1, ok);
    }
  }

  // ---------------------------------------------------------------- moves

  /** The subscribers' side plays no part. */
  lemma FrontFree(d: Durable, f: Front)
    requires Inv(d)
    ensures Inv(d.(f := f))
  {
    hide Book, Shelved, Exact, IdsOk;
    BookFrame(d, d.(f := f));
    ShelvedFrame(d, d.(f := f));
    IdsFrame(d, d.(f := f));
  }

  lemma BookFrame(d: Durable, r: Durable)
    requires r.h == d.h && r.disk == d.disk && r.s.commits == d.s.commits && r.chan == d.chan
    ensures Book(r) == Book(d)
  {
  }

  lemma ShelvedFrame(d: Durable, r: Durable)
    requires r.s == d.s && r.disk == d.disk && r.chan == d.chan && r.deferred == d.deferred
    ensures Shelved(r) == Shelved(d)
  {
  }

  lemma IdsFrame(d: Durable, r: Durable)
    requires r.s == d.s && r.disk == d.disk && r.chan == d.chan && r.deferred == d.deferred
    ensures IdsOk(r) == IdsOk(d)
  {
  }

  /** An id the actor no longer holds, free to be removed. */
  ghost predicate Free(d: Durable, id: nat) {
    id !in d.s.ready && id !in d.s.inflight && id !in d.s.commits && id <= d.s.nextId
  }

  ghost predicate HeldAs(s: Shelf, id: nat, slot: Slot) {
    (id in s.ready && s.ready[id] == slot) || (id in s.inflight && s.inflight[id].slot == slot)
  }

  /** Messages moved between ready and in flight, or dropped; nothing new. */
  ghost predicate Rearranged(s: Shelf, t: Shelf) {
    && t.commits == s.commits && t.nextId == s.nextId
    && (forall id :: id in t.ready ==> HeldAs(s, id, t.ready[id]) && id !in t.inflight)
    && (forall id :: id in t.inflight ==> HeldAs(s, id, t.inflight[id].slot))
  }

  lemma RearrangedShelved(d: Durable, t: Shelf)
    requires Shelved(d) && Rearranged(d.s, t)
    ensures Shelved(d.(s := t))
  {
    var r := d.(s := t);
    forall id | id in t.ready ensures SlotIs(t.ready[id], d.disk, id) { assert HeldAs(d.s, id, t.ready[id]); }
    forall id | id in t.inflight ensures SlotIs(t.inflight[id].slot, d.disk, id) {
      assert HeldAs(d.s, id, t.inflight[id].slot);
    }
    forall id | id in t.ready ensures id in d.s.ready || id in d.s.inflight { assert HeldAs(d.s, id, t.ready[id]); }
    forall id | id in t.inflight ensures id in d.s.ready || id in d.s.inflight {
      assert HeldAs(d.s, id, t.inflight[id].slot);
    }
  }

  lemma RearrangedKeeps(d: Durable, t: Shelf)
    requires Inv(d) && d.up && Rearranged(d.s, t) && Exact(t)
    ensures Inv(d.(s := t))
  {
    hide Book, Shelved, Exact, HeldAs;
    BookFrame(d, d.(s := t));
    RearrangedShelved(d, t);
  }

  lemma ReadyExact(s: Shelf, id: nat)
    requires Exact(s) && id in s.ready
    ensures Exact(s.(ready := s.ready - {id}, failures := s.failures - {id}, bytes := SatSub(s.bytes, s.ready[id].len)))
  {
    SumMapRemove(s.ready, id, SlotLen);
  }

  lemma HeldExact(s: Shelf, id: nat)
    requires Exact(s) && id in s.inflight
    ensures Exact(s.(inflight := s.inflight - {id}, failures := s.failures - {id},
                     bytes := SatSub(s.bytes, s.inflight[id].slot.len)))
  {
    SumMapRemove(s.inflight, id, LeaseLen);
  }

  lemma LeavesReadyKeeps(d: Durable, id: nat)
    requires Inv(d) && d.up && id in d.s.ready
    ensures Inv(LeavesReady(d, id)) && Free(LeavesReady(d, id), id)
  {
    hide Inv, Exact;
    HeldApart(d, id);
    var t := LeavesReady(d, id).s;
    ApartOnes(d);
    assert Rearranged(d.s, t);
    assert Exact(t) by { ExactOnes(d); ReadyExact(d.s, id); }
    RearrangedKeeps(d, t);
  }

  lemma LeavesHeldKeeps(d: Durable, id: nat)
    requires Inv(d) && d.up && id in d.s.inflight
    ensures Inv(LeavesHeld(d, id)) && Free(LeavesHeld(d, id), id)
  {
    hide Inv, Exact;
    HeldApart(d, id);
    var t := LeavesHeld(d, id).s;
    ApartOnes(d);
    assert Rearranged(d.s, t);
    assert Exact(t) by { ExactOnes(d); HeldExact(d.s, id); }
    RearrangedKeeps(d, t);
  }

  lemma ApartOnes(d: Durable)
    requires Inv(d)
    ensures forall id :: id in d.s.ready ==> id !in d.s.inflight
  {
    hide Book, Exact, IdsOk, Backed, Underway, ChanOk;
  }

  lemma ExactOnes(d: Durable)
    requires Inv(d)
    ensures Exact(d.s)
  {
    hide Book, Shelved, IdsOk, Exact;
  }

  lemma HeldApart(d: Durable, id: nat)
    requires Inv(d) && d.up && (id in d.s.ready || id in d.s.inflight)
    ensures id in d.disk && id <= d.s.nextId && id !in d.s.commits && (id in d.s.ready ==> id !in d.s.inflight)
    ensures Knows(d.h, id, d.disk[id].body)
  {
    hide Exact, Underway, ChanOk, Confirmed, Announced, Knows;
    if id in d.s.ready {
      assert SlotIs(d.s.ready[id], d.disk, id);
    } else {
      assert SlotIs(d.s.inflight[id].slot, d.disk, id);
    }
  }

  lemma InSnoc(chan: seq<Op>, op: Op, x: Op)
    requires x in chan
    ensures x in chan + [op]
  {
  }

  lemma SubmittedShelved(d: Durable, op: Op)
    requires Shelved(d) && !op.Insert? && (op.Remove? ==> Free(d, op.id))
    ensures Shelved(Submitted(d, op))
  {
    var r := Submitted(d, op);
    forall id | id in r.s.commits && r.s.commits[id].status.Waiting?
      ensures Insert(id, r.s.commits[id].ms, r.s.commits[id].body) in r.chan
    {
      InSnoc(d.chan, op, Insert(id, d.s.commits[id].ms, d.s.commits[id].body));
    }
  }

  lemma RemoveSubmittedKeeps(d: Durable, id: nat)
    requires Inv(d) && d.up && Free(d, id)
    ensures Inv(RemoveSubmitted(d, id))
  {
    hide Shelved, Exact, Knows;
    var r := RemoveSubmitted(d, id);
    SubmittedShelved(d, Remove(id));
    ShelvedFrame(Submitted(d, Remove(id)), r);
    assert Published(r.h, r.disk, r.s.commits) by { KnowsSame(d.h, r.h); }
    assert Announced(r.h, r.chan);
  }

  lemma KnowsSame(a: History, b: History)
    requires a.published == b.published && a.current == b.current
    ensures forall id: nat, body :: Knows(a, id, body) == Knows(b, id, body)
  {
  }

  lemma DeferredKeeps(d: Durable, id: nat)
    requires Inv(d) && d.up && Free(d, id)
    ensures Inv(d.(deferred := d.deferred + {id}))
  {
    hide Book, Exact;
    BookFrame(d, d.(deferred := d.deferred + {id}));
  }

  lemma DeadLetteredKeeps(d: Durable, id: nat, later: bool)
    requires Inv(d) && d.up && Free(d, id)
    ensures Inv(DeadLettered(d, id, later))
  {
    hide Inv, RemoveSubmitted;
    if later { DeferredKeeps(d, id); } else { RemoveSubmittedKeeps(d, id); }
  }

  lemma RequeuedExact(s: Shelf, id: nat)
    requires Exact(s) && id in s.inflight && id !in s.ready
    ensures Exact(s.(inflight := s.inflight - {id}, ready := s.ready[id := s.inflight[id].slot]))
  {
    SumMapRemove(s.inflight, id, LeaseLen);
    SumMapInsert(s.ready, id, s.inflight[id].slot, SlotLen);
  }

  lemma RequeuedKeeps(d: Durable, id: nat)
    requires Inv(d) && d.up && id in d.s.inflight
    ensures Inv(Requeued(d, id))
  {
    hide Inv, Exact;
    var t := Requeued(d, id).s;
    ApartOnes(d);
    assert Rearranged(d.s, t);
    ExactOnes(d);
    RequeuedExact(d.s, id);
    RearrangedKeeps(d, t);
  }

  /** The failure counters are the actor's own business. */
  lemma FailuresFree(d: Durable, failures: map<nat, nat>)
    requires Inv(d)
    ensures d.up ==> Inv(d.(s := d.s.(failures := failures)))
  {
    hide Inv, Exact;
    if d.up {
      var t := d.s.(failures := failures);
      assert Rearranged(d.s, t) by { ApartOnes(d); }
      assert Exact(t) by { ExactOnes(d); FailuresExact(d.s, failures); }
      RearrangedKeeps(d, t);
    }
  }

  lemma FailuresExact(s: Shelf, failures: map<nat, nat>)
    requires Exact(s)
    ensures Exact(s.(failures := failures))
  {
  }

  lemma FailSubmittedKeeps(d: Durable, id: nat)
    requires Inv(d) && d.up && id <= d.s.nextId
    ensures Inv(Submitted(d, Fail(id)))
  {
    hide Shelved, Exact, Published, Confirmed;
    SubmittedShelved(d, Fail(id));
  }

  ghost function Returned(ready: map<nat, Slot>, held: map<nat, Lease>, back: set<nat>): map<nat, Slot>
    requires back <= held.Keys
  {
    ready + map id | id in back :: held[id].slot
  }

  lemma ReturnedStep(ready: map<nat, Slot>, held: map<nat, Lease>, back: set<nat>, x: nat)
    requires back <= held.Keys && x in back
    ensures Returned(ready[x := held[x].slot], held - {x}, back - {x}) == Returned(ready, held, back)
    ensures (held - {x}) - (back - {x}) == held - back
  {
  }

  /** Everything a subscriber held goes back at once. */
  lemma {:induction false} BackSum(ready: map<nat, Slot>, held: map<nat, Lease>, back: set<nat>)
    requires back <= held.Keys && ready.Keys !! held.Keys
    ensures SumMap(Returned(ready, held, back), SlotLen) + SumMap(held - back, LeaseLen) ==
            SumMap(ready, SlotLen) + SumMap(held, LeaseLen)
    decreases |back|
  {
    if back == {} {
      assert Returned(ready, held, back) == ready && held - back == held;
    } else {
      hide Returned, SumMap;
      var x :| x in back;
      SumMapInsert(ready, x, held[x].slot, SlotLen);
      SumMapRemove(held, x, LeaseLen);
      ReturnedStep(ready, held, back, x);
      BackSum(ready[x := held[x].slot], held - {x}, back - {x});
    }
  }

  lemma DepartedKeeps(d: Durable, sub: nat)
    requires Inv(d) && d.up
    ensures Inv(Departed(d, sub))
  {
    hide Inv, Without;
    var t := Departed(d, sub).s;
    ApartOnes(d);
    BackSum(d.s.ready, d.s.inflight, HeldBy(d.s.inflight, sub));
    assert Rearranged(d.s, t);
    assert Exact(t) by { ExactOnes(d); }
    RearrangedKeeps(d, t);
    FrontFree(d.(s := t), Departed(d, sub).f);
  }

  lemma SentExact(s: Shelf, id: nat, sub: nat)
    requires Exact(s) && id in s.ready && id !in s.inflight
    ensures Exact(s.(ready := s.ready - {id}, inflight := s.inflight[id := Lease(sub, s.ready[id])]))
  {
    SumMapRemove(s.ready, id, SlotLen);
    SumMapInsert(s.inflight, id, Lease(sub, s.ready[id]), LeaseLen);
  }

  lemma SentKeeps(d: Durable, id: nat, sub: nat)
    requires Inv(d) && d.up && id in d.s.ready
    ensures Inv(d.(s := d.s.(ready := d.s.ready - {id}, inflight := d.s.inflight[id := Lease(sub, d.s.ready[id])])))
  {
    hide Inv, Exact;
    var t := d.s.(ready := d.s.ready - {id}, inflight := d.s.inflight[id := Lease(sub, d.s.ready[id])]);
    ApartOnes(d);
    assert Rearranged(d.s, t);
    ExactOnes(d);
    SentExact(d.s, id, sub);
    RearrangedKeeps(d, t);
  }

  // ---------------------------------------------------------------- publishing

  lemma NewIdIsNew(d: Durable)
    requires Backed(d.s, d.disk) && IdsOk(d)
    ensures var id := d.s.nextId + 1;
            id !in d.disk && id !in d.s.commits && id !in d.deferred && id !in d.s.ready && id !in d.s.inflight
    ensures forall k :: 0 <= k < |d.chan| ==> d.chan[k].id != d.s.nextId + 1
  {
    forall x | x in d.s.ready ensures x in d.disk { assert SlotIs(d.s.ready[x], d.disk, x); }
    forall x | x in d.s.inflight ensures x in d.disk { assert SlotIs(d.s.inflight[x].slot, d.disk, x); }
  }

  lemma AcceptedUnderway(d: Durable, body: Bytes, ms: nat)
    requires Underway(d.s, d.disk, d.chan) && d.s.nextId + 1 !in d.disk
    ensures var r := Accepted(d, body, ms); Underway(r.s, r.disk, r.chan)
  {
    var r := Accepted(d, body, ms);
    var id := d.s.nextId + 1;
    var op := Insert(id, ms, body);
    forall x | x in r.s.commits && r.s.commits[x].status.Waiting?
      ensures x !in r.disk && Insert(x, r.s.commits[x].ms, r.s.commits[x].body) in r.chan
    {
      if x == id { assert r.chan[|d.chan|] == op; }
      else { InSnoc(d.chan, op, Insert(x, d.s.commits[x].ms, d.s.commits[x].body)); }
    }
  }

  lemma AcceptedShelved(d: Durable, body: Bytes, ms: nat)
    requires Shelved(d) && IdsOk(d)
    ensures Shelved(Accepted(d, body, ms))
  {
    hide Underway, IdsOk;
    NewIdIsNew(d);
    AcceptedUnderway(d, body, ms);
  }

  lemma AcceptedExact(s: Shelf, id: nat, x: Pending)
    requires Exact(s) && id !in s.commits
    ensures Exact(s.(nextId := id, pending := s.pending + 1, bytes := s.bytes + |x.body|,
                     commits := s.commits[id := x]))
  {
    SumMapInsert(s.commits, id, x, PendLen);
    var more := s.commits[id := x];
    assert more.Keys == s.commits.Keys + {id};
    assert |more| == |more.Keys| && |s.commits| == |s.commits.Keys|;
  }

  lemma AcceptedBook(d: Durable, body: Bytes, ms: nat)
    requires Book(d) && IdsOk(d)
    ensures Book(Accepted(d, body, ms))
  {
    var r := Accepted(d, body, ms);
    var id := d.s.nextId + 1;
    forall x | x in r.disk ensures Knows(r.h, x, r.disk[x].body) {
      assert x != id;
      assert Knows(d.h, x, d.disk[x].body);
    }
    forall x | x in r.s.commits ensures Knows(r.h, x, r.s.commits[x].body) {
      if x != id { assert Knows(d.h, x, d.s.commits[x].body); }
    }
    forall t | t in r.h.confirmed && t !in r.h.removed
      ensures r.h.published[t].id in r.disk && r.h.published[t].id in r.h.current
      ensures r.h.current[r.h.published[t].id] == t
    {
      assert d.h.published[t].id in d.disk;
    }
  }

  lemma AcceptedKeeps(d: Durable, body: Bytes, ms: nat)
    requires Inv(d) && d.up
    ensures Inv(Accepted(d, body, ms)) && Accepted(d, body, ms).up
  {
    hide Shelved, Book, Exact;
    AcceptedShelved(d, body, ms);
    AcceptedBook(d, body, ms);
    AcceptedExact(d.s, d.s.nextId + 1, Pending(ms, body, Waiting));
  }

  // ---------------------------------------------------------------- completions

  lemma CompletedExact(s: Shelf, id: nat)
    requires Exact(s) && id in s.commits && id !in s.ready
    ensures var x := s.commits[id];
            var t := s.(commits := s.commits - {id}, pending := SatSub(s.pending, 1));
            && Exact(t.(ready := t.ready[id := Slot(x.ms, |x.body|)]))
            && Exact(t.(bytes := SatSub(t.bytes, |x.body|)))
            && s.pending > 0 && s.bytes >= |x.body|
  {
    SumMapRemove(s.commits, id, PendLen);
    SumMapInsert(s.ready, id, Slot(s.commits[id].ms, |s.commits[id].body|), SlotLen);
    var less := s.commits - {id};
    assert less.Keys == s.commits.Keys - {id};
    assert |less| == |less.Keys| && |s.commits| == |s.commits.Keys|;
  }

  lemma CompletedBacked(d: Durable, id: nat)
    requires Backed(d.s, d.disk) && Apart(d.s, d.deferred) && Underway(d.s, d.disk, d.chan)
    requires id in d.s.commits && !d.s.commits[id].status.Waiting?
    ensures var r := Completed(d, id); Backed(r.s, r.disk) && Apart(r.s, r.deferred)
  {
  }

  lemma CompletedUnderway(d: Durable, id: nat)
    requires Underway(d.s, d.disk, d.chan) && id in d.s.commits
    ensures var r := Completed(d, id); Underway(r.s, r.disk, r.chan)
  {
  }

  lemma CompletedChan(d: Durable, id: nat)
    requires ChanOk(d.s, d.chan) && id in d.s.commits && !d.s.commits[id].status.Waiting?
    ensures var r := Completed(d, id); ChanOk(r.s, r.chan)
  {
    var r := Completed(d, id);
    forall k | 0 <= k < |r.chan| && r.chan[k].Insert?
      ensures r.chan[k].id in r.s.commits && r.s.commits[r.chan[k].id].status.Waiting?
    {
      assert d.chan[k].id != id;
    }
  }

  lemma CompletedShelved(d: Durable, id: nat)
    requires Shelved(d) && id in d.s.commits && !d.s.commits[id].status.Waiting?
    ensures Shelved(Completed(d, id))
  {
    hide Backed, Apart, Underway, ChanOk, Completed;
    CompletedBacked(d, id);
    CompletedUnderway(d, id);
    CompletedChan(d, id);
  }

  lemma CompletedBook(d: Durable, id: nat)
    requires Book(d) && id in d.s.commits
    requires d.s.commits[id].status.Kept? ==> id in d.disk
    ensures Book(Completed(d, id))
  {
    var r := Completed(d, id);
    assert Knows(d.h, id, d.s.commits[id].body);
    KnowsSame(d.h, r.h);
  }

  lemma CompletedKeeps(d: Durable, id: nat)
    requires Inv(d) && d.up && id in d.s.commits && !d.s.commits[id].status.Waiting?
    ensures Inv(Completed(d, id)) && d.s.pending > 0
  {
    hide Shelved, Book, Exact;
    assert id !in d.s.ready && (d.s.commits[id].status.Kept? ==> id in d.disk) by { CommitApart(d, id); }
    CompletedExact(d.s, id);
    CompletedShelved(d, id);
    CompletedBook(d, id);
  }

  lemma CommitApart(d: Durable, id: nat)
    requires Shelved(d) && id in d.s.commits
    ensures id !in d.s.ready && id !in d.s.inflight && (d.s.commits[id].status.Kept? ==> id in d.disk)
  {
  }

  // ---------------------------------------------------------------- mail and dispatch

  /** In order and up. */
  ghost predicate Live(d: Durable) { Inv(d) && d.up }

  lemma DropHeadKeeps(d: Durable, later: nat -> bool)
    requires Live(d) && d.s.ready != map[]
    ensures Live(DropHead(d, later))
  {
    hide Inv, LeavesReady;
    var id := Least(d.s.ready.Keys);
    LeavesReadyKeeps(d, id);
    StaysUp(d, id);
    DeadLetteredKeeps(LeavesReady(d, id), id, later(id));
  }

  lemma StaysUp(d: Durable, id: nat)
    requires id in d.s.ready
    ensures LeavesReady(d, id).up == d.up
  {
  }

  lemma {:induction false} RoomMadeKeeps(d: Durable, p: Policy, len: nat, later: nat -> bool)
    requires Live(d)
    ensures Live(RoomMade(d, p, len, later))
    decreases |d.s.ready|
  {
    hide Live, DropHead;
    if p.dropHead && Overfull(d, p, len) && d.s.ready != map[] {
      DropHeadKeeps(d, later);
      HeadShrinks(d, later);
      RoomMadeKeeps(DropHead(d, later), p, len, later);
    }
  }

  lemma HeadShrinks(d: Durable, later: nat -> bool)
    requires d.s.ready != map[]
    ensures |DropHead(d, later).s.ready| < |d.s.ready|
  {
    var id := Least(d.s.ready.Keys);
    LeavesShrinks(d, id, later(id));
  }

  lemma PublishesKeeps(d: Durable, p: Policy, body: Bytes, fromReserved: bool, ms: nat, later: nat -> bool)
    requires Live(d)
    ensures Live(Publishes(d, p, body, fromReserved, ms, later))
  {
    hide Inv, Accepted, RoomMade, TurnsAway;
    var d1 := SlotTaken(d, fromReserved);
    FrontFree(d, d1.f);
    RoomMadeKeeps(d1, p, |body|, later);
    AcceptedKeeps(RoomMade(d1, p, |body|, later), body, ms);
  }

  lemma SettlesKeeps(d: Durable, p: Policy, sub: nat, id: nat, outcome: Outcome, later: nat -> bool)
    requires Live(d)
    ensures Live(Settles(d, p, sub, id, outcome, later))
  {
    hide Inv, LeavesHeld, RemoveSubmitted, Requeued;
    if id in d.s.inflight && d.s.inflight[id].sub == sub {
      HeldUp(d, id);
      HeldApart(d, id);
      LeavesHeldKeeps(d, id);
      RemoveSubmittedKeeps(LeavesHeld(d, id), id);
      RemoveUp(LeavesHeld(d, id), id);
      DeadLetteredKeeps(LeavesHeld(d, id), id, later(id));
      RequeuedKeeps(d, id);
      var r := Requeued(d, id);
      FailuresFree(r, d.s.failures[id := Counted(d, id) + 1]);
      FailSubmittedKeeps(r.(s := r.s.(failures := d.s.failures[id := Counted(d, id) + 1])), id);
    }
  }

  lemma HeldUp(d: Durable, id: nat)
    requires id in d.s.inflight
    ensures LeavesHeld(d, id).up == d.up && Requeued(d, id).up == d.up && Requeued(d, id).s.nextId == d.s.nextId
  {
  }

  lemma RemoveUp(d: Durable, id: nat)
    ensures RemoveSubmitted(d, id).up == d.up
  {
  }

  lemma MailKeeps(d: Durable, p: Policy, msg: Message, ms: nat, later: nat -> bool)
    requires Live(d)
    ensures Live(Mail(d, p, msg, ms, later))
  {
    hide Inv, Publishes, Settles, Departed;
    match msg {
      case Publish(body) => PublishesKeeps(d, p, body, false, ms, later);
      case PublishReserved(body) => PublishesKeeps(d, p, body, true, ms, later);
      case Settle(sub, id, outcome) => SettlesKeeps(d, p, sub, id, outcome, later);
      case Unsubscribe(sub) =>
        DepartedKeeps(d, sub);
        DepartedUp(d, sub);
      case _ => FrontFree(d, Mail(d, p, msg, ms, later).f);
    }
  }

  lemma DepartedUp(d: Durable, sub: nat)
    ensures Departed(d, sub).up == d.up
  {
  }

  lemma {:induction false} ExpireKeeps(d: Durable, p: Policy, now: nat, later: nat -> bool)
    requires Live(d)
    ensures Live(ExpireHeads(d, p, now, later))
    decreases |d.s.ready|
  {
    hide Live, DropHead;
    if d.s.ready != map[] && IsExpired(p, d.s.ready[Least(d.s.ready.Keys)], now) {
      DropHeadKeeps(d, later);
      HeadShrinks(d, later);
      ExpireKeeps(DropHead(d, later), p, now, later);
    }
  }

  /** A ready message is on disk, so there is always a body to deliver. */
  lemma OfferKeeps(d: Durable, id: nat, idx: nat, ok: bool)
    requires Live(d) && id in d.s.ready && idx < |d.f.subs| && d.f.subs[idx].demand > 0
    ensures Live(Offer(d, id, idx, ok)) && id in d.disk
  {
    hide Inv, Departed, After;
    HeldApart(d, id);
    var sub := d.f.subs[idx];
    var d1 := d.(f := d.f.(subs := d.f.subs[idx := sub.(demand := sub.demand - 1)], rr := After(idx, |d.f.subs|)));
    FrontFree(d, d1.f);
    SentKeeps(d, id, sub.id);
    FrontFree(d.(s := d.s.(ready := d.s.ready - {id}, inflight := d.s.inflight[id := Lease(sub.id, d.s.ready[id])])),
              Offer(d, id, idx, true).f);
    DepartedKeeps(d1, sub.id);
    DepartedUp(d1, sub.id);
  }

  lemma {:induction false} ServeAllKeeps(d: Durable, ok: nat -> bool, n: nat)
    requires Live(d)
    ensures Live(ServeAll(d, ok, n))
    decreases |d.f.subs|, |d.s.ready|
  {
    hide Inv, Offer;
    if d.s.ready == map[] {
      FrontFree(d, Subs(d, CompleteDrains(d.f.subs)).f);
    } else if PickReady(d.f.subs, d.f.rr).Some? {
      var id, idx := Least(d.s.ready.Keys), PickReady(d.f.subs, d.f.rr).value;
      OfferShrinks(d, id, idx, ok(n));
      OfferKeeps(d, id, idx, ok(n));
      ServeAllKeeps(Serve(d, ok(n)), ok, n + 1);
    }
  }

  lemma DispatchedKeeps(d: Durable, p: Policy, now: nat, ok: nat -> bool, later: nat -> bool)
    requires Live(d)
    ensures Live(Dispatched(d, p, now, ok, later))
  {
    hide Live, ExpireHeads, ServeAll;
    ExpireKeeps(d, p, now, later);
    ServeAllKeeps(ExpireHeads(d, p, now, later), ok, 0);
  }

  // ---------------------------------------------------------------- deferred removes, crash and recovery

  lemma SubmitDeferredKeeps(d: Durable, id: nat)
    requires Live(d) && id in d.deferred
    ensures Live(RemoveSubmitted(d.(deferred := d.deferred - {id}), id))
  {
    hide Book, Exact, RemoveSubmitted;
    var r := d.(deferred := d.deferred - {id});
    BookFrame(d, r);
    assert Inv(r) && Free(r, id);
    RemoveSubmittedKeeps(r, id);
    RemoveUp(r, id);
  }

  lemma CrashKeeps(d: Durable)
    requires Live(d)
    ensures Inv(Durable(d.disk, [], {}, NO_SHELF, NO_FRONT, false, d.h))
  {
  }

  lemma {:induction false} ScannedSum(disk: map<nat, Row>, ready: map<nat, Slot>)
    requires ready == map id | id in disk :: Slot(disk[id].ms, |disk[id].body|)
    ensures SumMap(ready, SlotLen) == SumMap(disk, RowSize)
    decreases |disk|
  {
    if disk != map[] {
      var id :| id in disk;
      SumMapRemove(disk, id, RowSize);
      SumMapRemove(ready, id, SlotLen);
      ScannedSum(disk - {id}, ready - {id});
    } else {
      assert ready == map[];
    }
  }

  lemma ScannedExact(disk: map<nat, Row>, top: nat)
    ensures Exact(Scanned(disk, top))
  {
    ScannedSum(disk, Scanned(disk, top).ready);
  }

  lemma RecoverKeeps(d: Durable, top: nat)
    requires Inv(d) && !d.up && IsMax(top, d.disk.Keys)
    ensures Live(d.(s := Scanned(d.disk, top), up := true))
  {
    hide Exact, Knows;
    var r := d.(s := Scanned(d.disk, top), up := true);
    ScannedExact(d.disk, top);
    assert Shelved(r);
    assert Book(r);
  }

  lemma NextKeeps(d: Durable, p: Policy, step: Step)
    requires Inv(d) && Enabled(d, step)
    ensures Inv(Next(d, p, step))
  {
    hide Inv, Mail, Dispatched, Completed, RemoveSubmitted, WriteBatch, Scanned;
    match step
    case Receive(msg, ms, now, ok, later) =>
      MailKeeps(d, p, msg, ms, later);
      DispatchedKeeps(Mail(d, p, msg, ms, later), p, now, ok, later);
    case Complete(id, now, ok, later) =>
      CompletedKeeps(d, id);
      CompletedUp(d, id);
      DispatchedKeeps(Completed(d, id), p, now, ok, later);
    case SubmitDeferred(id) => SubmitDeferredKeeps(d, id);
    case Write(n, ok) => WriteBatchKeeps(d, n, ok);
    case Crash => CrashKeeps(d);
    case Recover(top) => RecoverKeeps(d, top);
  }

  lemma CompletedUp(d: Durable, id: nat)
    requires id in d.s.commits
    ensures Completed(d, id).up == d.up
  {
  }

  lemma NewKeeps()
    ensures Inv(NEW_STORE)
  {
  }

  lemma {:induction false} EveryRunKeeps(ds: seq<Durable>, p: Policy, steps: seq<Step>, n: nat)
    requires IsRun(ds, p, steps) && n < |ds|
    ensures Inv(ds[n])
  {
    hide Inv, Next, Enabled;
    if n == 0 {
      NewKeeps();
    } else {
      EveryRunKeeps(ds, p, steps, n - 1);
      NextKeeps(ds[n - 1], p, steps[n - 1]);
    }
  }

  // ---------------------------------------------------------------- what it means

  /** At every moment, what can be delivered is on disk, as long as it says. */
  lemma ReadyIsOnDisk(ds: seq<Durable>, p: Policy, steps: seq<Step>, n: nat, id: nat)
    requires IsRun(ds, p, steps) && n < |ds| && (id in ds[n].s.ready || id in ds[n].s.inflight)
    ensures id in ds[n].disk
  {
    hide IsRun, Book, Exact, IdsOk, Apart, Underway, ChanOk;
    EveryRunKeeps(ds, p, steps, n);
    var d := ds[n];
    if id in d.s.ready {
      assert SlotIs(d.s.ready[id], d.disk, id);
    } else {
      assert SlotIs(d.s.inflight[id].slot, d.disk, id);
    }
  }

  /**
   * Whatever the schedule of batches, aborts and crashes so far, a crash now and a recovery give back every
   * confirmed publish whose remove was never submitted, with its body; give back nothing that was not
   * published; and number new messages above everything recovered.
   */
  lemma CrashRecoversConfirmed(ds: seq<Durable>, p: Policy, steps: seq<Step>, n: nat, top: nat)
    requires IsRun(ds, p, steps) && n < |ds| && IsMax(top, ds[n].disk.Keys)
    ensures var d, s := ds[n], Scanned(ds[n].disk, top);
            && (forall t :: t in d.h.confirmed && t !in d.h.removed ==>
                  t < |d.h.published| && d.h.published[t].id in s.ready && d.h.published[t].id in d.disk &&
                  d.disk[d.h.published[t].id].body == d.h.published[t].body)
            && (forall id :: id in s.ready ==>
                  id in d.disk && exists t :: 0 <= t < |d.h.published| && d.h.published[t] == Told(id, d.disk[id].body))
            && (forall id :: id in s.ready ==> id <= s.nextId)
            && s.bytes == SumMap(s.ready, SlotLen)
  {
    hide IsRun, Exact, IdsOk, Shelved;
    EveryRunKeeps(ds, p, steps, n);
    var d, s := ds[n], Scanned(ds[n].disk, top);
    forall t | t in d.h.confirmed && t !in d.h.removed
      ensures t < |d.h.published| && d.h.published[t].id in d.disk
      ensures d.disk[d.h.published[t].id].body == d.h.published[t].body
    {
      var id := d.h.published[t].id;
      assert Knows(d.h, id, d.disk[id].body);
    }
    forall id | id in s.ready
      ensures id in d.disk && exists t :: 0 <= t < |d.h.published| && d.h.published[t] == Told(id, d.disk[id].body)
    {
      assert Knows(d.h, id, d.disk[id].body);
    }
    ScannedSum(d.disk, s.ready);
  }

  // ---------------------------------------------------------------- confirmations only after a commit

  lemma Quietly(d: Durable, p: Policy, now: nat, ok: nat -> bool, later: nat -> bool)
    ensures Dispatched(d, p, now, ok, later).h.confirmed == d.h.confirmed
  {
    hide ExpireHeads, ServeAll;
    ExpireQuiet(d, p, now, later);
    ServeQuiet(ExpireHeads(d, p, now, later), ok, 0);
  }

  lemma {:induction false} ExpireQuiet(d: Durable, p: Policy, now: nat, later: nat -> bool)
    ensures ExpireHeads(d, p, now, later).h.confirmed == d.h.confirmed
    decreases |d.s.ready|
  {
    hide DropHead;
    if d.s.ready != map[] && IsExpired(p, d.s.ready[Least(d.s.ready.Keys)], now) {
      HeadShrinks(d, later);
      HeadQuiet(d, later);
      ExpireQuiet(DropHead(d, later), p, now, later);
    }
  }

  lemma HeadQuiet(d: Durable, later: nat -> bool)
    requires d.s.ready != map[]
    ensures DropHead(d, later).h.confirmed == d.h.confirmed
  {
    var id := Least(d.s.ready.Keys);
    OutQuiet(d, id, later(id));
  }

  lemma OutQuiet(d: Durable, id: nat, later: bool)
    requires id in d.s.ready
    ensures DeadLettered(LeavesReady(d, id), id, later).h.confirmed == d.h.confirmed
  {
  }

  lemma OfferQuiet(d: Durable, id: nat, idx: nat, ok: bool)
    requires id in d.s.ready && idx < |d.f.subs| && d.f.subs[idx].demand > 0
    ensures Offer(d, id, idx, ok).h == d.h
  {
    hide After, Without;
  }

  lemma {:induction false} ServeQuiet(d: Durable, ok: nat -> bool, n: nat)
    ensures ServeAll(d, ok, n).h.confirmed == d.h.confirmed
    decreases |d.f.subs|, |d.s.ready|
  {
    hide Offer;
    if d.s.ready != map[] && PickReady(d.f.subs, d.f.rr).Some? {
      var id, idx := Least(d.s.ready.Keys), PickReady(d.f.subs, d.f.rr).value;
      OfferShrinks(d, id, idx, ok(n));
      OfferQuiet(d, id, idx, ok(n));
      ServeQuiet(Serve(d, ok(n)), ok, n + 1);
    }
  }

  /** A publish is confirmed only by a completion of its own, when its batch has been committed. */
  lemma ConfirmedByItsCommit(d: Durable, id: nat, p: Policy, now: nat, ok: nat -> bool, later: nat -> bool, t: nat)
    requires id in d.s.commits
    requires t in Dispatched(Completed(d, id), p, now, ok, later).h.confirmed && t !in d.h.confirmed
    ensures d.s.commits[id].status.Kept? && id in d.h.current && d.h.current[id] == t
  {
    hide Dispatched;
    Quietly(Completed(d, id), p, now, ok, later);
  }
}
