/**
 * The table as its own history (ramqp-broker/src/store.rs:498-532, ramqp-broker/src/durable.rs:69-80): in every
 * run the rows on disk are the committed operations applied in order, across any crashes. So a recovered
 * failure count counts the committed failures of that insert, and what was removed stays removed.
 */
module DurableHistory {
  import opened Collections
  import opened Dispatch
  import opened TransientQueue
  import opened Durable
  import opened DurableSafety

  // ---------------------------------------------------------------- the committed operations

  /** Every operation committed in the first `n` steps, in order. */
  ghost function Committed(ds: seq<Durable>, steps: seq<Step>, n: nat): seq<Op>
    requires n <= |steps| && n < |ds|
  {
    if n == 0 then [] else
      var d, step := ds[n - 1], steps[n - 1];
      Committed(ds, steps, n - 1) +
      (if step.Write? && step.committed && step.n <= |d.chan| then d.chan[..step.n] else [])
  }

  ghost function Replay(ops: seq<Op>): map<nat, Row> {
    if ops == [] then map[] else Applied(Replay(ops[..|ops| - 1]), ops[|ops| - 1])
  }

  lemma ReplaySnoc(ops: seq<Op>, op: Op)
    ensures Replay(ops + [op]) == Applied(Replay(ops), op)
  {
    assert (ops + [op])[..|ops|] == ops;
  }

  lemma {:induction false} BatchReplays(d: Durable, n: nat, ok: bool, ops: seq<Op>)
    requires n <= |d.chan| && d.disk == Replay(ops)
    ensures WriteBatch(d, n, ok).disk == if ok then Replay(ops + d.chan[..n]) else d.disk
    decreases n
  {
    hide Applied, Signalled, Replay;
    if n == 0 {
      assert ops + d.chan[..0] == ops;
    } else {
      ReplaySnoc(ops, d.chan[0]);
      var r := WriteOne(d, ok);
      assert ops + [d.chan[0]] + r.chan[..n - 1] == ops + d.chan[..n];
      BatchReplays(r, n - 1, ok, if ok then ops + [d.chan[0]] else ops);
    }
  }

  // ---------------------------------------------------------------- what the actor leaves alone

  /** Nothing was written, and no publish was taken. */
  ghost predicate Untouched(d: Durable, r: Durable) {
    && r.disk == d.disk && r.s.commits == d.s.commits
    && r.h.published == d.h.published && r.h.current == d.h.current
  }

  lemma LeavesUntouched(d: Durable, id: nat, later: bool)
    requires id in d.s.ready
    ensures Untouched(d, DeadLettered(LeavesReady(d, id), id, later))
  {
  }

  lemma HeadUntouched(d: Durable, later: nat -> bool)
    requires d.s.ready != map[]
    ensures Untouched(d, DropHead(d, later))
  {
    hide DeadLettered, LeavesReady;
    LeavesUntouched(d, Least(d.s.ready.Keys), later(Least(d.s.ready.Keys)));
  }

  lemma {:induction false} RoomUntouched(d: Durable, p: Policy, len: nat, later: nat -> bool)
    ensures Untouched(d, RoomMade(d, p, len, later))
    decreases |d.s.ready|
  {
    hide DropHead;
    if p.dropHead && Overfull(d, p, len) && d.s.ready != map[] {
      HeadShrinks(d, later);
      HeadUntouched(d, later);
      RoomUntouched(DropHead(d, later), p, len, later);
    }
  }

  lemma {:induction false} ExpireUntouched(d: Durable, p: Policy, now: nat, later: nat -> bool)
    ensures Untouched(d, ExpireHeads(d, p, now, later))
    decreases |d.s.ready|
  {
    hide DropHead;
    if d.s.ready != map[] && IsExpired(p, d.s.ready[Least(d.s.ready.Keys)], now) {
      HeadShrinks(d, later);
      HeadUntouched(d, later);
      ExpireUntouched(DropHead(d, later), p, now, later);
    }
  }

  lemma OfferUntouched(d: Durable, id: nat, idx: nat, ok: bool)
    requires id in d.s.ready && idx < |d.f.subs| && d.f.subs[idx].demand > 0
    ensures Untouched(d, Offer(d, id, idx, ok))
  {
    hide After, Without, HeldBy;
  }

  lemma {:induction false} ServeUntouched(d: Durable, ok: nat -> bool, n: nat)
    ensures Untouched(d, ServeAll(d, ok, n))
    decreases |d.f.subs|, |d.s.ready|
  {
    hide Offer;
    if d.s.ready != map[] && PickReady(d.f.subs, d.f.rr).Some? {
      var id, idx := Least(d.s.ready.Keys), PickReady(d.f.subs, d.f.rr).value;
      OfferShrinks(d, id, idx, ok(n));
      OfferUntouched(d, id, idx, ok(n));
      ServeUntouched(Serve(d, ok(n)), ok, n + 1);
    }
  }

  lemma DispatchUntouched(d: Durable, p: Policy, now: nat, ok: nat -> bool, later: nat -> bool)
    ensures Untouched(d, Dispatched(d, p, now, ok, later))
  {
    hide ExpireHeads, ServeAll;
    ExpireUntouched(d, p, now, later);
    ServeUntouched(ExpireHeads(d, p, now, later), ok, 0);
  }

  lemma SettlesUntouched(d: Durable, p: Policy, sub: nat, id: nat, outcome: Outcome, later: nat -> bool)
    ensures Untouched(d, Settles(d, p, sub, id, outcome, later))
  {
  }

  /** Publishes taken since, and whatever they stand for, are newer than the rest. */
  ghost predicate OnlyNewer(d: Durable, r: Durable) {
    && r.disk == d.disk && |d.h.published| <= |r.h.published|
    && forall id :: id in r.s.commits && !(id in d.s.commits && id in d.h.current && id in r.h.current &&
                                           r.h.current[id] == d.h.current[id]) ==>
         id in r.h.current && r.h.current[id] >= |d.h.published|
  }

  ghost predicate CurrentStays(d: Durable, r: Durable) {
    forall id :: id in d.h.current ==>
      id in r.h.current && (r.h.current[id] == d.h.current[id] || r.h.current[id] >= |d.h.published|)
  }

  lemma AcceptedNewer(d: Durable, body: Bytes, ms: nat)
    requires forall id :: id in d.s.commits ==> id in d.h.current
    ensures OnlyNewer(d, Accepted(d, body, ms)) && CurrentStays(d, Accepted(d, body, ms))
  {
  }

  lemma UntouchedNewer(d: Durable, u: Durable, r: Durable)
    requires Untouched(d, u) && OnlyNewer(u, r) && CurrentStays(u, r)
    ensures OnlyNewer(d, r) && CurrentStays(d, r)
  {
  }

  lemma NewerUntouched(d: Durable, u: Durable, r: Durable)
    requires OnlyNewer(d, u) && CurrentStays(d, u) && Untouched(u, r)
    ensures OnlyNewer(d, r) && CurrentStays(d, r)
  {
  }

  lemma SameNewer(d: Durable, r: Durable)
    requires Untouched(d, r) && forall id :: id in d.s.commits ==> id in d.h.current
    ensures OnlyNewer(d, r) && CurrentStays(d, r)
  {
  }

  lemma PublishesNewer(d: Durable, p: Policy, body: Bytes, fromReserved: bool, ms: nat, later: nat -> bool)
    requires forall id :: id in d.s.commits ==> id in d.h.current
    ensures var r := Publishes(d, p, body, fromReserved, ms, later); OnlyNewer(d, r) && CurrentStays(d, r)
  {
    hide RoomMade, Accepted, OnlyNewer, CurrentStays, TurnsAway;
    var d1 := SlotTaken(d, fromReserved);
    var d2 := RoomMade(d1, p, |body|, later);
    RoomUntouched(d1, p, |body|, later);
    assert Untouched(d, d2);
    SameNewer(d, d2);
    AcceptedNewer(d2, body, ms);
    UntouchedNewer(d, d2, Accepted(d2, body, ms));
  }

  lemma MailNewer(d: Durable, p: Policy, msg: Message, ms: nat, later: nat -> bool)
    requires forall id :: id in d.s.commits ==> id in d.h.current
    ensures var r := Mail(d, p, msg, ms, later); OnlyNewer(d, r) && CurrentStays(d, r)
  {
    hide Publishes, Settles, OnlyNewer, CurrentStays;
    match msg {
      case Publish(body) => PublishesNewer(d, p, body, false, ms, later);
      case PublishReserved(body) => PublishesNewer(d, p, body, true, ms, later);
      case Settle(sub, id, outcome) =>
        SettlesUntouched(d, p, sub, id, outcome, later);
        SameNewer(d, Settles(d, p, sub, id, outcome, later));
      case _ => SameNewer(d, Mail(d, p, msg, ms, later));
    }
  }

  lemma CommitsAreKnown(d: Durable)
    requires Inv(d)
    ensures forall id :: id in d.s.commits ==> id in d.h.current
    ensures forall id :: id in d.disk ==> id in d.h.current
  {
    hide Shelved, Exact, IdsOk, Confirmed, Announced;
    forall id | id in d.disk ensures id in d.h.current { assert Knows(d.h, id, d.disk[id].body); }
    forall id | id in d.s.commits ensures id in d.h.current { assert Knows(d.h, id, d.s.commits[id].body); }
  }

  lemma ReceiveNewer(d: Durable, p: Policy, msg: Message, ms: nat, now: nat, ok: nat -> bool, later: nat -> bool)
    requires Inv(d) && d.up
    ensures var r := Next(d, p, Receive(msg, ms, now, ok, later)); OnlyNewer(d, r) && CurrentStays(d, r)
  {
    hide Inv, Mail, Dispatched, OnlyNewer, CurrentStays, BackToMailbox;
    CommitsAreKnown(d);
    var m := Mail(d, p, msg, ms, later);
    MailNewer(d, p, msg, ms, later);
    DispatchUntouched(m, p, now, ok, later);
    NewerUntouched(d, m, Dispatched(m, p, now, ok, later));
  }

  // ---------------------------------------------------------------- the table

  lemma DiskSteps(d: Durable, p: Policy, step: Step)
    requires Inv(d) && Enabled(d, step) && !step.Write?
    ensures Next(d, p, step).disk == d.disk
  {
    hide Inv, Mail, Dispatched, RemoveSubmitted, Completed, Scanned, CurrentStays;
    match step
    case Receive(msg, ms, now, ok, later) => ReceiveNewer(d, p, msg, ms, now, ok, later);
    case Complete(id, now, ok, later) =>
      DispatchUntouched(Completed(d, id), p, now, ok, later);
      CompletedDisk(d, id);
    case SubmitDeferred(id) => RemoveDisk(d.(deferred := d.deferred - {id}), id);
    case _ =>
  }

  lemma CompletedDisk(d: Durable, id: nat)
    requires id in d.s.commits
    ensures var r := Completed(d, id);
            r.disk == d.disk && r.h.published == d.h.published && r.h.current == d.h.current &&
            r.s.commits == d.s.commits - {id}
  {
  }

  lemma RemoveDisk(d: Durable, id: nat)
    ensures Untouched(d, RemoveSubmitted(d, id))
  {
  }

  /** In every run, whatever was aborted or lost in a crash, the table is the committed operations in order. */
  lemma {:induction false} TableIsCommitted(ds: seq<Durable>, p: Policy, steps: seq<Step>, n: nat)
    requires IsRun(ds, p, steps) && n < |ds|
    ensures ds[n].disk == Replay(Committed(ds, steps, n))
  {
    hide Inv, Next, Replay;
    if n == 0 {
      NothingReplayed();
    } else {
      TableIsCommitted(ds, p, steps, n - 1);
      EveryRunKeeps(ds, p, steps, n - 1);
      var d, step := ds[n - 1], steps[n - 1];
      var ops := Committed(ds, steps, n - 1);
      assert ops + [] == ops;
      if step.Write? {
        BatchReplays(d, step.n, step.committed, ops);
        WriteStep(d, p, step);
      } else {
        DiskSteps(d, p, step);
      }
    }
  }

  lemma NothingReplayed()
    ensures Replay([]) == map[]
  {
  }

  lemma WriteStep(d: Durable, p: Policy, step: Step)
    requires Enabled(d, step) && step.Write?
    ensures Next(d, p, step) == WriteBatch(d, step.n, step.committed)
  {
    hide WriteBatch;
  }

  // ---------------------------------------------------------------- one row

  function FailsOf(ops: seq<Op>, id: nat): nat {
    if ops == [] then 0 else FailsOf(ops[..|ops| - 1], id) + (if ops[|ops| - 1] == Fail(id) then 1 else 0)
  }

  /** The insert at `k` is the one the row came from. */
  ghost predicate CameFrom(ops: seq<Op>, id: nat, row: Row, k: nat) {
    && k < |ops| && ops[k] == Insert(id, row.ms, row.body)
    && (forall j :: k < j < |ops| ==> ops[j] != Remove(id) && !(ops[j].Insert? && ops[j].id == id))
    && row.failures == FailsOf(ops[k + 1..], id)
  }

  lemma CarriedOn(ops: seq<Op>, id: nat, row: Row, k: nat, op: Op)
    requires CameFrom(ops, id, row, k) && op != Remove(id) && !(op.Insert? && op.id == id)
    ensures CameFrom(ops + [op], id, row.(failures := row.failures + if op == Fail(id) then 1 else 0), k)
  {
    assert (ops + [op])[k + 1..] == ops[k + 1..] + [op];
    assert (ops[k + 1..] + [op])[..|ops| - k - 1] == ops[k + 1..];
  }

  lemma JustInserted(ops: seq<Op>, id: nat, ms: nat, body: Bytes)
    ensures CameFrom(ops + [Insert(id, ms, body)], id, Row(0, ms, body), |ops|)
  {
    assert (ops + [Insert(id, ms, body)])[|ops| + 1..] == [];
  }

  /** A row is an insert not removed since, with as many failures as were committed after it. */
  lemma {:induction false} RowHistory(ops: seq<Op>, id: nat)
    ensures id in Replay(ops) ==> exists k: nat :: CameFrom(ops, id, Replay(ops)[id], k)
    decreases |ops|
  {
    hide CameFrom;
    if ops != [] && id in Replay(ops) {
      var n := |ops| - 1;
      var op := ops[n];
      assert ops == ops[..n] + [op];
      if op.Insert? && op.id == id {
        JustInserted(ops[..n], id, op.ms, op.body);
      } else {
        RowHistory(ops[..n], id);
        var k: nat :| CameFrom(ops[..n], id, Replay(ops[..n])[id], k);
        CarriedOn(ops[..n], id, Replay(ops[..n])[id], k, op);
      }
    }
  }

  /** The failures the actor starts from. */
  function Recorded(s: Shelf, id: nat): nat {
    if id in s.failures then s.failures[id] else 0
  }

  /**
   * After a crash at any point, a message is recovered from an insert committed and not removed since, with
   * its time and length, and its failure count is the number of failures committed since that insert.
   */
  lemma RecoveredFailuresAreCommitted(ds: seq<Durable>, p: Policy, steps: seq<Step>, n: nat, top: nat, id: nat)
    requires IsRun(ds, p, steps) && n < |ds| && IsMax(top, ds[n].disk.Keys) && id in Scanned(ds[n].disk, top).ready
    ensures var s, ops := Scanned(ds[n].disk, top), Committed(ds, steps, n);
            exists k, body ::
              && 0 <= k < |ops| && ops[k] == Insert(id, s.ready[id].ms, body) && |body| == s.ready[id].len
              && (forall j :: k < j < |ops| ==> ops[j] != Remove(id) && !(ops[j].Insert? && ops[j].id == id))
              && Recorded(s, id) == FailsOf(ops[k + 1..], id)
  {
    hide Next, Enabled, Replay, Committed;
    TableIsCommitted(ds, p, steps, n);
    var ops := Committed(ds, steps, n);
    RowHistory(ops, id);
    var row := ds[n].disk[id];
    var k: nat :| CameFrom(ops, id, row, k);
    assert ops[k] == Insert(id, row.ms, row.body);
  }

  // ---------------------------------------------------------------- removed for good

  /** If `id` is in use, it is for a publish from `base` on. */
  ghost predicate UsedAnew(d: Durable, id: nat, base: nat) {
    && base <= |d.h.published|
    && (id in d.disk || id in d.s.commits ==> id in d.h.current && d.h.current[id] >= base)
  }

  lemma {:induction false} BatchUsedAnew(d: Durable, n: nat, ok: bool, id: nat, base: nat)
    requires Inv(d) && d.up && n <= |d.chan| && UsedAnew(d, id, base)
    ensures UsedAnew(WriteBatch(d, n, ok), id, base)
    decreases n
  {
    hide Inv;
    if n > 0 {
      OneUsedAnew(d, ok, id, base);
      WriteOneKeeps(d, ok);
      BatchUsedAnew(WriteOne(d, ok), n - 1, ok, id, base);
    }
  }

  lemma OneUsedAnew(d: Durable, ok: bool, id: nat, base: nat)
    requires Inv(d) && d.chan != [] && UsedAnew(d, id, base)
    ensures UsedAnew(WriteOne(d, ok), id, base)
  {
    hide Book, Exact, IdsOk, Backed, Apart, Underway;
    if d.chan[0].Insert? { assert d.chan[0].id in d.s.commits; }
  }

  lemma {:induction false} RemovedIsUnused(d: Durable, n: nat, id: nat)
    requires Inv(d) && d.up && n <= |d.chan| && Remove(id) in d.chan[..n]
    ensures var r := WriteBatch(d, n, true); id !in r.disk && id !in r.s.commits
    decreases n
  {
    hide Inv;
    WriteOneKeeps(d, true);
    var r := WriteOne(d, true);
    var k :| 0 <= k < n && d.chan[k] == Remove(id);
    if k == 0 {
      RemoveTakes(d, id);
      StaysUnused(r, n - 1, id);
    } else {
      assert r.chan[k - 1] == Remove(id);
      RemovedIsUnused(r, n - 1, id);
    }
  }

  lemma RemoveTakes(d: Durable, id: nat)
    requires Inv(d) && d.chan != [] && d.chan[0] == Remove(id)
    ensures var r := WriteOne(d, true); id !in r.disk && id !in r.s.commits
  {
    hide Book, Exact, IdsOk, Backed, Apart, Underway;
  }

  lemma {:induction false} StaysUnused(d: Durable, n: nat, id: nat)
    requires Inv(d) && d.up && n <= |d.chan| && id !in d.disk && id !in d.s.commits
    ensures var r := WriteBatch(d, n, true); id !in r.disk && id !in r.s.commits
    decreases n
  {
    hide Inv;
    if n > 0 {
      UnusedOne(d, id);
      WriteOneKeeps(d, true);
      StaysUnused(WriteOne(d, true), n - 1, id);
    }
  }

  lemma UnusedOne(d: Durable, id: nat)
    requires Inv(d) && d.chan != [] && id !in d.disk && id !in d.s.commits
    ensures var r := WriteOne(d, true); id !in r.disk && id !in r.s.commits
  {
    hide Book, Exact, IdsOk, Backed, Apart, Underway;
    if d.chan[0].Insert? { assert d.chan[0].id in d.s.commits; }
  }

  lemma NextUsedAnew(d: Durable, p: Policy, step: Step, id: nat, base: nat)
    requires Inv(d) && Enabled(d, step) && UsedAnew(d, id, base)
    ensures UsedAnew(Next(d, p, step), id, base)
  {
    hide Inv, Mail, Dispatched, RemoveSubmitted, Completed, Scanned, WriteBatch;
    match step
    case Receive(msg, ms, now, ok, later) =>
      ReceiveNewer(d, p, msg, ms, now, ok, later);
      CommitsAreKnown(d);
    case Complete(x, now, ok, later) =>
      DispatchUntouched(Completed(d, x), p, now, ok, later);
      CompletedDisk(d, x);
    case SubmitDeferred(x) => RemoveDisk(d.(deferred := d.deferred - {x}), x);
    case Write(n, ok) => BatchUsedAnew(d, n, ok, id, base);
    case Crash =>
    case Recover(top) => NothingWaits(d.disk, top);
  }

  lemma NothingWaits(disk: map<nat, Row>, top: nat)
    ensures Scanned(disk, top).commits == map[]
  {
  }

  lemma {:induction false} StaysUsedAnew(ds: seq<Durable>, p: Policy, steps: seq<Step>, m: nat, n: nat, id: nat,
                                         base: nat)
    requires IsRun(ds, p, steps) && m <= n < |ds| && UsedAnew(ds[m], id, base)
    ensures UsedAnew(ds[n], id, base)
    decreases n - m
  {
    hide Inv, Next, Enabled, UsedAnew;
    if m < n {
      StaysUsedAnew(ds, p, steps, m, n - 1, id, base);
      EveryRunKeeps(ds, p, steps, n - 1);
      NextUsedAnew(ds[n - 1], p, steps[n - 1], id, base);
    }
  }

  lemma {:induction false} BatchPublishes(d: Durable, n: nat, ok: bool)
    requires n <= |d.chan|
    ensures WriteBatch(d, n, ok).h == d.h
    decreases n
  {
    hide Applied, Signalled;
    if n > 0 { BatchPublishes(WriteOne(d, ok), n - 1, ok); }
  }

  /**
   * A message whose remove was committed is never recovered again: at any later moment, across any crashes,
   * whatever is on disk under its id is a publish taken after that commit.
   */
  lemma RemovedNeverReturns(ds: seq<Durable>, p: Policy, steps: seq<Step>, m: nat, n: nat, id: nat)
    requires IsRun(ds, p, steps) && m < n < |ds|
    requires steps[m].Write? && steps[m].committed && steps[m].n <= |ds[m].chan|
    requires Remove(id) in ds[m].chan[..steps[m].n]
    ensures id in ds[n].disk ==>
              var h := ds[n].h;
              && id in h.current && |ds[m].h.published| <= h.current[id] < |h.published|
              && h.published[h.current[id]] == Told(id, ds[n].disk[id].body)
  {
    hide Next, Shelved, Exact, IdsOk, Confirmed, Announced, WriteBatch;
    EveryRunKeeps(ds, p, steps, m);
    EveryRunKeeps(ds, p, steps, n);
    RemovedIsUnused(ds[m], steps[m].n, id);
    BatchPublishes(ds[m], steps[m].n, true);
    WriteStep(ds[m], p, steps[m]);
    StaysUsedAnew(ds, p, steps, m + 1, n, id, |ds[m].h.published|);
    if id in ds[n].disk { assert Knows(ds[n].h, id, ds[n].disk[id].body); }
  }
}
