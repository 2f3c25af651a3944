/**
 * What becomes of a quorum queue's snapshot after it is taken (ramqp-broker/src/cluster/queue_group.rs:320-403,
 * paging.rs:101-290): first while the replica goes on applying commands, then through any number of restarts
 * that each reopen the files found on disk and number new segments from the highest one found.
 */
module SnapshotLife {
  import opened Collections
  import opened Dispatch
  import opened Paging
  import opened QueueGroup
  import opened QueueRestart

  // ---------------------------------------------------------------- while the replica lives

  /** A committed command, or a snapshot builder pinning the files and letting go. */
  datatype Event = Committed(cmd: Command) | BuildBegun | BuildEnded(k: nat)

  ghost predicate Happens(s: Replica, e: Event) {
    e.BuildEnded? ==> e.k < |s.files.pinned|
  }

  ghost function After(s: Replica, budget: Option<nat>, e: Event): Replica
    requires Happens(s, e)
  {
    match e
    case Committed(cmd) => ApplyTo(s, budget, cmd)
    case BuildBegun => s.(files := PinTaken(s.files))
    case BuildEnded(k) => s.(files := PinDropped(s.files, k))
  }

  /** Any events, one after another. */
  ghost predicate IsLife(ss: seq<Replica>, events: seq<Event>, budget: Option<nat>) {
    && |ss| == |events| + 1
    && forall i :: 0 <= i < |events| ==> Happens(ss[i], events[i]) && ss[i + 1] == After(ss[i], budget, events[i])
  }

  lemma BeginOk(s: Replica, budget: Option<nat>)
    requires ReplicaOk(s, budget)
    ensures ReplicaOk(After(s, budget, BuildBegun), budget) && Outgrows(s.files, After(s, budget, BuildBegun).files)
  {
    hide FilesOk, RefsMatch, Budgeted, Issued, Outgrows;
    DoOk(s.files, OpPin);
    DoOutgrows(s.files, OpPin);
  }

  lemma EndOk(s: Replica, budget: Option<nat>, k: nat)
    requires ReplicaOk(s, budget) && Happens(s, BuildEnded(k))
    ensures var t := After(s, budget, BuildEnded(k)); ReplicaOk(t, budget) && Outgrows(s.files, t.files)
  {
    hide FilesOk, RefsMatch, Budgeted, Issued, Outgrows, PinDropped;
    DoOk(s.files, OpUnpin(k));
    DoOutgrows(s.files, OpUnpin(k));
    CountedWhenOk(s.files);
    UnpinnedMatch(s.messages, s.files, k);
  }

  lemma CountedWhenOk(f: Files)
    requires FilesOk(f)
    ensures Counted(f)
  {
  }

  /** Letting go deletes only segments nothing refers to. */
  lemma UnpinnedMatch(ms: map<nat, Message>, f: Files, k: nat)
    requires Counted(f) && RefsMatch(ms, f.refs) && k < |f.pinned|
    ensures RefsMatch(ms, PinDropped(f, k).refs)
  {
    hide Counted, PinDropped, RefsIn;
    UnpinnedRefs(f, k);
    forall id | id in ms && ms[id].body.Spilled? ensures ms[id].body.ref.segment in PinDropped(f, k).refs {
      HeldRef(ms, f.refs, id);
    }
  }

  lemma AfterOk(s: Replica, budget: Option<nat>, e: Event)
    requires ReplicaOk(s, budget) && Happens(s, e)
    ensures ReplicaOk(After(s, budget, e), budget) && Outgrows(s.files, After(s, budget, e).files)
  {
    hide ReplicaOk, Outgrows, ApplyTo, PinDropped, PinTaken;
    match e
    case Committed(cmd) => ApplyToOk(s, budget, cmd);
    case BuildBegun => BeginOk(s, budget);
    case BuildEnded(k) => EndOk(s, budget, k);
  }

  lemma {:induction false} LifeOk(ss: seq<Replica>, events: seq<Event>, budget: Option<nat>, n: nat)
    requires IsLife(ss, events, budget) && ReplicaOk(ss[0], budget) && n < |ss|
    ensures ReplicaOk(ss[n], budget)
  {
    hide ReplicaOk, After, Happens;
    if n > 0 {
      LifeOk(ss, events, budget, n - 1);
      AfterOk(ss[n - 1], budget, events[n - 1]);
    }
  }

  lemma {:induction false} LifeOutgrows(ss: seq<Replica>, events: seq<Event>, budget: Option<nat>, a: nat, n: nat)
    requires IsLife(ss, events, budget) && ReplicaOk(ss[0], budget) && a <= n < |ss|
    ensures Outgrows(ss[a].files, ss[n].files)
    decreases n - a
  {
    hide ReplicaOk, After, Happens, Outgrows;
    if a == n {
      OutgrowsItself(ss[a].files);
    } else {
      LifeOutgrows(ss, events, budget, a, n - 1);
      LifeOk(ss, events, budget, n - 1);
      AfterOk(ss[n - 1], budget, events[n - 1]);
      OutgrowsTrans(ss[a].files, ss[n - 1].files, ss[n].files);
    }
  }

  /** A message still queued has its body in this segment. */
  ghost predicate HoldsIn(ms: map<nat, Message>, g: nat) {
    exists id :: id in ms && ms[id].body.Spilled? && ms[id].body.ref.segment == g
  }

  lemma HoldsInIff(s: Replica, budget: Option<nat>, g: nat)
    requires ReplicaOk(s, budget)
    ensures KeptFor(s.files, g) <==> s.files.current == Some(g) || HoldsIn(s.messages, g)
  {
    hide FilesOk, Budgeted, Issued, RefsIn;
    if id :| id in s.messages && s.messages[id].body.Spilled? && s.messages[id].body.ref.segment == g {
      HeldRef(s.messages, s.files.refs, id);
    }
    if g in s.files.refs && s.files.refs[g] != multiset{} {
      var r :| r in RefsIn(s.messages, g);
      RefsNamed(s.messages, g, r);
    }
  }

  /** The segments a snapshot needs are kept: each is the current one, or still holds a queued message's body. */
  ghost predicate StillHeld(t: Replica, ms: seq<PortableMessage>) {
    forall i :: 0 <= i < |ms| && ms[i].body.External? ==>
      t.files.current == Some(ms[i].body.ref.segment) || HoldsIn(t.messages, ms[i].body.ref.segment)
  }

  /** One reference of a snapshot of `s`, at any later state `t`. */
  lemma ReferenceReadsIff(s: Replica, t: Replica, budget: Option<nat>, id: nat)
    requires ReplicaOk(s, budget) && ReplicaOk(t, budget) && Outgrows(s.files, t.files) && t.files.pins == 0
    requires id in s.messages && s.messages[id].body.Spilled?
    ensures var r := s.messages[id].body.ref;
            && (ReadAt(t.files.segments, r).Some? <==>
                t.files.current == Some(r.segment) || HoldsIn(t.messages, r.segment))
            && (ReadAt(t.files.segments, r).Some? ==> ReadAt(t.files.segments, r) == ReadAt(s.files.segments, r))
  {
    hide FilesOk, RefsMatch, Budgeted, Issued, Outgrows, ReadAt, HoldsIn, KeptFor;
    var r := s.messages[id].body.ref;
    SpilledReads(s, budget, id);
    ReadsWhileThere(s.files, t.files, r);
    KeptIff(t.files, r.segment);
    HoldsInIff(t, budget, r.segment);
  }

  /**
   * A snapshot after any commands: whatever was enqueued, settled, rolled, pinned and unpinned since it was
   * taken, with no builder at work it can be read if and only if each segment it refers to is the current one
   * or holds the body of a message still queued; and then it says what it said.
   */
  lemma SnapshotReadableIff(ss: seq<Replica>, events: seq<Event>, budget: Option<nat>, a: nat, n: nat, ids: seq<nat>)
    requires IsLife(ss, events, budget) && ReplicaOk(ss[0], budget) && a <= n < |ss| && ss[n].files.pins == 0
    requires forall id :: id in ids ==> id in ss[a].messages
    ensures var ms := ExportAll(ss[a].messages, ids);
            && (Readable(ms, false, ss[n].files.segments) <==> StillHeld(ss[n], ms))
            && (Readable(ms, false, ss[n].files.segments) ==>
                  Says(ms, ss[n].files.segments) == Says(ms, ss[a].files.segments))
  {
    hide IsLife, ReplicaOk, Outgrows, ReadAt, HoldsIn;
    LifeOk(ss, events, budget, a);
    LifeOk(ss, events, budget, n);
    LifeOutgrows(ss, events, budget, a, n);
    var ms := ExportAll(ss[a].messages, ids);
    ExportAllAt(ss[a].messages, ids);
    forall i | 0 <= i < |ms| && ms[i].body.External?
      ensures var r := ms[i].body.ref;
              && (ReadAt(ss[n].files.segments, r).Some? <==>
                  ss[n].files.current == Some(r.segment) || HoldsIn(ss[n].messages, r.segment))
              && (ReadAt(ss[n].files.segments, r).Some? ==>
                    ReadAt(ss[n].files.segments, r) == ReadAt(ss[a].files.segments, r))
    {
      ReferenceReadsIff(ss[a], ss[n], budget, ids[i]);
    }
    if Readable(ms, false, ss[n].files.segments) { SaysSameReads(ms, ss[n].files.segments, ss[a].files.segments); }
  }

  lemma {:induction false} SaysSameReads(ms: seq<PortableMessage>, a: map<nat, Segment>, b: map<nat, Segment>)
    requires forall i :: 0 <= i < |ms| && ms[i].body.External? ==>
               ReadAt(a, ms[i].body.ref) == ReadAt(b, ms[i].body.ref)
    ensures Says(ms, a) == Says(ms, b)
  {
    hide ReadAt;
    if ms != [] { SaysSameReads(ms[..|ms| - 1], a, b); }
  }

  // ---------------------------------------------------------------- through restarts

  /** What a restart finds: the segment files on disk, and the counter just past the greatest of them. */
  datatype Opening = Opening(next: nat, segments: map<nat, Segment>)

  ghost predicate IsOpening(o: Opening) {
    IsNextAfter(o.segments.Keys, o.next)
  }

  /** From one opening to what is later found on disk: a number below the counter names the file it named, grown. */
  ghost predicate Era(o: Opening, found: map<nat, Segment>) {
    forall g :: g in found && g < o.next ==> g in o.segments && o.segments[g].data <= found[g].data
  }

  ghost predicate OpeningOf(o: Opening, f: Files) {
    f.nextSegment == o.next && SameData(f.segments, o.segments)
  }

  /** A restart that dies while it restores, or is refused half way, leaves the old files as they were. */
  lemma RestoreIsEra(base: Files, ms: seq<PortableMessage>, budget: Option<nat>, n: nat, o: Opening)
    requires Reopened(base) && OpeningOf(o, base) && n <= |ms|
    ensures Era(o, LoadAll(base, ms[..n], budget).files.segments)
  {
    hide Reopened, LoadAll, Sound;
    LoadAllGrows(base, ms, budget, n, n);
  }

  /** The replica a restart recovers. */
  ghost function Recovered(base: Files, p: Portable, budget: Option<nat>, counts: map<nat, nat>): Replica {
    var l := LoadAll(base, p.messages, budget);
    Replica(p.nextMsgId, l.messages, l.resident,
            LiveSet(l.files, counts, RefsOf(l.messages, l.files.segments), BodiesOf(l.messages, l.files.segments)))
  }

  lemma RecountOnly(f: Files, counts: map<nat, nat>, refs: map<nat, multiset<SpillRef>>, bodies: map<SpillRef, Bytes>)
    ensures var d := LiveSet(f, counts, refs, bodies);
            && d.nextSegment == f.nextSegment
            && forall g :: g in d.segments ==> g in f.segments && d.segments[g].data == f.segments[g].data
  {
  }

  lemma RecoveredIsWhole(base: Files, p: Portable, budget: Option<nat>, storeId: nat, counts: map<nat, nat>)
    requires Reopened(base) && DistinctIds(p.messages)
    requires Accepted(base, p.messages, budget, Foreign(budget, storeId, p.spillId))
    requires forall i :: 0 <= i < |p.messages| ==> 1 <= p.messages[i].id <= p.nextMsgId
    requires forall g :: CountOf(counts, g) == |RefsIn(LoadAll(base, p.messages, budget).messages, g)|
    ensures ReplicaOk(Recovered(base, p, budget, counts), budget)
    ensures GrownFrom(base, LoadAll(base, p.messages, budget).files)
  {
    hide Sound, Budgeted, ReplicaOk, LiveSet, RefsIn, Abs, LoadAll, Accepted, GrownFrom, AllRead, DistinctIds, RefsOf,
         BodiesOf, ReadBack;
    var l := LoadAll(base, p.messages, budget);
    ReadyToRecount(base, p, budget, storeId);
    NotCurrent(base, l.files);
    RecountMakesWhole(l.files, l.messages, counts, p.nextMsgId, l.resident, budget);
  }

  /** A restart that recovers, and whatever the replica then does, leaves the old files grown or gone. */
  lemma LifeIsEra(base: Files, p: Portable, budget: Option<nat>, storeId: nat, counts: map<nat, nat>, o: Opening,
                  ss: seq<Replica>, events: seq<Event>, n: nat)
    requires Reopened(base) && OpeningOf(o, base) && DistinctIds(p.messages)
    requires Accepted(base, p.messages, budget, Foreign(budget, storeId, p.spillId))
    requires forall i :: 0 <= i < |p.messages| ==> 1 <= p.messages[i].id <= p.nextMsgId
    requires forall g :: CountOf(counts, g) == |RefsIn(LoadAll(base, p.messages, budget).messages, g)|
    requires IsLife(ss, events, budget) && n < |ss| && ss[0] == Recovered(base, p, budget, counts)
    ensures Era(o, ss[n].files.segments)
  {
    hide Reopened, Accepted, LoadAll, ReplicaOk, IsLife, DistinctIds, RefsIn, LiveSet, RefsOf, BodiesOf, Sound;
    var l := LoadAll(base, p.messages, budget);
    RecoveredIsWhole(base, p, budget, storeId, counts);
    RecountOnly(l.files, counts, RefsOf(l.messages, l.files.segments), BodiesOf(l.messages, l.files.segments));
    LifeOutgrows(ss, events, budget, 0, n);
  }

  /** The replica that took the snapshot, until it stops: the snapshot's files are grown or gone. */
  lemma LifeIsPast(ss: seq<Replica>, events: seq<Event>, budget: Option<nat>, a: nat, n: nat, ids: seq<nat>)
    requires IsLife(ss, events, budget) && ReplicaOk(ss[0], budget) && a <= n < |ss|
    requires forall id :: id in ids ==> id in ss[a].messages
    ensures SnapshotOf(ss[a].files.segments, ExportAll(ss[a].messages, ids), ss[n].files.segments)
  {
    hide IsLife, ReplicaOk, FilesOk;
    LifeOk(ss, events, budget, a);
    LifeOutgrows(ss, events, budget, a, n);
    ExportAllAt(ss[a].messages, ids);
    FilesNumbered(ss[a], budget);
    forall i | 0 <= i < |ids| && ss[a].messages[ids[i]].body.Spilled?
      ensures ReadAt(ss[a].files.segments, ss[a].messages[ids[i]].body.ref).Some?
    {
      ExportedSays(ss[a], budget, ids[i]);
    }
  }

  lemma FilesNumbered(s: Replica, budget: Option<nat>)
    requires ReplicaOk(s, budget)
    ensures forall g :: g in s.files.segments ==> g < s.files.nextSegment
  {
  }

  /** A snapshot of `past`, and what every restart since has found. */
  ghost predicate IsHistory(past: map<nat, Segment>, ms: seq<PortableMessage>, os: seq<Opening>) {
    && os != [] && (forall k :: 0 <= k < |os| ==> IsOpening(os[k]))
    && SnapshotOf(past, ms, os[0].segments)
    && forall k :: 0 <= k < |os| - 1 ==> Era(os[k], os[k + 1].segments)
  }

  ghost predicate AlwaysThere(ms: seq<PortableMessage>, os: seq<Opening>) {
    forall k :: 0 <= k < |os| ==> FilesThere(ms, os[k].segments)
  }

  /** While every restart finds every file referred to, those files are the snapshot's own, only grown. */
  lemma {:induction false} HistoryKeepsSnapshot(past: map<nat, Segment>, ms: seq<PortableMessage>, os: seq<Opening>,
                                                n: nat)
    requires IsHistory(past, ms, os) && n < |os| && forall k :: 0 <= k < n ==> FilesThere(ms, os[k].segments)
    ensures SnapshotOf(past, ms, os[n].segments)
  {
    hide IsNextAfter, ReadAt;
    if n > 0 {
      HistoryKeepsSnapshot(past, ms, os, n - 1);
      EraKeepsSnapshot(past, ms, os[n - 1], os[n].segments);
    }
  }

  lemma EraKeepsSnapshot(past: map<nat, Segment>, ms: seq<PortableMessage>, o: Opening, found: map<nat, Segment>)
    requires IsOpening(o) && SnapshotOf(past, ms, o.segments) && FilesThere(ms, o.segments) && Era(o, found)
    ensures SnapshotOf(past, ms, found)
  {
    hide ReadAt;
    forall i | 0 <= i < |ms| && ms[i].body.External? && ms[i].body.ref.len > 0 &&
               ms[i].body.ref.segment in past && ms[i].body.ref.segment in found
      ensures past[ms[i].body.ref.segment].data <= found[ms[i].body.ref.segment].data
    {
      var g := ms[i].body.ref.segment;
      assert g in o.segments && past[g].data <= o.segments[g].data <= found[g].data;
    }
  }

  // ---------------------------------------------------------------- and only then

  /** The same numbers found at every restart, and the same files at the last one. */
  ghost predicate Alike(a: seq<Opening>, b: seq<Opening>) {
    && |a| == |b| && a != [] && a[|a| - 1] == b[|b| - 1]
    && forall k :: 0 <= k < |a| ==> a[k].next == b[k].next && a[k].segments.Keys == b[k].segments.Keys
  }

  ghost function Painted(segments: map<nat, Segment>, g: nat, len: nat, x: bv8): map<nat, Segment> {
    map h | h in segments :: if h == g then Segment(seq(len, _ => x), 0) else segments[h]
  }

  /** The history in which segment `g` was full of one byte until the restart that missed it. */
  ghost function Repainted(os: seq<Opening>, g: nat, k0: nat, len: nat, x: bv8): seq<Opening> {
    seq(|os|, k requires 0 <= k < |os| =>
      if k < k0 then os[k].(segments := Painted(os[k].segments, g, len, x)) else os[k])
  }

  lemma PaintedEra(o: Opening, p: Opening, g: nat, len: nat, x: bv8)
    requires Era(o, p.segments)
    ensures Era(o.(segments := Painted(o.segments, g, len, x)), Painted(p.segments, g, len, x))
    ensures g !in p.segments ==> Era(o.(segments := Painted(o.segments, g, len, x)), p.segments)
  {
  }

  lemma PaintedPast(past: map<nat, Segment>, ms: seq<PortableMessage>, now: map<nat, Segment>, g: nat, x: bv8)
    requires SnapshotOf(past, ms, now) && g in past
    ensures SnapshotOf(Painted(past, g, FarEnd(ms), x), ms, Painted(now, g, FarEnd(ms), x))
    ensures g !in now ==> SnapshotOf(Painted(past, g, FarEnd(ms), x), ms, now)
  {
    forall i | 0 <= i < |ms| && ms[i].body.External?
      ensures ReadAt(Painted(past, g, FarEnd(ms), x), ms[i].body.ref).Some?
    {
      WithinFarEnd(ms, i);
      assert ReadAt(past, ms[i].body.ref).Some?;
    }
  }

  lemma RepaintedHistory(past: map<nat, Segment>, ms: seq<PortableMessage>, os: seq<Opening>, g: nat, k0: nat, x: bv8)
    requires IsHistory(past, ms, os) && k0 < |os| && g !in os[k0].segments && g in past
    ensures var qs := Repainted(os, g, k0, FarEnd(ms), x);
            IsHistory(Painted(past, g, FarEnd(ms), x), ms, qs) && Alike(qs, os)
  {
    hide Era, SnapshotOf, IsNextAfter, FarEnd;
    var len := FarEnd(ms);
    var qs := Repainted(os, g, k0, len, x);
    PaintedPast(past, ms, os[0].segments, g, x);
    forall k | 0 <= k < |os| ensures qs[k].next == os[k].next && qs[k].segments.Keys == os[k].segments.Keys {
      PaintedKeys(os[k].segments, g, len, x);
    }
    forall k | 0 <= k < |os| - 1 ensures Era(qs[k], qs[k + 1].segments) {
      PaintedEra(os[k], os[k + 1], g, len, x);
    }
  }

  lemma PaintedKeys(segments: map<nat, Segment>, g: nat, len: nat, x: bv8)
    ensures Painted(segments, g, len, x).Keys == segments.Keys
  {
  }

  /** Once a file was missed, the snapshot may have said something else and every restart would look the same. */
  lemma MissedOnce(past: map<nat, Segment>, ms: seq<PortableMessage>, os: seq<Opening>, base: Files,
                   budget: Option<nat>, foreign: bool, k0: nat, i: nat)
    requires IsHistory(past, ms, os) && k0 < |os| && DistinctIds(ms)
    requires Reopened(base) && Accepted(base, ms, budget, foreign)
    requires i < |ms| && ms[i].body.External? && ms[i].body.ref.len > 0 && ms[i].body.ref.segment !in os[k0].segments
    ensures exists was, qs :: Alike(qs, os) && IsHistory(was, ms, qs) &&
              ReadBack(LoadAll(base, ms, budget).messages, LoadAll(base, ms, budget).files.segments) != Says(ms, was)
  {
    hide IsHistory, Alike, DistinctIds, Reopened, Accepted, LoadAll, Says, Repainted, FarEnd, ReadBack;
    var l := LoadAll(base, ms, budget);
    var r := ms[i].body.ref;
    LoadAllReads(base, ms, budget, foreign, i);
    var got := ReadAt(l.files.segments, r).value;
    var x: bv8 := if got[0] == 0 then 1 else 0;
    PastNames(past, ms, os, i);
    var was := Painted(past, r.segment, FarEnd(ms), x);
    RepaintedHistory(past, ms, os, r.segment, k0, x);
    SaysAt(ms, was, i);
    WithinFarEnd(ms, i);
    assert ReadAt(was, r).Some? && ReadAt(was, r).value[0] == x;
  }

  lemma PastNames(past: map<nat, Segment>, ms: seq<PortableMessage>, os: seq<Opening>, i: nat)
    requires IsHistory(past, ms, os) && i < |ms| && ms[i].body.External?
    ensures ms[i].body.ref.segment in past
  {
    hide Era;
    ReadNames(past, ms[i].body.ref);
  }

  /**
   * Through any number of restarts: an accepted restore gives back what the snapshot said, whatever it said and
   * whatever the files held before, if and only if every restart since, this one included, found a file under
   * the number of every reference to a body that is not empty.
   */
  lemma RestoreThroughRestartsIff(past: map<nat, Segment>, ms: seq<PortableMessage>, os: seq<Opening>, base: Files,
                                  budget: Option<nat>, foreign: bool)
    requires IsHistory(past, ms, os) && DistinctIds(ms)
    requires Reopened(base) && OpeningOf(os[|os| - 1], base) && Accepted(base, ms, budget, foreign)
    ensures var l := LoadAll(base, ms, budget);
            AlwaysThere(ms, os) <==>
            forall was, qs :: Alike(qs, os) && IsHistory(was, ms, qs) ==>
              ReadBack(l.messages, l.files.segments) == Says(ms, was)
  {
    hide DistinctIds, Reopened, Accepted, ReadBack, Says, LoadAll, IsHistory;
    if AlwaysThere(ms, os) {
      forall was, qs | Alike(qs, os) && IsHistory(was, ms, qs)
        ensures ReadBack(LoadAll(base, ms, budget).messages, LoadAll(base, ms, budget).files.segments) == Says(ms, was)
      {
        AlwaysGivesBack(was, ms, qs, base, budget, foreign);
      }
    } else {
      var k0 :| 0 <= k0 < |os| && !FilesThere(ms, os[k0].segments);
      var i :| 0 <= i < |ms| && ms[i].body.External? && ms[i].body.ref.len > 0 &&
               ms[i].body.ref.segment !in os[k0].segments;
      MissedOnce(past, ms, os, base, budget, foreign, k0, i);
    }
  }

  lemma SnapshotSameData(past: map<nat, Segment>, ms: seq<PortableMessage>, a: map<nat, Segment>, b: map<nat, Segment>)
    requires SnapshotOf(past, ms, a) && SameData(b, a)
    ensures SnapshotOf(past, ms, b)
  {
    hide Readable;
    forall i | 0 <= i < |ms| && ms[i].body.External? && ms[i].body.ref.len > 0 &&
               ms[i].body.ref.segment in past && ms[i].body.ref.segment in b
      ensures past[ms[i].body.ref.segment].data <= b[ms[i].body.ref.segment].data
    {
      assert ms[i].body.ref.segment in a;
    }
  }

  lemma AlwaysGivesBack(past: map<nat, Segment>, ms: seq<PortableMessage>, os: seq<Opening>, base: Files,
                        budget: Option<nat>, foreign: bool)
    requires IsHistory(past, ms, os) && DistinctIds(ms) && AlwaysThere(ms, os)
    requires Reopened(base) && OpeningOf(os[|os| - 1], base) && Accepted(base, ms, budget, foreign)
    ensures ReadBack(LoadAll(base, ms, budget).messages, LoadAll(base, ms, budget).files.segments) == Says(ms, past)
  {
    hide IsOpening, SnapshotOf, Era, DistinctIds, Reopened, Accepted, ReadBack, Says, LoadAll, ReadAt;
    HistoryKeepsSnapshot(past, ms, os, |os| - 1);
    SnapshotSameData(past, ms, os[|os| - 1].segments, base.segments);
    RestoreGivesBack(base, ms, budget, foreign, past);
  }

  // ---------------------------------------------------------------- a second restart that reads another body

  const TWO_MESSAGES := [PortableMessage(1, 0, 0, Inline([7])), PortableMessage(2, 0, 0, External(SpillRef(0, 0, 1)))]

  /** The store reopened on what the first such restart leaves: segment 0, holding the other message's byte. */
  const LEFT_BEHIND := Files(1, None, map[0 := Segment([7], 0)], 0, [], map[0 := multiset{}], map[], [])

  /**
   * The reference is now to a file that is there, and still reads another message's body: the snapshot was of a
   * segment 0 holding [9], the first restart found no file and restored [7] into a new segment 0, and the second
   * finds that one.
   */
  lemma FileUnderAnOldNumber()
    ensures var past := map[0 := Segment([9], 1)];
            var os := [Opening(0, map[]), Opening(1, LEFT_BEHIND.segments)];
            var l := LoadAll(LEFT_BEHIND, TWO_MESSAGES, Some(0));
            && SameData(LEFT_BEHIND.segments, LoadAll(NO_FILES, TWO_MESSAGES, Some(0)).files.segments)
            && IsHistory(past, TWO_MESSAGES, os) && Reopened(LEFT_BEHIND) && OpeningOf(os[1], LEFT_BEHIND)
            && FilesThere(TWO_MESSAGES, LEFT_BEHIND.segments) && Accepted(LEFT_BEHIND, TWO_MESSAGES, Some(0), false)
            && 2 in l.messages && ReadBack(l.messages, l.files.segments)[2].body == [7]
            && 2 in Says(TWO_MESSAGES, past) && Says(TWO_MESSAGES, past)[2].body == [9]
            && !AlwaysThere(TWO_MESSAGES, os)
  {
    hide LoadAll, Says, ReadBack, Accepted;
    DeadReferenceReadsAnotherBody();
    FirstLeaves();
    ReadableIsAccepted(LEFT_BEHIND, TWO_MESSAGES, Some(0), false);
    SaysAt(TWO_MESSAGES, LEFT_BEHIND.segments, 1);
    var os := [Opening(0, map[]), Opening(1, LEFT_BEHIND.segments)];
    assert !FilesThere(TWO_MESSAGES, os[0].segments) by { assert TWO_MESSAGES[1].body.External?; }
    LoadAllReads(LEFT_BEHIND, TWO_MESSAGES, Some(0), false, 1);
  }

  lemma FirstLeaves()
    ensures LoadAll(NO_FILES, TWO_MESSAGES, Some(0)).files.segments == map[0 := Segment([7], 1)]
  {
    hide Opened, Written;
    var m := TWO_MESSAGES[0];
    assert TWO_MESSAGES[..1] == [m] && [m][..0] == [];
    AppendToNothing();
    assert LoadAll(NO_FILES, [m], Some(0)) == Loaded(Loading(map[], 0, NO_FILES), m, Some(0));
  }
}
