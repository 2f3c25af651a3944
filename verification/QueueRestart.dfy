/**
 * Snapshots of a quorum queue and the restart path (ramqp-broker/src/cluster/queue_group.rs:320-403 and
 * node.rs:785-806): spilled bodies stay in the spill files and the snapshot only refers to them, so a
 * restart reopens the files, restores the snapshot and recounts what each segment still holds.
 */
module QueueRestart {
  import opened Collections
  import opened Dispatch
  import opened Paging
  import opened QueueGroup

  datatype PortableBody = Inline(bytes: Bytes) | External(ref: SpillRef)

  datatype PortableMessage = PortableMessage(id: nat, failures: nat, enqueuedMs: nat, body: PortableBody)

  datatype Portable = Portable(nextMsgId: nat, messages: seq<PortableMessage>, spillId: nat)

  ghost function BodyIn(b: PortableBody, segments: map<nat, Segment>): Bytes {
    match b
    case Inline(bytes) => bytes
    case External(r) => if ReadAt(segments, r).Some? then ReadAt(segments, r).value else []
  }

  ghost function PlainOf(m: PortableMessage, segments: map<nat, Segment>): PlainMessage {
    PlainMessage(BodyIn(m.body, segments), m.failures, m.enqueuedMs)
  }

  /** What a snapshot says, read against a set of segment files. */
  ghost function Says(ms: seq<PortableMessage>, segments: map<nat, Segment>): map<nat, PlainMessage> {
    if ms == [] then map[] else
      var m := ms[|ms| - 1];
      Says(ms[..|ms| - 1], segments)[m.id := PlainOf(m, segments)]
  }

  lemma SaysSnoc(ms: seq<PortableMessage>, m: PortableMessage, segments: map<nat, Segment>)
    ensures Says(ms + [m], segments) == Says(ms, segments)[m.id := PlainOf(m, segments)]
  {
    assert (ms + [m])[..|ms|] == ms;
  }

  ghost predicate DistinctIds(ms: seq<PortableMessage>) {
    forall i, j :: 0 <= i < j < |ms| ==> ms[i].id != ms[j].id
  }

  lemma {:induction false} SaysKeys(ms: seq<PortableMessage>, segments: map<nat, Segment>, id: nat)
    requires id in Says(ms, segments)
    ensures exists i :: 0 <= i < |ms| && ms[i].id == id
  {
    if ms != [] {
      if ms[|ms| - 1].id != id {
        SaysKeys(ms[..|ms| - 1], segments, id);
        var i :| 0 <= i < |ms| - 1 && ms[..|ms| - 1][i].id == id;
        assert ms[i].id == id;
      }
    }
  }

  // ---------------------------------------------------------------- taking a snapshot

  /** Every reference of the snapshot can be read, and names this spill store. */
  ghost predicate Readable(ms: seq<PortableMessage>, foreign: bool, segments: map<nat, Segment>) {
    forall i :: 0 <= i < |ms| && ms[i].body.External? ==> !foreign && ReadAt(segments, ms[i].body.ref).Some?
  }

  function Exported(id: nat, m: Message): PortableMessage {
    PortableMessage(id, m.failures, m.enqueuedMs,
                    match m.body case Resident(bytes) => Inline(bytes) case Spilled(r) => External(r))
  }

  lemma ExportedSays(s: Replica, budget: Option<nat>, id: nat)
    requires ReplicaOk(s, budget) && id in s.messages
    ensures id in Abs(s).messages && PlainOf(Exported(id, s.messages[id]), s.files.segments) == Abs(s).messages[id]
    ensures s.messages[id].body.Spilled? ==> ReadAt(s.files.segments, s.messages[id].body.ref).Some?
  {
    hide ReplicaOk;
    if s.messages[id].body.Spilled? { SpilledReads(s, budget, id); }
  }

  function ExportAll(ms: map<nat, Message>, ids: seq<nat>): seq<PortableMessage>
    requires forall id :: id in ids ==> id in ms
  {
    if ids == [] then [] else
      ExportAll(ms, ids[..|ids| - 1]) + [Exported(ids[|ids| - 1], ms[ids[|ids| - 1]])]
  }

  lemma {:induction false} ExportAllAt(ms: map<nat, Message>, ids: seq<nat>)
    requires forall id :: id in ids ==> id in ms
    ensures |ExportAll(ms, ids)| == |ids|
    ensures forall i :: 0 <= i < |ids| ==> ExportAll(ms, ids)[i] == Exported(ids[i], ms[ids[i]])
  {
    if ids != [] { ExportAllAt(ms, ids[..|ids| - 1]); }
  }

  /** Exported message by message, the snapshot says of each id what the state means. */
  lemma {:induction false} ExportAllSays(s: Replica, budget: Option<nat>, ids: seq<nat>)
    requires ReplicaOk(s, budget) && forall id :: id in ids ==> id in s.messages
    ensures var said := Says(ExportAll(s.messages, ids), s.files.segments);
            && (forall id :: id in said <==> id in ids)
            && (forall id :: id in said ==> id in Abs(s).messages && said[id] == Abs(s).messages[id])
  {
    hide ReplicaOk, Abs, PlainOf;
    if ids != [] {
      var n := |ids| - 1;
      ExportAllSays(s, budget, ids[..n]);
      ExportedSays(s, budget, ids[n]);
      SaysSnoc(ExportAll(s.messages, ids[..n]), Exported(ids[n], s.messages[ids[n]]), s.files.segments);
      assert ids == ids[..n] + [ids[n]];
    }
  }

  ghost predicate FromState(out: seq<PortableMessage>, ms: map<nat, Message>) {
    forall i :: 0 <= i < |out| ==> out[i].id in ms && out[i] == Exported(out[i].id, ms[out[i].id])
  }

  lemma ExportAllReadable(s: Replica, budget: Option<nat>, ids: seq<nat>)
    requires ReplicaOk(s, budget) && Ascending(ids) && forall id :: id in ids ==> id in s.messages
    ensures DistinctIds(ExportAll(s.messages, ids)) && FromState(ExportAll(s.messages, ids), s.messages)
    ensures Readable(ExportAll(s.messages, ids), false, s.files.segments)
  {
    hide ReplicaOk;
    ExportAllAt(s.messages, ids);
    forall i | 0 <= i < |ids| && s.messages[ids[i]].body.Spilled?
      ensures ReadAt(s.files.segments, s.messages[ids[i]].body.ref).Some?
    {
      ExportedSays(s, budget, ids[i]);
    }
  }

  /** The snapshot says what the state means, and everything it refers to is in the files. */
  method TakeSnapshot(q: QueueState) returns (p: Portable)
    requires q.Valid()
    ensures p.nextMsgId == q.nextMsgId && DistinctIds(p.messages)
    ensures FromState(p.messages, q.messages)
    ensures Says(p.messages, q.spill.segments) == q.Contents().messages
    ensures Readable(p.messages, p.spillId != q.spill.id, q.spill.segments)
  {
    hide ReplicaOk, Abs, Says, FromState, DistinctIds, ExportAll, Readable;
    var ids := SortedIds(q.messages.Keys);
    SortedIdsListsTheSet(q.messages.Keys);
    var out, spilled := ExportLoop(q.messages, ids);
    p := Portable(q.nextMsgId, out, if spilled then q.spill.id else 0);
    ExportAllReadable(q.State(), q.budget, ids);
    ExportAllSays(q.State(), q.budget, ids);
    StampedReadable(out, q.spill.id, p.spillId, q.spill.segments);
    ContentsKeys(q.State());
  }

  /** The store's id is stamped whenever there is a reference to check it against. */
  lemma StampedReadable(out: seq<PortableMessage>, id: nat, stamp: nat, segments: map<nat, Segment>)
    requires Readable(out, false, segments)
    requires (exists i :: 0 <= i < |out| && out[i].body.External?) ==> stamp == id
    ensures Readable(out, stamp != id, segments)
  {
  }

  method ExportLoop(ms: map<nat, Message>, ids: seq<nat>) returns (out: seq<PortableMessage>, spilled: bool)
    requires forall id :: id in ids ==> id in ms
    ensures out == ExportAll(ms, ids)
    ensures spilled <==> exists i :: 0 <= i < |out| && out[i].body.External?
  {
    out, spilled := [], false;
    for i := 0 to |ids|
      invariant out == ExportAll(ms, ids[..i])
      invariant spilled <==> exists j :: 0 <= j < |out| && out[j].body.External?
    {
      var m := Exported(ids[i], ms[ids[i]]);
      assert ids[..i + 1][..i] == ids[..i];
      if m.body.External? { spilled := true; }
      ghost var was := out;
      out := out + [m];
      assert out[|was|] == m && forall j :: 0 <= j < |was| ==> out[j] == was[j];
    }
    assert ids[..|ids|] == ids;
  }

  lemma ContentsKeys(s: Replica)
    ensures Abs(s).messages.Keys == s.messages.Keys
  {
  }

  // ---------------------------------------------------------------- restoring it

  /** The state being restored, and the files it grows on. */
  datatype Loading = Loading(messages: map<nat, Message>, resident: nat, files: Files)

  ghost function Loaded(l: Loading, m: PortableMessage, budget: Option<nat>): Loading {
    match m.body
    case Inline(bytes) =>
      if MustSpill(budget, l.resident, bytes) then
        Loading(l.messages[m.id := Message(Spilled(NewRef(l.files, bytes)), m.failures, m.enqueuedMs)],
                l.resident, Appended(l.files, bytes))
      else
        Loading(l.messages[m.id := Message(Resident(bytes), m.failures, m.enqueuedMs)],
                l.resident + |bytes|, l.files)
    case External(r) => l.(messages := l.messages[m.id := Message(Spilled(r), m.failures, m.enqueuedMs)])
  }

  /** Every message of a snapshot loaded in turn over the files `base`. */
  ghost function LoadAll(base: Files, ms: seq<PortableMessage>, budget: Option<nat>): Loading {
    if ms == [] then Loading(map[], 0, base) else Loaded(LoadAll(base, ms[..|ms| - 1], budget), ms[|ms| - 1], budget)
  }

  /** Every reference is this store's own and can be read when its turn comes. */
  ghost predicate Accepted(base: Files, ms: seq<PortableMessage>, budget: Option<nat>, foreign: bool) {
    forall i :: 0 <= i < |ms| && ms[i].body.External? ==>
      !foreign && ReadAt(LoadAll(base, ms[..i], budget).files.segments, ms[i].body.ref).Some?
  }

  ghost function BodyRead(b: StoredBody, segments: map<nat, Segment>): Bytes {
    match b
    case Resident(bytes) => bytes
    case Spilled(r) => if ReadAt(segments, r).Some? then ReadAt(segments, r).value else []
  }

  /** What the restored messages read back as. */
  ghost function ReadBack(ms: map<nat, Message>, segments: map<nat, Segment>): map<nat, PlainMessage> {
    map id | id in ms :: PlainMessage(BodyRead(ms[id].body, segments), ms[id].failures, ms[id].enqueuedMs)
  }

  ghost predicate AllRead(ms: map<nat, Message>, segments: map<nat, Segment>) {
    forall id :: id in ms && ms[id].body.Spilled? ==> ReadAt(segments, ms[id].body.ref).Some?
  }

  /** The files a restarted node opens: nothing counted, no current segment. */
  ghost predicate Reopened(f: Files) {
    Sound(f) && f.pins == 0 && f.deferred == [] && f.current.None?
  }

  /** The recovered files, while bodies are restored on top of them: they are only added to. */
  ghost predicate GrownFrom(base: Files, f: Files) {
    && Sound(f) && f.pins == 0 && f.deferred == []
    && base.nextSegment <= f.nextSegment
    && (f.current.Some? ==>
          f.current.value >= base.nextSegment && f.current.value in f.segments && f.segments[f.current.value].live > 0)
    && (forall g :: g in base.segments ==> g < base.nextSegment && g in f.segments && f.segments[g] == base.segments[g])
    && (forall g :: g in f.segments ==> g in base.segments || g >= base.nextSegment)
  }

  /** Whatever could be read reads the same. */
  ghost predicate StillReads(a: map<nat, Segment>, b: map<nat, Segment>) {
    forall r :: ReadAt(a, r).Some? ==> ReadAt(b, r) == ReadAt(a, r)
  }

  /** While bodies are restored no segment drains, so rolling deletes none. */
  lemma OpenKeepsAll(base: Files, f: Files)
    requires GrownFrom(base, f)
    ensures var o := Opened(f);
            && o.current.value >= base.nextSegment && o.pins == 0 && o.deferred == []
            && base.nextSegment <= o.nextSegment
            && (forall g :: g in f.segments ==> g in o.segments && o.segments[g] == f.segments[g])
            && (forall g :: g in o.segments ==> g in f.segments || g >= base.nextSegment)
  {
    hide Counted, PinsHold;
  }

  lemma AppendGrows(base: Files, f: Files, body: Bytes)
    requires GrownFrom(base, f)
    ensures GrownFrom(base, Appended(f, body)) && StillReads(f.segments, Appended(f, body).segments)
    ensures ReadAt(Appended(f, body).segments, NewRef(f, body)) == Some(body)
  {
    hide Opened, Sound, ReadAt;
    OpenKeepsAll(base, f);
    OpenedFrame(f);
    var o := Opened(f);
    WrittenSound(o, o.current.value, body);
    forall r | ReadAt(f.segments, r).Some? ensures ReadAt(Appended(f, body).segments, r) == ReadAt(f.segments, r) {
      SameRead(f.segments, o.segments, r);
      WrittenReads(o, o.current.value, body, r);
    }
  }

  lemma SameRead(a: map<nat, Segment>, b: map<nat, Segment>, r: SpillRef)
    requires ReadAt(a, r).Some? && forall g :: g in a ==> g in b && b[g] == a[g]
    ensures ReadAt(b, r) == ReadAt(a, r)
  {
  }

  /** Loading one message leaves every file that was there and whatever could be read as it was. */
  lemma LoadedGrows(base: Files, l: Loading, m: PortableMessage, budget: Option<nat>)
    requires GrownFrom(base, l.files)
    ensures GrownFrom(base, Loaded(l, m, budget).files)
    ensures StillReads(l.files.segments, Loaded(l, m, budget).files.segments)
  {
    hide GrownFrom, ReadAt, Appended;
    if m.body.Inline? { AppendGrows(base, l.files, m.body.bytes); }
  }

  lemma LoadSnoc(base: Files, ms: seq<PortableMessage>, budget: Option<nat>, n: nat)
    requires n < |ms|
    ensures LoadAll(base, ms[..n + 1], budget) == Loaded(LoadAll(base, ms[..n], budget), ms[n], budget)
  {
    assert ms[..n + 1][..n] == ms[..n];
  }

  lemma StartGrown(base: Files)
    requires Reopened(base)
    ensures GrownFrom(base, base)
  {
  }

  /** In every stage of the restore the files have only grown, and an earlier read still reads the same. */
  lemma {:induction false} LoadAllGrows(base: Files, ms: seq<PortableMessage>, budget: Option<nat>, k: nat, n: nat)
    requires Reopened(base) && k <= n <= |ms|
    ensures var a, b := LoadAll(base, ms[..k], budget).files, LoadAll(base, ms[..n], budget).files;
            GrownFrom(base, a) && GrownFrom(base, b) && StillReads(a.segments, b.segments)
    decreases n
  {
    hide Loaded, ReadAt, Reopened, GrownFrom;
    if n == 0 {
      StartGrown(base);
    } else if k == n {
      LoadAllGrows(base, ms, budget, k - 1, n - 1);
      LoadSnoc(base, ms, budget, n - 1);
      LoadedGrows(base, LoadAll(base, ms[..n - 1], budget), ms[n - 1], budget);
    } else {
      LoadAllGrows(base, ms, budget, k, n - 1);
      LoadSnoc(base, ms, budget, n - 1);
      LoadedGrows(base, LoadAll(base, ms[..n - 1], budget), ms[n - 1], budget);
    }
  }

  /** What the loaded message of a position reads, once everything is loaded. */
  ghost function BodyAfter(b: PortableBody, segments: map<nat, Segment>): Option<Bytes> {
    match b
    case Inline(bytes) => Some(bytes)
    case External(r) => ReadAt(segments, r)
  }

  ghost predicate LoadedAs(l: Loading, m: PortableMessage) {
    && m.id in l.messages && l.messages[m.id].failures == m.failures && l.messages[m.id].enqueuedMs == m.enqueuedMs
    && (m.body.External? ==> l.messages[m.id].body == Spilled(m.body.ref))
    && (m.body.Inline? ==> (match l.messages[m.id].body
                            case Resident(bytes) => bytes == m.body.bytes
                            case Spilled(r) => ReadAt(l.files.segments, r) == Some(m.body.bytes)))
  }

  lemma LoadedItself(base: Files, l: Loading, m: PortableMessage, budget: Option<nat>)
    requires GrownFrom(base, l.files)
    ensures LoadedAs(Loaded(l, m, budget), m)
  {
    hide GrownFrom, ReadAt, Appended, NewRef;
    if m.body.Inline? { AppendGrows(base, l.files, m.body.bytes); }
  }

  lemma LoadedOthers(base: Files, l: Loading, m: PortableMessage, budget: Option<nat>, k: PortableMessage)
    requires GrownFrom(base, l.files) && LoadedAs(l, k) && k.id != m.id
    ensures LoadedAs(Loaded(l, m, budget), k)
  {
    hide GrownFrom, ReadAt, Appended, NewRef;
    LoadedGrows(base, l, m, budget);
  }

  lemma {:induction false} LoadAllAs(base: Files, ms: seq<PortableMessage>, budget: Option<nat>, n: nat, i: nat)
    requires Reopened(base) && DistinctIds(ms) && i < n <= |ms|
    ensures LoadedAs(LoadAll(base, ms[..n], budget), ms[i])
    decreases n
  {
    hide Loaded, LoadedAs, Reopened, LoadAll, GrownFrom;
    LoadAllGrows(base, ms, budget, n - 1, n - 1);
    LoadSnoc(base, ms, budget, n - 1);
    var l := LoadAll(base, ms[..n - 1], budget);
    if i == n - 1 {
      LoadedItself(base, l, ms[i], budget);
    } else {
      LoadAllAs(base, ms, budget, n - 1, i);
      LoadedOthers(base, l, ms[n - 1], budget, ms[i]);
    }
  }

  lemma {:induction false} LoadAllKeys(base: Files, ms: seq<PortableMessage>, budget: Option<nat>, id: nat)
    ensures id in LoadAll(base, ms, budget).messages <==> exists i :: 0 <= i < |ms| && ms[i].id == id
  {
    if ms != [] {
      var n := |ms| - 1;
      LoadAllKeys(base, ms[..n], budget, id);
      if i :| 0 <= i < |ms| && ms[i].id == id {
        if i < n { assert ms[..n][i].id == id; }
      }
      if i :| 0 <= i < n && ms[..n][i].id == id { assert ms[i].id == id; }
      assert ms[n].id in LoadAll(base, ms, budget).messages;
    }
  }

  /** In an accepted restore every message reads back as its own bytes, or as what its reference reads at the end. */
  lemma LoadAllReads(base: Files, ms: seq<PortableMessage>, budget: Option<nat>, foreign: bool, i: nat)
    requires Reopened(base) && DistinctIds(ms) && Accepted(base, ms, budget, foreign) && i < |ms|
    ensures var l := LoadAll(base, ms, budget);
            && ms[i].id in l.messages && BodyAfter(ms[i].body, l.files.segments).Some?
            && ReadBack(l.messages, l.files.segments)[ms[i].id] ==
               PlainMessage(BodyAfter(ms[i].body, l.files.segments).value, ms[i].failures, ms[i].enqueuedMs)
            && (l.messages[ms[i].id].body.Spilled? ==>
                  ReadAt(l.files.segments, l.messages[ms[i].id].body.ref).Some?)
  {
    hide Loaded, Reopened, LoadAll, GrownFrom, DistinctIds, ReadAt;
    assert ms[..|ms|] == ms;
    LoadAllAs(base, ms, budget, |ms|, i);
    LoadAllGrows(base, ms, budget, i, |ms|);
  }

  lemma LoadAllRead(base: Files, ms: seq<PortableMessage>, budget: Option<nat>, foreign: bool)
    requires Reopened(base) && DistinctIds(ms) && Accepted(base, ms, budget, foreign)
    ensures AllRead(LoadAll(base, ms, budget).messages, LoadAll(base, ms, budget).files.segments)
  {
    hide LoadAll, Reopened, Accepted, ReadAt;
    var l := LoadAll(base, ms, budget);
    forall id | id in l.messages && l.messages[id].body.Spilled?
      ensures ReadAt(l.files.segments, l.messages[id].body.ref).Some?
    {
      LoadAllKeys(base, ms, budget, id);
      var i :| 0 <= i < |ms| && ms[i].id == id;
      LoadAllReads(base, ms, budget, foreign, i);
    }
  }

  // ---------------------------------------------------------------- when a restore gives back the snapshot

  lemma {:induction false} SaysAt(ms: seq<PortableMessage>, segments: map<nat, Segment>, i: nat)
    requires DistinctIds(ms) && i < |ms|
    ensures ms[i].id in Says(ms, segments) && Says(ms, segments)[ms[i].id] == PlainOf(ms[i], segments)
  {
    hide PlainOf;
    var n := |ms| - 1;
    if i < n { SaysAt(ms[..n], segments, i); }
  }

  /** Two maps listing the same ids, equal at each position of the snapshot. */
  lemma SameContents(base: Files, ms: seq<PortableMessage>, budget: Option<nat>, segments: map<nat, Segment>)
    requires DistinctIds(ms)
    requires forall i :: 0 <= i < |ms| ==>
               var l := LoadAll(base, ms, budget);
               ms[i].id in l.messages && ReadBack(l.messages, l.files.segments)[ms[i].id] == PlainOf(ms[i], segments)
    ensures ReadBack(LoadAll(base, ms, budget).messages, LoadAll(base, ms, budget).files.segments) == Says(ms, segments)
  {
    hide LoadAll, PlainOf, ReadBack, Says;
    var l := LoadAll(base, ms, budget);
    var a, b := ReadBack(l.messages, l.files.segments), Says(ms, segments);
    ReadBackKeys(l.messages, l.files.segments);
    forall id | id in a || id in b ensures id in a && id in b && a[id] == b[id] {
      LoadAllKeys(base, ms, budget, id);
      if id in b { SaysKeys(ms, segments, id); }
      var i :| 0 <= i < |ms| && ms[i].id == id;
      SaysAt(ms, segments, i);
    }
  }

  lemma ReadBackKeys(ms: map<nat, Message>, segments: map<nat, Segment>)
    ensures ReadBack(ms, segments).Keys == ms.Keys
  {
  }

  /** Files in which every reference can be read; those it names that are still there have only grown since. */
  ghost predicate SnapshotOf(past: map<nat, Segment>, ms: seq<PortableMessage>, now: map<nat, Segment>) {
    && Readable(ms, false, past)
    && forall i :: 0 <= i < |ms| && ms[i].body.External? && ms[i].body.ref.len > 0 ==>
         var g := ms[i].body.ref.segment; g in past && g in now ==> past[g].data <= now[g].data
  }

  /** Every reference to a body that is not empty names a segment file that is still there. */
  predicate FilesThere(ms: seq<PortableMessage>, segments: map<nat, Segment>) {
    forall i :: 0 <= i < |ms| && ms[i].body.External? && ms[i].body.ref.len > 0 ==> ms[i].body.ref.segment in segments
  }

  /** A reference into a file that was there before the restore reads as it did when the snapshot was taken. */
  lemma OldReads(base: Files, f: Files, past: map<nat, Segment>, r: SpillRef)
    requires GrownFrom(base, f) && ReadAt(f.segments, r).Some? && ReadAt(past, r).Some?
    requires r.len > 0 ==> r.segment in base.segments
    requires r.len > 0 && r.segment in past && r.segment in base.segments ==>
               past[r.segment].data <= base.segments[r.segment].data
    ensures ReadAt(f.segments, r) == ReadAt(past, r)
  {
    hide Sound;
    if r.len > 0 {
      var a, b := past[r.segment].data, base.segments[r.segment].data;
      assert a == b[..|a|];
      assert a[r.offset..r.offset + r.len] == b[r.offset..r.offset + r.len];
    } else {
      assert ReadAt(f.segments, r).value == [] == ReadAt(past, r).value;
    }
  }

  /** While the files are there, a restore that is accepted gives back what was in them. */
  lemma RestoreGivesBack(base: Files, ms: seq<PortableMessage>, budget: Option<nat>, foreign: bool,
                         past: map<nat, Segment>)
    requires Reopened(base) && DistinctIds(ms) && Accepted(base, ms, budget, foreign)
    requires FilesThere(ms, base.segments) && SnapshotOf(past, ms, base.segments)
    ensures ReadBack(LoadAll(base, ms, budget).messages, LoadAll(base, ms, budget).files.segments) == Says(ms, past)
  {
    hide LoadAll, Reopened, Accepted, GrownFrom, ReadBack, Says, ReadAt;
    var l := LoadAll(base, ms, budget);
    ReadBackKeys(l.messages, l.files.segments);
    assert ms[..|ms|] == ms;
    LoadAllGrows(base, ms, budget, |ms|, |ms|);
    forall i | 0 <= i < |ms|
      ensures ms[i].id in l.messages && ReadBack(l.messages, l.files.segments)[ms[i].id] == PlainOf(ms[i], past)
    {
      LoadAllReads(base, ms, budget, foreign, i);
      if ms[i].body.External? { OldReads(base, l.files, past, ms[i].body.ref); }
    }
    SameContents(base, ms, budget, past);
  }

  /** Past every reference of the snapshot. */
  ghost function FarEnd(ms: seq<PortableMessage>): nat {
    if ms == [] then 0 else
      var m, n := ms[|ms| - 1], FarEnd(ms[..|ms| - 1]);
      if m.body.External? && m.body.ref.offset + m.body.ref.len > n then m.body.ref.offset + m.body.ref.len else n
  }

  lemma {:induction false} WithinFarEnd(ms: seq<PortableMessage>, i: nat)
    requires i < |ms| && ms[i].body.External?
    ensures ms[i].body.ref.offset + ms[i].body.ref.len <= FarEnd(ms)
  {
    if i < |ms| - 1 { WithinFarEnd(ms[..|ms| - 1], i); }
  }

  /** Files that may have been: those there now, and the missing ones full of one byte. */
  ghost function Filled(ms: seq<PortableMessage>, now: map<nat, Segment>, x: bv8): map<nat, Segment> {
    map g | g in now.Keys + (set i | 0 <= i < |ms| && ms[i].body.External? :: ms[i].body.ref.segment) ::
      if g in now then now[g] else Segment(seq(FarEnd(ms), _ => x), 0)
  }

  lemma FilledReads(ms: seq<PortableMessage>, now: map<nat, Segment>, x: bv8, i: nat)
    requires i < |ms| && ms[i].body.External?
    requires ms[i].body.ref.segment in now ==> ReadAt(now, ms[i].body.ref).Some?
    ensures ReadAt(Filled(ms, now, x), ms[i].body.ref).Some?
    ensures ms[i].body.ref.segment !in now && ms[i].body.ref.len > 0 ==>
              ReadAt(Filled(ms, now, x), ms[i].body.ref).value[0] == x
  {
    WithinFarEnd(ms, i);
  }

  /** In an accepted restore a reference into a file that was there can be read there. */
  lemma AcceptedReads(base: Files, ms: seq<PortableMessage>, budget: Option<nat>, foreign: bool, i: nat)
    requires Reopened(base) && Accepted(base, ms, budget, foreign) && i < |ms| && ms[i].body.External?
    ensures !foreign
    ensures ms[i].body.ref.segment < base.nextSegment ==> ReadAt(base.segments, ms[i].body.ref).Some?
    ensures ms[i].body.ref.segment in base.segments ==> ReadAt(base.segments, ms[i].body.ref).Some?
  {
    hide LoadAll, Sound;
    LoadAllGrows(base, ms, budget, i, i);
  }

  lemma FilledIsPast(base: Files, ms: seq<PortableMessage>, budget: Option<nat>, foreign: bool, x: bv8)
    requires Reopened(base) && Accepted(base, ms, budget, foreign)
    ensures SnapshotOf(Filled(ms, base.segments, x), ms, base.segments)
  {
    hide Reopened, Accepted, ReadAt;
    var past := Filled(ms, base.segments, x);
    forall i | 0 <= i < |ms| && ms[i].body.External? ensures ReadAt(past, ms[i].body.ref).Some? {
      AcceptedReads(base, ms, budget, foreign, i);
      FilledReads(ms, base.segments, x, i);
    }
  }

  lemma FilledDiffer(base: Files, ms: seq<PortableMessage>, budget: Option<nat>, foreign: bool, i: nat)
    requires Reopened(base) && Accepted(base, ms, budget, foreign) && DistinctIds(ms)
    requires i < |ms| && ms[i].body.External? && ms[i].body.ref.len > 0 && ms[i].body.ref.segment !in base.segments
    ensures Says(ms, Filled(ms, base.segments, 0)) != Says(ms, Filled(ms, base.segments, 1))
  {
    hide Reopened, Accepted, ReadAt, Says, Filled, DistinctIds;
    var now := base.segments;
    FilledReads(ms, now, 0, i);
    FilledReads(ms, now, 1, i);
    SaysAt(ms, Filled(ms, now, 0), i);
    SaysAt(ms, Filled(ms, now, 1), i);
  }

  /**
   * An accepted restore gives back the snapshot's contents, whatever they were, if and only if every
   * reference to a body that is not empty names a segment file that is still there.
   */
  lemma RestoreGivesBackIff(base: Files, ms: seq<PortableMessage>, budget: Option<nat>, foreign: bool)
    requires Reopened(base) && DistinctIds(ms) && Accepted(base, ms, budget, foreign)
    ensures var l := LoadAll(base, ms, budget);
            FilesThere(ms, base.segments) <==>
            forall past :: SnapshotOf(past, ms, base.segments) ==>
              ReadBack(l.messages, l.files.segments) == Says(ms, past)
  {
    hide Reopened, DistinctIds, Accepted, SnapshotOf, ReadBack, Says, LoadAll, Filled;
    if FilesThere(ms, base.segments) {
      forall past | SnapshotOf(past, ms, base.segments)
        ensures ReadBack(LoadAll(base, ms, budget).messages, LoadAll(base, ms, budget).files.segments) == Says(ms, past)
      {
        RestoreGivesBack(base, ms, budget, foreign, past);
      }
    } else {
      var i :| 0 <= i < |ms| && ms[i].body.External? && ms[i].body.ref.len > 0 &&
               ms[i].body.ref.segment !in base.segments;
      FilledIsPast(base, ms, budget, foreign, 0);
      FilledIsPast(base, ms, budget, foreign, 1);
      FilledDiffer(base, ms, budget, foreign, i);
    }
  }

  /**
   * And such a restore can be accepted: with no segment file left, a body restored first under a smaller
   * budget is spilled into a new segment 0, where the dead reference then finds it.
   */
  lemma DeadReferenceReadsAnotherBody()
    ensures var ms := [PortableMessage(1, 0, 0, Inline([7])), PortableMessage(2, 0, 0, External(SpillRef(0, 0, 1)))];
            var l := LoadAll(NO_FILES, ms, Some(0));
            var past := map[0 := Segment([9], 1)];
            && Reopened(NO_FILES) && DistinctIds(ms) && SnapshotOf(past, ms, NO_FILES.segments)
            && Accepted(NO_FILES, ms, Some(0), false)
            && 2 in l.messages && ReadBack(l.messages, l.files.segments)[2].body == [7]
            && 2 in Says(ms, past) && Says(ms, past)[2].body == [9]
  {
    hide Opened, Written;
    var m, k := PortableMessage(1, 0, 0, Inline([7])), PortableMessage(2, 0, 0, External(SpillRef(0, 0, 1)));
    assert [m, k][..1] == [m] && [m][..0] == [];
    AppendToNothing();
    assert LoadAll(NO_FILES, [m], Some(0)) == Loaded(Loading(map[], 0, NO_FILES), m, Some(0));
    assert LoadAll(NO_FILES, [m, k][..1], Some(0)).files.segments == map[0 := Segment([7], 1)];
    assert Accepted(NO_FILES, [m, k], Some(0), false);
    LoadAllReads(NO_FILES, [m, k], Some(0), false, 1);
    SaysAt([m, k], map[0 := Segment([9], 1)], 1);
    assert [m, k][..2] == [m, k];
  }

  lemma AppendToNothing()
    ensures Appended(NO_FILES, [7]).segments == map[0 := Segment([7], 1)]
  {
    assert [] + [7 as bv8] == [7];
  }

  /** Under a counter past every id in use the case cannot arise: what is accepted was there to be read. */
  lemma OldReferencesAreThere(base: Files, ms: seq<PortableMessage>, budget: Option<nat>, foreign: bool)
    requires Reopened(base) && Accepted(base, ms, budget, foreign)
    requires forall i :: 0 <= i < |ms| && ms[i].body.External? ==> ms[i].body.ref.segment < base.nextSegment
    ensures Readable(ms, foreign, base.segments) && FilesThere(ms, base.segments)
  {
    hide Reopened, Accepted;
    forall i | 0 <= i < |ms| && ms[i].body.External? ensures !foreign && ReadAt(base.segments, ms[i].body.ref).Some? {
      AcceptedReads(base, ms, budget, foreign, i);
    }
  }

  /** If every reference can be read in the files as they are, the restore is accepted and says just that. */
  lemma ReadableIsAccepted(base: Files, ms: seq<PortableMessage>, budget: Option<nat>, foreign: bool)
    requires Reopened(base) && DistinctIds(ms) && Readable(ms, foreign, base.segments)
    ensures Accepted(base, ms, budget, foreign)
    ensures ReadBack(LoadAll(base, ms, budget).messages, LoadAll(base, ms, budget).files.segments) ==
            Says(ms, base.segments)
  {
    hide LoadAll, Reopened, GrownFrom, ReadBack, Says, ReadAt, DistinctIds;
    forall i | 0 <= i < |ms| && ms[i].body.External?
      ensures !foreign && ReadAt(LoadAll(base, ms[..i], budget).files.segments, ms[i].body.ref).Some?
    {
      LoadAllGrows(base, ms, budget, 0, i);
      LoadNone(base, ms, budget);
    }
    forall i | 0 <= i < |ms| && ms[i].body.External? ensures ms[i].body.ref.segment in base.segments {
      ReadNames(base.segments, ms[i].body.ref);
    }
    RestoreGivesBack(base, ms, budget, foreign, base.segments);
  }

  lemma LoadNone(base: Files, ms: seq<PortableMessage>, budget: Option<nat>)
    ensures LoadAll(base, ms[..0], budget) == Loading(map[], 0, base)
  {
  }

  lemma ReadNames(segments: map<nat, Segment>, r: SpillRef)
    requires ReadAt(segments, r).Some?
    ensures r.segment in segments
  {
  }

  // ---------------------------------------------------------------- the restore itself

  predicate Foreign(budget: Option<nat>, storeId: nat, spillId: nat) {
    budget.None? || spillId != storeId
  }

  ghost predicate Small(ms: seq<PortableMessage>) {
    forall i :: 0 <= i < |ms| && ms[i].body.Inline? ==> |ms[i].body.bytes| <= U32_MAX
  }

  /** Restore one message, refusing a reference that is foreign or cannot be read. */
  method LoadOne(q: QueueState, m: PortableMessage, spillId: nat) returns (ok: bool)
    requires Sound(q.spill.State()) && (m.body.Inline? ==> |m.body.bytes| <= U32_MAX)
    modifies q, q.spill
    ensures ok <==> (m.body.External? ==>
                       !Foreign(q.budget, q.spill.id, spillId) && ReadAt(old(q.spill.segments), m.body.ref).Some?)
    ensures q.nextMsgId == old(q.nextMsgId)
    ensures ok ==>
              Loading(q.messages, q.residentBytes, q.spill.State()) ==
              Loaded(Loading(old(q.messages), old(q.residentBytes), old(q.spill.State())), m, q.budget)
  {
    hide Sound, Opened, ReadAt;
    match m.body {
      case Inline(bytes) =>
        var stored := q.StoreBody(bytes);
        q.messages := q.messages[m.id := Message(stored, m.failures, m.enqueuedMs)];
      case External(r) =>
        if q.budget.None? || spillId != q.spill.id { return false; }
        var read := q.spill.Read(r);
        if read.None? { return false; }
        q.messages := q.messages[m.id := Message(Spilled(r), m.failures, m.enqueuedMs)];
    }
    ok := true;
  }

  lemma GrownIsSound(base: Files, f: Files)
    requires GrownFrom(base, f)
    ensures Sound(f)
  {
  }

  /** Restore a snapshot into an empty state over reopened files. */
  method Restore(q: QueueState, p: Portable) returns (ok: bool)
    requires q.messages == map[] && q.residentBytes == 0 && Reopened(q.spill.State()) && Small(p.messages)
    modifies q, q.spill
    ensures ok <==> Accepted(old(q.spill.State()), p.messages, q.budget, Foreign(q.budget, q.spill.id, p.spillId))
    ensures ok ==>
              (&& q.nextMsgId == p.nextMsgId
               && Loading(q.messages, q.residentBytes, q.spill.State()) ==
                  LoadAll(old(q.spill.State()), p.messages, q.budget))
  {
    hide Sound, GrownFrom, ReadAt, Loaded, LoadAll;
    ghost var base := q.spill.State();
    ghost var foreign := Foreign(q.budget, q.spill.id, p.spillId);
    q.nextMsgId := p.nextMsgId;
    LoadNone(base, p.messages, q.budget);
    var i := 0;
    while i < |p.messages|
      invariant 0 <= i <= |p.messages| && q.nextMsgId == p.nextMsgId
      invariant Loading(q.messages, q.residentBytes, q.spill.State()) == LoadAll(base, p.messages[..i], q.budget)
      invariant forall j :: 0 <= j < i && p.messages[j].body.External? ==>
                  !foreign && ReadAt(LoadAll(base, p.messages[..j], q.budget).files.segments,
                                     p.messages[j].body.ref).Some?
    {
      LoadAllGrows(base, p.messages, q.budget, i, i);
      GrownIsSound(base, q.spill.State());
      LoadSnoc(base, p.messages, q.budget, i);
      var done := LoadOne(q, p.messages[i], p.spillId);
      if !done { return false; }
      i := i + 1;
    }
    assert p.messages[..i] == p.messages;
    ok := true;
  }

  // ---------------------------------------------------------------- recounting

  /** How many bodies each segment holds. */
  method LiveCounts(ms: map<nat, Message>) returns (counts: map<nat, nat>)
    ensures forall g :: CountOf(counts, g) == |RefsIn(ms, g)|
  {
    hide RefsIn;
    counts := map[];
    var todo := ms;
    while todo != map[]
      invariant forall g :: CountOf(counts, g) + |RefsIn(todo, g)| == |RefsIn(ms, g)|
      decreases |todo|
    {
      var id :| id in todo;
      forall g ensures RefsIn(todo, g) == RefOf(todo[id].body, g) + RefsIn(todo - {id}, g) { RefsRemove(todo, id, g); }
      if todo[id].body.Spilled? {
        var g := todo[id].body.ref.segment;
        counts := counts[g := (if g in counts then counts[g] else 0) + 1];
      }
      todo := todo - {id};
    }
    forall g ensures |RefsIn(map[], g)| == 0 { NoRefs(g); }
  }

  ghost function RefsOf(ms: map<nat, Message>, segments: map<nat, Segment>): map<nat, multiset<SpillRef>> {
    map g | g in segments :: RefsIn(ms, g)
  }

  ghost function BodiesOf(ms: map<nat, Message>, segments: map<nat, Segment>): map<SpillRef, Bytes> {
    map r | r in (set id | id in ms && ms[id].body.Spilled? :: ms[id].body.ref) && ReadAt(segments, r).Some? ::
      ReadAt(segments, r).value
  }

  lemma RestoredReads(f: Files, ms: map<nat, Message>, id: nat)
    requires AllRead(ms, f.segments) && id in ms && ms[id].body.Spilled?
    ensures var r := ms[id].body.ref;
            var bodies := BodiesOf(ms, f.segments);
            r in bodies && ReadAt(f.segments, r) == Some(bodies[r])
  {
  }

  /** The restored messages' references are what `LiveCounts` counted. */
  lemma RestoredCounts(f: Files, ms: map<nat, Message>, counts: map<nat, nat>)
    requires AllRead(ms, f.segments) && forall g :: CountOf(counts, g) == |RefsIn(ms, g)|
    ensures Counts(f, counts, RefsOf(ms, f.segments), BodiesOf(ms, f.segments))
  {
    hide AllRead, RefsIn, BodiesOf;
    var refs, bodies := RefsOf(ms, f.segments), BodiesOf(ms, f.segments);
    forall g, r | r in RefsIn(ms, g)
      ensures r.segment == g && r in bodies && ReadAt(f.segments, r) == Some(bodies[r])
    {
      RefsNamed(ms, g, r);
      var id :| id in ms && ms[id].body == Spilled(r);
      RestoredReads(f, ms, id);
    }
    forall g | g in counts && counts[g] > 0 ensures g in refs {
      assert |RefsIn(ms, g)| == CountOf(counts, g);
      var r :| r in RefsIn(ms, g);
      assert ReadAt(f.segments, r).Some?;
    }
  }

  lemma RestoredNeverReused(f: Files, ms: map<nat, Message>)
    requires NeverReused(f)
    ensures NeverReused(f.(bodies := BodiesOf(ms, f.segments)))
  {
  }

  lemma RestoredMatch(f: Files, ms: map<nat, Message>, counts: map<nat, nat>)
    requires forall g :: CountOf(counts, g) == |RefsIn(ms, g)|
    requires forall id :: id in ms && ms[id].body.Spilled? ==> ms[id].body.ref.segment in f.segments
    ensures RefsMatch(ms, LiveSet(f, counts, RefsOf(ms, f.segments), BodiesOf(ms, f.segments)).refs)
  {
    hide RefsIn, BodiesOf;
    forall id | id in ms && ms[id].body.Spilled? ensures Keeps(counts, f.current, ms[id].body.ref.segment) {
      RefsRemove(ms, id, ms[id].body.ref.segment);
    }
  }

  lemma RestoredMeaning(f: Files, ms: map<nat, Message>)
    requires AllRead(ms, f.segments)
    ensures Meaning(ms, BodiesOf(ms, f.segments)) == ReadBack(ms, f.segments)
  {
    hide BodiesOf, ReadAt;
    forall id | id in ms
      ensures Meaning(ms, BodiesOf(ms, f.segments))[id] == ReadBack(ms, f.segments)[id]
    {
      if ms[id].body.Spilled? { RestoredReads(f, ms, id); }
    }
  }

  /** Recounting makes the replica whole: exact counts, nothing leaked, the contents it read back. */
  lemma RecountMakesWhole(f: Files, ms: map<nat, Message>, counts: map<nat, nat>, next: nat, resident: nat,
                          budget: Option<nat>)
    requires Sound(f) && f.pins == 0 && f.deferred == [] && AllRead(ms, f.segments)
    requires Budgeted(ms, resident, budget) && Issued(ms, next)
    requires forall g :: CountOf(counts, g) == |RefsIn(ms, g)|
    ensures var d := LiveSet(f, counts, RefsOf(ms, f.segments), BodiesOf(ms, f.segments));
            var s := Replica(next, ms, resident, d);
            && ReplicaOk(s, budget) && Abs(s) == Plain(next, ReadBack(ms, f.segments))
            && (forall g :: g in f.segments ==>
                  (g in d.segments <==> RefsIn(ms, g) != multiset{} || f.current == Some(g)))
  {
    hide NeverReused, Counted, NoLeak, Counts, AllRead, BodiesOf, RefsOf, RefsMatch, Budgeted, Meaning, RefsIn,
         ReadBack;
    RestoredCounts(f, ms, counts);
    RestoredNeverReused(f, ms);
    LiveSetOk(f, counts, RefsOf(ms, f.segments), BodiesOf(ms, f.segments));
    forall id | id in ms && ms[id].body.Spilled? ensures ms[id].body.ref.segment in f.segments {
      RestoredReads(f, ms, id);
    }
    RestoredMatch(f, ms, counts);
    RestoredMeaning(f, ms);
  }

  /** The budget is kept message by message. */
  lemma {:induction false} LoadAllBudgeted(base: Files, ms: seq<PortableMessage>, budget: Option<nat>, n: nat)
    requires DistinctIds(ms) && n <= |ms|
    requires budget.None? ==> forall i :: 0 <= i < |ms| ==> ms[i].body.Inline?
    ensures var l := LoadAll(base, ms[..n], budget); Budgeted(l.messages, l.resident, budget)
  {
    hide Budgeted, Appended, NewRef;
    if n == 0 {
      NothingBudgeted(budget);
    } else {
      LoadAllBudgeted(base, ms, budget, n - 1);
      LoadSnoc(base, ms, budget, n - 1);
      var l := LoadAll(base, ms[..n - 1], budget);
      LoadAllKeys(base, ms[..n - 1], budget, ms[n - 1].id);
      BudgetedInsert(l.messages, l.resident, budget, ms[n - 1].id, Loaded(l, ms[n - 1], budget).messages[ms[n - 1].id]);
    }
  }

  lemma NothingBudgeted(budget: Option<nat>)
    ensures Budgeted(map[], 0, budget)
  {
  }

  /** What a restore that was accepted hands to the recount. */
  lemma ReadyToRecount(base: Files, p: Portable, budget: Option<nat>, storeId: nat)
    requires Reopened(base) && DistinctIds(p.messages)
    requires Accepted(base, p.messages, budget, Foreign(budget, storeId, p.spillId))
    requires forall i :: 0 <= i < |p.messages| ==> 1 <= p.messages[i].id <= p.nextMsgId
    ensures var l := LoadAll(base, p.messages, budget);
            && GrownFrom(base, l.files) && AllRead(l.messages, l.files.segments)
            && Budgeted(l.messages, l.resident, budget) && Issued(l.messages, p.nextMsgId)
  {
    hide Reopened, DistinctIds, LoadAll, Budgeted, GrownFrom, AllRead;
    assert p.messages[..|p.messages|] == p.messages;
    LoadAllGrows(base, p.messages, budget, |p.messages|, |p.messages|);
    LoadAllRead(base, p.messages, budget, Foreign(budget, storeId, p.spillId));
    LoadAllBudgeted(base, p.messages, budget, |p.messages|);
    forall id | id in LoadAll(base, p.messages, budget).messages ensures 1 <= id <= p.nextMsgId {
      LoadAllKeys(base, p.messages, budget, id);
    }
  }

  /**
   * A restart: reopen the files, restore, recount. Whenever the restore is accepted the replica is whole, with
   * exactly the contents its messages read back, and exactly the segments nothing refers to are gone.
   */
  method Recover(q: QueueState, p: Portable) returns (ok: bool)
    requires q.messages == map[] && q.residentBytes == 0 && Reopened(q.spill.State())
    requires DistinctIds(p.messages) && Small(p.messages)
    requires forall i :: 0 <= i < |p.messages| ==> 1 <= p.messages[i].id <= p.nextMsgId
    modifies q, q.spill
    ensures ok <==> Accepted(old(q.spill.State()), p.messages, q.budget, Foreign(q.budget, q.spill.id, p.spillId))
    ensures ok ==>
              var l := LoadAll(old(q.spill.State()), p.messages, q.budget);
              && q.Valid() && q.Contents() == Plain(p.nextMsgId, ReadBack(l.messages, l.files.segments))
              && (forall g :: g in old(q.spill.segments) ==>
                    (g in q.spill.segments <==> RefsIn(q.messages, g) != multiset{}))
    ensures Readable(p.messages, Foreign(q.budget, q.spill.id, p.spillId), old(q.spill.segments)) ==>
              ok && q.Contents() == Plain(p.nextMsgId, Says(p.messages, old(q.spill.segments)))
  {
    hide Sound, Readable, Budgeted, ReplicaOk, LiveSet, RefsIn, Abs, LoadAll, Accepted, ReadBack, Says, GrownFrom,
         AllRead,
         DistinctIds, Small;
    ghost var base := q.spill.State();
    ghost var foreign := Foreign(q.budget, q.spill.id, p.spillId);
    if Readable(p.messages, foreign, base.segments) { ReadableIsAccepted(base, p.messages, q.budget, foreign); }
    ok := Restore(q, p);
    if ok {
      ghost var f := q.spill.State();
      ReadyToRecount(base, p, q.budget, q.spill.id);
      var counts := LiveCounts(q.messages);
      q.spill.SetLive(counts, RefsOf(q.messages, f.segments), BodiesOf(q.messages, f.segments));
      NotCurrent(base, f);
      RecountMakesWhole(f, q.messages, counts, q.nextMsgId, q.residentBytes, q.budget);
    }
  }

  lemma NotCurrent(base: Files, f: Files)
    requires GrownFrom(base, f)
    ensures Sound(f) && f.pins == 0 && f.deferred == []
    ensures forall g :: g in base.segments ==> g in f.segments && f.current != Some(g)
  {
  }

  // ---------------------------------------------------------------- the two together

  ghost predicate SameData(a: map<nat, Segment>, b: map<nat, Segment>) {
    a.Keys == b.Keys && forall g :: g in a ==> a[g].data == b[g].data
  }

  lemma {:induction false} SaysSameData(ms: seq<PortableMessage>, a: map<nat, Segment>, b: map<nat, Segment>)
    requires SameData(a, b)
    ensures Says(ms, a) == Says(ms, b)
  {
    if ms != [] {
      SaysSameData(ms[..|ms| - 1], a, b);
      var body := ms[|ms| - 1].body;
      if body.External? { assert ReadAt(a, body.ref) == ReadAt(b, body.ref); }
    }
  }

  /** A snapshot restored over the files left on disk, under any budget, gives back the contents it was taken of. */
  method SnapshotAndRestart(q: QueueState, maxResident: nat) returns (r: QueueState)
    requires q.Valid() && forall id :: id in q.messages && q.messages[id].body.Resident? ==>
                            |q.messages[id].body.bytes| <= U32_MAX
    ensures r.Valid() && r.budget == Some(maxResident) && r.Contents() == q.Contents()
    ensures forall g :: g in q.spill.segments ==> (g in r.spill.segments <==> RefsIn(r.messages, g) != multiset{})
  {
    hide ReplicaOk, Abs, Says, Sound, RefsIn, ReadAt, Accepted;
    var p := TakeSnapshot(q);
    WhatIsIssued(q.State(), q.budget);
    ghost var was := q.spill.segments;
    var store := new Spill.Preserving(q.spill.id, map g | g in q.spill.segments :: q.spill.segments[g].data);
    r := new QueueState(store, Some(maxResident));
    SaysSameData(p.messages, was, store.segments);
    forall i | 0 <= i < |p.messages| ensures 1 <= p.messages[i].id <= p.nextMsgId {}
    ReadableSameData(p.messages, p.spillId != q.spill.id, was, store.segments);
    var ok := Recover(r, p);
  }

  lemma WhatIsIssued(s: Replica, budget: Option<nat>)
    requires ReplicaOk(s, budget)
    ensures Issued(s.messages, s.nextMsgId) && Abs(s).nextMsgId == s.nextMsgId
  {
  }

  lemma ReadableSameData(ms: seq<PortableMessage>, foreign: bool, a: map<nat, Segment>, b: map<nat, Segment>)
    requires SameData(a, b) && Readable(ms, foreign, a)
    ensures Readable(ms, foreign, b)
  {
    forall i | 0 <= i < |ms| && ms[i].body.External? ensures !foreign && ReadAt(b, ms[i].body.ref).Some? {
      assert ReadAt(a, ms[i].body.ref).Some?;
    }
  }

  /** Settling this message deletes its segment file now. */
  predicate LastOfItsSegment(s: Replica, id: nat)
    requires id in s.messages
  {
    var b := s.messages[id].body;
    && b.Spilled? && s.files.pins == 0 && s.files.current != Some(b.ref.segment)
    && b.ref.segment in s.files.segments && s.files.segments[b.ref.segment].live == 1
  }

  lemma DroppedReads(s: Replica, budget: Option<nat>, id: nat, k: nat)
    requires ReplicaOk(s, budget) && id in s.messages && k in s.messages && s.messages[k].body.Spilled?
    ensures ReadAt(Dropped(s, id).files.segments, s.messages[k].body.ref).Some? <==>
            !(k == id && LastOfItsSegment(s, id))
  {
    hide RefsIn, Budgeted, NeverReused, PinsHold, NoLeak;
    SpilledReads(s, budget, k);
    if s.messages[id].body.Spilled? {
      SpilledReads(s, budget, id);
      if k != id { OtherRef(s.messages, id, k); }
    }
  }

  /**
   * Not preserved for longer than that: once a snapshot is taken and unpinned, settling a message leaves it
   * readable if and only if that was not the last body of a segment no longer current.
   */
  lemma SettleOrphansSnapshotIff(s: Replica, budget: Option<nat>, id: nat, ids: seq<nat>)
    requires ReplicaOk(s, budget) && id in s.messages && forall k :: k in ids ==> k in s.messages
    ensures Readable(ExportAll(s.messages, ids), false, Dropped(s, id).files.segments) <==>
            !(id in ids && LastOfItsSegment(s, id))
  {
    hide ReplicaOk, Dropped, LastOfItsSegment, ReadAt;
    ExportAllAt(s.messages, ids);
    var out := ExportAll(s.messages, ids);
    var after := Dropped(s, id).files.segments;
    forall i | 0 <= i < |ids| && out[i].body.External?
      ensures ReadAt(after, out[i].body.ref).Some? <==> !(ids[i] == id && LastOfItsSegment(s, id))
    {
      DroppedReads(s, budget, id, ids[i]);
    }
    if id in ids && LastOfItsSegment(s, id) {
      var i :| 0 <= i < |ids| && ids[i] == id;
      LastIsSpilled(s, id);
      assert out[i].body.External?;
    }
  }

  lemma LastIsSpilled(s: Replica, id: nat)
    requires id in s.messages && LastOfItsSegment(s, id)
    ensures s.messages[id].body.Spilled?
  {
  }

  /** A store reopened on one segment file of one byte. */
  const ONE_FILE := Files(1, None, map[0 := Segment([1], 0)], 0, [], map[0 := multiset{}], map[], [])

  const ONE_SPILLED := map[1 := Message(Spilled(SpillRef(0, 0, 1)), 0, 0)]

  /** The replica recovered over that file from a snapshot of one spilled message. */
  ghost function Restarted(): Replica {
    Replica(1, ONE_SPILLED, 0,
            LiveSet(ONE_FILE, map[0 := 1], RefsOf(ONE_SPILLED, ONE_FILE.segments),
                    BodiesOf(ONE_SPILLED, ONE_FILE.segments)))
  }

  lemma OneRef(g: nat)
    ensures RefsIn(ONE_SPILLED, g) == if g == 0 then multiset{SpillRef(0, 0, 1)} else multiset{}
  {
    hide RefsIn;
    RefsRemove(ONE_SPILLED, 1, g);
    NoRefs(g);
    assert ONE_SPILLED - {1} == map[];
  }

  lemma OneBudgeted()
    ensures Budgeted(ONE_SPILLED, 0, Some(0))
  {
    SumMapRemove(ONE_SPILLED, 1, ResidentSize);
    assert ONE_SPILLED - {1} == map[];
  }

  lemma RestartedIsWhole()
    ensures ReplicaOk(Restarted(), Some(0))
    ensures Restarted().files.current.None? && Restarted().files.nextSegment == 1 && Restarted().files.pins == 0
    ensures Restarted().files.segments == map[0 := Segment([1], 1)]
  {
    hide RefsIn, ReplicaOk, Budgeted, BodiesOf, RefsOf;
    forall g ensures CountOf(map[0 := 1], g) == |RefsIn(ONE_SPILLED, g)| { OneRef(g); }
    OneBudgeted();
    RecountMakesWhole(ONE_FILE, ONE_SPILLED, map[0 := 1], 1, 0, Some(0));
  }

  /**
   * A settle that orphans a snapshot: the recovered replica spills a second message, into segment 1; the first
   * is settled; and the snapshot taken of the two can no longer be read.
   */
  lemma SettleOrphansSnapshot()
    ensures var f := Restarted().files;
            var s := Stored(Restarted(), 2, Message(Spilled(NewRef(f, [2])), 0, 0), Appended(f, [2]));
            && ReplicaOk(s, Some(0)) && Abs(s) == ApplyPlain(Abs(Restarted()), Enqueue([2], 0)).0
            && 1 in s.messages && 2 in s.messages
            && Readable(ExportAll(s.messages, [1, 2]), false, s.files.segments)
            && !Readable(ExportAll(s.messages, [1, 2]), false, Dropped(s, 1).files.segments)
  {
    hide ReplicaOk, Abs, Readable, ExportAll, Dropped, Restarted, NewRef, Appended;
    RestartedIsWhole();
    RestartedHolds();
    SpillKeepsOk(Restarted(), Some(0), [2], 0);
    var f := Restarted().files;
    var s := Stored(Restarted(), 2, Message(Spilled(NewRef(f, [2])), 0, 0), Appended(f, [2]));
    AppendOpens(f, [2]);
    ExportAllReadable(s, Some(0), [1, 2]);
    SettleOrphansSnapshotIff(s, Some(0), 1, [1, 2]);
  }

  /** With no segment open, an append opens a new one beside those there. */
  lemma AppendOpens(f: Files, body: Bytes)
    requires f.current.None? && forall g :: g in f.segments ==> g < f.nextSegment
    ensures Appended(f, body).current == Some(f.nextSegment) && Appended(f, body).pins == f.pins
    ensures forall g :: g in f.segments ==>
              g in Appended(f, body).segments && Appended(f, body).segments[g] == f.segments[g]
  {
  }

  lemma RestartedHolds()
    ensures Restarted().messages == ONE_SPILLED && Restarted().nextMsgId == 1
  {
  }
}
