/**
 * The spill store of a paged queue (ramqp-broker/src/cluster/paging.rs): message bodies appended to
 * segment files, reclaimed segment by segment, with deletions held back while a snapshot builder reads.
 * Files are byte sequences; opens, writes and reads succeed.
 */
module Paging {
  import opened Collections
  import opened Dispatch

  /** Roll to a new segment once the current one has reached this size. */
  const SEGMENT_MAX_BYTES: nat := 64 * 1024 * 1024

  datatype SpillRef = SpillRef(segment: nat, offset: nat, len: nat)

  datatype Segment = Segment(data: Bytes, live: nat)

  /**
   * The last three components are history: per segment, the references handed out and not released; every
   * reference ever handed out with its body; and for each pin still held, what was live when it was taken.
   */
  datatype Files = Files(
    nextSegment: nat, current: Option<nat>, segments: map<nat, Segment>, pins: nat, deferred: seq<nat>,
    refs: map<nat, multiset<SpillRef>>, bodies: map<SpillRef, Bytes>, pinned: seq<set<SpillRef>>)

  /** The bytes a reference names, if its segment is there and long enough. */
  function ReadAt(segments: map<nat, Segment>, r: SpillRef): Option<Bytes> {
    if r.segment in segments && r.offset + r.len <= |segments[r.segment].data|
    then Some(segments[r.segment].data[r.offset..r.offset + r.len])
    else None
  }

  // ---------------------------------------------------------------- operations

  function Deleted(f: Files, g: nat): Files {
    f.(segments := f.segments - {g}, refs := f.refs - {g})
  }

  /** A segment with nothing live goes at once, or when the last pin drops. */
  function Retired(f: Files, g: nat): Files {
    if f.pins > 0 then f.(deferred := f.deferred + [g]) else Deleted(f, g)
  }

  predicate NeedsRoll(f: Files) {
    f.current.None? || f.current.value !in f.segments || |f.segments[f.current.value].data| >= SEGMENT_MAX_BYTES
  }

  function AddSegment(f: Files): Files {
    f.(segments := f.segments[f.nextSegment := Segment([], 0)],
       refs := f.refs[f.nextSegment := multiset{}],
       current := Some(f.nextSegment),
       nextSegment := f.nextSegment + 1)
  }

  /** Start a new segment, reclaiming the outgoing one if it drained while it was current. */
  function Rolled(f: Files): Files {
    var out := f.(current := None);
    AddSegment(
      if f.current.Some? && f.current.value in f.segments && f.segments[f.current.value].live == 0
      then Retired(out, f.current.value) else out)
  }

  function Held(refs: map<nat, multiset<SpillRef>>, g: nat): multiset<SpillRef> {
    if g in refs then refs[g] else multiset{}
  }

  function Written(f: Files, g: nat, body: Bytes): Files
    requires g in f.segments
  {
    var seg := f.segments[g];
    var r := SpillRef(g, |seg.data|, |body|);
    f.(segments := f.segments[g := Segment(seg.data + body, seg.live + 1)],
       refs := f.refs[g := Held(f.refs, g) + multiset{r}],
       bodies := f.bodies[r := body])
  }

  function Opened(f: Files): Files {
    if NeedsRoll(f) then Rolled(f) else f
  }

  function CountedDown(f: Files, r: SpillRef): Files
    requires r.segment in f.segments
  {
    var seg := f.segments[r.segment];
    f.(segments := f.segments[r.segment := seg.(live := SatSub(seg.live, 1))],
       refs := f.refs[r.segment := Held(f.refs, r.segment) - multiset{r}])
  }

  function ReleasedRef(f: Files, r: SpillRef): Files {
    if r.segment in f.segments then
      var d := CountedDown(f, r);
      if d.segments[r.segment].live == 0 && f.current != Some(r.segment) then Retired(d, r.segment) else d
    else f
  }

  ghost function LiveRefs(f: Files): set<SpillRef> {
    set g, r | g in f.refs && r in f.refs[g] :: r
  }

  ghost function PinTaken(f: Files): Files {
    f.(pins := f.pins + 1, pinned := f.pinned + [LiveRefs(f)])
  }

  /** The deferred deletions, in order, once the last pin has gone. */
  function Reclaimed(f: Files, ids: seq<nat>): Files
    decreases |ids|
  {
    if ids == [] then f else
      Reclaimed(if ids[0] in f.segments && f.segments[ids[0]].live == 0 then Deleted(f, ids[0]) else f, ids[1..])
  }

  /** One pin goes (`k` says which, for the history). */
  function PinDropped(f: Files, k: nat): Files
    requires f.pins > 0 ==> k < |f.pinned|
  {
    var f1 := if f.pins > 0 then f.(pins := f.pins - 1, pinned := f.pinned[..k] + f.pinned[k + 1..]) else f;
    if f1.pins == 0 then Reclaimed(f1.(deferred := []), f1.deferred) else f1
  }

  // ---------------------------------------------------------------- invariant

  ghost predicate Intact(f: Files, r: SpillRef) {
    r in f.bodies && ReadAt(f.segments, r) == Some(f.bodies[r])
  }

  /** Segment ids are never reused and files only grow: an issued reference is never issued again for other bytes. */
  ghost predicate NeverReused(f: Files) {
    && (f.current.Some? ==> f.current.value in f.segments)
    && (forall g :: g in f.segments ==> g < f.nextSegment)
    && (forall r :: r in f.bodies ==>
          r.segment < f.nextSegment && r.len == |f.bodies[r]| &&
          (r.segment in f.segments ==> r.offset + r.len <= |f.segments[r.segment].data|))
  }

  /** Live counts are exact, and live bodies are intact. */
  ghost predicate Counted(f: Files) {
    && f.refs.Keys == f.segments.Keys
    && (forall g :: g in f.segments ==> f.segments[g].live == |f.refs[g]|)
    && (forall g, r :: g in f.refs && r in f.refs[g] ==> r.segment == g && Intact(f, r))
  }

  /** Everything that was live when a pin still held was taken is intact. */
  ghost predicate PinsHold(f: Files) {
    && |f.pinned| == f.pins
    && (forall i, r :: 0 <= i < |f.pinned| && r in f.pinned[i] ==> Intact(f, r))
  }

  /** No space is leaked: a dead segment is the current one or waits for the pins to go. */
  ghost predicate NoLeak(f: Files) {
    && (f.pins == 0 ==> f.deferred == [])
    && (forall g :: g in f.segments && f.segments[g].live == 0 ==> f.current == Some(g) || g in f.deferred)
    && (forall g :: g in f.deferred ==>
          g < f.nextSegment && f.current != Some(g) && (g in f.segments ==> f.segments[g].live == 0))
  }

  ghost predicate FilesOk(f: Files) {
    NeverReused(f) && Counted(f) && PinsHold(f) && NoLeak(f)
  }

  const NO_FILES := Files(0, None, map[], 0, [], map[], map[], [])

  /** The parts that do not speak of leaks. */
  ghost predicate Sound(f: Files) {
    NeverReused(f) && Counted(f) && PinsHold(f)
  }

  lemma DeletedSound(f: Files, g: nat)
    requires Sound(f) && f.current != Some(g) && f.pins == 0
    requires g in f.segments ==> f.segments[g].live == 0
    ensures Sound(Deleted(f, g))
  {
    var d := Deleted(f, g);
    assert g in f.refs ==> f.refs[g] == multiset{};
    forall h, r | h in d.refs && r in d.refs[h] ensures r.segment == h && Intact(d, r) {
      assert Intact(f, r);
    }
  }

  lemma AddSegmentSound(f: Files)
    requires Sound(f)
    ensures Sound(AddSegment(f))
  {
    var d := AddSegment(f);
    forall r | Intact(f, r) ensures Intact(d, r) {}
  }

  /** An append leaves every reference issued so far reading as before. */
  lemma WrittenReads(f: Files, g: nat, body: Bytes, r: SpillRef)
    requires g in f.segments && g in f.refs && ReadAt(f.segments, r).Some?
    ensures ReadAt(Written(f, g, body).segments, r) == ReadAt(f.segments, r)
  {
    if r.segment == g {
      var data := f.segments[g].data;
      assert (data + body)[r.offset..r.offset + r.len] == data[r.offset..r.offset + r.len];
    }
  }

  lemma WrittenNew(f: Files, g: nat, body: Bytes)
    requires NeverReused(f) && g in f.segments && g in f.refs
    ensures var r := SpillRef(g, |f.segments[g].data|, |body|);
            ReadAt(Written(f, g, body).segments, r) == Some(body) && (r in f.bodies ==> f.bodies[r] == body)
    ensures NeverReused(Written(f, g, body))
  {
    var data := f.segments[g].data;
    var r := SpillRef(g, |data|, |body|);
    assert r in f.bodies ==> |f.bodies[r]| == 0 && |body| == 0;
    assert (data + body)[|data|..|data| + |body|] == body;
  }

  lemma WrittenIntact(f: Files, g: nat, body: Bytes, r: SpillRef)
    requires NeverReused(f) && g in f.segments && g in f.refs && Intact(f, r)
    ensures Intact(Written(f, g, body), r)
  {
    hide NeverReused, ReadAt;
    WrittenReads(f, g, body, r);
    WrittenNew(f, g, body);
  }

  lemma WrittenSound(f: Files, g: nat, body: Bytes)
    requires Sound(f) && g in f.segments
    ensures Sound(Written(f, g, body))
    ensures var seg := f.segments[g];
            var r := SpillRef(g, |seg.data|, |body|);
            ReadAt(Written(f, g, body).segments, r) == Some(body) && (r in f.bodies ==> f.bodies[r] == body)
  {
    hide NeverReused, Intact, ReadAt;
    var d := Written(f, g, body);
    WrittenNew(f, g, body);
    var n := SpillRef(g, |f.segments[g].data|, |body|);
    IntactNow(d, n);
    forall r | Intact(f, r) ensures Intact(d, r) { WrittenIntact(f, g, body, r); }
  }

  lemma IntactNow(f: Files, r: SpillRef)
    requires r in f.bodies && ReadAt(f.segments, r) == Some(f.bodies[r])
    ensures Intact(f, r)
  {
  }

  lemma SameFilesSound(f: Files, d: Files)
    requires Sound(f) && d.segments == f.segments && d.refs == f.refs && d.bodies == f.bodies
    requires d.nextSegment == f.nextSegment && d.pins == f.pins && d.pinned == f.pinned
    requires d.current.None? || d.current == f.current
    ensures Sound(d)
  {
    forall r | Intact(f, r) ensures Intact(d, r) {}
  }

  lemma RolledSound(f: Files)
    requires Sound(f)
    ensures Sound(Rolled(f))
  {
    hide NeverReused, Counted, PinsHold;
    var out := f.(current := None);
    SameFilesSound(f, out);
    if f.current.Some? && f.current.value in f.segments && f.segments[f.current.value].live == 0 {
      if f.pins > 0 {
        SameFilesSound(f, Retired(out, f.current.value));
        AddSegmentSound(Retired(out, f.current.value));
      } else {
        DeletedSound(out, f.current.value);
        AddSegmentSound(Deleted(out, f.current.value));
      }
    } else {
      AddSegmentSound(out);
    }
  }

  /** Rolling keeps everything live and everything pinned, and leaks nothing. */
  lemma RolledOk(f: Files)
    requires FilesOk(f)
    ensures FilesOk(Rolled(f))
  {
    RolledSound(f);
  }

  /** What an append leaves of the live references and the issued bodies. */
  lemma OpenedFrame(f: Files)
    requires Sound(f)
    ensures var o := Opened(f);
            && Sound(o) && o.bodies == f.bodies && o.pins == f.pins && o.pinned == f.pinned
            && o.current.Some? && o.current.value in o.segments && o.current.value in o.refs
            && (forall g :: g in f.refs && f.refs[g] != multiset{} ==> g in o.refs)
            && (forall g :: g in o.refs ==> o.refs[g] == if g in f.refs then f.refs[g] else multiset{})
            && (forall g :: g in f.segments && f.current != Some(g) ==>
                  g in o.segments && o.segments[g] == f.segments[g])
            && (forall g :: g in o.segments && g !in f.segments ==> g == f.nextSegment)
            && f.nextSegment <= o.nextSegment && (o.current == f.current || o.current == Some(f.nextSegment))
            && (f.pins == 0 ==> o.deferred == f.deferred)
  {
    if NeedsRoll(f) { RolledSound(f); }
  }

  lemma OpenedCurrent(f: Files)
    requires Sound(f)
    ensures var o := Opened(f);
            && Sound(o) && o.bodies == f.bodies
            && o.current.Some? && o.current.value in o.segments && o.current.value in o.refs
  {
    hide Sound, Opened;
    OpenedFrame(f);
  }

  lemma AppendedOk(f: Files, body: Bytes)
    requires FilesOk(f)
    ensures var o := Opened(f);
            && o.current.Some? && o.current.value in o.segments && o.current.value in o.refs
            && FilesOk(o) && FilesOk(Written(o, o.current.value, body))
  {
    hide Counted, PinsHold;
    if NeedsRoll(f) { RolledOk(f); }
    var o := Opened(f);
    OpenHasRefs(o);
    WrittenSound(o, o.current.value, body);
  }

  lemma OpenHasRefs(f: Files)
    requires FilesOk(f)
    ensures f.refs.Keys == f.segments.Keys
  {
  }

  lemma CountedDownIntact(f: Files, r: SpillRef, x: SpillRef)
    requires r.segment in f.segments && r.segment in f.refs && Intact(f, x)
    ensures Intact(CountedDown(f, r), x)
  {
  }

  lemma CountedDownSound(f: Files, r: SpillRef)
    requires Sound(f) && r.segment in f.refs && r in f.refs[r.segment]
    ensures r.segment in f.segments && Sound(CountedDown(f, r))
  {
    hide Intact;
    var d := CountedDown(f, r);
    forall x | Intact(f, x) ensures Intact(d, x) { CountedDownIntact(f, r, x); }
    forall g, x | g in d.refs && x in d.refs[g] ensures x.segment == g && Intact(d, x) {
      assert x in f.refs[g];
    }
  }

  lemma RetiredOk(f: Files, g: nat)
    requires Sound(f) && g in f.segments && f.segments[g].live == 0 && f.current != Some(g)
    requires NoLeak(f) || NoLeak(f.(segments := f.segments - {g}))
    ensures FilesOk(Retired(f, g))
  {
    if f.pins > 0 {
      var d := Retired(f, g);
      forall x | Intact(f, x) ensures Intact(d, x) {}
    } else {
      DeletedSound(f, g);
    }
  }

  lemma ReleasedOk(f: Files, r: SpillRef)
    requires FilesOk(f) && (r.segment in f.refs ==> r in f.refs[r.segment])
    ensures FilesOk(ReleasedRef(f, r))
  {
    if r.segment in f.refs {
      hide NeverReused, Counted, PinsHold;
      CountedDownSound(f, r);
      var d := CountedDown(f, r);
      if d.segments[r.segment].live == 0 && f.current != Some(r.segment) {
        RetiredOk(d, r.segment);
      }
    }
  }

  lemma PinTakenOk(f: Files)
    requires FilesOk(f)
    ensures FilesOk(PinTaken(f))
  {
    var d := PinTaken(f);
    forall r | Intact(f, r) ensures Intact(d, r) {}
    forall r | r in LiveRefs(f) ensures Intact(f, r) {}
  }

  lemma {:induction false} ReclaimedOk(f: Files, ids: seq<nat>)
    requires Sound(f) && f.pins == 0 && f.deferred == []
    requires forall g :: g in f.segments && f.segments[g].live == 0 ==> f.current == Some(g) || g in ids
    requires forall g :: g in ids ==> f.current != Some(g)
    ensures FilesOk(Reclaimed(f, ids))
    decreases |ids|
  {
    hide NeverReused, Counted, PinsHold;
    if ids != [] {
      if ids[0] in f.segments && f.segments[ids[0]].live == 0 {
        DeletedSound(f, ids[0]);
        ReclaimedOk(Deleted(f, ids[0]), ids[1..]);
      } else {
        ReclaimedOk(f, ids[1..]);
      }
    }
  }

  lemma PinDroppedOk(f: Files, k: nat)
    requires FilesOk(f) && (f.pins > 0 ==> k < |f.pinned|)
    ensures FilesOk(PinDropped(f, k))
  {
    var d := if f.pins > 0 then f.(pins := f.pins - 1, pinned := f.pinned[..k] + f.pinned[k + 1..]) else f;
    var e := if d.pins == 0 then d.(deferred := []) else d;
    forall r | Intact(f, r) ensures Intact(e, r) {}
    assert Sound(e);
    if d.pins == 0 { ReclaimedOk(e, d.deferred); }
  }

  // ---------------------------------------------------------------- recovery

  ghost function CountOf(counts: map<nat, nat>, g: nat): nat {
    if g in counts then counts[g] else 0
  }

  ghost predicate Keeps(counts: map<nat, nat>, current: Option<nat>, g: nat) {
    CountOf(counts, g) > 0 || current == Some(g)
  }

  /** The segments once all but `todo` have been looked at. */
  ghost function Recounted(segments: map<nat, Segment>, current: Option<nat>, counts: map<nat, nat>, todo: set<nat>)
    : map<nat, Segment>
  {
    map g | g in segments && (g in todo || Keeps(counts, current, g)) ::
      if g in todo then segments[g] else segments[g].(live := CountOf(counts, g))
  }

  lemma RecountOne(segments: map<nat, Segment>, current: Option<nat>, counts: map<nat, nat>, todo: set<nat>, g: nat)
    requires g in todo && g in segments
    ensures var m := Recounted(segments, current, counts, todo);
            var n := Recounted(segments, current, counts, todo - {g});
            g in m && n == if Keeps(counts, current, g) then m[g := m[g].(live := CountOf(counts, g))] else m - {g}
  {
  }

  lemma RecountNone(segments: map<nat, Segment>, current: Option<nat>, counts: map<nat, nat>)
    ensures Recounted(segments, current, counts, segments.Keys) == segments
  {
  }

  lemma CountedAs(counts: map<nat, nat>, current: Option<nat>, g: nat)
    ensures CountOf(counts, g) == (if g in counts then counts[g] else 0)
    ensures Keeps(counts, current, g) <==> CountOf(counts, g) > 0 || current == Some(g)
  {
  }

  /** Set recovered live counts and reclaim what nothing refers to; `refs` and `bodies` are the references counted. */
  ghost function LiveSet(f: Files, counts: map<nat, nat>, refs: map<nat, multiset<SpillRef>>,
                         bodies: map<SpillRef, Bytes>): Files
  {
    var segments := Recounted(f.segments, f.current, counts, {});
    f.(segments := segments, refs := map g | g in segments :: if g in refs then refs[g] else multiset{},
       bodies := bodies)
  }

  /** `refs` is what the counts count, and its bodies are in the files. */
  ghost predicate Counts(f: Files, counts: map<nat, nat>, refs: map<nat, multiset<SpillRef>>, bodies: map<SpillRef,
                         Bytes>) {
    && (forall g :: g in refs ==> g in f.segments && CountOf(counts, g) == |refs[g]|)
    && (forall g :: g in counts && counts[g] > 0 ==> g in refs)
    && (forall g, r :: g in refs && r in refs[g] ==>
          r.segment == g && r in bodies && ReadAt(f.segments, r) == Some(bodies[r]))
  }

  lemma LiveSetExact(f: Files, counts: map<nat, nat>, refs: map<nat, multiset<SpillRef>>, bodies: map<SpillRef, Bytes>,
                     g: nat)
    requires Counts(f, counts, refs, bodies)
    ensures var d := LiveSet(f, counts, refs, bodies);
            g in d.segments ==>
              g in f.segments && d.segments[g].data == f.segments[g].data && d.segments[g].live == |d.refs[g]|
  {
    if g !in refs { assert CountOf(counts, g) == 0; }
  }

  lemma LiveSetIntact(f: Files, counts: map<nat, nat>, refs: map<nat, multiset<SpillRef>>, bodies: map<SpillRef, Bytes>,
                      g: nat, r: SpillRef)
    requires Counts(f, counts, refs, bodies)
    ensures var d := LiveSet(f, counts, refs, bodies);
            g in d.refs && r in d.refs[g] ==> r.segment == g && Intact(d, r)
  {
    var d := LiveSet(f, counts, refs, bodies);
    LiveSetExact(f, counts, refs, bodies, g);
    if g in d.refs && r in d.refs[g] {
      assert g in refs && r in refs[g];
    }
  }

  lemma LiveSetCounted(f: Files, counts: map<nat, nat>, refs: map<nat, multiset<SpillRef>>, bodies: map<SpillRef,
                       Bytes>)
    requires Counts(f, counts, refs, bodies)
    ensures Counted(LiveSet(f, counts, refs, bodies))
  {
    hide Counts, Recounted, Intact;
    var d := LiveSet(f, counts, refs, bodies);
    forall g | g in d.segments ensures d.segments[g].live == |d.refs[g]| { LiveSetExact(f, counts, refs, bodies, g); }
    forall g, r | g in d.refs && r in d.refs[g] ensures r.segment == g && Intact(d, r) {
      LiveSetIntact(f, counts, refs, bodies, g, r);
    }
  }

  /** After recovery the counts are exact and nothing is leaked, and exactly the unreferenced segments are gone. */
  lemma LiveSetOk(f: Files, counts: map<nat, nat>, refs: map<nat, multiset<SpillRef>>, bodies: map<SpillRef, Bytes>)
    requires NeverReused(f.(bodies := bodies)) && f.pins == 0 && f.pinned == [] && f.deferred == []
    requires Counts(f, counts, refs, bodies)
    ensures FilesOk(LiveSet(f, counts, refs, bodies))
    ensures forall g :: g in f.segments ==>
              (g in LiveSet(f, counts, refs, bodies).segments <==> Keeps(counts, f.current, g))
  {
    hide Counted, Counts;
    LiveSetCounted(f, counts, refs, bodies);
  }

  // ---------------------------------------------------------------- the store itself

  /** The counter a reopened store starts from: just past the greatest segment file left on disk. */
  ghost predicate IsNextAfter(ids: set<nat>, next: nat) {
    (forall g :: g in ids ==> g < next) && (next > 0 ==> next - 1 in ids)
  }

  method NextAfter(ids: set<nat>) returns (next: nat)
    ensures IsNextAfter(ids, next)
  {
    next := 0;
    var todo := ids;
    while todo != {}
      invariant todo <= ids && IsNextAfter(ids - todo, next)
      decreases todo
    {
      var g :| g in todo;
      assert ids - (todo - {g}) == (ids - todo) + {g};
      todo := todo - {g};
      next := if g + 1 > next then g + 1 else next;
    }
    assert ids - todo == ids;
  }

  class Spill {
    const id: nat
    var nextSegment: nat
    var current: Option<nat>
    var segments: map<nat, Segment>
    var pins: nat
    var deferred: seq<nat>
    ghost var refs: map<nat, multiset<SpillRef>>
    ghost var bodies: map<SpillRef, Bytes>
    ghost var pinned: seq<set<SpillRef>>

    ghost function State(): Files
      reads this
    {
      Files(nextSegment, current, segments, pins, deferred, refs, bodies, pinned)
    }

    ghost predicate Valid()
      reads this
    {
      FilesOk(State())
    }

    constructor (spillId: nat)
      ensures id == spillId && State() == NO_FILES && Valid()
    {
      id, nextSegment, current, segments, pins, deferred := spillId, 0, None, map[], 0, [];
      refs, bodies, pinned := map[], map[], [];
    }

    /** Reopen the segment files found on disk, with nothing counted live yet. */
    constructor Preserving(spillId: nat, files: map<nat, Bytes>)
      ensures id == spillId && Sound(State()) && pins == 0 && deferred == [] && current.None?
      ensures IsNextAfter(files.Keys, nextSegment)
      ensures segments == map g | g in files :: Segment(files[g], 0)
      ensures refs == (map g | g in files :: multiset{}) && bodies == map[]
    {
      var next := NextAfter(files.Keys);
      id, nextSegment, current, pins, deferred := spillId, next, None, 0, [];
      segments := map g | g in files :: Segment(files[g], 0);
      refs, bodies, pinned := (map g | g in files :: multiset{}), map[], [];
    }

    /** Make sure there is a current segment with room. */
    method OpenSegment()
      requires Sound(State())
      modifies this
      ensures State() == Opened(old(State()))
    {
      hide Sound;
      var roll := if current.Some? && current.value in segments
                  then |segments[current.value].data| >= SEGMENT_MAX_BYTES else true;
      if roll {
        if current.Some? && current.value in segments && segments[current.value].live == 0 {
          var gone := current.value;
          if pins > 0 {
            deferred := deferred + [gone];
          } else {
            segments, refs := segments - {gone}, refs - {gone};
          }
        }
        segments := segments[nextSegment := Segment([], 0)];
        refs := refs[nextSegment := multiset{}];
        current := Some(nextSegment);
        nextSegment := nextSegment + 1;
      }
    }

    /** Append one body, rolling the segment if needed. */
    method Append(body: Bytes) returns (r: SpillRef)
      requires Sound(State()) && |body| <= U32_MAX
      modifies this
      ensures Sound(State()) && (old(Valid()) ==> Valid())
      ensures var o := Opened(old(State()));
              && o.current.Some? && o.current.value in o.segments && o.current.value in o.refs
              && State() == Written(o, o.current.value, body)
              && r == SpillRef(o.current.value, |o.segments[o.current.value].data|, |body|)
      ensures ReadAt(segments, r) == Some(body) && (r in old(bodies) ==> old(bodies)[r] == body)
    {
      hide Sound, FilesOk, Opened, ReadAt;
      ghost var f := State();
      OpenedCurrent(f);
      if FilesOk(f) { AppendedOk(f, body); }
      WrittenSound(Opened(f), Opened(f).current.value, body);
      OpenSegment();
      var g := current.value;
      var seg := segments[g];
      r := SpillRef(g, |seg.data|, |body|);
      segments := segments[g := Segment(seg.data + body, seg.live + 1)];
      refs := refs[g := refs[g] + multiset{r}];
      bodies := bodies[r := body];
    }

    method Read(r: SpillRef) returns (body: Option<Bytes>)
      ensures body == ReadAt(segments, r)
    {
      if r.segment !in segments { return None; }
      var data := segments[r.segment].data;
      body := if r.offset + r.len <= |data| then Some(data[r.offset..r.offset + r.len]) else None;
    }

    /** A body was settled: count its segment down, and reclaim it when nothing in it is live. */
    method Release(r: SpillRef)
      requires Valid() && (r.segment in refs ==> r in refs[r.segment])
      modifies this
      ensures Valid() && State() == ReleasedRef(old(State()), r)
    {
      hide NeverReused, PinsHold, NoLeak;
      ReleasedOk(State(), r);
      if r.segment in segments {
        var left := SatSub(segments[r.segment].live, 1);
        segments := segments[r.segment := segments[r.segment].(live := left)];
        refs := refs[r.segment := refs[r.segment] - multiset{r}];
        if left == 0 && current != Some(r.segment) {
          if pins > 0 {
            deferred := deferred + [r.segment];
          } else {
            segments, refs := segments - {r.segment}, refs - {r.segment};
          }
        }
      }
    }

    method Pin()
      requires Valid()
      modifies this
      ensures Valid() && State() == PinTaken(old(State()))
    {
      PinTakenOk(State());
      pinned := pinned + [LiveRefs(State())];
      pins := pins + 1;
    }

    /** Drop a pin; the deferred deletions run when the last one goes. */
    method Unpin(ghost k: nat)
      requires Valid() && (pins > 0 ==> k < |pinned|)
      modifies this
      ensures Valid() && State() == PinDropped(old(State()), k)
    {
      PinDroppedOk(State(), k);
      if pins > 0 { pinned := pinned[..k] + pinned[k + 1..]; }
      pins := SatSub(pins, 1);
      if pins == 0 {
        var ids := deferred;
        deferred := [];
        var i := 0;
        assert ids[0..] == ids;
        while i < |ids|
          invariant 0 <= i <= |ids|
          invariant Reclaimed(State(), ids[i..]) == PinDropped(old(State()), k)
        {
          if ids[i] in segments && segments[ids[i]].live == 0 {
            segments, refs := segments - {ids[i]}, refs - {ids[i]};
          }
          assert ids[i..][1..] == ids[i + 1..];
          i := i + 1;
        }
      }
    }

    /** Recovery: set the live counts and reclaim the segments nothing refers to. */
    method SetLive(counts: map<nat, nat>, ghost newRefs: map<nat, multiset<SpillRef>>, ghost newBodies: map<SpillRef,
                   Bytes>)
      modifies this
      ensures State() == LiveSet(old(State()), counts, newRefs, newBodies)
    {
      hide Recounted, Keeps, CountOf;
      var todo := segments.Keys;
      ghost var f := State();
      RecountNone(segments, current, counts);
      while todo != {}
        invariant todo <= f.segments.Keys
        invariant State() == f.(segments := Recounted(f.segments, f.current, counts, todo))
        decreases todo
      {
        var g :| g in todo;
        RecountOne(f.segments, f.current, counts, todo, g);
        todo := todo - {g};
        var live := if g in counts then counts[g] else 0;
        CountedAs(counts, current, g);
        segments := segments[g := segments[g].(live := live)];
        if live == 0 && current != Some(g) {
          segments := segments - {g};
        }
      }
      refs := LiveSet(f, counts, newRefs, newBodies).refs;
      bodies := newBodies;
    }
  }

  // ---------------------------------------------------------------- the pin theorem

  datatype Op = OpAppend(body: Bytes) | OpRelease(ref: SpillRef) | OpPin | OpUnpin(which: nat)

  /** The operations the users of a spill store may issue in a state. */
  ghost predicate May(f: Files, op: Op) {
    match op
    case OpAppend(_) => true
    case OpRelease(r) => r.segment in f.refs && r in f.refs[r.segment]
    case OpPin => true
    case OpUnpin(k) => k < |f.pinned|
  }

  /** One operation, from any state whatever. */
  ghost function Do(f: Files, op: Op): Files
    requires May(f, op)
  {
    match op
    case OpAppend(body) => Written(Opened(f), Opened(f).current.value, body)
    case OpRelease(r) => ReleasedRef(f, r)
    case OpPin => PinTaken(f)
    case OpUnpin(k) => PinDropped(f, k)
  }

  lemma DoOk(f: Files, op: Op)
    requires FilesOk(f) && May(f, op)
    ensures FilesOk(Do(f, op))
  {
    match op
    case OpAppend(body) => AppendedOk(f, body);
    case OpRelease(r) => ReleasedOk(f, r);
    case OpPin => PinTakenOk(f);
    case OpUnpin(k) => PinDroppedOk(f, k);
  }

  ghost predicate IsPath(fs: seq<Files>, ops: seq<Op>) {
    && |fs| == |ops| + 1
    && forall i :: 0 <= i < |ops| ==> May(fs[i], ops[i]) && fs[i + 1] == Do(fs[i], ops[i])
  }

  ghost predicate IsRun(fs: seq<Files>, ops: seq<Op>) {
    IsPath(fs, ops) && fs[0] == NO_FILES
  }

  lemma {:induction false} EveryPathOk(fs: seq<Files>, ops: seq<Op>, n: nat)
    requires IsPath(fs, ops) && FilesOk(fs[0]) && n < |fs|
    ensures FilesOk(fs[n])
  {
    hide FilesOk, Do, May;
    if n > 0 {
      EveryPathOk(fs, ops, n - 1);
      DoOk(fs[n - 1], ops[n - 1]);
    }
  }

  /** In every run the counts are exact, live bodies intact, pinned bodies intact, and no dead segment is leaked. */
  lemma EveryRunOk(fs: seq<Files>, ops: seq<Op>, n: nat)
    requires IsRun(fs, ops) && n < |fs|
    ensures FilesOk(fs[n])
  {
    hide FilesOk, Do, May;
    NoFilesOk();
    EveryPathOk(fs, ops, n);
  }

  lemma NoFilesOk()
    ensures FilesOk(NO_FILES)
  {
  }

  // ---------------------------------------------------------------- what stays

  /** Segment numbers are not handed out again, files only grow, and what was issued is not forgotten. */
  ghost predicate Outgrows(f: Files, d: Files) {
    && f.nextSegment <= d.nextSegment
    && (forall r :: r in f.bodies ==> r in d.bodies && d.bodies[r] == f.bodies[r])
    && (forall g :: g in d.segments && g < f.nextSegment ==>
          g in f.segments && f.segments[g].data <= d.segments[g].data)
  }

  lemma OutgrowsTrans(a: Files, b: Files, c: Files)
    requires Outgrows(a, b) && Outgrows(b, c)
    ensures Outgrows(a, c)
  {
    forall g | g in c.segments && g < a.nextSegment
      ensures g in a.segments && a.segments[g].data <= c.segments[g].data
    {
      assert g in b.segments;
    }
  }

  lemma OpenedOutgrows(f: Files, body: Bytes)
    requires NeverReused(f)
    ensures var d := Written(Opened(f), Opened(f).current.value, body);
            && f.nextSegment <= d.nextSegment
            && (forall g :: g in d.segments && g < f.nextSegment ==>
                  g in f.segments && f.segments[g].data <= d.segments[g].data)
  {
  }

  lemma {:induction false} ReclaimedOnly(f: Files, ids: seq<nat>)
    ensures var d := Reclaimed(f, ids);
            && d.bodies == f.bodies && d.nextSegment == f.nextSegment
            && (forall g :: g in d.segments ==> g in f.segments && d.segments[g] == f.segments[g])
            && (forall g :: g in d.refs ==> g in f.refs && d.refs[g] == f.refs[g])
            && (forall g :: g in f.refs && g in f.segments && f.segments[g].live > 0 ==> g in d.refs)
    decreases |ids|
  {
    if ids != [] {
      ReclaimedOnly(if ids[0] in f.segments && f.segments[ids[0]].live == 0 then Deleted(f, ids[0]) else f, ids[1..]);
    }
  }

  /** A pin that goes takes no reference with it. */
  lemma UnpinnedRefs(f: Files, k: nat)
    requires Counted(f) && k < |f.pinned|
    ensures var d := PinDropped(f, k);
            && (forall g :: g in d.refs ==> g in f.refs && d.refs[g] == f.refs[g])
            && (forall g :: g in f.refs && f.refs[g] != multiset{} ==> g in d.refs)
  {
    hide Intact, Reclaimed;
    var d := if f.pins > 0 then f.(pins := f.pins - 1, pinned := f.pinned[..k] + f.pinned[k + 1..]) else f;
    ReclaimedOnly(d.(deferred := []), d.deferred);
  }

  lemma RetiredOutgrows(f: Files, g: nat)
    ensures Outgrows(f, Retired(f, g))
  {
  }

  lemma CountedDownOutgrows(f: Files, r: SpillRef)
    requires r.segment in f.segments
    ensures Outgrows(f, CountedDown(f, r))
  {
  }

  lemma ReleasedOutgrows(f: Files, r: SpillRef)
    ensures Outgrows(f, ReleasedRef(f, r))
  {
    hide Outgrows, Retired, CountedDown;
    if r.segment in f.segments {
      var d := CountedDown(f, r);
      CountedDownOutgrows(f, r);
      RetiredOutgrows(d, r.segment);
      OutgrowsTrans(f, d, Retired(d, r.segment));
    } else {
      OutgrowsItself(f);
    }
  }

  lemma OutgrowsItself(f: Files)
    ensures Outgrows(f, f)
  {
  }

  lemma AppendOutgrows(f: Files, body: Bytes)
    requires FilesOk(f)
    ensures Outgrows(f, Written(Opened(f), Opened(f).current.value, body))
  {
    hide Opened;
    OpenedOutgrows(f, body);
    OpenedFrame(f);
    WrittenSound(Opened(f), Opened(f).current.value, body);
  }

  lemma DoOutgrows(f: Files, op: Op)
    requires FilesOk(f) && May(f, op)
    ensures Outgrows(f, Do(f, op))
  {
    hide FilesOk, ReleasedRef, Opened;
    match op
    case OpAppend(body) => AppendOutgrows(f, body);
    case OpRelease(r) => ReleasedOutgrows(f, r);
    case OpPin =>
    case OpUnpin(k) =>
      var d := if f.pins > 0 then f.(pins := f.pins - 1, pinned := f.pinned[..k] + f.pinned[k + 1..]) else f;
      ReclaimedOnly(d.(deferred := []), d.deferred);
  }

  lemma {:induction false} PathOutgrows(fs: seq<Files>, ops: seq<Op>, a: nat, n: nat)
    requires IsPath(fs, ops) && FilesOk(fs[0]) && a <= n < |fs|
    ensures Outgrows(fs[a], fs[n])
    decreases n - a
  {
    hide FilesOk, Do, May;
    if a < n {
      PathOutgrows(fs, ops, a, n - 1);
      EveryPathOk(fs, ops, n - 1);
      DoOutgrows(fs[n - 1], ops[n - 1]);
      OutgrowsTrans(fs[a], fs[n - 1], fs[n]);
    }
  }

  /** A segment is kept for what is live in it, or because it is the current one. */
  ghost predicate KeptFor(f: Files, g: nat) {
    f.current == Some(g) || (g in f.refs && f.refs[g] != multiset{})
  }

  lemma KeptIff(f: Files, g: nat)
    requires FilesOk(f)
    ensures KeptFor(f, g) ==> g in f.segments
    ensures f.pins == 0 && g in f.segments ==> KeptFor(f, g)
  {
    hide Intact;
  }

  /** A body that was live once: where its segment is still there, and only there, it reads as it did. */
  lemma ReadsWhileThere(f: Files, d: Files, r: SpillRef)
    requires FilesOk(f) && FilesOk(d) && Outgrows(f, d) && r.segment in f.refs && r in f.refs[r.segment]
    ensures ReadAt(f.segments, r).Some?
    ensures r.segment in d.segments ==> ReadAt(d.segments, r) == ReadAt(f.segments, r)
    ensures r.segment !in d.segments ==> ReadAt(d.segments, r).None?
  {
    hide PinsHold, NoLeak;
    assert Intact(f, r);
    if r.segment in d.segments {
      var a, b := f.segments[r.segment].data, d.segments[r.segment].data;
      assert a == b[..|a|];
      assert a[r.offset..r.offset + r.len] == b[r.offset..r.offset + r.len];
    }
  }

  /**
   * From any store in order, in every run: a reference live at some moment can be read later, once nothing is
   * pinned, if and only if its segment still holds something live or is the current one; and then it reads the
   * same bytes, whatever was appended, released, rolled, pinned and unpinned in between.
   */
  lemma StillReadableIff(fs: seq<Files>, ops: seq<Op>, a: nat, n: nat, r: SpillRef)
    requires IsPath(fs, ops) && FilesOk(fs[0]) && a <= n < |fs| && fs[n].pins == 0
    requires r.segment in fs[a].refs && r in fs[a].refs[r.segment]
    ensures ReadAt(fs[n].segments, r).Some? <==> KeptFor(fs[n], r.segment)
    ensures KeptFor(fs[n], r.segment) ==> ReadAt(fs[n].segments, r) == ReadAt(fs[a].segments, r)
  {
    hide IsPath, FilesOk, KeptFor;
    EveryPathOk(fs, ops, a);
    EveryPathOk(fs, ops, n);
    PathOutgrows(fs, ops, a, n);
    ReadsWhileThere(fs[a], fs[n], r);
    KeptIff(fs[n], r.segment);
  }

  /**
   * A reference live at some moment reads the same bytes at every later moment at which it is still live or
   * still protected by a pin, whatever happened in between.
   */
  lemma ProtectedReadsTheSame(fs: seq<Files>, ops: seq<Op>, a: nat, n: nat, r: SpillRef)
    requires IsPath(fs, ops) && FilesOk(fs[0]) && a <= n < |fs|
    requires r.segment in fs[a].refs && r in fs[a].refs[r.segment]
    requires (r.segment in fs[n].refs && r in fs[n].refs[r.segment]) ||
             exists i :: 0 <= i < |fs[n].pinned| && r in fs[n].pinned[i]
    ensures ReadAt(fs[a].segments, r).Some? && ReadAt(fs[n].segments, r) == ReadAt(fs[a].segments, r)
  {
    hide IsPath, Outgrows;
    EveryPathOk(fs, ops, a);
    EveryPathOk(fs, ops, n);
    PathOutgrows(fs, ops, a, n);
    assert Intact(fs[n], r);
    ReadsWhileThere(fs[a], fs[n], r);
  }
}
