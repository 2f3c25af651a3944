/**
 * A quorum queue's replicated state machine (ramqp-broker/src/cluster/queue_group.rs). Bodies beyond the
 * resident budget are spilled to this replica's own files; what is replicated is a plain map from ids to
 * (body, failures, time), and that is what the state machine is proved to be.
 */
module QueueGroup {
  import opened Collections
  import opened Dispatch
  import opened Paging

  datatype Command = Enqueue(body: Bytes, enqueuedMs: nat) | Settle(msgId: nat, requeue: bool)

  datatype Response = Enqueued(msgId: nat) | Settled | NotFound

  datatype PlainMessage = PlainMessage(body: Bytes, failures: nat, enqueuedMs: nat)

  datatype Plain = Plain(nextMsgId: nat, messages: map<nat, PlainMessage>)

  /** The replicated meaning of a command: no files, no budget. */
  function ApplyPlain(p: Plain, cmd: Command): (Plain, Response) {
    match cmd
    case Enqueue(body, ms) =>
      var id := p.nextMsgId + 1;
      (Plain(id, p.messages[id := PlainMessage(body, 0, ms)]), Enqueued(id))
    case Settle(id, requeue) =>
      if id !in p.messages then (p, NotFound)
      else if requeue then
        (p.(messages := p.messages[id := p.messages[id].(failures := p.messages[id].failures + 1)]), Settled)
      else (p.(messages := p.messages - {id}), Settled)
  }

  function RunPlain(p: Plain, cmds: seq<Command>): (Plain, seq<Response>) {
    if cmds == [] then (p, []) else
      var (q, rs) := RunPlain(p, cmds[..|cmds| - 1]);
      var (r, x) := ApplyPlain(q, cmds[|cmds| - 1]);
      (r, rs + [x])
  }

  // ---------------------------------------------------------------- stored messages

  datatype StoredBody = Resident(bytes: Bytes) | Spilled(ref: SpillRef)

  datatype Message = Message(body: StoredBody, failures: nat, enqueuedMs: nat)

  function ResidentSize(m: Message): nat {
    if m.body.Resident? then |m.body.bytes| else 0
  }

  ghost function BodyMeaning(b: StoredBody, bodies: map<SpillRef, Bytes>): Bytes {
    match b
    case Resident(bytes) => bytes
    case Spilled(r) => if r in bodies then bodies[r] else []
  }

  ghost function Meaning(ms: map<nat, Message>, bodies: map<SpillRef, Bytes>): map<nat, PlainMessage> {
    map id | id in ms :: PlainMessage(BodyMeaning(ms[id].body, bodies), ms[id].failures, ms[id].enqueuedMs)
  }

  ghost function RefOf(b: StoredBody, g: nat): multiset<SpillRef> {
    if b.Spilled? && b.ref.segment == g then multiset{b.ref} else multiset{}
  }

  /** The references into segment `g` held by the messages. */
  ghost function RefsIn(ms: map<nat, Message>, g: nat): multiset<SpillRef> {
    if ms == map[] then multiset{} else
      var id :| id in ms;
      RefOf(ms[id].body, g) + RefsIn(ms - {id}, g)
  }

  /** Any message may be split off first. */
  lemma {:induction false} RefsRemove(ms: map<nat, Message>, id: nat, g: nat)
    requires id in ms
    ensures RefsIn(ms, g) == RefOf(ms[id].body, g) + RefsIn(ms - {id}, g)
    decreases |ms|
  {
    hide RefOf, RefsIn;
    var k := RefsPick(ms, g);
    if k != id {
      RefsRemove(ms - {k}, id, g);
      RefsRemove(ms - {id}, k, g);
      assert (ms - {k}) - {id} == (ms - {id}) - {k};
    }
  }

  lemma RefsPick(ms: map<nat, Message>, g: nat) returns (k: nat)
    requires ms != map[]
    ensures k in ms && RefsIn(ms, g) == RefOf(ms[k].body, g) + RefsIn(ms - {k}, g)
  {
    hide RefOf;
    k :| k in ms && RefsIn(ms, g) == RefOf(ms[k].body, g) + RefsIn(ms - {k}, g);
  }

  lemma RefsInsert(ms: map<nat, Message>, id: nat, m: Message, g: nat)
    requires id !in ms
    ensures RefsIn(ms[id := m], g) == RefOf(m.body, g) + RefsIn(ms, g)
  {
    hide RefOf, RefsIn;
    RefsRemove(ms[id := m], id, g);
    assert ms[id := m] - {id} == ms;
  }

  /** Keeping a message's body keeps its reference. */
  lemma RefsSame(ms: map<nat, Message>, id: nat, m: Message, g: nat)
    requires id in ms && m.body == ms[id].body
    ensures RefsIn(ms[id := m], g) == RefsIn(ms, g)
  {
    hide RefOf, RefsIn;
    RefsRemove(ms, id, g);
    RefsRemove(ms[id := m], id, g);
    assert ms[id := m] - {id} == ms - {id};
  }

  lemma {:induction false} RefsNamed(ms: map<nat, Message>, g: nat, r: SpillRef)
    requires r in RefsIn(ms, g)
    ensures r.segment == g && exists id :: id in ms && ms[id].body == Spilled(r)
    decreases |ms|
  {
    hide RefsIn;
    NoRefs(g);
    var k := RefsPick(ms, g);
    if r in RefsIn(ms - {k}, g) {
      RefsNamed(ms - {k}, g, r);
      var id :| id in ms - {k} && (ms - {k})[id].body == Spilled(r);
      assert id in ms && ms[id].body == Spilled(r);
    } else {
      assert r in RefOf(ms[k].body, g);
      assert ms[k].body == Spilled(r);
    }
  }

  lemma NoRefs(g: nat)
    ensures RefsIn(map[], g) == multiset{}
  {
  }

  // ---------------------------------------------------------------- invariant

  /** The spill store's live references are exactly the ones the messages hold. */
  ghost predicate RefsMatch(ms: map<nat, Message>, refs: map<nat, multiset<SpillRef>>) {
    && (forall g :: g in refs ==> refs[g] == RefsIn(ms, g))
    && (forall id :: id in ms && ms[id].body.Spilled? ==> ms[id].body.ref.segment in refs)
  }

  predicate MustSpill(budget: Option<nat>, resident: nat, body: Bytes) {
    budget.Some? && resident + |body| > budget.value
  }

  ghost predicate Budgeted(ms: map<nat, Message>, resident: nat, budget: Option<nat>) {
    && resident == SumMap(ms, ResidentSize)
    && (budget.Some? ==> resident <= budget.value)
    && (budget.None? ==> forall id :: id in ms ==> ms[id].body.Resident?)
  }

  ghost predicate Issued(ms: map<nat, Message>, next: nat) {
    forall id :: id in ms ==> 1 <= id <= next
  }

  lemma HeldRef(ms: map<nat, Message>, refs: map<nat, multiset<SpillRef>>, id: nat)
    requires RefsMatch(ms, refs) && id in ms && ms[id].body.Spilled?
    ensures ms[id].body.ref.segment in refs && ms[id].body.ref in refs[ms[id].body.ref.segment]
  {
    RefsRemove(ms, id, ms[id].body.ref.segment);
  }

  lemma StoredResident(ms: map<nat, Message>, refs: map<nat, multiset<SpillRef>>, id: nat, m: Message)
    requires RefsMatch(ms, refs) && id !in ms && m.body.Resident?
    ensures RefsMatch(ms[id := m], refs)
  {
    forall g | g in refs ensures refs[g] == RefsIn(ms[id := m], g) { RefsInsert(ms, id, m, g); }
  }

  /** Storing a spilled body adds its reference, wherever the store put it. */
  lemma StoredSpilled(ms: map<nat, Message>, f: Files, id: nat, m: Message, body: Bytes)
    requires RefsMatch(ms, f.refs) && Sound(f) && id !in ms
    requires var o := Opened(f);
             && o.current.Some? && o.current.value in o.segments && o.current.value in o.refs
             && m.body == Spilled(SpillRef(o.current.value, |o.segments[o.current.value].data|, |body|))
    ensures var o := Opened(f); RefsMatch(ms[id := m], Written(o, o.current.value, body).refs)
  {
    hide Opened, Sound, RefsIn;
    OpenedFrame(f);
    var o := Opened(f);
    var d := Written(o, o.current.value, body);
    forall g | g in d.refs ensures d.refs[g] == RefsIn(ms[id := m], g) {
      RefsInsert(ms, id, m, g);
      if g !in f.refs { NoRefsElsewhere(ms, f.refs, g); }
    }
    forall k | k in ms && ms[k].body.Spilled? ensures ms[k].body.ref.segment in d.refs {
      HeldRef(ms, f.refs, k);
    }
  }

  lemma NoRefsElsewhere(ms: map<nat, Message>, refs: map<nat, multiset<SpillRef>>, g: nat)
    requires RefsMatch(ms, refs) && g !in refs
    ensures RefsIn(ms, g) == multiset{}
  {
    hide RefsIn;
    forall r ensures r !in RefsIn(ms, g) {
      if r in RefsIn(ms, g) { RefsNamed(ms, g, r); }
    }
  }

  /** Two messages spilled into one segment: both references are there. */
  lemma OtherRef(ms: map<nat, Message>, id: nat, k: nat)
    requires id in ms && k in ms && id != k && ms[k].body.Spilled?
    ensures var g := ms[k].body.ref.segment;
            RefsIn(ms, g) == RefOf(ms[id].body, g) + RefsIn(ms - {id}, g) && |RefsIn(ms - {id}, g)| > 0
  {
    hide RefsIn;
    var g := ms[k].body.ref.segment;
    RefsRemove(ms, id, g);
    RefsRemove(ms - {id}, k, g);
    assert ms[k].body.ref in RefsIn(ms - {id}, g);
  }

  /** What a release leaves of the live references. */
  lemma ReleasedRefs(f: Files, r: SpillRef)
    requires Counted(f) && r.segment in f.refs && r in f.refs[r.segment]
    ensures var d := ReleasedRef(f, r);
            && d.bodies == f.bodies
            && (forall g :: g in d.refs ==>
                 g in f.refs && d.refs[g] == if g == r.segment then f.refs[g] - multiset{r} else f.refs[g])
            && (forall g :: g in f.refs && (g != r.segment || |f.refs[g] - multiset{r}| > 0) ==> g in d.refs)
  {
    hide Intact, Retired;
    var d := CountedDown(f, r);
    assert |d.refs[r.segment]| == d.segments[r.segment].live;
    RetiredRefs(d, r.segment);
  }

  lemma RetiredRefs(f: Files, g: nat)
    ensures var d := Retired(f, g);
            && d.bodies == f.bodies
            && (forall h :: h in d.refs ==> h in f.refs && d.refs[h] == f.refs[h])
            && (forall h :: h in f.refs && h != g ==> h in d.refs)
  {
  }

  lemma UnstoredResident(ms: map<nat, Message>, refs: map<nat, multiset<SpillRef>>, id: nat)
    requires RefsMatch(ms, refs) && id in ms && ms[id].body.Resident?
    ensures RefsMatch(ms - {id}, refs)
  {
    hide RefsIn;
    forall g | g in refs ensures refs[g] == RefsIn(ms - {id}, g) { RefsRemove(ms, id, g); }
  }

  lemma UnstoredSpilled(ms: map<nat, Message>, f: Files, id: nat)
    requires RefsMatch(ms, f.refs) && Counted(f) && id in ms && ms[id].body.Spilled?
    ensures RefsMatch(ms - {id}, ReleasedRef(f, ms[id].body.ref).refs)
  {
    hide RefsIn, Counted, ReleasedRef;
    var b := ms[id].body;
    var d := ReleasedRef(f, b.ref);
    HeldRef(ms, f.refs, id);
    ReleasedRefs(f, b.ref);
    forall g | g in d.refs ensures d.refs[g] == RefsIn(ms - {id}, g) { RefsRemove(ms, id, g); }
    forall k | k in ms - {id} && ms[k].body.Spilled? ensures ms[k].body.ref.segment in d.refs {
      OtherRef(ms, id, k);
      if b.ref.segment == ms[k].body.ref.segment {
        assert f.refs[b.ref.segment] - multiset{b.ref} == RefsIn(ms - {id}, b.ref.segment);
      }
    }
  }

  lemma Restored(ms: map<nat, Message>, refs: map<nat, multiset<SpillRef>>, id: nat, m: Message)
    requires RefsMatch(ms, refs) && id in ms && m.body == ms[id].body
    ensures RefsMatch(ms[id := m], refs)
  {
    hide RefsIn;
    forall g | g in refs ensures refs[g] == RefsIn(ms[id := m], g) { RefsSame(ms, id, m, g); }
  }

  lemma BudgetedInsert(ms: map<nat, Message>, resident: nat, budget: Option<nat>, id: nat, m: Message)
    requires Budgeted(ms, resident, budget) && id !in ms
    requires if m.body.Resident? then !MustSpill(budget, resident, m.body.bytes) else budget.Some?
    ensures Budgeted(ms[id := m], resident + ResidentSize(m), budget)
  {
    SumMapInsert(ms, id, m, ResidentSize);
  }

  lemma BudgetedRemove(ms: map<nat, Message>, resident: nat, budget: Option<nat>, id: nat)
    requires Budgeted(ms, resident, budget) && id in ms
    ensures Budgeted(ms - {id}, SatSub(resident, ResidentSize(ms[id])), budget)
  {
    SumMapRemove(ms, id, ResidentSize);
  }

  lemma BudgetedSame(ms: map<nat, Message>, resident: nat, budget: Option<nat>, id: nat, m: Message)
    requires Budgeted(ms, resident, budget) && id in ms && m.body == ms[id].body
    ensures Budgeted(ms[id := m], resident, budget)
  {
    SumMapRemove(ms, id, ResidentSize);
    SumMapRemove(ms[id := m], id, ResidentSize);
    assert ms[id := m] - {id} == ms - {id};
  }

  lemma MeaningInsert(ms: map<nat, Message>, bodies: map<SpillRef, Bytes>, id: nat, m: Message)
    ensures Meaning(ms[id := m], bodies) ==
            Meaning(ms, bodies)[id := PlainMessage(BodyMeaning(m.body, bodies), m.failures, m.enqueuedMs)]
  {
  }

  lemma MeaningRemove(ms: map<nat, Message>, bodies: map<SpillRef, Bytes>, id: nat)
    ensures Meaning(ms - {id}, bodies) == Meaning(ms, bodies) - {id}
  {
  }

  // ---------------------------------------------------------------- a replica's state

  /** Everything a replica holds. */
  datatype Replica = Replica(nextMsgId: nat, messages: map<nat, Message>, residentBytes: nat, files: Files)

  ghost predicate ReplicaOk(s: Replica, budget: Option<nat>) {
    && FilesOk(s.files)
    && RefsMatch(s.messages, s.files.refs)
    && Budgeted(s.messages, s.residentBytes, budget)
    && Issued(s.messages, s.nextMsgId)
  }

  ghost function Abs(s: Replica): Plain {
    Plain(s.nextMsgId, Meaning(s.messages, s.files.bodies))
  }

  /** The meaning of a spilled body is what its reference reads. */
  lemma SpilledReads(s: Replica, budget: Option<nat>, id: nat)
    requires ReplicaOk(s, budget) && id in s.messages && s.messages[id].body.Spilled?
    ensures var r := s.messages[id].body.ref;
            r in s.files.bodies && ReadAt(s.files.segments, r) == Some(s.files.bodies[r])
            && r.segment in s.files.refs && r in s.files.refs[r.segment]
  {
    hide NeverReused, PinsHold, NoLeak, Budgeted, Issued;
    HeldRef(s.messages, s.files.refs, id);
    assert Intact(s.files, s.messages[id].body.ref);
  }

  // ---------------------------------------------------------------- one command

  ghost function Stored(s: Replica, id: nat, m: Message, f: Files): Replica {
    Replica(id, s.messages[id := m], s.residentBytes + ResidentSize(m), f)
  }

  /** A body kept in memory. */
  lemma EnqueueResident(s: Replica, budget: Option<nat>, body: Bytes, ms: nat)
    requires ReplicaOk(s, budget) && !MustSpill(budget, s.residentBytes, body)
    ensures var m := Message(Resident(body), 0, ms);
            var t := Stored(s, s.nextMsgId + 1, m, s.files);
            ReplicaOk(t, budget) && (Abs(t), Enqueued(t.nextMsgId)) == ApplyPlain(Abs(s), Enqueue(body, ms))
  {
    hide FilesOk, RefsMatch, Budgeted, Meaning;
    var m := Message(Resident(body), 0, ms);
    var id := s.nextMsgId + 1;
    assert id !in s.messages;
    StoredResident(s.messages, s.files.refs, id, m);
    BudgetedInsert(s.messages, s.residentBytes, budget, id, m);
    MeaningInsert(s.messages, s.files.bodies, id, m);
  }

  lemma MeaningKept(s: Replica, budget: Option<nat>, bodies: map<SpillRef, Bytes>)
    requires ReplicaOk(s, budget)
    requires forall r :: r in s.files.bodies ==> r in bodies && bodies[r] == s.files.bodies[r]
    ensures Meaning(s.messages, bodies) == Meaning(s.messages, s.files.bodies)
  {
    hide ReplicaOk;
    forall id | id in s.messages && s.messages[id].body.Spilled?
      ensures s.messages[id].body.ref in s.files.bodies
    {
      SpilledReads(s, budget, id);
    }
  }

  /** A body written to the files. */
  lemma EnqueueSpilled(s: Replica, budget: Option<nat>, body: Bytes, ms: nat, f: Files, r: SpillRef)
    requires ReplicaOk(s, budget) && budget.Some? && FilesOk(f)
    requires var o := Opened(s.files);
             && o.current.Some? && o.current.value in o.segments && o.current.value in o.refs
             && f == Written(o, o.current.value, body)
             && r == SpillRef(o.current.value, |o.segments[o.current.value].data|, |body|)
    requires r in s.files.bodies ==> s.files.bodies[r] == body
    ensures var m := Message(Spilled(r), 0, ms);
            var t := Stored(s, s.nextMsgId + 1, m, f);
            ReplicaOk(t, budget) && (Abs(t), Enqueued(t.nextMsgId)) == ApplyPlain(Abs(s), Enqueue(body, ms))
  {
    hide NeverReused, Counted, PinsHold, NoLeak, RefsMatch, Budgeted, Opened, Meaning;
    var m := Message(Spilled(r), 0, ms);
    var id := s.nextMsgId + 1;
    assert id !in s.messages;
    OpenedFrame(s.files);
    StoredSpilled(s.messages, s.files, id, m, body);
    BudgetedInsert(s.messages, s.residentBytes, budget, id, m);
    MeaningKept(s, budget, f.bodies);
    MeaningInsert(s.messages, f.bodies, id, m);
  }

  ghost function Dropped(s: Replica, id: nat): Replica
    requires id in s.messages
  {
    var b := s.messages[id].body;
    Replica(s.nextMsgId, s.messages - {id}, SatSub(s.residentBytes, ResidentSize(s.messages[id])),
            if b.Spilled? then ReleasedRef(s.files, b.ref) else s.files)
  }

  /** A message settled for good. */
  lemma SettleRemoves(s: Replica, budget: Option<nat>, id: nat)
    requires ReplicaOk(s, budget) && id in s.messages
    ensures ReplicaOk(Dropped(s, id), budget)
    ensures (Abs(Dropped(s, id)), Settled) == ApplyPlain(Abs(s), Settle(id, false))
    ensures var b := s.messages[id].body;
            b.Spilled? ==> b.ref.segment in s.files.refs && b.ref in s.files.refs[b.ref.segment]
  {
    hide NeverReused, Counted, PinsHold, NoLeak, RefsMatch, ReleasedRef, Budgeted, Meaning;
    var b := s.messages[id].body;
    if b.Spilled? {
      HeldRef(s.messages, s.files.refs, id);
      ReleasedOk(s.files, b.ref);
      ReleasedRefs(s.files, b.ref);
      UnstoredSpilled(s.messages, s.files, id);
    } else {
      UnstoredResident(s.messages, s.files.refs, id);
    }
    BudgetedRemove(s.messages, s.residentBytes, budget, id);
    MeaningRemove(s.messages, s.files.bodies, id);
    MeaningKeys(s.messages, s.files.bodies);
  }

  lemma MeaningKeys(ms: map<nat, Message>, bodies: map<SpillRef, Bytes>)
    ensures Meaning(ms, bodies).Keys == ms.Keys
    ensures forall id :: id in ms ==>
              Meaning(ms, bodies)[id] == PlainMessage(BodyMeaning(ms[id].body, bodies), ms[id].failures,
                                                      ms[id].enqueuedMs)
  {
  }

  /** A message returned to the queue. */
  lemma SettleRequeues(s: Replica, budget: Option<nat>, id: nat)
    requires ReplicaOk(s, budget) && id in s.messages
    ensures var m := s.messages[id];
            var t := s.(messages := s.messages[id := m.(failures := m.failures + 1)]);
            ReplicaOk(t, budget) && (Abs(t), Settled) == ApplyPlain(Abs(s), Settle(id, true))
  {
    hide FilesOk, RefsMatch, Budgeted, Meaning;
    var m := s.messages[id];
    var n := m.(failures := m.failures + 1);
    Restored(s.messages, s.files.refs, id, n);
    BudgetedSame(s.messages, s.residentBytes, budget, id, n);
    MeaningInsert(s.messages, s.files.bodies, id, n);
    MeaningKeys(s.messages, s.files.bodies);
  }

  /** Where an append puts a body, and the files it leaves. */
  ghost function NewRef(f: Files, body: Bytes): SpillRef {
    SpillRef(Opened(f).current.value, |Opened(f).segments[Opened(f).current.value].data|, |body|)
  }

  ghost function Appended(f: Files, body: Bytes): Files {
    Written(Opened(f), Opened(f).current.value, body)
  }

  /** What a replica becomes by one command. */
  ghost function ApplyTo(s: Replica, budget: Option<nat>, cmd: Command): Replica {
    match cmd
    case Enqueue(body, ms) =>
      if MustSpill(budget, s.residentBytes, body) then
        Stored(s, s.nextMsgId + 1, Message(Spilled(NewRef(s.files, body)), 0, ms), Appended(s.files, body))
      else Stored(s, s.nextMsgId + 1, Message(Resident(body), 0, ms), s.files)
    case Settle(id, requeue) =>
      if id !in s.messages then s
      else if requeue then
        s.(messages := s.messages[id := s.messages[id].(failures := s.messages[id].failures + 1)])
      else Dropped(s, id)
  }

  lemma SpillKeepsOk(s: Replica, budget: Option<nat>, body: Bytes, ms: nat)
    requires ReplicaOk(s, budget) && budget.Some?
    ensures var t := Stored(s, s.nextMsgId + 1, Message(Spilled(NewRef(s.files, body)), 0, ms),
                            Appended(s.files, body));
            && ReplicaOk(t, budget) && (Abs(t), Enqueued(t.nextMsgId)) == ApplyPlain(Abs(s), Enqueue(body, ms))
            && Outgrows(s.files, t.files)
  {
    hide Sound, NeverReused, Counted, PinsHold, NoLeak, RefsMatch, Budgeted, Issued, Opened, Abs, ApplyPlain;
    SoundWhenOk(s.files);
    AppendedOk(s.files, body);
    OpenedFrame(s.files);
    WrittenSound(Opened(s.files), Opened(s.files).current.value, body);
    EnqueueSpilled(s, budget, body, ms, Appended(s.files, body), NewRef(s.files, body));
    AppendOutgrows(s.files, body);
  }

  /** One command keeps a replica in order, means what the plain map says, and never hands out a number again. */
  lemma ApplyToOk(s: Replica, budget: Option<nat>, cmd: Command)
    requires ReplicaOk(s, budget)
    ensures ReplicaOk(ApplyTo(s, budget, cmd), budget) && Abs(ApplyTo(s, budget, cmd)) == ApplyPlain(Abs(s), cmd).0
    ensures Outgrows(s.files, ApplyTo(s, budget, cmd).files)
  {
    hide ReplicaOk, Outgrows, Meaning, ReleasedRef, NewRef, Appended;
    OutgrowsItself(s.files);
    MeaningKeys(s.messages, s.files.bodies);
    match cmd
    case Enqueue(body, ms) =>
      if MustSpill(budget, s.residentBytes, body) {
        SpillKeepsOk(s, budget, body, ms);
      } else {
        EnqueueResident(s, budget, body, ms);
      }
    case Settle(id, requeue) =>
      if id in s.messages {
        if requeue {
          SettleRequeues(s, budget, id);
        } else {
          SettleRemoves(s, budget, id);
          if s.messages[id].body.Spilled? { ReleasedOutgrows(s.files, s.messages[id].body.ref); }
        }
      }
  }

  // ---------------------------------------------------------------- the state machine itself

  class QueueState {
    var nextMsgId: nat
    var messages: map<nat, Message>
    var residentBytes: nat
    const budget: Option<nat>  // resident_max_bytes; None: no paging
    const spill: Spill

    ghost function State(): Replica
      reads this, spill
    {
      Replica(nextMsgId, messages, residentBytes, spill.State())
    }

    ghost predicate Valid()
      reads this, spill
    {
      ReplicaOk(State(), budget)
    }

    ghost function Contents(): Plain
      reads this, spill
    {
      Abs(State())
    }

    constructor (store: Spill, maxResident: Option<nat>)
      ensures spill == store && budget == maxResident
      ensures nextMsgId == 0 && messages == map[] && residentBytes == 0
      ensures store.Valid() && store.refs == map[] ==> Valid() && Contents() == Plain(0, map[])
    {
      nextMsgId, messages, residentBytes := 0, map[], 0;
      spill, budget := store, maxResident;
    }

    /** Keep the body in memory while it fits the budget, else write it to the spill files. */
    method StoreBody(body: Bytes) returns (stored: StoredBody)
      requires Sound(spill.State()) && |body| <= U32_MAX
      modifies `residentBytes, spill
      ensures Sound(spill.State()) && (old(spill.Valid()) ==> spill.Valid())
      ensures !MustSpill(budget, old(residentBytes), body) ==>
                (stored == Resident(body) && residentBytes == old(residentBytes) + |body| &&
                 spill.State() == old(spill.State()))
      ensures MustSpill(budget, old(residentBytes), body) ==>
                (residentBytes == old(residentBytes) && stored.Spilled? &&
                 var o := Opened(old(spill.State()));
                 && o.current.Some? && o.current.value in o.segments && o.current.value in o.refs
                 && spill.State() == Written(o, o.current.value, body)
                 && stored.ref == SpillRef(o.current.value, |o.segments[o.current.value].data|, |body|)
                 && (stored.ref in old(spill.bodies) ==> old(spill.bodies)[stored.ref] == body))
    {
      hide Sound, FilesOk, Opened;
      if budget.Some? && residentBytes + |body| > budget.value {
        var r := spill.Append(body);
        return Spilled(r);
      }
      residentBytes := residentBytes + |body|;
      stored := Resident(body);
    }

    method EnqueueBody(body: Bytes, enqueuedMs: nat) returns (msgId: nat)
      requires Valid() && |body| <= U32_MAX
      modifies this, spill
      ensures Valid() && (Contents(), Enqueued(msgId)) == ApplyPlain(old(Contents()), Enqueue(body, enqueuedMs))
      ensures State() == ApplyTo(old(State()), budget, Enqueue(body, enqueuedMs))
    {
      hide Sound, NeverReused, Counted, PinsHold, NoLeak, RefsMatch, Budgeted, Issued, Opened, Abs, ApplyPlain;
      ghost var s := State();
      SoundWhenOk(s.files);
      nextMsgId := nextMsgId + 1;
      msgId := nextMsgId;
      var stored := StoreBody(body);
      messages := messages[msgId := Message(stored, 0, enqueuedMs)];
      if stored.Resident? {
        EnqueueResident(s, budget, body, enqueuedMs);
      } else {
        EnqueueSpilled(s, budget, body, enqueuedMs, spill.State(), stored.ref);
      }
    }

    /** Apply one committed command: the plain map's new value and response, whatever the budget. */
    method Apply(cmd: Command) returns (resp: Response)
      requires Valid() && (cmd.Enqueue? ==> |cmd.body| <= U32_MAX)
      modifies this, spill
      ensures Valid() && (Contents(), resp) == ApplyPlain(old(Contents()), cmd)
      ensures State() == ApplyTo(old(State()), budget, cmd)
    {
      hide FilesOk, RefsMatch, Budgeted, Issued, Meaning, ReleasedRef;
      ghost var s := State();
      MeaningKeys(messages, spill.bodies);
      match cmd
      case Enqueue(body, ms) =>
        var id := EnqueueBody(body, ms);
        resp := Enqueued(id);
      case Settle(id, requeue) =>
        if requeue {
          if id in messages {
            SettleRequeues(s, budget, id);
            messages := messages[id := messages[id].(failures := messages[id].failures + 1)];
            resp := Settled;
          } else {
            resp := NotFound;
          }
        } else if id in messages {
          SettleRemoves(s, budget, id);
          var removed := messages[id].body;
          messages := messages - {id};
          match removed {
            case Resident(bytes) => residentBytes := SatSub(residentBytes, |bytes|);
            case Spilled(r) => spill.Release(r);
          }
          resp := Settled;
        } else {
          resp := NotFound;
        }
    }

    /** Apply a log: same responses and same map as the plain machine, so replicas with any budgets agree. */
    method ApplyAll(cmds: seq<Command>) returns (resps: seq<Response>)
      requires Valid() && forall c :: c in cmds && c.Enqueue? ==> |c.body| <= U32_MAX
      modifies this, spill
      ensures Valid() && (Contents(), resps) == RunPlain(old(Contents()), cmds)
    {
      hide ReplicaOk, ApplyPlain, Abs;
      resps := [];
      for i := 0 to |cmds|
        invariant Valid() && (Contents(), resps) == RunPlain(old(Contents()), cmds[..i])
      {
        assert cmds[..i + 1][..i] == cmds[..i];
        var x := Apply(cmds[i]);
        resps := resps + [x];
      }
      assert cmds[..|cmds|] == cmds;
    }

    /** A delivery's body: resident bytes, or what the spill file reads. */
    method BodyOf(id: nat) returns (body: Option<Bytes>)
      requires Valid()
      ensures body == if id in Contents().messages then Some(Contents().messages[id].body) else None
    {
      if id !in messages { return None; }
      match messages[id].body
      case Resident(bytes) => body := Some(bytes);
      case Spilled(r) =>
        SpilledReads(State(), budget, id);
        body := spill.Read(r);
    }
  }

  lemma SoundWhenOk(f: Files)
    requires FilesOk(f)
    ensures Sound(f)
  {
  }
}
