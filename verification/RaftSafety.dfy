/**
 * Crash safety of the Raft storage (ramqp-broker/src/cluster/store.rs, ramqp-broker/src/store.rs): whatever
 * the moment of a crash, recovery finds the effect of every call that returned, a complete snapshot, and a
 * log that carries it to the state of the whole log. The one way to lose that is a build that starts its file
 * under the recorded file's own name.
 */
module RaftSafety {
  import opened Collections
  import opened RaftStore

  // ---------------------------------------------------------------- invariant

  /** From `from` on, the log kept is the whole log. */
  ghost predicate Agrees(log: map<nat, Entry>, whole: seq<Entry>, from: nat) {
    forall i :: i >= from ==> (i in log <==> i < |whole|) && (i in log ==> log[i] == whole[i])
  }

  ghost predicate NothingBelow(log: map<nat, Entry>, purged: nat) {
    forall i :: i in log ==> purged <= i
  }

  /** The whole log as the disk knows it: with the call in progress, once its batch is in. */
  ghost function DiskWhole(s: Sys): seq<Entry> {
    if s.op.Some? && s.op.value.1 then WholeAfter(s.whole, s.op.value.0) else s.whole
  }

  ghost predicate DiskLog(s: Sys) {
    Agrees(s.disk.log, DiskWhole(s), SnapApplied(s.disk.snap)) && NothingBelow(s.disk.log, s.disk.purged)
  }

  /** The machine is the whole log's; while an install is not yet recorded it is ahead of it. */
  ghost predicate MemoryLog(s: Sys) {
    s.mem.Some? ==>
      var m := s.mem.value;
      && Agrees(m.log, s.whole, SnapApplied(s.disk.snap))
      && (s.install.None? || s.install.value.progress.Recorded? ==>
            m.machine.applied <= |s.whole| && m.machine == RunTo(s.whole, m.machine.applied))
  }

  /** Memory and disk agree, up to the call in progress. */
  ghost predicate WrittenThrough(s: Sys) {
    s.mem.Some? ==>
      var m := s.mem.value;
      if s.op.Some? && s.op.value.1 then
        && s.disk.log == LogAfter(m.log, s.op.value.0) && s.disk.vote == VoteAfter(m.vote, s.op.value.0)
        && s.disk.purged == PurgedAfter(m.purged, s.op.value.0)
      else s.disk.log == m.log && s.disk.vote == m.vote && s.disk.purged == m.purged
  }

  ghost predicate CallOk(s: Sys) {
    && (s.mem.None? ==> s.op.None? && s.build.None? && s.install.None?)
    && (s.install.Some? ==> s.op.None? && s.build.None?)
    && (s.op.Some? && s.mem.Some? ==> MayCall(s, s.mem.value, s.op.value.0))
  }

  /** A record whose bytes are the state at its position of the log, unless its file is torn. */
  ghost predicate Complete(s: Sys, r: Record, limit: nat) {
    && r.id.applied <= limit <= |s.whole|
    && match r.blob
       case Inline(m) => m == RunTo(s.whole, r.id.applied)
       case File(name) =>
         && name == r.id && name in s.disk.files
         && (s.disk.files[name].Torn? || s.disk.files[name] == Whole(RunTo(s.whole, r.id.applied)))
  }

  ghost function Limit(s: Sys): nat {
    if s.mem.Some? && s.install.None? then s.mem.value.machine.applied else |s.whole|
  }

  ghost predicate SnapshotOk(s: Sys) {
    && s.disk.purged <= SnapApplied(s.disk.snap)
    && (s.disk.snap.Some? ==> Complete(s, s.disk.snap.value, Limit(s)))
  }

  ghost predicate BuildOk(s: Sys) {
    s.mem.Some? ==>
      var m := s.mem.value;
      && (s.build.None? && s.install.None? ==> m.snap == s.disk.snap)
      && (s.build.Some? ==>
            var b := s.build.value;
            && SnapApplied(m.snap) <= b.id.applied <= m.machine.applied <= |s.whole|
            && b.machine == RunTo(s.whole, b.id.applied)
            && (m.snap.Some? && m.snap.value.blob.File? ==> m.snap.value.blob.name == m.snap.value.id)
            && (if b.stage.Saved? then s.disk.snap == Some(RecordOf(b, b.stage.inline)) else s.disk.snap == m.snap)
            && (b.stage.Created? ==> b.id in s.disk.files)
            && (b.stage.Synced? ==> b.id in s.disk.files && s.disk.files[b.id] == Whole(b.machine)))
  }

  ghost predicate InstallOk(s: Sys) {
    s.mem.Some? && s.install.Some? ==>
      var m, n := s.mem.value, s.install.value;
      && n.id.applied == |n.lead| && m.machine == Brought(n) && SnapApplied(n.prior) < |n.lead|
      && (n.prior.Some? && n.prior.value.blob.File? ==> n.prior.value.blob.name == n.prior.value.id)
      && (if n.progress.Recorded? then
            && |n.lead| <= |s.whole|
            && m.snap == s.disk.snap == Some(InstallRecord(n, n.progress.inline))
          else
            && s.disk.snap == n.prior && (|n.lead| <= |s.whole| ==> n.lead == s.whole[..|n.lead|])
            && m.snap == if n.progress.Adopted? then Some(InstallRecord(n, n.progress.inline)) else n.prior)
      && (n.progress.Written? || (n.progress.Adopted? && !n.progress.inline) ==>
            n.id in s.disk.files && s.disk.files[n.id] == Whole(Brought(n)))
  }

  ghost predicate Inv(s: Sys) {
    CallOk(s) && DiskLog(s) && MemoryLog(s) && WrittenThrough(s) && SnapshotOk(s) && BuildOk(s) && InstallOk(s)
  }

  /** The recorded snapshot is a file that was started and not synced. */
  predicate TornRecord(s: Sys) {
    && s.disk.snap.Some? && s.disk.snap.value.blob.File?
    && s.disk.snap.value.blob.name in s.disk.files && s.disk.files[s.disk.snap.value.blob.name].Torn?
  }

  /** A build about to start its file under the recorded file's own name. */
  predicate Tears(s: Sys, move: Move) {
    move.Create? && s.build.Some? && s.disk.snap.Some? && s.disk.snap.value.blob == File(s.build.value.id)
  }

  /** The recorded snapshot's name is not one that a build may still take. */
  ghost predicate Counter(s: Sys) {
    s.mem.Some? ==>
      var m := s.mem.value;
      && (s.disk.snap.Some? && s.install.None? ==>
            s.disk.snap.value.id.idx <= m.idx || s.disk.snap.value.id.applied < m.machine.applied)
      && (s.install.Some? ==> s.install.value.id.idx <= m.idx)
      && (s.build.Some? ==>
            var b := s.build.value;
            && b.id.idx <= m.idx
            && (m.snap.Some? ==> m.snap.value.id.idx < b.id.idx || m.snap.value.id.applied < b.id.applied))
  }

  // ---------------------------------------------------------------- logs

  lemma {:induction false} RunSame(a: seq<Entry>, b: seq<Entry>, n: nat)
    requires n <= |a| && n <= |b| && a[..n] == b[..n]
    ensures RunTo(a, n) == RunTo(b, n)
  {
    if n > 0 {
      assert a[n - 1] == a[..n][n - 1] && b[n - 1] == b[..n][n - 1];
      assert a[..n - 1] == a[..n][..n - 1] && b[..n - 1] == b[..n][..n - 1];
      RunSame(a, b, n - 1);
    }
  }

  lemma {:induction false} InsertedIs(log: map<nat, Entry>, from: nat, es: seq<Entry>)
    ensures forall i :: i in Inserted(log, from, es) <==> i in log || from <= i < from + |es|
    ensures forall i :: i in Inserted(log, from, es) ==>
              Inserted(log, from, es)[i] == if from <= i < from + |es| then es[i - from] else log[i]
  {
    if es != [] { InsertedIs(log, from, es[..|es| - 1]); }
  }

  /** Every log call does to the kept log what it does to the whole log. */
  lemma LogAgrees(log: map<nat, Entry>, whole: seq<Entry>, from: nat, purged: nat, op: LogOp)
    requires Agrees(log, whole, from) && from <= |whole| && NothingBelow(log, purged) && purged <= from
    requires op.Append? ==> op.from == |whole|
    requires op.Purge? ==> op.upto <= from
    ensures Agrees(LogAfter(log, op), WholeAfter(whole, op), from)
    ensures NothingBelow(LogAfter(log, op), PurgedAfter(purged, op))
  {
    if op.Append? { InsertedIs(log, op.from, op.entries); }
  }

  /** What is applied survives every call. */
  lemma RunAfter(whole: seq<Entry>, op: LogOp, n: nat)
    requires n <= |whole| && (op.Truncate? ==> n <= op.since)
    ensures n <= |WholeAfter(whole, op)| && RunTo(WholeAfter(whole, op), n) == RunTo(whole, n)
  {
    assert WholeAfter(whole, op)[..n] == whole[..n];
    RunSame(WholeAfter(whole, op), whole, n);
  }

  /** What a recorded install leaves of the log past its snapshot. */
  lemma LogWith(log: map<nat, Entry>, whole: seq<Entry>, lead: seq<Entry>, from: nat)
    requires Agrees(log, whole, from) && from <= |lead| && (|lead| <= |whole| ==> lead == whole[..|lead|])
    ensures Agrees(log, WholeWith(whole, lead), |lead|) && |lead| <= |WholeWith(whole, lead)|
    ensures RunTo(WholeWith(whole, lead), |lead|) == RunTo(lead, |lead|)
  {
    assert WholeWith(whole, lead)[..|lead|] == lead[..|lead|];
    RunSame(WholeWith(whole, lead), lead, |lead|);
  }

  // ---------------------------------------------------------------- the moves

  /** A move keeps the invariant; the counter unless a leader's is ahead; the recorded file unless a build tears it. */
  ghost predicate Keeps(s: Sys, move: Move)
    requires Enabled(s, move)
  {
    var t := Next(s, move);
    && Inv(t)
    && (Counter(s) && CounterBehind(s, move) ==> Counter(t))
    && (TornRecord(t) ==> TornRecord(s) || Tears(s, move))
  }

  lemma CallKeeps(s: Sys, op: LogOp)
    requires Inv(s) && Enabled(s, Call(op))
    ensures Keeps(s, Call(op))
  {
    hide LogAfter;
  }

  lemma Bounds(s: Sys)
    requires Inv(s) && s.mem.Some? && s.install.None?
    ensures s.disk.purged <= SnapApplied(s.disk.snap) <= s.mem.value.machine.applied <= |s.whole|
    ensures SnapApplied(s.mem.value.snap) <= SnapApplied(s.disk.snap)
  {
    hide DiskLog, WrittenThrough;
  }

  lemma CommitKeeps(s: Sys)
    requires Inv(s) && Enabled(s, Commit)
    ensures Keeps(s, Commit)
  {
    hide LogAfter;
    Bounds(s);
    LogAgrees(s.disk.log, s.whole, SnapApplied(s.disk.snap), s.disk.purged, s.op.value.0);
    var t := Next(s, Commit);
    assert DiskLog(t);
  }

  lemma AbortKeeps(s: Sys)
    requires Inv(s) && Enabled(s, Abort)
    ensures Keeps(s, Abort)
  {
    hide LogAfter;
  }

  lemma CompleteAfter(s: Sys, t: Sys, r: Record, limit: nat, op: LogOp)
    requires Complete(s, r, limit) && t.disk.files == s.disk.files && t.whole == WholeAfter(s.whole, op)
    requires op.Truncate? ==> limit <= op.since
    ensures Complete(t, r, limit)
  {
    RunAfter(s.whole, op, limit);
    RunAfter(s.whole, op, r.id.applied);
  }

  lemma ReturnKeeps(s: Sys)
    requires Inv(s) && Enabled(s, Return)
    ensures Keeps(s, Return)
  {
    hide LogAfter;
    Bounds(s);
    var op := s.op.value.0;
    var m := s.mem.value;
    var t := Next(s, Return);
    RunAfter(s.whole, op, m.machine.applied);
    if s.disk.snap.Some? { CompleteAfter(s, t, s.disk.snap.value, m.machine.applied, op); }
    if s.build.Some? { RunAfter(s.whole, op, s.build.value.id.applied); }
    assert t.disk.log == t.mem.value.log;
  }

  lemma ApplyKeeps(s: Sys)
    requires Inv(s) && Enabled(s, Apply)
    ensures Keeps(s, Apply)
  {
    hide LogAfter;
    Bounds(s);
    var m := s.mem.value;
    assert m.log[m.machine.applied] == s.whole[m.machine.applied];
    assert RunTo(s.whole, m.machine.applied + 1) == Step(m.machine, s.whole[m.machine.applied]);
    var t := Next(s, Apply);
    assert SnapshotOk(t) && BuildOk(t) && MemoryLog(t) && DiskLog(t) && CallOk(t);
  }

  lemma CaptureKeeps(s: Sys)
    requires Inv(s) && Enabled(s, Capture)
    ensures Keeps(s, Capture)
  {
    hide LogAfter, Agrees;
    var t := Next(s, Capture);
    Bounds(s);
    assert BuildOk(t);
  }

  lemma CreateKeeps(s: Sys)
    requires Inv(s) && Enabled(s, Create)
    ensures Keeps(s, Create)
  {
    hide LogAfter, Agrees;
    var t := Next(s, Create);
    assert s.disk.snap == s.mem.value.snap;
    assert SnapshotOk(t);
  }

  lemma SyncKeeps(s: Sys)
    requires Inv(s) && Enabled(s, Sync)
    ensures Keeps(s, Sync)
  {
    hide LogAfter, Agrees;
    var t := Next(s, Sync);
    assert s.disk.snap == s.mem.value.snap;
    assert SnapshotOk(t);
  }

  lemma AgreesFrom(log: map<nat, Entry>, whole: seq<Entry>, a: nat, b: nat)
    requires Agrees(log, whole, a) && a <= b
    ensures Agrees(log, whole, b)
  {
  }

  lemma SaveKeeps(s: Sys, inline: bool)
    requires Inv(s) && Enabled(s, Save(inline))
    ensures Keeps(s, Save(inline))
  {
    hide LogAfter, Agrees;
    Bounds(s);
    var t := Next(s, Save(inline));
    AgreesFrom(s.disk.log, DiskWhole(s), SnapApplied(s.disk.snap), SnapApplied(t.disk.snap));
    AgreesFrom(s.mem.value.log, s.whole, SnapApplied(s.disk.snap), SnapApplied(t.disk.snap));
    assert Complete(t, t.disk.snap.value, Limit(t));
    assert BuildOk(t);
  }

  lemma PublishKeeps(s: Sys)
    requires Inv(s) && Enabled(s, Publish)
    ensures Keeps(s, Publish)
  {
    hide LogAfter, Agrees;
    var t := Next(s, Publish);
    Bounds(s);
    assert SnapshotOk(t);
  }

  /** A build whose write or record failed: its file stays behind, and its counter is spent. */
  lemma GiveUpKeeps(s: Sys)
    requires Inv(s) && Enabled(s, GiveUp)
    ensures Keeps(s, GiveUp)
  {
    hide LogAfter, Agrees;
  }

  lemma ArriveKeeps(s: Sys, id: Name, lead: seq<Entry>)
    requires Inv(s) && Enabled(s, Arrive(id, lead))
    ensures Keeps(s, Arrive(id, lead))
  {
    hide LogAfter, Agrees;
    Bounds(s);
    var t := Next(s, Arrive(id, lead));
    assert t.disk == s.disk && t.whole == s.whole;
    assert InstallOk(t) && SnapshotOk(t);
  }

  lemma CreateInstalledKeeps(s: Sys)
    requires Inv(s) && Enabled(s, CreateInstalled)
    ensures Keeps(s, CreateInstalled)
  {
    hide LogAfter, Agrees;
    var t := Next(s, CreateInstalled);
    assert s.disk.snap == s.install.value.prior;
    assert SnapshotOk(t);
  }

  lemma SyncInstalledKeeps(s: Sys)
    requires Inv(s) && Enabled(s, SyncInstalled)
    ensures Keeps(s, SyncInstalled)
  {
    hide LogAfter, Agrees;
    var t := Next(s, SyncInstalled);
    assert s.disk.snap == s.install.value.prior;
    assert SnapshotOk(t);
  }

  lemma AdoptKeeps(s: Sys, inline: bool)
    requires Inv(s) && Enabled(s, Adopt(inline))
    ensures Keeps(s, Adopt(inline))
  {
    hide LogAfter, Agrees;
  }

  lemma SaveInstalledKeeps(s: Sys)
    requires Inv(s) && Enabled(s, SaveInstalled)
    ensures Keeps(s, SaveInstalled)
  {
    hide LogAfter, Agrees;
    var n := s.install.value;
    var t := Next(s, SaveInstalled);
    LogWith(s.disk.log, s.whole, n.lead, SnapApplied(n.prior));
    LogWith(s.mem.value.log, s.whole, n.lead, SnapApplied(n.prior));
    assert Complete(t, t.disk.snap.value, Limit(t));
    assert InstallOk(t) && MemoryLog(t) && DiskLog(t);
  }

  lemma DropPriorKeeps(s: Sys)
    requires Inv(s) && Enabled(s, DropPrior)
    ensures Keeps(s, DropPrior)
  {
    hide LogAfter, Agrees;
    var t := Next(s, DropPrior);
    assert SnapshotOk(t);
  }

  /** What an install records is whole, whatever was recorded before. */
  lemma RecordedIsWhole(s: Sys)
    requires Inv(s) && s.mem.Some? && Enabled(s, SaveInstalled)
    ensures !TornRecord(Next(s, SaveInstalled))
  {
    hide Agrees, LogAfter;
  }

  /** So is what a build records. */
  lemma SavedIsWhole(s: Sys, inline: bool)
    requires Inv(s) && s.mem.Some? && Enabled(s, Save(inline))
    ensures !TornRecord(Next(s, Save(inline)))
  {
    hide Agrees, LogAfter;
  }

  lemma CrashKeeps(s: Sys)
    requires Inv(s) && Enabled(s, Crash)
    ensures Keeps(s, Crash)
  {
    hide LogAfter, Agrees;
    var t := Next(s, Crash);
    if s.disk.snap.Some? {
      var r := s.disk.snap.value;
      if s.op.Some? && s.op.value.1 {
        CompleteAfter(s, t, r, Limit(s), s.op.value.0);
      } else {
        assert Complete(t, r, Limit(s));
      }
    }
  }

  /** After a crash recovery succeeds if and only if the recorded snapshot is not torn. */
  lemma RecoverySucceedsIff(s: Sys)
    requires Inv(s) && s.mem.None?
    ensures Enabled(s, Recover) <==> !TornRecord(s)
  {
    hide Agrees;
  }

  lemma RecoverKeeps(s: Sys)
    requires Inv(s) && Enabled(s, Recover)
    ensures Keeps(s, Recover)
  {
    hide LogAfter, Agrees;
    var t := Next(s, Recover);
    assert MemoryLog(t) && SnapshotOk(t) && BuildOk(t) && WrittenThrough(t);
  }

  lemma NextKeeps(s: Sys, move: Move)
    requires Inv(s) && Enabled(s, move)
    ensures Keeps(s, move)
  {
    hide Inv, Keeps, Next;
    match move
    case Call(op) => CallKeeps(s, op);
    case Commit => CommitKeeps(s);
    case Abort => AbortKeeps(s);
    case Return => ReturnKeeps(s);
    case Apply => ApplyKeeps(s);
    case Capture => CaptureKeeps(s);
    case Create => CreateKeeps(s);
    case Sync => SyncKeeps(s);
    case Save(inline) => SaveKeeps(s, inline);
    case Publish => PublishKeeps(s);
    case GiveUp => GiveUpKeeps(s);
    case Arrive(id, lead) => ArriveKeeps(s, id, lead);
    case CreateInstalled => CreateInstalledKeeps(s);
    case SyncInstalled => SyncInstalledKeeps(s);
    case Adopt(inline) => AdoptKeeps(s, inline);
    case SaveInstalled => SaveInstalledKeeps(s);
    case DropPrior => DropPriorKeeps(s);
    case Crash => CrashKeeps(s);
    case Recover => RecoverKeeps(s);
  }

  lemma NewKeeps()
    ensures Inv(NEW_SYS) && Counter(NEW_SYS) && !TornRecord(NEW_SYS)
  {
  }

  lemma {:induction false} EveryPathKeeps(ss: seq<Sys>, moves: seq<Move>, n: nat)
    requires IsPath(ss, moves) && Inv(ss[0]) && n < |ss|
    ensures Inv(ss[n])
  {
    hide Inv, Next, Enabled;
    if n > 0 {
      EveryPathKeeps(ss, moves, n - 1);
      NextKeeps(ss[n - 1], moves[n - 1]);
    }
  }

  /** The invariant holds in every run, whatever is installed and whichever builds fail. */
  lemma EveryRunKeeps(ss: seq<Sys>, moves: seq<Move>, n: nat)
    requires IsRun(ss, moves) && n < |ss|
    ensures Inv(ss[n])
  {
    hide Inv, IsPath;
    NewKeeps();
    EveryPathKeeps(ss, moves, n);
  }

  // ---------------------------------------------------------------- when the recorded snapshot is torn

  /** No build starts its file under the recorded file's name. */
  ghost predicate NothingTorn(ss: seq<Sys>, moves: seq<Move>)
    requires |ss| == |moves| + 1
  {
    forall i :: 0 <= i < |moves| ==> !Tears(ss[i], moves[i])
  }

  lemma {:induction false} NotTornYet(ss: seq<Sys>, moves: seq<Move>, n: nat)
    requires IsPath(ss, moves) && Inv(ss[0]) && !TornRecord(ss[0]) && n < |ss|
    requires forall i :: 0 <= i < n ==> !Tears(ss[i], moves[i])
    ensures !TornRecord(ss[n])
  {
    hide Inv, Next, Enabled, TornRecord, Tears;
    if n > 0 {
      NotTornYet(ss, moves, n - 1);
      EveryPathKeeps(ss, moves, n - 1);
      NextKeeps(ss[n - 1], moves[n - 1]);
    }
  }

  lemma TearsNow(s: Sys)
    requires Enabled(s, Create) && Tears(s, Create)
    ensures TornRecord(Next(s, Create))
  {
  }

  /** The recorded snapshot is whole throughout a run if and only if no build starts under the recorded name. */
  lemma NeverTornIff(ss: seq<Sys>, moves: seq<Move>)
    requires IsRun(ss, moves)
    ensures (forall n :: 0 <= n < |ss| ==> !TornRecord(ss[n])) <==> NothingTorn(ss, moves)
  {
    hide Inv, Next, Enabled, TornRecord, NEW_SYS;
    NewKeeps();
    if NothingTorn(ss, moves) {
      forall n | 0 <= n < |ss| ensures !TornRecord(ss[n]) { NotTornYet(ss, moves, n); }
    } else {
      var i :| 0 <= i < |moves| && Tears(ss[i], moves[i]);
      TearsNow(ss[i]);
      assert TornRecord(ss[i + 1]);
    }
  }

  /** A build that captures under another name than the recorded file's does not tear it. */
  lemma CaptureDecides(s: Sys)
    requires Inv(s) && Enabled(s, Capture)
    ensures Enabled(Next(s, Capture), Create)
    ensures Tears(Next(s, Capture), Create) <==>
            s.disk.snap.Some? && s.disk.snap.value.blob == File(Name(s.mem.value.machine.applied, s.mem.value.idx + 1))
  {
    hide Inv;
  }

  lemma CounterNeverTears(s: Sys, move: Move)
    requires Inv(s) && Counter(s) && Enabled(s, move)
    ensures !Tears(s, move)
  {
    hide Agrees, LogAfter;
  }

  /** While no leader's counter is ahead, nothing is torn. */
  lemma {:induction false} SafeInstallsTearNothing(ss: seq<Sys>, moves: seq<Move>, n: nat)
    requires IsPath(ss, moves) && SafeInstalls(ss, moves) && n < |ss|
    requires Inv(ss[0]) && Counter(ss[0]) && !TornRecord(ss[0])
    ensures Inv(ss[n]) && Counter(ss[n]) && !TornRecord(ss[n])
  {
    hide Inv, Counter, TornRecord, Tears, Next, Enabled, CounterBehind;
    if n > 0 {
      SafeInstallsTearNothing(ss, moves, n - 1);
      NextKeeps(ss[n - 1], moves[n - 1]);
      CounterNeverTears(ss[n - 1], moves[n - 1]);
    }
  }

  // ---------------------------------------------------------------- what it means

  ghost function CrashAndRecover(s: Sys): Sys
    requires Inv(s) && s.mem.Some? && !TornRecord(s)
  {
    CrashKeeps(s);
    RecoverySucceedsIff(Next(s, Crash));
    Next(Next(s, Crash), Recover)
  }

  ghost predicate SameHardState(a: Memory, b: Memory) {
    a.log == b.log && a.vote == b.vote && a.purged == b.purged
  }

  /**
   * A crash at any point of any run can be recovered from if and only if the recorded snapshot is not torn then;
   * and it loses no call that returned: the log, the vote and the purge position come back as memory held them,
   * or as the one call in progress was leaving them.
   */
  lemma CrashLosesNothing(ss: seq<Sys>, moves: seq<Move>, n: nat)
    requires IsRun(ss, moves) && n < |ss| && ss[n].mem.Some?
    ensures Inv(ss[n])
    ensures Enabled(Next(ss[n], Crash), Recover) <==> !TornRecord(ss[n])
    ensures !TornRecord(ss[n]) ==>
              var s, m := ss[n], ss[n].mem.value;
              var r := CrashAndRecover(s).mem;
              r.Some? && SameHardState(r.value, if s.op.Some? && s.op.value.1 then InMemory(m, s.op.value.0) else m)
  {
    hide IsRun, LogAfter, Agrees, DiskLog, MemoryLog, SnapshotOk, BuildOk, InstallOk;
    EveryRunKeeps(ss, moves, n);
    CrashKeeps(ss[n]);
    RecoverySucceedsIff(Next(ss[n], Crash));
  }

  /** Entries applied to a recovered machine, one after another. */
  ghost function Replay(m: Machine, log: map<nat, Entry>, n: nat): Machine
    requires m.applied <= n && forall i :: m.applied <= i < n ==> i in log
    decreases n
  {
    if m.applied == n then m else Step(Replay(m, log, n - 1), log[n - 1])
  }

  lemma {:induction false} ReplayIsRun(m: Machine, log: map<nat, Entry>, whole: seq<Entry>, n: nat)
    requires m.applied <= n <= |whole| && m == RunTo(whole, m.applied)
    requires forall i :: m.applied <= i < n ==> i in log && log[i] == whole[i]
    ensures Replay(m, log, n) == RunTo(whole, n)
    decreases n
  {
    if m.applied < n { ReplayIsRun(m, log, whole, n - 1); }
  }

  /**
   * After a crash at any such point, the recovered snapshot and the recovered log together replay to the state of
   * the whole log, and, unless an install was under way, on the way pass through the very state the machine
   * had when it crashed.
   */
  lemma RecoveryReplaysTheWholeLog(ss: seq<Sys>, moves: seq<Move>, n: nat)
    requires IsRun(ss, moves) && n < |ss| && ss[n].mem.Some? && !TornRecord(ss[n])
    ensures Inv(ss[n])
    ensures var t := CrashAndRecover(ss[n]);
            && t.mem.Some?
            && var r := t.mem.value;
               && r.machine.applied <= |t.whole|
               && (forall i :: r.machine.applied <= i < |t.whole| ==> i in r.log)
               && Replay(r.machine, r.log, |t.whole|) == RunTo(t.whole, |t.whole|)
    ensures var r := CrashAndRecover(ss[n]).mem.value;
            var before := ss[n].mem.value.machine;
            ss[n].install.None? ==>
              && r.machine.applied <= before.applied <= |CrashAndRecover(ss[n]).whole|
              && Replay(r.machine, r.log, before.applied) == before
  {
    hide IsRun, Next, CrashAndRecover, WholeAfter, Inv, TornRecord;
    EveryRunKeeps(ss, moves, n);
    var s := ss[n];
    RecoveredShape(s);
    var t := CrashAndRecover(s);
    var r := t.mem.value;
    ReplayIsRun(r.machine, r.log, t.whole, |t.whole|);
    if s.install.None? { ReplayIsRun(r.machine, r.log, t.whole, s.mem.value.machine.applied); }
  }

  lemma RecoveredShape(s: Sys)
    requires Inv(s) && s.mem.Some? && !TornRecord(s)
    ensures var t := CrashAndRecover(s);
            && t.mem.Some?
            && var r, before := t.mem.value, s.mem.value.machine;
               && r.machine.applied <= |t.whole| && r.machine == RunTo(t.whole, r.machine.applied)
               && (s.install.None? ==>
                     r.machine.applied <= before.applied <= |t.whole| && before == RunTo(t.whole, before.applied))
               && (forall i :: r.machine.applied <= i < |t.whole| ==> i in r.log && r.log[i] == t.whole[i])
  {
    hide LogAfter;
    CrashKeeps(s);
    RecoverKeeps(Next(s, Crash));
    Bounds(CrashAndRecover(s));
    var m := s.mem.value;
    if s.install.None? {
      Bounds(s);
      if s.op.Some? && s.op.value.1 { RunAfter(s.whole, s.op.value.0, m.machine.applied); }
    }
  }
}
