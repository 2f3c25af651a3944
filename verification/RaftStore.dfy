/**
 * One Raft group member's storage (ramqp-broker/src/cluster/store.rs, ramqp-broker/src/store.rs): working
 * copies in memory, every mutation written through to disk before its call returns, snapshot blobs written
 * to files, and recovery from whatever a crash leaves. The disk is an atomic batch store plus files that
 * are torn until they are synced; the state machine is the replicated queue with its bodies inline.
 *
 * Positions count entries: `applied == 3` means entries 0, 1 and 2 are applied, `purged == 3` that they are
 * gone from the log.
 */
module RaftStore {
  import opened Collections
  import G = QueueGroup

  datatype Entry = Blank | Normal(cmd: G.Command) | Membership(members: nat)

  datatype Machine = Machine(applied: nat, members: nat, state: G.Plain)

  const EMPTY_MACHINE := Machine(0, 0, G.Plain(0, map[]))

  function Step(m: Machine, e: Entry): Machine {
    match e
    case Blank => m.(applied := m.applied + 1)
    case Normal(cmd) => m.(applied := m.applied + 1, state := G.ApplyPlain(m.state, cmd).0)
    case Membership(ms) => m.(applied := m.applied + 1, members := ms)
  }

  /** The state of the first `n` entries of a log. */
  function RunTo(log: seq<Entry>, n: nat): (m: Machine)
    requires n <= |log|
    ensures m.applied == n
  {
    if n == 0 then EMPTY_MACHINE else Step(RunTo(log, n - 1), log[n - 1])
  }

  /** A snapshot id: the applied position and a counter. */
  datatype Name = Name(applied: nat, idx: nat)

  datatype Blob = Inline(m: Machine) | File(name: Name)

  datatype Record = Record(id: Name, blob: Blob)

  datatype FileState = Torn | Whole(m: Machine)

  datatype Disk = Disk(
    log: map<nat, Entry>, vote: Option<nat>, purged: nat, snap: Option<Record>, files: map<Name, FileState>)

  datatype Memory = Memory(
    log: map<nat, Entry>, vote: Option<nat>, purged: nat, machine: Machine, snap: Option<Record>, idx: nat)

  datatype LogOp =
    | Append(from: nat, entries: seq<Entry>)
    | SaveVote(vote: nat)
    | Truncate(since: nat)
    | Purge(upto: nat)

  /** How far a snapshot build has got. */
  datatype Stage = Captured | Created | Synced | Saved(inline: bool)

  datatype Build = Build(id: Name, machine: Machine, stage: Stage)

  /** How far the install of a leader's snapshot has got. */
  datatype Progress = Arrived | Begun | Written | Adopted(inline: bool) | Recorded(inline: bool)

  /** A snapshot received: its name, the log it was taken of, and the record it will replace. */
  datatype Install = Install(id: Name, lead: seq<Entry>, prior: Option<Record>, progress: Progress)

  /** `op` is the log call in progress and whether its batch is on disk; `whole` is the log with nothing purged. */
  datatype Sys = Sys(
    disk: Disk, mem: Option<Memory>, op: Option<(LogOp, bool)>, build: Option<Build>, install: Option<Install>,
    whole: seq<Entry>)

  const NEW_SYS := Sys(
    Disk(map[], None, 0, None, map[]), Some(Memory(map[], None, 0, EMPTY_MACHINE, None, 0)), None, None, None, [])

  // ---------------------------------------------------------------- what one log call does

  function Inserted(log: map<nat, Entry>, from: nat, entries: seq<Entry>): map<nat, Entry> {
    if entries == [] then log
    else Inserted(log, from, entries[..|entries| - 1])[from + |entries| - 1 := entries[|entries| - 1]]
  }

  function LogAfter(log: map<nat, Entry>, op: LogOp): map<nat, Entry> {
    match op
    case Append(from, entries) => Inserted(log, from, entries)
    case SaveVote(_) => log
    case Truncate(since) => map i | i in log && i < since :: log[i]
    case Purge(upto) => map i | i in log && i >= upto :: log[i]
  }

  function VoteAfter(vote: Option<nat>, op: LogOp): Option<nat> {
    if op.SaveVote? then Some(op.vote) else vote
  }

  function PurgedAfter(purged: nat, op: LogOp): nat {
    if op.Purge? then op.upto else purged
  }

  function WholeAfter(whole: seq<Entry>, op: LogOp): seq<Entry> {
    match op
    case Append(_, entries) => whole + entries
    case Truncate(since) => if since <= |whole| then whole[..since] else whole
    case _ => whole
  }

  function OnDisk(d: Disk, op: LogOp): Disk {
    d.(log := LogAfter(d.log, op), vote := VoteAfter(d.vote, op), purged := PurgedAfter(d.purged, op))
  }

  function InMemory(m: Memory, op: LogOp): Memory {
    m.(log := LogAfter(m.log, op), vote := VoteAfter(m.vote, op), purged := PurgedAfter(m.purged, op))
  }

  // ---------------------------------------------------------------- recovery

  function Recovered(d: Disk): Option<Memory> {
    match d.snap
    case None => Some(Memory(d.log, d.vote, d.purged, EMPTY_MACHINE, None, 0))
    case Some(Record(id, Inline(m))) => Some(Memory(d.log, d.vote, d.purged, m, d.snap, id.idx))
    case Some(Record(id, File(name))) =>
      if name in d.files && d.files[name].Whole?
      then Some(Memory(d.log, d.vote, d.purged, d.files[name].m, d.snap, id.idx))
      else None
  }

  // ---------------------------------------------------------------- steps

  datatype Move =
    | Call(op: LogOp)
    | Commit
    | Abort
    | Return
    | Apply
    | Capture
    | Create
    | Sync
    | Save(inline: bool)
    | Publish
    | GiveUp
    | Arrive(id: Name, lead: seq<Entry>)
    | CreateInstalled
    | SyncInstalled
    | Adopt(inline: bool)
    | SaveInstalled
    | DropPrior
    | Crash
    | Recover

  function SnapApplied(snap: Option<Record>): nat {
    if snap.Some? then snap.value.id.applied else 0
  }

  /**
   * What Raft asks of its storage: appends extend the log, what is applied is never cut, purges stay behind the
   * snapshot.
   */
  predicate MayCall(s: Sys, m: Memory, op: LogOp) {
    match op
    case Append(from, _) => from == |s.whole|
    case SaveVote(_) => true
    case Truncate(since) => m.machine.applied <= since
    case Purge(upto) => m.purged <= upto <= SnapApplied(m.snap)
  }

  /** Entries a call in progress will not take away. */
  function Steady(s: Sys): nat {
    if s.op.Some? && s.op.value.0.Truncate? && s.op.value.0.since < |s.whole| then s.op.value.0.since else |s.whole|
  }

  /**
   * What Raft asks of an install: it brings the member forward, the leader's log agrees with what is applied
   * here, and with this log if that reaches as far (conflicts having been cut).
   */
  predicate MayInstall(s: Sys, m: Memory, id: Name, lead: seq<Entry>) {
    && m.machine.applied < id.applied == |lead| && m.machine.applied <= |s.whole|
    && lead[..m.machine.applied] == s.whole[..m.machine.applied]
    && (|lead| <= |s.whole| ==> lead == s.whole[..|lead|])
  }

  predicate Enabled(s: Sys, move: Move) {
    match move
    case Call(op) => s.mem.Some? && s.op.None? && s.install.None? && MayCall(s, s.mem.value, op)
    case Commit => s.op.Some? && !s.op.value.1
    case Abort => s.op.Some? && !s.op.value.1
    case Return => s.mem.Some? && s.op.Some? && s.op.value.1
    case Apply =>
      && s.mem.Some? && s.install.None?
      && s.mem.value.machine.applied < Steady(s) && s.mem.value.machine.applied in s.mem.value.log
    case Capture => s.mem.Some? && s.build.None? && s.install.None?
    case Create => s.build.Some? && s.build.value.stage.Captured?
    case Sync => s.build.Some? && s.build.value.stage.Created?
    case Save(inline) =>
      s.build.Some? && (if inline then s.build.value.stage.Captured? else s.build.value.stage.Synced?)
    case Publish => s.mem.Some? && s.build.Some? && s.build.value.stage.Saved?
    case GiveUp => s.build.Some? && !s.build.value.stage.Saved?
    case Arrive(id, lead) =>
      s.mem.Some? && s.op.None? && s.build.None? && s.install.None? && MayInstall(s, s.mem.value, id, lead)
    case CreateInstalled => s.install.Some? && s.install.value.progress.Arrived?
    case SyncInstalled => s.install.Some? && s.install.value.progress.Begun?
    case Adopt(inline) =>
      && s.mem.Some? && s.install.Some?
      && (if inline then s.install.value.progress.Arrived? || s.install.value.progress.Begun?
          else s.install.value.progress.Written?)
    case SaveInstalled => s.install.Some? && s.install.value.progress.Adopted?
    case DropPrior => s.install.Some? && s.install.value.progress.Recorded?
    case Crash => s.mem.Some?
    case Recover => s.mem.None? && Recovered(s.disk).Some?
  }

  /** The build's record: the bytes themselves, or the file that holds them. */
  function RecordOf(b: Build, inline: bool): Record {
    Record(b.id, if inline then Inline(b.machine) else File(b.id))
  }

  /** What the leader's snapshot holds. */
  function Brought(n: Install): Machine {
    RunTo(n.lead, |n.lead|)
  }

  function InstallRecord(n: Install, inline: bool): Record {
    Record(n.id, if inline then Inline(Brought(n)) else File(n.id))
  }

  /** The log a recorded install leaves: what was there past the snapshot stays. */
  function WholeWith(whole: seq<Entry>, lead: seq<Entry>): seq<Entry> {
    if |lead| <= |whole| then whole else lead
  }

  /** The previous snapshot's file goes once the new one is recorded. */
  function WithoutOld(files: map<Name, FileState>, prior: Option<Record>, record: Record): map<Name, FileState> {
    if prior.Some? && prior.value.blob.File? && record.blob != prior.value.blob
    then files - {prior.value.blob.name} else files
  }

  function Next(s: Sys, move: Move): Sys
    requires Enabled(s, move)
  {
    match move
    case Call(op) => s.(op := Some((op, false)))
    case Commit => s.(disk := OnDisk(s.disk, s.op.value.0), op := Some((s.op.value.0, true)))
    case Abort => s.(op := None)
    case Return =>
      s.(mem := Some(InMemory(s.mem.value, s.op.value.0)), whole := WholeAfter(s.whole, s.op.value.0), op := None)
    case Apply =>
      var m := s.mem.value;
      s.(mem := Some(m.(machine := Step(m.machine, m.log[m.machine.applied]))))
    case Capture =>
      var m := s.mem.value;
      s.(mem := Some(m.(idx := m.idx + 1)),
         build := Some(Build(Name(m.machine.applied, m.idx + 1), m.machine, Captured)))
    case Create =>
      s.(disk := s.disk.(files := s.disk.files[s.build.value.id := Torn]),
         build := Some(s.build.value.(stage := Created)))
    case Sync =>
      s.(disk := s.disk.(files := s.disk.files[s.build.value.id := Whole(s.build.value.machine)]),
         build := Some(s.build.value.(stage := Synced)))
    case Save(inline) =>
      s.(disk := s.disk.(snap := Some(RecordOf(s.build.value, inline))),
         build := Some(s.build.value.(stage := Saved(inline))))
    case Publish =>
      var m := s.mem.value;
      var record := RecordOf(s.build.value, s.build.value.stage.inline);
      s.(disk := s.disk.(files := WithoutOld(s.disk.files, m.snap, record)), mem := Some(m.(snap := Some(record))),
         build := None)
    case GiveUp => s.(build := None)
    case Arrive(id, lead) =>
      var m := s.mem.value;
      var n := Install(id, lead, m.snap, Arrived);
      s.(mem := Some(m.(machine := Brought(n))), install := Some(n))
    case CreateInstalled =>
      var n := s.install.value;
      s.(disk := s.disk.(files := s.disk.files[n.id := Torn]), install := Some(n.(progress := Begun)))
    case SyncInstalled =>
      var n := s.install.value;
      s.(disk := s.disk.(files := s.disk.files[n.id := Whole(Brought(n))]), install := Some(n.(progress := Written)))
    case Adopt(inline) =>
      var n := s.install.value;
      s.(mem := Some(s.mem.value.(snap := Some(InstallRecord(n, inline)))),
         install := Some(n.(progress := Adopted(inline))))
    case SaveInstalled =>
      var n := s.install.value;
      s.(disk := s.disk.(snap := Some(InstallRecord(n, n.progress.inline))), whole := WholeWith(s.whole, n.lead),
         install := Some(n.(progress := Recorded(n.progress.inline))))
    case DropPrior =>
      var n := s.install.value;
      s.(disk := s.disk.(files := WithoutOld(s.disk.files, n.prior, InstallRecord(n, n.progress.inline))),
         install := None)
    case Crash =>
      s.(mem := None, build := None, op := None, install := None,
         whole := if s.op.Some? && s.op.value.1 then WholeAfter(s.whole, s.op.value.0) else s.whole)
    case Recover => s.(mem := Recovered(s.disk))
  }

  ghost predicate IsPath(ss: seq<Sys>, moves: seq<Move>) {
    && |ss| == |moves| + 1
    && forall i :: 0 <= i < |moves| ==> Enabled(ss[i], moves[i]) && ss[i + 1] == Next(ss[i], moves[i])
  }

  ghost predicate IsRun(ss: seq<Sys>, moves: seq<Move>) {
    IsPath(ss, moves) && ss[0] == NEW_SYS
  }

  /** The leader's counter was not ahead of this member's when its snapshot came. */
  predicate CounterBehind(s: Sys, move: Move) {
    move.Arrive? && s.mem.Some? ==> move.id.idx <= s.mem.value.idx
  }

  ghost predicate SafeInstalls(ss: seq<Sys>, moves: seq<Move>)
    requires |ss| == |moves| + 1
  {
    forall i :: 0 <= i < |moves| ==> CounterBehind(ss[i], moves[i])
  }
}
