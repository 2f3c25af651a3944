/**
 * The storage calls themselves (ramqp-broker/src/cluster/store.rs): each writes through to disk and then
 * updates the working copies in place. Every call is proved to be the corresponding moves of the
 * specification. A call keeps the member recoverable unless it is a build under the recorded file's own name.
 */
module RaftMember {
  import opened Collections
  import opened RaftStore
  import opened RaftSafety

  /** The durable side: the batch store and the snapshot files. */
  class Media {
    var d: Disk

    constructor (disk: Disk)
      ensures d == disk
    {
      d := disk;
    }
  }

  /** How a snapshot build may fail: its blob is not written, perhaps after a start, or its record is not saved. */
  datatype Fault = NoFault | NotWritten(begun: bool) | NotRecorded

  class Member {
    const media: Media
    var log: map<nat, Entry>
    var vote: Option<nat>
    var purged: nat
    var machine: Machine
    var snap: Option<Record>
    var idx: nat
    ghost var whole: seq<Entry>
    ghost var build: Option<Build>
    ghost var install: Option<Install>

    ghost function Mem(): Memory
      reads this
    {
      Memory(log, vote, purged, machine, snap, idx)
    }

    ghost function State(): Sys
      reads this, media
    {
      Sys(media.d, Some(Mem()), None, build, install, whole)
    }

    /** Between calls. */
    ghost predicate Idle()
      reads this
    {
      build.None? && install.None?
    }

    ghost predicate Valid()
      reads this, media
    {
      Inv(State())
    }

    /** The recorded snapshot's file is not torn: a crash now can be recovered from. */
    ghost predicate Recoverable()
      reads this, media
    {
      !TornRecord(State())
    }

    /** Load whatever is on disk after a crash (`crashed.mem` is gone) and can be read. */
    constructor (m: Media, ghost crashed: Sys)
      requires Inv(crashed) && crashed.mem.None? && crashed.disk == m.d && RaftStore.Recovered(m.d).Some?
      ensures media == m && media.d == old(m.d) && Valid() && Idle() && State() == Next(crashed, Recover)
    {
      RecoverKeeps(crashed);
      media := m;
      whole, build, install := crashed.whole, None, None;
      log, vote, purged, snap := m.d.log, m.d.vote, m.d.purged, m.d.snap;
      if m.d.snap.None? {
        machine, idx := EMPTY_MACHINE, 0;
      } else {
        var record := m.d.snap.value;
        idx := record.id.idx;
        match record.blob
        case Inline(s) => machine := s;
        case File(name) => machine := m.d.files[name].m;
      }
      new;
      assert Recovered(m.d) == Some(Mem());
    }

    /** Restart after a crash: refused if and only if the recorded snapshot is torn. */
    static method Open(m: Media, ghost crashed: Sys) returns (r: Option<Member>)
      requires Inv(crashed) && crashed.mem.None? && crashed.disk == m.d
      ensures m.d == old(m.d) && (r.Some? <==> !TornRecord(crashed))
      ensures r.Some? ==>
                var n := r.value;
                && fresh(n) && n.media == m && n.Valid() && n.Idle() && n.Recoverable()
                && Enabled(crashed, Recover) && n.State() == Next(crashed, Recover)
    {
      hide Inv;
      RecoverySucceedsIff(crashed);
      var d := m.d;
      if d.snap.Some? && d.snap.value.blob.File? {
        var name := d.snap.value.blob.name;
        if name !in d.files || d.files[name].Torn? { return None; }
      }
      var n := new Member(m, crashed);
      r := Some(n);
    }

    /** A batch goes to disk, or aborts and leaves it as it was. */
    method Submit(op: LogOp, commits: bool)
      modifies media
      ensures media.d == if commits then OnDisk(old(media.d), op) else old(media.d)
    {
      if commits {
        match op
        case Append(from, entries) =>
          var l := InsertAll(media.d.log, from, entries);
          media.d := media.d.(log := l);
        case SaveVote(v) => media.d := media.d.(vote := Some(v));
        case Truncate(since) =>
          var l := RemoveRange(media.d.log, since, None);
          media.d := media.d.(log := l);
        case Purge(upto) =>
          var l := RemoveRange(media.d.log, 0, Some(upto));
          media.d := media.d.(log := l, purged := upto);
      }
    }

    /** A log call: durable first, then the working copy; an aborted batch is an error and changes nothing. */
    method LogCall(op: LogOp, commits: bool) returns (ok: bool)
      requires Valid() && Idle() && MayCall(State(), Mem(), op)
      modifies this, media
      ensures Valid() && Idle() && ok == commits
      ensures ok ==> State() == Sys(OnDisk(old(media.d), op), Some(InMemory(old(Mem()), op)), None, None, None,
                                    WholeAfter(old(whole), op))
      ensures !ok ==> State() == old(State())
    {
      hide Inv, MayCall, LogAfter;
      ghost var s := State();
      CallKeeps(s, op);
      ghost var called := Next(s, Call(op));
      Submit(op, commits);
      if !commits { return false; }
      CommitKeeps(called);
      ReturnKeeps(Next(called, Commit));
      UpdateMemory(op);
      whole := WholeAfter(whole, op);
      ok := true;
    }

    method UpdateMemory(op: LogOp)
      modifies `log, `vote, `purged
      ensures Mem() == InMemory(old(Mem()), op)
    {
      match op
      case Append(from, entries) => log := InsertAll(log, from, entries);
      case SaveVote(v) => vote := Some(v);
      case Truncate(since) => log := RemoveRange(log, since, None);
      case Purge(upto) =>
        purged := upto;
        log := RemoveRange(log, 0, Some(upto));
    }

    /** Apply committed entries, in order. */
    method ApplyEntries(n: nat)
      requires Valid() && Idle() && machine.applied + n <= |whole|
      requires forall i :: machine.applied <= i < machine.applied + n ==> i in log
      modifies `machine
      ensures Valid() && machine == RunTo(whole, old(machine.applied) + n)
    {
      hide Inv;
      MachineIsRun(State());
      var start := machine.applied;
      for k := 0 to n
        invariant Valid() && machine == RunTo(whole, start + k)
      {
        ApplyKeeps(State());
        MachineIsRun(Next(State(), Apply));
        machine := Step(machine, log[machine.applied]);
      }
    }

    /** Capture the machine under the next name. */
    method StartBuild()
      requires Valid() && Idle()
      modifies `idx, `build
      ensures Valid() && (old(Recoverable()) ==> Recoverable())
      ensures idx == old(idx) + 1 && build == Some(Build(Name(machine.applied, idx), machine, Captured))
    {
      hide Inv;
      CaptureKeeps(State());
      idx := idx + 1;
      build := Some(Build(Name(machine.applied, idx), machine, Captured));
    }

    /** A failed build is forgotten. */
    method EndBuild()
      requires Valid() && build.Some? && !build.value.stage.Saved?
      modifies `build
      ensures Valid() && build.None? && (old(Recoverable()) ==> Recoverable())
    {
      hide Inv;
      GiveUpKeeps(State());
      build := None;
    }

    /** The blob of the build, written through: torn until it is synced. */
    method WriteBlob(fault: Fault) returns (ok: bool)
      requires Valid() && build.Some? && build.value.stage.Captured? && install.None?
      requires build.value.id == Name(machine.applied, idx) && build.value.machine == machine
      modifies `build, media
      ensures Valid() && ok == !fault.NotWritten?
      ensures old(Recoverable()) && !UnderRecordedName(media.d, Name(machine.applied, idx)) ==> Recoverable()
      ensures build == if ok then Some(old(build).value.(stage := Synced)) else None
      ensures media.d == old(media.d).(files := media.d.files)
      ensures forall name :: name in old(media.d.files) && name != Name(machine.applied, idx) ==>
                name in media.d.files && media.d.files[name] == old(media.d.files)[name]
      ensures ok ==> Name(machine.applied, idx) in media.d.files &&
                     media.d.files[Name(machine.applied, idx)] == Whole(machine)
    {
      hide Inv;
      var id := Name(machine.applied, idx);
      ghost var s := State();
      if fault == NotWritten(false) {
        EndBuild();
        return false;
      }
      CreateKeeps(s);
      media.d := media.d.(files := media.d.files[id := Torn]);
      build := Some(build.value.(stage := Created));
      if fault == NotWritten(true) {
        EndBuild();
        return false;
      }
      SyncKeeps(State());
      media.d := media.d.(files := media.d.files[id := Whole(machine)]);
      build := Some(build.value.(stage := Synced));
      ok := true;
    }

    /** The blob is there: record it, and only then let the previous one go. */
    method PublishBlob(inline: bool)
      requires Valid() && build.Some? && Enabled(State(), Save(inline)) && install.None?
      requires build.value.id == Name(machine.applied, idx) && build.value.machine == machine
      modifies `build, `snap, media
      ensures Valid() && Idle() && Recoverable() && State() == Next(Next(old(State()), Save(inline)), Publish)
      ensures var id := Name(machine.applied, idx);
              snap == Some(Record(id, if inline then Inline(machine) else File(id))) && media.d.snap == snap
      ensures media.d == old(media.d).(snap := media.d.snap, files := media.d.files)
    {
      hide Inv;
      ghost var s := State();
      SaveKeeps(s, inline);
      SavedIsWhole(s, inline);
      var id := Name(machine.applied, idx);
      var record := Record(id, if inline then Inline(machine) else File(id));
      media.d := media.d.(snap := Some(record));
      ghost var t := Next(s, Save(inline));
      PublishKeeps(t);
      if snap.Some? && snap.value.blob.File? && record.blob != snap.value.blob {
        media.d := media.d.(files := media.d.files - {snap.value.blob.name});
      }
      snap := Some(record);
      build := None;
      assert State() == Next(t, Publish);
    }

    /**
     * Build a snapshot: the blob is complete and recorded before the previous one goes. If it fails at any
     * point the previous snapshot stands recorded, and whole unless the build's file had its name; the counter
     * is spent either way.
     */
    method BuildSnapshot(inline: bool, fault: Fault) returns (ok: bool)
      requires Valid() && Idle()
      modifies this, media
      ensures Valid() && Idle() && ok == fault.NoFault? && (ok ==> Recoverable())
      ensures old(Recoverable()) && !UnderRecordedName(old(media.d), Name(machine.applied, idx)) ==> Recoverable()
      ensures machine == old(machine) && log == old(log) && vote == old(vote) && purged == old(purged)
      ensures whole == old(whole) && idx == old(idx) + 1
      ensures media.d == old(media.d).(snap := media.d.snap, files := media.d.files)
      ensures ok ==>
                var id := Name(machine.applied, idx);
                snap == Some(Record(id, if inline then Inline(machine) else File(id))) && media.d.snap == snap
      ensures !ok ==> snap == old(snap) && media.d.snap == old(media.d.snap)
    {
      hide Inv, Next;
      StartBuild();
      if !inline {
        var written := WriteBlob(fault);
        if !written { return false; }
      }
      if !fault.NoFault? {
        EndBuild();
        return false;
      }
      PublishBlob(inline);
      ok := true;
    }

    /** Restore the leader's state and put its blob on disk, or keep it to be recorded inline. */
    method ReceiveBlob(id: Name, data: Machine, ghost lead: seq<Entry>, toFile: bool, begun: bool, written: bool)
      requires Valid() && Idle() && MayInstall(State(), Mem(), id, lead) && data == RunTo(lead, |lead|)
      modifies `machine, `install, media
      ensures Valid() && (old(Recoverable()) ==> Recoverable())
      ensures machine == data && media.d == old(media.d).(files := media.d.files)
      ensures install.Some? && install.value.(progress := Arrived) == Install(id, lead, old(snap), Arrived)
      ensures install.value.progress ==
              if !toFile then Arrived else if written then Written else if begun then Begun else Arrived
    {
      hide Inv, MayInstall;
      ghost var s := State();
      ArriveKeeps(s, id, lead);
      machine := data;
      install := Some(Install(id, lead, snap, Arrived));
      assert State() == Next(s, Arrive(id, lead));
      if toFile && (begun || written) {
        CreateInstalledKeeps(State());
        media.d := media.d.(files := media.d.files[id := Torn]);
        install := Some(install.value.(progress := Begun));
        if written {
          SyncInstalledKeeps(State());
          media.d := media.d.(files := media.d.files[id := Whole(data)]);
          install := Some(install.value.(progress := Written));
        }
      }
    }

    /** Record the installed snapshot, and only then let the previous blob go. */
    method RecordInstalled(record: Record)
      requires Valid() && install.Some? && install.value.progress.Adopted? && build.None?
      requires record == InstallRecord(install.value, install.value.progress.inline)
      modifies `install, `whole, media
      ensures Valid() && Idle() && Recoverable()
      ensures media.d == old(media.d).(snap := Some(record), files := media.d.files)
      ensures whole == WholeWith(old(whole), old(install).value.lead)
    {
      hide Inv, Brought;
      var prior := media.d.snap;
      PriorIsRecorded(State());
      SaveInstalledKeeps(State());
      RecordedIsWhole(State());
      media.d := media.d.(snap := Some(record));
      whole := WholeWith(whole, install.value.lead);
      install := Some(install.value.(progress := Recorded(install.value.progress.inline)));
      DropPriorKeeps(State());
      if prior.Some? && prior.value.blob.File? && record.blob != prior.value.blob {
        media.d := media.d.(files := media.d.files - {prior.value.blob.name});
      }
      install := None;
    }

    /**
     * Install a leader's snapshot. The new record is durable before the previous blob goes; a blob that cannot
     * be written is recorded inline. If the record is refused the member is to be restarted, and can be if it
     * could before. The counter does not move.
     */
    method InstallSnapshot(id: Name, data: Machine, ghost lead: seq<Entry>, toFile: bool, begun: bool, written: bool,
                           recorded: bool) returns (ok: bool)
      requires Valid() && Idle() && MayInstall(State(), Mem(), id, lead) && data == RunTo(lead, |lead|)
      modifies this, media
      ensures Valid() && ok == recorded && (ok || old(Recoverable()) ==> Recoverable())
      ensures machine == data && log == old(log) && vote == old(vote) && purged == old(purged) && idx == old(idx)
      ensures snap == Some(Record(id, if toFile && written then File(id) else Inline(data)))
      ensures ok ==> Idle() && media.d.snap == snap && whole == WholeWith(old(whole), lead)
      ensures !ok ==> media.d.snap == old(media.d.snap) && whole == old(whole)
    {
      hide Inv, MayInstall, RunTo, WholeWith;
      ReceiveBlob(id, data, lead, toFile, begun, written);
      var inline := !(toFile && written);
      var record := Record(id, if inline then Inline(data) else File(id));
      AdoptKeeps(State(), inline);
      snap := Some(record);
      install := Some(install.value.(progress := Adopted(inline)));
      if !recorded { return false; }
      RecordInstalled(record);
      ok := true;
    }
  }

  /** The recorded snapshot is the file of this name. */
  predicate UnderRecordedName(d: Disk, id: Name) {
    d.snap.Some? && d.snap.value.blob == File(id)
  }

  lemma PriorIsRecorded(s: Sys)
    requires Inv(s) && s.mem.Some? && s.install.Some? && s.install.value.progress.Adopted?
    ensures s.install.value.prior == s.disk.snap
  {
  }

  lemma MachineIsRun(s: Sys)
    requires Inv(s) && s.mem.Some? && s.install.None?
    ensures s.mem.value.machine.applied <= |s.whole|
    ensures s.mem.value.machine == RunTo(s.whole, s.mem.value.machine.applied)
  {
  }

  /** Insert consecutive entries. */
  method InsertAll(log: map<nat, Entry>, from: nat, entries: seq<Entry>) returns (r: map<nat, Entry>)
    ensures r == Inserted(log, from, entries)
  {
    r := log;
    for i := 0 to |entries|
      invariant r == Inserted(log, from, entries[..i])
    {
      assert entries[..i + 1][..i] == entries[..i];
      r := r[from + i := entries[i]];
    }
    assert entries[..|entries|] == entries;
  }

  /** Remove the keys at or after `low`, and before `high` if there is one. */
  method RemoveRange(log: map<nat, Entry>, low: nat, high: Option<nat>) returns (r: map<nat, Entry>)
    ensures r == map i | i in log && !(low <= i && (high.Some? ==> i < high.value)) :: log[i]
  {
    r := log;
    var keys := set i | i in log && low <= i && (high.Some? ==> i < high.value);
    ghost var all := keys;
    while keys != {}
      invariant keys <= all && r == map i | i in log && (i in all ==> i in keys) :: log[i]
    {
      var k :| k in keys;
      r := r - {k};
      keys := keys - {k};
    }
  }
}
