/**
 * Installed snapshots (ramqp-broker/src/cluster/store.rs:694-772): an install does not move the build counter,
 * so a later build may be given the installed snapshot's own file name, and truncates it.
 */
module RaftInstalls {
  import opened Collections
  import opened RaftStore
  import opened RaftSafety

  /** Between calls, with this snapshot recorded in a file that is whole. */
  ghost predicate Resting(s: Sys, id: Name) {
    && Inv(s) && !TornRecord(s) && s.mem.Some? && s.op.None? && s.build.None? && s.install.None?
    && s.disk.snap == Some(Record(id, File(id)))
  }

  /** Whatever follows, with no leader's counter ahead of this member's, a crash can be recovered from. */
  ghost predicate NeverLost(s: Sys) {
    forall ss: seq<Sys>, moves: seq<Move>, n: nat ::
      IsPath(ss, moves) && ss[0] == s && SafeInstalls(ss, moves) && n < |ss| ==>
        ss[n].mem.None? ==> Recovered(ss[n].disk).Some?
  }

  ghost predicate Loses(ss: seq<Sys>, moves: seq<Move>, s: Sys) {
    && IsPath(ss, moves) && ss[0] == s && SafeInstalls(ss, moves)
    && ss[|moves|].mem.None? && Recovered(ss[|moves|].disk).None?
  }

  lemma Prepend(a: Sys, move: Move, ss: seq<Sys>, moves: seq<Move>)
    requires IsPath(ss, moves) && SafeInstalls(ss, moves) && Enabled(a, move) && !move.Arrive? && ss[0] == Next(a, move)
    ensures IsPath([a] + ss, [move] + moves) && SafeInstalls([a] + ss, [move] + moves)
    ensures ([a] + ss)[|moves| + 1] == ss[|moves|]
  {
    hide Next, Enabled;
    var ts, ms := [a] + ss, [move] + moves;
    forall i | 0 <= i < |ms|
      ensures Enabled(ts[i], ms[i]) && ts[i + 1] == Next(ts[i], ms[i]) && CounterBehind(ts[i], ms[i])
    {
      if i > 0 { assert ms[i] == moves[i - 1] && ts[i] == ss[i - 1]; }
    }
  }

  lemma SpentCounter(s: Sys, id: Name)
    requires Resting(s, id)
    ensures Enabled(s, Capture) && Enabled(Next(s, Capture), GiveUp)
    ensures var t := Next(Next(s, Capture), GiveUp);
            Resting(t, id) && t.disk == s.disk && t.mem == Some(s.mem.value.(idx := s.mem.value.idx + 1))
  {
    hide Agrees, LogAfter;
  }

  lemma TearingBuild(s: Sys, id: Name) returns (ss: seq<Sys>, moves: seq<Move>)
    requires Resting(s, id) && id == Name(s.mem.value.machine.applied, s.mem.value.idx + 1)
    ensures Loses(ss, moves, s)
  {
    hide Inv;
    var a := Next(s, Capture);
    var b := Next(a, Create);
    ss, moves := [s, a, b, Next(b, Crash)], [Capture, Create, Crash];
  }

  /** With the counter behind, builds that fail use it up to the one before; the next build tears the snapshot. */
  lemma {:induction false} LosingPath(s: Sys, id: Name) returns (ss: seq<Sys>, moves: seq<Move>)
    requires Resting(s, id) && id.applied == s.mem.value.machine.applied && s.mem.value.idx < id.idx
    ensures Loses(ss, moves, s)
    decreases id.idx - s.mem.value.idx
  {
    hide Inv, Next, Enabled;
    if id.idx == s.mem.value.idx + 1 {
      ss, moves := TearingBuild(s, id);
    } else {
      SpentCounter(s, id);
      var a := Next(s, Capture);
      ss, moves := LosingPath(Next(a, GiveUp), id);
      Prepend(a, GiveUp, ss, moves);
      Prepend(s, Capture, [a] + ss, [GiveUp] + moves);
      ss, moves := [s] + ([a] + ss), [Capture] + ([GiveUp] + moves);
    }
  }

  lemma BehindIsSafe(s: Sys, id: Name)
    requires Resting(s, id) && (id.idx <= s.mem.value.idx || id.applied < s.mem.value.machine.applied)
    ensures NeverLost(s)
  {
    hide SafeInstalls, Inv, Next, TornRecord;
    forall ss: seq<Sys>, moves: seq<Move>, n: nat |
      IsPath(ss, moves) && ss[0] == s && SafeInstalls(ss, moves) && n < |ss| && ss[n].mem.None?
      ensures Recovered(ss[n].disk).Some?
    {
      SafeInstallsTearNothing(ss, moves, n);
      RecoverySucceedsIff(ss[n]);
    }
  }

  lemma NotAhead(s: Sys, id: Name)
    requires Resting(s, id)
    ensures id.applied <= s.mem.value.machine.applied
  {
    hide Agrees, LogAfter;
  }

  /**
   * A member at rest on a snapshot file, its own or one it installed, can lose everything if and only if the
   * snapshot's counter is ahead of the member's and nothing has been applied since.
   */
  lemma NeverLostIff(s: Sys, id: Name)
    requires Resting(s, id)
    ensures NeverLost(s) <==> id.idx <= s.mem.value.idx || id.applied < s.mem.value.machine.applied
  {
    hide Inv, Next, Enabled;
    NotAhead(s, id);
    if id.idx <= s.mem.value.idx || id.applied < s.mem.value.machine.applied {
      BehindIsSafe(s, id);
    } else {
      var ss, moves := LosingPath(s, id);
      assert !NeverLost(s) by {
        assert ss[|moves|].mem.None? && Recovered(ss[|moves|].disk).None?;
      }
    }
  }

  /** The snapshot's file is on disk. */
  ghost function Received(s: Sys, id: Name, lead: seq<Entry>): Sys
    requires Enabled(s, Arrive(id, lead))
  {
    Next(Next(Next(s, Arrive(id, lead)), CreateInstalled), SyncInstalled)
  }

  /** The install of a snapshot file, run to its end. */
  ghost function Installed(s: Sys, id: Name, lead: seq<Entry>): Sys
    requires Enabled(s, Arrive(id, lead))
  {
    Next(Next(Next(Received(s, id, lead), Adopt(false)), SaveInstalled), DropPrior)
  }

  lemma ReceivedKeeps(s: Sys, id: Name, lead: seq<Entry>)
    requires Inv(s) && Enabled(s, Arrive(id, lead))
    ensures var t := Received(s, id, lead);
            && Inv(t) && t.mem == Some(s.mem.value.(machine := RunTo(lead, |lead|))) && t.op.None? && t.build.None?
            && t.install == Some(Install(id, lead, s.mem.value.snap, Written)) && id.applied == |lead|
  {
    hide Inv, RunTo;
    var a := Next(s, Arrive(id, lead));
    ArriveKeeps(s, id, lead);
    CreateInstalledKeeps(a);
    SyncInstalledKeeps(Next(a, CreateInstalled));
  }

  lemma InstalledRests(s: Sys, id: Name, lead: seq<Entry>)
    requires Inv(s) && Enabled(s, Arrive(id, lead))
    ensures var t := Installed(s, id, lead);
            Resting(t, id) && t.mem.value.idx == s.mem.value.idx && t.mem.value.machine.applied == id.applied
  {
    hide Inv, MayInstall, Received;
    ReceivedKeeps(s, id, lead);
    var c := Received(s, id, lead);
    AdoptKeeps(c, false);
    var d := Next(c, Adopt(false));
    SaveInstalledKeeps(d);
    RecordedIsWhole(d);
    DropPriorKeeps(Next(d, SaveInstalled));
  }

  /**
   * At any point of any run an install is safe, whatever follows, if and only if the leader's counter is not
   * ahead of this member's.
   */
  lemma InstallIsSafeIff(ss: seq<Sys>, moves: seq<Move>, n: nat, id: Name, lead: seq<Entry>)
    requires IsRun(ss, moves) && n < |ss| && Enabled(ss[n], Arrive(id, lead))
    ensures NeverLost(Installed(ss[n], id, lead)) <==> id.idx <= ss[n].mem.value.idx
  {
    hide IsRun, Installed, NeverLost, Inv;
    EveryRunKeeps(ss, moves, n);
    InstalledRests(ss[n], id, lead);
    NeverLostIff(Installed(ss[n], id, lead), id);
  }

  // ---------------------------------------------------------------- a run that loses

  const FIRST := Name(1, 1)

  const LOSING_MOVES := [
    Arrive(FIRST, [Blank]), CreateInstalled, SyncInstalled, Adopt(false), SaveInstalled, DropPrior,
    Capture, Create, Crash]

  ghost function LosingStates(): seq<Sys> {
    var n := Install(FIRST, [Blank], None, Arrived);
    var one := RunTo([Blank], 1);
    var record := Some(Record(FIRST, File(FIRST)));
    var arrived := NEW_SYS.(mem := Some(NEW_SYS.mem.value.(machine := one)), install := Some(n));
    var begun := arrived.(disk := NEW_SYS.disk.(files := map[FIRST := Torn]), install := Some(n.(progress := Begun)));
    var written := begun.(disk := NEW_SYS.disk.(files := map[FIRST := Whole(one)]),
                          install := Some(n.(progress := Written)));
    var adopted := written.(mem := Some(arrived.mem.value.(snap := record)),
                            install := Some(n.(progress := Adopted(false))));
    var saved := adopted.(disk := written.disk.(snap := record), whole := [Blank],
                          install := Some(n.(progress := Recorded(false))));
    var installed := saved.(install := None);
    var captured := installed.(mem := Some(adopted.mem.value.(idx := 1)), build := Some(Build(FIRST, one, Captured)));
    var created := captured.(disk := saved.disk.(files := map[FIRST := Torn]),
                             build := Some(Build(FIRST, one, Created)));
    [ NEW_SYS, arrived, begun, written, adopted, saved, installed, captured, created,
      created.(mem := None, build := None) ]
  }

  ghost predicate StepsTo(i: nat)
    requires i < 9
  {
    var ss := LosingStates();
    Enabled(ss[i], LOSING_MOVES[i]) && ss[i + 1] == Next(ss[i], LOSING_MOVES[i])
  }

  lemma LosingInstall()
    ensures StepsTo(0) && StepsTo(1) && StepsTo(2)
  {
    var one := RunTo([Blank], 1);
    assert [Blank][..0] == [];
    assert map[][FIRST := Torn] == map[FIRST := Torn] &&
           map[FIRST := Torn][FIRST := Whole(one)] == map[FIRST := Whole(one)];
  }

  lemma LosingAdopt()
    ensures StepsTo(3)
  {
  }

  lemma LosingRecord()
    ensures StepsTo(4) && StepsTo(5)
  {
  }

  lemma LosingBuild()
    ensures StepsTo(6) && StepsTo(7) && StepsTo(8)
  {
    assert map[FIRST := Whole(RunTo([Blank], 1))][FIRST := Torn] == map[FIRST := Torn];
  }

  /** A fresh member installs a leader's first snapshot and then builds its own first: a crash leaves nothing. */
  lemma FreshMemberLoses()
    ensures IsRun(LosingStates(), LOSING_MOVES)
    ensures LosingStates()[9].mem.None? && Recovered(LosingStates()[9].disk).None?
  {
    hide Next, Enabled, RunTo;
    LosingInstall();
    LosingAdopt();
    LosingRecord();
    LosingBuild();
    var ss := LosingStates();
    forall i | 0 <= i < 9 ensures Enabled(ss[i], LOSING_MOVES[i]) && ss[i + 1] == Next(ss[i], LOSING_MOVES[i]) {
      assert StepsTo(i);
    }
  }
}
