/** The self update's irreversible half: back up, install, log durably, restart, with
    any rename, append or exec failing and a crash between any two steps. Acquiring
    and vetting the new binary is one step that yields a version or fails. */
module SelfUpdate {
  import opened Collections
  import opened AppliedLog

  /** The three paths a swap touches, each holding an intact binary of some version or
      nothing, and the applied log. */
  datatype Disk = Disk(bin: Option<nat>, backup: Option<nat>, staged: Option<nat>, log: Log)

  /** Whether each fallible operation succeeds, in the order they are tried. */
  datatype Faults = Faults(
    removeBackup: bool,
    backUp: bool,
    install: bool,
    restore: bool,
    removeStaged: bool,
    append: bool,
    rollBack: bool,
    record: bool,
    exec: bool)

  datatype Ending = BackupFailed | InstallFailed(restored: bool) | LogFailed(rolledBack: bool) | Restarted | ExecFailed

  function ConvergedEntry(id: string, target: string): Entry {
    Entry(id, "self_update", target, "restart", Converged)
  }

  function DivergedEntry(id: string, code: string): Entry {
    Entry(id, "self_update", "", code, Diverged)
  }

  // ------------------------------------------------------------ the steps

  function BackupRemoved(d: Disk, io: bool): Disk { if io then d.(backup := None) else d }
  function BackedUp(d: Disk): Disk { d.(backup := d.bin, bin := None) }
  function Installed(d: Disk): Disk { d.(bin := d.staged, staged := None) }
  function Restored(d: Disk): Disk { d.(bin := d.backup, backup := None) }
  function StagedRemoved(d: Disk, io: bool): Disk { if io then d.(staged := None) else d }
  function Logged(d: Disk, e: Entry, io: bool): Disk { d.(log := Appended(d.log, e, io)) }

  /** The states a swap passes through, and how it ends. The caller has staged the new
      binary; moving the running one aside fails if it is not there. */
  function Swap(d: Disk, id: string, target: string, f: Faults): (seq<Disk>, Ending) {
    var d1 := BackupRemoved(d, f.removeBackup);
    if !f.backUp || d.bin.None? then
      var d2 := StagedRemoved(d1, f.removeStaged);
      ([d, d1, d2, Logged(d2, DivergedEntry(id, "backup_failed"), f.record)], BackupFailed)
    else
      var d2 := BackedUp(d1);
      if !f.install then
        if !f.restore then
          ([d, d1, d2, Logged(d2, DivergedEntry(id, "install_failed"), f.record)], InstallFailed(false))
        else
          var d3 := Restored(d2);
          var d4 := StagedRemoved(d3, f.removeStaged);
          ([d, d1, d2, d3, d4, Logged(d4, DivergedEntry(id, "install_failed"), f.record)], InstallFailed(true))
      else
        var d3 := Installed(d2);
        var d4 := Logged(d3, ConvergedEntry(id, target), f.append);
        if f.append then ([d, d1, d2, d3, d4], if f.exec then Restarted else ExecFailed)
        else if f.rollBack then
          var d5 := Restored(d4);
          ([d, d1, d2, d3, d4, d5, Logged(d5, DivergedEntry(id, "applied_log_failed"), f.record)], LogFailed(true))
        else
          ([d, d1, d2, d3, d4, Logged(d4, DivergedEntry(id, "applied_log_failed"), f.record)], LogFailed(false))
  }

  function Last(trace: seq<Disk>): Disk
    requires trace != []
  {
    trace[|trace| - 1]
  }

  function Diverges(e: Ending): bool { !e.Restarted? && !e.ExecFailed? }

  // ------------------------------------------------------------ survival

  /** Some intact binary is where the supervisor or the operator will look. */
  predicate Bootable(d: Disk, was: nat, next: nat) {
    d.bin == Some(was) || d.bin == Some(next) || d.backup == Some(was)
  }

  /** Whatever fails and wherever the machine stops, an intact binary is at the binary
      path or at its backup. */
  lemma {:induction false} SurvivesEverywhere(d: Disk, was: nat, next: nat, id: string, target: string, f: Faults, i: nat)
    requires d.bin == Some(was) && d.staged == Some(next)
    requires i < |Swap(d, id, target, f).0|
    ensures Bootable(Swap(d, id, target, f).0[i], was, next)
  {
    var trace := Swap(d, id, target, f).0;
    assert i == 0 || i == 1 || i == 2 || i == 3 || i == 4 || i == 5 || i == 6;
  }

  /** What each ending leaves installed. */
  lemma {:induction false} EndingsInstall(d: Disk, was: nat, next: nat, id: string, target: string, f: Faults)
    requires d.bin == Some(was) && d.staged == Some(next)
    ensures var (trace, ending) := Swap(d, id, target, f);
            match ending
            case BackupFailed => Last(trace).bin == Some(was)
            case InstallFailed(restored) => if restored then Last(trace).bin == Some(was) else Last(trace).backup == Some(was)
            case LogFailed(rolledBack) =>
              if rolledBack then Last(trace).bin == Some(was) else Last(trace).bin == Some(next) && Last(trace).backup == Some(was)
            case _ => Last(trace).bin == Some(next) && Last(trace).backup == Some(was)
  {
  }

  /** The restart is reached only with the command durably logged as converged. */
  lemma {:induction false} ExecOnlyWhenLogged(d: Disk, id: string, target: string, f: Faults)
    requires !Diverges(Swap(d, id, target, f).1)
    ensures var log := Last(Swap(d, id, target, f).0).log;
            && AlreadyApplied(log.disk, id) && AlreadyApplied(log.entries, id)
            && Within(log.entries, ConvergedEntry(id, target), 0) && Within(log.disk, ConvergedEntry(id, target), 0)
            && Bounded(log)
  {
    var e := ConvergedEntry(id, target);
    AppendedWithin(d.log, e);
    WithinFound(Appended(d.log, e, true).entries, e, 0);
  }

  lemma {:induction false} LookupNewest(entries: seq<Entry>, e: Entry)
    ensures Lookup(Newest(entries + [e], RING), e.id) == Some(e)
  {
    var all := Newest(entries + [e], RING);
    assert all[|all| - 1] == e;
  }

  /** A diverged swap is never taken for an applied one by the running process, nor by
      the next if its record reached the disk, so a re-issued command gets a real
      retry. */
  lemma {:induction false} DivergedIsRetried(d: Disk, id: string, target: string, f: Faults)
    requires Diverges(Swap(d, id, target, f).1)
    ensures var log := Last(Swap(d, id, target, f).0).log;
            && !AlreadyApplied(log.entries, id)
            && (f.record ==> !AlreadyApplied(log.disk, id))
            && (!f.record ==> log.disk == d.log.disk)
  {
    var code := if !f.backUp || d.bin.None? then "backup_failed" else if !f.install then "install_failed" else "applied_log_failed";
    var before := if f.backUp && d.bin.Some? && f.install then Appended(d.log, ConvergedEntry(id, target), false) else d.log;
    var e := DivergedEntry(id, code);
    LookupNewest(before.entries, e);
    assert Last(Swap(d, id, target, f).0).log == Appended(before, e, f.record);
  }

  /** At no point does the disk call the command applied unless the new binary is
      installed or it was called so before. */
  lemma {:induction false} LogNeverAheadOfBinary(d: Disk, was: nat, next: nat, id: string, target: string, f: Faults, i: nat)
    requires d.bin == Some(was) && d.staged == Some(next)
    requires i < |Swap(d, id, target, f).0| && AlreadyApplied(Swap(d, id, target, f).0[i].log.disk, id)
    ensures AlreadyApplied(d.log.disk, id) || Swap(d, id, target, f).0[i].bin == Some(next)
  {
    var trace := Swap(d, id, target, f).0;
    if Diverges(Swap(d, id, target, f).1) {
      DivergedIsRetried(d, id, target, f);
      assert i < |trace| - 1 ==> trace[i].log.disk == d.log.disk;
    } else {
      assert i < 4 ==> trace[i].log.disk == d.log.disk;
    }
  }

  // ------------------------------------------------------------ the command

  /** The whole command: the idempotency gate comes before any work. `prepared` is the
      vetted new version, if acquiring one succeeded. */
  function Handled(d: Disk, configured: bool, id: string, target: string, prepared: Option<nat>, f: Faults): (seq<Disk>, Convergence) {
    if !configured then ([d], Rejected)
    else if AlreadyApplied(d.log.entries, id) then ([d], Converged)
    else if prepared.None? then
      var d1 := StagedRemoved(d, f.removeStaged);
      ([d, d1, Logged(d1, DivergedEntry(id, "not_prepared"), f.record)], Diverged)
    else
      var (trace, ending) := Swap(d.(staged := prepared), id, target, f);
      ([d] + trace, if Diverges(ending) then Diverged else Converged)
  }

  /** After a swap that converged, the same command re-queued is answered from the log
      and touches no file, through restarts and other commands, while it is among the
      last 128 entries. */
  lemma {:induction false} NoSecondSwap(d: Disk, id: string, target: string, f: Faults, events: seq<Event>, again: Disk, prepared: Option<nat>, g: Faults)
    requires !Diverges(Swap(d, id, target, f).1)
    requires Appends(events) < RING && forall ev :: ev in events && ev.Append? ==> ev.entry.id != id
    requires again.log == AfterEvents(Last(Swap(d, id, target, f).0).log, events)
    ensures Handled(again, true, id, target, prepared, g) == ([again], Converged)
  {
    ExecOnlyWhenLogged(d, id, target, f);
    KeptThrough(Last(Swap(d, id, target, f).0).log, ConvergedEntry(id, target), events);
  }

  // ------------------------------------------------------------ histories of updates

  /** What happens to a machine: an update command, cut short by a crash if `stop` says
      so, or a start of the agent, by the exec or by its supervisor. */
  datatype Deed =
    | Update(id: string, target: string, prepared: Option<nat>, f: Faults, stop: Option<nat>)
    | Start

  datatype Machine = Machine(disk: Disk, up: bool)

  function Passed(d: Disk, u: Deed): (trace: seq<Disk>)
    requires u.Update?
    ensures trace != []
  {
    Handled(d, true, u.id, u.target, u.prepared, u.f).0
  }

  function Done(m: Machine, deed: Deed): Machine {
    match deed
    case Start => if m.disk.bin.None? then m else Machine(m.disk.(log := Reopened(m.disk.log)), true)
    case Update(_, _, _, _, stop) =>
      if !m.up then m
      else
        var trace := Passed(m.disk, deed);
        if stop.Some? && stop.value < |trace| then Machine(trace[stop.value], false) else Machine(Last(trace), true)
  }

  function AfterDeeds(m: Machine, deeds: seq<Deed>): Machine {
    if deeds == [] then m else Done(AfterDeeds(m, deeds[..|deeds| - 1]), deeds[|deeds| - 1])
  }

  predicate Intact(d: Disk) { d.bin.Some? || d.backup.Some? }

  ghost predicate IntactThrough(d: Disk, u: Deed)
    requires u.Update?
  {
    forall k :: 0 <= k < |Passed(d, u)| ==> Intact(Passed(d, u)[k])
  }

  lemma {:induction false} SwapIntact(d: Disk, id: string, target: string, f: Faults)
    requires d.bin.Some? && d.staged.Some?
    ensures forall k :: 0 <= k < |Swap(d, id, target, f).0| ==> Intact(Swap(d, id, target, f).0[k])
  {
    forall k | 0 <= k < |Swap(d, id, target, f).0| ensures Intact(Swap(d, id, target, f).0[k]) {
      SurvivesEverywhere(d, d.bin.value, d.staged.value, id, target, f, k);
    }
  }

  /** Exactly when an update leaves no intact binary at the binary path nor its backup:
      it comes while the binary path is empty, and clears the backup away before it
      finds that there is nothing to move aside. */
  lemma {:induction false} LostIff(d: Disk, u: Deed)
    requires u.Update? && Intact(d)
    ensures IntactThrough(d, u) <==>
            d.bin.Some? || AlreadyApplied(d.log.entries, u.id) || u.prepared.None? || !u.f.removeBackup
  {
    if !AlreadyApplied(d.log.entries, u.id) && u.prepared.Some? {
      var ready := d.(staged := u.prepared);
      var trace := Swap(ready, u.id, u.target, u.f).0;
      assert Passed(d, u) == [d] + trace;
      if d.bin.Some? {
        SwapIntact(ready, u.id, u.target, u.f);
      } else {
        assert Passed(d, u)[2] == trace[1] == BackupRemoved(ready, u.f.removeBackup);
        assert |trace| == 4;
      }
    }
  }

  /** A running agent is without a binary exactly after an install that failed together
      with its restore. */
  lemma {:induction false} MissingOnlyAfter(m: Machine, u: Deed)
    requires u.Update? && m.up && m.disk.bin.Some?
    ensures var after := Done(m, u);
            after.up && after.disk.bin.None? <==>
            !AlreadyApplied(m.disk.log.entries, u.id) && u.prepared.Some? &&
            u.f.backUp && !u.f.install && !u.f.restore && (u.stop.Some? ==> u.stop.value >= |Passed(m.disk, u)|)
  {
    var ready := m.disk.(staged := u.prepared);
    if u.prepared.Some? {
      EndingsInstall(ready, m.disk.bin.value, u.prepared.value, u.id, u.target, u.f);
    }
  }

  /** No update comes to an agent whose binary path is empty. */
  ghost predicate NeverUnarmed(m: Machine, deeds: seq<Deed>) {
    forall i :: 0 <= i < |deeds| && deeds[i].Update? && AfterDeeds(m, deeds[..i]).up ==> AfterDeeds(m, deeds[..i]).disk.bin.Some?
  }

  /** Over any history of updates, crashes at any point and starts, an intact binary is
      always at the binary path or its backup, also in the middle of every update, as
      long as no update comes while the binary path is empty. */
  lemma {:induction false} SurvivesHistory(m: Machine, deeds: seq<Deed>)
    requires Intact(m.disk) && NeverUnarmed(m, deeds)
    ensures Intact(AfterDeeds(m, deeds).disk)
    ensures forall i :: 0 <= i < |deeds| && deeds[i].Update? && AfterDeeds(m, deeds[..i]).up ==>
              IntactThrough(AfterDeeds(m, deeds[..i]).disk, deeds[i])
  {
    if deeds != [] {
      var n := |deeds| - 1;
      assert forall i :: 0 <= i <= n ==> deeds[..n][..i] == deeds[..i];
      assert forall i :: 0 <= i < n ==> deeds[..n][i] == deeds[i];
      SurvivesHistory(m, deeds[..n]);
      var before := AfterDeeds(m, deeds[..n]);
      if deeds[n].Update? && before.up {
        LostIff(before.disk, deeds[n]);
      }
    }
  }

  /** Without that proviso it fails: after an install that failed together with its
      restore, the retry that the log asks for clears away the last intact binary. */
  lemma {:induction false} RetryLosesBinary(m: Machine, first: Deed, again: Deed)
    requires m.up && m.disk.bin.Some? && first.Update? && again.Update? && again.id == first.id
    requires !AlreadyApplied(m.disk.log.entries, first.id)
    requires first.prepared.Some? && first.stop.None? && first.f.backUp && !first.f.install && !first.f.restore
    requires again.prepared.Some? && again.stop.None? && again.f.removeBackup && again.f.removeStaged
    ensures var left := AfterDeeds(m, [first, again]);
            left.up && left.disk.bin == left.disk.backup == left.disk.staged == None
  {
    assert [first, again][..1] == [first] && [first][..0] == [];
    var half := Done(m, first);
    DivergedIsRetried(m.disk.(staged := first.prepared), first.id, first.target, first.f);
    assert AfterDeeds(m, [first]) == half;
    assert half.disk.bin == None && !AlreadyApplied(half.disk.log.entries, first.id);
    assert AfterDeeds(m, [first, again]) == Done(half, again);
  }

  // ------------------------------------------------------------ the object

  class Updater {
    var bin: Option<nat>
    var backup: Option<nat>
    var staged: Option<nat>
    const applied: AppliedRing
    /** Every state the disk has been in. */
    ghost var trace: seq<Disk>

    function View(): Disk
      reads this, applied
    {
      Disk(bin, backup, staged, applied.Value())
    }

    constructor (bin: Option<nat>, applied: AppliedRing)
      ensures this.bin == bin && backup == None && staged == None && this.applied == applied
      ensures trace == [View()]
    {
      this.bin, this.backup, this.staged, this.applied := bin, None, None, applied;
      new;
      trace := [View()];
    }

    method Note()
      modifies this`trace
      ensures trace == old(trace) + [View()]
    {
      trace := trace + [View()];
    }

    method Record(id: string, code: string, io: bool)
      modifies this`trace, applied
      ensures View() == Logged(old(View()), DivergedEntry(id, code), io) && trace == old(trace) + [View()]
    {
      var _ := applied.Append(DivergedEntry(id, code), io);
      Note();
    }

    method RemoveStaged(io: bool)
      modifies this`staged, this`trace
      ensures View() == StagedRemoved(old(View()), io) && trace == old(trace) + [View()]
    {
      if io {
        staged := None;
      }
      Note();
    }

    method Restore()
      modifies this`bin, this`backup, this`trace
      ensures View() == Restored(old(View())) && trace == old(trace) + [View()]
    {
      bin, backup := backup, None;
      Note();
    }

    method BackUp(f: Faults) returns (ok: bool)
      modifies this`bin, this`backup, this`trace
      ensures ok == (f.backUp && old(bin).Some?)
      ensures var d1 := BackupRemoved(old(View()), f.removeBackup);
              if ok then View() == BackedUp(d1) && trace == old(trace) + [d1, View()]
              else View() == d1 && trace == old(trace) + [d1]
    {
      if f.removeBackup {
        backup := None;
      }
      Note();
      if !f.backUp || bin.None? {
        return false;
      }
      backup, bin := bin, None;
      Note();
      return true;
    }

    method SwapAndRestart(id: string, target: string, f: Faults) returns (ending: Ending)
      requires trace != [] && Last(trace) == View()
      modifies this, applied
      ensures ending == Swap(old(View()), id, target, f).1
      ensures trace == old(trace[..|trace| - 1]) + Swap(old(View()), id, target, f).0
      ensures View() == Last(Swap(old(View()), id, target, f).0)
    {
      assert trace == trace[..|trace| - 1] + [View()];
      var ok := BackUp(f);
      if !ok {
        RemoveStaged(f.removeStaged);
        Record(id, "backup_failed", f.record);
        return BackupFailed;
      }
      if !f.install {
        ending := UndoInstall(id, f);
        return;
      }
      ending := InstallAndLog(id, target, f);
    }

    method InstallAndLog(id: string, target: string, f: Faults) returns (ending: Ending)
      modifies this, applied
      ensures ending == if !f.append then LogFailed(f.rollBack) else if f.exec then Restarted else ExecFailed
      ensures var d3 := Installed(old(View()));
              var d4 := Logged(d3, ConvergedEntry(id, target), f.append);
              if f.append then View() == d4 && trace == old(trace) + [d3, d4]
              else
                var d5 := if f.rollBack then Restored(d4) else d4;
                && View() == Logged(d5, DivergedEntry(id, "applied_log_failed"), f.record)
                && trace == old(trace) + (if f.rollBack then [d3, d4, d5, View()] else [d3, d4, View()])
    {
      bin, staged := staged, None;
      Note();
      var ok := applied.Append(ConvergedEntry(id, target), f.append);
      Note();
      if !ok {
        if f.rollBack {
          Restore();
        }
        Record(id, "applied_log_failed", f.record);
        return LogFailed(f.rollBack);
      }
      ending := if f.exec then Restarted else ExecFailed;
    }

    method UndoInstall(id: string, f: Faults) returns (ending: Ending)
      modifies this, applied
      ensures ending == InstallFailed(f.restore)
      ensures var d3 := Restored(old(View()));
              var d4 := StagedRemoved(d3, f.removeStaged);
              if f.restore then
                View() == Logged(d4, DivergedEntry(id, "install_failed"), f.record) && trace == old(trace) + [d3, d4, View()]
              else
                View() == Logged(old(View()), DivergedEntry(id, "install_failed"), f.record) && trace == old(trace) + [View()]
    {
      if f.restore {
        Restore();
        RemoveStaged(f.removeStaged);
      }
      Record(id, "install_failed", f.record);
      return InstallFailed(f.restore);
    }
  }
}
