/** Concrete runs: what the code does at the edge of its guarantees. */
module UpgradeRuns {
  import opened Options
  import opened Upgrade
  import opened UpgradeInvariant
  import opened UpgradeTheorems
  import Retention

  /** A run that is being extended event by event. */
  datatype Tale = Tale(start: State, events: seq<Event>, now: State)

  ghost predicate True(x: Tale) {
    Past(x.start, x.events, x.now)
  }

  lemma Then(x: Tale, e: Event) returns (y: Tale)
    requires True(x) && Enabled(x.now, e)
    ensures True(y) && y.now == Next(x.now, e)
  {
    PastOn(x.start, x.events, x.now, e);
    y := Tale(x.start, x.events + [e], Next(x.now, e));
  }

  /** What reading VERSION yields along these runs. */
  predicate ReadsOne(s: State) {
    s.dev.tree.Whole? ==> s.dev.tree.value.version == 1
  }

  /** The current operation ends normally. */
  lemma Go(x: Tale) returns (y: Tale)
    requires True(x) && !x.now.pc.Idle? && !x.now.pc.Write? && ReadsOne(x.now) && CanFinish(x.now)
    ensures True(y) && y.now == Finish(x.now, 1)
  {
    y := Then(x, Step(Done, 1));
  }

  /** The current write to the status file succeeds. */
  lemma Save(x: Tale) returns (y: Tale)
    requires True(x) && x.now.pc.Write? && ReadsOne(x.now)
    ensures True(y) && y.now == Store(x.now, x.now.pc.w, 1, true)
  {
    y := Then(x, Step(Done, 1));
  }

  lemma Crash(x: Tale) returns (y: Tale)
    requires True(x)
    ensures True(y) && y.now == x.now.(pc := Idle, h := x.now.h.(raised := None))
  {
    y := Then(x, Kill);
  }

  lemma Begin(x: Tale, entry: Entry) returns (y: Tale)
    requires True(x) && x.now.pc.Idle? && CanEnter(x.now.dev.status, entry)
    ensures True(y) && y.now == x.now.(pc := EntryPoint(x.now.dev.status, entry), memo := x.now.dev.status,
            h := x.now.h.(raised := None))
  {
    y := Then(x, Enter(entry));
  }

  const OldProgram := Program(1, 10)
  const NewProgram := Program(2, 20)

  function Rest(): State {
    var st := DefaultStatus(1);
    State(Device(st, Whole(OldProgram), Whole(5), Whole(7), map[], {}, OldProgram, 0, 1), Idle, st, Broken,
          History(Whole(OldProgram), Whole(5), Whole(7), false, false, false, 0, 0, None))
  }

  /** Job 1 in some phase, before anything was backed up. */
  function JobOne(phase: Phase, requested: bool, target: Version): Status {
    Status(1, phase, requested, 1, target, 0, 0, false, false, false, false, None, 0, false)
  }

  lemma UntilValidating() returns (x: Tale)
    ensures True(x) && x.now.pc.ValCheck? && x.now.memo == JobOne(VALIDATING, false, 0)
    ensures x.now.dev == Rest().dev.(status := JobOne(VALIDATING, false, 0), nextJob := 2)
    ensures x.now.h == Rest().h
  {
    x := Tale(Rest(), [], Rest());
    PastRuns(Rest(), [], Rest());
    x := Begin(x, Validate);
    x := Then(x, Step(Swept([], {}, {}, true), 1));
    x := Go(x);
    x := Save(x);
  }

  lemma UntilReady() returns (x: Tale)
    ensures True(x) && x.now.pc.Idle?
    ensures x.now.dev == Rest().dev.(status := JobOne(READY, false, 2), package := NewProgram, base := 1, nextJob := 2)
    ensures x.now.h == Rest().h
  {
    x := UntilValidating();
    x := Then(x, Step(Chosen(NewProgram), 1));
    x := Save(x);
    x := Then(x, Step(Swept([], {}, {}, true), 1));
  }

  lemma UntilRequested() returns (x: Tale)
    ensures True(x) && x.now.pc.Idle?
    ensures x.now.dev == Rest().dev.(status := JobOne(READY, true, 2), package := NewProgram, base := 1, nextJob := 2)
    ensures x.now.h == Rest().h
  {
    x := UntilReady();
    x := Begin(x, RequestStart);
    x := Go(x);
    x := Save(x);
    x := Go(x);
  }

  /** Job 1 once its runner has taken over. */
  function Running(phase: Phase, complete: bool): Status {
    Status(1, phase, true, 1, 2, 1, 1, complete, false, false, false, None, 0, false)
  }

  function RunningDevice(status: Status, backup: Backup): Device {
    Rest().dev.(status := status, package := NewProgram, base := 1, nextJob := 2, backups := map[1 := backup])
  }

  const HalfBackup := Backup(Some(Whole(OldProgram)), Some(Whole(5)), None, None)

  lemma UntilBackingUp() returns (x: Tale)
    ensures True(x) && x.now.pc.MakeBackup?
    ensures x.now.dev == RunningDevice(Running(BACKING_UP, false), EmptyBackup).(backups := map[])
    ensures x.now.h == Rest().h.(backingUp := 1)
  {
    x := UntilRequested();
    x := Begin(x, Run);
    x := Go(x);
    x := Save(x);
  }

  lemma UntilCopied() returns (x: Tale)
    ensures True(x) && x.now.pc == PC.Write(RunStopping)
    ensures x.now.dev == RunningDevice(Running(BACKING_UP, false), HalfBackup)
    ensures x.now.h == Rest().h.(backingUp := 1)
  {
    x := UntilBackingUp();
    x := Go(x);
    assert x.now.dev == RunningDevice(Running(BACKING_UP, false), EmptyBackup);
    x := Go(x);
    x := Go(x);
  }

  lemma UntilStopped() returns (x: Tale)
    ensures True(x) && x.now.pc.EndSnapshot? && x.now.snap == Whole(7)
    ensures x.now.dev == RunningDevice(Running(STOPPING, false), HalfBackup)
    ensures x.now.h == Rest().h.(backingUp := 1)
  {
    x := UntilCopied();
    x := Save(x);
    x := Go(x);
    x := Go(x);
  }

  const OldBackup := Backup(Some(Whole(OldProgram)), Some(Whole(5)), Some(Whole(7)), Some(1))

  lemma UntilCommitted() returns (x: Tale)
    ensures True(x) && x.now.pc == PC.Write(RunInstalling)
    ensures x.now.dev == RunningDevice(Running(STOPPING, true), OldBackup)
    ensures x.now.h == Rest().h.(backingUp := 1)
  {
    x := UntilStopped();
    x := Go(x);
    x := Go(x);
    assert x.now.dev == RunningDevice(Running(STOPPING, false), OldBackup);
    x := Save(x);
  }

  /** A kill right after the backup was committed, and a recovery killed while it reinstalls. */
  lemma UntilTornInRecovery() returns (x: Tale)
    ensures True(x) && x.now.pc.Idle? && x.now.dev == TornDevice(1, ROLLING_BACK) && !Exempt(x.now.h)
            && x.now.h.tree == Whole(OldProgram)
  {
    x := UntilCommitted();
    x := Crash(x);
    x := Begin(x, Recover);
    x := Save(x);
    x := Go(x);
    x := Go(x);
    x := Go(x);
    x := Go(x);
    x := Crash(x);
  }

  /** The device when a recovery attempt was cut short while the program was being replaced.  It is torn,
      but its directories, VERSION and environment file are there, as a later validation demands. */
  function TornDevice(attempts: nat, phase: Phase): Device {
    RunningDevice(Status(1, phase, false, 1, 2, 1, 1, true, true, false, true, Some(STOPPING), attempts, false),
        OldBackup)
      .(tree := Broken, env := Broken)
  }

  /** A transient error while reading the marker of a complete backup is reported like a missing
      marker.  For an upgrade that was interrupted in STOPPING, recovery then deletes that backup,
      opens the gate, and leaves the half-installed program: the reason for `lost`. */
  lemma UnreadableMarkerLosesTheBackup() returns (x: Tale)
    ensures True(x) && x.now.h.lost && !x.now.h.orphaned && !x.now.h.gaveUp
    ensures x.now.dev.tree == Broken && Gate(x.now.dev.status) && x.now.dev.backups == map[]
    ensures x.now.dev.status.phase.FAILED? && !x.now.dev.status.required
  {
    x := UntilMisread();
    x := Go(x);
    assert x.now.dev.backups == map[];
    x := Save(x);
  }

  lemma UntilRetried() returns (x: Tale)
    ensures True(x) && x.now.pc.RecLoad? && !Exempt(x.now.h) && x.now.h.tree == Whole(OldProgram)
    ensures x.now.dev == TornDevice(2, ROLLING_BACK) && x.now.memo == x.now.dev.status
  {
    x := UntilTornInRecovery();
    x := Begin(x, Recover);
    x := Save(x);
  }

  lemma UntilMisread() returns (x: Tale)
    ensures True(x) && x.now.pc.RecDropPartial? && !Exempt(x.now.h) && x.now.h.tree == Whole(OldProgram)
    ensures x.now.dev == TornDevice(2, ROLLING_BACK) && x.now.memo == x.now.dev.status
  {
    x := UntilRetried();
    x := Then(x, Step(Raise(BackupIncomplete), 1));
  }

  /** Three killed attempts later the fourth recovery opens the gate on whatever is there. */
  lemma GivingUpOpensTheGate() returns (x: Tale)
    ensures True(x) && x.now.h.gaveUp && !x.now.h.orphaned && !x.now.h.lost
    ensures x.now.dev.tree == Broken && Gate(x.now.dev.status) && x.now.dev.status.phase.FAILED?
  {
    x := UntilTornInRecovery();
    x := Begin(x, Recover);
    x := Save(x);
    x := Crash(x);
    x := Begin(x, Recover);
    x := Save(x);
    x := Crash(x);
    assert x.now.dev == TornDevice(3, ROLLING_BACK);
    x := Begin(x, Recover);
    x := Save(x);
  }

  /** A recovery attempt that fails and may be retried. */
  lemma UntilFailed() returns (x: Tale)
    ensures True(x) && x.now.pc.Idle? && !Exempt(x.now.h)
    ensures x.now.dev == TornDevice(2, FAILED).(status := TornDevice(2, FAILED).status.(failed := true))
  {
    x := UntilRetried();
    x := Then(x, Step(Raise(Other), 1));
    x := Save(x);
  }

  /** A validation is not refused while a failed recovery is still required: it forgets the duty to
      restore, and the gate opens on a damaged device.  This is the reason for `orphaned`. */
  lemma ValidationForgetsRecovery() returns (x: Tale)
    ensures True(x) && x.now.h.orphaned
    ensures x.now.dev.tree == Broken && Gate(x.now.dev.status) && x.now.dev.status.backup == 0
            && !x.now.dev.status.required
  {
    x := UntilFailed();
    x := Begin(x, Validate);
    var sweep := Swept([1], {}, {}, true);
    assert Retention.Entries([1]) == {1} == x.now.dev.backups.Keys;
    x := Then(x, Step(sweep, 1));
    x := Go(x);
    x := Save(x);
  }

  /** The write of INSTALLING raises after the file was replaced: the handler of the time before the
      installation answers, and the phase goes from INSTALLING to FAILED. */
  lemma InstallingBecomesFailed() returns (x: Tale, e: Event)
    ensures True(x) && Enabled(x.now, e) && !Exempt(x.now.h)
    ensures x.now.dev.status.phase.INSTALLING? && Next(x.now, e).dev.status.phase.FAILED?
  {
    x := UntilCommitted();
    x := Then(x, Step(RaiseLate, 1));
    e := Step(Done, 1);
  }

  lemma UntilInstalling() returns (x: Tale)
    ensures True(x) && x.now.pc.Install?
    ensures x.now.dev == RunningDevice(Running(INSTALLING, true), OldBackup)
    ensures x.now.h == Rest().h.(backingUp := 1)
  {
    x := UntilCommitted();
    x := Save(x);
  }

  lemma UntilRollingBack() returns (x: Tale)
    ensures True(x) && x.now.pc == Restoring(ToStop, Runner) && x.now.memo == x.now.dev.status
    ensures x.now.dev == RunningDevice(Running(ROLLING_BACK, true), OldBackup)
    ensures x.now.h == Rest().h.(backingUp := 1, raised := Some(Install))
  {
    x := UntilInstalling();
    x := Then(x, Step(Raise(Other), 1));
    x := Save(x);
  }

  lemma UntilReinstalled() returns (x: Tale)
    ensures True(x) && x.now.pc == Restoring(ToEnv, Runner) && x.now.memo == x.now.dev.status
    ensures x.now.dev == RunningDevice(Running(ROLLING_BACK, true), OldBackup)
    ensures x.now.h == Rest().h.(backingUp := 1, raised := Some(Install))
  {
    x := UntilRollingBack();
    x := Go(x);
    x := Go(x);
    x := Go(x);
    x := Then(x, Step(Built(5), 1));
  }

  lemma UntilEnvironment() returns (x: Tale)
    ensures True(x) && x.now.pc == Restoring(ToData, Runner) && x.now.memo == x.now.dev.status
    ensures x.now.dev == RunningDevice(Running(ROLLING_BACK, true), OldBackup)
    ensures x.now.h == Rest().h.(backingUp := 1, raised := Some(Install))
  {
    x := UntilReinstalled();
    x := Go(x);
    x := Go(x);
  }

  lemma UntilRestored() returns (x: Tale)
    ensures True(x) && x.now.pc == PC.Write(RunPending) && x.now.memo == x.now.dev.status
    ensures x.now.dev == RunningDevice(Running(ROLLING_BACK, true), OldBackup)
    ensures x.now.h == Rest().h.(backingUp := 1, raised := Some(Install))
  {
    x := UntilEnvironment();
    x := Go(x);
    x := Go(x);
    x := Go(x);
  }

  lemma UntilAnnounced() returns (x: Tale)
    ensures True(x) && x.now.pc.StartOld? && x.now.memo == x.now.dev.status
    ensures x.now.dev == RunningDevice(Running(ROLLING_BACK, true).(pending := true), OldBackup)
    ensures x.now.h == Rest().h.(backingUp := 1, raised := Some(Install))
  {
    x := UntilRestored();
    x := Save(x);
  }

  lemma UntilStarted() returns (x: Tale)
    ensures True(x) && x.now.pc.StartOld? && x.now.memo == x.now.dev.status
    ensures x.now.dev == RunningDevice(Running(ROLLING_BACK, true).(pending := true), OldBackup).(running := SERVICES)
    ensures x.now.h == Rest().h.(backingUp := 1, raised := Some(Install))
  {
    x := UntilAnnounced();
    x := Then(x, Step(Started(Controller), 1));
    x := Then(x, Step(Started(Web), 1));
    x := Then(x, Step(Started(LogRotator), 1));
    assert x.now.dev.running == SERVICES;
  }

  lemma UntilRolledBack() returns (x: Tale)
    ensures True(x) && x.now.pc.SweepRolledBack? && !Exempt(x.now.h) && x.now.dev.status.phase.ROLLED_BACK?
    ensures x.now.dev.tree == Whole(OldProgram)
  {
    x := UntilStarted();
    x := Go(x);
    x := Go(x);
    x := Save(x);
  }

  /** The clean-up after ROLLED_BACK raises: the handler of the rollback answers, and the phase goes
      from ROLLED_BACK to FAILED with a recovery required. */
  lemma RolledBackBecomesFailed() returns (x: Tale, e: Event)
    ensures True(x) && Enabled(x.now, e) && !Exempt(x.now.h)
    ensures x.now.dev.status.phase.ROLLED_BACK? && Next(x.now, e).dev.status.phase.FAILED?
            && Next(x.now, e).dev.status.required
  {
    x := UntilRolledBack();
    x := Then(x, Step(Raise(Other), 1));
    e := Step(Done, 1);
  }
}
