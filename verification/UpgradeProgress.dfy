/** An upgrade that nothing disturbs succeeds, and one that fails is rolled back. */
module UpgradeProgress {
  import opened Options
  import opened Upgrade
  import opened UpgradeInvariant
  import opened UpgradeTheorems
  import opened UpgradePass

  // ----- from the request to SUCCESS

  /** A run going forward: the data and the package are what they were. */
  ghost predicate Forward(x: Pass, s: State, pc: PC) {
    Along(x, s, pc, 0) && x.now.dev.data == s.dev.data && x.now.dev.package == s.dev.package
  }

  /** An operation that only moves on. */
  lemma Onward(s: State, x0: Pass, pc: PC) returns (x: Pass)
    requires Forward(x0, s, x0.now.pc) && Plain(x0.now.pc) && pc == AfterPlain(x0.now.pc)
    ensures Forward(x, s, pc)
  {
    SaneMeans(x0);
    x := Go(x0);
  }

  predicate Plain(pc: PC) {
    pc.RunCheck? || pc.MakeBackup? || pc.CopyProgram? || pc.CopyEnv? || pc.BeginSnapshot? || pc.EndSnapshot?
        || pc.Commit? ||
    pc.Install? || pc.InstallSync?
  }

  function AfterPlain(pc: PC): PC
    requires Plain(pc)
  {
    match pc
    case RunCheck => PC.Write(RunBackingUp)
    case MakeBackup => CopyProgram
    case CopyProgram => CopyEnv
    case CopyEnv => PC.Write(RunStopping)
    case BeginSnapshot => EndSnapshot
    case EndSnapshot => Commit
    case Commit => PC.Write(RunCommitted)
    case Install => InstallEnd
    case InstallSync => PC.Write(RunStarting)
  }

  /** A status write of the forward path goes through. */
  lemma WrittenSaving(s: State, x0: Pass, w: Write) returns (x: Pass)
    requires Forward(x0, s, PC.Write(w)) && Saving(w)
    ensures Forward(x, s, AfterWrite(w)) && x.now.dev == x0.now.dev.(status := x.now.dev.status)
  {
    SaneMeans(x0);
    x := Save(x0);
  }

  lemma WrittenSwitching(s: State, x0: Pass, w: Write) returns (x: Pass)
    requires Forward(x0, s, PC.Write(w)) && (w.RunStarting? || w.RunVerifying?)
    ensures Forward(x, s, AfterWrite(w)) && x.now.dev == x0.now.dev.(status := x.now.dev.status)
  {
    SaneMeans(x0);
    x := Save(x0);
  }

  lemma WrittenSuccess(s: State, x0: Pass) returns (x: Pass)
    requires Forward(x0, s, PC.Write(RunSuccess))
    ensures Forward(x, s, SweepSuccess) && x.now.dev == x0.now.dev.(status := x.now.dev.status)
  {
    SaneMeans(x0);
    x := Save(x0);
  }

  lemma ToRunCheck(s: State) returns (x: Pass)
    requires Inv(s) && !Exempt(s.h) && s.pc.Idle? && CanEnter(s.dev.status, Run)
    ensures Forward(x, s, RunCheck)
  {
    x := Begins(s);
    x := On(x, Enter(Run));
  }

  lemma ToStopping(s: State, x0: Pass) returns (x: Pass)
    requires Forward(x0, s, RunCheck)
    ensures Forward(x, s, StopAll)
  {
    x := Onward(s, x0, PC.Write(RunBackingUp));
    x := WrittenSaving(s, x, RunBackingUp);
    x := Onward(s, x, CopyProgram);
    x := Onward(s, x, CopyEnv);
    x := Onward(s, x, PC.Write(RunStopping));
    x := WrittenSaving(s, x, RunStopping);
  }

  lemma AllStopped(s: State, x0: Pass) returns (x: Pass)
    requires Forward(x0, s, StopAll)
    ensures Forward(x, s, BeginSnapshot)
  {
    x := StopServices(x0);
    x := Go(x);
  }

  lemma ToInstalling(s: State, x0: Pass) returns (x: Pass)
    requires Forward(x0, s, BeginSnapshot)
    ensures Forward(x, s, Install)
  {
    x := Onward(s, x0, EndSnapshot);
    x := Onward(s, x, Commit);
    x := Onward(s, x, PC.Write(RunCommitted));
    x := WrittenSaving(s, x, RunCommitted);
    x := WrittenSaving(s, x, RunInstalling);
  }

  lemma Installed(s: State, x0: Pass) returns (x: Pass)
    requires Forward(x0, s, InstallEnd)
    ensures Forward(x, s, InstallSync)
  {
    SaneMeans(x0);
    x := On(x0, Step(Built(0), Seen(x0.now.dev)));
  }

  lemma ToStart(s: State, x0: Pass) returns (x: Pass)
    requires Forward(x0, s, Install)
    ensures Forward(x, s, StartNew)
  {
    x := Onward(s, x0, InstallEnd);
    x := Installed(s, x);
    x := Onward(s, x, PC.Write(RunStarting));
    x := WrittenSwitching(s, x, RunStarting);
  }

  lemma GateForNew(x: Pass)
    requires Sane(x) && x.now.pc.StartNew?
    ensures Gate(x.now.dev.status)
  {
    SaneMeans(x);
  }

  lemma ToVerify(s: State, x0: Pass) returns (x: Pass)
    requires Forward(x0, s, StartNew)
    ensures Forward(x, s, VerifyNew) && x.now.dev.running == SERVICES
  {
    GateForNew(x0);
    x := ManagerStarts(x0);
    x := Go(x);
    x := WrittenSwitching(s, x, RunVerifying);
  }

  lemma Verified(s: State, x0: Pass) returns (x: Pass)
    requires Forward(x0, s, VerifyNew) && x0.now.dev.running == SERVICES
    ensures Forward(x, s, PC.Write(RunSuccess)) && x.now.dev == x0.now.dev
  {
    SaneMeans(x0);
    x := Go(x0);
  }

  lemma SuccessMeans(x: Pass)
    requires Sane(x) && x.now.pc.SweepSuccess?
    ensures x.now.dev.status.phase.SUCCESS? && x.now.dev.tree == Whole(x.now.dev.package) && Undamaged(x.now.dev)
    ensures x.now.dev.status.current == x.now.dev.package.version
  {
    SaneMeans(x);
  }

  lemma Succeeds(s: State) returns (x: Pass)
    requires Inv(s) && !Exempt(s.h) && s.pc.Idle? && CanEnter(s.dev.status, Run)
    ensures Forward(x, s, Idle) && x.now.dev.status.phase.SUCCESS? && x.now.dev.tree == Whole(s.dev.package)
    ensures x.now.dev.status.current == s.dev.package.version && x.now.dev.running == SERVICES && Undamaged(x.now.dev)
  {
    x := ToRunCheck(s);
    x := ToStopping(s, x);
    x := AllStopped(s, x);
    x := ToInstalling(s, x);
    x := ToStart(s, x);
    x := ToVerify(s, x);
    x := Verified(s, x);
    x := WrittenSuccess(s, x);
    SuccessMeans(x);
    x := SweepAll(x);
  }

  /** From every state a run can be in where a job is ready and requested, the undisturbed runner brings it to
      SUCCESS: the package's program in place, all services up on it, and the data as it was. */
  lemma RunWorks(s0: State, es: seq<Event>, s: State) returns (fs: seq<Event>, t: State)
    requires Init(s0) && Runs(s0, es, s) && !Exempt(s.h) && s.pc.Idle? && CanEnter(s.dev.status, Run)
    ensures Runs(s, fs, t) && (forall e :: e in fs ==> Calm(e)) && Troubles(fs) == 0
    ensures t.pc.Idle? && t.dev.status.job == s.dev.status.job && t.dev.status.phase.SUCCESS?
    ensures t.dev.tree == Whole(s.dev.package) && t.dev.status.current == s.dev.package.version
    ensures t.dev.running == SERVICES && Undamaged(t.dev) && t.dev.data == s.dev.data
  {
    Reached(s0, es, s);
    var x := Succeeds(s);
    SaneMeans(x);
    fs, t := x.events, x.now;
  }

  // ----- from a failure after the installation has begun to ROLLED_BACK

  /** The places of the runner from the start of the installation to the write of SUCCESS. */
  predicate Installing(pc: PC) {
    pc.Install? || pc.InstallEnd? || pc.InstallSync? || pc.StartNew? || pc.VerifyNew? ||
    pc in {PC.Write(RunStarting), PC.Write(RunVerifying), PC.Write(RunSuccess)}
  }

  predicate InstallPhase(p: Phase) {
    p.INSTALLING? || p.STARTING? || p.VERIFYING?
  }

  lemma RaiseLeads(s: State, code: Code, seen: Version)
    requires Placed(s) && Installing(s.pc) && Enabled(s, Step(Raise(code), seen))
    ensures Next(s, Step(Raise(code), seen)).pc == PC.Write(RunRolling)
    ensures Next(s, Step(Raise(code), seen)).dev == s.dev && InstallPhase(s.dev.status.phase)
  {
  }

  lemma LateLeads(s: State, seen: Version)
    requires Placed(s) && Installing(s.pc) && Enabled(s, Step(RaiseLate, seen))
    ensures var t := Next(s, Step(RaiseLate, seen));
            && t.pc == PC.Write(RunRolling) && t.dev.status.job == s.dev.status.job
            && (t.dev.status.phase.SUCCESS? <==> s.pc.w.RunSuccess?)
            && (InstallPhase(t.dev.status.phase) || t.dev.status.phase.SUCCESS?)
  {
  }

  lemma ToRollback(s: State) returns (x: Pass)
    requires Inv(s) && !Exempt(s.h) && s.pc == PC.Write(RunRolling) && InstallPhase(s.dev.status.phase)
    ensures At(x, s, Restoring(ToStop, Runner), 0)
  {
    x := Begins(s);
    x := Save(x);
  }

  lemma Announced(s: State, x0: Pass) returns (x: Pass)
    requires At(x0, s, PC.Write(RunPending), 0)
    ensures At(x, s, StartOld, 0) && x.now.dev.data == s.h.stopData && Gate(x.now.dev.status)
  {
    SaneMeans(x0);
    x := Save(x0);
  }

  lemma OldUp(s: State, x0: Pass) returns (x: Pass)
    requires At(x0, s, StartOld, 0) && Gate(x0.now.dev.status)
    ensures At(x, s, VerifyOld, 0) && x.now.dev.running == SERVICES && x.now.dev.data == x0.now.dev.data
  {
    x := ManagerStarts(x0);
    x := Go(x);
  }

  lemma OldVerified(s: State, x0: Pass) returns (x: Pass)
    requires At(x0, s, VerifyOld, 0) && x0.now.dev.running == SERVICES
    ensures At(x, s, PC.Write(RunRolledBack), 0) && x.now.dev == x0.now.dev
  {
    SaneMeans(x0);
    x := Go(x0);
  }

  lemma OldConfirmed(s: State, x0: Pass) returns (x: Pass)
    requires At(x0, s, PC.Write(RunRolledBack), 0)
    ensures At(x, s, SweepRolledBack, 0) && x.now.dev == x0.now.dev.(status := x.now.dev.status)
    ensures x.now.dev.status.phase.ROLLED_BACK?
  {
    SaneMeans(x0);
    x := Save(x0);
  }

  lemma RollsBack(s: State) returns (x: Pass)
    requires Inv(s) && !Exempt(s.h) && s.pc == PC.Write(RunRolling) && InstallPhase(s.dev.status.phase)
    ensures At(x, s, Idle, 0) && x.now.dev.status.phase.ROLLED_BACK? && Kept(x.now.dev, x.now.h)
    ensures x.now.dev.running == SERVICES && x.now.dev.data == s.h.stopData
  {
    x := ToRollback(s);
    x := RestoreAll(s, x, Runner, 0);
    x := Announced(s, x);
    x := OldUp(s, x);
    x := OldVerified(s, x);
    x := OldConfirmed(s, x);
    RolledBackMeans(x);
    x := SweepAll(x);
  }

  /** Whatever operation fails between the start of the installation and SUCCESS, early or late: unless SUCCESS
      has reached the disk, the undisturbed runner brings the job to ROLLED_BACK, with the old program and
      environment, the data of the stop, and all services up on them. */
  lemma RollbackWorks(s0: State, es: seq<Event>, s: State, e: Event) returns (fs: seq<Event>, t: State)
    requires Init(s0) && Runs(s0, es, s) && !Exempt(s.h) && Installing(s.pc)
    requires Enabled(s, e) && e.Step? && (e.outcome.Raise? || e.outcome.RaiseLate?)
    requires !(s.pc == PC.Write(RunSuccess) && e.outcome.RaiseLate?)
    ensures Runs(Next(s, e), fs, t) && (forall f :: f in fs ==> Calm(f)) && Troubles(fs) == 0
    ensures t.pc.Idle? && t.dev.status.job == s.dev.status.job && t.dev.status.phase.ROLLED_BACK?
    ensures t.dev.tree == s.h.tree && t.dev.env == s.h.env && t.dev.data == s.h.stopData && t.dev.running == SERVICES
  {
    Reached(s0, es, s);
    var r := Next(s, e);
    InvKept(s, e);
    RaiseKeepsHistory(s, e);
    if e.outcome.Raise? {
      RaiseLeads(s, e.outcome.code, e.seen);
    } else {
      LateLeads(s, e.seen);
    }
    var x := RollsBack(r);
    SaneMeans(x);
    fs, t := x.events, x.now;
  }

  lemma RaiseKeepsHistory(s: State, e: Event)
    requires Installing(s.pc) && Enabled(s, e) && e.Step? && (e.outcome.Raise? || e.outcome.RaiseLate?)
    ensures Next(s, e).h == s.h.(raised := Next(s, e).h.raised)
  {
  }

  // ----- from a failure before the installation to FAILED

  /** The places of the runner before the installation, and whether services may have been stopped there. */
  predicate Preparing(pc: PC) {
    pc.RunCheck? || pc.MakeBackup? || pc.CopyProgram? || pc.CopyEnv? || Affected(pc) ||
    pc in {PC.Write(RunBackingUp), PC.Write(RunStopping)}
  }

  predicate Affected(pc: PC) {
    pc.StopAll? || pc.BeginSnapshot? || pc.EndSnapshot? || pc.Commit? ||
    pc in {PC.Write(RunCommitted), PC.Write(RunInstalling)}
  }

  lemma EarlyRaiseLeads(s: State, e: Event)
    requires Preparing(s.pc) && Enabled(s, e) && e.Step? && (e.outcome.Raise? || e.outcome.RaiseLate?)
    ensures var t := Next(s, e);
            && t.h == s.h.(raised := t.h.raised, backingUp := t.h.backingUp)
            && t.dev.status.job == s.dev.status.job && t.dev.data == s.dev.data
            && t.pc in {PC.Write(RunFailed(Affected(s.pc))), PC.Write(RunChanged)}
            && (t.pc == PC.Write(RunChanged) ==> s.pc.RunCheck?)
  {
  }

  lemma Fails(s: State, w: Write) returns (x: Pass)
    requires Inv(s) && !Exempt(s.h) && s.pc == PC.Write(w) && (w.RunFailed? || w.RunChanged?)
    ensures At(x, s, if w.RunFailed? && w.affected then Restart else Idle, 0) && x.now.dev.data == s.dev.data
    ensures x.now.dev.status.phase.FAILED? && !x.now.dev.status.required && !x.now.dev.status.requested
  {
    x := Begins(s);
    x := Save(x);
  }

  lemma FailedMeans(x: Pass)
    requires Sane(x) && x.now.dev.status.phase.FAILED? && !x.now.dev.status.required
    ensures Kept(x.now.dev, x.now.h) && Gate(x.now.dev.status)
  {
    SaneMeans(x);
  }

  lemma Restarted(s: State, x0: Pass) returns (x: Pass)
    requires At(x0, s, Restart, 0) && Gate(x0.now.dev.status)
    ensures At(x, s, Idle, 0) && x.now.dev == x0.now.dev.(running := SERVICES)
  {
    x := ManagerStarts(x0);
    x := Go(x);
  }

  lemma FailsAndRestarts(s: State, w: Write) returns (x: Pass)
    requires Inv(s) && !Exempt(s.h) && s.pc == PC.Write(w) && (w.RunFailed? || w.RunChanged?)
    ensures At(x, s, Idle, 0) && x.now.dev.data == s.dev.data && Kept(x.now.dev, x.now.h)
    ensures x.now.dev.status.phase.FAILED? && !x.now.dev.status.required && !x.now.dev.status.requested
    ensures w.RunFailed? && w.affected ==> x.now.dev.running == SERVICES
  {
    x := Fails(s, w);
    FailedMeans(x);
    if w.RunFailed? && w.affected {
      x := Restarted(s, x);
    }
  }

  /** Whatever fails before the installation, early or late, also the write of INSTALLING itself: the undisturbed
      runner ends the job in FAILED with nothing replaced and nothing left to recover, and has all services up
      again if it may have stopped them. */
  lemma EarlyFailureWorks(s0: State, es: seq<Event>, s: State, e: Event) returns (fs: seq<Event>, t: State)
    requires Init(s0) && Runs(s0, es, s) && !Exempt(s.h) && Preparing(s.pc)
    requires Enabled(s, e) && e.Step? && (e.outcome.Raise? || e.outcome.RaiseLate?)
    ensures Runs(Next(s, e), fs, t) && (forall f :: f in fs ==> Calm(f)) && Troubles(fs) == 0
    ensures t.pc.Idle? && t.dev.status.job == s.dev.status.job && t.dev.status.phase.FAILED?
    ensures !t.dev.status.required && !t.dev.status.requested
    ensures t.dev.tree == s.h.tree && t.dev.env == s.h.env && t.dev.data == s.dev.data && Undamaged(t.dev)
    ensures Affected(s.pc) ==> t.dev.running == SERVICES
  {
    Reached(s0, es, s);
    InvKept(s, e);
    EarlyRaiseLeads(s, e);
    var r := Next(s, e);
    var x := FailsAndRestarts(r, r.pc.w);
    SaneMeans(x);
    fs, t := x.events, x.now;
  }

  // ----- a whole upgrade

  /** A new upgrade may begin: nothing active or requested, nothing damaged, and the installed version readable. */
  predicate Ready(s: State) {
    s.pc.Idle? && CanEnter(s.dev.status, Validate) && Undamaged(s.dev) && s.dev.tree.value.version > 0
  }

  /** A validation under way: so far nothing but the status, the backups and the package has changed. */
  ghost predicate Validating(x: Pass, s: State, pc: PC) {
    && Sane(x) && x.start == s && x.troubles == 0 && x.now.pc == pc
    && x.now.dev.tree == s.dev.tree && x.now.dev.env == s.dev.env && x.now.dev.data == s.dev.data
  }

  lemma ToNewJob(s: State) returns (x: Pass)
    requires Inv(s) && !Exempt(s.h) && Ready(s)
    ensures Validating(x, s, PC.Write(ValStart)) && !x.now.memo.requested
  {
    x := Begins(s);
    x := On(x, Enter(Validate));
    x := SweepAll(x);
    x := Go(x);
  }

  lemma NewJob(s: State, x0: Pass) returns (x: Pass)
    requires Validating(x0, s, PC.Write(ValStart)) && !x0.now.memo.requested && Undamaged(s.dev)
    ensures Validating(x, s, ValCheck) && !x.now.memo.requested
  {
    x := Save(x0);
  }

  lemma PackageChosen(s: State, x0: Pass, p: Program) returns (x: Pass)
    requires Validating(x0, s, ValCheck) && !x0.now.memo.requested && p.version > 0
    ensures Validating(x, s, PC.Write(ValReady)) && !x.now.memo.requested && x.now.dev.package == p
  {
    SaneMeans(x0);
    x := On(x0, Step(Chosen(p), Seen(x0.now.dev)));
  }

  lemma PackageReady(s: State, x0: Pass) returns (x: Pass)
    requires Validating(x0, s, PC.Write(ValReady)) && !x0.now.memo.requested
    ensures Validating(x, s, ValSweepReady) && x.now.dev.package == x0.now.dev.package
    ensures x.now.dev.status.phase.READY? && !x.now.dev.status.requested
  {
    SaneMeans(x0);
    x := Save(x0);
  }

  lemma Validated(s: State, p: Program) returns (x: Pass)
    requires Inv(s) && !Exempt(s.h) && Ready(s) && p.version > 0
    ensures Validating(x, s, Idle) && x.now.dev.package == p
    ensures x.now.dev.status.phase.READY? && !x.now.dev.status.requested
  {
    x := ToNewJob(s);
    x := NewJob(s, x);
    x := PackageChosen(s, x, p);
    x := PackageReady(s, x);
    x := SweepAll(x);
  }

  lemma ToRequest(s: State, x0: Pass) returns (x: Pass)
    requires Validating(x0, s, Idle) && x0.now.dev.status.phase.READY? && !x0.now.dev.status.requested
    ensures Validating(x, s, PC.Write(Request)) && x.now.dev == x0.now.dev
  {
    SaneMeans(x0);
    x := On(x0, Enter(RequestStart));
    x := Go(x);
  }

  lemma RequestWritten(s: State, x0: Pass) returns (x: Pass)
    requires Validating(x0, s, PC.Write(Request)) && x0.now.dev.status.phase.READY?
    ensures Validating(x, s, RequestLaunch) && x.now.dev.package == x0.now.dev.package
    ensures x.now.dev.status.phase.READY? && x.now.dev.status.requested
  {
    SaneMeans(x0);
    x := Save(x0);
  }

  lemma Requested(s: State, x0: Pass) returns (x: Pass)
    requires Validating(x0, s, Idle) && x0.now.dev.status.phase.READY? && !x0.now.dev.status.requested
    ensures Validating(x, s, Idle) && x.now.dev.package == x0.now.dev.package && CanEnter(x.now.dev.status, Run)
  {
    x := ToRequest(s, x0);
    x := RequestWritten(s, x);
    x := Go(x);
  }

  lemma Upgrades(s: State, p: Program) returns (x: Pass)
    requires Inv(s) && !Exempt(s.h) && Ready(s) && p.version > 0
    ensures Sane(x) && x.start == s && x.troubles == 0 && x.now.pc.Idle? && x.now.dev.status.phase.SUCCESS?
    ensures x.now.dev.tree == Whole(p) && x.now.dev.status.current == p.version && Undamaged(x.now.dev)
    ensures x.now.dev.running == SERVICES && x.now.dev.data == s.dev.data
  {
    x := Validated(s, p);
    x := Requested(s, x);
    SaneMeans(x);
    var y := Succeeds(x.now);
    x := Join(x, y);
  }

  /** From every state a run can be in where a new upgrade may begin, validating any package, requesting it and
      running it undisturbed ends in SUCCESS on that package, with the data as it was. */
  lemma UpgradeWorks(s0: State, es: seq<Event>, s: State, p: Program) returns (fs: seq<Event>, t: State)
    requires Init(s0) && Runs(s0, es, s) && !Exempt(s.h) && Ready(s) && p.version > 0
    ensures Runs(s, fs, t) && (forall e :: e in fs ==> Calm(e)) && Troubles(fs) == 0
    ensures t.pc.Idle? && t.dev.status.phase.SUCCESS? && t.dev.tree == Whole(p) && t.dev.status.current == p.version
    ensures Undamaged(t.dev) && t.dev.running == SERVICES && t.dev.data == s.dev.data
  {
    Reached(s0, es, s);
    var x := Upgrades(s, p);
    SaneMeans(x);
    fs, t := x.events, x.now;
  }
}
