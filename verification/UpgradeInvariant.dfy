/** The invariant of the upgrade protocol and the proof that every event keeps it. */
module UpgradeInvariant {
  import opened Options
  import opened Upgrade
  import Retention

  /** The job is outside the claims about every state: it began on a damaged device, or, before the old
      program and environment were back, recovery gave up or deleted the complete backup. */
  predicate Exempt(h: History) {
    h.orphaned || h.gaveUp || h.lost
  }

  /** The committed backup holds the program and environment of before the upgrade, and the data
      of the moment all services had stopped. */
  predicate Saved(d: Device, h: History) {
    && h.tree.Whole? && h.env.Whole? && h.stopData.Whole?
    && d.status.backup == d.status.job && d.status.job != 0 && d.status.job in d.backups
    && d.backups[d.status.job] == Backup(Some(h.tree), Some(h.env), Some(h.stopData), Some(h.tree.value.version))
  }

  predicate Fresh(st: Status) {
    st.attempts == 0 && st.from.None? && !st.required
  }

  predicate Based(d: Device, h: History) {
    h.tree.Whole? && d.base == h.tree.value.version > 0 && d.package.version > 0
  }

  /** Recovery can still bring the old version back, or nothing was touched at all. */
  predicate Recoverable(d: Device, h: History) {
    && Based(d, h) && d.status.previous == d.base
    && (|| (Saved(d, h) && (Undamaged(d) || d.running == {}))
        || (d.status.from == Some(STOPPING) && Kept(d, h) && d.status.backup == d.status.job
           && !Loadable(d.backups, d.status.job)))
  }

  predicate Prepared(d: Device, h: History) {
    Based(d, h) && Fresh(d.status) && d.status.previous == d.base && d.status.backup == d.status.job
  }

  /** What each phase on disk means for everything else on disk. */
  predicate Good(d: Device, h: History) {
    && h.tree.Whole? && h.env.Whole? && h.tree.value.version > 0
    && (d.status.phase.IDLE? || d.status.job != 0)
    && match d.status.phase
       case IDLE => Kept(d, h)
       case VALIDATING => Kept(d, h) && Fresh(d.status)
       case READY => Kept(d, h) && Fresh(d.status) && Based(d, h)
       case BACKING_UP => Kept(d, h) && Prepared(d, h)
       case STOPPING =>
         && Kept(d, h) && Prepared(d, h)
         && (Loadable(d.backups, d.status.job) ==> Saved(d, h) && d.running == {} && d.data == h.stopData)
       case INSTALLING => Saved(d, h) && Prepared(d, h) && d.running == {}
       case STARTING | VERIFYING => Saved(d, h) && Prepared(d, h) && Undamaged(d) && d.tree == Whole(d.package)
       case SUCCESS => Undamaged(d) && d.tree == Whole(d.package) && d.status.current == d.package.version > 0
       case FAILED => if d.status.required then Recoverable(d, h) else Kept(d, h)
       case ROLLING_BACK =>
         if d.status.pending then Saved(d, h) && Kept(d, h) && Based(d, h) && d.status.previous == d.base
             else Recoverable(d, h)
       case ROLLED_BACK =>
         Saved(d, h) && Kept(d, h) && Based(d, h) && d.status.previous == d.base == d.status.current
  }

  /** The dictionary in memory agrees with the disk on what the job is. */
  predicate Kin(m: Status, st: Status) {
    m.job == st.job && m.backup == st.backup && m.previous == st.previous && m.attempts == st.attempts
        && m.from == st.from
  }

  /** The backup being built has reached this point. */
  predicate Building(d: Device, program: Option<Part<Program>>, env: Option<Part<nat>>, data: Option<Part<nat>>) {
    d.status.job in d.backups && d.backups[d.status.job] == Backup(program, env, data, None)
  }

  /** Which phase is on disk at each place of a manager process, for every job, exempt or not. */
  predicate Placed(s: State) {
    var p, st, m := s.dev.status.phase, s.dev.status, s.memo;
    && (Early(p) ==> Fresh(st))
    && s.h.backingUp <= 1 && (p.VALIDATING? || p.READY? ==> s.h.backingUp == 0)
    && (InJob(s.pc) ==> m.from == st.from)
    && match s.pc
       case Idle | ValSweepFirst | ValInspect => true
       case ValCheck => p.VALIDATING? && Fresh(m)
       case RequestCheck => p.READY? && Fresh(m) && m.phase.READY?
       case ValSweepReady | RequestLaunch | RunCheck => p.READY?
       case ValSweepFailed | Restart => p.FAILED?
       case MakeBackup | CopyProgram | CopyEnv => p.BACKING_UP?
       case StopAll | BeginSnapshot | EndSnapshot | Commit => p.STOPPING?
       case Install | InstallEnd | InstallSync => p.INSTALLING?
       case StartNew => p.STARTING?
       case VerifyNew => p.VERIFYING?
       case SweepSuccess => p.SUCCESS?
       case Restoring(_, who) => p.ROLLING_BACK? && m.phase.ROLLING_BACK? && (who.Runner? ==> st.from.None?)
       case StartOld | VerifyOld => p.ROLLING_BACK? && st.from.None?
       case FinHealth => p.ROLLING_BACK?
       case SweepRolledBack => p.ROLLED_BACK? && st.from.None?
       case FinSweep => p.ROLLED_BACK?
       case RecLoad => p.ROLLING_BACK? && m.phase.ROLLING_BACK?
       case RecDropStale => (p.VALIDATING? || p.BACKING_UP?) && m.phase == p
       case RecDropPartial => p.ROLLING_BACK?
       case RecSweep => Terminal(p) || p.READY?
       case Write(w) => WritePlaced(s, w)
  }

  predicate Early(p: Phase) {
    p.VALIDATING? || p.READY? || p.BACKING_UP? || p.STOPPING? || p.INSTALLING? || p.STARTING? || p.VERIFYING?
        || p.SUCCESS?
  }

  predicate WritePlaced(s: State, w: Write) {
    var p, st, m := s.dev.status.phase, s.dev.status, s.memo;
    match w
    case ValStart => Fresh(m) && m.phase.VALIDATING?
    case ValReady => p.VALIDATING? && Fresh(m)
    case ValFailed => p.VALIDATING? || p.READY?
    case Request => p.READY? && Fresh(m) && m.phase.READY?
    case RequestFailed | RequestChanged | RunBackingUp | RunChanged => p.READY?
    case RunStopping => p.BACKING_UP?
    case RunCommitted | RunInstalling => p.STOPPING?
    case RunStarting => p.INSTALLING?
    case RunVerifying => p.STARTING?
    case RunSuccess => p.VERIFYING?
    case RunFailed(_) => p.READY? || p.BACKING_UP? || p.STOPPING?
        || (p.INSTALLING? && s.h.raised == Some(PC.Write(RunInstalling)))
    case RunRolling => p.INSTALLING? || p.STARTING? || p.VERIFYING? || p.SUCCESS?
    case RunPending => p.ROLLING_BACK? && m.phase.ROLLING_BACK? && st.from.None?
    case RunRolledBack => p.ROLLING_BACK? && st.from.None?
    case RunRollbackFailed =>
      && st.from.None?
      && (p.ROLLING_BACK? || (p.ROLLED_BACK? && s.h.raised in {Some(PC.Write(RunRolledBack)), Some(SweepRolledBack)}))
    case RecClear => p.READY? && Fresh(m) && m.phase.READY?
    case RecInterrupted => (p.VALIDATING? || p.BACKING_UP?) && m.phase == p
    case RecUnknown => false
    case RecExhausted => p.FAILED? || p.ROLLING_BACK?
    case RecRolling => RollbackPhase(p) || (p.FAILED? && st.required)
    case RecPrevious => p.ROLLING_BACK? && m.phase.ROLLING_BACK?
    case RecPending | RecFailed(_) | FinRolledBack => p.ROLLING_BACK?
    case FinFailed => p.ROLLING_BACK?
        || (p.ROLLED_BACK? && s.h.raised in {Some(PC.Write(FinRolledBack)), Some(FinSweep)})
    case FinVersion => p.FAILED? && m.phase.FAILED?
  }

  /** Places where the dictionary in memory is about the job on disk. */
  predicate InJob(pc: PC) {
    !pc.Idle? && pc != PC.Write(ValStart) && !Preliminary(pc)
  }

  /** What a manager process knows at each of its places, beyond the phase. */
  predicate PlaceGood(s: State) {
    var d, h, m := s.dev, s.h, s.memo;
    match s.pc
    case ValCheck => m == d.status && h.tree.Whole? && m.current == h.tree.value.version
    case ValSweepReady | RequestCheck | RequestLaunch | SweepRolledBack | FinSweep | RecDropStale => m == d.status
    case ValSweepFailed | Restart => !d.status.required
    case CopyProgram => Building(d, None, None, None)
    case CopyEnv => Building(d, Some(h.tree), None, None)
    case StopAll => Building(d, Some(h.tree), Some(h.env), None)
    case BeginSnapshot => Building(d, Some(h.tree), Some(h.env), None) && d.running == {} && h.stopData == d.data
    case EndSnapshot => Building(d, Some(h.tree), Some(h.env), None) && d.running == {}
        && h.stopData == d.data == s.snap
    case Commit => Building(d, Some(h.tree), Some(h.env), Some(h.stopData)) && d.running == {} && h.stopData == d.data
    case Install => Kept(d, h)
    case InstallEnd => d.data.Whole?
    case InstallSync => Undamaged(d) && d.tree == Whole(d.package)
    case Restoring(stage, _) => !d.status.pending && m == d.status && Saved(d, h) && RestoredTo(s, stage)
    case StartOld | VerifyOld | FinHealth => d.status.pending && m == d.status
    case RecLoad => !d.status.pending && m == d.status && m.backup == m.job
    case RecDropPartial => !d.status.pending && Kin(m, d.status) && m.backup == m.job && m.from == Some(STOPPING)
    case Write(w) => WriteGood(s, w)
    case _ => true
  }

  /** How much of the restore is done. */
  predicate RestoredTo(s: State, stage: Stage) {
    var d, h := s.dev, s.h;
    && (!stage.ToStop? ==> d.running == {})
    && (stage.ToEnv? || stage.ToEnvEnd? || stage.ToData? || stage.ToDataEnd? || stage.ToSync? ==> d.tree == h.tree)
    && (stage.ToData? || stage.ToDataEnd? || stage.ToSync? ==> d.env == h.env)
    && (stage.ToSync? ==> d.data == h.stopData)
  }

  predicate WriteGood(s: State, w: Write) {
    var d, h, m := s.dev, s.h, s.memo;
    match w
    case ValReady => m == d.status && Based(d, h)
    case ValFailed | RequestFailed | RequestChanged => !m.required
    case Request | RecClear | RecInterrupted | RecExhausted | RecRolling | FinVersion => m == d.status
    case RunStopping => Building(d, Some(h.tree), Some(h.env), None)
    case RunCommitted | RunInstalling => Loadable(d.backups, d.status.job)
    case RunStarting => Undamaged(d) && d.tree == Whole(d.package)
    case RunFailed(_) => Kept(d, h)
    case RunPending | RecPending =>
      !d.status.pending && m == d.status && Saved(d, h) && d.running == {} && Kept(d, h) && d.data == h.stopData
    case RunRolledBack | FinRolledBack => d.status.pending && m == d.status
    case RunRollbackFailed =>
      Saved(d, h) && Based(d, h) && m.previous == d.base && Kin(m, d.status) && (Undamaged(d) || d.running == {})
    case RecPrevious => false
    case RecFailed(stopped) => Kin(m, d.status) && (stopped ==> Kept(d, h) && !Loadable(d.backups, d.status.job))
    case FinFailed => Saved(d, h) && Kept(d, h) && Kin(m, d.status)
    case _ => true
  }

  /** Facts that hold for every job, exempt or not. */
  predicate Counted(s: State) {
    var d, st := s.dev, s.dev.status;
    && st.job < d.nextJob
    && st.attempts <= MAX_RECOVERY_ATTEMPTS
    && s.h.restores <= st.attempts
    && (s.pc.RecLoad? || s.pc == PC.Write(RecPrevious) || s.pc == Restoring(ToStop, Recoverer) ==>
           s.h.restores < st.attempts)
    && (s.pc == PC.Write(RecRolling) ==> st.attempts < MAX_RECOVERY_ATTEMPTS && s.memo.attempts == st.attempts)
    && (InJob(s.pc) ==> s.memo.attempts == st.attempts && s.memo.job == st.job)
    && (Preliminary(s.pc) || s.pc == PC.Write(ValStart) ==> !Active(st.phase) && !st.requested)
    && (s.pc == PC.Write(ValStart) ==>
         && s.memo.attempts == 0
         && st.job < s.memo.job < d.nextJob
         && (d.tree.Whole? ==> s.memo.current == d.tree.value.version > 0))
  }

  predicate Preliminary(pc: PC) {
    pc.ValSweepFirst? || pc.ValInspect?
  }

  predicate Inv(s: State) {
    Counted(s) && Placed(s) && Sound(s)
  }

  /** The claims about the disk and about the place, made for every job that is not exempt. */
  predicate Sound(s: State) {
    Exempt(s.h) || (Good(s.dev, s.h) && PlaceGood(s))
  }

  lemma InitInv(s: State)
    requires Init(s)
    ensures Inv(s)
  {
  }

  predicate Certain(s: State) {
    !Exempt(s.h) && Placed(s) && Good(s.dev, s.h) && PlaceGood(s)
  }

  lemma CrashKeeps(s: State, e: Event)
    requires Certain(s) && Enabled(s, e) && (e.Kill? || e.Reboot?)
    ensures Sound(Next(s, e))
  {
  }

  /** A service starts on its own only through the gate. */
  lemma SystemStartKeeps(s: State, v: Service)
    requires Certain(s) && Enabled(s, SystemStart(v))
    ensures Sound(Next(s, SystemStart(v)))
  {
  }

  lemma ServiceKeeps(s: State, e: Event)
    requires Certain(s) && Enabled(s, e) && (e.ServiceStop? || e.ServiceWrite?)
    ensures Sound(Next(s, e))
  {
  }

  lemma EnterKeeps(s: State, entry: Entry)
    requires Certain(s) && Enabled(s, Enter(entry))
    ensures Sound(Next(s, Enter(entry)))
  {
  }

  /** The device after a clean-up has removed some backups and emptied others. */
  function SweptAway(s: State, gone: set<JobId>, damaged: set<JobId>): State {
    s.(dev := s.dev.(backups := Sweep(s.dev.backups, gone, damaged)))
  }

  /** Removing what retention may remove leaves every backup a pending recovery needs. */
  lemma SweepSpares(s: State, order: seq<JobId>, gone: set<JobId>, damaged: set<JobId>)
    requires gone + damaged <= Retention.Doomed(order, Protected(s.pc, s.dev), KEEP_BACKUPS)
    ensures forall id :: id in Protected(s.pc, s.dev) && id in s.dev.backups ==>
              var later := SweptAway(s, gone, damaged).dev.backups; id in later && later[id] == s.dev.backups[id]
  {
    Retention.DoomedSpares(order, Protected(s.pc, s.dev), KEEP_BACKUPS);
  }

  lemma SweptGood(s: State, order: seq<JobId>, gone: set<JobId>, damaged: set<JobId>)
    requires Certain(s) && Sweeping(s.pc)
    requires gone + damaged <= Retention.Doomed(order, Protected(s.pc, s.dev), KEEP_BACKUPS)
    ensures Good(SweptAway(s, gone, damaged).dev, s.h)
  {
    SweepSpares(s, order, gone, damaged);
    if s.dev.status.phase.ROLLED_BACK? || (s.dev.status.phase.FAILED? && s.dev.status.required) {
      assert s.dev.status.job in Protected(s.pc, s.dev);
    }
  }

  lemma SweptPlaced(s: State, gone: set<JobId>, damaged: set<JobId>)
    requires Placed(s) && PlaceGood(s) && Sweeping(s.pc)
    ensures Placed(SweptAway(s, gone, damaged)) && PlaceGood(SweptAway(s, gone, damaged))
  {
  }

  lemma SweptCertain(s: State, order: seq<JobId>, gone: set<JobId>, damaged: set<JobId>)
    requires Certain(s) && Sweeping(s.pc)
    requires gone + damaged <= Retention.Doomed(order, Protected(s.pc, s.dev), KEEP_BACKUPS)
    ensures Certain(SweptAway(s, gone, damaged))
  {
    SweptGood(s, order, gone, damaged);
    SweptPlaced(s, gone, damaged);
  }

  lemma SweepKeeps(s: State, o: Outcome, seen: Version)
    requires Certain(s) && o.Swept? && Enabled(s, Step(o, seen))
    ensures Sound(Next(s, Step(o, seen)))
  {
    SweptCertain(s, o.order, o.gone, o.damaged);
    SweepEnds(SweptAway(s, o.gone, o.damaged), seen);
  }

  lemma SweepEnds(s: State, seen: Version)
    requires Certain(s) && Sweeping(s.pc)
    ensures Sound(s.(pc := AfterSweep(s.pc))) && Sound(Thrown(s, Other, seen))
  {
  }

  /** The writes of a job before it touches anything, of an upgrade going forward, of a runner that
      failed, and of recovery. */
  predicate Prelude(w: Write) {
    w.ValStart? || w.ValReady? || w.ValFailed? || w.Request? || w.RequestFailed? || w.RequestChanged?
  }

  predicate Saving(w: Write) {
    w.RunBackingUp? || w.RunStopping? || w.RunCommitted? || w.RunInstalling?
  }

  predicate Switching(w: Write) {
    w.RunStarting? || w.RunVerifying? || w.RunSuccess?
  }

  predicate Abandoning(w: Write) {
    w.RunChanged? || w.RunFailed? || w.RunRolling?
  }

  predicate RollingBack(w: Write) {
    w.RunPending? || w.RunRolledBack? || w.RunRollbackFailed?
  }

  predicate Recovering(w: Write) {
    w.RecClear? || w.RecInterrupted? || w.RecUnknown? || w.RecExhausted? || w.RecRolling? || w.RecPrevious?
  }

  predicate Recovered(w: Write) {
    w.RecPending? || w.RecFailed?
  }

  predicate Finalizing(w: Write) {
    w.FinRolledBack? || w.FinFailed? || w.FinVersion?
  }

  lemma StorePrelude(s: State, w: Write, seen: Version, ok: bool)
    requires Inv(s) && s.pc == PC.Write(w) && Prelude(w)
    requires s.dev.tree.Whole? ==> seen == s.dev.tree.value.version
    ensures Sound(Store(s, w, seen, ok))
  {
  }

  lemma StoreSaving(s: State, w: Write, seen: Version, ok: bool)
    requires Certain(s) && s.pc == PC.Write(w) && Saving(w)
    ensures Sound(Store(s, w, seen, ok))
  {
  }

  lemma StoreSwitching(s: State, w: Write, seen: Version, ok: bool)
    requires Certain(s) && s.pc == PC.Write(w) && Switching(w)
    ensures Sound(Store(s, w, seen, ok))
  {
  }

  lemma StoreAbandoning(s: State, w: Write, seen: Version, ok: bool)
    requires Certain(s) && s.pc == PC.Write(w) && Abandoning(w)
    ensures Sound(Store(s, w, seen, ok))
  {
  }

  lemma StoreRollingBack(s: State, w: Write, seen: Version, ok: bool)
    requires Certain(s) && s.pc == PC.Write(w) && RollingBack(w)
    ensures Sound(Store(s, w, seen, ok))
  {
  }

  lemma StoreRecovering(s: State, w: Write, seen: Version, ok: bool)
    requires Certain(s) && s.pc == PC.Write(w) && Recovering(w)
    ensures Sound(Store(s, w, seen, ok))
  {
  }

  lemma StoreRecovered(s: State, w: Write, seen: Version, ok: bool)
    requires Certain(s) && s.pc == PC.Write(w) && Recovered(w)
    ensures Sound(Store(s, w, seen, ok))
  {
  }

  lemma StoreFinalizing(s: State, w: Write, seen: Version, ok: bool)
    requires Certain(s) && s.pc == PC.Write(w) && Finalizing(w)
    ensures Sound(Store(s, w, seen, ok))
  {
  }

  lemma StoreUpgrade(s: State, w: Write, seen: Version, ok: bool)
    requires Certain(s) && s.pc == PC.Write(w) && (Saving(w) || Switching(w) || Abandoning(w) || RollingBack(w))
    ensures Sound(Store(s, w, seen, ok))
  {
    if Saving(w) {
      StoreSaving(s, w, seen, ok);
    } else if Switching(w) {
      StoreSwitching(s, w, seen, ok);
    } else if Abandoning(w) {
      StoreAbandoning(s, w, seen, ok);
    } else {
      StoreRollingBack(s, w, seen, ok);
    }
  }

  lemma StoreRecovery(s: State, w: Write, seen: Version, ok: bool)
    requires Certain(s) && s.pc == PC.Write(w) && (Recovering(w) || Recovered(w) || Finalizing(w))
    ensures Sound(Store(s, w, seen, ok))
  {
    if Recovering(w) {
      StoreRecovering(s, w, seen, ok);
    } else if Recovered(w) {
      StoreRecovered(s, w, seen, ok);
    } else {
      StoreFinalizing(s, w, seen, ok);
    }
  }

  lemma StoreKeeps(s: State, w: Write, seen: Version, ok: bool)
    requires Inv(s) && s.pc == PC.Write(w) && (Exempt(s.h) ==> w.ValStart?)
    requires s.dev.tree.Whole? ==> seen == s.dev.tree.value.version
    ensures Sound(Store(s, w, seen, ok))
  {
    if Prelude(w) {
      StorePrelude(s, w, seen, ok);
    } else if Saving(w) || Switching(w) || Abandoning(w) || RollingBack(w) {
      StoreUpgrade(s, w, seen, ok);
    } else {
      StoreRecovery(s, w, seen, ok);
    }
  }

  lemma ThrownForward(s: State, code: Code, seen: Version)
    requires Certain(s) && Enabled(s, Step(Raise(code), seen)) && s.pc.Write?
    requires Prelude(s.pc.w) || Saving(s.pc.w) || Switching(s.pc.w)
    ensures Sound(Thrown(s, code, seen))
  {
  }

  lemma ThrownBackward(s: State, code: Code, seen: Version)
    requires Certain(s) && Enabled(s, Step(Raise(code), seen)) && s.pc.Write?
    requires Abandoning(s.pc.w) || RollingBack(s.pc.w)
    ensures Sound(Thrown(s, code, seen))
  {
  }

  lemma ThrownRecovering(s: State, code: Code, seen: Version)
    requires Certain(s) && Enabled(s, Step(Raise(code), seen)) && s.pc.Write? && Recovering(s.pc.w)
    ensures Sound(Thrown(s, code, seen))
  {
  }

  lemma ThrownRecovered(s: State, code: Code, seen: Version)
    requires Certain(s) && Enabled(s, Step(Raise(code), seen)) && s.pc.Write? && Recovered(s.pc.w)
    ensures Sound(Thrown(s, code, seen))
  {
  }

  lemma ThrownFinalizing(s: State, code: Code, seen: Version)
    requires Certain(s) && Enabled(s, Step(Raise(code), seen)) && s.pc.Write? && Finalizing(s.pc.w)
    ensures Sound(Thrown(s, code, seen))
  {
  }

  lemma ThrownRestoring(s: State, code: Code, seen: Version)
    requires Certain(s) && Enabled(s, Step(Raise(code), seen)) && (s.pc.Restoring? || s.pc.RecLoad?)
    ensures Sound(Thrown(s, code, seen))
  {
  }

  lemma ThrownBuilding(s: State, code: Code, seen: Version)
    requires Certain(s) && Enabled(s, Step(Raise(code), seen)) && BuildingPlace(s.pc)
    ensures Sound(Thrown(s, code, seen))
  {
  }

  predicate NewPlace(pc: PC) {
    pc.Install? || pc.InstallEnd? || pc.InstallSync? || pc.StartNew? || pc.VerifyNew? || pc.SweepSuccess?
  }

  predicate OldPlace(pc: PC) {
    pc.StartOld? || pc.VerifyOld? || pc.SweepRolledBack? || pc.FinHealth? || pc.FinSweep?
  }

  lemma ThrownNew(s: State, code: Code, seen: Version)
    requires Certain(s) && Enabled(s, Step(Raise(code), seen)) && NewPlace(s.pc)
    ensures Sound(Thrown(s, code, seen))
  {
  }

  lemma ThrownOld(s: State, code: Code, seen: Version)
    requires Certain(s) && Enabled(s, Step(Raise(code), seen)) && OldPlace(s.pc)
    ensures Sound(Thrown(s, code, seen))
  {
  }

  lemma ThrownEarly(s: State, code: Code, seen: Version)
    requires Certain(s) && Enabled(s, Step(Raise(code), seen)) && !s.pc.Write? && !s.pc.Restoring? && !s.pc.RecLoad?
    requires !BuildingPlace(s.pc) && !NewPlace(s.pc) && !OldPlace(s.pc)
    ensures Sound(Thrown(s, code, seen))
  {
  }

  lemma ThrownWriting(s: State, code: Code, seen: Version)
    requires Certain(s) && Enabled(s, Step(Raise(code), seen)) && s.pc.Write?
    ensures Sound(Thrown(s, code, seen))
  {
    if Prelude(s.pc.w) || Saving(s.pc.w) || Switching(s.pc.w) {
      ThrownForward(s, code, seen);
    } else if Abandoning(s.pc.w) || RollingBack(s.pc.w) {
      ThrownBackward(s, code, seen);
    } else if Recovering(s.pc.w) {
      ThrownRecovering(s, code, seen);
    } else if Recovered(s.pc.w) {
      ThrownRecovered(s, code, seen);
    } else {
      ThrownFinalizing(s, code, seen);
    }
  }

  lemma ThrownKeeps(s: State, code: Code, seen: Version)
    requires Certain(s) && Enabled(s, Step(Raise(code), seen))
    ensures Sound(Thrown(s, code, seen))
  {
    if s.pc.Write? {
      ThrownWriting(s, code, seen);
    } else if s.pc.Restoring? || s.pc.RecLoad? {
      ThrownRestoring(s, code, seen);
    } else if BuildingPlace(s.pc) {
      ThrownBuilding(s, code, seen);
    } else if NewPlace(s.pc) {
      ThrownNew(s, code, seen);
    } else if OldPlace(s.pc) {
      ThrownOld(s, code, seen);
    } else {
      ThrownEarly(s, code, seen);
    }
  }

  lemma FinishRestoringKeeps(s: State, seen: Version)
    requires Certain(s) && Enabled(s, Step(Done, seen)) && s.pc.Restoring?
    ensures Sound(Finish(s, seen))
  {
  }

  predicate BuildingPlace(pc: PC) {
    pc.MakeBackup? || pc.CopyProgram? || pc.CopyEnv? || pc.StopAll? || pc.BeginSnapshot? || pc.EndSnapshot?
        || pc.Commit?
  }

  lemma FinishBuilding(s: State, seen: Version)
    requires Certain(s) && Enabled(s, Step(Done, seen)) && BuildingPlace(s.pc)
    ensures Sound(Finish(s, seen))
  {
  }

  lemma FinishNew(s: State, seen: Version)
    requires Certain(s) && Enabled(s, Step(Done, seen)) && NewPlace(s.pc)
    ensures Sound(Finish(s, seen))
  {
  }

  lemma FinishOld(s: State, seen: Version)
    requires Certain(s) && Enabled(s, Step(Done, seen)) && OldPlace(s.pc)
    ensures Sound(Finish(s, seen))
  {
  }

  lemma FinishEarly(s: State, seen: Version)
    requires Certain(s) && Enabled(s, Step(Done, seen)) && !s.pc.Write? && !s.pc.Restoring?
    requires !BuildingPlace(s.pc) && !NewPlace(s.pc) && !OldPlace(s.pc)
    ensures Sound(Finish(s, seen))
  {
  }

  lemma FinishKeeps(s: State, seen: Version)
    requires Certain(s) && Enabled(s, Step(Done, seen)) && !s.pc.Write?
    ensures Sound(Finish(s, seen))
  {
    if s.pc.Restoring? {
      FinishRestoringKeeps(s, seen);
    } else if BuildingPlace(s.pc) {
      FinishBuilding(s, seen);
    } else if NewPlace(s.pc) {
      FinishNew(s, seen);
    } else if OldPlace(s.pc) {
      FinishOld(s, seen);
    } else {
      FinishEarly(s, seen);
    }
  }

  /** install.sh ends, a package passes validation, a start is issued, or the marker is written late. */
  lemma OtherStepKeeps(s: State, o: Outcome, seen: Version)
    requires Certain(s) && Enabled(s, Step(o, seen))
            && (o.Built? || o.Chosen? || o.Started? || (o.RaiseLate? && s.pc.Commit?))
    ensures Sound(Next(s, Step(o, seen)))
  {
  }

  lemma StepKeeps(s: State, o: Outcome, seen: Version)
    requires Inv(s) && Enabled(s, Step(o, seen)) && !o.Swept?
    requires Exempt(s.h) ==> s.pc == PC.Write(ValStart)
    ensures Sound(Next(s, Step(o, seen)))
  {
    match o
    case Raise(code) => if Exempt(s.h) { assert s.pc == PC.Write(ValStart); } else { ThrownKeeps(s, code, seen); }
    case RaiseLate => if s.pc.Write? { StoreKeeps(s, s.pc.w, seen, false); } else { OtherStepKeeps(s, o, seen); }
    case Done => if s.pc.Write? { StoreKeeps(s, s.pc.w, seen, true); } else { FinishKeeps(s, seen); }
    case _ => OtherStepKeeps(s, o, seen);
  }

  lemma CountedPrelude(s: State, w: Write, seen: Version, ok: bool)
    requires Counted(s) && s.pc == PC.Write(w) && Prelude(w)
    ensures Counted(Store(s, w, seen, ok))
  {
  }

  lemma CountedSaving(s: State, w: Write, seen: Version, ok: bool)
    requires Counted(s) && s.pc == PC.Write(w) && Saving(w)
    ensures Counted(Store(s, w, seen, ok))
  {
  }

  lemma CountedSwitching(s: State, w: Write, seen: Version, ok: bool)
    requires Counted(s) && s.pc == PC.Write(w) && Switching(w)
    ensures Counted(Store(s, w, seen, ok))
  {
  }

  lemma CountedAbandoning(s: State, w: Write, seen: Version, ok: bool)
    requires Counted(s) && s.pc == PC.Write(w) && Abandoning(w)
    ensures Counted(Store(s, w, seen, ok))
  {
  }

  lemma CountedRollingBack(s: State, w: Write, seen: Version, ok: bool)
    requires Counted(s) && s.pc == PC.Write(w) && RollingBack(w)
    ensures Counted(Store(s, w, seen, ok))
  {
  }

  lemma CountedRecovering(s: State, w: Write, seen: Version, ok: bool)
    requires Counted(s) && s.pc == PC.Write(w) && Recovering(w)
    ensures Counted(Store(s, w, seen, ok))
  {
  }

  lemma CountedRecovered(s: State, w: Write, seen: Version, ok: bool)
    requires Counted(s) && s.pc == PC.Write(w) && Recovered(w)
    ensures Counted(Store(s, w, seen, ok))
  {
  }

  lemma CountedFinalizing(s: State, w: Write, seen: Version, ok: bool)
    requires Counted(s) && s.pc == PC.Write(w) && Finalizing(w)
    ensures Counted(Store(s, w, seen, ok))
  {
  }

  lemma CountedStore(s: State, w: Write, seen: Version, ok: bool)
    requires Counted(s) && s.pc == PC.Write(w)
    ensures Counted(Store(s, w, seen, ok))
  {
    if Prelude(w) {
      CountedPrelude(s, w, seen, ok);
    } else if Saving(w) {
      CountedSaving(s, w, seen, ok);
    } else if Switching(w) {
      CountedSwitching(s, w, seen, ok);
    } else if Abandoning(w) {
      CountedAbandoning(s, w, seen, ok);
    } else if RollingBack(w) {
      CountedRollingBack(s, w, seen, ok);
    } else if Recovering(w) {
      CountedRecovering(s, w, seen, ok);
    } else if Recovered(w) {
      CountedRecovered(s, w, seen, ok);
    } else {
      CountedFinalizing(s, w, seen, ok);
    }
  }

  lemma CountedRestoring(s: State, seen: Version)
    requires Counted(s) && Enabled(s, Step(Done, seen)) && s.pc.Restoring?
    ensures Counted(Finish(s, seen))
  {
  }

  lemma CountedBuilding(s: State, seen: Version)
    requires Counted(s) && Enabled(s, Step(Done, seen)) && BuildingPlace(s.pc)
    ensures Counted(Finish(s, seen))
  {
  }

  lemma CountedFinish(s: State, seen: Version)
    requires Counted(s) && Enabled(s, Step(Done, seen)) && !s.pc.Write?
    ensures Counted(Finish(s, seen))
  {
    if s.pc.Restoring? {
      CountedRestoring(s, seen);
    } else if BuildingPlace(s.pc) {
      CountedBuilding(s, seen);
    }
  }

  lemma CountedThrownWriting(s: State, code: Code, seen: Version)
    requires Counted(s) && Enabled(s, Step(Raise(code), seen)) && s.pc.Write?
    ensures Counted(Thrown(s, code, seen))
  {
  }

  lemma CountedThrown(s: State, code: Code, seen: Version)
    requires Counted(s) && Enabled(s, Step(Raise(code), seen))
    ensures Counted(Thrown(s, code, seen))
  {
    if s.pc.Write? {
      CountedThrownWriting(s, code, seen);
    }
  }

  /** Neither a normal end, nor an exception, nor a status write. */
  lemma CountedOther(s: State, o: Outcome, seen: Version)
    requires Counted(s) && Enabled(s, Step(o, seen))
            && (o.Built? || o.Chosen? || o.Started? || (o.RaiseLate? && s.pc.Commit?))
    ensures Counted(Next(s, Step(o, seen)))
  {
  }

  lemma CountedSwept(s: State, o: Outcome, seen: Version)
    requires Counted(s) && Enabled(s, Step(o, seen)) && o.Swept?
    ensures Counted(Next(s, Step(o, seen)))
  {
    var swept := SweptAway(s, o.gone, o.damaged);
    assert Counted(swept);
    CountedThrown(swept, Other, seen);
  }

  lemma CountedStep(s: State, o: Outcome, seen: Version)
    requires Counted(s) && Enabled(s, Step(o, seen))
    ensures Counted(Next(s, Step(o, seen)))
  {
    match o
    case Raise(code) => CountedThrown(s, code, seen);
    case RaiseLate => if s.pc.Write? { CountedStore(s, s.pc.w, seen, false); } else { CountedOther(s, o, seen); }
    case Done => if s.pc.Write? { CountedStore(s, s.pc.w, seen, true); } else { CountedFinish(s, seen); }
    case Swept(_, _, _, _) => CountedSwept(s, o, seen);
    case _ => CountedOther(s, o, seen);
  }

  lemma CountedKept(s: State, e: Event)
    requires Counted(s) && Enabled(s, e)
    ensures Counted(Next(s, e))
  {
    if e.Step? {
      CountedStep(s, e.outcome, e.seen);
    }
  }

  lemma PlacedPrelude(s: State, w: Write, seen: Version, ok: bool)
    requires Placed(s) && s.pc == PC.Write(w) && Prelude(w)
    ensures Placed(Store(s, w, seen, ok))
  {
  }

  lemma PlacedSaving(s: State, w: Write, seen: Version, ok: bool)
    requires Placed(s) && s.pc == PC.Write(w) && Saving(w)
    ensures Placed(Store(s, w, seen, ok))
  {
  }

  lemma PlacedSwitching(s: State, w: Write, seen: Version, ok: bool)
    requires Placed(s) && s.pc == PC.Write(w) && Switching(w)
    ensures Placed(Store(s, w, seen, ok))
  {
  }

  lemma PlacedAbandoning(s: State, w: Write, seen: Version, ok: bool)
    requires Placed(s) && s.pc == PC.Write(w) && Abandoning(w)
    ensures Placed(Store(s, w, seen, ok))
  {
  }

  lemma PlacedRollingBack(s: State, w: Write, seen: Version, ok: bool)
    requires Placed(s) && s.pc == PC.Write(w) && RollingBack(w)
    ensures Placed(Store(s, w, seen, ok))
  {
  }

  lemma PlacedRecovering(s: State, w: Write, seen: Version, ok: bool)
    requires Placed(s) && s.pc == PC.Write(w) && Recovering(w)
    ensures Placed(Store(s, w, seen, ok))
  {
  }

  lemma PlacedRecovered(s: State, w: Write, seen: Version, ok: bool)
    requires Placed(s) && s.pc == PC.Write(w) && Recovered(w)
    ensures Placed(Store(s, w, seen, ok))
  {
  }

  lemma PlacedFinalizing(s: State, w: Write, seen: Version, ok: bool)
    requires Placed(s) && s.pc == PC.Write(w) && Finalizing(w)
    ensures Placed(Store(s, w, seen, ok))
  {
  }

  lemma PlacedStore(s: State, w: Write, seen: Version, ok: bool)
    requires Placed(s) && s.pc == PC.Write(w)
    ensures Placed(Store(s, w, seen, ok))
  {
    if Prelude(w) {
      PlacedPrelude(s, w, seen, ok);
    } else if Saving(w) {
      PlacedSaving(s, w, seen, ok);
    } else if Switching(w) {
      PlacedSwitching(s, w, seen, ok);
    } else if Abandoning(w) {
      PlacedAbandoning(s, w, seen, ok);
    } else if RollingBack(w) {
      PlacedRollingBack(s, w, seen, ok);
    } else if Recovering(w) {
      PlacedRecovering(s, w, seen, ok);
    } else if Recovered(w) {
      PlacedRecovered(s, w, seen, ok);
    } else {
      PlacedFinalizing(s, w, seen, ok);
    }
  }

  lemma PlacedRestoring(s: State, seen: Version)
    requires Placed(s) && Enabled(s, Step(Done, seen)) && s.pc.Restoring?
    ensures Placed(Finish(s, seen))
  {
  }

  lemma PlacedBuilding(s: State, seen: Version)
    requires Placed(s) && Enabled(s, Step(Done, seen)) && BuildingPlace(s.pc)
    ensures Placed(Finish(s, seen))
  {
  }

  lemma PlacedNew(s: State, seen: Version)
    requires Placed(s) && Enabled(s, Step(Done, seen)) && NewPlace(s.pc)
    ensures Placed(Finish(s, seen))
  {
  }

  lemma PlacedOld(s: State, seen: Version)
    requires Placed(s) && Enabled(s, Step(Done, seen)) && OldPlace(s.pc)
    ensures Placed(Finish(s, seen))
  {
  }

  lemma PlacedFinish(s: State, seen: Version)
    requires Placed(s) && Enabled(s, Step(Done, seen)) && !s.pc.Write?
    ensures Placed(Finish(s, seen))
  {
    if s.pc.Restoring? {
      PlacedRestoring(s, seen);
    } else if BuildingPlace(s.pc) {
      PlacedBuilding(s, seen);
    } else if NewPlace(s.pc) {
      PlacedNew(s, seen);
    } else if OldPlace(s.pc) {
      PlacedOld(s, seen);
    }
  }

  lemma PlacedThrownWriting(s: State, code: Code, seen: Version)
    requires Placed(s) && Enabled(s, Step(Raise(code), seen)) && s.pc.Write?
    ensures Placed(Thrown(s, code, seen))
  {
  }

  lemma PlacedThrown(s: State, code: Code, seen: Version)
    requires Placed(s) && Enabled(s, Step(Raise(code), seen))
    ensures Placed(Thrown(s, code, seen))
  {
    if s.pc.Write? {
      PlacedThrownWriting(s, code, seen);
    }
  }

  /** Neither a normal end, nor an exception, nor a status write. */
  lemma PlacedOther(s: State, o: Outcome, seen: Version)
    requires Placed(s) && Enabled(s, Step(o, seen))
            && (o.Built? || o.Chosen? || o.Started? || (o.RaiseLate? && s.pc.Commit?))
    ensures Placed(Next(s, Step(o, seen)))
  {
  }

  lemma PlacedSwept(s: State, o: Outcome, seen: Version)
    requires Placed(s) && Enabled(s, Step(o, seen)) && o.Swept?
    ensures Placed(Next(s, Step(o, seen)))
  {
    var swept := SweptAway(s, o.gone, o.damaged);
    assert Placed(swept);
    PlacedThrown(swept, Other, seen);
  }

  lemma PlacedStep(s: State, o: Outcome, seen: Version)
    requires Placed(s) && Enabled(s, Step(o, seen))
    ensures Placed(Next(s, Step(o, seen)))
  {
    match o
    case Raise(code) => PlacedThrown(s, code, seen);
    case RaiseLate => if s.pc.Write? { PlacedStore(s, s.pc.w, seen, false); } else { PlacedOther(s, o, seen); }
    case Done => if s.pc.Write? { PlacedStore(s, s.pc.w, seen, true); } else { PlacedFinish(s, seen); }
    case Swept(_, _, _, _) => PlacedSwept(s, o, seen);
    case _ => PlacedOther(s, o, seen);
  }

  lemma PlacedKept(s: State, e: Event)
    requires Placed(s) && Enabled(s, e)
    ensures Placed(Next(s, e))
  {
    if e.Step? {
      PlacedStep(s, e.outcome, e.seen);
    }
  }

  lemma ExemptStays(s: State, e: Event)
    requires Exempt(s.h) && Enabled(s, e) && !(s.pc == PC.Write(ValStart) && e.Step?)
    ensures Exempt(Next(s, e).h)
  {
  }

  lemma SoundKept(s: State, e: Event)
    requires Inv(s) && Enabled(s, e)
    ensures Sound(Next(s, e))
  {
    if Exempt(s.h) && !(s.pc == PC.Write(ValStart) && e.Step?) {
      ExemptStays(s, e);
    } else {
      match e
      case Kill | Reboot => CrashKeeps(s, e);
      case SystemStart(v) => SystemStartKeeps(s, v);
      case ServiceStop(_) | ServiceWrite(_) => ServiceKeeps(s, e);
      case Enter(entry) => EnterKeeps(s, entry);
      case Step(o, seen) => if o.Swept? { SweepKeeps(s, o, seen); } else { StepKeeps(s, o, seen); }
    }
  }

  /** The invariant is inductive. */
  lemma InvKept(s: State, e: Event)
    requires Inv(s) && Enabled(s, e)
    ensures Inv(Next(s, e))
  {
    CountedKept(s, e);
    PlacedKept(s, e);
    SoundKept(s, e);
  }
}
