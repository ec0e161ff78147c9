/** The application upgrade protocol as a transition system.

    Durable state lives in `Device`; what a manager process keeps in memory is the program
    counter, its status dictionary and the snapshot it is copying.  Every durable write is one
    event.  `Kill` and `Reboot` can fall between any two events. */
module Upgrade {
  import opened Options
  import Retention

  type Version = nat // 0 is the empty string
  type JobId = nat // 0 is the empty string

  datatype Program = Program(version: Version, image: nat)

  /** Something on disk that is either whole or half written (or missing). */
  datatype Part<T> = Whole(value: T) | Broken

  datatype Phase =
    | IDLE | VALIDATING | READY | BACKING_UP | STOPPING | INSTALLING
    | STARTING | VERIFYING | SUCCESS | FAILED | ROLLING_BACK | ROLLED_BACK

  predicate Active(p: Phase) {
    p.VALIDATING? || p.BACKING_UP? || p.STOPPING? || p.INSTALLING? || p.STARTING? || p.VERIFYING? || p.ROLLING_BACK?
  }

  predicate Terminal(p: Phase) {
    p.IDLE? || p.SUCCESS? || p.FAILED? || p.ROLLED_BACK?
  }

  /** The phases recovery answers with a rollback. */
  predicate RollbackPhase(p: Phase) {
    p.STOPPING? || p.INSTALLING? || p.STARTING? || p.VERIFYING? || p.ROLLING_BACK?
  }

  /** The table `transition` consults. */
  predicate Allowed(p: Phase, q: Phase) {
    match p
    case IDLE | SUCCESS | FAILED | ROLLED_BACK => q.VALIDATING?
    case VALIDATING => q.READY? || q.FAILED?
    case READY => q.BACKING_UP? || q.FAILED?
    case BACKING_UP => q.STOPPING? || q.FAILED? || q.ROLLING_BACK?
    case STOPPING => q.INSTALLING? || q.FAILED? || q.ROLLING_BACK?
    case INSTALLING => q.STARTING? || q.ROLLING_BACK?
    case STARTING => q.VERIFYING? || q.ROLLING_BACK?
    case VERIFYING => q.SUCCESS? || q.ROLLING_BACK?
    case ROLLING_BACK => q.ROLLED_BACK? || q.FAILED?
  }

  /** The fields of status.json that steer the protocol. */
  datatype Status = Status(
    job: JobId, phase: Phase, requested: bool,
    current: Version, target: Version, previous: Version,
    backup: JobId, backupComplete: bool,
    required: bool, pending: bool, interrupted: bool,
    from: Option<Phase>, attempts: nat, failed: bool)

  function DefaultStatus(current: Version): Status {
    Status(0, IDLE, false, current, 0, 0, 0, false, false, false, false, None, 0, false)
  }

  const MAX_RECOVERY_ATTEMPTS: nat := 3
  const KEEP_BACKUPS: nat := 2

  datatype Service = Controller | Web | LogRotator

  const SERVICES: set<Service> := {Controller, Web, LogRotator}

  /** A backup directory.  The marker holds the previous version; it is written last. */
  datatype Backup = Backup(
    program: Option<Part<Program>>, env: Option<Part<nat>>, data: Option<Part<nat>>, // None: copy missing or unfinished
    marker: Option<Version>)

  const EmptyBackup := Backup(None, None, None, None)

  predicate Filled(b: Backup) {
    b.program.Some? && b.env.Some? && b.data.Some?
  }

  /** What `load_complete_backup` accepts. */
  predicate Loadable(backups: map<JobId, Backup>, id: JobId) {
    id != 0 && id in backups && backups[id].marker.Some? && Filled(backups[id])
  }

  datatype Device = Device(
    status: Status,
    tree: Part<Program>, env: Part<nat>, data: Part<nat>,
    backups: map<JobId, Backup>, running: set<Service>,
    package: Program, // the extracted package of the current job
    base: Version, // job.json: current_version
    nextJob: JobId)

  predicate Undamaged(d: Device) {
    d.tree.Whole? && d.env.Whole? && d.data.Whole?
  }

  /** The service start gate (every start goes through it as an ExecCondition). */
  predicate Gate(st: Status) {
    if st.phase.FAILED? && st.required then false
    else if st.phase.ROLLING_BACK? then st.pending
    else !st.phase.STOPPING? && !st.phase.INSTALLING?
  }

  /** The two ways a restore is entered: by the runner that failed, or by the recovery unit. */
  datatype Who = Runner | Recoverer

  datatype Stage = ToStop | ToLoad | ToInstall | ToInstallEnd | ToEnv | ToEnvEnd | ToData | ToDataEnd | ToSync

  /** Every place where the manager replaces status.json. */
  datatype Write =
    | ValStart | ValReady | ValFailed
    | Request | RequestFailed | RequestChanged
    | RunBackingUp | RunStopping | RunCommitted | RunInstalling | RunStarting | RunVerifying | RunSuccess
    | RunChanged | RunFailed(affected: bool)
    | RunRolling | RunPending | RunRolledBack | RunRollbackFailed
    | RecClear | RecInterrupted | RecUnknown | RecExhausted | RecRolling
    | RecPrevious | RecPending | RecFailed(stopped: bool)
    | FinRolledBack | FinFailed | FinVersion

  datatype PC =
    | Idle
    | Write(w: Write)
    // validate_package_job
    | ValSweepFirst | ValInspect | ValCheck | ValSweepReady | ValSweepFailed
    // request_start
    | RequestCheck | RequestLaunch
    // run_job
    | RunCheck | MakeBackup | CopyProgram | CopyEnv | StopAll | BeginSnapshot | EndSnapshot | Commit
    | Install | InstallEnd | InstallSync | StartNew | VerifyNew | SweepSuccess | Restart
    // restore_backup, and the checks and starts around it
    | Restoring(stage: Stage, who: Who)
    | StartOld | VerifyOld | SweepRolledBack
    // recover_transaction
    | RecLoad | RecDropStale | RecDropPartial | RecSweep
    // finalize_recovery
    | FinHealth | FinSweep

  datatype Code = InstallChanged | BackupIncomplete | Other

  /** How one operation of the manager ends.  A write that raises late has already replaced the
      file (the directory sync after the rename failed). */
  datatype Outcome =
    | Done
    | Built(env: nat) // install.sh finished; it may have added environment keys
    | Chosen(package: Program) // the package under validation passed
    // a clean-up; it can raise when it is half done
    | Swept(order: seq<JobId>, gone: set<JobId>, damaged: set<JobId>, ok: bool)
    | Started(service: Service)
    | Raise(code: Code)
    | RaiseLate

  datatype Entry = Validate | RequestStart | Run | Recover | Finalize

  datatype Event =
    | Kill
    | Reboot
    | SystemStart(service: Service)
    | ServiceStop(service: Service)
    | ServiceWrite(data: nat)
    | Enter(entry: Entry)
    | Step(outcome: Outcome, seen: Version) // seen: what reading VERSION yields now

  /** Bookkeeping of the proof only: what the current job started from, and what happened to it. */
  datatype History = History(
    tree: Part<Program>, env: Part<nat>, stopData: Part<nat>,
    orphaned: bool, // validated while something on disk was damaged
    gaveUp: bool, // recovery ended for good before the old program and environment were back
    lost: bool, // recovery deleted a complete backup before they were back
    restores: nat, // restores begun by recover_transaction
    backingUp: nat, // entries into BACKING_UP
    raised: Option<PC>) // where the last exception of this process came from

  function Start(d: Device, orphaned: bool): History {
    History(d.tree, d.env, d.data, orphaned, false, false, 0, 0, None)
  }

  /** The program and environment the job started from are in place, and the data is readable. */
  predicate Kept(d: Device, h: History) {
    Undamaged(d) && d.tree == h.tree && d.env == h.env
  }

  datatype State = State(dev: Device, pc: PC, memo: Status, snap: Part<nat>, h: History)

  /** A device at rest, with no upgrade ever attempted. */
  predicate Init(s: State) {
    && Undamaged(s.dev) && s.dev.tree.value.version > 0
    && s.dev.status == DefaultStatus(s.dev.tree.value.version)
    && (forall id :: id in s.dev.backups ==> 0 < id < s.dev.nextJob)
    && s.dev.nextJob > 0
    && s.pc.Idle?
    && s.h == Start(s.dev, false)
  }

  // ----- the pieces of a step

  /** The dictionary that goes to disk.  `d` is the device, `m` the dictionary in memory. */
  function Updated(w: Write, d: Device, m: Status, seen: Version): Status {
    var disk := d.status;
    match w
    case ValStart => m
    case ValReady => m.(phase := READY, target := d.package.version)
    case ValFailed => m.(phase := FAILED)
    case Request => m.(requested := true)
    case RequestFailed => m.(phase := FAILED, requested := false)
    case RequestChanged | RunChanged =>
      disk.(phase := FAILED, current := seen, requested := false, required := false, pending := false)
    case RunBackingUp =>
      disk.(phase := BACKING_UP, previous := d.base, backup := disk.job, backupComplete := false,
            required := false, pending := false, interrupted := false)
    case RunStopping => disk.(phase := STOPPING, backupComplete := false)
    case RunCommitted => disk.(phase := STOPPING, backupComplete := true)
    case RunInstalling => disk.(phase := INSTALLING)
    case RunStarting => disk.(phase := STARTING)
    case RunVerifying => disk.(phase := VERIFYING)
    case RunSuccess => disk.(phase := SUCCESS, current := d.package.version, requested := false, required := false,
        pending := false)
    case RunFailed(_) => disk.(phase := FAILED, requested := false, required := false, pending := false)
    case RunRolling => disk.(phase := ROLLING_BACK, required := false, pending := false)
    case RunPending => m.(pending := true)
    case RunRolledBack => m.(phase := ROLLED_BACK, current := d.base, requested := false, required := false,
        pending := false)
    case RunRollbackFailed => m.(phase := FAILED, requested := false, required := true, from := Some(ROLLING_BACK))
    case RecClear => m.(requested := false)
    case RecInterrupted =>
      m.(phase := FAILED, interrupted := true, required := false, pending := false, from := Some(m.phase),
         requested := false, backup := if m.phase.BACKING_UP? then 0 else m.backup, backupComplete := false)
    case RecUnknown => m.(phase := FAILED, interrupted := true, required := false, requested := false)
    case RecExhausted => m.(phase := FAILED, required := false, pending := false, requested := false, current := seen)
    case RecRolling =>
      m.(phase := ROLLING_BACK, interrupted := true, required := true, pending := false,
         from := if m.from.Some? then m.from else Some(m.phase), attempts := m.attempts + 1, failed := false,
         backup := if m.backup != 0 then m.backup else m.job, requested := false)
    case RecPrevious => m
    case RecPending => m.(phase := ROLLING_BACK, current := m.previous, backupComplete := true, pending := true)
    case RecFailed(stopped) =>
      m.(phase := FAILED, required := m.attempts < MAX_RECOVERY_ATTEMPTS && !stopped, pending := false, failed := true,
         current := seen, backup := if stopped then 0 else m.backup, backupComplete := if stopped then false
             else m.backupComplete)
    case FinRolledBack =>
      m.(phase := ROLLED_BACK, current := if m.previous != 0 then m.previous else m.current,
         required := false, pending := false, requested := false, failed := false)
    case FinFailed => m.(phase := FAILED, required := m.attempts < MAX_RECOVERY_ATTEMPTS, pending := false,
        failed := true)
    case FinVersion => m.(current := seen)
  }

  /** Writes that go through `transition`, and so are checked against the table first. */
  predicate Checked(w: Write) {
    w.RunBackingUp? || w.RunStopping? || w.RunCommitted? || w.RunInstalling? || w.RunStarting? || w.RunVerifying? ||
    w.RunSuccess? || w.RunRolling?
  }

  predicate Refused(w: Write, d: Device, q: Phase) {
    Checked(w) && q != d.status.phase && !Allowed(d.status.phase, q)
  }

  function AfterWrite(w: Write): PC {
    match w
    case ValStart => ValCheck
    case ValReady => ValSweepReady
    case ValFailed => ValSweepFailed
    case Request => RequestLaunch
    case RequestFailed | RequestChanged | RunChanged => Idle
    case RunBackingUp => MakeBackup
    case RunStopping => StopAll
    case RunCommitted => PC.Write(RunInstalling)
    case RunInstalling => Install
    case RunStarting => StartNew
    case RunVerifying => VerifyNew
    case RunSuccess => SweepSuccess
    case RunFailed(affected) => if affected then Restart else Idle
    case RunRolling => Restoring(ToStop, Runner)
    case RunPending => StartOld
    case RunRolledBack => SweepRolledBack
    case RunRollbackFailed => Idle
    case RecClear | RecInterrupted => RecSweep
    case RecUnknown | RecExhausted | RecPending | RecFailed(_) => Idle
    case RecRolling => RecLoad
    case RecPrevious => Restoring(ToStop, Recoverer)
    case FinRolledBack => FinSweep
    case FinFailed | FinVersion => Idle
  }

  /** Where an exception takes control: the handler of the enclosing try, or out of the process. */
  function Handler(pc: PC, code: Code, m: Status): PC {
    match pc
    case Write(w) => (
      match w
      case ValReady => PC.Write(ValFailed)
      case RunBackingUp | RunStopping => PC.Write(RunFailed(false))
      case RunCommitted | RunInstalling => PC.Write(RunFailed(true))
      case RunStarting | RunVerifying | RunSuccess => PC.Write(RunRolling)
      case RunPending | RunRolledBack => PC.Write(RunRollbackFailed)
      case RecPrevious | RecPending => PC.Write(RecFailed(false))
      case FinRolledBack => PC.Write(FinFailed)
      case _ => Idle)
    case ValCheck | ValSweepReady => PC.Write(ValFailed)
    case RequestCheck => if code.InstallChanged? then PC.Write(RequestChanged) else Idle
    case RequestLaunch => PC.Write(RequestFailed)
    case RunCheck => if code.InstallChanged? then PC.Write(RunChanged) else PC.Write(RunFailed(false))
    case MakeBackup | CopyProgram | CopyEnv => PC.Write(RunFailed(false))
    case StopAll | BeginSnapshot | EndSnapshot | Commit => PC.Write(RunFailed(true))
    case Install | InstallEnd | InstallSync | StartNew | VerifyNew | SweepSuccess => PC.Write(RunRolling)
    case Restoring(_, who) =>
      if who.Runner? then PC.Write(RunRollbackFailed) else RecoveryHandler(code, m)
    case StartOld | VerifyOld | SweepRolledBack => PC.Write(RunRollbackFailed)
    case RecLoad => RecoveryHandler(code, m)
    case FinHealth | FinSweep => PC.Write(FinFailed)
    case _ => Idle
  }

  /** A stop before the backup was committed is recognised by where recovery came from and by the error code. */
  function RecoveryHandler(code: Code, m: Status): PC {
    if m.from == Some(STOPPING) && code.BackupIncomplete? then RecDropPartial else PC.Write(RecFailed(false))
  }

  /** The backups a clean-up at this place must keep. */
  function Protected(pc: PC, d: Device): set<JobId> {
    match pc
    case ValSweepFailed => {}
    case ValSweepReady | SweepSuccess | SweepRolledBack => {d.status.job}
    case _ => {d.status.job, d.status.backup}
  }

  predicate Sweeping(pc: PC) {
    pc.ValSweepFirst? || pc.ValSweepReady? || pc.ValSweepFailed? || pc.SweepSuccess? || pc.SweepRolledBack? ||
    pc.RecSweep? || pc.FinSweep?
  }

  function AfterSweep(pc: PC): PC {
    if pc.ValSweepFirst? then ValInspect else Idle
  }

  predicate Starting(pc: PC) {
    pc.StartNew? || pc.StartOld? || pc.Restart?
  }

  /** The directory and the version a restore works with. */
  function RestoreId(who: Who, s: State): JobId {
    if who.Runner? then s.dev.status.job else s.memo.backup
  }

  function RestoreVersion(who: Who, s: State): Version {
    if who.Runner? then s.dev.base else s.memo.previous
  }

  predicate Loading(pc: PC) {
    pc.RecLoad? || (pc.Restoring? && pc.stage.ToLoad?)
  }

  predicate Healthy(d: Device, expected: Version) {
    d.running == SERVICES && Undamaged(d) && d.tree.value.version == expected
  }

  // ----- which events can happen

  predicate Enabled(s: State, e: Event) {
    match e
    case Kill | Reboot | ServiceStop(_) => true
    case SystemStart(_) => Gate(s.dev.status)
    case ServiceWrite(_) => s.dev.running != {}
    case Enter(entry) => s.pc.Idle? && CanEnter(s.dev.status, entry)
    case Step(o, seen) =>
      && !s.pc.Idle?
      && (s.dev.tree.Whole? ==> seen == s.dev.tree.value.version)
      && match o
         case Done => CanFinish(s)
         case Built(_) => s.pc.InstallEnd? || (s.pc.Restoring? && s.pc.stage.ToInstallEnd?)
         case Chosen(p) => s.pc.ValCheck? && p.version > 0
         case Swept(order, gone, damaged, _) =>
           && Sweeping(s.pc)
           && Retention.Distinct(order)
           && s.dev.backups.Keys == Retention.Entries(order)
           && gone + damaged <= Retention.Doomed(order, Protected(s.pc, s.dev), KEEP_BACKUPS)
         case Started(_) => Starting(s.pc)
         case Raise(code) =>
           && (code.InstallChanged? ==> s.pc.RunCheck? || s.pc.RequestCheck?)
           && (code.BackupIncomplete? ==> Loading(s.pc))
         case RaiseLate => s.pc.Write? || s.pc.Commit?
  }

  predicate CanEnter(st: Status, entry: Entry) {
    match entry
    case Validate => !Active(st.phase) && !st.requested
    case RequestStart => st.phase.READY? && !st.requested
    case Run => st.phase.READY? && st.requested
    case Recover | Finalize => true
  }

  /** When the operation at this place can end normally. */
  predicate CanFinish(s: State) {
    var d := s.dev;
    match s.pc
    case Idle | ValCheck | InstallEnd => false
    case StopAll => d.running == {}
    case Commit =>
      var id := d.status.job;
      id in d.backups && Filled(d.backups[id])
    case VerifyNew => Healthy(d, d.package.version)
    case VerifyOld => Healthy(d, d.base)
    case FinHealth => Healthy(d, if s.memo.previous != 0 then s.memo.previous else s.memo.current)
    case RecLoad =>
      && Loadable(d.backups, s.memo.backup)
      && s.memo.previous in {0, d.backups[s.memo.backup].marker.value} && d.backups[s.memo.backup].marker.value != 0
    case Restoring(stage, who) =>
      var id := RestoreId(who, s);
      && (stage.ToStop? ==> d.running == {})
      && (stage.ToLoad? ==> Loadable(d.backups, id) && d.backups[id].marker.value == RestoreVersion(who, s))
      && !stage.ToInstallEnd?
    case ValInspect => d.tree.Whole? ==> d.tree.value.version > 0
    case _ => !Sweeping(s.pc)
  }

  // ----- the step function

  function Next(s: State, e: Event): State
    requires Enabled(s, e)
  {
    var d := s.dev;
    match e
    case Kill => s.(pc := Idle, h := s.h.(raised := None))
    case Reboot => s.(pc := Idle, dev := d.(running := {}), h := s.h.(raised := None))
    case SystemStart(v) => s.(dev := d.(running := d.running + {v}))
    case ServiceStop(v) => s.(dev := d.(running := d.running - {v}))
    case ServiceWrite(x) => s.(dev := d.(data := if d.data.Whole? then Whole(x) else Broken))
    case Enter(entry) => s.(pc := EntryPoint(d.status, entry), memo := d.status, h := s.h.(raised := None))
    case Step(o, seen) =>
      match o
      case Done => if s.pc.Write? then Store(s, s.pc.w, seen, true) else Finish(s, seen)
      case Built(env) =>
        if s.pc.InstallEnd? then s.(dev := d.(tree := Whole(d.package), env := Whole(env)), pc := InstallSync)
        else RestoreProgram(s, env)
      case Chosen(p) => s.(dev := d.(package := p, base := s.memo.current), pc := PC.Write(ValReady))
      case Swept(_, gone, damaged, ok) =>
        var swept := s.(dev := d.(backups := Sweep(d.backups, gone, damaged)));
        if ok then swept.(pc := AfterSweep(s.pc)) else Thrown(swept, Other, seen)
      case Started(v) => s.(dev := d.(running := if Gate(d.status) then d.running + {v} else d.running))
      case Raise(code) => Thrown(s, code, seen)
      case RaiseLate => if s.pc.Write? then Store(s, s.pc.w, seen, false) else CommitLate(s)
  }

  function EntryPoint(st: Status, entry: Entry): PC {
    match entry
    case Validate => ValSweepFirst
    case RequestStart => RequestCheck
    case Run => RunCheck
    case Recover =>
      if Terminal(st.phase) && !(st.phase.FAILED? && st.required) then RecSweep
      else if st.phase.READY? then (if st.requested then PC.Write(RecClear) else RecSweep)
      else if st.phase.VALIDATING? || st.phase.BACKING_UP? then RecDropStale
      else if !RollbackPhase(st.phase) && !(st.phase.FAILED? && st.required) then PC.Write(RecUnknown)
      else if st.attempts >= MAX_RECOVERY_ATTEMPTS then PC.Write(RecExhausted)
      else PC.Write(RecRolling)
    case Finalize =>
      if st.phase.ROLLING_BACK? && st.pending then FinHealth
      else if st.phase.FAILED? && (st.interrupted || st.failed) then PC.Write(FinVersion)
      else Idle
  }

  /** A status write that reaches the disk; `ok` is false when it raises afterwards. */
  function Store(s: State, w: Write, seen: Version, ok: bool): State {
    var next := Updated(w, s.dev, s.memo, seen);
    if Refused(w, s.dev, next.phase) then s.(pc := Handler(s.pc, Other, s.memo), h := s.h.(raised := Some(s.pc)))
    else
      var h := Recorded(s, w, next);
      s.(dev := s.dev.(status := next), memo := next,
         pc := if ok then AfterWrite(w) else Handler(s.pc, Other, next),
         h := if ok then h else h.(raised := Some(s.pc)))
  }

  /** How the history follows a write. */
  function Recorded(s: State, w: Write, next: Status): History {
    match w
    case ValStart => Start(s.dev, !Undamaged(s.dev))
    case RunBackingUp => s.h.(backingUp := s.h.backingUp + 1)
    case RecExhausted => s.h.(gaveUp := s.h.gaveUp || !Kept(s.dev, s.h))
    case RecFailed(stopped) => s.h.(gaveUp := s.h.gaveUp || (!stopped && !next.required && !Kept(s.dev, s.h)))
    case FinFailed => s.h.(gaveUp := s.h.gaveUp || (!next.required && !Kept(s.dev, s.h)))
    case _ => s.h
  }

  /** An exception.  A status write that raises early leaves the file but has updated the dictionary
      whenever the caller updates it in place (`transition` works on a fresh copy). */
  function Thrown(s: State, code: Code, seen: Version): State {
    var memo := if s.pc.Write? && !Checked(s.pc.w) then Updated(s.pc.w, s.dev, s.memo, seen) else s.memo;
    s.(pc := Handler(s.pc, code, s.memo), memo := memo, h := s.h.(raised := Some(s.pc)))
  }

  function CommitLate(s: State): State
    requires s.pc.Commit?
  {
    (if CanFinish(s) then Sealed(s) else s).(pc := PC.Write(RunFailed(true)), h := s.h.(raised := Some(s.pc)))
  }

  function Sealed(s: State): State
    requires s.pc.Commit? && CanFinish(s)
  {
    var id := s.dev.status.job;
    s.(dev := s.dev.(backups := s.dev.backups[id := s.dev.backups[id].(marker := Some(s.dev.base))]))
  }

  function RestoreProgram(s: State, env: nat): State
    requires s.pc.Restoring?
  {
    var id := RestoreId(s.pc.who, s);
    s.(dev := s.dev.(tree := Copied(s.dev.backups, id).program.GetOr(Broken), env := Whole(env)),
        pc := Restoring(ToEnv, s.pc.who))
  }

  function Sweep(backups: map<JobId, Backup>, gone: set<JobId>, damaged: set<JobId>): map<JobId, Backup> {
    map id | id in backups && id !in gone ::
        if id in damaged then backups[id].(program := None, env := None, data := None) else backups[id]
  }

  function With(s: State, b: Backup, pc: PC): State {
    s.(dev := s.dev.(backups := s.dev.backups[s.dev.status.job := b]), pc := pc)
  }

  function Copied(backups: map<JobId, Backup>, id: JobId): Backup {
    if id in backups then backups[id] else EmptyBackup
  }

  function TheBackup(s: State): Backup {
    Copied(s.dev.backups, s.dev.status.job)
  }

  /** The normal end of the operations that are not status writes. */
  function Finish(s: State, seen: Version): State
    requires CanFinish(s) && !s.pc.Write?
  {
    var d := s.dev;
    match s.pc
    case ValInspect =>
      s.(dev := d.(nextJob := d.nextJob + 1), memo := DefaultStatus(seen).(job := d.nextJob, phase := VALIDATING),
         pc := PC.Write(ValStart))
    case RequestCheck => s.(pc := PC.Write(Request))
    case RequestLaunch => s.(pc := Idle)
    case RunCheck => s.(pc := PC.Write(RunBackingUp))
    case MakeBackup => With(s, EmptyBackup, CopyProgram)
    case CopyProgram => With(s, TheBackup(s).(program := Some(d.tree)), CopyEnv)
    case CopyEnv => With(s, TheBackup(s).(env := Some(d.env)), PC.Write(RunStopping))
    case StopAll => s.(h := s.h.(stopData := d.data), pc := BeginSnapshot)
    case BeginSnapshot => s.(snap := d.data, pc := EndSnapshot)
    case EndSnapshot => With(s, TheBackup(s).(data := Some(if d.data == s.snap then d.data else Broken)), Commit)
    case Commit => Sealed(s).(pc := PC.Write(RunCommitted))
    case Install => s.(dev := d.(tree := Broken, env := Broken), pc := InstallEnd)
    case InstallSync => s.(pc := PC.Write(RunStarting))
    case StartNew => s.(pc := PC.Write(RunVerifying))
    case VerifyNew => s.(pc := PC.Write(RunSuccess))
    case Restart => s.(pc := Idle)
    case Restoring(stage, who) => FinishRestoring(s, stage, who)
    case StartOld => s.(pc := VerifyOld)
    case VerifyOld => s.(pc := PC.Write(RunRolledBack))
    case RecLoad =>
      if s.memo.previous == 0 then s.(memo := s.memo.(previous := d.backups[s.memo.backup].marker.value),
          pc := PC.Write(RecPrevious))
      else s.(pc := Restoring(ToStop, Recoverer))
    case RecDropStale =>
      s.(dev := d.(backups := if d.status.phase.BACKING_UP?
          then Drop(d.backups, if s.memo.backup != 0 then s.memo.backup else s.memo.job) else d.backups),
         pc := PC.Write(RecInterrupted))
    case RecDropPartial =>
      s.(dev := d.(backups := Drop(d.backups, s.memo.backup)), pc := PC.Write(RecFailed(true)),
         h := s.h.(lost := s.h.lost || (Loadable(d.backups, s.memo.backup) && !Kept(d, s.h))))
    case FinHealth => s.(pc := PC.Write(FinRolledBack))
  }

  function FinishRestoring(s: State, stage: Stage, who: Who): State {
    var d := s.dev;
    var copy := Copied(d.backups, RestoreId(who, s));
    match stage
    case ToStop => s.(pc := Restoring(ToLoad, who), h := if who.Recoverer? then s.h.(restores := s.h.restores + 1)
        else s.h)
    case ToLoad => s.(pc := Restoring(ToInstall, who))
    case ToInstall => s.(dev := d.(tree := Broken, env := Broken), pc := Restoring(ToInstallEnd, who))
    case ToInstallEnd => s
    case ToEnv => s.(dev := d.(env := Broken), pc := Restoring(ToEnvEnd, who))
    case ToEnvEnd => s.(dev := d.(env := copy.env.GetOr(Broken)), pc := Restoring(ToData, who))
    case ToData => s.(dev := d.(data := Broken), pc := Restoring(ToDataEnd, who))
    case ToDataEnd => s.(dev := d.(data := copy.data.GetOr(Broken)), pc := Restoring(ToSync, who))
    case ToSync => s.(pc := PC.Write(if who.Runner? then RunPending else RecPending))
  }

  function Drop(backups: map<JobId, Backup>, id: JobId): map<JobId, Backup> {
    backups - {id}
  }

  // ----- runs

  /** `t` is reached from `s` by the events `es`, each possible when it happens. */
  predicate Runs(s: State, es: seq<Event>, t: State)
    decreases es
  {
    if es == [] then s == t else Enabled(s, es[0]) && Runs(Next(s, es[0]), es[1..], t)
  }
}
