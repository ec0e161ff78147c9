/** The update manager as a program: its commands, with their try blocks and handlers, run on a device
    that can fail, be killed or be rebooted anywhere.  Whatever the commands do is a run of `Upgrade`. */
module UpdateManager {
  import opened Options
  import opened Upgrade
  import opened UpgradeInvariant
  import opened UpgradeAftermath
  import opened UpgradeTheorems
  import Retention

  /** How a command or a part of one ends.  After a kill nothing more is run. */
  datatype Ending = Finished | Raised(code: Code) | Killed

  // ----- the operations outside the manager, as far as its control flow is concerned

  /** The next stage of a restore. */
  function Later(stage: Stage): Stage {
    match stage
    case ToStop => ToLoad
    case ToLoad => ToInstall
    case ToInstall => ToInstallEnd
    case ToInstallEnd => ToEnv
    case ToEnv => ToEnvEnd
    case ToEnvEnd => ToData
    case ToData => ToDataEnd
    case ToDataEnd | ToSync => ToSync
  }

  function Remaining(stage: Stage): nat {
    match stage
    case ToStop => 8
    case ToLoad => 7
    case ToInstall => 6
    case ToInstallEnd => 5
    case ToEnv => 4
    case ToEnvEnd => 3
    case ToData => 2
    case ToDataEnd => 1
    case ToSync => 0
  }

  predicate Operation(pc: PC) {
    match pc
    case RequestCheck | RequestLaunch | RunCheck | MakeBackup | CopyProgram | CopyEnv
      | StopAll | BeginSnapshot | EndSnapshot | Commit
      | Install | InstallEnd | InstallSync | StartNew | VerifyNew | Restart | Restoring(_, _) | StartOld | VerifyOld
      | RecDropStale | RecDropPartial | FinHealth => true
    case _ => false
  }

  function AfterOperation(pc: PC): PC {
    match pc
    case RequestCheck => PC.Write(Request)
    case RunCheck => PC.Write(RunBackingUp)
    case MakeBackup => CopyProgram
    case CopyProgram => CopyEnv
    case CopyEnv => PC.Write(RunStopping)
    case StopAll => BeginSnapshot
    case BeginSnapshot => EndSnapshot
    case EndSnapshot => Commit
    case Commit => PC.Write(RunCommitted)
    case Install => InstallEnd
    case InstallEnd => InstallSync
    case InstallSync => PC.Write(RunStarting)
    case StartNew => PC.Write(RunVerifying)
    case VerifyNew => PC.Write(RunSuccess)
    case Restoring(stage, who) => if stage.ToSync? then PC.Write(if who.Runner? then RunPending else RecPending)
        else Restoring(Later(stage), who)
    case StartOld => VerifyOld
    case VerifyOld => PC.Write(RunRolledBack)
    case RecDropStale => PC.Write(RecInterrupted)
    case RecDropPartial => PC.Write(RecFailed(true))
    case FinHealth => PC.Write(FinRolledBack)
    case _ => Idle
  }

  /** What operations leave alone. */
  predicate Steady(d: Device, e: Device) {
    e.status == d.status && e.package == d.package && e.base == d.base
  }

  /** Services came, went and wrote data; with the gate closed none came. */
  predicate Served(d: Device, e: Device) {
    e == d.(data := e.data, running := e.running) && (!Gate(d.status) ==> e.running <= d.running)
  }

  lemma OperationLeads(s: State, seen: Version)
    requires Operation(s.pc) && Enabled(s, Step(Done, seen))
    ensures var t := Next(s, Step(Done, seen));
            t.pc == AfterOperation(s.pc) && t.memo == s.memo && Steady(s.dev, t.dev)
  {
  }

  lemma OperationThrows(s: State, code: Code, seen: Version)
    requires Operation(s.pc) && Enabled(s, Step(Raise(code), seen))
    ensures var t := Next(s, Step(Raise(code), seen));
            t.pc == Handler(s.pc, code, s.memo) && t.memo == s.memo && t.dev == s.dev && (Exempt(t.h) <==> Exempt(s.h))
  {
  }

  lemma UpdatedSame(w: Write, d: Device, e: Device, m: Status, seen: Version)
    requires Steady(d, e)
    ensures Updated(w, d, m, seen) == Updated(w, e, m, seen)
  {
  }

  lemma WriteLeads(s: State, w: Write, seen: Version, ok: bool)
    requires s.pc == PC.Write(w)
    ensures var next := Updated(w, s.dev, s.memo, seen); var t := Store(s, w, seen, ok);
            && t.dev == s.dev.(status := if Refused(w, s.dev, next.phase) then s.dev.status else next)
            && t.memo == (if Refused(w, s.dev, next.phase) then s.memo else next)
            && (t.pc == if ok && !Refused(w, s.dev, next.phase) then AfterWrite(w) else Handler(s.pc, Other, next))
            && (!ok || Refused(w, s.dev, next.phase) ==> t.h.raised == Some(s.pc))
  {
  }

  lemma WriteThrows(s: State, w: Write, seen: Version)
    requires s.pc == PC.Write(w)
    ensures var next := Updated(w, s.dev, s.memo, seen); var t := Thrown(s, Other, seen);
            && t.dev == s.dev && (t.memo == next || t.memo == s.memo) && t.pc == Handler(s.pc, Other, next)
            && t.h.raised == Some(s.pc)
  {
  }

  /** A backup that is gone or changed is one the retention rule dooms. */
  ghost predicate OnlyDoomed(before: map<JobId, Backup>, after: map<JobId, Backup>, protected: set<JobId>) {
    && after.Keys <= before.Keys
    && exists order: seq<JobId> ::
         && Retention.Distinct(order) && Retention.Entries(order) == before.Keys
         && forall id :: id in before && (id !in after || after[id] != before[id]) ==>
              id in Retention.Doomed(order, protected, KEEP_BACKUPS)
  }

  /** What a clean-up at this place may do to the backups of a device. */
  ghost predicate Spared(d: Device, pc: PC, after: map<JobId, Backup>) {
    && OnlyDoomed(d.backups, after, Protected(pc, d))
    && forall id :: id in Protected(pc, d) && id in d.backups ==> id in after && after[id] == d.backups[id]
  }

  lemma NothingSwept(d: Device, pc: PC, order: seq<JobId>)
    requires Retention.Distinct(order) && Retention.Entries(order) == d.backups.Keys
    ensures Spared(d, pc, d.backups)
  {
  }

  lemma SweepDooms(d: Device, s: State, order: seq<JobId>, gone: set<JobId>, damaged: set<JobId>)
    requires s.dev == d.(data := s.dev.data, running := s.dev.running)
    requires Retention.Distinct(order) && Retention.Entries(order) == d.backups.Keys
    requires gone + damaged <= Retention.Doomed(order, Protected(s.pc, d), KEEP_BACKUPS)
    ensures Spared(d, s.pc, Sweep(d.backups, gone, damaged))
  {
    SweepSpares(s.(dev := d), order, gone, damaged);
  }

  lemma SweepLeads(s: State, order: seq<JobId>, gone: set<JobId>, damaged: set<JobId>, ok: bool, seen: Version)
    requires Enabled(s, Step(Swept(order, gone, damaged, ok), seen))
    ensures var t := Next(s, Step(Swept(order, gone, damaged, ok), seen));
            && t.dev == s.dev.(backups := Sweep(s.dev.backups, gone, damaged)) && t.memo == s.memo
            && (t.pc == if ok then AfterSweep(s.pc) else Handler(s.pc, Other, s.memo))
            && (Exempt(t.h) <==> Exempt(s.h))
  {
  }

  // ----- what the protocol knows at some places

  lemma BackupIsBuilt(origin: State, trace: seq<Event>, s: State)
    requires Past(origin, trace, s) && !s.h.orphaned && s.pc == PC.Write(RunStopping)
    ensures Building(s.dev, Some(s.h.tree), Some(s.h.env), None) && Kept(s.dev, s.h)
  {
    PastRuns(origin, trace, s);
    Reached(origin, trace, s);
  }

  lemma BackupIsCommitted(origin: State, trace: seq<Event>, s: State)
    requires Past(origin, trace, s) && !s.h.orphaned && s.pc == PC.Write(RunCommitted)
    ensures BackedUp(s.dev, s.h) && s.dev.running == {} && s.dev.data == s.h.stopData
  {
    PastRuns(origin, trace, s);
    Reached(origin, trace, s);
  }

  lemma ProgramIsNew(origin: State, trace: seq<Event>, s: State)
    requires Past(origin, trace, s) && !s.h.orphaned && s.pc == PC.Write(RunStarting)
    ensures Undamaged(s.dev) && s.dev.tree == Whole(s.dev.package)
  {
    PastRuns(origin, trace, s);
    Reached(origin, trace, s);
  }

  lemma RestoreIsComplete(origin: State, trace: seq<Event>, s: State)
    requires Past(origin, trace, s) && !s.h.orphaned && (s.pc == PC.Write(RunPending) || s.pc == PC.Write(RecPending))
    ensures Kept(s.dev, s.h) && s.dev.data == s.h.stopData && s.dev.running == {}
  {
    PastRuns(origin, trace, s);
    Reached(origin, trace, s);
  }

  lemma StillRollingBack(origin: State, trace: seq<Event>, s: State)
    requires Past(origin, trace, s) && s.pc.StartOld?
    ensures s.dev.status.phase.ROLLING_BACK?
  {
    PastRuns(origin, trace, s);
    Reached(origin, trace, s);
  }

  /** The backups in some order of age. */
  method ByAge(ids: set<JobId>) returns (order: seq<JobId>)
    ensures Retention.Distinct(order) && Retention.Entries(order) == ids
  {
    order := [];
    var rest := ids;
    while rest != {}
      invariant Retention.Distinct(order) && Retention.Entries(order) == ids - rest && rest <= ids
    {
      var id :| id in rest;
      assert id !in Retention.Entries(order);
      assert Retention.Entries(order + [id]) == Retention.Entries(order) + {id};
      order := order + [id];
      rest := rest - {id};
    }
  }

  lemma LoadLeads(s: State, seen: Version)
    requires s.pc.RecLoad? && Enabled(s, Step(Done, seen))
    ensures var t := Next(s, Step(Done, seen));
            && t.pc == (if s.memo.previous == 0 then PC.Write(RecPrevious) else Restoring(ToStop, Recoverer))
            && t.memo == s.memo.(previous := t.memo.previous) && t.dev == s.dev
            && Loadable(t.dev.backups, t.memo.backup) && t.dev.backups[t.memo.backup].marker == Some(t.memo.previous)
            && t.h == s.h
  {
  }

  lemma LoadThrows(s: State, code: Code, seen: Version)
    requires s.pc.RecLoad? && Enabled(s, Step(Raise(code), seen))
    ensures var t := Next(s, Step(Raise(code), seen));
            && t.pc == RecoveryHandler(code, s.memo) && t.memo == s.memo && t.dev == s.dev
            && (Exempt(t.h) <==> Exempt(s.h))
  {
  }

  /** The entry points, as their first lines decide. */
  lemma EntryPoints(st: Status)
    ensures var retry := st.phase.FAILED? && st.required;
            EntryPoint(st, Recover) ==
              if Terminal(st.phase) && !retry then RecSweep
              else if st.phase.READY? then if st.requested then PC.Write(RecClear) else RecSweep
              else if st.phase.VALIDATING? || st.phase.BACKING_UP? then RecDropStale
              else if st.attempts >= MAX_RECOVERY_ATTEMPTS then PC.Write(RecExhausted)
              else PC.Write(RecRolling)
  {
  }

  // ----- when nothing goes wrong

  predicate Verifying(pc: PC) {
    pc.VerifyNew? || pc.VerifyOld? || pc.FinHealth?
  }

  predicate Stopping(pc: PC) {
    pc.StopAll? || (pc.Restoring? && pc.stage.ToStop?)
  }

  predicate Installs(pc: PC) {
    pc.InstallEnd? || (pc.Restoring? && pc.stage.ToInstallEnd?)
  }

  /** The protocol has what each operation needs to end: the health checks need the services up. */
  lemma CanEnd(origin: State, trace: seq<Event>, s: State)
    requires Past(origin, trace, s) && !Exempt(s.h) && Operation(s.pc) && !Stopping(s.pc) && !Installs(s.pc)
    requires Verifying(s.pc) ==> s.dev.running == SERVICES
    ensures CanFinish(s)
  {
    PastRuns(origin, trace, s);
    Reached(origin, trace, s);
  }

  lemma StartedLeads(s: State, service: Service, seen: Version)
    requires Starting(s.pc) && Enabled(s, Step(Started(service), seen))
    ensures var t := Next(s, Step(Started(service), seen));
            && t == s.(dev := t.dev) && Served(s.dev, t.dev)
            && t.dev.data == s.dev.data && t.dev.running == s.dev.running + if Gate(s.dev.status) then {service} else {}
  {
  }

  lemma StartLeads(s: State, seen: Version)
    requires Starting(s.pc) && (s.dev.tree.Whole? ==> seen == s.dev.tree.value.version)
    ensures Enabled(s, Step(Done, seen)) && Next(s, Step(Done, seen)) == s.(pc := AfterOperation(s.pc))
  {
  }

  lemma AllOfThem(running: set<Service>)
    ensures Controller in running && Web in running && LogRotator in running ==> running == SERVICES
  {
    forall v | v in running ensures v in SERVICES {
      assert v == Controller || v == Web || v == LogRotator;
    }
  }

  lemma OperationKeeps(s: State, seen: Version)
    requires Operation(s.pc) && Enabled(s, Step(Done, seen)) && !s.pc.RecDropPartial?
    ensures var t := Next(s, Step(Done, seen)); t.dev.running == s.dev.running && (Exempt(t.h) <==> Exempt(s.h))
  {
  }

  lemma InstallKeeps(s: State, env: nat, seen: Version)
    requires Installs(s.pc) && Enabled(s, Step(Built(env), seen))
    ensures var t := Next(s, Step(Built(env), seen));
            && t.dev.running == s.dev.running && t.h == s.h && t.pc == AfterOperation(s.pc) && t.memo == s.memo
            && Steady(s.dev, t.dev)
  {
  }

  lemma WriteIsAccepted(origin: State, trace: seq<Event>, s: State, w: Write, seen: Version)
    requires Past(origin, trace, s) && s.pc == PC.Write(w)
    ensures Refused(w, s.dev, Updated(w, s.dev, s.memo, seen).phase) ==> w.RunRolling? && s.dev.status.phase.SUCCESS?
  {
    PastRuns(origin, trace, s);
    if Checked(w) {
      RefusedExactly(origin, trace, s, w, seen);
    }
  }

  /** The writes that leave a job's history as it was. */
  predicate Plain(w: Write) {
    !w.ValStart? && !w.RecExhausted? && !w.RecFailed? && !w.FinFailed?
  }

  lemma WriteKeeps(s: State, w: Write, seen: Version)
    requires s.pc == PC.Write(w) && Plain(w)
    ensures Exempt(Store(s, w, seen, true).h) <==> Exempt(s.h)
    ensures Exempt(Store(s, w, seen, false).h) <==> Exempt(s.h)
  {
  }

  /** The job is over, and no recovery is due. */
  predicate Settled(st: Status) {
    st.phase.SUCCESS? || st.phase.ROLLED_BACK? || (st.phase.FAILED? && !st.required)
  }

  lemma CanLoad(origin: State, trace: seq<Event>, s: State)
    requires Past(origin, trace, s) && !Exempt(s.h) && s.pc.RecLoad?
    ensures Loadable(s.dev.backups, s.memo.backup) ==> CanFinish(s)
  {
    PastRuns(origin, trace, s);
    Reached(origin, trace, s);
  }

  /** The backup a recovery restores from. */
  function RestoreFrom(m: Status): JobId {
    if m.backup != 0 then m.backup else m.job
  }

  /** A restore is due, and one more attempt is allowed. */
  predicate Due(st: Status) {
    (RollbackPhase(st.phase) || (st.phase.FAILED? && st.required)) && st.attempts < MAX_RECOVERY_ATTEMPTS
  }

  /** The installed version can be read, unless the program is torn. */
  predicate Readable(d: Device) {
    d.tree.Whole? ==> d.tree.value.version > 0
  }

  class Manager {
    var trouble: nat // how much may still go wrong
    var dev: Device
    var memo: Status // the status dictionary in memory
    var snap: Part<nat>
    var pc: PC
    var h: History
    ghost var origin: State
    ghost var trace: seq<Event>

    function State(): State
      reads this
    {
      Upgrade.State.State(dev, pc, memo, snap, h)
    }

    /** Everything that happened so far is a run of the protocol from a device at rest. */
    ghost predicate Valid()
      reads this
    {
      Past(origin, trace, State())
    }

    constructor (d: Device, trouble: nat)
      requires Init(Upgrade.State.State(d, Idle, d.status, d.data, Start(d, false)))
      ensures Valid() && pc.Idle? && dev == d && this.trouble == trouble
    {
      this.trouble := trouble;
      dev, memo, snap, pc := d, d.status, d.data, Idle;
      h := Start(d, false);
      origin := Upgrade.State.State(d, Idle, d.status, d.data, Start(d, false));
      trace := [];
      new;
      PastRuns(origin, trace, State());
    }

    /** One event of the protocol. */
    method Take(e: Event)
      requires Valid() && Enabled(State(), e)
      modifies this
      ensures Valid() && State() == Next(old(State()), e) && trouble == old(trouble)
    {
      PastOn(origin, trace, State(), e);
      var t := Next(State(), e);
      trace := trace + [e];
      dev, pc, memo, snap, h := t.dev, t.pc, t.memo, t.snap, t.h;
    }

    /** Meanwhile: services stop, are started through the gate, and write data. */
    method Meanwhile()
      requires Valid()
      modifies this
      ensures Valid() && State() == old(State()).(dev := dev) && Served(old(dev), dev)
      ensures trouble <= old(trouble) && (trouble == old(trouble) ==> dev == old(dev))
    {
      if trouble == 0 {
        return;
      }
      var steps: int := *;
      for i := 0 to if steps < 0 then 0 else steps
        invariant Valid() && State() == old(State()).(dev := dev) && Served(old(dev), dev)
        invariant trouble == old(trouble)
      {
        Happen();
      }
      trouble := trouble - 1;
    }

    method Happen()
      requires Valid()
      modifies this
      ensures Valid() && State() == old(State()).(dev := dev) && Served(old(dev), dev) && trouble == old(trouble)
    {
      var service: Service := *;
      var what: nat := *;
      if what == 0 && Gate(dev.status) {
        Take(SystemStart(service));
      } else if what == 1 && dev.running != {} {
        var data: nat := *;
        Take(ServiceWrite(data));
      } else {
        Take(ServiceStop(service));
      }
    }

    method Die()
      requires Valid() && trouble > 0
      modifies this
      ensures Valid() && pc.Idle? && dev == old(dev).(running := dev.running) && dev.running <= old(dev.running)
      ensures trouble < old(trouble) && (Exempt(h) <==> Exempt(old(h)))
    {
      var power: bool := *;
      Take(if power then Reboot else Kill);
      trouble := trouble - 1;
    }

    /** All services are told to stop, and do. */
    method StopThem()
      requires Valid()
      modifies this
      ensures Valid() && State() == old(State()).(dev := old(dev).(running := {})) && trouble == old(trouble)
    {
      Take(ServiceStop(Controller));
      Take(ServiceStop(Web));
      Take(ServiceStop(LogRotator));
      assert forall v: Service :: v in dev.running ==> !v.Controller? && !v.Web? && !v.LogRotator?;
    }

    method ReadVersion() returns (version: Version)
      ensures dev.tree.Whole? ==> version == dev.tree.value.version
    {
      version := *;
      if dev.tree.Whole? {
        version := dev.tree.value.version;
      }
    }

    /** An operation outside the manager: it ends, raises, or the process dies in it.  A health check ends
        only with all services up and the expected version in place.  When nothing goes wrong it ends. */
    method Perform() returns (o: Ending)
      requires Valid() && Operation(pc) && !pc.RecDropPartial?
      modifies this
      ensures Valid() && (o.Killed? ==> pc.Idle?) && Steady(old(dev), dev) && trouble <= old(trouble)
      ensures o.Finished? ==> pc == AfterOperation(old(pc))
      ensures o.Raised? ==> pc == Handler(old(pc), o.code, old(memo))
      ensures !o.Killed? ==> memo == old(memo)
      ensures o.Finished? && old(pc).VerifyNew? ==> Healthy(dev, dev.package.version)
      ensures o.Finished? && old(pc).VerifyOld? ==> Healthy(dev, dev.base)
      ensures trouble == old(trouble) && !Exempt(old(h)) && (Verifying(old(pc)) ==> old(dev).running == SERVICES) ==>
                o.Finished? && dev.running == if Stopping(old(pc)) then {} else old(dev).running
      ensures Exempt(h) <==> Exempt(old(h))
    {
      Meanwhile();
      var fate: nat := *;
      var seen := ReadVersion();
      if trouble > 0 && pc.Commit? && fate == 3 {
        trouble := trouble - 1;
        Take(Step(RaiseLate, seen));
        return Raised(Other);
      }
      if trouble > 0 && fate <= 2 {
        o := GoWrong(fate == 0, fate == 2, seen);
        return;
      }
      if Stopping(pc) {
        StopThem();
      }
      o := Complete(fate == 4, seen);
    }

    /** The process dies in the operation, or the operation raises. */
    method GoWrong(dies: bool, known: bool, seen: Version) returns (o: Ending)
      requires Valid() && Operation(pc) && trouble > 0 && (dev.tree.Whole? ==> seen == dev.tree.value.version)
      modifies this
      ensures Valid() && !o.Finished? && trouble < old(trouble) && (Exempt(h) <==> Exempt(old(h)))
      ensures o.Killed? ==> pc.Idle?
      ensures o.Raised? ==> pc == Handler(old(pc), o.code, old(memo)) && memo == old(memo)
      ensures dev == old(dev).(running := dev.running) && dev.running <= old(dev).running
    {
      if dies {
        Die();
        return Killed;
      }
      trouble := trouble - 1;
      o := Fail(known, seen);
    }

    /** The operation ends if it can. */
    method Complete(known: bool, seen: Version) returns (o: Ending)
      requires Valid() && Operation(pc) && !pc.RecDropPartial? && (Stopping(pc) ==> dev.running == {})
      requires dev.tree.Whole? ==> seen == dev.tree.value.version
      modifies this
      ensures Valid() && !o.Killed? && Steady(old(dev), dev) && memo == old(memo) && trouble == old(trouble)
      ensures o.Finished? ==> pc == AfterOperation(old(pc))
      ensures o.Raised? ==> pc == Handler(old(pc), o.code, old(memo))
      ensures o.Finished? && old(pc).VerifyNew? ==> Healthy(dev, dev.package.version)
      ensures o.Finished? && old(pc).VerifyOld? ==> Healthy(dev, dev.base)
      ensures !Exempt(old(h)) && (Verifying(old(pc)) ==> old(dev).running == SERVICES) ==>
                o.Finished? && dev.running == old(dev).running
      ensures Exempt(h) <==> Exempt(old(h))
    {
      if Installs(pc) {
        var env: nat := *;
        InstallKeeps(State(), env, seen);
        Take(Step(Built(env), seen));
        return Finished;
      }
      if CanFinish(State()) {
        OperationLeads(State(), seen);
        OperationKeeps(State(), seen);
        Take(Step(Done, seen));
        return Finished;
      }
      if !Exempt(h) && !Stopping(pc) && (Verifying(pc) ==> dev.running == SERVICES) {
        CanEnd(origin, trace, State());
      }
      o := Fail(known, seen);
    }

    /** The operation raises; a check of the installation and the load of a backup have codes of their own. */
    method Fail(known: bool, seen: Version) returns (o: Ending)
      requires Valid() && Operation(pc) && (dev.tree.Whole? ==> seen == dev.tree.value.version)
      modifies this
      ensures Valid() && o.Raised? && pc == Handler(old(pc), o.code, old(memo)) && memo == old(memo)
              && dev == old(dev) && trouble == old(trouble)
      ensures Exempt(h) <==> Exempt(old(h))
    {
      var code := Other;
      if (pc.RunCheck? || pc.RequestCheck?) && known {
        code := InstallChanged;
      }
      if Loading(pc) && known {
        code := BackupIncomplete;
      }
      OperationThrows(State(), code, seen);
      Take(Step(Raise(code), seen));
      o := Raised(code);
    }

    /** Replacing status.json with the dictionary `next`.  It can raise before or after the file is replaced;
        nothing else on disk changes but what services write. */
    method WriteStatus(w: Write, next: Status, seen: Version) returns (o: Ending)
      requires Valid() && pc == PC.Write(w) && next == Updated(w, dev, memo, seen)
      requires dev.tree.Whole? ==> seen == dev.tree.value.version
      modifies this
      ensures Valid() && (o.Killed? ==> pc.Idle?)
      ensures dev == old(dev).(status := dev.status, data := dev.data, running := dev.running)
      ensures dev.status == next || dev.status == old(dev.status)
      ensures o.Finished? ==> dev.status == next && memo == next && pc == AfterWrite(w)
      ensures o.Raised? ==> o.code.Other? && pc == Handler(PC.Write(w), Other, next)
      ensures !Gate(old(dev.status)) ==> dev.running <= old(dev.running)
      ensures trouble <= old(trouble)
      ensures trouble == old(trouble) && !(w.RunRolling? && old(dev.status).phase.SUCCESS?) ==>
                o.Finished? && dev == old(dev).(status := next)
      ensures trouble == old(trouble) ==> !o.Killed? && (o.Raised? ==> dev == old(dev))
      ensures Plain(w) ==> (Exempt(h) <==> Exempt(old(h)))
      ensures o.Raised? ==> h.raised == Some(PC.Write(w))
    {
      Meanwhile();
      UpdatedSame(w, old(dev), dev, memo, seen);
      var fate: nat := *;
      if trouble > 0 && fate <= 2 {
        o := FailToWrite(w, next, seen, fate);
        return;
      }
      WriteIsAccepted(origin, trace, State(), w, seen);
      WriteLeads(State(), w, seen, true);
      if Plain(w) {
        WriteKeeps(State(), w, seen);
      }
      o := if Refused(w, dev, next.phase) then Raised(Other) else Finished;
      Take(Step(Done, seen));
    }

    /** The process dies in the write, or the write raises before or after the file is replaced. */
    method FailToWrite(w: Write, next: Status, seen: Version, fate: nat) returns (o: Ending)
      requires Valid() && pc == PC.Write(w) && next == Updated(w, dev, memo, seen) && trouble > 0
      requires dev.tree.Whole? ==> seen == dev.tree.value.version
      modifies this
      ensures Valid() && (o.Killed? ==> pc.Idle?) && trouble < old(trouble) && !o.Finished?
      ensures dev == old(dev).(status := dev.status, running := dev.running) && dev.running <= old(dev.running)
      ensures dev.status == next || dev.status == old(dev.status)
      ensures o.Raised? ==> o.code.Other? && pc == Handler(PC.Write(w), Other, next)
      ensures Plain(w) ==> (Exempt(h) <==> Exempt(old(h)))
      ensures o.Raised? ==> h.raised == Some(PC.Write(w))
    {
      if fate == 0 {
        Die();
        return Killed;
      }
      trouble := trouble - 1;
      if fate == 1 {
        WriteThrows(State(), w, seen);
        Take(Step(Raise(Other), seen));
      } else {
        WriteLeads(State(), w, seen, false);
        if Plain(w) {
          WriteKeeps(State(), w, seen);
        }
        Take(Step(RaiseLate, seen));
      }
      o := Raised(Other);
    }

    /** Old backups go, newest kept; removing one can fail or leave part of it, and the clean-up can raise
        when it is half done.  Nothing the retention rule keeps is touched. */
    method CleanupHistory() returns (o: Ending)
      requires Valid() && Sweeping(pc)
      modifies this
      ensures Valid() && (o.Killed? ==> pc.Idle?)
      ensures o.Finished? ==> pc == AfterSweep(old(pc))
      ensures o.Raised? ==> o.code.Other? && pc == Handler(old(pc), Other, old(memo))
      ensures !o.Killed? ==> memo == old(memo)
      ensures dev == old(dev).(backups := dev.backups, data := dev.data, running := dev.running)
      ensures Spared(old(dev), old(pc), dev.backups)
      ensures trouble <= old(trouble)
      ensures trouble == old(trouble) ==> o.Finished? && dev == old(dev).(backups := dev.backups)
      ensures Exempt(h) <==> Exempt(old(h))
    {
      var order := ByAge(dev.backups.Keys);
      NothingSwept(dev, pc, order);
      var doomed := Retention.CleanupDirectory(order, Protected(pc, dev), KEEP_BACKUPS);
      Meanwhile();
      var fate: nat := *;
      var seen := ReadVersion();
      if trouble > 0 && fate == 0 {
        Die();
        return Killed;
      }
      var fails := trouble > 0 && fate == 1;
      trouble := if fails then trouble - 1 else trouble;
      var stuck: set<JobId> := *;
      var emptied: set<JobId> := *;
      var gone, damaged := doomed - stuck, doomed * stuck * emptied;
      SweepDooms(old(dev), State(), order, gone, damaged);
      Remove(order, gone, damaged, !fails, seen);
      o := if fails then Raised(Other) else Finished;
    }

    method Remove(order: seq<JobId>, gone: set<JobId>, damaged: set<JobId>, ok: bool, seen: Version)
      requires Valid() && Enabled(State(), Step(Swept(order, gone, damaged, ok), seen))
      modifies this
      ensures Valid() && dev == old(dev).(backups := Sweep(old(dev).backups, gone, damaged)) && memo == old(memo)
      ensures pc == if ok then AfterSweep(old(pc)) else Handler(old(pc), Other, old(memo))
      ensures trouble == old(trouble) && (Exempt(h) <==> Exempt(old(h)))
    {
      SweepLeads(State(), order, gone, damaged, ok, seen);
      Take(Step(Swept(order, gone, damaged, ok), seen));
    }

    /** Each service is started in turn through the gate: with the gate closed none comes up. */
    method StartServices() returns (o: Ending)
      requires Valid() && Starting(pc)
      modifies this
      ensures Valid() && (o.Killed? ==> pc.Idle?) && Steady(old(dev), dev)
      ensures o.Finished? ==> pc == AfterOperation(old(pc))
      ensures o.Raised? ==> pc == Handler(old(pc), o.code, old(memo))
      ensures !o.Killed? ==> memo == old(memo)
      ensures !Gate(old(dev.status)) ==> dev.running <= old(dev.running)
      ensures trouble <= old(trouble) && (Exempt(h) <==> Exempt(old(h)))
      ensures trouble == old(trouble) ==> o.Finished?
      ensures trouble == old(trouble) && Gate(old(dev.status)) ==> dev == old(dev).(running := SERVICES)
    {
      var services := [Controller, Web, LogRotator];
      for i := 0 to |services|
        invariant Valid() && pc == old(pc) && memo == old(memo) && Served(old(dev), dev)
        invariant trouble <= old(trouble) && (Exempt(h) <==> Exempt(old(h)))
        invariant trouble == old(trouble) && Gate(old(dev.status)) ==>
                    dev == old(dev).(running := dev.running) && forall j :: 0 <= j < i ==> services[j] in dev.running
      {
        o := StartOne(services[i]);
        if !o.Finished? { return; }
      }
      assert services[0] == Controller && services[1] == Web && services[2] == LogRotator;
      AllOfThem(dev.running);
      Conclude();
      o := Finished;
    }

    method StartOne(service: Service) returns (o: Ending)
      requires Valid() && Starting(pc)
      modifies this
      ensures Valid() && (o.Killed? ==> pc.Idle?) && Served(old(dev), dev)
      ensures o.Finished? ==> pc == old(pc)
      ensures o.Raised? ==> pc == Handler(old(pc), o.code, old(memo))
      ensures !o.Killed? ==> memo == old(memo)
      ensures trouble <= old(trouble) && (Exempt(h) <==> Exempt(old(h)))
      ensures trouble == old(trouble) ==> o.Finished?
      ensures trouble == old(trouble) && Gate(old(dev.status)) ==>
                dev == old(dev).(running := old(dev).running + {service})
    {
      Meanwhile();
      var seen := ReadVersion();
      var fate: nat := *;
      if trouble > 0 && fate < 2 {
        o := GoWrong(fate == 0, false, seen);
        return;
      }
      StartedLeads(State(), service, seen);
      Take(Step(Started(service), seen));
      o := Finished;
    }

    method Conclude()
      requires Valid() && Starting(pc)
      modifies this
      ensures Valid() && pc == AfterOperation(old(pc)) && memo == old(memo) && dev == old(dev)
      ensures trouble == old(trouble) && (Exempt(h) <==> Exempt(old(h)))
    {
      var seen := ReadVersion();
      StartLeads(State(), seen);
      Take(Step(Done, seen));
    }

    /** Nothing goes wrong, for a job that is not exempt. */
    twostate predicate Smooth()
      reads this
    {
      trouble == old(trouble) && !Exempt(old(h))
    }

    /** At most one thing goes wrong, for such a job, and it is not the end of the process. */
    twostate predicate AlmostSmooth(o: Ending)
      reads this
    {
      old(trouble) <= trouble + 1 && !Exempt(old(h)) && !o.Killed?
    }

    // ----- run_job

    method CreateProgramBackup() returns (o: Ending)
      requires Valid() && pc.MakeBackup?
      modifies this
      ensures Valid() && (o.Killed? ==> pc.Idle?)
      ensures Steady(old(dev), dev)
      ensures o.Finished? ==> pc == PC.Write(RunStopping)
      ensures o.Finished? && !h.orphaned ==> Building(dev, Some(h.tree), Some(h.env), None) && Kept(dev, h)
      ensures o.Raised? ==> pc == PC.Write(RunFailed(false))
      ensures trouble <= old(trouble) && (Exempt(h) <==> Exempt(old(h)))
      ensures Smooth() ==> o.Finished?
    {
      o := Perform();
      if !o.Finished? { return; }
      o := Perform();
      if !o.Finished? { return; }
      o := Perform();
      if o.Finished? && !h.orphaned {
        BackupIsBuilt(origin, trace, State());
      }
    }

    method SnapshotData() returns (o: Ending)
      requires Valid() && pc.StopAll?
      modifies this
      ensures Valid() && (o.Killed? ==> pc.Idle?)
      ensures Steady(old(dev), dev)
      ensures o.Finished? ==> pc == PC.Write(RunCommitted)
      ensures o.Finished? && !h.orphaned ==> BackedUp(dev, h) && dev.running == {} && dev.data == h.stopData
      ensures o.Raised? ==> pc == PC.Write(RunFailed(true))
      ensures trouble <= old(trouble) && (Exempt(h) <==> Exempt(old(h)))
      ensures Smooth() ==> o.Finished?
    {
      o := StopAndBegin();
      if !o.Finished? { return; }
      o := Perform();
      if !o.Finished? { return; }
      o := Perform();
      if o.Finished? && !h.orphaned {
        BackupIsCommitted(origin, trace, State());
      }
    }

    /** The services stop, and the copy of the data begins. */
    method StopAndBegin() returns (o: Ending)
      requires Valid() && pc.StopAll?
      modifies this
      ensures Valid() && (o.Killed? ==> pc.Idle?) && Steady(old(dev), dev)
      ensures o.Finished? ==> pc.EndSnapshot?
      ensures o.Raised? ==> pc == PC.Write(RunFailed(true))
      ensures trouble <= old(trouble) && (Exempt(h) <==> Exempt(old(h)))
      ensures Smooth() ==> o.Finished?
    {
      o := Perform();
      if !o.Finished? { return; }
      o := Perform();
    }

    method InstallPackage() returns (o: Ending)
      requires Valid() && pc.Install?
      modifies this
      ensures Valid() && (o.Killed? ==> pc.Idle?)
      ensures Steady(old(dev), dev)
      ensures o.Finished? ==> pc == PC.Write(RunStarting)
      ensures o.Finished? && !h.orphaned ==> Undamaged(dev) && dev.tree == Whole(dev.package)
      ensures o.Raised? ==> pc == PC.Write(RunRolling)
      ensures trouble <= old(trouble) && (Exempt(h) <==> Exempt(old(h)))
      ensures Smooth() ==> o.Finished?
    {
      o := Perform();
      if !o.Finished? { return; }
      o := Perform();
      if !o.Finished? { return; }
      o := Perform();
      if o.Finished? && !h.orphaned {
        ProgramIsNew(origin, trace, State());
      }
    }

    /** The start of the try block of run_job: the program is copied while the services run. */
    method BackUpProgram() returns (o: Ending)
      requires Valid() && pc.RunCheck?
      modifies this
      ensures Valid() && (o.Killed? ==> pc.Idle?)
      ensures o.Finished? ==> pc == PC.Write(RunStopping)
      ensures o.Raised? ==> pc == if o.code.InstallChanged? then PC.Write(RunChanged) else PC.Write(RunFailed(false))
      ensures trouble <= old(trouble) && (Exempt(h) <==> Exempt(old(h))) && dev.package == old(dev).package
      ensures Smooth() ==> o.Finished?
    {
      o := Perform();
      if !o.Finished? { return; }
      var seen := ReadVersion();
      o := WriteStatus(RunBackingUp, dev.status.(phase := BACKING_UP, previous := dev.base, backup := dev.status.job,
        backupComplete := false, required := false, pending := false, interrupted := false), seen);
      if !o.Finished? { return; }
      o := CreateProgramBackup();
      if o.Raised? { o := Raised(Other); }
    }

    /** Then the services stop and the data is copied.  `affected`: whether the services may have been stopped. */
    method BackUp() returns (o: Ending, affected: bool)
      requires Valid() && pc.RunCheck?
      modifies this
      ensures Valid() && (o.Killed? ==> pc.Idle?)
      ensures o.Finished? ==> pc == PC.Write(RunInstalling) && affected
      ensures o.Raised? ==> pc == if o.code.InstallChanged? then PC.Write(RunChanged) else PC.Write(RunFailed(affected))
      ensures trouble <= old(trouble) && (Exempt(h) <==> Exempt(old(h))) && dev.package == old(dev).package
      ensures Smooth() ==> o.Finished?
    {
      affected := false;
      o := BackUpProgram();
      if !o.Finished? { return; }
      o := DeclareStopping();
      if !o.Finished? { return; }
      affected := true;
      o := SnapshotData();
      if o.Raised? { o := Raised(Other); }
      if !o.Finished? { return; }
      o := DeclareCommitted();
    }

    method DeclareStopping() returns (o: Ending)
      requires Valid() && pc == PC.Write(RunStopping)
      modifies this
      ensures Valid() && (o.Killed? ==> pc.Idle?)
      ensures o.Raised? ==> o.code.Other? && pc == PC.Write(RunFailed(false))
      ensures o.Finished? ==> pc.StopAll? && dev.status.phase.STOPPING? && !dev.status.backupComplete
      ensures trouble <= old(trouble) && (Exempt(h) <==> Exempt(old(h))) && dev.package == old(dev).package
      ensures trouble == old(trouble) ==> o.Finished?
    {
      var seen := ReadVersion();
      o := WriteStatus(RunStopping, dev.status.(phase := STOPPING, backupComplete := false), seen);
    }

    method DeclareCommitted() returns (o: Ending)
      requires Valid() && pc == PC.Write(RunCommitted)
      modifies this
      ensures Valid() && (o.Killed? ==> pc.Idle?)
      ensures o.Raised? ==> o.code.Other? && pc == PC.Write(RunFailed(true))
      ensures o.Finished? ==> pc == PC.Write(RunInstalling) && dev.status.phase.STOPPING? && dev.status.backupComplete
      ensures trouble <= old(trouble) && (Exempt(h) <==> Exempt(old(h))) && dev.package == old(dev).package
      ensures trouble == old(trouble) ==> o.Finished?
    {
      var seen := ReadVersion();
      o := WriteStatus(RunCommitted, dev.status.(phase := STOPPING, backupComplete := true), seen);
    }

    /** The rest of the try block: the switch to the new program.  `started`: whether the installation has begun. */
    method Switch() returns (o: Ending, started: bool)
      requires Valid() && pc == PC.Write(RunInstalling)
      modifies this
      ensures Valid() && (o.Killed? ==> pc.Idle?)
      ensures o.Raised? ==> pc == if started then PC.Write(RunRolling) else PC.Write(RunFailed(true))
      ensures o.Finished? ==> pc.StartNew? && started
      ensures trouble <= old(trouble) && (Exempt(h) <==> Exempt(old(h))) && dev.package == old(dev).package
      ensures Smooth() ==> o.Finished?
    {
      started := false;
      o := DeclareInstalling();
      if !o.Finished? { return; }
      started := true;
      o := InstallPackage();
      if !o.Finished? { return; }
      o := DeclareStarting();
    }

    method DeclareInstalling() returns (o: Ending)
      requires Valid() && pc == PC.Write(RunInstalling)
      modifies this
      ensures Valid() && (o.Killed? ==> pc.Idle?)
      ensures o.Raised? ==> pc == PC.Write(RunFailed(true))
      ensures o.Finished? ==> pc.Install? && dev.status.phase.INSTALLING?
      ensures trouble <= old(trouble) && (Exempt(h) <==> Exempt(old(h))) && dev.package == old(dev).package
      ensures trouble == old(trouble) ==> o.Finished?
    {
      var seen := ReadVersion();
      o := WriteStatus(RunInstalling, dev.status.(phase := INSTALLING), seen);
    }

    method DeclareStarting() returns (o: Ending)
      requires Valid() && pc == PC.Write(RunStarting)
      modifies this
      ensures Valid() && (o.Killed? ==> pc.Idle?)
      ensures o.Raised? ==> pc == PC.Write(RunRolling)
      ensures o.Finished? ==> pc.StartNew? && dev.status.phase.STARTING?
      ensures trouble <= old(trouble) && (Exempt(h) <==> Exempt(old(h))) && dev.package == old(dev).package
      ensures trouble == old(trouble) ==> o.Finished?
    {
      var seen := ReadVersion();
      o := WriteStatus(RunStarting, dev.status.(phase := STARTING), seen);
    }

    /** The new services come up and are checked. */
    method BringUp() returns (o: Ending)
      requires Valid() && pc.StartNew?
      modifies this
      ensures Valid() && (o.Killed? ==> pc.Idle?)
      ensures o.Raised? ==> pc == PC.Write(RunRolling)
      ensures o.Finished? ==> pc == PC.Write(RunSuccess) && Healthy(dev, dev.package.version)
      ensures trouble <= old(trouble) && (Exempt(h) <==> Exempt(old(h))) && dev.package == old(dev).package
      ensures Smooth() ==> o.Finished?
    {
      o := StartNewServices();
      if !o.Finished? { return; }
      o := DeclareVerifying();
      if !o.Finished? { return; }
      o := Perform();
    }

    method StartNewServices() returns (o: Ending)
      requires Valid() && pc.StartNew?
      modifies this
      ensures Valid() && (o.Killed? ==> pc.Idle?) && dev.package == old(dev).package
      ensures o.Raised? ==> pc == PC.Write(RunRolling)
      ensures o.Finished? ==> pc == PC.Write(RunVerifying)
      ensures trouble <= old(trouble) && (Exempt(h) <==> Exempt(old(h)))
      ensures Smooth() ==> o.Finished? && dev.running == SERVICES
    {
      if !Exempt(h) {
        GateIsOpen();
      }
      o := StartServices();
    }

    method DeclareVerifying() returns (o: Ending)
      requires Valid() && pc == PC.Write(RunVerifying)
      modifies this
      ensures Valid() && (o.Killed? ==> pc.Idle?)
      ensures o.Raised? ==> pc == PC.Write(RunRolling)
      ensures o.Finished? ==> pc.VerifyNew? && dev.status.phase.VERIFYING?
      ensures trouble <= old(trouble) && (Exempt(h) <==> Exempt(old(h))) && dev.package == old(dev).package
      ensures trouble == old(trouble) ==> o.Finished? && dev.running == old(dev).running
    {
      var seen := ReadVersion();
      o := WriteStatus(RunVerifying, dev.status.(phase := VERIFYING), seen);
    }

    lemma GateIsOpen()
      requires Valid() && !Exempt(h) && (pc.StartNew? || pc.StartOld?)
      ensures Gate(dev.status)
    {
      PastRuns(origin, trace, State());
      Reached(origin, trace, State());
    }

    /** SUCCESS, and the clean-up after it, still inside the try block. */
    method Succeed() returns (o: Ending)
      requires Valid() && pc == PC.Write(RunSuccess)
      modifies this
      ensures Valid() && (!o.Raised? ==> pc.Idle?)
      ensures o.Raised? ==> pc == PC.Write(RunRolling)
      ensures o.Finished? ==> dev.status.phase.SUCCESS? && dev.status.current == dev.package.version
      ensures trouble <= old(trouble) && (Exempt(h) <==> Exempt(old(h))) && dev.package == old(dev).package
      ensures trouble == old(trouble) ==> o.Finished? && dev.running == old(dev).running
    {
      var seen := ReadVersion();
      o := WriteStatus(RunSuccess, dev.status.(phase := SUCCESS, current := dev.package.version, requested := false,
        required := false, pending := false), seen);
      if !o.Finished? { return; }
      o := CleanupHistory();
    }

    /** restore_backup, after the services were told to stop.  When it ends, program and environment are
        the old ones, the data is that of the stop, and no service runs. */
    method RestoreBackup(who: Who) returns (o: Ending)
      requires Valid() && pc == Restoring(ToStop, who)
      modifies this
      ensures Valid() && (o.Killed? ==> pc.Idle?) && Steady(old(dev), dev)
      ensures o.Finished? ==> pc == PC.Write(if who.Runner? then RunPending else RecPending)
      ensures o.Finished? && !h.orphaned ==> Kept(dev, h) && dev.data == h.stopData && dev.running == {}
      ensures o.Raised? ==>
                pc == if who.Runner? then PC.Write(RunRollbackFailed) else RecoveryHandler(o.code, old(memo))
      ensures !o.Killed? ==> memo == old(memo)
      ensures trouble <= old(trouble) && (Exempt(h) <==> Exempt(old(h)))
      ensures Smooth() ==> o.Finished?
    {
      ghost var m := memo;
      var last := false;
      while !last
        invariant Valid() && memo == m && Steady(old(dev), dev)
        invariant trouble <= old(trouble) && (Exempt(h) <==> Exempt(old(h)))
        invariant last ==> pc == PC.Write(if who.Runner? then RunPending else RecPending)
        invariant !last ==> pc.Restoring? && pc.who == who
        decreases if last then 0 else Remaining(pc.stage) + 1
      {
        last := pc.stage.ToSync?;
        o := Perform();
        if !o.Finished? { return; }
      }
      o := Finished;
      if !h.orphaned {
        RestoreIsComplete(origin, trace, State());
      }
    }

    /** The rollback of the runner, inside its own try block: the old files are back. */
    method RollBack() returns (o: Ending)
      requires Valid() && pc == Restoring(ToStop, Runner)
      modifies this
      ensures Valid() && (o.Killed? ==> pc.Idle?)
      ensures o.Raised? ==> pc == PC.Write(RunRollbackFailed)
      ensures o.Finished? ==> pc.StartOld? && Restored(dev.status)
      ensures trouble <= old(trouble) && (Exempt(h) <==> Exempt(old(h)))
      ensures Smooth() ==> o.Finished?
    {
      o := RestoreBackup(Runner);
      if !o.Finished? { return; }
      var seen := ReadVersion();
      o := WriteStatus(RunPending, memo.(pending := true), seen);
      if o.Finished? {
        StillRollingBack(origin, trace, State());
      }
    }

    /** The old services come up and are checked. */
    method BringBack() returns (o: Ending)
      requires Valid() && pc.StartOld?
      modifies this
      ensures Valid() && (o.Killed? ==> pc.Idle?)
      ensures o.Raised? ==> pc == PC.Write(RunRollbackFailed)
      ensures o.Finished? ==> pc == PC.Write(RunRolledBack) && Healthy(dev, dev.base)
      ensures trouble <= old(trouble) && (Exempt(h) <==> Exempt(old(h)))
      ensures Smooth() ==> o.Finished?
    {
      if !Exempt(h) {
        GateIsOpen();
      }
      o := StartServices();
      if !o.Finished? { return; }
      o := Perform();
    }

    /** ROLLED_BACK, and the clean-up after it, still inside the try block. */
    method ConfirmRollback() returns (o: Ending)
      requires Valid() && pc == PC.Write(RunRolledBack)
      modifies this
      ensures Valid() && (!o.Raised? ==> pc.Idle?)
      ensures o.Raised? ==> pc == PC.Write(RunRollbackFailed)
      ensures o.Finished? ==> dev.status.phase.ROLLED_BACK? && dev.status.current == dev.base
      ensures trouble <= old(trouble) && (Exempt(h) <==> Exempt(old(h)))
      ensures trouble == old(trouble) ==> o.Finished? && dev.running == old(dev).running
    {
      var seen := ReadVersion();
      o := WriteStatus(RunRolledBack, memo.(phase := ROLLED_BACK, current := dev.base, requested := false,
        required := false, pending := false), seen);
      if !o.Finished? { return; }
      o := CleanupHistory();
    }

    /** The handler of run_job before the installation has begun: FAILED reaches the disk before the old
        services are started again. */
    method FailBeforeInstall(code: Code, affected: bool) returns (o: Ending)
      requires Valid() && pc == if code.InstallChanged? then PC.Write(RunChanged) else PC.Write(RunFailed(affected))
      modifies this
      ensures Valid() && pc.Idle? && !o.Finished?
      ensures dev.status.phase.FAILED? || (!Gate(old(dev.status)) ==> dev.running <= old(dev.running))
      ensures trouble <= old(trouble) && (Exempt(h) <==> Exempt(old(h)))
      ensures trouble == old(trouble) ==>
                && o.Raised? && dev.status.phase.FAILED? && !dev.status.required && !dev.status.requested
                && (affected && !code.InstallChanged? ==> dev.running == SERVICES)
    {
      var seen := ReadVersion();
      if code.InstallChanged? {
        o := WriteStatus(RunChanged, dev.status.(phase := FAILED, current := seen, requested := false,
            required := false, pending := false), seen);
      } else {
        o := DeclareFailed(affected);
        if o.Finished? && affected {
          o := StartServices();
        }
      }
      o := if o.Killed? then Killed else Raised(code);
    }

    method DeclareFailed(affected: bool) returns (o: Ending)
      requires Valid() && pc == PC.Write(RunFailed(affected))
      modifies this
      ensures Valid() && (!o.Finished? ==> pc.Idle?) && trouble <= old(trouble) && (Exempt(h) <==> Exempt(old(h)))
      ensures o.Finished? ==> pc == if affected then Restart else Idle
      ensures o.Finished? ==> dev.status.phase.FAILED? && !dev.status.required && !dev.status.requested
      ensures dev.status.phase.FAILED? || (!Gate(old(dev).status) ==> dev.running <= old(dev).running)
      ensures trouble == old(trouble) ==> o.Finished?
    {
      var seen := ReadVersion();
      o := WriteStatus(RunFailed(affected),
        dev.status.(phase := FAILED, requested := false, required := false, pending := false), seen);
    }

    /** The handler once the installation has begun. */
    method FailAfterInstall() returns (o: Ending)
      requires Valid() && pc == PC.Write(RunRolling)
      modifies this
      ensures Valid() && pc.Idle?
      ensures o.Finished? ==> dev.status.phase.ROLLED_BACK? && dev.status.current == dev.base
      ensures trouble <= old(trouble) && (Exempt(h) <==> Exempt(old(h)))
      ensures Smooth() && !old(dev).status.phase.SUCCESS? ==> o.Finished? && dev.running == SERVICES
      ensures Smooth() && old(dev).status.phase.SUCCESS? ==> dev.status.phase.SUCCESS? || o.Finished?
    {
      var seen := ReadVersion();
      o := WriteStatus(RunRolling, dev.status.(phase := ROLLING_BACK, required := false, pending := false), seen);
      if !o.Finished? { return; }
      o := RollBack();
      if o.Finished? {
        o := BringBack();
      }
      if o.Finished? {
        o := ConfirmRollback();
      }
      if o.Raised? {
        o := FailRollback();
      }
    }

    /** The handler of the rollback: a recovery is required. */
    method FailRollback() returns (o: Ending)
      requires Valid() && pc == PC.Write(RunRollbackFailed)
      modifies this
      ensures Valid() && pc.Idle? && !o.Finished?
      ensures trouble <= old(trouble) && (Exempt(h) <==> Exempt(old(h)))
    {
      var seen := ReadVersion();
      o := WriteStatus(RunRollbackFailed,
          memo.(phase := FAILED, requested := false, required := true, from := Some(ROLLING_BACK)), seen);
      o := if o.Killed? then Killed else Raised(Other);
    }

    lemma OutcomeIsIt()
      requires Valid()
      ensures !Exempt(h) && dev.status.phase.SUCCESS? ==> dev.tree == Whole(dev.package)
    {
      PastRuns(origin, trace, State());
      if !Exempt(h) {
        OutcomeMeaning(origin, trace, State());
      }
    }

    /** A requested job runs.  When nothing goes wrong it ends in SUCCESS on the package; when one thing goes
        wrong it is over all the same, with nothing left to recover. */
    method RunJob() returns (o: Ending)
      requires Valid() && pc.Idle?
      modifies this
      ensures Valid() && pc.Idle?
      ensures !CanEnter(old(dev.status), Run) ==> o.Raised? && dev == old(dev)
      ensures o.Finished? ==>
                || (dev.status.phase.SUCCESS? && dev.status.current == dev.package.version)
                || (dev.status.phase.ROLLED_BACK? && dev.status.current == dev.base)
      ensures trouble <= old(trouble)
      ensures Smooth() && CanEnter(old(dev).status, Run) ==>
                && o.Finished? && dev.status.phase.SUCCESS? && dev.status.current == old(dev).package.version
                && dev.tree == Whole(old(dev).package) && dev.running == SERVICES
      ensures AlmostSmooth(o) && CanEnter(old(dev).status, Run) ==> Settled(dev.status)
    {
      if !dev.status.phase.READY? || !dev.status.requested {
        return Raised(Other);
      }
      Take(Enter(Run));
      var affected, started := false, false;
      o, affected := BackUp();
      if o.Finished? {
        o, started := Switch();
        if o.Finished? {
          o := BringUp();
        }
        if o.Finished? {
          o := Succeed();
        }
        if o.Finished? {
          OutcomeIsIt();
        }
        if o.Raised? {
          o := Raised(Other);
        }
      }
      if o.Raised? {
        if started {
          o := FailAfterInstall();
        } else {
          o := FailBeforeInstall(o.code, affected);
        }
      }
    }

    // ----- recover_transaction and finalize_recovery

    /** The try block of recover_transaction. */
    method RecoverBackup() returns (o: Ending)
      requires Valid() && pc.RecLoad?
      modifies this
      ensures Valid() && (!o.Raised? ==> pc.Idle?)
      ensures o.Raised? ==> pc == RecoveryHandler(o.code, memo)
      ensures o.Finished? ==> Restored(dev.status)
      ensures trouble <= old(trouble) && (Exempt(h) <==> Exempt(old(h)))
      ensures Smooth() && Loadable(old(dev).backups, old(memo).backup) ==> o.Finished?
      ensures Smooth() ==> !o.Killed?
    {
      o := Adopt();
      if !o.Finished? { return; }
      o := RestoreBackup(Recoverer);
      if !o.Finished? { return; }
      var seen := ReadVersion();
      o := WriteStatus(RecPending, memo.(phase := ROLLING_BACK, current := memo.previous, backupComplete := true,
          pending := true), seen);
    }

    /** The backup is read, and a status without a previous version takes that of the backup. */
    method Adopt() returns (o: Ending)
      requires Valid() && pc.RecLoad?
      modifies this
      ensures Valid() && (o.Killed? ==> pc.Idle?)
      ensures o.Raised? ==> pc == RecoveryHandler(o.code, memo)
      ensures o.Finished? ==> pc == Restoring(ToStop, Recoverer)
      ensures trouble <= old(trouble) && (Exempt(h) <==> Exempt(old(h)))
      ensures Smooth() && Loadable(old(dev).backups, old(memo).backup) ==> o.Finished?
      ensures Smooth() ==> !o.Killed?
    {
      o := LoadBackup();
      if !o.Finished? { return; }
      if pc.Write? {
        var seen := ReadVersion();
        o := WriteStatus(RecPrevious, memo, seen);
      }
    }

    /** The backup is read; its previous version is adopted when the status has none. */
    method LoadBackup() returns (o: Ending)
      requires Valid() && pc.RecLoad?
      modifies this
      ensures Valid() && (o.Killed? ==> pc.Idle?)
      ensures o.Finished? ==>
                pc == if old(memo.previous) == 0 then PC.Write(RecPrevious) else Restoring(ToStop, Recoverer)
      ensures o.Raised? ==> pc == RecoveryHandler(o.code, memo)
      ensures !o.Killed? ==> memo == old(memo).(previous := memo.previous)
      ensures o.Finished? ==>
                Loadable(dev.backups, memo.backup) && dev.backups[memo.backup].marker == Some(memo.previous)
      ensures Served(old(dev), dev)
      ensures trouble <= old(trouble) && (Exempt(h) <==> Exempt(old(h)))
      ensures trouble == old(trouble) && o.Raised? ==>
                o.code.BackupIncomplete? && dev == old(dev) && memo == old(memo)
      ensures Smooth() && Loadable(old(dev).backups, old(memo).backup) ==> o.Finished?
      ensures Smooth() ==> !o.Killed?
    {
      Meanwhile();
      var fate: nat := *;
      var seen := ReadVersion();
      if trouble > 0 && fate == 0 {
        Die();
        return Killed;
      }
      var fails := trouble > 0 && fate <= 2;
      if !fails && CanFinish(State()) {
        LoadLeads(State(), seen);
        Take(Step(Done, seen));
        return Finished;
      }
      if !fails && !Exempt(h) {
        CanLoad(origin, trace, State());
      }
      trouble := if fails then trouble - 1 else trouble;
      var code := if fails && fate == 1 then Other else BackupIncomplete;
      LoadThrows(State(), code, seen);
      Take(Step(Raise(code), seen));
      o := Raised(code);
    }

    /** The partial backup of an upgrade that stopped in STOPPING is removed, and only that. */
    method DropPartial() returns (o: Ending)
      requires Valid() && pc.RecDropPartial?
      modifies this
      ensures Valid() && !o.Raised? && (o.Killed? ==> pc.Idle?)
      ensures o.Finished? ==> pc == PC.Write(RecFailed(true)) && memo == old(memo)
      ensures o.Finished? ==> dev.backups == old(dev.backups) - {old(memo.backup)}
      ensures dev == old(dev).(backups := dev.backups, data := dev.data, running := dev.running)
      ensures trouble <= old(trouble)
      ensures trouble == old(trouble) ==> o.Finished?
    {
      Meanwhile();
      var fate: nat := *;
      var seen := ReadVersion();
      if trouble > 0 && fate == 0 {
        Die();
        return Killed;
      }
      Take(Step(Done, seen));
      o := Finished;
    }

    /** The handler of recover_transaction.  `code` is the error that brought it here.  Only the incomplete
        backup of a job that stopped in STOPPING is dropped, and only then is the job over whatever the
        attempts. */
    method RecoveryFails(code: Code) returns (o: Ending)
      requires Valid() && pc == RecoveryHandler(code, memo)
      modifies this
      ensures Valid() && pc.Idle?
      ensures var stopped := old(memo.from) == Some(STOPPING) && code.BackupIncomplete?;
              && (!stopped ==> dev.backups == old(dev.backups))
              && (stopped && o.Finished? ==> dev.backups == old(dev.backups) - {old(memo.backup)})
              && (o.Finished? ==>
                    && dev.status.phase.FAILED?
                    && (dev.status.required <==> !stopped && old(memo.attempts) < MAX_RECOVERY_ATTEMPTS))
      ensures trouble <= old(trouble)
      ensures trouble == old(trouble) ==> o.Finished?
    {
      var stopped := memo.from == Some(STOPPING) && code.BackupIncomplete?;
      if stopped {
        o := DropPartial();
        if !o.Finished? { return; }
      }
      var seen := ReadVersion();
      o := WriteStatus(RecFailed(stopped),
          memo.(phase := FAILED, required := memo.attempts < MAX_RECOVERY_ATTEMPTS && !stopped,
        pending := false, failed := true, current := seen, backup := if stopped then 0 else memo.backup,
        backupComplete := if stopped then false else memo.backupComplete), seen);
    }

    /** The attempt is counted on disk, with the restore declared required, before anything is loaded. */
    method BeginAttempt() returns (o: Ending)
      requires Valid() && pc == PC.Write(RecRolling)
      modifies this
      ensures Valid() && (!o.Finished? ==> pc.Idle?) && (o.Finished? ==> pc.RecLoad?)
      ensures dev == old(dev).(status := dev.status, data := dev.data, running := dev.running)
      ensures o.Finished? ==>
                && dev.status == memo && memo.attempts == old(memo.attempts) + 1 && memo.required
                && memo.phase.ROLLING_BACK? && !memo.pending && memo.from.Some?
                && (old(memo.from).Some? ==> memo.from == old(memo.from))
      ensures trouble <= old(trouble) && (Exempt(h) <==> Exempt(old(h)))
      ensures trouble == old(trouble) ==> o.Finished?
      ensures o.Finished? ==> memo.backup == RestoreFrom(old(memo))
    {
      var seen := ReadVersion();
      var from := if memo.from.Some? then memo.from else Some(memo.phase);
      var backup := if memo.backup != 0 then memo.backup else memo.job;
      o := WriteStatus(RecRolling, memo.(phase := ROLLING_BACK, interrupted := true, required := true, pending := false,
        from := from, attempts := memo.attempts + 1, failed := false, backup := backup, requested := false), seen);
    }

    /** Recovery of an upgrade that was past its backup. */
    method RecoverByRollback() returns (o: Ending)
      requires Valid() && pc == if memo.attempts >= MAX_RECOVERY_ATTEMPTS then PC.Write(RecExhausted)
              else PC.Write(RecRolling)
      modifies this
      ensures Valid() && pc.Idle?
      ensures o.Finished? ==> dev.status.phase.FAILED? || Restored(dev.status)
      ensures old(memo.attempts) >= MAX_RECOVERY_ATTEMPTS ==>
                && dev == old(dev).(status := dev.status, data := dev.data, running := dev.running)
                && (o.Finished? ==> dev.status.phase.FAILED? && !dev.status.required)
      ensures trouble <= old(trouble)
      ensures Smooth() ==> o.Finished?
      ensures Smooth() && old(memo.attempts) < MAX_RECOVERY_ATTEMPTS ==>
                Loadable(old(dev).backups, RestoreFrom(old(memo))) ==> Restored(dev.status)
    {
      var seen := ReadVersion();
      if memo.attempts >= MAX_RECOVERY_ATTEMPTS {
        o := WriteStatus(RecExhausted,
            memo.(phase := FAILED, required := false, pending := false, requested := false, current := seen), seen);
        return;
      }
      o := BeginAttempt();
      if !o.Finished? { return; }
      o := RecoverBackup();
      if o.Raised? {
        o := RecoveryFails(o.code);
      }
    }

    /** An upgrade cut short before it touched anything. */
    method RecoverEarly() returns (o: Ending)
      requires Valid() && pc.RecDropStale?
      modifies this
      ensures Valid() && pc.Idle? && (o.Finished? ==> dev.status.phase.FAILED? && !dev.status.required)
      ensures trouble <= old(trouble)
      ensures Smooth() ==> o.Finished?
    {
      o := DeclareInterrupted();
      if o.Finished? {
        o := CleanupHistory();
      }
    }

    method DeclareInterrupted() returns (o: Ending)
      requires Valid() && pc.RecDropStale?
      modifies this
      ensures Valid() && (!o.Finished? ==> pc.Idle?)
      ensures o.Finished? ==> pc.RecSweep? && dev.status.phase.FAILED? && !dev.status.required
      ensures trouble <= old(trouble) && (Exempt(h) <==> Exempt(old(h)))
      ensures Smooth() ==> o.Finished?
    {
      o := Perform();
      if !o.Finished? { return; }
      var seen := ReadVersion();
      o := WriteStatus(RecInterrupted, memo.(phase := FAILED, interrupted := true, required := false, pending := false,
        from := Some(memo.phase), requested := false, backup := if memo.phase.BACKING_UP? then 0 else memo.backup,
        backupComplete := false), seen);
    }

    /** A validated job is kept; a request that came to nothing is withdrawn. */
    method RecoverReady() returns (o: Ending)
      requires Valid() && dev.status.phase.READY? && memo == dev.status && pc == if memo.requested
              then PC.Write(RecClear) else RecSweep
      modifies this
      ensures Valid() && pc.Idle?
      ensures o.Finished? ==> dev.status.phase.READY? && !dev.status.requested
      ensures trouble <= old(trouble)
      ensures trouble == old(trouble) ==> o.Finished?
    {
      o := Finished;
      if memo.requested {
        o := ClearRequest();
      }
      if o.Finished? {
        o := CleanupHistory();
      }
    }

    method ClearRequest() returns (o: Ending)
      requires Valid() && dev.status.phase.READY? && memo == dev.status && pc == PC.Write(RecClear)
      modifies this
      ensures Valid() && (!o.Finished? ==> pc.Idle?)
      ensures o.Finished? ==> pc.RecSweep? && dev.status == old(dev.status).(requested := false)
      ensures trouble <= old(trouble)
      ensures trouble == old(trouble) ==> o.Finished?
    {
      var seen := ReadVersion();
      o := WriteStatus(RecClear, memo.(requested := false), seen);
    }

    /** A recovery that runs to its end leaves no job half way: the job is over, or ready to be requested
        again, or restored and waiting for the health check. */
    method RecoverTransaction() returns (o: Ending)
      requires Valid() && pc.Idle?
      modifies this
      ensures Valid() && pc.Idle?
      ensures o.Finished? ==>
                Terminal(dev.status.phase) || (dev.status.phase.READY? && !dev.status.requested) || Restored(dev.status)
      ensures trouble <= old(trouble)
      ensures Smooth() ==> o.Finished?
      ensures Smooth() && Due(old(dev).status) && Loadable(old(dev).backups, RestoreFrom(old(dev).status)) ==>
                Restored(dev.status)
    {
      Take(Enter(Recover));
      EntryPoints(memo);
      var retry := memo.phase.FAILED? && memo.required;
      if Terminal(memo.phase) && !retry {
        o := CleanupHistory();
      } else if memo.phase.READY? {
        o := RecoverReady();
      } else if memo.phase.VALIDATING? || memo.phase.BACKING_UP? {
        o := RecoverEarly();
      } else {
        o := RecoverByRollback();
      }
    }

    /** ROLLED_BACK after a recovery, and the clean-up after it. */
    method DeclareRecovered() returns (o: Ending)
      requires Valid() && pc == PC.Write(FinRolledBack)
      modifies this
      ensures Valid() && (!o.Raised? ==> pc.Idle?)
      ensures o.Raised? ==> pc == PC.Write(FinFailed)
      ensures o.Finished? ==> dev.status.phase.ROLLED_BACK?
      ensures trouble <= old(trouble)
      ensures trouble == old(trouble) ==> o.Finished?
    {
      o := WriteRecovered();
      if o.Finished? {
        o := CleanupHistory();
      }
    }

    method WriteRecovered() returns (o: Ending)
      requires Valid() && pc == PC.Write(FinRolledBack)
      modifies this
      ensures Valid() && (o.Killed? ==> pc.Idle?)
      ensures o.Raised? ==> pc == PC.Write(FinFailed)
      ensures o.Finished? ==> pc.FinSweep? && dev.status.phase.ROLLED_BACK?
      ensures trouble <= old(trouble)
      ensures trouble == old(trouble) ==> o.Finished?
    {
      var seen := ReadVersion();
      var current := if memo.previous != 0 then memo.previous else memo.current;
      o := WriteStatus(FinRolledBack, memo.(phase := ROLLED_BACK, current := current,
          required := false, pending := false, requested := false, failed := false), seen);
    }

    /** The try block of finalize_recovery. */
    method ConfirmRecovery() returns (o: Ending)
      requires Valid() && pc.FinHealth?
      modifies this
      ensures Valid() && (!o.Raised? ==> pc.Idle?)
      ensures o.Raised? ==> pc == PC.Write(FinFailed)
      ensures o.Finished? ==> dev.status.phase.ROLLED_BACK?
      ensures trouble <= old(trouble)
      ensures Smooth() && old(dev).running == SERVICES ==> o.Finished?
    {
      o := Perform();
      if o.Finished? {
        o := DeclareRecovered();
      }
    }

    method FinalizeRecovery() returns (o: Ending)
      requires Valid() && pc.Idle?
      modifies this
      ensures Valid() && pc.Idle?
      ensures !Restored(old(dev.status)) && !old(dev.status).phase.FAILED? ==> dev.status == old(dev.status)
      ensures o.Finished? && Restored(old(dev.status)) ==> dev.status.phase.ROLLED_BACK? || dev.status.phase.FAILED?
      ensures trouble <= old(trouble)
      ensures trouble == old(trouble) && !Restored(old(dev).status) ==> o.Finished?
      ensures Smooth() && Restored(old(dev).status) && old(dev).running == SERVICES ==>
                o.Finished? && dev.status.phase.ROLLED_BACK?
    {
      Take(Enter(Finalize));
      if !memo.phase.ROLLING_BACK? || !memo.pending {
        o := Finished;
        if memo.phase.FAILED? && (memo.interrupted || memo.failed) {
          var seen := ReadVersion();
          o := WriteStatus(FinVersion, memo.(current := seen), seen);
        }
        return;
      }
      o := ConfirmRecovery();
      if o.Raised? {
        o := FailConfirmation();
      }
    }

    /** The handler of finalize_recovery: a retry is required while attempts are left. */
    method FailConfirmation() returns (o: Ending)
      requires Valid() && pc == PC.Write(FinFailed)
      modifies this
      ensures Valid() && pc.Idle?
      ensures o.Finished? ==>
                && dev.status.phase.FAILED?
                && (dev.status.required <==> old(memo.attempts) < MAX_RECOVERY_ATTEMPTS)
      ensures trouble <= old(trouble)
      ensures trouble == old(trouble) ==> o.Finished?
    {
      var seen := ReadVersion();
      o := WriteStatus(FinFailed, memo.(phase := FAILED, required := memo.attempts < MAX_RECOVERY_ATTEMPTS,
          pending := false, failed := true), seen);
    }

    // ----- validate_package_job and request_start

    /** A new job, with a status of its own. */
    method BeginJob() returns (o: Ending)
      requires Valid() && pc.ValInspect?
      modifies this
      ensures Valid() && (!o.Finished? ==> pc.Idle?)
      ensures o.Finished? ==>
                pc == PC.Write(ValStart) && memo ==
                    DefaultStatus(memo.current).(job := old(dev.nextJob), phase := VALIDATING)
      ensures trouble <= old(trouble)
      ensures trouble == old(trouble) && Readable(old(dev)) ==> o.Finished?
      ensures dev.status == old(dev).status
    {
      Meanwhile();
      var fate: nat := *;
      var seen := ReadVersion();
      if trouble > 0 && fate == 0 {
        Die();
        return Killed;
      }
      var fails := trouble > 0 && fate == 1;
      if !fails && CanFinish(State()) {
        Take(Step(Done, seen));
        return Finished;
      }
      trouble := if fails then trouble - 1 else trouble;
      Take(Step(Raise(Other), seen));
      return Raised(Other);
    }

    /** The package is unpacked and checked; job.json records it and the current version. */
    method CheckPackage() returns (o: Ending)
      requires Valid() && pc.ValCheck?
      modifies this
      ensures Valid() && (o.Killed? ==> pc.Idle?)
      ensures o.Finished? ==> pc == PC.Write(ValReady) && dev.base == memo.current && dev.package.version > 0
      ensures o.Raised? ==> pc == PC.Write(ValFailed)
      ensures !o.Killed? ==> memo == old(memo)
      ensures trouble <= old(trouble)
      ensures trouble == old(trouble) ==> o.Finished?
    {
      Meanwhile();
      var fate: nat := *;
      var seen := ReadVersion();
      if trouble > 0 && fate == 0 {
        Die();
        return Killed;
      }
      if trouble > 0 && fate == 1 {
        trouble := trouble - 1;
        Take(Step(Raise(Other), seen));
        return Raised(Other);
      }
      var version: int := *;
      var image: nat := *;
      Take(Step(Chosen(Program(if version > 0 then version else 1, image)), seen));
      o := Finished;
    }

    /** The try block of validate_package_job. */
    method Validate() returns (o: Ending)
      requires Valid() && pc.ValCheck?
      modifies this
      ensures Valid() && (!o.Raised? ==> pc.Idle?)
      ensures o.Raised? ==> pc == PC.Write(ValFailed)
      ensures o.Finished? ==> dev.status.phase.READY? && dev.status.target == dev.package.version
      ensures trouble <= old(trouble)
      ensures trouble == old(trouble) ==> o.Finished?
    {
      o := CheckPackage();
      if !o.Finished? { return; }
      var seen := ReadVersion();
      o := WriteStatus(ValReady, memo.(phase := READY, target := dev.package.version), seen);
      if !o.Finished? { return; }
      o := CleanupHistory();
    }

    /** Old jobs go, a new one begins, and its VALIDATING is on disk. */
    method CreateJob() returns (o: Ending)
      requires Valid() && pc.ValSweepFirst?
      modifies this
      ensures Valid() && (!o.Finished? ==> pc.Idle?) && (o.Finished? ==> pc.ValCheck? && dev.status.phase.VALIDATING?)
      ensures trouble <= old(trouble)
      ensures trouble == old(trouble) && Readable(old(dev)) ==> o.Finished?
      ensures o.Raised? ==> dev.status == old(dev).status || h.raised == Some(PC.Write(ValStart))
    {
      o := CleanupHistory();
      if !o.Finished? { return; }
      o := BeginJob();
      if !o.Finished? { return; }
      var seen := ReadVersion();
      o := WriteStatus(ValStart, memo, seen);
    }

    /** The handler of validate_package_job. */
    method FailValidation() returns (o: Ending)
      requires Valid() && pc == PC.Write(ValFailed)
      modifies this
      ensures Valid() && pc.Idle? && !o.Finished?
      ensures trouble <= old(trouble)
      ensures trouble == old(trouble) ==> o.Raised? && dev.status.phase.FAILED?
    {
      var seen := ReadVersion();
      o := WriteStatus(ValFailed, memo.(phase := FAILED), seen);
      if o.Finished? {
        o := CleanupHistory();
      }
      o := if o.Killed? then Killed else Raised(Other);
    }

    /** Unless the process dies or more than one thing goes wrong, a validation that fails leaves FAILED, or the
        status it found, or has failed in its first write. */
    method ValidatePackageJob() returns (o: Ending)
      requires Valid() && pc.Idle?
      modifies this
      ensures Valid() && pc.Idle?
      ensures !CanEnter(old(dev.status), Entry.Validate) ==> o.Raised? && dev == old(dev)
      ensures o.Finished? ==> dev.status.phase.READY? && dev.status.target == dev.package.version
      ensures trouble <= old(trouble)
      ensures trouble == old(trouble) && CanEnter(old(dev).status, Entry.Validate) && Readable(old(dev)) ==> o.Finished?
      ensures o.Raised? && old(trouble) <= trouble + 1 ==>
                dev.status == old(dev).status || dev.status.phase.FAILED? || h.raised == Some(PC.Write(ValStart))
    {
      if Active(dev.status.phase) || dev.status.requested {
        return Raised(Other);
      }
      Take(Enter(Entry.Validate));
      o := CreateJob();
      if !o.Finished? { return; }
      o := Validate();
      if o.Raised? {
        o := FailValidation();
      }
    }

    /** The request is on disk before the unit is started; if that fails it is withdrawn, unless the write
        that does so fails too. */
    method Launch() returns (o: Ending, withdrawn: bool)
      requires Valid() && pc == PC.Write(Request)
      modifies this
      ensures Valid() && pc.Idle?
      ensures o.Finished? ==> dev.status.requested && !withdrawn
      ensures withdrawn ==> o.Raised? && dev.status.phase.FAILED? && !dev.status.requested
      ensures trouble <= old(trouble)
      ensures Smooth() ==> o.Finished?
    {
      withdrawn := false;
      var seen := ReadVersion();
      o := WriteStatus(Request, memo.(requested := true), seen);
      if !o.Finished? { return; }
      o := Perform();
      if !o.Raised? { return; }
      o, withdrawn := Withdraw();
    }

    method Withdraw() returns (o: Ending, withdrawn: bool)
      requires Valid() && pc == PC.Write(RequestFailed)
      modifies this
      ensures Valid() && pc.Idle? && !o.Finished?
      ensures withdrawn ==> o.Raised? && dev.status.phase.FAILED? && !dev.status.requested
      ensures trouble <= old(trouble)
    {
      var seen := ReadVersion();
      o := WriteStatus(RequestFailed, memo.(phase := FAILED, requested := false), seen);
      withdrawn := o.Finished?;
      o := if o.Killed? then Killed else Raised(Other);
    }

    method RequestStart() returns (o: Ending)
      requires Valid() && pc.Idle?
      modifies this
      ensures Valid() && pc.Idle?
      ensures !CanEnter(old(dev.status), Entry.RequestStart) ==> o.Raised? && dev == old(dev)
      ensures trouble <= old(trouble)
      ensures Smooth() && CanEnter(old(dev).status, Entry.RequestStart) ==> o.Finished? && dev.status.requested
    {
      if !dev.status.phase.READY? || dev.status.requested {
        return Raised(Other);
      }
      Take(Enter(Entry.RequestStart));
      o := Perform();
      var seen := ReadVersion();
      if o.Finished? {
        var withdrawn;
        o, withdrawn := Launch();
        return;
      }
      if o.Raised? && o.code.InstallChanged? {
        o := WriteStatus(RequestChanged,
            dev.status.(phase := FAILED, current := seen, requested := false, required := false, pending := false),
                seen);
      }
      o := if o.Killed? then Killed else Raised(Other);
    }

    // ----- any life of a device

    /** Commands in any order, each of which may be killed anywhere, with services coming and going in between. */
    method Live(commands: seq<Entry>)
      requires Valid() && pc.Idle?
      modifies this
      ensures Valid() && pc.Idle?
      ensures !h.orphaned && !Undamaged(dev) ==> (BackedUp(dev, h) <==> !h.lost)
      ensures !Exempt(h) && !Undamaged(dev) ==> MayBeDamaged(dev.status) && dev.running == {} && !Gate(dev.status)
      ensures !h.orphaned && dev.status.phase.SUCCESS? ==> dev.tree == Whole(dev.package)
      ensures !h.orphaned && dev.status.phase.ROLLED_BACK? ==> dev.tree == h.tree && dev.env == h.env
      ensures h.restores <= MAX_RECOVERY_ATTEMPTS
      ensures trouble <= old(trouble)
    {
      for i := 0 to |commands|
        invariant Valid() && pc.Idle? && trouble <= old(trouble)
      {
        var o: Ending;
        match commands[i] {
          case Validate => o := ValidatePackageJob();
          case RequestStart => o := RequestStart();
          case Run => o := RunJob();
          case Recover => o := RecoverTransaction();
          case Finalize => o := FinalizeRecovery();
        }
        Meanwhile();
      }
      Safe(origin, trace, State());
    }
  }

  lemma Safe(origin: State, trace: seq<Event>, s: State)
    requires Past(origin, trace, s)
    ensures !s.h.orphaned && !Undamaged(s.dev) ==> (BackedUp(s.dev, s.h) <==> !s.h.lost)
    ensures !Exempt(s.h) && !Undamaged(s.dev) ==>
              MayBeDamaged(s.dev.status) && s.dev.running == {} && !Gate(s.dev.status)
    ensures !s.h.orphaned && s.dev.status.phase.SUCCESS? ==> s.dev.tree == Whole(s.dev.package)
    ensures !s.h.orphaned && s.dev.status.phase.ROLLED_BACK? ==> s.dev.tree == s.h.tree && s.dev.env == s.h.env
    ensures s.h.restores <= MAX_RECOVERY_ATTEMPTS
  {
    PastRuns(origin, trace, s);
    if !s.h.orphaned {
      OutcomeMeaning(origin, trace, s);
      if !Undamaged(s.dev) {
        CrashSafety(origin, trace, s);
      }
    }
    assert Runs(s, [], s);
    BoundedRecovery(origin, trace, s, [], s);
  }
}
