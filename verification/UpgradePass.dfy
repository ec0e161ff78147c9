/** Undisturbed runs, built event by event: nothing is killed, nothing fails unless it is counted, and no
    service writes. */
module UpgradePass {
  import opened Options
  import opened Upgrade
  import opened UpgradeInvariant
  import opened UpgradeTheorems
  import Retention

  /** What may happen in an undisturbed run: commands, services starting and stopping, operations that end,
      and exceptions. */
  predicate Calm(e: Event) {
    match e
    case Kill | Reboot | ServiceWrite(_) => false
    case Step(o, _) => !o.RaiseLate? && (o.Swept? ==> o.ok)
    case _ => true
  }

  /** How many operations raise. */
  function Troubles(es: seq<Event>): nat {
    if es == [] then 0
    else Troubles(es[..|es| - 1]) + if es[|es| - 1].Step? && es[|es| - 1].outcome.Raise? then 1 else 0
  }

  datatype Pass = Pass(start: State, events: seq<Event>, now: State, troubles: nat)

  /** An undisturbed run in progress that has kept the invariant.  Folded up like `Past`; `SaneMeans` unfolds it. */
  ghost predicate Sane(x: Pass) {
    forall f: Fold :: Unfolded(f) ==> Undisturbed(x) && Inv(x.now) && !Exempt(x.now.h)
  }

  predicate Undisturbed(x: Pass) {
    Runs(x.start, x.events, x.now) && (forall e :: e in x.events ==> Calm(e)) && Troubles(x.events) == x.troubles
  }

  lemma SaneMeans(x: Pass)
    ensures Sane(x) <==> Undisturbed(x) && Inv(x.now) && !Exempt(x.now.h)
  {
    assert Unfolded(Fold);
  }

  function Trouble(e: Event): nat {
    if e.Step? && e.outcome.Raise? then 1 else 0
  }

  lemma TroublesOn(es: seq<Event>, e: Event)
    ensures Troubles(es + [e]) == Troubles(es) + Trouble(e)
  {
    assert (es + [e])[..|es|] == es;
  }

  lemma Begins(s: State) returns (x: Pass)
    requires Inv(s) && !Exempt(s.h)
    ensures x == Pass(s, [], s, 0) && Sane(x)
  {
    x := Pass(s, [], s, 0);
    SaneMeans(x);
  }

  lemma On(x: Pass, e: Event) returns (y: Pass)
    requires Sane(x) && Calm(e) && Enabled(x.now, e) && !Exempt(Next(x.now, e).h)
    ensures Sane(y) && y.now == Next(x.now, e) && y.start == x.start && y.troubles == x.troubles + Trouble(e)
  {
    y := Pass(x.start, x.events + [e], Next(x.now, e), x.troubles + Trouble(e));
    SaneMeans(x);
    RunsOn(x.start, x.events, x.now, e);
    TroublesOn(x.events, e);
    InvKept(x.now, e);
    SaneMeans(y);
  }

  function Seen(d: Device): Version {
    if d.tree.Whole? then d.tree.value.version else 0
  }

  lemma Go(x: Pass) returns (y: Pass)
    requires Sane(x) && !x.now.pc.Idle? && !x.now.pc.Write? && CanFinish(x.now)
    requires x.now.pc.RecDropPartial? ==> Kept(x.now.dev, x.now.h)
    ensures Sane(y) && y.now == Finish(x.now, Seen(x.now.dev)) && y.start == x.start && y.troubles == x.troubles
  {
    FinishQuiet(x.now, Seen(x.now.dev));
    SaneMeans(x);
    y := On(x, Step(Done, Seen(x.now.dev)));
  }

  lemma Save(x: Pass) returns (y: Pass)
    requires Sane(x) && x.now.pc.Write? && !Exempt(Store(x.now, x.now.pc.w, Seen(x.now.dev), true).h)
    ensures Sane(y) && y.now == Store(x.now, x.now.pc.w, Seen(x.now.dev), true)
    ensures y.start == x.start && y.troubles == x.troubles
  {
    y := On(x, Step(Done, Seen(x.now.dev)));
  }

  lemma StopServices(x: Pass) returns (y: Pass)
    requires Sane(x)
    ensures Sane(y) && y.start == x.start && y.troubles == x.troubles
    ensures y.now == x.now.(dev := x.now.dev.(running := {}))
  {
    SaneMeans(x);
    y := On(x, ServiceStop(Web));
    y := On(y, ServiceStop(Controller));
    y := On(y, ServiceStop(LogRotator));
    forall v: Service ensures v !in y.now.dev.running {
      assert v.Web? || v.Controller? || v.LogRotator?;
    }
    assert y.now.dev.running == {};
  }

  lemma StartServices(x: Pass) returns (y: Pass)
    requires Sane(x) && Gate(x.now.dev.status)
    ensures Sane(y) && y.start == x.start && y.troubles == x.troubles
    ensures y.now == x.now.(dev := x.now.dev.(running := SERVICES))
  {
    SaneMeans(x);
    y := On(x, SystemStart(Controller));
    y := On(y, SystemStart(Web));
    y := On(y, SystemStart(LogRotator));
    forall v | v in y.now.dev.running ensures v in SERVICES {
      assert v == Web || v == Controller || v == LogRotator;
    }
  }

  /** The manager's own starts, each through the gate. */
  lemma ManagerStarts(x: Pass) returns (y: Pass)
    requires Sane(x) && Starting(x.now.pc) && Gate(x.now.dev.status)
    ensures Sane(y) && y.start == x.start && y.troubles == x.troubles
    ensures y.now == x.now.(dev := x.now.dev.(running := SERVICES))
  {
    SaneMeans(x);
    y := On(x, Step(Started(Controller), Seen(x.now.dev)));
    y := On(y, Step(Started(Web), Seen(x.now.dev)));
    y := On(y, Step(Started(LogRotator), Seen(x.now.dev)));
    forall v | v in y.now.dev.running ensures v in SERVICES {
      assert v == Web || v == Controller || v == LogRotator;
    }
  }

  /** Any set of backups can be listed. */
  lemma {:induction false} Listed(ids: set<JobId>) returns (order: seq<JobId>)
    ensures Retention.Distinct(order) && Retention.Entries(order) == ids
    decreases |ids|
  {
    order := [];
    if ids != {} {
      var id :| id in ids;
      var rest := Listed(ids - {id});
      assert id !in Retention.Entries(rest);
      order := rest + [id];
      Retention.EntriesMore(rest, id);
    } else {
      assert Retention.Entries(order) == {};
    }
  }

  /** A clean-up that removes all it may. */
  lemma SweepAll(x: Pass) returns (y: Pass)
    requires Sane(x) && Sweeping(x.now.pc)
    ensures Sane(y) && y.start == x.start && y.troubles == x.troubles
    ensures y.now == x.now.(pc := AfterSweep(x.now.pc), dev := x.now.dev.(backups := y.now.dev.backups))
  {
    var order := Listed(x.now.dev.backups.Keys);
    var gone := Retention.Doomed(order, Protected(x.now.pc, x.now.dev), KEEP_BACKUPS);
    SaneMeans(x);
    y := On(x, Step(Swept(order, gone, {}, true), Seen(x.now.dev)));
  }

  /** Where an undisturbed run of one job has got to. */
  ghost predicate Along(x: Pass, s: State, pc: PC, troubles: nat) {
    && Sane(x) && x.start == s && x.now.pc == pc && x.troubles == troubles
    && x.now.dev.status.job == s.dev.status.job && x.now.h.tree == s.h.tree && x.now.h.env == s.h.env
  }

  /** The same, while the reference data stays what it was. */
  ghost predicate At(x: Pass, s: State, pc: PC, troubles: nat) {
    Along(x, s, pc, troubles) && x.now.h.stopData == s.h.stopData
  }

  // ----- a restore, by the runner or by recovery

  function Pending(who: Who): PC {
    PC.Write(if who.Runner? then RunPending else RecPending)
  }

  function After(stage: Stage, who: Who): PC {
    match stage
    case ToInstall => Restoring(ToInstallEnd, who)
    case ToEnv => Restoring(ToEnvEnd, who)
    case ToEnvEnd => Restoring(ToData, who)
    case ToData => Restoring(ToDataEnd, who)
    case ToDataEnd => Restoring(ToSync, who)
    case _ => Pending(who)
  }

  lemma Stopped(s: State, x0: Pass, who: Who, n: nat) returns (x: Pass)
    requires At(x0, s, Restoring(ToStop, who), n)
    ensures At(x, s, Restoring(ToLoad, who), n)
  {
    x := StopServices(x0);
    x := Go(x);
  }

  lemma Loaded(s: State, x0: Pass, who: Who, n: nat) returns (x: Pass)
    requires At(x0, s, Restoring(ToLoad, who), n)
    ensures At(x, s, Restoring(ToInstall, who), n)
  {
    SaneMeans(x0);
    x := Go(x0);
  }

  lemma Advance(s: State, x0: Pass, stage: Stage, who: Who, n: nat) returns (x: Pass)
    requires At(x0, s, Restoring(stage, who), n) && !stage.ToStop? && !stage.ToLoad? && !stage.ToInstallEnd?
    ensures At(x, s, After(stage, who), n)
  {
    SaneMeans(x0);
    x := Go(x0);
  }

  lemma Reinstall(s: State, x0: Pass, who: Who, n: nat) returns (x: Pass)
    requires At(x0, s, Restoring(ToInstall, who), n)
    ensures At(x, s, Restoring(ToEnv, who), n)
  {
    x := Advance(s, x0, ToInstall, who, n);
    SaneMeans(x);
    x := On(x, Step(Built(0), Seen(x.now.dev)));
  }

  lemma RestoreEnvironment(s: State, x0: Pass, who: Who, n: nat) returns (x: Pass)
    requires At(x0, s, Restoring(ToEnv, who), n)
    ensures At(x, s, Restoring(ToData, who), n)
  {
    x := Advance(s, x0, ToEnv, who, n);
    x := Advance(s, x, ToEnvEnd, who, n);
  }

  lemma RestoreData(s: State, x0: Pass, who: Who, n: nat) returns (x: Pass)
    requires At(x0, s, Restoring(ToData, who), n)
    ensures At(x, s, Restoring(ToSync, who), n)
  {
    x := Advance(s, x0, ToData, who, n);
    x := Advance(s, x, ToDataEnd, who, n);
  }

  /** From the order to stop the services to the announcement of the restore. */
  lemma RestoreAll(s: State, x0: Pass, who: Who, n: nat) returns (x: Pass)
    requires At(x0, s, Restoring(ToStop, who), n)
    ensures At(x, s, Pending(who), n)
  {
    x := Stopped(s, x0, who, n);
    x := Loaded(s, x, who, n);
    x := Reinstall(s, x, who, n);
    x := RestoreRest(s, x, who, n);
  }

  lemma RestoreRest(s: State, x0: Pass, who: Who, n: nat) returns (x: Pass)
    requires At(x0, s, Restoring(ToEnv, who), n)
    ensures At(x, s, Pending(who), n)
  {
    x := RestoreEnvironment(s, x0, who, n);
    x := RestoreData(s, x, who, n);
    x := Advance(s, x, ToSync, who, n);
  }

  lemma RolledBackMeans(x: Pass)
    requires Sane(x) && x.now.dev.status.phase.ROLLED_BACK?
    ensures Kept(x.now.dev, x.now.h)
  {
    SaneMeans(x);
  }

  lemma {:induction false} RunsJoin(s: State, es: seq<Event>, t: State, fs: seq<Event>, u: State)
    requires Runs(s, es, t) && Runs(t, fs, u)
    ensures Runs(s, es + fs, u)
    decreases es
  {
    if es == [] {
      assert es + fs == fs;
    } else {
      RunsJoin(Next(s, es[0]), es[1..], t, fs, u);
      assert (es + fs)[1..] == es[1..] + fs;
    }
  }

  lemma {:induction false} TroublesJoin(es: seq<Event>, fs: seq<Event>)
    ensures Troubles(es + fs) == Troubles(es) + Troubles(fs)
    decreases fs
  {
    if fs == [] {
      assert es + fs == es;
    } else {
      TroublesJoin(es, fs[..|fs| - 1]);
      assert (es + fs)[..|es + fs| - 1] == es + fs[..|fs| - 1];
    }
  }

  /** One undisturbed run after another. */
  lemma Join(x: Pass, y: Pass) returns (z: Pass)
    requires Sane(x) && Sane(y) && y.start == x.now
    ensures Sane(z) && z.start == x.start && z.now == y.now && z.troubles == x.troubles + y.troubles
  {
    z := Pass(x.start, x.events + y.events, y.now, x.troubles + y.troubles);
    SaneMeans(x);
    SaneMeans(y);
    RunsJoin(x.start, x.events, x.now, y.events, y.now);
    TroublesJoin(x.events, y.events);
    SaneMeans(z);
  }
}
