/** A request never outlives its job: after every boot a new upgrade can begin. */
module UpgradeRequests {
  import opened Options
  import opened Upgrade
  import opened UpgradeInvariant
  import opened UpgradeTheorems
  import opened UpgradePass
  import opened UpgradeRecovery
  import opened UpgradeProgress
  import opened UpgradeBoot

  /** The job is over for good. */
  predicate Over(st: Status) {
    Terminal(st.phase) && !(st.phase.FAILED? && st.required)
  }

  /** A request is of a job that no recovery has begun for, and is gone when the job is over. */
  predicate Fair(st: Status) {
    && (st.requested ==> st.attempts == 0 && !Over(st))
    && (st.phase.READY? || st.phase.VALIDATING? ==> st.attempts == 0)
  }

  /** What the dictionary in memory must be at a place from which it goes to disk. */
  predicate Fits(pc: PC, m: Status) {
    match pc
    case ValCheck | ValSweepReady => New(m)
    case RecLoad | RecDropPartial => Unrequested(m)
    case RequestCheck => m.phase.READY? && m.attempts == 0
    case FinHealth | FinSweep | RecDropStale => Fair(m)
    case Restoring(_, who) => if who.Recoverer? then Unrequested(m) else RollingBack(m)
    case Write(w) => (
      match w
      case ValStart | ValReady | ValFailed => New(m)
      case RecPrevious | RecPending | RecFailed(_) => Unrequested(m)
      case Request => m.phase.READY? && m.attempts == 0
      case FinVersion | FinRolledBack | FinFailed | RecClear | RecRolling => Fair(m)
      case RunPending => RollingBack(m)
      case _ => true)
    case _ => true
  }

  predicate New(m: Status) {
    !m.requested && m.attempts == 0
  }

  predicate Unrequested(m: Status) {
    !m.requested && Fair(m)
  }

  predicate RollingBack(m: Status) {
    m.phase.ROLLING_BACK? && Fair(m)
  }

  ghost predicate Requests(s: State) {
    Fair(s.dev.status) && Fits(s.pc, s.memo)
  }

  lemma UpdatedFair(w: Write, d: Device, m: Status, seen: Version)
    requires Fair(d.status) && Fits(PC.Write(w), m)
    ensures Fair(Updated(w, d, m, seen))
  {
  }

  lemma UpdatedFits(w: Write, d: Device, m: Status, seen: Version)
    requires Fair(Updated(w, d, m, seen)) && Fits(PC.Write(w), m)
    ensures Fits(AfterWrite(w), Updated(w, d, m, seen))
  {
  }

  lemma HandlerFits(pc: PC, code: Code, m: Status)
    requires Fits(pc, m)
    ensures Fits(Handler(pc, code, m), m)
  {
  }

  lemma HandlerFitsUpdated(w: Write, code: Code, d: Device, m: Status, n: Status, seen: Version)
    requires Fits(PC.Write(w), m) && n == Updated(w, d, m, seen) && Fair(n)
    ensures Fits(Handler(PC.Write(w), code, n), n) && Fits(Handler(PC.Write(w), code, m), n)
  {
  }

  lemma StoreKeeps(s: State, w: Write, seen: Version, ok: bool)
    requires Requests(s) && s.pc == PC.Write(w)
    ensures Requests(Store(s, w, seen, ok))
  {
    var next := Updated(w, s.dev, s.memo, seen);
    UpdatedFair(w, s.dev, s.memo, seen);
    UpdatedFits(w, s.dev, s.memo, seen);
    HandlerFits(s.pc, Other, s.memo);
    HandlerFitsUpdated(w, Other, s.dev, s.memo, next, seen);
  }

  lemma ThrownKeeps(s: State, code: Code, seen: Version)
    requires Requests(s)
    ensures Requests(Thrown(s, code, seen))
  {
    HandlerFits(s.pc, code, s.memo);
    if s.pc.Write? {
      UpdatedFair(s.pc.w, s.dev, s.memo, seen);
      HandlerFitsUpdated(s.pc.w, code, s.dev, s.memo, Updated(s.pc.w, s.dev, s.memo, seen), seen);
    }
  }

  lemma FinishKeeps(s: State, seen: Version)
    requires Requests(s) && CanFinish(s) && !s.pc.Write?
    ensures Requests(Finish(s, seen))
  {
    if s.pc.Restoring? {
      RestoringKeeps(s, s.pc.stage, s.pc.who);
    }
  }

  lemma RestoringKeeps(s: State, stage: Stage, who: Who)
    requires Requests(s) && s.pc == Restoring(stage, who)
    ensures Requests(FinishRestoring(s, stage, who))
  {
  }

  lemma EnterKeeps(s: State, entry: Entry)
    requires Requests(s) && Enabled(s, Enter(entry))
    ensures Requests(Next(s, Enter(entry)))
  {
  }

  lemma OutcomeKeeps(s: State, o: Outcome, seen: Version)
    requires Requests(s) && Enabled(s, Step(o, seen)) && !o.Done? && !o.RaiseLate? && !o.Raise?
    ensures Requests(Next(s, Step(o, seen)))
  {
    if o.Swept? {
      HandlerFits(s.pc, Other, s.memo);
    }
  }

  lemma {:induction false} RequestsKept(s: State, e: Event)
    requires Requests(s) && Enabled(s, e)
    ensures Requests(Next(s, e))
  {
    match e
    case Enter(entry) => EnterKeeps(s, entry);
    case Step(o, seen) =>
      if o.Raise? {
        ThrownKeeps(s, o.code, seen);
      } else if o.Done? || o.RaiseLate? {
        EndKeeps(s, o, seen);
      } else {
        OutcomeKeeps(s, o, seen);
      }
    case _ =>
  }

  lemma EndKeeps(s: State, o: Outcome, seen: Version)
    requires Requests(s) && Enabled(s, Step(o, seen)) && (o.Done? || o.RaiseLate?)
    ensures Requests(Next(s, Step(o, seen)))
  {
    if s.pc.Write? {
      StoreKeeps(s, s.pc.w, seen, o.Done?);
    } else if o.Done? {
      FinishKeeps(s, seen);
    }
  }

  lemma {:induction false} RunKeepsRequests(s: State, es: seq<Event>, t: State)
    requires Requests(s) && Runs(s, es, t)
    ensures Requests(t)
    decreases es
  {
    if es != [] {
      RequestsKept(s, es[0]);
      RunKeepsRequests(Next(s, es[0]), es[1..], t);
    }
  }

  /** Over every run: once a job is over for good, its request is gone. */
  lemma NoRequestOutlivesItsJob(s: State, es: seq<Event>, t: State)
    requires Init(s) && Runs(s, es, t)
    ensures Over(t.dev.status) ==> !t.dev.status.requested && CanEnter(t.dev.status, Validate)
  {
    RunKeepsRequests(s, es, t);
  }

  lemma VersionReadable(x: Pass)
    requires Sane(x) && Bootable(x.now.dev.status)
    ensures Undamaged(x.now.dev) && x.now.dev.tree.value.version > 0
  {
    SaneMeans(x);
  }

  /** After every boot that `BootWorks` speaks of, any package can be brought to SUCCESS: the boot leaves no
      request behind, and validation is not refused. */
  lemma UpgradeAfterBoot(s0: State, es: seq<Event>, s: State, p: Program) returns (fs: seq<Event>, t: State)
    requires Init(s0) && Runs(s0, es, s) && !Exempt(s.h) && (Exhausted(s.dev.status) ==> Kept(s.dev, s.h))
    requires p.version > 0
    ensures Runs(Next(s, Reboot), fs, t) && (forall e :: e in fs ==> Calm(e))
    ensures t.pc.Idle? && t.dev.status.phase.SUCCESS? && t.dev.tree == Whole(p) && t.dev.status.current == p.version
    ensures Undamaged(t.dev) && t.dev.running == SERVICES
  {
    var x := Boots(s0, es, s);
    SaneMeans(x);
    RunKeepsRequests(s0, es, s);
    RequestsKept(s, Reboot);
    RunKeepsRequests(Next(s, Reboot), x.events, x.now);
    VersionReadable(x);
    assert CanEnter(x.now.dev.status, Validate);
    var y := Upgrades(x.now, p);
    x := Join(x, y);
    SaneMeans(x);
    fs, t := x.events, x.now;
  }
}
