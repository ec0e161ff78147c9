/** Exactly when the service gate opens on a damaged device, and exactly when a needed backup is lost. */
module UpgradeGate {
  import opened Options
  import opened Upgrade
  import opened UpgradeInvariant
  import opened UpgradeAftermath
  import opened UpgradeTheorems

  /** A service could be started on something half written. */
  predicate OpenOnDamage(s: State) {
    Gate(s.dev.status) && !Undamaged(s.dev)
  }

  /** The writes that open the gate without anything having been restored: a new job, recovery giving up,
      and recovery taking the program for unchanged. */
  predicate Opening(s: State, e: Event) {
    && Stores(s, e)
    && match s.pc.w
       case ValStart | RecExhausted => true
       case RecFailed(stopped) => stopped || s.memo.attempts >= MAX_RECOVERY_ATTEMPTS
       case _ => false
  }

  /** The events that damage something. */
  lemma DamageIsGated(s: State, e: Event)
    requires Enabled(s, e) && !Stores(s, e) && Undamaged(s.dev) && !Undamaged(Next(s, e).dev)
    ensures s.pc.Install? || s.pc.InstallEnd? || s.pc.Restoring?
  {
    if e.Step? && e.outcome.Done? {
      FinishDamages(s, e.seen);
    }
  }

  lemma FinishDamages(s: State, seen: Version)
    requires CanFinish(s) && !s.pc.Write? && Undamaged(s.dev) && !Undamaged(Finish(s, seen).dev)
    ensures s.pc.Install? || s.pc.Restoring?
  {
  }

  /** What is not a status write cannot open the gate on damage. */
  lemma QuietGate(s: State, e: Event)
    requires Accounted(s) && !s.h.orphaned && Enabled(s, e) && !Stores(s, e) && !OpenOnDamage(s)
    ensures !OpenOnDamage(Next(s, e))
  {
    StatusMoves(s, e);
    if Undamaged(s.dev) && !Undamaged(Next(s, e).dev) {
      DamageIsGated(s, e);
    }
  }

  lemma StoreLeavesFiles(s: State, w: Write, seen: Version, ok: bool)
    requires s.pc == PC.Write(w)
    ensures var t := Store(s, w, seen, ok); Undamaged(t.dev) == Undamaged(s.dev)
  {
  }

  /** In a certain job only an abandoned recovery and a new job open it. */
  lemma CertainOpens(s: State, w: Write, seen: Version, ok: bool)
    requires Certain(s) && Counted(s) && s.pc == PC.Write(w) && !Undamaged(s.dev)
    ensures Gate(Store(s, w, seen, ok).dev.status) <==>
              w.ValStart? || w.RecExhausted?
                  || (w.RecFailed? && (w.stopped || s.memo.attempts >= MAX_RECOVERY_ATTEMPTS))
  {
  }

  lemma StrandedOpens(s: State, w: Write, seen: Version, ok: bool)
    requires Stranded(s) && Placed(s) && Counted(s) && s.pc == PC.Write(w) && !Undamaged(s.dev) && !Gate(s.dev.status)
    ensures Gate(Store(s, w, seen, ok).dev.status) <==>
              w.ValStart? || w.RecExhausted?
                  || (w.RecFailed? && (w.stopped || s.memo.attempts >= MAX_RECOVERY_ATTEMPTS))
  {
  }

  lemma StepOpens(s: State, e: Event)
    requires Accounted(s) && !s.h.orphaned && Enabled(s, e) && !OpenOnDamage(s)
    ensures OpenOnDamage(Next(s, e)) <==> !Undamaged(s.dev) && Opening(s, e)
    ensures Next(s, e).h.orphaned ==> OpenOnDamage(Next(s, e))
  {
    StatusMoves(s, e);
    OrphansOnlyByWriting(s, e);
    if !Stores(s, e) {
      QuietGate(s, e);
    } else {
      var w, ok := s.pc.w, e.outcome.Done?;
      StoreLeavesFiles(s, w, e.seen, ok);
      if !Undamaged(s.dev) {
        if s.h.lost {
          StrandedOpens(s, w, e.seen, ok);
        } else {
          CertainOpens(s, w, e.seen, ok);
        }
      }
    }
  }

  lemma OrphansOnlyByWriting(s: State, e: Event)
    requires Placed(s) && Enabled(s, e) && !s.h.orphaned
    ensures Next(s, e).h.orphaned ==> Stores(s, e) && s.pc.w.ValStart? && OpenOnDamage(Next(s, e))
  {
  }

  /** Some state of the run has the gate open on damage. */
  predicate SeenOpen(s: State, es: seq<Event>)
    decreases es
  {
    OpenOnDamage(s) || (es != [] && Enabled(s, es[0]) && SeenOpen(Next(s, es[0]), es[1..]))
  }

  /** Some event of the run is one of the opening writes on a damaged device. */
  predicate Opens(s: State, es: seq<Event>)
    decreases es
  {
    es != [] && Enabled(s, es[0]) && ((!Undamaged(s.dev) && Opening(s, es[0])) || Opens(Next(s, es[0]), es[1..]))
  }

  /** The gate is ever open on a damaged device if and only if one of the opening writes was made on one. */
  lemma {:induction false} GateIsExact(s: State, es: seq<Event>, t: State)
    requires Accounted(s) && !s.h.orphaned && !OpenOnDamage(s) && Runs(s, es, t)
    ensures SeenOpen(s, es) <==> Opens(s, es)
    decreases es
  {
    if es != [] {
      var e, next := es[0], Next(s, es[0]);
      StepOpens(s, e);
      AccountedKept(s, e);
      if OpenOnDamage(next) {
        assert SeenOpen(next, es[1..]);
      } else {
        GateIsExact(next, es[1..], t);
      }
    }
  }

  /** From a device at rest: over any run at all the gate lets services onto a damaged device exactly when
      a validation, a recovery that gives up or a recovery that takes the program for unchanged writes
      its status while the device is damaged. */
  lemma GateFromRest(s: State, es: seq<Event>, t: State)
    requires Init(s) && Runs(s, es, t)
    ensures SeenOpen(s, es) <==> Opens(s, es)
    ensures !Opens(s, es) ==> (Gate(t.dev.status) ==> Undamaged(t.dev))
  {
    InitInv(s);
    GateIsExact(s, es, t);
    LastSeen(s, es, t);
  }

  lemma {:induction false} LastSeen(s: State, es: seq<Event>, t: State)
    requires Runs(s, es, t)
    ensures OpenOnDamage(t) ==> SeenOpen(s, es)
    decreases es
  {
    if es != [] {
      LastSeen(Next(s, es[0]), es[1..], t);
    }
  }

  // ----- the backup of a damaged device

  lemma CertainBackup(s: State, e: Event)
    requires Certain(s) && Counted(s) && !Undamaged(s.dev) && Enabled(s, e)
    requires Next(s, e).dev.status.job == s.dev.status.job
    ensures Loadable(Next(s, e).dev.backups, s.dev.status.job) <==>
              !(s.pc.RecDropPartial? && e.Step? && e.outcome.Done?)
  {
    if e.Step? && e.outcome.Swept? {
      DamagedIsProtected(s);
      SweptBackup(s, e.outcome, e.seen);
    }
  }

  lemma DamagedIsProtected(s: State)
    requires Certain(s) && !Undamaged(s.dev)
    ensures Loadable(s.dev.backups, s.dev.status.job)
    ensures Sweeping(s.pc) ==> s.dev.status.job in Protected(s.pc, s.dev)
  {
  }

  lemma SweptBackup(s: State, o: Outcome, seen: Version)
    requires o.Swept? && Enabled(s, Step(o, seen)) && s.dev.status.job in Protected(s.pc, s.dev)
    requires Loadable(s.dev.backups, s.dev.status.job)
    ensures Loadable(Next(s, Step(o, seen)).dev.backups, s.dev.status.job)
  {
    SweepSpares(s, o.order, o.gone, o.damaged);
  }

  /** The backup a damaged device needs is lost exactly when recovery removes it as incomplete: no clean-up,
      no failure, no kill and no giving up takes it away. */
  lemma BackupIsLostExactly(s: State, es: seq<Event>, t: State, e: Event)
    requires Init(s) && Runs(s, es, t) && !t.h.orphaned && !t.h.lost && !Undamaged(t.dev)
    requires Enabled(t, e) && Next(t, e).dev.status.job == t.dev.status.job
    ensures Loadable(Next(t, e).dev.backups, t.dev.status.job) <==>
              !(t.pc.RecDropPartial? && e.Step? && e.outcome.Done?)
  {
    Reached(s, es, t);
    if t.h.gaveUp {
      GivenUpBackup(t, e);
    } else {
      CertainBackup(t, e);
    }
  }

  lemma GivenUpBackup(s: State, e: Event)
    requires Counted(s) && GivenUp(s) && Enabled(s, e) && Next(s, e).dev.status.job == s.dev.status.job
    ensures Loadable(Next(s, e).dev.backups, s.dev.status.job) && !s.pc.RecDropPartial?
  {
    if !(e.Step? && s.pc == PC.Write(ValStart)) {
      GivenUpStays(s, e);
    }
  }
}
