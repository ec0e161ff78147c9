/** Every boot works: whatever a reboot interrupts, the boot sequence ends with all services up on undamaged files. */
module UpgradeBoot {
  import opened Options
  import opened Upgrade
  import opened UpgradeInvariant
  import opened UpgradeTheorems
  import opened UpgradePass
  import opened UpgradeRecovery

  /** A recovery is owed, but no attempt is left. */
  predicate Exhausted(st: Status) {
    Owed(st) && st.attempts >= MAX_RECOVERY_ATTEMPTS
  }

  lemma RecoverEnters(s: State) returns (x: Pass)
    requires Inv(s) && !Exempt(s.h) && s.pc.Idle?
    ensures Sane(x) && x.start == s && x.troubles == 0
    ensures x.now == s.(pc := EntryPoint(s.dev.status, Recover), memo := s.dev.status, h := s.h.(raised := None))
  {
    x := Begins(s);
    x := On(x, Enter(Recover));
  }

  /** The first pass of recovery over a job that is over or ready. */
  lemma KeepsReady(s: State) returns (x: Pass)
    requires Inv(s) && !Exempt(s.h) && s.pc.Idle? && (s.dev.status.phase.READY? || Terminal(s.dev.status.phase))
    requires !Owed(s.dev.status)
    ensures At(x, s, Idle, 0) && x.now.dev.status == s.dev.status.(requested := x.now.dev.status.requested)
    ensures x.now.dev == s.dev.(status := x.now.dev.status, backups := x.now.dev.backups)
    ensures x.now.dev.status.requested ==> s.dev.status.requested && !s.dev.status.phase.READY?
  {
    x := RecoverEnters(s);
    if x.now.pc.Write? {
      x := Save(x);
    }
    x := SweepAll(x);
  }

  lemma DropsStale(s: State) returns (x: Pass)
    requires Inv(s) && !Exempt(s.h) && s.pc.Idle? && (s.dev.status.phase.VALIDATING? || s.dev.status.phase.BACKING_UP?)
    ensures At(x, s, PC.Write(RecInterrupted), 0)
  {
    x := RecoverEnters(s);
    x := Go(x);
  }

  lemma Interrupted(s: State) returns (x: Pass)
    requires Inv(s) && !Exempt(s.h) && s.pc.Idle? && (s.dev.status.phase.VALIDATING? || s.dev.status.phase.BACKING_UP?)
    ensures At(x, s, Idle, 0) && x.now.dev.status.phase.FAILED? && !x.now.dev.status.required
  {
    x := DropsStale(s);
    SaneMeans(x);
    x := Save(x);
    x := SweepAll(x);
  }

  lemma GivesUpHarmlessly(s: State) returns (x: Pass)
    requires Inv(s) && !Exempt(s.h) && s.pc.Idle? && Exhausted(s.dev.status) && Kept(s.dev, s.h)
    ensures At(x, s, Idle, 0) && x.now.dev.status.phase.FAILED? && !x.now.dev.status.required
  {
    x := RecoverEnters(s);
    x := Save(x);
  }

  /** After recovery the gate is open. */
  predicate Bootable(st: Status) {
    st.phase.READY? || st.phase.IDLE? || st.phase.SUCCESS? || st.phase.ROLLED_BACK?
        || (st.phase.FAILED? && !st.required)
  }

  predicate Withdrawn(st: Status) {
    st.phase.READY? ==> !st.requested
  }

  lemma BootableMeans(x: Pass)
    requires Sane(x) && Bootable(x.now.dev.status)
    ensures Gate(x.now.dev.status) && Undamaged(x.now.dev)
  {
    SaneMeans(x);
  }

  /** Where recovery leaves a job whose restore is not pending. */
  lemma RecoveredAtBoot(s: State) returns (x: Pass, n: nat)
    requires Inv(s) && !Exempt(s.h) && s.pc.Idle? && (Exhausted(s.dev.status) ==> Kept(s.dev, s.h))
    requires !(Due(s) && Restorable(s))
    ensures At(x, s, Idle, n) && Bootable(x.now.dev.status) && Withdrawn(x.now.dev.status)
    ensures n == if Due(s) then 1 else 0
  {
    n := 0;
    if Due(s) {
      x := EndsUnchanged(s);
      n := 1;
    } else if Exhausted(s.dev.status) {
      x := GivesUpHarmlessly(s);
    } else if s.dev.status.phase.VALIDATING? || s.dev.status.phase.BACKING_UP? {
      x := Interrupted(s);
    } else {
      x := KeepsReady(s);
    }
  }

  /** The services start, and the health confirmation has nothing to decide. */
  lemma StartsAndFinalizes(s: State, x0: Pass, n: nat) returns (x: Pass)
    requires At(x0, s, Idle, n) && Bootable(x0.now.dev.status) && Withdrawn(x0.now.dev.status)
    ensures At(x, s, Idle, n) && x.now.dev.running == SERVICES && Undamaged(x.now.dev)
    ensures Bootable(x.now.dev.status) && Withdrawn(x.now.dev.status)
  {
    BootableMeans(x0);
    x := StartServices(x0);
    SaneMeans(x);
    x := On(x, Enter(Finalize));
    if x.now.pc.Write? {
      x := Save(x);
    }
  }

  lemma Boots(s0: State, es: seq<Event>, s: State) returns (x: Pass)
    requires Init(s0) && Runs(s0, es, s) && !Exempt(s.h) && (Exhausted(s.dev.status) ==> Kept(s.dev, s.h))
    ensures var r := Next(s, Reboot); At(x, r, Idle, if Due(r) && !Restorable(r) then 1 else 0)
    ensures x.now.dev.running == SERVICES && Undamaged(x.now.dev)
    ensures Bootable(x.now.dev.status) && Withdrawn(x.now.dev.status)
  {
    Reached(s0, es, s);
    InvKept(s, Reboot);
    var r := Next(s, Reboot);
    if Due(r) && Restorable(r) {
      x := EndsRestored(r);
    } else {
      var n;
      x, n := RecoveredAtBoot(r);
      x := StartsAndFinalizes(r, x, n);
    }
  }

  /** Every boot: from every state a run can be in, unless an attempt at recovery is owed and none is left on a
      device where something is still amiss, the reboot followed by an undisturbed recovery, the start of
      the services and the health confirmation ends, for the same job, with all services up on undamaged
      files.  Nothing fails on the way but the load of a backup that was never completed. */
  lemma BootWorks(s0: State, es: seq<Event>, s: State) returns (fs: seq<Event>, t: State)
    requires Init(s0) && Runs(s0, es, s) && !Exempt(s.h) && (Exhausted(s.dev.status) ==> Kept(s.dev, s.h))
    ensures Runs(Next(s, Reboot), fs, t) && (forall e :: e in fs ==> Calm(e))
    ensures Troubles(fs) == (if Due(Next(s, Reboot)) && !Restorable(s) then 1 else 0)
    ensures t.pc.Idle? && t.dev.status.job == s.dev.status.job
    ensures t.dev.running == SERVICES && Undamaged(t.dev)
  {
    var x := Boots(s0, es, s);
    SaneMeans(x);
    fs, t := x.events, x.now;
  }
}
