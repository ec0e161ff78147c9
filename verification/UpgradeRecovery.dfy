/** Recovery is not only safe, it works: from every state in which it is due, an undisturbed pass of
    the recovery unit, the gated service starts and the health confirmation end the job. */
module UpgradeRecovery {
  import opened Options
  import opened Upgrade
  import opened UpgradeInvariant
  import opened UpgradeTheorems
  import opened UpgradePass

  /** A recovery is due, and one more attempt is allowed. */
  predicate Due(s: State) {
    s.pc.Idle? && Owed(s.dev.status) && s.dev.status.attempts < MAX_RECOVERY_ATTEMPTS
  }

  predicate Owed(st: Status) {
    RollbackPhase(st.phase) || (st.phase.FAILED? && st.required)
  }

  /** The backup to restore is there. */
  predicate Restorable(s: State) {
    Loadable(s.dev.backups, s.dev.status.job)
  }

  lemma Entered(s: State) returns (x: Pass)
    requires Inv(s) && !Exempt(s.h) && Due(s)
    ensures Sane(x) && x.start == s && x.troubles == 0
    ensures x.now == s.(pc := PC.Write(RecRolling), memo := s.dev.status, h := s.h.(raised := None))
  {
    x := Begins(s);
    x := On(x, Enter(Recover));
  }

  lemma ToLoading(s: State) returns (x: Pass)
    requires Inv(s) && !Exempt(s.h) && Due(s)
    ensures At(x, s, RecLoad, 0) && x.now.dev.backups == s.dev.backups && x.now.dev.data == s.dev.data
  {
    x := Entered(s);
    x := Save(x);
  }

  lemma ToStopping(s: State) returns (x: Pass)
    requires Inv(s) && !Exempt(s.h) && Due(s) && Restorable(s)
    ensures At(x, s, Restoring(ToStop, Recoverer), 0)
  {
    x := ToLoading(s);
    SaneMeans(x);
    x := Go(x);
  }

  lemma ToConfirmation(s: State, x0: Pass) returns (x: Pass)
    requires At(x0, s, PC.Write(RecPending), 0)
    ensures At(x, s, FinHealth, 0) && x.now.dev.running == SERVICES && x.now.dev.data == s.h.stopData
  {
    SaneMeans(x0);
    x := Save(x0);
    x := StartServices(x);
    x := On(x, Enter(Finalize));
  }

  lemma ConfirmHealth(s: State, x0: Pass) returns (x: Pass)
    requires At(x0, s, FinHealth, 0) && x0.now.dev.running == SERVICES
    ensures At(x, s, PC.Write(FinRolledBack), 0) && x.now.dev == x0.now.dev
  {
    SaneMeans(x0);
    x := Go(x0);
  }

  lemma Confirm(s: State, x0: Pass) returns (x: Pass)
    requires At(x0, s, PC.Write(FinRolledBack), 0)
    ensures At(x, s, FinSweep, 0) && x.now.dev == x0.now.dev.(status := x.now.dev.status)
    ensures x.now.dev.status.phase.ROLLED_BACK?
  {
    SaneMeans(x0);
    x := Save(x0);
  }

  /** With the backup there, everything is restored and confirmed. */
  lemma EndsRestored(s: State) returns (x: Pass)
    requires Inv(s) && !Exempt(s.h) && Due(s) && Restorable(s)
    ensures At(x, s, Idle, 0) && x.now.dev.status.phase.ROLLED_BACK? && x.now.dev.running == SERVICES
    ensures Kept(x.now.dev, x.now.h) && x.now.dev.data == s.h.stopData
  {
    x := ToStopping(s);
    x := RestoreAll(s, x, Recoverer, 0);
    x := ToConfirmation(s, x);
    x := ConfirmHealth(s, x);
    x := Confirm(s, x);
    RolledBackMeans(x);
    x := SweepAll(x);
  }

  /** Without a complete backup the load fails, and the job ends with the program declared unchanged. */
  lemma EndsUnchanged(s: State) returns (x: Pass)
    requires Inv(s) && !Exempt(s.h) && Due(s) && !Restorable(s)
    ensures At(x, s, Idle, 1) && x.now.dev.status.phase.FAILED? && !x.now.dev.status.required
    ensures Kept(x.now.dev, x.now.h) && x.now.dev.data == s.dev.data
  {
    x := ToDropping(s);
    x := Go(x);
    x := DeclaresUnchanged(s, x);
  }

  lemma DeclaresUnchanged(s: State, x0: Pass) returns (x: Pass)
    requires At(x0, s, PC.Write(RecFailed(true)), 1) && Kept(x0.now.dev, x0.now.h)
    ensures At(x, s, Idle, 1) && x.now.dev == x0.now.dev.(status := x.now.dev.status) && Kept(x.now.dev, x.now.h)
    ensures x.now.dev.status.phase.FAILED? && !x.now.dev.status.required
  {
    SaneMeans(x0);
    x := Save(x0);
  }

  lemma ToDropping(s: State) returns (x: Pass)
    requires Inv(s) && !Exempt(s.h) && Due(s) && !Restorable(s)
    ensures At(x, s, RecDropPartial, 1) && x.now.dev.data == s.dev.data && Kept(x.now.dev, x.now.h)
  {
    x := ToLoading(s);
    NothingTouched(x);
    x := LoadFails(s, x);
  }

  lemma NothingTouched(x: Pass)
    requires Sane(x) && x.now.pc.RecLoad? && !Loadable(x.now.dev.backups, x.now.dev.status.job)
    ensures Kept(x.now.dev, x.now.h) && x.now.memo.from == Some(STOPPING)
  {
    SaneMeans(x);
  }

  lemma LoadFails(s: State, x0: Pass) returns (x: Pass)
    requires At(x0, s, RecLoad, 0) && Kept(x0.now.dev, x0.now.h) && x0.now.memo.from == Some(STOPPING)
    ensures At(x, s, RecDropPartial, 1) && x.now.dev == x0.now.dev && x.now.h == x0.now.h.(raised := x.now.h.raised)
  {
    SaneMeans(x0);
    x := On(x0, Step(Raise(BackupIncomplete), Seen(x0.now.dev)));
  }

  /** From every state a run can be in where a recovery is due, an undisturbed recovery ends the job: in
      ROLLED_BACK with the program and environment of before the upgrade and the data of the moment all
      services had stopped, without a single failure; or, when no complete backup exists, in FAILED with
      nothing ever touched, where nothing but the load of that backup fails.  The gate is open. */
  lemma RecoveryWorks(s0: State, es: seq<Event>, s: State) returns (fs: seq<Event>, t: State)
    requires Init(s0) && Runs(s0, es, s) && !Exempt(s.h) && Due(s)
    ensures Runs(s, fs, t) && (forall e :: e in fs ==> Calm(e)) && Troubles(fs) == (if Restorable(s) then 0 else 1)
    ensures t.pc.Idle? && t.dev.status.job == s.dev.status.job
    ensures Undamaged(t.dev) && t.dev.tree == s.h.tree && t.dev.env == s.h.env && Gate(t.dev.status)
    ensures Restorable(s) ==> t.dev.status.phase.ROLLED_BACK? && t.dev.data == s.h.stopData
    ensures !Restorable(s) ==> t.dev.status.phase.FAILED? && !t.dev.status.required && t.dev.data == s.dev.data
  {
    Reached(s0, es, s);
    var x: Pass;
    if Restorable(s) {
      x := EndsRestored(s);
    } else {
      x := EndsUnchanged(s);
    }
    SaneMeans(x);
    fs, t := x.events, x.now;
  }
}
