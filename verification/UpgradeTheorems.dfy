/** What the upgrade protocol guarantees over every run: any order of commands, service starts and
    stops, failing operations, kills and reboots. */
module UpgradeTheorems {
  import opened Options
  import opened Upgrade
  import opened UpgradeInvariant
  import opened UpgradeAftermath

  /** The only phases in which something on disk may be damaged. */
  predicate MayBeDamaged(st: Status) {
    st.phase.INSTALLING? || (st.phase.ROLLING_BACK? && !st.pending) || (st.phase.FAILED? && st.required)
  }

  lemma {:induction false} RunKeeps(s: State, es: seq<Event>, t: State)
    requires Accounted(s) && Runs(s, es, t)
    ensures Accounted(t)
    decreases es
  {
    if es != [] {
      AccountedKept(s, es[0]);
      RunKeeps(Next(s, es[0]), es[1..], t);
    }
  }

  /** A run can be extended by any event that is possible at its end. */
  lemma {:induction false} RunsOn(s: State, es: seq<Event>, t: State, e: Event)
    requires Runs(s, es, t) && Enabled(t, e)
    ensures Runs(s, es + [e], Next(t, e))
    decreases es
  {
    if es == [] {
      assert Runs(Next(t, e), [], Next(t, e));
      assert [e][1..] == [];
    } else {
      RunsOn(Next(s, es[0]), es[1..], t, e);
      assert (es + [e])[1..] == es[1..] + [e];
    }
  }

  datatype Fold = Fold

  predicate Unfolded(f: Fold) {
    true
  }

  /** A run from a device at rest, folded up: proofs that only carry it along do not look into it.
      `PastRuns` unfolds it. */
  ghost predicate Past(s: State, es: seq<Event>, t: State) {
    forall f: Fold :: Unfolded(f) ==> Init(s) && Runs(s, es, t)
  }

  lemma PastRuns(s: State, es: seq<Event>, t: State)
    ensures Past(s, es, t) <==> Init(s) && Runs(s, es, t)
  {
    assert Unfolded(Fold);
  }

  lemma PastOn(s: State, es: seq<Event>, t: State, e: Event)
    requires Past(s, es, t) && Enabled(t, e)
    ensures Past(s, es + [e], Next(t, e))
  {
    PastRuns(s, es, t);
    RunsOn(s, es, t, e);
    PastRuns(s, es + [e], Next(t, e));
  }

  lemma Reached(s: State, es: seq<Event>, t: State)
    requires Init(s) && Runs(s, es, t)
    ensures Accounted(t) && Inv(t)
  {
    InitInv(s);
    RunKeeps(s, es, t);
  }

  /** What the committed backup of a job must be: the program, environment and data of before the upgrade. */
  predicate BackedUp(d: Device, h: History) {
    && Loadable(d.backups, d.status.backup) && h.tree.Whole?
    && d.backups[d.status.backup] == Backup(Some(h.tree), Some(h.env), Some(h.stopData), Some(h.tree.value.version))
  }

  /** Crash safety.  Damage is only ever seen in a phase that knows it, with no service running, or after
      recovery gave up or lost the backup; and the complete backup is there, also after giving up, unless
      recovery itself deleted it. */
  lemma CrashSafety(s: State, es: seq<Event>, t: State)
    requires Init(s) && Runs(s, es, t) && !t.h.orphaned && !Undamaged(t.dev)
    ensures MayBeDamaged(t.dev.status) || t.h.gaveUp || t.h.lost
    ensures !t.h.gaveUp && !t.h.lost ==> t.dev.running == {}
    ensures BackedUp(t.dev, t.h) <==> !t.h.lost
  {
    Reached(s, es, t);
  }

  /** The gate is closed only in a phase that may be damaged and while services are being stopped; where the
      manager itself starts services it is open; and where it is open nothing is damaged. */
  lemma GateAgreement(s: State, es: seq<Event>, t: State)
    requires Init(s) && Runs(s, es, t)
    ensures !Gate(t.dev.status) ==> MayBeDamaged(t.dev.status) || t.dev.status.phase.STOPPING?
    ensures !t.h.orphaned && Starting(t.pc) ==> Gate(t.dev.status)
    ensures !Exempt(t.h) && Gate(t.dev.status) ==> Undamaged(t.dev)
  {
    Reached(s, es, t);
  }

  /** SUCCESS means the new program with the target version; ROLLED_BACK means the old program and
      environment with the previous version; a plain FAILED means nothing was replaced. */
  lemma OutcomeMeaning(s: State, es: seq<Event>, t: State)
    requires Init(s) && Runs(s, es, t) && !t.h.orphaned
    ensures t.dev.status.phase.SUCCESS? ==>
              t.dev.tree == Whole(t.dev.package) && t.dev.status.current == t.dev.package.version && Undamaged(t.dev)
    ensures t.dev.status.phase.ROLLED_BACK? ==>
              t.dev.tree == t.h.tree && t.dev.env == t.h.env && t.dev.data.Whole? && t.dev.tree.Whole? &&
              t.dev.status.current == t.dev.status.previous == t.dev.tree.value.version
    ensures t.dev.status.phase.FAILED? && !t.dev.status.required && !t.h.gaveUp && !t.h.lost ==> Kept(t.dev, t.h)
  {
    Reached(s, es, t);
  }

  /** Does this event replace the status file? */
  predicate Stores(s: State, e: Event) {
    e.Step? && s.pc.Write? && (e.outcome.Done? || e.outcome.RaiseLate?)
  }

  /** recover_transaction goes on to stop services and restore. */
  predicate BeginsRestore(s: State, e: Event) {
    s.pc == Restoring(ToStop, Recoverer) && e.Step? && e.outcome.Done?
  }

  /** What an event that is no write to the status file leaves alone. */
  predicate Quiet(s: State, e: Event, t: State) {
    && t.dev.status == s.dev.status
    && t.h.backingUp == s.h.backingUp
    && t.h.restores == s.h.restores + (if BeginsRestore(s, e) then 1 else 0)
    && (t.h.stopData == s.h.stopData || (t.h.stopData == s.dev.data && s.dev.running == {}))
  }

  lemma FinishQuiet(s: State, seen: Version)
    requires Enabled(s, Step(Done, seen)) && !s.pc.Write?
    ensures Quiet(s, Step(Done, seen), Finish(s, seen))
  {
  }

  lemma StatusMoves(s: State, e: Event)
    requires Enabled(s, e)
    ensures if Stores(s, e) then Next(s, e) == Store(s, s.pc.w, e.seen, e.outcome.Done?) else Quiet(s, e, Next(s, e))
  {
    if e.Step? && e.outcome.Done? && !s.pc.Write? {
      FinishQuiet(s, e.seen);
    }
  }

  predicate Restored(st: Status) {
    st.phase.ROLLING_BACK? && st.pending
  }

  lemma RestoringWrites(s: State, w: Write, seen: Version, ok: bool)
    requires Accounted(s) && !s.h.orphaned && s.pc == PC.Write(w)
    ensures !Restored(s.dev.status) && Restored(Store(s, w, seen, ok).dev.status) ==>
              (w.RunPending? || w.RecPending?) && !Exempt(s.h)
  {
  }

  /** At the moment a restore is announced, program, environment and data are those of before the
      upgrade, and the data is what it was when all services had stopped. */
  lemma RestoreIsExact(s: State, es: seq<Event>, t: State, e: Event)
    requires Init(s) && Runs(s, es, t) && Enabled(t, e) && !t.h.orphaned
    requires !Restored(t.dev.status) && Restored(Next(t, e).dev.status)
    ensures var d, h := Next(t, e).dev, t.h;
            d.tree == h.tree && d.env == h.env && d.data == h.stopData && d.running == {} && Undamaged(d)
  {
    Reached(s, es, t);
    StatusMoves(t, e);
    RestoringWrites(t, t.pc.w, e.seen, e.outcome.Done?);
  }

  /** The phases that follow one another on disk: by the table, or by the two writes that bypass it. */
  predicate Ordinary(st: Status, q: Phase) {
    || st.phase == q
    || Allowed(st.phase, q)
    || (st.phase.READY? && q.VALIDATING?)
    || (st.phase.FAILED? && st.required && q.ROLLING_BACK?)
  }

  /** A write that follows an exception which came after the status file had been replaced: from the
      write of INSTALLING, or from that of ROLLED_BACK or the clean-up right after it. */
  predicate Slips(s: State, e: Event) {
    && Stores(s, e)
    && match s.pc.w
       case RunFailed(_) => s.dev.status.phase.INSTALLING? && s.h.raised == Some(PC.Write(RunInstalling))
       case RunRollbackFailed =>
         s.dev.status.phase.ROLLED_BACK? && s.h.raised in {Some(PC.Write(RunRolledBack)), Some(SweepRolledBack)}
       case FinFailed =>
         s.dev.status.phase.ROLLED_BACK? && s.h.raised in {Some(PC.Write(FinRolledBack)), Some(FinSweep)}
       case _ => false
  }

  /** What one write to disk may do to the phase, to the origin of a recovery, and to the job. */
  predicate Moves(s: State, t: State) {
    var p, q := s.dev.status, t.dev.status;
    && (q.job == p.job ==> (p.from.Some? ==> q.from == p.from) && (p.phase.SUCCESS? ==> q.phase.SUCCESS?))
    && q.job >= p.job
    && t.dev.tree == s.dev.tree
    && (q.phase.BACKING_UP? && !p.phase.BACKING_UP? ==> t.h.backingUp == s.h.backingUp + 1)
  }

  lemma PreludeMoves(s: State, w: Write, seen: Version, ok: bool)
    requires Placed(s) && Counted(s) && s.pc == PC.Write(w) && Prelude(w)
    ensures Moves(s, Store(s, w, seen, ok))
  {
  }

  lemma ForwardMoves(s: State, w: Write, seen: Version, ok: bool)
    requires Placed(s) && s.pc == PC.Write(w) && (Saving(w) || Switching(w))
    ensures Moves(s, Store(s, w, seen, ok))
  {
  }

  lemma BackwardMoves(s: State, w: Write, seen: Version, ok: bool)
    requires Placed(s) && Counted(s) && s.pc == PC.Write(w) && (Abandoning(w) || RollingBack(w))
    ensures Moves(s, Store(s, w, seen, ok))
  {
  }

  lemma RecoveryMoves(s: State, w: Write, seen: Version, ok: bool)
    requires Placed(s) && Counted(s) && s.pc == PC.Write(w) && (Recovering(w) || Recovered(w) || Finalizing(w))
    ensures Moves(s, Store(s, w, seen, ok))
  {
  }

  lemma StoreMoves(s: State, w: Write, seen: Version, ok: bool)
    requires Placed(s) && Counted(s) && s.pc == PC.Write(w)
    ensures Moves(s, Store(s, w, seen, ok))
  {
    if Prelude(w) {
      PreludeMoves(s, w, seen, ok);
    } else if Saving(w) || Switching(w) {
      ForwardMoves(s, w, seen, ok);
    } else if Abandoning(w) || RollingBack(w) {
      BackwardMoves(s, w, seen, ok);
    } else {
      RecoveryMoves(s, w, seen, ok);
    }
  }

  lemma OrdinaryForward(s: State, w: Write, seen: Version, e: Event)
    requires Placed(s) && Counted(s) && s.pc == PC.Write(w) && Enabled(s, e) && Stores(s, e) && seen == e.seen
    requires Prelude(w) || Saving(w) || Switching(w)
    ensures Ordinary(s.dev.status, Store(s, w, seen, e.outcome.Done?).dev.status.phase) && !Slips(s, e)
  {
  }

  lemma OrdinaryBackward(s: State, w: Write, seen: Version, e: Event)
    requires Placed(s) && Counted(s) && s.pc == PC.Write(w) && Enabled(s, e) && Stores(s, e) && seen == e.seen
    requires Abandoning(w) || RollingBack(w)
    ensures Ordinary(s.dev.status, Store(s, w, seen, e.outcome.Done?).dev.status.phase) <==> !Slips(s, e)
  {
  }

  lemma OrdinaryRecovery(s: State, w: Write, seen: Version, e: Event)
    requires Placed(s) && Counted(s) && s.pc == PC.Write(w) && Enabled(s, e) && Stores(s, e) && seen == e.seen
    requires Recovering(w) || Recovered(w) || Finalizing(w)
    ensures Ordinary(s.dev.status, Store(s, w, seen, e.outcome.Done?).dev.status.phase) <==> !Slips(s, e)
  {
  }

  /** The phases on disk follow the table, its two bypasses, and nothing else, except exactly when a write
      answers an exception that came too late. */
  lemma StateHistory(s: State, es: seq<Event>, t: State, e: Event)
    requires Init(s) && Runs(s, es, t) && Enabled(t, e)
    ensures Ordinary(t.dev.status, Next(t, e).dev.status.phase) <==> !Slips(t, e)
    ensures Slips(t, e) ==> Next(t, e).dev.status.phase.FAILED?
  {
    Reached(s, es, t);
    StatusMoves(t, e);
    if Stores(t, e) {
      var w := t.pc.w;
      if Prelude(w) || Saving(w) || Switching(w) {
        OrdinaryForward(t, w, e.seen, e);
      } else if Abandoning(w) || RollingBack(w) {
        OrdinaryBackward(t, w, e.seen, e);
      } else {
        OrdinaryRecovery(t, w, e.seen, e);
      }
    }
  }

  /** The table never stands in the way: a write that goes through it is refused exactly when the rollback
      handler runs after SUCCESS has been written. */
  lemma RefusedExactly(s: State, es: seq<Event>, t: State, w: Write, seen: Version)
    requires Init(s) && Runs(s, es, t) && t.pc == PC.Write(w) && Checked(w)
    ensures Refused(w, t.dev, Updated(w, t.dev, t.memo, seen).phase) <==> w.RunRolling? && t.dev.status.phase.SUCCESS?
  {
    Reached(s, es, t);
  }

  /** Where a recovery came from is never overwritten while the job lasts. */
  lemma OriginSticks(s: State, es: seq<Event>, t: State, e: Event)
    requires Init(s) && Runs(s, es, t) && Enabled(t, e)
    requires t.dev.status.from.Some? && Next(t, e).dev.status.job == t.dev.status.job
    ensures Next(t, e).dev.status.from == t.dev.status.from
  {
    Reached(s, es, t);
    StatusMoves(t, e);
    if Stores(t, e) {
      StoreMoves(t, t.pc.w, e.seen, e.outcome.Done?);
    }
  }

  /** A written SUCCESS stays until the next validation, whatever its own run still does. */
  lemma SuccessIsFinal(s: State, es: seq<Event>, t: State, e: Event)
    requires Init(s) && Runs(s, es, t) && Enabled(t, e)
    requires t.dev.status.phase.SUCCESS? && Next(t, e).dev.status.job == t.dev.status.job
    ensures Next(t, e).dev.status.phase.SUCCESS?
  {
    Reached(s, es, t);
    StatusMoves(t, e);
    if Stores(t, e) {
      StoreMoves(t, t.pc.w, e.seen, e.outcome.Done?);
    }
  }

  /** Every job id is new, and a job enters BACKING_UP at most once. */
  lemma BackingUpOnce(s: State, es: seq<Event>, t: State, e: Event)
    requires Init(s) && Runs(s, es, t) && Enabled(t, e)
    ensures t.h.backingUp <= 1
    ensures Next(t, e).dev.status.job >= t.dev.status.job
    ensures Next(t, e).dev.status.phase.BACKING_UP? && !t.dev.status.phase.BACKING_UP? ==>
              Next(t, e).h.backingUp == t.h.backingUp + 1
  {
    Reached(s, es, t);
    StatusMoves(t, e);
    if Stores(t, e) {
      StoreMoves(t, t.pc.w, e.seen, e.outcome.Done?);
    }
  }

  /** The reference data is read at an instant when no service runs; nothing else ever moves it. */
  lemma ReferenceData(s: State, e: Event)
    requires Enabled(s, e) && Next(s, e).h.stopData != s.h.stopData
    ensures Next(s, e).h.stopData == s.dev.data && (s.dev.running == {} || s.pc == PC.Write(ValStart))
  {
    StatusMoves(s, e);
  }

  /** The branch of recover_transaction for a state it does not recognise is dead. */
  lemma NoUnknownState(s: State, es: seq<Event>, t: State)
    requires Init(s) && Runs(s, es, t)
    ensures t.pc != PC.Write(RecUnknown)
  {
    Reached(s, es, t);
  }

  /** How many restores recover_transaction begins along a run. */
  function RestoresBegun(s: State, es: seq<Event>): nat
    decreases es
  {
    if es == [] || !Enabled(s, es[0]) then 0
    else (if BeginsRestore(s, es[0]) then 1 else 0) + RestoresBegun(Next(s, es[0]), es[1..])
  }

  lemma {:induction false} RestoresCounted(s: State, es: seq<Event>, t: State)
    requires Accounted(s) && Runs(s, es, t)
    ensures t.dev.status.job >= s.dev.status.job
    ensures t.dev.status.job == s.dev.status.job ==> t.h.restores == s.h.restores + RestoresBegun(s, es)
    decreases es
  {
    if es != [] {
      var e, next := es[0], Next(s, es[0]);
      AccountedKept(s, e);
      StatusMoves(s, e);
      if Stores(s, e) {
        StoreMoves(s, s.pc.w, e.seen, e.outcome.Done?);
        StoreCounts(s, s.pc.w, e.seen, e.outcome.Done?);
      }
      RestoresCounted(next, es[1..], t);
    }
  }

  lemma StoreCounts(s: State, w: Write, seen: Version, ok: bool)
    requires Counted(s) && s.pc == PC.Write(w)
    ensures var t := Store(s, w, seen, ok); t.dev.status.job == s.dev.status.job ==> t.h.restores == s.h.restores
  {
  }

  /** Over any sequence of crashes and reboots, one job is restored by the recovery unit at most three
      times: the attempt count reaches the disk before each restore. */
  lemma BoundedRecovery(s: State, es: seq<Event>, t: State, fs: seq<Event>, u: State)
    requires Init(s) && Runs(s, es, t) && Runs(t, fs, u) && u.dev.status.job == t.dev.status.job
    ensures RestoresBegun(t, fs) <= MAX_RECOVERY_ATTEMPTS
    ensures u.h.restores <= u.dev.status.attempts <= MAX_RECOVERY_ATTEMPTS
  {
    Reached(s, es, t);
    RestoresCounted(t, fs, u);
    RunKeeps(t, fs, u);
  }
}
