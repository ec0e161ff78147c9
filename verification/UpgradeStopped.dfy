/** An upgrade cut short in STOPPING before its backup was committed. */
module UpgradeStopped {
  import opened Options
  import opened Upgrade
  import opened UpgradeInvariant
  import opened UpgradeAftermath
  import opened UpgradeTheorems

  /** The job stopped in STOPPING without a complete backup; its recovery is due, under way, or over. */
  predicate Stopped(s: State) {
    var st := s.dev.status;
    && !Exempt(s.h) && Kept(s.dev, s.h) && !Loadable(s.dev.backups, st.job)
    && if st.phase.STOPPING? then s.pc.Idle? || s.pc == PC.Write(RecRolling)
       else st.from == Some(STOPPING) && (st.phase.FAILED? || (st.phase.ROLLING_BACK? && !st.pending))
  }

  /** Where a manager process can be while the job is like that. */
  predicate StoppedPlace(pc: PC) {
    match pc
    case Idle | ValSweepFirst | ValInspect | RecLoad | RecDropPartial | RecSweep | ValSweepFailed | Restart => true
    case Write(w) => w.ValStart? || w.RecRolling? || w.RecExhausted? || w.RecFailed? || w.FinVersion?
    case _ => false
  }

  lemma StoppedPlaced(s: State)
    requires Accounted(s) && Stopped(s)
    ensures StoppedPlace(s.pc)
  {
  }

  lemma StoppedStore(s: State, w: Write, seen: Version, ok: bool)
    requires Certain(s) && Counted(s) && Stopped(s) && s.pc == PC.Write(w) && StoppedPlace(s.pc) && !w.ValStart?
    ensures Stopped(Store(s, w, seen, ok))
  {
  }

  lemma StoppedFinish(s: State, seen: Version)
    requires Certain(s) && Counted(s) && Stopped(s) && StoppedPlace(s.pc) && !s.pc.Write? && CanFinish(s)
    ensures Stopped(Finish(s, seen))
  {
  }

  lemma StoppedThrown(s: State, code: Code, seen: Version)
    requires Certain(s) && Counted(s) && Stopped(s) && StoppedPlace(s.pc) && Enabled(s, Step(Raise(code), seen))
    ensures Stopped(Thrown(s, code, seen))
  {
  }

  lemma StoppedSwept(s: State, o: Outcome, seen: Version)
    requires Stopped(s) && o.Swept? && Enabled(s, Step(o, seen))
    ensures Stopped(Next(s, Step(o, seen)))
  {
  }

  lemma StoppedElse(s: State, e: Event)
    requires Placed(s) && Stopped(s) && StoppedPlace(s.pc) && Enabled(s, e)
    requires e.Step? ==> !e.outcome.Done? && !e.outcome.RaiseLate? && !e.outcome.Raise? && !e.outcome.Swept?
    ensures Stopped(Next(s, e))
  {
  }

  lemma StoppedStays(s: State, e: Event)
    requires Accounted(s) && Stopped(s) && Enabled(s, e) && Next(s, e).dev.status.job == s.dev.status.job
    ensures Stopped(Next(s, e))
  {
    StoppedPlaced(s);
    if e.Step? && (e.outcome.Done? || e.outcome.RaiseLate?) {
      if s.pc.Write? {
        StoppedStore(s, s.pc.w, e.seen, e.outcome.Done?);
      } else {
        StoppedFinish(s, e.seen);
      }
    } else if e.Step? && e.outcome.Raise? {
      StoppedThrown(s, e.outcome.code, e.seen);
    } else if e.Step? && e.outcome.Swept? {
      StoppedSwept(s, e.outcome, e.seen);
    } else {
      StoppedElse(s, e);
    }
  }

  /** Jobs only ever follow one another. */
  lemma {:induction false} StoppedAlong(s: State, es: seq<Event>, t: State)
    requires Accounted(s) && Stopped(s) && Runs(s, es, t)
    ensures t.dev.status.job >= s.dev.status.job
    ensures t.dev.status.job == s.dev.status.job ==> Stopped(t)
    decreases es
  {
    RestoresCounted(s, es, t);
    if es != [] {
      var next := Next(s, es[0]);
      AccountedKept(s, es[0]);
      RestoresCounted(next, es[1..], t);
      assert Runs(next, [], next);
      assert Runs(s, [es[0]], next) by { assert [es[0]][1..] == []; }
      RestoresCounted(s, [es[0]], next);
      if next.dev.status.job == s.dev.status.job {
        StoppedStays(s, es[0]);
        StoppedAlong(next, es[1..], t);
      }
    }
  }

  /** A crash in STOPPING before the backup was committed: through any further crashes, reboots, recoveries
      and service starts of this job nothing is ever touched, no restore is ever announced, and the job is
      still in STOPPING, being retried, or FAILED. */
  lemma StoppedForGood(s: State, es: seq<Event>, t: State, fs: seq<Event>, u: State)
    requires Init(s) && Runs(s, es, t) && !t.h.orphaned
    requires t.dev.status.phase.STOPPING? && t.pc.Idle? && !Loadable(t.dev.backups, t.dev.status.job)
    requires Runs(t, fs, u) && u.dev.status.job == t.dev.status.job
    ensures Kept(u.dev, u.h) && !Exempt(u.h) && !Loadable(u.dev.backups, u.dev.status.job)
    ensures u.dev.status.phase.STOPPING? || u.dev.status.phase.FAILED? || u.dev.status.phase.ROLLING_BACK?
    ensures !Restored(u.dev.status)
  {
    Reached(s, es, t);
    StoppedAlong(t, fs, u);
  }
}
