/** What is left of a job when recovery gives up, or when it deletes the backup it needed. */
module UpgradeAftermath {
  import opened Options
  import opened Upgrade
  import opened UpgradeInvariant
  import Retention

  /** Recovery gave up before the old program was back: the job is over, and its backup is still there. */
  predicate GivenUp(s: State) {
    && s.dev.status.phase.FAILED? && !s.dev.status.required && Saved(s.dev, s.h)
    && match s.pc
       case Idle | ValSweepFirst | ValInspect => true
       case RecSweep => s.memo == s.dev.status
       case Write(w) => w.ValStart? || (w.FinVersion? && s.memo == s.dev.status)
       case _ => false
  }

  /** Recovery deleted the backup of an upgrade that had stopped in STOPPING: no restore can come any more. */
  predicate Stranded(s: State) {
    var d, m := s.dev, s.memo;
    && d.status.from == Some(STOPPING) && d.status.job != 0 && !Loadable(d.backups, d.status.job)
    && (d.status.phase.FAILED? || (d.status.phase.ROLLING_BACK? && !d.status.pending))
    && (d.status.backup == d.status.job || (d.status.backup == 0 && d.status.phase.FAILED? && !d.status.required))
    && match s.pc
       case Idle | ValSweepFirst | ValInspect => true
       case RecSweep => m == d.status
       case RecLoad => !d.status.pending && m == d.status && m.backup == m.job && d.status.phase.ROLLING_BACK?
       case RecDropPartial => Kin(m, d.status) && m.backup == m.job && d.status.phase.ROLLING_BACK?
       case Write(w) => (
         match w
         case ValStart => true
         case RecRolling => m == d.status && m.backup == m.job
         case RecExhausted | FinVersion => m == d.status
         case RecFailed(_) => Kin(m, d.status) && d.status.phase.ROLLING_BACK?
         case _ => false)
       case _ => false
  }

  /** Every job that began on an undamaged device is certain, given up or stranded. */
  predicate Accounted(s: State) {
    && Counted(s) && Placed(s)
    && (s.h.orphaned
        || if s.h.lost then Stranded(s)
           else if s.h.gaveUp then GivenUp(s)
           else Good(s.dev, s.h) && PlaceGood(s))
  }

  lemma GivenUpStore(s: State, w: Write, seen: Version, ok: bool)
    requires Counted(s) && GivenUp(s) && s.pc == PC.Write(w) && !w.ValStart?
    ensures GivenUp(Store(s, w, seen, ok))
  {
  }

  lemma GivenUpStep(s: State, o: Outcome, seen: Version)
    requires Counted(s) && GivenUp(s) && Enabled(s, Step(o, seen)) && !o.Swept? && (s.pc.Write? ==>
              o.Raise?) && s.pc != PC.Write(ValStart)
    ensures GivenUp(Next(s, Step(o, seen)))
  {
  }

  lemma GivenUpSweep(s: State, o: Outcome, seen: Version)
    requires GivenUp(s) && Enabled(s, Step(o, seen)) && o.Swept?
    ensures GivenUp(Next(s, Step(o, seen)))
  {
    SweepSpares(s, o.order, o.gone, o.damaged);
  }

  lemma GivenUpElse(s: State, e: Event)
    requires GivenUp(s) && Enabled(s, e) && !e.Step?
    ensures GivenUp(Next(s, e))
  {
  }

  lemma GivenUpStays(s: State, e: Event)
    requires Counted(s) && GivenUp(s) && Enabled(s, e) && !(e.Step? && s.pc == PC.Write(ValStart))
    ensures GivenUp(Next(s, e))
  {
    if !e.Step? {
      GivenUpElse(s, e);
    } else if e.outcome.Swept? {
      GivenUpSweep(s, e.outcome, e.seen);
    } else if s.pc.Write? && !e.outcome.Raise? {
      GivenUpStore(s, s.pc.w, e.seen, e.outcome.Done?);
    } else {
      GivenUpStep(s, e.outcome, e.seen);
    }
  }

  lemma StrandedStore(s: State, w: Write, seen: Version, ok: bool)
    requires Counted(s) && Stranded(s) && s.pc == PC.Write(w) && !w.ValStart?
    ensures Stranded(Store(s, w, seen, ok))
  {
  }

  lemma StrandedStep(s: State, o: Outcome, seen: Version)
    requires Counted(s) && Stranded(s) && Enabled(s, Step(o, seen)) && (s.pc.Write? ==>
              o.Raise?) && s.pc != PC.Write(ValStart)
    ensures Stranded(Next(s, Step(o, seen)))
  {
  }

  lemma StrandedElse(s: State, e: Event)
    requires Stranded(s) && Enabled(s, e) && !e.Step?
    ensures Stranded(Next(s, e))
  {
  }

  lemma StrandedStays(s: State, e: Event)
    requires Counted(s) && Stranded(s) && Enabled(s, e) && !(e.Step? && s.pc == PC.Write(ValStart))
    ensures Stranded(Next(s, e))
  {
    if e.Step? && s.pc.Write? && !e.outcome.Raise? {
      StrandedStore(s, s.pc.w, e.seen, e.outcome.Done?);
    } else if e.Step? {
      StrandedStep(s, e.outcome, e.seen);
    } else {
      StrandedElse(s, e);
    }
  }

  /** The writes with which recovery ends a job for good. */
  predicate Ends(w: Write) {
    w.RecExhausted? || w.RecFailed? || w.FinFailed?
  }

  lemma FlagsOfStore(s: State, w: Write, seen: Version, ok: bool)
    requires s.pc == PC.Write(w) && !w.ValStart? && !Exempt(s.h) && Exempt(Store(s, w, seen, ok).h)
    ensures Ends(w) && !Kept(s.dev, s.h)
    ensures var h := Store(s, w, seen, ok).h; h.gaveUp && !h.lost && !h.orphaned
  {
  }

  lemma FlagsOfFinish(s: State, seen: Version)
    requires CanFinish(s) && !s.pc.Write? && !Exempt(s.h) && Exempt(Finish(s, seen).h)
    ensures s.pc.RecDropPartial? && Loadable(s.dev.backups, s.memo.backup) && !Kept(s.dev, s.h)
    ensures var h := Finish(s, seen).h; h.lost && !h.gaveUp && !h.orphaned
  {
  }

  lemma FlagsOfRest(s: State, e: Event)
    requires Enabled(s, e) && !(e.Step? && s.pc.Write? && !e.outcome.Raise?) && !(e.Step? && e.outcome.Done?)
    ensures Exempt(Next(s, e).h) ==> Exempt(s.h)
  {
  }

  lemma GivesUp(s: State, w: Write, seen: Version, ok: bool)
    requires Certain(s) && Counted(s) && s.pc == PC.Write(w) && Ends(w) && !Kept(s.dev, s.h)
    requires Store(s, w, seen, ok).h.gaveUp
    ensures GivenUp(Store(s, w, seen, ok))
  {
  }

  lemma Strands(s: State, seen: Version)
    requires Certain(s) && Counted(s) && s.pc.RecDropPartial?
    ensures Stranded(Finish(s, seen))
  {
  }

  lemma CertainTurns(s: State, e: Event)
    requires Certain(s) && Counted(s) && Enabled(s, e) && !(e.Step? && s.pc == PC.Write(ValStart))
    ensures var t := Next(s, e);
            Exempt(t.h) ==> !t.h.orphaned && if t.h.lost then Stranded(t) else GivenUp(t)
  {
    if Exempt(Next(s, e).h) {
      if e.Step? && s.pc.Write? && !e.outcome.Raise? {
        FlagsOfStore(s, s.pc.w, e.seen, e.outcome.Done?);
        GivesUp(s, s.pc.w, e.seen, e.outcome.Done?);
      } else if e.Step? && e.outcome.Done? {
        FlagsOfFinish(s, e.seen);
        Strands(s, e.seen);
      } else {
        FlagsOfRest(s, e);
        assert false;
      }
    }
  }

  lemma ValStartAccounts(s: State, e: Event)
    requires Inv(s) && Enabled(s, e) && e.Step? && s.pc == PC.Write(ValStart)
    ensures var t := Next(s, e); t.h.orphaned || t.h == s.h.(raised := t.h.raised) || !Exempt(t.h)
    ensures var t := Next(s, e); t.h.lost && !t.h.orphaned ==> t.pc.Idle? && t.dev == s.dev
    ensures var t := Next(s, e); t.h.gaveUp && !t.h.orphaned ==> t.pc.Idle? && t.dev == s.dev
  {
  }

  lemma AccountedKept(s: State, e: Event)
    requires Accounted(s) && Enabled(s, e)
    ensures Accounted(Next(s, e))
  {
    InvKept(s, e);
    if e.Step? && s.pc == PC.Write(ValStart) {
      ValStartAccounts(s, e);
    } else if s.h.orphaned {
      OrphanedStays(s, e);
    } else if s.h.lost {
      StrandedStays(s, e);
      LostStays(s, e);
    } else if s.h.gaveUp {
      GivenUpStays(s, e);
      GaveUpStays(s, e);
    } else {
      CertainTurns(s, e);
    }
  }

  lemma OrphanedStays(s: State, e: Event)
    requires Enabled(s, e) && !(e.Step? && s.pc == PC.Write(ValStart))
    ensures Next(s, e).h.orphaned == s.h.orphaned
  {
  }

  lemma LostStays(s: State, e: Event)
    requires Enabled(s, e) && !(e.Step? && s.pc == PC.Write(ValStart)) && s.h.lost
    ensures Next(s, e).h.lost && Next(s, e).h.orphaned == s.h.orphaned
  {
  }

  lemma GaveUpStays(s: State, e: Event)
    requires GivenUp(s) && Enabled(s, e) && !(e.Step? && s.pc == PC.Write(ValStart)) && s.h.gaveUp
    ensures Next(s, e).h.gaveUp && Next(s, e).h.lost == s.h.lost && Next(s, e).h.orphaned == s.h.orphaned
  {
  }
}
