/** The page polling controller: one callback at a time, one timer at a time. */
module Polling {
  import opened Options

  /** The controller's fields, the visibility of the page, the timers the browser still holds and the
      callbacks whose promise is still pending. */
  datatype Poll = Poll(
    timer: Option<nat>, running: bool, inFlight: bool, disposed: bool,
    hidden: bool, armed: set<nat>, calls: nat, nextTimer: nat)

  // ----- what the methods do, as functions of the state

  function Scheduled(p: Poll): Poll {
    if !p.running || p.disposed || p.hidden then p
    else p.(timer := Some(p.nextTimer), armed := p.armed + {p.nextTimer}, nextTimer := p.nextTimer + 1)
  }

  function Ran(p: Poll): Poll {
    if !p.running || p.disposed || p.hidden || p.inFlight then p else p.(inFlight := true, calls := p.calls + 1)
  }

  function Stopped(p: Poll): Poll {
    p.(running := false, timer := None, armed := if p.timer.Some? then p.armed - {p.timer.value} else p.armed)
  }

  function Started(p: Poll, now: bool): Poll {
    if p.disposed then p
    else
      var q := Stopped(p).(running := true);
      if now then Ran(q) else Scheduled(q)
  }

  function Disposed(p: Poll): Poll {
    if p.disposed then p else Stopped(p.(disposed := true))
  }

  // ----- the controller

  class PollingController {
    var timer: Option<nat>
    var running: bool
    var inFlight: bool
    var disposed: bool
    // the browser around it
    var hidden: bool
    var armed: set<nat>
    var calls: nat
    var nextTimer: nat

    ghost function State(): Poll
      reads this
    {
      Poll(timer, running, inFlight, disposed, hidden, armed, calls, nextTimer)
    }

    /** At most one callback in flight, at most one timer armed, never both; one of them while running. */
    ghost predicate Valid()
      reads this
    {
      Inv(State())
    }

    constructor (hidden: bool)
      ensures Valid() && State() == Poll(None, false, false, false, hidden, {}, 0, 0)
    {
      timer, running, inFlight, disposed := None, false, false, false;
      this.hidden, armed, calls, nextTimer := hidden, {}, 0, 0;
    }

    method Schedule()
      modifies this
      ensures State() == Scheduled(old(State()))
    {
      if !running || disposed || hidden {
        return;
      }
      timer := Some(nextTimer);
      armed := armed + {nextTimer};
      nextTimer := nextTimer + 1;
    }

    /** Starts the callback.  A callback that throws at once is settled by `Finish` right away. */
    method Run()
      modifies this
      ensures State() == Ran(old(State()))
    {
      if !running || disposed || hidden || inFlight {
        return;
      }
      inFlight := true;
      calls := calls + 1;
    }

    /** The callback's promise is settled: the next timer is armed if polling goes on. */
    method Finish()
      requires Valid() && calls > 0
      modifies this
      ensures Valid() && calls == 0 && (timer.Some? <==> running && !disposed && !hidden)
      ensures State() == Scheduled(old(State()).(calls := old(calls) - 1, inFlight := false))
    {
      calls := calls - 1;
      inFlight := false;
      Schedule();
    }

    /** The timer goes off and the callback starts in its place. */
    method TimerFires(id: nat)
      requires Valid() && id in armed
      modifies this
      ensures Valid() && armed == {} && (inFlight <==> !hidden)
      ensures State() == Ran(old(State()).(armed := old(armed) - {id}, timer := None))
    {
      armed := armed - {id};
      timer := None;
      Run();
    }

    /** Polling begins again from scratch.  The guarantee survives exactly if this is no delayed start
        while a callback is in flight. */
    method Start(runImmediately: bool)
      requires Valid() || Inv(State().(hidden := true)) // the page may just have been shown
      modifies this
      ensures Valid() <==> !StartsTwice(old(State()), Event.Start(runImmediately))
      ensures !disposed ==> running && (hidden || inFlight || timer.Some?)
      ensures !disposed && !hidden ==> if runImmediately then inFlight && timer == None else timer.Some?
      ensures disposed ==> State() == old(State())
      ensures State() == Started(old(State()), runImmediately)
    {
      if disposed {
        return;
      }
      Stop();
      running := true;
      if runImmediately {
        Run();
      } else {
        Schedule();
      }
    }

    /** No timer is left; a callback in flight is not interrupted, and will arm none. */
    method Stop()
      requires armed == (if timer.Some? then {timer.value} else {})
      modifies this
      ensures armed == {} && timer == None && !running && calls == old(calls)
      ensures old(Valid()) ==> Valid()
      ensures State() == Stopped(old(State()))
    {
      running := false;
      if timer.Some? {
        armed := armed - {timer.value};
        timer := None;
      }
    }

    /** Once and for all: nothing is armed, and nothing can be any more. */
    method Dispose()
      requires Valid()
      modifies this
      ensures Valid() && disposed && armed == {}
      ensures State() == Disposed(old(State()))
    {
      if disposed {
        return;
      }
      disposed := true;
      Stop();
    }

    /** A hidden page holds no timer; a page shown again polls at once, unless disposed. */
    method VisibilityChange(nowHidden: bool)
      requires Valid()
      modifies this
      ensures Valid() && hidden == nowHidden
      ensures hidden || disposed ==> armed == {}
      ensures !hidden && !disposed ==> running && inFlight
      ensures State() == Next(old(State()), Visibility(nowHidden))
    {
      hidden := nowHidden;
      if disposed {
        return;
      }
      if hidden {
        Stop();
      } else {
        Start(true);
      }
    }
  }

  // ----- runs

  /** Everything that can happen to a controller.  Calls that the callback itself makes are events
      between `Start`, `TimerFires` and `Settled`. */
  datatype Event =
    | Start(now: bool) | Stop | Dispose | Visibility(hidden: bool)
    | PageShow | TimerFires(id: nat) | Settled

  predicate Possible(p: Poll, e: Event) {
    match e
    case TimerFires(id) => id in p.armed
    case Settled => p.calls > 0
    case _ => true
  }

  function Next(p: Poll, e: Event): Poll {
    match e
    case Start(now) => Started(p, now)
    case Stop => Stopped(p)
    case Dispose => Disposed(p)
    case Visibility(hidden) =>
      var q := p.(hidden := hidden);
      if q.disposed then q else if hidden then Stopped(q) else Started(q, true)
    case PageShow => Started(p, true)
    case TimerFires(id) => Ran(p.(armed := p.armed - {id}, timer := None))
    case Settled => if p.calls == 0 then p else Scheduled(p.(calls := p.calls - 1, inFlight := false))
  }

  /** A delayed start while a callback is in flight arms a second timer. */
  predicate StartsTwice(p: Poll, e: Event) {
    e == Start(false) && p.inFlight && !p.disposed && !p.hidden
  }

  predicate Inv(p: Poll) {
    && (p.inFlight <==> p.calls == 1) && p.calls <= 1
    && p.armed == (if p.timer.Some? then {p.timer.value} else {})
    && (p.timer.Some? ==> p.running && !p.inFlight && !p.disposed && p.timer.value < p.nextTimer)
    && (p.running && !p.hidden && !p.disposed ==> p.inFlight || p.timer.Some?)
    && (p.disposed ==> !p.running)
  }

  /** The guarantee survives an event exactly when that event is no delayed start during a callback. */
  lemma StepIsExact(p: Poll, e: Event)
    requires Inv(p) && Possible(p, e)
    ensures Inv(Next(p, e)) <==> !StartsTwice(p, e)
  {
    if StartsTwice(p, e) {
      assert Next(p, e).timer == Some(p.nextTimer) && Next(p, e).inFlight;
    }
  }

  predicate Runs(p: Poll, es: seq<Event>, q: Poll)
    decreases es
  {
    if es == [] then p == q else Possible(p, es[0]) && !StartsTwice(p, es[0]) && Runs(Next(p, es[0]), es[1..], q)
  }

  /** Over all runs without such a start: at most one callback is in flight, at most one timer is armed,
      never both, and while the controller runs on a visible page one of them is there.  After disposal
      nothing is armed. */
  lemma OneAtATime(hidden: bool, es: seq<Event>, q: Poll)
    requires Runs(Poll(None, false, false, false, hidden, {}, 0, 0), es, q)
    ensures q.calls <= 1 && |q.armed| <= 1 && (q.calls == 1 ==> q.armed == {})
    ensures q.running && !q.hidden && !q.disposed ==> q.calls == 1 || q.armed != {}
    ensures q.disposed ==> q.armed == {}
  {
    RunKeeps(Poll(None, false, false, false, hidden, {}, 0, 0), es, q);
  }

  lemma {:induction false} RunKeeps(p: Poll, es: seq<Event>, q: Poll)
    requires Inv(p) && Runs(p, es, q)
    ensures Inv(q)
    decreases es
  {
    if es != [] {
      StepIsExact(p, es[0]);
      RunKeeps(Next(p, es[0]), es[1..], q);
    }
  }

  /** With such a start the controller ends up polling twice at once: two timers, one of them no longer
      known to `stop`. */
  lemma DelayedStartLeaksATimer()
    ensures var p := Poll(None, false, false, false, false, {}, 0, 0);
            var q := Next(Next(Next(Next(p, Start(true)), Start(false)), Settled), Stop);
            q.armed == {0} && q.timer == None && !q.running
  {
    var p0 := Poll(None, false, false, false, false, {}, 0, 0);
    var p1 := Next(p0, Start(true));
    var p2 := Next(p1, Start(false));
    assert p2.armed == {0} && p2.timer == Some(0);
    var p3 := Next(p2, Settled);
    assert p3.armed == {0, 1} && p3.timer == Some(1);
    assert Next(p3, Stop).armed == {0};
  }
}
