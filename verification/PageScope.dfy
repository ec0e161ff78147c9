/** What a page controller holds while it is mounted, and how all of it is given back. */
module PageScope {
  /** Something the browser keeps alive for a scope. */
  datatype Handle = Listener(target: nat, event: nat, callback: nat) | Timeout(id: nat) | Interval(id: nat)
  datatype Disposer = Release(handle: Handle) | Callback(id: nat)

  datatype Scope = Scope(
    disposed: bool, disposers: seq<Disposer>, aborts: set<nat>, // requests with a controller of the scope's own
    live: set<Handle>, requests: set<nat>, // what the browser holds, and the requests under way
    next: nat,
    given: seq<nat>, ran: seq<nat>, // callbacks handed to onDispose, and callbacks run, in order
    borrowed: set<nat>) // requests begun with a signal of the caller's

  const Fresh := Scope(false, [], {}, {}, {}, 0, [], [], {})

  // ----- what the methods do

  function Applied(s: Scope, d: Disposer): Scope {
    match d
    case Release(h) => s.(live := s.live - {h})
    case Callback(id) => s.(ran := s.ran + [id])
  }

  function Kept(s: Scope, d: Disposer): Scope {
    if s.disposed then Applied(s, d) else s.(disposers := s.disposers + [d])
  }

  function Held(s: Scope, h: Handle): Scope {
    Kept(s.(live := s.live + {h}), Release(h))
  }

  function Without(ds: seq<Disposer>, d: Disposer): seq<Disposer> {
    if ds == [] then []
    else if ds[0] == d then ds[1..]
    else [ds[0]] + Without(ds[1..], d)
  }

  function Drained(s: Scope): Scope
    decreases |s.disposers|
  {
    if s.disposers == [] then s
    else
      var last := |s.disposers| - 1;
      Drained(Applied(s.(disposers := s.disposers[..last]), s.disposers[last]))
  }

  datatype Event =
    | OnDispose(id: nat) | Listen(handle: Handle) | SetTimeout | SetInterval
    | Fires(id: nat) | Fetch(active: bool, ownSignal: bool) | Settles(id: nat) | Dispose

  /** `active` is what the navigator answers, and never true of a disposed scope. */
  predicate Possible(s: Scope, e: Event) {
    match e
    case Listen(h) => h.Listener?
    case Fires(id) => Timeout(id) in s.live
    case Fetch(active, _) => active ==> !s.disposed
    case Settles(id) => id in s.requests
    case _ => true
  }

  function Next(s: Scope, e: Event): Scope {
    match e
    case OnDispose(id) => Kept(s.(given := s.given + [id]), Callback(id))
    case Listen(h) => Held(s, h)
    case SetTimeout => Held(s.(next := s.next + 1), Timeout(s.next))
    case SetInterval => Held(s.(next := s.next + 1), Interval(s.next))
    case Fires(id) => s.(live := s.live - {Timeout(id)}, disposers := Without(s.disposers, Release(Timeout(id))))
    case Fetch(active, ownSignal) =>
      if !active then s
      else s.(next := s.next + 1, requests := s.requests + {s.next}, aborts := if ownSignal then s.aborts
          else s.aborts + {s.next},
              borrowed := if ownSignal then s.borrowed + {s.next} else s.borrowed)
    case Settles(id) => s.(requests := s.requests - {id}, aborts := s.aborts - {id})
    case Dispose =>
      if s.disposed then s
      else Drained(s.(disposed := true, requests := s.requests - s.aborts, aborts := {}))
  }

  // ----- the class

  class PageScopeObject {
    var disposed: bool
    var disposers: seq<Disposer>
    var aborts: set<nat>
    var live: set<Handle>
    var requests: set<nat>
    var next: nat
    ghost var given: seq<nat>
    ghost var ran: seq<nat>
    ghost var borrowed: set<nat>

    ghost function State(): Scope
      reads this
    {
      Scope(disposed, disposers, aborts, live, requests, next, given, ran, borrowed)
    }

    /** Everything alive has its disposer, in the order in which it will be given back. */
    ghost predicate Valid()
      reads this
    {
      Inv(State())
    }

    constructor ()
      ensures Valid() && State() == Fresh
    {
      disposed, disposers, aborts, live, requests, next := false, [], {}, {}, {}, 0;
      given, ran, borrowed := [], [], {};
    }

    method Apply(d: Disposer)
      modifies this
      ensures State() == Applied(old(State()), d)
    {
      match d
      case Release(h) => live := live - {h};
      case Callback(id) => ran := ran + [id];
    }

    method Keep(d: Disposer)
      modifies this
      ensures State() == Kept(old(State()), d)
    {
      if disposed {
        Apply(d);
      } else {
        disposers := disposers + [d];
      }
    }

    /** The callback is run at once if the scope is disposed already, and kept otherwise. */
    method OnDispose(id: nat)
      requires Valid()
      modifies this
      ensures Valid() && ran == (if disposed then old(ran) + [id] else old(ran)) && live == old(live)
      ensures State() == Next(old(State()), Event.OnDispose(id))
    {
      KeepKeeps(State(), id);
      given := given + [id];
      Keep(Callback(id));
    }

    /** The listener is there, unless the scope is disposed. */
    method Listen(h: Handle)
      requires Valid() && h.Listener?
      modifies this
      ensures Valid() && (h in live <==> !disposed) && live - {h} == old(live) - {h}
      ensures State() == Next(old(State()), Event.Listen(h))
    {
      KeptKeeps(State(), h);
      live := live + {h};
      Keep(Release(h));
    }

    method SetTimeout() returns (timer: nat)
      requires Valid()
      modifies this
      ensures Valid() && Timeout(timer) !in old(live) && live == old(live) + if disposed then {} else {Timeout(timer)}
      ensures State() == Next(old(State()), Event.SetTimeout) && timer == old(next)
    {
      KeptKeeps(State(), Timeout(next));
      timer := next;
      next := next + 1;
      live := live + {Timeout(timer)};
      Keep(Release(Timeout(timer)));
    }

    method SetInterval() returns (timer: nat)
      requires Valid()
      modifies this
      ensures Valid() && Interval(timer) !in old(live) && live == old(live) + if disposed then {} else {Interval(timer)}
      ensures State() == Next(old(State()), Event.SetInterval) && timer == old(next)
    {
      KeptKeeps(State(), Interval(next));
      timer := next;
      next := next + 1;
      live := live + {Interval(timer)};
      Keep(Release(Interval(timer)));
    }

    /** A timeout that goes off takes its own disposer out of the list. */
    method TimerFires(id: nat)
      requires Valid() && Timeout(id) in live
      modifies this
      ensures Valid() && live == old(live) - {Timeout(id)}
      ensures State() == Next(old(State()), Fires(id))
    {
      FiresKeeps(State(), id);
      live := live - {Timeout(id)};
      Forget(Release(Timeout(id)));
    }

    method Forget(d: Disposer)
      modifies this`disposers
      ensures disposers == Without(old(disposers), d)
    {
      var index := 0;
      while index < |disposers| && disposers[index] != d
        invariant index <= |disposers|
        invariant Without(disposers, d) == disposers[..index] + Without(disposers[index..], d)
      {
        assert disposers[..index + 1] == disposers[..index] + [disposers[index]];
        index := index + 1;
      }
      if index < |disposers| {
        disposers := disposers[..index] + disposers[index + 1..];
      } else {
        assert disposers[..index] == disposers;
      }
    }

    /** The request is under way, and the scope's to abort unless it came with a signal of the caller's. */
    method Fetch(active: bool, ownSignal: bool) returns (request: int)
      requires Valid() && (active ==> !disposed)
      modifies this
      ensures Valid() && (active ==> request in requests && (request in aborts <==> !ownSignal))
      ensures State() == Next(old(State()), Event.Fetch(active, ownSignal)) && request == if active then old(next)
              else -1
    {
      if !active {
        return -1;
      }
      request := next;
      if ownSignal {
        borrowed := borrowed + {next};
      } else {
        aborts := aborts + {next};
      }
      requests := requests + {next};
      next := next + 1;
    }

    /** Everything is given back, last first. */
    method Dispose()
      requires Valid()
      modifies this
      ensures Valid() && disposed && live == {} && disposers == [] && requests <= borrowed
      ensures !old(disposed) ==> ran == Reversed(given)
      ensures State() == Next(old(State()), Event.Dispose)
    {
      DisposeKeeps(State());
      Close();
    }

    method Close()
      modifies this
      ensures State() == Next(old(State()), Event.Dispose)
    {
      if disposed {
        return;
      }
      disposed := true;
      requests := requests - aborts;
      aborts := {};
      Drain();
    }

    method Drain()
      modifies this
      ensures State() == Drained(old(State()))
    {
      ghost var start := State();
      while disposers != []
        invariant Drained(State()) == Drained(start)
        decreases |disposers|
      {
        var last := |disposers| - 1;
        var disposer := disposers[last];
        disposers := disposers[..last];
        Apply(disposer);
      }
    }
  }

  // ----- what holds over every run

  function Callbacks(ds: seq<Disposer>): seq<nat> {
    if ds == [] then []
    else Callbacks(ds[..|ds| - 1]) + match ds[|ds| - 1] case Callback(id) => [id] case Release(_) => []
  }

  function Reversed(s: seq<nat>): seq<nat> {
    if s == [] then [] else [s[|s| - 1]] + Reversed(s[..|s| - 1])
  }

  /** Everything alive has a disposer that releases it; timers are told apart; callbacks run once. */
  ghost predicate Inv(s: Scope) {
    && (forall h :: h in s.live <==> Release(h) in s.disposers)
    && (forall h :: h in s.live && !h.Listener? ==> h.id < s.next)
    && (forall r :: r in s.requests ==> r < s.next)
    && Single(s.disposers)
    && s.aborts <= s.requests <= s.aborts + s.borrowed
    && (s.disposed ==> s.disposers == [] && s.aborts == {} && multiset(s.ran) == multiset(s.given))
    && (!s.disposed ==> s.ran == [] && Callbacks(s.disposers) == s.given)
  }

  /** Draining runs the callbacks last first, and leaves nothing to dispose of. */
  lemma {:induction false} DrainedRuns(s: Scope)
    ensures var t := Drained(s);
            && t.ran == s.ran + Reversed(Callbacks(s.disposers))
            && t == s.(disposers := [], live := t.live, ran := t.ran)
    decreases |s.disposers|
  {
    if s.disposers != [] {
      var last := |s.disposers| - 1;
      var init, d := s.disposers[..last], s.disposers[last];
      DrainedRuns(Applied(s.(disposers := init), d));
      match d
      case Callback(id) =>
        assert Callbacks(s.disposers)[..|Callbacks(s.disposers)| - 1] == Callbacks(init);
        assert s.ran + [id] + Reversed(Callbacks(init)) == s.ran + ([id] + Reversed(Callbacks(init)));
      case Release(_) =>
        assert Callbacks(s.disposers) == Callbacks(init);
    } else {
      assert s.ran + [] == s.ran;
    }
  }

  lemma {:induction false} DrainedReleases(s: Scope)
    ensures forall h :: h in Drained(s).live <==> h in s.live && Release(h) !in s.disposers
    decreases |s.disposers|
  {
    if s.disposers != [] {
      var last := |s.disposers| - 1;
      DrainedReleases(Applied(s.(disposers := s.disposers[..last]), s.disposers[last]));
      assert s.disposers == s.disposers[..last] + [s.disposers[last]];
    }
  }

  lemma {:induction false} ReversedSame(s: seq<nat>)
    ensures multiset(Reversed(s)) == multiset(s)
  {
    if s != [] {
      ReversedSame(s[..|s| - 1]);
      assert s == s[..|s| - 1] + [s[|s| - 1]];
    }
  }

  lemma {:induction false} CallbacksWithout(ds: seq<Disposer>, h: Handle)
    ensures Callbacks(Without(ds, Release(h))) == Callbacks(ds)
    decreases |ds|
  {
    if ds != [] {
      CallbacksSplit([ds[0]], ds[1..]);
      assert [ds[0]] + ds[1..] == ds;
      assert Callbacks([ds[0]]) == match ds[0] case Callback(id) => [id] case Release(_) => [];
      if ds[0] != Release(h) {
        CallbacksWithout(ds[1..], h);
        CallbacksSplit([ds[0]], Without(ds[1..], Release(h)));
      }
    }
  }

  lemma {:induction false} CallbacksSplit(a: seq<Disposer>, b: seq<Disposer>)
    ensures Callbacks(a + b) == Callbacks(a) + Callbacks(b)
    decreases |b|
  {
    if b == [] {
      assert a + b == a;
    } else {
      CallbacksSplit(a, b[..|b| - 1]);
      assert (a + b)[..|a + b| - 1] == a + b[..|b| - 1];
    }
  }

  /** Timers have one disposer each. */
  ghost predicate Single(ds: seq<Disposer>) {
    forall i, j :: 0 <= i < j < |ds| && ds[i].Release? && !ds[i].handle.Listener? ==> ds[i] != ds[j]
  }

  lemma {:induction false} WithoutExact(ds: seq<Disposer>, h: Handle)
    requires Single(ds) && !h.Listener?
    ensures Single(Without(ds, Release(h)))
    ensures forall d :: d in Without(ds, Release(h)) <==> d in ds && d != Release(h)
    decreases |ds|
  {
    if ds != [] {
      var rest := ds[1..];
      assert forall d :: d in ds <==> d == ds[0] || d in rest;
      assert Single(rest);
      WithoutExact(rest, h);
      if ds[0] == Release(h) {
        assert forall i :: 0 <= i < |rest| ==> rest[i] == ds[i + 1];
      } else {
        var less := Without(rest, Release(h));
        assert Without(ds, Release(h)) == [ds[0]] + less;
        forall j | 0 <= j < |less| && ds[0].Release? && !ds[0].handle.Listener? ensures less[j] != ds[0] {
          assert less[j] in rest;
          var m :| 0 <= m < |rest| && rest[m] == less[j];
          assert ds[m + 1] == rest[m];
        }
      }
    }
  }

  lemma KeptKeeps(s: Scope, h: Handle)
    requires Inv(s) && (h.Listener? || h.id == s.next)
    ensures Inv(Held(if h.Listener? then s else s.(next := s.next + 1), h))
  {
  }

  lemma KeepKeeps(s: Scope, id: nat)
    requires Inv(s)
    ensures Inv(Next(s, OnDispose(id)))
  {
    if !s.disposed {
      assert (s.disposers + [Callback(id)])[..|s.disposers|] == s.disposers;
    }
  }

  lemma FiresKeeps(s: Scope, id: nat)
    requires Inv(s) && Timeout(id) in s.live
    ensures Inv(Next(s, Fires(id)))
  {
    WithoutExact(s.disposers, Timeout(id));
    CallbacksWithout(s.disposers, Timeout(id));
  }

  lemma DisposeKeeps(s: Scope)
    requires Inv(s)
    ensures Inv(Next(s, Dispose))
    ensures var t := Next(s, Dispose);
            && t.disposed && t.live == {} && t.disposers == [] && t.requests <= t.borrowed && t.given == s.given
            && (!s.disposed ==> t.ran == Reversed(s.given))
  {
    if s.disposed {
      assert forall h :: h !in s.live;
    } else {
      var start := s.(disposed := true, requests := s.requests - s.aborts, aborts := {});
      DrainedRuns(start);
      DrainedReleases(start);
      ReversedSame(s.given);
      assert forall h :: h !in Drained(start).live;
    }
  }

  lemma InvKept(s: Scope, e: Event)
    requires Inv(s) && Possible(s, e)
    ensures Inv(Next(s, e))
  {
    match e
    case OnDispose(id) => KeepKeeps(s, id);
    case Listen(h) => KeptKeeps(s, h);
    case SetTimeout => KeptKeeps(s, Timeout(s.next));
    case SetInterval => KeptKeeps(s, Interval(s.next));
    case Fires(id) => FiresKeeps(s, id);
    case Dispose => DisposeKeeps(s);
    case _ =>
  }

  predicate Runs(s: Scope, es: seq<Event>, t: Scope)
    decreases es
  {
    if es == [] then s == t else Possible(s, es[0]) && Runs(Next(s, es[0]), es[1..], t)
  }

  /** Whatever a controller does with its scope, before or after: once the scope has been disposed, no
      listener or timer is left, the only requests still under way are those begun with a signal of the
      caller's, and every callback has run exactly as often as it was given. */
  lemma {:induction false} NothingSurvives(s: Scope, es: seq<Event>, t: Scope)
    requires Inv(s) && Runs(s, es, t)
    ensures Inv(t)
    ensures s.disposed || Dispose in es ==>
              t.disposed && t.live == {} && t.disposers == [] && t.requests <= t.borrowed
                  && multiset(t.ran) == multiset(t.given)
    decreases es
  {
    if es == [] {
      assert s.disposed ==> forall h :: h !in s.live;
    } else {
      InvKept(s, es[0]);
      if es[0].Dispose? {
        DisposeKeeps(s);
      }
      StaysDisposed(s, es[0]);
      NothingSurvives(Next(s, es[0]), es[1..], t);
    }
  }

  lemma StaysDisposed(s: Scope, e: Event)
    ensures s.disposed ==> Next(s, e).disposed
  {
  }
}
