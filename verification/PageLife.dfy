/** Navigation and page scopes together: what a page's controllers hold is gone once the page is left. */
module PageLife {
  import opened Options
  import Navigation
  import PageScope

  type Mount = (Navigation.Key, nat) // a controller, and the version it was mounted for

  datatype Life = Life(nav: Navigation.Nav, scopes: map<Mount, PageScope.Scope>)

  /** The controller is mounted, for this version. */
  predicate Holds(n: Navigation.Nav, m: Mount) {
    m.0 in n.active && n.active[m.0].version == m.1
  }

  /** What `isActive` of its scope answers. */
  predicate IsActive(p: Life, m: Mount)
    requires m in p.scopes
  {
    !p.scopes[m].disposed && m.1 == p.nav.version && Holds(p.nav, m)
  }

  datatype Event =
    | Navigating(event: Navigation.Event)
    | Using(mount: Mount, use: PageScope.Event) // a controller uses its scope, even one of a page long left

  predicate Possible(p: Life, e: Event) {
    match e
    case Navigating(event) => Navigation.Possible(p.nav, event)
    case Using(m, use) =>
      && m in p.scopes && !use.Dispose? && PageScope.Possible(p.scopes[m], use)
      && (use.Fetch? ==> (use.active <==> IsActive(p, m)))
  }

  /** The scope of a mount after the navigator has moved: new, kept, or disposed with the controller. */
  function Moved(p: Life, n: Navigation.Nav, m: Mount): PageScope.Scope {
    var s := if m in p.scopes then p.scopes[m] else PageScope.Fresh;
    if Holds(n, m) then s else PageScope.Next(s, PageScope.Dispose)
  }

  function Mounts(n: Navigation.Nav): set<Mount> {
    set i | 0 <= i < |n.mounts| :: n.mounts[i]
  }

  function Next(p: Life, e: Event): Life
    requires Possible(p, e)
  {
    match e
    case Navigating(event) =>
      var n := Navigation.Next(p.nav, event);
      Life(n, map m | m in Mounts(n) :: Moved(p, n, m))
    case Using(m, use) => p.(scopes := p.scopes[m := PageScope.Next(p.scopes[m], use)])
  }

  /** Every mount ever made has its scope, and a scope lives exactly as long as its controller is mounted. */
  ghost predicate Inv(p: Life) {
    && Navigation.Inv(p.nav) && p.scopes.Keys == Mounts(p.nav)
    && forall m :: m in p.scopes ==> PageScope.Inv(p.scopes[m]) && (p.scopes[m].disposed <==> !Holds(p.nav, m))
  }

  predicate Since(mounts: seq<Mount>, from: nat, m: Mount) {
    exists i :: from <= i < |mounts| && mounts[i] == m
  }

  /** What the navigator can do to the mounts: what is newly held was mounted just now. */
  ghost predicate Grows(n: Navigation.Nav, m: Navigation.Nav) {
    && n.mounts <= m.mounts
    && forall k :: Holds(m, k) && !Holds(n, k) ==> Since(m.mounts, |n.mounts|, k)
  }

  lemma OneTriedGrows(n: Navigation.Nav, key: Navigation.Key, throws: set<Navigation.Key>)
    ensures Grows(n, Navigation.Tried(n, key, throws))
  {
    var m := Navigation.Tried(n, key, throws);
    if m.mounts != n.mounts {
      assert m.mounts[|n.mounts|] == (key, n.version);
      assert Since(m.mounts, |n.mounts|, (key, n.version));
      forall k | Holds(m, k) && !Holds(n, k) ensures k == (key, n.version) {
      }
    }
  }

  lemma GrowsOn(n: Navigation.Nav, m: Navigation.Nav, o: Navigation.Nav)
    requires Grows(n, m) && Grows(m, o)
    ensures Grows(n, o)
  {
    forall k | Holds(o, k) && !Holds(n, k) ensures Since(o.mounts, |n.mounts|, k) {
      if Holds(m, k) {
        var i :| |n.mounts| <= i < |m.mounts| && m.mounts[i] == k;
        assert o.mounts[i] == k;
      }
    }
  }

  lemma {:induction false} TriedGrows(n: Navigation.Nav, keys: seq<Navigation.Key>, throws: set<Navigation.Key>)
    ensures Grows(n, Navigation.AllTried(n, keys, throws))
  {
    if keys != [] {
      var init, last := keys[..|keys| - 1], keys[|keys| - 1];
      TriedGrows(n, init, throws);
      var before := Navigation.AllTried(n, init, throws);
      OneTriedGrows(before, last, throws);
      GrowsOn(n, before, Navigation.Tried(before, last, throws));
    }
  }

  /** Activation, after changes that concern neither what is mounted nor what was. */
  lemma ActivatedGrows(n: Navigation.Nav, m: Navigation.Nav, throws: set<Navigation.Key>)
    requires m.active == n.active && m.mounts == n.mounts
    ensures Grows(n, Navigation.Activated(m, throws))
  {
    TriedGrows(m, m.order, throws);
  }

  lemma AdvancedGrows(n: Navigation.Nav, v: nat, news: Navigation.News, throws: set<Navigation.Key>)
    requires v in n.loads
    ensures Grows(n, Navigation.Advanced(n, v, news, throws))
  {
    if v == n.version && !news.Fails? && n.loads[v].stage.AwaitPaint? {
      ActivatedGrows(n, n.(loads := n.loads - {v}, busy := false, target := None), throws);
    } else {
      assert Navigation.Advanced(n, v, news, throws).active == n.active;
    }
  }

  lemma NavigatedGrows(n: Navigation.Nav, href: Navigation.Url, sameOrigin: bool, push: bool, force: bool,
      setup: Navigation.Setup)
    ensures Grows(n, Navigation.Navigated(n, href, sameOrigin, push, force, setup))
  {
  }

  lemma NavigatorGrows(n: Navigation.Nav, e: Navigation.Event)
    requires Navigation.Possible(n, e)
    ensures Grows(n, Navigation.Next(n, e))
  {
    match e
    case Register(key, pages, throws) => ActivatedGrows(n, Navigation.Registered(n, key, pages), throws);
    case Advance(v, news, throws) => AdvancedGrows(n, v, news, throws);
    case PageShow(throws) => ActivatedGrows(n, n.(busy := false, target := None, parked := false), throws);
    case Navigate(href, sameOrigin, force, setup) => NavigatedGrows(n, href, sameOrigin, true, force, setup);
    case PopState(url, setup) => NavigatedGrows(n.(url := url), url, true, false, true, setup);
    case PageHide =>
  }

  /** Nothing is ever held again once it was let go. */
  lemma NoReturn(n: Navigation.Nav, m: Navigation.Nav, k: Mount)
    requires Grows(n, m) && Navigation.Once(m.mounts) && k in Mounts(n) && !Holds(n, k)
    ensures !Holds(m, k)
  {
    var i :| 0 <= i < |n.mounts| && n.mounts[i] == k;
    assert m.mounts[i] == k;
  }

  lemma NavigatingKeeps(p: Life, event: Navigation.Event)
    requires Inv(p) && Navigation.Possible(p.nav, event)
    ensures Inv(Next(p, Navigating(event)))
  {
    var n := Navigation.Next(p.nav, event);
    Navigation.InvKept(p.nav, event);
    NavigatorGrows(p.nav, event);
    forall m | m in Mounts(n)
      ensures PageScope.Inv(Moved(p, n, m)) && (Moved(p, n, m).disposed <==> !Holds(n, m))
    {
      var s := if m in p.scopes then p.scopes[m] else PageScope.Fresh;
      if m in p.scopes && !Holds(p.nav, m) {
        NoReturn(p.nav, n, m);
      }
      PageScope.DisposeKeeps(s);
    }
  }

  lemma UsingKeeps(p: Life, m: Mount, use: PageScope.Event)
    requires Inv(p) && Possible(p, Using(m, use))
    ensures Inv(Next(p, Using(m, use)))
  {
    PageScope.InvKept(p.scopes[m], use);
    assert PageScope.Next(p.scopes[m], use).disposed == p.scopes[m].disposed;
  }

  predicate Runs(p: Life, es: seq<Event>, q: Life)
    decreases es
  {
    if es == [] then p == q else Possible(p, es[0]) && Runs(Next(p, es[0]), es[1..], q)
  }

  lemma {:induction false} RunKeeps(p: Life, es: seq<Event>, q: Life)
    requires Inv(p) && Runs(p, es, q)
    ensures Inv(q)
    decreases es
  {
    if es != [] {
      match es[0] {
        case Navigating(event) => NavigatingKeeps(p, event);
        case Using(m, use) => UsingKeeps(p, m, use);
      }
      RunKeeps(Next(p, es[0]), es[1..], q);
    }
  }

  /** Nothing the controllers of a left page ever set up is alive: no listener, no timer, and no request but
      those begun with a signal of the caller's.  In particular, while a navigation is under way nothing at
      all is alive; and a controller of an outdated version cannot begin a request through its scope. */
  lemma LeftPagesHoldNothing(n: Navigation.Nav, es: seq<Event>, q: Life, m: Mount)
    requires Navigation.Init(n) && Runs(Life(n, map[]), es, q) && m in q.scopes
    ensures !Holds(q.nav, m) || q.nav.busy ==>
              q.scopes[m].disposed && q.scopes[m].live == {} && q.scopes[m].requests <= q.scopes[m].borrowed
    ensures m.1 != q.nav.version ==> !IsActive(q, m)
  {
    NothingYet(n);
    RunKeeps(Life(n, map[]), es, q);
    HoldsNothing(q, m);
  }

  lemma NothingYet(n: Navigation.Nav)
    requires Navigation.Init(n)
    ensures Inv(Life(n, map[]))
  {
  }

  lemma HoldsNothing(q: Life, m: Mount)
    requires Inv(q) && m in q.scopes
    ensures !Holds(q.nav, m) || q.nav.busy ==>
              q.scopes[m].disposed && q.scopes[m].live == {} && q.scopes[m].requests <= q.scopes[m].borrowed
    ensures m.1 != q.nav.version ==> !IsActive(q, m)
  {
    var s := q.scopes[m];
    if s.disposed {
      assert forall h :: h !in s.live;
    }
  }
}
