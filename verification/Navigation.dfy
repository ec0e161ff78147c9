/** Soft navigation between pages: versions, in-flight page loads and mounted page controllers. */
module Navigation {
  import opened Options

  type Key = nat // of a controller
  datatype PageKey = Nowhere | Login | Section(name: nat) // Nowhere: an empty key, where soft navigation does not apply
  datatype Url = Url(page: PageKey, address: nat)

  /** Where the promise chain of one navigation stands. */
  datatype Stage = AwaitResponse | AwaitText | AwaitScripts | AwaitPaint
  datatype Load = Load(stage: Stage, target: Url, push: bool)
  datatype Mounted = Mounted(pages: set<PageKey>, version: nat)

  datatype Nav = Nav(
    version: nat, busy: bool, target: Option<Url>,
    controllers: map<Key, set<PageKey>>, order: seq<Key>, // registered, in which order
    active: map<Key, Mounted>,
    page: PageKey, url: Url, // what the document shows and the address bar says
    loads: map<nat, Load>,
    // bookkeeping
    parked: bool, // between pagehide and pageshow
    abandoned: bool, // handed over to the browser: hidden, or given up in favour of a full page load
    threw: set<Key>, // controllers whose latest mount threw
    committed: seq<nat>, // versions that wrote the page, in order
    mounts: seq<(Key, nat)>) // successful mounts: which controller, for which version

  // ----- activation

  /** What the user sees, and who wrote it. */
  predicate SameView(n: Nav, m: Nav) {
    m.version == n.version && m.committed == n.committed && m.page == n.page && m.url == n.url
  }

  /** One controller is mounted if it belongs to the page and is not mounted yet; `throws` are the
      controllers whose mount throws this time. */
  function Tried(n: Nav, k: Key, throws: set<Key>): (m: Nav)
    ensures SameView(n, m)
  {
    if k !in n.controllers || n.page !in n.controllers[k] || k in n.active then n
    else if k in throws then n.(threw := n.threw + {k})
    else n.(active := n.active[k := Mounted(n.controllers[k], n.version)], threw := n.threw - {k},
        mounts := n.mounts + [(k, n.version)])
  }

  function AllTried(n: Nav, keys: seq<Key>, throws: set<Key>): (m: Nav)
    ensures SameView(n, m)
  {
    if keys == [] then n else Tried(AllTried(n, keys[..|keys| - 1], throws), keys[|keys| - 1], throws)
  }

  function Activated(n: Nav, throws: set<Key>): (m: Nav)
    ensures SameView(n, m)
  {
    AllTried(n, n.order, throws).(abandoned := n.abandoned && n.active != map[])
  }

  function Deactivated(n: Nav): Nav {
    n.(active := map[])
  }

  // ----- events

  /** How the synchronous part of a navigation goes. */
  datatype Setup = Fine | FailsEarly | FailsLate // before or after the controllers are unmounted

  /** What the next step of a load brings. */
  datatype News =
    | Arrived // the stage succeeded
    | Page(page: PageKey) // the page text, with the page key it names (Nowhere if none)
    | BrokenPage // no content, or the login page
    | Torn(page: PageKey, pushed: bool) // an error once the page, and perhaps the address, has changed
    | Fails

  datatype Event =
    | Register(key: Key, pages: set<PageKey>, throws: set<Key>)
    | Navigate(target: Url, sameOrigin: bool, force: bool, setup: Setup)
    | PopState(url: Url, setup: Setup)
    | Advance(version: nat, news: News, throws: set<Key>)
    | PageHide
    | PageShow(throws: set<Key>)

  /** A parked page gets no input; it is hidden or shown in turns. */
  predicate Possible(n: Nav, e: Event) {
    match e
    case Register(_, _, _) => true
    case Navigate(_, _, _, _) => !n.parked
    case PopState(_, _) => !n.parked
    case Advance(v, _, _) => v in n.loads
    case PageHide => !n.parked
    case PageShow(_) => n.parked
  }

  function Started(n: Nav, target: Url, push: bool, setup: Setup): Nav {
    var begun := n.(version := n.version + 1, busy := true, target := Some(target));
    match setup
    case Fine => Deactivated(begun).(loads := n.loads[begun.version := Load(AwaitResponse, target, push)])
    case FailsEarly => begun.(busy := false, target := None, abandoned := true)
    case FailsLate => Deactivated(begun).(busy := false, target := None, abandoned := true)
  }

  function Navigated(n: Nav, target: Url, sameOrigin: bool, push: bool, force: bool, setup: Setup): Nav {
    if target.page.Nowhere? || n.url.page.Nowhere? || !sameOrigin || n.page.Login? then n
    else if !n.busy && target == n.url && !force then n
    else if n.busy && n.target == Some(target) then n
    else Started(n, target, push, setup)
  }

  /** The events that write the page. */
  predicate Commits(n: Nav, e: Event) {
    e.Advance? && e.version == n.version && e.version in n.loads && n.loads[e.version].stage.AwaitText?
        && (e.news.Page? || e.news.Torn?)
  }

  /** The load's promise chain ends in its error handler. */
  function Failed(n: Nav, v: nat): (m: Nav)
    ensures SameView(n, m)
  {
    if v != n.version then n.(loads := n.loads - {v})
    else n.(loads := n.loads - {v}, busy := false, target := None, abandoned := true)
  }

  function Written(n: Nav, v: nat, page: PageKey, push: bool): Nav
    requires v in n.loads
  {
    n.(page := if !page.Nowhere? then page else n.loads[v].target.page,
       url := if push then n.loads[v].target else n.url,
       committed := n.committed + [v])
  }

  /** The page text: the document is replaced, then the address, then the load goes on. */
  function TextRead(n: Nav, v: nat, news: News): (m: Nav)
    requires v in n.loads
    ensures m.version == n.version
    ensures if news.Page? || news.Torn? then m.committed == n.committed + [v] else SameView(n, m)
  {
    var load := n.loads[v];
    match news
    case Page(page) => Written(n, v, page, load.push).(loads := n.loads[v := load.(stage := AwaitScripts)])
    case Torn(page, pushed) => Failed(Written(n, v, page, load.push && pushed), v)
    case _ => Failed(n, v)
  }

  /** Only the newest load writes the page, and only when its text arrives. */
  function Advanced(n: Nav, v: nat, news: News, throws: set<Key>): (m: Nav)
    ensures m.version == n.version
    ensures if Commits(n, Advance(v, news, throws)) then m.committed == n.committed + [v] else SameView(n, m)
  {
    if v !in n.loads then n
    else if v != n.version || news.Fails? then Failed(n, v)
    else
      var load := n.loads[v];
      match load.stage
      case AwaitResponse => n.(loads := n.loads[v := load.(stage := AwaitText)])
      case AwaitText => TextRead(n, v, news)
      case AwaitScripts => n.(loads := n.loads[v := load.(stage := AwaitPaint)])
      case AwaitPaint => Activated(n.(loads := n.loads - {v}, busy := false, target := None), throws)
  }

  function Registered(n: Nav, key: Key, pages: set<PageKey>): Nav {
    n.(controllers := n.controllers[key := pages], order := if key in n.controllers then n.order else n.order + [key])
  }

  function Next(n: Nav, e: Event): Nav {
    match e
    case Register(key, pages, throws) =>
      var m := Registered(n, key, pages);
      if n.busy then m else Activated(m, throws)
    case Navigate(target, sameOrigin, force, setup) => Navigated(n, target, sameOrigin, true, force, setup)
    case PopState(url, setup) => if url.page.Nowhere? then n.(url := url)
        else Navigated(n.(url := url), url, true, false, true, setup)
    case Advance(v, news, throws) => Advanced(n, v, news, throws)
    case PageHide => Deactivated(n.(version := n.version + 1, parked := true, abandoned := true))
    case PageShow(throws) => Activated(n.(busy := false, target := None, parked := false), throws)
  }

  // ----- the invariant

  /** Every registered controller of the page is mounted, unless its mount threw. */
  ghost predicate AllMounted(n: Nav) {
    forall k :: k in n.controllers && n.page in n.controllers[k] && k !in n.threw ==> k in n.active
  }

  /** What is mounted was mounted for this page and this version. */
  ghost predicate Current(n: Nav) {
    forall k :: k in n.active ==> n.active[k].version == n.version && n.page in n.active[k].pages
  }

  /** While a navigation is under way nothing is mounted; otherwise, unless the page was given up,
      exactly what should be mounted is, and nothing was ever mounted twice for one version. */
  ghost predicate MountsInv(n: Nav) {
    && (n.busy ==> n.active == map[])
    && (n.busy || n.abandoned || (AllMounted(n) && Current(n)))
    && (n.parked && n.abandoned ==> n.active == map[])
    && Recorded(n)
  }

  ghost predicate Recorded(n: Nav) {
    && (forall k :: k in n.controllers ==> k in n.order)
    && (n.parked ==> forall k :: k in n.active ==> n.active[k].version == n.version)
    && (forall i :: 0 <= i < |n.mounts| ==> n.mounts[i].1 <= n.version)
    && (forall i :: 0 <= i < |n.mounts| && n.mounts[i].1 == n.version ==> n.mounts[i].0 in n.active)
    && Once(n.mounts)
  }

  ghost predicate Once(mounts: seq<(Key, nat)>) {
    forall i, j :: 0 <= i < j < |mounts| ==> mounts[i] != mounts[j]
  }

  ghost predicate Increasing(versions: seq<nat>) {
    forall i, j :: 0 <= i < j < |versions| ==> versions[i] < versions[j]
  }

  predicate Unwritten(n: Nav) {
    n.version in n.loads && (n.loads[n.version].stage.AwaitResponse? || n.loads[n.version].stage.AwaitText?)
  }

  /** Only the newest load can be live and it is for the target, it has written nothing before its text arrives,
      and versions are written in order. */
  ghost predicate LoadsInv(n: Nav) {
    && (n.busy && !n.parked ==> n.version in n.loads && n.target == Some(n.loads[n.version].target))
    && (n.version in n.loads ==> n.busy && !n.parked)
    && (forall v :: v in n.loads ==> v <= n.version)
    && Increasing(n.committed)
    && (n.committed != [] ==> n.committed[|n.committed| - 1] <= n.version)
    && (n.committed != [] && Unwritten(n) ==> n.committed[|n.committed| - 1] < n.version)
  }

  ghost predicate Inv(n: Nav) {
    MountsInv(n) && LoadsInv(n)
  }

  ghost predicate Init(n: Nav) {
    n == Nav(0, false, None, map[], [], map[], n.page, n.url, map[], false, false, {}, [], [])
  }

  lemma TriedRecorded(n: Nav, k: Key, throws: set<Key>)
    requires Recorded(n)
    ensures Recorded(Tried(n, k, throws))
  {
  }

  lemma TriedKeeps(n: Nav, k: Key, throws: set<Key>)
    ensures var m := Tried(n, k, throws);
            && m.controllers == n.controllers
            && (Current(n) ==> Current(m))
            && (k in m.controllers && m.page in m.controllers[k] ==> k in m.active || k in m.threw)
            && forall j :: j in n.active || j in n.threw ==> j in m.active || j in m.threw
  {
  }

  lemma {:induction false} AllTriedKeeps(n: Nav, keys: seq<Key>, throws: set<Key>)
    requires Recorded(n)
    ensures var m := AllTried(n, keys, throws);
            && Recorded(m) && m.controllers == n.controllers
            && (Current(n) ==> Current(m))
            && forall k :: k in keys && k in m.controllers && m.page in m.controllers[k] ==>
                   k in m.active || k in m.threw
  {
    if keys != [] {
      var init, last := keys[..|keys| - 1], keys[|keys| - 1];
      AllTriedKeeps(n, init, throws);
      TriedKeeps(AllTried(n, init, throws), last, throws);
      TriedRecorded(AllTried(n, init, throws), last, throws);
      assert forall k :: k in keys ==> k in init || k == last;
    }
  }

  /** Exactly the page's controllers that do not throw are mounted, each for its own key. */
  lemma {:induction false} AllTriedExact(n: Nav, keys: seq<Key>, throws: set<Key>)
    ensures var m := AllTried(n, keys, throws);
            && m.controllers == n.controllers
            && forall k :: k in m.active <==>
                 k in n.active || (k in keys && k in n.controllers && n.page in n.controllers[k] && k !in throws)
  {
    if keys != [] {
      var init, last := keys[..|keys| - 1], keys[|keys| - 1];
      AllTriedExact(n, init, throws);
      assert forall k :: k in keys <==> k in init || k == last;
    }
  }

  lemma {:induction false} AllTriedLeaves(n: Nav, keys: seq<Key>, throws: set<Key>)
    ensures var m := AllTried(n, keys, throws);
            m.busy == n.busy && m.parked == n.parked && m.loads == n.loads && m.order == n.order
  {
    if keys != [] {
      AllTriedLeaves(n, keys[..|keys| - 1], throws);
    }
  }

  lemma ActivatedKeeps(n: Nav, throws: set<Key>)
    requires !n.busy && (n.abandoned || Current(n)) && Recorded(n) && (n.parked && n.abandoned ==> n.active == map[])
    ensures MountsInv(Activated(n, throws))
    ensures LoadsInv(n) ==> LoadsInv(Activated(n, throws))
  {
    AllTriedKeeps(n, n.order, throws);
    AllTriedLeaves(n, n.order, throws);
  }

  lemma StartedKeeps(n: Nav, target: Url, push: bool, setup: Setup)
    requires Inv(n) && !n.parked
    ensures Inv(Started(n, target, push, setup))
  {
  }

  lemma NavigatedKeeps(n: Nav, target: Url, sameOrigin: bool, push: bool, force: bool, setup: Setup)
    requires Inv(n) && !n.parked
    ensures Inv(Navigated(n, target, sameOrigin, push, force, setup))
  {
    StartedKeeps(n, target, push, setup);
  }

  lemma FailedKeeps(n: Nav, v: nat)
    requires Inv(n) && v in n.loads
    ensures Inv(Failed(n, v))
  {
  }

  lemma WrittenKeeps(n: Nav, page: PageKey, push: bool)
    requires Inv(n) && Unwritten(n)
    ensures var v := n.version; var m := Written(n, v, page, push);
            Inv(m.(loads := n.loads[v := n.loads[v].(stage := AwaitScripts)]))
  {
  }

  lemma AdvancedKeeps(n: Nav, v: nat, news: News, throws: set<Key>)
    requires Inv(n) && v in n.loads
    ensures Inv(Advanced(n, v, news, throws))
  {
    if v != n.version || news.Fails? {
      FailedKeeps(n, v);
    } else {
      match n.loads[v].stage
      case AwaitText => TextKeeps(n, news);
      case AwaitPaint => ActivatedKeeps(n.(loads := n.loads - {v}, busy := false, target := None), throws);
      case AwaitResponse => StageKeeps(n, AwaitText);
      case AwaitScripts => StageKeeps(n, AwaitPaint);
    }
  }

  lemma StageKeeps(n: Nav, stage: Stage)
    requires Inv(n) && n.version in n.loads
    requires n.loads[n.version].stage == if stage.AwaitText? then AwaitResponse else AwaitScripts
    requires stage.AwaitText? || stage.AwaitPaint?
    ensures Inv(n.(loads := n.loads[n.version := n.loads[n.version].(stage := stage)]))
  {
  }

  lemma TextKeeps(n: Nav, news: News)
    requires Inv(n) && n.version in n.loads && n.loads[n.version].stage.AwaitText?
    ensures Inv(TextRead(n, n.version, news))
  {
    var v := n.version;
    match news
    case Page(page) => WrittenKeeps(n, page, n.loads[v].push);
    case Torn(page, pushed) =>
      WrittenKeeps(n, page, n.loads[v].push && pushed);
      var m := Written(n, v, page, n.loads[v].push && pushed);
      FailedKeeps(m.(loads := n.loads[v := n.loads[v].(stage := AwaitScripts)]), v);
      assert n.loads[v := n.loads[v].(stage := AwaitScripts)] - {v} == n.loads - {v};
    case _ => FailedKeeps(n, v);
  }

  lemma RegisterKeeps(n: Nav, key: Key, pages: set<PageKey>, throws: set<Key>)
    requires Inv(n)
    ensures Inv(Next(n, Register(key, pages, throws)))
  {
    if !n.busy {
      ActivatedKeeps(Registered(n, key, pages), throws);
    }
  }

  lemma InvKept(n: Nav, e: Event)
    requires Inv(n) && Possible(n, e)
    ensures Inv(Next(n, e))
  {
    match e
    case Register(key, pages, throws) => RegisterKeeps(n, key, pages, throws);
    case Navigate(target, sameOrigin, force, setup) => NavigatedKeeps(n, target, sameOrigin, true, force, setup);
    case PopState(url, setup) => NavigatedKeeps(n.(url := url), url, true, false, true, setup);
    case Advance(v, news, throws) => AdvancedKeeps(n, v, news, throws);
    case PageShow(throws) => ActivatedKeeps(n.(busy := false, target := None, parked := false), throws);
    case PageHide =>
  }

  // ----- runs

  ghost predicate Runs(n: Nav, es: seq<Event>, m: Nav)
    decreases es
  {
    if es == [] then n == m else Possible(n, es[0]) && Runs(Next(n, es[0]), es[1..], m)
  }

  lemma {:induction false} RunKeeps(n: Nav, es: seq<Event>, m: Nav)
    requires Inv(n) && Runs(n, es, m)
    ensures Inv(m)
    decreases es
  {
    if es != [] {
      InvKept(n, es[0]);
      RunKeeps(Next(n, es[0]), es[1..], m);
    }
  }

  /** For every interleaving of navigations, history moves, late answers, script loads, hiding and showing. */
  lemma NavigationIsSound(n: Nav, es: seq<Event>, m: Nav)
    requires Init(n) && Runs(n, es, m)
    ensures Increasing(m.committed)
    ensures m.busy ==> m.active == map[]
    ensures m.busy && !m.parked ==> m.version in m.loads
    ensures !m.busy && !m.abandoned ==> AllMounted(m) && Current(m)
    ensures Once(m.mounts)
  {
    RunKeeps(n, es, m);
  }

  /** Whatever writes the page after a navigation has started is that navigation or a newer one: an
      older load writes neither the page nor the address bar again. */
  lemma {:induction false} StaleLoadsNeverWrite(n: Nav, es: seq<Event>, m: Nav)
    requires Inv(n) && Runs(n, es, m)
    ensures n.version <= m.version && n.committed <= m.committed
    ensures forall i :: |n.committed| <= i < |m.committed| ==> m.committed[i] >= n.version
    ensures m.committed == n.committed ==> m.page == n.page
    ensures m.committed == n.committed && (forall e :: e in es ==> !e.PopState?) ==> m.url == n.url
    decreases es
  {
    if es != [] {
      var next := Next(n, es[0]);
      InvKept(n, es[0]);
      StaleLoadsNeverWrite(next, es[1..], m);
      StepWrites(n, es[0]);
    }
  }

  lemma StepWrites(n: Nav, e: Event)
    requires Possible(n, e)
    ensures Next(n, e).version >= n.version
    ensures Next(n, e).committed == if Commits(n, e) then n.committed + [n.version] else n.committed
    ensures !Commits(n, e) ==> Next(n, e).page == n.page
    ensures !Commits(n, e) && !e.PopState? ==> Next(n, e).url == n.url
  {
    match e
    case Navigate(target, sameOrigin, force, setup) => NavigateWrites(n, target, sameOrigin, true, force, setup);
    case PopState(url, setup) => NavigateWrites(n.(url := url), url, true, false, true, setup);
    case _ =>
  }

  lemma NavigateWrites(n: Nav, target: Url, sameOrigin: bool, push: bool, force: bool, setup: Setup)
    ensures var m := Navigated(n, target, sameOrigin, push, force, setup);
            m.version >= n.version && m.committed == n.committed && m.page == n.page && m.url == n.url
  {
  }

  function After(n: Nav, es: seq<Event>): Nav
    decreases es
  {
    if es == [] then n else After(Next(n, es[0]), es[1..])
  }

  /** The steps of a load that is left alone and succeeds; the page text names `page`. */
  function Quiet(v: nat, page: PageKey, throws: set<Key>): seq<Event> {
    [Advance(v, Arrived, {}), Advance(v, Page(page), {}), Advance(v, Arrived, {}), Advance(v, Arrived, throws)]
  }

  /** Exactly the page's controllers that do not throw are mounted, all for this version. */
  ghost predicate ExactlyMounted(n: Nav, throws: set<Key>) {
    && (forall k :: k in n.active <==> k in n.controllers && n.page in n.controllers[k] && k !in throws)
    && Current(n)
  }

  /** A load that is left alone and succeeds ends the navigation, with its page shown, its address in the
      address bar if it is a new one, and the page's controllers mounted. */
  lemma QuietLoadSettles(n: Nav, page: PageKey, throws: set<Key>)
    requires Inv(n) && n.version in n.loads && n.loads[n.version].stage.AwaitResponse? && !page.Nowhere?
    ensures var m := After(n, Quiet(n.version, page, throws));
            && Runs(n, Quiet(n.version, page, throws), m) && !m.busy && !m.abandoned && !m.parked
            && m.page == page && m.committed == n.committed + [n.version]
            && m.url == (if n.loads[n.version].push then n.loads[n.version].target else n.url)
            && m.controllers == n.controllers && ExactlyMounted(m, throws)
  {
    var es := Quiet(n.version, page, throws);
    var n1 := Next(n, es[0]);
    var n2 := Next(n1, es[1]);
    var n3 := Next(n2, es[2]);
    InvKept(n, es[0]);
    InvKept(n1, es[1]);
    InvKept(n2, es[2]);
    QuietSteps(n, page, throws);
    QuietEnd(n3, throws);
    Steps(n, n1, n2, n3, es);
  }

  /** Where the first three steps lead. */
  lemma QuietSteps(n: Nav, page: PageKey, throws: set<Key>)
    requires n.version in n.loads && n.loads[n.version].stage.AwaitResponse? && !page.Nowhere?
    ensures var v, load, es := n.version, n.loads[n.version], Quiet(n.version, page, throws);
            var n1 := Next(n, es[0]); var n2 := Next(n1, es[1]); var n3 := Next(n2, es[2]);
            && Possible(n, es[0]) && Possible(n1, es[1]) && Possible(n2, es[2]) && Possible(n3, es[3])
            && n3.version == v && n3.loads[v].stage.AwaitPaint?
            && n3.page == page && n3.url == (if load.push then load.target else n.url)
            && n3.committed == n.committed + [v] && n3.controllers == n.controllers
  {
  }

  lemma Steps(n: Nav, n1: Nav, n2: Nav, n3: Nav, es: seq<Event>)
    requires |es| == 4 && n1 == Next(n, es[0]) && n2 == Next(n1, es[1]) && n3 == Next(n2, es[2])
    requires Possible(n, es[0]) && Possible(n1, es[1]) && Possible(n2, es[2]) && Possible(n3, es[3])
    ensures After(n, es) == Next(n3, es[3]) && Runs(n, es, Next(n3, es[3]))
  {
    var m := Next(n3, es[3]);
    Prepend(m, [], m);
    assert es[3..][1..] == [] && es[3..][0] == es[3];
    Prepend(n3, es[3..], m);
    assert es[2..][1..] == es[3..];
    Prepend(n2, es[2..], m);
    assert es[1..][1..] == es[2..];
    Prepend(n1, es[1..], m);
    Prepend(n, es, m);
  }

  lemma Prepend(n: Nav, es: seq<Event>, m: Nav)
    requires if es == [] then n == m
             else Possible(n, es[0]) && Runs(Next(n, es[0]), es[1..], m) && After(Next(n, es[0]), es[1..]) == m
    ensures Runs(n, es, m) && After(n, es) == m
  {
  }

  lemma QuietEnd(n: Nav, throws: set<Key>)
    requires Inv(n) && n.version in n.loads && n.loads[n.version].stage.AwaitPaint?
    ensures var m := Next(n, Advance(n.version, Arrived, throws));
            && !m.busy && !m.abandoned && !m.parked && SameView(n, m)
            && m.controllers == n.controllers && ExactlyMounted(m, throws)
  {
    var ready := n.(loads := n.loads - {n.version}, busy := false, target := None);
    AllTriedKeeps(ready, n.order, throws);
    AllTriedExact(ready, n.order, throws);
    AllTriedLeaves(ready, n.order, throws);
  }

  // ----- every click gets its page

  /** When a navigation starts a load of its own: the shortcuts are for the address already shown and for
      the one already being loaded. */
  predicate Takes(n: Nav, target: Url, sameOrigin: bool, force: bool) {
    && !target.page.Nowhere? && !n.url.page.Nowhere? && sameOrigin && !n.page.Login?
    && if n.busy then n.target != Some(target) else force || target != n.url
  }

  /** Only an answer for the same address on its way keeps a history move from loading its page. */
  predicate HistoryTakes(n: Nav, url: Url) {
    !url.page.Nowhere? && !n.page.Login? && (n.busy ==> n.target != Some(url))
  }

  /** The same but for loads that are outdated. */
  ghost predicate Alike(n: Nav, m: Nav) {
    && m == n.(loads := m.loads)
    && (n.version in n.loads <==> n.version in m.loads)
    && (n.version in n.loads ==> m.loads[n.version] == n.loads[n.version])
  }

  /** The steps of load `v` are `own`, in this order; in between older loads get whatever answers they get. */
  ghost predicate Follows(es: seq<Event>, v: nat, own: seq<Event>) {
    if es == [] then own == []
    else if es[0].Advance? && es[0].version < v then Follows(es[1..], v, own)
    else es[0].Advance? && own != [] && own[0] == es[0] && Follows(es[1..], v, own[1..])
  }

  lemma OutdatedStep(n: Nav, e: Event)
    requires e.Advance? && e.version < n.version
    ensures Alike(n, Next(n, e)) && Next(n, e).version == n.version
  {
  }

  /** A load's own step does not look at other loads. */
  lemma OwnStep(n: Nav, loads: map<nat, Load>, e: Event)
    requires e.Advance? && e.version == n.version && Alike(n, n.(loads := loads))
    ensures Alike(Next(n, e), Next(n.(loads := loads), e)) && Next(n, e).version == n.version
  {
    var v := n.version;
    if v in n.loads && !e.news.Fails? && n.loads[v].stage.AwaitPaint? {
      OwnEnd(n, loads, e);
    } else if v in n.loads && !e.news.Fails? && n.loads[v].stage.AwaitText? {
      OwnText(n, loads, e.news);
    }
  }

  lemma OwnText(n: Nav, loads: map<nat, Load>, news: News)
    requires n.version in n.loads && n.version in loads && loads[n.version] == n.loads[n.version]
    ensures Alike(TextRead(n, n.version, news), TextRead(n.(loads := loads), n.version, news))
  {
  }

  lemma OwnEnd(n: Nav, loads: map<nat, Load>, e: Event)
    requires e.Advance? && e.version == n.version && !e.news.Fails?
    requires n.version in n.loads && n.version in loads
    requires n.loads[n.version].stage.AwaitPaint? && loads[n.version].stage.AwaitPaint?
    ensures Alike(Next(n, e), Next(n.(loads := loads), e))
  {
    var ready := n.(loads := n.loads - {n.version}, busy := false, target := None);
    AlikeTried(ready, loads - {n.version}, n.order, e.throws);
    AllTriedLeaves(ready, n.order, e.throws);
  }

  lemma {:induction false} AlikeTried(n: Nav, loads: map<nat, Load>, keys: seq<Key>, throws: set<Key>)
    ensures AllTried(n.(loads := loads), keys, throws) == AllTried(n, keys, throws).(loads := loads)
  {
    if keys != [] {
      AlikeTried(n, loads, keys[..|keys| - 1], throws);
      TriedAlike(AllTried(n, keys[..|keys| - 1], throws), loads, keys[|keys| - 1], throws);
    }
  }

  lemma TriedAlike(n: Nav, loads: map<nat, Load>, k: Key, throws: set<Key>)
    ensures Tried(n.(loads := loads), k, throws) == Tried(n, k, throws).(loads := loads)
  {
  }

  lemma {:induction false} Interleaved(n: Nav, q: Nav, es: seq<Event>, own: seq<Event>, m: Nav)
    requires Alike(q, n) && Runs(n, es, m) && Follows(es, n.version, own)
    requires forall e :: e in own ==> e.Advance? && e.version == n.version
    ensures Alike(After(q, own), m)
    decreases es
  {
    if es != [] {
      if es[0].version < n.version {
        OutdatedStep(n, es[0]);
        Interleaved(Next(n, es[0]), q, es[1..], own, m);
      } else {
        assert own[0] in own && forall e :: e in own[1..] ==> e in own;
        assert n == q.(loads := n.loads);
        OwnStep(q, n.loads, es[0]);
        Interleaved(Next(n, es[0]), Next(q, es[0]), es[1..], own[1..], m);
      }
    }
  }

  /** What a started navigation comes to when its page arrives, in whatever order older answers do. */
  ghost predicate Arrives(n: Nav, m: Nav, target: Url, page: PageKey, throws: set<Key>) {
    && !m.busy && !m.abandoned && !m.parked && m.page == page && m.url == target
    && m.committed == n.committed + [n.version + 1] && m.controllers == n.controllers && ExactlyMounted(m, throws)
  }

  lemma StartedSettles(n: Nav, target: Url, push: bool, page: PageKey, throws: set<Key>, es: seq<Event>, m: Nav)
    requires Inv(n) && !n.parked && !page.Nowhere? && (push || n.url == target)
    requires Runs(Started(n, target, push, Fine), es, m)
            && Follows(es, n.version + 1, Quiet(n.version + 1, page, throws))
    ensures Arrives(n, m, target, page, throws)
  {
    var begun := Started(n, target, push, Fine);
    StartedKeeps(n, target, push, Fine);
    QuietLoadSettles(begun, page, throws);
    Interleaved(begun, begun, es, Quiet(begun.version, page, throws), m);
  }

  /** A click that is not for the address shown, nor for the one being loaded, brings its page: the browser
      ends idle there, with the clicked address and exactly the page's controllers mounted, however the
      answers of older loads come in between. */
  lemma ClickSettles(n: Nav, target: Url, force: bool, page: PageKey, throws: set<Key>, es: seq<Event>, m: Nav)
    requires Inv(n) && !n.parked && Takes(n, target, true, force) && !page.Nowhere?
    requires Runs(Next(n, Navigate(target, true, force, Fine)), es, m)
    requires Follows(es, n.version + 1, Quiet(n.version + 1, page, throws))
    ensures Arrives(n, m, target, page, throws)
  {
    StartedSettles(n, target, true, page, throws, es, m);
  }

  /** Going back or forward does too; on an idle page even to the address already shown, which the browser
      has changed by then. */
  lemma HistorySettles(n: Nav, url: Url, page: PageKey, throws: set<Key>, es: seq<Event>, m: Nav)
    requires Inv(n) && !n.parked && HistoryTakes(n, url) && !page.Nowhere?
    requires Runs(Next(n, PopState(url, Fine)), es, m)
    requires Follows(es, n.version + 1, Quiet(n.version + 1, page, throws))
    ensures Arrives(n, m, url, page, throws)
  {
    StartedSettles(n.(url := url), url, false, page, throws, es, m);
  }

  /** There is such a run: the one without older answers. */
  lemma QuietRun(n: Nav, e: Event, page: PageKey, throws: set<Key>)
    requires Inv(n) && Possible(n, e) && !page.Nowhere?
    requires match e
             case Navigate(target, sameOrigin, force, setup) => setup.Fine? && Takes(n, target, sameOrigin, force)
             case PopState(url, setup) => setup.Fine? && HistoryTakes(n, url)
             case _ => false
    ensures var es := Quiet(n.version + 1, page, throws); var begun := Next(n, e);
            Runs(begun, es, After(begun, es)) && Follows(es, n.version + 1, es)
  {
    var begun := Next(n, e);
    InvKept(n, e);
    QuietLoadSettles(begun, page, throws);
    FollowsItself(begun.version, Quiet(begun.version, page, throws));
  }

  lemma {:induction false} FollowsItself(v: nat, es: seq<Event>)
    requires forall e :: e in es ==> e.Advance? && e.version == v
    ensures Follows(es, v, es)
  {
    if es != [] {
      assert es[0] in es && forall e :: e in es[1..] ==> e in es;
      FollowsItself(v, es[1..]);
    }
  }

  // ----- the navigator

  lemma RegisterMounts(n: Nav, key: Key, pages: set<PageKey>, throws: set<Key>)
    requires Inv(n)
    ensures var m := Next(n, Register(key, pages, throws));
            && m.controllers == n.controllers[key := pages] && SameView(n, m) && m.busy == n.busy
            && if n.busy then m.active == map[] else n.page in pages && key !in throws ==> key in m.active
  {
    var r := Registered(n, key, pages);
    AllTriedExact(r, r.order, throws);
    AllTriedLeaves(r, r.order, throws);
    assert key in r.order;
  }

  lemma ShowMounts(n: Nav, throws: set<Key>)
    requires Inv(n) && n.parked
    ensures var m := Next(n, PageShow(throws)); !m.busy && !m.abandoned && SameView(n, m)
  {
    AllTriedLeaves(n.(busy := false, target := None, parked := false), n.order, throws);
  }

  lemma NavigatedMeans(n: Nav, href: Url, sameOrigin: bool, push: bool, force: bool, setup: Setup)
    requires Inv(n) && !n.parked
    ensures var m := Navigated(n, href, sameOrigin, push, force, setup);
            && (m == n || m.version == n.version + 1)
            && m.page == n.page && m.url == n.url && m.committed == n.committed
            && (m.version > n.version ==>
                  if m.busy then m.active == map[] && m.version in m.loads && m.loads[m.version].target == href
                      else m.abandoned)
            && (m.version > n.version <==> Takes(n, href, sameOrigin, force))
            && (m.version > n.version ==> (m.busy <==> setup.Fine?))
  {
  }

  lemma HistoryMeans(n: Nav, url: Url, setup: Setup)
    requires Inv(n) && !n.parked
    ensures var m := Next(n, PopState(url, setup));
            && m.url == url && m.page == n.page && m.committed == n.committed
            && (HistoryTakes(n, url) <==> m.version > n.version)
            && (m.version > n.version ==>
                  if setup.Fine? then m.busy && m.version in m.loads && m.loads[m.version].target == url
                      else m.abandoned)
  {
    NavigatedMeans(n.(url := url), url, true, false, true, setup);
  }

  class Navigator {
    var version: nat
    var busy: bool
    var target: Option<Url>
    var controllers: map<Key, set<PageKey>>
    var order: seq<Key>
    var active: map<Key, Mounted>
    // the browser around it
    var page: PageKey
    var url: Url
    var loads: map<nat, Load>
    ghost var parked: bool
    ghost var abandoned: bool
    ghost var threw: set<Key>
    ghost var committed: seq<nat>
    ghost var mounts: seq<(Key, nat)>

    ghost function State(): Nav
      reads this
    {
      Nav(version, busy, target, controllers, order, active, page, url, loads, parked, abandoned, threw, committed,
          mounts)
    }

    ghost predicate Valid()
      reads this
    {
      Inv(State())
    }

    constructor (page: PageKey, url: Url)
      ensures Valid() && Init(State()) && State().page == page && State().url == url
    {
      version, busy, target, controllers, order, active := 0, false, None, map[], [], map[];
      this.page, this.url, loads := page, url, map[];
      parked, abandoned, threw, committed, mounts := false, false, {}, [], [];
    }

    method MountController(k: Key, throws: set<Key>)
      modifies this
      ensures State() == Tried(old(State()), k, throws)
    {
      if k !in controllers || page !in controllers[k] || k in active {
        return;
      }
      active := active[k := Mounted(controllers[k], version)];
      if k in throws {
        active := active - {k};
        threw := threw + {k};
      } else {
        threw := threw - {k};
        mounts := mounts + [(k, version)];
      }
    }

    method ActivatePageControllers(throws: set<Key>)
      modifies this
      ensures State() == Activated(old(State()), throws)
    {
      ghost var before := State();
      var keys := order;
      for i := 0 to |keys|
        invariant State() == AllTried(before, keys[..i], throws)
      {
        assert keys[..i + 1][..i] == keys[..i];
        MountController(keys[i], throws);
      }
      assert keys[..|keys|] == keys;
      abandoned := before.abandoned && before.active != map[];
    }

    method DeactivatePageControllers()
      modifies this`active
      ensures active == map[]
    {
      while active != map[]
        decreases active.Keys
      {
        var k :| k in active;
        active := active - {k};
      }
    }

    /** A controller registered on its own page is mounted at once, unless a navigation is under way. */
    method RegisterPageController(key: Key, pages: set<PageKey>, throws: set<Key>)
      requires Valid()
      modifies this
      ensures Valid() && SameView(old(State()), State()) && controllers == old(controllers)[key := pages]
      ensures if old(busy) then active == map[] else page in pages && key !in throws ==> key in active
      ensures State() == Next(old(State()), Register(key, pages, throws))
    {
      RegisterKeeps(State(), key, pages, throws);
      RegisterMounts(State(), key, pages, throws);
      Add(key, pages, throws);
    }

    method Add(key: Key, pages: set<PageKey>, throws: set<Key>)
      modifies this
      ensures State() == Next(old(State()), Register(key, pages, throws))
    {
      if key !in controllers {
        order := order + [key];
      }
      controllers := controllers[key := pages];
      if !busy {
        ActivatePageControllers(throws);
      }
    }

    /** Either nothing at all changes, or a new version has begun: then nothing of the old page is mounted and
        the newest load is on its way, or the page was given up.  The page shown is the same either way. */
    method Navigate(href: Url, sameOrigin: bool, force: bool, setup: Setup)
      requires Valid() && !parked
      modifies this
      ensures Valid() && page == old(page) && url == old(url) && committed == old(committed)
      ensures State() == old(State()) || version == old(version) + 1
      ensures version > old(version) ==>
                if busy then active == map[] && version in loads && loads[version].target == href else abandoned
      ensures version > old(version) <==> Takes(old(State()), href, sameOrigin, force)
      ensures version > old(version) ==> (busy <==> setup.Fine?)
    {
      NavigatedKeeps(State(), href, sameOrigin, true, force, setup);
      NavigatedMeans(State(), href, sameOrigin, true, force, setup);
      NavigateTo(href, sameOrigin, true, force, setup);
    }

    method NavigateTo(href: Url, sameOrigin: bool, push: bool, force: bool, setup: Setup)
      modifies this
      ensures State() == Navigated(old(State()), href, sameOrigin, push, force, setup)
    {
      if href.page.Nowhere? || url.page.Nowhere? || !sameOrigin || page.Login? {
        return;
      }
      if !busy && href == url && !force {
        return;
      }
      if busy && target == Some(href) {
        return;
      }
      Begin(href, push, setup);
    }

    method Begin(href: Url, push: bool, setup: Setup)
      modifies this
      ensures State() == Started(old(State()), href, push, setup)
    {
      version := version + 1;
      busy := true;
      target := Some(href);
      if !setup.FailsEarly? {
        DeactivatePageControllers();
      }
      if !setup.Fine? {
        busy := false;
        target := None;
        abandoned := true;
        return;
      }
      loads := loads[version := Load(AwaitResponse, href, push)];
    }

    /** The address is the browser's; the page is not written before a load answers. */
    method PopState(moved: Url, setup: Setup)
      requires Valid() && !parked
      modifies this
      ensures Valid() && url == moved && page == old(page) && committed == old(committed)
      ensures HistoryTakes(old(State()), moved) <==> version > old(version)
      ensures version > old(version) ==>
                if setup.Fine? then busy && version in loads && loads[version].target == moved else abandoned
      ensures State() == Next(old(State()), Event.PopState(moved, setup))
    {
      InvKept(State(), Event.PopState(moved, setup));
      HistoryMeans(State(), moved, setup);
      url := moved;
      if !moved.page.Nowhere? {
        NavigateTo(moved, true, false, true, setup);
      }
    }

    /** The error handler at the end of the chain. */
    method Catch(v: nat)
      modifies this
      ensures State() == Failed(old(State()), v)
    {
      loads := loads - {v};
      if v == version {
        busy := false;
        target := None;
        abandoned := true;
      }
    }

    method Commit(v: nat, named: PageKey, push: bool)
      requires v in loads
      modifies this
      ensures State() == Written(old(State()), v, named, push)
    {
      page := if !named.Nowhere? then named else loads[v].target.page;
      if push {
        url := loads[v].target;
      }
      committed := committed + [v];
    }

    /** The next step of a load: an outdated one only ends; one that fails hands the page over to the browser;
        when one ends the navigation, the page's controllers are mounted for this version,
            unless the page was given up. */
    method Continue(v: nat, news: News, throws: set<Key>)
      requires Valid() && v in loads
      modifies this
      ensures Valid() && version == old(version)
      ensures v != version ==>
                && v !in loads && active == old(active) && busy == old(busy)
                && page == old(page) && url == old(url) && committed == old(committed)
      ensures !busy && !abandoned ==> AllMounted(State()) && Current(State())
      ensures v == version && (news.Fails? || (old(loads)[v].stage.AwaitText? && !news.Page?)) ==> !busy && abandoned
      ensures State() == Advanced(old(State()), v, news, throws)
    {
      AdvancedKeeps(State(), v, news, throws);
      Proceed(v, news, throws);
    }

    method Proceed(v: nat, news: News, throws: set<Key>)
      requires v in loads
      modifies this
      ensures State() == Advanced(old(State()), v, news, throws)
    {
      if v != version || news.Fails? {
        Catch(v);
        return;
      }
      var load := loads[v];
      match load.stage
      case AwaitResponse => loads := loads[v := load.(stage := AwaitText)];
      case AwaitScripts => loads := loads[v := load.(stage := AwaitPaint)];
      case AwaitText =>
        if news.Page? {
          Commit(v, news.page, load.push);
          loads := loads[v := load.(stage := AwaitScripts)];
        } else {
          if news.Torn? {
            Commit(v, news.page, load.push && news.pushed);
          }
          Catch(v);
        }
      case AwaitPaint =>
        loads := loads - {v};
        busy := false;
        target := None;
        ActivatePageControllers(throws);
    }

    /** Everything is unmounted, and every load under way is outdated. */
    method PageHide()
      requires Valid() && !parked
      modifies this
      ensures Valid() && active == map[] && forall v :: v in loads ==> v < version
      ensures State() == Next(old(State()), Event.PageHide)
    {
      InvKept(State(), Event.PageHide);
      version := version + 1;
      DeactivatePageControllers();
      parked, abandoned := true, true;
    }

    /** The page's controllers are mounted again, for the version the hiding began. */
    method PageShow(throws: set<Key>)
      requires Valid() && parked
      modifies this
      ensures Valid() && !busy && AllMounted(State()) && Current(State()) && SameView(old(State()), State())
      ensures State() == Next(old(State()), Event.PageShow(throws))
    {
      InvKept(State(), Event.PageShow(throws));
      ShowMounts(State(), throws);
      Show(throws);
    }

    method Show(throws: set<Key>)
      modifies this
      ensures State() == Next(old(State()), Event.PageShow(throws))
    {
      busy := false;
      target := None;
      parked := false;
      ActivatePageControllers(throws);
    }
  }
}
