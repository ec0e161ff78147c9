/** Which archives are admitted, and where the members of an admitted archive land. */
module Archive {
  import opened Options

  type Path = seq<string> // the parts of a path, from the directory the archive is extracted into
  datatype Target = Target(absolute: bool, parts: Path)
  datatype Kind = Folder | File(size: nat) | Symbolic(target: Target) | Hard(target: Target) | Special
  datatype Member = Member(absolute: bool, name: Path, kind: Kind)

  datatype Code = EmptyArchive | UnsafePath | DuplicatePath | UnsupportedEntry | UnsafeLink
  datatype Result<+T> = Ok(value: T) | Err(code: Code)

  const ROOT: string := "edge-controller"

  predicate IsLink(m: Member) {
    m.kind.Symbolic? || m.kind.Hard?
  }

  // ----- lexical normalisation

  /** How deep a path is after following its parts; ".." goes up. */
  function Depth(parts: Path): int {
    if parts == [] then 0 else Depth(parts[..|parts| - 1]) + if parts[|parts| - 1] == ".." then -1 else 1
  }

  predicate Climbs(parts: Path) {
    exists k :: 0 <= k <= |parts| && Depth(parts[..k]) < 0
  }

  function Normal(parts: Path): Option<Path> {
    if parts == [] then Some([])
    else
      var last := parts[|parts| - 1];
      match Normal(parts[..|parts| - 1])
      case None => None
      case Some(q) => if last != ".." then Some(q + [last]) else if q == [] then None else Some(q[..|q| - 1])
  }

  /** Normalising fails exactly on the paths that climb above where they start. */
  lemma {:induction false} NormalFailsIffClimbs(parts: Path)
    ensures Normal(parts).None? <==> Climbs(parts)
    ensures Normal(parts).Some? ==> |Normal(parts).value| == Depth(parts) && ".." !in Normal(parts).value
  {
    if parts == [] {
      assert forall k :: 0 <= k <= |parts| ==> parts[..k] == [];
    } else {
      var init := parts[..|parts| - 1];
      NormalFailsIffClimbs(init);
      assert parts[..|parts|] == parts;
      assert forall k :: 0 <= k <= |init| ==> parts[..k] == init[..k];
      if Climbs(init) {
        var k :| 0 <= k <= |init| && Depth(init[..k]) < 0;
        assert Depth(parts[..k]) < 0;
      }
    }
  }

  lemma {:induction false} NormalFails(parts: Path, k: nat)
    requires k <= |parts| && Normal(parts[..k]).None?
    ensures Normal(parts).None?
    decreases |parts|
  {
    assert parts[..|parts|] == parts;
    if k < |parts| {
      assert parts[..|parts| - 1][..k] == parts[..k];
      NormalFails(parts[..|parts| - 1], k);
    }
  }

  /** A path without ".." is its own normal form; a part and the ".." after it cancel. */
  lemma {:induction false} NormalOfPlain(parts: Path)
    requires ".." !in parts
    ensures Normal(parts) == Some(parts)
  {
    if parts != [] {
      var init, last := parts[..|parts| - 1], parts[|parts| - 1];
      assert last in parts && init + [last] == parts;
      NormalOfPlain(init);
    }
  }

  lemma {:induction false} NormalCancels(a: Path, x: string, b: Path)
    requires x != ".."
    ensures Normal(a).None? || Normal(a + [x, ".."] + b) == Normal(a + b)
    decreases |b|
  {
    var long := a + [x, ".."] + b;
    if b == [] {
      assert long[..|long| - 1] == a + [x] && (a + [x])[..|a|] == a && a + b == a;
    } else {
      var init := b[..|b| - 1];
      NormalCancels(a, x, init);
      assert long[..|long| - 1] == a + [x, ".."] + init && (a + b)[..|a + b| - 1] == a + init;
    }
  }

  // ----- admission

  predicate SafeName(m: Member) {
    !m.absolute && m.name != [] && ".." !in m.name && m.name[0] == ROOT
  }

  /** Where a link leads on paper. */
  function Aim(m: Member): Path
    requires IsLink(m) && m.name != []
  {
    if m.kind.Symbolic? then m.name[..|m.name| - 1] + m.kind.target.parts else m.kind.target.parts
  }

  predicate SafeLink(m: Member, names: set<Path>)
    requires m.name != []
  {
    IsLink(m) ==>
      && !m.kind.target.absolute
      && Normal(Aim(m)).Some? && Normal(Aim(m)).value != [] && Normal(Aim(m)).value[0] == ROOT
      && (m.kind.Hard? ==> Normal(Aim(m)).value in names)
  }

  function Names(members: seq<Member>): set<Path> {
    set i | 0 <= i < |members| :: members[i].name
  }

  predicate Distinct(members: seq<Member>) {
    forall i, j :: 0 <= i < j < |members| ==> members[i].name != members[j].name
  }

  /** No member is inside another one that is a link. */
  predicate ClearOfLinks(members: seq<Member>, i: nat)
    requires i < |members|
  {
    forall j :: 0 <= j < |members| && IsLink(members[j]) ==> !(members[j].name < members[i].name)
  }

  predicate Admissible(members: seq<Member>) {
    && members != []
    && (forall i :: 0 <= i < |members| ==> SafeName(members[i]) && !members[i].kind.Special?)
    && Distinct(members)
    && forall i :: 0 <= i < |members| ==> SafeLink(members[i], Names(members)) && ClearOfLinks(members, i)
  }

  function TotalSize(members: seq<Member>): nat {
    if members == [] then 0
    else TotalSize(members[..|members| - 1]) + match members[|members| - 1].kind case File(size) => size case _ => 0
  }

  method SafeLinkTarget(m: Member, names: set<Path>) returns (ok: bool)
    requires m.name != []
    ensures ok <==> SafeLink(m, names)
  {
    if !IsLink(m) {
      return true;
    }
    if m.kind.target.absolute {
      return false;
    }
    var combined := Aim(m);
    var parts: Path := [];
    for i := 0 to |combined|
      invariant Normal(combined[..i]) == Some(parts)
    {
      assert combined[..i + 1][..i] == combined[..i];
      if combined[i] == ".." {
        if parts == [] {
          NormalFails(combined, i + 1);
          return false;
        }
        parts := parts[..|parts| - 1];
      } else {
        parts := parts + [combined[i]];
      }
    }
    assert combined[..|combined|] == combined;
    return parts != [] && parts[0] == ROOT && (m.kind.Hard? ==> parts in names);
  }

  function LinkNames(members: seq<Member>): set<Path> {
    set i | 0 <= i < |members| && IsLink(members[i]) :: members[i].name
  }

  predicate Named(members: seq<Member>) {
    (forall i :: 0 <= i < |members| ==> SafeName(members[i]) && !members[i].kind.Special?) && Distinct(members)
  }

  lemma OneMoreNamed(members: seq<Member>, i: nat)
    requires i < |members|
    ensures var before, now := members[..i], members[..i + 1];
            && now == before + [members[i]] && TotalSize(now) == TotalSize(before)
                 + (match members[i].kind case File(size) => size case _ => 0)
            && Names(now) == Names(before) + {members[i].name}
            && (Named(now) <==>
                 Named(before) && SafeName(members[i]) && !members[i].kind.Special?
                     && members[i].name !in Names(before))
  {
    var before, now := members[..i], members[..i + 1];
    assert now == before + [members[i]] && now[..i] == before;
  }

  lemma OneMoreLink(members: seq<Member>, i: nat)
    requires i < |members|
    ensures LinkNames(members[..i + 1]) ==
            LinkNames(members[..i]) + if IsLink(members[i]) then {members[i].name} else {}
  {
    assert members[..i + 1] == members[..i] + [members[i]];
  }

  lemma NamedFrom(members: seq<Member>, i: nat)
    requires i <= |members| && !Named(members[..i])
    ensures !Named(members)
  {
  }

  method InspectNames(members: seq<Member>) returns (r: Result<nat>, names: set<Path>, linkNames: set<Path>)
    ensures r.Ok? <==> Named(members)
    ensures r.Ok? ==> r.value == TotalSize(members) && names == Names(members) && linkNames == LinkNames(members)
    ensures r == Err(DuplicatePath) ==> !Distinct(members)
    ensures r == Err(UnsafePath) ==> exists i :: 0 <= i < |members| && !SafeName(members[i])
    ensures r.Err? ==> r.code == DuplicatePath || r.code == UnsafePath || r.code == UnsupportedEntry
  {
    names, linkNames := {}, {};
    var totalSize := 0;
    for i := 0 to |members|
      invariant names == Names(members[..i]) && totalSize == TotalSize(members[..i])
      invariant linkNames == LinkNames(members[..i])
      invariant Named(members[..i])
    {
      OneMoreNamed(members, i);
      OneMoreLink(members, i);
      if !SafeName(members[i]) {
        r := Err(UnsafePath);
        return;
      }
      if members[i].name in names {
        r := Err(DuplicatePath);
        return;
      }
      names := names + {members[i].name};
      if members[i].kind.Special? {
        r := Err(UnsupportedEntry);
        return;
      }
      if IsLink(members[i]) {
        linkNames := linkNames + {members[i].name};
      }
      if members[i].kind.File? {
        totalSize := totalSize + members[i].kind.size;
      }
    }
    assert members[..|members|] == members;
    r := Ok(totalSize);
  }

  method InspectLinks(members: seq<Member>, i: nat, names: set<Path>, linkNames: set<Path>) returns (ok: bool)
    requires i < |members| && members[i].name != [] && linkNames == LinkNames(members)
    requires Distinct(members) && forall j :: 0 <= j < |members| ==> members[j].name != []
    ensures ok <==> SafeLink(members[i], names) && ClearOfLinks(members, i)
  {
    ok := SafeLinkTarget(members[i], names);
    if !ok {
      return;
    }
    var parts := members[i].name;
    for index := 1 to |parts|
      invariant forall k :: 1 <= k < index ==> parts[..k] !in linkNames
    {
      if parts[..index] in linkNames {
        return false;
      }
    }
    ClearByPrefixes(members, i);
  }

  lemma ClearByPrefixes(members: seq<Member>, i: nat)
    requires i < |members| && forall j :: 0 <= j < |members| ==> members[j].name != []
    ensures var name := members[i].name;
            ClearOfLinks(members, i) <==> forall k :: 1 <= k < |name| ==> name[..k] !in LinkNames(members)
  {
    var name := members[i].name;
    forall k | ClearOfLinks(members, i) && 1 <= k < |name| ensures name[..k] !in LinkNames(members) {
      assert name[..k] < name;
    }
    if forall k :: 1 <= k < |name| ==> name[..k] !in LinkNames(members) {
      forall j | 0 <= j < |members| && IsLink(members[j]) ensures !(members[j].name < name) {
        var other := members[j].name;
        assert other in LinkNames(members);
        if |other| < |name| {
          assert name[..|other|] != other;
        }
      }
    }
  }

  method InspectArchive(members: seq<Member>) returns (r: Result<nat>)
    ensures r.Ok? <==> Admissible(members)
    ensures r.Ok? ==> r.value == TotalSize(members)
    ensures r == Err(EmptyArchive) <==> members == []
    ensures r == Err(UnsafeLink) <==> Named(members) && !Admissible(members) && members != []
    ensures r == Err(DuplicatePath) ==> !Distinct(members)
    ensures r == Err(UnsafePath) ==> exists i :: 0 <= i < |members| && !SafeName(members[i])
  {
    if members == [] {
      return Err(EmptyArchive);
    }
    var names, linkNames;
    r, names, linkNames := InspectNames(members);
    if r.Err? {
      return;
    }
    for i := 0 to |members|
      invariant forall j :: 0 <= j < i ==> SafeLink(members[j], names) && ClearOfLinks(members, j)
    {
      var ok := InspectLinks(members, i, names, linkNames);
      if !ok {
        return Err(UnsafeLink);
      }
    }
  }

  // ----- extraction into a file system whose links are live

  /** What a member leaves at its place.  A hard link leaves a second name of whatever its target was found to be. */
  datatype Node = DirectoryNode | FileNode(member: nat) | LinkNode(target: Target)
  type FileSystem = map<Path, Node>

  /** Where a walk ends. */
  datatype Place = At(path: Path) | Missing(path: Path) | Astray

  const MAX_LINKS: nat := 40

  /** The system's path resolution from directory `at`, following every link on the way. */
  function Walk(fs: FileSystem, at: Path, rest: Path, hops: nat): Place
    decreases hops, |rest|
  {
    if rest == [] then At(at)
    else if rest[0] == ".." then
      if at == [] then Astray else Walk(fs, at[..|at| - 1], rest[1..], hops)
    else
      var next := at + [rest[0]];
      if next !in fs then (if |rest| == 1 then Missing(next) else Astray)
      else match fs[next]
        case DirectoryNode => Walk(fs, next, rest[1..], hops)
        case FileNode(_) => if |rest| == 1 then At(next) else Astray
        case LinkNode(target) =>
          if hops == 0 || target.absolute then Astray else Walk(fs, at, target.parts + rest[1..], hops - 1)
  }

  predicate OnLink(fs: FileSystem, at: Path, rest: Path) {
    exists k :: 0 < k <= |rest| && at + rest[..k] in fs && fs[at + rest[..k]].LinkNode?
  }

  /** A walk through directories that are there ends at the lexical path, whether or not something is there. */
  lemma {:induction false} WalksHome(fs: FileSystem, at: Path, rest: Path, hops: nat)
    requires ".." !in rest && !OnLink(fs, at, rest)
    requires forall k :: 0 < k < |rest| ==> at + rest[..k] in fs && fs[at + rest[..k]].DirectoryNode?
    ensures Walk(fs, at, rest, hops) == if rest == [] || at + rest in fs then At(at + rest) else Missing(at + rest)
    decreases |rest|
  {
    if rest == [] {
      assert at + rest == at;
    } else {
      var next, later := at + [rest[0]], rest[1..];
      assert at + rest[..1] == next && next + later == at + rest && later + [] == later;
      assert forall k :: 0 <= k <= |later| ==> next + later[..k] == at + rest[..k + 1];
      if |rest| == 1 {
        assert at + rest[..1] == at + rest;
      } else {
        WalksHome(fs, next, later, hops);
      }
    }
  }

  /** Links are only where a link member was extracted; everything else but the extracted members is
      a directory on the way to one. */
  ghost predicate Sane(fs: FileSystem, members: seq<Member>, count: nat)
    requires count <= |members|
  {
    && (forall p :: p in fs && fs[p].LinkNode? ==> p in LinkNames(members[..count]))
    && (forall p :: p in fs && p !in Names(members[..count]) ==> fs[p].DirectoryNode? && Above(p, members[..count]))
  }

  predicate Above(p: Path, members: seq<Member>) {
    exists i :: 0 <= i < |members| && p < members[i].name
  }

  /** No link is at the name or above it. */
  predicate Free(fs: FileSystem, name: Path) {
    name != [] && ".." !in name && !OnLink(fs, [], name)
  }

  lemma FreeAbove(fs: FileSystem, name: Path, k: nat)
    requires Free(fs, name) && k <= |name|
    ensures ".." !in name[..k] && !OnLink(fs, [], name[..k])
  {
    forall j | 0 < j <= k ensures !([] + name[..k][..j] in fs && fs[[] + name[..k][..j]].LinkNode?) {
      assert [] + name[..k][..j] == [] + name[..j];
    }
  }

  lemma FreeMember(fs: FileSystem, members: seq<Member>, i: nat)
    requires Admissible(members) && i < |members| && Sane(fs, members, i)
    ensures Free(fs, members[i].name)
  {
    var name := members[i].name;
    assert ClearOfLinks(members, i);
    ClearByPrefixes(members, i);
    forall j | 0 < j <= |name| ensures !([] + name[..j] in fs && fs[[] + name[..j]].LinkNode?) {
      assert [] + name[..j] == name[..j] && name[..|name|] == name;
      assert j < |name| ==> name[..j] !in LinkNames(members);
      assert name !in LinkNames(members[..i]);
      assert name[..j] !in LinkNames(members[..i]);
    }
  }

  /** Nothing changed but the name itself and missing directories above it. */
  predicate Grown(before: FileSystem, fs: FileSystem, name: Path) {
    && (forall p :: p in before && p != name ==> p in fs && fs[p] == before[p])
    && (forall p :: p in fs && p !in before && p != name ==> p < name && fs[p].DirectoryNode?)
  }

  /** The directories above a name are there. */
  ghost predicate Housed(fs: FileSystem, name: Path) {
    forall k :: 0 < k < |name| ==> name[..k] in fs && fs[name[..k]].DirectoryNode?
  }

  /** A file is where a directory above the name should be. */
  ghost predicate Blocked(fs: FileSystem, name: Path) {
    exists k :: 0 < k < |name| && name[..k] in fs && fs[name[..k]].FileNode?
  }

  lemma HousedAbove(fs: FileSystem, name: Path, k: nat)
    requires Free(fs, name) && k <= |name| && Housed(fs, name[..k])
    ensures var w := Walk(fs, [], name[..k], MAX_LINKS);
            w == if k == 0 || name[..k] in fs then At(name[..k]) else Missing(name[..k])
  {
    FreeAbove(fs, name, k);
    assert forall j :: 0 <= j <= k ==> [] + name[..k][..j] == name[..k][..j];
    assert [] + name[..k] == name[..k];
    WalksHome(fs, [], name[..k], MAX_LINKS);
  }

  lemma FreeOfLinks(fs: FileSystem, name: Path, k: nat)
    requires Free(fs, name) && 0 < k <= |name| && name[..k] in fs
    ensures !fs[name[..k]].LinkNode?
  {
    assert [] + name[..k] == name[..k];
  }

  lemma HousedFurther(fs: FileSystem, name: Path, k: nat)
    requires 0 < k < |name| && Housed(fs, name[..k]) && name[..k] in fs && fs[name[..k]].DirectoryNode?
    ensures Housed(fs, name[..k + 1])
  {
    var longer := name[..k + 1];
    forall j | 0 < j < |longer| ensures longer[..j] in fs && fs[longer[..j]].DirectoryNode? {
      assert longer[..j] == if j < k then name[..k][..j] else name[..k];
    }
  }

  /** Making the directories above a member, each at the place its path leads to: it fails exactly where
      a file is in the way. */
  method MakeDirectories(before: FileSystem, name: Path) returns (fs: FileSystem, ok: bool)
    requires Free(before, name)
    ensures Free(fs, name) && Grown(before, fs, name) && (name in fs <==> name in before)
    ensures name in fs ==> fs[name] == before[name]
    ensures if ok then Housed(fs, name) else Blocked(before, name)
  {
    fs := before;
    for k := 1 to |name|
      invariant Free(fs, name) && Grown(before, fs, name) && (name in fs <==> name in before)
      invariant name in fs ==> fs[name] == before[name]
      invariant Housed(fs, name[..k])
    {
      HousedAbove(fs, name, k);
      var w := Walk(fs, [], name[..k], MAX_LINKS);
      if w.Missing? {
        FreeStays(fs, name, k);
        fs := fs[w.path := DirectoryNode];
      }
      FreeOfLinks(fs, name, k);
      if fs[name[..k]].FileNode? {
        ok := false;
        return;
      }
      HousedFurther(fs, name, k);
    }
    assert name[..|name|] == name;
    ok := true;
  }

  lemma FreeStays(fs: FileSystem, name: Path, k: nat)
    requires Free(fs, name) && k <= |name|
    ensures Free(fs[name[..k] := DirectoryNode], name)
  {
    forall j | 0 < j <= |name| ensures !([] + name[..j] in fs[name[..k] := DirectoryNode]
        && fs[name[..k] := DirectoryNode][[] + name[..j]].LinkNode?) {
      assert !([] + name[..j] in fs && fs[[] + name[..j]].LinkNode?);
    }
  }

  /** What is at a member's name once it is extracted. */
  predicate IsMember(node: Node, kind: Kind, i: nat) {
    match kind
    case Folder => node.DirectoryNode?
    case File(_) => node == FileNode(i)
    case Symbolic(target) => node == LinkNode(target)
    case _ => !node.DirectoryNode?
  }

  /** Something else is where the member should be: a file or link where a directory should be, or the
      other way round. */
  predicate Taken(fs: FileSystem, name: Path, kind: Kind) {
    name in fs && (fs[name].DirectoryNode? <==> !kind.Folder?)
  }

  /** One member.  A file is opened through whatever is there; a link replaces what is there.  Whether a
      second name for a hard link's target can be made is up to the system. */
  method ExtractMember(before: FileSystem, name: Path, kind: Kind, i: nat)
      returns (fs: FileSystem, place: Path, ok: bool)
    requires Free(before, name)
    ensures ok ==> place == name && name in fs && IsMember(fs[name], kind, i) && Grown(before, fs, name)
    ensures ok ==> Housed(fs, name) && !Taken(before, name, kind)
    ensures !ok ==> Blocked(before, name) || Taken(before, name, kind) || kind.Hard? || kind.Special?
  {
    var last := name[|name| - 1];
    fs, ok := MakeDirectories(before, name);
    if !ok {
      place := [];
      return;
    }
    HousedParent(fs, name);
    var parent := Walk(fs, [], name[..|name| - 1], MAX_LINKS).path;
    place := parent + [last];
    assert place == name;
    match kind
    case Folder =>
      ok := place !in fs || fs[place].DirectoryNode?;
      fs := if ok then fs[place := DirectoryNode] else fs;
    case File(_) =>
      FreeLast(fs, name);
      WalksHome(fs, parent, [last], MAX_LINKS);
      var w := Walk(fs, parent, [last], MAX_LINKS);
      ok := w.Missing? || (w.At? && !fs[w.path].DirectoryNode?);
      if ok {
        place := w.path;
        fs := fs[place := FileNode(i)];
      }
    case Symbolic(target) =>
      ok := place !in fs || !fs[place].DirectoryNode?;
      fs := if ok then fs[place := LinkNode(target)] else fs;
    case _ =>
      var found: Option<Node> := *;
      ok := found.Some? && !found.value.DirectoryNode? && (place !in fs || !fs[place].DirectoryNode?);
      fs := if ok then fs[place := found.value] else fs;
  }

  lemma HousedParent(fs: FileSystem, name: Path)
    requires Free(fs, name) && Housed(fs, name)
    ensures var parent := name[..|name| - 1];
            Walk(fs, [], parent, MAX_LINKS) == At(parent)
  {
    var parent := name[..|name| - 1];
    assert forall k :: 0 < k < |parent| ==> parent[..k] == name[..k];
    HousedAbove(fs, name, |parent|);
  }

  lemma FreeLast(fs: FileSystem, name: Path)
    requires Free(fs, name)
    ensures var parent, rest := name[..|name| - 1], [name[|name| - 1]];
            parent + rest == name && ".." !in rest && !OnLink(fs, parent, rest)
  {
    var parent, rest := name[..|name| - 1], [name[|name| - 1]];
    assert [] + name[..|name|] == name && parent + rest[..1] == name;
  }

  lemma StillSane(before: FileSystem, fs: FileSystem, members: seq<Member>, i: nat)
    requires i < |members| && Sane(before, members, i) && Grown(before, fs, members[i].name) && members[i].name in fs
    requires fs[members[i].name].LinkNode? ==> IsLink(members[i])
    ensures Sane(fs, members, i + 1)
  {
    var now := members[..i + 1];
    assert now == members[..i] + [members[i]];
    assert forall p :: p in LinkNames(members[..i]) ==> p in LinkNames(now);
    assert Names(now) == Names(members[..i]) + {members[i].name};
    if IsLink(members[i]) {
      assert IsLink(now[i]);
      assert members[i].name in LinkNames(now);
    }
    forall p | p in fs && p !in Names(now) ensures fs[p].DirectoryNode? && Above(p, now) {
      if p in before {
        var j :| 0 <= j < i && p < members[..i][j].name;
        assert now[j] == members[..i][j];
      } else {
        assert p < now[i].name;
      }
    }
  }

  predicate Landed(fs: FileSystem, members: seq<Member>, i: nat)
    requires i < |members|
  {
    members[i].name in fs && IsMember(fs[members[i].name], members[i].kind, i)
  }

  /** After `count` members: each is at its own name below directories, all else are directories above
      some member. */
  ghost predicate Extracted(fs: FileSystem, members: seq<Member>, count: nat)
    requires count <= |members|
  {
    Sane(fs, members, count) && forall j :: 0 <= j < count ==> Landed(fs, members, j) && Housed(fs, members[j].name)
  }

  lemma StillHoused(before: FileSystem, fs: FileSystem, name: Path, added: Path)
    requires Housed(before, name) && Grown(before, fs, added) && added in fs
    requires added in before ==> before[added].DirectoryNode? == fs[added].DirectoryNode?
    ensures Housed(fs, name)
  {
  }

  lemma OneMore(before: FileSystem, fs: FileSystem, members: seq<Member>, i: nat)
    requires i < |members| && Extracted(before, members, i) && Grown(before, fs, members[i].name)
            && Landed(fs, members, i) && Housed(fs, members[i].name)
    requires Distinct(members) && !members[i].kind.Special? && !Taken(before, members[i].name, members[i].kind)
    ensures Extracted(fs, members, i + 1)
  {
    StillSane(before, fs, members, i);
    forall j | 0 <= j < i ensures Landed(fs, members, j) && Housed(fs, members[j].name) {
      assert members[j].name != members[i].name && Landed(before, members, j);
      StillHoused(before, fs, members[j].name, members[i].name);
    }
  }

  /** A file is in the way of another member. */
  predicate FileAbove(members: seq<Member>) {
    exists i, j :: 0 <= i < |members| && 0 <= j < |members| && IsFileAbove(members[i], members[j])
  }

  predicate IsFileAbove(m: Member, n: Member) {
    m.kind.File? && m.name < n.name
  }

  predicate HasHardLink(members: seq<Member>) {
    exists i :: 0 <= i < |members| && members[i].kind.Hard?
  }

  lemma InTheWay(fs: FileSystem, members: seq<Member>, i: nat)
    requires Admissible(members) && i < |members| && Extracted(fs, members, i)
    requires Blocked(fs, members[i].name) || Taken(fs, members[i].name, members[i].kind)
    ensures FileAbove(members)
  {
    var name := members[i].name;
    if Blocked(fs, name) {
      var k :| 0 < k < |name| && name[..k] in fs && fs[name[..k]].FileNode?;
      var j :| 0 <= j < i && members[..i][j].name == name[..k];
      assert Landed(fs, members, j) && members[j].name < name && ClearOfLinks(members, i);
      assert IsFileAbove(members[j], members[i]);
    } else {
      assert name !in Names(members[..i]);
      var j :| 0 <= j < i && name < members[..i][j].name;
      assert ClearOfLinks(members, j) && name < members[j].name;
      assert IsFileAbove(members[i], members[j]);
    }
  }

  lemma NotAbove(fs: FileSystem, p: Path, name: Path)
    requires p != [] && p in fs && fs[p].FileNode? && Housed(fs, name)
    ensures !(p < name)
  {
    var above := name[..if |p| <= |name| then |p| else 0];
    assert p < name ==> above == p;
  }

  lemma NothingInTheWay(fs: FileSystem, members: seq<Member>)
    requires Named(members) && Extracted(fs, members, |members|)
    ensures !FileAbove(members)
  {
    forall i, j | 0 <= i < |members| && 0 <= j < |members| && members[i].kind.File?
      ensures !IsFileAbove(members[i], members[j])
    {
      assert Landed(fs, members, i) && SafeName(members[i]);
      NotAbove(fs, members[i].name, members[j].name);
    }
  }

  method ExtractNext(before: FileSystem, members: seq<Member>, i: nat)
      returns (fs: FileSystem, place: Path, ok: bool)
    requires Admissible(members) && i < |members| && Extracted(before, members, i)
    ensures ok ==> Extracted(fs, members, i + 1) && place == members[i].name
    ensures !ok ==> FileAbove(members) || HasHardLink(members)
  {
    FreeMember(before, members, i);
    fs, place, ok := ExtractMember(before, members[i].name, members[i].kind, i);
    if ok {
      OneMore(before, fs, members, i);
    } else if !members[i].kind.Hard? {
      InTheWay(before, members, i);
    }
  }

  lemma NothingYet(members: seq<Member>)
    ensures Extracted(map[], members, 0)
  {
  }

  /** The whole archive, member by member, until one cannot be extracted: without hard links that is
      exactly when a file is in the way of another member. */
  method ExtractArchive(members: seq<Member>) returns (fs: FileSystem, places: seq<Path>, ok: bool)
    requires Admissible(members)
    ensures |places| <= |members| && (ok ==> |places| == |members|)
    ensures forall i :: 0 <= i < |places| ==> places[i] == members[i].name
    ensures ok ==> Extracted(fs, members, |members|) && !FileAbove(members)
    ensures !ok ==> FileAbove(members) || HasHardLink(members)
  {
    fs, places, ok := ExtractAll(members);
    if ok {
      NothingInTheWay(fs, members);
    }
  }

  predicate Placed(places: seq<Path>, members: seq<Member>) {
    |places| <= |members| && forall i :: 0 <= i < |places| ==> places[i] == members[i].name
  }

  method ExtractAll(members: seq<Member>) returns (fs: FileSystem, places: seq<Path>, ok: bool)
    requires Admissible(members)
    ensures Placed(places, members) && (ok ==> |places| == |members|)
    ensures ok ==> Extracted(fs, members, |members|)
    ensures !ok ==> FileAbove(members) || HasHardLink(members)
  {
    fs, places, ok := map[], [], true;
    NothingYet(members);
    for i := 0 to |members|
      invariant ok && |places| == i && Extracted(fs, members, i)
      invariant Placed(places, members)
    {
      var place;
      fs, place, ok := ExtractNext(fs, members, i);
      if !ok {
        return;
      }
      places := places + [place];
    }
  }

  /** Everything in an extracted archive is under the root directory. */
  lemma UnderRoot(fs: FileSystem, members: seq<Member>, p: Path)
    requires Named(members) && Extracted(fs, members, |members|) && p in fs && p != []
    ensures p[0] == ROOT
  {
    assert members[..|members|] == members;
    if p in Names(members) {
      var i :| 0 <= i < |members| && members[i].name == p;
      assert SafeName(members[i]);
    } else {
      var i :| 0 <= i < |members| && p < members[i].name;
      assert SafeName(members[i]) && members[i].name[..|p|] == p;
    }
  }

  /** The root is a directory of its own, or something is inside it. */
  predicate HasRoot(members: seq<Member>) {
    exists i :: 0 <= i < |members| && members[i].name != [] && (members[i].name == [ROOT] ==> members[i].kind.Folder?)
  }

  lemma RootAt(fs: FileSystem, members: seq<Member>, i: nat)
    requires Admissible(members) && Extracted(fs, members, |members|) && i < |members|
    ensures members[i].name != [] && [ROOT] in fs
    ensures (members[i].name == [ROOT] ==> members[i].kind.Folder?) ==> fs[[ROOT]].DirectoryNode?
    ensures members[i].name == [ROOT] && !members[i].kind.Folder? ==> !fs[[ROOT]].DirectoryNode?
  {
    var m := members[i];
    assert Landed(fs, members, i) && SafeName(m) && Housed(fs, m.name);
    assert m.name[..1] == [ROOT];
    if |m.name| == 1 {
      assert m.name == [ROOT];
    }
  }

  lemma RootThere(fs: FileSystem, members: seq<Member>)
    requires Admissible(members) && Extracted(fs, members, |members|)
    ensures [ROOT] in fs && (fs[[ROOT]].DirectoryNode? <==> HasRoot(members))
  {
    RootAt(fs, members, 0);
    if HasRoot(members) {
      var i :| 0 <= i < |members| && members[i].name != [] && (members[i].name == [ROOT] ==> members[i].kind.Folder?);
      RootAt(fs, members, i);
    }
  }

  /** Admission, extraction, and the check that the one top-level directory is there and is one. */
  method ExtractChecked(members: seq<Member>) returns (r: Option<FileSystem>)
    ensures r.Some? ==> Admissible(members) && Extracted(r.value, members, |members|)
    ensures r.Some? ==> [ROOT] in r.value && r.value[[ROOT]].DirectoryNode?
    ensures r.Some? ==> HasRoot(members) && !FileAbove(members)
    ensures Admissible(members) && HasRoot(members) && !FileAbove(members) && !HasHardLink(members) ==> r.Some?
  {
    var admitted := InspectArchive(members);
    if admitted.Err? {
      return None;
    }
    var fs, places, ok := ExtractArchive(members);
    if ok {
      RootThere(fs, members);
    }
    if ok && [ROOT] in fs && fs[[ROOT]].DirectoryNode? {
      return Some(fs);
    }
    return None;
  }
}
