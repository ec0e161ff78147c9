/** The rollback backup: copy, checksum, commit marker, load and restore, file by file. */
module Backup {
  import opened Options

  type Content = seq<bv8>
  type Path = seq<string> // relative to the directory a tree describes

  /** A link carries what reading through it yields; nothing if it dangles or leads to a directory. */
  datatype Node = Directory | Regular(content: Content) | Link(behind: Option<Content>)
  type Tree = map<Path, Node>

  /** Hashing is taken to be injective. */
  datatype Digest = Sha256(of: Content)

  datatype Metadata = Metadata(
    format: int, complete: bool, backupId: string, previous: string, checksums: map<Path, Digest>)
  datatype Marker = Unreadable | Parsed(metadata: Metadata)

  datatype Code =
    | BackupIncomplete | IdInvalid | RollbackIncomplete | RollbackCorrupt
    | RollbackInvalid | CopyFailed | SyncFailed
  datatype Result<+T> = Ok(value: T) | Err(code: Code)
  datatype Outcome = Finished | Failed(code: Code) | PowerLost

  const PROGRAM_ITEMS: seq<string> :=
    ["bin", "lib", "systemd", "scripts", "VERSION", "package-info.json", "MANIFEST.sha256", "README.md",
     "MANIFEST.sha256.sig"]

  const DIRECTORIES: seq<string> := ["bin", "lib", "systemd", "scripts", "config"]

  const REQUIRED: seq<Path> := [
    ["bin", "edge-controller"], ["bin", "edge-web"], ["config", "edge-controller.env.default"],
    ["systemd", "edge-controller.service"], ["systemd", "edge-web.service"], ["systemd", "edge-log-rotator.service"],
    ["systemd", "edge-upgrade@.service"], ["scripts", "install.sh"], ["scripts", "verify-install.sh"],
    ["scripts", "rotate-logs.sh"], ["scripts", "update-manager.py"],
    ["VERSION"], ["package-info.json"], ["MANIFEST.sha256"], ["README.md"]]

  const ENVIRONMENT: Path := ["edge-controller.env"]
  const REGULAR: seq<Path> := [["program", "VERSION"], ["program", "package-info.json"],
      ["program", "MANIFEST.sha256"], ENVIRONMENT]
  const DATABASES: seq<string> := ["edge-config.db", "edge-history.db", "edge-events.db"]
  const LIVE_DEFAULTS: Path := ["config", "edge-controller.env.default"]
  const LIVE_ENVIRONMENT: Path := ["config", "edge-controller.env"]

  predicate Digits(s: string, letters: bool) {
    forall i :: 0 <= i < |s| ==> '0' <= s[i] <= '9' || (letters && 'a' <= s[i] <= 'f')
  }

  predicate JobId(s: string) {
    |s| == 25 && Digits(s[..8], false) && s[8] == 'T' && Digits(s[9..15], false) && s[15..17] == "Z-"
        && Digits(s[17..], true)
  }

  predicate IsDirectory(t: Tree, p: Path) {
    p in t && t[p].Directory?
  }

  predicate IsRegular(t: Tree, p: Path) {
    p in t && t[p].Regular?
  }

  // ----- what a backup must hold, and what its checksums cover

  predicate Within(p: Path, directory: string) {
    |p| > 1 && p[0] == directory
  }

  predicate ProgramWhole(t: Tree) {
    && (forall i :: 0 <= i < |DIRECTORIES| ==> IsDirectory(t, ["program", DIRECTORIES[i]]))
    && (forall i :: 0 <= i < |REQUIRED| ==> ["program"] + REQUIRED[i] in t)
  }

  predicate Complete(t: Tree) {
    && ProgramWhole(t)
    && (forall i :: 0 <= i < |REGULAR| ==> IsRegular(t, REGULAR[i]))
    && IsDirectory(t, ["data"])
    && (forall p :: p in t && Within(p, "data") ==> !t[p].Link?)
    && (forall i :: 0 <= i < |DATABASES| ==> IsRegular(t, ["data", DATABASES[i]]))
  }

  predicate Covers(t: Tree, p: Path) {
    IsRegular(t, p) && (Within(p, "program") || Within(p, "data") || p == ENVIRONMENT)
  }

  function Checksums(t: Tree): map<Path, Digest> {
    map p | p in t && Covers(t, p) :: Sha256(t[p].content)
  }

  predicate Header(m: Metadata, name: string, expected: string) {
    m.format == 1 && m.complete && JobId(m.backupId) && m.backupId == name
        && (expected == "" || m.backupId == expected) && m.checksums != map[]
  }

  predicate Matches(t: Tree, p: Path, digest: Digest) {
    IsRegular(t, p) && Sha256(t[p].content) == digest
  }

  /** A loadable backup: a valid marker, and every file it lists present and unchanged. */
  predicate Accepted(t: Tree, marker: Option<Marker>, name: string, expected: string) {
    && marker.Some? && marker.value.Parsed?
    && var m := marker.value.metadata;
       Header(m, name, expected) && forall p :: p in m.checksums ==> Matches(t, p, m.checksums[p])
  }

  function Hashed(t: Tree, paths: set<Path>, directory: string): map<Path, Digest> {
    map p | p in paths && IsRegular(t, p) && Within(p, directory) :: Sha256(t[p].content)
  }

  method HashAll(t: Tree, directory: string) returns (checksums: map<Path, Digest>)
    ensures checksums == Hashed(t, t.Keys, directory)
  {
    checksums := map[];
    var rest := t.Keys;
    while rest != {}
      invariant rest <= t.Keys
      invariant checksums == Hashed(t, t.Keys - rest, directory)
    {
      var p :| p in rest;
      if Within(p, directory) && t[p].Regular? {
        checksums := checksums[p := Sha256(t[p].content)];
      }
      rest := rest - {p};
    }
  }

  method LinkBelow(t: Tree, directory: string) returns (found: bool)
    ensures found <==> exists p :: p in t && Within(p, directory) && t[p].Link?
  {
    found := false;
    var rest := t.Keys;
    while rest != {}
      invariant rest <= t.Keys
      invariant found <==> exists p :: p in t && p !in rest && Within(p, directory) && t[p].Link?
    {
      var p :| p in rest;
      if Within(p, directory) && t[p].Link? {
        found := true;
      }
      rest := rest - {p};
    }
  }

  method ProgramCheck(t: Tree) returns (ok: bool)
    ensures ok <==> ProgramWhole(t)
  {
    for i := 0 to |DIRECTORIES|
      invariant forall j :: 0 <= j < i ==> IsDirectory(t, ["program", DIRECTORIES[j]])
    {
      if !IsDirectory(t, ["program", DIRECTORIES[i]]) {
        return false;
      }
    }
    for i := 0 to |REQUIRED|
      invariant forall j :: 0 <= j < i ==> ["program"] + REQUIRED[j] in t
    {
      if ["program"] + REQUIRED[i] !in t {
        return false;
      }
    }
    return true;
  }

  method BackupChecksums(t: Tree) returns (r: Result<map<Path, Digest>>)
    ensures r == if Complete(t) then Ok(Checksums(t)) else Err(BackupIncomplete)
  {
    var whole := ProgramCheck(t);
    if !whole {
      return Err(BackupIncomplete);
    }
    var checksums := HashAll(t, "program");
    for i := 0 to |REGULAR|
      invariant forall j :: 0 <= j < i ==> IsRegular(t, REGULAR[j])
      invariant i < 4 ==> checksums == Hashed(t, t.Keys, "program")
      invariant i == 4 ==>
                IsRegular(t, ENVIRONMENT) && checksums ==
                    Hashed(t, t.Keys, "program")[ENVIRONMENT := Sha256(t[ENVIRONMENT].content)]
    {
      if !IsRegular(t, REGULAR[i]) {
        return Err(BackupIncomplete);
      }
      checksums := checksums[REGULAR[i] := Sha256(t[REGULAR[i]].content)];
    }
    var linked := LinkBelow(t, "data");
    if !IsDirectory(t, ["data"]) || linked {
      return Err(BackupIncomplete);
    }
    var hashed := HashAll(t, "data");
    checksums := checksums + hashed;
    for i := 0 to |DATABASES|
      invariant forall j :: 0 <= j < i ==> IsRegular(t, ["data", DATABASES[j]])
    {
      if ["data", DATABASES[i]] !in checksums {
        assert Within(["data", DATABASES[i]], "data");
        return Err(BackupIncomplete);
      }
    }
    assert IsRegular(t, REGULAR[3]);
    assert checksums == Checksums(t);
    return Ok(checksums);
  }

  /** Reading a backup that may be unfinished or damaged. */
  method LoadCompleteBackup(t: Tree, marker: Option<Marker>, name: string, expected: string)
      returns (r: Result<Metadata>)
    ensures r.Ok? <==> Accepted(t, marker, name, expected)
    ensures r.Ok? ==> marker == Some(Parsed(r.value))
    ensures r.Err? ==> r.code == RollbackIncomplete || r.code == RollbackCorrupt
    ensures marker.None? || marker.value.Unreadable? ==> r == Err(RollbackIncomplete)
    ensures r == Err(RollbackCorrupt) ==>
              exists p ::
                  p in t && p in marker.value.metadata.checksums && !Matches(t, p, marker.value.metadata.checksums[p])
  {
    if marker.None? || marker.value.Unreadable? || !Header(marker.value.metadata, name, expected) {
      return Err(RollbackIncomplete);
    }
    var m := marker.value.metadata;
    var rest := m.checksums.Keys;
    while rest != {}
      invariant rest <= m.checksums.Keys
      invariant forall p :: p in m.checksums && p !in rest ==> Matches(t, p, m.checksums[p])
    {
      var p :| p in rest;
      var astray: bool := *; // a link that dangles or leaves the directory
      if p !in t || (t[p].Link? && astray) {
        return Err(RollbackIncomplete);
      }
      if !Matches(t, p, m.checksums[p]) {
        return Err(RollbackCorrupt);
      }
      rest := rest - {p};
    }
    return Ok(m);
  }

  /** What a backup committed as `t` must still be for it to load: exactly its checksummed files. */
  lemma LoadIsExact(t: Tree, later: Tree, id: string, previous: string)
    requires Complete(t) && JobId(id)
    ensures Accepted(later, Some(Parsed(Metadata(1, true, id, previous, Checksums(t)))), id, id) <==>
            forall p :: p in t && Covers(t, p) ==> p in later && later[p] == t[p]
  {
    var m := Metadata(1, true, id, previous, Checksums(t));
    assert IsRegular(t, REGULAR[3]);
    assert ENVIRONMENT in m.checksums;
    if forall p :: p in t && Covers(t, p) ==> p in later && later[p] == t[p] {
      assert forall p :: p in m.checksums ==> Matches(later, p, m.checksums[p]);
    }
    if Accepted(later, Some(Parsed(m)), id, id) {
      forall p | p in t && Covers(t, p) ensures p in later && later[p] == t[p] {
        assert p in m.checksums && Matches(later, p, m.checksums[p]);
      }
    }
  }

  // ----- taking a backup

  function Below(t: Tree, item: string): set<Path> {
    set p | p in t && |p| > 0 && p[0] == item
  }

  function Saved(t: Tree, count: nat): set<Path>
    requires count <= |PROGRAM_ITEMS|
  {
    set p | p in t && |p| > 0 && p[0] in PROGRAM_ITEMS[..count]
  }

  /** The nodes of `t` at the given paths, moved into the program directory. */
  function Moved(t: Tree, paths: set<Path>): Tree {
    var images := set p | p in paths :: ["program"] + p;
    map q | q in images && q[1..] in t :: t[q[1..]]
  }

  lemma MovedOne(t: Tree, paths: set<Path>, p: Path)
    requires p in t
    ensures Moved(t, paths + {p}) == Moved(t, paths)[["program"] + p := t[p]]
  {
    var image := ["program"] + p;
    assert image[1..] == p;
    assert forall q: Path :: q in paths + {p} && ["program"] + q != image ==> q in paths;
    var all := set q | q in paths + {p} :: ["program"] + q;
    var some := set q | q in paths :: ["program"] + q;
    assert all == some + {image};
  }

  /** What reading a file yields, through a link if it is one. */
  function Opened(t: Tree, p: Path): Option<Content> {
    if p !in t || t[p].Directory? then None
    else if t[p].Link? then t[p].behind
    else Some(t[p].content)
  }

  /** What a copy that does not keep links leaves. */
  function Followed(n: Node): Node {
    if n.Link? && n.behind.Some? then Regular(n.behind.value) else n
  }

  function Snapshot(t: Tree): Tree {
    map p | p in t && |p| > 0 && p[0] == "data" :: Followed(t[p])
  }

  const DEFAULTS: Path := ["program", "config", "edge-controller.env.default"]
  const INITIAL: Path := ["program", "config", "edge-controller.env"]

  /** A backup directory once the program part of a backup of `t` and the environment file are in it. */
  function WithProgram(base: Tree, t: Tree): Tree
    requires Opened(t, LIVE_DEFAULTS).Some? && Opened(t, LIVE_ENVIRONMENT).Some?
  {
    Framed(base[["program"] := Directory] + Moved(t, Saved(t, |PROGRAM_ITEMS|)), t)
  }

  function Framed(base: Tree, t: Tree): Tree
    requires Opened(t, LIVE_DEFAULTS).Some? && Opened(t, LIVE_ENVIRONMENT).Some?
  {
    base
    [["program", "config"] := Directory]
    [DEFAULTS := t[LIVE_DEFAULTS]]
    [INITIAL := Regular(Opened(t, LIVE_DEFAULTS).value)]
    [ENVIRONMENT := Regular(Opened(t, LIVE_ENVIRONMENT).value)]
  }

  predicate ProgramPath(p: Path) {
    |p| > 0 && p[0] in PROGRAM_ITEMS
  }

  predicate DataPath(p: Path) {
    |p| > 0 && p[0] == "data"
  }

  /** Every live path under a program item is in the backup, with its node. */
  ghost predicate HoldsProgram(t: Tree, live: Tree) {
    forall p :: p in live && ProgramPath(p) ==> ["program"] + p in t && t[["program"] + p] == live[p]
  }

  ghost predicate HoldsConfiguration(t: Tree, live: Tree) {
    && IsDirectory(t, ["program"]) && IsDirectory(t, ["program", "config"])
    && Opened(live, LIVE_DEFAULTS).Some? && Opened(live, LIVE_ENVIRONMENT).Some?
    && DEFAULTS in t && t[DEFAULTS] == live[LIVE_DEFAULTS]
    && INITIAL in t && t[INITIAL] == Regular(Opened(live, LIVE_DEFAULTS).value)
    && ENVIRONMENT in t && t[ENVIRONMENT] == Regular(Opened(live, LIVE_ENVIRONMENT).value)
  }

  /** The data is that of `stopped`, with links replaced by what they read, and nothing else. */
  ghost predicate HoldsData(t: Tree, stopped: Tree) {
    forall p :: DataPath(p) ==> (p in t <==> p in stopped) && (p in stopped ==> t[p] == Followed(stopped[p]))
  }

  predicate Configuration(p: Path) {
    p == ["program"] || p == ["program", "config"] || p == DEFAULTS || p == INITIAL || p == ENVIRONMENT
  }

  predicate ItemPath(p: Path, live: Tree) {
    |p| > 0 && p[0] == "program" && p[1..] in live && ProgramPath(p[1..])
  }

  ghost predicate NothingElse(t: Tree, live: Tree) {
    forall q :: q in t ==> Configuration(q) || DataPath(q) || ItemPath(q, live)
  }

  /** A backup of the program and environment of `live` and the data of `stopped`, node by node: everything that
      belongs in it, and nothing else. */
  ghost predicate BackupOf(t: Tree, live: Tree, stopped: Tree) {
    HoldsProgram(t, live) && HoldsConfiguration(t, live) && HoldsData(t, stopped) && NothingElse(t, live)
  }

  function Committed(t: Tree, id: string, previous: string): Option<Marker> {
    Some(Parsed(Metadata(1, true, id, previous, Checksums(t))))
  }

  /** A backup directory on a device whose power fails after `power` more durable writes. */
  class BackupDirectory {
    const name: string
    var nodes: Tree
    var marker: Option<Marker>
    var power: nat

    constructor (name: string, power: nat)
      ensures this.name == name && this.power == power && nodes == map[] && marker == None
    {
      this.name := name;
      this.power := power;
      nodes := map[];
      marker := None;
    }

    method Put(p: Path, node: Node) returns (ok: bool)
      modifies this`nodes, this`power
      ensures ok <==> old(power) > 0
      ensures nodes == if ok then old(nodes)[p := node] else old(nodes)
      ensures !ok ==> power == 0
    {
      ok := power > 0;
      if ok {
        power := power - 1;
        nodes := nodes[p := node];
      }
    }

    /** A file is there, with some content, before it has its own. */
    method Copy(p: Path, node: Node) returns (ok: bool)
      modifies this`nodes, this`power
      ensures ok ==> nodes == old(nodes)[p := node]
      ensures !ok ==> power == 0
    {
      ok := true;
      if node.Regular? {
        var torn: Content := *;
        ok := Put(p, Regular(torn));
      }
      if ok {
        ok := Put(p, node);
      }
    }

    method CopyEntry(t: Tree, item: string) returns (ok: bool)
      modifies this`nodes, this`power
      ensures ok ==> nodes == old(nodes) + Moved(t, Below(t, item))
      ensures !ok ==> power == 0
    {
      var rest := Below(t, item);
      ghost var done: set<Path> := {};
      while rest != {}
        invariant done + rest == Below(t, item)
        invariant nodes == old(nodes) + Moved(t, done)
      {
        var p :| p in rest;
        ok := Copy(["program"] + p, t[p]);
        if !ok {
          return;
        }
        MovedOne(t, done, p);
        done := done + {p};
        rest := rest - {p};
      }
      assert done == Below(t, item);
      ok := true;
    }

    method CopyEntries(t: Tree) returns (ok: bool)
      modifies this`nodes, this`power
      ensures ok ==> nodes == old(nodes) + Moved(t, Saved(t, |PROGRAM_ITEMS|))
      ensures !ok ==> power == 0
    {
      for i := 0 to |PROGRAM_ITEMS|
        invariant nodes == old(nodes) + Moved(t, Saved(t, i))
      {
        ok := CopyEntry(t, PROGRAM_ITEMS[i]);
        if !ok {
          return;
        }
        MovedMore(old(nodes), t, i);
      }
      ok := true;
    }

    method CreateProgramBackup(t: Tree) returns (o: Outcome)
      modifies this`nodes, this`power
      ensures o.Finished? ==>
                old(["program"] !in nodes) && Opened(t, LIVE_DEFAULTS).Some? && Opened(t, LIVE_ENVIRONMENT).Some?
      ensures o.Finished? ==> nodes == WithProgram(old(nodes), t)
      ensures o.Failed? ==>
                && o.code == CopyFailed
                && (["program"] in old(nodes) || Opened(t, LIVE_DEFAULTS).None? || Opened(t, LIVE_ENVIRONMENT).None?)
      ensures o.PowerLost? ==> power == 0
    {
      if ["program"] in nodes {
        return Failed(CopyFailed);
      }
      var ok := Put(["program"], Directory);
      if !ok { return PowerLost; }
      ok := CopyEntries(t);
      if !ok { return PowerLost; }
      ok := Put(["program", "config"], Directory);
      if !ok { return PowerLost; }
      if LIVE_DEFAULTS in t {
        ok := Copy(DEFAULTS, t[LIVE_DEFAULTS]);
        if !ok { return PowerLost; }
      }
      var defaults, environment := Opened(t, LIVE_DEFAULTS), Opened(t, LIVE_ENVIRONMENT);
      if defaults.None? {
        return Failed(CopyFailed);
      }
      ok := Copy(INITIAL, Regular(defaults.value));
      if !ok { return PowerLost; }
      if environment.None? {
        return Failed(CopyFailed);
      }
      ok := Copy(ENVIRONMENT, Regular(environment.value));
      o := if ok then Finished else PowerLost;
    }

    /** Links are followed: `t` shows a link to a directory, also the data directory itself, as the directory
        it leads to.  A link that cannot be read fails the copy, after everything else was copied. */
    method CopyData(t: Tree) returns (o: Outcome)
      modifies this`nodes, this`power
      ensures o.Finished? ==> IsDirectory(t, ["data"]) && nodes == old(nodes) + Snapshot(t)
      ensures o.Finished? ==> forall p :: p in Snapshot(t) ==> !Snapshot(t)[p].Link?
      ensures o.Failed? ==>
                && o.code == CopyFailed
                && (["data"] in old(nodes) || !IsDirectory(t, ["data"]) || exists p ::
                       p in Snapshot(t) && Snapshot(t)[p].Link?)
      ensures o.PowerLost? ==> power == 0
    {
      if ["data"] in nodes || !IsDirectory(t, ["data"]) {
        return Failed(CopyFailed);
      }
      var unread := false;
      var rest := Below(t, "data");
      while rest != {}
        invariant rest <= Below(t, "data")
        invariant unread || nodes == old(nodes) + map p | p in t && p in Below(t, "data") - rest :: Followed(t[p])
        invariant unread <==> exists p :: p in Below(t, "data") - rest && Followed(t[p]).Link?
      {
        var p :| p in rest;
        var node := Followed(t[p]);
        if node.Link? {
          unread := true;
        } else {
          var ok := Copy(p, node);
          if !ok { return PowerLost; }
        }
        rest := rest - {p};
      }
      if unread {
        var p :| p in Below(t, "data") - rest && Followed(t[p]).Link?;
        assert p in Snapshot(t) && Snapshot(t)[p].Link?;
        return Failed(CopyFailed);
      }
      assert Snapshot(t) == map p | p in t && p in Below(t, "data") - rest :: Followed(t[p]);
      o := Finished;
    }

    method CommitBackup(id: string, previous: string) returns (o: Outcome)
      modifies this`marker, this`power
      ensures o.Finished? || o == Failed(SyncFailed) ==>
                name == id && JobId(id) && Complete(nodes) && marker == Committed(nodes, id, previous)
      ensures !(o.Finished? || o == Failed(SyncFailed)) ==> marker == old(marker)
      ensures o == Failed(IdInvalid) <==> name != id || !JobId(id)
      ensures o == Failed(BackupIncomplete) <==> name == id && JobId(id) && !Complete(nodes)
      ensures o.Failed? ==> o.code == IdInvalid || o.code == BackupIncomplete || o.code == SyncFailed
      ensures o.PowerLost? ==> power == 0
    {
      if name != id || !JobId(id) {
        return Failed(IdInvalid);
      }
      var checksums := BackupChecksums(nodes);
      if checksums.Err? {
        return Failed(BackupIncomplete);
      }
      if power == 0 {
        return PowerLost;
      }
      power := power - 1;
      marker := Some(Parsed(Metadata(1, true, id, previous, checksums.value)));
      var synced: bool := *;
      o := if synced then Finished else Failed(SyncFailed);
    }
  }

  lemma MovedMore(base: Tree, t: Tree, i: nat)
    requires i < |PROGRAM_ITEMS|
    ensures base + Moved(t, Saved(t, i)) + Moved(t, Below(t, PROGRAM_ITEMS[i])) == base + Moved(t, Saved(t, i + 1))
  {
    SavedOne(t, i);
    MovedUnion(t, Saved(t, i), Below(t, PROGRAM_ITEMS[i]));
  }

  lemma SavedOne(t: Tree, i: nat)
    requires i < |PROGRAM_ITEMS|
    ensures Saved(t, i + 1) == Saved(t, i) + Below(t, PROGRAM_ITEMS[i])
  {
    assert PROGRAM_ITEMS[..i + 1] == PROGRAM_ITEMS[..i] + [PROGRAM_ITEMS[i]];
  }

  lemma MovedUnion(t: Tree, a: set<Path>, b: set<Path>)
    ensures Moved(t, a + b) == Moved(t, a) + Moved(t, b)
  {
    assert forall p: Path :: (["program"] + p)[1..] == p;
  }

  // ----- the commit point, and the way back

  lemma CommittedLoads(t: Tree, id: string, previous: string)
    requires Complete(t) && JobId(id)
    ensures Accepted(t, Committed(t, id, previous), id, id)
  {
    LoadIsExact(t, t, id, previous);
  }

  /** What cannot be backed up: an environment that cannot be read, or data that is missing or holds a link
      that leads nowhere. */
  ghost predicate Uncopyable(live: Tree, stopped: Tree) {
    || Opened(live, LIVE_DEFAULTS).None? || Opened(live, LIVE_ENVIRONMENT).None?
    || !IsDirectory(stopped, ["data"]) || exists p :: p in Snapshot(stopped) && Snapshot(stopped)[p].Link?
  }

  /** Everything but the marker. */
  method FillBackup(id: string, live: Tree, stopped: Tree, power: nat) returns (dir: BackupDirectory, o: Outcome)
    ensures fresh(dir) && dir.name == id && dir.marker == None
    ensures o.Finished? ==> BackupOf(dir.nodes, live, stopped)
    ensures o.Failed? ==> o.code.CopyFailed? && Uncopyable(live, stopped)
    ensures o.PowerLost? ==> dir.power == 0
  {
    dir := new BackupDirectory(id, power);
    o := dir.CreateProgramBackup(live);
    if !o.Finished? {
      return;
    }
    o := dir.CopyData(stopped);
    if o.Finished? {
      IsBackup(live, stopped);
    }
  }

  /** The whole backup: the program while the services run, the data once they have stopped.
      Wherever the power fails, what is left loads if and only if the marker was written. */
  method TakeBackup(id: string, live: Tree, stopped: Tree, previous: string, power: nat)
      returns (dir: BackupDirectory, o: Outcome)
    ensures fresh(dir) && dir.name == id
    ensures Accepted(dir.nodes, dir.marker, id, id) <==> o.Finished? || o == Failed(SyncFailed)
    ensures o.Finished? || o == Failed(SyncFailed) ==>
              BackupOf(dir.nodes, live, stopped) && dir.marker == Committed(dir.nodes, id, previous)
    ensures o == Failed(CopyFailed) ==> Uncopyable(live, stopped)
    ensures o == Failed(BackupIncomplete) ==> BackupOf(dir.nodes, live, stopped) && !Complete(dir.nodes)
    ensures o == Failed(IdInvalid) ==> !JobId(id)
    ensures o.Failed? ==> o.code in {CopyFailed, BackupIncomplete, IdInvalid, SyncFailed}
    ensures o.PowerLost? ==> dir.power == 0
  {
    dir, o := FillBackup(id, live, stopped, power);
    if !o.Finished? {
      return;
    }
    o := dir.CommitBackup(id, previous);
    if o.Finished? || o == Failed(SyncFailed) {
      CommittedLoads(dir.nodes, id, previous);
    } else {
      assert dir.marker == None;
    }
  }

  const INSTALLER: Path := ["program", "scripts", "install.sh"]

  ghost predicate DataFrom(r: Tree, t: Tree) {
    forall p :: DataPath(p) ==> (p in r <==> p in t) && (p in t ==> r[p] == t[p])
  }

  /** The live files after a restore from `t`: the data is that of the backup and nothing else, the environment
      file is that of the backup, and everything else is what the old installer left. */
  ghost predicate RestoredFrom(r: Tree, t: Tree, installed: Tree) {
    && DataFrom(r, t)
    && Opened(t, ENVIRONMENT).Some? && LIVE_ENVIRONMENT in r
    && r[LIVE_ENVIRONMENT] == Regular(Opened(t, ENVIRONMENT).value)
    && forall p :: !DataPath(p) && p != LIVE_ENVIRONMENT ==>
         (p in r <==> p in installed) && (p in installed ==> r[p] == installed[p])
  }

  method RestoreBackup(t: Tree, marker: Option<Marker>, name: string, previous: string, installed: Tree)
      returns (r: Result<Tree>)
    ensures r.Ok? <==> Accepted(t, marker, name, name) && marker.value.metadata.previous == previous &&
                       Opened(t, INSTALLER).Some? && Opened(t, ENVIRONMENT).Some? && IsDirectory(t, ["data"])
    ensures r.Ok? ==> RestoredFrom(r.value, t, installed)
    ensures r.Err? ==> (r.code == RollbackInvalid <==> Accepted(t, marker, name, name))
    ensures r.Err? ==> r.code == RollbackInvalid || r.code == RollbackIncomplete || r.code == RollbackCorrupt
    ensures marker == None ==> r == Err(RollbackIncomplete)
  {
    var metadata := LoadCompleteBackup(t, marker, name, name);
    if metadata.Err? {
      return Err(metadata.code);
    }
    if metadata.value.previous != previous || Opened(t, INSTALLER).None? || Opened(t, ENVIRONMENT).None?
        || !IsDirectory(t, ["data"]) {
      return Err(RollbackInvalid);
    }
    var live := (map p | p in installed && p !in Below(installed, "data") :: installed[p])
                [LIVE_ENVIRONMENT := Regular(Opened(t, ENVIRONMENT).value)];
    live := live + map p | p in t && p in Below(t, "data") :: t[p];
    return Ok(live);
  }

  /** A restore from an undamaged backup brings back the environment file and the data as they were
      when the services had stopped, whatever has become of the live files since, and leaves the program
      the old installer has put there. */
  lemma RestoreBringsBack(t: Tree, live: Tree, stopped: Tree, r: Tree, installed: Tree)
    requires BackupOf(t, live, stopped) && RestoredFrom(r, t, installed)
    ensures Snapshot(r) == Snapshot(stopped)
    ensures Opened(r, LIVE_ENVIRONMENT) == Opened(live, LIVE_ENVIRONMENT)
    ensures forall p :: p in installed && ProgramPath(p) ==> p in r && r[p] == installed[p]
  {
    DataComesBack(t, stopped, r);
    forall p | ProgramPath(p) ensures !DataPath(p) && p != LIVE_ENVIRONMENT {
      ProgramApart(p);
    }
  }

  lemma ProgramApart(p: Path)
    requires ProgramPath(p)
    ensures !DataPath(p) && p != LIVE_ENVIRONMENT
  {
    assert "data" !in PROGRAM_ITEMS && "config" !in PROGRAM_ITEMS;
  }

  lemma DataComesBack(t: Tree, stopped: Tree, r: Tree)
    requires HoldsData(t, stopped) && DataFrom(r, t)
    ensures Snapshot(r) == Snapshot(stopped)
  {
    assert forall p :: p in Snapshot(r) <==> p in r && DataPath(p);
    assert forall p :: p in Snapshot(stopped) <==> p in stopped && DataPath(p);
  }

  // ----- what was copied is a backup

  /** The program part, before the files of the configuration are added. */
  ghost predicate Items(t: Tree, live: Tree) {
    IsDirectory(t, ["program"]) && HoldsProgram(t, live) && forall q :: q in t ==> q == ["program"] || ItemPath(q, live)
  }

  lemma MovedItems(live: Tree)
    ensures Items(map[["program"] := Directory] + Moved(live, Saved(live, |PROGRAM_ITEMS|)), live)
  {
    var paths := Saved(live, |PROGRAM_ITEMS|);
    assert PROGRAM_ITEMS[..|PROGRAM_ITEMS|] == PROGRAM_ITEMS;
    assert forall p :: p in paths <==> p in live && ProgramPath(p);
    MovedExactly(live, paths);
  }

  lemma MovedExactly(live: Tree, paths: set<Path>)
    requires forall p :: p in paths <==> p in live && ProgramPath(p)
    ensures Items(map[["program"] := Directory] + Moved(live, paths), live)
  {
    var t := map[["program"] := Directory] + Moved(live, paths);
    forall p | p in live && ProgramPath(p) ensures ["program"] + p in t && t[["program"] + p] == live[p] {
      assert (["program"] + p)[1..] == p;
      assert ["program"] + p in Moved(live, paths);
    }
  }

  lemma PutApart(t: Tree, live: Tree, q: Path, node: Node)
    requires HoldsProgram(t, live) && NothingElse(t, live) && Configuration(q)
    requires q != ["program"]
    ensures HoldsProgram(t[q := node], live) && NothingElse(t[q := node], live)
  {
    forall p | p in live && ProgramPath(p) ensures ["program"] + p != q {
      ConfigurationApart(p, q);
    }
  }

  /** Paths of the configuration and of the environment are none of the program items. */
  lemma ConfigurationApart(p: Path, q: Path)
    requires ProgramPath(p) && Configuration(q) && q != ["program"]
    ensures ["program"] + p != q
  {
    assert "config" !in PROGRAM_ITEMS;
    assert (["program"] + p)[1] == p[0] && (["program"] + p)[0] == "program";
  }

  lemma NoDataYet(t: Tree, live: Tree)
    requires Items(t, live)
    ensures forall q :: q in t ==> !DataPath(q)
  {
  }

  lemma FramedHolds(base: Tree, live: Tree)
    requires Items(base, live)
    requires Opened(live, LIVE_DEFAULTS).Some? && Opened(live, LIVE_ENVIRONMENT).Some?
    ensures var t := Framed(base, live); HoldsProgram(t, live) && NothingElse(t, live)
  {
    var t := base;
    PutApart(t, live, ["program", "config"], Directory);
    t := t[["program", "config"] := Directory];
    PutApart(t, live, DEFAULTS, live[LIVE_DEFAULTS]);
    t := t[DEFAULTS := live[LIVE_DEFAULTS]];
    PutApart(t, live, INITIAL, Regular(Opened(live, LIVE_DEFAULTS).value));
    t := t[INITIAL := Regular(Opened(live, LIVE_DEFAULTS).value)];
    PutApart(t, live, ENVIRONMENT, Regular(Opened(live, LIVE_ENVIRONMENT).value));
  }

  lemma FramedConfiguration(base: Tree, live: Tree)
    requires IsDirectory(base, ["program"])
    requires Opened(live, LIVE_DEFAULTS).Some? && Opened(live, LIVE_ENVIRONMENT).Some?
    ensures HoldsConfiguration(Framed(base, live), live)
  {
  }

  lemma FramedNoData(base: Tree, live: Tree)
    requires forall q :: q in base ==> !DataPath(q)
    requires Opened(live, LIVE_DEFAULTS).Some? && Opened(live, LIVE_ENVIRONMENT).Some?
    ensures forall q :: q in Framed(base, live) ==> !DataPath(q)
  {
    assert forall q :: q in Framed(base, live) ==> q in base || Configuration(q);
    assert forall q :: Configuration(q) ==> !DataPath(q);
  }

  lemma WithData(t: Tree, live: Tree, stopped: Tree)
    requires HoldsProgram(t, live) && HoldsConfiguration(t, live) && NothingElse(t, live)
    requires forall q :: q in t ==> !DataPath(q)
    ensures BackupOf(t + Snapshot(stopped), live, stopped)
  {
    assert forall q :: q in Snapshot(stopped) <==> q in stopped && DataPath(q);
    assert forall q :: q in t ==> q !in Snapshot(stopped);
  }

  lemma IsBackup(live: Tree, stopped: Tree)
    requires Opened(live, LIVE_DEFAULTS).Some? && Opened(live, LIVE_ENVIRONMENT).Some?
    ensures BackupOf(WithProgram(map[], live) + Snapshot(stopped), live, stopped)
  {
    MovedItems(live);
    FramedIsBackup(map[["program"] := Directory] + Moved(live, Saved(live, |PROGRAM_ITEMS|)), live, stopped);
  }

  lemma FramedIsBackup(base: Tree, live: Tree, stopped: Tree)
    requires Items(base, live)
    requires Opened(live, LIVE_DEFAULTS).Some? && Opened(live, LIVE_ENVIRONMENT).Some?
    ensures BackupOf(Framed(base, live) + Snapshot(stopped), live, stopped)
  {
    NoDataYet(base, live);
    FramedHolds(base, live);
    FramedConfiguration(base, live);
    FramedNoData(base, live);
    WithData(Framed(base, live), live, stopped);
  }

  /** Whatever the old installer leaves, and whatever happened to the live files, a finished backup
      restores; with power lost before the marker there is nothing to restore from. */
  method BackupThenRestore(id: string, live: Tree, stopped: Tree, previous: string, power: nat, installed: Tree)
    returns (o: Outcome, r: Result<Tree>)
    ensures o.Finished? && r.Ok? ==>
              && Snapshot(r.value) == Snapshot(stopped)
              && Opened(r.value, LIVE_ENVIRONMENT) == Opened(live, LIVE_ENVIRONMENT)
              && forall p :: p in installed && ProgramPath(p) ==> p in r.value && r.value[p] == installed[p]
    ensures o.Finished? && r.Err? ==> r.code == RollbackInvalid // the saved install.sh cannot be read
    ensures o.PowerLost? ==> r.Err?
  {
    var dir: BackupDirectory;
    dir, o := TakeBackup(id, live, stopped, previous, power);
    var t, marker := dir.nodes, dir.marker;
    r := RestoreBackup(t, marker, id, previous, installed);
    if o.Finished? {
      assert marker.value.metadata.previous == previous;
      if r.Ok? {
        RestoreBringsBack(t, live, stopped, r.value, installed);
      }
    }
  }

  ghost predicate AlwaysPresent(t: Tree, id: string, previous: string, p: Path) {
    forall later: Tree :: Accepted(later, Committed(t, id, previous), id, id) ==> p in later
  }

  /** The exact reach of the checksums: a path is sure to be there in whatever loads if and only if it was
      a regular file.  A required program file that was a link when it was saved can be missing. */
  lemma OnlyRegularFilesAreSure(t: Tree, id: string, previous: string, p: Path)
    requires Complete(t) && JobId(id)
    ensures AlwaysPresent(t, id, previous, p) <==> p in t && Covers(t, p)
  {
    if p in t && Covers(t, p) {
      forall later: Tree | Accepted(later, Committed(t, id, previous), id, id) ensures p in later {
        LoadIsExact(t, later, id, previous);
      }
    } else {
      var later := t - {p};
      LoadIsExact(t, later, id, previous);
      assert Accepted(later, Committed(t, id, previous), id, id);
    }
  }
}
