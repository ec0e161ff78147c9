/** Where the links of an extracted archive lead on the live file system. */
module ArchiveLinks {
  import opened Options
  import opened Archive

  // ----- walks that meet no link

  /** The walk from `at` along `rest` comes across no link. */
  ghost predicate Linkless(fs: FileSystem, at: Path, rest: Path)
    decreases |rest|
  {
    if rest == [] then true
    else if rest[0] == ".." then at != [] ==> Linkless(fs, at[..|at| - 1], rest[1..])
    else
      var next := at + [rest[0]];
      next in fs ==> !fs[next].LinkNode? && (fs[next].DirectoryNode? ==> Linkless(fs, next, rest[1..]))
  }

  /** Such a walk ends where the path leads on paper, whatever goes up and down on the way. */
  lemma {:induction false} WalksOnPaper(fs: FileSystem, at: Path, rest: Path, hops: nat)
    requires ".." !in at && Linkless(fs, at, rest)
    ensures var w := Walk(fs, at, rest, hops);
            !w.Astray? ==> Normal(at + rest) == Some(w.path)
    decreases |rest|
  {
    if rest == [] {
      NormalOfPlain(at);
      assert at + rest == at;
    } else if rest[0] == ".." {
      if at != [] {
        GoesUp(at, rest);
        WalksOnPaper(fs, at[..|at| - 1], rest[1..], hops);
      }
    } else {
      var next := at + [rest[0]];
      assert next + rest[1..] == at + rest;
      NormalOfPlain(next);
      if next in fs && fs[next].DirectoryNode? {
        WalksOnPaper(fs, next, rest[1..], hops);
      } else if |rest| == 1 {
        assert at + rest == next;
      }
    }
  }

  lemma GoesUp(at: Path, rest: Path)
    requires ".." !in at && at != [] && rest != [] && rest[0] == ".."
    ensures Normal(at + rest) == Normal(at[..|at| - 1] + rest[1..])
  {
    var above, last := at[..|at| - 1], at[|at| - 1];
    assert last in at && above + [last] == at && [last] + [".."] == [last, ".."] && [".."] + rest[1..] == rest;
    assert at + rest == above + [last, ".."] + rest[1..];
    NormalOfPlain(above);
    NormalCancels(above, last, rest[1..]);
  }

  predicate UnderRootPath(p: Path) {
    p != [] && p[0] == ROOT
  }

  /** The link rule is right on the live file system: where the walk from a symbolic link's own directory
      meets no other link and leads to a place, the link is safe exactly if that place is under the root.
      A target that climbs on paper leads to no place at all. */
  lemma SafeMeansInside(fs: FileSystem, m: Member, names: set<Path>, hops: nat)
    requires m.kind.Symbolic? && !m.kind.target.absolute && m.name != [] && ".." !in m.name
    requires Linkless(fs, m.name[..|m.name| - 1], m.kind.target.parts)
    ensures var w := Walk(fs, m.name[..|m.name| - 1], m.kind.target.parts, hops);
            && (!w.Astray? ==> (SafeLink(m, names) <==> UnderRootPath(w.path)))
            && (Climbs(m.name[..|m.name| - 1] + m.kind.target.parts) ==> w.Astray? && !SafeLink(m, names))
  {
    var home := m.name[..|m.name| - 1];
    assert forall x :: x in home ==> x in m.name;
    WalksOnPaper(fs, home, m.kind.target.parts, hops);
    NormalFailsIffClimbs(home + m.kind.target.parts);
  }

  /** So is the rule for names: where the walk along a relative name without ".." meets no link and leads to
      a place, the name is safe exactly if that place is under the root. */
  lemma NamesMeanInside(fs: FileSystem, m: Member, hops: nat)
    requires !m.absolute && ".." !in m.name && Linkless(fs, [], m.name)
    ensures var w := Walk(fs, [], m.name, hops);
            !w.Astray? ==> (SafeName(m) <==> UnderRootPath(w.path))
  {
    WalksOnPaper(fs, [], m.name, hops);
    NormalOfPlain(m.name);
    assert [] + m.name == m.name;
  }

  /** Opening an extracted symbolic link walks its target from the directory the link is in. */
  lemma OpensItsTarget(fs: FileSystem, members: seq<Member>, i: nat, hops: nat)
    requires Admissible(members) && Extracted(fs, members, |members|) && i < |members| && hops > 0
    requires members[i].kind.Symbolic?
    ensures var m := members[i];
            Walk(fs, [], m.name, hops) == Walk(fs, m.name[..|m.name| - 1], m.kind.target.parts, hops - 1)
  {
    var m := members[i];
    assert Landed(fs, members, i) && SafeName(m) && Housed(fs, m.name) && SafeLink(m, Names(members));
    OpensLink(fs, m.name, hops);
  }

  lemma OpensLink(fs: FileSystem, name: Path, hops: nat)
    requires name != [] && ".." !in name && hops > 0 && Housed(fs, name)
    requires name in fs && fs[name].LinkNode? && !fs[name].target.absolute
    ensures Walk(fs, [], name, hops) == Walk(fs, name[..|name| - 1], fs[name].target.parts, hops - 1)
  {
    var parts := fs[name].target.parts;
    assert [] + name == name && parts + [] == parts;
    assert forall k :: 0 < k < |name| ==> [] + name[..k] == name[..k];
    ThroughDirectories(fs, [], name, hops);
  }

  lemma {:induction false} ThroughDirectories(fs: FileSystem, at: Path, rest: Path, hops: nat)
    requires rest != [] && ".." !in rest && hops > 0
    requires forall k :: 0 < k < |rest| ==> at + rest[..k] in fs && fs[at + rest[..k]].DirectoryNode?
    requires at + rest in fs && fs[at + rest].LinkNode? && !fs[at + rest].target.absolute
    ensures Walk(fs, at, rest, hops)
         == Walk(fs, (at + rest)[..|at + rest| - 1], fs[at + rest].target.parts + [], hops - 1)
    decreases |rest|
  {
    var next, later := at + [rest[0]], rest[1..];
    assert at + rest[..1] == next && next + later == at + rest;
    if |rest| == 1 {
      assert later == [] && at + rest == next && next[..|next| - 1] == at;
    } else {
      assert forall k :: 0 <= k <= |later| ==> next + later[..k] == at + rest[..k + 1];
      ThroughDirectories(fs, next, later, hops);
    }
  }

  /** So opening an extracted link whose walk meets no other one never leads out of the root. */
  lemma LinksLeadInside(fs: FileSystem, members: seq<Member>, i: nat)
    requires Admissible(members) && Extracted(fs, members, |members|) && i < |members|
    requires members[i].kind.Symbolic?
    requires Linkless(fs, members[i].name[..|members[i].name| - 1], members[i].kind.target.parts)
    ensures var w := Walk(fs, [], members[i].name, MAX_LINKS);
            !w.Astray? ==> UnderRootPath(w.path)
  {
    var m := members[i];
    assert SafeName(m) && SafeLink(m, Names(members));
    OpensItsTarget(fs, members, i, MAX_LINKS);
    SafeMeansInside(fs, m, Names(members), MAX_LINKS - 1);
  }

  /** A hard link whose walk meets no link names an extracted member. */
  lemma HardLinksNameMembers(fs: FileSystem, members: seq<Member>, i: nat)
    requires Admissible(members) && Extracted(fs, members, |members|) && i < |members|
    requires members[i].kind.Hard? && Linkless(fs, [], members[i].kind.target.parts)
    ensures var w := Walk(fs, [], members[i].kind.target.parts, MAX_LINKS);
            !w.Astray? ==> w.At? && exists j :: 0 <= j < |members| && members[j].name == w.path
  {
    var m := members[i];
    var w := Walk(fs, [], m.kind.target.parts, MAX_LINKS);
    assert SafeLink(m, Names(members)) && [] + m.kind.target.parts == m.kind.target.parts;
    WalksOnPaper(fs, [], m.kind.target.parts, MAX_LINKS);
    if !w.Astray? {
      var j :| 0 <= j < |members| && members[j].name == w.path;
      assert Landed(fs, members, j);
      MissingIsMissing(fs, [], m.kind.target.parts, MAX_LINKS);
    }
  }

  lemma {:induction false} MissingIsMissing(fs: FileSystem, at: Path, rest: Path, hops: nat)
    requires Linkless(fs, at, rest)
    ensures var w := Walk(fs, at, rest, hops);
            w.Missing? ==> w.path !in fs
    decreases |rest|
  {
    if rest != [] {
      if rest[0] == ".." {
        if at != [] {
          MissingIsMissing(fs, at[..|at| - 1], rest[1..], hops);
        }
      } else {
        var next := at + [rest[0]];
        if next in fs && fs[next].DirectoryNode? {
          MissingIsMissing(fs, next, rest[1..], hops);
        }
      }
    }
  }

  // ----- walks through any number of links

  /** First up, then down: the usual form of a relative link. */
  predicate UpThenDown(parts: Path, ups: nat) {
    ups <= |parts| && (forall k :: 0 <= k < ups ==> parts[k] == "..") && ".." !in parts[ups..]
  }

  ghost predicate Leads(at: Path, rest: Path, ups: nat) {
    && ".." !in at && ups <= |at| && UpThenDown(rest, ups)
    && UnderRootPath(at[..|at| - ups] + rest[ups..])
  }

  /** Every link there is relative, goes up first and down afterwards, and is safe on paper. */
  ghost predicate TameLinks(fs: FileSystem) {
    forall p :: p in fs && fs[p].LinkNode? ==>
      p != [] && !fs[p].target.absolute && LeadsInside(p[..|p| - 1], fs[p].target.parts)
  }

  ghost predicate LeadsInside(at: Path, rest: Path) {
    exists ups :: Leads(at, rest, ups)
  }

  lemma {:induction false} Normalises(at: Path, rest: Path, ups: nat)
    requires ".." !in at && UpThenDown(rest, ups)
    ensures Normal(at + rest) == if ups <= |at| then Some(at[..|at| - ups] + rest[ups..]) else None
    decreases ups
  {
    if ups == 0 {
      NormalOfPlain(at + rest);
      assert rest[0..] == rest && at[..|at|] == at;
    } else if at == [] {
      assert rest[..1] == [".."] && rest[..1][..0] == [];
      assert (at + rest)[..1] == rest[..1];
      NormalFails(at + rest, 1);
    } else {
      var above := at[..|at| - 1];
      GoesUp(at, rest);
      Normalises(above, rest[1..], ups - 1);
      assert rest[1..][ups - 1..] == rest[ups..];
      assert ups <= |at| ==> above[..|above| - (ups - 1)] == at[..|at| - ups];
    }
  }

  lemma LeadsUp(at: Path, rest: Path, ups: nat)
    requires Leads(at, rest, ups) && ups > 0
    ensures at != [] && rest != [] && rest[0] == ".." && Leads(at[..|at| - 1], rest[1..], ups - 1)
  {
    var above := at[..|at| - 1];
    assert above[..|above| - (ups - 1)] == at[..|at| - ups] && rest[1..][ups - 1..] == rest[ups..];
  }

  lemma LeadsOn(at: Path, rest: Path)
    requires Leads(at, rest, 0)
    ensures if rest == [] then UnderRootPath(at) else rest[0] != ".." && Leads(at + [rest[0]], rest[1..], 0)
  {
    assert at[..|at|] == at && rest[0..] == rest;
    if rest == [] {
      assert at + rest == at;
    } else {
      var next := at + [rest[0]];
      assert rest[0] in rest && next[..|next|] == next && rest[1..][0..] == rest[1..];
      assert next + rest[1..] == at + rest;
    }
  }

  /** Through however many such links, a walk that sets out under the root stays there. */
  lemma {:induction false} ChainsStayInside(fs: FileSystem, at: Path, rest: Path, ups: nat, hops: nat)
    requires TameLinks(fs) && Leads(at, rest, ups)
    ensures var w := Walk(fs, at, rest, hops);
            !w.Astray? ==> UnderRootPath(w.path)
    decreases hops, |rest|
  {
    if ups > 0 {
      LeadsUp(at, rest, ups);
      ChainsStayInside(fs, at[..|at| - 1], rest[1..], ups - 1, hops);
    } else {
      LeadsOn(at, rest);
      if rest != [] {
        var next := at + [rest[0]];
        if next in fs && fs[next].LinkNode? && hops > 0 {
          var u := LinkLeads(fs, next, rest[1..]);
          assert next[..|next| - 1] == at;
          ChainsStayInside(fs, at, fs[next].target.parts + rest[1..], u, hops - 1);
        } else if next in fs && fs[next].DirectoryNode? {
          ChainsStayInside(fs, next, rest[1..], 0, hops);
        } else if |rest| == 1 {
          LeadsOn(next, rest[1..]);
        }
      }
    }
  }

  lemma LinkLeads(fs: FileSystem, p: Path, rest: Path) returns (ups: nat)
    requires TameLinks(fs) && p in fs && fs[p].LinkNode? && ".." !in rest
    ensures p != [] && !fs[p].target.absolute && Leads(p[..|p| - 1], fs[p].target.parts + rest, ups)
  {
    assert LeadsInside(p[..|p| - 1], fs[p].target.parts);
    ups :| Leads(p[..|p| - 1], fs[p].target.parts, ups);
    Chained(p[..|p| - 1], fs[p].target.parts, ups, rest);
  }

  lemma Chained(at: Path, parts: Path, ups: nat, rest: Path)
    requires Leads(at, parts, ups) && ".." !in rest
    ensures Leads(at, parts + rest, ups)
  {
    assert (parts + rest)[ups..] == parts[ups..] + rest;
    assert at[..|at| - ups] + (parts + rest)[ups..] == at[..|at| - ups] + parts[ups..] + rest;
  }

  /** The extracted links are the symbolic members, and their targets go up first and down afterwards. */
  ghost predicate OnlyTame(fs: FileSystem, members: seq<Member>) {
    && (forall i :: 0 <= i < |members| && members[i].kind.Symbolic? ==>
          exists ups :: UpThenDown(members[i].kind.target.parts, ups))
    && (forall i :: 0 <= i < |members| && members[i].kind.Hard? && members[i].name in fs ==>
          !fs[members[i].name].LinkNode?)
  }

  lemma AdmittedIsTame(fs: FileSystem, members: seq<Member>)
    requires Admissible(members) && Extracted(fs, members, |members|) && OnlyTame(fs, members)
    ensures TameLinks(fs)
  {
    assert members[..|members|] == members;
    forall p | p in fs && fs[p].LinkNode?
      ensures p != [] && !fs[p].target.absolute && LeadsInside(p[..|p| - 1], fs[p].target.parts)
    {
      var i :| 0 <= i < |members| && IsLink(members[i]) && members[i].name == p;
      assert Landed(fs, members, i) && SafeName(members[i]) && SafeLink(members[i], Names(members));
      SafeLeads(members[i], Names(members));
    }
  }

  lemma SafeLeads(m: Member, names: set<Path>)
    requires m.kind.Symbolic? && SafeName(m) && SafeLink(m, names)
    requires exists ups :: UpThenDown(m.kind.target.parts, ups)
    ensures LeadsInside(m.name[..|m.name| - 1], m.kind.target.parts)
  {
    var home := m.name[..|m.name| - 1];
    assert forall x :: x in home ==> x in m.name;
    var ups :| UpThenDown(m.kind.target.parts, ups);
    Normalises(home, m.kind.target.parts, ups);
    assert Leads(home, m.kind.target.parts, ups);
  }

  /** In an extracted archive whose links go up first and down afterwards, whatever is opened by a plain
      path under the root is under the root, through any chain of links. */
  lemma EverythingOpensInside(fs: FileSystem, members: seq<Member>, p: Path, hops: nat)
    requires Admissible(members) && Extracted(fs, members, |members|) && OnlyTame(fs, members)
    requires UnderRootPath(p) && ".." !in p
    ensures var w := Walk(fs, [], p, hops);
            !w.Astray? ==> UnderRootPath(w.path)
  {
    AdmittedIsTame(fs, members);
    assert [] + p[0..] == p;
    assert Leads([], p, 0);
    ChainsStayInside(fs, [], p, 0, hops);
  }
}
