/** Which old jobs, backups and uploads are deleted. */
module Retention {
  import opened Options

  // ----- jobs and backups

  /** No entry is listed twice. */
  predicate Distinct<T(==)>(order: seq<T>) {
    forall i, j :: 0 <= i < j < |order| ==> order[i] != order[j]
  }

  function Entries<T(==)>(order: seq<T>): set<T> {
    set x | x in order
  }

  /** The unprotected entries, in the same order. */
  function Others<T(==,!new)>(order: seq<T>, protected: set<T>): (r: seq<T>)
    ensures |r| <= |order|
    ensures forall x :: x in r <==> x in order && x !in protected
  {
    if order == [] then []
    else Others(order[..|order| - 1], protected) + if order[|order| - 1] in protected then [] else [order[|order| - 1]]
  }

  /** How many unprotected entries stay beside `present` protected ones. */
  function Room(keep: nat, present: nat): nat {
    if present <= keep then keep - present else 0
  }

  /** The entries a clean-up deletes from a directory, listed newest first. */
  function Doomed<T(==,!new)>(order: seq<T>, protected: set<T>, keep: nat): set<T> {
    var others := Others(order, protected);
    Tail(others, Room(keep, |order| - |others|))
  }

  function Tail<T(==)>(others: seq<T>, from: nat): set<T> {
    set k | from <= k < |others| :: others[k]
  }

  method CleanupDirectory<T(==,!new)>(order: seq<T>, protected: set<T>, keep: nat) returns (deleted: set<T>)
    ensures deleted == Doomed(order, protected, keep)
  {
    var entries: seq<T> := [];
    var present := 0;
    for i := 0 to |order|
      invariant entries == Others(order[..i], protected) && present == i - |entries|
    {
      assert order[..i + 1][..i] == order[..i];
      if order[i] in protected {
        present := present + 1;
      } else {
        entries := entries + [order[i]];
      }
    }
    assert order[..|order|] == order;
    deleted := {};
    var k := if keep > present then keep - present else 0;
    while k < |entries|
      invariant k >= Room(keep, present)
      invariant deleted == set j | Room(keep, present) <= j < k && j < |entries| :: entries[j]
    {
      deleted := deleted + {entries[k]};
      k := k + 1;
    }
  }

  /** A protected entry is never deleted. */
  lemma DoomedSpares<T(!new)>(order: seq<T>, protected: set<T>, keep: nat)
    ensures Doomed(order, protected, keep) !! protected
  {
    forall x | x in Doomed(order, protected, keep) ensures x !in protected {
      assert x in Others(order, protected);
    }
  }

  /** Nothing deleted is newer than an unprotected entry that stays. */
  lemma OldestGo<T(!new)>(order: seq<T>, protected: set<T>, keep: nat, i: nat, j: nat)
    requires Distinct(order) && i < j < |order|
    requires order[i] in Doomed(order, protected, keep) && order[j] !in protected
    ensures order[j] in Doomed(order, protected, keep)
  {
    var others := Others(order, protected);
    var room := Room(keep, |order| - |others|);
    OthersDistinct(order, protected);
    var a :| room <= a < |others| && others[a] == order[i];
    var k, m := OthersOrdered(order, protected, i, j);
    assert a == k;
  }

  /** No more than `keep` entries stay, unless more are protected; and no fewer than there is room for. */
  lemma SurvivorCount<T(!new)>(order: seq<T>, protected: set<T>, keep: nat)
    requires Distinct(order)
    ensures var others := |Others(order, protected)|;
            var room := Room(keep, |order| - others);
            |Entries(order) - Doomed(order, protected, keep)| == |order| - others + if room < others then room
                else others
  {
    EntriesCount(order);
    DoomedCount(order, protected, keep);
    DoomedPresent(order, protected, keep);
    DifferenceCount(Entries(order), Doomed(order, protected, keep));
  }

  lemma DoomedCount<T(!new)>(order: seq<T>, protected: set<T>, keep: nat)
    requires Distinct(order)
    ensures var others := |Others(order, protected)|;
            var room := Room(keep, |order| - others);
            |Doomed(order, protected, keep)| == if room < others then others - room else 0
  {
    OthersDistinct(order, protected);
    var others := Others(order, protected);
    TailCount(others, Room(keep, |order| - |others|));
  }

  lemma DoomedPresent<T(!new)>(order: seq<T>, protected: set<T>, keep: nat)
    ensures Doomed(order, protected, keep) <= Entries(order)
  {
    forall x | x in Doomed(order, protected, keep) ensures x in order {
      assert x in Others(order, protected);
    }
  }

  lemma {:induction false} OthersDistinct<T(!new)>(order: seq<T>, protected: set<T>)
    requires Distinct(order)
    ensures Distinct(Others(order, protected))
  {
    if order != [] {
      var init, last := order[..|order| - 1], order[|order| - 1];
      OthersDistinct(init, protected);
      assert last !in init;
    }
  }

  lemma {:induction false} OthersOrdered<T(!new)>(order: seq<T>, protected: set<T>, i: nat, j: nat)
      returns (k: nat, m: nat)
    requires i < j < |order| && order[i] !in protected && order[j] !in protected
    ensures k < m < |Others(order, protected)| && Others(order, protected)[k] == order[i]
            && Others(order, protected)[m] == order[j]
  {
    var init := order[..|order| - 1];
    if j < |init| {
      k, m := OthersOrdered(init, protected, i, j);
    } else {
      assert init[i] in Others(init, protected);
      k :| 0 <= k < |Others(init, protected)| && Others(init, protected)[k] == order[i];
      m := |Others(init, protected)|;
    }
  }

  lemma DifferenceCount<T>(a: set<T>, b: set<T>)
    requires b <= a
    ensures |a - b| == |a| - |b|
  {
    assert a == (a - b) + b;
  }

  lemma EntriesMore<T>(order: seq<T>, x: T)
    ensures Entries(order + [x]) == Entries(order) + {x}
  {
  }

  lemma {:induction false} EntriesCount<T>(order: seq<T>)
    requires Distinct(order)
    ensures |Entries(order)| == |order|
  {
    if order != [] {
      var init, last := order[..|order| - 1], order[|order| - 1];
      EntriesCount(init);
      assert init + [last] == order;
      EntriesMore(init, last);
      assert last !in Entries(init);
    }
  }

  lemma {:induction false} TailCount<T>(others: seq<T>, from: nat)
    requires Distinct(others)
    ensures |Tail(others, from)| == if from < |others| then |others| - from else 0
    decreases |others| - from
  {
    if from < |others| {
      TailCount(others, from + 1);
      assert Tail(others, from) == {others[from]} + Tail(others, from + 1);
    } else {
      assert Tail(others, from) == {};
    }
  }

  // ----- uploads, as the update manager and the web server both limit them

  datatype Upload = Upload(name: nat, size: nat, mtime: int)

  const KEEP_UPLOADS: nat := 4
  const MAX_STAGED_BYTES: nat := 512 * 1024 * 1024

  function Total(files: seq<Upload>): nat {
    if files == [] then 0 else Total(files[..|files| - 1]) + files[|files| - 1].size
  }

  predicate Within(files: seq<Upload>, maxFiles: nat) {
    |files| <= maxFiles && Total(files) <= MAX_STAGED_BYTES
  }

  function Reversed(files: seq<Upload>): seq<Upload> {
    seq(|files|, i requires 0 <= i < |files| => files[|files| - 1 - i])
  }

  /** Whether the file at `index` is kept, with `n` kept before it. */
  lemma KeptOrNot(files: seq<Upload>, n: nat, index: nat)
    requires n <= index < |files| && (n < index ==> !Within(files[..n + 1], KEEP_UPLOADS))
    ensures if index >= KEEP_UPLOADS || Total(files[..index + 1]) > MAX_STAGED_BYTES
            then !Within(files[..n + 1], KEEP_UPLOADS)
            else n == index && Within(files[..n + 1], KEEP_UPLOADS)
  {
    if n < index {
      TotalGrows(files, n + 1, index + 1);
    }
  }

  lemma TotalNext(files: seq<Upload>, index: nat)
    requires index < |files|
    ensures Total(files[..index + 1]) == Total(files[..index]) + files[index].size
  {
    assert files[..index + 1][..index] == files[..index];
  }

  /** The update manager: newest first, adding up sizes over all candidates, removed ones included. */
  method CleanupStaleUploads(newestFirst: seq<Upload>) returns (kept: seq<Upload>)
    ensures kept <= newestFirst && Longest(newestFirst, |kept|, KEEP_UPLOADS)
  {
    kept := [];
    var retainedBytes := 0;
    for index := 0 to |newestFirst|
      invariant |kept| <= index && kept == newestFirst[..|kept|] && Within(kept, KEEP_UPLOADS)
      invariant retainedBytes == Total(newestFirst[..index])
      invariant |kept| < index ==> !Within(newestFirst[..|kept| + 1], KEEP_UPLOADS)
    {
      TotalNext(newestFirst, index);
      KeptOrNot(newestFirst, |kept|, index);
      retainedBytes := retainedBytes + newestFirst[index].size;
      if index < KEEP_UPLOADS && retainedBytes <= MAX_STAGED_BYTES {
        assert newestFirst[..index + 1] == kept + [newestFirst[index]];
        kept := kept + [newestFirst[index]];
      }
    }
  }

  lemma {:induction false} TotalGrows(files: seq<Upload>, i: nat, j: nat)
    requires i <= j <= |files|
    ensures Total(files[..i]) <= Total(files[..j])
    decreases j - i
  {
    if i < j {
      TotalGrows(files, i, j - 1);
      assert files[..j][..j - 1] == files[..j - 1];
    }
  }

  function FirstUnprotected(files: seq<Upload>, protected: Option<nat>): (r: nat)
    ensures r <= |files| && (r < |files| ==> Some(files[r].name) != protected) && forall i :: 0 <= i < r ==>
              Some(files[i].name) == protected
  {
    if files == [] || Some(files[0].name) != protected then 0 else 1 + FirstUnprotected(files[1..], protected)
  }

  /** The list without its oldest unprotected file. */
  function RemoveOldest(files: seq<Upload>, protected: Option<nat>): seq<Upload> {
    var k := FirstUnprotected(files, protected);
    if k < |files| then files[..k] + files[k + 1..] else files
  }

  /** The oldest unprotected files go, one by one, until the rest is within the limits or protected. */
  function Limited(files: seq<Upload>, protected: Option<nat>, maxFiles: nat): seq<Upload>
    decreases |files|
  {
    if Within(files, maxFiles) || FirstUnprotected(files, protected) == |files| then files
    else Limited(RemoveOldest(files, protected), protected, maxFiles)
  }

  lemma {:induction false} TotalWithout(files: seq<Upload>, k: nat)
    requires k < |files|
    ensures Total(files[..k] + files[k + 1..]) == Total(files) - files[k].size
  {
    var rest := files[..k] + files[k + 1..];
    if k == |files| - 1 {
      assert rest == files[..k];
    } else {
      var init := files[..|files| - 1];
      TotalWithout(init, k);
      assert rest[..|rest| - 1] == init[..k] + init[k + 1..];
    }
  }

  lemma RemovesOne(files: seq<Upload>, protected: Option<nat>)
    requires FirstUnprotected(files, protected) < |files|
    ensures |RemoveOldest(files, protected)| == |files| - 1
    ensures forall f :: f in files && Some(f.name) == protected ==> f in RemoveOldest(files, protected)
  {
    var k := FirstUnprotected(files, protected);
    var rest := RemoveOldest(files, protected);
    forall f | f in files && Some(f.name) == protected ensures f in rest {
      var i :| 0 <= i < |files| && files[i] == f;
      assert rest[if i < k then i else i - 1] == f;
    }
  }

  /** The protected file stays, and the loop ends within the limits or with nothing but that file. */
  lemma {:induction false} ProtectedStays(files: seq<Upload>, protected: Option<nat>, maxFiles: nat)
    ensures var kept := Limited(files, protected, maxFiles);
            && (forall f :: f in files && Some(f.name) == protected ==> f in kept)
            && (Within(kept, maxFiles) || forall f :: f in kept ==> Some(f.name) == protected)
    decreases |files|
  {
    if !Within(files, maxFiles) && FirstUnprotected(files, protected) < |files| {
      RemovesOne(files, protected);
      ProtectedStays(RemoveOldest(files, protected), protected, maxFiles);
    }
  }

  method RemoveIndex(kept: seq<Upload>, protected: Option<nat>) returns (index: nat)
    ensures index == FirstUnprotected(kept, protected)
  {
    index := 0;
    while index < |kept| && Some(kept[index].name) == protected
      invariant index <= FirstUnprotected(kept, protected)
    {
      index := index + 1;
    }
  }

  /** The web server: oldest first, while there are too many files or too many bytes.  A file that cannot be
      unlinked ends the loop: what is left then is on the way to the same result. */
  method CleanupApplicationUpdateUploads(oldestFirst: seq<Upload>, protected: Option<nat>, maxFiles: int)
    returns (kept: seq<Upload>, failed: bool)
    ensures var limit := if maxFiles < 0 then 0 else maxFiles;
            && Limited(kept, protected, limit) == Limited(oldestFirst, protected, limit)
            && (!failed ==> kept == Limited(oldestFirst, protected, limit))
            && (failed ==> !Within(kept, limit))
  {
    var limit := if maxFiles < 0 then 0 else maxFiles;
    kept, failed := oldestFirst, false;
    var total := Sum(oldestFirst);
    while |kept| > limit || total > MAX_STAGED_BYTES
      invariant total == Total(kept) && Limited(oldestFirst, protected, limit) == Limited(kept, protected, limit)
      decreases |kept|
    {
      var removeIndex := RemoveIndex(kept, protected);
      if removeIndex == |kept| {
        break;
      }
      var unlinked: bool := *;
      if !unlinked {
        failed := true;
        return;
      }
      TotalWithout(kept, removeIndex);
      total := total - kept[removeIndex].size;
      kept := kept[..removeIndex] + kept[removeIndex + 1..];
    }
  }

  method Sum(files: seq<Upload>) returns (total: nat)
    ensures total == Total(files)
  {
    total := 0;
    for i := 0 to |files|
      invariant total == Total(files[..i])
    {
      assert files[..i + 1][..i] == files[..i];
      total := total + files[i].size;
    }
    assert files[..|files|] == files;
  }

  lemma OldestFirst(files: seq<Upload>, maxFiles: nat)
    requires !Within(files, maxFiles)
    ensures files != [] && Limited(files, None, maxFiles) == Limited(files[1..], None, maxFiles)
  {
    assert files != [];
    assert RemoveOldest(files, None) == files[1..];
  }

  /** Where the longest end of the list that is within the limits starts. */
  function Start(files: seq<Upload>, from: nat, maxFiles: nat): (n: nat)
    requires from <= |files|
    ensures from <= n <= |files| && Within(files[n..], maxFiles) && (n > from ==> !Within(files[n - 1..], maxFiles))
    decreases |files| - from
  {
    if Within(files[from..], maxFiles) then from
        else OutsideNotEmpty(files, from, maxFiles); Start(files, from + 1, maxFiles)
  }

  lemma OutsideNotEmpty(files: seq<Upload>, from: nat, maxFiles: nat)
    requires from <= |files| && !Within(files[from..], maxFiles)
    ensures from < |files|
  {
  }

  /** With nothing protected the loop leaves the longest end of the list that is within the limits. */
  lemma {:induction false} LeavesTheNewest(files: seq<Upload>, from: nat, maxFiles: nat)
    requires from <= |files|
    ensures Limited(files[from..], None, maxFiles) == files[Start(files, from, maxFiles)..]
    decreases |files| - from
  {
    if !Within(files[from..], maxFiles) {
      OldestFirst(files[from..], maxFiles);
      assert files[from..][1..] == files[from + 1..];
      LeavesTheNewest(files, from + 1, maxFiles);
    }
  }

  lemma {:induction false} TotalReversed(files: seq<Upload>)
    ensures Total(Reversed(files)) == Total(files)
  {
    if files != [] {
      var rest := Reversed(files[..|files| - 1]);
      TotalReversed(files[..|files| - 1]);
      assert Reversed(files) == [files[|files| - 1]] + rest;
      TotalPrepended(files[|files| - 1], rest);
    }
  }

  lemma {:induction false} TotalPrepended(f: Upload, files: seq<Upload>)
    ensures Total([f] + files) == f.size + Total(files)
  {
    if files == [] {
      assert [f][..0] == [];
    } else {
      TotalPrepended(f, files[..|files| - 1]);
      assert ([f] + files)[..|files|] == [f] + files[..|files| - 1];
    }
  }

  /** The newest files, oldest first, reversed, are the first of the list newest first. */
  lemma NewestReversed(files: seq<Upload>, n: nat)
    requires n <= |files|
    ensures Reversed(files[n..]) == Reversed(files)[..|files| - n]
  {
  }

  lemma NewestWithin(files: seq<Upload>, n: nat, maxFiles: nat)
    requires n <= |files|
    ensures Within(Reversed(files)[..|files| - n], maxFiles) == Within(files[n..], maxFiles)
  {
    NewestReversed(files, n);
    SameWithin(files[n..], maxFiles);
  }

  lemma SameWithin(files: seq<Upload>, maxFiles: nat)
    ensures Within(Reversed(files), maxFiles) == Within(files, maxFiles)
  {
    TotalReversed(files);
  }

  /** Longer than any other prefix within the limits. */
  predicate Longest(files: seq<Upload>, i: nat, maxFiles: nat) {
    i <= |files| && Within(files[..i], maxFiles) && (i < |files| ==> !Within(files[..i + 1], maxFiles))
  }

  lemma OneLongest(files: seq<Upload>, i: nat, j: nat, maxFiles: nat)
    requires Longest(files, i, maxFiles) && Longest(files, j, maxFiles)
    ensures i == j
  {
    if i < j {
      TotalGrows(files, i + 1, j);
    } else if j < i {
      TotalGrows(files, j + 1, i);
    }
  }

  lemma StartIsLongest(files: seq<Upload>, maxFiles: nat)
    ensures Longest(Reversed(files), |files| - Start(files, 0, maxFiles), maxFiles)
  {
    var n := Start(files, 0, maxFiles);
    NewestWithin(files, n, maxFiles);
    if n > 0 {
      NewestWithin(files, n - 1, maxFiles);
    }
  }

  /** One meaning, written twice: what the manager's newest-first pass keeps and what the server's
      oldest-first loop keeps, with its limit of four files and nothing protected, is the same. */
  lemma SameRetention(oldestFirst: seq<Upload>, kept: seq<Upload>)
    requires kept <= Reversed(oldestFirst) && Longest(Reversed(oldestFirst), |kept|, KEEP_UPLOADS)
    ensures Reversed(Limited(oldestFirst, None, KEEP_UPLOADS)) == kept
  {
    var n := Start(oldestFirst, 0, KEEP_UPLOADS);
    StartIsLongest(oldestFirst, KEEP_UPLOADS);
    OneLongest(Reversed(oldestFirst), |kept|, |oldestFirst| - n, KEEP_UPLOADS);
    assert oldestFirst[0..] == oldestFirst;
    LeavesTheNewest(oldestFirst, 0, KEEP_UPLOADS);
    NewestReversed(oldestFirst, n);
  }

  /** The two programs agree on every directory, unless an unlink fails. */
  method CleanBoth(oldestFirst: seq<Upload>) returns (manager: seq<Upload>, server: seq<Upload>, failed: bool)
    ensures !failed ==> manager == Reversed(server)
    ensures manager == Reversed(Limited(server, None, KEEP_UPLOADS))
  {
    manager := CleanupStaleUploads(Reversed(oldestFirst));
    server, failed := CleanupApplicationUpdateUploads(oldestFirst, None, KEEP_UPLOADS);
    SameRetention(oldestFirst, manager);
  }
}
