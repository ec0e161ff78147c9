/** Register addresses of the Modbus server mappings. */
module RegisterMap {
  import opened Options

  datatype DataType = UINT16 | INT16 | UINT32 | INT32 | FLOAT32

  function TypeCount(t: DataType): nat {
    if t.UINT16? || t.INT16? then 1 else 2
  }

  datatype Mapping = Mapping(id: nat, start: int, dataType: DataType, quality: int)

  datatype Use = Data(id: nat) | Quality(id: nat)

  datatype Conflict = Taken(address: int, use: Use) | Overlapping

  function Span(start: int, count: nat): (r: set<int>)
    ensures forall a :: a in r <==> start <= a < start + count
  {
    if count == 0 then {} else Span(start, count - 1) + {start + count - 1}
  }

  /** The registers one mapping occupies. */
  function Registers(m: Mapping): set<int> {
    Span(m.start, TypeCount(m.dataType)) + {m.quality}
  }

  /** The registers of all mappings but the one being edited. */
  function Blocked(mappings: seq<Mapping>, excluded: Option<nat>): set<int> {
    if mappings == [] then {}
    else
      var rest, m := mappings[..|mappings| - 1], mappings[|mappings| - 1];
      Blocked(rest, excluded) + if excluded == Some(m.id) then {} else Registers(m)
  }

  lemma BlockedNext(mappings: seq<Mapping>, excluded: Option<nat>, k: nat)
    requires k < |mappings|
    ensures Blocked(mappings[..k + 1], excluded) ==
            Blocked(mappings[..k], excluded) + if excluded == Some(mappings[k].id) then {} else Registers(mappings[k])
  {
    assert mappings[..k + 1][..k] == mappings[..k];
  }

  /** The registers of one mapping are taken, data first. */
  method Occupy(mappings: seq<Mapping>, m: Mapping, before: map<int, Use>) returns (occupied: map<int, Use>)
    requires m in mappings && forall a :: a in before ==> UsedBy(mappings, a, before[a])
    ensures occupied.Keys == before.Keys + Registers(m)
    ensures forall a :: a in occupied ==> UsedBy(mappings, a, occupied[a])
  {
    occupied := before;
    for i := 0 to TypeCount(m.dataType)
      invariant occupied.Keys == before.Keys + Span(m.start, i)
      invariant forall a :: a in occupied ==> UsedBy(mappings, a, occupied[a])
    {
      assert Uses(m, m.start + i, Data(m.id));
      occupied := occupied[m.start + i := Data(m.id)];
    }
    assert Uses(m, m.quality, Quality(m.id));
    occupied := occupied[m.quality := Quality(m.id)];
  }

  method OccupiedAddresses(mappings: seq<Mapping>, excluded: Option<nat>) returns (occupied: map<int, Use>)
    ensures occupied.Keys == Blocked(mappings, excluded)
    ensures forall a :: a in occupied ==> UsedBy(mappings, a, occupied[a])
  {
    occupied := map[];
    for k := 0 to |mappings|
      invariant occupied.Keys == Blocked(mappings[..k], excluded)
      invariant forall a :: a in occupied ==> UsedBy(mappings, a, occupied[a])
    {
      BlockedNext(mappings, excluded, k);
      if excluded != Some(mappings[k].id) {
        occupied := Occupy(mappings, mappings[k], occupied);
      }
    }
    assert mappings[..|mappings|] == mappings;
  }

  /** The label shown for a taken address names a mapping that does take it. */
  predicate UsedBy(mappings: seq<Mapping>, a: int, use: Use) {
    exists m :: m in mappings && Uses(m, a, use)
  }

  predicate Uses(m: Mapping, a: int, use: Use) {
    use.id == m.id && if use.Quality? then a == m.quality else m.start <= a < m.start + TypeCount(m.dataType)
  }

  /** A window of data registers followed by one quality register. */
  predicate Free(blocked: set<int>, start: int, count: nat) {
    forall a :: start <= a <= start + count ==> a !in blocked
  }

  /** Proposes the lowest free window below 65536, or says that there is none. */
  method RecommendAddress(mappings: seq<Mapping>, excluded: Option<nat>, dataType: DataType) returns (r: Option<int>)
    ensures var count, blocked := TypeCount(dataType), Blocked(mappings, excluded);
            match r
            case Some(start) =>
              0 <= start && start + count <= 65535 && Free(blocked, start, count) &&
              forall lower :: 0 <= lower < start ==> !Free(blocked, lower, count)
            case None => forall start :: 0 <= start && start + count <= 65535 ==> !Free(blocked, start, count)
  {
    var count := TypeCount(dataType);
    var occupied := OccupiedAddresses(mappings, excluded);
    var start := 0;
    while start + count <= 65535
      invariant 0 <= start <= 65536
      invariant forall lower :: 0 <= lower < start ==> !Free(occupied.Keys, lower, count)
    {
      var free := true;
      var offset := 0;
      while offset <= count && free
        invariant offset <= count + 1
        invariant free ==> forall a :: start <= a < start + offset ==> a !in occupied
        invariant !free ==> !Free(occupied.Keys, start, count)
        decreases count + 1 - offset, free
      {
        if start + offset in occupied {
          free := false;
        } else {
          offset := offset + 1;
        }
      }
      if free {
        return Some(start);
      }
      start := start + 1;
    }
    r := None;
  }

  method CurrentConflict(mappings: seq<Mapping>, excluded: Option<nat>, start: int, count: nat, quality: int)
    returns (r: Option<Conflict>)
    ensures r == None <==> Fits(mappings, excluded, start, count, quality)
    ensures r.Some? && r.value.Taken? ==>
              (r.value.address == quality || start <= r.value.address < start + count)
                  && UsedBy(mappings, r.value.address, r.value.use)
  {
    var occupied := OccupiedAddresses(mappings, excluded);
    for offset := 0 to count
      invariant forall a :: start <= a < start + offset ==> a !in occupied
    {
      if start + offset in occupied {
        return Some(Taken(start + offset, occupied[start + offset]));
      }
    }
    if quality in occupied {
      return Some(Taken(quality, occupied[quality]));
    }
    r := if start <= quality < start + count then Some(Overlapping) else None;
  }

  /** What the preview accepts: data and quality registers are free and apart from one another. */
  predicate Fits(mappings: seq<Mapping>, excluded: Option<nat>, start: int, count: nat, quality: int) {
    var blocked := Blocked(mappings, excluded);
    && (forall a :: start <= a < start + count ==> a !in blocked)
    && quality !in blocked
    && !(start <= quality < start + count)
  }

  /** A proposal is never refused. */
  lemma ProposalsFit(mappings: seq<Mapping>, excluded: Option<nat>, start: int, count: nat)
    requires Free(Blocked(mappings, excluded), start, count)
    ensures Fits(mappings, excluded, start, count, start + count)
  {
  }

  /** No register is used twice, neither by two mappings nor within one, and no id occurs twice. */
  predicate Disjoint(mappings: seq<Mapping>) {
    && (forall i :: 0 <= i < |mappings| ==> Separate(mappings[i]))
    && (forall i, j :: 0 <= i < j < |mappings| ==> Apart(mappings[i], mappings[j]))
  }

  predicate Separate(m: Mapping) {
    !(m.start <= m.quality < m.start + TypeCount(m.dataType))
  }

  predicate Apart(m: Mapping, n: Mapping) {
    m.id != n.id && Registers(m) !! Registers(n)
  }

  lemma {:induction false} BlockedMeans(mappings: seq<Mapping>, excluded: Option<nat>, a: int)
    ensures a in Blocked(mappings, excluded) <==>
              exists k :: 0 <= k < |mappings| && excluded != Some(mappings[k].id) && a in Registers(mappings[k])
  {
    if mappings != [] {
      var rest := mappings[..|mappings| - 1];
      BlockedMeans(rest, excluded, a);
      assert forall k :: 0 <= k < |rest| ==> rest[k] == mappings[k];
    }
  }

  predicate Accepts(mappings: seq<Mapping>, excluded: Option<nat>, m: Mapping) {
    Fits(mappings, excluded, m.start, TypeCount(m.dataType), m.quality)
  }

  /** The guard is exact: it lets a mapping through exactly when it is apart from all others. */
  lemma GuardIsExact(mappings: seq<Mapping>, excluded: Option<nat>, m: Mapping)
    ensures Accepts(mappings, excluded, m) <==>
              Separate(m) && forall k :: 0 <= k < |mappings| && excluded != Some(mappings[k].id) ==>
                  Registers(m) !! Registers(mappings[k])
  {
    forall a | a in Registers(m)
      ensures a in Blocked(mappings, excluded) <==>
                exists k :: 0 <= k < |mappings| && excluded != Some(mappings[k].id) && a in Registers(mappings[k])
    {
      BlockedMeans(mappings, excluded, a);
    }
  }

  /** The mappings of the page.  A save is only sent when the guard finds no conflict; the backend then
      stores it, giving a new mapping an id of its own. */
  class MappingPage {
    var mappings: seq<Mapping>

    ghost predicate Valid()
      reads this
    {
      Disjoint(mappings)
    }

    constructor ()
      ensures Valid() && mappings == []
    {
      mappings := [];
    }

    method Create(m: Mapping) returns (saved: bool)
      requires Valid() && forall k :: 0 <= k < |mappings| ==> mappings[k].id != m.id
      modifies this
      ensures Valid()
      ensures saved <==> Disjoint(old(mappings) + [m])
      ensures mappings == (if saved then old(mappings) + [m] else old(mappings)) == After(old(mappings), Creating(m))
    {
      var conflict := CurrentConflict(mappings, None, m.start, TypeCount(m.dataType), m.quality);
      GuardIsExact(mappings, None, m);
      saved := conflict == None;
      AppendKeeps(mappings, m);
      if saved {
        mappings := mappings + [m];
      }
    }

    method Edit(k: nat, m: Mapping) returns (saved: bool)
      requires Valid() && k < |mappings| && m.id == mappings[k].id
      modifies this
      ensures Valid()
      ensures saved <==> Disjoint(old(mappings)[k := m])
      ensures mappings == (if saved then old(mappings)[k := m] else old(mappings)) ==
              After(old(mappings), Editing(k, m))
    {
      var conflict := CurrentConflict(mappings, Some(m.id), m.start, TypeCount(m.dataType), m.quality);
      GuardIsExact(mappings, Some(m.id), m);
      saved := conflict == None;
      ReplaceKeeps(mappings, k, m);
      if saved {
        mappings := mappings[k := m];
      }
    }

    method Delete(k: nat)
      requires Valid() && k < |mappings|
      modifies this
      ensures Valid() && mappings == old(mappings)[..k] + old(mappings)[k + 1..] == After(old(mappings), Deleting(k))
    {
      mappings := mappings[..k] + mappings[k + 1..];
    }
  }

  lemma AppendKeeps(mappings: seq<Mapping>, m: Mapping)
    requires Disjoint(mappings) && forall k :: 0 <= k < |mappings| ==> mappings[k].id != m.id
    ensures Disjoint(mappings + [m]) <==> Accepts(mappings, None, m)
  {
    GuardIsExact(mappings, None, m);
    var all := mappings + [m];
    if Disjoint(all) {
      assert Separate(all[|mappings|]);
      forall k | 0 <= k < |mappings| ensures Registers(m) !! Registers(mappings[k]) {
        assert Apart(all[k], all[|mappings|]);
      }
    }
  }

  lemma ReplaceKeeps(mappings: seq<Mapping>, k: nat, m: Mapping)
    requires Disjoint(mappings) && k < |mappings| && m.id == mappings[k].id
    ensures Disjoint(mappings[k := m]) <==> Accepts(mappings, Some(m.id), m)
  {
    GuardIsExact(mappings, Some(m.id), m);
    var all := mappings[k := m];
    if Disjoint(all) {
      assert Separate(all[k]);
      forall j | 0 <= j < |mappings| && mappings[j].id != m.id ensures Registers(m) !! Registers(mappings[j]) {
        assert Apart(all[if j < k then j else k], all[if j < k then k else j]);
      }
    } else if Accepts(mappings, Some(m.id), m) {
      forall i, j | 0 <= i < j < |all| ensures Apart(all[i], all[j]) {
        assert Apart(mappings[i], mappings[j]);
      }
    }
  }

  // ----- runs of the page

  datatype Action = Creating(m: Mapping) | Editing(k: nat, m: Mapping) | Deleting(k: nat)

  /** What one action leaves, as the methods above do it. */
  function After(mappings: seq<Mapping>, e: Action): seq<Mapping> {
    match e
    case Creating(m) => if (forall k :: 0 <= k < |mappings| ==>
        mappings[k].id != m.id) && Accepts(mappings, None, m) then mappings + [m] else mappings
    case Editing(k, m) => if k < |mappings| && m.id == mappings[k].id && Accepts(mappings, Some(m.id), m)
        then mappings[k := m] else mappings
    case Deleting(k) => if k < |mappings| then mappings[..k] + mappings[k + 1..] else mappings
  }

  function AfterAll(mappings: seq<Mapping>, es: seq<Action>): seq<Mapping>
    decreases es
  {
    if es == [] then mappings else AfterAll(After(mappings, es[0]), es[1..])
  }

  /** Over any run of creating, editing and deleting, all data and quality registers stay apart. */
  lemma {:induction false} RegistersStayApart(mappings: seq<Mapping>, es: seq<Action>)
    requires Disjoint(mappings)
    ensures Disjoint(AfterAll(mappings, es))
    decreases es
  {
    if es != [] {
      match es[0] {
        case Creating(m) =>
          if forall k :: 0 <= k < |mappings| ==> mappings[k].id != m.id {
            AppendKeeps(mappings, m);
          }
        case Editing(k, m) =>
          if k < |mappings| && m.id == mappings[k].id {
            ReplaceKeeps(mappings, k, m);
          }
        case Deleting(_) =>
      }
      RegistersStayApart(After(mappings, es[0]), es[1..]);
    }
  }
}
