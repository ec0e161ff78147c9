/** The pinyin engine: splitting a query into syllables, composing characters, collecting candidates. */
module Pinyin {
  import opened Options

  type Text = seq<char>

  const LONGEST: nat := 6

  /** The readings of the lexicon: the characters of each syllable, best first. */
  type Readings = map<Text, seq<Text>>

  // ----- segmentation

  predicate Syllable(s: Text, readings: Readings) {
    1 <= |s| <= LONGEST && s in readings
  }

  function Joined(parts: seq<Text>): Text {
    if parts == [] then [] else Joined(parts[..|parts| - 1]) + parts[|parts| - 1]
  }

  /** The parts are syllables and spell the text. */
  predicate Splits(parts: seq<Text>, text: Text, readings: Readings) {
    Joined(parts) == text && forall k :: 0 <= k < |parts| ==> Syllable(parts[k], readings)
  }

  ghost predicate Shortest(parts: seq<Text>, text: Text, readings: Readings) {
    Splits(parts, text, readings) && forall other :: Splits(other, text, readings) ==> |parts| <= |other|
  }

  ghost predicate Splittable(text: Text, readings: Readings) {
    exists parts :: Splits(parts, text, readings)
  }

  function LastStart(parts: seq<Text>, end: nat): int {
    if parts == [] then -1 else end - |parts[|parts| - 1]|
  }

  /** What the table entry says about the prefix of length `end`, once every position below `done` was
      used as the start of a last syllable. */
  ghost predicate Settled(query: Text, readings: Readings, entry: Option<seq<Text>>, done: nat, end: nat)
    requires end <= |query|
  {
    match entry
    case Some(parts) =>
      && Splits(parts, query[..end], readings)
      && (forall other :: Splits(other, query[..end], readings) && LastStart(other, end) < done ==> |parts| <= |other|)
    case None => forall other :: Splits(other, query[..end], readings) ==> LastStart(other, end) >= done
  }

  lemma LastPart(parts: seq<Text>, query: Text, end: nat, readings: Readings)
    requires end <= |query| && Splits(parts, query[..end], readings) && parts != []
    ensures var start := LastStart(parts, end);
            0 <= start < end && end - start <= LONGEST && query[start..end] == parts[|parts| - 1] &&
            Splits(parts[..|parts| - 1], query[..start], readings)
  {
    var init, last := parts[..|parts| - 1], parts[|parts| - 1];
    assert query[..end] == Joined(init) + last;
    var start := LastStart(parts, end);
    assert |Joined(init)| == start;
    assert query[..end][..start] == query[..start];
    assert query[..end][start..] == query[start..end];
  }

  lemma Extend(parts: seq<Text>, query: Text, start: nat, end: nat, readings: Readings)
    requires start < end <= |query| && Splits(parts, query[..start], readings) && Syllable(query[start..end], readings)
    ensures Splits(parts + [query[start..end]], query[..end], readings)
  {
    var all := parts + [query[start..end]];
    assert all[..|all| - 1] == parts;
    assert query[..start] + query[start..end] == query[..end];
  }

  /** No split of this prefix has its last syllable starting at `index`, so its entry stays right. */
  lemma Untouched(query: Text, readings: Readings, entry: Option<seq<Text>>, here: Option<seq<Text>>, index: nat,
      end: nat)
    requires index < |query| && end <= |query|
    requires Settled(query, readings, entry, index, end) && Settled(query, readings, here, index, index)
    requires !(index < end <= index + LONGEST) || here == None || !Syllable(query[index..end], readings)
    ensures Settled(query, readings, entry, index + 1, end)
  {
    forall other | Splits(other, query[..end], readings) ensures LastStart(other, end) != index {
      if LastStart(other, end) == index {
        LastPart(other, query, end, readings);
        if here == None {
          var init := other[..|other| - 1];
          if init != [] {
            LastPart(init, query, index, readings);
          }
        }
      }
    }
  }

  /** The candidate that ends with `query[index..end]` is tried against the entry. */
  lemma Tried(query: Text, readings: Readings, entry: Option<seq<Text>>, here: seq<Text>, index: nat, end: nat)
    requires index < end <= |query| && end - index <= LONGEST && Syllable(query[index..end], readings)
    requires Settled(query, readings, entry, index, end) && Settled(query, readings, Some(here), index, index)
    ensures var candidate := here + [query[index..end]];
            Settled(query, readings, if entry == None || |candidate| < |entry.value| then Some(candidate)
                else entry, index + 1, end)
  {
    Extend(here, query, index, end, readings);
    forall other | Splits(other, query[..end], readings)
        && LastStart(other, end) == index ensures |here| + 1 <= |other| {
      LastPart(other, query, end, readings);
      var init := other[..|other| - 1];
      if init != [] {
        LastPart(init, query, index, readings);
      }
    }
  }

  lemma NothingTried(query: Text, readings: Readings, end: nat)
    requires end <= |query|
    ensures Settled(query, readings, if end == 0 then Some([]) else None, 0, end)
  {
    forall other | Splits(other, query[..end], readings) ensures end == 0 || LastStart(other, end) >= 0 {
      if other != [] {
        LastPart(other, query, end, readings);
      }
    }
  }

  lemma AllTried(query: Text, readings: Readings, entry: Option<seq<Text>>)
    requires Settled(query, readings, entry, |query|, |query|)
    ensures match entry
            case Some(parts) => Shortest(parts, query, readings)
            case None => !Splittable(query, readings)
  {
    assert query[..|query|] == query;
    forall other | Splits(other, query, readings) ensures LastStart(other, |query|) < |query| {
      if other != [] {
        LastPart(other, query, |query|, readings);
      }
    }
  }

  ghost predicate AllSettled(query: Text, readings: Readings, paths: seq<Option<seq<Text>>>, done: nat) {
    |paths| == |query| + 1 && forall end :: 0 <= end <= |query| ==> Settled(query, readings, paths[end], done, end)
  }

  /** The entry for `end` after the syllable from `index` to `end` was offered to it. */
  function Offered(query: Text, readings: Readings, entry: Option<seq<Text>>, here: seq<Text>, index: nat,
      end: nat): Option<seq<Text>>
    requires index <= end <= |query|
  {
    if query[index..end] in readings && (entry.None? || |here| + 1 < |entry.value|)
        then Some(here + [query[index..end]]) else entry
  }

  lemma OfferSettles(query: Text, readings: Readings, before: seq<Option<seq<Text>>>, after: seq<Option<seq<Text>>>,
      index: nat)
    requires index < |query| && AllSettled(query, readings, before, index) && before[index].Some? && |after| == |before|
    requires forall end :: 0 <= end <= |query| ==>
               after[end] == if index < end <= index + LONGEST
                   then Offered(query, readings, before[end], before[index].value, index, end) else before[end]
    ensures AllSettled(query, readings, after, index + 1)
  {
    forall end | 0 <= end <= |query| ensures Settled(query, readings, after[end], index + 1, end) {
      if index < end <= index + LONGEST && Syllable(query[index..end], readings) {
        Tried(query, readings, before[end], before[index].value, index, end);
      } else {
        Untouched(query, readings, before[end], before[index], index, end);
      }
    }
  }

  /** The inner loop: every syllable that starts at `index`, longest first. */
  method ExtendFrom(query: Text, readings: Readings, paths: array<Option<seq<Text>>>, index: nat)
    requires index < |query| && AllSettled(query, readings, paths[..], index)
    requires paths[index].Some?
    modifies paths
    ensures AllSettled(query, readings, paths[..], index + 1)
  {
    ghost var before := paths[..];
    var here := paths[index].value;
    for length := 7 downto 1
      invariant forall end :: 0 <= end <= |query| ==>
                  paths[end] == if index + length <= end <= index + LONGEST
                      then Offered(query, readings, before[end], here, index, end) else before[end]
    {
      var end := index + length;
      if end <= |query| {
        var syllable := query[index..end];
        if syllable in readings {
          var candidate := here + [syllable];
          if paths[end].None? || |candidate| < |paths[end].value| {
            paths[end] := Some(candidate);
          }
        }
      }
    }
    OfferSettles(query, readings, before, paths[..], index);
  }

  /** The segmentation of the search box: syllables of the lexicon that spell the query, as few as
      possible; for a nonempty query it is empty exactly when there is no such split. */
  method SegmentPinyin(query: Text, readings: Readings) returns (syllables: seq<Text>)
    ensures Splittable(query, readings) ==> Shortest(syllables, query, readings)
    ensures !Splittable(query, readings) ==> syllables == []
    ensures query != [] ==> (syllables == [] <==> !Splittable(query, readings))
  {
    var paths := new Option<seq<Text>>[|query| + 1](k => if k == 0 then Some([]) else None);
    forall end | 0 <= end <= |query| ensures Settled(query, readings, paths[end], 0, end) {
      NothingTried(query, readings, end);
    }
    for index := 0 to |query|
      invariant AllSettled(query, readings, paths[..], index)
    {
      if paths[index].Some? {
        ExtendFrom(query, readings, paths, index);
      } else {
        forall end | 0 <= end <= |query| ensures Settled(query, readings, paths[end], index + 1, end) {
          Untouched(query, readings, paths[end], None, index, end);
        }
      }
    }
    AllTried(query, readings, paths[|query|]);
    syllables := paths[|query|].GetOr([]);
  }

  // ----- composition

  datatype Composed = Composed(text: Text, pinyin: Text)

  /** `characters` are one of the first three readings of each syllable. */
  predicate Picks(characters: seq<Text>, syllables: seq<Text>, readings: Readings) {
    |characters| == |syllables| &&
    forall k :: 0 <= k < |syllables| ==> syllables[k] in readings && characters[k] in FirstThree(readings[syllables[k]])
  }

  function FirstThree(characters: seq<Text>): seq<Text> {
    if |characters| <= 3 then characters else characters[..3]
  }

  ghost predicate Spells(c: Composed, syllables: seq<Text>, readings: Readings) {
    c.pinyin == Joined(syllables) && exists characters ::
        Picks(characters, syllables, readings) && c.text == Joined(characters)
  }

  lemma OnePickMore(c: Composed, syllables: seq<Text>, readings: Readings, k: nat, character: Text)
    requires k < |syllables| && Spells(c, syllables[..k], readings)
    requires syllables[k] in readings && character in FirstThree(readings[syllables[k]])
    ensures Spells(Composed(c.text + character, c.pinyin + syllables[k]), syllables[..k + 1], readings)
  {
    var characters :| Picks(characters, syllables[..k], readings) && c.text == Joined(characters);
    var more := characters + [character];
    assert more[..|more| - 1] == characters;
    assert syllables[..k + 1][..k] == syllables[..k];
    assert Picks(more, syllables[..k + 1], readings);
  }

  /** One syllable more for every prefix, in the order of the prefixes and of their characters. */
  function Grown(beam: seq<Composed>, few: seq<Text>, syllable: Text): seq<Composed> {
    if beam == [] then []
    else Grown(beam[..|beam| - 1], few, syllable) + Continued(beam[|beam| - 1], few, syllable)
  }

  function Continued(c: Composed, few: seq<Text>, syllable: Text): seq<Composed> {
    seq(|few|, j requires 0 <= j < |few| => Composed(c.text + few[j], c.pinyin + syllable))
  }

  /** All there is to compose from the first three characters of each syllable. */
  function Everything(syllables: seq<Text>, readings: Readings): seq<Composed>
    requires forall k :: 0 <= k < |syllables| ==> syllables[k] in readings
  {
    if syllables == [] then [Composed([], [])]
    else
      var last := syllables[|syllables| - 1];
      Grown(Everything(syllables[..|syllables| - 1], readings), FirstThree(readings[last]), last)
  }

  lemma {:induction false} GrownHas(beam: seq<Composed>, few: seq<Text>, syllable: Text, c: Composed)
    ensures c in Grown(beam, few, syllable) <==> exists i :: 0 <= i < |beam| && Adds(c, beam[i], few, syllable)
  {
    if beam != [] {
      var init, last := beam[..|beam| - 1], beam[|beam| - 1];
      GrownHas(init, few, syllable, c);
      ContinuedHas(last, few, syllable, c);
      assert forall i :: 0 <= i < |init| ==> init[i] == beam[i];
    }
  }

  lemma ContinuedHas(last: Composed, few: seq<Text>, syllable: Text, c: Composed)
    ensures c in Continued(last, few, syllable) <==> Adds(c, last, few, syllable)
  {
    forall j | 0 <= j < |few| && c == Composed(last.text + few[j], last.pinyin + syllable)
      ensures c in Continued(last, few, syllable)
    {
      assert Continued(last, few, syllable)[j] == c;
    }
  }

  /** Everything that spells the syllables is there, and nothing else. */
  lemma {:induction false} EverythingSpells(syllables: seq<Text>, readings: Readings, c: Composed)
    requires forall k :: 0 <= k < |syllables| ==> syllables[k] in readings
    ensures c in Everything(syllables, readings) <==> Spells(c, syllables, readings)
    decreases |syllables|
  {
    if syllables == [] {
      assert Picks([], syllables, readings);
    } else {
      var init, last := syllables[..|syllables| - 1], syllables[|syllables| - 1];
      var before, few := Everything(init, readings), FirstThree(readings[last]);
      GrownHas(before, few, last, c);
      if c in Everything(syllables, readings) {
        var i :| 0 <= i < |before| && Adds(c, before[i], few, last);
        var j :| 0 <= j < |few| && c == Composed(before[i].text + few[j], before[i].pinyin + last);
        EverythingSpells(init, readings, before[i]);
        assert syllables[..|syllables|] == syllables;
        OnePickMore(before[i], syllables, readings, |init|, few[j]);
      }
      if Spells(c, syllables, readings) {
        var shorter := LastPick(c, syllables, readings);
        EverythingSpells(init, readings, shorter);
      }
    }
  }

  predicate Adds(c: Composed, shorter: Composed, few: seq<Text>, syllable: Text) {
    exists j :: 0 <= j < |few| && c == Composed(shorter.text + few[j], shorter.pinyin + syllable)
  }

  lemma LastPick(c: Composed, syllables: seq<Text>, readings: Readings) returns (shorter: Composed)
    requires syllables != [] && Spells(c, syllables, readings)
    ensures Spells(shorter, syllables[..|syllables| - 1], readings)
    ensures var last := syllables[|syllables| - 1];
            last in readings && Adds(c, shorter, FirstThree(readings[last]), last)
  {
    var characters :| Picks(characters, syllables, readings) && c.text == Joined(characters);
    var init, picked := syllables[..|syllables| - 1], characters[..|characters| - 1];
    assert Picks(picked, init, readings);
    shorter := Composed(Joined(picked), Joined(init));
  }

  lemma {:induction false} GrownAppends(a: seq<Composed>, b: seq<Composed>, few: seq<Text>, syllable: Text)
    ensures Grown(a + b, few, syllable) == Grown(a, few, syllable) + Grown(b, few, syllable)
  {
    if b == [] {
      assert a + b == a;
    } else {
      var init := b[..|b| - 1];
      GrownAppends(a, init, few, syllable);
      assert (a + b)[..|a + b| - 1] == a + init;
    }
  }

  lemma {:induction false} GrownGrows(beam: seq<Composed>, few: seq<Text>, syllable: Text)
    requires few != []
    ensures |Grown(beam, few, syllable)| >= |beam|
  {
    if beam != [] {
      GrownGrows(beam[..|beam| - 1], few, syllable);
    }
  }

  /** What the cap drops could not have come back among the first eighteen. */
  lemma CapLosesNothing(all: seq<Composed>, few: seq<Text>, syllable: Text)
    requires few != []
    ensures Capped(Grown(Capped(all), few, syllable)) == Capped(Grown(all, few, syllable))
  {
    if |all| > 18 {
      assert all[..18] + all[18..] == all;
      GrownAppends(all[..18], all[18..], few, syllable);
      GrownGrows(all[..18], few, syllable);
    }
  }

  method Grow(beam: seq<Composed>, few: seq<Text>, syllable: Text) returns (next: seq<Composed>)
    ensures next == Grown(beam, few, syllable)
  {
    next := [];
    for i := 0 to |beam|
      invariant next == Grown(beam[..i], few, syllable)
    {
      ghost var before := next;
      for j := 0 to |few|
        invariant next == before + Continued(beam[i], few, syllable)[..j]
      {
        next := next + [Composed(beam[i].text + few[j], beam[i].pinyin + syllable)];
      }
      assert beam[..i + 1][..i] == beam[..i];
    }
    assert beam[..|beam|] == beam;
  }

  function Capped(beam: seq<Composed>): (r: seq<Composed>)
    ensures |r| <= 18 && (beam != [] ==> r != []) && forall c :: c in r ==> c in beam
  {
    if |beam| <= 18 then beam else beam[..18]
  }

  /** The beam search, which never holds more than eighteen, finds the first eighteen of all there is. */
  method Compose(syllables: seq<Text>, readings: Readings) returns (beam: seq<Composed>)
    requires forall k :: 0 <= k < |syllables| ==> syllables[k] in readings && readings[syllables[k]] != []
    ensures 0 < |beam| <= 18 && beam == Capped(Everything(syllables, readings))
    ensures forall c :: c in beam ==> Spells(c, syllables, readings)
  {
    beam := [Composed([], [])];
    for k := 0 to |syllables|
      invariant 0 < |beam| <= 18 && beam == Capped(Everything(syllables[..k], readings))
    {
      var few := FirstThree(readings[syllables[k]]);
      assert syllables[..k + 1][..k] == syllables[..k];
      GrownGrows(beam, few, syllables[k]);
      CapLosesNothing(Everything(syllables[..k], readings), few, syllables[k]);
      var next := Grow(beam, few, syllables[k]);
      beam := Capped(next);
    }
    assert syllables[..|syllables|] == syllables;
    forall c | c in beam ensures Spells(c, syllables, readings) {
      EverythingSpells(syllables, readings, c);
    }
  }

  /** Candidates composed character by character: each spells the whole query with the syllables of a
      shortest split, taking one of the best three characters of each; at most eighteen of them, and
      none at all only when no shortest split has two to six syllables. */
  method ComposedCandidates(query: Text, readings: Readings) returns (beam: seq<Composed>, syllables: seq<Text>)
    requires forall syllable :: syllable in readings ==> readings[syllable] != []
    ensures |beam| <= 18
    ensures beam != [] ==> Shortest(syllables, query, readings) && 2 <= |syllables| <= 6
    ensures beam != [] ==> beam == Capped(Everything(syllables, readings))
    ensures forall c :: c in beam ==> Spells(c, syllables, readings) && c.pinyin == query
    ensures beam == [] ==> forall parts :: Shortest(parts, query, readings) ==> !(2 <= |parts| <= 6)
  {
    syllables := SegmentPinyin(query, readings);
    beam := [];
    if 2 <= |syllables| <= 6 {
      beam := Compose(syllables, readings);
    }
  }

  // ----- collecting

  datatype Candidate = Candidate(text: Text, pinyin: Text, score: int)

  datatype Offer = Offer(text: Text, pinyin: Text, tier: int, order: nat)

  predicate Contains(text: Text, part: Text) {
    part <= text || (text != [] && Contains(text[1..], part))
  }

  /** How well a reading meets the query; 0 is no match. */
  function Match(pinyin: Text, query: Text): nat {
    if pinyin == query then 1500
    else if query <= pinyin then 400
    else if pinyin <= query then 300
    else if Contains(query, pinyin) then 200
    else if Contains(pinyin, query) then 100
    else 0
  }

  /** The score of an offer, if it counts at all. */
  function Score(o: Offer, query: Text): Option<int> {
    if o.text == [] || o.pinyin == [] || Match(o.pinyin, query) == 0 then None
    else Some(o.tier + Match(o.pinyin, query) - if o.order < 99 then o.order else 99)
  }

  predicate Counts(o: Offer, query: Text) {
    Score(o, query).Some?
  }

  /** Within one tier the kind of match decides, and the place in its word list only between equal kinds: equal
      before beginning with the query, before beginning the query, before lying inside it, before containing it. */
  lemma KindDecides(o: Offer, p: Offer, query: Text)
    requires Counts(o, query) && Counts(p, query) && o.tier == p.tier
    ensures var a, b := Score(o, query).value, Score(p, query).value;
            && (o.pinyin == query && p.pinyin != query ==> a > b)
            && (query <= o.pinyin && !(query <= p.pinyin) ==> a > b)
            && (o.pinyin <= query && !(query <= p.pinyin) && !(p.pinyin <= query) ==> a > b)
            && (Contains(query, o.pinyin) && !Contains(query, p.pinyin) && !(query <= p.pinyin) ==> a > b)
            && (o.pinyin == p.pinyin && o.order < p.order && o.order < 99 ==> a > b)
  {
    assert p.pinyin <= query ==> Contains(query, p.pinyin);
    assert o.pinyin <= query ==> Contains(query, o.pinyin);
  }

  /** A tier always comes before another exactly when it is at least 1500 higher; neighbouring
      tiers are 500 apart or less. */
  lemma TiersDominateExactly(high: int, low: int)
    ensures high - low >= 1500 <==>
            forall o, p, query :: Counts(o, query) && Counts(p, query) && o.tier == high && p.tier == low ==>
                Score(o, query).value > Score(p, query).value
  {
    if high - low < 1500 {
      var o, p := Offer("x", "ba", high, 99), Offer("y", "a", low, 0);
      assert Contains("ba"[1..], "a");
      assert Score(o, "a") == Some(high + 1) && Score(p, "a") == Some(low + 1500);
      assert Counts(o, "a") && Counts(p, "a");
    }
  }

  /** The list has one candidate for each text, and the index knows which. */
  predicate Indexed(target: seq<Candidate>, seen: map<Text, Candidate>) {
    && (forall i, j :: 0 <= i < j < |target| ==> target[i].text != target[j].text)
    && (forall c :: c in target ==> c.text in seen && seen[c.text] == c)
    && (forall t :: t in seen ==> seen[t].text == t && seen[t] in target)
  }

  method IndexOf(target: seq<Candidate>, c: Candidate) returns (k: nat)
    requires c in target
    ensures k < |target| && target[k] == c
  {
    k := 0;
    while target[k] != c
      invariant k < |target| && c in target[k..]
      decreases |target| - k
    {
      k := k + 1;
    }
  }

  lemma SplicedOut(target: seq<Candidate>, seen: map<Text, Candidate>, k: nat)
    requires Indexed(target, seen) && k < |target|
    ensures Indexed(target[..k] + target[k + 1..], seen - {target[k].text})
  {
    var rest, known := target[..k] + target[k + 1..], seen - {target[k].text};
    forall i | 0 <= i < |rest| ensures rest[i].text in known && known[rest[i].text] == rest[i] {
      assert rest[i] == target[if i < k then i else i + 1];
    }
    forall t | t in known ensures known[t] in rest {
      var i :| 0 <= i < |target| && target[i] == seen[t];
      assert rest[if i < k then i else i - 1] == seen[t];
    }
  }

  lemma Replaced(target: seq<Candidate>, seen: map<Text, Candidate>, k: nat, c: Candidate)
    requires Indexed(target, seen) && k < |target| && target[k].text == c.text
    ensures Indexed(target[..k] + target[k + 1..] + [c], seen[c.text := c])
  {
    SplicedOut(target, seen, k);
    var known := seen - {c.text};
    PushedIn(target[..k] + target[k + 1..], known, c);
    assert seen[c.text := c] == known[c.text := c];
  }

  lemma PushedIn(target: seq<Candidate>, seen: map<Text, Candidate>, c: Candidate)
    requires Indexed(target, seen) && c.text !in seen
    ensures Indexed(target + [c], seen[c.text := c])
  {
    assert forall i :: 0 <= i < |target| ==> target[i] in target;
  }

  /** The result list with its index by text. */
  class Collector {
    var target: seq<Candidate>
    var seen: map<Text, Candidate>

    ghost predicate Valid()
      reads this
    {
      Indexed(target, seen)
    }

    constructor ()
      ensures Valid() && seen == map[]
    {
      target, seen := [], map[];
    }

    /** An offer enters the list when it scores higher than what is there for its text. */
    method AddCandidate(o: Offer, query: Text)
      requires Valid()
      modifies this
      ensures Valid() && seen == AfterOffer(old(seen), o, query)
      ensures if seen == old(seen) then target == old(target)
              else target != [] && target[|target| - 1] == seen[o.text]
    {
      var score := Score(o, query);
      if score == None || (o.text in seen && seen[o.text].score >= score.value) {
        return;
      }
      var candidate := Candidate(o.text, o.pinyin, score.value);
      if o.text in seen {
        var k := IndexOf(target, seen[o.text]);
        Replaced(target, seen, k, candidate);
        target := target[..k] + target[k + 1..];
      } else {
        PushedIn(target, seen, candidate);
      }
      seen := seen[o.text := candidate];
      target := target + [candidate];
    }
  }

  function AfterOffer(seen: map<Text, Candidate>, o: Offer, query: Text): map<Text, Candidate> {
    match Score(o, query)
    case None => seen
    case Some(score) =>
      if o.text in seen && seen[o.text].score >= score then seen else seen[o.text := Candidate(o.text, o.pinyin, score)]
  }

  function AfterOffers(offers: seq<Offer>, query: Text): map<Text, Candidate> {
    if offers == [] then map[] else AfterOffer(AfterOffers(offers[..|offers| - 1], query), offers[|offers| - 1], query)
  }

  /** Whatever the order of the offers, a text is listed exactly when some offer of it matches, and with
      the highest score among those. */
  lemma {:induction false} BestOfferWins(offers: seq<Offer>, query: Text, text: Text)
    ensures var seen := AfterOffers(offers, query);
            && (text in seen <==>
                   exists k :: 0 <= k < |offers| && offers[k].text == text && Score(offers[k], query).Some?)
            && (text in seen ==>
                  && (exists k ::
                         0 <= k < |offers| && offers[k].text == text
                         && Score(offers[k], query) == Some(seen[text].score))
                  && (forall k :: 0 <= k < |offers| && offers[k].text == text && Score(offers[k], query).Some? ==>
                        Score(offers[k], query).value <= seen[text].score))
  {
    if offers != [] {
      var init := offers[..|offers| - 1];
      BestOfferWins(init, query, text);
      assert forall k :: 0 <= k < |init| ==> init[k] == offers[k];
    }
  }
}
