/** The stable keys of real-time rows, points and summaries: each text is preceded by its length. */
module StableKey {
  import opened Options

  /** A UTF-16 code unit, the unit in which the page measures text. */
  newtype Unit = x: int | 0 <= x < 0x10000

  type Text = seq<Unit>

  const ZERO: Unit := 48
  const COLON: Unit := 58
  const BAR: Unit := 124

  function Decimal(n: nat): (r: Text)
    ensures r != [] && forall i :: 0 <= i < |r| ==> ZERO <= r[i] < COLON
  {
    if n < 10 then [ZERO + n as Unit] else Decimal(n / 10) + [ZERO + (n % 10) as Unit]
  }

  function Framed(text: Text): Text {
    Decimal(|text|) + [COLON] + text + [BAR]
  }

  function Joined(texts: seq<Text>): Text {
    if texts == [] then [] else Framed(texts[0]) + Joined(texts[1..])
  }

  /** The key of a kind and its parts. */
  function FallbackStableKey(kind: Text, parts: seq<Text>): Text {
    Joined([kind] + parts)
  }

  // ----- the decoder

  /** Reads decimal digits on top of `n` up to a colon; what follows the colon is left. */
  function ReadLength(s: Text, n: nat): Option<(nat, Text)> {
    if s == [] then None
    else if s[0] == COLON then Some((n, s[1..]))
    else if ZERO <= s[0] < COLON then ReadLength(s[1..], 10 * n + (s[0] - ZERO) as nat)
    else None
  }

  function ReadFrame(s: Text): (r: Option<(Text, Text)>)
    ensures r.Some? ==> |r.value.1| < |s|
  {
    match ReadLength(s, 0)
    case None => None
    case Some((n, rest)) =>
      ReadLengthShrinks(s, 0);
      if n < |rest| && rest[n] == BAR then Some((rest[..n], rest[n + 1..])) else None
  }

  function Decode(s: Text): Option<seq<Text>>
    decreases |s|
  {
    if s == [] then Some([])
    else
      match ReadFrame(s)
      case None => None
      case Some((text, rest)) =>
        match Decode(rest)
        case None => None
        case Some(texts) => Some([text] + texts)
  }

  lemma ReadLengthShrinks(s: Text, n: nat)
    ensures var r := ReadLength(s, n); r.Some? ==> |r.value.1| < |s|
  {
  }

  /** Reading digits one by one continues a number as multiplication by ten does. */
  function Shifted(base: nat, n: nat): nat {
    if n < 10 then 10 * base + n else 10 * Shifted(base, n / 10) + n % 10
  }

  lemma {:induction false} ReadDigits(base: nat, n: nat, tail: Text)
    ensures ReadLength(Decimal(n) + tail, base) == ReadLength(tail, Shifted(base, n))
    decreases n
  {
    if n < 10 {
      assert (Decimal(n) + tail)[1..] == tail;
    } else {
      var last := [ZERO + (n % 10) as Unit];
      assert Decimal(n) + tail == Decimal(n / 10) + (last + tail);
      ReadDigits(base, n / 10, last + tail);
      assert (last + tail)[1..] == tail;
    }
  }

  lemma {:induction false} ShiftedZero(n: nat)
    ensures Shifted(0, n) == n
    decreases n
  {
    if n >= 10 {
      ShiftedZero(n / 10);
    }
  }

  lemma ReadsBackFrame(text: Text, tail: Text)
    ensures ReadFrame(Framed(text) + tail) == Some((text, tail))
  {
    var after := text + [BAR] + tail;
    assert Framed(text) + tail == Decimal(|text|) + ([COLON] + after);
    ReadDigits(0, |text|, [COLON] + after);
    ShiftedZero(|text|);
    assert ([COLON] + after)[1..] == after;
    assert after[..|text|] == text && after[|text| + 1..] == tail;
  }

  /** The decoder inverts the encoder on every list of texts. */
  lemma {:induction false} ReadsBack(texts: seq<Text>)
    ensures Decode(Joined(texts)) == Some(texts)
    decreases texts
  {
    if texts != [] {
      ReadsBackFrame(texts[0], Joined(texts[1..]));
      ReadsBack(texts[1..]);
      assert [texts[0]] + texts[1..] == texts;
    }
  }

  /** Two keys are equal only for the same kind and the same parts, whatever the texts contain; in
      particular keys of different kinds never collide. */
  lemma KeysAreInjective(kind1: Text, parts1: seq<Text>, kind2: Text, parts2: seq<Text>)
    ensures FallbackStableKey(kind1, parts1) == FallbackStableKey(kind2, parts2) <==> kind1 == kind2 && parts1 == parts2
  {
    ReadsBack([kind1] + parts1);
    ReadsBack([kind2] + parts2);
    if FallbackStableKey(kind1, parts1) == FallbackStableKey(kind2, parts2) {
      assert [kind1] + parts1 == [kind2] + parts2;
      assert parts1 == ([kind1] + parts1)[1..];
      assert parts2 == ([kind2] + parts2)[1..];
    }
  }

  // ----- the keys of the page

  /** Empty texts stand for missing values. */
  datatype Row = Row(channel: Text, master: Text, deviceId: Text, deviceName: Text, stableKey: Text, summaryKey: Text)

  /** The name of a data point is its key, else its name, else its position (given as text). */
  datatype Point = Point(key: Text, name: Text, position: Text, stableKey: Text)

  const ROW: Text := [114, 111, 119]
  const POINT: Text := [112, 111, 105, 110, 116]
  const SUMMARY: Text := [115, 117, 109, 109, 97, 114, 121]

  function Or(first: Text, second: Text): Text {
    if first != [] then first else second
  }

  function Place(row: Row): seq<Text> {
    [row.channel, row.master, Or(row.deviceId, row.deviceName)]
  }

  function RowKey(row: Row): Text {
    Or(row.stableKey, FallbackStableKey(ROW, Place(row)))
  }

  function PointKey(row: Row, p: Point): Text {
    Or(p.stableKey, FallbackStableKey(POINT, Place(row) + [Or(Or(p.key, p.name), p.position)]))
  }

  function SummaryKey(row: Row): Text {
    Or(row.summaryKey, FallbackStableKey(SUMMARY, Place(row)))
  }

  lemma RowsAreTold(r: Row, q: Row)
    requires r.stableKey == [] == q.stableKey
    ensures RowKey(r) == RowKey(q) <==> Place(r) == Place(q)
  {
    KeysAreInjective(ROW, Place(r), ROW, Place(q));
    FallbackNonempty(ROW, Place(r));
    FallbackNonempty(ROW, Place(q));
  }

  lemma FallbackNonempty(kind: Text, parts: seq<Text>)
    ensures FallbackStableKey(kind, parts) != []
  {
    ReadsBack([kind] + parts);
  }

  /** Where the backend sent no keys of its own, a point's value, another point's value and a summary
      never share an entry: points collide exactly when row and point are the same, and a point never
      collides with a summary. */
  lemma ValuesAreTold(r: Row, p: Point, q: Row, o: Point)
    requires p.stableKey == [] == o.stableKey && q.summaryKey == []
    ensures PointKey(r, p) == PointKey(q, o) <==>
              Place(r) == Place(q) && Or(Or(p.key, p.name), p.position) == Or(Or(o.key, o.name), o.position)
    ensures PointKey(r, p) != SummaryKey(q)
  {
    var mine, theirs := Or(Or(p.key, p.name), p.position), Or(Or(o.key, o.name), o.position);
    FallbackNonempty(POINT, Place(r) + [mine]);
    FallbackNonempty(POINT, Place(q) + [theirs]);
    FallbackNonempty(SUMMARY, Place(q));
    KeysAreInjective(POINT, Place(r) + [mine], POINT, Place(q) + [theirs]);
    KeysAreInjective(POINT, Place(r) + [mine], SUMMARY, Place(q));
    assert |POINT| != |SUMMARY|;
    assert (Place(r) + [mine])[..3] == Place(r) && (Place(q) + [theirs])[..3] == Place(q);
    assert (Place(r) + [mine])[3] == mine && (Place(q) + [theirs])[3] == theirs;
  }
}
