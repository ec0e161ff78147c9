/** Turning a wall-clock time of a zone into an instant by correcting a guess twice. */
module ZonedTime {
  /** What the zone shows at an instant, written as if it were UTC; `offset` is the zone. */
  function Represented(offset: int -> int, instant: int): int {
    instant + offset(instant)
  }

  /** The loop of the settings page: two corrections, starting from the wall time read as UTC. */
  method ZonedDateTimeToEpoch(wallAsUTC: int, offset: int -> int) returns (guess: int)
    ensures guess == Corrected(wallAsUTC, offset, 2)
  {
    guess := wallAsUTC;
    for i := 0 to 2
      invariant guess == Corrected(wallAsUTC, offset, i)
    {
      var represented := Represented(offset, guess);
      guess := guess + (wallAsUTC - represented);
    }
  }

  function Corrected(wall: int, offset: int -> int, n: nat): int {
    if n == 0 then wall
    else
      var g := Corrected(wall, offset, n - 1);
      g + (wall - Represented(offset, g))
  }

  /** The offset is `before` up to the instant `change` and `after` from then on, at every instant the
      loop visits and at `instant`. */
  predicate ChangesOnce(wall: int, offset: int -> int, instant: int, change: int, before: int, after: int) {
    var seen := [wall, Corrected(wall, offset, 1), Corrected(wall, offset, 2), instant];
    forall i :: 0 <= i < |seen| ==> offset(seen[i]) == if seen[i] < change then before else after
  }

  /** Two corrections reach an instant that shows the wall time, whenever some instant does, also when
      two do. */
  lemma TwoCorrectionsSuffice(wall: int, offset: int -> int, instant: int, change: int, before: int, after: int)
    requires ChangesOnce(wall, offset, instant, change, before, after)
    requires Represented(offset, instant) == wall
    ensures Represented(offset, Corrected(wall, offset, 2)) == wall
  {
    var seen := [wall, Corrected(wall, offset, 1), Corrected(wall, offset, 2), instant];
    assert seen[0] == wall && seen[1] == Corrected(wall, offset, 1) && seen[2] == Corrected(wall, offset, 2)
        && seen[3] == instant;
    assert Corrected(wall, offset, 0) == wall;
    assert Corrected(wall, offset, 1) == wall - offset(wall);
    assert Corrected(wall, offset, 2) == wall - offset(Corrected(wall, offset, 1));
  }

  /** So the result shows the wall time exactly when the zone ever does: the times it misses are those
      that a forward change skips. */
  lemma MissesOnlySkippedTimes(wall: int, offset: int -> int, change: int, before: int, after: int)
    requires forall t :: offset(t) == if t < change then before else after
    ensures Represented(offset, Corrected(wall, offset, 2)) == wall <==> !(change + before <= wall < change + after)
  {
    if !(change + before <= wall < change + after) {
      var instant := if wall < change + before then wall - before else wall - after;
      TwoCorrectionsSuffice(wall, offset, instant, change, before, after);
    }
  }

  /** One correction is not enough: three o'clock in a zone that moves from seven to eight hours east. */
  lemma OneCorrectionFails()
    ensures var offset := (t: int) => if t < 0 then 7 else 8;
            Represented(offset, -4) == 3 && Represented(offset, Corrected(3, offset, 1)) == 2
                && Corrected(3, offset, 2) == -4
  {
    var offset := (t: int) => if t < 0 then 7 else 8;
    assert Corrected(3, offset, 0) == 3;
    assert Corrected(3, offset, 1) == -5;
  }
}
