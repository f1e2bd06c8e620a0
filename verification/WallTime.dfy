/**
 Wall time to instant, in milliseconds.  The zone is a function from instants to
 offsets: what is added to an instant to read its wall clock.
 */
module WallTime {
  const HOUR := 3_600_000
  const STANDARD := -5 * HOUR
  const DAYLIGHT := -4 * HOUR

  /** Eastern time: two offsets, and no two transitions within a day. */
  ghost predicate Eastern(offset: int -> int) {
    && (forall t :: offset(t) == STANDARD || offset(t) == DAYLIGHT)
    && (forall a, b, c | a <= b <= c < a + 24 * HOUR :: offset(a) == offset(b) || offset(b) == offset(c))
  }

  /** The instant reads as the wall time. */
  predicate Reads(offset: int -> int, t: int, wall: int) {
    t + offset(t) == wall
  }

  function Corrected(offset: int -> int, wall: int, passes: nat): int {
    if passes == 0 then wall else wall - offset(Corrected(offset, wall, passes - 1))
  }

  /** The two-pass correction. */
  method WallTimeToInstant(offset: int -> int, wall: int) returns (instant: int)
    ensures instant == Corrected(offset, wall, 2)
    ensures Eastern(offset) && (exists t :: Reads(offset, t, wall)) ==>
      Reads(offset, instant, wall) && forall t :: Reads(offset, t, wall) ==> instant <= t
  {
    instant := wall;
    for i := 0 to 2
      invariant instant == Corrected(offset, wall, i)
    {
      instant := wall - offset(instant);
    }
    if Eastern(offset) && exists t :: Reads(offset, t, wall) { ExistingTimes(offset, wall); }
  }

  /** Only two instants can read as a wall time. */
  lemma Candidates(offset: int -> int, t: int, wall: int)
    requires Eastern(offset) && Reads(offset, t, wall)
    ensures t == wall + 4 * HOUR || t == wall + 5 * HOUR
  {
  }

  lemma OneTransition(offset: int -> int, wall: int)
    requires Eastern(offset)
    ensures offset(wall) == offset(wall + 4 * HOUR) || offset(wall + 4 * HOUR) == offset(wall + 5 * HOUR)
  {
  }

  /** A wall time that exists is converted to the earliest instant that reads as it. */
  lemma ExistingTimes(offset: int -> int, wall: int)
    requires Eastern(offset) && exists t :: Reads(offset, t, wall)
    ensures Reads(offset, Corrected(offset, wall, 2), wall)
    ensures forall t :: Reads(offset, t, wall) ==> Corrected(offset, wall, 2) <= t
  {
    OneTransition(offset, wall);
    assert Corrected(offset, wall, 1) == wall - offset(wall) by { assert Corrected(offset, wall, 0) == wall; }
    forall t | Reads(offset, t, wall) ensures t == wall + 4 * HOUR || t == wall + 5 * HOUR {
      Candidates(offset, t, wall);
    }
  }

  /**
   A wall time in the gap of a spring transition, which no instant reads as, is
   converted to an instant before the transition that reads exactly one hour earlier.
   */
  lemma GapTimes(offset: int -> int, wall: int)
    requires Eastern(offset) && !exists t :: Reads(offset, t, wall)
    ensures var r := Corrected(offset, wall, 2);
      && Reads(offset, r, wall - HOUR)
      && offset(r) == STANDARD && offset(r + HOUR) == DAYLIGHT
  {
    OneTransition(offset, wall);
    assert !Reads(offset, wall + 4 * HOUR, wall) && !Reads(offset, wall + 5 * HOUR, wall);
    assert Corrected(offset, wall, 1) == wall - offset(wall) by { assert Corrected(offset, wall, 0) == wall; }
  }

  /** So the conversion reads back exactly for the wall times that exist. */
  lemma ReadsBackIffExists(offset: int -> int, wall: int)
    requires Eastern(offset)
    ensures Reads(offset, Corrected(offset, wall, 2), wall) <==> exists t :: Reads(offset, t, wall)
  {
    if exists t :: Reads(offset, t, wall) { ExistingTimes(offset, wall); }
  }

  /** One pass is not enough: right at a change to standard time it lands where the clock already reads an hour less. */
  lemma OnePassFails(change: int)
    ensures var offset := (t: int) => if t < change then DAYLIGHT else STANDARD;
      var wall := change - 4 * HOUR;
      && Eastern(offset) && Reads(offset, Corrected(offset, wall, 2), wall) && !Reads(offset, Corrected(offset, wall, 1), wall)
  {
    var offset := (t: int) => if t < change then DAYLIGHT else STANDARD;
    var wall := change - 4 * HOUR;
    assert Corrected(offset, wall, 0) == wall;
    assert Corrected(offset, wall, 1) == change;
    assert Corrected(offset, wall, 2) == change + HOUR;
  }
}
