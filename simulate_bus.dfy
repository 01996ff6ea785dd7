/**
 * The stand-alone bus simulator: every interval it publishes the current waypoint of
 * a fixed route with a random speed, then walks one step back and forth over the route.
 */
module SimulateBus {
  import opened Utils

  /** The fixed waypoints, Banjara Hills towards Ameerpet. */
  const Route: seq<Location> := [
    Location(17.4262, 78.4552),
    Location(17.4268, 78.4558),
    Location(17.4275, 78.4565),
    Location(17.4282, 78.4572),
    Location(17.4290, 78.4580),
    Location(17.4300, 78.4575),
    Location(17.4310, 78.4565),
    Location(17.4320, 78.4555),
    Location(17.4330, 78.4545),
    Location(17.4340, 78.4535),
    Location(17.4350, 78.4525),
    Location(17.4360, 78.4515),
    Location(17.4370, 78.4505),
    Location(17.4375, 78.4484)
  ]

  /** The walker's two variables: the waypoint index and the direction. */
  datatype Walker = Walker(index: int, forward: bool)

  const Start := Walker(0, true)

  /** One step of the ping-pong walk over `len` waypoints. */
  function Advance(len: int, w: Walker): (next: Walker)
    ensures len >= 2 && 0 <= w.index < len ==> 0 <= next.index < len
    ensures len >= 2 && 0 <= w.index < len ==> next.index == w.index + 1 || next.index == w.index - 1
    ensures next.index == w.index + 1 ==> next.forward
    ensures next.index == w.index - 1 ==> !next.forward
  {
    if w.forward then
      var index := w.index + 1;
      if index >= len then Walker(len - 2, false) else Walker(index, true)
    else
      var index := w.index - 1;
      if index < 0 then Walker(1, true) else Walker(index, false)
  }

  /** The walker after `n` steps from the first waypoint. */
  function Walk(len: int, n: nat): (w: Walker)
    ensures len >= 2 ==> 0 <= w.index < len
  {
    if n == 0 then Start else Advance(len, Walk(len, n - 1))
  }

  /** The length of one back-and-forth sweep. */
  function Period(len: int): int {
    2 * (len - 1)
  }

  /** On the way out the walker visits 0, 1, ..., len - 1, still moving forward. */
  lemma {:induction false} Rising(len: int, k: nat)
    requires len >= 2 && k <= len - 1
    ensures Walk(len, k) == Walker(k, true)
  {
    if k > 0 {
      Rising(len, k - 1);
    }
  }

  /** Then it comes back through len - 2, ..., 0, moving backward. */
  lemma {:induction false} Falling(len: int, k: nat)
    requires len >= 2 && 1 <= k <= len - 1
    ensures Walk(len, len - 1 + k) == Walker(len - 1 - k, false)
  {
    if k == 1 {
      Rising(len, len - 1);
    } else {
      Falling(len, k - 1);
    }
  }

  /**
   * The published indices repeat with period 2 * (len - 1); from the first step on the
   * whole walker state repeats (at step 0 only the direction flag differs).
   */
  lemma {:induction false} WalkPeriodic(len: int, n: nat)
    requires len >= 2
    ensures Walk(len, n + Period(len)).index == Walk(len, n).index
    ensures n >= 1 ==> Walk(len, n + Period(len)) == Walk(len, n)
  {
    if n == 0 {
      Falling(len, len - 1);
    } else if n == 1 {
      Falling(len, len - 1);
      assert Walk(len, Period(len)) == Walker(0, false);
    } else {
      WalkPeriodic(len, n - 1);
      assert Walk(len, n + Period(len)) == Advance(len, Walk(len, n - 1 + Period(len)));
    }
  }

  /** Consecutive published indices differ by exactly one. */
  lemma WalkStepsByOne(len: int, n: nat)
    requires len >= 2
    ensures Walk(len, n + 1).index - Walk(len, n).index == 1 || Walk(len, n).index - Walk(len, n + 1).index == 1
  {
  }

  /** `Math.floor(Math.random() * (60 - 30) + 30)` for a random number in [0, 1). */
  function PublishedSpeed(random: real): (speed: int)
    requires 0.0 <= random < 1.0
    ensures 30 <= speed <= 59
  {
    (random * (60 - 30) as real + 30.0).Floor
  }

  /** Every speed from 30 to 59 can be drawn. */
  lemma PublishedSpeedCovers(speed: int)
    requires 30 <= speed <= 59
    ensures PublishedSpeed((speed - 30) as real / 30.0) == speed
  {
  }

  /** How the PUT to the database went; the walk does not depend on it. */
  datatype PutOutcome = Stored | Rejected(status: int) | NetworkError

  /** The record written for the bus on each tick. */
  datatype BusUpdate = BusUpdate(location: Location, speed: int, status: string, lastUpdated: int)

  class BusSimulator {
    var index: int
    var forward: bool
    /** How many ticks have run. */
    ghost var ticks: nat

    ghost predicate Valid()
      reads this
    {
      Walker(index, forward) == Walk(|Route|, ticks)
    }

    constructor ()
      ensures Valid() && ticks == 0 && index == 0 && forward
    {
      index, forward := 0, true;
      ticks := 0;
    }

    /** The interval callback: publish, then step, whatever the PUT did. */
    method Tick(put: PutOutcome, random: real, now: int) returns (update: BusUpdate)
      requires Valid() && 0.0 <= random < 1.0
      modifies this
      ensures Valid() && ticks == old(ticks) + 1
      ensures 0 <= old(index) < |Route| && update == BusUpdate(Route[old(index)], PublishedSpeed(random), "enroute", now)
      ensures Walker(index, forward) == Advance(|Route|, Walker(old(index), old(forward)))
      ensures 0 <= index < |Route|
    {
      var location := Route[index];
      update := BusUpdate(location, PublishedSpeed(random), "enroute", now);
      if forward {
        index := index + 1;
        if index >= |Route| {
          index := |Route| - 2;
          forward := false;
        }
      } else {
        index := index - 1;
        if index < 0 {
          index := 1;
          forward := true;
        }
      }
      ticks := ticks + 1;
    }
  }
}
