/**
 * The pure helpers of the tracker: the ETA formula with its traffic multiplier,
 * the college-boundary predicates and the utility-side five-minute alert gate.
 * Numbers are mathematical reals; the haversine distance is a parameter.
 */
module Utils {
  import opened Maybe

  /** A WGS84 coordinate, in degrees. */
  datatype Location = Location(lat: real, lng: real)

  /**
   * A distance between two locations. The source computes it with trigonometry on
   * IEEE doubles (haversine in kilometres, or Leaflet's distanceTo in metres); the
   * model leaves it abstract and takes it as an argument.
   */
  type Distance = (Location, Location) -> real

  /**
   * The values `trafficLevel` may take. `None` stands for an undefined level, and also
   * for any other string: the traffic flow's fallback prompt asks for "light", and its
   * JSON is returned unchecked. calculateETA gives such a level multiplier 1, as it
   * does an undefined one.
   */
  datatype TrafficLevel = Low | Moderate | Heavy | Severe | Medium | High

  datatype JourneyStage = ToUser | ToCollege

  /** The four one-shot notification flags of a journey. */
  datatype AlertState = AlertState(
    fiveMinuteWarning: bool,
    oneMinuteWarning: bool,
    arrivalWarning: bool,
    collegeExitWarning: bool)

  const NoAlerts := AlertState(false, false, false, false)

  /** Severity order of the traffic levels, used to state that the multiplier is monotone. */
  function Severity(level: Option<TrafficLevel>): nat {
    match level
    case None => 0
    case Some(Low) => 0
    case Some(Medium) => 1
    case Some(Moderate) => 1
    case Some(High) => 2
    case Some(Heavy) => 2
    case Some(Severe) => 3
  }

  /** The multiplier chosen by the chain of overriding `if`s of calculateETA. */
  function TrafficMultiplier(level: Option<TrafficLevel>): (m: real)
    ensures level == None || level == Some(Low) ==> m == 1.0
    ensures level == Some(Medium) || level == Some(Moderate) ==> m == 1.5
    ensures level == Some(High) || level == Some(Heavy) ==> m == 2.0
    ensures level == Some(Severe) ==> m == 3.0
  {
    var m0 := 1.0;
    var m1 := if level == Some(Medium) || level == Some(Moderate) then 1.5 else m0;
    var m2 := if level == Some(High) || level == Some(Heavy) then 2.0 else m1;
    if level == Some(Severe) then 3.0 else m2
  }

  /** A more severe level never gives a smaller multiplier, and every multiplier lies in [1, 3]. */
  lemma MultiplierMonotone(a: Option<TrafficLevel>, b: Option<TrafficLevel>)
    requires Severity(a) <= Severity(b)
    ensures 1.0 <= TrafficMultiplier(a) <= TrafficMultiplier(b) <= 3.0
  {
  }

  /** Minutes to cover `distance` kilometres at `speed` km/h under the given traffic. */
  function CalculateEta(distance: real, speed: real, level: Option<TrafficLevel>): (eta: real)
    ensures speed <= 0.0 ==> eta == 0.0
    ensures speed > 0.0 ==> eta * speed == distance * 60.0 * TrafficMultiplier(level)
    ensures speed > 0.0 && distance >= 0.0 ==> eta >= 0.0
  {
    if speed <= 0.0 then 0.0
    else
      var timeHours := distance / speed;
      timeHours * 60.0 * TrafficMultiplier(level)
  }

  /** For a fixed positive speed and level, a longer distance never gives a shorter ETA. */
  lemma EtaMonotoneInDistance(d1: real, d2: real, speed: real, level: Option<TrafficLevel>)
    requires speed > 0.0 && d1 <= d2
    ensures CalculateEta(d1, speed, level) <= CalculateEta(d2, speed, level)
  {
    var m := TrafficMultiplier(level);
    assert d1 / speed <= d2 / speed by {
      assert d2 / speed - d1 / speed == (d2 - d1) / speed;
    }
    assert (d1 / speed) * 60.0 * m <= (d2 / speed) * 60.0 * m;
  }

  /** The ETA of a path is the sum of the ETAs of its two parts. */
  lemma EtaAdditive(d1: real, d2: real, speed: real, level: Option<TrafficLevel>)
    ensures CalculateEta(d1 + d2, speed, level) == CalculateEta(d1, speed, level) + CalculateEta(d2, speed, level)
  {
    if speed > 0.0 {
      assert (d1 + d2) / speed == d1 / speed + d2 / speed;
    }
  }

  /** The worked example of the formula: 10 km at 40 km/h in severe traffic takes 45 minutes. */
  lemma SevereTrafficExample()
    ensures CalculateEta(10.0, 40.0, Some(Severe)) == 45.0
    ensures CalculateEta(0.0, 40.0, Some(Low)) == 0.0
  {
  }

  const CollegeBoundaryRadius: real := 500.0
  const CollegeLocation := Location(17.4185, 78.4451)

  /** Inside the college: within 500 metres of the college, the circle itself included. */
  function IsWithinCollegeBoundary(dist: Distance, location: Location): (inside: bool)
    ensures inside <==> dist(location, CollegeLocation) <= 0.5
  {
    dist(location, CollegeLocation) * 1000.0 <= CollegeBoundaryRadius
  }

  /** The bus has just left the college: the previous reading was inside and this one is not. */
  function HasExitedCollegeBoundary(dist: Distance, current: Location, previous: Option<Location>): (exited: bool)
    ensures previous == None ==> !exited
    ensures IsWithinCollegeBoundary(dist, current) ==> !exited
    ensures previous.Some? && !IsWithinCollegeBoundary(dist, previous.value) ==> !exited
    ensures previous.Some? && IsWithinCollegeBoundary(dist, previous.value) && !IsWithinCollegeBoundary(dist, current) ==> exited
  {
    if previous.None? then false
    else
      var wasInside := IsWithinCollegeBoundary(dist, previous.value);
      var isInside := IsWithinCollegeBoundary(dist, current);
      wasInside && !isInside
  }

  /**
   * Along any sequence of readings that starts inside the college and ends outside it,
   * some consecutive pair is an exit edge.
   */
  lemma {:induction false} DepartureHasExitEdge(dist: Distance, path: seq<Location>)
    requires |path| >= 2
    requires IsWithinCollegeBoundary(dist, path[0])
    requires !IsWithinCollegeBoundary(dist, path[|path| - 1])
    ensures exists i :: 0 < i < |path| && HasExitedCollegeBoundary(dist, path[i], Some(path[i - 1]))
  {
    if IsWithinCollegeBoundary(dist, path[1]) {
      DepartureHasExitEdge(dist, path[1..]);
      var j :| 0 < j < |path[1..]| && HasExitedCollegeBoundary(dist, path[1..][j], Some(path[1..][j - 1]));
      assert HasExitedCollegeBoundary(dist, path[j + 1], Some(path[j]));
    } else {
      assert HasExitedCollegeBoundary(dist, path[1], Some(path[0]));
    }
  }

  /** The utility-side five-minute gate: ETA in (3, 5], flag clear, on the way to the rider. */
  function ShouldShowFiveMinuteAlert(eta: real, alertState: AlertState, journeyStage: JourneyStage): (show: bool)
    ensures show ==> 3.0 < eta <= 5.0
    ensures alertState.fiveMinuteWarning || journeyStage == ToCollege ==> !show
    ensures 3.0 < eta <= 5.0 && !alertState.fiveMinuteWarning && journeyStage == ToUser ==> show
  {
    eta <= 5.0 && eta > 3.0 && !alertState.fiveMinuteWarning && journeyStage == ToUser
  }
}
