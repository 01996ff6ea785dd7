/**
 * The tracker page without its markup: the journey simulator driven by an interval,
 * the arrival handling that moves the journey from the rider to the college, the ETA
 * and five-minute alert evaluation, the college-exit alert, restart, and the ETA display.
 * Timers are explicit calls (Tick, HandleArrival), random numbers are arguments.
 */
module TrackerPage {
  import opened Maybe
  import opened Utils

  datatype BusStatus = Enroute | Finished

  datatype BusData = BusData(location: Location, status: BusStatus, speed: int)

  datatype Arrival = AtUser | AtCollege

  const MockUserLocation := Location(17.4375, 78.4484)
  const InitialSpeed := 40
  /** The reference speed of the ETA, not the bus's noisy current speed. */
  const NominalSpeed := 40.0
  const ServiceAreaKm := 50.0

  // ---------------------------------------------------------------------------
  // Geolocation

  /**
   * The rider's location: the demo location when geolocation is unavailable or denied
   * (None), or when the reported position is more than 50 km from the college.
   */
  function ResolveUserLocation(dist: Distance, position: Option<Location>): (location: Location)
    ensures location == MockUserLocation || (position == Some(location) && dist(location, CollegeLocation) <= ServiceAreaKm)
    ensures position.Some? && position.value != MockUserLocation ==>
      (location == position.value <==> dist(position.value, CollegeLocation) <= ServiceAreaKm)
  {
    match position
    case None => MockUserLocation
    case Some(p) => if dist(p, CollegeLocation) > ServiceAreaKm then MockUserLocation else p
  }

  // ---------------------------------------------------------------------------
  // Speed of a tick

  /** `Math.floor(Math.random() * (42 - 35 + 1) + 38)` for a random number in [0, 1). */
  function TickSpeed(random: real): (speed: int)
    requires 0.0 <= random < 1.0
    ensures 38 <= speed <= 45
  {
    (random * (42 - 35 + 1) as real + 38.0).Floor
  }

  /** Every speed from 38 to 45 can be drawn. */
  lemma TickSpeedCovers(speed: int)
    requires 38 <= speed <= 45
    ensures TickSpeed((speed - 38) as real / 8.0) == speed
  {
  }

  // ---------------------------------------------------------------------------
  // Remaining distance

  /** Metres along the route from waypoint `i` to its last waypoint. */
  function PathMeters(meters: Distance, route: seq<Location>, i: nat): real
    decreases |route| - i
  {
    if i + 1 >= |route| then 0.0 else meters(route[i], route[i + 1]) + PathMeters(meters, route, i + 1)
  }

  /** From the bus to the next waypoint, then along the route; nothing once past the second-to-last waypoint. */
  function RemainingMeters(meters: Distance, busLocation: Location, route: seq<Location>, index: nat): real {
    if index + 1 < |route| then meters(busLocation, route[index + 1]) + PathMeters(meters, route, index + 1) else 0.0
  }

  method RemainingDistanceKm(meters: Distance, busLocation: Location, route: seq<Location>, index: nat)
    returns (km: real)
    ensures km == RemainingMeters(meters, busLocation, route, index) / 1000.0
  {
    var remaining := 0.0;
    if index + 1 < |route| {
      remaining := remaining + meters(busLocation, route[index + 1]);
      var i := index + 1;
      while i + 1 < |route|
        invariant index + 1 <= i < |route|
        invariant remaining + PathMeters(meters, route, i) == RemainingMeters(meters, busLocation, route, index)
        decreases |route| - i
      {
        remaining := remaining + meters(route[i], route[i + 1]);
        i := i + 1;
      }
    }
    km := remaining / 1000.0;
  }

  ghost predicate NonNegative(meters: Distance) {
    forall a, b :: meters(a, b) >= 0.0
  }

  lemma {:induction false} PathMetersNonNegative(meters: Distance, route: seq<Location>, i: nat)
    requires NonNegative(meters)
    ensures PathMeters(meters, route, i) >= 0.0
    decreases |route| - i
  {
    if i + 1 < |route| {
      PathMetersNonNegative(meters, route, i + 1);
    }
  }

  lemma RemainingNonNegative(meters: Distance, busLocation: Location, route: seq<Location>, index: nat)
    ensures NonNegative(meters) ==> RemainingMeters(meters, busLocation, route, index) >= 0.0
  {
    if NonNegative(meters) && index + 1 < |route| {
      PathMetersNonNegative(meters, route, index + 1);
    }
  }

  /**
   * With the bus on waypoint `index`, the remaining distance is the rest of the route,
   * it is never negative, and it does not grow when the bus moves on to the next waypoint.
   */
  lemma RemainingShrinks(meters: Distance, route: seq<Location>, index: nat)
    requires NonNegative(meters) && index < |route|
    ensures RemainingMeters(meters, route[index], route, index) == PathMeters(meters, route, index)
    ensures 0.0 <= PathMeters(meters, route, index + 1) <= PathMeters(meters, route, index)
  {
    PathMetersNonNegative(meters, route, index + 1);
  }

  // ---------------------------------------------------------------------------
  // Alert gates

  /** The page's five-minute gate: ETA in (1, 5] minutes and neither flag set, in either stage. */
  function FiveMinuteGate(eta: real, alertState: AlertState, fiveMinSent: bool): (fire: bool)
    ensures fire ==> 1.0 < eta <= 5.0 && !alertState.fiveMinuteWarning && !fiveMinSent
    ensures 1.0 < eta <= 5.0 && !alertState.fiveMinuteWarning && !fiveMinSent ==> fire
  {
    // `eta > 1` appears twice on purpose: the page's condition repeats it
    eta <= 5.0 && eta > 1.0 && eta > 1.0 && !alertState.fiveMinuteWarning && !fiveMinSent
  }

  function NoteFiveMinute(alertState: AlertState, fired: bool): AlertState {
    if fired then alertState.(fiveMinuteWarning := true) else alertState
  }

  /** Whenever the utility gate would fire, the page's gate fires too (the flags agree on the page). */
  lemma UtilityGateImpliesPageGate(eta: real, alertState: AlertState, stage: JourneyStage)
    ensures ShouldShowFiveMinuteAlert(eta, alertState, stage) ==> FiveMinuteGate(eta, alertState, alertState.fiveMinuteWarning)
  {
  }

  /** The two gates differ: the page also fires for ETAs in (1, 3] and on the way to the college. */
  lemma PageGateIsWider()
    ensures FiveMinuteGate(2.0, NoAlerts, false) && !ShouldShowFiveMinuteAlert(2.0, NoAlerts, ToUser)
    ensures FiveMinuteGate(4.0, NoAlerts, false) && !ShouldShowFiveMinuteAlert(4.0, NoAlerts, ToCollege)
  {
  }

  /** Five-minute alerts fired by a run of ETA evaluations within one stage. */
  function FiveMinuteAlertsFired(etas: seq<real>, alertState: AlertState): nat {
    if etas == [] then 0
    else
      var fire := FiveMinuteGate(etas[0], alertState, alertState.fiveMinuteWarning);
      (if fire then 1 else 0) + FiveMinuteAlertsFired(etas[1..], NoteFiveMinute(alertState, fire))
  }

  /** The five-minute alert is one-shot: at most once per stage, never once its flag is set. */
  lemma {:induction false} FiveMinuteAlertAtMostOnce(etas: seq<real>, alertState: AlertState)
    ensures FiveMinuteAlertsFired(etas, alertState) <= if alertState.fiveMinuteWarning then 0 else 1
  {
    if etas != [] {
      var fire := FiveMinuteGate(etas[0], alertState, alertState.fiveMinuteWarning);
      FiveMinuteAlertAtMostOnce(etas[1..], NoteFiveMinute(alertState, fire));
    }
  }

  /** The college-exit gate: an inside-to-outside edge while the exit flag is clear. */
  function ExitGate(dist: Distance, current: Location, previous: Option<Location>, alertState: AlertState): (fire: bool)
    ensures fire ==> previous.Some? && IsWithinCollegeBoundary(dist, previous.value)
    ensures fire ==> !IsWithinCollegeBoundary(dist, current) && !alertState.collegeExitWarning
    ensures (previous.Some? && IsWithinCollegeBoundary(dist, previous.value) && !IsWithinCollegeBoundary(dist, current)
             && !alertState.collegeExitWarning) ==> fire
  {
    HasExitedCollegeBoundary(dist, current, previous) && !alertState.collegeExitWarning
  }

  function NoteExit(alertState: AlertState, fired: bool): AlertState {
    if fired then alertState.(collegeExitWarning := true) else alertState
  }

  /** College-exit alerts fired by a run of bus readings; each reading becomes the previous one. */
  function ExitAlertsFired(dist: Distance, readings: seq<Location>, previous: Option<Location>, alertState: AlertState): nat {
    if readings == [] then 0
    else
      var fire := ExitGate(dist, readings[0], previous, alertState);
      (if fire then 1 else 0) + ExitAlertsFired(dist, readings[1..], Some(readings[0]), NoteExit(alertState, fire))
  }

  lemma {:induction false} ExitAlertAtMostOnce(dist: Distance, readings: seq<Location>, previous: Option<Location>, alertState: AlertState)
    ensures ExitAlertsFired(dist, readings, previous, alertState) <= if alertState.collegeExitWarning then 0 else 1
  {
    if readings != [] {
      var fire := ExitGate(dist, readings[0], previous, alertState);
      ExitAlertAtMostOnce(dist, readings[1..], Some(readings[0]), NoteExit(alertState, fire));
    }
  }

  /** A bus that starts inside the college and ends up outside fires the exit alert exactly once. */
  lemma {:induction false} ExitAlertOnDeparture(dist: Distance, readings: seq<Location>, previous: Location, alertState: AlertState)
    requires !alertState.collegeExitWarning
    requires IsWithinCollegeBoundary(dist, previous)
    requires readings != [] && !IsWithinCollegeBoundary(dist, readings[|readings| - 1])
    ensures ExitAlertsFired(dist, readings, Some(previous), alertState) == 1
  {
    if IsWithinCollegeBoundary(dist, readings[0]) {
      assert !ExitGate(dist, readings[0], Some(previous), alertState);
      ExitAlertOnDeparture(dist, readings[1..], readings[0], alertState);
    } else {
      assert ExitGate(dist, readings[0], Some(previous), alertState);
      ExitAlertAtMostOnce(dist, readings[1..], Some(readings[0]), NoteExit(alertState, true));
    }
  }

  // ---------------------------------------------------------------------------
  // The ETA display

  datatype EtaView = ArrivedAtCollege | Calculating | ArrivedAtYou | ArrivingNow
                   | Countdown(hours: int, minutes: int, seconds: int)

  lemma SecondsDecomposition(total: int)
    requires total >= 0
    ensures total == (total / 3600) * 3600 + ((total % 3600) / 60) * 60 + total % 60
    ensures 0 <= (total % 3600) / 60 < 60 && 0 <= total % 60 < 60 && total / 3600 >= 0
  {
    var q, r := total / 3600, total % 3600;
    assert total == q * 3600 + r;
    assert r == (r / 60) * 60 + r % 60;
    var k := 60 * q + r / 60;
    assert total == k * 60 + r % 60;
    assert total % 60 == r % 60 by {
      ModOfMultiplePlus(total, k, r % 60);
    }
  }

  lemma ModOfMultiplePlus(a: int, k: int, b: int)
    requires 0 <= b < 60 && a == k * 60 + b
    ensures a % 60 == b
  {
  }

  /** renderETA, for the state it reads. */
  function RenderEta(bus: Option<BusData>, eta: Option<real>, stage: JourneyStage): (view: EtaView)
    ensures bus.Some? && bus.value.status == Finished <==> view == ArrivedAtCollege
    ensures !(bus.Some? && bus.value.status == Finished) && eta.None? ==> view == Calculating
    ensures !(bus.Some? && bus.value.status == Finished) && eta.Some? && bus.Some? && bus.value.speed == 0 && stage == ToUser ==>
      view == ArrivedAtYou
    ensures !(bus.Some? && bus.value.status == Finished) && eta.Some? && !(bus.Some? && bus.value.speed == 0 && stage == ToUser) ==>
      (view == ArrivingNow <==> eta.value < 1.0 / 60.0) && (view.Countdown? <==> eta.value >= 1.0 / 60.0)
    ensures view.Countdown? ==>
      && eta.Some? && eta.value >= 1.0 / 60.0
      && view.hours * 3600 + view.minutes * 60 + view.seconds == (eta.value * 60.0).Floor
      && view.hours >= 0 && 0 <= view.minutes < 60 && 0 <= view.seconds < 60
  {
    if bus.Some? && bus.value.status == Finished then ArrivedAtCollege
    else if eta.None? then Calculating
    else if bus.Some? && bus.value.speed == 0 && stage == ToUser then ArrivedAtYou
    else if eta.value < 1.0 / 60.0 then ArrivingNow
    else
      var totalSeconds := (eta.value * 60.0).Floor;
      SecondsDecomposition(totalSeconds);
      Countdown(totalSeconds / 3600, (totalSeconds % 3600) / 60, totalSeconds % 60)
  }

  // ---------------------------------------------------------------------------
  // The page state

  /** Every field of the page state, so that a method can say what the whole new state is. */
  datatype TrackerView = TrackerView(
    userLocation: Option<Location>,
    bus: Option<BusData>,
    eta: Option<real>,
    route: seq<Location>,
    journeyStage: JourneyStage,
    arrivalStatus: Option<Arrival>,
    alertState: AlertState,
    previousBusLocation: Option<Location>,
    routeIndex: nat,
    timerActive: bool,
    fiveMinSent: bool,
    simRoute: seq<Location>,
    simStage: JourneyStage)

  class Tracker {
    /** getDistance, in kilometres. */
    const haversineKm: Distance
    /** Leaflet's distanceTo, in metres. */
    const leafletMeters: Distance

    var userLocation: Option<Location>
    var bus: Option<BusData>
    var eta: Option<real>
    var route: seq<Location>
    var journeyStage: JourneyStage
    var arrivalStatus: Option<Arrival>
    var alertState: AlertState
    var previousBusLocation: Option<Location>
    var routeIndex: nat
    /** Whether the interval held by the interval reference is still running. */
    var timerActive: bool
    /** notificationSent.fiveMin */
    var fiveMinSent: bool
    /** The coordinates and the stage the running interval's callback captured. */
    var simRoute: seq<Location>
    var simStage: JourneyStage

    ghost function View(): TrackerView
      reads this
    {
      TrackerView(userLocation, bus, eta, route, journeyStage, arrivalStatus, alertState,
                  previousBusLocation, routeIndex, timerActive, fiveMinSent, simRoute, simStage)
    }

    ghost predicate Valid()
      reads this
    {
      // a running interval walks a non-empty route and has not passed its end
      && (timerActive ==> 0 < |simRoute| && routeIndex < |simRoute|)
      // a running interval that still drives a bus belongs to the current stage
      && (timerActive && bus.Some? ==> simStage == journeyStage)
      && (timerActive && bus.Some? && bus.value.status == Enroute ==> bus.value.location == simRoute[routeIndex])
      // the alert flag and the notification reference are always set and cleared together
      && alertState.fiveMinuteWarning == fiveMinSent
      && (bus.Some? ==> bus.value.speed == 0 || 38 <= bus.value.speed <= 45)
    }

    constructor (haversineKm: Distance, leafletMeters: Distance)
      ensures Valid()
      ensures this.haversineKm == haversineKm && this.leafletMeters == leafletMeters
      ensures View() == TrackerView(None, None, None, [], ToUser, None, NoAlerts, None, 0, false, false, [], ToUser)
    {
      this.haversineKm := haversineKm;
      this.leafletMeters := leafletMeters;
      userLocation, bus, eta, route := None, None, None, [];
      journeyStage, arrivalStatus, alertState, previousBusLocation := ToUser, None, NoAlerts, None;
      routeIndex, timerActive, fiveMinSent := 0, false, false;
      simRoute, simStage := [], ToUser;
    }

    /** The geolocation effect. */
    method LocateUser(position: Option<Location>)
      modifies this
      ensures View() == old(View()).(userLocation := Some(ResolveUserLocation(haversineKm, position)))
    {
      userLocation := Some(ResolveUserLocation(haversineKm, position));
    }

    /**
     * The route-request effect: which route the page asks for, if any. The offsets are
     * the random displacement of the bus's starting point from the rider.
     */
    function RouteRequest(mapReady: bool, latOffset: real, lngOffset: real): (request: Option<(Location, Location)>)
      reads this
      ensures request.Some? ==> mapReady && userLocation.Some? && route == []
      ensures request.Some? && journeyStage == ToUser ==>
        request.value == (Location(userLocation.value.lat + latOffset, userLocation.value.lng + lngOffset), userLocation.value)
      ensures request.Some? && journeyStage == ToCollege ==> bus.Some? && request.value == (bus.value.location, CollegeLocation)
      ensures mapReady && userLocation.Some? && route == [] && (journeyStage == ToUser || bus.Some?) ==> request.Some?
    {
      if userLocation.None? || !mapReady || route != [] then None
      else
        match journeyStage
        case ToUser =>
          Some((Location(userLocation.value.lat + latOffset, userLocation.value.lng + lngOffset), userLocation.value))
        case ToCollege =>
          if bus.Some? then Some((bus.value.location, CollegeLocation)) else None
    }

    /** startSimulation: restart the walk on a non-empty route with one fresh interval. */
    method Start(coordinates: seq<Location>)
      requires Valid()
      modifies this
      ensures Valid()
      ensures coordinates == [] ==> View() == old(View())
      ensures coordinates != [] ==> View() == old(View()).(
        routeIndex := 0,
        bus := Some(BusData(coordinates[0], Enroute, InitialSpeed)),
        timerActive := true,
        simRoute := coordinates,
        simStage := old(journeyStage))
    {
      if |coordinates| > 0 {
        routeIndex := 0;
        bus := Some(BusData(coordinates[0], Enroute, InitialSpeed));
        // any earlier interval is cleared before the new one is set
        timerActive := false;
        simRoute, simStage := coordinates, journeyStage;
        timerActive := true;
      }
    }

    /** fetchAndSetRoute after the route has arrived: store it and start on it when it is not empty. */
    method LoadRoute(coordinates: seq<Location>)
      requires Valid()
      modifies this
      ensures Valid()
      ensures coordinates == [] ==> View() == old(View()).(route := [])
      ensures coordinates != [] ==> View() == old(View()).(
        route := coordinates,
        routeIndex := 0,
        bus := Some(BusData(coordinates[0], Enroute, InitialSpeed)),
        timerActive := true,
        simRoute := coordinates,
        simStage := old(journeyStage))
    {
      route := coordinates;
      if |coordinates| > 0 {
        Start(coordinates);
      }
    }

    /** One run of the interval callback. */
    method Tick(random: real)
      requires Valid() && timerActive && 0.0 <= random < 1.0
      modifies this
      ensures Valid()
      ensures simRoute == old(simRoute) && |simRoute| > 0
      ensures old(bus).None? || old(bus).value.status != Enroute ==>
        View() == old(View()).(timerActive := false)
      ensures old(bus).Some? && old(bus).value.status == Enroute && old(routeIndex) + 1 >= |simRoute| ==>
        View() == old(View()).(
          routeIndex := old(routeIndex) + 1,
          timerActive := false,
          arrivalStatus := Some(if simStage == ToUser then AtUser else AtCollege),
          bus := Some(BusData(simRoute[|simRoute| - 1], if simStage == ToCollege then Finished else Enroute, 0)))
      ensures old(bus).Some? && old(bus).value.status == Enroute && old(routeIndex) + 1 < |simRoute| ==>
        View() == old(View()).(
          routeIndex := old(routeIndex) + 1,
          bus := Some(BusData(simRoute[old(routeIndex) + 1], Enroute, TickSpeed(random))))
      ensures bus.Some? && bus.value.status == Finished && old(bus).value.status == Enroute ==> journeyStage == ToCollege
    {
      if bus.None? || bus.value.status != Enroute {
        timerActive := false;
        return;
      }
      routeIndex := routeIndex + 1;
      if routeIndex >= |simRoute| {
        timerActive := false;
        var finalPos := simRoute[|simRoute| - 1];
        arrivalStatus := Some(if simStage == ToUser then AtUser else AtCollege);
        bus := Some(BusData(finalPos, if simStage == ToCollege then Finished else Enroute, 0));
        return;
      }
      var newPos := simRoute[routeIndex];
      bus := Some(BusData(newPos, Enroute, TickSpeed(random)));
    }

    /**
     * The arrival effect, with its delayed part run at once: at the rider the stage moves
     * on to the college; at the college the bus is finished.
     */
    method HandleArrival()
      requires Valid()
      modifies this
      ensures Valid()
      ensures old(arrivalStatus) == None ==> View() == old(View())
      ensures old(arrivalStatus) == Some(AtUser) ==> View() == old(View()).(
        arrivalStatus := None,
        timerActive := false,
        routeIndex := 0,
        route := [],
        alertState := old(alertState).(fiveMinuteWarning := false),
        fiveMinSent := false,
        journeyStage := ToCollege)
      ensures old(arrivalStatus) == Some(AtCollege) ==> View() == old(View()).(
        arrivalStatus := None,
        bus := if old(bus).Some? then Some(old(bus).value.(status := Finished)) else None)
    {
      if arrivalStatus == Some(AtUser) {
        arrivalStatus := None;
        timerActive := false;
        routeIndex := 0;
        route := [];
        alertState := alertState.(fiveMinuteWarning := false);
        fiveMinSent := false;
        journeyStage := ToCollege;
      } else if arrivalStatus == Some(AtCollege) {
        if bus.Some? {
          bus := Some(bus.value.(status := Finished));
        }
        arrivalStatus := None;
      }
    }

    /** The ETA the effect computes from the current state and traffic level. */
    function CurrentEta(traffic: Option<TrafficLevel>): (minutes: real)
      reads this
      requires bus.Some?
      ensures routeIndex + 1 >= |route| ==> minutes == 0.0
      ensures NonNegative(leafletMeters) ==> minutes >= 0.0
    {
      RemainingNonNegative(leafletMeters, bus.value.location, route, routeIndex);
      CalculateEta(RemainingMeters(leafletMeters, bus.value.location, route, routeIndex) / 1000.0, NominalSpeed, traffic)
    }

    /** The remaining-distance and ETA effect, with its five-minute alert. */
    method EvaluateEta(traffic: Option<TrafficLevel>) returns (fired: bool)
      requires Valid()
      modifies this
      ensures Valid()
      ensures !old(userLocation.Some? && bus.Some? && |route| > 0) ==> !fired && View() == old(View())
      ensures old(userLocation.Some? && bus.Some? && |route| > 0) ==>
        && fired == FiveMinuteGate(old(CurrentEta(traffic)), old(alertState), old(fiveMinSent))
        && View() == old(View()).(
          eta := Some(old(CurrentEta(traffic))),
          alertState := NoteFiveMinute(old(alertState), fired),
          fiveMinSent := old(fiveMinSent) || fired)
    {
      fired := false;
      if userLocation.Some? && bus.Some? && |route| > 0 {
        var remainingDistance := RemainingDistanceKm(leafletMeters, bus.value.location, route, routeIndex);
        var calculatedEta := CalculateEta(remainingDistance, NominalSpeed, traffic);
        eta := Some(calculatedEta);
        if FiveMinuteGate(calculatedEta, alertState, fiveMinSent) {
          alertState := alertState.(fiveMinuteWarning := true);
          fiveMinSent := true;
          fired := true;
        }
      }
    }

    /** The college-exit effect; the previous location is updated on every evaluation with a bus. */
    method EvaluateExit() returns (fired: bool)
      requires Valid()
      modifies this
      ensures Valid()
      ensures old(bus).None? ==> !fired && View() == old(View())
      ensures old(bus).Some? ==>
        && fired == ExitGate(haversineKm, old(bus).value.location, old(previousBusLocation), old(alertState))
        && View() == old(View()).(
          alertState := NoteExit(old(alertState), fired),
          previousBusLocation := Some(old(bus).value.location))
    {
      fired := false;
      if bus.Some? {
        if HasExitedCollegeBoundary(haversineKm, bus.value.location, previousBusLocation) && !alertState.collegeExitWarning {
          alertState := alertState.(collegeExitWarning := true);
          fired := true;
        }
        previousBusLocation := Some(bus.value.location);
      }
    }

    /** handleRestartJourney: the only way back to the first stage; the interval is left to stop itself. */
    method Restart()
      requires Valid()
      modifies this
      ensures Valid()
      ensures View() == old(View()).(
        fiveMinSent := false,
        journeyStage := ToUser,
        route := [],
        bus := None,
        alertState := NoAlerts,
        previousBusLocation := None)
    {
      fiveMinSent := false;
      journeyStage := ToUser;
      route := [];
      bus := None;
      alertState := NoAlerts;
      previousBusLocation := None;
    }

    /** The unmount cleanup clears the interval. */
    method Dispose()
      modifies this
      ensures View() == old(View()).(timerActive := false)
    {
      timerActive := false;
    }
  }

  /** One leg over a three-point route, from loading the route to the arrival tick. */
  method RunLeg(t: Tracker, a: Location, b: Location, c: Location, random: real)
    returns (statuses: seq<BusStatus>)
    requires t.Valid() && 0.0 <= random < 1.0
    modifies t
    ensures t.Valid()
    ensures t.journeyStage == old(t.journeyStage)
    ensures statuses == [Enroute, Enroute, if t.journeyStage == ToCollege then Finished else Enroute]
    ensures t.arrivalStatus == Some(if t.journeyStage == ToUser then AtUser else AtCollege)
  {
    t.LoadRoute([a, b, c]);
    assert t.timerActive && t.routeIndex == 0 && t.simRoute == [a, b, c] && t.simStage == t.journeyStage;
    t.Tick(random);
    assert t.timerActive && t.routeIndex == 1 && t.bus.Some? && t.bus.value.status == Enroute;
    statuses := [t.bus.value.status];
    t.Tick(random);
    assert t.timerActive && t.routeIndex == 2 && t.bus.Some? && t.bus.value.status == Enroute;
    statuses := statuses + [t.bus.value.status];
    t.Tick(random);
    statuses := statuses + [t.bus.value.status];
  }

  /**
   * A journey over two three-point routes: the rider's leg ends with the bus still en
   * route and the stage moved on; only the end of the college leg finishes the bus.
   */
  method ThreePointJourney(haversineKm: Distance, leafletMeters: Distance,
                           a: Location, b: Location, c: Location,
                           d: Location, e: Location, f: Location, random: real)
    returns (statuses: seq<BusStatus>, stage: JourneyStage)
    requires 0.0 <= random < 1.0
    ensures statuses == [Enroute, Enroute, Enroute, Enroute, Enroute, Finished]
    ensures stage == ToCollege
  {
    var t := new Tracker(haversineKm, leafletMeters);
    var first := RunLeg(t, a, b, c, random);
    t.HandleArrival();
    var second := RunLeg(t, d, e, f, random);
    t.HandleArrival();
    statuses := first + second;
    stage := t.journeyStage;
  }
}
