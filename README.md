# BusLive core, modelled in Dafny

BusLive is a browser demo that tracks a simulated bus. An interval timer moves the bus
along a precomputed route, first toward the rider and then toward the college. On every
position update the page recomputes the remaining distance and an ETA scaled by a
traffic multiplier. It raises one-shot alerts: a five-minute warning, and a warning
when the bus leaves the 500 m circle around the college. Routes come from a directions
service through a small proxy. The proxy keeps a five-minute cache keyed by coordinates
rounded to four decimals, and it falls back to an 11-point straight line when the
service fails.

This project models that logic and proves properties of it:

- `utils.dfy` (module `Utils`): the ETA formula and its traffic multiplier, the
  college-boundary predicates and the utility-side five-minute gate. Written as pure
  functions.
- `routing_flow.dfy` (module `RoutingFlow`): cache keys, the TTL lookup, the
  straight-line fallback (a method with a loop), the `[lng, lat]` to `{lat, lng}`
  conversion, and the rule for which outcomes are cached. The cache is the map field of
  a `RouteProvider` object.
- `tracker_page.dfy` (module `TrackerPage`): the journey simulator and alert state
  machine, as a `Tracker` class with the page's state and refs as fields. Its
  operations are one method each: start, interval tick, arrival effect, ETA effect,
  exit effect, restart. The remaining-distance loop and the `renderETA` arithmetic sit
  beside the class.
- `simulate_bus.dfy` (module `SimulateBus`): the back-and-forth waypoint walker of the
  stand-alone simulator script, as a class that publishes one update per tick.
- `bus_selection.dfy` (module `BusSelection`): the fleet table, the rule that a bus
  under maintenance cannot be selected, and the active-bus and rider counts.
- `maybe.dfy` (module `Maybe`): the `Option` type used for nullable values.

Modelling choices:

- Numbers are mathematical reals, and integer speeds and times are `int`.
- The haversine `getDistance` and Leaflet's `distanceTo` are trigonometry on doubles.
  The model passes them in as functions of type `Distance`. The `Tracker` class keeps
  them in two constants.
- `Date.now()` is an explicit argument. `GetRoute` takes one time for the lookup and
  one for the write, because the source reads the clock twice, before and after the
  fetch.
- `Math.random()` is an argument in `[0, 1)`. The speed formulas apply `Floor` to the
  source's expressions, computed exactly on reals. Lemmas show that every speed in the
  range can occur.
- The directions service is represented only by its outcome (`Upstream`): no API key,
  a thrown error, an HTTP error, or an answer with its list of features. The database
  PUT of the simulator is represented the same way (`PutOutcome`).
- Timers become explicit calls. `Tracker.Tick` is one run of the interval callback.
  `Tracker.HandleArrival` is the arrival effect, with its 3-second delayed part run at
  once.

Where the code does something other than its own text suggests, the model follows the code:

- A non-final tick draws `Math.floor(Math.random() * (42 - 35 + 1) + 38)`
  (src/components/TrackerPage.tsx:173). The constants read like a 35 to 42 range, but the
  offset 38 gives 38 to 45 km/h. The model uses 38 to 45.
- The page's five-minute alert fires for `1 < eta <= 5` in both stages. The utility
  `shouldShowFiveMinuteAlert` fires only for `3 < eta <= 5`, and only toward the rider.
  The model keeps both gates. `TrackerPage.PageGateIsWider` and
  `TrackerPage.UtilityGateImpliesPageGate` state how they relate.
- `handleRestartJourney` does not clear the interval. It sets the bus to null, and the
  next tick then stops the interval (see `Tracker.Tick`, first case). No control on the
  page calls `handleRestartJourney`, so in this code the stage never goes back to
  `toUser`. `Tracker.Restart` models the handler as written.
- The arrival at the rider clears the five-minute flags only: `alertState.fiveMinuteWarning`
  and `notificationSent.fiveMin`. So the five-minute flags are reset at that point as
  well as on restart. The exit flag stays as it was.
- The page measures the remaining distance with Leaflet's `distanceTo` in metres, not
  with `getDistance`. That is why the class holds two distance functions.
- `toFixed(4)` prints a `-` for every negative number, even one whose digits round to
  zero. The key therefore keeps the sign (`Fixed4.negative`). `-0.00001` and
  `0.00001` give different keys, although both print as zero digits.
- The key string `a,b-c,d` is modelled as the tuple of its four printed parts
  (`CacheKey`). This is faithful because the string decodes uniquely into those parts. A
  printed coordinate is an optional `-`, digits, a point and four digits, so it contains
  no comma, and its sign can only follow the start, a comma or the separator. So the
  first comma ends the first part. After it, the first `-` that follows a digit is the
  separator. The last comma ends the third part.
- A stale cache entry is not removed. It is only bypassed, and it stays in the map when
  the new fetch is not cacheable.

## Model

| member | source | states |
|---|---|---|
| Utils.TrafficMultiplier | src/lib/utils.ts:39-42 | The multiplier is 1 for an undefined or low level, 1.5 for medium or moderate, 2 for high or heavy, and 3 for severe. |
| Utils.MultiplierMonotone | src/lib/utils.ts:39-42 | A more severe level never gives a smaller multiplier, and every multiplier lies in [1, 3]. |
| Utils.CalculateEta | src/lib/utils.ts:32-48 | The ETA is 0 whenever speed <= 0. Otherwise ETA times speed equals distance * 60 * multiplier, and the ETA is non-negative for a non-negative distance. |
| Utils.EtaMonotoneInDistance | src/lib/utils.ts:44-47 | For a fixed positive speed and level, the ETA is monotone in distance. |
| Utils.EtaAdditive | src/lib/utils.ts:44-47 | The ETA of a distance d1 + d2 is the ETA of d1 plus the ETA of d2. |
| Utils.SevereTrafficExample | src/lib/utils.ts:37-47 | calculateETA(10, 40, severe) = 45, and a zero distance gives 0. |
| Utils.IsWithinCollegeBoundary | src/lib/utils.ts:56-69 | A location is inside exactly when its distance to the college is at most 0.5 km, the boundary included. |
| Utils.HasExitedCollegeBoundary | src/lib/utils.ts:71-82 | It is false with no previous location, false when the current location is inside, and false when the previous one was outside. It is true when the previous location was inside and the current one is outside. |
| Utils.DepartureHasExitEdge | src/lib/utils.ts:71-82 | Any sequence of readings that starts inside and ends outside has a consecutive pair on which hasExitedCollegeBoundary holds. |
| Utils.ShouldShowFiveMinuteAlert | src/lib/utils.ts:92-103 | It holds exactly when 3 < eta <= 5, the flag is clear and the stage is toUser. Once the flag is set, or in the toCollege stage, it is false. |
| RoutingFlow.ToFixed4 | src/ai/flows/routing-flow.ts:18-20 | The sign is negative iff x < 0. The units are the nearest integer to abs(x) * 10^4, with halves rounded up. |
| RoutingFlow.ToFixed4Close | src/ai/flows/routing-flow.ts:18-20 | A printed coordinate is within 0.00005 of the original value. |
| RoutingFlow.ToFixed4Exact | src/ai/flows/routing-flow.ts:18-20 | A value that already has four decimals prints exactly: printing its value gives it back. |
| RoutingFlow.GetCacheKey | src/ai/flows/routing-flow.ts:14-21 | Each of the key's four parts, read back as a number, is within 0.00005 of its coordinate. |
| RoutingFlow.SameKeyIffSameRounding | src/ai/flows/routing-flow.ts:14-21 | Two requests share a cache key iff all four coordinates print alike. |
| RoutingFlow.Lookup | src/ai/flows/routing-flow.ts:35-40 | A hit happens iff the key is present and now < timestamp + 300000 (strict). A hit returns the stored data. |
| RoutingFlow.LookupAfterStore | src/ai/flows/routing-flow.ts:37-40 | After a write at time t, a lookup of that key returns exactly the written result while now < t + TTL, and misses from t + TTL on. |
| RoutingFlow.StoreKeepsOtherKeys | src/ai/flows/routing-flow.ts:109 | A write changes no lookup of any other key. |
| RoutingFlow.FallbackRoute | src/ai/flows/routing-flow.ts:46-58 | The loop builds exactly steps + 1 = 11 points, and point i is start + (end - start) * i / 10 in each coordinate. |
| RoutingFlow.FallbackShape | src/ai/flows/routing-flow.ts:48-56 | The fallback has 11 points, point 0 is start, point 10 is end, and consecutive points are a tenth of the way apart. |
| RoutingFlow.ToLatLng | src/ai/flows/routing-flow.ts:104-106 | Each [lng, lat] becomes {lat: coord[1], lng: coord[0]}, with length and order preserved. |
| RoutingFlow.ToLngLat | src/ai/flows/routing-flow.ts:71-76 | The request body writes each point longitude first, with length and order preserved. |
| RoutingFlow.Cacheable | src/ai/flows/routing-flow.ts:60-119 | A missing key, a thrown request or a non-ok status is never cached. An answer is cached iff its feature list is non-empty. |
| RoutingFlow.LatLngRoundTrip | src/ai/flows/routing-flow.ts:71-106 | Converting the longitude-first request order back gives the caller's points unchanged. |
| RoutingFlow.FetchRoute | src/ai/flows/routing-flow.ts:60-119 | Only an answer with features is cacheable, and it is returned as the first feature's swapped coordinates. An empty feature list returns no coordinates, not the fallback. A missing key, a non-ok status or a thrown error returns the fallback. |
| RoutingFlow.RouteProvider.constructor | src/ai/flows/routing-flow.ts:11 | The cache starts empty. |
| RoutingFlow.RouteProvider.GetRoute | src/ai/flows/routing-flow.ts:33-120 | A fresh hit is returned as-is, with no fetch and no cache change. On a miss the result follows FetchRoute, and the cache gains the entry (result, doneAt) only when the outcome is cacheable. |
| RoutingFlow.RepeatedRequestHitsCache | src/ai/flows/routing-flow.ts:34-40 | Two requests with the same key, the second inside the TTL of the first answer, get the same route, whatever the service would answer the second time. |
| TrackerPage.ResolveUserLocation | src/components/TrackerPage.tsx:211-263 | The rider's location is the reported position when it is within 50 km of the college. Otherwise, or when geolocation fails, it is the demo location. |
| TrackerPage.TickSpeed | src/components/TrackerPage.tsx:173 | A tick's speed lies in 38..45. |
| TrackerPage.TickSpeedCovers | src/components/TrackerPage.tsx:173 | Every speed in 38..45 is produced by some random number. |
| TrackerPage.RemainingDistanceKm | src/components/TrackerPage.tsx:384-399 | The loop computes the distance from the bus to the next waypoint plus the rest of the route, in km. It is 0 when index >= len - 1. |
| TrackerPage.PathMetersNonNegative | src/components/TrackerPage.tsx:393-397 | With non-negative segment lengths, the distance along the route is non-negative. |
| TrackerPage.RemainingShrinks | src/components/TrackerPage.tsx:384-397 | With the bus on waypoint i, the remaining distance is the route length from i. It does not grow when the bus moves on. |
| TrackerPage.FiveMinuteGate | src/components/TrackerPage.tsx:408-415 | The page's alert fires iff 1 < eta <= 5 and both the alert flag and notificationSent.fiveMin are clear, in either stage. |
| TrackerPage.UtilityGateImpliesPageGate | src/components/TrackerPage.tsx:408-415 | Whenever shouldShowFiveMinuteAlert holds, the page's gate fires too. |
| TrackerPage.PageGateIsWider | src/components/TrackerPage.tsx:408-415 | The page fires at eta = 2 and toward the college when the utility gate does not: the two thresholds diverge. |
| TrackerPage.FiveMinuteAlertAtMostOnce | src/components/TrackerPage.tsx:408-417 | Any run of ETA evaluations fires the five-minute alert at most once, and never once the flag is set. |
| TrackerPage.ExitGate | src/components/TrackerPage.tsx:461-470 | The exit alert fires exactly on an inside-to-outside edge while collegeExitWarning is clear. |
| TrackerPage.ExitAlertAtMostOnce | src/components/TrackerPage.tsx:461-478 | Any run of readings fires the exit alert at most once, and never once its flag is set. |
| TrackerPage.ExitAlertOnDeparture | src/components/TrackerPage.tsx:461-478 | A bus that was inside and whose last reading is outside fires the exit alert exactly once. |
| TrackerPage.SecondsDecomposition | src/components/TrackerPage.tsx:561-564 | totalSeconds = hours * 3600 + minutes * 60 + seconds, with minutes < 60 and seconds < 60. |
| TrackerPage.RenderEta | src/components/TrackerPage.tsx:550-572 | The branches are checked in order. A finished bus shows "arrived at college", and only a finished bus does. Otherwise a missing ETA shows "calculating". Otherwise speed 0 toward the rider shows "arrived at you". Otherwise eta < 1/60 shows "arriving now", and every other case shows a countdown. The countdown's parts decompose floor(eta * 60), with minutes and seconds below 60. |
| TrackerPage.Tracker.constructor | src/components/TrackerPage.tsx:63-100 | The page starts with no bus, an empty route, stage toUser, all flags clear and no timer. |
| TrackerPage.Tracker.LocateUser | src/components/TrackerPage.tsx:211-263 | It stores the resolved user location and changes nothing else. |
| TrackerPage.Tracker.RouteRequest | src/components/TrackerPage.tsx:269-298 | A route is requested only with a user location, a ready map and an empty route. Toward the rider it runs from the offset start to the user; toward the college it runs from the bus to the college. |
| TrackerPage.Tracker.Start | src/components/TrackerPage.tsx:121-142 | An empty route changes nothing. Otherwise the index is 0, the bus is at coords[0], enroute at speed 40, exactly one interval is active, and it captures the route and the stage. |
| TrackerPage.Tracker.LoadRoute | src/components/TrackerPage.tsx:187-197 | It stores the route, and starts the simulation on it when it is not empty. |
| TrackerPage.Tracker.Tick | src/components/TrackerPage.tsx:142-181 | With no bus or a bus that is not enroute, only the timer stops. At index >= len the bus goes to the last point at speed 0, the timer stops, arrival is set by stage, and the status is finished only toward the college. Otherwise the bus moves to coords[index] at a speed in 38..45. |
| TrackerPage.Tracker.HandleArrival | src/components/TrackerPage.tsx:336-367 | Arrival at the user clears the route, the five-minute flags, the index and the timer, and moves the stage from toUser to toCollege. Arrival at the college marks the bus finished. |
| TrackerPage.Tracker.CurrentEta | src/components/TrackerPage.tsx:384-405 | The ETA of the current state is 0 once the bus is past the second-to-last waypoint. It is never negative when segment lengths are non-negative. |
| TrackerPage.Tracker.EvaluateEta | src/components/TrackerPage.tsx:376-418 | With a user, a bus and a route, the ETA is calculateETA(remaining km, 40, level). The five-minute gate sets both flags when it fires. Without them nothing changes. A traffic level outside the listed values (such as "light") is passed as None, with multiplier 1. |
| TrackerPage.Tracker.EvaluateExit | src/components/TrackerPage.tsx:461-479 | The exit alert fires per ExitGate and sets its flag. The previous location becomes the bus location on every evaluation with a bus. |
| TrackerPage.Tracker.Restart | src/components/TrackerPage.tsx:527-548 | It returns the stage to toUser and clears all four flags, notificationSent, the route, the bus and the previous location. Nothing else changes. |
| TrackerPage.Tracker.Dispose | src/components/TrackerPage.tsx:113-119 | The unmount cleanup stops the interval. |
| TrackerPage.ThreePointJourney | src/components/TrackerPage.tsx:121-185 | Over two 3-point legs the statuses are enroute five times and then finished. The rider's leg ends enroute with the stage moved to toCollege. |
| SimulateBus.Advance | src/lib/simulateBus.ts:66-78 | With len >= 2 an index in range stays in range and moves by exactly 1. After an upward move the direction is forward. After a downward move, including the reflection at the far end, it is backward. |
| SimulateBus.Walk | src/lib/simulateBus.ts:66-78 | After any number of steps the index lies in [0, len - 1]. |
| SimulateBus.Rising | src/lib/simulateBus.ts:66-71 | Going forward the index visits 0, 1, ..., len - 1. |
| SimulateBus.Falling | src/lib/simulateBus.ts:66-77 | Past the end the index is set to len - 2 and goes back down to 0 with forward = false. |
| SimulateBus.WalkPeriodic | src/lib/simulateBus.ts:66-78 | The index sequence is periodic with period 2 * (len - 1), and from step 1 on so is the whole state. |
| SimulateBus.WalkStepsByOne | src/lib/simulateBus.ts:66-78 | Each step of the walk changes the index by exactly 1. So consecutive published indices differ by 1 when the callbacks do not overlap. |
| SimulateBus.PublishedSpeed | src/lib/simulateBus.ts:41 | A published speed lies in 30..59. |
| SimulateBus.PublishedSpeedCovers | src/lib/simulateBus.ts:41 | Every speed in 30..59 can be published. |
| SimulateBus.BusSimulator.constructor | src/lib/simulateBus.ts:34-35 | The walk starts at index 0, moving forward. |
| SimulateBus.BusSimulator.Tick | src/lib/simulateBus.ts:37-79 | It publishes ROUTE[index] with a speed in 30..59 and status enroute, then advances one step whatever the PUT did. The state stays the walk after that many ticks. |
| BusSelection.Find | src/app/bus-selection/page.tsx:40 | It returns the first bus with the id, or none when no bus has it. |
| BusSelection.Selectable | src/app/bus-selection/page.tsx:40-41 | An id can be selected iff the first bus with that id exists and is not under maintenance. |
| BusSelection.BusSelectionPage.constructor | src/app/bus-selection/page.tsx:37 | The page starts with no bus selected. |
| BusSelection.BusSelectionPage.HandleBusSelect | src/app/bus-selection/page.tsx:39-45 | The id is selected only if a bus with it exists and is not under maintenance. Otherwise selectedBus is unchanged. |
| BusSelection.ActiveBuses | src/app/bus-selection/page.tsx:47 | The filter keeps exactly the active buses. |
| BusSelection.ActiveCountIsFilterLength | src/app/bus-selection/page.tsx:47 | The active count is the length of the filtered list. |
| BusSelection.ActiveCountAppend | src/app/bus-selection/page.tsx:47 | The active count of two joined fleets is the sum of their counts. |
| BusSelection.ActiveCountOne | src/app/bus-selection/page.tsx:47 | A single bus counts 1 if active and 0 if delayed or under maintenance. |
| BusSelection.PassengersFrom | src/app/bus-selection/page.tsx:48 | The left-fold reduce from a running sum adds the plain sum of the remaining buses' passengers to it. |
| BusSelection.TotalPassengers | src/app/bus-selection/page.tsx:48 | The rider total, a reduce from 0, is the sum of every bus's passengers. |
| BusSelection.TotalPassengersAppend | src/app/bus-selection/page.tsx:48 | The rider total of two joined fleets is the sum of their totals, so every bus counts, maintenance included. |
| BusSelection.FleetActiveCount | src/app/bus-selection/page.tsx:23-47 | The shipped fleet has 6 active buses. |
| BusSelection.FleetTotalPassengers | src/app/bus-selection/page.tsx:23-48 | The shipped fleet carries 215 riders. |
| BusSelection.MaintenanceBusNotSelectable | src/app/bus-selection/page.tsx:29-41 | Bus 6, which is under maintenance, cannot be selected. |
| BusSelection.DelayedBusSelectable | src/app/bus-selection/page.tsx:26-41 | Bus 3, which is delayed, can be selected. |
| BusSelection.UnknownBusNotSelectable | src/app/bus-selection/page.tsx:40-41 | An unknown id, such as 10, cannot be selected. |

## Left out

- Haversine `getDistance` (src/lib/utils.ts:12-30) and Leaflet `distanceTo`: trigonometry on doubles. Both are function arguments of type `Distance`.
- Floating point: all arithmetic is exact on reals. `toFixed(4)` works on the exact double value, so a decimal half can fall either way in the source, and the key's text formatting is not modelled.
- `TrackerPage.TickSpeed`: in doubles, `Math.random() * 8 + 38` can round up to 46. For example, 1 - 2^-52 gives 46 - 2^-49, which rounds to 46.0. So the source can, very rarely, draw 46. The model, on reals, always stays within 38..45, and so does `Tracker.Valid()`.
- The route-request offsets: `Tracker.RouteRequest` takes them as arguments. The source draws each with magnitude in [0.015, 0.02) and a random sign.
- Network and process I/O: the directions fetch, the database PUT, `process.env`, `process.exit` and all console logging. Their outcomes are inputs.
- The traffic-analysis flow, the model configuration and the schemas (`src/ai/flows/traffic-flow.ts`, `src/ai/genkit.ts`, `src/ai/schemas/traffic-schema.ts`): calls into language-model services. The traffic level they yield is `EvaluateEta`'s argument.
- `src/components/AlertSystem.tsx` and all markup: JSX, toasts, speech synthesis, share and clipboard, router navigation, `cn`.
- Timing: the 2 s and 3 s intervals and the 3 s delay of the arrival effect are not modelled. `HandleArrival` runs its delayed part at once. React's effect scheduling becomes explicit calls, and the class invariant holds whatever order they come in.
- The remaining-route effect (src/components/TrackerPage.tsx:369-374): it only feeds the map drawing.
- The error path of `fetchAndSetRoute` (setError and a toast). `getRoute` never throws for the modelled outcomes.
- `notificationSent.user` and `notificationSent.college`: they are only reset, never read. `oneMinuteWarning` and `arrivalWarning` are never set in this code, only cleared.
- The `window.L` check of the ETA effect: Leaflet is assumed loaded.
- `SimulateBus.BusSimulator.Tick`: the `lastUpdated` stamp is an argument. A route with fewer than two waypoints is not covered, because ROUTE fixes 14.
- `SimulateBus.BusSimulator.Tick`: the model assumes callbacks do not overlap, that is, each PUT settles within the 3 s interval. The source's callback is `async` (src/lib/simulateBus.ts:37) and advances `index` only after `await fetch` settles (lines 48-52, then 66-78). The interval keeps firing regardless.
  - If a PUT takes longer than 3 s, the next callback publishes the same `ROUTE[index]` again, and both callbacks then advance. The published indices can run i, i, i + 2.
  - A PUT that never settles means its callback never advances.
  - `Tick` publishes and steps in one atomic call. So `WalkStepsByOne` and `WalkPeriodic` describe only runs in which the callbacks do not overlap.
- `RoutingFlow.RouteProvider.GetRoute`: a request is modelled as atomic. In the source, the flow awaits `fetch` and `response.json()` between the cache read (src/ai/flows/routing-flow.ts:35-37) and the write (line 109), and the cache is one module-level `Map` shared by every request to the server.
  - There is no single-flight: two overlapping requests for one key both miss, both fetch, and the last writer wins.
  - Another request's write can land in between. The ensures `cache == old(cache)[key := ...]` holds only when no other request writes meanwhile.
