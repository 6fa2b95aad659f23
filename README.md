# Drone survey planner — verified model

This project models the logic of a drone-survey web application in Dafny.

- **Planner.** The coverage-path planner turns a drawn polygon into a survey flight path. It does this by grid spacing, alignment to the longest edge, horizontal scan lines clipped to the polygon, and boustrophedon ("snake") ordering. It offers the SNAKE, CROSSHATCH and PERIMETER patterns, with SPIRAL falling back to SNAKE. It falls back to the perimeter when fewer than two waypoints survive, and it produces duration and photo estimates.
- **Validator.** The path validator checks a path against no-fly zones, range and battery.
- **Stores.** The application stores hold the drones, missions, simulation, UI and organisation statistics.
- **Interpolation.** The interpolation helpers cover lerp, smoothstep, clamp and bearing normalisation.
- **Mission controls.** The sensor toggle and the start guard.
- **Map view.** The drawing-point accumulator, the thinned-out waypoint markers and the survey-polygon layer.

Geometry is delegated to turf (rotation, bounding box, centroid, line intersection, length, area, intersection test) and to `Math.tan`/`Math.cos`. These are not modelled. They are the fields of a `Geometry.Turf` record of functions, which every operation using them receives as a parameter. Everything built on top of them is modelled exactly:

- ring closure (section 3.1.6 of RFC 7946);
- sorting crossings by longitude, and pairing them;
- probe stepping;
- snake ordering, concatenation and fallbacks;
- error accumulation;
- store updates.

Numbers are exact reals. JavaScript's `Math.round`, `Math.ceil` and `||` defaults are written out (`JsMath`, `FlightPath.FovOrDefault`, `FlightPath.SpeedOrDefault`).

Which parts are imperative:

- **Stores and map view.** Each store is a class whose methods update its fields. So is the map view's drawing state.
- **Scan lines and snake ordering.** `generateScanLines` and `applySnakePattern` are loops over arrays. The odd scan lines are reversed in place, as `line.reverse()` does.
- **Principal axis and zone check.** `findPrincipalAxisBearing` and `checkNFZIntersections` are loops.

Each method is proved against a specification function. The properties are proved about that function.

Files:

- `types.dfy`: the records and enumerations of `src/types/index.ts`.
- `js_math.dfy`: the rounding functions.
- `seqs.dfy`: filter, sum and reverse.
- `geometry.dfy`: the turf record, ring closure and the longitude sort.
- `lerp.dfy`, `flight_path.dfy`, `path_validator.dfy`, `store.dfy`, `mission_controls.dfy`, `map_controller.dfy`: one per source file.

## Model

| member | source | states |
|---|---|---|
| JsMath.Ceil | src/lib/FlightPathGenerator.ts:211 | `Math.ceil` is the least integer not below its argument |
| JsMath.Round | src/lib/FlightPathGenerator.ts:277 | `Math.round` is within one half of its argument, with halves rounded up |
| Seqs.Filter | src/store/index.ts:165-169 | `Array.filter`: every kept element is in the input and satisfies the predicate, and every satisfying input element is kept |
| Seqs.FilterMembers | src/store/index.ts:165-169 | a value is kept exactly when it occurs in the input and satisfies the predicate |
| Seqs.FilterAppend | src/store/index.ts:165-169 | filtering distributes over concatenation |
| Seqs.FilterDisjointBound | src/store/index.ts:470-471 | two filters with disjoint predicates together keep at most the whole list |
| Seqs.Reverse | src/lib/FlightPathGenerator.ts:144 | the reversal holds element `|s|-1-i` at position i |
| Seqs.ReverseInvolutive | src/lib/FlightPathGenerator.ts:144 | reversing twice gives the original line |
| Seqs.ReverseInPlace | src/lib/FlightPathGenerator.ts:144 | `Array.reverse` leaves the array holding the reversal of its old contents |
| Geometry.CloseRing | src/lib/FlightPathGenerator.ts:223 | the closed ring keeps the vertices in order and ends with its first position |
| Geometry.InsertByLon | src/lib/FlightPathGenerator.ts:118-120 | one insertion step of the sort adds exactly the one element |
| Geometry.InsertByLonSorted | src/lib/FlightPathGenerator.ts:118-120 | inserting into a longitude-sorted list keeps it sorted |
| Geometry.SortByLonSorts | src/lib/FlightPathGenerator.ts:118-120 | the crossings sorted by `a[0] - b[0]` are ordered by longitude and are a permutation of the input |
| Lerp.Lerp | src/lib/lerp.ts:10-12 | `lerp` gives start at t = 0 and end at t = 1, and lies between them for t in [0, 1] |
| Lerp.LerpCoord | src/lib/lerp.ts:17-26 | `lerpCoord` interpolates longitude and latitude independently with the same t, and hits both endpoints |
| Lerp.Smoothstep | src/lib/lerp.ts:31-33 | `smoothstep` is 0 at 0 and 1 at 1, and stays in [0, 1] on [0, 1] |
| Lerp.SmoothstepBounds | src/lib/lerp.ts:31-33 | t·t·(3 − 2t) stays in [0, 1] on [0, 1] |
| Lerp.Clamp | src/lib/lerp.ts:83-85 | with min ≤ max the result is in [min, max]; a value in range is returned unchanged; one below is raised to min and one above is lowered to max |
| Lerp.NormalizeBearing | src/lib/lerp.ts:54-55 | `(b + 360) % 360` maps a raw angle in [−180, 180] into [0, 360), adding 360 exactly to the negative ones |
| FlightPath.CalculateGridSpacing | src/lib/FlightPathGenerator.ts:50-58 | at 100 % overlap the spacing is 0 |
| FlightPath.GridSpacingAntitone | src/lib/FlightPathGenerator.ts:50-58 | for a non-negative footprint, more overlap never widens the spacing |
| FlightPath.GridSpacingPositive | src/lib/FlightPathGenerator.ts:50-58 | for a positive footprint, the spacing is positive exactly when the overlap is below 100 % |
| FlightPath.PrincipalScanInvariant | src/lib/FlightPathGenerator.ts:68-77 | after n edges the loop holds the largest length so far and the bearing of the first edge reaching it, or 0 and 0 when none was positive |
| FlightPath.PrincipalBearingIsFirstLongestEdge | src/lib/FlightPathGenerator.ts:63-80 | the principal bearing is the bearing of the first edge of strictly maximal length, and 0 when no edge has positive length |
| FlightPath.FindPrincipalAxisBearing | src/lib/FlightPathGenerator.ts:63-80 | the loop returns the principal bearing |
| FlightPath.RotateCoordinates | src/lib/FlightPathGenerator.ts:156-166 | rotating keeps the length and rotates each point about the pivot |
| FlightPath.RotateAppend | src/lib/FlightPathGenerator.ts:156-166 | rotating a concatenation is the concatenation of the rotations |
| FlightPath.ProbeYClosedForm | src/lib/FlightPathGenerator.ts:106 | after k steps of `y += spacingDeg` the probe is at minY + k·spacingDeg |
| FlightPath.ProbeCountExact | src/lib/FlightPathGenerator.ts:106 | with positive spacing, probe k satisfies `y <= maxY` exactly when k is below the probe count, so the loop ends |
| FlightPath.PairUp | src/lib/FlightPathGenerator.ts:122-126 | points are paired 0–1, 2–3, … and an odd trailing point is dropped |
| FlightPath.PairUpOfSorted | src/lib/FlightPathGenerator.ts:117-126 | pairs of longitude-sorted crossings run west to east and follow each other west to east |
| FlightPath.PairUpMembers | src/lib/FlightPathGenerator.ts:122-126 | both ends of every pair are crossings |
| FlightPath.ClipProbe | src/lib/FlightPathGenerator.ts:111-130 | a probe whose intersection throws or finds fewer than 2 crossings yields no line; otherwise it yields half as many lines as crossings, rounded down |
| FlightPath.ClipProbeSegments | src/lib/FlightPathGenerator.ts:111-130 | every line of a probe runs west to east between two of its crossings, in west-to-east order |
| FlightPath.StepDegrees | src/lib/FlightPathGenerator.ts:100-102 | a positive spacing in metres is a positive step in degrees |
| FlightPath.SegmentsInProbeOrder | src/lib/FlightPathGenerator.ts:104-133 | the segments of the first m probes are a prefix of those of the first n, so segments come in increasing-y order |
| FlightPath.SegmentsUpToAreSegments | src/lib/FlightPathGenerator.ts:104-133 | if every probe contributes two-point west-to-east segments, so does the accumulated list |
| FlightPath.ProbeSegmentsAt | src/lib/FlightPathGenerator.ts:106-115 | probe k's contribution is the clipping of the horizontal line at its latitude, widened by 0.001° on both sides |
| FlightPath.ScanLinesAreSegments | src/lib/FlightPathGenerator.ts:93-134 | every scan line is a two-point segment running west to east |
| FlightPath.GenerateScanLines | src/lib/FlightPathGenerator.ts:93-134 | the loop's arrays hold exactly the scan lines, are new and pairwise distinct |
| FlightPath.ScanProbe | src/lib/FlightPathGenerator.ts:107-130 | one iteration appends exactly probe k's segments, as new arrays |
| FlightPath.ClipSegments | src/lib/FlightPathGenerator.ts:117-127 | the new arrays hold exactly the probe's clipped segments |
| FlightPath.PairSegments | src/lib/FlightPathGenerator.ts:122-126 | the `i += 2` loop pushes exactly the pairs, as new distinct arrays |
| FlightPath.SnakeOrderLength | src/lib/FlightPathGenerator.ts:139-151 | the snake ordering has as many points as all lines together |
| FlightPath.SnakeOrderOfSegments | src/lib/FlightPathGenerator.ts:139-151 | for two-point lines, line j gives output points 2j and 2j+1, swapped when j is odd |
| FlightPath.SnakePairsAppend | src/lib/FlightPathGenerator.ts:139-151 | appending the next two-point line to the ordered points adds its two points, swapped exactly when its index is odd, and keeps every earlier pair in place |
| FlightPath.OrientedPair | src/lib/FlightPathGenerator.ts:143-147 | an odd two-point line is flown end first |
| FlightPath.SnakeOrderNext | src/lib/FlightPathGenerator.ts:142-148 | each `forEach` step appends line index as oriented |
| FlightPath.OrientLine | src/lib/FlightPathGenerator.ts:143-144 | line index is reversed in place when odd, and no other line changes |
| FlightPath.ApplySnakePattern | src/lib/FlightPathGenerator.ts:139-151 | the waypoints are the snake ordering of the old lines, and afterwards the odd lines are left reversed in place |
| FlightPath.GeneratePerimeterPath | src/lib/FlightPathGenerator.ts:171-174 | the vertices in order followed by the first vertex: length n + 1 |
| FlightPath.SweepLength | src/lib/FlightPathGenerator.ts:289-299 | a pass flies two waypoints per scan line |
| FlightPath.SnakePathLength | src/lib/FlightPathGenerator.ts:284-300 | the snake path has two waypoints per scan line along the principal axis, so it is empty exactly when there are none |
| FlightPath.CrosshatchIsSnakeThenCross | src/lib/FlightPathGenerator.ts:179-199 | a crosshatch is the snake path followed by the pass turned a quarter turn |
| FlightPath.CrosshatchPathLength | src/lib/FlightPathGenerator.ts:179-199 | the crosshatch length is two waypoints per scan line of either pass |
| FlightPath.GenerateSnakePath | src/lib/FlightPathGenerator.ts:284-300 | returns the snake path |
| FlightPath.GenerateCrosshatchPath | src/lib/FlightPathGenerator.ts:179-199 | returns the crosshatch path |
| FlightPath.GenerateSweep | src/lib/FlightPathGenerator.ts:185-189 | one pass: rotate, cut into scan lines, order as a snake, rotate back |
| FlightPath.PhotosWithinDuration | src/lib/FlightPathGenerator.ts:204-212 | the photo estimate is non-negative and at most two photos per second of the rounded-up duration |
| FlightPath.EstimatePhotoCount | src/lib/FlightPathGenerator.ts:203-212 | no distance gives no photo; a non-negative distance at positive speed and frequency gives a non-negative count, and a positive one at least one photo |
| FlightPath.EstimateDurationMin | src/lib/FlightPathGenerator.ts:266-273 | no distance takes 0 minutes, and any positive distance at positive speed is reported as at least one minute |
| FlightPath.EstimateBatteryConsumption | src/lib/FlightPathGenerator.ts:305-307 | `ceil(2 · distance)`: at least 2 % per km and less than 1 % above it |
| FlightPath.CheckRangeValidity | src/lib/FlightPathGenerator.ts:312-317 | a path of exactly the maximum range is accepted, and a longer one is refused |
| FlightPath.DisplayNamesDistinct | src/lib/FlightPathGenerator.ts:322-330 | different patterns have different display names |
| FlightPath.GetPatternDisplayName | src/lib/FlightPathGenerator.ts:322-330 | every display name is non-empty, so the `|| pattern` fallback never applies |
| FlightPath.SpeedOrDefault | src/lib/FlightPathGenerator.ts:265 | the speed used is never 0, so the duration division is defined |
| FlightPath.GenerateFlightPath | src/lib/FlightPathGenerator.ts:219-279 | the method's result is the flight plan |
| FlightPath.FlightPlan | src/lib/FlightPathGenerator.ts:219-279 | a plan fails exactly on fewer than 3 vertices, or for a scan pattern whose grid spacing is not positive; every plan has at least two waypoints and reports their number |
| FlightPath.PerimeterPlan | src/lib/FlightPathGenerator.ts:237-240 | a PERIMETER plan flies the vertices and closes the loop |
| FlightPath.SpiralAndDefaultAreSnake | src/lib/FlightPathGenerator.ts:228-255 | SPIRAL and a missing pattern plan exactly what SNAKE plans |
| FlightPath.SnakeFallsBackIffNoScanLines | src/lib/FlightPathGenerator.ts:258-261 | a SNAKE plan flies the perimeter exactly when no scan line survives clipping, and otherwise flies the snake path |
| FlightPath.ProbeNeverPassesTop | src/lib/FlightPathGenerator.ts:106 | with spacing ≤ 0 every probe stays at or below its start, so `y <= maxY` holds forever |
| PathValidator.CheckNfzIntersections | src/lib/PathValidator.ts:54-82 | the loop's errors are the zone errors of the active, intersected zones |
| PathValidator.NfzErrors | src/lib/PathValidator.ts:54-82 | every entry is a zone error, and there are never more of them than zones |
| PathValidator.NfzErrorsListCrossedZones | src/lib/PathValidator.ts:60-79 | exactly one error per active intersected zone, in zone-list order, carrying that zone's id, name and severity |
| PathValidator.NfzErrorsOnlyFromActiveZones | src/lib/PathValidator.ts:60-79 | every error comes from an active zone that the path intersects |
| PathValidator.NfzErrorsAppend | src/lib/PathValidator.ts:60-79 | checking two zone lists one after the other gives the errors of each, in order |
| PathValidator.NfzErrorsBound | src/lib/PathValidator.ts:60-61 | there are never more zone errors than active zones |
| PathValidator.CheckRangeLimit | src/lib/PathValidator.ts:87-103 | an error exactly when distance > max range (equality passes), with deficit = distance − max range |
| PathValidator.CheckBattery | src/lib/PathValidator.ts:108-142 | remaining = battery − 2·distance: below 10 an error only, in [10, 25) a warning only, otherwise neither; never both |
| PathValidator.ValidatePath | src/lib/PathValidator.ts:147-183 | the method builds the validation result |
| PathValidator.Validate | src/lib/PathValidator.ts:147-183 | valid exactly when no error was reported; without a drone, invalid with only NO_DRONE and no warnings |
| PathValidator.ValidateErrorOrderAndBounds | src/lib/PathValidator.ts:165-176 | with a drone the errors are ordered zone, range, battery; there is no NO_DRONE; at most (active zones + 2) errors and 1 warning |
| PathValidator.RankedErrors | src/lib/PathValidator.ts:165-176 | zone errors followed by errors of strictly increasing higher rank are in rank order and hold no NO_DRONE |
| PathValidator.ValidIff | src/lib/PathValidator.ts:178-182 | valid exactly when there are no errors, that is when a drone is assigned, no zone is hit, the range holds and at least 10 % battery remains; warnings never matter |
| PathValidator.RangeChecksAgree | src/lib/FlightPathGenerator.ts:312-317 | `checkRangeValidity` holds exactly when `checkRangeLimit` reports nothing |
| PathValidator.BatteryEstimatesDiffer | src/lib/PathValidator.ts:112-114 | the validator's 2·distance is below or equal to the planner's ceil(2·distance), and they differ at 0.25 km |
| PathValidator.NfzFeatures | src/lib/PathValidator.ts:191-199 | one feature per zone, in order, with the zone's id, name, severity and polygon |
| PathValidator.FeaturesIgnoreActivity | src/lib/PathValidator.ts:191-199 | inactive zones are displayed like active ones |
| PathValidator.GetNfzFeatures | src/lib/PathValidator.ts:188-201 | the displayed zones are the airport zone (prohibited) and then the government building (restricted) |
| PathValidator.RangeExample | src/lib/PathValidator.ts:87-103 | a 20 km path for a 15 km drone gives one range error with deficit 5 |
| PathValidator.FullBatteryExample | src/lib/PathValidator.ts:147-183 | a 10 km path at full battery and 15 km range is valid with no warnings |
| PathValidator.LowBatteryExample | src/lib/PathValidator.ts:116-129 | 5 km on 15 % battery leaves 5 %, giving one low-battery error |
| PathValidator.ZoneExample | src/lib/PathValidator.ts:14-47 | a path through the airport zone only gets exactly that zone's error, and none once it is inactive |
| Store.MergeIdempotent | src/store/index.ts:158-161 | merging the same partial update twice is merging it once |
| Store.MergeById | src/store/index.ts:158-161 | elements with the id get the update merged in; the others and the length are unchanged (drones here, missions at lines 326-328) |
| Store.FindDrone | src/store/index.ts:163 | nothing exactly when no drone has the id, otherwise the first drone with it |
| Store.AvailableDrones | src/store/index.ts:165-166 | a drone is listed exactly when it is in the fleet, idle and above 20 % battery |
| Store.ActiveDrones | src/store/index.ts:168-169 | a drone is listed exactly when it is in the fleet and flying |
| Store.DroneListingsKeepOrder | src/store/index.ts:165-169 | both listings keep fleet order: listing two fleets in turn lists each in turn |
| Store.DroneStore.constructor | src/store/index.ts:150-152 | the store starts with the given fleet and no selection |
| Store.DroneStore.SetDrones | src/store/index.ts:154 | replaces the fleet only |
| Store.DroneStore.SelectDrone | src/store/index.ts:156 | sets the selection only |
| Store.DroneStore.UpdateDrone | src/store/index.ts:158-161 | merges the update into the drones with the id, nothing else |
| Store.DecimalString | src/store/index.ts:319 | the decimal digits of a number, with no leading zero |
| Store.MissionId | src/store/index.ts:319 | the id is `mission-` followed by the timestamp's digits |
| Store.MissionStore.constructor | src/store/index.ts:292-297 | starts with the given missions, the default configuration and nothing drawn |
| Store.MissionStore.SetDrawnPolygon | src/store/index.ts:299 | sets the drawn polygon only |
| Store.MissionStore.SetGeneratedPath | src/store/index.ts:301 | sets the generated path only |
| Store.MissionStore.SetMissionConfig | src/store/index.ts:303-306 | overwrites only the supplied configuration fields |
| Store.MissionStore.SetPattern | src/store/index.ts:308-311 | changes only the pattern of the configuration |
| Store.MissionStore.SetSensors | src/store/index.ts:313-316 | changes only the sensors of the configuration |
| Store.MissionStore.CreateMission | src/store/index.ts:318-324 | appends exactly one mission, with the returned id and the timestamp, and leaves the others unchanged |
| Store.MissionStore.UpdateMission | src/store/index.ts:326-333 | merges into the missions with the id, and into the current mission only when its id matches |
| Store.MissionStore.SetCurrentMission | src/store/index.ts:335 | sets the current mission only |
| Store.MissionStore.ClearCurrentMission | src/store/index.ts:337-338 | clears the current mission, drawn polygon and generated path, and keeps missions and configuration |
| Store.SimulationStore.constructor | src/store/index.ts:355-372 | starts in the initial simulation state |
| Store.SimulationStore.StartSimulation | src/store/index.ts:374-381 | the initial state, running, at the first waypoint |
| Store.SimulationStore.PauseSimulation | src/store/index.ts:383-386 | sets `isPaused` and nothing else |
| Store.SimulationStore.ResumeSimulation | src/store/index.ts:388-391 | clears `isPaused` and nothing else |
| Store.SimulationStore.StopSimulation | src/store/index.ts:393-394 | restores the initial state exactly |
| Store.SimulationStore.SetSpeed | src/store/index.ts:396-399 | changes only the speed |
| Store.SimulationStore.UpdateSimulationState | src/store/index.ts:401-404 | overwrites only the supplied fields |
| Store.SimulationStore.ReturnToHome | src/store/index.ts:406-411 | clears `isRunning` and `isPaused` and keeps every other field |
| Store.SimulationStore.SkipWaypoint | src/store/index.ts:413-419 | increments the waypoint index by exactly one, unbounded |
| Store.PauseResumeRoundTrip | src/store/index.ts:383-391 | pausing a run that is not paused and then resuming it restores its state exactly |
| Store.ReturnHomeAfterStart | src/store/index.ts:374-411 | a run started, paused, resumed and sent home is stopped, unpaused, at the first waypoint, with a fresh run's progress |
| Store.UIStore.constructor | src/store/index.ts:439-444 | sidebar open, no alert, map tab, not drawing |
| Store.UIStore.ToggleSidebar | src/store/index.ts:446 | flips the sidebar only |
| Store.UIStore.SetSidebarOpen | src/store/index.ts:448 | sets the sidebar only |
| Store.UIStore.ShowAlert | src/store/index.ts:450 | opens the alert with the message and nothing else |
| Store.UIStore.HideAlert | src/store/index.ts:452 | closes the alert and empties the message, nothing else |
| Store.UIStore.SetActiveTab | src/store/index.ts:454 | sets the tab only |
| Store.UIStore.SetDrawingMode | src/store/index.ts:456 | sets drawing mode only |
| Store.SuccessRateBounds | src/store/index.ts:492-494 | the success rate is a percentage, 100 when every mission completed |
| Store.SuccessRate | src/store/index.ts:492-494 | 0 without missions, a percentage when no more completed than exist, 100 when all completed |
| Store.CalculateOrgStats | src/store/index.ts:466-497 | completed + aborted ≤ total, flying ≤ fleet, success rate in [0, 100] (0 without missions, 100 when all completed), average duration 0 when nothing completed |
| Store.OrgStatsStore.constructor | src/store/index.ts:499-500 | the store starts with the statistics of the current stores |
| Store.OrgStatsStore.UpdateStats | src/store/index.ts:502 | recomputes the statistics from the current stores, which keep their bounds |
| MissionControls.WithoutOne | src/components/MissionControls.tsx:87 | dropping a held sensor from a duplicate-free list removes exactly one entry and keeps it duplicate-free |
| MissionControls.WithoutNothing | src/components/MissionControls.tsx:87 | dropping a sensor the list does not hold changes nothing |
| MissionControls.WithoutAt | src/components/MissionControls.tsx:87 | dropping a sensor held only at index i leaves the entries before and after it, in order |
| MissionControls.ToggleKeepsSensors | src/components/MissionControls.tsx:85-88 | toggling never empties a non-empty duplicate-free sensor list, and keeps it duplicate-free |
| MissionControls.ToggledSensors | src/components/MissionControls.tsx:83-92 | `setSensors` is skipped exactly when the sensor is the only one selected; otherwise the sensor's membership flips |
| MissionControls.ToggleEffect | src/components/MissionControls.tsx:83-92 | an unselected sensor is appended at the end; a selected one is removed when others remain, every other sensor is kept, and in a duplicate-free list they keep their order; a lone one stays |
| MissionControls.ToggleTwiceRestores | src/components/MissionControls.tsx:83-92 | adding a sensor and toggling it again restores the list |
| MissionControls.AbsentSensorsDefault | src/components/MissionControls.tsx:84 | an absent list toggles as `['RGB']` |
| MissionControls.DuplicatesCanEmpty | src/components/MissionControls.tsx:85-88 | a list holding one sensor twice is emptied by one toggle |
| MissionControls.ToggleSensor | src/components/MissionControls.tsx:83-92 | the store's sensors become the toggled list; nothing else changes |
| MissionControls.HandleStartMission | src/components/MissionControls.tsx:66-76 | the mission starts exactly when a non-empty drone id is selected and a path of at least two points exists; the drone check comes first |
| MapController.MapController.constructor | src/components/MapController.tsx:31-33 | no points and no map yet |
| MapController.MapController.MapLoaded | src/components/MapController.tsx:195-198 | the map exists; the points are kept |
| MapController.MapController.HandleMapClick | src/components/MapController.tsx:209-239 | in drawing mode with a map the click is appended; otherwise nothing changes |
| MapController.MapController.CompleteDrawing | src/components/MapController.tsx:244-256 | fewer than 3 points: nothing happens; otherwise the points are handed over, emptied and drawing mode ends |
| MapController.MapController.CancelDrawing | src/components/MapController.tsx:261-270 | empties the points and ends drawing mode |
| MapController.SampleStep | src/components/MapController.tsx:315 | `max(1, floor(n/30))` is at least 1, and 1 below 60 points |
| MapController.KeptIndicesExact | src/components/MapController.tsx:317 | the kept indices are exactly those passing the filter, strictly increasing |
| MapController.DisplayedWaypointsExact | src/components/MapController.tsx:312-322 | the markers are the path points at exactly the kept indices, in order; the first and last point always show; a path under 60 points shows whole |
| MapController.DisplayedWaypoints | src/components/MapController.tsx:312-322 | there are never more markers than waypoints |
| MapController.AllKept | src/components/MapController.tsx:315-317 | with step 1 every index is kept |
| MapController.SurveyLayer | src/components/MapController.tsx:338-346 | the survey layer shows a polygon exactly with at least 3 points, as one ring closed by the first point |

## Left out

- turf and the trigonometric formulas are parameters, not models. This covers `transformRotate`, `lineIntersect` with `polygonToLine`, `bbox`, `centroid`, `area`, `length`, `booleanIntersects`, `bearing` and `distance`, plus `Math.tan` in `calculateGroundCoverage` and `Math.cos` in the metres-per-degree conversion. They are foreign code, so no geometric fact about them is claimed. The one exception: metres per degree is assumed positive, which holds away from the poles.
- The haversine and `atan2` parts of `calculateBearing` and `calculateDistance` in `src/lib/lerp.ts` are not modelled: they are floating-point trigonometry. Only the normalisation `(b + 360) % 360` is modelled.
- Floating point: every number is an exact real. This includes the probe stepping, which is the accumulation `y += spacingDeg` in the model too, and the rounding done by `Math.round` and `Math.ceil`. NaN and infinities are not modelled, so the `|| 0` on area and photos in `calculateOrgStats` is the identity here.
- `src/hooks/useSimulation.ts` is not part of this model. It is an animation driven by `requestAnimationFrame` and timers. Its skip guard differs from the store's unguarded `skipWaypoint`; only the store is modelled.
- `src/hooks/useFlightPlanner.ts` is not part of this model. It is glue between the planner, the store and alerts.
- Rendering is not modelled: the map library's sources and layers, the drawing preview, the cursor and the pages.
- Timestamps and ids are parameters: `Date.now()` (as `now`) and `new Date().toISOString()` (as a string).
- Mission-id uniqueness is not claimed: two missions created in the same millisecond share an id.
- The mock drones and missions are not modelled, except the two mock no-fly zones, which serve as concrete instances.
- Store.SimulationStore.StartSimulation: requires a non-empty waypoint list. With none, the source stores `undefined` as the position, which the position type cannot hold; its only caller starts a mission only with a path of at least two points.
- FlightPath.GenerateFlightPath: fewer than three vertices give `InvalidPolygon` where the source throws from `turf.polygon`. A non-positive spacing gives `DegenerateSpacing` where the source never returns (see Findings).
- Error and warning message texts (`toFixed` formatting) are not modelled; the errors carry their codes and details.
- MissionControls.HandleStartMission returns which branch it takes. The `alert` calls and `startMission` from the simulation hook are not modelled.
- The `availableDrones` filter of `src/components/MissionControls.tsx:58` is the same expression as the store's `getAvailableDrones` and is modelled once, as `Store.AvailableDrones`.
- `getNFZFeatures`' GeoJSON `FeatureCollection` wrapper is left out; the features are a sequence.
- `generateSnakePath`'s early `return []` is not a separate branch: with no scan line the rotated snake ordering is already empty (`FlightPath.SnakePathLength`).

## Findings

| source | as written | input that shows it | evidently intended | confidence | as-written member | corrected member |
|---|---|---|---|---|---|---|
| src/lib/FlightPathGenerator.ts:106 | `for (let y = minY; y <= maxY; y += spacingDeg)` with `spacingDeg` derived from `calculateGridSpacing`, which is 0 at 100 % overlap and negative above | `overlap_percent = 100` with the SNAKE pattern: `y` never increases, so `generateScanLines` never returns | refuse to plan a scan pattern whose spacing is not positive | not executed; the UI sliders keep overlap within 30–90 %, but `generateFlightPath` itself accepts any value | FlightPath.ProbeNeverPassesTop | FlightPath.FlightPlan |
