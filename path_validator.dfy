/** The constraint validator (src/lib/PathValidator.ts): no-fly-zone crossings,
    the range limit and the battery margin, accumulated into one result. */
module PathValidator {
  import opened Types
  import opened Seqs
  import opened Geometry
  import FlightPath

  /** Percent of battery the validator assumes one kilometre costs. */
  const BatteryPercentPerKm: real := 2.0
  /** Below this remaining charge the mission is refused. */
  const BatteryErrorThreshold: real := 10.0
  /** Below this remaining charge the mission only draws a warning. */
  const BatteryWarningThreshold: real := 25.0

  /** The items of an optional value: nothing or exactly one. */
  function Present<T>(o: Option<T>): (r: seq<T>)
    ensures |r| <= 1
    ensures o.Some? <==> |r| == 1
    ensures o.Some? ==> r[0] == o.value
  {
    if o.Some? then [o.value] else []
  }

  // ============ No-fly zones ============

  /** The zones `checkNFZIntersections` reports: active and crossed by the path. */
  function ZoneHit(path: seq<Position>, turf: Turf): NoFlyZone -> bool
  {
    (zone: NoFlyZone) => zone.active && turf.intersects(path, zone.polygon)
  }

  function IsActive(zone: NoFlyZone): bool
  {
    zone.active
  }

  /** The NFZ_INTERSECTION error reported for a zone. */
  function ZoneError(zone: NoFlyZone): ValidationError
  {
    NfzIntersection(zone.id, zone.name, zone.severity)
  }

  /** `checkNFZIntersections` as a value: zone by zone, in list order. Every entry
      is a zone error, and no zone contributes more than one. */
  function NfzErrors(path: seq<Position>, zones: seq<NoFlyZone>, turf: Turf): (r: seq<ValidationError>)
    ensures |r| <= |zones|
    ensures forall i :: 0 <= i < |r| ==> r[i].NfzIntersection?
  {
    if zones == [] then []
    else
      var zone := zones[|zones| - 1];
      NfzErrors(path, zones[..|zones| - 1], turf) +
        (if zone.active && turf.intersects(path, zone.polygon) then [ZoneError(zone)] else [])
  }

  /** `checkNFZIntersections`: one error pushed for every active zone the path crosses. */
  method CheckNfzIntersections(path: seq<Position>, zones: seq<NoFlyZone>, turf: Turf) returns (errors: seq<ValidationError>)
    ensures errors == NfzErrors(path, zones, turf)
  {
    errors := [];
    var i := 0;
    while i < |zones|
      invariant 0 <= i <= |zones|
      invariant errors == NfzErrors(path, zones[..i], turf)
    {
      var nfz := zones[i];
      assert zones[..i + 1][..i] == zones[..i];
      if nfz.active {
        var intersects := turf.intersects(path, nfz.polygon);
        if intersects {
          errors := errors + [NfzIntersection(nfz.id, nfz.name, nfz.severity)];
        }
      }
      i := i + 1;
    }
    assert zones[..|zones|] == zones;
  }

  /** The NFZ errors are exactly one error per active, crossed zone, carrying that
      zone's id, name and severity, in zone-list order. */
  lemma {:induction false} NfzErrorsListCrossedZones(path: seq<Position>, zones: seq<NoFlyZone>, turf: Turf)
    ensures |NfzErrors(path, zones, turf)| == |Filter(zones, ZoneHit(path, turf))|
    ensures forall i :: 0 <= i < |NfzErrors(path, zones, turf)| ==>
      NfzErrors(path, zones, turf)[i] == ZoneError(Filter(zones, ZoneHit(path, turf))[i])
  {
    if zones != [] {
      NfzErrorsListCrossedZones(path, zones[..|zones| - 1], turf);
    }
  }

  /** Inactive zones never produce an error: every error names an active zone the
      path crosses. */
  lemma NfzErrorsOnlyFromActiveZones(path: seq<Position>, zones: seq<NoFlyZone>, turf: Turf)
    ensures forall i :: 0 <= i < |NfzErrors(path, zones, turf)| ==>
      exists zone :: zone in zones && zone.active && turf.intersects(path, zone.polygon) &&
        NfzErrors(path, zones, turf)[i] == ZoneError(zone)
  {
    NfzErrorsListCrossedZones(path, zones, turf);
    var hits := Filter(zones, ZoneHit(path, turf));
    forall i | 0 <= i < |NfzErrors(path, zones, turf)|
      ensures exists zone ::
        zone in zones && zone.active && turf.intersects(path, zone.polygon) &&
        NfzErrors(path, zones, turf)[i] == ZoneError(zone)
    {
      assert ZoneHit(path, turf)(hits[i]);
    }
  }

  /** Checking a concatenated zone list reports the first list's errors, then the
      second's. */
  lemma {:induction false} NfzErrorsAppend(path: seq<Position>, zones1: seq<NoFlyZone>, zones2: seq<NoFlyZone>, turf: Turf)
    ensures NfzErrors(path, zones1 + zones2, turf) == NfzErrors(path, zones1, turf) + NfzErrors(path, zones2, turf)
  {
    if zones2 == [] {
      assert zones1 + zones2 == zones1;
    } else {
      assert (zones1 + zones2)[..|zones1 + zones2| - 1] == zones1 + zones2[..|zones2| - 1];
      NfzErrorsAppend(path, zones1, zones2[..|zones2| - 1], turf);
    }
  }

  /** There are never more NFZ errors than active zones. */
  lemma NfzErrorsBound(path: seq<Position>, zones: seq<NoFlyZone>, turf: Turf)
    ensures |NfzErrors(path, zones, turf)| <= |Filter(zones, IsActive)|
  {
    NfzErrorsListCrossedZones(path, zones, turf);
    FilterWeakerLonger(zones, ZoneHit(path, turf), IsActive);
  }

  // ============ Range and battery ============

  /** `checkRangeLimit`: an error exactly when the path is strictly longer than the
      drone's range, reporting by how much. */
  function CheckRangeLimit(pathDistanceKm: real, drone: Drone): (r: Option<ValidationError>)
    ensures r.Some? <==> pathDistanceKm > drone.maxRangeKm
    ensures r.Some? ==>
      r.value.RangeExceeded? &&
      r.value.pathDistanceKm == pathDistanceKm && r.value.maxRangeKm == drone.maxRangeKm &&
      r.value.deficitKm > 0.0 && r.value.maxRangeKm + r.value.deficitKm == r.value.pathDistanceKm
  {
    if pathDistanceKm > drone.maxRangeKm then
      Some(RangeExceeded(pathDistanceKm, drone.maxRangeKm, pathDistanceKm - drone.maxRangeKm))
    else None
  }

  datatype BatteryCheck = BatteryCheck(error: Option<ValidationError>, warning: Option<ValidationWarning>)

  /** Battery percent the validator expects the flight to use. */
  function EstimatedConsumption(pathDistanceKm: real): real
  {
    pathDistanceKm * BatteryPercentPerKm
  }

  /** `checkBattery`: an error when less than 10 percent would remain, a warning when
      less than 25 would, otherwise nothing; never both. */
  function CheckBattery(pathDistanceKm: real, drone: Drone): (r: BatteryCheck)
    ensures var remaining := drone.battery - EstimatedConsumption(pathDistanceKm);
      (r.error.Some? <==> remaining < BatteryErrorThreshold) &&
      (r.warning.Some? <==> BatteryErrorThreshold <= remaining < BatteryWarningThreshold)
    ensures !(r.error.Some? && r.warning.Some?)
    ensures r.error.Some? ==>
      r.error.value.LowBattery? &&
      r.error.value.available == drone.battery &&
      r.error.value.required == EstimatedConsumption(pathDistanceKm) &&
      r.error.value.remainingAfter + r.error.value.required == r.error.value.available
    ensures r.warning.Some? ==>
      r.warning.value == LowBatteryWarning(drone.battery - EstimatedConsumption(pathDistanceKm))
  {
    var estimatedConsumption := EstimatedConsumption(pathDistanceKm);
    var remainingAfter := drone.battery - estimatedConsumption;
    if remainingAfter < BatteryErrorThreshold then
      BatteryCheck(Some(LowBattery(estimatedConsumption, drone.battery, remainingAfter)), None)
    else if remainingAfter < BatteryWarningThreshold then
      BatteryCheck(None, Some(LowBatteryWarning(remainingAfter)))
    else BatteryCheck(None, None)
  }

  // ============ validatePath ============

  /** `validatePath` as a value: valid exactly when nothing was reported as an
      error; without a drone, the one NO_DRONE error and no warning. */
  function Validate(path: seq<Position>, pathDistanceKm: real, drone: Option<Drone>, zones: seq<NoFlyZone>, turf: Turf): (r: ValidationResult)
    ensures r.valid <==> r.errors == []
    ensures drone.None? ==> !r.valid && r.errors == [NoDrone] && r.warnings == []
  {
    if drone.None? then ValidationResult(false, [NoDrone], [])
    else
      var battery := CheckBattery(pathDistanceKm, drone.value);
      var errors := NfzErrors(path, zones, turf) + Present(CheckRangeLimit(pathDistanceKm, drone.value)) + Present(battery.error);
      ValidationResult(|errors| == 0, errors, Present(battery.warning))
  }

  /** `validatePath`: stops at a missing drone, otherwise pushes the NFZ, range and
      battery findings in that order. */
  method ValidatePath(path: seq<Position>, pathDistanceKm: real, drone: Option<Drone>, zones: seq<NoFlyZone>, turf: Turf)
    returns (result: ValidationResult)
    ensures result == Validate(path, pathDistanceKm, drone, zones, turf)
  {
    var errors: seq<ValidationError> := [];
    var warnings: seq<ValidationWarning> := [];
    if drone.None? {
      errors := errors + [NoDrone];
      return ValidationResult(false, errors, warnings);
    }
    var nfzErrors := CheckNfzIntersections(path, zones, turf);
    errors := errors + nfzErrors;
    var rangeError := CheckRangeLimit(pathDistanceKm, drone.value);
    if rangeError.Some? {
      errors := errors + [rangeError.value];
    }
    var batteryCheck := CheckBattery(pathDistanceKm, drone.value);
    if batteryCheck.error.Some? {
      errors := errors + [batteryCheck.error.value];
    }
    if batteryCheck.warning.Some? {
      warnings := warnings + [batteryCheck.warning.value];
    }
    result := ValidationResult(|errors| == 0, errors, warnings);
  }

  /** Position of each kind of error in the result. */
  function ErrorRank(e: ValidationError): nat
  {
    match e
    case NoDrone => 0
    case NfzIntersection(_, _, _) => 1
    case RangeExceeded(_, _, _) => 2
    case LowBattery(_, _, _) => 3
  }

  /** With a drone: NFZ errors come first, then the range error, then the battery
      error; there are at most (active zones + 2) errors and at most one warning. */
  lemma ValidateErrorOrderAndBounds(path: seq<Position>, pathDistanceKm: real, drone: Drone, zones: seq<NoFlyZone>, turf: Turf)
    ensures var r := Validate(path, pathDistanceKm, Some(drone), zones, turf);
      (forall i, j :: 0 <= i < j < |r.errors| ==>
         ErrorRank(r.errors[i]) < ErrorRank(r.errors[j]) ||
         (r.errors[i].NfzIntersection? && r.errors[j].NfzIntersection?)) &&
      NoDrone !in r.errors &&
      |r.errors| <= |Filter(zones, IsActive)| + 2 &&
      |r.warnings| <= 1
  {
    var nfz := NfzErrors(path, zones, turf);
    var tail := Present(CheckRangeLimit(pathDistanceKm, drone)) + Present(CheckBattery(pathDistanceKm, drone).error);
    assert Validate(path, pathDistanceKm, Some(drone), zones, turf).errors == nfz + tail;
    RankedErrors(nfz, tail);
    NfzErrorsBound(path, zones, turf);
  }

  /** Zone errors followed by errors of strictly increasing rank above theirs are in
      rank order, and none of them is NO_DRONE. */
  lemma RankedErrors(nfz: seq<ValidationError>, tail: seq<ValidationError>)
    requires forall i :: 0 <= i < |nfz| ==> nfz[i].NfzIntersection?
    requires forall i :: 0 <= i < |tail| ==> ErrorRank(tail[i]) > 1
    requires forall i, j :: 0 <= i < j < |tail| ==> ErrorRank(tail[i]) < ErrorRank(tail[j])
    ensures forall i, j :: 0 <= i < j < |nfz + tail| ==>
      ErrorRank((nfz + tail)[i]) < ErrorRank((nfz + tail)[j]) ||
      ((nfz + tail)[i].NfzIntersection? && (nfz + tail)[j].NfzIntersection?)
    ensures NoDrone !in nfz + tail
  {
    var errors := nfz + tail;
    forall i | 0 <= i < |errors|
      ensures errors[i] != NoDrone
    {
      if i < |nfz| { assert errors[i] == nfz[i]; } else { assert errors[i] == tail[i - |nfz|]; }
    }
  }

  /** A plan is valid exactly when a drone is assigned, no active zone is crossed, the
      path is within range and at least 10 percent battery would remain; the battery
      warning never affects validity. */
  lemma ValidIff(path: seq<Position>, pathDistanceKm: real, drone: Option<Drone>, zones: seq<NoFlyZone>, turf: Turf)
    ensures Validate(path, pathDistanceKm, drone, zones, turf).valid <==>
      drone.Some? &&
      Filter(zones, ZoneHit(path, turf)) == [] &&
      pathDistanceKm <= drone.value.maxRangeKm &&
      drone.value.battery - EstimatedConsumption(pathDistanceKm) >= BatteryErrorThreshold
  {
    NfzErrorsListCrossedZones(path, zones, turf);
  }

  // ============ Agreement with the planner's estimates ============

  /** The planner's range check and the validator's agree exactly. */
  lemma RangeChecksAgree(pathDistanceKm: real, drone: Drone)
    ensures FlightPath.CheckRangeValidity(pathDistanceKm, drone.maxRangeKm) <==> CheckRangeLimit(pathDistanceKm, drone).None?
  {
  }

  /** The planner's battery estimate rounds the validator's consumption up to a whole
      percent, so the two differ by less than one percent and disagree whenever the
      consumption is fractional: 0.25 km costs 1 percent to the planner, 0.5 to the
      validator. */
  lemma BatteryEstimatesDiffer(pathDistanceKm: real)
    ensures EstimatedConsumption(pathDistanceKm) <= FlightPath.EstimateBatteryConsumption(pathDistanceKm) as real
    ensures FlightPath.EstimateBatteryConsumption(pathDistanceKm) as real < EstimatedConsumption(pathDistanceKm) + 1.0
    ensures FlightPath.EstimateBatteryConsumption(0.25) == 1 && EstimatedConsumption(0.25) == 0.5
  {
    assert FlightPath.EstimateBatteryConsumption(0.25) == 1;
  }

  // ============ Map features and sample zones ============

  datatype NfzFeature = NfzFeature(id: string, name: string, severity: Severity, geometry: seq<seq<Position>>)

  /** The map feature for each zone, active or not, in zone order. */
  function NfzFeatures(zones: seq<NoFlyZone>): (r: seq<NfzFeature>)
    ensures |r| == |zones|
    ensures forall i :: 0 <= i < |r| ==>
      r[i].id == zones[i].id && r[i].name == zones[i].name &&
      r[i].severity == zones[i].severity && r[i].geometry == zones[i].polygon
  {
    seq(|zones|, i requires 0 <= i < |zones| =>
      NfzFeature(zones[i].id, zones[i].name, zones[i].severity, zones[i].polygon))
  }

  /** Switching zones on or off never changes what the map shows. */
  lemma FeaturesIgnoreActivity(zones: seq<NoFlyZone>, flags: seq<bool>)
    requires |flags| == |zones|
    ensures NfzFeatures(seq(|zones|, i requires 0 <= i < |zones| => zones[i].(active := flags[i]))) == NfzFeatures(zones)
  {
  }

  /** The two demonstration zones. */
  function MockNoFlyZones(): seq<NoFlyZone>
  {
    [
      NoFlyZone("nfz-1", "Airport Restricted Zone",
        [[Position(-122.42, 37.78), Position(-122.41, 37.78), Position(-122.41, 37.77),
          Position(-122.42, 37.77), Position(-122.42, 37.78)]],
        Prohibited, true),
      NoFlyZone("nfz-2", "Government Building",
        [[Position(-122.415, 37.775), Position(-122.413, 37.775), Position(-122.413, 37.773),
          Position(-122.415, 37.773), Position(-122.415, 37.775)]],
        Restricted, true)
    ]
  }

  /** `getNFZFeatures`: the demonstration zones as map features. */
  function GetNfzFeatures(): (r: seq<NfzFeature>)
    ensures |r| == 2
    ensures r[0].id == "nfz-1" && r[0].severity == Prohibited
    ensures r[1].id == "nfz-2" && r[1].severity == Restricted
  {
    NfzFeatures(MockNoFlyZones())
  }

  // ============ Worked examples ============

  function SampleDrone(battery: real, maxRangeKm: real): Drone
  {
    Drone("drone-x", "Sample", "Sample", Coordinate(0.0, 0.0), battery, 100.0, Idle, maxRangeKm, 30.0,
      None, "user-1", "", 0.0, 0, None, None)
  }

  /** 20 km against a 15 km range: one RANGE_EXCEEDED error with a 5 km deficit. */
  lemma RangeExample(path: seq<Position>, turf: Turf)
    ensures Validate(path, 20.0, Some(SampleDrone(100.0, 15.0)), [], turf) ==
      ValidationResult(false, [RangeExceeded(20.0, 15.0, 5.0)], [])
  {
  }

  /** 10 km on a full battery: 20 percent used, 80 remains, neither error nor warning. */
  lemma FullBatteryExample(path: seq<Position>, turf: Turf)
    ensures Validate(path, 10.0, Some(SampleDrone(100.0, 15.0)), [], turf) == ValidationResult(true, [], [])
  {
  }

  /** 5 km on 15 percent: 10 percent needed, 5 would remain, a LOW_BATTERY error. */
  lemma LowBatteryExample(path: seq<Position>, turf: Turf)
    ensures Validate(path, 5.0, Some(SampleDrone(15.0, 15.0)), [], turf) ==
      ValidationResult(false, [LowBattery(10.0, 15.0, 5.0)], [])
  {
  }

  /** A path crossing the prohibited airport zone is reported with that zone's id and
      severity; the same zone switched off is not reported. */
  lemma ZoneExample(path: seq<Position>, turf: Turf)
    requires turf.intersects(path, MockNoFlyZones()[0].polygon)
    requires !turf.intersects(path, MockNoFlyZones()[1].polygon)
    ensures NfzErrors(path, MockNoFlyZones(), turf) == [NfzIntersection("nfz-1", "Airport Restricted Zone", Prohibited)]
    ensures NfzErrors(path, [MockNoFlyZones()[0].(active := false)], turf) == []
  {
    var zones := MockNoFlyZones();
    assert zones[..|zones| - 1] == [zones[0]];
    assert [zones[0]][..0] == [];
    assert NfzErrors(path, [zones[0]], turf) == [ZoneError(zones[0])];
  }
}
