/** Records and enumerations shared by the planner, the validator and the stores
    (src/types/index.ts), plus the Option/Result wrappers used for absent values
    and error returns. */
module Types {

  datatype Option<+T> = None | Some(value: T) {
    function GetOr(default: T): T {
      match this
      case Some(v) => v
      case None => default
    }
  }

  datatype Result<+R, +E> = Success(value: R) | Failure(error: E)

  /** A GeoJSON position: longitude first, then latitude (section 3.1.1 of RFC 7946). */
  datatype Position = Position(lon: real, lat: real)

  /** The `{lat, lng}` record a drone reports its position in. */
  datatype Coordinate = Coordinate(lat: real, lng: real)

  datatype SensorType = RGB | Thermal | Lidar | Multispectral

  datatype SurveyPattern = Snake | Crosshatch | Perimeter | Spiral

  /** What a drone airframe can carry and do. */
  datatype DroneCapabilities = DroneCapabilities(
    maxPayloadKg: real,
    supportedSensors: seq<SensorType>,
    hasRtk: bool,
    hasObstacleAvoidance: bool)

  datatype DroneStatus = Idle | Flying | Returning | Charging | Offline | Maintenance

  datatype Drone = Drone(
    id: string,
    name: string,
    model: string,
    position: Coordinate,
    battery: real,             // percent, 0-100
    signal: real,              // percent, 0-100
    status: DroneStatus,
    maxRangeKm: real,
    speedKmh: real,
    currentMissionId: Option<string>,
    ownerId: string,
    createdAt: string,
    totalFlightHours: real,
    totalMissions: int,
    lastMaintenanceDate: Option<string>,
    capabilities: Option<DroneCapabilities>)

  datatype MissionStatus = Draft | Ready | InProgress | Paused | Completed | Aborted

  datatype MissionConfig = MissionConfig(
    altitudeM: real,
    overlapPercent: real,
    cameraFovDeg: real,
    speedKmh: real,
    pattern: SurveyPattern,
    sensors: seq<SensorType>,
    captureFrequency: real,
    terrainFollow: bool,
    sidelapPercent: real)

  datatype Mission = Mission(
    id: string,
    name: string,
    status: MissionStatus,
    polygon: seq<seq<Position>>,          // GeoJSON polygon rings
    flightPath: Option<seq<Position>>,    // GeoJSON line string, or null
    waypoints: seq<Position>,
    config: MissionConfig,
    assignedDroneId: Option<string>,
    estimatedDurationMin: real,
    estimatedDistanceKm: real,
    progress: real,
    ownerId: string,
    createdAt: string,
    startedAt: Option<string>,
    completedAt: Option<string>,
    areaSqKm: real,
    estimatedPhotos: int,
    actualPhotos: int,
    coveragePercent: real)

  datatype Severity = Warning | Restricted | Prohibited

  datatype NoFlyZone = NoFlyZone(
    id: string,
    name: string,
    polygon: seq<seq<Position>>,
    severity: Severity,
    active: bool)

  /** Validation findings; each carries the structured details the source attaches
      (the human-readable message text is not modelled). */
  datatype ValidationError =
    | NfzIntersection(zoneId: string, zoneName: string, severity: Severity)
    | RangeExceeded(pathDistanceKm: real, maxRangeKm: real, deficitKm: real)
    | LowBattery(required: real, available: real, remainingAfter: real)
    | NoDrone

  datatype ValidationWarning =
    | LowBatteryWarning(remainingAfter: real)
    | WeatherAdvisory

  datatype ValidationResult = ValidationResult(
    valid: bool,
    errors: seq<ValidationError>,
    warnings: seq<ValidationWarning>)

  datatype SimulationState = SimulationState(
    isRunning: bool,
    isPaused: bool,
    speed: real,
    currentWaypointIndex: int,
    progress: real,
    dronePosition: Position,
    droneBearing: real,
    trailCoordinates: seq<Position>,
    elapsedTime: real,
    distanceCoveredKm: real,
    distanceRemainingKm: real,
    etaSeconds: real,
    photosCaptures: int)

  datatype ViewTab = MapTab | AnalyticsTab

  datatype OrgStatistics = OrgStatistics(
    totalDrones: nat,
    activeDrones: nat,
    totalMissions: nat,
    completedMissions: nat,
    abortedMissions: nat,
    totalFlightHours: real,
    totalDistanceKm: real,
    totalAreaCoveredSqKm: real,
    totalPhotos: int,
    averageMissionDuration: int,
    successRate: int,
    lastUpdated: string)
}
