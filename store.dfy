/** The application stores (src/store/index.ts): drones, missions, the flight
    simulation, the UI flags and the organisation statistics. Each store is an
    object whose actions replace some of its fields; a `Partial<T>` argument is a
    record of optional fields, present ones overriding the current values. */
module Store {
  import opened Types
  import opened Seqs
  import opened JsMath

  // ============ Partial updates ============

  datatype DroneUpdate = DroneUpdate(
    id: Option<string>,
    name: Option<string>,
    model: Option<string>,
    position: Option<Coordinate>,
    battery: Option<real>,
    signal: Option<real>,
    status: Option<DroneStatus>,
    maxRangeKm: Option<real>,
    speedKmh: Option<real>,
    currentMissionId: Option<Option<string>>,
    ownerId: Option<string>,
    createdAt: Option<string>,
    totalFlightHours: Option<real>,
    totalMissions: Option<int>,
    lastMaintenanceDate: Option<Option<string>>,
    capabilities: Option<Option<DroneCapabilities>>)
  {
    /** `{ ...d, ...updates }`. */
    function MergeInto(d: Drone): Drone
    {
      Drone(id.GetOr(d.id), name.GetOr(d.name), model.GetOr(d.model), position.GetOr(d.position),
        battery.GetOr(d.battery), signal.GetOr(d.signal), status.GetOr(d.status),
        maxRangeKm.GetOr(d.maxRangeKm), speedKmh.GetOr(d.speedKmh),
        currentMissionId.GetOr(d.currentMissionId), ownerId.GetOr(d.ownerId), createdAt.GetOr(d.createdAt),
        totalFlightHours.GetOr(d.totalFlightHours), totalMissions.GetOr(d.totalMissions),
        lastMaintenanceDate.GetOr(d.lastMaintenanceDate), capabilities.GetOr(d.capabilities))
    }
  }

  datatype MissionUpdate = MissionUpdate(
    id: Option<string>,
    name: Option<string>,
    status: Option<MissionStatus>,
    polygon: Option<seq<seq<Position>>>,
    flightPath: Option<Option<seq<Position>>>,
    waypoints: Option<seq<Position>>,
    config: Option<MissionConfig>,
    assignedDroneId: Option<Option<string>>,
    estimatedDurationMin: Option<real>,
    estimatedDistanceKm: Option<real>,
    progress: Option<real>,
    ownerId: Option<string>,
    createdAt: Option<string>,
    startedAt: Option<Option<string>>,
    completedAt: Option<Option<string>>,
    areaSqKm: Option<real>,
    estimatedPhotos: Option<int>,
    actualPhotos: Option<int>,
    coveragePercent: Option<real>)
  {
    /** `{ ...m, ...updates }`. */
    function MergeInto(m: Mission): Mission
    {
      Mission(id.GetOr(m.id), name.GetOr(m.name), status.GetOr(m.status), polygon.GetOr(m.polygon),
        flightPath.GetOr(m.flightPath), waypoints.GetOr(m.waypoints), config.GetOr(m.config),
        assignedDroneId.GetOr(m.assignedDroneId), estimatedDurationMin.GetOr(m.estimatedDurationMin),
        estimatedDistanceKm.GetOr(m.estimatedDistanceKm), progress.GetOr(m.progress), ownerId.GetOr(m.ownerId),
        createdAt.GetOr(m.createdAt), startedAt.GetOr(m.startedAt), completedAt.GetOr(m.completedAt),
        areaSqKm.GetOr(m.areaSqKm), estimatedPhotos.GetOr(m.estimatedPhotos), actualPhotos.GetOr(m.actualPhotos),
        coveragePercent.GetOr(m.coveragePercent))
    }
  }

  datatype ConfigUpdate = ConfigUpdate(
    altitudeM: Option<real>,
    overlapPercent: Option<real>,
    cameraFovDeg: Option<real>,
    speedKmh: Option<real>,
    pattern: Option<SurveyPattern>,
    sensors: Option<seq<SensorType>>,
    captureFrequency: Option<real>,
    terrainFollow: Option<bool>,
    sidelapPercent: Option<real>)
  {
    /** `{ ...state.missionConfig, ...config }`. */
    function MergeInto(c: MissionConfig): MissionConfig
    {
      MissionConfig(altitudeM.GetOr(c.altitudeM), overlapPercent.GetOr(c.overlapPercent),
        cameraFovDeg.GetOr(c.cameraFovDeg), speedKmh.GetOr(c.speedKmh), pattern.GetOr(c.pattern),
        sensors.GetOr(c.sensors), captureFrequency.GetOr(c.captureFrequency),
        terrainFollow.GetOr(c.terrainFollow), sidelapPercent.GetOr(c.sidelapPercent))
    }
  }

  datatype SimulationUpdate = SimulationUpdate(
    isRunning: Option<bool>,
    isPaused: Option<bool>,
    speed: Option<real>,
    currentWaypointIndex: Option<int>,
    progress: Option<real>,
    dronePosition: Option<Position>,
    droneBearing: Option<real>,
    trailCoordinates: Option<seq<Position>>,
    elapsedTime: Option<real>,
    distanceCoveredKm: Option<real>,
    distanceRemainingKm: Option<real>,
    etaSeconds: Option<real>,
    photosCaptures: Option<int>)
  {
    /** `{ ...state.simulation, ...updates }`. */
    function MergeInto(s: SimulationState): SimulationState
    {
      SimulationState(isRunning.GetOr(s.isRunning), isPaused.GetOr(s.isPaused), speed.GetOr(s.speed),
        currentWaypointIndex.GetOr(s.currentWaypointIndex), progress.GetOr(s.progress),
        dronePosition.GetOr(s.dronePosition), droneBearing.GetOr(s.droneBearing),
        trailCoordinates.GetOr(s.trailCoordinates), elapsedTime.GetOr(s.elapsedTime),
        distanceCoveredKm.GetOr(s.distanceCoveredKm), distanceRemainingKm.GetOr(s.distanceRemainingKm),
        etaSeconds.GetOr(s.etaSeconds), photosCaptures.GetOr(s.photosCaptures))
    }
  }

  /** Applying the same partial update twice is the same as applying it once. */
  lemma MergeIdempotent(d: Drone, u: DroneUpdate, m: Mission, v: MissionUpdate, c: MissionConfig, w: ConfigUpdate)
    ensures u.MergeInto(u.MergeInto(d)) == u.MergeInto(d)
    ensures v.MergeInto(v.MergeInto(m)) == v.MergeInto(m)
    ensures w.MergeInto(w.MergeInto(c)) == w.MergeInto(c)
  {
  }

  /** `m.id === id ? { ...m, ...updates } : m` over a list, for drones and missions
      alike: the update is merged into every element with that id, and only into
      those. */
  function MergeById<T>(xs: seq<T>, idOf: T -> string, id: string, merge: T -> T): (r: seq<T>)
    ensures |r| == |xs|
    ensures forall i :: 0 <= i < |xs| && idOf(xs[i]) != id ==> r[i] == xs[i]
    ensures forall i :: 0 <= i < |xs| && idOf(xs[i]) == id ==> r[i] == merge(xs[i])
  {
    seq(|xs|, i requires 0 <= i < |xs| => if idOf(xs[i]) == id then merge(xs[i]) else xs[i])
  }

  function MergeDronesById(drones: seq<Drone>, id: string, updates: DroneUpdate): seq<Drone>
  {
    MergeById(drones, (d: Drone) => d.id, id, (d: Drone) => updates.MergeInto(d))
  }

  function MergeMissionsById(missions: seq<Mission>, id: string, updates: MissionUpdate): seq<Mission>
  {
    MergeById(missions, (m: Mission) => m.id, id, (m: Mission) => updates.MergeInto(m))
  }

  // ============ Drone store ============

  /** Drone k has the id, and no earlier one does. */
  ghost predicate FirstWithId(drones: seq<Drone>, id: string, k: int)
  {
    0 <= k < |drones| && drones[k].id == id && forall j :: 0 <= j < k ==> drones[j].id != id
  }

  /** `drones.find(d => d.id === id)`: the first drone with that id. */
  function FindDrone(drones: seq<Drone>, id: string): (r: Option<Drone>)
    ensures r.None? <==> forall i :: 0 <= i < |drones| ==> drones[i].id != id
    ensures r.Some? ==> exists k :: FirstWithId(drones, id, k) && drones[k] == r.value
  {
    if drones == [] then None
    else if drones[0].id == id then Some(drones[0])
    else
      var r := FindDrone(drones[1..], id);
      assert r.Some? ==> exists k :: FirstWithId(drones, id, k) && drones[k] == r.value by {
        if r.Some? {
          var k :| FirstWithId(drones[1..], id, k) && drones[1..][k] == r.value;
          assert FirstWithId(drones, id, k + 1);
        }
      }
      r
  }

  function IsAvailable(d: Drone): bool
  {
    d.status == Idle && d.battery > 20.0
  }

  function IsFlying(d: Drone): bool
  {
    d.status == Flying
  }

  /** `getAvailableDrones`: a drone is listed exactly when it is in the fleet, idle
      and above 20 percent battery. */
  function AvailableDrones(drones: seq<Drone>): (r: seq<Drone>)
    ensures forall d :: d in r <==> d in drones && d.status == Idle && d.battery > 20.0
  {
    FilterMembers(drones, IsAvailable);
    Filter(drones, IsAvailable)
  }

  /** `getActiveDrones`: a drone is listed exactly when it is in the fleet and flying. */
  function ActiveDrones(drones: seq<Drone>): (r: seq<Drone>)
    ensures forall d :: d in r <==> d in drones && d.status == Flying
  {
    FilterMembers(drones, IsFlying);
    Filter(drones, IsFlying)
  }

  /** Both listings keep fleet order: listing two fleets one after the other lists
      each in turn. */
  lemma DroneListingsKeepOrder(fleet1: seq<Drone>, fleet2: seq<Drone>)
    ensures AvailableDrones(fleet1 + fleet2) == AvailableDrones(fleet1) + AvailableDrones(fleet2)
    ensures ActiveDrones(fleet1 + fleet2) == ActiveDrones(fleet1) + ActiveDrones(fleet2)
  {
    FilterAppend(fleet1, fleet2, IsAvailable);
    FilterAppend(fleet1, fleet2, IsFlying);
  }

  class DroneStore {
    var drones: seq<Drone>
    var selectedDroneId: Option<string>

    constructor(initialDrones: seq<Drone>)
      ensures drones == initialDrones && selectedDroneId == None
    {
      drones := initialDrones;
      selectedDroneId := None;
    }

    method SetDrones(newDrones: seq<Drone>)
      modifies this
      ensures drones == newDrones && selectedDroneId == old(selectedDroneId)
    {
      drones := newDrones;
    }

    method SelectDrone(id: Option<string>)
      modifies this
      ensures selectedDroneId == id && drones == old(drones)
    {
      selectedDroneId := id;
    }

    /** `updateDrone`: merges into every drone with that id; the list keeps its length
        and every other drone. */
    method UpdateDrone(id: string, updates: DroneUpdate)
      modifies this
      ensures drones == MergeDronesById(old(drones), id, updates)
      ensures selectedDroneId == old(selectedDroneId)
    {
      drones := MergeDronesById(drones, id, updates);
    }

    function GetDroneById(id: string): Option<Drone>
      reads this
    {
      FindDrone(drones, id)
    }

    function GetAvailableDrones(): seq<Drone>
      reads this
    {
      AvailableDrones(drones)
    }

    function GetActiveDrones(): seq<Drone>
      reads this
    {
      ActiveDrones(drones)
    }
  }

  // ============ Mission store ============

  const DefaultConfig: MissionConfig :=
    MissionConfig(50.0, 70.0, 84.0, 40.0, Snake, [RGB], 2.0, false, 65.0)

  /** Decimal digits of a natural number, as `${n}` writes it. */
  function DecimalString(n: nat): (r: string)
    ensures |r| >= 1
    ensures forall i :: 0 <= i < |r| ==> '0' <= r[i] <= '9'
    ensures n > 0 ==> r[0] != '0'
  {
    var digit := ['0' + (n % 10) as char];
    if n < 10 then digit else DecimalString(n / 10) + digit
  }

  /** The id `createMission` gives a mission created at a clock reading. */
  function MissionId(now: nat): (r: string)
    ensures |r| > |"mission-"| && r[..|"mission-"|] == "mission-"
  {
    "mission-" + DecimalString(now)
  }

  class MissionStore {
    var missions: seq<Mission>
    var currentMission: Option<Mission>
    var drawnPolygon: Option<seq<Position>>
    var generatedPath: Option<seq<Position>>
    var missionConfig: MissionConfig

    constructor(initialMissions: seq<Mission>)
      ensures missions == initialMissions && missionConfig == DefaultConfig
      ensures currentMission == None && drawnPolygon == None && generatedPath == None
    {
      missions := initialMissions;
      currentMission := None;
      drawnPolygon := None;
      generatedPath := None;
      missionConfig := DefaultConfig;
    }

    method SetDrawnPolygon(polygon: Option<seq<Position>>)
      modifies this
      ensures drawnPolygon == polygon
      ensures missions == old(missions) && currentMission == old(currentMission)
      ensures generatedPath == old(generatedPath) && missionConfig == old(missionConfig)
    {
      drawnPolygon := polygon;
    }

    method SetGeneratedPath(path: Option<seq<Position>>)
      modifies this
      ensures generatedPath == path
      ensures missions == old(missions) && currentMission == old(currentMission)
      ensures drawnPolygon == old(drawnPolygon) && missionConfig == old(missionConfig)
    {
      generatedPath := path;
    }

    /** `setMissionConfig`: overwrites exactly the supplied configuration fields. */
    method SetMissionConfig(config: ConfigUpdate)
      modifies this
      ensures missionConfig == config.MergeInto(old(missionConfig))
      ensures missions == old(missions) && currentMission == old(currentMission)
      ensures drawnPolygon == old(drawnPolygon) && generatedPath == old(generatedPath)
    {
      missionConfig := config.MergeInto(missionConfig);
    }

    /** `setPattern`: only the pattern of the configuration changes. */
    method SetPattern(pattern: SurveyPattern)
      modifies this
      ensures missionConfig == old(missionConfig).(pattern := pattern)
      ensures missions == old(missions) && currentMission == old(currentMission)
      ensures drawnPolygon == old(drawnPolygon) && generatedPath == old(generatedPath)
    {
      missionConfig := missionConfig.(pattern := pattern);
    }

    /** `setSensors`: only the sensor list of the configuration changes. */
    method SetSensors(sensors: seq<SensorType>)
      modifies this
      ensures missionConfig == old(missionConfig).(sensors := sensors)
      ensures missions == old(missions) && currentMission == old(currentMission)
      ensures drawnPolygon == old(drawnPolygon) && generatedPath == old(generatedPath)
    {
      missionConfig := missionConfig.(sensors := sensors);
    }

    /** `createMission`: appends the mission under a clock-derived id and creation
        time, and returns that id; the existing missions are untouched. */
    method CreateMission(mission: Mission, now: nat, createdAt: string) returns (id: string)
      modifies this
      ensures id == MissionId(now)
      ensures missions == old(missions) + [mission.(id := id, createdAt := createdAt)]
      ensures currentMission == old(currentMission) && missionConfig == old(missionConfig)
      ensures drawnPolygon == old(drawnPolygon) && generatedPath == old(generatedPath)
    {
      id := MissionId(now);
      missions := missions + [mission.(id := id, createdAt := createdAt)];
    }

    /** `updateMission`: merges into every listed mission with that id, and into the
        current mission only when it has that id. */
    method UpdateMission(id: string, updates: MissionUpdate)
      modifies this
      ensures missions == MergeMissionsById(old(missions), id, updates)
      ensures currentMission ==
        if old(currentMission).Some? && old(currentMission).value.id == id
        then Some(updates.MergeInto(old(currentMission).value))
        else old(currentMission)
      ensures drawnPolygon == old(drawnPolygon) && generatedPath == old(generatedPath)
      ensures missionConfig == old(missionConfig)
    {
      missions := MergeMissionsById(missions, id, updates);
      if currentMission.Some? && currentMission.value.id == id {
        currentMission := Some(updates.MergeInto(currentMission.value));
      }
    }

    method SetCurrentMission(mission: Option<Mission>)
      modifies this
      ensures currentMission == mission
      ensures missions == old(missions) && missionConfig == old(missionConfig)
      ensures drawnPolygon == old(drawnPolygon) && generatedPath == old(generatedPath)
    {
      currentMission := mission;
    }

    /** `clearCurrentMission`: forgets the current mission, the drawn polygon and the
        generated path; the mission list and configuration stay. */
    method ClearCurrentMission()
      modifies this
      ensures currentMission == None && drawnPolygon == None && generatedPath == None
      ensures missions == old(missions) && missionConfig == old(missionConfig)
    {
      currentMission := None;
      drawnPolygon := None;
      generatedPath := None;
    }
  }

  // ============ Simulation store ============

  const InitialSimulation: SimulationState :=
    SimulationState(false, false, 1.0, 0, 0.0, Position(0.0, 0.0), 0.0, [], 0.0, 0.0, 0.0, 0.0, 0)

  class SimulationStore {
    var simulation: SimulationState

    constructor()
      ensures simulation == InitialSimulation
    {
      simulation := InitialSimulation;
    }

    /** `startSimulation`: a fresh run at the first waypoint. */
    method StartSimulation(waypoints: seq<Position>)
      requires |waypoints| > 0
      modifies this
      ensures simulation == InitialSimulation.(isRunning := true, dronePosition := waypoints[0])
    {
      simulation := InitialSimulation.(isRunning := true, dronePosition := waypoints[0]);
    }

    method PauseSimulation()
      modifies this
      ensures simulation == old(simulation).(isPaused := true)
    {
      simulation := simulation.(isPaused := true);
    }

    method ResumeSimulation()
      modifies this
      ensures simulation == old(simulation).(isPaused := false)
    {
      simulation := simulation.(isPaused := false);
    }

    /** `stopSimulation`: back to the initial state exactly. */
    method StopSimulation()
      modifies this
      ensures simulation == InitialSimulation
    {
      simulation := InitialSimulation;
    }

    method SetSpeed(speed: real)
      modifies this
      ensures simulation == old(simulation).(speed := speed)
    {
      simulation := simulation.(speed := speed);
    }

    method UpdateSimulationState(updates: SimulationUpdate)
      modifies this
      ensures simulation == updates.MergeInto(old(simulation))
    {
      simulation := updates.MergeInto(simulation);
    }

    /** `returnToHome`: stops and unpauses, keeping position, progress and trail. */
    method ReturnToHome()
      modifies this
      ensures simulation == old(simulation).(isRunning := false, isPaused := false)
    {
      simulation := simulation.(isRunning := false, isPaused := false);
    }

    /** `skipWaypoint`: the index goes up by one, with no bound check. */
    method SkipWaypoint()
      modifies this
      ensures simulation == old(simulation).(currentWaypointIndex := old(simulation).currentWaypointIndex + 1)
    {
      simulation := simulation.(currentWaypointIndex := simulation.currentWaypointIndex + 1);
    }
  }

  /** Pausing a run that is not paused and then resuming it gives back exactly the
      state it had. */
  method PauseResumeRoundTrip(store: SimulationStore)
    requires !store.simulation.isPaused
    modifies store
    ensures store.simulation == old(store.simulation)
  {
    store.PauseSimulation();
    store.ResumeSimulation();
  }

  /** A run started, paused, resumed and then sent home is stopped, unpaused and
      still at the first waypoint, with the progress of a fresh run. */
  method ReturnHomeAfterStart(store: SimulationStore, waypoints: seq<Position>)
    requires |waypoints| > 0
    modifies store
    ensures !store.simulation.isRunning && !store.simulation.isPaused
    ensures store.simulation.dronePosition == waypoints[0]
    ensures store.simulation == InitialSimulation.(dronePosition := waypoints[0])
  {
    store.StartSimulation(waypoints);
    store.PauseSimulation();
    store.ResumeSimulation();
    assert store.simulation.isRunning && !store.simulation.isPaused;
    store.ReturnToHome();
  }

  // ============ UI store ============

  class UIStore {
    var isSidebarOpen: bool
    var isAlertModalOpen: bool
    var alertMessage: string
    var activeTab: ViewTab
    var isDrawingMode: bool

    constructor()
      ensures isSidebarOpen && !isAlertModalOpen && alertMessage == "" && activeTab == MapTab && !isDrawingMode
    {
      isSidebarOpen := true;
      isAlertModalOpen := false;
      alertMessage := "";
      activeTab := MapTab;
      isDrawingMode := false;
    }

    method ToggleSidebar()
      modifies this
      ensures isSidebarOpen == !old(isSidebarOpen)
      ensures isAlertModalOpen == old(isAlertModalOpen) && alertMessage == old(alertMessage)
      ensures activeTab == old(activeTab) && isDrawingMode == old(isDrawingMode)
    {
      isSidebarOpen := !isSidebarOpen;
    }

    method SetSidebarOpen(open: bool)
      modifies this
      ensures isSidebarOpen == open
      ensures isAlertModalOpen == old(isAlertModalOpen) && alertMessage == old(alertMessage)
      ensures activeTab == old(activeTab) && isDrawingMode == old(isDrawingMode)
    {
      isSidebarOpen := open;
    }

    method ShowAlert(message: string)
      modifies this
      ensures isAlertModalOpen && alertMessage == message
      ensures isSidebarOpen == old(isSidebarOpen) && activeTab == old(activeTab) && isDrawingMode == old(isDrawingMode)
    {
      isAlertModalOpen := true;
      alertMessage := message;
    }

    method HideAlert()
      modifies this
      ensures !isAlertModalOpen && alertMessage == ""
      ensures isSidebarOpen == old(isSidebarOpen) && activeTab == old(activeTab) && isDrawingMode == old(isDrawingMode)
    {
      isAlertModalOpen := false;
      alertMessage := "";
    }

    method SetActiveTab(tab: ViewTab)
      modifies this
      ensures activeTab == tab
      ensures isSidebarOpen == old(isSidebarOpen) && isAlertModalOpen == old(isAlertModalOpen)
      ensures alertMessage == old(alertMessage) && isDrawingMode == old(isDrawingMode)
    {
      activeTab := tab;
    }

    method SetDrawingMode(enabled: bool)
      modifies this
      ensures isDrawingMode == enabled
      ensures isSidebarOpen == old(isSidebarOpen) && isAlertModalOpen == old(isAlertModalOpen)
      ensures alertMessage == old(alertMessage) && activeTab == old(activeTab)
    {
      isDrawingMode := enabled;
    }
  }

  // ============ Organisation statistics ============

  function IsCompleted(m: Mission): bool
  {
    m.status == Completed
  }

  function IsAborted(m: Mission): bool
  {
    m.status == Aborted
  }

  /** `Math.round(x * 10^k) / 10^k` for a positive scale 10^k. */
  function RoundTo(x: real, scale: real): real
    requires scale > 0.0
  {
    Round(x * scale) as real / scale
  }

  /** Mean estimated duration of the completed missions, or 0 when there are none. */
  function AverageDuration(completed: seq<Mission>): real
  {
    if |completed| > 0 then SumOf(completed, (m: Mission) => m.estimatedDurationMin) / |completed| as real
    else 0.0
  }

  /** `calculateOrgStats` over the fleet and mission list, stamped with `now`.
      Completed and aborted missions never outnumber all missions, flying drones
      never outnumber the fleet, and the success rate is a percentage: 0 without
      missions, 100 when every mission completed. */
  function CalculateOrgStats(drones: seq<Drone>, missions: seq<Mission>, now: string): (s: OrgStatistics)
    ensures s.completedMissions + s.abortedMissions <= s.totalMissions
    ensures s.activeDrones <= s.totalDrones
    ensures 0 <= s.successRate <= 100
    ensures s.totalMissions == 0 ==> s.successRate == 0
    ensures s.totalMissions > 0 && s.completedMissions == s.totalMissions ==> s.successRate == 100
    ensures s.completedMissions == 0 ==> s.averageMissionDuration == 0
  {
    FilterDisjointBound(missions, IsCompleted, IsAborted);
    var completedMissions := Filter(missions, IsCompleted);
    var abortedMissions := Filter(missions, IsAborted);
    var totalFlightHours := SumOf(drones, (d: Drone) => d.totalFlightHours);
    var totalDistance := SumOf(completedMissions, (m: Mission) => m.estimatedDistanceKm);
    var totalArea := SumOf(completedMissions, (m: Mission) => m.areaSqKm);
    var totalPhotos := IntSumOf(completedMissions, (m: Mission) => m.actualPhotos);
    OrgStatistics(
      |drones|,
      |ActiveDrones(drones)|,
      |missions|,
      |completedMissions|,
      |abortedMissions|,
      RoundTo(totalFlightHours, 10.0),
      RoundTo(totalDistance, 10.0),
      RoundTo(totalArea, 100.0),
      totalPhotos,
      Round(AverageDuration(completedMissions)),
      SuccessRate(|completedMissions|, |missions|),
      now)
  }

  lemma FractionWithin(c: nat, t: nat)
    requires c <= t && t > 0
    ensures 0.0 <= c as real / t as real <= 1.0
  {
    var q := c as real / t as real;
    assert q * t as real == c as real;
  }

  /** `Math.round(completed / total * 100)` is a percentage, 100 when all completed. */
  lemma SuccessRateBounds(c: nat, t: nat)
    requires c <= t && t > 0
    ensures 0 <= Round(c as real / t as real * 100.0) <= 100
    ensures c == t ==> Round(c as real / t as real * 100.0) == 100
  {
    FractionWithin(c, t);
    if c == t {
      var total := t as real;
      assert total / total == 1.0;
    }
  }

  /** `total > 0 ? Math.round(completed / total * 100) : 0`: a percentage when no
      more missions completed than exist, 0 without missions, and 100 when all
      of them completed. */
  function SuccessRate(completed: nat, total: nat): (r: int)
    ensures total == 0 ==> r == 0
    ensures completed <= total ==> 0 <= r <= 100
    ensures 0 < total == completed ==> r == 100
  {
    if total == 0 then 0
    else
      if completed <= total then SuccessRateBounds(completed, total); Round(completed as real / total as real * 100.0)
      else Round(completed as real / total as real * 100.0)
  }

  /** `useOrgStatsStore`: the statistics snapshot, computed when the store is created
      and recomputed on demand from the drone and mission stores. */
  class OrgStatsStore {
    var stats: OrgStatistics

    constructor(droneStore: DroneStore, missionStore: MissionStore, now: string)
      ensures stats == CalculateOrgStats(droneStore.drones, missionStore.missions, now)
    {
      stats := CalculateOrgStats(droneStore.drones, missionStore.missions, now);
    }

    /** `updateStats`: replaces the snapshot with one of the current stores. The
        drone and mission stores are only read. */
    method UpdateStats(droneStore: DroneStore, missionStore: MissionStore, now: string)
      modifies this
      ensures stats == CalculateOrgStats(droneStore.drones, missionStore.missions, now)
      ensures stats.completedMissions + stats.abortedMissions <= stats.totalMissions
      ensures stats.activeDrones <= stats.totalDrones && 0 <= stats.successRate <= 100
    {
      stats := CalculateOrgStats(droneStore.drones, missionStore.missions, now);
    }
  }
}
