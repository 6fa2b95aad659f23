/** The state rules inside the mission control panel
    (src/components/MissionControls.tsx): toggling a sensor in the mission
    configuration and the guard in front of starting a mission. */
module MissionControls {
  import opened Types
  import opened Seqs
  import Store

  /** `missionConfig.sensors || ['RGB']`: only an absent list is replaced (an empty
      array is truthy in JavaScript). */
  function SensorsOrDefault(sensors: Option<seq<SensorType>>): seq<SensorType>
  {
    sensors.GetOr([RGB])
  }

  function Without(sensors: seq<SensorType>, sensor: SensorType): seq<SensorType>
  {
    Filter(sensors, (s: SensorType) => s != sensor)
  }

  /** The list `toggleSensor` passes to `setSensors`, or None when it calls nothing:
      a selected sensor is dropped unless it is the only one, an unselected one is
      appended. `setSensors` is skipped exactly when the sensor is the only one
      selected, and otherwise the sensor's membership flips. */
  function ToggledSensors(sensors: Option<seq<SensorType>>, sensor: SensorType): (r: Option<seq<SensorType>>)
    ensures r.None? <==> SensorsOrDefault(sensors) == [sensor]
    ensures r.Some? ==> (sensor in r.value <==> sensor !in SensorsOrDefault(sensors))
  {
    var current := SensorsOrDefault(sensors);
    if sensor in current then
      if |current| > 1 then Some(Without(current, sensor)) else None
    else Some(current + [sensor])
  }

  /** The sensor list after a toggle. */
  function SensorsAfterToggle(current: seq<SensorType>, sensor: SensorType): seq<SensorType>
  {
    ToggledSensors(Some(current), sensor).GetOr(current)
  }

  ghost predicate NoDuplicates(s: seq<SensorType>)
  {
    forall i, j :: 0 <= i < j < |s| ==> s[i] != s[j]
  }

  /** Filtering out one value from a duplicate-free list that holds it removes exactly
      one element and keeps the list duplicate-free. */
  lemma {:induction false} WithoutOne(current: seq<SensorType>, sensor: SensorType)
    requires NoDuplicates(current) && sensor in current
    ensures |Without(current, sensor)| == |current| - 1
    ensures NoDuplicates(Without(current, sensor))
  {
    var init := current[..|current| - 1];
    var last := current[|current| - 1];
    assert NoDuplicates(init);
    if last == sensor {
      assert sensor !in init;
      WithoutNothing(init, sensor);
    } else {
      assert sensor in init;
      WithoutOne(init, sensor);
      assert last !in Without(init, sensor);
    }
  }

  /** Filtering out a value the list does not hold changes nothing. */
  lemma {:induction false} WithoutNothing(current: seq<SensorType>, sensor: SensorType)
    requires sensor !in current
    ensures Without(current, sensor) == current
  {
    if current != [] {
      WithoutNothing(current[..|current| - 1], sensor);
      assert current == current[..|current| - 1] + [current[|current| - 1]];
    }
  }

  /** Filtering a concatenation filters each part. */
  lemma WithoutAppend(a: seq<SensorType>, b: seq<SensorType>, sensor: SensorType)
    ensures Without(a + b, sensor) == Without(a, sensor) + Without(b, sensor)
  {
    FilterAppend(a, b, (s: SensorType) => s != sensor);
  }

  /** Dropping the sensor held at index i, and nowhere else, leaves the entries
      before it and after it, in their original order. */
  lemma WithoutAt(current: seq<SensorType>, sensor: SensorType, i: int)
    requires 0 <= i < |current| && current[i] == sensor
    requires sensor !in current[..i] && sensor !in current[i + 1..]
    ensures Without(current, sensor) == current[..i] + current[i + 1..]
  {
    var before := current[..i];
    var after := current[i + 1..];
    assert current == (before + [sensor]) + after;
    WithoutAppend(before + [sensor], after, sensor);
    WithoutAppend(before, [sensor], sensor);
    WithoutNothing(before, sensor);
    WithoutNothing(after, sensor);
    assert Without([sensor], sensor) == [] by {
      assert [sensor][..0] == [];
    }
  }

  /** Toggling never empties a non-empty, duplicate-free sensor list, and keeps it
      duplicate-free. */
  lemma ToggleKeepsSensors(current: seq<SensorType>, sensor: SensorType)
    requires current != [] && NoDuplicates(current)
    ensures SensorsAfterToggle(current, sensor) != []
    ensures NoDuplicates(SensorsAfterToggle(current, sensor))
  {
    if sensor in current && |current| > 1 {
      WithoutOne(current, sensor);
    }
  }

  /** Dropping a sensor removes every occurrence and keeps every other sensor; in a
      duplicate-free list the others stay in their original order. Adding a sensor
      appends it at the end, and the last remaining sensor cannot be dropped. */
  lemma ToggleEffect(current: seq<SensorType>, sensor: SensorType)
    ensures sensor !in current ==> SensorsAfterToggle(current, sensor) == current + [sensor]
    ensures sensor in current && |current| > 1 ==>
      sensor !in SensorsAfterToggle(current, sensor) &&
      forall s :: s in current && s != sensor ==> s in SensorsAfterToggle(current, sensor)
    ensures sensor in current && |current| <= 1 ==> SensorsAfterToggle(current, sensor) == current
    ensures forall i :: NoDuplicates(current) && 0 <= i < |current| && current[i] == sensor && |current| > 1 ==>
      SensorsAfterToggle(current, sensor) == current[..i] + current[i + 1..]
  {
    forall i | NoDuplicates(current) && 0 <= i < |current| && current[i] == sensor && |current| > 1
      ensures SensorsAfterToggle(current, sensor) == current[..i] + current[i + 1..]
    {
      assert sensor !in current[..i] && sensor !in current[i + 1..] by {
        forall j | 0 <= j < |current| && j != i
          ensures current[j] != sensor
        {
          if j < i { assert current[j] != current[i]; } else { assert current[i] != current[j]; }
        }
      }
      WithoutAt(current, sensor, i);
    }
    if sensor in current && |current| > 1 {
      var r := Without(current, sensor);
      forall s | s in current && s != sensor
        ensures s in r
      {
        var i :| 0 <= i < |current| && current[i] == s;
      }
    }
  }

  /** Adding a sensor and toggling it again restores the list. */
  lemma {:induction false} ToggleTwiceRestores(current: seq<SensorType>, sensor: SensorType)
    requires current != [] && sensor !in current
    ensures SensorsAfterToggle(SensorsAfterToggle(current, sensor), sensor) == current
  {
    var added := current + [sensor];
    assert added[..|added| - 1] == current;
    WithoutNothing(current, sensor);
  }

  /** An absent list toggles as if it were `['RGB']`. */
  lemma AbsentSensorsDefault(sensor: SensorType)
    ensures ToggledSensors(None, sensor) == (if sensor == RGB then None else Some([RGB, sensor]))
  {
    assert sensor in [RGB] <==> sensor == RGB;
    assert [RGB] + [sensor] == [RGB, sensor];
  }

  /** Duplicate-freedom is needed: a list holding the same sensor twice is emptied
      by one toggle. */
  lemma DuplicatesCanEmpty()
    ensures SensorsAfterToggle([RGB, RGB], RGB) == []
  {
    assert [RGB, RGB][..1] == [RGB];
    assert [RGB][..0] == [];
  }

  /** `toggleSensor`: calls `setSensors` with the toggled list, if any. */
  method ToggleSensor(store: Store.MissionStore, sensor: SensorType)
    modifies store
    ensures store.missionConfig == old(store.missionConfig).(sensors := SensorsAfterToggle(old(store.missionConfig.sensors), sensor))
    ensures store.missions == old(store.missions) && store.currentMission == old(store.currentMission)
    ensures store.drawnPolygon == old(store.drawnPolygon) && store.generatedPath == old(store.generatedPath)
  {
    var next := ToggledSensors(Some(store.missionConfig.sensors), sensor);
    if next.Some? {
      store.SetSensors(next.value);
    }
  }

  /** What pressing "start" does. */
  datatype StartOutcome = AlertSelectDrone | AlertDrawArea | Started

  /** `handleStartMission`: an empty or absent drone id, then a missing or too-short
      path, each stop with an alert; otherwise the mission starts. The mission starts
      exactly when a drone is selected and a path of at least two points exists, and
      the drone check comes first. */
  function HandleStartMission(selectedDroneId: Option<string>, generatedPath: Option<seq<Position>>): (r: StartOutcome)
    ensures r == Started <==>
      selectedDroneId.Some? && selectedDroneId.value != "" &&
      generatedPath.Some? && |generatedPath.value| >= 2
    ensures r == AlertSelectDrone <==> selectedDroneId.None? || selectedDroneId.value == ""
  {
    if selectedDroneId.None? || selectedDroneId.value == "" then AlertSelectDrone
    else if generatedPath.None? || |generatedPath.value| < 2 then AlertDrawArea
    else Started
  }
}
