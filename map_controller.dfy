/** The drawing and display rules of the map view (src/components/MapController.tsx):
    the click accumulator of polygon drawing, finishing and cancelling a drawing,
    the thinned-out waypoint markers and the survey-polygon layer. The map library
    itself is not modelled; what the component hands to it is returned as a value. */
module MapController {
  import opened Types
  import opened Geometry
  import Store

  /** The component's drawing state: the clicked points so far, whether the map
      exists yet, and the UI store that holds the drawing-mode flag. */
  class MapController {
    var drawingPoints: seq<Position>
    var mapReady: bool
    const ui: Store.UIStore

    constructor(ui: Store.UIStore)
      ensures drawingPoints == [] && !mapReady && this.ui == ui
    {
      drawingPoints := [];
      mapReady := false;
      this.ui := ui;
    }

    /** The map has been created. */
    method MapLoaded()
      modifies this
      ensures mapReady && drawingPoints == old(drawingPoints)
    {
      mapReady := true;
    }

    /** `handleMapClick`: in drawing mode with a map, the clicked coordinate is
        appended; otherwise nothing changes. */
    method HandleMapClick(lngLat: Position)
      modifies this
      ensures mapReady == old(mapReady)
      ensures drawingPoints ==
        if ui.isDrawingMode && mapReady then old(drawingPoints) + [lngLat] else old(drawingPoints)
    {
      if !ui.isDrawingMode || !mapReady {
        return;
      }
      drawingPoints := drawingPoints + [lngLat];
    }

    /** `completeDrawing`: with at least three points, hands them to `onPolygonDrawn`
        (the returned value), empties the points and leaves drawing mode; with fewer,
        does nothing. */
    method CompleteDrawing() returns (polygonDrawn: Option<seq<Position>>)
      modifies this, ui
      ensures mapReady == old(mapReady)
      ensures |old(drawingPoints)| < 3 ==>
        polygonDrawn == None && drawingPoints == old(drawingPoints) && ui.isDrawingMode == old(ui.isDrawingMode)
      ensures |old(drawingPoints)| >= 3 ==>
        polygonDrawn == Some(old(drawingPoints)) && drawingPoints == [] && !ui.isDrawingMode
      ensures ui.isSidebarOpen == old(ui.isSidebarOpen) && ui.activeTab == old(ui.activeTab)
      ensures ui.isAlertModalOpen == old(ui.isAlertModalOpen) && ui.alertMessage == old(ui.alertMessage)
    {
      if |drawingPoints| < 3 {
        return None;
      }
      polygonDrawn := Some(drawingPoints);
      drawingPoints := [];
      ui.SetDrawingMode(false);
    }

    /** `cancelDrawing`: empties the points and leaves drawing mode. */
    method CancelDrawing()
      modifies this, ui
      ensures drawingPoints == [] && !ui.isDrawingMode && mapReady == old(mapReady)
      ensures ui.isSidebarOpen == old(ui.isSidebarOpen) && ui.activeTab == old(ui.activeTab)
      ensures ui.isAlertModalOpen == old(ui.isAlertModalOpen) && ui.alertMessage == old(ui.alertMessage)
    {
      drawingPoints := [];
      ui.SetDrawingMode(false);
    }
  }

  // ============ Waypoint markers ============

  /** Most waypoint markers shown before thinning starts. */
  const MarkerBudget: nat := 30

  /** `Math.max(1, Math.floor(n / 30))`. */
  function SampleStep(n: nat): (r: nat)
    ensures r >= 1
    ensures n < 2 * MarkerBudget ==> r == 1
  {
    if n / MarkerBudget > 1 then n / MarkerBudget else 1
  }

  /** The filter condition `i % step === 0 || i === 0 || i === n - 1`. */
  predicate Kept(i: nat, n: nat, step: nat)
    requires step >= 1
  {
    i % step == 0 || i == 0 || i == n - 1
  }

  /** The kept indices below k, in increasing order. */
  function KeptIndices(n: nat, step: nat, k: nat): (r: seq<nat>)
    requires step >= 1
    ensures |r| <= k
  {
    if k == 0 then []
    else KeptIndices(n, step, k - 1) + (if Kept(k - 1, n, step) then [k - 1] else [])
  }

  lemma {:induction false} KeptIndicesExact(n: nat, step: nat, k: nat)
    requires step >= 1
    ensures forall j :: 0 <= j < |KeptIndices(n, step, k)| ==> KeptIndices(n, step, k)[j] < k
    ensures forall i: nat :: i < k && Kept(i, n, step) <==> i in KeptIndices(n, step, k)
    ensures forall a, b :: 0 <= a < b < |KeptIndices(n, step, k)| ==> KeptIndices(n, step, k)[a] < KeptIndices(n, step, k)[b]
  {
    if k > 0 {
      KeptIndicesExact(n, step, k - 1);
    }
  }

  /** The waypoints that get a marker: the path filtered by index, so there are
      never more markers than waypoints. */
  function DisplayedWaypoints(path: seq<Position>): (r: seq<Position>)
    ensures |r| <= |path|
  {
    var indices := KeptIndices(|path|, SampleStep(|path|), |path|);
    KeptIndicesExact(|path|, SampleStep(|path|), |path|);
    seq(|indices|, j requires 0 <= j < |indices| => path[indices[j]])
  }

  /** The markers are the path points at exactly the kept indices, in path order; a
      non-empty path always shows its first and last point, and a path of fewer than
      60 points is shown whole. */
  lemma DisplayedWaypointsExact(path: seq<Position>)
    ensures var indices := KeptIndices(|path|, SampleStep(|path|), |path|);
      |DisplayedWaypoints(path)| == |indices| &&
      (forall j :: 0 <= j < |indices| ==> indices[j] < |path| && DisplayedWaypoints(path)[j] == path[indices[j]]) &&
      (forall i: nat :: i < |path| && Kept(i, |path|, SampleStep(|path|)) <==> i in indices) &&
      (forall a, b :: 0 <= a < b < |indices| ==> indices[a] < indices[b])
    ensures |path| > 0 ==>
      |DisplayedWaypoints(path)| > 0 &&
      DisplayedWaypoints(path)[0] == path[0] &&
      DisplayedWaypoints(path)[|DisplayedWaypoints(path)| - 1] == path[|path| - 1]
    ensures |path| < 2 * MarkerBudget ==> DisplayedWaypoints(path) == path
  {
    var n := |path|;
    var step := SampleStep(n);
    var indices := KeptIndices(n, step, n);
    KeptIndicesExact(n, step, n);
    if n > 0 {
      assert Kept(0, n, step);
      assert 0 in indices;
      assert indices[0] == 0 by {
        var j :| 0 <= j < |indices| && indices[j] == 0;
      }
      assert Kept(n - 1, n, step);
      assert n - 1 in indices;
      assert indices[|indices| - 1] == n - 1 by {
        var j :| 0 <= j < |indices| && indices[j] == n - 1;
      }
    }
    if n < 2 * MarkerBudget {
      AllKept(n, n);
      assert forall i :: 0 <= i < n ==> DisplayedWaypoints(path)[i] == path[i];
    }
  }

  /** With step 1 every index is kept. */
  lemma {:induction false} AllKept(n: nat, k: nat)
    ensures KeptIndices(n, 1, k) == seq(k, i requires 0 <= i < k => i as nat)
  {
    if k > 0 {
      AllKept(n, k - 1);
      assert Kept(k - 1, n, 1);
    }
  }

  // ============ Survey polygon layer ============

  /** What the survey-polygon layer shows: a polygon whose one ring is the drawn
      points closed by the first one, when there are at least three; otherwise
      nothing (None stands for the empty feature collection). */
  function SurveyLayer(drawnPolygon: Option<seq<Position>>): (r: Option<seq<seq<Position>>>)
    ensures r.Some? <==> drawnPolygon.Some? && |drawnPolygon.value| >= 3
    ensures r.Some? ==>
      var points := drawnPolygon.value;
      |r.value| == 1 && |r.value[0]| == |points| + 1 && r.value[0][..|points|] == points &&
      r.value[0][|points|] == points[0]
  {
    if drawnPolygon.Some? && |drawnPolygon.value| >= 3 then Some([CloseRing(drawnPolygon.value)])
    else None
  }
}
