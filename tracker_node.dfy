// UnimodalObjectTrackerNode: the registry of per-object trackers, updated
// in place by the detection callback, the camera-info callback, the
// per-object reconfigure callback and the startup registration loop. Each
// method is specified by the pure definitions in object_tracking.dfy.
module UnimodalObjectTracker {
  import opened Linear
  import opened ObjectTracking

  /**
   * The value of a default-constructed filter or Eigen matrix. Eigen leaves
   * fixed-size matrices uninitialised; the model picks zero. Every such value
   * is overwritten during registration before anything reads it.
   */
  function DefaultFilter(): (f: KalmanFilter)
    ensures f.ops == [] && IsVector4(f.initialState) && IsMatrix4(f.initialCov)
  {
    KalmanFilter(ZeroVector(), ScaledIdentity(0.0), [])
  }

  /**
   * One step of the registration loop: the placeholder entry, the
   * reconfigure server's first update and the filter reset together install
   * the registered entry.
   */
  lemma RegisterOne(names: NameMap, t: Registry, o: ObjectConfig, placeholder: TrackerStorage, immediateTracking: bool)
    requires placeholder.tracked == immediateTracking && placeholder.name == o.name
    requires placeholder.idealRadius == o.idealRadius
    ensures var names1 := names[o.name := ObjectKey(o)];
            var t1 := t[ObjectKey(o) := placeholder];
            var r := UpdateParams(names1, t1, o.params, o.name);
            && r.Updated?
            && ObjectKey(o) in r.trackers
            && r.trackers[ObjectKey(o) := r.trackers[ObjectKey(o)].(filter := NewFilter(r.trackers[ObjectKey(o)].initialCov))]
               == t[ObjectKey(o) := RegisteredEntry(o, immediateTracking)]
  {
  }

  class UnimodalObjectTrackerNode {
    var depthMethod: string
    var nameSizeColorMap: NameMap
    var trackers: Registry
    var lastCameraInfo: CameraInfo
    var cameraModelInitialized: bool

    /** Every registered object name resolves to a registered tracker. */
    ghost predicate Valid()
      reads this
    {
      NamesResolve(nameSizeColorMap, trackers)
    }

    constructor ()
      ensures Valid()
      ensures depthMethod == "" && nameSizeColorMap == map[] && trackers == map[]
      ensures lastCameraInfo == CameraInfo("", []) && !cameraModelInitialized
    {
      depthMethod := "";
      nameSizeColorMap := map[];
      trackers := map[];
      lastCameraInfo := CameraInfo("", []);
      cameraModelInitialized := false;
    }

    /**
     * matchedShapeCallback. The subscription is made at the start of
     * spinFirst, before the depth method is loaded; callbacks are taken to
     * be dispatched only after spinFirst has returned (single-threaded
     * spinning), by which time the depth method has been forced to
     * "monocular", so the reprojection branch is always taken.
     */
    method MatchedShapeCallback(msg: MatchedShapeArray, reproject: Reprojector) returns (outcome: BatchOutcome)
      requires Valid() && depthMethod == "monocular"
      modifies this
      ensures Valid()
      ensures (trackers, outcome) == Ingest(old(trackers), msg, cameraModelInitialized, lastCameraInfo, reproject)
      ensures OnlyFiltersAdvanced(old(trackers), trackers)
      ensures nameSizeColorMap == old(nameSizeColorMap) && depthMethod == old(depthMethod)
      ensures lastCameraInfo == old(lastCameraInfo) && cameraModelInitialized == old(cameraModelInitialized)
    {
      IngestOnlyAdvancesFilters(trackers, msg, cameraModelInitialized, lastCameraInfo, reproject);
      if msg.frameId != lastCameraInfo.frameId {
        // "Matched shape frame does not match camera frame. Discarding message..."
        return FrameMismatch;
      }
      var i := 0;
      while i < |msg.shapes|
        invariant 0 <= i <= |msg.shapes|
        invariant IngestShapes(trackers, msg.shapes[i..], cameraModelInitialized, lastCameraInfo, reproject)
               == IngestShapes(old(trackers), msg.shapes, cameraModelInitialized, lastCameraInfo, reproject)
        invariant nameSizeColorMap == old(nameSizeColorMap) && depthMethod == old(depthMethod)
        invariant lastCameraInfo == old(lastCameraInfo) && cameraModelInitialized == old(cameraModelInitialized)
      {
        var shape := msg.shapes[i];
        var attr := AttributeKey(shape.shapeType, shape.color);
        // Skip objects we do not have or are not tracking.
        if attr !in trackers || !trackers[attr].tracked {
          i := i + 1;
          continue;
        }
        var storage := trackers[attr];
        if !cameraModelInitialized {
          // "Camera model is not ready."
          return CameraNotReady;
        }
        var cameraToObject := reproject(lastCameraInfo, shape.x, shape.y, shape.scale, storage.idealRadius);
        // Predict no change, with the configured process noise.
        storage := storage.(filter := PredictStep(storage.filter, ZeroVector(), storage.controlCov));
        var updateMean := MeasurementMean(cameraToObject, shape.theta);
        var updateCov := RowMajor(shape.covariance);
        storage := storage.(filter := UpdateStep(storage.filter, updateMean, updateCov));
        trackers := trackers[attr := storage];
        i := i + 1;
      }
      outcome := Processed;
    }

    /** cameraInfoCallback: cache the camera info and build the camera model from it. */
    method CameraInfoCallback(msg: CameraInfo)
      modifies this
      ensures lastCameraInfo == msg && cameraModelInitialized
      ensures trackers == old(trackers) && nameSizeColorMap == old(nameSizeColorMap)
      ensures depthMethod == old(depthMethod)
    {
      lastCameraInfo := msg;
      cameraModelInitialized := true;
    }

    /**
     * updateTrackerParams: `ok` is false where `.at` throws
     * std::out_of_range, in which case nothing has been written.
     */
    method UpdateTrackerParams(config: TrackedObjectConfig, name: string) returns (ok: bool)
      requires Valid()
      modifies this
      ensures Valid()
      ensures ok == UpdateParams(old(nameSizeColorMap), old(trackers), config, name).Updated?
      ensures ok ==> trackers == UpdateParams(old(nameSizeColorMap), old(trackers), config, name).trackers
      ensures !ok ==> trackers == old(trackers)
      ensures nameSizeColorMap == old(nameSizeColorMap) && depthMethod == old(depthMethod)
      ensures lastCameraInfo == old(lastCameraInfo) && cameraModelInitialized == old(cameraModelInitialized)
    {
      var controlCov := ScaledIdentity(config.predictVariance);
      var initialCov := ScaledIdentity(config.initialVariance);
      if name !in nameSizeColorMap || nameSizeColorMap[name] !in trackers {
        return false;
      }
      var key := nameSizeColorMap[name];
      trackers := trackers[key := trackers[key].(controlCov := controlCov)];
      trackers := trackers[key := trackers[key].(initialCov := initialCov)];
      ok := true;
    }

    /**
     * The registration part of spinFirst. `objects` is the object list of
     * the parameter server in its iteration order; each object's reconfigure
     * server delivers `params` once, synchronously, when it is set up.
     */
    method SpinFirst(immediateTracking: bool, depthMethodParam: string, objects: seq<ObjectConfig>)
      requires Valid()
      modifies this
      ensures Valid()
      ensures depthMethod == NormalizeDepthMethod(depthMethodParam)
      ensures (nameSizeColorMap, trackers) == RegisterAll(old(nameSizeColorMap), old(trackers), objects, immediateTracking)
      ensures lastCameraInfo == old(lastCameraInfo) && cameraModelInitialized == old(cameraModelInitialized)
    {
      depthMethod := depthMethodParam;
      if depthMethod != "monocular" {
        // "only monocular method is supported. Switching..."
        depthMethod := "monocular";
      }
      for i := 0 to |objects|
        invariant Valid()
        invariant depthMethod == NormalizeDepthMethod(depthMethodParam)
        invariant (nameSizeColorMap, trackers) == RegisterAll(old(nameSizeColorMap), old(trackers), objects[..i], immediateTracking)
        invariant lastCameraInfo == old(lastCameraInfo) && cameraModelInitialized == old(cameraModelInitialized)
      {
        var configured := objects[i];
        ghost var (names0, t0) := (nameSizeColorMap, trackers);
        var attr := AttributeKey(configured.shape, configured.color);
        nameSizeColorMap := nameSizeColorMap[configured.name := attr];
        var tracker := TrackerStorage(DefaultFilter(), ScaledIdentity(0.0), ScaledIdentity(0.0),
                                      configured.idealRadius, immediateTracking, configured.name);
        // The entry must exist before the reconfigure callback looks it up.
        trackers := trackers[attr := tracker];
        RegisterOne(names0, t0, configured, tracker, immediateTracking);
        var registered := UpdateTrackerParams(configured.params, configured.name);
        var added := trackers[attr];
        trackers := trackers[attr := added.(filter := NewFilter(added.initialCov))];
        assert objects[..i + 1][..i] == objects[..i];
      }
      assert objects[..|objects|] == objects;
    }

    /**
     * spinOnce: looks up the tracker of every registered name with `.at`
     * and does nothing else yet. Valid() is what keeps each lookup in the
     * registry, so the loop never throws; `visited` records the names
     * looked up.
     */
    method SpinOnce() returns (ghost visited: set<string>)
      requires Valid()
      ensures visited == nameSizeColorMap.Keys
    {
      var pending := nameSizeColorMap.Keys;
      visited := {};
      while pending != {}
        invariant visited + pending == nameSizeColorMap.Keys && visited !! pending
        decreases pending
      {
        var name :| name in pending;
        var storage := trackers[nameSizeColorMap[name]];
        pending := pending - {name};
        visited := visited + {name};
      }
    }
  }

  /**
   * The gate scenario: one object "gate" (shape gate, colour red), tracked
   * from the start, a camera model for frame "cam0", then the same
   * detection once in frame "cam0" and once in frame "cam1". The first batch
   * predicts with the configured noise and updates once; the second is
   * dropped whole, before any predict.
   */
  method GateScenario(reproject: Reprojector, params: TrackedObjectConfig)
    returns (first: BatchOutcome, second: BatchOutcome, opsAfterFirst: seq<FilterOp>, opsAfterSecond: seq<FilterOp>)
    ensures first == Processed && second == FrameMismatch
    ensures |opsAfterFirst| == 2
    ensures opsAfterFirst[0] == Predict(ZeroVector(), ScaledIdentity(params.predictVariance))
    ensures opsAfterFirst[1].Update?
    ensures opsAfterFirst[1].mean == MeasurementMean(reproject(CameraInfo("cam0", []), 320.0, 240.0, 50.0, 0.5), 0.0)
    ensures opsAfterSecond == opsAfterFirst
  {
    var node := new UnimodalObjectTrackerNode();
    var gate := ObjectConfig("gate", "gate", "red", 0.5, params);
    node.SpinFirst(true, "monocular", [gate]);
    RegisterAllEntries(map[], map[], [gate], true, 0);
    assert "gate/red" == ObjectKey(gate);
    node.CameraInfoCallback(CameraInfo("cam0", []));
    var cov: Covariance16 := seq(16, i => if i % 5 == 0 then 0.1 else 0.0);
    var detection := MatchedShape("gate", "red", 320.0, 240.0, 50.0, 0.0, cov);
    ghost var before := node.trackers;
    assert Matches(before, detection);
    IngestAppliesEachMatch(before, [detection], node.lastCameraInfo, reproject);
    first := node.MatchedShapeCallback(MatchedShapeArray("cam0", [detection]), reproject);
    IngestKeepsParameters(before, [detection], node.lastCameraInfo, reproject);
    opsAfterFirst := node.trackers["gate/red"].filter.ops;
    second := node.MatchedShapeCallback(MatchedShapeArray("cam1", [detection]), reproject);
    opsAfterSecond := node.trackers["gate/red"].filter.ops;
  }
}
