// The values of the unimodal object tracker (object_tracking): its
// per-object tracker storage, the detection messages it consumes, and the
// pure definitions of what one detection batch, one parameter update and
// startup registration do to the registry. The node class that performs
// these steps in place is in tracker_node.dfy.
module ObjectTracking {
  import opened Linear

  // ---------------------------------------------------------------------------
  // The filter, as the sequence of operations applied to it
  // ---------------------------------------------------------------------------

  /** One call on a LinearKalmanFilter<4, 4, 4>. */
  datatype FilterOp =
    | Predict(control: Vector, noise: Matrix)
    | Update(mean: Vector, cov: Matrix)

  /**
   * A linear Kalman filter whose transition, control and observation
   * matrices are the identity: its construction-time state and covariance
   * plus every predict/update applied since, in order. The arithmetic those
   * calls perform is not modelled.
   */
  datatype KalmanFilter = KalmanFilter(initialState: Vector, initialCov: Matrix, ops: seq<FilterOp>)

  /** A filter built at state (0, 0, 0, 0) with covariance `cov`. */
  function NewFilter(cov: Matrix): (f: KalmanFilter)
    ensures f.ops == [] && f.initialCov == cov && IsVector4(f.initialState)
    ensures forall i :: 0 <= i < 4 ==> f.initialState[i] == 0.0
  {
    KalmanFilter(ZeroVector(), cov, [])
  }

  function PredictStep(f: KalmanFilter, u: Vector, q: Matrix): (g: KalmanFilter)
    ensures g.initialState == f.initialState && g.initialCov == f.initialCov
    ensures g.ops == f.ops + [Predict(u, q)]
  {
    f.(ops := f.ops + [Predict(u, q)])
  }

  function UpdateStep(f: KalmanFilter, z: Vector, r: Matrix): (g: KalmanFilter)
    ensures g.initialState == f.initialState && g.initialCov == f.initialCov
    ensures g.ops == f.ops + [Update(z, r)]
  {
    f.(ops := f.ops + [Update(z, r)])
  }

  // ---------------------------------------------------------------------------
  // Registry entries and messages
  // ---------------------------------------------------------------------------

  /** ObjectTrackerStorage. */
  datatype TrackerStorage = TrackerStorage(
    filter: KalmanFilter,
    controlCov: Matrix,
    initialCov: Matrix,
    idealRadius: real,
    tracked: bool,
    name: string)

  type Registry = map<string, TrackerStorage>
  type NameMap = map<string, string>

  type Covariance16 = c: seq<real> | |c| == 16 witness seq(16, _ => 0.0)

  /** auv_msgs/MatchedShape: one detection. */
  datatype MatchedShape = MatchedShape(
    shapeType: string, color: string,
    x: real, y: real, scale: real, theta: real,
    covariance: Covariance16)

  /** auv_msgs/MatchedShapeArray: one detection batch. */
  datatype MatchedShapeArray = MatchedShapeArray(frameId: string, shapes: seq<MatchedShape>)

  /** sensor_msgs/CameraInfo: the frame it belongs to, the intrinsics left opaque. */
  datatype CameraInfo = CameraInfo(frameId: string, intrinsics: seq<real>)

  datatype Point3 = Point3(x: real, y: real, z: real)

  /**
   * reprojectObjectTo3d(camera, (x, y), scale, ideal radius): the monocular
   * reprojection, which is outside this model and supplied by the caller.
   */
  type Reprojector = (CameraInfo, real, real, real, real) -> Point3

  /** TrackedObjectConfig: the two variances a reconfigure call delivers. */
  datatype TrackedObjectConfig = TrackedObjectConfig(predictVariance: real, initialVariance: real)

  /**
   * One configured object: its name, its shape/colour/size parameters and
   * the values its reconfigure server starts with.
   */
  datatype ObjectConfig = ObjectConfig(
    name: string, shape: string, color: string, idealRadius: real,
    params: TrackedObjectConfig)

  /** The attribute key of a shape type and a colour. */
  function AttributeKey(shapeType: string, color: string): (key: string)
    ensures |key| == |shapeType| + 1 + |color|
    ensures key[..|shapeType|] == shapeType && key[|shapeType|] == '/'
    ensures key[|shapeType| + 1..] == color
  {
    shapeType + "/" + color
  }

  /** Different shape types without a '/' give different keys. */
  lemma AttributeKeyInjective(s1: string, c1: string, s2: string, c2: string)
    requires '/' !in s1 && '/' !in s2
    requires AttributeKey(s1, c1) == AttributeKey(s2, c2)
    ensures s1 == s2 && c1 == c2
  {
    var k := AttributeKey(s1, c1);
    assert k[|s1|] == '/' && k[|s2|] == '/';
    assert forall i :: 0 <= i < |s1| ==> k[i] == s1[i];
    assert forall i :: 0 <= i < |s2| ==> k[i] == s2[i];
    assert |s1| == |s2|;
    assert s1 == k[..|s1|] == s2;
  }

  function ShapeKey(s: MatchedShape): string {
    AttributeKey(s.shapeType, s.color)
  }

  /** A detection is applied only when its key is registered and that entry is tracked. */
  predicate Matches(t: Registry, s: MatchedShape) {
    ShapeKey(s) in t && t[ShapeKey(s)].tracked
  }

  // ---------------------------------------------------------------------------
  // Ingest: matchedShapeCallback
  // ---------------------------------------------------------------------------

  /** The measurement mean: the reprojected position with theta passed through. */
  function MeasurementMean(p: Point3, theta: real): (z: Vector)
    ensures IsVector4(z)
    ensures z[0] == p.x && z[1] == p.y && z[2] == p.z && z[3] == theta
  {
    [p.x, p.y, p.z, theta]
  }

  /** The two filter calls one matched detection causes on its entry `e`. */
  function DetectionOps(e: TrackerStorage, s: MatchedShape, camera: CameraInfo, reproject: Reprojector): seq<FilterOp> {
    [ Predict(ZeroVector(), e.controlCov),
      Update(MeasurementMean(reproject(camera, s.x, s.y, s.scale, e.idealRadius), s.theta),
             RowMajor(s.covariance)) ]
  }

  /** Predict with zero control and the entry's noise, then update with the detection. */
  function ApplyDetection(e: TrackerStorage, s: MatchedShape, camera: CameraInfo, reproject: Reprojector): (e': TrackerStorage)
    ensures e'.filter.ops == e.filter.ops + DetectionOps(e, s, camera, reproject)
    ensures e' == e.(filter := e'.filter)
    ensures e'.filter.initialState == e.filter.initialState && e'.filter.initialCov == e.filter.initialCov
  {
    var p := reproject(camera, s.x, s.y, s.scale, e.idealRadius);
    var predicted := PredictStep(e.filter, ZeroVector(), e.controlCov);
    e.(filter := UpdateStep(predicted, MeasurementMean(p, s.theta), RowMajor(s.covariance)))
  }

  /** How a batch ends: rejected by the frame check, cut short by the camera check, or run through. */
  datatype BatchOutcome = FrameMismatch | CameraNotReady | Processed

  /**
   * The loop over a batch's detections: unmatched detections are skipped; at
   * a matched one the callback returns if the camera model is not ready, and
   * otherwise applies the detection to its entry.
   */
  function IngestShapes(t: Registry, shapes: seq<MatchedShape>, cameraReady: bool,
                        camera: CameraInfo, reproject: Reprojector): (r: (Registry, BatchOutcome))
    ensures r.0.Keys == t.Keys
    ensures r.1 != FrameMismatch
    ensures r.1 == CameraNotReady ==> !cameraReady && r.0 == t
    decreases |shapes|
  {
    if shapes == [] then (t, Processed)
    else
      var s := shapes[0];
      if !Matches(t, s) then IngestShapes(t, shapes[1..], cameraReady, camera, reproject)
      else if !cameraReady then (t, CameraNotReady)
      else
        var key := ShapeKey(s);
        IngestShapes(t[key := ApplyDetection(t[key], s, camera, reproject)], shapes[1..], cameraReady, camera, reproject)
  }

  /** matchedShapeCallback: the frame check on the whole batch, then the loop. */
  function Ingest(t: Registry, msg: MatchedShapeArray, cameraReady: bool,
                  camera: CameraInfo, reproject: Reprojector): (r: (Registry, BatchOutcome))
    ensures r.0.Keys == t.Keys
    ensures r.1 == FrameMismatch <==> msg.frameId != camera.frameId
    ensures r.1 == FrameMismatch ==> r.0 == t
  {
    if msg.frameId != camera.frameId then (t, FrameMismatch)
    else IngestShapes(t, msg.shapes, cameraReady, camera, reproject)
  }

  /**
   * Per-entry reference for a batch: the filter calls the batch's detections
   * cause on the entry registered under `key`, in batch order.
   */
  function OpsFor(key: string, e: TrackerStorage, shapes: seq<MatchedShape>,
                  camera: CameraInfo, reproject: Reprojector): seq<FilterOp>
    decreases |shapes|
  {
    if shapes == [] then []
    else
      (if ShapeKey(shapes[0]) == key && e.tracked then DetectionOps(e, shapes[0], camera, reproject) else [])
      + OpsFor(key, e, shapes[1..], camera, reproject)
  }

  /** Only the filter's operation log differs between two registries. */
  ghost predicate OnlyFiltersAdvanced(t: Registry, t': Registry) {
    && t'.Keys == t.Keys
    && forall k :: k in t ==>
         && t'[k].controlCov == t[k].controlCov
         && t'[k].initialCov == t[k].initialCov
         && t'[k].idealRadius == t[k].idealRadius
         && t'[k].tracked == t[k].tracked
         && t'[k].name == t[k].name
         && t'[k].filter.initialState == t[k].filter.initialState
         && t'[k].filter.initialCov == t[k].filter.initialCov
  }

  /** The detection ops of an entry depend only on its parameters, not on its filter. */
  lemma {:induction false} OpsForIgnoresFilter(key: string, e1: TrackerStorage, e2: TrackerStorage,
                                               shapes: seq<MatchedShape>, camera: CameraInfo, reproject: Reprojector)
    requires e1.controlCov == e2.controlCov && e1.idealRadius == e2.idealRadius && e1.tracked == e2.tracked
    ensures OpsFor(key, e1, shapes, camera, reproject) == OpsFor(key, e2, shapes, camera, reproject)
    decreases |shapes|
  {
    if shapes != [] {
      OpsForIgnoresFilter(key, e1, e2, shapes[1..], camera, reproject);
    }
  }

  /** One step of the loop with the camera ready: the registry after the first detection. */
  function AfterFirst(t: Registry, s: MatchedShape, camera: CameraInfo, reproject: Reprojector): Registry {
    if Matches(t, s) then t[ShapeKey(s) := ApplyDetection(t[ShapeKey(s)], s, camera, reproject)] else t
  }

  lemma IngestStep(t: Registry, shapes: seq<MatchedShape>, camera: CameraInfo, reproject: Reprojector)
    requires shapes != []
    ensures IngestShapes(t, shapes, true, camera, reproject)
         == IngestShapes(AfterFirst(t, shapes[0], camera, reproject), shapes[1..], true, camera, reproject)
  {
  }

  /**
   * With the camera ready, a batch runs to the end, and every entry keeps
   * its key, its parameters and its filter's construction values.
   */
  lemma {:induction false} IngestKeepsParameters(t: Registry, shapes: seq<MatchedShape>,
                                                 camera: CameraInfo, reproject: Reprojector)
    ensures IngestShapes(t, shapes, true, camera, reproject).1 == Processed
    ensures OnlyFiltersAdvanced(t, IngestShapes(t, shapes, true, camera, reproject).0)
    decreases |shapes|
  {
    if shapes != [] {
      var t1 := AfterFirst(t, shapes[0], camera, reproject);
      IngestStep(t, shapes, camera, reproject);
      IngestKeepsParameters(t1, shapes[1..], camera, reproject);
      assert OnlyFiltersAdvanced(t, t1);
    }
  }

  /** The call log of one entry after a batch with the camera ready. */
  lemma {:induction false} IngestAppliesMatchesAt(t: Registry, shapes: seq<MatchedShape>,
                                                  camera: CameraInfo, reproject: Reprojector, k: string)
    requires k in t
    ensures k in IngestShapes(t, shapes, true, camera, reproject).0
    ensures IngestShapes(t, shapes, true, camera, reproject).0[k].filter.ops
              == t[k].filter.ops + OpsFor(k, t[k], shapes, camera, reproject)
    decreases |shapes|
  {
    if shapes != [] {
      var t1 := AfterFirst(t, shapes[0], camera, reproject);
      IngestStep(t, shapes, camera, reproject);
      IngestAppliesMatchesAt(t1, shapes[1..], camera, reproject, k);
      OpsForIgnoresFilter(k, t1[k], t[k], shapes[1..], camera, reproject);
      var head := if ShapeKey(shapes[0]) == k && t[k].tracked then DetectionOps(t[k], shapes[0], camera, reproject) else [];
      assert t1[k].filter.ops == t[k].filter.ops + head;
      assert OpsFor(k, t[k], shapes, camera, reproject) == head + OpsFor(k, t[k], shapes[1..], camera, reproject);
    }
  }

  /**
   * With the camera ready, every entry's filter receives exactly one predict
   * and one update per matching tracked detection, in batch order, and
   * nothing else.
   */
  lemma IngestAppliesEachMatch(t: Registry, shapes: seq<MatchedShape>,
                               camera: CameraInfo, reproject: Reprojector)
    ensures IngestShapes(t, shapes, true, camera, reproject).0.Keys == t.Keys
    ensures forall k :: k in t ==>
              IngestShapes(t, shapes, true, camera, reproject).0[k].filter.ops
                == t[k].filter.ops + OpsFor(k, t[k], shapes, camera, reproject)
  {
    forall k | k in t
      ensures IngestShapes(t, shapes, true, camera, reproject).0[k].filter.ops
                == t[k].filter.ops + OpsFor(k, t[k], shapes, camera, reproject)
    {
      IngestAppliesMatchesAt(t, shapes, camera, reproject, k);
    }
  }

  /** Some detection of the batch matches a tracked entry. */
  ghost predicate AnyMatch(t: Registry, shapes: seq<MatchedShape>) {
    exists i :: 0 <= i < |shapes| && Matches(t, shapes[i])
  }

  /**
   * With the camera model not ready, a batch changes no entry; the callback
   * returns early exactly when some detection matches a tracked entry.
   */
  lemma {:induction false} IngestCameraNotReady(t: Registry, shapes: seq<MatchedShape>,
                                                camera: CameraInfo, reproject: Reprojector)
    ensures IngestShapes(t, shapes, false, camera, reproject).0 == t
    ensures IngestShapes(t, shapes, false, camera, reproject).1 == (if AnyMatch(t, shapes) then CameraNotReady else Processed)
    decreases |shapes|
  {
    if shapes != [] {
      if !Matches(t, shapes[0]) {
        IngestCameraNotReady(t, shapes[1..], camera, reproject);
        if AnyMatch(t, shapes) {
          var i :| 0 <= i < |shapes| && Matches(t, shapes[i]);
          assert shapes[1..][i - 1] == shapes[i];
        }
        if AnyMatch(t, shapes[1..]) {
          var i :| 0 <= i < |shapes[1..]| && Matches(t, shapes[1..][i]);
          assert shapes[i + 1] == shapes[1..][i];
        }
      } else {
        assert Matches(t, shapes[0]);
      }
    }
  }

  /** Applying a detection keeps every entry's key and tracked flag, hence every match. */
  lemma ApplyKeepsMatches(t: Registry, key: string, s: MatchedShape, camera: CameraInfo, reproject: Reprojector, s': MatchedShape)
    requires key in t
    ensures Matches(t[key := ApplyDetection(t[key], s, camera, reproject)], s') == Matches(t, s')
  {
  }

  /**
   * A detection whose key is unknown or untracked has no effect: the batch
   * with it behaves exactly like the batch without it.
   */
  lemma {:induction false} UnmatchedDetectionIsSkipped(t: Registry, a: seq<MatchedShape>, s: MatchedShape,
                                                       b: seq<MatchedShape>, cameraReady: bool,
                                                       camera: CameraInfo, reproject: Reprojector)
    requires !Matches(t, s)
    ensures IngestShapes(t, a + [s] + b, cameraReady, camera, reproject)
         == IngestShapes(t, a + b, cameraReady, camera, reproject)
    decreases |a|
  {
    if a == [] {
      assert a + [s] + b == [s] + b;
      assert ([s] + b)[1..] == b;
      assert a + b == b;
    } else {
      var x := a[0];
      assert (a + [s] + b)[0] == x && (a + b)[0] == x;
      assert (a + [s] + b)[1..] == a[1..] + [s] + b;
      assert (a + b)[1..] == a[1..] + b;
      if Matches(t, x) && cameraReady {
        var key := ShapeKey(x);
        var t1 := t[key := ApplyDetection(t[key], x, camera, reproject)];
        ApplyKeepsMatches(t, key, x, camera, reproject, s);
        UnmatchedDetectionIsSkipped(t1, a[1..], s, b, cameraReady, camera, reproject);
      } else if !Matches(t, x) {
        UnmatchedDetectionIsSkipped(t, a[1..], s, b, cameraReady, camera, reproject);
      }
    }
  }

  /** A batch from another frame than the cached camera info changes nothing. */
  lemma FrameMismatchChangesNothing(t: Registry, msg: MatchedShapeArray, cameraReady: bool,
                                    camera: CameraInfo, reproject: Reprojector)
    requires msg.frameId != camera.frameId
    ensures Ingest(t, msg, cameraReady, camera, reproject) == (t, FrameMismatch)
  {
  }

  /** Ingest never adds or removes an entry and only advances filters. */
  lemma {:induction false} IngestOnlyAdvancesFilters(t: Registry, msg: MatchedShapeArray, cameraReady: bool,
                                                     camera: CameraInfo, reproject: Reprojector)
    ensures OnlyFiltersAdvanced(t, Ingest(t, msg, cameraReady, camera, reproject).0)
  {
    if msg.frameId == camera.frameId {
      if cameraReady {
        IngestKeepsParameters(t, msg.shapes, camera, reproject);
      } else {
        IngestCameraNotReady(t, msg.shapes, camera, reproject);
      }
    }
  }

  // ---------------------------------------------------------------------------
  // Parameter update: updateTrackerParams
  // ---------------------------------------------------------------------------

  /** Either the updated registry, or the std::out_of_range thrown by `.at`. */
  datatype ParamsResult = Updated(trackers: Registry) | OutOfRange

  /**
   * updateTrackerParams: resolve `name` to its key, then replace that entry's
   * two noise matrices with the configured variances times the identity.
   */
  function UpdateParams(names: NameMap, t: Registry, config: TrackedObjectConfig, name: string): (r: ParamsResult)
    ensures r.Updated? <==> name in names && names[name] in t
    ensures r.Updated? ==> r.trackers.Keys == t.Keys
  {
    if name !in names || names[name] !in t then OutOfRange
    else
      var key := names[name];
      Updated(t[key := t[key].(controlCov := ScaledIdentity(config.predictVariance),
                               initialCov := ScaledIdentity(config.initialVariance))])
  }

  /**
   * A parameter update changes only the two noise matrices of one entry: its
   * filter, flag, radius and name and every other entry stay as they were.
   */
  lemma UpdateParamsTouchesOneEntry(names: NameMap, t: Registry, config: TrackedObjectConfig, name: string)
    requires name in names && names[name] in t
    ensures var r := UpdateParams(names, t, config, name).trackers;
            var key := names[name];
            && r.Keys == t.Keys
            && (forall k :: k in t && k != key ==> r[k] == t[k])
            && r[key].filter == t[key].filter
            && r[key].tracked == t[key].tracked
            && r[key].idealRadius == t[key].idealRadius
            && r[key].name == t[key].name
            && r[key].controlCov == ScaledIdentity(config.predictVariance)
            && r[key].initialCov == ScaledIdentity(config.initialVariance)
  {
  }

  /**
   * After a parameter update, the next matching detection predicts with the
   * new process noise: the update takes effect at the very next predict.
   */
  lemma {:induction false} UpdatedNoiseFeedsNextPredict(names: NameMap, t: Registry, config: TrackedObjectConfig,
                                                        name: string, s: MatchedShape,
                                                        camera: CameraInfo, reproject: Reprojector)
    requires name in names && names[name] in t
    requires ShapeKey(s) == names[name] && t[names[name]].tracked
    ensures var r := UpdateParams(names, t, config, name).trackers;
            var key := names[name];
            var after := IngestShapes(r, [s], true, camera, reproject).0;
            && key in after
            && after[key].filter.ops == t[key].filter.ops + [
                 Predict(ZeroVector(), ScaledIdentity(config.predictVariance)),
                 Update(MeasurementMean(reproject(camera, s.x, s.y, s.scale, t[key].idealRadius), s.theta),
                        RowMajor(s.covariance))]
  {
    var r := UpdateParams(names, t, config, name).trackers;
    var key := names[name];
    IngestAppliesEachMatch(r, [s], camera, reproject);
    assert [s][1..] == [];
    assert OpsFor(key, r[key], [s], camera, reproject) == DetectionOps(r[key], s, camera, reproject);
  }

  // ---------------------------------------------------------------------------
  // Startup: the object registration loop of spinFirst
  // ---------------------------------------------------------------------------

  /** "monocular" is the only depth method; anything else is replaced by it. */
  function NormalizeDepthMethod(m: string): (r: string)
    ensures r == "monocular"
    ensures m == "monocular" ==> r == m
  {
    if m != "monocular" then "monocular" else m
  }

  function ObjectKey(o: ObjectConfig): string {
    AttributeKey(o.shape, o.color)
  }

  /**
   * The entry one configured object ends up with after registration: the
   * reconfigure server's first call has set both noise matrices, and the
   * filter starts at zero with the initial covariance.
   */
  function RegisteredEntry(o: ObjectConfig, immediateTracking: bool): (e: TrackerStorage)
    ensures e.filter == NewFilter(e.initialCov)
    ensures e.initialCov == ScaledIdentity(o.params.initialVariance)
    ensures e.controlCov == ScaledIdentity(o.params.predictVariance)
    ensures e.tracked == immediateTracking && e.name == o.name && e.idealRadius == o.idealRadius
  {
    var cov := ScaledIdentity(o.params.initialVariance);
    TrackerStorage(NewFilter(cov), ScaledIdentity(o.params.predictVariance), cov,
                   o.idealRadius, immediateTracking, o.name)
  }

  /** Registering the objects in order; a later object overwrites an earlier one's key or name. */
  function RegisterAll(names: NameMap, t: Registry, objects: seq<ObjectConfig>, immediateTracking: bool): (r: (NameMap, Registry))
    ensures names.Keys <= r.0.Keys && t.Keys <= r.1.Keys
    decreases |objects|
  {
    if objects == [] then (names, t)
    else
      var (names', t') := RegisterAll(names, t, objects[..|objects| - 1], immediateTracking);
      var o := objects[|objects| - 1];
      (names'[o.name := ObjectKey(o)], t'[ObjectKey(o) := RegisteredEntry(o, immediateTracking)])
  }

  /** The names of the configured objects. */
  function ConfiguredNames(objects: seq<ObjectConfig>): set<string> {
    set o | o in objects :: o.name
  }

  /** The attribute keys of the configured objects. */
  function ConfiguredKeys(objects: seq<ObjectConfig>): set<string> {
    set o | o in objects :: ObjectKey(o)
  }

  /**
   * Registration adds exactly the configured names and keys, and leaves
   * every other name and every other entry as it was.
   */
  lemma {:induction false} RegisterAllDomains(names: NameMap, t: Registry, objects: seq<ObjectConfig>, immediateTracking: bool)
    ensures RegisterAll(names, t, objects, immediateTracking).0.Keys == names.Keys + ConfiguredNames(objects)
    ensures RegisterAll(names, t, objects, immediateTracking).1.Keys == t.Keys + ConfiguredKeys(objects)
    ensures forall n :: n in names && n !in ConfiguredNames(objects) ==>
              RegisterAll(names, t, objects, immediateTracking).0[n] == names[n]
    ensures forall k :: k in t && k !in ConfiguredKeys(objects) ==>
              RegisterAll(names, t, objects, immediateTracking).1[k] == t[k]
    decreases |objects|
  {
    if objects != [] {
      var n := |objects| - 1;
      var init := objects[..n];
      var o := objects[n];
      RegisterAllDomains(names, t, init, immediateTracking);
      assert objects == init + [o];
      assert ConfiguredNames(objects) == ConfiguredNames(init) + {o.name};
      assert ConfiguredKeys(objects) == ConfiguredKeys(init) + {ObjectKey(o)};
    }
  }

  /** Each configured name resolves to the key of the last object carrying that name. */
  lemma {:induction false} RegisterAllNames(names: NameMap, t: Registry, objects: seq<ObjectConfig>, immediateTracking: bool,
                                            i: int)
    requires 0 <= i < |objects|
    requires forall j :: i < j < |objects| ==> objects[j].name != objects[i].name
    ensures var names' := RegisterAll(names, t, objects, immediateTracking).0;
            objects[i].name in names' && names'[objects[i].name] == ObjectKey(objects[i])
    decreases |objects|
  {
    var n := |objects| - 1;
    if i < n {
      RegisterAllNames(names, t, objects[..n], immediateTracking, i);
    }
  }

  /**
   * Each configured key holds the entry registered by the last object with
   * that key: a later object with the same shape and colour overwrites it.
   */
  lemma {:induction false} RegisterAllEntries(names: NameMap, t: Registry, objects: seq<ObjectConfig>, immediateTracking: bool,
                                              i: int)
    requires 0 <= i < |objects|
    requires forall j :: i < j < |objects| ==> ObjectKey(objects[j]) != ObjectKey(objects[i])
    ensures var t' := RegisterAll(names, t, objects, immediateTracking).1;
            ObjectKey(objects[i]) in t' && t'[ObjectKey(objects[i])] == RegisteredEntry(objects[i], immediateTracking)
    decreases |objects|
  {
    var n := |objects| - 1;
    if i < n {
      RegisterAllEntries(names, t, objects[..n], immediateTracking, i);
    }
  }

  /** Every name a registry resolves leads to a registered entry. */
  ghost predicate NamesResolve(names: NameMap, t: Registry) {
    forall n :: n in names ==> names[n] in t
  }

  /** Registration keeps every registered name resolvable. */
  lemma {:induction false} RegisterAllResolves(names: NameMap, t: Registry, objects: seq<ObjectConfig>, immediateTracking: bool)
    requires NamesResolve(names, t)
    ensures var (names', t') := RegisterAll(names, t, objects, immediateTracking);
            NamesResolve(names', t')
    decreases |objects|
  {
    if objects != [] {
      RegisterAllResolves(names, t, objects[..|objects| - 1], immediateTracking);
    }
  }
}
