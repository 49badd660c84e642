# USC AUV ROS packages: tracker registry, teleop policy, colour classifier

This project is a Dafny model of three parts of the USC AUV ROS package set.

1. **Unimodal object tracker** (`UnimodalObjectTrackerNode`). It keeps a registry of per-object Kalman trackers, keyed by the attribute key `shape + "/" + colour`, plus a map from configured object names to those keys.
   - Startup (`spinFirst`) registers each configured object. The object's reconfigure server then sets its two noise matrices, and its filter is built at the zero state.
   - Each detection batch (`matchedShapeCallback`) is first checked against the cached camera frame. Each matching, tracked detection then causes one predict with zero control and one update with the reprojected position.
   - The camera-info callback caches the camera model.
   - The reconfigure callback (`updateTrackerParams`) overwrites one entry's noise matrices.
   - Files: `linear.dfy` holds the 4-vectors and 4x4 matrices. `object_tracking.dfy` holds the values and the pure definitions of what each operation does to the registry. `tracker_node.dfy` holds the node as a class whose methods update its maps in place, each proved against those definitions.
2. **Teleop policy** (`TeleopPolicy`, `teleop_policy.dfy`). It keeps the last two joystick messages and resolves task-level button and axis names through two configured maps. It answers queries only once `init` has loaded the assignments and two messages have arrived. Button edges are detected by comparing the last two messages.
3. **Colour classifier** (`ColorClassifier`, `color_classifier.dfy`). This covers:
   - the `wrapValue` loop;
   - the hue ranges that `reconfigureCB` derives from centre and radius;
   - the `filterColor` per-channel offset;
   - the argmax over the network's outputs;
   - the index-to-colour switch of `classifyPixel`.

The Kalman filter is modelled as its construction values plus the log of predict/update calls applied to it. The linear algebra is not modelled. That is enough to state which calls each operation makes, with which arguments, and in which order. Reprojection is a function supplied by the caller.

Points of the tracker's behaviour worth knowing, as the code has them:
- Predict runs once per matched detection, inside the detection loop, not once per batch for every tracked entry.
- The camera-readiness check sits inside the loop and returns from the callback at the first matching detection. It is not a gate on the whole batch.
- `updateTrackerParams` uses `.at`, which throws `std::out_of_range` for a name or key it cannot resolve. The model returns `ok == false` with nothing changed.
- Before the first camera info arrives, the cached frame id is the empty string, so a batch with an empty frame id passes the frame check. It then stops at the readiness check if anything in it matches.
- `immediate_tracking` defaults to false, and nothing in the node ever sets `tracked_` to true afterwards. With the default configuration every detection is skipped (`GateScenario` uses `immediate_tracking = true`).

## Model

| member | source | states |
|---|---|---|
| Linear.ZeroVector | object_tracking/include/object_tracking/unimodal_object_tracker_node.h:155-156 | the zero control vector is a 4-vector of zeros |
| Linear.ScaledIdentity | object_tracking/include/object_tracking/unimodal_object_tracker_node.h:197-207 | the noise matrix built from one variance is 4x4 with the variance on the diagonal and 0 elsewhere |
| Linear.ScaledIdentityIsDiagonal | object_tracking/include/object_tracking/unimodal_object_tracker_node.h:197-207 | that matrix is diagonal, has trace 4 times the variance, and is entrywise non-negative for a non-negative variance |
| Linear.RowMajor | object_tracking/include/object_tracking/unimodal_object_tracker_node.h:167-174 | the detection's 16-element covariance fills the 4x4 update matrix row by row: entry (i, j) is c[4i + j] |
| Linear.FlattenRowMajor | object_tracking/include/object_tracking/unimodal_object_tracker_node.h:167-174 | reading 16 values row-major and flattening them again returns the same 16 values |
| Linear.RowMajorFlatten | object_tracking/include/object_tracking/unimodal_object_tracker_node.h:167-174 | flattening any 4x4 matrix and reading it back row-major returns that matrix, so the layout loses nothing |
| ObjectTracking.NewFilter | object_tracking/include/object_tracking/unimodal_object_tracker_node.h:267-274 | a new filter starts at state (0, 0, 0, 0) with the given covariance and no calls applied |
| ObjectTracking.PredictStep | object_tracking/include/object_tracking/unimodal_object_tracker_node.h:155-156 | predict appends one Predict(u, Q) call and keeps the construction values |
| ObjectTracking.UpdateStep | object_tracking/include/object_tracking/unimodal_object_tracker_node.h:176 | update appends one Update(z, R) call and keeps the construction values |
| ObjectTracking.AttributeKey | object_tracking/include/object_tracking/unimodal_object_tracker_node.h:123 | the key is the shape type, a '/', then the colour |
| ObjectTracking.AttributeKeyInjective | object_tracking/include/object_tracking/unimodal_object_tracker_node.h:250-251 | shape types without '/' give distinct keys for distinct (shape, colour) pairs |
| ObjectTracking.MeasurementMean | object_tracking/include/object_tracking/unimodal_object_tracker_node.h:159-164 | the update mean is the reprojected (x, y, z) followed by the detection's theta |
| ObjectTracking.ApplyDetection | object_tracking/include/object_tracking/unimodal_object_tracker_node.h:143-176 | a matched detection appends exactly its predict/update pair to the entry's filter and changes no other field of the entry |
| ObjectTracking.IngestShapes | object_tracking/include/object_tracking/unimodal_object_tracker_node.h:120-179 | the detection loop keeps the set of keys, never reports a frame mismatch, and returns early only with the camera not ready and the registry untouched |
| ObjectTracking.Ingest | object_tracking/include/object_tracking/unimodal_object_tracker_node.h:112-180 | matchedShapeCallback keeps the set of keys, and rejects the batch, unchanged, exactly when its frame id differs from the cached camera frame |
| ObjectTracking.IngestStep | object_tracking/include/object_tracking/unimodal_object_tracker_node.h:120-127 | with the camera ready, a batch is its first detection's effect followed by the rest of the batch |
| ObjectTracking.IngestKeepsParameters | object_tracking/include/object_tracking/unimodal_object_tracker_node.h:120-179 | with the camera ready, every batch runs to the end and leaves keys, noise matrices, radii, flags, names and filter construction values unchanged |
| ObjectTracking.IngestAppliesEachMatch | object_tracking/include/object_tracking/unimodal_object_tracker_node.h:120-179 | with the camera ready, each entry's filter receives exactly the predict/update pairs of the detections matching its key while it is tracked, in batch order (OpsFor), and nothing else |
| ObjectTracking.IngestAppliesMatchesAt | object_tracking/include/object_tracking/unimodal_object_tracker_node.h:120-179 | with the camera ready, one entry's call log grows by exactly OpsFor of the batch |
| ObjectTracking.IngestCameraNotReady | object_tracking/include/object_tracking/unimodal_object_tracker_node.h:137-141 | with the camera model not ready, no entry changes, and the callback stops early exactly when some detection matches a tracked entry |
| ObjectTracking.ApplyKeepsMatches | object_tracking/include/object_tracking/unimodal_object_tracker_node.h:126-127 | applying a detection does not change which later detections match |
| ObjectTracking.UnmatchedDetectionIsSkipped | object_tracking/include/object_tracking/unimodal_object_tracker_node.h:125-127 | removing a detection whose key is unregistered or untracked, anywhere in the batch, changes neither the registry nor the outcome |
| ObjectTracking.FrameMismatchChangesNothing | object_tracking/include/object_tracking/unimodal_object_tracker_node.h:114-118 | a batch whose frame id differs from the cached camera frame leaves the whole registry unchanged, with no predict |
| ObjectTracking.IngestOnlyAdvancesFilters | object_tracking/include/object_tracking/unimodal_object_tracker_node.h:112-180 | for every outcome, a batch changes only filters' call logs |
| ObjectTracking.OpsForIgnoresFilter | object_tracking/include/object_tracking/unimodal_object_tracker_node.h:143-176 | the calls a batch makes on an entry depend on its noise, radius and flag, not on its filter's current contents |
| ObjectTracking.UpdateParams | object_tracking/include/object_tracking/unimodal_object_tracker_node.h:189-212 | the update succeeds iff the name and then its key resolve; success keeps the set of keys |
| ObjectTracking.UpdateParamsTouchesOneEntry | object_tracking/include/object_tracking/unimodal_object_tracker_node.h:209-210 | a parameter update sets that entry's two noise matrices to the diagonal matrices of the variances and leaves its filter, flag, radius, name and every other entry unchanged |
| ObjectTracking.UpdatedNoiseFeedsNextPredict | object_tracking/include/object_tracking/unimodal_object_tracker_node.h:155-156 | after an update, the next matched detection for that entry predicts with the new predict variance |
| ObjectTracking.NormalizeDepthMethod | object_tracking/include/object_tracking/unimodal_object_tracker_node.h:235-240 | any configured depth method other than "monocular" is replaced by "monocular" |
| ObjectTracking.RegisteredEntry | object_tracking/include/object_tracking/unimodal_object_tracker_node.h:254-274 | a registered entry carries the object's name and radius, the immediate-tracking flag, the noise matrices from its first reconfigure call, and a new filter with the initial covariance |
| ObjectTracking.RegisterAll | object_tracking/include/object_tracking/unimodal_object_tracker_node.h:247-279 | the registration loop never removes a name or a key |
| ObjectTracking.RegisterAllDomains | object_tracking/include/object_tracking/unimodal_object_tracker_node.h:247-260 | registration adds exactly the configured names and keys, and leaves every other name and entry unchanged |
| ObjectTracking.RegisterAllNames | object_tracking/include/object_tracking/unimodal_object_tracker_node.h:252 | each configured name maps to the key of the last object carrying that name |
| ObjectTracking.RegisterAllEntries | object_tracking/include/object_tracking/unimodal_object_tracker_node.h:260-274 | each configured key holds the entry registered by the last object with that key |
| ObjectTracking.RegisterAllResolves | object_tracking/include/object_tracking/unimodal_object_tracker_node.h:247-279 | after registration every registered name still resolves to a registered entry |
| UnimodalObjectTracker.DefaultFilter | object_tracking/include/object_tracking/unimodal_object_tracker_node.h:254 | the filter of a default-constructed storage has no calls applied and 4-dimensional state and covariance |
| UnimodalObjectTracker.RegisterOne | object_tracking/include/object_tracking/unimodal_object_tracker_node.h:252-274 | inserting the placeholder entry first lets the reconfigure call find the entry; that call plus the filter reset install the registered entry |
| UnimodalObjectTracker.UnimodalObjectTrackerNode.constructor | object_tracking/include/object_tracking/unimodal_object_tracker_node.h:106-110 | a new node has empty maps, no camera model and an empty cached frame id |
| UnimodalObjectTracker.UnimodalObjectTrackerNode.MatchedShapeCallback | object_tracking/include/object_tracking/unimodal_object_tracker_node.h:112-180 | the in-place loop leaves the registry and outcome that Ingest defines, keeps names resolving, and changes only filters |
| UnimodalObjectTracker.UnimodalObjectTrackerNode.CameraInfoCallback | object_tracking/include/object_tracking/unimodal_object_tracker_node.h:183-187 | the camera info is cached and the camera model becomes ready; the registry is untouched |
| UnimodalObjectTracker.UnimodalObjectTrackerNode.UpdateTrackerParams | object_tracking/include/object_tracking/unimodal_object_tracker_node.h:189-212 | the registry becomes UpdateParams' result when the name resolves; otherwise it reports failure with nothing written |
| UnimodalObjectTracker.UnimodalObjectTrackerNode.SpinFirst | object_tracking/include/object_tracking/unimodal_object_tracker_node.h:231-279 | the depth method becomes "monocular", and the maps become RegisterAll of the configured objects in order, with names resolving throughout |
| UnimodalObjectTracker.UnimodalObjectTrackerNode.SpinOnce | object_tracking/include/object_tracking/unimodal_object_tracker_node.h:283-293 | every registered name is looked up, and under Valid() each `.at` finds its tracker |
| UnimodalObjectTracker.GateScenario | object_tracking/include/object_tracking/unimodal_object_tracker_node.h:112-187 | for one tracked object: a batch in the camera's frame causes one predict with the configured noise and one update; a batch in another frame is dropped whole |
| Teleop.ToUnsigned32 | auv_tasks/include/auv_tasks/teleop_policy.h:114 | a configured index stored in an unsigned int is below 2^32, equals a non-negative index below 2^32, and wraps a negative one to index + 2^32 |
| Teleop.Unsigned32Values | auv_tasks/include/auv_tasks/teleop_policy.h:112-120 | the stored index maps have the configured logical names as keys, and each stored index is the configured `int` converted to `unsigned int`, i.e. reduced modulo 2^32 |
| Teleop.Merge | auv_tasks/include/auv_tasks/teleop_policy.h:102-120 | the copy loop leaves the old map overwritten by every configured entry |
| Teleop.Lookup | auv_tasks/include/auv_tasks/teleop_policy.h:145 | `map[k]` reads the stored value when `k` is present and the default otherwise |
| Teleop.WithDefault | auv_tasks/include/auv_tasks/teleop_policy.h:145 | `map[k]` leaves `k` present, holding the old value or the default |
| Teleop.DefaultInsertionIsInvisible | auv_tasks/include/auv_tasks/teleop_policy.h:145 | the default inserted by `map[k]` changes no later lookup, so reading the getters as pure queries is sound |
| Teleop.ResolveIndex | auv_tasks/include/auv_tasks/teleop_policy.h:145 | a name resolves through both maps; an unknown name resolves through the logical name "", and an unknown logical name to 0 |
| Teleop.ResolutionIsStable | auv_tasks/include/auv_tasks/teleop_policy.h:152 | resolving one name, with default insertion in both maps, changes what no name resolves to |
| Teleop.AcquiredExcludesReleased | auv_tasks/include/auv_tasks/teleop_policy.h:148-166 | a button is never acquired and released at once; acquired implies down now, released implies up now |
| Teleop.AcquiredIsReversedRelease | auv_tasks/include/auv_tasks/teleop_policy.h:148-166 | acquiring between two messages is releasing with the messages swapped |
| Teleop.NoEdgeWithoutChange | auv_tasks/include/auv_tasks/teleop_policy.h:148-166 | a button with the same value in both messages is neither acquired nor released |
| Teleop.ButtonsAsAxisAsWritten | auv_tasks/include/auv_tasks/teleop_policy.h:179-180 | the comma expression's value is the intended two-button axis with the first button's value subtracted out, i.e. the negated second button |
| Teleop.AsWrittenIgnoresFirstButton | auv_tasks/include/auv_tasks/teleop_policy.h:175-181 | the axis as written does not depend on the first button |
| Teleop.AsWrittenLosesFirstButton | auv_tasks/include/auv_tasks/teleop_policy.h:179-180 | with the first button down and the second up, the as-written axis is 0 where the intended one is +1 |
| Teleop.ButtonsAsAxisIsDirectional | auv_tasks/include/auv_tasks/teleop_policy.h:175-181 | the corrected axis of two 0/1 buttons is -1, 0 or +1; it is positive iff only the first is down, negative iff only the second is, and antisymmetric |
| Teleop.MessageCount | auv_tasks/include/auv_tasks/teleop_policy.h:133 | the 64-bit message counter is below 2^64 and equals the number of messages until it wraps |
| Teleop.CachedTracksTwoMessages | auv_tasks/include/auv_tasks/teleop_policy.h:133-136 | updating the cached flag from the wrapped counter keeps it equal to "at least two messages received" |
| Teleop.TeleopPolicy.constructor | auv_tasks/include/auv_tasks/teleop_policy.h:70-76 | a new policy is uninitialised and uncached, its counter is 0, and its messages and maps are empty |
| Teleop.TeleopPolicy.Init | auv_tasks/include/auv_tasks/teleop_policy.h:78-124 | missing assignments leave the policy unchanged; otherwise the four maps are merged from the configuration (indices made unsigned) and the policy is initialised |
| Teleop.TeleopPolicy.JoyCallback | auv_tasks/include/auv_tasks/teleop_policy.h:127-139 | the previous last message becomes the second last, the new one the last, and the counter advances modulo 2^64; the cached flag never falls back, and it stays equal to "two or more messages" |
| Teleop.TeleopPolicy.Enabled | auv_tasks/include/auv_tasks/teleop_policy.h:40-42 | the gate is open iff the policy is both initialised and cached; for a consistent policy, iff it is initialised and at least two messages have arrived |
| Teleop.TeleopPolicy.EnabledAfterTwoMessages | auv_tasks/include/auv_tasks/teleop_policy.h:40-42 | the gate is open iff init succeeded and two messages arrived, and then the stored messages are the last two received |
| Teleop.TeleopPolicy.GetButton | auv_tasks/include/auv_tasks/teleop_policy.h:141-146 | false behind the closed gate; otherwise whether the resolved button is down in the latest message received |
| Teleop.TeleopPolicy.GetButtonAcquired | auv_tasks/include/auv_tasks/teleop_policy.h:148-156 | false behind the closed gate; otherwise whether the button went down between the last two messages received |
| Teleop.TeleopPolicy.GetButtonReleased | auv_tasks/include/auv_tasks/teleop_policy.h:158-166 | false behind the closed gate; otherwise whether the button came up between the last two messages received |
| Teleop.TeleopPolicy.GetAxis | auv_tasks/include/auv_tasks/teleop_policy.h:168-173 | 0 behind the closed gate; otherwise the resolved axis of the latest message received |
| Teleop.TeleopPolicy.GetButtonsAsAxis | auv_tasks/include/auv_tasks/teleop_policy.h:175-181 | 0 behind the closed gate; otherwise, as written, the negated second button of the latest message: the intended axis minus the first button's value |
| Teleop.FireButtonScenario | auv_tasks/include/auv_tasks/teleop_policy.h:78-166 | after one message nothing is reported; after a second with the button down it is pressed and acquired, not released |
| ColorClassification.WrapValue | cturtle/color_classifier/src/color_classifier.cpp:84-95 | for min < max the loops terminate with a result in [min, max] that differs from the input by a whole number of periods; it is the input itself when that is in range, below max when raised, above min when lowered |
| ColorClassification.WrapIsUnique | cturtle/color_classifier/src/color_classifier.cpp:84-95 | that characterisation pins down one result for each input |
| ColorClassification.WrapFixesInRange | cturtle/color_classifier/src/color_classifier.cpp:86-93 | an input already in [min, max], endpoints included, comes back unchanged |
| ColorClassification.WrapIsIdempotent | cturtle/color_classifier/src/color_classifier.cpp:86-93 | wrapping a wrapped value changes nothing |
| ColorClassification.HueRangeWithinCircle | cturtle/color_classifier/src/color_classifier.cpp:102-115 | both bounds of every computed hue range lie in [0, 360] |
| ColorClassification.HueRangeAround | cturtle/color_classifier/src/color_classifier.cpp:102-103 | a colour's range is wrap(c - r, 0, 360) to wrap(c + r, 0, 360) |
| ColorClassification.SpectrumFor | cturtle/color_classifier/src/color_classifier.cpp:102-145 | all five hue ranges are wrapped from their centre and radius, and the three thresholds are copied |
| ColorClassification.ColorClassifier.constructor | cturtle/color_classifier/src/color_classifier.cpp:71-77 | construction runs the reconfigure callback once with the initial configuration (line 74): the spectrum is the one derived from it, every setting is copied, and the classifier is marked reconfigured |
| ColorClassification.ColorClassifier.ReconfigureCB | cturtle/color_classifier/src/color_classifier.cpp:99-148 | the spectrum is the one derived from the configuration, every mean-shift and enable setting is copied, and the classifier is marked reconfigured |
| ColorClassification.SaturatingSub | cturtle/color_classifier/src/color_classifier.cpp:203-205 | `max(x - offset, 0)`: never above x, never more than offset below it, and either 0 or exactly x - offset |
| ColorClassification.FilterColor | cturtle/color_classifier/src/color_classifier.cpp:197-207 | channel 2 loses 16, channel 1 93 and channel 0 122, each floored at 0 and never above its input |
| ColorClassification.FilterColorMonotone | cturtle/color_classifier/src/color_classifier.cpp:203-205 | a brighter pixel, channel by channel, never filters to a darker one |
| ColorClassification.ArgMax | cturtle/color_classifier/src/color_classifier.cpp:243-253 | the result is the first index whose output is strictly greatest and above -1; it is 0 if there is no such output |
| ColorClassification.ArgMaxIsUnique | cturtle/color_classifier/src/color_classifier.cpp:243-253 | that description admits one index only |
| ColorClassification.ColorForIndex | cturtle/color_classifier/src/color_classifier.cpp:255-275 | every index 0 to 7 maps to the colour with that id, and every other index to unknown |
| ColorClassification.ColorForIndexRoundTrip | cturtle/color_classifier/src/color_classifier.cpp:255-273 | the switch inverts the colour numbering |
| ColorClassification.ColorForOtherIndex | cturtle/color_classifier/src/color_classifier.cpp:275 | an index that is no colour's id gives unknown |
| ColorClassification.ClassifyOutput | cturtle/color_classifier/src/color_classifier.cpp:243-275 | the pixel's colour is the switch applied to the argmax of the network outputs; that argmax index exists and is unique |

## Left out

- Kalman filter arithmetic (predict/update on means and covariances, matrix inversion): the filter class is not part of this model. A filter is its construction values plus the log of calls applied to it.
- `uscauv::reprojectObjectTo3d` and the pinhole camera model are not part of this model. Reprojection is a function supplied to `MatchedShapeCallback`, and the camera model is only its "ready" flag plus the cached camera info.
- MatchedShapeCallback requires the depth method to be "monocular". The subscription is made at the start of `spinFirst` (lines 224-229), before the depth method is loaded and forced to "monocular" (lines 232-240). The requirement holds because callbacks are taken to be dispatched only after `spinFirst` returns, by single-threaded spinning in the node base class, which is not part of this model. The branch that leaves the reprojected position unset is therefore not modelled.
- ROS plumbing is left out: subscriptions, parameter loading and XmlRpc parsing, logging and `ROS_INFO_STREAM`.
  - A configured value of the wrong XmlRpc type would throw. The model takes typed configuration values instead.
  - The object list is an XmlRpc struct, a `std::map` keyed by object name, so objects are visited in ascending name order and names are distinct. The `objects` sequence is taken to be in that order. Among objects that share a key, the one whose name sorts last wins (`RegisterAllEntries`).
- Reconfigure servers: each object's server is modelled as one synchronous call of `UpdateTrackerParams` with the object's initial parameters, made where `addReconfigureServer` is called. Later reconfigure calls are further calls of the method.
- Concurrency between the reconfigure callback and the detection callback is not modelled; every callback runs to completion.
- SpinOnce: the source's loop has no effect yet. The method states only which names it looks up, and its verification shows that, given `Valid()`, each `.at` lookup finds its entry.
- Floating point: doubles and floats are modelled as reals.
  - `wrapValue` on values so large that adding the period no longer changes them would loop forever in doubles; over reals it terminates.
  - Joystick button values are added, subtracted or negated without int32 overflow.
- Eigen's fixed-size matrices are uninitialised when default-constructed; the model uses zero (`DefaultFilter`). Every such value is overwritten during registration before anything reads it.
- ColorClassification.ColorClassifier.constructor: `initCfgParams()` belongs to the image-processing base class, which is not part of this model. It is taken to set up the reconfigure server, whose first callback arrives synchronously with the server's initial configuration. The constructor is therefore modelled as one `ReconfigureCB` call with that configuration. The `reconfigure_initialized_` flag lives in the same base class.
- `processImage` (OpenCV resizing and conversion, the per-pixel loops), loading the network from a file, and the network's propagation are not part of this model. `ClassifyOutput` takes the network's output vector as input.
- `OutputColorRGB` values and the `ColorIds` numbering live in `colors.h`, which is not part of this model. The ids are taken to be 0 to 7 in the order red, orange, yellow, green, blue, black, white, unknown, and colours are modelled by name rather than by their RGB triple.
- TeleopPolicy getters: default insertion by `std::map::operator[]` is not performed. `DefaultInsertionIsInvisible` and `ResolutionIsStable` show that it changes no later answer. The maps' contents after a query differ only by those default entries.
- The teleop subscription made in `init` is not modelled; messages arrive by calling `JoyCallback`.
- `seabee3_driver` (declarations only) and the `seabee3_teleop` node (a macro-generated empty callback) are not part of this model.

## Findings

| source | as written | input that shows it | evidently intended | confidence | as-written member | corrected member |
|---|---|---|---|---|---|---|
| auv_tasks/include/auv_tasks/teleop_policy.h:179-180 | `return b1, - b2;` is a comma expression: `b1` is evaluated and discarded, and the result is `-b2` | first button down (1), second up (0): the result is 0 | `b1 - b2`, so the first button pushes the axis to +1 | high (not executed) | Teleop.AsWrittenLosesFirstButton | Teleop.ButtonsAsAxisIsDirectional |
