# Position-recording sessions, modelled in Dafny

This project models the session logic of the field-trip position-tracking
plugin: the recorder that buffers device positions while it is recording,
the manager that keeps one recorder per (editor, group) session and saves a
session as a track annotation, and the conversion of positions into GeoJSON
Point, LineString and FeatureCollection features.

- `position_utils.dfy` (module `PositionUtils`): JavaScript values, positions
  and GeoJSON features as datatypes. The three conversions are methods with
  the loops the source runs. Each is proved equal to a specification function,
  and the properties of the result are proved about that function.
  map.pointToInternal is a function-typed parameter (`Projection`).
  Coordinates are opaque values. They are copied and never computed on.
- `position_recorder.dfy` (module `Recorder`): class `PositionRecorder`
  holds the recording flag, the append-only buffer and the live subscriptions
  to the shared position stream. Each subscription has its own output `Bus`.
  `Deliver(p)` plays the shared stream emitting `p`. Every live subscription
  applies `takeWhile(isRecording)`: while the flag is up it appends `p` and
  pushes it on its bus, and once the flag is down it ends.
- `position_recorders_manager.dfy` (module `RecordersManager`): the
  registry class `PositionRecorders`, keyed by `groupId + '#' + editorId`,
  and the manager class `PositionRecordersManager`. records.saveAnnotation
  is modelled as an append to the ghost log `saved`.
- `scenarios.dfy` (module `Scenarios`): client call sequences whose
  outcomes follow from the contracts alone.
- `wrappers.dfy`: the `Option` datatype.

Facts about the code that the model keeps:
- There is no separate dispose or save operation. `stopRecorder` stops the
  recorder, saves its track and removes the session. `saveRecorder` is private
  to the manager.
- Every saved track is named `'Track'`.
- The annotation's `type` and the feature's `properties.editor` are the group
  id. `editorGroup` is `'position-tracked-'` followed by the editor id.
- A Point's properties are the fields of `position.coords` other than
  longitude and latitude. The position's timestamp is not among them.
- `startRecording` always opens a new subscription. Each live subscription
  buffers a delivered position once, so positions are buffered more than once
  only when `startRecording` runs while an earlier subscription is
  still live. That happens when the recorder is already recording, or when it
  was stopped and no position has arrived since. A position that arrives
  while the recorder is stopped ends the old subscriptions, so a later
  restart buffers each position once (`Scenarios.PauseDeliverResume`). A
  restart with no position in between buffers the next position twice
  (`Scenarios.RestartBeforeDelivery`).
- `startRecorder` does not restart a recorder that is already recording. But
  `pauseRecorder` followed by `startRecorder` before the next position leaves
  two live subscriptions, and the next position is buffered twice
  (`Scenarios.PauseThenStartBeforeDelivery`). Each further pause and start
  with no position in between adds one more live subscription.
- Two different sessions can share one registry key
  (`RecordersManager.MakeIdCollides`). For that, one of the two group ids and
  one of the two editor ids must contain `'#'`. Keys identify sessions whenever the group ids contain no `'#'`
  (`RecordersManager.MakeIdInjective`) or the editor ids contain no `'#'`
  (`RecordersManager.MakeIdInjectiveByEditor`).

## Model

| member | source | states |
|---|---|---|
| PositionUtils.LineCoordinates | src/www/js/position-utils.js:62-76 | one coordinate pair per position, and pair i is the (possibly projected) pair of position i |
| PositionUtils.PointFeatures | src/www/js/position-utils.js:99-101 | one feature per position, and feature i is the Point feature of position i |
| PositionUtils.PositionToGeoJSONPoint | src/www/js/position-utils.js:13-48 | the result is a Feature with a Point geometry. When `project` is not exactly `true` the Point is `[coords.longitude, coords.latitude]` (undefined when missing). When it is `true` the Point is pointToInternal of that pair. Its properties have exactly the coords keys other than longitude and latitude, with the same values. It has no name |
| PositionUtils.PositionsToLineString | src/www/js/position-utils.js:57-86 | the result is a Feature with a LineString of one pair per position, in input order, and empty properties |
| PositionUtils.PositionsToFeatureCollection | src/www/js/position-utils.js:93-104 | one feature per position, in order, and feature i equals the Point conversion of position i |
| PositionUtils.UnprojectedPointKeepsCoordinates | src/www/js/position-utils.js:19-27 | without projection the Point carries the input longitude and latitude unchanged |
| PositionUtils.PointPropertiesAreCoordsFields | src/www/js/position-utils.js:17-38 | a key is a Point property iff it is a coords field other than longitude and latitude, and its value is the coords value |
| Recorder.Bus.constructor | src/www/js/position-recorder.js:27-38 | the stream startRecording creates and returns starts with nothing pushed; Deliver appends each accepted position to it |
| Recorder.PositionRecorder.constructor | src/www/js/position-recorder.js:10-12 | a new recorder is not recording and has no positions and no subscriptions |
| Recorder.PositionRecorder.IsRecording | src/www/js/position-recorder.js:18-20 | returns the current flag and changes nothing |
| Recorder.PositionRecorder.GetRecordedPositions | src/www/js/position-recorder.js:52-54 | returns the current buffer and changes nothing |
| Recorder.PositionRecorder.StartRecording | src/www/js/position-recorder.js:26-39 | the flag is up and the buffer is unchanged. Exactly one subscription is added, with a fresh empty output stream, which is returned |
| Recorder.PositionRecorder.StopRecording | src/www/js/position-recorder.js:44-46 | the flag is down. Only the flag changes: buffer and live subscriptions are kept |
| Recorder.PositionRecorder.Deliver | src/www/js/position-recorder.js:30-36 | while recording, each live subscription appends p to the buffer and pushes p on its own stream. With exactly one subscription the buffer grows by exactly p. When not recording, the buffer is unchanged, all subscriptions end and nothing is pushed. Earlier entries are never modified |
| RecordersManager.GeoJSONAsAnnotation | src/www/js/position-recorders-manager.js:21-41 | the record gets the given name, `properties.editor` = groupId and `properties.fields` = []. Geometry and other properties are kept. The annotation has type groupId, isSynced false and the given editorGroup |
| RecordersManager.MakeId | src/www/js/position-recorders-manager.js:51-53 | no contract of its own: the registry key `groupId + '#' + editorId`, characterised by MakeIdInjective, MakeIdInjectiveByEditor and MakeIdCollides |
| RecordersManager.HashIndexOfKey | src/www/js/position-recorders-manager.js:51-53 | in a key whose group id holds no '#', the first '#' is at the end of the group id |
| RecordersManager.MakeIdInjective | src/www/js/position-recorders-manager.js:51-53 | when group ids hold no '#', two sessions have the same key iff they have the same editor and group ids |
| RecordersManager.MakeIdCollides | src/www/js/position-recorders-manager.js:51-53 | some two different (editor, group) pairs share a key: ("c", "a#b") and ("b#c", "a") |
| RecordersManager.TailAfterHashOfKey | src/www/js/position-recorders-manager.js:51-53 | in a key whose editor id holds no '#', the last '#' is just before the editor id |
| RecordersManager.MakeIdInjectiveByEditor | src/www/js/position-recorders-manager.js:51-53 | when editor ids hold no '#', two sessions have the same key iff they have the same editor and group ids |
| RecordersManager.TrackAnnotation | src/www/js/position-recorders-manager.js:161-186 | no annotation for 0 positions. For 1 position, a projected Point of it. For n > 1, a LineString of n projected pairs in order. Every annotation has isSynced false, type groupId, editorGroup `'position-tracked-' + editorId`, name `'Track'`, `properties.editor` groupId and `properties.fields` [] |
| RecordersManager.PositionRecorders.constructor | src/www/js/position-recorders-manager.js:48-49 | a new registry is empty |
| RecordersManager.PositionRecorders.GetAll | src/www/js/position-recorders-manager.js:59-61 | returns the whole registry and changes nothing |
| RecordersManager.PositionRecorders.Get | src/www/js/position-recorders-manager.js:69-71 | returns the recorder under `groupId#editorId`, or null iff there is none |
| RecordersManager.PositionRecorders.Put | src/www/js/position-recorders-manager.js:79-81 | the key maps to the recorder. Every other key is unchanged |
| RecordersManager.PositionRecorders.Remove | src/www/js/position-recorders-manager.js:88-90 | the key is absent. Every other key is unchanged |
| RecordersManager.PositionRecordersManager.constructor | src/www/js/position-recorders-manager.js:105-106 | a new manager has no sessions and has saved nothing |
| RecordersManager.PositionRecordersManager.GetRecorders | src/www/js/position-recorders-manager.js:112-114 | returns the registry and changes nothing |
| RecordersManager.PositionRecordersManager.StartRecorder | src/www/js/position-recorders-manager.js:122-136 | the key maps to the returned recorder, which is recording. For an absent key it is a fresh recorder with no positions and one subscription. For an existing key it is the same recorder with the same positions. If that recorder was already recording, no subscription is added; otherwise one fresh subscription is. Other sessions are untouched |
| RecordersManager.PositionRecordersManager.PauseRecorder | src/www/js/position-recorders-manager.js:144-153 | the registry is unchanged. Returns the session's recorder, or null iff absent. The returned recorder is not recording, and its positions and subscriptions are unchanged. Other sessions are untouched |
| RecordersManager.PositionRecordersManager.SaveRecorder | src/www/js/position-recorders-manager.js:161-186 | appends to the saved log exactly the annotation TrackAnnotation gives for the recorder's positions (none for an empty buffer) |
| RecordersManager.PositionRecordersManager.StopRecorder | src/www/js/position-recorders-manager.js:194-206 | for an absent key it returns null and changes nothing. Otherwise the recorder stops with its positions kept, the track of those positions is saved and the key is removed. Other sessions are untouched |
| Scenarios.RecordWithSingleStart | src/www/js/position-recorder.js:26-36 | a recorder started once and sent positions ps buffers exactly ps, in order, and pushes exactly ps on its stream |
| Scenarios.PauseDeliverResume | src/www/js/position-recorder.js:26-46 | a position delivered while stopped is dropped. After a restart each position is buffered once |
| Scenarios.RestartBeforeDelivery | src/www/js/position-recorder.js:26-46 | stop then start with no delivery in between leaves two subscriptions, so the next position is buffered twice |
| Scenarios.PauseThenStartBeforeDelivery | src/www/js/position-recorders-manager.js:122-153 | start, pause and start again with no position in between leave the session's recorder with two subscriptions, so the next position is buffered twice |
| Scenarios.PutThenGet | src/www/js/position-recorders-manager.js:69-81 | after put, get with the same ids returns the recorder. Other keys keep their entries |
| Scenarios.RemoveThenGet | src/www/js/position-recorders-manager.js:69-90 | after remove, get with the same ids returns null. Other keys keep their entries |
| Scenarios.SaveThreePositions | src/www/js/position-recorders-manager.js:122-206 | start, three deliveries, pause and stop save exactly one annotation. It is a LineString of the three projected pairs in order, with type groupId, editorGroup `'position-tracked-' + editorId`, unsynced and named `'Track'` |
| Scenarios.StopEmptySession | src/www/js/position-recorders-manager.js:161-206 | stopping a session with no positions saves nothing and removes the session |
| Scenarios.StopUnknownSession | src/www/js/position-recorders-manager.js:194-206 | stopping a key never started returns null and saves nothing |
| Scenarios.StopThenStart | src/www/js/position-recorders-manager.js:122-206 | after stop, start with the same ids registers a fresh recorder, different from the stopped one, with no positions |

## Left out

- The position source (src/www/js/location.js) is not part of this model. Its
  option defaults, one-shot fetch and device watch are replaced by explicit
  `Deliver` calls.
- Error events on the position stream are not modelled. `onValue` only receives
  values, so errors never reach the buffer.
- Acquiring and releasing the device watch when subscriptions open and end is
  not modelled. That is Bacon's internal reference counting.
- The module-level stream fans each position out to every recorder. The model
  delivers to one recorder at a time. Each callback touches only its own
  recorder's buffer and bus, so the fan-out is a sequence of per-recorder deliveries.
- The bus's own downstream subscribers are not modelled. A bus records what it has pushed.
- geoJSONAsAnnotation updates the feature object in place. The model builds a
  new value, because the feature is freshly built by the save step and nothing
  else holds it.
- The order of properties in a JavaScript object is not modelled. Properties are a map.
- The first argument (`undefined`) of records.saveAnnotation, the
  `console.warn` for an empty buffer and the storage behind saveAnnotation are
  not modelled. Saving is an append to a ghost log.
- Floating-point meaning of coordinates and of the projection: coordinates are
  opaque values that are only copied.
- The singleton manager built at module load is modelled as an ordinary class instance.
- src/www/js/position-tracking.js (UI rendering) and src/www/js/utils.js
  (local storage) are not part of this model.
- Recorder.PositionRecorder.GetRecordedPositions: returns a snapshot of the
  buffer. The source returns the live array, so a caller that keeps it also sees later appends.
- RecordersManager.PositionRecorders.GetAll: returns a snapshot of the registry.
  The source returns the live object, which later put and remove calls change.
- RecordersManager.PositionRecordersManager.GetRecorders: returns a snapshot of the
  registry, like GetAll, which it calls. Its two id parameters are unused, as in the source.
