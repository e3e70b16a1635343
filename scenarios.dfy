/**
 * Clients of the recorder, the registry and the manager: sequences of calls
 * whose outcome follows from the operations' contracts alone.
 */
module Scenarios {
  import opened Wrappers
  import opened PositionUtils
  import opened Recorder
  import opened RecordersManager

  /**
   * A recorder started once and never stopped buffers every delivered
   * position exactly once, in arrival order, and republishes them on its stream.
   */
  method RecordWithSingleStart(ps: seq<Position>) returns (recorder: PositionRecorder, stream: Bus)
    ensures recorder.positions == ps && stream.pushed == ps
    ensures recorder.recordingFlag && recorder.subscriptions == [stream]
  {
    recorder := new PositionRecorder();
    stream := recorder.StartRecording();
    for i := 0 to |ps|
      invariant recorder.Valid() && recorder.recordingFlag
      invariant recorder.subscriptions == [stream]
      invariant recorder.positions == ps[..i] && stream.pushed == ps[..i]
    {
      assert recorder.subscriptions[0] == stream;
      recorder.Deliver(ps[i]);
      assert ps[..i + 1] == ps[..i] + [ps[i]];
    }
    assert ps[..|ps|] == ps;
  }

  /**
   * A position delivered while paused is dropped and ends the old
   * subscription, so after resuming each position is buffered once.
   */
  method PauseDeliverResume(p: Position, q: Position, r: Position) returns (recorder: PositionRecorder)
    ensures recorder.positions == [p, r]
    ensures recorder.recordingFlag && |recorder.subscriptions| == 1
  {
    recorder := new PositionRecorder();
    var _ := recorder.StartRecording();
    recorder.Deliver(p);
    recorder.StopRecording();
    recorder.Deliver(q);
    var _ := recorder.StartRecording();
    recorder.Deliver(r);
  }

  /**
   * Stopping and starting again before any delivery leaves the first
   * subscription live beside the second, so the next position is buffered twice.
   */
  method RestartBeforeDelivery(p: Position) returns (recorder: PositionRecorder)
    ensures recorder.positions == [p, p]
    ensures recorder.recordingFlag && |recorder.subscriptions| == 2
  {
    recorder := new PositionRecorder();
    var _ := recorder.StartRecording();
    recorder.StopRecording();
    var _ := recorder.StartRecording();
    recorder.Deliver(p);
  }

  /**
   * Pausing a session and starting it again before the next position arrives
   * leaves the paused subscription live beside the new one, so the manager's
   * recorder buffers the next position twice.
   */
  method PauseThenStartBeforeDelivery(pointToInternal: Projection, editorId: string, groupId: string, p: Position)
    returns (manager: PositionRecordersManager, recorder: PositionRecorder)
    ensures recorder.positions == [p, p]
    ensures recorder.recordingFlag && |recorder.subscriptions| == 2
    ensures MakeId(editorId, groupId) in manager.Sessions() && manager.Sessions()[MakeId(editorId, groupId)] == recorder
  {
    manager := new PositionRecordersManager(pointToInternal);
    recorder := manager.StartRecorder(editorId, groupId);
    var _ := manager.PauseRecorder(editorId, groupId);
    var again := manager.StartRecorder(editorId, groupId);
    assert again == recorder;
    recorder.Deliver(p);
  }

  /** After put, get under the same ids returns the recorder; other keys keep their entries. */
  method PutThenGet(registry: PositionRecorders, recorder: PositionRecorder, editorId: string, groupId: string)
    returns (got: PositionRecorder?)
    modifies registry
    ensures got == recorder
    ensures forall id :: id in old(registry.recorders) && id != MakeId(editorId, groupId) ==>
              id in registry.recorders && registry.recorders[id] == old(registry.recorders[id])
  {
    registry.Put(recorder, editorId, groupId);
    got := registry.Get(editorId, groupId);
  }

  /** After remove, get under the same ids finds nothing; other keys keep their entries. */
  method RemoveThenGet(registry: PositionRecorders, editorId: string, groupId: string)
    returns (got: PositionRecorder?)
    modifies registry
    ensures got == null
    ensures forall id :: id in old(registry.recorders) && id != MakeId(editorId, groupId) ==>
              id in registry.recorders && registry.recorders[id] == old(registry.recorders[id])
  {
    registry.Remove(editorId, groupId);
    got := registry.Get(editorId, groupId);
  }

  /**
   * Start a session, receive three positions, pause and stop: exactly one
   * annotation is saved, a LineString of the three projected positions in order.
   */
  method SaveThreePositions(pointToInternal: Projection, editorId: string, groupId: string,
                            p1: Position, p2: Position, p3: Position)
    returns (manager: PositionRecordersManager)
    ensures |manager.saved| == 1
    ensures manager.saved[0].record.geometry
         == LineString([Coordinates(p1, Bool(true), pointToInternal),
                        Coordinates(p2, Bool(true), pointToInternal),
                        Coordinates(p3, Bool(true), pointToInternal)])
    ensures manager.saved[0].kind == groupId && manager.saved[0].editorGroup == SessionPrefix + editorId
    ensures !manager.saved[0].isSynced && manager.saved[0].record.name == Some(TrackName)
    ensures manager.Sessions() == map[]
  {
    manager := new PositionRecordersManager(pointToInternal);
    var recorder := manager.StartRecorder(editorId, groupId);
    recorder.Deliver(p1);
    recorder.Deliver(p2);
    recorder.Deliver(p3);
    assert recorder.positions == [p1, p2, p3];
    var _ := manager.PauseRecorder(editorId, groupId);
    var _ := manager.StopRecorder(editorId, groupId);
    var line := TrackAnnotation([p1, p2, p3], editorId, groupId, pointToInternal).value.record.geometry.line;
    assert line == [line[0], line[1], line[2]];
  }

  /** Stopping a session that recorded nothing saves nothing and still frees its key. */
  method StopEmptySession(pointToInternal: Projection, editorId: string, groupId: string)
    returns (manager: PositionRecordersManager)
    ensures manager.saved == [] && manager.Sessions() == map[]
  {
    manager := new PositionRecordersManager(pointToInternal);
    var _ := manager.StartRecorder(editorId, groupId);
    var _ := manager.StopRecorder(editorId, groupId);
  }

  /** Stopping a key that was never started returns nothing and saves nothing. */
  method StopUnknownSession(pointToInternal: Projection, editorId: string, groupId: string)
    returns (manager: PositionRecordersManager, recorder: PositionRecorder?)
    ensures recorder == null && manager.saved == [] && manager.Sessions() == map[]
  {
    manager := new PositionRecordersManager(pointToInternal);
    recorder := manager.StopRecorder(editorId, groupId);
  }

  /** After stopRecorder, startRecorder on the same key gets a new recorder with no positions. */
  method StopThenStart(manager: PositionRecordersManager, editorId: string, groupId: string)
    returns (stopped: PositionRecorder?, started: PositionRecorder)
    requires manager.Valid()
    modifies manager, manager.recorders, manager.recorders.recorders.Values
    ensures manager.Valid()
    ensures fresh(started) && started != stopped
    ensures started.positions == [] && started.recordingFlag
    ensures MakeId(editorId, groupId) in manager.Sessions() && manager.Sessions()[MakeId(editorId, groupId)] == started
  {
    stopped := manager.StopRecorder(editorId, groupId);
    started := manager.StartRecorder(editorId, groupId);
  }
}
