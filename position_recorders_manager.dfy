/**
 * The session manager (src/www/js/position-recorders-manager.js): a registry
 * of recorders keyed by group and editor, the start/pause/stop operations on
 * it, and the save step that turns a session's positions into an annotation.
 *
 * records.saveAnnotation is modelled by appending to the ghost log `saved`.
 */
module RecordersManager {
  import opened Wrappers
  import opened PositionUtils
  import opened Recorder

  /** Prefix of the `editorGroup` of a saved track. */
  const SessionPrefix: string := "position-tracked-"
  /** Name given to every saved track. */
  const TrackName: string := "Track"

  /** An annotation as handed to records.saveAnnotation; `kind` is its `type` field. */
  datatype Annotation = Annotation(record: Feature, kind: string, isSynced: bool, editorGroup: string)

  /**
   * geoJSONAsAnnotation: names the feature, tags its properties with the
   * editor and an empty field list, and wraps it as an unsynced annotation.
   */
  function GeoJSONAsAnnotation(geoJSON: Feature, editorId: string, groupId: string, name: string): (annotation: Annotation)
    ensures annotation.record.name == Some(name)
    ensures annotation.record.geometry == geoJSON.geometry
    ensures annotation.record.properties.Keys == geoJSON.properties.Keys + {"editor", "fields"}
    ensures annotation.record.properties["editor"] == Text(groupId)
    ensures annotation.record.properties["fields"] == List([])
    ensures forall key :: key in geoJSON.properties && key != "editor" && key != "fields" ==>
              annotation.record.properties[key] == geoJSON.properties[key]
    ensures annotation.kind == groupId && !annotation.isSynced && annotation.editorGroup == editorId
  {
    var properties := geoJSON.properties["editor" := Text(groupId)]["fields" := List([])];
    var record := Feature(Some(name), properties, geoJSON.geometry);
    Annotation(record, groupId, false, editorId)
  }

  /** The registry key of a session. */
  function MakeId(editorId: string, groupId: string): string
  {
    groupId + "#" + editorId
  }

  /** Index of the first '#' in `s`, or |s| when there is none. */
  function HashIndex(s: string): nat
  {
    if s == [] then 0
    else if s[0] == '#' then 0
    else 1 + HashIndex(s[1..])
  }

  /** The first '#' of a key whose group id holds none is the separator MakeId inserts. */
  lemma {:induction false} HashIndexOfKey(editorId: string, groupId: string)
    requires '#' !in groupId
    ensures HashIndex(MakeId(editorId, groupId)) == |groupId|
  {
    if groupId != [] {
      assert MakeId(editorId, groupId)[1..] == MakeId(editorId, groupId[1..]);
      HashIndexOfKey(editorId, groupId[1..]);
    }
  }

  /** Keys of sessions whose group ids hold no '#' identify the session. */
  lemma {:induction false} MakeIdInjective(editorId1: string, groupId1: string, editorId2: string, groupId2: string)
    requires '#' !in groupId1 && '#' !in groupId2
    ensures MakeId(editorId1, groupId1) == MakeId(editorId2, groupId2)
        <==> editorId1 == editorId2 && groupId1 == groupId2
  {
    var id1, id2 := MakeId(editorId1, groupId1), MakeId(editorId2, groupId2);
    if id1 == id2 {
      HashIndexOfKey(editorId1, groupId1);
      HashIndexOfKey(editorId2, groupId2);
      assert groupId1 == id1[..|groupId1|] == id2[..|groupId2|] == groupId2;
      assert editorId1 == id1[|groupId1| + 1..] == id2[|groupId2| + 1..] == editorId2;
    }
  }

  /** Number of characters after the last '#' of `s`, or |s| when there is none. */
  function TailAfterHash(s: string): nat
  {
    if s == [] then 0
    else if s[|s| - 1] == '#' then 0
    else 1 + TailAfterHash(s[..|s| - 1])
  }

  /** The last '#' of a key whose editor id holds none is the separator MakeId inserts. */
  lemma {:induction false} TailAfterHashOfKey(editorId: string, groupId: string)
    requires '#' !in editorId
    ensures TailAfterHash(MakeId(editorId, groupId)) == |editorId|
  {
    if editorId != [] {
      var shorter := editorId[..|editorId| - 1];
      assert MakeId(editorId, groupId)[..|MakeId(editorId, groupId)| - 1] == MakeId(shorter, groupId);
      TailAfterHashOfKey(shorter, groupId);
    }
  }

  /** Keys of sessions whose editor ids hold no '#' identify the session. */
  lemma {:induction false} MakeIdInjectiveByEditor(editorId1: string, groupId1: string, editorId2: string, groupId2: string)
    requires '#' !in editorId1 && '#' !in editorId2
    ensures MakeId(editorId1, groupId1) == MakeId(editorId2, groupId2)
        <==> editorId1 == editorId2 && groupId1 == groupId2
  {
    var id1, id2 := MakeId(editorId1, groupId1), MakeId(editorId2, groupId2);
    if id1 == id2 {
      TailAfterHashOfKey(editorId1, groupId1);
      TailAfterHashOfKey(editorId2, groupId2);
      assert groupId1 == id1[..|groupId1|] == id2[..|groupId2|] == groupId2;
      assert editorId1 == id1[|groupId1| + 1..] == id2[|groupId2| + 1..] == editorId2;
    }
  }

  /**
   * Two different sessions can share one registry key when one session's
   * group id and the other's editor id both hold a '#'.
   */
  lemma MakeIdCollides()
    ensures exists editorId1, groupId1, editorId2, groupId2 ::
              (editorId1, groupId1) != (editorId2, groupId2) && MakeId(editorId1, groupId1) == MakeId(editorId2, groupId2)
  {
    assert MakeId("c", "a#b") == "a#b#c" == MakeId("b#c", "a");
    assert ("c", "a#b") != ("b#c", "a");
  }

  /** The annotation list a save hands to records.saveAnnotation: none or one. */
  function Logged(annotation: Option<Annotation>): seq<Annotation>
  {
    if annotation.Some? then [annotation.value] else []
  }

  /**
   * What saving a session's positions produces: nothing for no positions, a
   * projected Point for one, a projected LineString for more, wrapped as an
   * annotation typed by the group and tagged with the prefixed editor id.
   */
  function TrackAnnotation(positions: seq<Position>, editorId: string, groupId: string, pointToInternal: Projection)
    : (annotation: Option<Annotation>)
    ensures annotation.None? <==> |positions| == 0
    ensures |positions| == 1 ==>
              annotation.value.record.geometry == Point(Coordinates(positions[0], Bool(true), pointToInternal))
    ensures |positions| > 1 ==>
              && annotation.value.record.geometry.LineString?
              && |annotation.value.record.geometry.line| == |positions|
              && forall i :: 0 <= i < |positions| ==>
                   annotation.value.record.geometry.line[i] == Coordinates(positions[i], Bool(true), pointToInternal)
    ensures annotation.Some? ==>
              && !annotation.value.isSynced
              && annotation.value.kind == groupId
              && annotation.value.editorGroup == SessionPrefix + editorId
              && annotation.value.record.name == Some(TrackName)
              && annotation.value.record.properties.Keys >= {"editor", "fields"}
              && annotation.value.record.properties["editor"] == Text(groupId)
              && annotation.value.record.properties["fields"] == List([])
  {
    if |positions| == 0 then None
    else
      var geoJSON :=
        if |positions| == 1 then PointFeature(positions[0], Bool(true), pointToInternal)
        else LineStringFeature(positions, Bool(true), pointToInternal);
      Some(GeoJSONAsAnnotation(geoJSON, SessionPrefix + editorId, groupId, TrackName))
  }

  /** PositionRecorders: the registry object, a dictionary keyed by MakeId. */
  class PositionRecorders {
    var recorders: map<string, PositionRecorder>

    constructor ()
      ensures recorders == map[]
    {
      recorders := map[];
    }

    method GetAll() returns (all: map<string, PositionRecorder>)
      ensures all == recorders
    {
      all := recorders;
    }

    /** The recorder under the session's key, or null (undefined) when there is none. */
    method Get(editorId: string, groupId: string) returns (recorder: PositionRecorder?)
      ensures recorder != null <==> MakeId(editorId, groupId) in recorders
      ensures recorder != null ==> recorder == recorders[MakeId(editorId, groupId)]
    {
      var id := MakeId(editorId, groupId);
      recorder := if id in recorders then recorders[id] else null;
    }

    method Put(recorder: PositionRecorder, editorId: string, groupId: string)
      modifies this
      ensures recorders == old(recorders)[MakeId(editorId, groupId) := recorder]
    {
      recorders := recorders[MakeId(editorId, groupId) := recorder];
    }

    method Remove(editorId: string, groupId: string)
      modifies this
      ensures recorders == old(recorders) - {MakeId(editorId, groupId)}
    {
      recorders := recorders - {MakeId(editorId, groupId)};
    }
  }

  class PositionRecordersManager {
    const recorders: PositionRecorders
    /** The map's pointToInternal, used to project saved tracks. */
    const pointToInternal: Projection
    /** Every annotation handed to records.saveAnnotation, in order. */
    ghost var saved: seq<Annotation>

    ghost function Sessions(): map<string, PositionRecorder>
      reads recorders
    {
      recorders.recorders
    }

    /** Each session has its own recorder, and every recorder is consistent. */
    ghost predicate Valid()
      reads recorders, recorders.recorders.Values
    {
      && (forall id1, id2 :: id1 in Sessions() && id2 in Sessions() && id1 != id2 ==> Sessions()[id1] != Sessions()[id2])
      && (forall id :: id in Sessions() ==> Sessions()[id].Valid())
    }

    constructor (pointToInternal: Projection)
      ensures Valid() && fresh(recorders)
      ensures Sessions() == map[] && saved == []
      ensures this.pointToInternal == pointToInternal
    {
      recorders := new PositionRecorders();
      this.pointToInternal := pointToInternal;
      saved := [];
    }

    method GetRecorders(editorId: string, groupId: string) returns (all: map<string, PositionRecorder>)
      ensures all == Sessions()
    {
      all := recorders.GetAll();
    }

    /**
     * Starts or continues a session: registers a new recorder when the key
     * is free and starts the recorder unless it is already recording.
     */
    method StartRecorder(editorId: string, groupId: string) returns (recorder: PositionRecorder)
      requires Valid()
      modifies recorders, recorders.recorders.Values
      ensures Valid()
      ensures Sessions() == old(Sessions())[MakeId(editorId, groupId) := recorder]
      ensures recorder.recordingFlag
      ensures MakeId(editorId, groupId) !in old(Sessions()) ==>
                && fresh(recorder) && recorder.positions == []
                && |recorder.subscriptions| == 1 && fresh(recorder.subscriptions[0])
      ensures MakeId(editorId, groupId) in old(Sessions()) ==>
                && recorder == old(Sessions()[MakeId(editorId, groupId)])
                && recorder.positions == old(recorder.positions)
      ensures MakeId(editorId, groupId) in old(Sessions()) && old(recorder.recordingFlag) ==>
                recorder.subscriptions == old(recorder.subscriptions)
      ensures MakeId(editorId, groupId) in old(Sessions()) && !old(recorder.recordingFlag) ==>
                && |recorder.subscriptions| == |old(recorder.subscriptions)| + 1
                && recorder.subscriptions[..|old(recorder.subscriptions)|] == old(recorder.subscriptions)
                && fresh(recorder.subscriptions[|old(recorder.subscriptions)|])
      ensures forall id :: id in old(Sessions()) && id != MakeId(editorId, groupId) ==> unchanged(old(Sessions()[id]))
    {
      ghost var id := MakeId(editorId, groupId);
      var existing := recorders.Get(editorId, groupId);
      if existing == null {
        recorder := new PositionRecorder();
        recorders.Put(recorder, editorId, groupId);
      } else {
        recorder := existing;
        assert recorder == Sessions()[id];
      }
      assert Sessions() == old(Sessions())[id := recorder];
      assert recorder.Valid();
      var recording := recorder.IsRecording();
      if !recording {
        var _ := recorder.StartRecording();
      }
    }

    /** Stops the session's recorder and keeps it registered; null when there is no session. */
    method PauseRecorder(editorId: string, groupId: string) returns (recorder: PositionRecorder?)
      requires Valid()
      modifies recorders.recorders.Values
      ensures Valid()
      ensures Sessions() == old(Sessions())
      ensures recorder != null <==> MakeId(editorId, groupId) in Sessions()
      ensures recorder != null ==>
                && recorder == Sessions()[MakeId(editorId, groupId)]
                && !recorder.recordingFlag
                && recorder.positions == old(recorder.positions)
                && recorder.subscriptions == old(recorder.subscriptions)
      ensures forall id :: id in Sessions() && id != MakeId(editorId, groupId) ==> unchanged(Sessions()[id])
    {
      recorder := recorders.Get(editorId, groupId);
      if recorder != null {
        recorder.StopRecording();
      }
    }

    /** saveRecorder: hands the track of the recorder's positions, if any, to records.saveAnnotation. */
    method SaveRecorder(recorder: PositionRecorder, editorId: string, groupId: string)
      modifies this
      ensures saved == old(saved) + Logged(TrackAnnotation(recorder.positions, editorId, groupId, pointToInternal))
    {
      var positions := recorder.GetRecordedPositions();
      if |positions| > 0 {
        var geoJSON;
        if |positions| == 1 {
          geoJSON := PositionToGeoJSONPoint(positions[0], Bool(true), pointToInternal);
        } else {
          geoJSON := PositionsToLineString(positions, Bool(true), pointToInternal);
        }
        var annotation := GeoJSONAsAnnotation(geoJSON, SessionPrefix + editorId, groupId, TrackName);
        saved := saved + [annotation];
      }
    }

    /**
     * Ends a session: stops its recorder, saves its track and removes it from
     * the registry; null and no change when there is no session.
     */
    method StopRecorder(editorId: string, groupId: string) returns (recorder: PositionRecorder?)
      requires Valid()
      modifies this, recorders, recorders.recorders.Values
      ensures Valid()
      ensures recorder != null <==> MakeId(editorId, groupId) in old(Sessions())
      ensures recorder == null ==> Sessions() == old(Sessions()) && saved == old(saved)
      ensures recorder != null ==>
                && recorder == old(Sessions()[MakeId(editorId, groupId)])
                && Sessions() == old(Sessions()) - {MakeId(editorId, groupId)}
                && !recorder.recordingFlag
                && recorder.positions == old(recorder.positions)
                && recorder.subscriptions == old(recorder.subscriptions)
                && saved == old(saved) + Logged(TrackAnnotation(recorder.positions, editorId, groupId, pointToInternal))
      ensures forall id :: id in old(Sessions()) && id != MakeId(editorId, groupId) ==> unchanged(old(Sessions()[id]))
    {
      recorder := recorders.Get(editorId, groupId);
      if recorder != null {
        recorder.StopRecording();
        SaveRecorder(recorder, editorId, groupId);
        recorders.Remove(editorId, groupId);
        assert Sessions() == old(Sessions()) - {MakeId(editorId, groupId)};
      }
    }
  }
}
