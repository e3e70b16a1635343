/**
 * Conversion of recorded positions into GeoJSON features
 * (src/www/js/position-utils.js).
 *
 * Each conversion is a method with the loop the source runs, proved equal to a
 * specification function; the functions carry the properties of the result.
 * Coordinates are opaque values that are only copied; the projection into the
 * map's internal reference system (map.pointToInternal) is a parameter.
 */
module PositionUtils {
  import opened Wrappers

  /** A JavaScript value as it occurs in a position record or a GeoJSON object. */
  datatype Value =
    | Undefined
    | Null
    | Bool(b: bool)
    | Number(n: real)
    | Text(s: string)
    | List(items: seq<Value>)

  /** A position as delivered by the location source: its `coords` object and its timestamp. */
  datatype Position = Position(coords: map<string, Value>, timestamp: Value)

  /** A coordinate pair `[lon, lat]`, or the `{lon, lat}` point returned by the projection. */
  datatype LonLat = LonLat(lon: Value, lat: Value)

  datatype Geometry =
    | Point(point: LonLat)
    | LineString(line: seq<LonLat>)

  /**
   * A GeoJSON object of type 'Feature'. `name` is absent on the features the
   * conversions build and is set when a feature is wrapped as an annotation.
   */
  datatype Feature = Feature(name: Option<string>, properties: map<string, Value>, geometry: Geometry)

  /** A GeoJSON object of type 'FeatureCollection'. */
  datatype FeatureCollection = FeatureCollection(features: seq<Feature>)

  /** The external map.pointToInternal. */
  type Projection = LonLat -> LonLat

  /** The fields of `coords` that go into the geometry rather than the properties. */
  const IgnoredProperties: set<string> := {"longitude", "latitude"}

  /** Property access on a JavaScript object: a missing field reads as undefined. */
  function Field(obj: map<string, Value>, key: string): Value
  {
    if key in obj then obj[key] else Undefined
  }

  /** `[position.coords.longitude, position.coords.latitude]` */
  function RawCoordinates(position: Position): LonLat
  {
    LonLat(Field(position.coords, "longitude"), Field(position.coords, "latitude"))
  }

  /**
   * The coordinate pair stored for one position: projected through
   * pointToInternal when `project` is exactly `true`, copied otherwise.
   */
  function Coordinates(position: Position, project: Value, pointToInternal: Projection): LonLat
  {
    var coordinates := RawCoordinates(position);
    if project == Bool(true) then
      var point := pointToInternal(coordinates);
      LonLat(point.lon, point.lat)
    else
      coordinates
  }

  /** Every field of `coords` except longitude and latitude, with its value. */
  function CopiedProperties(coords: map<string, Value>): map<string, Value>
  {
    map key | key in coords && key !in IgnoredProperties :: coords[key]
  }

  /** Specification of positionToGeoJSONPoint. */
  function PointFeature(position: Position, project: Value, pointToInternal: Projection): Feature
  {
    Feature(None, CopiedProperties(position.coords), Point(Coordinates(position, project, pointToInternal)))
  }

  /** The coordinates of a LineString, one pair pushed per position in input order. */
  function LineCoordinates(positions: seq<Position>, project: Value, pointToInternal: Projection): (line: seq<LonLat>)
    ensures |line| == |positions|
    ensures forall i :: 0 <= i < |positions| ==> line[i] == Coordinates(positions[i], project, pointToInternal)
  {
    if positions == [] then []
    else
      var n := |positions| - 1;
      LineCoordinates(positions[..n], project, pointToInternal) + [Coordinates(positions[n], project, pointToInternal)]
  }

  /** Specification of positionsToLineString. */
  function LineStringFeature(positions: seq<Position>, project: Value, pointToInternal: Projection): Feature
  {
    Feature(None, map[], LineString(LineCoordinates(positions, project, pointToInternal)))
  }

  /** The features of a FeatureCollection, one Point feature pushed per position in input order. */
  function PointFeatures(positions: seq<Position>, project: Value, pointToInternal: Projection): (features: seq<Feature>)
    ensures |features| == |positions|
    ensures forall i :: 0 <= i < |positions| ==> features[i] == PointFeature(positions[i], project, pointToInternal)
  {
    if positions == [] then []
    else
      var n := |positions| - 1;
      PointFeatures(positions[..n], project, pointToInternal) + [PointFeature(positions[n], project, pointToInternal)]
  }

  /** Specification of positionsToFeatureCollection. */
  function FeatureCollectionOf(positions: seq<Position>, project: Value, pointToInternal: Projection): FeatureCollection
  {
    FeatureCollection(PointFeatures(positions, project, pointToInternal))
  }

  /**
   * positionToGeoJSONPoint: a Point feature at the (possibly projected)
   * coordinates of the position, whose properties are the other coords fields.
   */
  method PositionToGeoJSONPoint(position: Position, project: Value, pointToInternal: Projection)
    returns (feature: Feature)
    ensures feature == PointFeature(position, project, pointToInternal)
    ensures feature.name == None
    ensures feature.geometry == Point(Coordinates(position, project, pointToInternal))
    ensures project != Bool(true) ==>
              feature.geometry == Point(LonLat(Field(position.coords, "longitude"), Field(position.coords, "latitude")))
    ensures project == Bool(true) ==>
              feature.geometry
              == Point(pointToInternal(LonLat(Field(position.coords, "longitude"), Field(position.coords, "latitude"))))
    ensures forall key :: key in feature.properties <==> key in position.coords && key !in IgnoredProperties
    ensures forall key :: key in feature.properties ==> feature.properties[key] == position.coords[key]
  {
    var geometry := Point(Coordinates(position, project, pointToInternal));
    var properties: map<string, Value> := map[];
    var rest := position.coords.Keys;
    while rest != {}
      invariant rest <= position.coords.Keys
      invariant properties == map key | key in position.coords && key !in rest && key !in IgnoredProperties :: position.coords[key]
      decreases rest
    {
      var key :| key in rest;
      if key !in IgnoredProperties {
        properties := properties[key := position.coords[key]];
      }
      rest := rest - {key};
    }
    feature := Feature(None, properties, geometry);
  }

  /**
   * positionsToLineString: a LineString feature with one coordinate pair per
   * position, in input order, and empty properties.
   */
  method PositionsToLineString(positions: seq<Position>, project: Value, pointToInternal: Projection)
    returns (feature: Feature)
    ensures feature == LineStringFeature(positions, project, pointToInternal)
    ensures feature.name == None && feature.properties == map[]
    ensures feature.geometry.LineString? && |feature.geometry.line| == |positions|
    ensures forall i :: 0 <= i < |positions| ==>
              feature.geometry.line[i] == Coordinates(positions[i], project, pointToInternal)
  {
    var line: seq<LonLat> := [];
    for i := 0 to |positions|
      invariant line == LineCoordinates(positions[..i], project, pointToInternal)
    {
      assert positions[..i + 1][..i] == positions[..i];
      line := line + [Coordinates(positions[i], project, pointToInternal)];
    }
    assert positions[..|positions|] == positions;
    feature := Feature(None, map[], LineString(line));
  }

  /**
   * positionsToFeatureCollection: one Point feature per position, in input
   * order, each built by PositionToGeoJSONPoint.
   */
  method PositionsToFeatureCollection(positions: seq<Position>, project: Value, pointToInternal: Projection)
    returns (collection: FeatureCollection)
    ensures collection == FeatureCollectionOf(positions, project, pointToInternal)
    ensures |collection.features| == |positions|
    ensures forall i :: 0 <= i < |positions| ==>
              collection.features[i] == PointFeature(positions[i], project, pointToInternal)
  {
    var features: seq<Feature> := [];
    for i := 0 to |positions|
      invariant features == PointFeatures(positions[..i], project, pointToInternal)
    {
      assert positions[..i + 1][..i] == positions[..i];
      var feature := PositionToGeoJSONPoint(positions[i], project, pointToInternal);
      features := features + [feature];
    }
    assert positions[..|positions|] == positions;
    collection := FeatureCollection(features);
  }

  /** Without projection the geometry of a Point carries the input longitude and latitude unchanged. */
  lemma UnprojectedPointKeepsCoordinates(position: Position, project: Value, pointToInternal: Projection)
    requires project != Bool(true)
    requires "longitude" in position.coords && "latitude" in position.coords
    ensures PointFeature(position, project, pointToInternal).geometry
         == Point(LonLat(position.coords["longitude"], position.coords["latitude"]))
  {
  }

  /** A Point feature's properties are exactly the coords fields other than longitude and latitude. */
  lemma PointPropertiesAreCoordsFields(position: Position, project: Value, pointToInternal: Projection, key: string)
    ensures key in PointFeature(position, project, pointToInternal).properties
        <==> key in position.coords && key != "longitude" && key != "latitude"
    ensures key in PointFeature(position, project, pointToInternal).properties ==>
              PointFeature(position, project, pointToInternal).properties[key] == position.coords[key]
  {
  }
}
