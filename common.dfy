/** Values shared by the two tiling scripts: geometry, features, orbit
    directions and the failures that abort a run. */
module Common {

  datatype Option<+T> = None | Some(value: T)

  /** The ways a run stops. Python raises each of them as an exception
      that nothing catches, so the run ends at the burst that raised it. */
  datatype Error =
    | InvalidDatasetId(prefix: string)  // the file-name prefix is not an integer
    | MissingSegment(index: nat)        // the description has no segment with this index
    | UnknownOrbit(orb: string)         // orbit token neither ASCENDING nor DESCENDING
    | EmptyGeometry                     // the geometry has no first point
    | UnboundColor                      // overview feature built before any burst set `color`

  datatype Result<+T> = Ok(value: T) | Err(error: Error)

  /** A vertex as GeoJSON orders it: longitude first, then latitude. */
  datatype Point = Point(lon: real, lat: real)

  type Ring = seq<Point>

  /** A GeoJSON geometry: its type name and its rings (the first is the exterior). */
  datatype Geometry = Geometry(kind: string, coordinates: seq<Ring>)

  /** One burst footprint as the converted KMZ delivers it. */
  datatype InFeature = InFeature(description: string, geometry: Geometry)

  /** A feature written to a tile file, with its display properties. */
  datatype Feature = Feature(
    name: string,
    color: string,
    opacity: real,
    weight: int,
    fillColor: string,
    fillOpacity: real,
    geometry: Geometry)

  datatype Direction = Ascending | Descending

  /** One converted KMZ file: its GeoJSON file name and its features. */
  datatype Dataset = Dataset(name: string, features: seq<InFeature>)

  /** One call of add_feature: the feature and the file it is appended to. */
  datatype Append = Append(path: string, feature: Feature)
}
