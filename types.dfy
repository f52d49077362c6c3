/** The entities of the annotation layer and their wire shapes (src/services/types.ts).
    Fields whose TypeScript type is a single string literal (`type: "Feature"`,
    `geometry.type: "Point"` / `"Polygon"`) have exactly one possible value and are
    not represented. */
module Types {

  /** A TypeScript `T | null` value. */
  datatype Nullable<T> = Null | Some(value: T)

  /** JavaScript truthiness of a `string | null`: `null` and `""` are falsy. */
  predicate IsTruthy(s: Nullable<string>)
  {
    s.Some? && s.value != ""
  }

  /** A coordinate of the canonical in-memory form. Coordinates are only copied and
      compared for equality, never computed on. */
  datatype GeoPoint = GeoPoint(lat: real, lng: real)

  datatype ObjectProperties = ObjectProperties(symbol: string, name: string)

  /** A point object placed on the map. */
  datatype MapObject = MapObject(id: string, geometry: GeoPoint, properties: ObjectProperties)

  /** A polygon; `coordinates[0]` is the exterior ring and the other rings are holes. */
  datatype MapPolygon = MapPolygon(id: string, coordinates: seq<seq<GeoPoint>>, name: string)

  /** A position on the wire: the JSON number array `[lng, lat]`. */
  type Position = seq<real>

  /** Request body of one object in a bulk save. */
  datatype MapObjectRequest = MapObjectRequest(coordinates: Position, properties: ObjectProperties)

  /** Request body of one polygon in a bulk save: rings of positions. */
  datatype MapPolygonRequest = MapPolygonRequest(coordinates: seq<seq<Position>>, name: string)

  /** A server position `{ values: [lng, lat], x, y }`. */
  datatype GeoCoordinatesResponse = GeoCoordinatesResponse(values: (real, real), x: real, y: real)

  /** A server object; its coordinates are read by the store as the pair `[lng, lat]`. */
  datatype MapObjectResponse = MapObjectResponse(id: string, coordinates: (real, real), properties: ObjectProperties)

  /** A server polygon in the structured exterior/holes shape. */
  datatype MapPolygonResponse = MapPolygonResponse(
    id: string,
    exterior: seq<GeoCoordinatesResponse>,
    holes: seq<seq<GeoCoordinatesResponse>>,
    name: string)

  /** What a click on the map means. */
  datatype DrawingMode = None | Polygon | Object
}
