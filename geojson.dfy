/** The wire encoder (src/utils/ToGeoJSON.ts): in-memory objects and polygons to the
    request shapes of a bulk save. Positions are `[lng, lat]` (section 3.1.1 of RFC 7946)
    and every ring is closed on the wire (section 3.1.6 of RFC 7946); the four-position
    minimum and the winding rule of that section are not enforced. */
module GeoJson {
  import opened Types

  /** `[p.lng, p.lat]` */
  function EncodePoint(p: GeoPoint): Position
  {
    [p.lng, p.lat]
  }

  /** A wire position read back as a point: longitude first. */
  function DecodePoint(pos: Position): GeoPoint
    requires |pos| == 2
  {
    GeoPoint(lat := pos[1], lng := pos[0])
  }

  lemma PointRoundTrip(p: GeoPoint)
    ensures |EncodePoint(p)| == 2 && DecodePoint(EncodePoint(p)) == p
  {
  }

  function EncodeObject(o: MapObject): MapObjectRequest
  {
    MapObjectRequest(EncodePoint(o.geometry), o.properties)
  }

  /** `toGeoJsonObjects`: one request per object, in order, coordinates `[lng, lat]`,
      name and symbol copied (`name || ""` is the name itself for every string). */
  function ToGeoJsonObjects(objects: seq<MapObject>): (r: seq<MapObjectRequest>)
    ensures |r| == |objects|
    ensures forall i :: 0 <= i < |objects| ==>
      && r[i].coordinates == [objects[i].geometry.lng, objects[i].geometry.lat]
      && r[i].properties == objects[i].properties
  {
    seq(|objects|, i requires 0 <= i < |objects| => EncodeObject(objects[i]))
  }

  /** A ring whose last point is its first; a 1-point ring is closed. */
  predicate IsClosed(ring: seq<GeoPoint>)
  {
    |ring| > 0 && ring[0] == ring[|ring| - 1]
  }

  /** The reference definition of closing, on points: append the first point iff the ring
      is not closed already. */
  function CloseRing(ring: seq<GeoPoint>): (r: seq<GeoPoint>)
    requires |ring| > 0
    ensures IsClosed(r)
    ensures |ring| <= |r| && r[..|ring|] == ring
  {
    if IsClosed(ring) then ring else ring + [ring[0]]
  }

  /** `ring.map(p => [p.lng, p.lat])` */
  function EncodePoints(ring: seq<GeoPoint>): (r: seq<Position>)
    ensures |r| == |ring|
    ensures forall i :: 0 <= i < |ring| ==> r[i] == [ring[i].lng, ring[i].lat]
  {
    seq(|ring|, i requires 0 <= i < |ring| => EncodePoint(ring[i]))
  }

  /** Positions read back as points. */
  function DecodePoints(positions: seq<Position>): (r: seq<GeoPoint>)
    requires forall i :: 0 <= i < |positions| ==> |positions[i]| == 2
    ensures |r| == |positions|
  {
    seq(|positions|, i requires 0 <= i < |positions| => DecodePoint(positions[i]))
  }

  /** One ring of `toGeoJsonPolygons`: the positions of the ring, and the first one pushed
      again when first and last differ in either coordinate. An empty ring makes the code
      dereference `undefined`, so it is excluded here. */
  function EncodeRing(ring: seq<GeoPoint>): (r: seq<Position>)
    requires |ring| > 0
    ensures r == EncodePoints(CloseRing(ring))
    ensures |r| == if IsClosed(ring) then |ring| else |ring| + 1
    ensures forall i :: 0 <= i < |ring| ==> r[i] == [ring[i].lng, ring[i].lat]
    ensures r[|r| - 1] == r[0]
  {
    var coords := EncodePoints(ring);
    var first := coords[0];
    var last := coords[|coords| - 1];
    if first[0] != last[0] || first[1] != last[1] then coords + [first] else coords
  }

  /** Encoding is idempotent on its own output: a closed ring is never closed twice. */
  lemma EncodeRingIdempotent(ring: seq<GeoPoint>)
    requires |ring| > 0
    ensures forall i :: 0 <= i < |EncodeRing(ring)| ==> |EncodeRing(ring)[i]| == 2
    ensures EncodeRing(DecodePoints(EncodeRing(ring))) == EncodeRing(ring)
  {
    var r := EncodeRing(ring);
    var back := DecodePoints(r);
    assert back == CloseRing(ring) by {
      forall i | 0 <= i < |back| ensures back[i] == CloseRing(ring)[i] {
        assert r[i] == EncodePoint(CloseRing(ring)[i]);
      }
    }
  }

  /** Every ring of the polygon has a first point. */
  predicate RingsNonEmpty(p: MapPolygon)
  {
    forall j :: 0 <= j < |p.coordinates| ==> |p.coordinates[j]| > 0
  }

  /** The polygons `toGeoJsonPolygons` encodes without throwing. */
  predicate Encodable(polygons: seq<MapPolygon>)
  {
    forall i :: 0 <= i < |polygons| ==> RingsNonEmpty(polygons[i])
  }

  function EncodePolygon(p: MapPolygon): MapPolygonRequest
    requires RingsNonEmpty(p)
  {
    MapPolygonRequest(
      seq(|p.coordinates|, j requires 0 <= j < |p.coordinates| => EncodeRing(p.coordinates[j])),
      p.name)
  }

  /** `toGeoJsonPolygons`: one request per polygon, in order, each ring encoded and closed
      in place, the exterior ring first. */
  function ToGeoJsonPolygons(polygons: seq<MapPolygon>): (r: seq<MapPolygonRequest>)
    requires Encodable(polygons)
    ensures |r| == |polygons|
    ensures forall i :: 0 <= i < |polygons| ==>
      r[i].name == polygons[i].name && |r[i].coordinates| == |polygons[i].coordinates|
    ensures forall i, j :: 0 <= i < |polygons| && 0 <= j < |polygons[i].coordinates| ==>
      r[i].coordinates[j] == EncodeRing(polygons[i].coordinates[j])
  {
    seq(|polygons|, i requires 0 <= i < |polygons| => EncodePolygon(polygons[i]))
  }

  /** Every ring of every encoded polygon is non-empty and closed. */
  lemma EncodedRingsClosed(polygons: seq<MapPolygon>)
    requires Encodable(polygons)
    ensures forall i, j :: 0 <= i < |polygons| && 0 <= j < |polygons[i].coordinates| ==>
      var ring := ToGeoJsonPolygons(polygons)[i].coordinates[j];
      |ring| > 0 && ring[0] == ring[|ring| - 1]
  {
    var r := ToGeoJsonPolygons(polygons);
    forall i, j | 0 <= i < |polygons| && 0 <= j < |polygons[i].coordinates|
      ensures |r[i].coordinates[j]| > 0 && r[i].coordinates[j][0] == r[i].coordinates[j][|r[i].coordinates[j]| - 1]
    {
      var ring := polygons[i].coordinates[j];
      assert |ring| > 0;
      assert r[i].coordinates[j] == EncodeRing(ring);
    }
  }
}
