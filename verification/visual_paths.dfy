/** The visual path builder of App.tsx:158-178: for each voyage, an
    outbound line along its waypoints and an inbound line back along them,
    both tagged with the voyage's id, title and colour. */
module VisualPaths {
  import opened Types
  import opened Sequences

  datatype Direction = Outbound | Inbound

  /** `[lat, lng, altitude]`, one vertex of a globe path line. */
  datatype PathPoint = PathPoint(lat: real, lng: real, altitude: real)

  datatype VisualPathSegment = VisualPathSegment(
    voyageId: int,
    voyageTitle: string,
    baseColor: string,
    kind: Direction,
    path: seq<PathPoint>)

  /** The height above the globe at which path lines are drawn. */
  const PathAltitude: real := 0.002

  /** `path.map(p => [p.lat, p.lng, 0.002])`. */
  function ToLine(path: seq<Waypoint>): (line: seq<PathPoint>)
    ensures |line| == |path|
  {
    seq(|path|, k requires 0 <= k < |path| => PathPoint(path[k].lat, path[k].lng, PathAltitude))
  }

  /** Drawing the reversed waypoints is drawing the reversed line. */
  lemma ToLineReverse(path: seq<Waypoint>)
    ensures ToLine(Reverse(path)) == Reverse(ToLine(path))
  {
    var a, b := ToLine(Reverse(path)), Reverse(ToLine(path));
    forall k | 0 <= k < |path| ensures a[k] == b[k] {
      assert Reverse(path)[k] == path[|path| - 1 - k];
    }
  }

  /** The outbound/inbound pair of voyage v, as the builder pushes it. */
  ghost predicate PairFor(v: Voyage, out: VisualPathSegment, back: VisualPathSegment)
  {
    && out.voyageId == v.id && out.voyageTitle == v.title && out.baseColor == v.color
    && back.voyageId == v.id && back.voyageTitle == v.title && back.baseColor == v.color
    && out.kind == Outbound && back.kind == Inbound
    && |out.path| == |v.path|
    && (forall k :: 0 <= k < |v.path| ==> out.path[k].lat == v.path[k].lat && out.path[k].lng == v.path[k].lng)
    && back.path == Reverse(out.path)
  }

  /** App.tsx:158-178: two descriptors per voyage, in voyage order, the
      inbound line retracing the outbound one; every vertex is drawn at
      the path altitude. */
  method BuildVisualPaths(voyages: seq<Voyage>) returns (segments: seq<VisualPathSegment>)
    ensures |segments| == 2 * |voyages|
    ensures forall i :: 0 <= i < |voyages| ==> PairFor(voyages[i], segments[2 * i], segments[2 * i + 1])
    ensures forall i, k :: 0 <= i < |segments| && 0 <= k < |segments[i].path| ==>
      segments[i].path[k].altitude == PathAltitude
  {
    segments := [];
    var i := 0;
    while i < |voyages|
      invariant 0 <= i <= |voyages|
      invariant |segments| == 2 * i
      invariant forall j :: 0 <= j < i ==> PairFor(voyages[j], segments[2 * j], segments[2 * j + 1])
      invariant forall j, k :: 0 <= j < |segments| && 0 <= k < |segments[j].path| ==>
        segments[j].path[k].altitude == PathAltitude
    {
      var v := voyages[i];
      var out := VisualPathSegment(v.id, v.title, v.color, Outbound, ToLine(v.path));
      var back := VisualPathSegment(v.id, v.title, v.color, Inbound, ToLine(Reverse(v.path)));
      ToLineReverse(v.path);
      segments := segments + [out] + [back];
      i := i + 1;
    }
  }
}
