/** The round-trip route segmenter and the segment lookup of the voyage
    engine (App.tsx:183-191 and App.tsx:256-260): a voyage's waypoints become
    a closed loop of nodes, the loop becomes a list of segments carrying
    their length and the distance travelled before them, and a distance
    along the loop is mapped back to the segment that holds it. */
module Route {
  import opened Types
  import opened Geodesic
  import opened Sequences

  /** `[...path, ...[...path].reverse().slice(1)]`: out along the path and back
      again, visiting the turnaround waypoint once. */
  function RoundTrip<T>(path: seq<T>): (nodes: seq<T>)
    ensures path == [] ==> nodes == []
    ensures path != [] ==> |nodes| == 2 * |path| - 1
    ensures |path| <= |nodes| && nodes[..|path|] == path
    // the way back visits the path's waypoints in reverse
    ensures forall i :: 0 <= i < |path| ==> nodes[|nodes| - 1 - i] == path[i]
    ensures path != [] ==> nodes[0] == nodes[|nodes| - 1] == path[0]
  {
    var back := Reverse(path);
    path + (if back == [] then [] else back[1..])
  }

  /** A leg of the ship's loop, as pushed by the segment builder. */
  datatype Segment = Segment(start: Waypoint, end: Waypoint, dist: real, accumDist: real)

  /** The distance from waypoint a to waypoint b. */
  function LegLength(a: Waypoint, b: Waypoint, d: DistanceFn): (r: real)
    ensures r >= 0.0
  {
    d(a.lat, a.lng, b.lat, b.lng)
  }

  /** The length of the polyline through nodes: the sum of its legs. */
  function PathLength(nodes: seq<Waypoint>, d: DistanceFn): (r: real)
    ensures r >= 0.0
    decreases |nodes|
  {
    if |nodes| <= 1 then 0.0
    else PathLength(nodes[..|nodes| - 1], d) + LegLength(nodes[|nodes| - 2], nodes[|nodes| - 1], d)
  }

  /** The i-th segment of the loop through nodes: its endpoints, its length
      and the length of the loop up to its start. */
  function Leg(nodes: seq<Waypoint>, d: DistanceFn, i: nat): (r: Segment)
    requires i + 1 < |nodes|
    // a leg never has negative length and never starts before the loop does
    ensures r.dist >= 0.0 && r.accumDist >= 0.0
  {
    Segment(nodes[i], nodes[i + 1], LegLength(nodes[i], nodes[i + 1], d), PathLength(nodes[..i + 1], d))
  }

  /** One segment per consecutive pair of nodes. */
  function Legs(nodes: seq<Waypoint>, d: DistanceFn): (segs: seq<Segment>)
    // one segment per consecutive pair of nodes
    ensures |nodes| >= 1 ==> |segs| == |nodes| - 1
    ensures |nodes| == 0 ==> segs == []
  {
    seq(if |nodes| == 0 then 0 else |nodes| - 1, i requires 0 <= i < |nodes| - 1 => Leg(nodes, d, i))
  }

  /** Segment i joins node i to node i + 1. */
  lemma LegsJoinNodes(nodes: seq<Waypoint>, d: DistanceFn)
    ensures var segs := Legs(nodes, d);
      forall i :: 0 <= i < |segs| ==> segs[i].start == nodes[i] && segs[i].end == nodes[i + 1]
  {
  }

  /** The sum of the lengths of segs. */
  function SumDist(segs: seq<Segment>): real
  {
    if segs == [] then 0.0 else SumDist(segs[..|segs| - 1]) + segs[|segs| - 1].dist
  }

  /** The builder loop of App.tsx:185-191: push one segment per node pair,
      recording the running total before adding the segment's length. */
  method BuildSegments(nodes: seq<Waypoint>, d: DistanceFn) returns (segments: seq<Segment>, total: real)
    ensures segments == Legs(nodes, d)
    ensures total == PathLength(nodes, d)
  {
    segments := [];
    total := 0.0;
    var i := 0;
    while i < |nodes| - 1
      invariant 0 <= i <= |nodes|
      invariant |nodes| > 0 ==> i < |nodes|
      invariant |segments| == i
      invariant forall k :: 0 <= k < i ==> segments[k] == Leg(nodes, d, k)
      invariant |nodes| > 0 ==> total == PathLength(nodes[..i + 1], d)
      invariant |nodes| == 0 ==> total == 0.0
    {
      var dist := LegLength(nodes[i], nodes[i + 1], d);
      segments := segments + [Segment(nodes[i], nodes[i + 1], dist, total)];
      assert nodes[..i + 2][..i + 1] == nodes[..i + 1];
      total := total + dist;
      i := i + 1;
    }
    assert |nodes| > 0 ==> nodes[..i + 1] == nodes;
  }

  /** Each segment of the loop starts where the previous one ends. */
  lemma LegsChained(nodes: seq<Waypoint>, d: DistanceFn)
    ensures var segs := Legs(nodes, d);
      forall i :: 0 <= i < |segs| - 1 ==> segs[i + 1].accumDist == segs[i].accumDist + segs[i].dist
  {
    var segs := Legs(nodes, d);
    forall i | 0 <= i < |segs| - 1
      ensures segs[i + 1].accumDist == segs[i].accumDist + segs[i].dist
    {
      assert nodes[..i + 2][..i + 1] == nodes[..i + 1];
    }
  }

  /** The last segment of the loop ends at the loop's length. */
  lemma LegsEndAtLength(nodes: seq<Waypoint>, d: DistanceFn)
    ensures var segs := Legs(nodes, d);
      segs != [] ==> segs[|segs| - 1].accumDist + segs[|segs| - 1].dist == PathLength(nodes, d)
  {
    var segs := Legs(nodes, d);
    if segs != [] {
      assert nodes[..|segs|] == nodes[..|nodes| - 1];
      assert nodes[..|segs| + 1] == nodes;
    }
  }

  /** The segments tile the loop: the first starts at distance 0, each one
      starts where the previous one ends, the last ends at the loop's length,
      and each starts after exactly the sum of the lengths before it. */
  lemma {:induction false} LegsPartition(nodes: seq<Waypoint>, d: DistanceFn)
    ensures var segs := Legs(nodes, d);
      && (segs != [] ==> segs[0].accumDist == 0.0)
      && (forall i :: 0 <= i < |segs| - 1 ==> segs[i + 1].accumDist == segs[i].accumDist + segs[i].dist)
      && (segs != [] ==> segs[|segs| - 1].accumDist + segs[|segs| - 1].dist == PathLength(nodes, d))
      && (forall i :: 0 <= i < |segs| ==> segs[i].accumDist == SumDist(segs[..i]))
      && PathLength(nodes, d) == SumDist(segs)
  {
    var segs := Legs(nodes, d);
    LegsChained(nodes, d);
    LegsEndAtLength(nodes, d);
    if segs != [] {
      assert segs[0].accumDist == PathLength(nodes[..1], d) == 0.0;
      PrefixSums(segs);
    }
  }

  /** Each segment starts where the previous one ends. */
  ghost predicate Contiguous(segs: seq<Segment>)
  {
    forall i :: 0 <= i < |segs| - 1 ==> segs[i + 1].accumDist == segs[i].accumDist + segs[i].dist
  }

  /** Contiguous segments starting at 0 each start after the sum of the
      lengths before them. */
  lemma {:induction false} PrefixSums(segs: seq<Segment>)
    requires Contiguous(segs) && segs != [] && segs[0].accumDist == 0.0
    ensures forall i :: 0 <= i < |segs| ==> segs[i].accumDist == SumDist(segs[..i])
    ensures segs[|segs| - 1].accumDist + segs[|segs| - 1].dist == SumDist(segs)
  {
    var n := |segs|;
    if n == 1 {
      assert segs[..0] == [];
      assert segs[..n - 1] == [];
    } else {
      var prev := segs[..n - 1];
      assert Contiguous(prev) by {
        forall i | 0 <= i < |prev| - 1
          ensures prev[i + 1].accumDist == prev[i].accumDist + prev[i].dist
        {
          assert prev[i] == segs[i] && prev[i + 1] == segs[i + 1];
        }
      }
      PrefixSums(prev);
      forall i | 0 <= i < n
        ensures segs[i].accumDist == SumDist(segs[..i])
      {
        if i < n - 1 {
          assert prev[..i] == segs[..i];
        } else {
          assert segs[i].accumDist == prev[n - 2].accumDist + prev[n - 2].dist;
        }
      }
    }
  }

  /** Contiguous segments of non-negative length never start earlier than
      the segments before them. */
  lemma {:induction false} StartsNonDecreasing(segs: seq<Segment>)
    requires Contiguous(segs)
    requires forall i :: 0 <= i < |segs| ==> segs[i].dist >= 0.0
    ensures forall i, j :: 0 <= i <= j < |segs| ==> segs[i].accumDist <= segs[j].accumDist
  {
    var m := 0;
    while m < |segs|
      invariant 0 <= m <= |segs|
      invariant forall i, j :: 0 <= i <= j < m ==> segs[i].accumDist <= segs[j].accumDist
    {
      if m > 0 {
        assert segs[m].accumDist == segs[m - 1].accumDist + segs[m - 1].dist;
      }
      m := m + 1;
    }
  }

  /** With non-negative lengths, a later segment never starts before an
      earlier one, and every segment lies within [0, the loop's length]. */
  lemma LegsMonotone(nodes: seq<Waypoint>, d: DistanceFn)
    ensures var segs := Legs(nodes, d);
      && (forall i, j :: 0 <= i <= j < |segs| ==> segs[i].accumDist <= segs[j].accumDist)
      && (forall i :: 0 <= i < |segs| ==> 0.0 <= segs[i].accumDist && segs[i].accumDist + segs[i].dist <= PathLength(nodes, d))
  {
    var segs := Legs(nodes, d);
    var total := PathLength(nodes, d);
    LegsPartition(nodes, d);
    assert Contiguous(segs);
    assert forall i :: 0 <= i < |segs| ==> segs[i].dist >= 0.0;
    StartsNonDecreasing(segs);
    if segs != [] {
      var n := |segs|;
      forall i | 0 <= i < n
        ensures 0.0 <= segs[i].accumDist && segs[i].accumDist + segs[i].dist <= total
      {
        assert segs[0].accumDist <= segs[i].accumDist;
        if i < n - 1 {
          assert segs[i + 1].accumDist <= segs[n - 1].accumDist;
        }
      }
    }
  }

  /** Distance x falls inside segment s (both ends included). */
  predicate Covers(s: Segment, x: real)
  {
    s.accumDist <= x <= s.accumDist + s.dist
  }

  /** `segments.find(...)` from index k on: the first segment covering x. */
  function FindFrom(segs: seq<Segment>, x: real, k: nat): (r: Option<nat>)
    requires k <= |segs|
    ensures r.Some? ==> k <= r.value < |segs| && Covers(segs[r.value], x)
    ensures r.Some? ==> forall j :: k <= j < r.value ==> !Covers(segs[j], x)
    ensures r.None? ==> forall j :: k <= j < |segs| ==> !Covers(segs[j], x)
    decreases |segs| - k
  {
    if k == |segs| then None
    else if Covers(segs[k], x) then Some(k)
    else FindFrom(segs, x, k + 1)
  }

  /** App.tsx:257: the first segment covering x, or else the last segment,
      or nothing when there are no segments. */
  function LocateSegment(segs: seq<Segment>, x: real): (r: Option<nat>)
    ensures r.None? <==> segs == []
    ensures r.Some? ==> r.value < |segs|
    ensures (exists j :: 0 <= j < |segs| && Covers(segs[j], x)) ==>
      r.Some? && Covers(segs[r.value], x) && forall j :: 0 <= j < r.value ==> !Covers(segs[j], x)
    ensures (forall j :: 0 <= j < |segs| ==> !Covers(segs[j], x)) && segs != [] ==> r == Some(|segs| - 1)
  {
    match FindFrom(segs, x, 0)
    case Some(i) => Some(i)
    case None => if segs == [] then None else Some(|segs| - 1)
  }

  /** When some segment covers x, the lookup lands on a zero-length segment
      only if it is the first one and x is where it starts: a later empty
      segment begins where its predecessor ends, so the predecessor is found
      first. The division of App.tsx:260 meets a zero length only there. */
  lemma EmptyCoverIsFirst(segs: seq<Segment>, x: real)
    requires Contiguous(segs)
    requires forall i :: 0 <= i < |segs| ==> segs[i].dist >= 0.0
    requires exists j :: 0 <= j < |segs| && Covers(segs[j], x)
    ensures var r := LocateSegment(segs, x);
      r.Some? && (segs[r.value].dist == 0.0 ==> r.value == 0 && x == segs[0].accumDist)
  {
    var r := LocateSegment(segs, x).value;
    if r > 0 {
      assert segs[r].accumDist == segs[r - 1].accumDist + segs[r - 1].dist;
      assert !Covers(segs[r - 1], x);
    }
  }

  /** Contiguous segments cover every distance from the first start to the
      end of segment k. */
  lemma {:induction false} CoveredUpTo(segs: seq<Segment>, x: real, k: nat)
    requires k < |segs|
    requires Contiguous(segs)
    requires segs[0].accumDist <= x <= segs[k].accumDist + segs[k].dist
    ensures exists j :: 0 <= j <= k && Covers(segs[j], x)
  {
    if segs[k].accumDist <= x {
      assert Covers(segs[k], x);
    } else {
      CoveredUpTo(segs, x, k - 1);
    }
  }

  /** Every distance between 0 and the loop's length is covered by some
      segment, so the lookup never needs its last-segment fallback there. */
  lemma LocateFindsCover(nodes: seq<Waypoint>, d: DistanceFn, x: real)
    requires |nodes| >= 2
    requires 0.0 <= x <= PathLength(nodes, d)
    ensures var segs := Legs(nodes, d); var r := LocateSegment(segs, x);
      r.Some? && Covers(segs[r.value], x)
  {
    var segs := Legs(nodes, d);
    LegsPartition(nodes, d);
    assert Contiguous(segs);
    CoveredUpTo(segs, x, |segs| - 1);
  }

  /** Every leg of the path is strictly positive in both directions. */
  ghost predicate PositiveLegs(path: seq<Waypoint>, d: DistanceFn)
  {
    forall k :: 0 <= k < |path| - 1 ==>
      LegLength(path[k], path[k + 1], d) > 0.0 && LegLength(path[k + 1], path[k], d) > 0.0
  }

  /** The loop's legs are the path's legs out and back, so they are positive
      when the path's legs are positive both ways. */
  lemma RoundTripLegsPositive(path: seq<Waypoint>, d: DistanceFn)
    requires PositiveLegs(path, d)
    ensures var nodes := RoundTrip(path);
      forall i :: 0 <= i < |nodes| - 1 ==> LegLength(nodes[i], nodes[i + 1], d) > 0.0
  {
    var nodes := RoundTrip(path);
    var n := |path|;
    forall i | 0 <= i < |nodes| - 1
      ensures LegLength(nodes[i], nodes[i + 1], d) > 0.0
    {
      if i + 1 < n {
        assert nodes[i] == path[i] && nodes[i + 1] == path[i + 1];
      } else {
        var k := |nodes| - 2 - i;
        assert nodes[|nodes| - 1 - (k + 1)] == path[k + 1] && nodes[|nodes| - 1 - k] == path[k];
      }
    }
  }

  /** The fraction of its segment that distance x has covered:
      App.tsx:260, which divides by the segment's length. */
  function SegmentFraction(s: Segment, x: real): (r: real)
    requires s.dist > 0.0
    // the fraction locates x on the segment ...
    ensures s.accumDist + r * s.dist == x
    // ... and lies in [0, 1] exactly when the segment covers x
    ensures 0.0 <= r <= 1.0 <==> Covers(s, x)
  {
    var r := (x - s.accumDist) / s.dist;
    assert r * s.dist == x - s.accumDist;
    r
  }

  /** For a distance x between 0 and the length of a loop with positive
      legs, the lookup finds a covering segment of positive length, and the
      local fraction lies in [0, 1]. */
  lemma FractionInUnitInterval(nodes: seq<Waypoint>, d: DistanceFn, x: real)
    requires |nodes| >= 2
    requires forall i :: 0 <= i < |nodes| - 1 ==> LegLength(nodes[i], nodes[i + 1], d) > 0.0
    requires 0.0 <= x <= PathLength(nodes, d)
    ensures var segs := Legs(nodes, d); var r := LocateSegment(segs, x);
      r.Some? && segs[r.value].dist > 0.0 && 0.0 <= SegmentFraction(segs[r.value], x) <= 1.0
  {
    var segs := Legs(nodes, d);
    LocateFindsCover(nodes, d, x);
    var i := LocateSegment(segs, x).value;
    assert segs[i].dist == LegLength(nodes[i], nodes[i + 1], d);
  }

  /** Progress p in [0, 1] scales the loop's length t to a distance in [0, t]. */
  lemma ScaledWithin(p: real, t: real)
    ensures 0.0 <= p <= 1.0 && 0.0 <= t ==> 0.0 <= p * t <= t
  {
    if 0.0 <= p <= 1.0 && 0.0 <= t {
      assert t - p * t == (1.0 - p) * t;
    }
  }
}
