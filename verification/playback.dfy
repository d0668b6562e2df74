/** The voyage player of App.tsx: the playback state, the per-frame tick
    (App.tsx:237-265) and the user-intent handlers (App.tsx:287-311 and the
    mode, marker and close-button callbacks of the controls). */
module Playback {
  import opened Types
  import opened Geodesic
  import opened Route
  import opened Aggregation

  datatype PlayMode = Single | All

  /** The progress added by one animation frame (App.tsx:240). */
  const Step: real := 0.0008
  /** The id of the last voyage (App.tsx:243); the data has seven. */
  const LastVoyageId: int := 7
  const ShipAltitude: real := 0.005
  /** How far ahead on the segment the heading is sampled (App.tsx:262). */
  const LookAhead: real := 0.01
  /** Frames needed to play one voyage from progress 0. */
  const FramesPerVoyage: nat := 1250

  /** The fields of the playback state that a tick may change. */
  datatype PlaybackState = PlaybackState(voyageId: int, isPlaying: bool, playMode: PlayMode, progress: real)

  /** One frame of App.tsx:238-254 on the playback state. */
  function Advance(s: PlaybackState): (r: PlaybackState)
    // a paused player does nothing
    ensures !s.isPlaying ==> r == s
    // below completion, progress grows by one step and nothing else changes
    ensures s.isPlaying && s.progress + Step < 1.0 ==> r == s.(progress := s.progress + Step)
    // at completion: the next voyage, the end of the last voyage, or a loop
    ensures s.isPlaying && s.progress + Step >= 1.0 && s.playMode == All && s.voyageId < LastVoyageId ==>
      r == s.(voyageId := s.voyageId + 1, progress := 0.0)
    ensures s.isPlaying && s.progress + Step >= 1.0 && s.playMode == All && s.voyageId >= LastVoyageId ==>
      r == s.(progress := 1.0, isPlaying := false)
    ensures s.isPlaying && s.progress + Step >= 1.0 && s.playMode == Single ==>
      r == s.(progress := 0.0)
    // progress stays in [0, 1]
    ensures 0.0 <= s.progress <= 1.0 ==> 0.0 <= r.progress <= 1.0
    // the mode is never changed by a tick; a loop never leaves its voyage or stops
    ensures r.playMode == s.playMode
    ensures s.playMode == Single ==> r.voyageId == s.voyageId && r.isPlaying == s.isPlaying
    // the voyage only ever moves on by one, and playback only stops at the end of the last voyage
    ensures r.voyageId != s.voyageId ==> r.voyageId == s.voyageId + 1 && r.progress == 0.0
    ensures s.isPlaying && !r.isPlaying ==> s.voyageId >= LastVoyageId && r.progress == 1.0
  {
    if !s.isPlaying then s
    else
      var p := s.progress + Step;
      if p < 1.0 then s.(progress := p)
      else
        match s.playMode
        case All => if s.voyageId < LastVoyageId then s.(voyageId := s.voyageId + 1, progress := 0.0)
                    else s.(progress := 1.0, isPlaying := false)
        case Single => s.(progress := 0.0)
  }

  /** n frames in a row. */
  function Frames(s: PlaybackState, n: nat): PlaybackState
  {
    if n == 0 then s else Advance(Frames(s, n - 1))
  }

  /** Started from progress 0, a playing voyage advances one step per frame
      for its first FramesPerVoyage - 1 frames without completing. */
  lemma {:induction false} FramesBeforeCompletion(s: PlaybackState, n: nat)
    requires s.isPlaying && s.progress == 0.0
    requires n < FramesPerVoyage
    ensures Frames(s, n) == s.(progress := n as real * Step)
  {
    if n > 0 {
      FramesBeforeCompletion(s, n - 1);
      assert (n - 1) as real * Step + Step == n as real * Step;
    }
  }

  /** Exactly FramesPerVoyage frames after progress 0, the voyage completes:
      the next voyage starts, the last one ends, or a loop restarts. */
  lemma VoyageCompletesAfterFrames(s: PlaybackState)
    requires s.isPlaying && s.progress == 0.0
    ensures var r := Frames(s, FramesPerVoyage);
      && (s.playMode == All && s.voyageId < LastVoyageId ==> r == s.(voyageId := s.voyageId + 1))
      && (s.playMode == All && s.voyageId >= LastVoyageId ==> r == s.(progress := 1.0, isPlaying := false))
      && (s.playMode == Single ==> r == s)
  {
    FramesBeforeCompletion(s, FramesPerVoyage - 1);
  }

  /** Where App.tsx:259-264 puts the ship on segment seg at distance x:
      on the great circle at the local fraction, heading towards a point a
      little further along. */
  function PlaceShip(seg: Segment, x: real, greatCircle: GreatCircleFn, bearing: BearingFn): (r: ShipPosition)
    requires seg.dist > 0.0
    // the ship sits on the segment's great circle at the fraction of the
    // segment that x has covered, at ship altitude
    ensures var here := greatCircle(seg.start.lat, seg.start.lng, seg.end.lat, seg.end.lng, SegmentFraction(seg, x));
      r.lat == here.lat && r.lng == here.lng && r.altitude == ShipAltitude
    // and faces the point LookAhead further along the same great circle
    ensures var ahead := greatCircle(seg.start.lat, seg.start.lng, seg.end.lat, seg.end.lng, SegmentFraction(seg, x) + LookAhead);
      r.heading == bearing(r.lat, r.lng, ahead.lat, ahead.lng)
  {
    var f := SegmentFraction(seg, x);
    var here := greatCircle(seg.start.lat, seg.start.lng, seg.end.lat, seg.end.lng, f);
    var ahead := greatCircle(seg.start.lat, seg.start.lng, seg.end.lat, seg.end.lng, f + LookAhead);
    ShipPosition(here.lat, here.lng, ShipAltitude, bearing(here.lat, here.lng, ahead.lat, ahead.lng))
  }

  /** The loop of a path with positive legs has segments of positive length. */
  lemma LoopLegsPositive(path: seq<Waypoint>, d: DistanceFn)
    requires PositiveLegs(path, d)
    ensures var segs := Legs(RoundTrip(path), d);
      forall i :: 0 <= i < |segs| ==> segs[i].dist > 0.0
  {
    var nodes := RoundTrip(path);
    RoundTripLegsPositive(path, d);
    forall i | 0 <= i < |Legs(nodes, d)|
      ensures Legs(nodes, d)[i].dist > 0.0
    {
      assert Legs(nodes, d)[i].dist == LegLength(nodes[i], nodes[i + 1], d);
    }
  }

  /** The distance travelled at progress p along a loop of length total
      (App.tsx:256). */
  function Travelled(p: real, total: real): (x: real)
    ensures 0.0 <= p <= 1.0 && 0.0 <= total ==> 0.0 <= x <= total
  {
    ScaledWithin(p, total);
    p * total
  }

  /** The ship placed on the segment the lookup finds for distance x, or
      left where it was when there are no segments (App.tsx:256-264). */
  function ShipOn(segs: seq<Segment>, x: real, ship: ShipPosition,
                  greatCircle: GreatCircleFn, bearing: BearingFn): (r: ShipPosition)
    requires forall i :: 0 <= i < |segs| ==> segs[i].dist > 0.0
    ensures segs == [] ==> r == ship
  {
    match LocateSegment(segs, x)
    case None => ship
    case Some(i) => PlaceShip(segs[i], x, greatCircle, bearing)
  }

  /** The ship after a frame at progress p on the loop of path: placed for
      p's share of the loop's length. */
  function ShipAfter(path: seq<Waypoint>, p: real, ship: ShipPosition,
                     d: DistanceFn, greatCircle: GreatCircleFn, bearing: BearingFn): (r: ShipPosition)
    requires PositiveLegs(path, d)
    // a voyage of a single waypoint has no segment, and the ship stays put
    ensures |path| == 1 ==> r == ship
  {
    LoopLegsPositive(path, d);
    ShipOn(Legs(RoundTrip(path), d), Travelled(p, PathLength(RoundTrip(path), d)), ship, greatCircle, bearing)
  }

  /** On a voyage of two or more waypoints, at any progress in [0, 1], the
      ship is placed on a segment that covers the distance travelled, at a
      fraction of that segment between 0 and 1: the lookup's last-segment
      fallback is never needed and the interpolation never extrapolates. */
  lemma ShipOnCoveringSegment(path: seq<Waypoint>, p: real, ship: ShipPosition,
                              d: DistanceFn, greatCircle: GreatCircleFn, bearing: BearingFn)
    requires |path| >= 2 && PositiveLegs(path, d) && 0.0 <= p <= 1.0
    ensures LocateSegment(Legs(RoundTrip(path), d), Travelled(p, PathLength(RoundTrip(path), d))).Some?
    ensures var segs := Legs(RoundTrip(path), d);
      var x := Travelled(p, PathLength(RoundTrip(path), d));
      var i := LocateSegment(segs, x).value;
      && segs[i].dist > 0.0 && Covers(segs[i], x)
      && 0.0 <= SegmentFraction(segs[i], x) <= 1.0
      && ShipAfter(path, p, ship, d, greatCircle, bearing) == PlaceShip(segs[i], x, greatCircle, bearing)
  {
    var nodes := RoundTrip(path);
    var segs := Legs(nodes, d);
    var x := Travelled(p, PathLength(nodes, d));
    LoopLegsPositive(path, d);
    RoundTripLegsPositive(path, d);
    LocateFindsCover(nodes, d, x);
    FractionInUnitInterval(nodes, d, x);
    assert ShipAfter(path, p, ship, d, greatCircle, bearing) == ShipOn(segs, x, ship, greatCircle, bearing);
  }

  /** The placement half of `animate` on the segments of route, built as the
      memoised loop of App.tsx:183-191 builds them. */
  method ShipFrame(route: seq<Waypoint>, p: real, ship: ShipPosition,
                   d: DistanceFn, greatCircle: GreatCircleFn, bearing: BearingFn) returns (pos: ShipPosition)
    requires PositiveLegs(route, d)
    ensures pos == ShipAfter(route, p, ship, d, greatCircle, bearing)
  {
    var shipSegments, totalDist := BuildSegments(RoundTrip(route), d);
    LoopLegsPositive(route, d);
    pos := ShipOn(shipSegments, Travelled(p, totalDist), ship, greatCircle, bearing);
  }

  /** The voyage table the player reads (VOYAGE_DATA): voyage ids 1 to 7
      at positions 0 to 6, each with a first waypoint, and no leg of zero
      length (App.tsx:260 divides by the leg's length). */
  ghost predicate VoyageData(voyages: seq<Voyage>, d: DistanceFn)
  {
    && |voyages| == LastVoyageId
    && forall i :: 0 <= i < |voyages| ==>
         voyages[i].id == i + 1 && |voyages[i].path| >= 1 && PositiveLegs(voyages[i].path, d)
  }

  /** The App component's playback and ship state, with the geodesic
      functions and the voyage table it works on. */
  class Player {
    const voyages: seq<Voyage>
    const distance: DistanceFn
    const greatCircle: GreatCircleFn
    const bearing: BearingFn

    var voyageId: int
    var isPlaying: bool
    var playMode: PlayMode
    var isOverview: bool
    var shipPos: ShipPosition
    var selectedLocation: Option<AggregatedLocation>
    var progress: real  // progressRef.current

    ghost predicate Valid()
      reads this
    {
      VoyageData(voyages, distance) && 1 <= voyageId <= LastVoyageId && 0.0 <= progress <= 1.0
    }

    function State(): PlaybackState
      reads this
    {
      PlaybackState(voyageId, isPlaying, playMode, progress)
    }

    /** The waypoints of voyage id (`VOYAGE_DATA[id].path`). */
    function RouteOf(id: int): seq<Waypoint>
      reads this
      requires Valid() && 1 <= id <= LastVoyageId
    {
      voyages[id - 1].path
    }

    /** The initial state of App.tsx:141-150. */
    constructor(voyages: seq<Voyage>, distance: DistanceFn, greatCircle: GreatCircleFn, bearing: BearingFn)
      requires VoyageData(voyages, distance)
      ensures Valid()
      ensures this.voyages == voyages && this.distance == distance
      ensures this.greatCircle == greatCircle && this.bearing == bearing
      ensures State() == PlaybackState(1, false, All, 0.0)
      ensures isOverview && selectedLocation == None
      ensures shipPos == ShipPosition(32.0, 118.0, ShipAltitude, 0.0)
    {
      this.voyages := voyages;
      this.distance := distance;
      this.greatCircle := greatCircle;
      this.bearing := bearing;
      voyageId := 1;
      isPlaying := false;
      playMode := All;
      isOverview := true;
      shipPos := ShipPosition(32.0, 118.0, ShipAltitude, 0.0);
      selectedLocation := None;
      progress := 0.0;
    }

    /** `animate` (App.tsx:237-265): one animation frame. The ship is placed
        on the segments of the voyage the frame started on. */
    method Tick()
      requires Valid()
      modifies this
      ensures Valid()
      ensures State() == Advance(old(State()))
      ensures isOverview == old(isOverview) && selectedLocation == old(selectedLocation)
      ensures !old(isPlaying) ==> shipPos == old(shipPos)
      ensures old(isPlaying) ==>
        shipPos == ShipAfter(RouteOf(old(voyageId)), progress, old(shipPos), distance, greatCircle, bearing)
    {
      if !isPlaying {
        return;
      }
      var route := RouteOf(voyageId);
      StepProgress();
      shipPos := ShipFrame(route, progress, shipPos, distance, greatCircle, bearing);
    }

    /** The progress half of `animate` (App.tsx:240-254): advance by one
        step and, at completion, move on to the next voyage, stop at the
        end of the last one, or loop. */
    method StepProgress()
      requires Valid() && isPlaying
      modifies this`progress, this`voyageId, this`isPlaying
      ensures Valid()
      ensures State() == Advance(old(State()))
    {
      progress := progress + Step;
      if progress >= 1.0 {
        if playMode == All && voyageId < LastVoyageId {
          voyageId := voyageId + 1;
          progress := 0.0;
        } else {
          progress := if playMode == Single then 0.0 else 1.0;
          if playMode != Single {
            isPlaying := false;
          }
        }
      }
    }

    /** `handleVoyageChange` (App.tsx:287-295): select voyage id, stop, rewind,
        close the location panel and put the ship on the voyage's first
        waypoint facing north. */
    method VoyageChange(id: int)
      requires Valid() && 1 <= id <= LastVoyageId
      modifies this
      ensures Valid()
      ensures State() == PlaybackState(id, false, old(playMode), 0.0)
      ensures !isOverview && selectedLocation == None
      ensures shipPos == ShipPosition(RouteOf(id)[0].lat, RouteOf(id)[0].lng, ShipAltitude, 0.0)
    {
      isOverview := false;
      voyageId := id;
      isPlaying := false;
      progress := 0.0;
      selectedLocation := None;
      var start := RouteOf(id)[0];
      shipPos := ShipPosition(start.lat, start.lng, ShipAltitude, 0.0);
    }

    /** `handlePlayToggle` (App.tsx:297-300): leave the overview and flip
        between playing and paused. */
    method PlayToggle()
      requires Valid()
      modifies this
      ensures Valid()
      ensures isPlaying == !old(isPlaying) && !isOverview
      ensures voyageId == old(voyageId) && progress == old(progress) && playMode == old(playMode)
      ensures shipPos == old(shipPos) && selectedLocation == old(selectedLocation)
    {
      if isOverview {
        isOverview := false;
      }
      isPlaying := !isPlaying;
    }

    /** `handleReset` (App.tsx:302-311): back to the overview of voyage 1,
        stopped and rewound, with the location panel closed. */
    method Reset()
      requires Valid()
      modifies this
      ensures Valid()
      ensures State() == PlaybackState(1, false, old(playMode), 0.0)
      ensures isOverview && selectedLocation == None
      ensures shipPos == old(shipPos)
    {
      isOverview := true;
      isPlaying := false;
      voyageId := 1;
      selectedLocation := None;
      progress := 0.0;
    }

    /** The mode buttons (App.tsx:575 and App.tsx:582). */
    method SetPlayMode(mode: PlayMode)
      requires Valid()
      modifies this`playMode
      ensures Valid() && playMode == mode
    {
      playMode := mode;
    }

    /** A click on a location marker (App.tsx:475). */
    method SelectLocation(loc: AggregatedLocation)
      requires Valid()
      modifies this`selectedLocation
      ensures Valid() && selectedLocation == Some(loc)
    {
      selectedLocation := Some(loc);
    }

    /** The close button of the location panel (App.tsx:503). */
    method CloseLocation()
      requires Valid()
      modifies this`selectedLocation
      ensures Valid() && selectedLocation == None
    {
      selectedLocation := None;
    }
  }
}
