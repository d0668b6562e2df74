# Zheng He voyage engine, modelled in Dafny

This project models the voyage engine behind an animated globe of Zheng He's
seven treasure-fleet voyages (1405-1433). The engine is the logic part of the
`App` component; the rendering is not modelled. It has six parts:

- **Round-trip segmenter** (`Route`). A voyage's waypoints become a closed
  loop: out along the path and back again. Each consecutive pair of nodes
  becomes a segment. A segment records its endpoints, its length and the
  distance travelled before it.
- **Segment lookup** (`Route`). A distance along the loop is mapped to the
  first segment that covers it. When no segment covers it, the lookup falls
  back to the last segment.
- **Playback tick** (`Playback`). One animation frame:
  - progress grows by 0.0008;
  - at completion the player moves on to the next voyage, stops after the
    seventh, or loops the current voyage;
  - the ship is placed on its segment by great-circle interpolation, heading
    toward a point a little further along.
- **User-intent handlers** (`Playback.Player`). Choosing a voyage, play/pause,
  reset, switching the play mode, and opening or closing a location panel.
- **Location aggregator** (`Aggregation`). Every waypoint that is not a TURN
  becomes one visit of the location bearing its name. A location keeps:
  - the coordinates of its first occurrence;
  - its first non-empty image;
  - its visits, latest voyage first;
  - a flag set when the selected voyage calls there.
- **Visual path builder** (`VisualPaths`). Each voyage gets two globe lines:
  an outbound one and an inbound one that retraces it.

The record types are in `types.dfy`. The geodesic helpers are parameters
(`geodesic.dfy`), so the model holds for any distance, interpolation and
bearing function. The type `DistanceFn` admits only distance functions
that are never negative. Everything else the player assumes of the voyage
table is gathered in one predicate, `VoyageData`: there are seven voyages
with ids 1 to 7 in order, each voyage has at least one waypoint, and every
leg is positive in both directions.

The playback state lives in `class Player`. Its methods change its fields in
place, as the React state setters and `progressRef` do. A tick's effect on
the playback fields is tied to the pure function `Advance`. The ship's new
position is tied to `ShipAfter`. The lemmas that matter are proved about
those functions.

## Model

| member | source | states |
|---|---|---|
| Route.RoundTrip | App.tsx:183 | The loop of a non-empty path has 2n-1 nodes. It starts with the path itself, its way back visits the path's waypoints in reverse, and it begins and ends at the first waypoint. An empty path gives an empty loop. |
| Route.Leg | App.tsx:189 | A segment records a leg of non-negative length that starts at a non-negative distance. |
| Route.Legs | App.tsx:185-191 | There is one segment per consecutive pair of nodes, and none for an empty node list. |
| Route.LegsJoinNodes | App.tsx:189 | Segment i runs from node i to node i + 1. |
| Route.LegLength | App.tsx:188 | A leg's length is the injected distance between its endpoints, and it is never negative. |
| Route.PathLength | App.tsx:185-190 | The length of a polyline, which is the total the builder accumulates, is never negative. |
| Route.BuildSegments | App.tsx:185-191 | The builder loop pushes exactly one segment per consecutive pair of nodes (`Legs`). Its running total ends as the loop's length. |
| Route.LegsChained | App.tsx:189-190 | Each segment starts at the distance where the previous one ends. |
| Route.LegsEndAtLength | App.tsx:189-190 | The last segment ends exactly at the loop's total length. |
| Route.PrefixSums | App.tsx:189-190 | In a chain of segments starting at 0, each one starts after exactly the sum of the lengths before it, and the chain ends at the sum of all lengths. |
| Route.LegsPartition | App.tsx:185-191 | The segments tile [0, total]. The first starts at 0, each starts where the previous ends, the last ends at the total, and each start is the sum of the earlier lengths. |
| Route.StartsNonDecreasing | App.tsx:189-190 | In a chain of segments with non-negative lengths, a later segment never starts before an earlier one. |
| Route.LegsMonotone | App.tsx:185-191 | The segments' start distances are non-decreasing, and every segment lies within [0, total]. |
| Route.FindFrom | App.tsx:257 | `Array.prototype.find` from index k returns the first covering segment at or after k, or nothing when none covers the distance. |
| Route.LocateSegment | App.tsx:257 | The lookup returns nothing exactly when there are no segments. When some segment covers the distance it returns the first such segment; otherwise it returns the last segment. |
| Route.CoveredUpTo | App.tsx:257 | Among chained segments, any distance between the first start and the end of segment k is covered by some segment up to k. |
| Route.LocateFindsCover | App.tsx:256-257 | On a loop of at least two nodes, every distance in [0, total] is covered, so the lookup never uses its last-segment fallback. |
| Route.RoundTripLegsPositive | App.tsx:183-188 | When every leg of a path is positive in both directions, every leg of its loop is positive. |
| Route.EmptyCoverIsFirst | App.tsx:257-260 | Among contiguous segments of non-negative length, when some segment covers the distance, the one the lookup returns has zero length only if it is the first segment and the distance is its start. |
| Route.FractionInUnitInterval | App.tsx:257-260 | For a distance in [0, total] on a loop with positive legs, the lookup finds a segment of positive length, and the local fraction lies in [0, 1]. |
| Route.ScaledWithin | App.tsx:256 | For a progress in [0, 1] and a non-negative total, the scaled distance lies in [0, total]. |
| Route.SegmentFraction | App.tsx:260 | The fraction locates the distance on the segment (start + fraction * length is the distance), and it lies in [0, 1] if and only if the segment covers the distance. |
| Sequences.Reverse | App.tsx:176 | The reversal keeps the length and puts element k at position n-1-k. |
| VisualPaths.ToLine | App.tsx:167 | One line vertex per waypoint. |
| VisualPaths.ToLineReverse | App.tsx:167-176 | Drawing the reversed waypoints gives the reversed outbound line. |
| VisualPaths.BuildVisualPaths | App.tsx:158-178 | The builder makes two descriptors per voyage, in voyage order. Each carries the voyage's id, title and colour and is tagged outbound or inbound. The outbound line follows the waypoints' coordinates, the inbound line is its exact reverse, and every vertex is at altitude 0.002. |
| Aggregation.StopsOf | App.tsx:204-205 | The occurrences taken from one path are its non-TURN waypoints, each paired with its voyage. |
| Aggregation.Occurrences | App.tsx:203-205 | The occurrences over all voyages come from those voyages and are never TURN waypoints. |
| Aggregation.NameOrder | App.tsx:206-207 | The map's key order has no duplicates and holds exactly the names that occur. |
| Aggregation.FirstIndex | App.tsx:206-210 | The index of the first occurrence of a name: it bears the name, and no earlier occurrence does. |
| Aggregation.FirstImage | App.tsx:226 | The first non-empty image among a name's occurrences. When it is absent, no occurrence of that name has a non-empty image. |
| Aggregation.HasNameAppend | App.tsx:206 | A name occurs after appending an occurrence if and only if it occurred before or is the new one's name. |
| Aggregation.FirstIndexAppend | App.tsx:206-215 | Appending an occurrence does not move an existing name's first occurrence. |
| Aggregation.FirstImageAppend | App.tsx:226 | The first non-empty image is set only once: appending an occurrence supplies it only if none was known. |
| Aggregation.VisitsAtAbsent | App.tsx:212 | A name that does not occur has no visits. |
| Aggregation.EntryAfterNew | App.tsx:206-226 | The first occurrence of a name creates an entry with its coordinates, its image and its single visit. |
| Aggregation.EntryAfterKnown | App.tsx:216-226 | A later occurrence appends one visit and fills in the image only if the entry's image was empty. |
| Aggregation.EntryUnaffected | App.tsx:216 | Recording an occurrence leaves every other name's entry unchanged. |
| Aggregation.OrElse | App.tsx:221-222 | JavaScript's `||` default: a truthy (non-empty) string is kept, anything else gives the fallback, so a non-empty fallback makes the result non-empty. |
| Aggregation.VisitOf | App.tsx:217-225 | A visit copies the voyage's id, title and years and the waypoint's trade and icon type. Its label defaults to "Fleet Arrival" and its diplomacy to "Diplomatic Visit", so neither is ever empty. |
| Aggregation.RecordPoint | App.tsx:206-226 | One iteration of the inner loop turns a map that describes the occurrences seen so far into one that also describes the new occurrence. |
| Aggregation.StopsOfStep | App.tsx:204-205 | Taking one more waypoint adds its occurrence, or nothing when it is a TURN. |
| Aggregation.RecordVoyage | App.tsx:204-227 | Recording a voyage's waypoints leaves the map describing the earlier occurrences plus that voyage's stops. |
| Aggregation.GroupByName | App.tsx:202-228 | After both loops, the keys are the distinct names in first-occurrence order, and each entry is the reference description of its name. |
| Aggregation.OfVoyageConcat | App.tsx:231 | Filtering visits by voyage distributes over concatenation. |
| Aggregation.PairOfVoyage | App.tsx:231 | Exchanging two visits of different voyages does not change the order of either voyage's visits. |
| Aggregation.SwapKeepsVoyageOrder | App.tsx:231 | Swapping neighbouring visits of different voyages keeps every voyage's visits in the same order. |
| Aggregation.SortVisitsDesc | App.tsx:231 | The comparator sort returns the same visits, sorted by voyage id descending. Visits of the same voyage keep their original order, as `Array.prototype.sort` is stable. |
| Aggregation.SinkInto | App.tsx:231 | One insertion step extends the sorted prefix by one element. It keeps the multiset and the per-voyage order, and leaves the elements after the step unchanged. |
| Aggregation.SwapNeighbours | App.tsx:231 | Exchanging two neighbours of different voyages keeps the multiset and the per-voyage order. |
| Aggregation.AnyOfVoyage | App.tsx:232 | `some` holds if and only if some visit belongs to the voyage. |
| Aggregation.OfVoyageEmpty | App.tsx:232 | The filter by voyage is empty if and only if no visit belongs to that voyage. |
| Aggregation.VisitsAtOfVoyage | App.tsx:217-232 | A location has a visit of a voyage if and only if that voyage passes a waypoint of that name. |
| Aggregation.ActiveMeansVisited | App.tsx:232 | On a stable sort of a location's visits, the active flag holds if and only if the selected voyage calls at that location. |
| Aggregation.VisitCountAppend | App.tsx:217 | Recording an occurrence adds one visit to its own name and none to any other name. |
| Aggregation.EveryOccurrenceCountedOnce | App.tsx:203-228 | The visits of all locations add up to the number of non-TURN waypoints. |
| Aggregation.NamesInFirstOccurrenceOrder | App.tsx:229 | Locations are listed in the order in which their names first occur. |
| Aggregation.DescribedVisits | App.tsx:229-233 | Locations that describe a list of names carry, together, as many visits as are recorded under those names. |
| Aggregation.Finish | App.tsx:229-233 | The map callback sorts a grouped entry's visits stably, latest voyage first, and flags it as active if and only if the selected voyage calls there. |
| Aggregation.FinishAll | App.tsx:229-233 | Mapping over the grouped entries describes each name in key order. |
| Aggregation.Aggregate | App.tsx:201-233 | There is one location per distinct stop name, in first-occurrence order. Each location has the first occurrence's coordinates, the first non-empty image (or else the first occurrence's image) and its visits stably sorted latest first, and it is active if and only if the selected voyage calls there. The visit counts add up to the number of stops. |
| Playback.Advance | App.tsx:238-254 | A paused player does nothing. Otherwise progress grows by 0.0008. At 1 or more: in ALL mode before voyage 7, play goes on to the next voyage from 0; in ALL mode on voyage 7, it stops at progress 1; in SINGLE mode, it loops from 0 on the same voyage. Progress stays in [0, 1] and the mode never changes. |
| Playback.FramesBeforeCompletion | App.tsx:240-241 | From progress 0, each of the first 1249 frames adds one step and changes nothing else. |
| Playback.VoyageCompletesAfterFrames | App.tsx:240-254 | Exactly 1250 frames after progress 0, the voyage completes: the next voyage starts, the seventh stops at 1, or a SINGLE voyage restarts at 0. |
| Playback.PlaceShip | App.tsx:259-264 | The ship is put at the great-circle point at the segment's fraction, at altitude 0.005, heading toward the point 0.01 further along the segment. |
| Playback.LoopLegsPositive | App.tsx:183-191 | Every segment of the loop of a path with positive legs has positive length. |
| Playback.Travelled | App.tsx:256 | A progress in [0, 1] gives a distance travelled in [0, total]. |
| Playback.ShipOn | App.tsx:257-264 | With no segments the ship stays where it was. |
| Playback.ShipAfter | App.tsx:256-264 | On a voyage of a single waypoint there is no segment, and a frame leaves the ship where it was. |
| Playback.ShipOnCoveringSegment | App.tsx:256-264 | On a voyage of two or more waypoints, at any progress in [0, 1], the ship is placed on a segment of positive length that covers the distance travelled, at a fraction in [0, 1] of it. |
| Playback.ShipFrame | App.tsx:256-264 | Building the loop's segments and placing the ship on them gives `ShipAfter`. |
| Playback.Player.constructor | App.tsx:141-150 | The initial state: voyage 1, paused, ALL mode, overview, ship at (32, 118), no location selected, progress 0. |
| Playback.Player.Tick | App.tsx:237-265 | A frame changes the playback fields as `Advance` does, leaves the overview flag and the selection alone, and moves the ship only while playing. The ship moves to `ShipAfter` on the loop of the voyage the frame started on. |
| Playback.Player.StepProgress | App.tsx:240-254 | The progress half of the frame is `Advance`, and the voyage id stays in 1..7. |
| Playback.Player.VoyageChange | App.tsx:287-295 | Choosing voyage id leaves the overview, selects id, pauses, rewinds to 0, closes the location panel and puts the ship on the voyage's first waypoint facing north. |
| Playback.Player.PlayToggle | App.tsx:297-300 | Play/pause flips playing, always leaves the overview, and keeps voyage, progress, mode, ship and selection. |
| Playback.Player.Reset | App.tsx:302-311 | Reset returns to the overview of voyage 1, paused, at progress 0, with no location selected; the mode and the ship are kept. |
| Playback.Player.SetPlayMode | App.tsx:575-582 | The mode buttons set the play mode. |
| Playback.Player.SelectLocation | App.tsx:475 | Clicking a marker selects its location. |
| Playback.Player.CloseLocation | App.tsx:503 | The close button clears the selection. |

## Left out

- Numbers are exact reals, not IEEE doubles. `VoyageCompletesAfterFrames`
  states that a voyage takes 1250 frames. Summing 0.0008 in double precision
  reaches the same count: after 1249 steps the sum is 0.9992000000000204,
  below 1, and after 1250 steps it is 1.0000000000000204.
- The haversine distance, the great-circle interpolation and the bearing
  (App.tsx:77-106) are injected function values, so the trigonometry is not
  modelled. The type `DistanceFn` makes distances non-negative, and
  `VoyageData` further requires every voyage's legs to be positive in both
  directions.
- Playback.ShipAfter: the model requires every leg of every voyage to be
  positive in both directions (`VoyageData`), and the voyage table meets
  this. The requirement is stronger than the source needs. App.tsx:260
  divides by the length of the segment the lookup found. By
  `Route.EmptyCoverIsFirst`, that segment has zero length only when it is
  the loop's first leg and the distance is 0. A zero-length leg further
  along, as in a path A, B, B, C, never reaches the division. Voyages with
  such legs are outside the model.
- The voyage table (`VOYAGE_DATA` in constants.ts) is a parameter. It is a
  sequence of seven voyages whose ids are 1 to 7 in order, which is the order
  `Object.values` gives for integer keys, and each voyage has at least one
  waypoint. The table's concrete contents are not part of this model.
- Playback.Player.VoyageChange requires an id between 1 and 7. The source
  does not check the id: with any other id it would read a missing voyage
  and fail.
- React scheduling is reduced to one method call per frame
  (`requestAnimationFrame`, `useEffect`, `useCallback`). Within a frame the
  ship is placed on the segments of the voyage the frame started on. This
  matches the source, where `setVoyageId` only takes effect on the next
  render.
- Playback.Player.Reset: the camera move back to the overview
  (`pointOfView`, App.tsx:308-310) is not modelled.
- The mount effect that points the camera at the overview (App.tsx:275-279)
  and the scroll-into-view effect are not modelled.
- The aggregator sorts with an insertion sort of neighbouring swaps. This
  stands in for the engine's `Array.prototype.sort`, which is stable. The
  contract states what any stable sort by the comparator guarantees.
- The `label` field of a visit is named `eventLabel` in the model, because
  `label` is a Dafny keyword.
- The rendering is not modelled: the JSX, the marker elements, the colour
  and icon helpers and the HTML of the location panel.
- The source has no guard for zero-length legs. It does not reject an
  invalid voyage id. Leaving the overview through play/pause does not rewind
  the progress. The model follows the source in all three.
