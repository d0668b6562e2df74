/** The location aggregator of App.tsx:201-233: every non-TURN waypoint of
    every voyage becomes one visit of the location that bears its name; each
    location keeps the position of its first occurrence and its first
    non-empty image, and lists its visits from the latest voyage to the
    earliest. */
module Aggregation {
  import opened Types

  datatype Visit = Visit(
    voyageId: int,
    voyageTitle: string,
    years: string,
    eventLabel: string,  // `label` in the source; `label` is a Dafny keyword
    diplomacy: string,
    trade: Option<string>,
    iconType: IconTheme)

  datatype AggregatedLocation = AggregatedLocation(
    name: string,
    lat: real,
    lng: real,
    baseImage: Option<string>,
    visits: seq<Visit>,
    isActiveInCurrentVoyage: bool)

  /** A non-TURN waypoint together with the voyage that passes it. */
  datatype Occurrence = Occurrence(voyage: Voyage, point: Waypoint)

  const DefaultLabel: string := "Fleet Arrival"
  const DefaultDiplomacy: string := "Diplomatic Visit"

  /** `s || fallback`: a missing or empty string gives way to the fallback. */
  function OrElse(s: Option<string>, fallback: string): (r: string)
    ensures Truthy(s) ==> r == s.value
    ensures !Truthy(s) ==> r == fallback
    // a non-empty fallback makes the result non-empty
    ensures fallback != "" ==> r != ""
  {
    if Truthy(s) then s.value else fallback
  }

  /** The visit one occurrence contributes (App.tsx:217-225). */
  function VisitOf(o: Occurrence): (v: Visit)
    ensures v.voyageId == o.voyage.id && v.voyageTitle == o.voyage.title && v.years == o.voyage.years
    ensures v.trade == o.point.trade && v.iconType == o.point.iconType
    // an absent or empty label or diplomacy note falls back to the default,
    // so a visit never shows an empty one
    ensures v.eventLabel == (if Truthy(o.point.eventLabel) then o.point.eventLabel.value else DefaultLabel)
    ensures v.diplomacy == (if Truthy(o.point.diplomacy) then o.point.diplomacy.value else DefaultDiplomacy)
    ensures v.eventLabel != "" && v.diplomacy != ""
  {
    Visit(o.voyage.id, o.voyage.title, o.voyage.years,
          OrElse(o.point.eventLabel, DefaultLabel),
          OrElse(o.point.diplomacy, DefaultDiplomacy),
          o.point.trade, o.point.iconType)
  }

  // ---------------------------------------------------------------------
  // What the aggregator reads: the non-TURN waypoints, voyage by voyage.
  // ---------------------------------------------------------------------

  /** The non-TURN waypoints of path, in order, each paired with voyage v. */
  function StopsOf(v: Voyage, path: seq<Waypoint>): (r: seq<Occurrence>)
    ensures forall i :: 0 <= i < |r| ==> r[i].voyage == v && r[i].point.kind != Turn && r[i].point in path
  {
    if path == [] then []
    else
      var p := path[|path| - 1];
      StopsOf(v, path[..|path| - 1]) + (if p.kind == Turn then [] else [Occurrence(v, p)])
  }

  /** The non-TURN waypoints of all voyages, in voyage order and path order. */
  function Occurrences(voyages: seq<Voyage>): (r: seq<Occurrence>)
    ensures forall i :: 0 <= i < |r| ==> r[i].voyage in voyages && r[i].point.kind != Turn
  {
    if voyages == [] then []
    else
      var v := voyages[|voyages| - 1];
      Occurrences(voyages[..|voyages| - 1]) + StopsOf(v, v.path)
  }

  // ---------------------------------------------------------------------
  // The reference description of one location.
  // ---------------------------------------------------------------------

  ghost predicate HasName(occs: seq<Occurrence>, n: string)
  {
    exists i :: 0 <= i < |occs| && occs[i].point.name == n
  }

  /** The distinct names of occs in order of first occurrence: the key order
      of a JavaScript Map filled by these occurrences. */
  function NameOrder(occs: seq<Occurrence>): (names: seq<string>)
    ensures forall i, j :: 0 <= i < j < |names| ==> names[i] != names[j]
    ensures forall n :: n in names <==> HasName(occs, n)
  {
    if occs == [] then []
    else
      var prev := NameOrder(occs[..|occs| - 1]);
      var n := occs[|occs| - 1].point.name;
      assert forall m :: HasName(occs, m) <==> HasName(occs[..|occs| - 1], m) || m == n by {
        forall m | HasName(occs, m) && m != n
          ensures HasName(occs[..|occs| - 1], m)
        {
          var i :| 0 <= i < |occs| && occs[i].point.name == m;
          assert occs[..|occs| - 1][i] == occs[i];
        }
        forall m | HasName(occs[..|occs| - 1], m)
          ensures HasName(occs, m)
        {
          var i :| 0 <= i < |occs| - 1 && occs[..|occs| - 1][i].point.name == m;
          assert occs[i].point.name == m;
        }
      }
      if n in prev then prev else prev + [n]
  }

  /** The index of the first occurrence named n. */
  function FirstIndex(occs: seq<Occurrence>, n: string): (k: nat)
    requires HasName(occs, n)
    ensures k < |occs| && occs[k].point.name == n
    ensures forall j :: 0 <= j < k ==> occs[j].point.name != n
  {
    if occs[0].point.name == n then 0
    else
      assert HasName(occs[1..], n) by {
        var i :| 0 <= i < |occs| && occs[i].point.name == n;
        assert occs[1..][i - 1] == occs[i];
      }
      1 + FirstIndex(occs[1..], n)
  }

  /** The first non-empty image among the occurrences named n, if any. */
  function FirstImage(occs: seq<Occurrence>, n: string): (r: Option<string>)
    ensures r.Some? ==> Truthy(r) && exists i :: 0 <= i < |occs| && occs[i].point.name == n && occs[i].point.imageUrl == r
    ensures r.None? ==> forall i :: 0 <= i < |occs| && occs[i].point.name == n ==> !Truthy(occs[i].point.imageUrl)
  {
    if occs == [] then None
    else if occs[0].point.name == n && Truthy(occs[0].point.imageUrl) then occs[0].point.imageUrl
    else
      var r := FirstImage(occs[1..], n);
      assert r.Some? ==> exists i :: 0 <= i < |occs| && occs[i].point.name == n && occs[i].point.imageUrl == r by {
        if r.Some? {
          var i :| 0 <= i < |occs[1..]| && occs[1..][i].point.name == n && occs[1..][i].point.imageUrl == r;
          assert occs[i + 1] == occs[1..][i];
        }
      }
      assert r.None? ==> forall i :: 0 <= i < |occs| && occs[i].point.name == n ==> !Truthy(occs[i].point.imageUrl) by {
        if r.None? {
          forall i | 0 <= i < |occs| && occs[i].point.name == n
            ensures !Truthy(occs[i].point.imageUrl)
          {
            if i > 0 { assert occs[i] == occs[1..][i - 1]; }
          }
        }
      }
      r
  }

  /** The image the aggregator settles on: the first non-empty image, or
      else whatever the first occurrence carried. */
  function BaseImage(occs: seq<Occurrence>, n: string): Option<string>
    requires HasName(occs, n)
  {
    var img := FirstImage(occs, n);
    if img.Some? then img else occs[FirstIndex(occs, n)].point.imageUrl
  }

  /** The visits of the occurrences named n, in occurrence order. */
  function VisitsAt(occs: seq<Occurrence>, n: string): seq<Visit>
  {
    if occs == [] then []
    else
      var o := occs[|occs| - 1];
      VisitsAt(occs[..|occs| - 1], n) + (if o.point.name == n then [VisitOf(o)] else [])
  }

  /** The map entry for n once every occurrence has been recorded. */
  function Entry(occs: seq<Occurrence>, n: string): AggregatedLocation
    requires HasName(occs, n)
  {
    var first := occs[FirstIndex(occs, n)].point;
    AggregatedLocation(n, first.lat, first.lng, BaseImage(occs, n), VisitsAt(occs, n), false)
  }

  /** The insertion-ordered map `locMap` after recording the occurrences seen. */
  ghost predicate Grouped(order: seq<string>, table: map<string, AggregatedLocation>, seen: seq<Occurrence>)
  {
    && order == NameOrder(seen)
    && (forall n :: n in table <==> n in order)
    && (forall n :: n in table ==> HasName(seen, n) && table[n] == Entry(seen, n))
  }

  // ---------------------------------------------------------------------
  // How the reference description changes when one occurrence is recorded.
  // ---------------------------------------------------------------------

  lemma HasNameAppend(s: seq<Occurrence>, o: Occurrence, n: string)
    ensures HasName(s + [o], n) <==> HasName(s, n) || o.point.name == n
  {
    if HasName(s, n) {
      var i :| 0 <= i < |s| && s[i].point.name == n;
      assert (s + [o])[i] == s[i];
    }
    if o.point.name == n {
      assert (s + [o])[|s|] == o;
    }
    if HasName(s + [o], n) && o.point.name != n {
      var i :| 0 <= i < |s| + 1 && (s + [o])[i].point.name == n;
      assert s[i] == (s + [o])[i];
    }
  }

  lemma FirstIndexAppend(s: seq<Occurrence>, o: Occurrence, n: string)
    requires HasName(s, n)
    ensures HasName(s + [o], n) && FirstIndex(s + [o], n) == FirstIndex(s, n)
  {
    HasNameAppend(s, o, n);
    var k0, k1 := FirstIndex(s, n), FirstIndex(s + [o], n);
    assert (s + [o])[k0] == s[k0];
  }

  lemma {:induction false} FirstImageAppend(s: seq<Occurrence>, o: Occurrence, n: string)
    ensures FirstImage(s + [o], n) ==
      if FirstImage(s, n).Some? then FirstImage(s, n)
      else if o.point.name == n && Truthy(o.point.imageUrl) then o.point.imageUrl
      else None
  {
    if s == [] {
      assert [o][1..] == [];
    } else {
      assert (s + [o])[0] == s[0];
      assert (s + [o])[1..] == s[1..] + [o];
      FirstImageAppend(s[1..], o, n);
    }
  }

  lemma {:induction false} VisitsAtAbsent(s: seq<Occurrence>, n: string)
    requires !HasName(s, n)
    ensures VisitsAt(s, n) == []
  {
    if s != [] {
      assert !HasName(s[..|s| - 1], n);
      VisitsAtAbsent(s[..|s| - 1], n);
    }
  }

  /** The first occurrence of a name creates its entry. */
  lemma EntryAfterNew(s: seq<Occurrence>, o: Occurrence)
    requires !HasName(s, o.point.name)
    ensures HasName(s + [o], o.point.name)
    ensures Entry(s + [o], o.point.name) ==
      AggregatedLocation(o.point.name, o.point.lat, o.point.lng, o.point.imageUrl, [VisitOf(o)], false)
  {
    var n := o.point.name;
    HasNameAppend(s, o, n);
    assert (s + [o])[|s|] == o;
    FirstImageAppend(s, o, n);
    VisitsAtAbsent(s, n);
    assert (s + [o])[..|s|] == s;
  }

  /** A later occurrence of a name appends a visit and fills in a missing image. */
  lemma EntryAfterKnown(s: seq<Occurrence>, o: Occurrence)
    requires HasName(s, o.point.name)
    ensures HasName(s + [o], o.point.name)
    ensures var e := Entry(s, o.point.name);
      Entry(s + [o], o.point.name) ==
        e.(visits := e.visits + [VisitOf(o)],
           baseImage := if Truthy(o.point.imageUrl) && !Truthy(e.baseImage) then o.point.imageUrl else e.baseImage)
  {
    var n := o.point.name;
    FirstIndexAppend(s, o, n);
    FirstImageAppend(s, o, n);
    assert (s + [o])[FirstIndex(s, n)] == s[FirstIndex(s, n)];
    assert (s + [o])[..|s|] == s;
  }

  /** Recording an occurrence leaves the entries of other names alone. */
  lemma EntryUnaffected(s: seq<Occurrence>, o: Occurrence, m: string)
    requires HasName(s, m) && m != o.point.name
    ensures HasName(s + [o], m) && Entry(s + [o], m) == Entry(s, m)
  {
    FirstIndexAppend(s, o, m);
    FirstImageAppend(s, o, m);
    assert (s + [o])[FirstIndex(s, m)] == s[FirstIndex(s, m)];
    assert (s + [o])[..|s|] == s;
  }

  /** The body of the inner `forEach` (App.tsx:205-226): record one non-TURN
      waypoint of a voyage in the insertion-ordered map. */
  method RecordPoint(order: seq<string>, table: map<string, AggregatedLocation>, voyage: Voyage, point: Waypoint,
                     ghost seen: seq<Occurrence>)
    returns (order': seq<string>, table': map<string, AggregatedLocation>)
    requires Grouped(order, table, seen)
    ensures Grouped(order', table', seen + [Occurrence(voyage, point)])
  {
    var name := point.name;
    order', table' := order, table;
    if name !in table' {
      table' := table'[name := AggregatedLocation(name, point.lat, point.lng, point.imageUrl, [], false)];
      order' := order' + [name];
    }
    var loc := table'[name];
    loc := loc.(visits := loc.visits + [VisitOf(Occurrence(voyage, point))]);
    if Truthy(point.imageUrl) && !Truthy(loc.baseImage) {
      loc := loc.(baseImage := point.imageUrl);
    }
    table' := table'[name := loc];

    ghost var o := Occurrence(voyage, point);
    assert (seen + [o])[..|seen|] == seen;
    assert order' == NameOrder(seen + [o]);
    forall m | m in table'
      ensures HasName(seen + [o], m) && table'[m] == Entry(seen + [o], m)
    {
      HasNameAppend(seen, o, m);
      if m == name {
        if HasName(seen, m) {
          EntryAfterKnown(seen, o);
        } else {
          EntryAfterNew(seen, o);
        }
      } else {
        EntryUnaffected(seen, o, m);
      }
    }
  }

  // ---------------------------------------------------------------------
  // Sorting the visits of one location.
  // ---------------------------------------------------------------------

  predicate SortedDesc(vs: seq<Visit>)
  {
    forall i, j :: 0 <= i < j < |vs| ==> vs[i].voyageId >= vs[j].voyageId
  }

  /** The visits of voyage id, in their order in vs. */
  function OfVoyage(vs: seq<Visit>, id: int): seq<Visit>
  {
    if vs == [] then []
    else OfVoyage(vs[..|vs| - 1], id) + (if vs[|vs| - 1].voyageId == id then [vs[|vs| - 1]] else [])
  }

  /** out is vs stably sorted by voyage id, latest first: sorted, the same
      visits, and visits of one voyage in their original order. */
  ghost predicate IsStableSortDesc(out: seq<Visit>, vs: seq<Visit>)
  {
    && SortedDesc(out)
    && multiset(out) == multiset(vs)
    && SameVoyageOrder(out, vs)
  }

  lemma {:induction false} OfVoyageConcat(a: seq<Visit>, b: seq<Visit>, id: int)
    ensures OfVoyage(a + b, id) == OfVoyage(a, id) + OfVoyage(b, id)
    decreases |b|
  {
    if b == [] {
      assert a + b == a;
    } else {
      var b' := b[..|b| - 1];
      assert (a + b)[..|a + b| - 1] == a + b';
      OfVoyageConcat(a, b', id);
    }
  }

  lemma PairOfVoyage(x: Visit, y: Visit, id: int)
    requires x.voyageId != y.voyageId
    ensures OfVoyage([x, y], id) == OfVoyage([y, x], id)
  {
    assert [x, y][..1] == [x] && [y, x][..1] == [y];
    assert [x][..0] == [] && [y][..0] == [];
  }

  /** Swapping two neighbouring visits of different voyages keeps the
      visits of voyage id in the same order. */
  lemma {:induction false} SwapKeepsVoyageOrder(s: seq<Visit>, j: nat, id: int)
    requires 0 < j < |s| && s[j - 1].voyageId != s[j].voyageId
    ensures OfVoyage(s[j - 1 := s[j]][j := s[j - 1]], id) == OfVoyage(s, id)
  {
    var t := s[j - 1 := s[j]][j := s[j - 1]];
    var pre, post := s[..j - 1], s[j + 1..];
    var xy, yx := [s[j - 1], s[j]], [s[j], s[j - 1]];
    assert s == (pre + xy) + post;
    assert t == (pre + yx) + post;
    OfVoyageConcat(pre + xy, post, id);
    OfVoyageConcat(pre + yx, post, id);
    OfVoyageConcat(pre, xy, id);
    OfVoyageConcat(pre, yx, id);
    PairOfVoyage(s[j - 1], s[j], id);
  }

  /** Every voyage's visits appear in s in the same order as in t. */
  ghost predicate SameVoyageOrder(s: seq<Visit>, t: seq<Visit>)
  {
    forall id :: OfVoyage(s, id) == OfVoyage(t, id)
  }

  /** `visits.sort((a, b) => b.voyageId - a.voyageId)`: a stable in-place
      sort, here an insertion sort of neighbouring swaps. */
  method SortVisitsDesc(visits: seq<Visit>) returns (sorted: seq<Visit>)
    ensures IsStableSortDesc(sorted, visits)
  {
    var a := new Visit[|visits|](k requires 0 <= k < |visits| => visits[k]);
    assert a[..] == visits;
    var i := 0;
    while i < a.Length
      invariant 0 <= i <= a.Length
      invariant SortedDesc(a[..i])
      invariant multiset(a[..]) == multiset(visits)
      invariant SameVoyageOrder(a[..], visits)
    {
      SinkInto(a, i);
      i := i + 1;
    }
    sorted := a[..];
    assert sorted[..a.Length] == sorted;
  }

  /** s[..i+1] is sorted except for pairs that involve position j. */
  ghost predicate SortedAround(s: seq<Visit>, i: nat, j: nat)
    requires j <= i < |s|
  {
    forall p, q :: 0 <= p < q <= i && p != j && q != j ==> s[p].voyageId >= s[q].voyageId
  }

  /** One insertion step: move a[i] left past every earlier visit of an
      older voyage, so that a[..i+1] is sorted. */
  method SinkInto(a: array<Visit>, i: nat)
    requires i < a.Length
    requires SortedDesc(a[..i])
    modifies a
    ensures SortedDesc(a[..i + 1])
    ensures a[i + 1..] == old(a[i + 1..])
    ensures multiset(a[..]) == multiset(old(a[..]))
    ensures SameVoyageOrder(a[..], old(a[..]))
  {
    var j := i;
    while j > 0 && a[j - 1].voyageId < a[j].voyageId
      invariant 0 <= j <= i
      invariant SortedAround(a[..], i, j)
      invariant forall q :: j < q <= i ==> a[j].voyageId > a[q].voyageId
      invariant a[i + 1..] == old(a[i + 1..])
      invariant multiset(a[..]) == multiset(old(a[..]))
      invariant SameVoyageOrder(a[..], old(a[..]))
    {
      ghost var before := a[..];
      SwapNeighbours(a, j);
      SinkStep(before, i, j);
      j := j - 1;
    }
    SinkDone(a[..], i, j);
  }

  /** Swapping the moving visit one place left keeps everything else in
      a[..i+1] sorted and the moving visit ahead of those it has passed. */
  lemma SinkStep(s: seq<Visit>, i: nat, j: nat)
    requires 0 < j <= i < |s|
    requires SortedAround(s, i, j)
    requires forall q :: j < q <= i ==> s[j].voyageId > s[q].voyageId
    requires s[j - 1].voyageId < s[j].voyageId
    ensures var t := s[j - 1 := s[j]][j := s[j - 1]];
      SortedAround(t, i, j - 1) && forall q :: j - 1 < q <= i ==> t[j - 1].voyageId > t[q].voyageId
  {
  }

  /** Once the moving visit is not younger than its left neighbour, a[..i+1]
      is sorted. */
  lemma SinkDone(s: seq<Visit>, i: nat, j: nat)
    requires j <= i < |s|
    requires SortedAround(s, i, j)
    requires forall q :: j < q <= i ==> s[j].voyageId > s[q].voyageId
    requires j == 0 || s[j - 1].voyageId >= s[j].voyageId
    ensures SortedDesc(s[..i + 1])
  {
  }

  /** Exchange a[j-1] and a[j], two visits of different voyages. */
  method SwapNeighbours(a: array<Visit>, j: nat)
    requires 0 < j < a.Length && a[j - 1].voyageId != a[j].voyageId
    modifies a
    ensures a[..] == old(a[..])[j - 1 := old(a[j])][j := old(a[j - 1])]
    ensures multiset(a[..]) == multiset(old(a[..]))
    ensures SameVoyageOrder(a[..], old(a[..]))
  {
    a[j - 1], a[j] := a[j], a[j - 1];
    forall id ensures OfVoyage(a[..], id) == OfVoyage(old(a[..]), id) {
      SwapKeepsVoyageOrder(old(a[..]), j, id);
    }
  }

  /** `visits.some(v => v.voyageId === id)`. */
  function AnyOfVoyage(vs: seq<Visit>, id: int): (r: bool)
    ensures r <==> exists i :: 0 <= i < |vs| && vs[i].voyageId == id
  {
    if vs == [] then false
    else
      assert forall i :: 1 <= i < |vs| ==> vs[i] == vs[1..][i - 1];
      vs[0].voyageId == id || AnyOfVoyage(vs[1..], id)
  }

  // ---------------------------------------------------------------------
  // The aggregator itself, and what it promises.
  // ---------------------------------------------------------------------

  /** Some occurrence named n belongs to the voyage with this id. */
  ghost predicate VisitedOnVoyage(occs: seq<Occurrence>, n: string, id: int)
  {
    exists i :: 0 <= i < |occs| && occs[i].point.name == n && occs[i].voyage.id == id
  }

  /** loc is the aggregated record of name n over occs while voyage selected
      is the current one. */
  ghost predicate Describes(loc: AggregatedLocation, occs: seq<Occurrence>, n: string, selected: int)
  {
    && HasName(occs, n)
    && loc.name == n
    && loc.lat == occs[FirstIndex(occs, n)].point.lat
    && loc.lng == occs[FirstIndex(occs, n)].point.lng
    && loc.baseImage == BaseImage(occs, n)
    && IsStableSortDesc(loc.visits, VisitsAt(occs, n))
    && (loc.isActiveInCurrentVoyage <==> VisitedOnVoyage(occs, n, selected))
  }

  lemma {:induction false} OfVoyageEmpty(vs: seq<Visit>, id: int)
    ensures OfVoyage(vs, id) == [] <==> forall i :: 0 <= i < |vs| ==> vs[i].voyageId != id
  {
    if vs != [] {
      OfVoyageEmpty(vs[..|vs| - 1], id);
      assert forall i :: 0 <= i < |vs| - 1 ==> vs[..|vs| - 1][i] == vs[i];
    }
  }

  lemma {:induction false} VisitsAtOfVoyage(occs: seq<Occurrence>, n: string, id: int)
    ensures (exists i :: 0 <= i < |VisitsAt(occs, n)| && VisitsAt(occs, n)[i].voyageId == id)
        <==> VisitedOnVoyage(occs, n, id)
  {
    if exists i :: 0 <= i < |VisitsAt(occs, n)| && VisitsAt(occs, n)[i].voyageId == id {
      VisitComesFromVoyage(occs, n, id);
    }
    if VisitedOnVoyage(occs, n, id) {
      VoyageLeavesVisit(occs, n, id);
    }
  }

  /** A visit of voyage id at n comes from an occurrence of n on that voyage. */
  lemma {:induction false} VisitComesFromVoyage(occs: seq<Occurrence>, n: string, id: int)
    requires exists i :: 0 <= i < |VisitsAt(occs, n)| && VisitsAt(occs, n)[i].voyageId == id
    ensures VisitedOnVoyage(occs, n, id)
  {
    var prev, o := occs[..|occs| - 1], occs[|occs| - 1];
    var pv, vs := VisitsAt(prev, n), VisitsAt(occs, n);
    assert vs == pv + (if o.point.name == n then [VisitOf(o)] else []);
    var i :| 0 <= i < |vs| && vs[i].voyageId == id;
    if i < |pv| {
      assert pv[i] == vs[i];
      assert exists i :: 0 <= i < |VisitsAt(prev, n)| && VisitsAt(prev, n)[i].voyageId == id;
      VisitComesFromVoyage(prev, n, id);
      var j :| 0 <= j < |prev| && prev[j].point.name == n && prev[j].voyage.id == id;
      assert occs[j] == prev[j];
    } else {
      assert occs[|occs| - 1].point.name == n && occs[|occs| - 1].voyage.id == id;
    }
  }

  /** An occurrence of n on voyage id leaves a visit of that voyage at n. */
  lemma {:induction false} VoyageLeavesVisit(occs: seq<Occurrence>, n: string, id: int)
    requires VisitedOnVoyage(occs, n, id)
    ensures exists i :: 0 <= i < |VisitsAt(occs, n)| && VisitsAt(occs, n)[i].voyageId == id
  {
    var prev, o := occs[..|occs| - 1], occs[|occs| - 1];
    var pv, vs := VisitsAt(prev, n), VisitsAt(occs, n);
    assert vs == pv + (if o.point.name == n then [VisitOf(o)] else []);
    var j :| 0 <= j < |occs| && occs[j].point.name == n && occs[j].voyage.id == id;
    if j < |prev| {
      assert prev[j] == occs[j];
      VoyageLeavesVisit(prev, n, id);
      var i :| 0 <= i < |pv| && pv[i].voyageId == id;
      assert vs[i] == pv[i];
    } else {
      assert vs[|vs| - 1] == VisitOf(o);
    }
  }

  /** The `some` test on the sorted visits tells whether the selected
      voyage reached the place. */
  lemma ActiveMeansVisited(sorted: seq<Visit>, occs: seq<Occurrence>, n: string, id: int)
    requires IsStableSortDesc(sorted, VisitsAt(occs, n))
    ensures AnyOfVoyage(sorted, id) <==> VisitedOnVoyage(occs, n, id)
  {
    assert OfVoyage(sorted, id) == OfVoyage(VisitsAt(occs, n), id);
    OfVoyageEmpty(sorted, id);
    OfVoyageEmpty(VisitsAt(occs, n), id);
    VisitsAtOfVoyage(occs, n, id);
  }

  /** The number of visits over a list of locations. */
  function TotalVisits(locs: seq<AggregatedLocation>): nat
  {
    if locs == [] then 0 else TotalVisits(locs[..|locs| - 1]) + |locs[|locs| - 1].visits|
  }

  /** The number of occurrences of each name in names, summed. */
  function VisitCount(occs: seq<Occurrence>, names: seq<string>): nat
  {
    if names == [] then 0 else VisitCount(occs, names[..|names| - 1]) + |VisitsAt(occs, names[|names| - 1])|
  }

  lemma {:induction false} VisitCountAppend(s: seq<Occurrence>, o: Occurrence, names: seq<string>)
    requires forall i, j :: 0 <= i < j < |names| ==> names[i] != names[j]
    ensures VisitCount(s + [o], names) == VisitCount(s, names) + (if o.point.name in names then 1 else 0)
  {
    assert (s + [o])[..|s|] == s;
    if names != [] {
      var prev := names[..|names| - 1];
      VisitCountAppend(s, o, prev);
      assert names == prev + [names[|names| - 1]];
    }
  }

  /** Every non-TURN waypoint is counted once: the visits of all locations
      add up to the number of occurrences. */
  lemma {:induction false} EveryOccurrenceCountedOnce(occs: seq<Occurrence>)
    ensures VisitCount(occs, NameOrder(occs)) == |occs|
  {
    if occs != [] {
      var prev := occs[..|occs| - 1];
      var o := occs[|occs| - 1];
      assert occs == prev + [o];
      EveryOccurrenceCountedOnce(prev);
      VisitCountAppend(prev, o, NameOrder(prev));
      if o.point.name !in NameOrder(prev) {
        var names := NameOrder(prev) + [o.point.name];
        assert names[..|names| - 1] == NameOrder(prev);
        VisitsAtAbsent(prev, o.point.name);
      }
    }
  }

  /** Names are listed in the order of their first occurrence. */
  lemma {:induction false} NamesInFirstOccurrenceOrder(occs: seq<Occurrence>)
    ensures forall i, j :: 0 <= i < j < |NameOrder(occs)| ==>
      FirstIndex(occs, NameOrder(occs)[i]) < FirstIndex(occs, NameOrder(occs)[j])
  {
    if occs != [] {
      var prev := occs[..|occs| - 1];
      var o := occs[|occs| - 1];
      assert occs == prev + [o];
      NamesInFirstOccurrenceOrder(prev);
      var names := NameOrder(occs);
      var pn := NameOrder(prev);
      assert names == if o.point.name in pn then pn else pn + [o.point.name];
      forall i, j | 0 <= i < j < |names|
        ensures FirstIndex(occs, names[i]) < FirstIndex(occs, names[j])
      {
        assert names[i] == pn[i];
        FirstIndexAppend(prev, o, names[i]);
        if j < |pn| {
          assert names[j] == pn[j];
          FirstIndexAppend(prev, o, names[j]);
          assert FirstIndex(prev, pn[i]) < FirstIndex(prev, pn[j]);
        } else {
          var k := FirstIndex(occs, names[j]);
          assert names[j] == o.point.name && names[j] !in pn;
          assert !HasName(prev, names[j]);
          assert k == |prev|;
          assert FirstIndex(occs, names[i]) == FirstIndex(prev, names[i]) < |prev|;
        }
      }
    }
  }

  /** Taking one more waypoint of a path adds at most its own occurrence. */
  lemma StopsOfStep(v: Voyage, path: seq<Waypoint>, k: nat)
    requires k < |path|
    ensures StopsOf(v, path[..k + 1]) ==
      StopsOf(v, path[..k]) + (if path[k].kind == Turn then [] else [Occurrence(v, path[k])])
  {
    assert path[..k + 1][..k] == path[..k];
  }

  /** The inner `forEach` of App.tsx:204-227: record every non-TURN
      waypoint of one voyage in the insertion-ordered map. */
  method RecordVoyage(order: seq<string>, table: map<string, AggregatedLocation>, voyage: Voyage,
                      ghost seen: seq<Occurrence>)
    returns (order': seq<string>, table': map<string, AggregatedLocation>)
    requires Grouped(order, table, seen)
    ensures Grouped(order', table', seen + StopsOf(voyage, voyage.path))
  {
    order', table' := order, table;
    ghost var now := seen;
    var pi := 0;
    while pi < |voyage.path|
      invariant 0 <= pi <= |voyage.path|
      invariant now == seen + StopsOf(voyage, voyage.path[..pi])
      invariant Grouped(order', table', now)
    {
      var point := voyage.path[pi];
      StopsOfStep(voyage, voyage.path, pi);
      if point.kind != Turn {
        order', table' := RecordPoint(order', table', voyage, point, now);
        now := now + [Occurrence(voyage, point)];
      }
      pi := pi + 1;
    }
    assert voyage.path[..pi] == voyage.path;
  }

  /** The outer `forEach` of App.tsx:203-228: record the voyages one by one. */
  method GroupByName(voyages: seq<Voyage>) returns (order: seq<string>, table: map<string, AggregatedLocation>)
    ensures Grouped(order, table, Occurrences(voyages))
  {
    order, table := [], map[];
    var vi := 0;
    while vi < |voyages|
      invariant 0 <= vi <= |voyages|
      invariant Grouped(order, table, Occurrences(voyages[..vi]))
    {
      order, table := RecordVoyage(order, table, voyages[vi], Occurrences(voyages[..vi]));
      assert voyages[..vi + 1][..vi] == voyages[..vi];
      vi := vi + 1;
    }
    assert voyages[..vi] == voyages;
  }

  /** Locations that describe names carry, between them, exactly the
      visits recorded under those names. */
  lemma {:induction false} DescribedVisits(locs: seq<AggregatedLocation>, occs: seq<Occurrence>, names: seq<string>, id: int)
    requires |locs| == |names|
    requires forall i :: 0 <= i < |locs| ==> Describes(locs[i], occs, names[i], id)
    ensures TotalVisits(locs) == VisitCount(occs, names)
  {
    if locs != [] {
      var last := |locs| - 1;
      DescribedVisits(locs[..last], occs, names[..last], id);
      assert |multiset(locs[last].visits)| == |multiset(VisitsAt(occs, names[last]))|;
    }
  }

  /** The `map` callback of App.tsx:229-233 on one grouped location: sort
      its visits, latest voyage first, and flag it when the selected voyage
      visits it. */
  method Finish(loc: AggregatedLocation, voyageId: int, ghost occs: seq<Occurrence>, ghost n: string)
    returns (out: AggregatedLocation)
    requires HasName(occs, n) && loc == Entry(occs, n)
    ensures Describes(out, occs, n, voyageId)
    ensures |out.visits| == |VisitsAt(occs, n)|
  {
    var sorted := SortVisitsDesc(loc.visits);
    var active := AnyOfVoyage(sorted, voyageId);
    ActiveMeansVisited(sorted, occs, n, voyageId);
    assert |sorted| == |loc.visits| by {
      assert |multiset(sorted)| == |multiset(loc.visits)|;
    }
    out := loc.(visits := sorted, isActiveInCurrentVoyage := active);
  }

  /** The `map` of App.tsx:229-233 over the grouped locations, in the
      map's insertion order. */
  method FinishAll(order: seq<string>, table: map<string, AggregatedLocation>, voyageId: int,
                   ghost occs: seq<Occurrence>)
    returns (locations: seq<AggregatedLocation>)
    requires forall i :: 0 <= i < |order| ==>
      order[i] in table && HasName(occs, order[i]) && table[order[i]] == Entry(occs, order[i])
    ensures |locations| == |order|
    ensures forall i :: 0 <= i < |locations| ==> Describes(locations[i], occs, order[i], voyageId)
  {
    locations := [];
    var k := 0;
    while k < |order|
      invariant 0 <= k <= |order|
      invariant |locations| == k
      invariant forall i :: 0 <= i < k ==> Describes(locations[i], occs, order[i], voyageId)
    {
      var loc := Finish(table[order[k]], voyageId, occs, order[k]);
      locations := locations + [loc];
      k := k + 1;
    }
  }

  /** App.tsx:201-233: group the non-TURN waypoints of all voyages by name,
      then sort each location's visits (latest voyage first) and flag the
      locations that the selected voyage visits. */
  method Aggregate(voyages: seq<Voyage>, voyageId: int) returns (locations: seq<AggregatedLocation>)
    ensures var occs := Occurrences(voyages); var names := NameOrder(occs);
      && |locations| == |names|
      && (forall i :: 0 <= i < |locations| ==> Describes(locations[i], occs, names[i], voyageId))
      && TotalVisits(locations) == |occs|
  {
    var order, table := GroupByName(voyages);
    ghost var occs := Occurrences(voyages);
    assert forall i :: 0 <= i < |order| ==> order[i] in table;
    locations := FinishAll(order, table, voyageId, occs);
    DescribedVisits(locations, occs, order, voyageId);
    EveryOccurrenceCountedOnce(occs);
  }
}
