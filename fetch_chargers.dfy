/**
 * The ingestion job (scripts/fetch-chargers.mjs): per corridor segment, keep the fetched
 * points of interest that reach the fast-charging threshold and duplicate no known charger,
 * turn them into new charger records, remember them as known, and finally upload the new
 * records in batches.
 */
module FetchChargers {
  import opened Wrappers
  import opened Seqs
  import opened Strings

  /** The corridor's fast-charging class: sites below it are never proposed. */
  const FastChargeThresholdKw: real := 150.0

  /** Two sites closer than this in both latitude and longitude (degrees) are the same site. */
  const DuplicateToleranceDeg: real := 0.005

  /** How many leading characters of a name the fuzzy name match compares. */
  const NamePrefixLength: nat := 15

  /** How many records one upload request carries. */
  const BatchSize: nat := 10

  datatype BoundingBox = BoundingBox(minLat: real, maxLat: real, minLng: real, maxLng: real)

  datatype Segment = Segment(id: string, name: string, bbox: BoundingBox, country: string)

  /** The nine corridor segments, north to south. */
  const Segments: seq<Segment> := [
    Segment("NL-BE", "Rotterdam - Belgium", BoundingBox(51.4, 52.0, 4.0, 5.0), "NL"),
    Segment("BE-FR", "Belgium - France", BoundingBox(49.5, 51.4, 3.0, 5.0), "BE"),
    Segment("FR-Paris", "France - Paris", BoundingBox(48.5, 49.5, 2.0, 4.5), "FR"),
    Segment("Paris-Orleans", "Paris - Orleans", BoundingBox(47.5, 48.5, 1.5, 3.0), "FR"),
    Segment("Orleans-Clermont", "Orleans - Clermont", BoundingBox(46.0, 47.5, 2.0, 3.5), "FR"),
    Segment("Clermont-Millau", "Clermont - Millau", BoundingBox(44.0, 46.0, 2.5, 3.5), "FR"),
    Segment("Millau-ES", "Millau - Spain Border", BoundingBox(42.3, 44.0, 2.5, 3.5), "FR"),
    Segment("ES-Valencia", "Spain Border - Valencia", BoundingBox(39.0, 42.5, -0.5, 3.0), "ES"),
    Segment("Valencia-SantaPola", "Valencia - Santa Pola", BoundingBox(38.0, 39.5, -1.0, 0.5), "ES")
  ]

  /** One connector of a point of interest: its rating and its type code, either possibly absent. */
  datatype Connection = Connection(powerKw: Option<real>, connectionTypeId: Option<int>)

  /**
   * A point of interest as the provider returns it: `AddressInfo` (title and coordinates),
   * the operator's title if any, the connector list if any, the point count if any.
   */
  datatype PoiResult = PoiResult(
    id: int,
    title: string,
    latitude: real,
    longitude: real,
    operatorTitle: Option<string>,
    connections: Option<seq<Connection>>,
    numberOfPoints: Option<int>)

  /** A charger already in the store: only its name and coordinates are fetched. */
  datatype KnownCharger = KnownCharger(id: string, name: Option<string>, latitude: Option<real>, longitude: Option<real>)

  /** A record proposed for the store. */
  datatype NewCharger = NewCharger(
    name: string,
    latitude: real,
    longitude: real,
    network: string,
    powerKw: real,
    country: string,
    routeSegment: string,
    ocmId: int,
    connectorTypes: string,
    numChargers: int)

  /** The fields of one record in an upload request. */
  datatype UploadFields = UploadFields(
    name: string,
    latitude: real,
    longitude: real,
    network: string,
    powerKw: real,
    country: string,
    routeSegment: string,
    ocmId: int,
    connectorTypes: string,
    numChargers: int,
    highwayProximity: string,
    chargerStatus: string,
    chargerNotes: string)

  // ---------------------------------------------------------------------------------------
  // Segment selection

  /** `segmentFilter ? all.filter(s => s.id === segmentFilter) : all`. */
  function SelectFrom(all: seq<Segment>, segmentFilter: Option<string>): (r: seq<Segment>)
    ensures segmentFilter.None? || segmentFilter == Some("") ==> r == all
    ensures segmentFilter.Some? && segmentFilter.value != "" ==>
              (forall i :: 0 <= i < |r| ==> r[i].id == segmentFilter.value) &&
              (forall i :: 0 <= i < |all| && all[i].id == segmentFilter.value ==> all[i] in r)
    ensures multiset(r) <= multiset(all)
  {
    match segmentFilter
    case Some(f) =>
      if f != "" then
        var matches := (s: Segment) => s.id == f;
        FilterMembers(matches, all);
        Filter(matches, all)
      else all
    case None => all
  }

  /** The segments `main` visits: all of them, or those whose id is the one asked for. */
  function SelectSegments(segmentFilter: Option<string>): seq<Segment>
  {
    SelectFrom(Segments, segmentFilter)
  }

  // ---------------------------------------------------------------------------------------
  // Per-site facts

  /** `c.PowerKW || 0`. */
  function PowerOf(c: Connection): real
  {
    match c.powerKw
    case Some(p) => p
    case None => 0.0
  }

  /** `getMaxPower`: the largest connector rating, and never below zero. */
  function MaxPower(connections: seq<Connection>): (r: real)
    ensures r >= 0.0
    ensures forall i :: 0 <= i < |connections| ==> PowerOf(connections[i]) <= r
    ensures r == 0.0 || exists i :: 0 <= i < |connections| && r == PowerOf(connections[i])
  {
    if connections == [] then 0.0
    else
      var rest := MaxPower(connections[1..]);
      assert forall i :: 1 <= i < |connections| ==> connections[i] == connections[1..][i - 1];
      if PowerOf(connections[0]) > rest then PowerOf(connections[0]) else rest
  }

  /** `r.Connections || []`. */
  function ConnectionsOf(r: PoiResult): seq<Connection>
  {
    match r.connections
    case Some(cs) => cs
    case None => []
  }

  /** The two connector families the job records. */
  datatype ConnectorKind = Ccs | Chademo

  function KindName(k: ConnectorKind): string
  {
    match k
    case Ccs => "CCS"
    case Chademo => "CHAdeMO"
  }

  predicate HasCode(connections: seq<Connection>, code: int)
  {
    exists i :: 0 <= i < |connections| && connections[i].connectionTypeId == Some(code)
  }

  /** The set update of one loop iteration of `getConnectorTypes`, insertion order kept. */
  function AddKinds(kinds: seq<ConnectorKind>, c: Connection): seq<ConnectorKind>
  {
    var withCcs := if (c.connectionTypeId == Some(33) || c.connectionTypeId == Some(32)) && Ccs !in kinds
                   then kinds + [Ccs] else kinds;
    if c.connectionTypeId == Some(2) && Chademo !in withCcs then withCcs + [Chademo] else withCcs
  }

  /** The connector kinds met in `connections`, in order of first appearance. */
  function KindsSeen(connections: seq<Connection>): seq<ConnectorKind>
  {
    if connections == [] then []
    else AddKinds(KindsSeen(connections[..|connections| - 1]), connections[|connections| - 1])
  }

  function KindNames(kinds: seq<ConnectorKind>): seq<string>
  {
    seq(|kinds|, i requires 0 <= i < |kinds| => KindName(kinds[i]))
  }

  /** `Array.from(types).join(',') || 'CCS'`. */
  function ConnectorTypes(connections: seq<Connection>): string
  {
    var kinds := KindsSeen(connections);
    if kinds == [] then "CCS" else Join(KindNames(kinds), ',')
  }

  /** `getConnectorTypes`: collects the kinds in a set while walking the connectors. */
  method GetConnectorTypes(connections: seq<Connection>) returns (r: string)
    ensures r == ConnectorTypes(connections)
  {
    var types: seq<ConnectorKind> := [];
    for i := 0 to |connections|
      invariant types == KindsSeen(connections[..i])
    {
      var conn := connections[i];
      if conn.connectionTypeId == Some(33) || conn.connectionTypeId == Some(32) {
        if Ccs !in types { types := types + [Ccs]; }
      }
      if conn.connectionTypeId == Some(2) {
        if Chademo !in types { types := types + [Chademo]; }
      }
      assert connections[..i + 1][..i] == connections[..i];
    }
    assert connections[..|connections|] == connections;
    if types == [] {
      r := "CCS";
    } else {
      r := Join(KindNames(types), ',');
    }
  }

  /** What the walk has seen so far: each kind present iff one of its codes occurred, never twice. */
  lemma {:induction false} KindsSeenFacts(connections: seq<Connection>)
    ensures Ccs in KindsSeen(connections) <==> HasCode(connections, 32) || HasCode(connections, 33)
    ensures Chademo in KindsSeen(connections) <==> HasCode(connections, 2)
    ensures |KindsSeen(connections)| <= 2
    ensures |KindsSeen(connections)| == 2 ==> KindsSeen(connections)[0] != KindsSeen(connections)[1]
    decreases |connections|
  {
    if connections != [] {
      var init, last := connections[..|connections| - 1], connections[|connections| - 1];
      KindsSeenFacts(init);
      assert connections == init + [last];
      forall code: int ensures HasCode(connections, code) <==> HasCode(init, code) || last.connectionTypeId == Some(code) {
        if HasCode(connections, code) && last.connectionTypeId != Some(code) {
          var i :| 0 <= i < |connections| && connections[i].connectionTypeId == Some(code);
          assert init[i] == connections[i];
        }
        if HasCode(init, code) {
          var i :| 0 <= i < |init| && init[i].connectionTypeId == Some(code);
          assert connections[i] == init[i];
        }
      }
    }
  }

  /** The names of at most two distinct kinds: each name is one of the two, none repeated. */
  lemma KindNamesFacts(kinds: seq<ConnectorKind>)
    requires |kinds| <= 2 && (|kinds| == 2 ==> kinds[0] != kinds[1])
    ensures var names := KindNames(kinds);
            && ("CCS" in names <==> Ccs in kinds)
            && ("CHAdeMO" in names <==> Chademo in kinds)
            && (forall i :: 0 <= i < |names| ==> names[i] == "CCS" || names[i] == "CHAdeMO")
            && (forall i, j :: 0 <= i < j < |names| ==> names[i] != names[j])
  {
    var names := KindNames(kinds);
    assert forall i :: 0 <= i < |names| ==> names[i] == KindName(kinds[i]);
    assert "CCS" != "CHAdeMO" by { assert "CCS"[1] != "CHAdeMO"[1]; }
  }

  /** The pieces of the connector string are the names of the kinds seen, or CCS alone. */
  lemma ConnectorPieces(connections: seq<Connection>)
    requires |KindsSeen(connections)| <= 2
    requires |KindsSeen(connections)| == 2 ==> KindsSeen(connections)[0] != KindsSeen(connections)[1]
    ensures ConnectorTypes(connections) != ""
    ensures Split(ConnectorTypes(connections), ',') ==
            if KindsSeen(connections) == [] then ["CCS"] else KindNames(KindsSeen(connections))
  {
    var kinds := KindsSeen(connections);
    if kinds == [] {
      SplitWhole("CCS", ',');
    } else {
      var names := KindNames(kinds);
      KindNamesFacts(kinds);
      assert forall k :: 0 <= k < |names| ==> ',' !in names[k];
      SplitJoin(names, ',');
      assert |Join(names, ',')| >= |names[0]|;
    }
  }

  /**
   * The connector string names CHAdeMO exactly when a type-2 connector exists, and CCS exactly
   * when a type-32/33 connector exists or no recognised connector does; it names nothing else
   * and never the same type twice.
   */
  lemma ConnectorTypesFacts(connections: seq<Connection>)
    ensures ConnectorTypes(connections) != ""
    ensures var pieces := Split(ConnectorTypes(connections), ',');
            && ("CHAdeMO" in pieces <==> HasCode(connections, 2))
            && ("CCS" in pieces <==> HasCode(connections, 32) || HasCode(connections, 33)
                                     || !(HasCode(connections, 2) || HasCode(connections, 32) || HasCode(connections, 33)))
            && (forall i :: 0 <= i < |pieces| ==> pieces[i] == "CCS" || pieces[i] == "CHAdeMO")
            && (forall i, j :: 0 <= i < j < |pieces| ==> pieces[i] != pieces[j])
  {
    var kinds := KindsSeen(connections);
    KindsSeenFacts(connections);
    ConnectorPieces(connections);
    KindNamesFacts(kinds);
    assert "CCS" != "CHAdeMO" by { assert "CCS"[1] != "CHAdeMO"[1]; }
  }

  // ---------------------------------------------------------------------------------------
  // Duplicate detection

  /** `x || 0` for a coordinate that may be missing. */
  function OrZero(x: Option<real>): real
  {
    match x
    case Some(v) => v
    case None => 0.0
  }

  /** `s || ''` for a name that may be missing. */
  function OrEmpty(s: Option<string>): string
  {
    match s
    case Some(v) => v
    case None => ""
  }

  function Abs(x: real): real
  {
    if x < 0.0 then -x else x
  }

  /** Both coordinates within the tolerance, a missing known coordinate counting as 0. */
  predicate NearBy(c: PoiResult, e: KnownCharger)
  {
    Abs(OrZero(e.latitude) - c.latitude) < DuplicateToleranceDeg &&
    Abs(OrZero(e.longitude) - c.longitude) < DuplicateToleranceDeg
  }

  /** Both lower-cased names non-empty, and one contains the first 15 characters of the other. */
  predicate NamesOverlap(c: PoiResult, e: KnownCharger)
  {
    var name := ToLower(c.title);
    var known := ToLower(OrEmpty(e.name));
    known != "" && name != "" &&
    (Contains(known, Prefix(name, NamePrefixLength)) || Contains(name, Prefix(known, NamePrefixLength)))
  }

  predicate DuplicateOf(c: PoiResult, e: KnownCharger)
  {
    NearBy(c, e) || NamesOverlap(c, e)
  }

  predicate DuplicatesAny(c: PoiResult, existing: seq<KnownCharger>)
  {
    exists i :: 0 <= i < |existing| && DuplicateOf(c, existing[i])
  }

  /** `isDuplicate`: walks the known chargers and stops at the first that matches. */
  method IsDuplicate(charger: PoiResult, existing: seq<KnownCharger>) returns (dup: bool)
    ensures dup <==> DuplicatesAny(charger, existing)
    ensures existing == [] ==> !dup
  {
    var lat, lng := charger.latitude, charger.longitude;
    var name := ToLower(charger.title);
    for i := 0 to |existing|
      invariant forall j :: 0 <= j < i ==> !DuplicateOf(charger, existing[j])
    {
      var e := existing[i];
      var latDiff := Abs(OrZero(e.latitude) - lat);
      var lngDiff := Abs(OrZero(e.longitude) - lng);
      if latDiff < DuplicateToleranceDeg && lngDiff < DuplicateToleranceDeg {
        return true;
      }
      var existingName := ToLower(OrEmpty(e.name));
      if existingName != "" && name != "" &&
         (Contains(existingName, Prefix(name, NamePrefixLength)) || Contains(name, Prefix(existingName, NamePrefixLength))) {
        return true;
      }
    }
    return false;
  }

  /** Knowing more chargers can turn "new" into "duplicate", never the reverse. */
  lemma DuplicatesAnyMonotone(c: PoiResult, existing: seq<KnownCharger>, more: seq<KnownCharger>)
    ensures DuplicatesAny(c, existing) ==> DuplicatesAny(c, existing + more)
  {
    if DuplicatesAny(c, existing) {
      var i :| 0 <= i < |existing| && DuplicateOf(c, existing[i]);
      assert (existing + more)[i] == existing[i];
    }
  }

  /** Two sites with the same non-empty title are duplicates wherever they are. */
  lemma SameTitleIsDuplicate(c: PoiResult, e: KnownCharger)
    requires e.name == Some(c.title) && c.title != ""
    ensures DuplicateOf(c, e)
  {
    var name := ToLower(c.title);
    assert Prefix(name, NamePrefixLength) <= name[0..];
  }

  // ---------------------------------------------------------------------------------------
  // One segment

  /** The test of `results.filter(...)`: fast enough and not yet known. */
  predicate Keep(r: PoiResult, existing: seq<KnownCharger>)
  {
    MaxPower(ConnectionsOf(r)) >= FastChargeThresholdKw && !DuplicatesAny(r, existing)
  }

  function KeepIn(existing: seq<KnownCharger>): PoiResult -> bool
  {
    r => Keep(r, existing)
  }

  /** The results of one segment that are kept, judged against the chargers known at its start. */
  function KeptResults(results: seq<PoiResult>, existing: seq<KnownCharger>): (r: seq<PoiResult>)
    ensures forall i :: 0 <= i < |r| ==> Keep(r[i], existing)
    ensures forall i :: 0 <= i < |results| && Keep(results[i], existing) ==> results[i] in r
  {
    FilterMembers(KeepIn(existing), results);
    Filter(KeepIn(existing), results)
  }

  /** `results.filter(...)` with the loop of `isDuplicate` inside it. */
  method FilterSegmentResults(results: seq<PoiResult>, existing: seq<KnownCharger>) returns (filtered: seq<PoiResult>)
    ensures filtered == KeptResults(results, existing)
  {
    filtered := [];
    for i := 0 to |results|
      invariant filtered == Filter(KeepIn(existing), results[..i])
    {
      var keep := KeepResult(results[i], existing);
      FilterSnoc(KeepIn(existing), results, i);
      if keep {
        filtered := filtered + [results[i]];
      }
    }
    assert results[..|results|] == results;
  }

  /** The filter callback: fast enough, then the duplicate walk. */
  method KeepResult(r: PoiResult, existing: seq<KnownCharger>) returns (keep: bool)
    ensures keep == KeepIn(existing)(r)
  {
    var power := MaxPower(ConnectionsOf(r));
    keep := false;
    if power >= FastChargeThresholdKw {
      var dup := IsDuplicate(r, existing);
      keep := !dup;
    }
  }

  /**
   * Two results of one segment that match each other are both kept: each is judged only
   * against the chargers known before the segment, not against the other.
   */
  lemma MutualDuplicatesBothKept(r1: PoiResult, r2: PoiResult, existing: seq<KnownCharger>)
    requires Keep(r1, existing) && Keep(r2, existing)
    requires DuplicateOf(r2, AsKnown(r1))
    ensures KeptResults([r1, r2], existing) == [r1, r2]
  {
    assert KeepIn(existing)(r1) && KeepIn(existing)(r2);
    FilterBothPass(KeepIn(existing), r1, r2);
    assert [r1] + [r2] == [r1, r2];
  }

  /** The record proposed for a kept result found in `segment`. */
  function NewChargerOf(c: PoiResult, segment: Segment): (r: NewCharger)
    ensures r.name == c.title && r.latitude == c.latitude && r.longitude == c.longitude && r.ocmId == c.id
    ensures c.operatorTitle.None? || c.operatorTitle == Some("") ==> r.network == "Unknown"
    ensures c.operatorTitle.Some? && c.operatorTitle.value != "" ==> r.network == c.operatorTitle.value
    ensures c.numberOfPoints.None? || c.numberOfPoints == Some(0) ==> r.numChargers == 1
    ensures c.numberOfPoints.Some? && c.numberOfPoints.value != 0 ==> r.numChargers == c.numberOfPoints.value
    ensures r.powerKw == MaxPower(ConnectionsOf(c))
    ensures r.connectorTypes == ConnectorTypes(ConnectionsOf(c)) && r.connectorTypes != ""
    ensures r.country == segment.country && r.routeSegment == segment.id
  {
    ConnectorTypesFacts(ConnectionsOf(c));
    NewCharger(
      c.title,
      c.latitude,
      c.longitude,
      if c.operatorTitle.Some? && c.operatorTitle.value != "" then c.operatorTitle.value else "Unknown",
      MaxPower(ConnectionsOf(c)),
      segment.country,
      segment.id,
      c.id,
      ConnectorTypes(ConnectionsOf(c)),
      if c.numberOfPoints.Some? && c.numberOfPoints.value != 0 then c.numberOfPoints.value else 1)
  }

  /** The entry pushed onto `existing` for a kept result. */
  function AsKnown(c: PoiResult): KnownCharger
  {
    KnownCharger("", Some(c.title), Some(c.latitude), Some(c.longitude))
  }

  /** Once a result is remembered, the same site is a duplicate in every later segment. */
  lemma RememberedIsDuplicate(c: PoiResult, existing: seq<KnownCharger>)
    ensures DuplicatesAny(c, existing + [AsKnown(c)])
  {
    assert (existing + [AsKnown(c)])[|existing|] == AsKnown(c);
    assert NearBy(c, AsKnown(c));
  }

  function NewChargersOf(kept: seq<PoiResult>, segment: Segment): (r: seq<NewCharger>)
    ensures |r| == |kept|
    ensures forall i :: 0 <= i < |r| ==> r[i] == NewChargerOf(kept[i], segment)
  {
    seq(|kept|, i requires 0 <= i < |kept| => NewChargerOf(kept[i], segment))
  }

  function AsKnownAll(kept: seq<PoiResult>): (r: seq<KnownCharger>)
    ensures |r| == |kept|
    ensures forall i :: 0 <= i < |r| ==> r[i] == AsKnown(kept[i])
  {
    seq(|kept|, i requires 0 <= i < |kept| => AsKnown(kept[i]))
  }

  // ---------------------------------------------------------------------------------------
  // All segments

  /** The provider's answer for a segment: the network fetch is not part of this model. */
  type Fetch = Segment -> seq<PoiResult>

  /** What the segment loop has built so far: the new records and the known chargers. */
  datatype Progress = Progress(allNew: seq<NewCharger>, known: seq<KnownCharger>)

  /** One pass of the segment loop body. */
  function Step(p: Progress, segment: Segment, fetch: Fetch): Progress
  {
    var kept := KeptResults(fetch(segment), p.known);
    Progress(p.allNew + NewChargersOf(kept, segment), p.known + AsKnownAll(kept))
  }

  /** The new records and the grown list of known chargers after visiting `segments` in order. */
  function RunSegments(segments: seq<Segment>, fetch: Fetch, existing: seq<KnownCharger>): Progress
  {
    if segments == [] then Progress([], existing)
    else Step(RunSegments(segments[..|segments| - 1], fetch, existing), segments[|segments| - 1], fetch)
  }

  /** Visiting one more segment is one more step. */
  lemma RunSegmentsSnoc(segments: seq<Segment>, k: nat, fetch: Fetch, existing: seq<KnownCharger>)
    requires k < |segments|
    ensures RunSegments(segments[..k + 1], fetch, existing) == Step(RunSegments(segments[..k], fetch, existing), segments[k], fetch)
  {
    assert segments[..k + 1][..k] == segments[..k];
  }

  /** The inner loop of `main`: one new record per kept result, in order. */
  method ProposeRecords(filtered: seq<PoiResult>, segment: Segment) returns (added: seq<NewCharger>)
    ensures added == NewChargersOf(filtered, segment)
  {
    added := [];
    for j := 0 to |filtered|
      invariant added == NewChargersOf(filtered[..j], segment)
    {
      var newCharger := NewChargerOf(filtered[j], segment);
      assert NewChargersOf(filtered[..j + 1], segment) == NewChargersOf(filtered[..j], segment) + [newCharger];
      added := added + [newCharger];
    }
    assert filtered[..|filtered|] == filtered;
  }

  /**
   * The segment loop of `main` over the selected segments (`SelectSegments`): filter each segment's results against the chargers known at
   * its start, propose a record for each kept one, then remember the kept ones as known.
   */
  method CollectNewChargers(segments: seq<Segment>, fetch: Fetch, existing0: seq<KnownCharger>)
    returns (allNew: seq<NewCharger>, existing: seq<KnownCharger>)
    ensures Progress(allNew, existing) == RunSegments(segments, fetch, existing0)
  {
    allNew, existing := [], existing0;
    for k := 0 to |segments|
      invariant Progress(allNew, existing) == RunSegments(segments[..k], fetch, existing0)
    {
      var segment := segments[k];
      var results := fetch(segment);
      var filtered := FilterSegmentResults(results, existing);
      var added := ProposeRecords(filtered, segment);
      RunSegmentsSnoc(segments, k, fetch, existing0);
      allNew := allNew + added;
      existing := existing + AsKnownAll(filtered);
    }
    assert segments[..|segments|] == segments;
  }

  /** The entry remembered for a new record: an unnamed id, its title and its coordinates. */
  function Remembered(c: NewCharger): KnownCharger
  {
    KnownCharger("", Some(c.name), Some(c.latitude), Some(c.longitude))
  }

  /** The known list is the original one followed by one remembered entry per new record, in order. */
  predicate TracksNew(existing: seq<KnownCharger>, p: Progress)
  {
    && existing <= p.known
    && |p.known| == |existing| + |p.allNew|
    && forall i :: 0 <= i < |p.allNew| ==> p.known[|existing| + i] == Remembered(p.allNew[i])
  }

  /** One segment step keeps the known list in step with the new records. */
  lemma StepTracksNew(existing: seq<KnownCharger>, p: Progress, segment: Segment, fetch: Fetch)
    requires TracksNew(existing, p)
    ensures TracksNew(existing, Step(p, segment, fetch))
  {
    var kept := KeptResults(fetch(segment), p.known);
    RememberedAll(kept, segment);
    TracksNewAppend(existing, p, NewChargersOf(kept, segment), AsKnownAll(kept));
  }

  /** The entries remembered for kept results are those of the records proposed for them. */
  lemma RememberedAll(kept: seq<PoiResult>, segment: Segment)
    ensures |AsKnownAll(kept)| == |NewChargersOf(kept, segment)|
    ensures forall k :: 0 <= k < |kept| ==> AsKnownAll(kept)[k] == Remembered(NewChargersOf(kept, segment)[k])
  {
  }

  /** Appending records and their remembered entries side by side keeps the two lists in step. */
  lemma TracksNewAppend(existing: seq<KnownCharger>, p: Progress, added: seq<NewCharger>, remembered: seq<KnownCharger>)
    requires TracksNew(existing, p)
    requires |remembered| == |added|
    requires forall k :: 0 <= k < |added| ==> remembered[k] == Remembered(added[k])
    ensures TracksNew(existing, Progress(p.allNew + added, p.known + remembered))
  {
    var q := Progress(p.allNew + added, p.known + remembered);
    forall i | 0 <= i < |q.allNew|
      ensures q.known[|existing| + i] == Remembered(q.allNew[i])
    {
      if i < |p.allNew| {
        assert q.allNew[i] == p.allNew[i];
        assert q.known[|existing| + i] == p.known[|existing| + i];
      } else {
        var k := i - |p.allNew|;
        assert q.allNew[i] == added[k];
        assert q.known[|existing| + i] == remembered[k];
      }
    }
    assert existing <= q.known by {
      assert q.known[..|p.known|] == p.known;
    }
  }

  /**
   * Across the whole run the known list only grows, by exactly the kept results in the order
   * they were kept: entry `|existing| + i` is the title and coordinates of new record `i`.
   */
  lemma {:induction false} RunSegmentsGrowth(segments: seq<Segment>, fetch: Fetch, existing: seq<KnownCharger>)
    ensures var run := RunSegments(segments, fetch, existing);
            && existing <= run.known
            && |run.known| == |existing| + |run.allNew|
            && forall i :: 0 <= i < |run.allNew| ==>
                 run.known[|existing| + i] == KnownCharger("", Some(run.allNew[i].name), Some(run.allNew[i].latitude),
                                                           Some(run.allNew[i].longitude))
  {
    if segments != [] {
      var init := segments[..|segments| - 1];
      RunSegmentsGrowth(init, fetch, existing);
      StepTracksNew(existing, RunSegments(init, fetch, existing), segments[|segments| - 1], fetch);
    }
  }

  /** The record carries the id and country of one of `segments`. */
  predicate FromOneOf(record: NewCharger, segments: seq<Segment>)
  {
    exists s :: s in segments && record.routeSegment == s.id && record.country == s.country
  }

  /** Every record is a fast charger labelled with one of `segments`. */
  predicate FastAndFrom(records: seq<NewCharger>, segments: seq<Segment>)
  {
    forall i :: 0 <= i < |records| ==>
      records[i].powerKw >= FastChargeThresholdKw && FromOneOf(records[i], segments)
  }

  /** The records proposed for kept results are fast chargers labelled with their segment. */
  lemma NewChargersLabelled(kept: seq<PoiResult>, segment: Segment, known: seq<KnownCharger>)
    requires forall i :: 0 <= i < |kept| ==> Keep(kept[i], known)
    ensures forall i :: 0 <= i < |kept| ==>
              && NewChargersOf(kept, segment)[i].powerKw >= FastChargeThresholdKw
              && NewChargersOf(kept, segment)[i].routeSegment == segment.id
              && NewChargersOf(kept, segment)[i].country == segment.country
  {
  }

  /** The property holds of a concatenation when it holds of both parts. */
  lemma FastAndFromAppend(a: seq<NewCharger>, b: seq<NewCharger>, segments: seq<Segment>)
    requires FastAndFrom(a, segments) && FastAndFrom(b, segments)
    ensures FastAndFrom(a + b, segments)
  {
    forall i | 0 <= i < |a + b|
      ensures (a + b)[i].powerKw >= FastChargeThresholdKw && FromOneOf((a + b)[i], segments)
    {
      if i < |a| {
        assert (a + b)[i] == a[i];
      } else {
        assert (a + b)[i] == b[i - |a|];
      }
    }
  }

  /** The records one visit of `segment` adds are fast chargers labelled with it. */
  lemma AddedRecords(kept: seq<PoiResult>, segment: Segment, known: seq<KnownCharger>, segments: seq<Segment>)
    requires forall i :: 0 <= i < |kept| ==> Keep(kept[i], known)
    requires segment in segments
    ensures FastAndFrom(NewChargersOf(kept, segment), segments)
  {
    NewChargersLabelled(kept, segment, known);
  }

  /** One step adds only fast chargers labelled with the segment visited. */
  lemma StepRecords(p: Progress, segment: Segment, fetch: Fetch, segments: seq<Segment>)
    requires FastAndFrom(p.allNew, segments)
    requires segment in segments
    ensures FastAndFrom(Step(p, segment, fetch).allNew, segments)
  {
    var kept := KeptResults(fetch(segment), p.known);
    AddedRecords(kept, segment, p.known, segments);
    FastAndFromAppend(p.allNew, NewChargersOf(kept, segment), segments);
  }

  /** Every new record of a run is a fast charger of one of the visited segments. */
  lemma {:induction false} RunSegmentsRecords(segments: seq<Segment>, fetch: Fetch, existing: seq<KnownCharger>)
    ensures FastAndFrom(RunSegments(segments, fetch, existing).allNew, segments)
  {
    if segments != [] {
      var init := segments[..|segments| - 1];
      RunSegmentsRecords(init, fetch, existing);
      var before := RunSegments(init, fetch, existing);
      assert FastAndFrom(before.allNew, segments) by {
        forall i | 0 <= i < |before.allNew|
          ensures FromOneOf(before.allNew[i], segments)
        {
          assert FromOneOf(before.allNew[i], init);
          var s :| s in init && before.allNew[i].routeSegment == s.id && before.allNew[i].country == s.country;
          var j :| 0 <= j < |init| && init[j] == s;
          assert segments[j] == s;
        }
      }
      StepRecords(before, segments[|segments| - 1], fetch, segments);
    }
  }

  // ---------------------------------------------------------------------------------------
  // Upload batches

  const ImportNote: string := "Auto-imported from OpenChargeMap. Needs verification."

  /** The fields written for one new record; every upload is marked near an exit and untested. */
  function UploadFieldsOf(c: NewCharger): UploadFields
  {
    UploadFields(c.name, c.latitude, c.longitude, c.network, c.powerKw, c.country, c.routeSegment,
                 c.ocmId, c.connectorTypes, c.numChargers, "near_exit", "untested", ImportNote)
  }

  function UploadFieldsAll(cs: seq<NewCharger>): (r: seq<UploadFields>)
    ensures |r| == |cs|
    ensures forall i :: 0 <= i < |r| ==> r[i] == UploadFieldsOf(cs[i])
  {
    seq(|cs|, i requires 0 <= i < |cs| => UploadFieldsOf(cs[i]))
  }

  /**
   * The batching of `addToAirtable` (without the requests): consecutive slices of at most ten,
   * all full except possibly the last, that together are the whole list in order.
   */
  method Batches(chargers: seq<NewCharger>) returns (batches: seq<seq<UploadFields>>)
    ensures Concat(batches) == UploadFieldsAll(chargers)
    ensures forall j :: 0 <= j < |batches| ==> 1 <= |batches[j]| <= BatchSize
    ensures forall j :: 0 <= j < |batches| - 1 ==> |batches[j]| == BatchSize
    ensures |batches| == (|chargers| + BatchSize - 1) / BatchSize
  {
    batches := [];
    var i := 0;
    while i < |chargers|
      invariant i == BatchSize * |batches|
      invariant i < |chargers| + BatchSize
      invariant Concat(batches) == UploadFieldsAll(chargers[..if i < |chargers| then i else |chargers|])
      invariant forall j :: 0 <= j < |batches| ==> 1 <= |batches[j]| <= BatchSize
      invariant i <= |chargers| ==> forall j :: 0 <= j < |batches| ==> |batches[j]| == BatchSize
      invariant forall j :: 0 <= j < |batches| - 1 ==> |batches[j]| == BatchSize
    {
      var end := if i + BatchSize < |chargers| then i + BatchSize else |chargers|;
      var batch := UploadFieldsAll(chargers[i..end]);
      ConcatSnoc(batches, batch);
      UploadFieldsSplit(chargers, i, end);
      batches := batches + [batch];
      i := i + BatchSize;
    }
    assert chargers[..|chargers|] == chargers;
  }

  /** The fields of a prefix are the fields of a shorter prefix followed by those of the slice between. */
  lemma UploadFieldsSplit(chargers: seq<NewCharger>, i: nat, end: nat)
    requires i <= end <= |chargers|
    ensures UploadFieldsAll(chargers[..end]) == UploadFieldsAll(chargers[..i]) + UploadFieldsAll(chargers[i..end])
  {
    var all, l, r := UploadFieldsAll(chargers[..end]), UploadFieldsAll(chargers[..i]), UploadFieldsAll(chargers[i..end]);
    forall k | 0 <= k < |all|
      ensures all[k] == (l + r)[k]
    {
      if k < i {
        assert all[k] == UploadFieldsOf(chargers[k]) == l[k];
      } else {
        assert all[k] == UploadFieldsOf(chargers[k]) == r[k - i];
      }
    }
  }
}
