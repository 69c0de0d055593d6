/**
 * The search-time ranking of chargers (src/lib/utils/charger-filter.ts): annotate each charger
 * with its rounded distance and rounded range left on arrival, keep those reachable with the
 * safety margin, sort them stably by rounded distance and return the first `limit`; plus the
 * small display lookups of the same file.
 */
module ChargerFilter {
  import opened Wrappers
  import opened Seqs
  import opened Strings
  import opened CorridorTypes
  import opened Sorting

  /** Kilometres of range held back because straight-line distance understates driving distance. */
  const SafetyMarginKm: real := 10.0

  /** The number of results the caller asks for when it names none. */
  const DefaultLimit: nat := 3

  /**
   * `calculateDistance(userLat, userLng, chargerLat, chargerLng)`. The distance module is
   * not part of this model; every property below holds for any such function unless a lemma
   * states an assumption about it.
   */
  type DistanceFn = (real, real, real, real) -> real

  /** `Math.round(x * 10) / 10`: Math.round sends halves towards positive infinity. */
  function Round1(x: real): (r: real)
    ensures x - 0.05 < r <= x + 0.05
    ensures (10.0 * r).Floor as real == 10.0 * r
  {
    ((10.0 * x + 0.5).Floor as real) / 10.0
  }

  /** Rounding to one decimal never reverses the order of two values. */
  lemma Round1Monotone(x: real, y: real)
    requires x <= y
    ensures Round1(x) <= Round1(y)
  {
    var fx, fy := (10.0 * x + 0.5).Floor, (10.0 * y + 0.5).Floor;
    assert fx as real <= 10.0 * y + 0.5;
    assert fx <= fy;
  }

  /** One element of `chargers.map(...)`: the charger with its rounded distance and range-after. */
  function WithDistance(c: ChargerRecord, userLat: real, userLng: real, rangeKm: real, dist: DistanceFn): ChargerWithDistance
  {
    var d := dist(userLat, userLng, c.latitude, c.longitude);
    ChargerWithDistance(c, Round1(d), Round1(rangeKm - d))
  }

  /** `chargers.map(...)`: every charger annotated, in input order. */
  function Annotate(chargers: seq<ChargerRecord>, userLat: real, userLng: real, rangeKm: real, dist: DistanceFn)
    : (r: seq<ChargerWithDistance>)
    ensures |r| == |chargers|
    ensures forall i :: 0 <= i < |r| ==> r[i] == WithDistance(chargers[i], userLat, userLng, rangeKm, dist)
  {
    seq(|chargers|, i requires 0 <= i < |chargers| => WithDistance(chargers[i], userLat, userLng, rangeKm, dist))
  }

  /** The admission test, on the rounded values. */
  predicate InRange(c: ChargerWithDistance, rangeKm: real)
  {
    c.distanceKm <= rangeKm - SafetyMarginKm && c.rangeAfterKm >= 0.0
  }

  /** `c` is one of `chargers` with the distance and range-after of this search. */
  predicate AnnotatedFrom(c: ChargerWithDistance, chargers: seq<ChargerRecord>, userLat: real, userLng: real,
                          rangeKm: real, dist: DistanceFn)
  {
    c.charger in chargers && c == WithDistance(c.charger, userLat, userLng, rangeKm, dist)
  }

  /** `chargersWithDistance.filter(...)`: the annotated chargers that pass the admission test. */
  function Admitted(chargers: seq<ChargerRecord>, userLat: real, userLng: real, rangeKm: real, dist: DistanceFn)
    : (r: seq<ChargerWithDistance>)
    ensures forall c :: c in r ==> InRange(c, rangeKm) && AnnotatedFrom(c, chargers, userLat, userLng, rangeKm, dist)
    ensures forall i :: 0 <= i < |chargers| && InRange(WithDistance(chargers[i], userLat, userLng, rangeKm, dist), rangeKm)
              ==> WithDistance(chargers[i], userLat, userLng, rangeKm, dist) in r
  {
    var annotated := Annotate(chargers, userLat, userLng, rangeKm, dist);
    var admit := (c: ChargerWithDistance) => InRange(c, rangeKm);
    var r := Filter(admit, annotated);
    FilterMembers(admit, annotated);
    assert forall c :: c in r ==> AnnotatedFrom(c, chargers, userLat, userLng, rangeKm, dist) by {
      forall c | c in r ensures AnnotatedFrom(c, chargers, userLat, userLng, rangeKm, dist) {
        var j :| 0 <= j < |annotated| && annotated[j] == c;
        assert c.charger == chargers[j];
      }
    }
    assert forall i :: 0 <= i < |chargers| ==> annotated[i] == WithDistance(chargers[i], userLat, userLng, rangeKm, dist);
    r
  }

  /** Admission goes charger by charger: two runs of chargers are admitted independently, in order. */
  lemma AdmittedAppend(a: seq<ChargerRecord>, b: seq<ChargerRecord>, userLat: real, userLng: real, rangeKm: real,
                       dist: DistanceFn)
    ensures Admitted(a + b, userLat, userLng, rangeKm, dist)
            == Admitted(a, userLat, userLng, rangeKm, dist) + Admitted(b, userLat, userLng, rangeKm, dist)
  {
    AnnotateAppend(a, b, userLat, userLng, rangeKm, dist);
    FilterAppend((c: ChargerWithDistance) => InRange(c, rangeKm),
                 Annotate(a, userLat, userLng, rangeKm, dist), Annotate(b, userLat, userLng, rangeKm, dist));
  }

  lemma AnnotateAppend(a: seq<ChargerRecord>, b: seq<ChargerRecord>, userLat: real, userLng: real, rangeKm: real,
                       dist: DistanceFn)
    ensures Annotate(a + b, userLat, userLng, rangeKm, dist)
            == Annotate(a, userLat, userLng, rangeKm, dist) + Annotate(b, userLat, userLng, rangeKm, dist)
  {
    var r, ra, rb := Annotate(a + b, userLat, userLng, rangeKm, dist), Annotate(a, userLat, userLng, rangeKm, dist),
                     Annotate(b, userLat, userLng, rangeKm, dist);
    assert forall k :: 0 <= k < |r| ==> r[k] == (ra + rb)[k];
  }

  /**
   * The sort key of `inRange.sort((a, b) => a.distanceKm - b.distanceKm)`: the rounded distance.
   * The sort itself is `Sorting.SortBy`, stable as the standard sort is.
   */
  function DistanceKey(c: ChargerWithDistance): real
  {
    c.distanceKm
  }

  /**
   * `filterChargersByRange(chargers, userLat, userLng, rangeKm, limit)` for a `limit` that is
   * not negative (three when the caller gives none): the admitted chargers, nearest first, cut
   * to `limit`.
   */
  function FilterChargersByRange(chargers: seq<ChargerRecord>, userLat: real, userLng: real, rangeKm: real,
                                 dist: DistanceFn, limit: nat := DefaultLimit): (r: seq<ChargerWithDistance>)
    ensures |r| == if limit < |Admitted(chargers, userLat, userLng, rangeKm, dist)| then limit
                   else |Admitted(chargers, userLat, userLng, rangeKm, dist)|
    ensures forall i :: 0 <= i < |r| ==>
              r[i].distanceKm <= rangeKm - SafetyMarginKm && r[i].rangeAfterKm >= 0.0
    ensures SortedBy(DistanceKey, r)
    ensures forall i :: 0 <= i < |r| ==> AnnotatedFrom(r[i], chargers, userLat, userLng, rangeKm, dist)
    ensures multiset(r) <= multiset(Admitted(chargers, userLat, userLng, rangeKm, dist))
  {
    var admitted := Admitted(chargers, userLat, userLng, rangeKm, dist);
    var ranked := SortBy(DistanceKey, admitted);
    var r := Take(ranked, limit);
    SortedTake(DistanceKey, ranked, limit);
    SubMultisetMembers(r, admitted);
    r
  }

  /**
   * The result is the head of the ranking: every admitted charger left out is at least as far
   * as every returned one.
   */
  lemma RankingIsPrefix(chargers: seq<ChargerRecord>, userLat: real, userLng: real, rangeKm: real,
                        limit: nat, dist: DistanceFn)
    ensures var r := FilterChargersByRange(chargers, userLat, userLng, rangeKm, dist, limit);
            forall x, c :: x in r && c in multiset(Admitted(chargers, userLat, userLng, rangeKm, dist)) - multiset(r)
              ==> x.distanceKm <= c.distanceKm
  {
    var admitted := Admitted(chargers, userLat, userLng, rangeKm, dist);
    SortedHeadIsSmallest(DistanceKey, SortBy(DistanceKey, admitted), limit);
  }

  /** Chargers at the same rounded distance come out in the order they went in. */
  lemma RankingIsStable(chargers: seq<ChargerRecord>, userLat: real, userLng: real, rangeKm: real,
                        limit: nat, dist: DistanceFn, k: real)
    ensures Ties(DistanceKey, FilterChargersByRange(chargers, userLat, userLng, rangeKm, dist, limit), k)
            <= Ties(DistanceKey, Admitted(chargers, userLat, userLng, rangeKm, dist), k)
  {
    var admitted := Admitted(chargers, userLat, userLng, rangeKm, dist);
    var ranked := SortBy(DistanceKey, admitted);
    var r := FilterChargersByRange(chargers, userLat, userLng, rangeKm, dist, limit);
    var p := KeyIs(DistanceKey, k);
    FilterSplit(p, ranked, |r|);
    SortKeepsTies(DistanceKey, admitted, k);
    assert r == ranked[..|r|];
    var head, tail := Filter(p, ranked[..|r|]), Filter(p, ranked[|r|..]);
    assert (head + tail)[..|head|] == head;
  }

  /**
   * The range-after test never rejects anything the distance test admits: a charger whose
   * rounded distance leaves the safety margin arrives with at least the margin left.
   */
  lemma DistanceTestImpliesMargin(c: ChargerRecord, userLat: real, userLng: real, rangeKm: real, dist: DistanceFn)
    ensures var w := WithDistance(c, userLat, userLng, rangeKm, dist);
            w.distanceKm <= rangeKm - SafetyMarginKm ==> w.rangeAfterKm >= SafetyMarginKm
  {
    var d := dist(userLat, userLng, c.latitude, c.longitude);
    if Round1(d) <= rangeKm - SafetyMarginKm {
      assert rangeKm - d >= 9.95;
      Round1Monotone(9.95, rangeKm - d);
    }
  }

  /** With a distance function that is never negative, a range below the margin finds nothing. */
  lemma NothingBelowMargin(chargers: seq<ChargerRecord>, userLat: real, userLng: real, rangeKm: real,
                           limit: nat, dist: DistanceFn)
    requires rangeKm < SafetyMarginKm
    requires forall i :: 0 <= i < |chargers| ==> dist(userLat, userLng, chargers[i].latitude, chargers[i].longitude) >= 0.0
    ensures FilterChargersByRange(chargers, userLat, userLng, rangeKm, dist, limit) == []
  {
    var annotated := Annotate(chargers, userLat, userLng, rangeKm, dist);
    var admitted := Admitted(chargers, userLat, userLng, rangeKm, dist);
    if admitted != [] {
      var j :| 0 <= j < |annotated| && annotated[j] == admitted[0];
      Round1Monotone(0.0, dist(userLat, userLng, chargers[j].latitude, chargers[j].longitude));
      assert false;
    }
  }

  /**
   * At a range of exactly the margin a charger at the traveller's own position is still
   * returned, so "a range of at most the margin finds nothing" holds only below the margin.
   */
  lemma MarginBoundaryAdmits(c: ChargerRecord, userLat: real, userLng: real, dist: DistanceFn)
    requires dist(userLat, userLng, c.latitude, c.longitude) == 0.0
    ensures FilterChargersByRange([c], userLat, userLng, SafetyMarginKm, dist, 1)
            == [ChargerWithDistance(c, 0.0, SafetyMarginKm)]
  {
    var w := WithDistance(c, userLat, userLng, SafetyMarginKm, dist);
    assert w == ChargerWithDistance(c, 0.0, SafetyMarginKm) by {
      RoundWholeTenths();
    }
    assert Annotate([c], userLat, userLng, SafetyMarginKm, dist) == [w];
    FilterSingleton((x: ChargerWithDistance) => InRange(x, SafetyMarginKm), w);
    SortSingleton(DistanceKey, w);
  }

  /**
   * Nothing is deduplicated: two chargers at the same position are both returned when one is,
   * in their input order.
   */
  lemma SameSiteBothKept(c1: ChargerRecord, c2: ChargerRecord, userLat: real, userLng: real, rangeKm: real,
                         dist: DistanceFn)
    requires c1.latitude == c2.latitude && c1.longitude == c2.longitude
    requires InRange(WithDistance(c1, userLat, userLng, rangeKm, dist), rangeKm)
    ensures FilterChargersByRange([c1, c2], userLat, userLng, rangeKm, dist, 2)
            == [WithDistance(c1, userLat, userLng, rangeKm, dist), WithDistance(c2, userLat, userLng, rangeKm, dist)]
  {
    var w1, w2 := WithDistance(c1, userLat, userLng, rangeKm, dist), WithDistance(c2, userLat, userLng, rangeKm, dist);
    AdmittedPair(c1, c2, userLat, userLng, rangeKm, dist);
    SortPair(w1, w2);
    assert Take([w1, w2], 2) == [w1, w2];
  }

  lemma AdmittedPair(c1: ChargerRecord, c2: ChargerRecord, userLat: real, userLng: real, rangeKm: real,
                     dist: DistanceFn)
    requires c1.latitude == c2.latitude && c1.longitude == c2.longitude
    requires InRange(WithDistance(c1, userLat, userLng, rangeKm, dist), rangeKm)
    ensures Admitted([c1, c2], userLat, userLng, rangeKm, dist)
            == [WithDistance(c1, userLat, userLng, rangeKm, dist)] + [WithDistance(c2, userLat, userLng, rangeKm, dist)]
  {
    var w1, w2 := WithDistance(c1, userLat, userLng, rangeKm, dist), WithDistance(c2, userLat, userLng, rangeKm, dist);
    AnnotatePair(c1, c2, userLat, userLng, rangeKm, dist);
    assert InRange(w2, rangeKm);
    FilterBothPass((x: ChargerWithDistance) => InRange(x, rangeKm), w1, w2);
  }

  lemma AnnotatePair(c1: ChargerRecord, c2: ChargerRecord, userLat: real, userLng: real, rangeKm: real,
                     dist: DistanceFn)
    ensures Annotate([c1, c2], userLat, userLng, rangeKm, dist)
            == [WithDistance(c1, userLat, userLng, rangeKm, dist)] + [WithDistance(c2, userLat, userLng, rangeKm, dist)]
  {
  }

  /** Two chargers at the same rounded distance stay in their order. */
  lemma SortPair(w1: ChargerWithDistance, w2: ChargerWithDistance)
    requires w1.distanceKm == w2.distanceKm
    ensures SortBy(DistanceKey, [w1] + [w2]) == [w1, w2]
  {
    assert ([w1] + [w2])[1..] == [w2];
    SortSingleton(DistanceKey, w2);
  }

  /** Zero and the margin itself are left unchanged by the rounding. */
  lemma RoundWholeTenths()
    ensures Round1(0.0) == 0.0 && Round1(SafetyMarginKm) == SafetyMarginKm
  {
    assert (10.0 * 0.0 + 0.5).Floor == 0;
    assert (10.0 * SafetyMarginKm + 0.5).Floor == 100;
  }

  // ---------------------------------------------------------------------------------------
  // Display lookups

  const DefaultNetworkColor: string := "bg-gray-500"

  /** The badge colours of the known networks. */
  const NetworkColors: map<string, string> := map[
    "Tesla" := "bg-red-600",
    "Ionity" := "bg-blue-700",
    "Fastned" := "bg-yellow-400 text-black",
    "Shell Recharge" := "bg-yellow-400 text-black",
    "Shell" := "bg-yellow-400 text-black",
    "TotalEnergies" := "bg-orange-500",
    "Iberdrola" := "bg-green-600"]

  /** `getNetworkColor`: the network's colour, grey exactly for networks not in the table. */
  function GetNetworkColor(network: string): (r: string)
    ensures r != ""
    ensures r == DefaultNetworkColor <==> network !in NetworkColors
    ensures network in NetworkColors ==> r == NetworkColors[network]
  {
    if network in NetworkColors then NetworkColors[network] else DefaultNetworkColor
  }

  datatype ProximityStyle = ProximityStyle(bg: string, text: string, caption: string)

  const AtExitStyle: ProximityStyle := ProximityStyle("bg-green-100", "text-green-800", "At Exit")
  const NearExitStyle: ProximityStyle := ProximityStyle("bg-yellow-100", "text-yellow-800", "Near Exit")
  const TownStyle: ProximityStyle := ProximityStyle("bg-orange-100", "text-orange-800", "In Town")

  /** `getProximityStyle`: the two exit tiers have their own style, anything else is styled as town. */
  function GetProximityStyle(proximity: string): (r: ProximityStyle)
    ensures proximity == "at_exit" ==> r == AtExitStyle
    ensures proximity == "near_exit" ==> r == NearExitStyle
    ensures r == TownStyle <==> proximity != "at_exit" && proximity != "near_exit"
  {
    if proximity == "at_exit" then AtExitStyle
    else if proximity == "near_exit" then NearExitStyle
    else TownStyle
  }

  /** `.map(a => a.trim())`. */
  function TrimAll(pieces: seq<string>): (r: seq<string>)
    ensures |r| == |pieces|
    ensures forall k :: 0 <= k < |r| ==> r[k] == Trim(pieces[k])
  {
    seq(|pieces|, i requires 0 <= i < |pieces| => Trim(pieces[i]))
  }

  lemma TrimAllAppend(a: seq<string>, b: seq<string>)
    ensures TrimAll(a + b) == TrimAll(a) + TrimAll(b)
  {
    var r, ra, rb := TrimAll(a + b), TrimAll(a), TrimAll(b);
    assert forall k :: 0 <= k < |r| ==> r[k] == (ra + rb)[k];
  }

  /** The test of `.filter(a => a.length > 0)`. */
  predicate IsNonEmpty(piece: string)
  {
    piece != ""
  }

  /** A trimmed piece of a comma split: no comma, no white space at either end. */
  predicate CleanPiece(piece: string)
  {
    ',' !in piece && (piece != "" ==> !IsWhitespace(piece[0]) && !IsWhitespace(piece[|piece| - 1]))
  }

  /** `parseAmenities` once the empty-string guard is passed: split on commas, trim, drop empties. */
  function AmenityPieces(amenities: string): (r: seq<string>)
    ensures forall k :: 0 <= k < |r| ==> r[k] != "" && ',' !in r[k]
    ensures forall k :: 0 <= k < |r| ==> !IsWhitespace(r[k][0]) && !IsWhitespace(r[k][|r[k]| - 1])
  {
    var pieces := Split(amenities, ',');
    var trimmed := TrimAll(pieces);
    assert forall k :: 0 <= k < |trimmed| ==> CleanPiece(trimmed[k]) by {
      forall k | 0 <= k < |trimmed| ensures CleanPiece(trimmed[k]) {
        assert ',' !in pieces[k];
      }
    }
    FilterPreserves(IsNonEmpty, CleanPiece, trimmed);
    Filter(IsNonEmpty, trimmed)
  }

  /** The guard changes nothing: the empty string has no non-empty piece anyway. */
  lemma AmenityPiecesOfEmpty()
    ensures AmenityPieces("") == []
  {
    SplitWhole("", ',');
    assert TrimAll([""]) == [""];
    FilterSingleton(IsNonEmpty, "");
  }

  /** `parseAmenities`: the non-empty, trimmed, comma-separated pieces of the amenity string. */
  function ParseAmenities(amenities: string): (r: seq<string>)
    ensures amenities == "" ==> r == []
    ensures forall k :: 0 <= k < |r| ==> r[k] != "" && ',' !in r[k]
    ensures forall k :: 0 <= k < |r| ==> !IsWhitespace(r[k][0]) && !IsWhitespace(r[k][|r[k]| - 1])
  {
    if amenities == "" then [] else AmenityPieces(amenities)
  }

  /** Amenity lists read piecewise and in order: a comma separates two independent parts. */
  lemma ParseAmenitiesAppend(a: string, b: string)
    ensures ParseAmenities(a + [','] + b) == ParseAmenities(a) + ParseAmenities(b)
  {
    AmenityPiecesOfEmpty();
    SplitAppend(a, ',', b);
    TrimAllAppend(Split(a, ','), Split(b, ','));
    FilterAppend(IsNonEmpty, TrimAll(Split(a, ',')), TrimAll(Split(b, ',')));
  }

  /** A string without commas is one amenity: its trimmed self, unless that is empty. */
  lemma ParseSingleAmenity(a: string)
    requires ',' !in a
    ensures ParseAmenities(a) == if Trim(a) == "" then [] else [Trim(a)]
  {
    assert IndexOf(a, ',') == |a|;
  }

  /** Stand-ins for the emoji of each known amenity and for the tick shown for others. */
  const FoodIcon: string := "\U{1F354}"
  const ToiletsIcon: string := "\U{1F6BB}"
  const CoffeeIcon: string := "\U{2615}"
  const ShopIcon: string := "\U{1F6D2}"
  const SeatingIcon: string := "\U{1F4BA}"
  const WifiIcon: string := "\U{1F4F6}"
  const HotelIcon: string := "\U{1F3E8}"
  const DefaultIcon: string := "\U{2713}"

  const AmenityIcons: map<string, string> := map[
    "food" := FoodIcon,
    "toilets" := ToiletsIcon,
    "coffee" := CoffeeIcon,
    "shop" := ShopIcon,
    "seating" := SeatingIcon,
    "wifi" := WifiIcon,
    "hotel" := HotelIcon]

  /** `getAmenityEmoji`: the icon of the lower-cased amenity, the tick exactly for unknown ones. */
  function GetAmenityEmoji(amenity: string): (r: string)
    ensures ToLower(amenity) in AmenityIcons ==> r == AmenityIcons[ToLower(amenity)]
    ensures r == DefaultIcon <==> ToLower(amenity) !in AmenityIcons
  {
    var key := ToLower(amenity);
    if key in AmenityIcons then AmenityIcons[key] else DefaultIcon
  }

  /** The lookup ignores letter case. */
  lemma AmenityEmojiIgnoresCase(amenity: string)
    ensures GetAmenityEmoji(amenity) == GetAmenityEmoji(ToLower(amenity))
  {
    ToLowerIdempotent(amenity);
  }
}
