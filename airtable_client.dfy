/**
 * The read side of the charger store (src/lib/airtable/client.ts): each raw record of each
 * page becomes a `ChargerRecord` when it has a name and both coordinates, with defaults for
 * the missing fields; a segment query keeps the records of one segment.
 */
module AirtableClient {
  import opened Wrappers
  import opened Seqs
  import opened CorridorTypes
  import FetchChargers

  /** The fields of a stored record, any of which the store may leave out. */
  datatype RawFields = RawFields(
    name: Option<string>,
    latitude: Option<real>,
    longitude: Option<real>,
    network: Option<string>,
    powerKw: Option<real>,
    highwayProximity: Option<string>,
    amenities: Option<string>,
    ocmId: Option<int>,
    country: Option<string>,
    routeSegment: Option<string>,
    chargerNotes: Option<string>,
    reliability: Option<real>,
    chargerStatus: Option<string>,
    connectorTypes: Option<string>,
    numChargers: Option<int>,
    onRoute: Option<string>)

  datatype RawRecord = RawRecord(id: string, fields: RawFields)

  /** `s || d` for a string field: absent and empty both give the default. */
  function StringOr(s: Option<string>, d: string): string
  {
    if s.Some? && s.value != "" then s.value else d
  }

  /** `x || d` for a numeric field: absent and zero both give the default. */
  function RealOr(x: Option<real>, d: real): real
  {
    if x.Some? && x.value != 0.0 then x.value else d
  }

  function IntOr(x: Option<int>, d: int): int
  {
    if x.Some? && x.value != 0 then x.value else d
  }

  /** `fields.Name && fields.latitude && fields.longitude`: present, non-empty, non-zero. */
  predicate Usable(f: RawFields)
  {
    f.name.Some? && f.name.value != "" &&
    f.latitude.Some? && f.latitude.value != 0.0 &&
    f.longitude.Some? && f.longitude.value != 0.0
  }

  /** The shape every converted record has: the defaulted fields are never empty or zero. */
  predicate Normalised(c: ChargerRecord)
  {
    c.network != "" && c.highwayProximity != "" && c.onRoute != "" && c.numChargers != 0
  }

  /** The record pushed for one raw record of a page, or nothing when the record is unusable. */
  function ConvertRecord(raw: RawRecord): (r: Option<ChargerRecord>)
    ensures r.Some? <==> Usable(raw.fields)
    ensures r.Some? ==> r.value.id == raw.id && Some(r.value.name) == raw.fields.name
                        && Some(r.value.latitude) == raw.fields.latitude
                        && Some(r.value.longitude) == raw.fields.longitude
    ensures r.Some? ==> Normalised(r.value)
  {
    var f := raw.fields;
    if !Usable(f) then None
    else Some(ChargerRecord(
      raw.id,
      f.name.value,
      f.latitude.value,
      f.longitude.value,
      StringOr(f.network, "Unknown"),
      RealOr(f.powerKw, 0.0),
      StringOr(f.highwayProximity, "town"),
      StringOr(f.amenities, ""),
      f.ocmId,
      StringOr(f.country, ""),
      StringOr(f.routeSegment, ""),
      f.chargerNotes,
      f.reliability,
      f.chargerStatus,
      StringOr(f.connectorTypes, ""),
      IntOr(f.numChargers, 1),
      StringOr(f.onRoute, "no")))
  }

  /**
   * Values that are present and not empty or zero are copied as they are; in particular the
   * proximity and on-route strings are not checked against their allowed values.
   */
  lemma PresentFieldsKept(raw: RawRecord)
    requires Usable(raw.fields)
    ensures var c := ConvertRecord(raw).value;
            var f := raw.fields;
            && (f.highwayProximity.Some? && f.highwayProximity.value != "" ==> c.highwayProximity == f.highwayProximity.value)
            && (f.onRoute.Some? && f.onRoute.value != "" ==> c.onRoute == f.onRoute.value)
            && (f.network.Some? && f.network.value != "" ==> c.network == f.network.value)
            && (f.amenities.Some? ==> c.amenities == f.amenities.value)
            && (f.country.Some? ==> c.country == f.country.value)
            && (f.routeSegment.Some? ==> c.routeSegment == f.routeSegment.value)
            && (f.connectorTypes.Some? ==> c.connectorTypes == f.connectorTypes.value)
            && (f.numChargers.Some? && f.numChargers.value != 0 ==> c.numChargers == f.numChargers.value)
            && c.powerKw == (if f.powerKw.Some? then f.powerKw.value else 0.0)
            && c.ocmId == f.ocmId && c.notes == f.chargerNotes && c.status == f.chargerStatus
            && c.reliability == f.reliability
  {
  }

  /**
   * Each field that is missing, or present with a value JavaScript treats as false (the empty
   * string, zero), gets its own default, whatever the other fields hold.
   */
  lemma MissingFieldsDefaulted(raw: RawRecord)
    requires Usable(raw.fields)
    ensures var c := ConvertRecord(raw).value;
            var f := raw.fields;
            && (f.network.None? || f.network == Some("") ==> c.network == "Unknown")
            && (f.powerKw.None? || f.powerKw == Some(0.0) ==> c.powerKw == 0.0)
            && (f.highwayProximity.None? || f.highwayProximity == Some("") ==> c.highwayProximity == "town")
            && (f.amenities.None? || f.amenities == Some("") ==> c.amenities == "")
            && (f.country.None? || f.country == Some("") ==> c.country == "")
            && (f.routeSegment.None? || f.routeSegment == Some("") ==> c.routeSegment == "")
            && (f.connectorTypes.None? || f.connectorTypes == Some("") ==> c.connectorTypes == "")
            && (f.numChargers.None? || f.numChargers == Some(0) ==> c.numChargers == 1)
            && (f.onRoute.None? || f.onRoute == Some("") ==> c.onRoute == "no")
            && (f.ocmId.None? ==> c.ocmId.None?)
            && (f.chargerNotes.None? ==> c.notes.None?)
            && (f.reliability.None? ==> c.reliability.None?)
            && (f.chargerStatus.None? ==> c.status.None?)
  {
  }

  /** The stored form of a record: every field present. */
  function Stored(c: ChargerRecord): RawRecord
  {
    RawRecord(c.id, RawFields(Some(c.name), Some(c.latitude), Some(c.longitude), Some(c.network),
                              Some(c.powerKw), Some(c.highwayProximity), Some(c.amenities), c.ocmId,
                              Some(c.country), Some(c.routeSegment), c.notes, c.reliability, c.status,
                              Some(c.connectorTypes), Some(c.numChargers), Some(c.onRoute)))
  }

  /**
   * Reading back a stored record gives the record itself when it is normalised and usable;
   * in particular converting is idempotent on its own results.
   */
  lemma ConvertStoredRoundTrip(c: ChargerRecord)
    requires Normalised(c) && c.name != "" && c.latitude != 0.0 && c.longitude != 0.0
    ensures ConvertRecord(Stored(c)) == Some(c)
  {
  }

  /** The `for` loop over one page, pages taken in order: usable records converted, others skipped. */
  function ConvertAll(raws: seq<RawRecord>): (r: seq<ChargerRecord>)
    ensures |r| <= |raws|
    ensures forall i :: 0 <= i < |r| ==> Normalised(r[i])
    ensures forall i :: 0 <= i < |raws| && Usable(raws[i].fields) ==> ConvertRecord(raws[i]).value in r
  {
    if raws == [] then []
    else
      var rest := ConvertAll(raws[1..]);
      assert forall i :: 1 <= i < |raws| ==> raws[i] == raws[1..][i - 1];
      match ConvertRecord(raws[0])
      case Some(c) => [c] + rest
      case None => rest
  }

  /** Conversion goes record by record: the output of two runs of records is the two outputs in order. */
  lemma {:induction false} ConvertAllAppend(a: seq<RawRecord>, b: seq<RawRecord>)
    ensures ConvertAll(a + b) == ConvertAll(a) + ConvertAll(b)
  {
    if a != [] {
      assert (a + b)[1..] == a[1..] + b;
      ConvertAllAppend(a[1..], b);
    } else {
      assert a + b == b;
    }
  }

  /** Every converted record comes from a usable raw record. */
  lemma {:induction false} ConvertAllSources(raws: seq<RawRecord>)
    ensures forall c :: c in ConvertAll(raws) ==> exists i :: 0 <= i < |raws| && ConvertRecord(raws[i]) == Some(c)
  {
    if raws != [] {
      ConvertAllSources(raws[1..]);
      forall c | c in ConvertAll(raws)
        ensures exists i :: 0 <= i < |raws| && ConvertRecord(raws[i]) == Some(c)
      {
        if ConvertRecord(raws[0]) != Some(c) {
          assert c in ConvertAll(raws[1..]);
          var j :| 0 <= j < |raws[1..]| && ConvertRecord(raws[1..][j]) == Some(c);
          assert raws[j + 1] == raws[1..][j];
        }
      }
    }
  }

  /**
   * `fetchAllChargers` without the requests: the pages as the store returned them, walked with
   * the page loop and the record loop, pushing each converted record.
   */
  method FetchAllChargers(pages: seq<seq<RawRecord>>) returns (allRecords: seq<ChargerRecord>)
    ensures allRecords == ConvertAll(Concat(pages))
  {
    allRecords := [];
    var p := 0;
    while p < |pages|
      invariant 0 <= p <= |pages|
      invariant allRecords == ConvertAll(Concat(pages[..p]))
    {
      var page := pages[p];
      ghost var before := Concat(pages[..p]);
      assert before + page[..0] == before;
      for i := 0 to |page|
        invariant allRecords == ConvertAll(before + page[..i])
      {
        var record := page[i];
        var fields := record.fields;
        ConvertAllSnoc(before, page, i);
        if Usable(fields) {
          allRecords := allRecords + [ConvertRecord(record).value];
        }
      }
      NextPage(pages, p);
      p := p + 1;
    }
    assert pages[..|pages|] == pages;
  }

  /** One more record of the current page converts on its own. */
  lemma ConvertAllSnoc(before: seq<RawRecord>, page: seq<RawRecord>, i: nat)
    requires i < |page|
    ensures ConvertAll(before + page[..i + 1]) ==
            ConvertAll(before + page[..i]) + (if Usable(page[i].fields) then [ConvertRecord(page[i]).value] else [])
  {
    assert before + page[..i + 1] == (before + page[..i]) + [page[i]];
    ConvertAllAppend(before + page[..i], [page[i]]);
    assert [page[i]][1..] == [];
  }

  /** One more page appends that whole page. */
  lemma NextPage(pages: seq<seq<RawRecord>>, p: nat)
    requires p < |pages|
    ensures Concat(pages[..p + 1]) == Concat(pages[..p]) + pages[p][..|pages[p]|]
  {
    assert pages[..p + 1] == pages[..p] + [pages[p]];
    ConcatSnoc(pages[..p], pages[p]);
    assert pages[p][..|pages[p]|] == pages[p];
  }

  /** `fetchChargersBySegment`'s filter: exactly the records of that segment, in their order. */
  function BySegment(chargers: seq<ChargerRecord>, segment: string): (r: seq<ChargerRecord>)
    ensures forall i :: 0 <= i < |r| ==> r[i].routeSegment == segment && r[i] in chargers
    ensures forall i :: 0 <= i < |chargers| && chargers[i].routeSegment == segment ==> chargers[i] in r
    ensures multiset(r) <= multiset(chargers)
  {
    var inSegment := (c: ChargerRecord) => c.routeSegment == segment;
    FilterMembers(inSegment, chargers);
    Filter(inSegment, chargers)
  }

  /** A segment query over several pages is the query over each page, in page order. */
  lemma BySegmentAppend(a: seq<ChargerRecord>, b: seq<ChargerRecord>, segment: string)
    ensures BySegment(a + b, segment) == BySegment(a, segment) + BySegment(b, segment)
  {
    FilterAppend((c: ChargerRecord) => c.routeSegment == segment, a, b);
  }

  /** How the store holds a record the ingestion script uploaded: only the uploaded fields are set. */
  function StoredUpload(id: string, u: FetchChargers.UploadFields): RawRecord
  {
    RawRecord(id, RawFields(Some(u.name), Some(u.latitude), Some(u.longitude), Some(u.network),
                            Some(u.powerKw), Some(u.highwayProximity), None, Some(u.ocmId),
                            Some(u.country), Some(u.routeSegment), Some(u.chargerNotes), None,
                            Some(u.chargerStatus), Some(u.connectorTypes), Some(u.numChargers), None))
  }

  /**
   * An imported charger read back by the client: it is shown exactly when its title and both
   * coordinates are non-empty and non-zero, and then it carries the import markings, no
   * amenities, "no" for on-route, and it is found by a query for its own segment.
   */
  lemma UploadReadBack(id: string, c: FetchChargers.NewCharger)
    ensures var r := ConvertRecord(StoredUpload(id, FetchChargers.UploadFieldsOf(c)));
            && (r.Some? <==> c.name != "" && c.latitude != 0.0 && c.longitude != 0.0)
            && (r.Some? ==>
                  && r.value.name == c.name && r.value.routeSegment == c.routeSegment
                  && r.value.highwayProximity == "near_exit" && r.value.status == Some("untested")
                  && r.value.notes == Some(FetchChargers.ImportNote) && r.value.ocmId == Some(c.ocmId)
                  && r.value.amenities == "" && r.value.onRoute == "no"
                  && r.value.numChargers == (if c.numChargers == 0 then 1 else c.numChargers)
                  && BySegment([r.value], c.routeSegment) == [r.value])
  {
    var r := ConvertRecord(StoredUpload(id, FetchChargers.UploadFieldsOf(c)));
    if r.Some? {
      assert r.value in BySegment([r.value], c.routeSegment);
    }
  }
}
