# echarger-app decision logic in Dafny

echarger-app helps an electric-car driver on the Rotterdam–Santa Pola corridor find a fast
charger within the range left in the battery. This project models the three places where
the application decides something, and proves what each promises.

- **The search ranking** (`filterChargersByRange` and the display lookups beside it):
  - every charger is annotated with its distance from the driver and the range left on
    arrival, both rounded to one decimal as `Math.round(x * 10) / 10` rounds;
  - the chargers reachable with a 10 km safety margin are kept;
  - they are sorted stably by rounded distance, nearest first, and the first `limit` are
    returned (three by default);
  - the same file splits the amenity string and looks up network colours, proximity badges
    and amenity icons.
- **The ingestion job** (`scripts/fetch-chargers.mjs`):
  - it picks the corridor segments to visit;
  - for each segment it keeps the points of interest that reach 150 kW and duplicate no known
    charger. A duplicate is a site within 0.005° in both axes, or a name that overlaps on its
    first 15 lower-cased characters;
  - it turns each kept point into a new charger record and remembers it as known for the
    following segments;
  - it cuts the new records into upload batches of ten.
- **The store client** (`src/lib/airtable/client.ts`):
  - it walks the pages of raw records;
  - it keeps each record with a name and two non-zero coordinates, and gives default values
    to missing fields;
  - a segment query keeps the records of one segment.

Module layout:

| file | module | contents |
|---|---|---|
| `wrappers.dfy` | `Wrappers` | `Option` |
| `seqs.dfy` | `Seqs` | `Filter` (`Array.prototype.filter`), `Take` (`slice(0, n)`), `Concat`, and lemmas about them |
| `strings.dfy` | `Strings` | ASCII `toLowerCase`, `includes`, `slice`, one-character `split`/`join`, `trim` |
| `sorting.dfy` | `Sorting` | a stable sort by a real key (insertion sort), with its stability lemma |
| `corridor_types.dfy` | `CorridorTypes` | `ChargerRecord` and `ChargerWithDistance` (src/types/corridor.ts) |
| `charger_filter.dfy` | `ChargerFilter` | src/lib/utils/charger-filter.ts |
| `fetch_chargers.dfy` | `FetchChargers` | scripts/fetch-chargers.mjs |
| `airtable_client.dfy` | `AirtableClient` | src/lib/airtable/client.ts |

The code changes state in a few places. Those are modelled as methods with loops, each proved
equal to a pure function whose properties are proved as lemmas:

- the `Set` walk of `getConnectorTypes`;
- the early-return walk of `isDuplicate`;
- the `results.filter` over segment results;
- the segment loop of `main`, which pushes onto `allNew` and `existing`;
- the `i += 10` batching of `addToAirtable`;
- the page and record loops of `fetchAllChargers`.

Numbers are exact reals, and counts and ids are integers. The distance function is a
parameter of the ranking.

Behaviour of the ranking and the client worth knowing:

- Admission and sorting use the rounded distance and the rounded range-after
  (src/lib/utils/charger-filter.ts:23-34).
- A range of exactly 10 km can still return a charger at distance 0
  (`ChargerFilter.MarginBoundaryAdmits`). Only a range below 10 km always returns nothing
  (`ChargerFilter.NothingBelowMargin`).
- The test `rangeAfterKm >= 0` never rejects a charger that the distance test admits
  (`ChargerFilter.DistanceTestImpliesMargin`).
- `filterChargersByRange` never reads `on_route`, and no caller filters on it, so the
  ranking has no on-route filter.
- The client sets an `on_route` field that the declared record type lacks. The model's
  `ChargerRecord` carries it as `onRoute`.

## Model

| member | source | states |
|---|---|---|
| ChargerFilter.Round1 | src/lib/utils/charger-filter.ts:23-24 | the result is a whole number of tenths, more than 0.05 below and at most 0.05 above the value, so halves go up |
| ChargerFilter.Round1Monotone | src/lib/utils/charger-filter.ts:23-24 | rounding never reverses the order of two values |
| ChargerFilter.Annotate | src/lib/utils/charger-filter.ts:12-26 | one entry per input charger, in input order, each the unchanged charger with its rounded distance and rounded range-after |
| ChargerFilter.Admitted | src/lib/utils/charger-filter.ts:29-31 | every kept entry passes the admission test on rounded values and is an input charger annotated for this search; every input charger whose annotation passes the test is kept |
| ChargerFilter.FilterChargersByRange | src/lib/utils/charger-filter.ts:4-38 | length is min(limit, number admitted); every result passes the margin and range-after tests; sorted by rounded distance; each result is an input charger with its own annotation; the results are a sub-multiset of the admitted ones |
| ChargerFilter.AdmittedAppend | src/lib/utils/charger-filter.ts:12-31 | admission goes charger by charger: two runs of chargers are admitted independently and in order |
| Sorting.SortBy | src/lib/utils/charger-filter.ts:34 | the sort's output is ordered by the key and is a permutation of its input |
| Sorting.SortKeepsTies | src/lib/utils/charger-filter.ts:34 | the sort is stable: for every key, the elements with that key appear in their input order |
| ChargerFilter.RankingIsPrefix | src/lib/utils/charger-filter.ts:29-37 | every admitted charger left out is at least as far away as every returned one |
| ChargerFilter.RankingIsStable | src/lib/utils/charger-filter.ts:34-37 | returned chargers at equal rounded distance are a prefix of the admitted ones at that distance, in input order |
| ChargerFilter.DistanceTestImpliesMargin | src/lib/utils/charger-filter.ts:19-31 | a charger that passes the distance test arrives with at least 10 km left, so the range-after test never rejects it |
| ChargerFilter.NothingBelowMargin | src/lib/utils/charger-filter.ts:29-31 | with a non-negative distance function, a range below 10 km returns nothing |
| ChargerFilter.MarginBoundaryAdmits | src/lib/utils/charger-filter.ts:29-31 | at a range of exactly 10 km, a charger at distance 0 is returned with distance 0 and 10 km left |
| ChargerFilter.SameSiteBothKept | src/lib/utils/charger-filter.ts:29-37 | two admitted chargers at the same position are both returned, in input order (no deduplication) |
| ChargerFilter.GetNetworkColor | src/lib/utils/charger-filter.ts:40-51 | a listed network gets its colour; the grey default is returned exactly for unlisted networks; never empty |
| ChargerFilter.GetProximityStyle | src/lib/utils/charger-filter.ts:53-60 | at_exit and near_exit get their styles; the town style is returned exactly for every other key |
| ChargerFilter.ParseAmenities | src/lib/utils/charger-filter.ts:62-65 | the empty string gives no amenities; every piece is non-empty, holds no comma and has no white space at either end |
| ChargerFilter.ParseAmenitiesAppend | src/lib/utils/charger-filter.ts:64 | two comma-separated parts parse independently and in order |
| ChargerFilter.ParseSingleAmenity | src/lib/utils/charger-filter.ts:64 | a string without commas is one amenity, its trimmed self, or none when that is empty |
| ChargerFilter.GetAmenityEmoji | src/lib/utils/charger-filter.ts:67-78 | the lower-cased amenity's icon when listed; the tick exactly when not |
| ChargerFilter.AmenityEmojiIgnoresCase | src/lib/utils/charger-filter.ts:77 | the icon of an amenity equals the icon of its lower-cased form |
| FetchChargers.SelectFrom | scripts/fetch-chargers.mjs:164-166 | without a filter (or with an empty one) every segment is visited; otherwise only segments with that id, and all of them |
| FetchChargers.MaxPower | scripts/fetch-chargers.mjs:75-77 | at least 0 and at least every connector's rating (missing counts as 0); equal to one of them or 0 |
| FetchChargers.GetConnectorTypes | scripts/fetch-chargers.mjs:79-86 | the loop's result equals the connector string built from the kinds in order of first appearance |
| FetchChargers.KindsSeenFacts | scripts/fetch-chargers.mjs:80-84 | the walk records CCS iff a code 32 or 33 occurs, CHAdeMO iff a code 2 occurs, at most two kinds, never twice |
| FetchChargers.ConnectorTypesFacts | scripts/fetch-chargers.mjs:79-86 | never empty; names CHAdeMO iff a code 2 occurs; names CCS iff a code 32/33 occurs or no recognised code does; only these names; none repeated |
| FetchChargers.IsDuplicate | scripts/fetch-chargers.mjs:88-104 | true iff some known charger is within 0.005 in both axes (missing coordinates count as 0) or has an overlapping 15-character name; false for no known chargers |
| FetchChargers.DuplicatesAnyMonotone | scripts/fetch-chargers.mjs:93-104 | more known chargers can turn "new" into "duplicate", never the reverse |
| FetchChargers.SameTitleIsDuplicate | scripts/fetch-chargers.mjs:98-101 | a known charger with the same non-empty title is a duplicate wherever it is |
| FetchChargers.KeptResults | scripts/fetch-chargers.mjs:176-179 | a result is kept iff it reaches 150 kW and duplicates nothing known at the segment's start |
| FetchChargers.FilterSegmentResults | scripts/fetch-chargers.mjs:176-179 | the filter over a segment's results, calling the duplicate walk, yields exactly the kept results in order |
| FetchChargers.KeepResult | scripts/fetch-chargers.mjs:177-178 | the callback answers the keep test |
| FetchChargers.MutualDuplicatesBothKept | scripts/fetch-chargers.mjs:176-179 | two kept results of one segment, the second a duplicate of the first, are both kept in order, because each is judged only against the chargers known before the segment |
| FetchChargers.NewChargerOf | scripts/fetch-chargers.mjs:184-195 | title, coordinates and id copied; network is the operator title when non-empty, "Unknown" when it is missing or empty; points are the count when non-zero, 1 when it is missing or 0; power is the maximum rating; connector string non-empty; country and segment id from the segment |
| FetchChargers.RememberedIsDuplicate | scripts/fetch-chargers.mjs:203-210 | once a kept result is pushed onto the known list it is a duplicate in every later segment |
| FetchChargers.ProposeRecords | scripts/fetch-chargers.mjs:183-201 | the inner loop proposes one record per kept result, in order |
| FetchChargers.CollectNewChargers | scripts/fetch-chargers.mjs:170-213 | the segment loop's new records and known list equal the fold of the segment step over the visited segments |
| FetchChargers.RunSegmentsGrowth | scripts/fetch-chargers.mjs:196-210 | the known list is the original followed by one entry per new record, in order, each with an empty id and the record's title and coordinates |
| FetchChargers.RunSegmentsRecords | scripts/fetch-chargers.mjs:170-213 | every new record of a run reaches 150 kW and carries the id and country of a visited segment |
| FetchChargers.Batches | scripts/fetch-chargers.mjs:109-126 | batches of 1 to 10 upload records, all of 10 but the last, as many as ceil(n/10), concatenating to the whole list in order |
| AirtableClient.ConvertRecord | src/lib/airtable/client.ts:57-79 | a record is kept iff its name is non-empty and both coordinates are non-zero; id, name and coordinates copied; the defaulted fields are never empty or zero |
| AirtableClient.PresentFieldsKept | src/lib/airtable/client.ts:61-77 | network, proximity and on-route strings are copied when non-empty, amenities, country, segment and connector strings when present, the point count when non-zero, power when present; proximity and on-route are not validated; ocm id, notes, reliability and status pass through |
| AirtableClient.MissingFieldsDefaulted | src/lib/airtable/client.ts:65-77 | in any usable record, each field that is missing, empty or zero gets its default (Unknown, 0, town, empty strings, 1 charger, on-route no) whatever the other fields hold; missing optional fields stay missing |
| AirtableClient.ConvertStoredRoundTrip | src/lib/airtable/client.ts:59-78 | reading back a stored, normalised, usable record gives the record itself |
| AirtableClient.ConvertAll | src/lib/airtable/client.ts:57-80 | no more records than raw records, all normalised, every usable raw record represented |
| AirtableClient.ConvertAllAppend | src/lib/airtable/client.ts:57-83 | conversion keeps page order and record order: converting two runs of records is converting each |
| AirtableClient.ConvertAllSources | src/lib/airtable/client.ts:57-80 | every converted record comes from a usable raw record |
| AirtableClient.FetchAllChargers | src/lib/airtable/client.ts:34-86 | the page loop with its record loop produces the conversion of all pages' records, in order |
| AirtableClient.BySegment | src/lib/airtable/client.ts:88-91 | exactly the records of the segment, each one an input record, no more copies than the input holds |
| AirtableClient.BySegmentAppend | src/lib/airtable/client.ts:90 | the segment query distributes over concatenation, so order is kept |
| AirtableClient.UploadReadBack | src/lib/airtable/client.ts:57-79 | a record uploaded by the ingestion job is read back iff its title and coordinates are non-empty and non-zero, and then carries near_exit, untested, the import note, no amenities, on-route no, and is found by its own segment |

## Left out

- All network I/O is left out. This covers:
  - `fetchExistingChargers` and `fetchOpenChargeMap` (a segment's results are the parameter `fetch`);
  - the POST requests of `addToAirtable` and their error logging;
  - the HTTP requests, error responses and `offset` paging of `fetchAllChargers` (its pages are a parameter).
- Process plumbing is left out: command-line parsing, `--dry-run`, environment variables, `process.exit`, console output and the 500 ms pause between segments.
- FetchChargers.CollectNewChargers: takes the selected segments and the known chargers as parameters. `SelectSegments` and the store fetch supply them in the program.
- The distance module is not part of this model. `calculateDistance` is an arbitrary function parameter. Only `ChargerFilter.NothingBelowMargin` and `ChargerFilter.MarginBoundaryAdmits` assume anything about it, and they say what.
- Numbers are exact reals. IEEE-754 rounding, NaN and infinities are not modelled, including the rounding error of `x * 10` before `Math.round`.
- ChargerFilter.FilterChargersByRange: `limit` is a natural number. JavaScript's `slice(0, negative)`, which drops elements from the end, is not modelled.
- Lookups in JavaScript object literals also find prototype keys such as `constructor`. The model's tables contain only the listed keys.
- The emoji of `getAmenityEmoji` are distinct opaque constants, not the exact code points.
- `toLowerCase` lower-cases ASCII letters only. String lengths and `slice` count characters, not UTF-16 code units.
- A point of interest without `AddressInfo` makes the script throw. The model's results always carry a title and coordinates.
- The user interface, the API route and local-storage caching are not part of this model.
