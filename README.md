# cvr-proxy resolver model

This project models the `POST /cvr` relay of cvr-proxy. The relay looks up a
company in the Danish business registry (CVR) by its 8-character business
number (`vat`). It then adds one derived field, `primaryPnummer`, to the
company record it returns. `primaryPnummer` is the `pNummer` of the first
production unit (`penheder` entry) whose validity period overlaps the period
of the company's current address.

The model has five modules:

- `Wrappers` defines `Option`. It stands for a property that may be missing.
- `Periods` defines dates, periods and the inclusive overlap test
  `overlaps(aFrom, aTo, bFrom, bTo)`.
- `Registry` defines the company record. The record is a typed view of the
  three fields the resolver reads: `virksomhedMetadata`,
  `beliggenhedsadresse` and `penheder`. Every other field is an opaque JSON
  value that is passed through. A structured field that lacks the shape the
  resolver uses keeps its raw value among the opaque fields.
  A record is well-formed (`WellFormed`) when no field is held twice, at
  the top level, in the metadata, or in an address or unit entry. A raw
  value kept under a structured field's name must also lack that field's
  shape. For `virksomhedMetadata` and each `periode` the shape is an object.
  For the two lists it is an array. A raw `nyesteBeliggenhedsadresse` left
  inside the metadata must be falsy.
- `Resolver` picks the current address and then the primary unit. The unit
  scan is a method with a loop, `MatchUnit`. It is proved equal to the
  recursive specification `FindFirst`, which models `Array.prototype.find`.
  `ResolvePrimary` follows the source's mutable `primaryPnummer` local and is
  proved equal to the function `PrimaryPnummer`.
- `Proxy` models the request handler. It checks `vat`, builds the exact-term
  query and answers with 400, 404, 500 or 200. The registry call is a
  function parameter, `fetch`.

Dates are already-parsed calendar days. Each is encoded as the integer
yyyymmdd, so numeric order is calendar order. A missing end date is replaced
by the sentinel 9999-12-31 (`FarFuture`).

One might expect a period with a start to overlap itself. The code's test
holds only when that start is not after the effective end (`SelfOverlap`).
The test compares each start with the other period's end only. So an
inverted period, which covers no day, can still be reported as overlapping
another period (`InvertedPeriodOverlaps`). The common-day reading of overlap
holds for every pair of periods that are not inverted
(`OverlapsIffCommonDay`).

## Model

| member | source | states |
|---|---|---|
| Periods.Overlaps | server.js:13-23 | a missing start on either side means no overlap, including a period compared with itself |
| Periods.OverlapsIffCommonDay | server.js:13-22 | for periods that are not inverted (start after effective end), overlap holds exactly when some day lies in both (ends inclusive, a missing end read as 9999-12-31, a missing start covering no day) |
| Periods.CommonDayOverlaps | server.js:16-22 | any two periods that share a day overlap |
| Periods.InvertedPeriodOverlaps | server.js:16-22 | an inverted period that covers no day is still reported as overlapping a period around it |
| Periods.OverlapsSymmetric | server.js:13-22 | the test gives the same answer with the two periods swapped |
| Periods.SelfOverlap | server.js:13-22 | a period overlaps itself exactly when it has a start that is not after its effective end |
| Periods.TouchingPeriodsOverlap | server.js:16-22 | a period ending on the day another starts overlaps it |
| Periods.AdjacentPeriodsDoNotOverlap | server.js:16-22 | a period ending before another starts, even on the day before, does not overlap it |
| Periods.OpenEndedOverlap | server.js:17-22 | an open-ended period overlaps another exactly when the other starts no later than 9999-12-31 and does not end before the open period starts |
| Resolver.FindFirst | server.js:77 | `find` yields the first element meeting the predicate, with no earlier one meeting it, or nothing when none does |
| Resolver.CurrentAddress | server.js:74-79 | the resolved address is the explicit newest address or an entry of the address history |
| Resolver.ExplicitAddressWins | server.js:74-75 | a present `nyesteBeliggenhedsadresse` is the current address, whatever the history holds |
| Resolver.FirstOpenEndedEntryChosen | server.js:76-77 | otherwise the first history entry without `gyldigTil` is chosen |
| Resolver.LastEntryChosen | server.js:77-78 | otherwise the last history entry is chosen |
| Resolver.NoAddressIff | server.js:74-79 | for a well-formed record, no address is resolved exactly when there is no explicit address and the history is missing, not an array, or empty |
| Resolver.PrimaryPnummer | server.js:84-102 | `primaryPnummer` is null or the `pNummer` of one of the company's units (which one: the lemmas below) |
| Resolver.MatchUnit | server.js:90-97 | the scan returns the first unit whose period overlaps the address period (no earlier unit overlaps), or none when no unit overlaps, and agrees with `FindFirst` |
| Resolver.ResolvePrimary | server.js:84-102 | the mutable `primaryPnummer` ends equal to the specification `PrimaryPnummer` |
| Resolver.PrimaryNullCases | server.js:84-87 | for a well-formed record, `primaryPnummer` is null when no address was resolved, when `penheder` is not an array, or when the address has no `gyldigFra` |
| Resolver.PrimaryIsFirstOverlap | server.js:90-101 | when a unit is the first overlapping one, its `pNummer` is chosen |
| Resolver.PrimaryComesFromFirstOverlap | server.js:90-101 | a non-null `primaryPnummer` is the `pNummer` of the first overlapping unit in sequence order |
| Resolver.PrimaryNullWithoutOverlap | server.js:90-101 | when no unit overlaps the address period, `primaryPnummer` is null |
| Resolver.SecondUnitScenario | server.js:84-101 | address 2020-01-01..open with units 2019-01-01..2019-12-31 and 2020-06-01..open picks the second unit |
| Resolver.ExplicitAddressScenario | server.js:74-101 | the explicit address is preferred over an open-ended history entry that would match another unit |
| Proxy.Merge | server.js:107-110 | the response record keeps every field unchanged and adds `primaryPnummer`, overriding a field of that name; its field names are the record's plus `primaryPnummer` |
| Proxy.Utf16Length | server.js:31 | JavaScript's `length` lies between the number of characters and twice that number |
| Proxy.VatLengthInCodeUnits | server.js:31-32 | `vat` length is counted in UTF-16 code units: seven digits and an emoji are rejected, six digits and an emoji accepted |
| Proxy.Respond | server.js:28-118 | 400 with "Ugyldigt CVR nummer" exactly when `vat` is missing or its length is not 8; otherwise 500 with "Proxy fejl" and the failure message exactly when the registry call fails, 404 with "CVR findes ikke" exactly when it has no hits, and 200 exactly when it has hits |
| Proxy.InvalidVatMakesNoCall | server.js:31-35 | a rejected request does not depend on the registry call |
| Proxy.ValidVatQueriedUnchanged | server.js:40-52 | an accepted request depends on the registry only through the exact-term query carrying `vat` unchanged |
| Proxy.NoHitsNotFound | server.js:66-67 | zero hits give 404 with "CVR findes ikke" |
| Proxy.SuccessKeepsRecord | server.js:69-110 | a 200 response carries the first hit's record, every field kept, plus the resolved `primaryPnummer` |
| Proxy.NoUnitsScenario | server.js:84-110 | a well-formed company without a `penheder` array still gets 200, with `primaryPnummer` null |

## Left out

- Express routing, CORS, JSON body parsing, the `GET /` liveness route and `app.listen` (server.js:1-8, 121-127): framework plumbing with no logic of its own.
- The `fetch` call, `apiRes.json()` and the hits extraction (server.js:54-69) are network I/O. They are replaced by the `fetch` parameter, which yields either the hits' company records or a failure message.
- The Basic-Auth header (server.js:34-35): base64 of `user:pass` (section 2 of RFC 7617, section 4 of RFC 4648) is computed by Node's `Buffer` and is not modelled. Credentials are not part of the model.
- Exceptions raised while resolving are not modelled. One example is a `null` entry in `beliggenhedsadresse` or `penheder`, whose `.periode` access throws and becomes a 500. Only a failed registry call maps to 500 here.
- JavaScript `Date` parsing and its invalid-date (NaN) comparisons: dates are already-parsed integers. An empty date string, falsy in JavaScript, is modelled as a missing date.
- A unit without `pNummer`: the model makes `pNummer` a required field of `Registry.Unit`. A matched unit without `pNummer` would set `primaryPnummer` to undefined, which JSON serialisation drops; that case is not modelled.
- A non-string `vat`: `vat` is modelled as an optional string. A non-string `vat` with a `length` of 8, such as an 8-element array, is not modelled.
- A non-object explicit address: a truthy `nyesteBeliggenhedsadresse` that is not an object is not modelled separately. The source treats it as an address without a period.
- Key order in the response object is not modelled; records are maps.
- A `vat` holding a lone UTF-16 surrogate (the JSON escape `"\ud800"`) cannot be represented: JavaScript counts it as one code unit, but a Dafny `string` holds only Unicode scalar values.
- Other fields of a `periode` object: a `Period` carries only `gyldigFra` and `gyldigTil`, so any other field of a `periode` object is not carried into the response.
