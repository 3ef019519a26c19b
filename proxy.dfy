/** The `POST /cvr` handler around the resolver: the business-number check,
    the exact-term query, and the response that merges `primaryPnummer` into
    the company record. The registry call itself is a parameter. */
module Proxy {
  import opened Wrappers
  import opened Registry
  import opened Resolver

  /** The registry field the exact-term query matches on. */
  const CvrField: string := "Vrvirksomhed.cvrNummer"

  /** The search body `{ query: { bool: { must: [ { term: { field: value } } ] } } }`. */
  datatype Query = TermQuery(field: string, value: string)

  /** What the registry call yields: the company records of its hits, or the
      message of the exception it raised. */
  datatype Upstream = Hits(hits: seq<Company>) | Failed(message: string)

  datatype Body = Error(error: string, detail: Option<string>) | Record(company: Company)

  datatype Response = Response(status: nat, body: Body)

  /** JavaScript's `length` of a string: the number of UTF-16 code units,
      two for a character outside the Basic Multilingual Plane. */
  function Utf16Length(s: string): (n: nat)
    ensures |s| <= n <= 2 * |s|
  {
    if |s| == 0 then 0
    else (if s[0] as int >= 0x10000 then 2 else 1) + Utf16Length(s[1..])
  }

  /** `vat` is present (truthy) and its `length` is exactly 8. */
  predicate ValidVat(vat: Option<string>) {
    vat.Some? && Utf16Length(vat.value) == 8
  }

  /** `{ ...vrk, primaryPnummer }`: every field of the record, with
      `primaryPnummer` added or overriding a field of that name. */
  function Merge(vrk: Company, primaryPnummer: Value): (r: Company)
    ensures Keys(r) == Keys(vrk) + {PrimaryKey}
    ensures PrimaryKey in r.others && r.others[PrimaryKey] == primaryPnummer
    ensures r.virksomhedMetadata == vrk.virksomhedMetadata
    ensures r.beliggenhedsadresse == vrk.beliggenhedsadresse
    ensures r.penheder == vrk.penheder
    ensures forall k :: k in vrk.others && k != PrimaryKey ==> k in r.others && r.others[k] == vrk.others[k]
    ensures WellFormed(vrk) ==> WellFormed(r)
  {
    vrk.(others := vrk.others[PrimaryKey := primaryPnummer])
  }

  /** The handler: 400 for a bad `vat`, before any registry call; otherwise
      one exact-term query, then 500 on a failed call, 404 on no hits, and
      200 with the first hit's record merged with its `primaryPnummer`. */
  function Respond(vat: Option<string>, fetch: Query -> Upstream): (r: Response)
    ensures r.status == 400 <==> !ValidVat(vat)
    ensures r.status == 500 <==> ValidVat(vat) && fetch(TermQuery(CvrField, vat.value)).Failed?
    ensures r.status == 404 <==> ValidVat(vat) && fetch(TermQuery(CvrField, vat.value)) == Hits([])
    ensures r.status == 200 <==> ValidVat(vat) && fetch(TermQuery(CvrField, vat.value)).Hits?
                                 && |fetch(TermQuery(CvrField, vat.value)).hits| > 0
    ensures r.status != 200 <==> r.body.Error?
    ensures !ValidVat(vat) ==> r == Response(400, Error("Ugyldigt CVR nummer", None))
    ensures ValidVat(vat) && fetch(TermQuery(CvrField, vat.value)).Failed? ==>
              r == Response(500, Error("Proxy fejl", Some(fetch(TermQuery(CvrField, vat.value)).message)))
    ensures ValidVat(vat) && fetch(TermQuery(CvrField, vat.value)) == Hits([]) ==>
              r == Response(404, Error("CVR findes ikke", None))
  {
    if !ValidVat(vat) then Response(400, Error("Ugyldigt CVR nummer", None))
    else
      match fetch(TermQuery(CvrField, vat.value))
      case Failed(message) => Response(500, Error("Proxy fejl", Some(message)))
      case Hits(hits) =>
        if |hits| == 0 then Response(404, Error("CVR findes ikke", None))
        else
          var vrk := hits[0];
          Response(200, Record(Merge(vrk, PrimaryPnummer(vrk))))
  }

  /** Length is counted in UTF-16 code units: seven digits and an emoji have
      length 9 and are rejected; six digits and an emoji have length 8 and
      are accepted. */
  lemma VatLengthInCodeUnits()
    ensures !ValidVat(Some("1234567\U{1F600}"))
    ensures ValidVat(Some("123456\U{1F600}"))
  {
  }

  /** A rejected request does not depend on the registry at all: no call is
      made. */
  lemma InvalidVatMakesNoCall(vat: Option<string>, fetch: Query -> Upstream, other: Query -> Upstream)
    requires !ValidVat(vat)
    ensures Respond(vat, fetch) == Respond(vat, other)
  {
  }

  /** An accepted request depends on the registry only through its answer to
      the exact-term query carrying `vat` unchanged. */
  lemma ValidVatQueriedUnchanged(vat: Option<string>, fetch: Query -> Upstream, other: Query -> Upstream)
    requires ValidVat(vat)
    requires fetch(TermQuery(CvrField, vat.value)) == other(TermQuery(CvrField, vat.value))
    ensures Respond(vat, fetch) == Respond(vat, other)
  {
  }

  /** Zero hits give 404. */
  lemma NoHitsNotFound(vat: Option<string>, fetch: Query -> Upstream)
    requires ValidVat(vat) && fetch(TermQuery(CvrField, vat.value)) == Hits([])
    ensures Respond(vat, fetch) == Response(404, Error("CVR findes ikke", None))
  {
  }

  /** A 200 response carries the first hit's record with every field kept and
      `primaryPnummer` set to the resolver's value, and nothing else. */
  lemma SuccessKeepsRecord(vat: Option<string>, fetch: Query -> Upstream)
    requires Respond(vat, fetch).status == 200
    ensures ValidVat(vat)
    ensures var up := fetch(TermQuery(CvrField, vat.value));
      up.Hits? && |up.hits| > 0 &&
      var vrk := up.hits[0];
      var r := Respond(vat, fetch).body;
      && r.Record?
      && Keys(r.company) == Keys(vrk) + {PrimaryKey}
      && r.company.others[PrimaryKey] == PrimaryPnummer(vrk)
      && r.company.virksomhedMetadata == vrk.virksomhedMetadata
      && r.company.beliggenhedsadresse == vrk.beliggenhedsadresse
      && r.company.penheder == vrk.penheder
      && forall k :: k in vrk.others && k != PrimaryKey ==> k in r.company.others && r.company.others[k] == vrk.others[k]
  {
  }

  /** A company without a `penheder` array still gets a 200 response, with
      `primaryPnummer` null. `WellFormed` is required only so that `None`
      means the record has no `penheder` array, not for the proof. */
  lemma NoUnitsScenario(vat: Option<string>, fetch: Query -> Upstream, vrk: Company)
    requires ValidVat(vat) && WellFormed(vrk) && vrk.penheder.None?
    requires fetch(TermQuery(CvrField, vat.value)) == Hits([vrk])
    ensures Respond(vat, fetch).status == 200
    ensures Respond(vat, fetch).body.company.others[PrimaryKey] == Null
  {
  }
}
