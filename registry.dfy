/** The company record (`Vrvirksomhed`) that the registry returns, seen through
    the few fields the resolver reads. Every other field is an opaque JSON
    value that is passed through untouched. */
module Registry {
  import opened Wrappers
  import opened Periods

  /** A JSON value as it arrives from the registry. */
  datatype Value =
    | Null
    | Bool(b: bool)
    | Num(n: int)
    | Str(s: string)
    | Arr(items: seq<Value>)
    | Obj(fields: map<string, Value>)

  /** One entry of the address history, or the explicit newest address. */
  datatype Address = Address(periode: Option<Period>, others: map<string, Value>)

  /** One production unit (`penheder` entry) with its identifier `pNummer`. */
  datatype Unit = Unit(pNummer: Value, periode: Option<Period>, others: map<string, Value>)

  /** `virksomhedMetadata`: `nyesteBeliggenhedsadresse` is `Some` when that
      field holds a truthy value; a falsy one stays in `others`. */
  datatype Metadata = Metadata(nyesteBeliggenhedsadresse: Option<Address>, others: map<string, Value>)

  /** A company record. A structured field is `Some` only when it has the
      shape the resolver uses (an object for `virksomhedMetadata`, an array
      for `beliggenhedsadresse` and `penheder`); otherwise its raw value,
      if any, is one of `others`. */
  datatype Company = Company(
    virksomhedMetadata: Option<Metadata>,
    beliggenhedsadresse: Option<seq<Address>>,
    penheder: Option<seq<Unit>>,
    others: map<string, Value>)

  const MetadataKey: string := "virksomhedMetadata"
  const AddressesKey: string := "beliggenhedsadresse"
  const UnitsKey: string := "penheder"
  const PrimaryKey: string := "primaryPnummer"
  const NewestKey: string := "nyesteBeliggenhedsadresse"
  const PeriodeKey: string := "periode"
  const PNummerKey: string := "pNummer"

  /** JavaScript falsiness of a JSON value. */
  predicate Falsy(v: Value) {
    v == Null || v == Bool(false) || v == Num(0) || v == Str("")
  }

  /** An address or unit entry holds its `periode` once: typed when it is an
      object, otherwise (if present at all) as a raw non-object value. */
  predicate PeriodeWellFormed(periode: Option<Period>, others: map<string, Value>) {
    && (periode.Some? ==> PeriodeKey !in others)
    && (PeriodeKey in others ==> !others[PeriodeKey].Obj?)
  }

  predicate AddressWellFormed(a: Address) {
    PeriodeWellFormed(a.periode, a.others)
  }

  /** A unit also holds its `pNummer` only in the typed field. */
  predicate UnitWellFormed(u: Unit) {
    PeriodeWellFormed(u.periode, u.others) && PNummerKey !in u.others
  }

  /** The newest address is held once: typed when truthy, otherwise (if
      present at all) as a raw falsy value. */
  predicate MetadataWellFormed(m: Metadata) {
    && (m.nyesteBeliggenhedsadresse.Some? ==>
          NewestKey !in m.others && AddressWellFormed(m.nyesteBeliggenhedsadresse.value))
    && (NewestKey in m.others ==> Falsy(m.others[NewestKey]))
  }

  /** No field is held twice, at any level the resolver reads, and a raw
      value held under a structured field's name lacks the shape the
      resolver would use. */
  predicate WellFormed(c: Company) {
    && (c.virksomhedMetadata.Some? ==> MetadataKey !in c.others && MetadataWellFormed(c.virksomhedMetadata.value))
    && (c.beliggenhedsadresse.Some? ==> AddressesKey !in c.others)
    && (c.beliggenhedsadresse.Some? ==>
          forall i :: 0 <= i < |c.beliggenhedsadresse.value| ==> AddressWellFormed(c.beliggenhedsadresse.value[i]))
    && (c.penheder.Some? ==> UnitsKey !in c.others)
    && (c.penheder.Some? ==>
          forall i :: 0 <= i < |c.penheder.value| ==> UnitWellFormed(c.penheder.value[i]))
    && (MetadataKey in c.others ==> !c.others[MetadataKey].Obj?)
    && (AddressesKey in c.others ==> !c.others[AddressesKey].Arr?)
    && (UnitsKey in c.others ==> !c.others[UnitsKey].Arr?)
  }

  /** The names of all fields the record carries. */
  function Keys(c: Company): set<string> {
    c.others.Keys
      + (if c.virksomhedMetadata.Some? then {MetadataKey} else {})
      + (if c.beliggenhedsadresse.Some? then {AddressesKey} else {})
      + (if c.penheder.Some? then {UnitsKey} else {})
  }
}
