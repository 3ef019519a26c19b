/** The sub-unit resolver: picks the company's current address, then the
    first production unit whose period overlaps that address's period. */
module Resolver {
  import opened Wrappers
  import opened Periods
  import opened Registry

  /** `Array.prototype.find`, returning the index of the element it finds:
      the first element satisfying `p`, or `None` when no element does. */
  function FindFirst<T>(s: seq<T>, p: T -> bool): (r: Option<nat>)
    ensures r.Some? ==> r.value < |s| && p(s[r.value])
    ensures r.Some? ==> forall j :: 0 <= j < r.value ==> !p(s[j])
    ensures r.None? ==> forall j :: 0 <= j < |s| ==> !p(s[j])
  {
    if |s| == 0 then None
    else if p(s[0]) then Some(0)
    else
      match FindFirst(s[1..], p)
      case None => None
      case Some(i) => Some(i + 1)
  }

  /** `!a.periode?.gyldigTil`: the address entry has no closing date. */
  predicate IsOpenEnded(a: Address) {
    To(a.periode).None?
  }

  /** `vrk.virksomhedMetadata?.nyesteBeliggenhedsadresse`, when truthy. */
  function ExplicitAddress(c: Company): Option<Address> {
    if c.virksomhedMetadata.Some? then c.virksomhedMetadata.value.nyesteBeliggenhedsadresse else None
  }

  /** The current address: the explicit newest address; otherwise, when the
      history is an array, its first open-ended entry or else its last entry;
      otherwise none. */
  function CurrentAddress(c: Company): (r: Option<Address>)
    ensures r.Some? ==> r == ExplicitAddress(c) || (c.beliggenhedsadresse.Some? && r.value in c.beliggenhedsadresse.value)
  {
    if ExplicitAddress(c).Some? then ExplicitAddress(c)
    else if c.beliggenhedsadresse.Some? then
      var history := c.beliggenhedsadresse.value;
      match FindFirst(history, IsOpenEnded)
      case Some(i) => Some(history[i])
      case None => if |history| == 0 then None else Some(history[|history| - 1])
    else None
  }

  /** The `overlaps` call inside `penheder.find`: the address period against a unit's. */
  predicate UnitOverlaps(addr: Address, u: Unit) {
    Overlaps(From(addr.periode), To(addr.periode), From(u.periode), To(u.periode))
  }

  /** Unit `i` is the first unit whose period overlaps the address period. */
  predicate IsFirstOverlap(units: seq<Unit>, addr: Address, i: int) {
    && 0 <= i < |units|
    && UnitOverlaps(addr, units[i])
    && forall j :: 0 <= j < i ==> !UnitOverlaps(addr, units[j])
  }

  /** The value of `primaryPnummer`: the `pNummer` of the first unit that
      overlaps the current address, or null. */
  function PrimaryPnummer(c: Company): (r: Value)
    ensures r == Null || (c.penheder.Some? && exists i :: 0 <= i < |c.penheder.value| && c.penheder.value[i].pNummer == r)
  {
    var addr := CurrentAddress(c);
    if addr.Some? && c.penheder.Some? then
      match FindFirst(c.penheder.value, u => UnitOverlaps(addr.value, u))
      case Some(i) => c.penheder.value[i].pNummer
      case None => Null
    else Null
  }

  /** The linear scan `penheder.find(...)` over the units. */
  method MatchUnit(units: seq<Unit>, addr: Address) returns (found: Option<nat>)
    ensures found.Some? ==> IsFirstOverlap(units, addr, found.value)
    ensures found.None? ==> forall j :: 0 <= j < |units| ==> !UnitOverlaps(addr, units[j])
    ensures found == FindFirst(units, u => UnitOverlaps(addr, u))
  {
    var i := 0;
    while i < |units|
      invariant 0 <= i <= |units|
      invariant forall j :: 0 <= j < i ==> !UnitOverlaps(addr, units[j])
    {
      if UnitOverlaps(addr, units[i]) {
        return Some(i);
      }
      i := i + 1;
    }
    return None;
  }

  /** The resolution step of the handler: `primaryPnummer` starts as null and is set to the matched
      unit's `pNummer` when an address was resolved, `penheder` is an array
      and some unit overlaps. */
  method ResolvePrimary(c: Company) returns (primaryPnummer: Value)
    ensures primaryPnummer == PrimaryPnummer(c)
  {
    primaryPnummer := Null;
    var addr := CurrentAddress(c);
    if addr.Some? && c.penheder.Some? {
      var found := MatchUnit(c.penheder.value, addr.value);
      if found.Some? {
        primaryPnummer := c.penheder.value[found.value].pNummer;
      }
    }
  }

  // Address selection

  /** A present explicit address wins, whatever the history holds. */
  lemma ExplicitAddressWins(c: Company)
    requires ExplicitAddress(c).Some?
    ensures CurrentAddress(c) == ExplicitAddress(c)
  {
  }

  /** Without an explicit address, the first open-ended history entry is
      chosen. */
  lemma FirstOpenEndedEntryChosen(c: Company, i: nat)
    requires ExplicitAddress(c).None? && c.beliggenhedsadresse.Some?
    requires i < |c.beliggenhedsadresse.value| && IsOpenEnded(c.beliggenhedsadresse.value[i])
    requires forall j :: 0 <= j < i ==> !IsOpenEnded(c.beliggenhedsadresse.value[j])
    ensures CurrentAddress(c) == Some(c.beliggenhedsadresse.value[i])
  {
  }

  /** Without an explicit address or an open-ended entry, the last history
      entry is chosen. */
  lemma LastEntryChosen(c: Company)
    requires ExplicitAddress(c).None? && c.beliggenhedsadresse.Some? && |c.beliggenhedsadresse.value| > 0
    requires forall j :: 0 <= j < |c.beliggenhedsadresse.value| ==> !IsOpenEnded(c.beliggenhedsadresse.value[j])
    ensures CurrentAddress(c) == Some(c.beliggenhedsadresse.value[|c.beliggenhedsadresse.value| - 1])
  {
  }

  /** No address is resolved exactly when there is no explicit address and
      the history is missing, not an array, or empty. The lemma needs no
      proof from `WellFormed`; it is required so that `None` in the record
      means "missing or not an array" and nothing else. */
  lemma NoAddressIff(c: Company)
    requires WellFormed(c)
    ensures CurrentAddress(c).None? <==>
      ExplicitAddress(c).None? && (c.beliggenhedsadresse.None? || c.beliggenhedsadresse.value == [])
  {
  }

  // Primary unit

  /** `primaryPnummer` is null without an address, without a `penheder`
      array, or when the address has no `gyldigFra`. As in `NoAddressIff`,
      `WellFormed` is required only so that `None` means missing in the
      record, not for the proof. */
  lemma PrimaryNullCases(c: Company)
    requires WellFormed(c)
    requires CurrentAddress(c).None? || c.penheder.None? || From(CurrentAddress(c).value.periode).None?
    ensures PrimaryPnummer(c) == Null
  {
  }

  /** When unit `i` is the first overlapping unit, its `pNummer` is chosen. */
  lemma PrimaryIsFirstOverlap(c: Company, i: nat)
    requires CurrentAddress(c).Some? && c.penheder.Some?
    requires IsFirstOverlap(c.penheder.value, CurrentAddress(c).value, i)
    ensures PrimaryPnummer(c) == c.penheder.value[i].pNummer
  {
  }

  /** Conversely, a non-null `primaryPnummer` is the `pNummer` of the first
      unit, in sequence order, whose period overlaps the address period. */
  lemma PrimaryComesFromFirstOverlap(c: Company)
    requires PrimaryPnummer(c) != Null
    ensures CurrentAddress(c).Some? && c.penheder.Some?
    ensures exists i :: IsFirstOverlap(c.penheder.value, CurrentAddress(c).value, i)
                        && c.penheder.value[i].pNummer == PrimaryPnummer(c)
  {
  }

  /** When no unit overlaps the address period, `primaryPnummer` is null. */
  lemma PrimaryNullWithoutOverlap(c: Company)
    requires CurrentAddress(c).Some? && c.penheder.Some?
    requires forall j :: 0 <= j < |c.penheder.value| ==> !UnitOverlaps(CurrentAddress(c).value, c.penheder.value[j])
    ensures PrimaryPnummer(c) == Null
  {
  }

  // Worked scenarios

  /** Address period 2020-01-01..open; units 2019-01-01..2019-12-31 and
      2020-06-01..open: the second unit is chosen. */
  lemma SecondUnitScenario()
    ensures
      var addr := Address(Some(Period(Some(20200101), None)), map[]);
      var u1 := Unit(Num(1001), Some(Period(Some(20190101), Some(20191231))), map[]);
      var u2 := Unit(Num(1002), Some(Period(Some(20200601), None)), map[]);
      var c := Company(Some(Metadata(Some(addr), map[])), None, Some([u1, u2]), map[]);
      PrimaryPnummer(c) == Num(1002)
  {
  }

  /** The explicit address is used even though the history has an
      open-ended entry that would match a different unit. */
  lemma ExplicitAddressScenario()
    ensures
      var explicit := Address(Some(Period(Some(20200101), None)), map[]);
      var old1 := Address(Some(Period(Some(20100101), None)), map[]);
      var u1 := Unit(Num(1001), Some(Period(Some(20100101), Some(20151231))), map[]);
      var u2 := Unit(Num(1002), Some(Period(Some(20200101), None)), map[]);
      var c := Company(Some(Metadata(Some(explicit), map[])), Some([old1]), Some([u1, u2]), map[]);
      CurrentAddress(c) == Some(explicit) && PrimaryPnummer(c) == Num(1002)
  {
  }
}
