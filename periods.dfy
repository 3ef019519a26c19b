/** Validity periods of registry records and the inclusive overlap test that
    matches a production unit to the company's current address. */
module Periods {
  import opened Wrappers

  /** A calendar day, already parsed from the registry's date string. Days are
      encoded as the integer yyyymmdd, whose numeric order is calendar order.
      A date string that JavaScript treats as falsy (the empty string) is
      modelled as a missing date, `None`. */
  type Date = int

  /** The day 9999-12-31 that stands in for a missing end date. */
  const FarFuture: Date := 99991231

  /** A `periode` object: `gyldigFra` is its first valid day and `gyldigTil`
      its last; a missing `gyldigTil` means the period is still open. */
  datatype Period = Period(gyldigFra: Option<Date>, gyldigTil: Option<Date>)

  /** `periode?.gyldigFra`: the start of a possibly missing period. */
  function From(periode: Option<Period>): Option<Date> {
    if periode.Some? then periode.value.gyldigFra else None
  }

  /** `periode?.gyldigTil ?? null`: the end of a possibly missing period. */
  function To(periode: Option<Period>): Option<Date> {
    if periode.Some? then periode.value.gyldigTil else None
  }

  /** The last day a period counts as valid: its end, or FarFuture when open. */
  function EffectiveEnd(to: Option<Date>): Date {
    if to.Some? then to.value else FarFuture
  }

  /** Reference meaning of a period: the days it covers, both ends included.
      A period without a start covers no day. */
  ghost predicate Covers(from: Option<Date>, to: Option<Date>, d: Date) {
    from.Some? && from.value <= d <= EffectiveEnd(to)
  }

  /** `overlaps(aFrom, aTo, bFrom, bTo)`: both periods must have a start, and
      each must start no later than the other's effective end. */
  function Overlaps(aFrom: Option<Date>, aTo: Option<Date>, bFrom: Option<Date>, bTo: Option<Date>): (r: bool)
    ensures aFrom.None? || bFrom.None? ==> !r
  {
    if aFrom.None? || bFrom.None? then false
    else
      var startA := aFrom.value;
      var endA := EffectiveEnd(aTo);
      var startB := bFrom.value;
      var endB := EffectiveEnd(bTo);
      startA <= endB && startB <= endA
  }

  /** A period whose start is not after its effective end. */
  predicate Proper(from: Option<Date>, to: Option<Date>) {
    from.Some? && from.value <= EffectiveEnd(to)
  }

  /** A period whose start is after its effective end: it covers no day. */
  predicate Inverted(from: Option<Date>, to: Option<Date>) {
    from.Some? && from.value > EffectiveEnd(to)
  }

  /** Two periods, neither of them inverted, overlap exactly when some day
      lies in both of them; a period without a start covers no day and
      overlaps nothing. */
  lemma OverlapsIffCommonDay(aFrom: Option<Date>, aTo: Option<Date>, bFrom: Option<Date>, bTo: Option<Date>)
    requires !Inverted(aFrom, aTo) && !Inverted(bFrom, bTo)
    ensures Overlaps(aFrom, aTo, bFrom, bTo) <==> exists d :: Covers(aFrom, aTo, d) && Covers(bFrom, bTo, d)
  {
    if Overlaps(aFrom, aTo, bFrom, bTo) {
      var d := if aFrom.value <= bFrom.value then bFrom.value else aFrom.value;
      assert Covers(aFrom, aTo, d) && Covers(bFrom, bTo, d);
    }
  }

  /** Whatever the periods, a common day always makes them overlap. */
  lemma CommonDayOverlaps(aFrom: Option<Date>, aTo: Option<Date>, bFrom: Option<Date>, bTo: Option<Date>, d: Date)
    requires Covers(aFrom, aTo, d) && Covers(bFrom, bTo, d)
    ensures Overlaps(aFrom, aTo, bFrom, bTo)
  {
  }

  /** The test compares only each start with the other period's end, so an
      inverted period (start after end), which covers no day, can still be
      reported as overlapping: 2021-01-01..2020-01-01 against
      2019-01-01..2022-01-01. */
  lemma InvertedPeriodOverlaps()
    ensures Overlaps(Some(20210101), Some(20200101), Some(20190101), Some(20220101))
    ensures !exists d :: Covers(Some(20210101), Some(20200101), d)
  {
  }

  /** The overlap test does not depend on the order of its two periods. */
  lemma OverlapsSymmetric(aFrom: Option<Date>, aTo: Option<Date>, bFrom: Option<Date>, bTo: Option<Date>)
    ensures Overlaps(aFrom, aTo, bFrom, bTo) == Overlaps(bFrom, bTo, aFrom, aTo)
  {
  }

  /** A period overlaps itself exactly when it has a start that is not after
      its effective end; without a start it does not even overlap itself. */
  lemma SelfOverlap(from: Option<Date>, to: Option<Date>)
    ensures Overlaps(from, to, from, to) <==> Proper(from, to)
  {
  }

  /** Inclusive ends: a period that ends on the day another one starts
      overlaps it. */
  lemma TouchingPeriodsOverlap(aFrom: Date, d: Date, bTo: Option<Date>)
    requires aFrom <= d <= EffectiveEnd(bTo)
    ensures Overlaps(Some(aFrom), Some(d), Some(d), bTo)
  {
  }

  /** A period that ends before another one starts, even on the day before,
      does not overlap it. */
  lemma AdjacentPeriodsDoNotOverlap(aFrom: Option<Date>, e: Date, s: Date, bTo: Option<Date>)
    requires e < s
    ensures !Overlaps(aFrom, Some(e), Some(s), bTo)
  {
  }

  /** An open-ended period starting at `s` overlaps a period starting at `u`
      exactly when `u` is not after 9999-12-31 and the other period's
      effective end is not before `s`. */
  lemma OpenEndedOverlap(s: Date, u: Date, bTo: Option<Date>)
    ensures Overlaps(Some(s), None, Some(u), bTo) <==> u <= FarFuture && s <= EffectiveEnd(bTo)
  {
  }
}
