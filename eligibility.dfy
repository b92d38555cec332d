/**
 * The gate in front of every shredder (`shred_constraints`): data of an
 * event may only be shredded once the event is over by a grace period and
 * its shop is offline. Timestamps are whole days; `today` is the caller's
 * clock reading.
 */
module Eligibility {
  import opened Wrappers

  /** When an event, or one date of an event series, takes place. */
  datatype Period = Period(dateFrom: int, dateTo: Option<int>)

  datatype Event = Event(live: bool, hasSubevents: bool, period: Period, subevents: seq<Period>)

  /** Why shredding is refused. */
  datatype Block = NotOverLongEnough | ShopLive

  const GraceDays: int := 60

  /** The end of a period: its end date, or its start date when it has none. */
  function End(p: Period): int {
    p.dateTo.GetOr(p.dateFrom)
  }

  predicate OverLongEnough(p: Period, today: int) {
    End(p) <= today - GraceDays
  }

  /** Some date of the series ended within the grace period (or lies ahead). */
  function AnyRecent(ps: seq<Period>, today: int): (r: bool)
    ensures r <==> exists i :: 0 <= i < |ps| && !OverLongEnough(ps[i], today)
  {
    if |ps| == 0 then false
    else
      assert forall i :: 1 <= i < |ps| ==> ps[1..][i - 1] == ps[i];
      !OverLongEnough(ps[0], today) || AnyRecent(ps[1..], today)
  }

  /** `shred_constraints`: `None` when shredding is allowed, otherwise the reason it is not. */
  function ShredConstraints(e: Event, today: int): (r: Option<Block>)
    ensures r == Some(ShopLive) ==> e.live
  {
    var recent := if e.hasSubevents then AnyRecent(e.subevents, today) else !OverLongEnough(e.period, today);
    if recent then Some(NotOverLongEnough)
    else if e.live then Some(ShopLive)
    else None
  }

  /** Every date that counts for the event ended at least the grace period ago. */
  predicate AllOver(e: Event, today: int) {
    if e.hasSubevents then forall i :: 0 <= i < |e.subevents| ==> OverLongEnough(e.subevents[i], today)
    else OverLongEnough(e.period, today)
  }

  /**
   * Shredding is allowed exactly when the shop is offline and every date
   * that counts is over by the grace period; a single recent date of a
   * series blocks the whole event.
   */
  lemma ShredAllowedIff(e: Event, today: int)
    ensures ShredConstraints(e, today).None? <==> !e.live && AllOver(e, today)
  {
  }

  /** Once allowed, shredding stays allowed as time goes on. */
  lemma ShredAllowedLater(e: Event, today: int, later: int)
    requires today <= later
    requires ShredConstraints(e, today).None?
    ensures ShredConstraints(e, later).None?
  {
    ShredAllowedIff(e, today);
    ShredAllowedIff(e, later);
  }

  /** Adding a date to a series never turns a refusal into a permission. */
  lemma AddingDateNeverUnblocks(e: Event, p: Period, today: int)
    requires e.hasSubevents
    requires ShredConstraints(e.(subevents := e.subevents + [p]), today).None?
    ensures ShredConstraints(e, today).None?
  {
    var e' := e.(subevents := e.subevents + [p]);
    ShredAllowedIff(e', today);
    assert forall i :: 0 <= i < |e.subevents| ==> e'.subevents[i] == e.subevents[i];
    ShredAllowedIff(e, today);
  }

  /** test_shred_constraint_offline: a live shop is refused even a year after the event. */
  lemma OfflineScenario(today: int)
    ensures ShredConstraints(Event(true, false, Period(today - 365, None), []), today).Some?
  {
  }

  /** test_shred_constraint_60_days */
  lemma SixtyDaysScenario(today: int)
    ensures ShredConstraints(Event(false, false, Period(today - 62, Some(today - 62)), []), today).None?
    ensures ShredConstraints(Event(false, false, Period(today - 52, Some(today - 52)), []), today).Some?
    ensures ShredConstraints(Event(false, false, Period(today - 62, Some(today - 52)), []), today).Some?
  {
  }

  /** test_shred_constraint_60_days_subevents */
  lemma SixtyDaysSeriesScenario(today: int, own: Period)
    ensures ShredConstraints(Event(false, true, own, [Period(today - 62, Some(today - 62))]), today).None?
    ensures ShredConstraints(Event(false, true, own, [Period(today - 62, Some(today - 62)), Period(today - 62, Some(today - 52))]), today).Some?
  {
    var e := Event(false, true, own, [Period(today - 62, Some(today - 62)), Period(today - 62, Some(today - 52))]);
    assert !OverLongEnough(e.subevents[1], today);
  }
}
