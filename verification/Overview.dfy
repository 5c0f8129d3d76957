/** Which samples an overview counts, by their age at the time it is asked for. */
module Overview {
  import opened Common
  import opened Ledger
  import Zone

  /** How old a sample may be, in milliseconds, to be in a rolling period. */
  predicate YoungEnough(period: Zone.Period, age: int) {
    match period
    case Last24Hours => age <= 86_400_000
    case Last7Days => age <= 604_800_000
    case Last30Days => age <= 2_592_000_000
    case Last365Days => age <= 31_536_000_000
    case _ => true
  }

  /** The rolling periods count exactly the samples that are young enough, and "all" counts every sample. */
  lemma PeriodCounts(t: Table, offset: Zone.Offset, period: Zone.Period, reference: Time, k: Key)
    requires !Zone.InCalendar(period)
    ensures k in InPeriod(t, Zone.StartOf(offset, period, reference)) <==> k in t && YoungEnough(period, reference - k.at)
  {
  }

  /** The calendar periods count exactly the samples from their local midnight on. */
  lemma CalendarCounts(t: Table, offset: Zone.Offset, bound: nat, period: Zone.Period, reference: Time, k: Key,
                       change: int, before: int, after: int) returns (midnight: Time)
    requires Zone.InCalendar(period) && Zone.Bounded(offset, bound)
    requires var wanted := Zone.WantedStart(offset, period, reference);
             Zone.OneChange(offset, wanted - bound, wanted + bound, change, before, after) && Zone.Shows(offset, wanted)
    ensures Zone.Displays(offset, midnight) % Zone.DAY == 0
    ensures Zone.Opens(period, Zone.Displays(offset, midnight) / Zone.DAY, Zone.Displays(offset, reference) / Zone.DAY)
    ensures k in InPeriod(t, Zone.StartOf(offset, period, reference)) <==> k in t && midnight <= k.at
  {
    Zone.CalendarPeriods(offset, bound, period, reference, change, before, after);
    midnight := Zone.StartOf(offset, period, reference).value;
  }

  /** With a rolling period, the overview's totals are the sum over exactly those samples. */
  lemma TotalsAre(t: Table, offset: Zone.Offset, period: Zone.Period, reference: Time)
    requires !Zone.InCalendar(period)
    ensures Totals(t, Zone.StartOf(offset, period, reference)) == Sum(t, set k | k in t && YoungEnough(period, reference - k.at))
  {
    forall k ensures k in InPeriod(t, Zone.StartOf(offset, period, reference)) <==> k in t && YoungEnough(period, reference - k.at) {
      PeriodCounts(t, offset, period, reference, k);
    }
    assert InPeriod(t, Zone.StartOf(offset, period, reference)) == set k | k in t && YoungEnough(period, reference - k.at);
  }
}
