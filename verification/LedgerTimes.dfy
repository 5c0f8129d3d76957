/**
  Where in time the ledger puts what it records, and what a compaction does to each row, said by
  the ages and the intervals alone.
*/
module LedgerTimes {
  import opened Common
  import opened Ledger
  import opened Traffic
  import opened LedgerRuns

  // ---------- what happens outside the panel ----------

  /** Traffic adds to what was carried and to the counter of its meter; a restart or a reset zeroes counters and nothing else. */
  lemma CountersSay(w: World, m: Meter, b: Bytes, engine: Engine, o: Meter)
    ensures var after := Next(w, Flow(m, b));
            && Of(after.carried, o) == (if o == m then Of(w.carried, o).Plus(b) else Of(w.carried, o))
            && Of(after.counters, o) == (if o == m then Of(w.counters, o).Plus(b) else Of(w.counters, o))
    ensures var after := Next(w, Restart(engine));
            after.carried == w.carried && Of(after.counters, o) == if o.1 == engine then ZERO else Of(w.counters, o)
    ensures var after := Next(w, Reset(m));
            after.carried == w.carried && Of(after.counters, o) == if o == m then ZERO else Of(w.counters, o)
  {
  }

  /** A reading says what the counter says, and waits to be recorded; dropped, it never is. */
  lemma ReadingSays(w: World, c: nat, m: Meter, at: Time)
    requires c !in w.pending
    ensures var after := Next(w, Read(c, m));
            && c in after.pending && after.pending[c].meter == m && after.pending[c].value == Of(w.counters, m)
            && after.samples == w.samples && after.cursors == w.cursors
            && Next(Next(after, Drop(c)), Record(c, at)).samples == w.samples
  {
  }

  // ---------- recording ----------

  lemma RecordIs(w: World, c: nat, at: Time)
    requires c in w.pending && w.pending[c].meter.0 in w.owners
    ensures var t := w.pending[c];
            Next(w, Record(c, at)).samples == Recorded(w.samples, w.owners[t.meter.0], t.meter, Delta(Get(w.cursors, t.meter), t.value), at)
  {
  }

  /** In a run, recording a reading raises the sample of its five minutes by the growth since the cursor, and no other. */
  lemma RecordingIsDated(w: World, c: nat, at: Time)
    requires c in w.pending && w.pending[c].meter.0 in w.owners
    ensures var t := w.pending[c];
            Raised(w.samples, Next(w, Record(c, at)).samples, t.meter, Delta(Get(w.cursors, t.meter), t.value), at)
  {
    var t := w.pending[c];
    RecordIs(w, c, at);
    RecordedRaises(w.samples, w.owners[t.meter.0], t.meter, Delta(Get(w.cursors, t.meter), t.value), at);
  }

  // ---------- over runs ----------

  /** The step records a reading of the meter within the five minutes from `start`. */
  predicate Grows(w: World, e: Event, m: Meter, start: Time) {
    e.Record? && e.call in w.pending && w.pending[e.call].meter == m && m.0 in w.owners && start <= e.at < start + 300_000
  }

  /** The growths since the cursor that a run records of the meter within the five minutes from `start`, added to `sum`. */
  ghost function Growths(w: World, events: seq<Event>, m: Meter, start: Time, sum: Bytes): Bytes
    decreases |events|
  {
    if events == [] then sum
    else Growths(Next(w, events[0]), events[1..], m, start,
                 if Grows(w, events[0], m, start) then sum.Plus(Delta(Get(w.cursors, m), w.pending[events[0].call].value)) else sum)
  }

  predicate Uncompacted(events: seq<Event>) {
    forall i :: 0 <= i < |events| ==> !events[i].Compact?
  }

  /** What the table holds for the five minutes from `start`. */
  function Held(t: Table, m: Meter, start: Time): Bytes {
    BytesAt(t, Key(FiveMinutes, start, m.0, m.1))
  }

  lemma HeldIsSum(t: Table, m: Meter, start: Time)
    requires start % 300_000 == 0
    ensures Held(t, m, start) == Sum(t, FiveOf(t, m, start))
  {
    FloorIs(start, start);
    FiveSums(t, m, start);
  }

  lemma UpsertHolds(t: Table, k: Key, sample: Sample, o: Key)
    ensures BytesAt(Upsert(t, k, sample), o) == if o == k then BytesAt(t, o).Plus(sample.bytes) else BytesAt(t, o)
  {
    PlusZero(sample.bytes);
  }

  lemma RecordedUnder(t: Table, person: nat, p: Meter, delta: Bytes, at: Time, bucket: Time)
    requires bucket == Floor(at, FIVE_MINUTES)
    ensures Recorded(t, person, p, delta, at) == if delta == ZERO then t else Upsert(t, Key(FiveMinutes, bucket, p.0, p.1), Sample(person, delta))
  {
  }

  lemma RecordedHolds(t: Table, u: Table, k: Key, person: nat, delta: Bytes, o: Key)
    requires u == if delta == ZERO then t else Upsert(t, k, Sample(person, delta))
    ensures BytesAt(u, o) == if o == k then BytesAt(t, o).Plus(delta) else BytesAt(t, o)
  {
    if delta == ZERO {
      AddsNothing(BytesAt(t, o), delta);
    } else {
      UpsertHolds(t, k, Sample(person, delta), o);
    }
  }

  lemma AddsNothing(a: Bytes, delta: Bytes)
    requires delta == ZERO
    ensures a.Plus(delta) == a
  {
    PlusZero(a);
  }

  /** One recording, as a change of one key of the table. */
  lemma RecordHolds(w: World, c: nat, at: Time, bucket: Time, o: Key)
    requires c in w.pending && w.pending[c].meter.0 in w.owners && bucket == Floor(at, FIVE_MINUTES)
    ensures var t := w.pending[c];
            BytesAt(Next(w, Record(c, at)).samples, o)
              == if o == Key(FiveMinutes, bucket, t.meter.0, t.meter.1) then BytesAt(w.samples, o).Plus(Delta(Get(w.cursors, t.meter), t.value))
                 else BytesAt(w.samples, o)
  {
    var t := w.pending[c];
    var person, delta := w.owners[t.meter.0], Delta(Get(w.cursors, t.meter), t.value);
    RecordIs(w, c, at);
    RecordedUnder(w.samples, person, t.meter, delta, at, bucket);
    RecordedHolds(w.samples, Next(w, Record(c, at)).samples, Key(FiveMinutes, bucket, t.meter.0, t.meter.1), person, delta, o);
  }

  lemma OthersRecordNothing(w: World, e: Event)
    requires !e.Compact? && (e.Record? ==> !(e.call in w.pending && w.pending[e.call].meter.0 in w.owners))
    ensures Next(w, e).samples == w.samples
  {
  }

  /** Every time lies within the five minutes from `start` exactly when its bucket is that. */
  ghost predicate Starts(start: Time) {
    forall at :: start <= at < start + 300_000 <==> start == Floor(at, FIVE_MINUTES)
  }

  lemma MultiplesStart(start: Time)
    requires start % 300_000 == 0
    ensures Starts(start)
  {
    forall at ensures start <= at < start + 300_000 <==> start == Floor(at, FIVE_MINUTES) { FloorIs(at, start); }
  }

  lemma NextGrows(w: World, e: Event, m: Meter, start: Time)
    requires Starts(start) && !e.Compact?
    ensures Held(Next(w, e).samples, m, start)
         == if Grows(w, e, m, start) then Held(w.samples, m, start).Plus(Delta(Get(w.cursors, m), w.pending[e.call].value)) else Held(w.samples, m, start)
  {
    if e.Record? && e.call in w.pending && w.pending[e.call].meter.0 in w.owners {
      RecordHolds(w, e.call, e.at, Floor(e.at, FIVE_MINUTES), Key(FiveMinutes, start, m.0, m.1));
    } else {
      OthersRecordNothing(w, e);
    }
  }

  lemma {:induction false} RunGrows(w: World, events: seq<Event>, m: Meter, start: Time)
    requires Starts(start) && Uncompacted(events)
    ensures Held(Run(w, events).samples, m, start) == Growths(w, events, m, start, Held(w.samples, m, start))
    decreases |events|
  {
    if events != [] {
      NextGrows(w, events[0], m, start);
      RunGrows(Next(w, events[0]), events[1..], m, start);
    }
  }

  /** In every run without compaction, the samples of each five minutes sum up to the growths recorded within them. */
  lemma FiveMinutesAreGrowths(events: seq<Event>, m: Meter, start: Time)
    requires start % 300_000 == 0 && Uncompacted(events)
    ensures var t := Run(EMPTY, events).samples; Sum(t, FiveOf(t, m, start)) == Growths(EMPTY, events, m, start, ZERO)
  {
    MultiplesStart(start);
    RunGrows(EMPTY, events, m, start);
    HeldIsSum(Run(EMPTY, events).samples, m, start);
  }

  // ---------- compaction, row by row ----------

  predicate HourOfKey(k: Key, hour: Key) {
    hour.bucket == Hour && hour.at % 3_600_000 == 0 && hour.at <= k.at < hour.at + 3_600_000
  }

  predicate DayOfKey(k: Key, day: Key) {
    day.bucket == Day && day.at % 86_400_000 == 0 && day.at <= k.at < day.at + 86_400_000
  }

  /**
    Where rows go by their age: five-minute rows up to 48 hours old and hour rows up to 90 days old stay, and
    so do day rows; older ones join the hour or the day they lie in, a five-minute row the day when its hour
    started more than 90 days ago.
  */
  predicate GoesTo(reference: Time, k: Key, to: Key) {
    && (k.device, k.engine) == (to.device, to.engine)
    && match k.bucket
       case Day => to == k
       case Hour => if reference - k.at <= 7_776_000_000 then to == k else DayOfKey(k, to)
       case FiveMinutes =>
         if reference - k.at <= 172_800_000 then to == k
         else if reference - (k.at - k.at % 3_600_000) <= 7_776_000_000 then HourOfKey(k, to)
         else DayOfKey(k, to)
  }

  lemma HourIsFloor(k: Key, hour: Key)
    requires (k.device, k.engine) == (hour.device, hour.engine)
    ensures HourOfKey(k, hour) <==> hour == Coarser(Hour, k)
  {
    var h := Floor(k.at, HOUR);
    assert h == 3_600_000 * (k.at / 3_600_000);
    if HourOfKey(k, hour) {
      assert hour.at == 3_600_000 * (hour.at / 3_600_000);
      assert k.at / 3_600_000 == hour.at / 3_600_000;
    }
  }

  lemma DayIsFloor(k: Key, day: Key)
    requires (k.device, k.engine) == (day.device, day.engine)
    ensures DayOfKey(k, day) <==> day == Coarser(Day, k)
  {
    var d := Floor(k.at, DAY);
    assert d == 86_400_000 * (k.at / 86_400_000);
    if DayOfKey(k, day) {
      assert day.at == 86_400_000 * (day.at / 86_400_000);
      assert k.at / 86_400_000 == day.at / 86_400_000;
    }
  }

  lemma GoesToDest(reference: Time, k: Key, to: Key)
    ensures GoesTo(reference, k, to) <==> to == Dest(reference, k)
  {
    if (k.device, k.engine) == (to.device, to.engine) {
      HourIsFloor(k, to);
      DayIsFloor(k, to);
      FloorOfFloor(k.at);
    }
  }

  /** After a compaction a row is there exactly when some row went to it, and it holds the sum of all that did. */
  lemma CompactionMoves(t: Table, reference: Time, owners: Owners, to: Key)
    requires Owned(t, owners)
    ensures var c := Compacted(t, reference, owners);
            && (to in c <==> exists k :: k in t && GoesTo(reference, k, to))
            && (to in c ==> to.device in owners && c[to] == Sample(owners[to.device], Sum(t, set k | k in t && GoesTo(reference, k, to))))
  {
    var f := ByCompaction(reference);
    forall k | k in t ensures GoesTo(reference, k, to) <==> f(k) == to { GoesToDest(reference, k, to); }
    assert Fibre(t.Keys, f, to) == set k | k in t && GoesTo(reference, k, to);
    TargetsAre(t.Keys, f, to);
    if to in Compacted(t, reference, owners) { PushAt(t, f, owners, to); }
  }

  /** No row is left that is too fine for its age. */
  lemma CompactionLeavesNoneOld(t: Table, reference: Time, owners: Owners, k: Key)
    requires Owned(t, owners) && k in Compacted(t, reference, owners)
    ensures k.bucket == FiveMinutes ==> reference - k.at <= 172_800_000
    ensures k.bucket == Hour ==> reference - k.at <= 7_776_000_000
  {
    CompactionMoves(t, reference, owners, k);
    var o :| o in t && GoesTo(reference, o, k);
    if o.bucket == FiveMinutes && k.bucket == Hour && k != o {
      HourIsFloor(o, k);
    }
  }
}
