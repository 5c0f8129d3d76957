/**
  A run in which one collection overtakes another: the first reads its counters and then waits for
  the rest of the engine's answer; the second reads and records; then the first records.
*/
module LateReading {
  import opened Common
  import opened Ledger
  import opened Traffic
  import opened Readings
  import opened LedgerRuns

  /** A world with one device and one meter that was never zeroed. */
  function One(m: Meter, person: nat, carried: Bytes, history: map<Meter, seq<Taken>>, pending: map<nat, Ticket>,
               cursors: map<Meter, Bytes>, samples: Table, recorded: map<Meter, seq<Ticket>>): World {
    World(map[m.0 := person], cursors, samples, map[m := carried], map[m := carried], history, pending, recorded, {}, {})
  }

  lemma {:induction false} RunSplits(w: World, a: seq<Event>, b: seq<Event>)
    ensures Run(w, a + b) == Run(Run(w, a), b)
    decreases |a|
  {
    if a == [] {
      assert a + b == b;
    } else {
      assert (a + b)[0] == a[0] && (a + b)[1..] == a[1..] + b;
      RunSplits(Next(w, a[0]), a[1..], b);
    }
  }

  lemma Extend(events: seq<Event>, w: World, e: Event, w': World) returns (more: seq<Event>)
    requires Run(EMPTY, events) == w && Next(w, e) == w'
    ensures Run(EMPTY, more) == w'
  {
    more := events + [e];
    RunSplits(EMPTY, events, [e]);
    assert [e][1..] == [] && Run(w, [e]) == Next(w, e);
  }

  lemma Carries(m: Meter, person: nat, carried: Bytes, more: Bytes, history: map<Meter, seq<Taken>>, pending: map<nat, Ticket>)
    ensures Next(One(m, person, carried, history, pending, map[], map[], map[]), Flow(m, more))
         == One(m, person, carried.Plus(more), history, pending, map[], map[], map[])
  {
    assert map[m := carried][m := carried.Plus(more)] == map[m := carried.Plus(more)];
  }

  lemma Reads(m: Meter, person: nat, carried: Bytes, history: map<Meter, seq<Taken>>, pending: map<nat, Ticket>, c: nat)
    requires c !in pending
    ensures Next(One(m, person, carried, history, pending, map[], map[], map[]), Read(c, m))
         == One(m, person, carried, history[m := SeqOf(history, m) + [Taken(carried, carried)]],
                pending[c := Ticket(m, |SeqOf(history, m)|, carried)], map[], map[], map[])
  {
  }

  lemma Records(m: Meter, person: nat, carried: Bytes, history: map<Meter, seq<Taken>>, pending: map<nat, Ticket>,
                cursors: map<Meter, Bytes>, samples: Table, recorded: map<Meter, seq<Ticket>>, c: nat, at: Time)
    requires c in pending && pending[c].meter == m
    ensures var t := pending[c];
            Next(One(m, person, carried, history, pending, cursors, samples, recorded), Record(c, at))
              == One(m, person, carried, history, pending - {c}, cursors[m := t.value],
                     Recorded(samples, person, m, Delta(Get(cursors, m), t.value), at), recorded[m := SeqOf(recorded, m) + [t]])
  {
  }

  /** The first collection reads after `a`, the second after `b` more. */
  function Before(m: Meter, person: nat, a: Bytes, b: Bytes): World {
    One(m, person, a.Plus(b), map[m := [Taken(a, a), Taken(a.Plus(b), a.Plus(b))]],
        map[1 := Ticket(m, 0, a), 2 := Ticket(m, 1, a.Plus(b))], map[], map[], map[])
  }

  lemma Starts(m: Meter, person: nat, a: Bytes) returns (events: seq<Event>)
    ensures Run(EMPTY, events) == One(m, person, a, map[], map[], map[], map[], map[])
  {
    events := Extend([], EMPTY, AddDevice(m.0, person), EMPTY.(owners := map[m.0 := person]));
    PlusZero(a);
    events := Extend(events, EMPTY.(owners := map[m.0 := person]), Flow(m, a), One(m, person, a, map[], map[], map[], map[], map[]));
  }

  lemma ReadsFirst(m: Meter, person: nat, a: Bytes) returns (events: seq<Event>)
    ensures Run(EMPTY, events) == One(m, person, a, map[m := [Taken(a, a)]], map[1 := Ticket(m, 0, a)], map[], map[], map[])
  {
    events := Starts(m, person, a);
    Reads(m, person, a, map[], map[], 1);
    assert [] + [Taken(a, a)] == [Taken(a, a)];
    events := Extend(events, One(m, person, a, map[], map[], map[], map[], map[]), Read(1, m),
                     One(m, person, a, map[m := [Taken(a, a)]], map[1 := Ticket(m, 0, a)], map[], map[], map[]));
  }

  lemma ReadsSecond(m: Meter, person: nat, a: Bytes, c: Bytes)
    ensures Next(One(m, person, c, map[m := [Taken(a, a)]], map[1 := Ticket(m, 0, a)], map[], map[], map[]), Read(2, m))
         == One(m, person, c, map[m := [Taken(a, a), Taken(c, c)]], map[1 := Ticket(m, 0, a), 2 := Ticket(m, 1, c)], map[], map[], map[])
  {
    var history, past := map[m := [Taken(a, a)]], [Taken(a, a)];
    Reads(m, person, c, history, map[1 := Ticket(m, 0, a)], 2);
    assert past + [Taken(c, c)] == [Taken(a, a), Taken(c, c)];
    assert history[m := past + [Taken(c, c)]] == map[m := past + [Taken(c, c)]];
  }

  lemma Overtakes(m: Meter, person: nat, a: Bytes, b: Bytes) returns (events: seq<Event>)
    ensures Run(EMPTY, events) == Before(m, person, a, b)
  {
    events := ReadsFirst(m, person, a);
    var history, pending := map[m := [Taken(a, a)]], map[1 := Ticket(m, 0, a)];
    Carries(m, person, a, b, history, pending);
    events := Extend(events, One(m, person, a, history, pending, map[], map[], map[]), Flow(m, b),
                     One(m, person, a.Plus(b), history, pending, map[], map[], map[]));
    ReadsSecond(m, person, a, a.Plus(b));
    events := Extend(events, One(m, person, a.Plus(b), history, pending, map[], map[], map[]), Read(2, m), Before(m, person, a, b));
  }

  lemma LateRun(m: Meter, person: nat, a: Bytes, b: Bytes, at: Time, at': Time) returns (events: seq<Event>, w: World)
    ensures Run(EMPTY, events) == w && w.carried == map[m := a.Plus(b)] && Steady(w, m)
    ensures w.recorded == map[m := [Ticket(m, 1, a.Plus(b)), Ticket(m, 0, a)]] && Meters(w.samples) <= {m}
  {
    events := Overtakes(m, person, a, b);
    var s, first, second := Before(m, person, a, b), Ticket(m, 0, a), Ticket(m, 1, a.Plus(b));
    Records(m, person, a.Plus(b), s.history, s.pending, map[], map[], map[], 2, at);
    var s' := Next(s, Record(2, at));
    events := Extend(events, s, Record(2, at), s');
    assert s.pending - {2} == map[1 := first] && [] + [second] == [second];
    Records(m, person, a.Plus(b), s.history, s'.pending, s'.cursors, s'.samples, s'.recorded, 1, at');
    w := Next(s', Record(1, at'));
    events := Extend(events, s', Record(1, at'), w);
    assert [second] + [first] == [second, first];
    RecordedMeters(map[], person, m, Delta(None, second.value), at);
    RecordedMeters(s'.samples, person, m, Delta(Get(s'.cursors, m), first.value), at');
  }

  lemma RecordedMeters(t: Table, person: nat, m: Meter, delta: Bytes, at: Time)
    ensures Meters(Recorded(t, person, m, delta, at)) <= Meters(t) + {m}
  {
  }

  lemma PeaksOfTwo(a: nat, b: nat)
    ensures Peaks([a, b]) == if b < a then a else 0
  {
    assert [a, b][..1] == [a] && Peaks([a]) == 0;
  }

  lemma TotalOfTwo(events: seq<Event>, w: World, m: Meter, a: Bytes, b: Bytes)
    requires Run(EMPTY, events) == w && w.recorded == map[m := [Ticket(m, 1, a.Plus(b)), Ticket(m, 0, a)]]
    requires b.up > 0 && b.down > 0
    ensures MeterTotal(w.samples, m) == a.Plus(b).Plus(a)
  {
    RecordedFollowsReadings(events, m);
    var rs := Values(RecordedOf(w, m));
    assert rs == [a.Plus(b), a];
    assert Ups(rs) == [a.up + b.up, a.up] && Downs(rs) == [a.down + b.down, a.down];
    PeaksOfTwo(a.up + b.up, a.up);
    PeaksOfTwo(a.down + b.down, a.down);
  }

  lemma OneMeter(t: Table, m: Meter)
    requires Meters(t) <= {m}
    ensures Totals(t, None) == MeterTotal(t, m)
  {
    forall k | k in t ensures (k.device, k.engine) == m { assert (k.device, k.engine) in Meters(t); }
    assert InPeriod(t, None) == OfMeter(t, m);
  }

  /**
    Nothing was ever zeroed; `a` and then `b` were carried, and the overview shows `a` twice: the late
    reading stands below the cursor and is taken for the first one of a restarted counter.
  */
  lemma LateReadingExceeds(m: Meter, person: nat, a: Bytes, b: Bytes, at: Time, at': Time) returns (events: seq<Event>)
    requires b.up > 0 && b.down > 0
    ensures var w := Run(EMPTY, events);
            && Steady(w, m) && Of(w.carried, m) == a.Plus(b) && Meters(w.samples) <= {m}
            && MeterTotal(w.samples, m) == Totals(w.samples, None) == a.Plus(b).Plus(a)
  {
    var w: World;
    events, w := LateRun(m, person, a, b, at, at');
    TotalOfTwo(events, w, m, a, b);
    OneMeter(w.samples, m);
  }
}
