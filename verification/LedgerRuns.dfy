/**
  The ledger against the truth: real traffic, engine restarts, readings, recordings, compactions and
  new devices in any order, with the bytes really carried kept beside what the panel records. A
  collection reads the counters, waits for the rest of the engine's answer, and records afterwards;
  nothing keeps the next one from overtaking it.
*/
module LedgerRuns {
  import opened Common
  import opened Ledger
  import opened Traffic
  import opened Readings

  /** A reading as taken: what the counter said, and what had been carried in truth. */
  datatype Taken = Taken(value: Bytes, truth: Bytes)

  /** A reading on its way to be recorded: the how manyth of its meter it was, and its value. */
  datatype Ticket = Ticket(meter: Meter, index: nat, value: Bytes)

  /**
    `carried` is the truth per meter, `counters` what the engines report (zeroed by a restart of the engine or
    a reset of the meter), `history` the readings taken, `pending` those not recorded yet, `recorded` those
    recorded, in order of recording; `restarted` and `reset` are the engines and the meters that ever were.
  */
  datatype World = World(
    owners: Owners,
    cursors: map<Meter, Bytes>,
    samples: Table,
    counters: map<Meter, Bytes>,
    carried: map<Meter, Bytes>,
    history: map<Meter, seq<Taken>>,
    pending: map<nat, Ticket>,
    recorded: map<Meter, seq<Ticket>>,
    restarted: set<Engine>,
    reset: set<Meter>)

  datatype Event =
    | AddDevice(device: nat, person: nat)
    | Flow(meter: Meter, bytes: Bytes)
    | Restart(engine: Engine)
    | Reset(meter: Meter)
    | Read(call: nat, meter: Meter)
    | Record(call: nat, at: Time)
    | Drop(call: nat)
    | Compact(reference: Time)

  const EMPTY := World(map[], map[], map[], map[], map[], map[], map[], map[], {}, {})

  /** The meter was never zeroed. */
  predicate Steady(w: World, m: Meter) {
    m.1 !in w.restarted && m !in w.reset
  }

  function Of(m: map<Meter, Bytes>, meter: Meter): Bytes {
    if meter in m then m[meter] else ZERO
  }

  function SeqOf<T>(m: map<Meter, seq<T>>, meter: Meter): seq<T> {
    if meter in m then m[meter] else []
  }

  function ReadStep(w: World, c: nat, m: Meter): World {
    if c in w.pending then w
    else
      var past := SeqOf(w.history, m);
      w.(history := w.history[m := past + [Taken(Of(w.counters, m), Of(w.carried, m))]],
         pending := w.pending[c := Ticket(m, |past|, Of(w.counters, m))])
  }

  /** `recordCumulative` with a reading taken before. */
  ghost function RecordStep(w: World, c: nat, at: Time): World {
    if c !in w.pending then w else WithPoint(w.(pending := w.pending - {c}), w.pending[c], at)
  }

  ghost function WithPoint(w: World, t: Ticket, at: Time): World {
    if t.meter.0 !in w.owners then w
    else w.(
      cursors := w.cursors[t.meter := t.value],
      samples := Recorded(w.samples, w.owners[t.meter.0], t.meter, Delta(Get(w.cursors, t.meter), t.value), at),
      recorded := w.recorded[t.meter := SeqOf(w.recorded, t.meter) + [t]])
  }

  ghost function Next(w: World, e: Event): World {
    match e
    case AddDevice(d, p) => if d in w.owners then w else w.(owners := w.owners[d := p])
    case Flow(m, b) => w.(counters := w.counters[m := Of(w.counters, m).Plus(b)], carried := w.carried[m := Of(w.carried, m).Plus(b)])
    case Restart(engine) => w.(
      counters := map m | m in w.counters :: if m.1 == engine then ZERO else w.counters[m],
      restarted := w.restarted + {engine})
    case Reset(m) => w.(counters := w.counters[m := ZERO], reset := w.reset + {m})
    case Read(c, m) => ReadStep(w, c, m)
    case Record(c, at) => RecordStep(w, c, at)
    case Drop(c) => w.(pending := w.pending - {c})
    case Compact(reference) => if Owned(w.samples, w.owners) then w.(samples := Compacted(w.samples, reference, w.owners)) else w
  }

  ghost function Run(w: World, events: seq<Event>): World
    decreases |events|
  {
    if events == [] then w else Run(Next(w, events[0]), events[1..])
  }

  lemma RecordedOwned(t: Table, owners: Owners, m: Meter, delta: Bytes, at: Time)
    requires Owned(t, owners) && m.0 in owners
    ensures Owned(Recorded(t, owners[m.0], m, delta, at), owners)
  {
  }

  lemma PointOwned(w: World, t: Ticket, at: Time)
    requires Owned(w.samples, w.owners)
    ensures Owned(WithPoint(w, t, at).samples, w.owners) && WithPoint(w, t, at).owners == w.owners
  {
    if t.meter.0 in w.owners { RecordedOwned(w.samples, w.owners, t.meter, Delta(Get(w.cursors, t.meter), t.value), at); }
  }

  lemma NextOwned(w: World, e: Event)
    requires Owned(w.samples, w.owners)
    ensures Owned(Next(w, e).samples, Next(w, e).owners)
  {
    if e.Record? {
      if e.call in w.pending { PointOwned(w.(pending := w.pending - {e.call}), w.pending[e.call], e.at); }
    } else if e.Compact? {
      PushOwned(w.samples, ByCompaction(e.reference), w.owners);
    }
  }

  lemma {:induction false} RunOwned(w: World, events: seq<Event>)
    requires Owned(w.samples, w.owners)
    ensures Owned(Run(w, events).samples, Run(w, events).owners)
    decreases |events|
  {
    if events != [] {
      NextOwned(w, events[0]);
      RunOwned(Next(w, events[0]), events[1..]);
    }
  }

  /** In every run the samples carry the people their devices belong to, so a compaction in it always compacts. */
  lemma CompactionsHappen(events: seq<Event>, reference: Time)
    ensures var w := Run(EMPTY, events);
            && Owned(w.samples, w.owners)
            && Next(w, Compact(reference)) == w.(samples := Compacted(w.samples, reference, w.owners))
  {
    RunOwned(EMPTY, events);
  }

  // ---------- totals per meter ----------

  ghost function OfMeter(t: Table, m: Meter): set<Key> {
    set k | k in t && (k.device, k.engine) == m
  }

  ghost function MeterTotal(t: Table, m: Meter): Bytes {
    Sum(t, OfMeter(t, m))
  }

  /** An upsert adds to its own meter and to no other. */
  lemma UpsertAdds(t: Table, k: Key, sample: Sample, m: Meter)
    ensures MeterTotal(Upsert(t, k, sample), m)
         == (if (k.device, k.engine) == m then MeterTotal(t, m).Plus(sample.bytes) else MeterTotal(t, m))
  {
    var u := Upsert(t, k, sample);
    if (k.device, k.engine) == m {
      SumPick(u, OfMeter(u, m), k);
      assert OfMeter(u, m) - {k} == OfMeter(t, m) - {k};
      SumAgrees(t, u, OfMeter(t, m) - {k});
      if k in t {
        SumPick(t, OfMeter(t, m), k);
        PlusSwaps(t[k].bytes, sample.bytes, Sum(t, OfMeter(t, m) - {k}));
      } else {
        assert OfMeter(t, m) - {k} == OfMeter(t, m);
      }
    } else {
      assert OfMeter(u, m) == OfMeter(t, m);
      SumAgrees(t, u, OfMeter(t, m));
    }
  }

  lemma MetersOfDest(t: Table, c: Table, reference: Time, m: Meter)
    requires c.Keys == Targets(t.Keys, ByCompaction(reference))
    ensures Preimage(t, ByCompaction(reference), OfMeter(c, m)) == OfMeter(t, m)
  {
    forall k | k in t ensures ByCompaction(reference)(k) in c {}
  }

  lemma CompactionKeepsMeters(t: Table, reference: Time, owners: Owners, m: Meter)
    requires Owned(t, owners)
    ensures MeterTotal(Compacted(t, reference, owners), m) == MeterTotal(t, m)
  {
    var c := Compacted(t, reference, owners);
    PushSum(t, ByCompaction(reference), owners, OfMeter(c, m));
    MetersOfDest(t, c, reference, m);
  }

  // ---------- readings and the truth ----------

  /** In one direction, of a reading and a later one: either both count from the same start, or the later one counts from after the first. */
  predicate Since(v: nat, t: nat, v': nat, t': nat) {
    t <= t' && (t + v' == t' + v || t + v' <= t')
  }

  predicate Later(a: Taken, b: Taken) {
    Since(a.value.up, a.truth.up, b.value.up, b.truth.up) && Since(a.value.down, a.truth.down, b.value.down, b.truth.down)
  }

  /** What one more reading adds is at most what has been carried since the reading before it. */
  lemma DeltaAtMost(a: Taken, b: Taken, total: Bytes)
    requires Later(a, b) && total.AtMost(a.truth)
    ensures total.Plus(Delta(Some(a.value), b.value)).AtMost(b.truth)
  {
  }

  /** Readings in the order they were taken, and the counter as it stands after them. */
  ghost predicate Truthful(past: seq<Taken>, now: Taken) {
    && now.value.AtMost(now.truth)
    && (forall i :: 0 <= i < |past| ==> past[i].value.AtMost(past[i].truth) && Later(past[i], now))
    && (forall i, j :: 0 <= i <= j < |past| ==> Later(past[i], past[j]))
  }

  lemma ReadTruthful(past: seq<Taken>, now: Taken)
    requires Truthful(past, now)
    ensures Truthful(past + [now], now)
  {
  }

  lemma FlowTruthful(past: seq<Taken>, now: Taken, b: Bytes)
    requires Truthful(past, now)
    ensures Truthful(past, Taken(now.value.Plus(b), now.truth.Plus(b)))
  {
  }

  lemma ZeroTruthful(past: seq<Taken>, now: Taken)
    requires Truthful(past, now)
    ensures Truthful(past, Taken(ZERO, now.truth))
  {
  }

  // ---------- the invariant, meter by meter ----------

  predicate Linked(past: seq<Taken>, t: Ticket) {
    t.index < |past| && past[t.index].value == t.value
  }

  /** Readings are recorded in the order they were taken: none is older than the cursor's when it is recorded. */
  predicate InOrder(ts: seq<Ticket>) {
    forall i, j :: 0 <= i < j < |ts| ==> ts[i].index <= ts[j].index
  }

  lemma InOrderMore(ts: seq<Ticket>, t: Ticket)
    ensures InOrder(ts + [t]) <==> InOrder(ts) && (ts == [] || ts[|ts| - 1].index <= t.index)
  {
    var all := ts + [t];
    assert forall i :: 0 <= i < |ts| ==> all[i] == ts[i];
    if InOrder(all) {
      assert ts != [] ==> all[|ts| - 1].index <= all[|ts|].index;
      forall i, j | 0 <= i < j < |ts| ensures ts[i].index <= ts[j].index { assert all[i].index <= all[j].index; }
    }
  }

  function Values(ts: seq<Ticket>): (vs: seq<Bytes>)
    ensures |vs| == |ts| && forall i :: 0 <= i < |ts| ==> vs[i] == ts[i].value
  {
    seq(|ts|, i requires 0 <= i < |ts| => ts[i].value)
  }

  /** Everything the world says of one meter. */
  datatype View = View(past: seq<Taken>, recorded: seq<Ticket>, cursor: Option<Bytes>, total: Bytes, now: Taken, steady: bool)

  ghost function ViewOf(w: World, m: Meter): View {
    View(SeqOf(w.history, m), SeqOf(w.recorded, m), Get(w.cursors, m), MeterTotal(w.samples, m),
         Taken(Of(w.counters, m), Of(w.carried, m)), Steady(w, m))
  }

  /** What is recorded is what the readings count up to. */
  predicate Recording(v: View) {
    && v.total == CountedBytes(Values(v.recorded))
    && v.cursor == (if v.recorded == [] then None else Some(v.recorded[|v.recorded| - 1].value))
    && (forall i :: 0 <= i < |v.recorded| ==> Linked(v.past, v.recorded[i]))
  }

  /** Recorded in order, it is at most what had been carried when the cursor's reading was taken. */
  predicate Bounded(v: View) {
    if v.recorded == [] then v.total == ZERO
    else
      var last := v.recorded[|v.recorded| - 1];
      last.index < |v.past| && (InOrder(v.recorded) ==> v.total.AtMost(v.past[last.index].truth))
  }

  predicate SteadyCounts(v: View) {
    v.steady ==> v.now.value == v.now.truth && forall i :: 0 <= i < |v.past| ==> v.past[i].value == v.past[i].truth
  }

  ghost predicate Balanced(v: View) {
    Recording(v) && Bounded(v) && SteadyCounts(v) && Truthful(v.past, v.now)
  }

  function Flowed(v: View, b: Bytes): View {
    v.(now := Taken(v.now.value.Plus(b), v.now.truth.Plus(b)))
  }

  function Zeroed(v: View): View {
    v.(now := Taken(ZERO, v.now.truth), steady := false)
  }

  function WithReading(v: View): View {
    v.(past := v.past + [v.now])
  }

  function WithRecord(v: View, t: Ticket): View {
    v.(recorded := v.recorded + [t], cursor := Some(t.value), total := v.total.Plus(Delta(v.cursor, t.value)))
  }

  lemma FlowBalances(v: View, b: Bytes)
    requires Balanced(v)
    ensures Balanced(Flowed(v, b))
  {
    FlowTruthful(v.past, v.now, b);
  }

  lemma ZeroBalances(v: View)
    requires Balanced(v)
    ensures Balanced(Zeroed(v))
  {
    ZeroTruthful(v.past, v.now);
  }

  lemma ReadBalances(v: View)
    requires Balanced(v)
    ensures Balanced(WithReading(v))
  {
    ReadTruthful(v.past, v.now);
  }

  lemma RecordCounts(v: View, t: Ticket)
    requires Recording(v) && Linked(v.past, t)
    ensures Recording(WithRecord(v, t))
  {
    CountOne(Values(v.recorded), t.value);
    assert Values(v.recorded + [t]) == Values(v.recorded) + [t.value];
  }

  lemma RecordBounded(v: View, t: Ticket)
    requires Recording(v) && Bounded(v) && Truthful(v.past, v.now) && Linked(v.past, t)
    ensures Bounded(WithRecord(v, t))
  {
    InOrderMore(v.recorded, t);
    if InOrder(v.recorded + [t]) {
      if v.recorded == [] {
        PlusZero(t.value);
      } else {
        var last := v.recorded[|v.recorded| - 1];
        DeltaAtMost(v.past[last.index], v.past[t.index], v.total);
      }
    }
  }

  lemma RecordBalances(v: View, t: Ticket)
    requires Balanced(v) && Linked(v.past, t)
    ensures Balanced(WithRecord(v, t))
  {
    RecordCounts(v, t);
    RecordBounded(v, t);
  }

  lemma RecordedAdds(t: Table, person: nat, p: Meter, delta: Bytes, at: Time, m: Meter)
    ensures MeterTotal(Recorded(t, person, p, delta, at), m)
         == if p == m then MeterTotal(t, m).Plus(delta) else MeterTotal(t, m)
  {
    if delta != ZERO {
      var k := Key(FiveMinutes, Floor(at, FIVE_MINUTES), p.0, p.1);
      assert (k.device, k.engine) == p;
      UpsertAdds(t, k, Sample(person, delta), m);
    }
  }

  // ---------- what a step does to the view of one meter ----------

  lemma ViewOfRead(w: World, c: nat, r: Meter, m: Meter)
    ensures ViewOf(ReadStep(w, c, r), m) == if r == m && c !in w.pending then WithReading(ViewOf(w, m)) else ViewOf(w, m)
  {
  }

  lemma RecordTotals(w: World, c: nat, at: Time, m: Meter)
    requires c in w.pending && w.pending[c].meter.0 in w.owners
    ensures var t := w.pending[c];
            MeterTotal(RecordStep(w, c, at).samples, m)
              == if t.meter == m then MeterTotal(w.samples, m).Plus(Delta(Get(w.cursors, m), t.value)) else MeterTotal(w.samples, m)
  {
    var t := w.pending[c];
    RecordedAdds(w.samples, w.owners[t.meter.0], t.meter, Delta(Get(w.cursors, t.meter), t.value), at, m);
  }

  lemma RecordRest(w: World, c: nat, at: Time, m: Meter)
    requires c in w.pending && w.pending[c].meter.0 in w.owners
    ensures var t, after := w.pending[c], RecordStep(w, c, at);
            && SeqOf(after.history, m) == SeqOf(w.history, m)
            && Of(after.counters, m) == Of(w.counters, m) && Of(after.carried, m) == Of(w.carried, m)
            && SeqOf(after.recorded, m) == (if t.meter == m then SeqOf(w.recorded, m) + [t] else SeqOf(w.recorded, m))
            && Get(after.cursors, m) == (if t.meter == m then Some(t.value) else Get(w.cursors, m))
            && Steady(after, m) == Steady(w, m)
  {
  }

  lemma ViewOfRecord(w: World, c: nat, at: Time, m: Meter)
    requires c in w.pending && w.pending[c].meter.0 in w.owners
    ensures ViewOf(RecordStep(w, c, at), m) == if w.pending[c].meter == m then WithRecord(ViewOf(w, m), w.pending[c]) else ViewOf(w, m)
  {
    RecordTotals(w, c, at, m);
    RecordRest(w, c, at, m);
  }

  /** A reading that is not under way, or of an unknown device, is not recorded. */
  lemma ViewOfIdleRecord(w: World, c: nat, at: Time, m: Meter)
    requires c in w.pending ==> w.pending[c].meter.0 !in w.owners
    ensures ViewOf(RecordStep(w, c, at), m) == ViewOf(w, m)
  {
  }

  lemma ViewOfCompact(w: World, reference: Time, m: Meter)
    ensures ViewOf(Next(w, Compact(reference)), m) == ViewOf(w, m)
  {
    if Owned(w.samples, w.owners) {
      CompactionKeepsMeters(w.samples, reference, w.owners, m);
    }
  }

  lemma ViewOfRestart(w: World, engine: Engine, m: Meter)
    ensures ViewOf(Next(w, Restart(engine)), m) == if m.1 == engine then Zeroed(ViewOf(w, m)) else ViewOf(w, m)
  {
  }

  lemma ViewOfFlow(w: World, f: Meter, b: Bytes, m: Meter)
    ensures ViewOf(Next(w, Flow(f, b)), m) == if f == m then Flowed(ViewOf(w, m), b) else ViewOf(w, m)
  {
  }

  lemma ViewOfReset(w: World, r: Meter, m: Meter)
    ensures ViewOf(Next(w, Reset(r)), m) == if r == m then Zeroed(ViewOf(w, m)) else ViewOf(w, m)
  {
  }

  /** Readings under way are readings that were taken. */
  ghost predicate PendingLinked(w: World) {
    forall c :: c in w.pending ==> Linked(SeqOf(w.history, w.pending[c].meter), w.pending[c])
  }

  lemma ReadLinked(w: World, c: nat, m: Meter)
    requires PendingLinked(w)
    ensures PendingLinked(ReadStep(w, c, m))
  {
    var after := ReadStep(w, c, m);
    forall k | k in after.pending ensures Linked(SeqOf(after.history, after.pending[k].meter), after.pending[k]) {
      if k in w.pending { assert Linked(SeqOf(w.history, w.pending[k].meter), w.pending[k]); }
    }
  }

  predicate Untaken(w: World, after: World) {
    after.history == w.history && forall k :: k in after.pending ==> k in w.pending && after.pending[k] == w.pending[k]
  }

  lemma PointTakesNone(w: World, t: Ticket, at: Time)
    ensures WithPoint(w, t, at).history == w.history && WithPoint(w, t, at).pending == w.pending
  {
  }

  lemma RecordTakesNone(w: World, c: nat, at: Time)
    ensures Untaken(w, RecordStep(w, c, at))
  {
    if c in w.pending { PointTakesNone(w.(pending := w.pending - {c}), w.pending[c], at); }
  }

  /** Only reading adds to the history, and to the readings under way. */
  lemma OthersTakeNone(w: World, e: Event)
    requires !e.Read?
    ensures Untaken(w, Next(w, e))
  {
    if e.Record? { RecordTakesNone(w, e.call, e.at); }
  }

  lemma LinkedStay(w: World, after: World)
    requires PendingLinked(w) && Untaken(w, after)
    ensures PendingLinked(after)
  {
  }

  lemma NextLinked(w: World, e: Event)
    requires PendingLinked(w)
    ensures PendingLinked(Next(w, e))
  {
    if e.Read? {
      ReadLinked(w, e.call, e.meter);
    } else {
      OthersTakeNone(w, e);
      LinkedStay(w, Next(w, e));
    }
  }

  lemma NextBalances(w: World, e: Event, m: Meter)
    requires PendingLinked(w) && Balanced(ViewOf(w, m))
    ensures Balanced(ViewOf(Next(w, e), m))
  {
    var v := ViewOf(w, m);
    match e
    case Flow(f, b) => ViewOfFlow(w, f, b, m); FlowBalances(v, b);
    case Restart(engine) => ViewOfRestart(w, engine, m); ZeroBalances(v);
    case Reset(r) => ViewOfReset(w, r, m); ZeroBalances(v);
    case Read(c, r) => ViewOfRead(w, c, r, m); ReadBalances(v);
    case Record(c, at) =>
      if c in w.pending && w.pending[c].meter.0 in w.owners {
        ViewOfRecord(w, c, at, m);
        if w.pending[c].meter == m { RecordBalances(v, w.pending[c]); }
      } else {
        ViewOfIdleRecord(w, c, at, m);
      }
    case Compact(reference) => ViewOfCompact(w, reference, m);
    case _ =>
  }

  lemma {:induction false} RunBalances(w: World, events: seq<Event>, m: Meter)
    requires PendingLinked(w) && Balanced(ViewOf(w, m))
    ensures Balanced(ViewOf(Run(w, events), m))
    decreases |events|
  {
    if events != [] {
      NextBalances(w, events[0], m);
      NextLinked(w, events[0]);
      RunBalances(Next(w, events[0]), events[1..], m);
    }
  }

  lemma ReachableBalances(events: seq<Event>, m: Meter)
    ensures Balanced(ViewOf(Run(EMPTY, events), m))
  {
    assert OfMeter(EMPTY.samples, m) == {};
    RunBalances(EMPTY, events, m);
  }

  // ---------- what a meter shows ----------

  function RecordedOf(w: World, m: Meter): seq<Ticket> {
    SeqOf(w.recorded, m)
  }

  /** In every run a meter's recorded total is the last reading recorded plus every one recorded just before a drop, in each direction. */
  lemma RecordedFollowsReadings(events: seq<Event>, m: Meter)
    ensures var w := Run(EMPTY, events); var rs := Values(RecordedOf(w, m));
            var last := if rs == [] then ZERO else rs[|rs| - 1];
            MeterTotal(w.samples, m) == Bytes(Peaks(Ups(rs)) + last.up, Peaks(Downs(rs)) + last.down)
  {
    ReachableBalances(events, m);
    var rs := Values(RecordedOf(Run(EMPTY, events), m));
    CountedIsPeaks(Ups(rs));
    CountedIsPeaks(Downs(rs));
  }

  /** What had been carried at the newest reading that has been recorded; nothing, when none has. */
  function NewestTruth(past: seq<Taken>, ts: seq<Ticket>): Bytes {
    var i := Newest(ts);
    if ts == [] || i >= |past| then ZERO else past[i].truth
  }

  function Newest(ts: seq<Ticket>): (n: nat)
    ensures forall i :: 0 <= i < |ts| ==> ts[i].index <= n
    ensures ts != [] ==> exists i :: 0 <= i < |ts| && ts[i].index == n
  {
    if ts == [] then 0
    else
      var before := Newest(ts[..|ts| - 1]);
      if |ts| > 1 && ts[|ts| - 1].index < before then before else ts[|ts| - 1].index
  }

  function TruthShown(w: World, m: Meter): Bytes {
    NewestTruth(SeqOf(w.history, m), RecordedOf(w, m))
  }

  lemma TruthIsCarried(v: View)
    requires Balanced(v)
    ensures NewestTruth(v.past, v.recorded).AtMost(v.now.truth)
  {
  }

  lemma LastIsNewest(ts: seq<Ticket>)
    requires InOrder(ts)
    ensures ts != [] ==> Newest(ts) == ts[|ts| - 1].index
  {
  }

  // ---------- a meter that was never zeroed ----------

  /** Of a meter that was never zeroed, the greatest reading is the newest. */
  lemma GreatestIsNewest(v: View)
    requires Balanced(v) && v.steady && v.recorded != []
    ensures var rs := Values(v.recorded);
            NewestTruth(v.past, v.recorded) == Bytes(Greatest(Ups(rs)), Greatest(Downs(rs)))
  {
    var rs, n := Values(v.recorded), Newest(v.recorded);
    var k :| 0 <= k < |v.recorded| && v.recorded[k].index == n;
    assert Linked(v.past, v.recorded[k]);
    assert Ups(rs)[k] == v.past[n].truth.up && Downs(rs)[k] == v.past[n].truth.down;
    forall i | 0 <= i < |rs| ensures Ups(rs)[i] <= Ups(rs)[k] && Downs(rs)[i] <= Downs(rs)[k] {
      assert Linked(v.past, v.recorded[i]) && Later(v.past[v.recorded[i].index], v.past[n]);
    }
  }

  lemma CountIsAtLeast(v: View)
    requires Balanced(v) && v.steady
    ensures var rs := Values(v.recorded);
            && NewestTruth(v.past, v.recorded).AtMost(v.total)
            && (v.total == NewestTruth(v.past, v.recorded) <==> Straight(Ups(rs)) && Straight(Downs(rs)))
  {
    var rs := Values(v.recorded);
    CountedIsGreatestIff(Ups(rs));
    CountedIsGreatestIff(Downs(rs));
    if v.recorded != [] { GreatestIsNewest(v); }
  }

  ghost predicate StraightReadings(w: World, m: Meter) {
    Straight(Ups(Values(RecordedOf(w, m)))) && Straight(Downs(Values(RecordedOf(w, m))))
  }

  /**
    A meter that was never zeroed shows at least what had been carried at the newest reading recorded,
    and exactly that if and only if, in each direction, whatever is recorded after a fall is zero.
  */
  lemma MeterShowsTruthIff(events: seq<Event>, m: Meter)
    requires Steady(Run(EMPTY, events), m)
    ensures var w := Run(EMPTY, events);
            && TruthShown(w, m).AtMost(MeterTotal(w.samples, m))
            && (MeterTotal(w.samples, m) == TruthShown(w, m) <==> StraightReadings(w, m))
  {
    ReachableBalances(events, m);
    CountIsAtLeast(ViewOf(Run(EMPTY, events), m));
  }

  lemma InOrderAtMost(v: View)
    requires Balanced(v) && InOrder(v.recorded)
    ensures v.total.AtMost(NewestTruth(v.past, v.recorded)) && NewestTruth(v.past, v.recorded).AtMost(v.now.truth)
  {
    TruthIsCarried(v);
    LastIsNewest(v.recorded);
  }

  /**
    When no reading is recorded after a newer one, a meter never shows more than had been carried when
    the newest of them was taken, whatever was zeroed meanwhile; and exactly that, if it never was.
  */
  lemma MeterNeverExceeds(events: seq<Event>, m: Meter)
    requires InOrder(RecordedOf(Run(EMPTY, events), m))
    ensures var w := Run(EMPTY, events);
            && MeterTotal(w.samples, m).AtMost(TruthShown(w, m)) && TruthShown(w, m).AtMost(Of(w.carried, m))
            && (Steady(w, m) ==> MeterTotal(w.samples, m) == TruthShown(w, m))
  {
    ReachableBalances(events, m);
    InOrderAtMost(ViewOf(Run(EMPTY, events), m));
    if Steady(Run(EMPTY, events), m) { MeterShowsTruthIff(events, m); }
  }

  // ---------- one reading at a time ----------

  /** A reading is taken only when none of its meter is under way. */
  predicate Unhurried(w: World, e: Event) {
    e.Read? ==> forall c :: c in w.pending ==> w.pending[c].meter != e.meter
  }

  ghost predicate OneReadingAtATime(w: World, events: seq<Event>)
    decreases |events|
  {
    events == [] || (Unhurried(w, events[0]) && OneReadingAtATime(Next(w, events[0]), events[1..]))
  }

  /** A reading under way is the newest of its meter, and what has been recorded is in order. */
  ghost predicate Queued(w: World, m: Meter) {
    && (forall c :: c in w.pending && w.pending[c].meter == m ==> w.pending[c].index + 1 == |SeqOf(w.history, m)|)
    && InOrder(RecordedOf(w, m))
    && (forall i :: 0 <= i < |RecordedOf(w, m)| ==> RecordedOf(w, m)[i].index < |SeqOf(w.history, m)|)
  }

  lemma PointQueued(w: World, t: Ticket, at: Time, m: Meter)
    requires Queued(w, m) && (t.meter == m ==> t.index + 1 == |SeqOf(w.history, m)|)
    ensures Queued(WithPoint(w, t, at), m)
  {
    if t.meter.0 in w.owners && t.meter == m {
      var after := WithPoint(w, t, at);
      assert after.history == w.history && after.pending == w.pending && RecordedOf(after, m) == RecordedOf(w, m) + [t];
      InOrderMore(RecordedOf(w, m), t);
    }
  }

  lemma ReadQueued(w: World, c: nat, r: Meter, m: Meter)
    requires Queued(w, m) && Unhurried(w, Read(c, r))
    ensures Queued(ReadStep(w, c, r), m)
  {
  }

  lemma OthersRecordNone(w: World, e: Event)
    requires !e.Read? && !e.Record?
    ensures Next(w, e).recorded == w.recorded
  {
  }

  lemma QueuedStays(w: World, after: World, m: Meter)
    requires Queued(w, m) && Untaken(w, after) && after.recorded == w.recorded
    ensures Queued(after, m)
  {
  }

  lemma NextQueued(w: World, e: Event, m: Meter)
    requires Queued(w, m) && Unhurried(w, e)
    ensures Queued(Next(w, e), m)
  {
    if e.Read? {
      ReadQueued(w, e.call, e.meter, m);
    } else if e.Record? {
      if e.call in w.pending { PointQueued(w.(pending := w.pending - {e.call}), w.pending[e.call], e.at, m); }
    } else {
      OthersTakeNone(w, e);
      OthersRecordNone(w, e);
      QueuedStays(w, Next(w, e), m);
    }
  }

  lemma {:induction false} RunQueued(w: World, events: seq<Event>, m: Meter)
    requires Queued(w, m) && OneReadingAtATime(w, events)
    ensures Queued(Run(w, events), m)
    decreases |events|
  {
    if events != [] {
      NextQueued(w, events[0], m);
      RunQueued(Next(w, events[0]), events[1..], m);
    }
  }

  /** When a meter is not read again before its last reading has been recorded or dropped, readings are recorded in order. */
  lemma OneAtATimeIsInOrder(events: seq<Event>, m: Meter)
    requires OneReadingAtATime(EMPTY, events)
    ensures InOrder(RecordedOf(Run(EMPTY, events), m))
  {
    RunQueued(EMPTY, events, m);
  }

  // ---------- the overview of the whole history ----------

  ghost function SumOf(m: map<Meter, Bytes>, meters: set<Meter>): Bytes {
    if meters == {} then ZERO else
      var x :| x in meters;
      Of(m, x).Plus(SumOf(m, meters - {x}))
  }

  ghost function OfMeters(t: Table, meters: set<Meter>): set<Key> {
    set k | k in t && (k.device, k.engine) in meters
  }

  lemma {:induction false} SumByMeter(t: Table, m: map<Meter, Bytes>, meters: set<Meter>, exact: bool)
    requires forall x :: x in meters ==> MeterTotal(t, x).AtMost(Of(m, x)) && (exact ==> MeterTotal(t, x) == Of(m, x))
    ensures Sum(t, OfMeters(t, meters)).AtMost(SumOf(m, meters))
    ensures exact ==> Sum(t, OfMeters(t, meters)) == SumOf(m, meters)
    decreases meters
  {
    if meters == {} {
      assert OfMeters(t, meters) == {};
    } else {
      var x :| x in meters;
      var rest := meters - {x};
      SumByMeter(t, m, rest, exact);
      PickMeter(m, meters, x);
      SplitMeter(t, meters, x);
      assert rest == meters - {x};
    }
  }

  lemma SplitMeter(t: Table, meters: set<Meter>, x: Meter)
    requires x in meters
    ensures Sum(t, OfMeters(t, meters)) == MeterTotal(t, x).Plus(Sum(t, OfMeters(t, meters - {x})))
  {
    assert OfMeters(t, meters) == OfMeter(t, x) + OfMeters(t, meters - {x});
    SumUnion(t, OfMeter(t, x), OfMeters(t, meters - {x}));
  }

  lemma {:induction false} PickMeter(m: map<Meter, Bytes>, meters: set<Meter>, x: Meter)
    requires x in meters
    ensures SumOf(m, meters) == Of(m, x).Plus(SumOf(m, meters - {x}))
    decreases meters
  {
    var y :| y in meters && SumOf(m, meters) == Of(m, y).Plus(SumOf(m, meters - {y}));
    if y != x {
      PickMeter(m, meters - {y}, x);
      PickMeter(m, meters - {x}, y);
      assert meters - {y} - {x} == meters - {x} - {y};
      PlusSwaps(Of(m, x), Of(m, y), SumOf(m, meters - {x} - {y}));
    }
  }

  ghost function Meters(t: Table): set<Meter> {
    set k | k in t :: (k.device, k.engine)
  }

  lemma PlusAtLeast(a: Bytes, b: Bytes, c: Bytes, d: Bytes)
    requires b.AtMost(a) && d.AtMost(c)
    ensures b.Plus(d).AtMost(a.Plus(c)) && (a.Plus(c) == b.Plus(d) <==> a == b && c == d)
  {
  }

  /** Every meter of the set shows what the map says. */
  ghost predicate Shown(t: Table, m: map<Meter, Bytes>, meters: set<Meter>) {
    forall x :: x in meters ==> MeterTotal(t, x) == Of(m, x)
  }

  lemma ShownPick(t: Table, m: map<Meter, Bytes>, meters: set<Meter>, x: Meter)
    requires x in meters
    ensures Shown(t, m, meters) <==> MeterTotal(t, x) == Of(m, x) && Shown(t, m, meters - {x})
  {
  }

  /** Sums that are at least as great meter by meter are equal only if every meter's is. */
  lemma {:induction false} SumAtLeast(t: Table, m: map<Meter, Bytes>, meters: set<Meter>)
    requires forall x :: x in meters ==> Of(m, x).AtMost(MeterTotal(t, x))
    ensures SumOf(m, meters).AtMost(Sum(t, OfMeters(t, meters)))
    ensures Sum(t, OfMeters(t, meters)) == SumOf(m, meters) <==> Shown(t, m, meters)
    decreases meters
  {
    if meters == {} {
      assert OfMeters(t, meters) == {};
    } else {
      var x :| x in meters;
      SumAtLeast(t, m, meters - {x});
      PickMeter(m, meters, x);
      SplitMeter(t, meters, x);
      ShownPick(t, m, meters, x);
      PlusAtLeast(MeterTotal(t, x), Of(m, x), Sum(t, OfMeters(t, meters - {x})), SumOf(m, meters - {x}));
    }
  }

  lemma WholeIsMeters(t: Table)
    ensures Totals(t, None) == Sum(t, OfMeters(t, Meters(t)))
  {
    assert OfMeters(t, Meters(t)) == InPeriod(t, None);
  }

  /** What each meter in the table had carried at its newest reading recorded. */
  ghost function Truths(w: World): map<Meter, Bytes> {
    map m | m in Meters(w.samples) :: TruthShown(w, m)
  }

  /**
    When no reading is recorded after a newer one of its meter, the overview of the whole history shows
    at most the bytes carried on the meters it counts, and exactly those carried at their newest
    readings recorded when none of them was ever zeroed.
  */
  lemma OverviewNeverExceeds(events: seq<Event>)
    requires var w := Run(EMPTY, events); forall m :: m in Meters(w.samples) ==> InOrder(RecordedOf(w, m))
    ensures var w := Run(EMPTY, events); var meters := Meters(w.samples);
            && Totals(w.samples, None).AtMost(SumOf(w.carried, meters))
            && ((forall m :: m in meters ==> Steady(w, m)) ==> Totals(w.samples, None) == SumOf(Truths(w), meters))
  {
    var w := Run(EMPTY, events);
    var meters := Meters(w.samples);
    forall m | m in meters
      ensures MeterTotal(w.samples, m).AtMost(TruthShown(w, m)) && TruthShown(w, m).AtMost(Of(w.carried, m))
      ensures Steady(w, m) ==> MeterTotal(w.samples, m) == TruthShown(w, m)
    {
      MeterNeverExceeds(events, m);
    }
    WholeIsMeters(w.samples);
    SumByMeter(w.samples, w.carried, meters, false);
    if forall m :: m in meters ==> Steady(w, m) { SumByMeter(w.samples, Truths(w), meters, true); }
  }

  /** When no meter was ever zeroed, the overview shows at least that, and exactly that if and only if every meter does. */
  lemma OverviewShowsTruthIff(events: seq<Event>)
    requires var w := Run(EMPTY, events); forall m :: m in Meters(w.samples) ==> Steady(w, m)
    ensures var w := Run(EMPTY, events); var meters := Meters(w.samples);
            && SumOf(Truths(w), meters).AtMost(Totals(w.samples, None))
            && (Totals(w.samples, None) == SumOf(Truths(w), meters) <==> forall m :: m in meters ==> StraightReadings(w, m))
  {
    var w := Run(EMPTY, events);
    forall m | m in Meters(w.samples)
      ensures TruthShown(w, m).AtMost(MeterTotal(w.samples, m))
      ensures MeterTotal(w.samples, m) == TruthShown(w, m) <==> StraightReadings(w, m)
    {
      MeterShowsTruthIff(events, m);
    }
    WholeIsMeters(w.samples);
    SumAtLeast(w.samples, Truths(w), Meters(w.samples));
  }
}
