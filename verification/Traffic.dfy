/** The traffic service as it updates its two tables in place. */
module Traffic {
  import opened Common
  import opened Ledger

  type Meter = (nat, Engine)

  /** What one reading adds: the growth since the cursor, or the whole reading after a drop. */
  function Delta(cursor: Option<Bytes>, point: Bytes): Bytes {
    Bytes(if cursor.Some? && point.up >= cursor.value.up then point.up - cursor.value.up else point.up,
          if cursor.Some? && point.down >= cursor.value.down then point.down - cursor.value.down else point.down)
  }

  function Get(cursors: map<Meter, Bytes>, m: Meter): Option<Bytes> {
    if m in cursors then Some(cursors[m]) else None
  }

  /** Insert a sample, or add to the one already there. */
  function Upsert(t: Table, k: Key, sample: Sample): Table {
    t[k := if k in t then t[k].(bytes := t[k].bytes.Plus(sample.bytes)) else sample]
  }

  function Recorded(t: Table, person: nat, m: Meter, delta: Bytes, at: Time): Table {
    if delta == ZERO then t
    else Upsert(t, Key(FiveMinutes, Floor(at, FIVE_MINUTES), m.0, m.1), Sample(person, delta))
  }

  // ---------- where a recording goes ----------

  /** A sample of the meter for the five minutes that contain `at`. */
  predicate InFive(k: Key, m: Meter, at: Time) {
    k.bucket == FiveMinutes && (k.device, k.engine) == m && k.at % 300_000 == 0 && k.at <= at < k.at + 300_000
  }

  ghost function FiveOf(t: Table, m: Meter, at: Time): set<Key> {
    set k | k in t && InFive(k, m, at)
  }

  lemma FiveIsOne(k: Key, m: Meter, at: Time)
    ensures InFive(k, m, at) <==> k == Key(FiveMinutes, Floor(at, FIVE_MINUTES), m.0, m.1)
  {
    FloorIs(at, k.at);
  }

  lemma FloorIs(at: Time, start: Time)
    ensures start % 300_000 == 0 && start <= at < start + 300_000 <==> start == Floor(at, FIVE_MINUTES)
  {
    if start % 300_000 == 0 && start <= at < start + 300_000 {
      assert start == 300_000 * (start / 300_000) && at == 300_000 * (at / 300_000) + at % 300_000;
      assert at / 300_000 == start / 300_000;
    }
    Floors(at);
  }

  lemma Floors(at: Time)
    ensures Floor(at, FIVE_MINUTES) % 300_000 == 0 && Floor(at, FIVE_MINUTES) <= at < Floor(at, FIVE_MINUTES) + 300_000
  {
    assert Floor(at, FIVE_MINUTES) == 300_000 * (at / 300_000);
  }

  lemma FiveSums(t: Table, m: Meter, at: Time)
    ensures var k := Key(FiveMinutes, Floor(at, FIVE_MINUTES), m.0, m.1);
            Sum(t, FiveOf(t, m, at)) == if k in t then t[k].bytes else ZERO
  {
    var k := Key(FiveMinutes, Floor(at, FIVE_MINUTES), m.0, m.1);
    forall o | o in t ensures InFive(o, m, at) <==> o == k { FiveIsOne(o, m, at); }
    if k in t {
      assert FiveOf(t, m, at) == {k};
      SumPick(t, {k}, k);
      assert {k} - {k} == {};
      PlusZero(t[k].bytes);
    } else {
      assert FiveOf(t, m, at) == {};
    }
  }

  /** The table has the delta more in the five minutes that contain `at`, on the meter's sample alone. */
  ghost predicate Raised(t: Table, u: Table, m: Meter, delta: Bytes, at: Time) {
    && Sum(u, FiveOf(u, m, at)) == Sum(t, FiveOf(t, m, at)).Plus(delta)
    && (forall k :: !InFive(k, m, at) ==> (k in u <==> k in t))
    && (forall k :: k in t && !InFive(k, m, at) ==> u[k] == t[k])
  }

  /** An upsert under the one key of the five minutes. */
  lemma UpsertRaises(t: Table, k: Key, person: nat, m: Meter, delta: Bytes, at: Time)
    requires forall o :: InFive(o, m, at) <==> o == k
    ensures var u := Upsert(t, k, Sample(person, delta));
            && (if k in u then u[k].bytes else ZERO) == (if k in t then t[k].bytes else ZERO).Plus(delta)
            && (forall o :: !InFive(o, m, at) ==> (o in u <==> o in t))
            && (forall o :: o in t && !InFive(o, m, at) ==> u[o] == t[o])
  {
    PlusZero(delta);
  }

  lemma KeyOfFive(m: Meter, at: Time, k: Key)
    requires k == Key(FiveMinutes, Floor(at, FIVE_MINUTES), m.0, m.1)
    ensures forall o :: InFive(o, m, at) <==> o == k
  {
    forall o ensures InFive(o, m, at) <==> o == k { FiveIsOne(o, m, at); }
  }

  lemma RecordedRaises(t: Table, person: nat, m: Meter, delta: Bytes, at: Time)
    ensures Raised(t, Recorded(t, person, m, delta, at), m, delta, at)
  {
    var u := Recorded(t, person, m, delta, at);
    if delta == ZERO {
      PlusZero(Sum(t, FiveOf(t, m, at)));
    } else {
      var k := Key(FiveMinutes, Floor(at, FIVE_MINUTES), m.0, m.1);
      KeyOfFive(m, at, k);
      UpsertRaises(t, k, person, m, delta, at);
      FiveSums(t, m, at);
      FiveSums(u, m, at);
    }
  }

  // ---------- the service ----------

  datatype Reading = Reading(delta: Bytes, activity: bool, reset: bool)

  lemma FiveMinutesOf(date: Time)
    ensures var q := date / MINUTE; date % FIVE_MINUTES == (q % 60) % 5 * MINUTE + date % MINUTE
  {
  }

  lemma HourOf(date: Time)
    ensures var q := date / MINUTE; date % HOUR == q % 60 * MINUTE + date % MINUTE
  {
  }

  lemma DayOf(date: Time)
    ensures Floor(date, HOUR) / HOUR == date / HOUR
    ensures date % DAY == (date / HOUR) % 24 * HOUR + date % HOUR
    ensures (Floor(date, DAY) / MINUTE) % 60 == 0 && (Floor(date, HOUR) / MINUTE) % 60 == 0
  {
  }

  /** `floorDate` for the widths it is called with, by the setters of a UTC date: seconds, minutes, hours. */
  method FloorDate(date: Time, minutes: nat) returns (value: Time)
    requires minutes == 5 || minutes == 60 || minutes == 24 * 60
    ensures value == Floor(date, minutes * MINUTE)
  {
    value := date - date % MINUTE;
    var minute := (value / MINUTE) % 60;
    value := value + (minute / minutes * minutes - minute) * MINUTE;
    FiveMinutesOf(date);
    HourOf(date);
    assert minute == (date / MINUTE) % 60;
    if minutes >= 60 {
      assert minute / minutes == 0 && value == Floor(date, HOUR);
      var hours := minutes / 60;
      var hour := (value / HOUR) % 24;
      DayOf(date);
      value := value + (hour / hours * hours - hour) * HOUR;
      assert value == Floor(date, minutes * MINUTE);
      value := value - (value / MINUTE) % 60 * MINUTE;
    }
  }

  ghost function DueRows(t: Table, source: Bucket, before: Time): set<Key> {
    set k | k in t && Due(source, before, k)
  }

  lemma FibreGrows(moved: set<Key>, f: Relabelling, k: Key, k': Key)
    requires k !in moved
    ensures Fibre(moved + {k}, f, k') == if k' == f(k) then Fibre(moved, f, k') + {k} else Fibre(moved, f, k')
    ensures k !in Fibre(moved, f, k')
  {
  }

  lemma SumOneMore(t: Table, ks: set<Key>, k: Key)
    requires ks <= t.Keys && k in t && k !in ks
    ensures Sum(t, ks + {k}) == Sum(t, ks).Plus(t[k].bytes)
  {
    SumPick(t, ks + {k}, k);
    assert ks + {k} - {k} == ks;
    PlusSwaps(t[k].bytes, Sum(t, ks), ZERO);
    PlusZero(t[k].bytes);
    PlusZero(Sum(t, ks));
  }

  lemma TargetsGrow(moved: set<Key>, f: Relabelling, k: Key)
    ensures Targets(moved + {k}, f) == Targets(moved, f) + {f(k)}
  {
  }

  lemma RollOneElsewhere(t: Table, moved: set<Key>, f: Relabelling, k: Key, owners: Owners, k': Key)
    requires Owned(t, owners) && moved <= t.Keys && k in t && k !in moved && k' != f(k) && k' in Rolled(t, moved + {k}, f, owners)
    ensures k' in Rolled(t, moved, f, owners) && Rolled(t, moved + {k}, f, owners)[k'] == Rolled(t, moved, f, owners)[k']
  {
    TargetsGrow(moved, f, k);
    FibreGrows(moved, f, k, k');
    RolledAt(t, moved, f, owners, k');
    RolledAt(t, moved + {k}, f, owners, k');
  }

  /** The bytes at the target of a row, before and after the row is rolled up. */
  lemma BytesHere(t: Table, moved: set<Key>, f: Relabelling, k: Key, into: Key)
    requires moved <= t.Keys && k in t && k !in moved && into == f(k)
    ensures BytesAt(t, into).Plus(Sum(t, Fibre(moved + {k}, f, into))) == BytesAt(t, into).Plus(Sum(t, Fibre(moved, f, into))).Plus(t[k].bytes)
    ensures into !in t && into !in Targets(moved, f) ==> BytesAt(t, into).Plus(Sum(t, Fibre(moved, f, into))) == ZERO
  {
    FibreGrows(moved, f, k, into);
    SumOneMore(t, Fibre(moved, f, into), k);
    PlusSwaps(BytesAt(t, into), Sum(t, Fibre(moved, f, into)), t[k].bytes);
    TargetsAre(moved, f, into);
    PlusZero(ZERO);
  }

  lemma RollOneHere(t: Table, moved: set<Key>, f: Relabelling, k: Key, owners: Owners, into: Key)
    requires Owned(t, owners) && moved <= t.Keys && k in t && k !in moved && into == f(k)
    ensures var a, b := Rolled(t, moved, f, owners), Rolled(t, moved + {k}, f, owners);
            into in b && b[into] == if into in a then a[into].(bytes := a[into].bytes.Plus(t[k].bytes)) else t[k]
  {
    var a, b := Rolled(t, moved, f, owners), Rolled(t, moved + {k}, f, owners);
    TargetsGrow(moved, f, k);
    BytesHere(t, moved, f, k, into);
    RolledAt(t, moved + {k}, f, owners, into);
    if into in a { RolledAt(t, moved, f, owners, into); }
    PlusZero(t[k].bytes);
  }

  /** One row of a rollup: an upsert at the target extends what has been rolled so far. */
  lemma RollOne(t: Table, moved: set<Key>, f: Relabelling, k: Key, owners: Owners)
    requires Owned(t, owners) && moved <= t.Keys && k in t && k !in moved
    ensures Upsert(Rolled(t, moved, f, owners), f(k), t[k]) == Rolled(t, moved + {k}, f, owners)
  {
    var a, b, into := Rolled(t, moved, f, owners), Rolled(t, moved + {k}, f, owners), f(k);
    RollOneHere(t, moved, f, k, owners, into);
    TargetsGrow(moved, f, k);
    forall k' | k' in b && k' != into ensures k' in a && b[k'] == a[k'] {
      RollOneElsewhere(t, moved, f, k, owners, k');
    }
    UpsertIs(a, b, into, t[k]);
  }

  lemma UpsertIs(a: Table, b: Table, into: Key, sample: Sample)
    requires b.Keys == a.Keys + {into} && forall k :: k in b && k != into ==> k in a && b[k] == a[k]
    requires b[into] == if into in a then a[into].(bytes := a[into].bytes.Plus(sample.bytes)) else sample
    ensures Upsert(a, into, sample) == b
  {
    MapsAgree(Upsert(a, into, sample), b);
  }

  lemma RolledNone(t: Table, none: set<Key>, f: Relabelling, owners: Owners)
    requires Owned(t, owners) && none == {}
    ensures Rolled(t, none, f, owners) == t
  {
  }

  lemma OneLess(due: set<Key>, rows: set<Key>, k: Key)
    requires k in rows && rows <= due
    ensures due - rows + {k} == due - (rows - {k}) && k !in due - rows
  {
  }

  lemma RollNext(t: Table, due: set<Key>, rows: set<Key>, f: Relabelling, k: Key, owners: Owners)
    requires Owned(t, owners) && rows <= due && due <= t.Keys && k in rows
    ensures Upsert(Rolled(t, due - rows, f, owners), f(k), t[k]) == Rolled(t, due - (rows - {k}), f, owners)
  {
    OneLess(due, rows, k);
    RollOne(t, due - rows, f, k, owners);
  }

  class TrafficService {
    const owners: Owners  // devices with their person, as the devices table has them
    var cursors: map<Meter, Bytes>
    var samples: Table

    ghost predicate Valid()
      reads this
    {
      Owned(samples, owners)
    }

    constructor (owners: Owners)
      ensures Valid() && this.owners == owners && cursors == map[] && samples == map[]
    {
      this.owners, cursors, samples := owners, map[], map[];
    }

    method RecordCumulative(m: Meter, point: Bytes, at: Time) returns (reading: Reading)
      requires Valid()
      modifies this
      ensures Valid()
      ensures m.0 !in owners ==> cursors == old(cursors) && samples == old(samples) && reading == Reading(ZERO, false, false)
      ensures m.0 in owners ==>
        var cursor := Get(old(cursors), m);
        && cursors == old(cursors)[m := point]
        && reading.delta == Delta(cursor, point)
        && samples == Recorded(old(samples), owners[m.0], m, reading.delta, at)
        && (reading.reset <==> cursor.Some? && !cursor.value.AtMost(point))
        && (reading.activity <==> cursor.Some? && cursor.value.AtMost(point) && cursor.value != point)
    {
      if m.0 !in owners { return Reading(ZERO, false, false); }
      var cursor := Get(cursors, m);
      var reset := cursor.Some? && (point.up < cursor.value.up || point.down < cursor.value.down);
      var up := if cursor.Some? && point.up >= cursor.value.up then point.up - cursor.value.up else point.up;
      var down := if cursor.Some? && point.down >= cursor.value.down then point.down - cursor.value.down else point.down;
      cursors := cursors[m := point];
      AddSample(m, Bytes(up, down), at);
      return Reading(Bytes(up, down), cursor.Some? && !reset && (up > 0 || down > 0), reset);
    }

    /** The growth goes to the sample of its five minutes; without growth there is nothing to write. */
    method AddSample(m: Meter, delta: Bytes, at: Time)
      requires Valid() && m.0 in owners
      modifies this`samples
      ensures Valid() && samples == Recorded(old(samples), owners[m.0], m, delta, at)
    {
      var bucketAt := FloorDate(at, 5);
      if delta.up != 0 || delta.down != 0 {
        var k := Key(FiveMinutes, bucketAt, m.0, m.1);
        if k in samples {
          samples := samples[k := samples[k].(bytes := samples[k].bytes.Plus(delta))];
        } else {
          samples := samples[k := Sample(owners[m.0], delta)];
        }
      }
    }

    method Rollup(source: Bucket, target: Bucket, before: Time, minutes: nat)
      requires Valid() && source != target && minutes * MINUTE == Width(target) && target != FiveMinutes
      modifies this`samples
      ensures Valid()
      ensures samples == RollStatement(old(samples), source, target, before, owners)
    {
      ghost var t, due := samples, DueRows(samples, source, before);
      ghost var f := ToBucket(target);
      var rows := set k | k in samples && k.bucket == source && k.at < before;
      var values := samples;
      RolledNone(t, due - rows, f, owners);
      while rows != {}
        invariant rows <= due && samples == Rolled(t, due - rows, f, owners)
        decreases rows
      {
        var k :| k in rows;
        var at := FloorDate(k.at, minutes);
        var into := Key(target, at, k.device, k.engine);
        RollNext(t, due, rows, f, k, owners);
        samples := Upsert(samples, into, values[k]);
        rows := rows - {k};
      }
      assert due - rows == due;
      RolledOwned(t, due, f, owners);
    }

    /** Four statements in the order of the code; what they do together is one relabelling. */
    method Compact(reference: Time)
      requires Valid()
      modifies this`samples
      ensures Valid()
      ensures samples == Compacted(old(samples), reference, owners)
    {
      ghost var t := samples;
      var fiveMinuteCutoff := reference - 48 * HOUR;
      var hourlyCutoff := reference - 90 * DAY;
      Rollup(FiveMinutes, Hour, fiveMinuteCutoff, 60);
      Rollup(Hour, Day, hourlyCutoff, 24 * 60);
      Delete(FiveMinutes, fiveMinuteCutoff);
      Delete(Hour, hourlyCutoff);
      StatementsCompact(t, reference, owners);
    }

    method Delete(bucket: Bucket, before: Time)
      requires Valid()
      modifies this`samples
      ensures Valid() && samples == DeleteStatement(old(samples), bucket, before)
    {
      samples := samples - set k | k in samples && k.bucket == bucket && k.at < before;
    }
  }

  ghost function RollStatement(t: Table, source: Bucket, target: Bucket, before: Time, owners: Owners): Table
    requires Owned(t, owners)
  {
    Rolled(t, DueRows(t, source, before), ToBucket(target), owners)
  }

  ghost function DeleteStatement(t: Table, source: Bucket, before: Time): Table {
    t - DueRows(t, source, before)
  }

  lemma BucketOfTargets(ks: set<Key>, target: Bucket)
    ensures forall k :: k in Targets(ks, ToBucket(target)) ==> k.bucket == target
  {
  }

  /** A rollup writes into its target bucket only: elsewhere the same rows are due. */
  lemma RollLeavesDue(t: Table, source: Bucket, target: Bucket, before: Time, owners: Owners, other: Bucket, limit: Time)
    requires Owned(t, owners) && other != target
    ensures DueRows(RollStatement(t, source, target, before, owners), other, limit) == DueRows(t, other, limit)
  {
    BucketOfTargets(DueRows(t, source, before), target);
  }

  /** Rolling a bucket up and then deleting its due rows moves them. */
  lemma RollAndDelete(t: Table, source: Bucket, target: Bucket, before: Time, owners: Owners)
    requires Owned(t, owners) && source != target
    ensures DeleteStatement(RollStatement(t, source, target, before, owners), source, before)
         == Push(t, WhenDue(source, target, before), owners)
  {
    RollLeavesDue(t, source, target, before, owners, source, before);
    RollThenDelete(t, DueRows(t, source, before), ToBucket(target), WhenDue(source, target, before), owners);
  }

  /** The rollup to days neither reads nor writes the 5-minute rows that are deleted after it. */
  lemma DeleteCommutes(t: Table, five: Time, hourly: Time, owners: Owners)
    requires Owned(t, owners)
    ensures Owned(DeleteStatement(t, FiveMinutes, five), owners)
    ensures DeleteStatement(RollStatement(t, Hour, Day, hourly, owners), FiveMinutes, five)
         == RollStatement(DeleteStatement(t, FiveMinutes, five), Hour, Day, hourly, owners)
  {
    var due, gone := DueRows(t, Hour, hourly), DueRows(t, FiveMinutes, five);
    BucketOfTargets(due, Day);
    DeleteFirst(t, due, ToBucket(Day), gone, owners);
    RollLeavesDue(t, Hour, Day, hourly, owners, FiveMinutes, five);
    assert DueRows(t - gone, Hour, hourly) == due;
  }

  lemma StatementsCompact(t: Table, reference: Time, owners: Owners)
    requires Owned(t, owners)
    ensures var five, hourly := FiveMinuteCutoff(reference), HourlyCutoff(reference);
            var rolled := RollStatement(t, FiveMinutes, Hour, five, owners);
            && Owned(rolled, owners)
            && DeleteStatement(DeleteStatement(RollStatement(rolled, Hour, Day, hourly, owners), FiveMinutes, five), Hour, hourly)
               == Compacted(t, reference, owners)
            && Owned(Compacted(t, reference, owners), owners)
  {
    var five, hourly := FiveMinuteCutoff(reference), HourlyCutoff(reference);
    var rolled := RollStatement(t, FiveMinutes, Hour, five, owners);
    RolledOwned(t, DueRows(t, FiveMinutes, five), ToBucket(Hour), owners);
    RollAndDelete(t, FiveMinutes, Hour, five, owners);
    DeleteCommutes(rolled, five, hourly, owners);
    RollAndDelete(DeleteStatement(rolled, FiveMinutes, five), Hour, Day, hourly, owners);
    PushOwned(t, ByCompaction(reference), owners);
    PushTwice(t, WhenDue(FiveMinutes, Hour, five), WhenDue(Hour, Day, hourly), ByCompaction(reference), owners);
  }
}
