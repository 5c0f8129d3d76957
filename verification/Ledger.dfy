/**
  The traffic ledger over values: counter readings become deltas in 5-minute buckets, and
  compaction moves old buckets into hours and days. A whole compaction is one relabelling of
  keys that adds up what meets, and everything promised of it follows from that.
*/
module Ledger {
  import opened Common

  type Time = int  // milliseconds since the epoch

  const MINUTE: Time := 60_000
  const FIVE_MINUTES: Time := 300_000
  const HOUR: Time := 3_600_000
  const DAY: Time := 86_400_000

  datatype Bytes = Bytes(up: nat, down: nat) {
    function Plus(b: Bytes): Bytes {
      Bytes(up + b.up, down + b.down)
    }

    predicate AtMost(b: Bytes) {
      up <= b.up && down <= b.down
    }
  }

  const ZERO := Bytes(0, 0)

  datatype Bucket = FiveMinutes | Hour | Day
  datatype Key = Key(bucket: Bucket, at: Time, device: nat, engine: Engine)
  datatype Sample = Sample(person: nat, bytes: Bytes)

  type Table = map<Key, Sample>
  type Owners = map<nat, nat>

  /** Every sample carries the person its device belongs to. */
  ghost predicate Owned(t: Table, owners: Owners) {
    forall k :: k in t ==> k.device in owners && t[k].person == owners[k.device]
  }

  function Floor(t: Time, width: Time): Time
    requires width > 0
  {
    t - t % width
  }

  function Width(bucket: Bucket): Time {
    match bucket
    case FiveMinutes => FIVE_MINUTES
    case Hour => HOUR
    case Day => DAY
  }

  // ---------- sums over a table ----------

  ghost function Sum(t: Table, ks: set<Key>): Bytes
    requires ks <= t.Keys
  {
    if ks == {} then ZERO else
      var k :| k in ks;
      t[k].bytes.Plus(Sum(t, ks - {k}))
  }

  /** The sum does not depend on the order the samples are added in. */
  lemma {:induction false} SumPick(t: Table, ks: set<Key>, k: Key)
    requires ks <= t.Keys && k in ks
    ensures Sum(t, ks) == t[k].bytes.Plus(Sum(t, ks - {k}))
    decreases ks
  {
    var p :| p in ks && Sum(t, ks) == t[p].bytes.Plus(Sum(t, ks - {p}));
    if p != k {
      var rest := ks - {p} - {k};
      assert rest == ks - {k} - {p};
      SumPick(t, ks - {p}, k);
      SumPick(t, ks - {k}, p);
      PlusSwaps(t[p].bytes, t[k].bytes, Sum(t, rest));
    }
  }

  lemma PlusSwaps(a: Bytes, b: Bytes, c: Bytes)
    ensures a.Plus(b.Plus(c)) == b.Plus(a.Plus(c)) == a.Plus(b).Plus(c)
  {
  }

  lemma PlusZero(a: Bytes)
    ensures ZERO.Plus(a) == a == a.Plus(ZERO)
  {
  }

  lemma {:induction false} SumUnion(t: Table, a: set<Key>, b: set<Key>)
    requires a <= t.Keys && b <= t.Keys && a !! b
    ensures Sum(t, a + b) == Sum(t, a).Plus(Sum(t, b))
    decreases |a|
  {
    if a == {} {
      assert a + b == b && Sum(t, a) == ZERO;
      PlusZero(Sum(t, b));
    } else {
      var k :| k in a;
      var rest := a - {k};
      assert rest !! b && rest + {k} == a && (rest + {k}) + b == a + b;
      SumUnion(t, rest, b);
      AddOne(t, rest, b, k);
    }
  }

  lemma AddOne(t: Table, a: set<Key>, b: set<Key>, k: Key)
    requires a <= t.Keys && b <= t.Keys && k in t && k !in a && k !in b
    requires Sum(t, a + b) == Sum(t, a).Plus(Sum(t, b))
    ensures Sum(t, (a + {k}) + b) == Sum(t, a + {k}).Plus(Sum(t, b))
  {
    var ak, abk := a + {k}, (a + {k}) + b;
    SumPick(t, ak, k);
    SumPick(t, abk, k);
    assert ak - {k} == a && abk - {k} == a + b;
    PlusSwaps(t[k].bytes, Sum(t, a), Sum(t, b));
  }

  lemma {:induction false} SumAgrees(t: Table, u: Table, ks: set<Key>)
    requires ks <= t.Keys && ks <= u.Keys && forall k :: k in ks ==> t[k].bytes == u[k].bytes
    ensures Sum(t, ks) == Sum(u, ks)
    decreases ks
  {
    if ks != {} {
      var k :| k in ks;
      SumPick(t, ks, k);
      SumPick(u, ks, k);
      SumAgrees(t, u, ks - {k});
    }
  }

  // ---------- where samples go ----------

  function FiveMinuteCutoff(reference: Time): Time {
    reference - 48 * HOUR
  }

  function HourlyCutoff(reference: Time): Time {
    reference - 90 * DAY
  }

  function Coarser(bucket: Bucket, k: Key): Key {
    Key(bucket, Floor(k.at, Width(bucket)), k.device, k.engine)
  }

  predicate Due(source: Bucket, before: Time, k: Key) {
    k.bucket == source && k.at < before
  }

  function Moved(source: Bucket, target: Bucket, before: Time, k: Key): Key {
    if Due(source, before, k) then Coarser(target, k) else k
  }

  /** Where a compaction at `reference` leaves a sample. */
  function Dest(reference: Time, k: Key): Key {
    Moved(Hour, Day, HourlyCutoff(reference), Moved(FiveMinutes, Hour, FiveMinuteCutoff(reference), k))
  }

  ghost predicate KeepsDevice(f: Key -> Key) {
    forall k {:trigger f(k)} :: f(k).device == k.device
  }

  type Relabelling = f: Key -> Key | KeepsDevice(f) witness (k => k)

  function ToBucket(target: Bucket): (f: Relabelling)
    ensures forall k :: f(k) == Coarser(target, k)
  {
    k => Coarser(target, k)
  }

  function WhenDue(source: Bucket, target: Bucket, before: Time): (f: Relabelling)
    ensures forall k :: f(k) == Moved(source, target, before, k)
  {
    k => Moved(source, target, before, k)
  }

  function ByCompaction(reference: Time): (f: Relabelling)
    ensures forall k :: f(k) == Dest(reference, k)
  {
    k => Dest(reference, k)
  }

  // ---------- relabelling a table ----------

  ghost function Fibre(ks: set<Key>, f: Relabelling, k': Key): set<Key> {
    set k | k in ks && f(k) == k'
  }

  ghost function Targets(ks: set<Key>, f: Relabelling): set<Key> {
    set k | k in ks :: f(k)
  }

  lemma TargetsAre(ks: set<Key>, f: Relabelling, k': Key)
    ensures k' in Targets(ks, f) <==> Fibre(ks, f, k') != {}
  {
    if k' in Targets(ks, f) {
      var k :| k in ks && f(k) == k';
      assert k in Fibre(ks, f, k');
    }
    if Fibre(ks, f, k') != {} {
      var k :| k in Fibre(ks, f, k');
    }
  }

  /** Move every sample to the key `f` gives it, adding up the samples that meet. */
  ghost function Push(t: Table, f: Relabelling, owners: Owners): (p: Table)
    requires Owned(t, owners)
    ensures p.Keys == Targets(t.Keys, f)
  {
    map k' | k' in Targets(t.Keys, f) :: Sample(owners[k'.device], Sum(t, Fibre(t.Keys, f, k')))
  }

  lemma MapsAgree(a: Table, b: Table)
    requires a.Keys == b.Keys && forall k :: k in a ==> a[k] == b[k]
    ensures a == b
  {
  }

  lemma PushAt(t: Table, f: Relabelling, owners: Owners, k: Key)
    requires Owned(t, owners) && k in Push(t, f, owners)
    ensures k.device in owners && Push(t, f, owners)[k] == Sample(owners[k.device], Sum(t, Fibre(t.Keys, f, k)))
  {
  }

  lemma PushOwned(t: Table, f: Relabelling, owners: Owners)
    requires Owned(t, owners)
    ensures Owned(Push(t, f, owners), owners)
  {
  }

  ghost function Preimage(t: Table, f: Relabelling, ks: set<Key>): set<Key> {
    set k | k in t && f(k) in ks
  }

  lemma PreimageSplits(t: Table, f: Relabelling, ks: set<Key>, k': Key)
    requires k' in ks
    ensures Preimage(t, f, ks) == Fibre(t.Keys, f, k') + Preimage(t, f, ks - {k'})
    ensures Fibre(t.Keys, f, k') !! Preimage(t, f, ks - {k'})
  {
  }

  /** A sum over relabelled samples is the sum over the samples they came from. */
  lemma {:induction false} PushSum(t: Table, f: Relabelling, owners: Owners, ks: set<Key>)
    requires Owned(t, owners) && ks <= Push(t, f, owners).Keys
    ensures Sum(Push(t, f, owners), ks) == Sum(t, Preimage(t, f, ks))
    decreases ks
  {
    if ks == {} {
      assert Preimage(t, f, ks) == {};
    } else {
      var k' :| k' in ks;
      SumPick(Push(t, f, owners), ks, k');
      PushSum(t, f, owners, ks - {k'});
      PreimageSplits(t, f, ks, k');
      SumUnion(t, Fibre(t.Keys, f, k'), Preimage(t, f, ks - {k'}));
    }
  }

  lemma TargetsTwice(ks: set<Key>, f: Relabelling, g: Relabelling, h: Relabelling)
    requires forall k :: k in ks ==> g(f(k)) == h(k)
    ensures Targets(Targets(ks, f), g) == Targets(ks, h)
  {
  }

  lemma PushTwiceAt(t: Table, f: Relabelling, g: Relabelling, h: Relabelling, owners: Owners, k: Key)
    requires Owned(t, owners) && (forall k :: k in t ==> g(f(k)) == h(k)) && k in Targets(t.Keys, h)
    ensures Owned(Push(t, f, owners), owners)
    ensures var p := Push(t, f, owners); Sum(p, Fibre(p.Keys, g, k)) == Sum(t, Fibre(t.Keys, h, k))
  {
    var p := Push(t, f, owners);
    PushOwned(t, f, owners);
    PushSum(t, f, owners, Fibre(p.Keys, g, k));
    FibreOfFibre(t, f, g, h, p.Keys, k);
  }

  lemma PushTwice(t: Table, f: Relabelling, g: Relabelling, h: Relabelling, owners: Owners)
    requires Owned(t, owners) && forall k :: k in t ==> g(f(k)) == h(k)
    ensures Owned(Push(t, f, owners), owners)
    ensures Push(Push(t, f, owners), g, owners) == Push(t, h, owners)
  {
    PushOwned(t, f, owners);
    TargetsTwice(t.Keys, f, g, h);
    var p := Push(t, f, owners);
    var a, b := Push(p, g, owners), Push(t, h, owners);
    forall k | k in a ensures a[k] == b[k] {
      PushTwiceAt(t, f, g, h, owners, k);
      PushAt(p, g, owners, k);
      PushAt(t, h, owners, k);
    }
    MapsAgree(a, b);
  }

  lemma FibreOfFibre(t: Table, f: Relabelling, g: Relabelling, h: Relabelling, ks: set<Key>, k': Key)
    requires forall k :: k in t ==> g(f(k)) == h(k) && f(k) in ks
    ensures Preimage(t, f, Fibre(ks, g, k')) == Fibre(t.Keys, h, k')
  {
  }

  // ---------- rolling up and deleting, as the statements do it ----------

  function BytesAt(t: Table, k: Key): Bytes {
    if k in t then t[k].bytes else ZERO
  }

  /** The samples `moved` are added at their targets but stay where they are. */
  ghost function Rolled(t: Table, moved: set<Key>, f: Relabelling, owners: Owners): (r: Table)
    requires Owned(t, owners) && moved <= t.Keys
    ensures r.Keys == t.Keys + Targets(moved, f)
  {
    map k' | k' in t.Keys + Targets(moved, f) :: Sample(owners[k'.device], BytesAt(t, k').Plus(Sum(t, Fibre(moved, f, k'))))
  }

  lemma RolledOwned(t: Table, moved: set<Key>, f: Relabelling, owners: Owners)
    requires Owned(t, owners) && moved <= t.Keys
    ensures Owned(Rolled(t, moved, f, owners), owners)
  {
  }

  lemma RolledAt(t: Table, moved: set<Key>, f: Relabelling, owners: Owners, k: Key)
    requires Owned(t, owners) && moved <= t.Keys && k in Rolled(t, moved, f, owners)
    ensures k.device in owners
    ensures Rolled(t, moved, f, owners)[k] == Sample(owners[k.device], BytesAt(t, k).Plus(Sum(t, Fibre(moved, f, k))))
  {
  }

  /** Deleting rows that the rollup neither reads nor writes may as well come first. */
  lemma DeleteFirst(t: Table, moved: set<Key>, f: Relabelling, gone: set<Key>, owners: Owners)
    requires Owned(t, owners) && moved <= t.Keys && gone !! moved && gone !! Targets(moved, f)
    ensures Owned(t - gone, owners)
    ensures Rolled(t, moved, f, owners) - gone == Rolled(t - gone, moved, f, owners)
  {
    assert (t.Keys + Targets(moved, f)) - gone == (t - gone).Keys + Targets(moved, f);
    forall k' | k' in t.Keys + Targets(moved, f) && k' !in gone
      ensures BytesAt(t, k').Plus(Sum(t, Fibre(moved, f, k'))) == BytesAt(t - gone, k').Plus(Sum(t - gone, Fibre(moved, f, k')))
    {
      SumAgrees(t, t - gone, Fibre(moved, f, k'));
    }
  }

  /** `g` moves the rows `moved` as `f` does, out of `moved`, and leaves all others. */
  ghost predicate Moves(ks: set<Key>, moved: set<Key>, f: Relabelling, g: Relabelling) {
    && moved <= ks
    && (forall k :: k in moved ==> g(k) == f(k) && f(k) !in moved)
    && (forall k :: k in ks && k !in moved ==> g(k) == k)
  }

  lemma MovedTargets(ks: set<Key>, moved: set<Key>, f: Relabelling, g: Relabelling)
    requires Moves(ks, moved, f, g)
    ensures (ks + Targets(moved, f)) - moved == Targets(ks, g)
  {
    forall k' | k' in (ks + Targets(moved, f)) - moved ensures k' in Targets(ks, g) {
      if k' in ks {
        assert g(k') == k';
      } else {
        var j :| j in moved && f(j) == k';
        assert g(j) == k';
      }
    }
  }

  lemma MovedFibre(ks: set<Key>, moved: set<Key>, f: Relabelling, g: Relabelling, k': Key)
    requires Moves(ks, moved, f, g) && k' !in moved
    ensures Fibre(ks, g, k') == (if k' in ks then {k'} else {}) + Fibre(moved, f, k')
    ensures k' !in Fibre(moved, f, k')
  {
  }

  /** What is at a key after the rows `came` have arrived there. */
  lemma StaysAndArrives(t: Table, all: set<Key>, came: set<Key>, k: Key)
    requires came <= t.Keys && k !in came && all == (if k in t then {k} else {}) + came
    ensures Sum(t, all) == BytesAt(t, k).Plus(Sum(t, came))
  {
    if k in t {
      SumPick(t, all, k);
      assert all - {k} == came;
    } else {
      assert all == came;
      PlusZero(Sum(t, came));
    }
  }

  lemma RollThenDeleteAt(t: Table, moved: set<Key>, f: Relabelling, g: Relabelling, k: Key)
    requires Moves(t.Keys, moved, f, g) && k !in moved
    ensures BytesAt(t, k).Plus(Sum(t, Fibre(moved, f, k))) == Sum(t, Fibre(t.Keys, g, k))
  {
    MovedFibre(t.Keys, moved, f, g, k);
    StaysAndArrives(t, Fibre(t.Keys, g, k), Fibre(moved, f, k), k);
  }

  /** Rolling rows up and deleting them is moving them. */
  lemma RollThenDelete(t: Table, moved: set<Key>, f: Relabelling, g: Relabelling, owners: Owners)
    requires Owned(t, owners) && Moves(t.Keys, moved, f, g)
    ensures Rolled(t, moved, f, owners) - moved == Push(t, g, owners)
  {
    var a, b := Rolled(t, moved, f, owners) - moved, Push(t, g, owners);
    MovedTargets(t.Keys, moved, f, g);
    forall k | k in a ensures a[k] == b[k] {
      RollThenDeleteAt(t, moved, f, g, k);
      RolledAt(t, moved, f, owners, k);
      PushAt(t, g, owners, k);
    }
    MapsAgree(a, b);
  }

  // ---------- compaction ----------

  ghost function Compacted(t: Table, reference: Time, owners: Owners): Table
    requires Owned(t, owners)
  {
    Push(t, ByCompaction(reference), owners)
  }

  lemma HourRest(q: int, r: int)
    requires 0 <= r < HOUR
    ensures (HOUR * q + r) % HOUR == r
  {
  }

  lemma DayRest(q: int, r: int)
    requires 0 <= r < DAY
    ensures (DAY * q + r) % DAY == r
  {
  }

  lemma FloorOfFloor(t: Time)
    ensures Floor(Floor(t, HOUR), DAY) == Floor(t, DAY) && Floor(Floor(t, DAY), DAY) == Floor(t, DAY)
    ensures Floor(t, DAY) <= Floor(t, HOUR) <= t < Floor(t, HOUR) + HOUR && t < Floor(t, DAY) + DAY
  {
    var d, rest := t / DAY, t % DAY;
    var h, m := rest / HOUR, rest % HOUR;
    assert 0 <= h < 24 && t == DAY * d + rest && rest == HOUR * h + m;
    HourRest(24 * d + h, m);
    DayRest(d, HOUR * h);
    DayRest(d, 0);
  }

  /** A sample moves within its UTC day, to a bucket that contains its old start. */
  lemma DestWithinDay(reference: Time, k: Key)
    ensures var d := Dest(reference, k);
            && d.device == k.device && d.engine == k.engine && Floor(d.at, DAY) == Floor(k.at, DAY)
            && d.at <= k.at && (d == k || k.at < d.at + Width(d.bucket))
  {
    FloorOfFloor(k.at);
  }

  lemma DestAbsorbs(r1: Time, r2: Time, k: Key)
    requires r1 <= r2
    ensures Dest(r2, Dest(r1, k)) == Dest(r2, k)
  {
  }

  /** A later compaction absorbs an earlier one; with equal references, compaction is idempotent. */
  lemma CompactionAbsorbs(t: Table, r1: Time, r2: Time, owners: Owners)
    requires Owned(t, owners) && r1 <= r2
    ensures Owned(Compacted(t, r1, owners), owners)
    ensures Compacted(Compacted(t, r1, owners), r2, owners) == Compacted(t, r2, owners)
  {
    var f, g := ByCompaction(r1), ByCompaction(r2);
    forall k | k in t ensures g(f(k)) == g(k) { DestAbsorbs(r1, r2, k); }
    PushTwice(t, f, g, g, owners);
  }

  // ---------- conservation ----------

  ghost function OfDay(t: Table, day: Time, device: nat, engine: Engine): set<Key> {
    set k | k in t && Floor(k.at, DAY) == day && k.device == device && k.engine == engine
  }

  lemma DaysOfDest(t: Table, c: Table, reference: Time, day: Time, device: nat, engine: Engine)
    requires c.Keys == Targets(t.Keys, ByCompaction(reference))
    ensures Preimage(t, ByCompaction(reference), OfDay(c, day, device, engine)) == OfDay(t, day, device, engine)
  {
    forall k | k in t ensures ByCompaction(reference)(k) in c && Floor(ByCompaction(reference)(k).at, DAY) == Floor(k.at, DAY) {
      DestWithinDay(reference, k);
    }
  }

  /** Upload and download of every UTC day, device and engine are the same after a compaction. */
  lemma CompactionConservesDays(t: Table, reference: Time, owners: Owners, day: Time, device: nat, engine: Engine)
    requires Owned(t, owners)
    ensures var c := Compacted(t, reference, owners);
            Sum(c, OfDay(c, day, device, engine)) == Sum(t, OfDay(t, day, device, engine))
  {
    var c := Compacted(t, reference, owners);
    PushSum(t, ByCompaction(reference), owners, OfDay(c, day, device, engine));
    DaysOfDest(t, c, reference, day, device, engine);
  }

  /** The keys an overview of a period counts; None is the whole history. */
  ghost function InPeriod(t: Table, since: Option<Time>): set<Key> {
    set k | k in t && (since.None? || k.at >= since.value)
  }

  ghost function Totals(t: Table, since: Option<Time>): Bytes {
    Sum(t, InPeriod(t, since))
  }

  /** The samples of the period whose new bucket starts before the period does. */
  ghost function Lost(t: Table, reference: Time, since: Time): set<Key> {
    set k | k in t && Dest(reference, k).at < since <= k.at
  }

  lemma PeriodOfDest(t: Table, c: Table, reference: Time, since: Time)
    requires c.Keys == Targets(t.Keys, ByCompaction(reference))
    ensures var kept := Preimage(t, ByCompaction(reference), InPeriod(c, Some(since)));
            InPeriod(t, Some(since)) == kept + Lost(t, reference, since) && kept !! Lost(t, reference, since)
    ensures Preimage(t, ByCompaction(reference), InPeriod(c, None)) == InPeriod(t, None)
  {
    forall k | k in t ensures ByCompaction(reference)(k) in c && ByCompaction(reference)(k).at <= k.at {
      DestWithinDay(reference, k);
    }
  }

  /**
    A compaction takes from a period exactly the samples that moved into a bucket starting before
    it, and that bucket contains the start of the period; the whole history keeps its total.
  */
  lemma CompactionAndPeriods(t: Table, reference: Time, owners: Owners, since: Time)
    requires Owned(t, owners)
    ensures var c := Compacted(t, reference, owners);
            && Totals(t, Some(since)) == Totals(c, Some(since)).Plus(Sum(t, Lost(t, reference, since)))
            && Totals(t, None) == Totals(c, None)
    ensures forall k :: k in Lost(t, reference, since) ==>
              var d := Dest(reference, k); d != k && d.at < since < d.at + Width(d.bucket)
  {
    var f, c := ByCompaction(reference), Compacted(t, reference, owners);
    PeriodOfDest(t, c, reference, since);
    PushSum(t, f, owners, InPeriod(c, Some(since)));
    PushSum(t, f, owners, InPeriod(c, None));
    SumUnion(t, Preimage(t, f, InPeriod(c, Some(since))), Lost(t, reference, since));
    forall k | k in Lost(t, reference, since) ensures var d := Dest(reference, k); d != k && d.at < since < d.at + Width(d.bucket) {
      DestWithinDay(reference, k);
    }
  }

  lemma MidnightSeparates(a: Time, midnight: Time, b: Time)
    requires a < midnight <= b && midnight % DAY == 0
    ensures Floor(a, DAY) < Floor(b, DAY)
  {
  }

  lemma NothingLost(t: Table, reference: Time, since: Time)
    requires since % DAY == 0
    ensures Sum(t, Lost(t, reference, since)) == ZERO
  {
    forall k | k in t ensures !(Dest(reference, k).at < since <= k.at) {
      DestWithinDay(reference, k);
      if Dest(reference, k).at < since <= k.at {
        MidnightSeparates(Dest(reference, k).at, since, k.at);
      }
    }
    assert Lost(t, reference, since) == {};
  }

  /** A period that starts at a UTC midnight keeps its total. */
  lemma CompactionKeepsMidnightPeriods(t: Table, reference: Time, owners: Owners, since: Time)
    requires Owned(t, owners) && since % DAY == 0
    ensures Totals(Compacted(t, reference, owners), Some(since)) == Totals(t, Some(since))
  {
    NothingLost(t, reference, since);
    CompactionAndPeriods(t, reference, owners, since);
  }
}
