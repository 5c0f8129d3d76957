/**
  Device presence: one row per device and engine, the facts aggregated from them, and the events
  a device's history of polls writes to the journal.
*/
module Presence {
  import opened Common

  type Time = int  // milliseconds

  const RECENT: Time := 120_000
  const LONG: Time := 86_400_000

  datatype Status = Online | Offline | Unknown
  datatype Row = Row(status: Status, misses: nat, lastActive: Option<Time>)

  // ---------- one engine's row ----------

  function HysteriaRow(previous: Option<Row>, connections: int, at: Time): Row {
    if connections > 0 then Row(Online, 0, Some(at))
    else
      var misses := (if previous.Some? then previous.value.misses else 0) + 1;
      var status := if misses >= 2 then Offline else if previous.Some? then previous.value.status else Unknown;
      Row(status, misses, if previous.Some? then previous.value.lastActive else None)
  }

  function XrayRow(previous: Option<Row>, active: bool, at: Time): Row {
    var last := if active then Some(at) else if previous.Some? then previous.value.lastActive else None;
    Row(if last.Some? && at - last.value <= RECENT then Online else Offline, 0, last)
  }

  function UnknownRow(previous: Option<Row>): Row {
    Row(Unknown, if previous.Some? then previous.value.misses else 0, if previous.Some? then previous.value.lastActive else None)
  }

  // ---------- the facts of a device ----------

  datatype Event = FirstSeen(at: Time) | OfflineLong(at: Time, lastSeen: Time) | Returned(at: Time)
  datatype Facts = Facts(firstSeen: Option<Time>, lastSeen: Option<Time>, absentSince: Option<Time>)

  predicate Is(row: Option<Row>, status: Status) {
    row.Some? && row.value.status == status
  }

  function Aggregate(h: Option<Row>, x: Option<Row>): Status {
    if Is(h, Online) || Is(x, Online) then Online
    else if Is(h, Unknown) || Is(x, Unknown) || (h.None? && x.None?) then Unknown
    else Offline
  }

  function ActiveAt(row: Option<Row>): Option<Time> {
    if Is(row, Online) then row.value.lastActive else None
  }

  /** The latest activity among the engines that are online. */
  function SeenAt(h: Option<Row>, x: Option<Row>, at: Time): Time {
    match (ActiveAt(h), ActiveAt(x))
    case (Some(a), Some(b)) => Max(a, b)
    case (Some(a), None) => a
    case (None, Some(b)) => b
    case (None, None) => at
  }

  predicate LongGone(f: Facts, h: Option<Row>, x: Option<Row>, at: Time) {
    Aggregate(h, x) == Offline && f.lastSeen.Some? && f.absentSince.None? && at - f.lastSeen.value >= LONG
  }

  function NewFacts(f: Facts, h: Option<Row>, x: Option<Row>, at: Time): Facts {
    if Aggregate(h, x) == Online then
      var seen := SeenAt(h, x, at);
      Facts(if f.firstSeen.Some? then f.firstSeen else Some(seen), Some(seen), None)
    else if LongGone(f, h, x, at) then f.(absentSince := Some(at))
    else f
  }

  function NewEvents(f: Facts, h: Option<Row>, x: Option<Row>, at: Time): seq<Event> {
    if Aggregate(h, x) == Online then
      if f.firstSeen.None? then [FirstSeen(at)] else if f.absentSince.Some? then [Returned(at)] else []
    else if LongGone(f, h, x, at) then [OfflineLong(at, f.lastSeen.value)]
    else []
  }

  // ---------- the same by the rows alone ----------

  predicate OnlineNow(row: Option<Row>) {
    row.Some? && row.value.status == Online
  }

  /** The latest activity of the engines that are online. */
  predicate IsLatest(seen: Time, h: Option<Row>, x: Option<Row>) {
    && (OnlineNow(h) ==> h.value.lastActive.Some? && h.value.lastActive.value <= seen)
    && (OnlineNow(x) ==> x.value.lastActive.Some? && x.value.lastActive.value <= seen)
    && ((OnlineNow(h) && h.value.lastActive == Some(seen)) || (OnlineNow(x) && x.value.lastActive == Some(seen)))
  }

  predicate NoneOnlineOrUnknown(h: Option<Row>, x: Option<Row>) {
    && (h.Some? || x.Some?)
    && (h.Some? ==> h.value.status == Offline) && (x.Some? ==> x.value.status == Offline)
  }

  /** What becomes of the facts, and which events there are, when the facts are settled at `at` with these rows. */
  predicate Settle(f: Facts, h: Option<Row>, x: Option<Row>, at: Time, g: Facts, events: seq<Event>) {
    if OnlineNow(h) || OnlineNow(x) then
      && g.lastSeen.Some? && IsLatest(g.lastSeen.value, h, x) && g.absentSince == None
      && g.firstSeen == (if f.firstSeen.Some? then f.firstSeen else g.lastSeen)
      && events == (if f.firstSeen.None? then [FirstSeen(at)] else if f.absentSince.Some? then [Returned(at)] else [])
    else if NoneOnlineOrUnknown(h, x) && f.lastSeen.Some? && f.absentSince.None? && at - f.lastSeen.value >= 86_400_000 then
      g == f.(absentSince := Some(at)) && events == [OfflineLong(at, f.lastSeen.value)]
    else g == f && events == []
  }

  /** As it is over any polls: an engine online has been active. */
  predicate ActivityKnown(h: Option<Row>, x: Option<Row>) {
    (OnlineNow(h) ==> h.value.lastActive.Some?) && (OnlineNow(x) ==> x.value.lastActive.Some?)
  }

  lemma FactsSettle(f: Facts, h: Option<Row>, x: Option<Row>, at: Time)
    requires ActivityKnown(h, x)
    ensures Settle(f, h, x, at, NewFacts(f, h, x, at), NewEvents(f, h, x, at))
  {
  }

  // ---------- a device over its polls ----------

  datatype Reply<A> = NotPolled | Failure | Success(value: A)

  /**
    One stretch of a collection as a device sees it: connections from one engine, activity from the other,
    and whether it got as far as the facts. Collections may overlap, so that others come between.
  */
  datatype Poll = Poll(at: Time, hysteria: Reply<int>, xray: Reply<bool>, facts: bool)

  datatype Device = Device(h: Option<Row>, x: Option<Row>, facts: Facts, log: seq<Event>)

  const NEW_DEVICE := Device(None, None, Facts(None, None, None), [])

  function AfterHysteria(row: Option<Row>, p: Poll): Option<Row> {
    match p.hysteria
    case NotPolled => row
    case Failure => Some(UnknownRow(row))
    case Success(connections) => Some(HysteriaRow(row, connections, p.at))
  }

  function AfterXray(row: Option<Row>, p: Poll): Option<Row> {
    match p.xray
    case NotPolled => row
    case Failure => Some(UnknownRow(row))
    case Success(active) => Some(XrayRow(row, active, p.at))
  }

  function Polled(d: Device, p: Poll): Device {
    var h, x := AfterHysteria(d.h, p), AfterXray(d.x, p);
    if p.facts then Device(h, x, NewFacts(d.facts, h, x, p.at), d.log + NewEvents(d.facts, h, x, p.at))
    else d.(h := h, x := x)
  }

  function After(polls: seq<Poll>): Device {
    if polls == [] then NEW_DEVICE else Polled(After(polls[..|polls| - 1]), polls[|polls| - 1])
  }

  // ---------- the shape of a device's log ----------

  /** first_seen (offline_long returned)* offline_long?, or nothing. */
  predicate WellShaped(log: seq<Event>) {
    forall i :: 0 <= i < |log| ==>
      if i == 0 then log[i].FirstSeen? else if i % 2 == 1 then log[i].OfflineLong? else log[i].Returned?
  }

  predicate EndsAbsent(log: seq<Event>) {
    log != [] && log[|log| - 1].OfflineLong?
  }

  predicate DeviceOk(d: Device) {
    && WellShaped(d.log)
    && (d.facts.firstSeen.Some? <==> d.log != [])
    && (d.facts.lastSeen.Some? <==> d.log != [])
    && (d.facts.absentSince.Some? <==> EndsAbsent(d.log))
    && (forall i :: 0 <= i < |d.log| && d.log[i].OfflineLong? ==> d.log[i].at - d.log[i].lastSeen >= LONG)
  }

  lemma PollKeeps(d: Device, p: Poll)
    requires DeviceOk(d)
    ensures DeviceOk(Polled(d, p))
  {
  }

  /**
    For every run of polls: the device's log is well shaped, the absence mark stands exactly while
    it ends in a long absence, and each long absence was a day or more after the device was last seen.
  */
  lemma {:induction false} LogIsWellShaped(polls: seq<Poll>)
    ensures var d := After(polls);
            && WellShaped(d.log)
            && (d.facts.absentSince.Some? <==> EndsAbsent(d.log))
            && (d.facts.firstSeen.Some? <==> d.log != [])
            && (forall i :: 0 <= i < |d.log| && d.log[i].OfflineLong? ==> d.log[i].at - d.log[i].lastSeen >= 86_400_000)
            && DeviceOk(d)
  {
    if polls != [] {
      LogIsWellShaped(polls[..|polls| - 1]);
      PollKeeps(After(polls[..|polls| - 1]), polls[|polls| - 1]);
    }
  }

  // ---------- when Hysteria is offline ----------

  /** How many successful polls without a connection followed the last connection. */
  function EmptySince(polls: seq<Poll>): nat {
    if polls == [] then 0
    else
      var before, last := polls[..|polls| - 1], polls[|polls| - 1].hysteria;
      if last.Success? && last.value > 0 then 0
      else if last.Success? then EmptySince(before) + 1
      else EmptySince(before)
  }

  /** The last reply of the engine, polls that did not ask it aside. */
  function LastReply(polls: seq<Poll>): Reply<int> {
    if polls == [] then NotPolled
    else if polls[|polls| - 1].hysteria != NotPolled then polls[|polls| - 1].hysteria
    else LastReply(polls[..|polls| - 1])
  }

  lemma {:induction false} HysteriaFollowsPolls(polls: seq<Poll>)
    ensures var row := After(polls).h; var last := LastReply(polls);
            && (row.None? <==> last.NotPolled?)
            && EmptySince(polls) == (if row.Some? then row.value.misses else 0)
            && (row.Some? && last.Failure? ==> row.value.status == Unknown)
            && (row.Some? && last.Success? ==>
                  (row.value.status == Offline <==> row.value.misses >= 2)
                  && (last.value > 0 ==> row.value.misses == 0 && row.value.status == Online))
  {
    if polls != [] {
      HysteriaFollowsPolls(polls[..|polls| - 1]);
    }
  }

  /** Hysteria is offline exactly when its last poll succeeded and two successful empty polls or more followed the last connection. */
  lemma HysteriaOfflineIff(polls: seq<Poll>)
    ensures Is(After(polls).h, Offline) <==> LastReply(polls).Success? && EmptySince(polls) >= 2
  {
    HysteriaFollowsPolls(polls);
  }

  /** The last poll at which the traffic of the engine grew. */
  function LastActivity(polls: seq<Poll>): Option<Time> {
    if polls == [] then None
    else if polls[|polls| - 1].xray == Success(true) then Some(polls[|polls| - 1].at)
    else LastActivity(polls[..|polls| - 1])
  }

  lemma {:induction false} XrayRemembersActivity(polls: seq<Poll>)
    ensures LastActivity(polls) == if After(polls).x.Some? then After(polls).x.value.lastActive else None
  {
    if polls != [] {
      XrayRemembersActivity(polls[..|polls| - 1]);
    }
  }

  /** After a successful poll Xray is online exactly when traffic grew within the last two minutes, else offline. */
  lemma XrayOnlineIff(polls: seq<Poll>, last: Poll)
    requires last.xray.Success?
    ensures var all := polls + [last]; var activity := LastActivity(all);
            Is(After(all).x, if activity.Some? && last.at - activity.value <= 120_000 then Online else Offline)
  {
    var all := polls + [last];
    assert all[..|polls|] == polls;
    XrayRemembersActivity(all);
  }

  // ---------- the service ----------

  type Id = nat
  datatype DeviceRow = DeviceRow(active: bool, facts: Facts)
  datatype Entry = Entry(device: Id, event: Event)

  function Get(rows: map<(Id, Engine), Row>, d: Id, engine: Engine): Option<Row> {
    if (d, engine) in rows then Some(rows[(d, engine)]) else None
  }

  function LogOf(journal: seq<Entry>, d: Id): seq<Event> {
    if journal == [] then []
    else
      var n := |journal| - 1;
      LogOf(journal[..n], d) + (if journal[n].device == d then [journal[n].event] else [])
  }

  lemma {:induction false} LogOfMore(journal: seq<Entry>, d: Id, events: seq<Event>, k: Id)
    ensures LogOf(journal + Entries(d, events), k) == LogOf(journal, k) + (if k == d then events else [])
    decreases |events|
  {
    var more := journal + Entries(d, events);
    if events == [] {
      assert more == journal;
    } else {
      var n := |events| - 1;
      LogOfMore(journal, d, events[..n], k);
      assert more[..|more| - 1] == journal + Entries(d, events[..n]);
      assert events == events[..n] + [events[n]];
    }
  }

  function Entries(d: Id, events: seq<Event>): (es: seq<Entry>)
    ensures |es| == |events|
  {
    seq(|events|, i requires 0 <= i < |events| => Entry(d, events[i]))
  }

  /** What one engine's poll brought for all devices. */
  datatype Round = Connections(online: map<Id, int>, at: Time) | Activity(active: set<Id>, at: Time) | Lost(engine: Engine)

  function EngineOf(round: Round): Engine {
    match round
    case Connections(_, _) => Hysteria
    case Activity(_, _) => Xray
    case Lost(engine) => engine
  }

  /** The row a device gets in a round, as the history of its own polls has it. */
  function Answer(round: Round, d: Id, previous: Option<Row>): Row {
    match round
    case Connections(online, at) => HysteriaRow(previous, if d in online then online[d] else 0, at)
    case Activity(active, at) => XrayRow(previous, d in active, at)
    case Lost(_) => UnknownRow(previous)
  }

  /** The rows after a round: one new row for every device polled, all others as they were. */
  function Answered(rows: map<(Id, Engine), Row>, polled: set<Id>, round: Round): map<(Id, Engine), Row> {
    var engine := EngineOf(round);
    map k | k in rows.Keys + (set d | d in polled :: (d, engine)) ::
      if k.1 == engine && k.0 in polled then Answer(round, k.0, Get(rows, k.0, engine)) else rows[k]
  }

  lemma AnsweredMore(rows: map<(Id, Engine), Row>, polled: set<Id>, round: Round, d: Id)
    requires d !in polled
    ensures var engine := EngineOf(round);
            && Get(Answered(rows, polled, round), d, engine) == Get(rows, d, engine)
            && Answered(rows, polled, round)[(d, engine) := Answer(round, d, Get(rows, d, engine))]
               == Answered(rows, polled + {d}, round)
  {
  }

  class PresenceService {
    var rows: map<(Id, Engine), Row>
    var devices: map<Id, DeviceRow>
    var journal: seq<Entry>

    function Active(): set<Id>
      reads this
    {
      set d | d in devices && devices[d].active
    }

    constructor (devices: map<Id, DeviceRow>)
      ensures this.devices == devices && rows == map[] && journal == []
    {
      this.devices, rows, journal := devices, map[], [];
    }

    method UpdateHysteria(online: map<Id, int>, at: Time)
      modifies this`rows
      ensures rows == Answered(old(rows), Active(), Connections(online, at))
    {
      ghost var before := rows;
      var pending := Active();
      ghost var done: set<Id> := {};
      while pending != {}
        invariant done !! pending && done + pending == Active()
        invariant rows == Answered(before, done, Connections(online, at))
        decreases pending
      {
        var d :| d in pending;
        AnsweredMore(before, done, Connections(online, at), d);
        var connections := Max(0, if d in online then online[d] else 0);
        var previous := Get(rows, d, Hysteria);
        if connections > 0 {
          rows := rows[(d, Hysteria) := Row(Online, 0, Some(at))];
        } else {
          var misses := (if previous.Some? then previous.value.misses else 0) + 1;
          var status := if misses >= 2 then Offline else if previous.Some? then previous.value.status else Unknown;
          rows := rows[(d, Hysteria) := Row(status, misses, if previous.Some? then previous.value.lastActive else None)];
        }
        pending, done := pending - {d}, done + {d};
      }
    }

    method UpdateXray(active: set<Id>, at: Time)
      modifies this`rows
      ensures rows == Answered(old(rows), Active(), Activity(active, at))
    {
      ghost var before := rows;
      var pending := Active();
      ghost var done: set<Id> := {};
      while pending != {}
        invariant done !! pending && done + pending == Active()
        invariant rows == Answered(before, done, Activity(active, at))
        decreases pending
      {
        var d :| d in pending;
        AnsweredMore(before, done, Activity(active, at), d);
        var previous := Get(rows, d, Xray);
        var last := if d in active then Some(at) else if previous.Some? then previous.value.lastActive else None;
        var recent := last.Some? && at - last.value <= RECENT;
        rows := rows[(d, Xray) := Row(if recent then Online else Offline, 0, last)];
        pending, done := pending - {d}, done + {d};
      }
    }

    method MarkUnknown(engine: Engine)
      modifies this`rows
      ensures rows == Answered(old(rows), Active(), Lost(engine))
    {
      ghost var before := rows;
      var pending := Active();
      ghost var done: set<Id> := {};
      while pending != {}
        invariant done !! pending && done + pending == Active()
        invariant rows == Answered(before, done, Lost(engine))
        decreases pending
      {
        var d :| d in pending;
        AnsweredMore(before, done, Lost(engine), d);
        var previous := Get(rows, d, engine);
        rows := rows[(d, engine) := Row(Unknown, if previous.Some? then previous.value.misses else 0,
                                        if previous.Some? then previous.value.lastActive else None)];
        pending, done := pending - {d}, done + {d};
      }
    }

    /** Every active device gets its new facts and its own events, and no other device changes. */
    method UpdateDeviceFacts(at: Time)
      modifies this`devices, this`journal
      ensures devices.Keys == old(devices).Keys
      ensures forall d :: d in devices ==>
        devices[d] == if !old(devices)[d].active then old(devices)[d]
                      else DeviceRow(true, NewFacts(old(devices)[d].facts, Get(rows, d, Hysteria), Get(rows, d, Xray), at))
      ensures forall d :: d in devices ==>
        LogOf(journal, d) == LogOf(old(journal), d)
          + if !old(devices)[d].active then []
            else NewEvents(old(devices)[d].facts, Get(rows, d, Hysteria), Get(rows, d, Xray), at)
    {
      ghost var before, log := devices, journal;
      var pending := Active();
      ghost var done: set<Id> := {};
      while pending != {}
        invariant done !! pending && done + pending == set d | d in before && before[d].active
        invariant devices.Keys == before.Keys
        invariant forall d :: d in before ==>
          devices[d] == if d !in done then before[d]
                        else DeviceRow(true, NewFacts(before[d].facts, Get(rows, d, Hysteria), Get(rows, d, Xray), at))
        invariant forall d :: d in before ==>
          LogOf(journal, d) == LogOf(log, d)
            + if d !in done then [] else NewEvents(before[d].facts, Get(rows, d, Hysteria), Get(rows, d, Xray), at)
        decreases pending
      {
        var d :| d in pending;
        ghost var soFar := journal;
        ghost var events := NewEvents(before[d].facts, Get(rows, d, Hysteria), Get(rows, d, Xray), at);
        UpdateFacts(d, at);
        forall k | k in before ensures LogOf(journal, k) == LogOf(soFar, k) + if k == d then events else [] {
          LogOfMore(soFar, d, events, k);
        }
        pending, done := pending - {d}, done + {d};
      }
    }

    method UpdateFacts(d: Id, at: Time)
      requires d in devices && devices[d].active
      modifies this`devices, this`journal
      ensures var f, h, x := old(devices)[d].facts, Get(rows, d, Hysteria), Get(rows, d, Xray);
              && devices == old(devices)[d := DeviceRow(true, NewFacts(f, h, x, at))]
              && journal == old(journal) + Entries(d, NewEvents(f, h, x, at))
              && (ActivityKnown(h, x) ==> Settle(f, h, x, at, devices[d].facts, NewEvents(f, h, x, at)))
    {
      var facts := devices[d].facts;
      var h, x := Get(rows, d, Hysteria), Get(rows, d, Xray);
      if ActivityKnown(h, x) { FactsSettle(facts, h, x, at); }
      var aggregate := Aggregate(h, x);
      if aggregate == Online {
        var seen := SeenAt(h, x, at);
        var first, returned := facts.firstSeen.None?, facts.absentSince.Some?;
        devices := devices[d := DeviceRow(true, Facts(if first then Some(seen) else facts.firstSeen, Some(seen), None))];
        if first {
          journal := journal + [Entry(d, FirstSeen(at))];
        } else if returned {
          journal := journal + [Entry(d, Returned(at))];
        }
      } else if aggregate == Offline && facts.lastSeen.Some? && facts.absentSince.None? && at - facts.lastSeen.value >= LONG {
        devices := devices[d := DeviceRow(true, facts.(absentSince := Some(at)))];
        journal := journal + [Entry(d, OfflineLong(at, facts.lastSeen.value))];
      }
    }
  }
}
